/** The planner's side of the wire: the nodes sorted by host and printed as a
    JOB_REQUEST, with the random amounts as inputs. */
module Planner {
  import opened Types
  import opened Seqs
  import opened Text

  /** A node and the amounts drawn for it. */
  datatype Draw = Draw(host: string, cpu: nat, mem: nat, gpu: nat) {
    predicate Empty() { cpu == 0 && mem == 0 && gpu == 0 }
  }

  // ---------------------------------------------------------------- host_sort

  /** The order of Erlang strings: element by element, a proper prefix first. */
  predicate AtMost(a: string, b: string) {
    a == [] || (b != [] && (a[0] < b[0] || (a[0] == b[0] && AtMost(a[1..], b[1..]))))
  }

  lemma {:induction false} AtMostTotal(a: string, b: string)
    ensures AtMost(a, b) || AtMost(b, a)
    ensures AtMost(a, b) && AtMost(b, a) ==> a == b
  {
    if a != [] && b != [] && a[0] == b[0] {
      AtMostTotal(a[1..], b[1..]);
      assert a == [a[0]] + a[1..] && b == [b[0]] + b[1..];
    }
  }

  lemma {:induction false} AtMostTrans(a: string, b: string, c: string)
    requires AtMost(a, b) && AtMost(b, c)
    ensures AtMost(a, c)
  {
    if a != [] && a[0] == b[0] == c[0] { AtMostTrans(a[1..], b[1..], c[1..]); }
  }

  predicate Ascending(ds: seq<Draw>) {
    forall i, j :: 0 <= i < j < |ds| ==> AtMost(ds[i].host, ds[j].host)
  }

  /** Puts a node before the first one that does not come strictly before it. */
  function Insert(d: Draw, ds: seq<Draw>): seq<Draw> {
    if ds == [] || AtMost(d.host, ds[0].host) then [d] + ds
    else [ds[0]] + Insert(d, ds[1..])
  }

  /** host_sort: a stable sort by host. */
  function HostSort(ds: seq<Draw>): seq<Draw> {
    if ds == [] then [] else Insert(ds[0], HostSort(ds[1..]))
  }

  /** The nodes of one host, in their order. */
  function OfHost(ds: seq<Draw>, h: string): seq<Draw> {
    if ds == [] then []
    else if ds[0].host == h then [ds[0]] + OfHost(ds[1..], h)
    else OfHost(ds[1..], h)
  }

  lemma {:induction false} InsertSame(d: Draw, ds: seq<Draw>)
    ensures multiset(Insert(d, ds)) == multiset{d} + multiset(ds)
  {
    if ds != [] && !AtMost(d.host, ds[0].host) {
      InsertSame(d, ds[1..]);
      assert ds == [ds[0]] + ds[1..];
    }
  }

  lemma {:induction false} InsertAscending(d: Draw, ds: seq<Draw>)
    requires Ascending(ds)
    ensures Ascending(Insert(d, ds))
  {
    var e := Insert(d, ds);
    if ds == [] || AtMost(d.host, ds[0].host) {
      forall j | 0 <= j < |ds| ensures AtMost(d.host, ds[j].host) {
        if j > 0 { AtMostTrans(d.host, ds[0].host, ds[j].host); }
      }
    } else {
      var t := Insert(d, ds[1..]);
      InsertAscending(d, ds[1..]);
      InsertSame(d, ds[1..]);
      AtMostTotal(d.host, ds[0].host);
      forall j | 0 <= j < |t| ensures AtMost(ds[0].host, t[j].host) {
        assert t[j] in multiset(t);
        assert t[j] == d || t[j] in ds[1..];
      }
    }
  }

  lemma OfHostCons(d: Draw, ds: seq<Draw>, h: string)
    ensures OfHost([d] + ds, h) == if d.host == h then [d] + OfHost(ds, h) else OfHost(ds, h)
  {
    Parts([d], ds);
  }

  lemma {:induction false} InsertStable(d: Draw, ds: seq<Draw>, h: string)
    ensures OfHost(Insert(d, ds), h) == OfHost([d] + ds, h)
  {
    if ds != [] && !AtMost(d.host, ds[0].host) {
      InsertStable(d, ds[1..], h);
      OfHostCons(ds[0], Insert(d, ds[1..]), h);
      OfHostCons(d, ds[1..], h);
      OfHostCons(d, ds, h);
      AtMostTotal(d.host, d.host);
    }
  }

  /** The sort loses and adds nothing, puts the hosts in ascending order, and
      keeps the nodes of one host in the order they had. */
  lemma {:induction false} HostSortSorts(ds: seq<Draw>)
    ensures Ascending(HostSort(ds)) && multiset(HostSort(ds)) == multiset(ds)
    ensures forall h :: OfHost(HostSort(ds), h) == OfHost(ds, h)
  {
    if ds != [] {
      var t := HostSort(ds[1..]);
      HostSortSorts(ds[1..]);
      InsertAscending(ds[0], t);
      InsertSame(ds[0], t);
      assert ds == [ds[0]] + ds[1..];
      forall h ensures OfHost(HostSort(ds), h) == OfHost(ds, h) {
        InsertStable(ds[0], t, h);
        OfHostCons(ds[0], t, h);
      }
    }
  }

  // ---------------------------------------------------------------- armar_comando_ordenado

  function Field(name: string, n: nat): string {
    if n == 0 then "" else ":" + name + ":" + Print(n)
  }

  function Fields(d: Draw): string {
    Field("cpu", d.cpu) + (Field("mem", d.mem) + Field("gpu", d.gpu))
  }

  function Block(d: Draw): string { "@" + d.host + Fields(d) }

  /** A node for which nothing was drawn is skipped; the space after the others
      depends on there being more nodes, not on their being printed. */
  function Command(ds: seq<Draw>): string {
    if ds == [] then ""
    else if ds[0].Empty() then Command(ds[1..])
    else Block(ds[0]) + (if ds[1..] == [] then "" else " ") + Command(ds[1..])
  }

  /** The line that disparar_rafaga sends, without its newline. */
  function JobRequestLine(id: int, ds: seq<Draw>): string {
    "JOB_REQUEST" + (" " + (Print(id) + (" " + Command(ds))))
  }
}
