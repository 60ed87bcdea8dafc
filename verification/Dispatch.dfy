/** From the planner's choice of nodes to the request that the agent handles: when the
    entries it reads ask its own host for each resource at most once. */
module Dispatch {
  import opened Types
  import opened Seqs
  import opened Allocator
  import opened Requests
  import opened Planner
  import opened Parsing
  import opened Text

  /** The shares of a JOB_REQUEST for the entries read, with what dialling would give. */
  ghost function ReqsOf(ws: seq<Want>, dials: seq<Option<Conn>>): (reqs: seq<Req>)
    requires |dials| == |ws|
    ensures |reqs| == |ws|
    ensures forall i :: 0 <= i < |ws| ==> reqs[i] == Req(ws[i].host, ws[i].res, ws[i].amount, dials[i])
  {
    seq(|ws|, i requires 0 <= i < |ws| => Req(ws[i].host, ws[i].res, ws[i].amount, dials[i]))
  }

  /** The entries ask a host for each resource at most once. */
  ghost predicate Once(ws: seq<Want>, h: string) {
    forall i, j :: 0 <= i < j < |ws| && ws[i].host == h && ws[j].host == h ==> ws[i].res != ws[j].res
  }

  /** The entries of one host. */
  ghost function WantsAt(ws: seq<Want>, h: string): seq<Want> {
    if ws == [] then []
    else if ws[0].host == h then [ws[0]] + WantsAt(ws[1..], h)
    else WantsAt(ws[1..], h)
  }

  lemma {:induction false} WantsAtMember(ws: seq<Want>, h: string)
    ensures forall w :: w in WantsAt(ws, h) <==> w in ws && w.host == h
  {
    if ws != [] {
      WantsAtMember(ws[1..], h);
      Halves(ws, 1);
    }
  }

  lemma OnceRest(vs: seq<Want>, h: string)
    requires vs != [] && Once(vs, h)
    ensures Once(vs[1..], h)
    ensures vs[0].host == h ==> forall x :: x in vs[1..] && x.host == h ==> x.res != vs[0].res
  {
    var ws := vs[1..];
    assert forall i :: 0 <= i < |ws| ==> ws[i] == vs[i+1];
  }

  lemma OnceCons(w: Want, ws: seq<Want>, h: string)
    ensures Once([w] + ws, h)
            <==> Once(ws, h) && (w.host == h ==> forall x :: x in ws && x.host == h ==> x.res != w.res)
  {
    var vs := [w] + ws;
    Parts([w], ws);
    if Once(vs, h) { OnceRest(vs, h); }
    if Once(ws, h) && (w.host == h ==> forall x :: x in ws && x.host == h ==> x.res != w.res) {
      forall i, j | 0 <= i < j < |vs| && vs[i].host == h && vs[j].host == h ensures vs[i].res != vs[j].res {
        assert vs[j] == ws[j-1] && ws[j-1] in ws;
        assert i > 0 ==> vs[i] == ws[i-1];
      }
    }
  }

  /** Only the entries of the host matter. */
  lemma {:induction false} OnceAt(ws: seq<Want>, h: string)
    ensures Once(ws, h) <==> Once(WantsAt(ws, h), h)
  {
    if ws != [] {
      OnceAt(ws[1..], h);
      WantsAtMember(ws[1..], h);
      Halves(ws, 1);
      OnceCons(ws[0], ws[1..], h);
      OnceCons(ws[0], WantsAt(ws[1..], h), h);
    }
  }

  lemma {:induction false} WantsAtSplit(a: seq<Want>, b: seq<Want>, h: string)
    ensures WantsAt(a + b, h) == WantsAt(a, h) + WantsAt(b, h)
  {
    if a == [] {
      Nil(b);
      Nil(WantsAt(b, h));
    } else {
      CutLeft(a, b, 1);
      WantsAtSplit(a[1..], b, h);
      Assoc([a[0]], WantsAt(a[1..], h), WantsAt(b, h));
    }
  }

  lemma {:induction false} WantsAtAll(ws: seq<Want>, h: string)
    ensures (forall w :: w in ws ==> w.host == h) ==> WantsAt(ws, h) == ws
    ensures (forall w :: w in ws ==> w.host != h) ==> WantsAt(ws, h) == []
  {
    if ws != [] {
      assert ws[0] in ws;
      WantsAtAll(ws[1..], h);
      Halves(ws, 1);
    }
  }

  lemma OwnHost(d: Draw)
    ensures forall w :: w in WantsOf(d) ==> w.host == d.host
  {
  }

  lemma OwnOnce(d: Draw, h: string)
    ensures Once(WantsOf(d), h)
  {
  }

  /** The entries of a host are those of its nodes. */
  lemma {:induction false} WantsOfHost(ds: seq<Draw>, h: string)
    ensures WantsAt(AllWants(ds), h) == AllWants(OfHost(ds, h))
  {
    if ds != [] {
      var d, rest := ds[0], OfHost(ds[1..], h);
      WantsOfHost(ds[1..], h);
      WantsAtSplit(WantsOf(d), AllWants(ds[1..]), h);
      OwnHost(d);
      WantsAtAll(WantsOf(d), h);
      if d.host == h {
        Parts([d], rest);
      } else {
        Nil(AllWants(rest));
      }
    }
  }

  ghost predicate DistinctHosts(ds: seq<Draw>) {
    forall i, j :: 0 <= i < j < |ds| ==> ds[i].host != ds[j].host
  }

  lemma {:induction false} OneOfHost(ds: seq<Draw>, h: string)
    requires DistinctHosts(ds)
    ensures |OfHost(ds, h)| <= 1
    ensures (forall i :: 0 <= i < |ds| ==> ds[i].host != h) ==> OfHost(ds, h) == []
  {
    if ds != [] {
      assert forall i :: 0 <= i < |ds[1..]| ==> ds[1..][i] == ds[i+1];
      OneOfHost(ds[1..], h);
    }
  }

  /** One node asks for each resource at most once. */
  lemma OneNodeOnce(ds: seq<Draw>, h: string)
    requires |ds| <= 1
    ensures Once(AllWants(ds), h)
  {
    if ds != [] {
      Nil(WantsOf(ds[0]));
      assert AllWants(ds[1..]) == [];
      OwnOnce(ds[0], h);
    }
  }

  /** The entries that the agent reads from the planner's line make a request that it
      can take, if and only if the nodes of its own host among those chosen ask for
      each resource at most once; so they do if no host was chosen twice. */
  lemma PlannedRequest(id: int, ds: seq<Draw>, ip: string, dials: seq<Option<Conn>>)
    requires 0 <= id <= INT_MAX && (forall i :: 0 <= i < |ds| ==> Sane(ds[i])) && HostsFit(ds)
    requires forall i :: 0 <= i < |dials| && dials[i].Some? ==> dials[i].value.Peer?
    requires var r := JobRequestOf(JobRequestLine(id, HostSort(ds))); r.Some? ==> |dials| == |r.value.1|
    ensures var r := JobRequestOf(JobRequestLine(id, HostSort(ds)));
            && r.Some?
            && (RequestOk(ip, ReqsOf(r.value.1, dials)) <==> Once(AllWants(OfHost(ds, ip)), ip))
            && (DistinctHosts(ds) ==> RequestOk(ip, ReqsOf(r.value.1, dials)))
  {
    RequestRoundTrip(id, ds);
    LineWants(id, ds);
    var ws := AllWants(HostSort(ds));
    HostSortSorts(ds);
    WantsOfHost(HostSort(ds), ip);
    OnceAt(ws, ip);
    TakesRequest(ip, ws, dials);
    forall i | 0 <= i < |ws| ensures ws[i].amount > 0 { WantHosts(HostSort(ds), ws[i]); }
    if DistinctHosts(ds) {
      OneOfHost(ds, ip);
      OneNodeOnce(OfHost(ds, ip), ip);
    }
  }

  lemma LineWants(id: int, ds: seq<Draw>)
    requires 0 <= id <= INT_MAX && (forall i :: 0 <= i < |ds| ==> Sane(ds[i])) && HostsFit(ds)
    ensures JobRequestOf(JobRequestLine(id, HostSort(ds))) == Some((id, AllWants(HostSort(ds))))
  {
    SortKeepsHosts(ds);
    LineParses(id, HostSort(ds));
  }

  lemma TakesRequest(ip: string, ws: seq<Want>, dials: seq<Option<Conn>>)
    requires |dials| == |ws| && forall i :: 0 <= i < |dials| && dials[i].Some? ==> dials[i].value.Peer?
    ensures (forall i :: 0 <= i < |ws| ==> ws[i].amount > 0) ==> (RequestOk(ip, ReqsOf(ws, dials)) <==> Once(ws, ip))
  {
    var reqs := ReqsOf(ws, dials);
    if RequestOk(ip, reqs) {
      forall i, j | 0 <= i < j < |ws| && ws[i].host == ip && ws[j].host == ip ensures ws[i].res != ws[j].res {
        assert reqs[i].host == ip && reqs[j].host == ip;
      }
    }
  }
}
