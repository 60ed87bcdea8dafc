/** The NODES reply: built by the agent from its table of nodes, in a buffer that
    may not hold them all, and taken apart again by the planner. */
module Nodes {
  import opened Types
  import opened Seqs
  import opened Text
  import opened Framing
  import opened Channel

  /** An entry of the node table. */
  datatype Node = Node(ip: string, port: int, cpu: int, mem: int, gpu: int)

  /** Parts written one after the other with a separator between them. */
  function Join(ps: seq<string>, sep: char): string {
    if ps == [] then []
    else if |ps| == 1 then ps[0]
    else ps[0] + ([sep] + Join(ps[1..], sep))
  }

  function PartsOf(n: Node): seq<string> {
    [n.ip, Print(n.port), "cpu", Print(n.cpu), "mem", Print(n.mem), "gpu", Print(n.gpu)]
  }

  function Body(n: Node): string { Join(PartsOf(n), ':') }

  /** snprintf into tmp[128] with "%s:%d:cpu:%d:mem:%d:gpu:%d;". */
  function Item(n: Node): string { Clip(Body(n) + ";", 127) }

  function Append(buf: string, n: Node): string {
    if |buf| + |Item(n)| < BUFF_SIZE - 2 then buf + Item(n) else buf
  }

  function AppendAll(buf: string, ns: seq<Node>): string
    decreases |ns|
  {
    if ns == [] then buf else AppendAll(Append(buf, ns[0]), ns[1..])
  }

  /** The last ';' becomes the newline; with no node the newline is added. */
  function Close(buf: string): string {
    if |buf| > 6 && buf[|buf|-1] == ';' then buf[..|buf|-1] + "\n" else buf + "\n"
  }

  function Reply(ns: seq<Node>): string { Close(AppendAll("NODES ", ns)) }

  /** The nodes in the order in which the buckets are walked. */
  function Walk(buckets: seq<seq<Node>>): seq<Node> {
    if buckets == [] then [] else Walk(buckets[..|buckets|-1]) + buckets[|buckets|-1]
  }

  lemma {:induction false} AppendAllConcat(buf: string, a: seq<Node>, b: seq<Node>)
    ensures AppendAll(buf, a + b) == AppendAll(AppendAll(buf, a), b)
    decreases |a|
  {
    if a == [] {
      Nil(b);
    } else {
      CutLeft(a, b, 1);
      AppendAllConcat(Append(buf, a[0]), a[1..], b);
    }
  }

  method AppendBucket(buf: string, b: seq<Node>) returns (r: string)
    ensures r == AppendAll(buf, b)
  {
    r := buf;
    for i := 0 to |b|
      invariant AppendAll(buf, b) == AppendAll(r, b[i..])
    {
      r := Append(r, b[i]);
      assert b[i..][1..] == b[i+1..];
    }
  }

  /** GET_NODES. */
  method GetNodes(buckets: seq<seq<Node>>) returns (r: string)
    ensures r == Reply(Walk(buckets))
  {
    var buf := "NODES ";
    assert buckets[..0] == [];
    for i := 0 to |buckets|
      invariant buf == AppendAll("NODES ", Walk(buckets[..i]))
    {
      AppendAllConcat("NODES ", Walk(buckets[..i]), buckets[i]);
      assert buckets[..i+1][..i] == buckets[..i];
      buf := AppendBucket(buf, buckets[i]);
    }
    assert buckets[..|buckets|] == buckets;
    r := Close(buf);
  }

  // ---------------------------------------------------------------- what fits

  /** The nodes that go into a buffer of which `used` bytes are taken. */
  function Fitted(used: nat, ns: seq<Node>): seq<Node>
    decreases |ns|
  {
    if ns == [] then []
    else if used + |Item(ns[0])| < BUFF_SIZE - 2 then [ns[0]] + Fitted(used + |Item(ns[0])|, ns[1..])
    else Fitted(used, ns[1..])
  }

  function Items(ns: seq<Node>): string {
    if ns == [] then [] else Item(ns[0]) + Items(ns[1..])
  }

  lemma ItemsCons(buf: string, n: Node, ns: seq<Node>)
    ensures buf + Items([n] + ns) == buf + Item(n) + Items(ns)
  {
    Parts([n], ns);
    Assoc(buf, Item(n), Items(ns));
  }

  lemma {:induction false} AppendAllIs(buf: string, ns: seq<Node>)
    ensures AppendAll(buf, ns) == buf + Items(Fitted(|buf|, ns))
    ensures |buf| < BUFF_SIZE - 2 ==> |AppendAll(buf, ns)| < BUFF_SIZE - 2
    decreases |ns|
  {
    if ns == [] {
      Nil(buf);
    } else {
      AppendAllIs(Append(buf, ns[0]), ns[1..]);
      if |buf| + |Item(ns[0])| < BUFF_SIZE - 2 {
        ItemsCons(buf, ns[0], Fitted(|buf| + |Item(ns[0])|, ns[1..]));
      }
    }
  }

  /** If all the items fit together, no node is left out. */
  lemma {:induction false} AllFit(used: nat, ns: seq<Node>)
    requires used + |Items(ns)| < BUFF_SIZE - 2
    ensures Fitted(used, ns) == ns
    decreases |ns|
  {
    if ns != [] {
      AllFit(used + |Item(ns[0])|, ns[1..]);
      assert ns == [ns[0]] + ns[1..];
    }
  }

  lemma {:induction false} FittedSane(used: nat, ns: seq<Node>)
    requires forall i :: 0 <= i < |ns| ==> Sane(ns[i])
    ensures forall i :: 0 <= i < |Fitted(used, ns)| ==> Sane(Fitted(used, ns)[i])
    decreases |ns|
  {
    if ns != [] {
      FittedSane(used + |Item(ns[0])|, ns[1..]);
      FittedSane(used, ns[1..]);
    }
  }

  // ---------------------------------------------------------------- the planner's parse

  /** string:split(S, Sep, all). */
  function Split(s: string, sep: char): seq<string>
    decreases |s|
  {
    var n := RunWithout(s, sep, |s|);
    if n == |s| then [s] else [s[..n]] + Split(s[n+1..], sep)
  }

  /** armar_lista; None where it has no matching clause. */
  function ArmarLista(ps: seq<string>): Option<seq<(string, string)>> {
    if ps == [] then Some([])
    else if ps[0] == "host" && |ps| >= 3 then Cons(("host", ps[1]), ArmarLista(ps[3..]))
    else if |ps| < 2 then None
    else if ps[0] == "gpu" then Cons(("gpu", Trim(ps[1])), ArmarLista(ps[2..]))
    else Cons((ps[0], ps[1]), ArmarLista(ps[2..]))
  }

  function Cons(p: (string, string), rest: Option<seq<(string, string)>>): Option<seq<(string, string)>> {
    match rest
    case None => None
    case Some(l) => Some([p] + l)
  }

  /** maps:from_list: of two pairs with the same key the later one counts. */
  function FromList(l: seq<(string, string)>): map<string, string> {
    if l == [] then map[] else map[l[0].0 := l[0].1] + FromList(l[1..])
  }

  function ReadNode(text: string): Option<map<string, string>> {
    match ArmarLista(["host"] + Split(text, ':'))
    case None => None
    case Some(l) => Some(FromList(l))
  }

  function ReadNodes(texts: seq<string>): Option<seq<map<string, string>>> {
    if texts == [] then Some([])
    else
      match ReadNodes(texts[1..])
      case None => None
      case Some(ms) =>
        if texts[0] == "" then Some(ms)
        else
          match ReadNode(texts[0])
          case None => None
          case Some(m) => Some([m] + ms)
  }

  /** get_nodes_recv on a line, with its newline. */
  function PlannerReads(line: string): Option<seq<map<string, string>>> {
    match Literal(line, "NODES ")
    case None => None
    case Some(data) => ReadNodes(Split(Trim(data), ';'))
  }

  // ---------------------------------------------------------------- the round trip

  predicate Free(s: string) {
    forall i :: 0 <= i < |s| ==> s[i] != ':' && s[i] != ';' && s[i] != NUL && !IsSpace(s[i])
  }

  /** What the node table holds: an address of at most 15 characters and ints. */
  predicate Sane(n: Node) {
    && Free(n.ip) && |n.ip| <= 15
    && IsInt(n.port) && IsInt(n.cpu) && IsInt(n.mem) && IsInt(n.gpu)
  }

  /** What the planner should know of a node. */
  function Facts(n: Node): map<string, string> {
    map["host" := n.ip, "cpu" := Print(n.cpu), "mem" := Print(n.mem), "gpu" := Print(n.gpu)]
  }

  function AllFacts(ns: seq<Node>): seq<map<string, string>> {
    if ns == [] then [] else [Facts(ns[0])] + AllFacts(ns[1..])
  }

  lemma PrintFree(n: int)
    ensures Free(Print(n))
  {
    PrintText(n);
  }

  lemma SplitLast(a: string, sep: char)
    requires sep !in a
    ensures Split(a, sep) == [a]
  {
    RunWithoutIs(a, "", sep, |a|);
    Nil(a);
  }

  lemma SplitThen(a: string, b: string, sep: char)
    requires sep !in a
    ensures Split(a + ([sep] + b), sep) == [a] + Split(b, sep)
  {
    var s := a + ([sep] + b);
    RunWithoutIs(a, [sep] + b, sep, |s|);
    Parts(a, [sep] + b);
    assert s[|a|+1..] == b;
  }

  /** Splitting undoes joining. */
  lemma {:induction false} SplitJoin(ps: seq<string>, sep: char)
    requires ps != [] && forall i :: 0 <= i < |ps| ==> sep !in ps[i]
    ensures Split(Join(ps, sep), sep) == ps
  {
    if |ps| == 1 {
      SplitLast(ps[0], sep);
    } else {
      SplitThen(ps[0], Join(ps[1..], sep), sep);
      SplitJoin(ps[1..], sep);
      assert ps == [ps[0]] + ps[1..];
    }
  }

  lemma PartsFree(n: Node)
    requires Sane(n)
    ensures forall i :: 0 <= i < |PartsOf(n)| ==> Free(PartsOf(n)[i]) && (i > 0 ==> |PartsOf(n)[i]| <= 11)
  {
    PrintFree(n.port);
    PrintFree(n.cpu);
    PrintFree(n.mem);
    PrintFree(n.gpu);
    PrintLength(n.port);
    PrintLength(n.cpu);
    PrintLength(n.mem);
    PrintLength(n.gpu);
  }

  /** Characters of a body: none of ';', white space or NUL. */
  predicate Tidy(s: string) { forall i :: 0 <= i < |s| ==> s[i] != ';' && s[i] != NUL && !IsSpace(s[i]) }

  lemma {:induction false} JoinTidy(ps: seq<string>)
    requires forall i :: 0 <= i < |ps| ==> Free(ps[i]) && |ps[i]| <= 11
    ensures Tidy(Join(ps, ':')) && |Join(ps, ':')| <= 12 * |ps|
  {
    if |ps| > 1 { JoinTidy(ps[1..]); }
  }

  /** No item is ever cut short by its buffer. */
  lemma BodyTidy(n: Node)
    requires Sane(n)
    ensures Tidy(Body(n)) && Body(n) != [] && Item(n) == Body(n) + ";"
  {
    var ps := PartsOf(n)[1..];
    PartsFree(n);
    JoinTidy(ps);
    assert Body(n) == n.ip + (":" + Join(ps, ':'));
  }

  lemma NodeParts(n: Node)
    requires Sane(n)
    ensures Split(Body(n), ':') == PartsOf(n)
  {
    PartsFree(n);
    SplitJoin(PartsOf(n), ':');
  }

  lemma {:induction false} TrimRightNone(s: string)
    requires forall i :: 0 <= i < |s| ==> !IsSpace(s[i])
    ensures TrimRight(s) == s && TrimRight(s + "\n") == s && SkipSpace(s) == s
  {
    Parts(s, "\n");
    assert TrimRight(s + "\n") == TrimRight(s);
  }

  lemma KeysDiffer()
    ensures "cpu" != "host" && "mem" != "host" && "gpu" != "host" && "cpu" != "gpu" && "mem" != "gpu" && "cpu" != "mem"
  {
    assert "cpu"[0] != "host"[0] && "mem"[0] != "host"[0] && "gpu"[0] != "host"[0];
    assert "cpu"[0] != "gpu"[0] && "mem"[0] != "gpu"[0] && "cpu"[0] != "mem"[0];
  }

  function PairsOf(n: Node): seq<(string, string)> {
    [("host", n.ip)] + ([("cpu", Print(n.cpu))] + ([("mem", Print(n.mem))] + ([("gpu", Print(n.gpu))] + [])))
  }

  /** armar_lista on the parts of a node makes the four pairs. */
  lemma ListOfParts(n: Node)
    ensures ArmarLista(["host"] + PartsOf(n)) == Some(PairsOf(n))
  {
    var c, m, g := Print(n.cpu), Print(n.mem), Print(n.gpu);
    PrintFree(n.gpu);
    TrimRightNone(g);
    KeysDiffer();
    var p4 := ["gpu", g];
    var p3 := ["mem", m] + p4;
    var p2 := ["cpu", c] + p3;
    var p1 := ["host"] + PartsOf(n);
    assert p4[2..] == [] && p3[2..] == p4 && p2[2..] == p3 && p1[3..] == p2;
    assert ArmarLista(p4) == Cons(("gpu", g), ArmarLista([]));
    assert ArmarLista(p3) == Cons(("mem", m), ArmarLista(p4));
    assert ArmarLista(p2) == Cons(("cpu", c), ArmarLista(p3));
    assert ArmarLista(p1) == Cons(("host", n.ip), ArmarLista(p2));
  }

  lemma FromCons(p: (string, string), l: seq<(string, string)>)
    ensures FromList([p] + l) == map[p.0 := p.1] + FromList(l)
  {
    Parts([p], l);
  }

  lemma MapOfList(n: Node)
    ensures FromList(PairsOf(n)) == Facts(n)
  {
    var l4 := [("gpu", Print(n.gpu))] + [];
    var l3 := [("mem", Print(n.mem))] + l4;
    var l2 := [("cpu", Print(n.cpu))] + l3;
    FromCons(("gpu", Print(n.gpu)), []);
    FromCons(("mem", Print(n.mem)), l4);
    FromCons(("cpu", Print(n.cpu)), l3);
    FromCons(("host", n.ip), l2);
    KeysDiffer();
  }

  lemma NodeReads(n: Node)
    requires Sane(n)
    ensures Body(n) != "" && ReadNode(Body(n)) == Some(Facts(n))
  {
    BodyTidy(n);
    NodeParts(n);
    ListOfParts(n);
    MapOfList(n);
  }

  function Bodies(ns: seq<Node>): (bs: seq<string>)
    ensures |bs| == |ns|
  {
    if ns == [] then [] else [Body(ns[0])] + Bodies(ns[1..])
  }

  lemma {:induction false} BodiesRead(ns: seq<Node>)
    requires forall i :: 0 <= i < |ns| ==> Sane(ns[i])
    ensures ReadNodes(Bodies(ns)) == Some(AllFacts(ns))
  {
    if ns != [] {
      BodiesRead(ns[1..]);
      NodeReads(ns[0]);
      Parts([Body(ns[0])], Bodies(ns[1..]));
    }
  }

  predicate NoBlank(s: string) { forall i :: 0 <= i < |s| ==> s[i] != NUL && !IsSpace(s[i]) }

  lemma {:induction false} BodiesTidy(ns: seq<Node>)
    requires forall i :: 0 <= i < |ns| ==> Sane(ns[i])
    ensures forall i :: 0 <= i < |Bodies(ns)| ==> ';' !in Bodies(ns)[i]
    ensures NoBlank(Join(Bodies(ns), ';'))
    ensures ns != [] ==> Items(ns) == Join(Bodies(ns), ';') + ";"
  {
    if ns != [] {
      var rest := ns[1..];
      BodiesTidy(rest);
      BodyTidy(ns[0]);
      Parts([Body(ns[0])], Bodies(rest));
      if rest == [] {
        Nil(Item(ns[0]));
      } else {
        var j := Join(Bodies(rest), ';');
        Assoc(Body(ns[0]), ";", j + ";");
        Assoc(";", j, ";");
        Assoc(Body(ns[0]), ";" + j, ";");
      }
    }
  }

  lemma CloseIs(head: string, text: string)
    requires |head| == 6 && text != []
    ensures Close(head + (text + ";")) == head + (text + "\n")
  {
    Assoc(head, text, ";");
    Parts(head + text, ";");
    Assoc(head, text, "\n");
  }

  lemma JoinNonempty(ns: seq<Node>)
    requires ns != [] && Sane(ns[0])
    ensures Join(Bodies(ns), ';') != []
  {
    BodyTidy(ns[0]);
  }

  lemma CloseItems(head: string, fs: seq<Node>)
    requires |head| == 6 && forall i :: 0 <= i < |fs| ==> Sane(fs[i])
    ensures Close(head + Items(fs)) == head + (Join(Bodies(fs), ';') + "\n")
  {
    if fs == [] {
      Nil(head);
      Nil("\n");
    } else {
      BodiesTidy(fs);
      JoinNonempty(fs);
      CloseIs(head, Join(Bodies(fs), ';'));
    }
  }

  /** The reply is one line: the bodies of the nodes that fitted, with ';' between them. */
  lemma ReplyText(ns: seq<Node>)
    requires forall i :: 0 <= i < |ns| ==> Sane(ns[i])
    ensures Reply(ns) == "NODES " + (Join(Bodies(Fitted(6, ns)), ';') + "\n")
  {
    FittedSane(6, ns);
    AppendAllIs("NODES ", ns);
    CloseItems("NODES ", Fitted(6, ns));
  }

  lemma TrimLine(j: string)
    requires NoBlank(j)
    ensures Trim(j + "\n") == j
  {
    TrimRightNone(j);
    if j == [] {
      Nil("\n");
      assert SkipSpace("\n") == "";
    } else {
      assert SkipSpace(j + "\n") == j + "\n";
    }
  }

  lemma SplitBodies(fs: seq<Node>)
    requires forall i :: 0 <= i < |fs| ==> Sane(fs[i])
    ensures ReadNodes(Split(Join(Bodies(fs), ';'), ';')) == Some(AllFacts(fs))
  {
    BodiesTidy(fs);
    if fs == [] {
      SplitLast("", ';');
      assert [""][1..] == [];
    } else {
      SplitJoin(Bodies(fs), ';');
      BodiesRead(fs);
    }
  }

  lemma DataReads(fs: seq<Node>)
    requires forall i :: 0 <= i < |fs| ==> Sane(fs[i])
    ensures ReadNodes(Split(Trim(Join(Bodies(fs), ';') + "\n"), ';')) == Some(AllFacts(fs))
  {
    BodiesTidy(fs);
    TrimLine(Join(Bodies(fs), ';'));
    SplitBodies(fs);
  }

  lemma CloseLength(buf: string)
    requires |buf| < BUFF_SIZE - 2
    ensures |Close(buf)| < BUFF_SIZE - 1
  {}

  lemma ReplyLength(ns: seq<Node>)
    ensures |Reply(ns)| < BUFF_SIZE - 1
  {
    AppendAllIs("NODES ", ns);
    CloseLength(AppendAll("NODES ", ns));
  }

  lemma HeadShort(j: string)
    requires NoBlank(j) && |"NODES " + (j + "\n")| < BUFF_SIZE - 1
    ensures Short("NODES " + j) && "NODES " + (j + "\n") == "NODES " + j + "\n"
  {
    Assoc("NODES ", j, "\n");
    assert Plain("NODES ");
  }

  ghost predicate OneLine(text: string) { exists line :: Short(line) && text == line + "\n" }

  /** From the agent to the planner: the reply is a single line that the agent's
      write buffer can take, and the planner recovers exactly the host and the
      amounts of the nodes that fitted, in the order of the walk, whatever the
      table, the empty one included. */
  lemma NodesRoundTrip(ns: seq<Node>)
    requires forall i :: 0 <= i < |ns| ==> Sane(ns[i])
    ensures PlannerReads(Reply(ns)) == Some(AllFacts(Fitted(6, ns)))
    ensures |Reply(ns)| < BUFF_SIZE - 1 && OneLine(Reply(ns))
  {
    var fs := Fitted(6, ns);
    var j := Join(Bodies(fs), ';');
    FittedSane(6, ns);
    ReplyText(ns);
    ReplyLength(ns);
    DataReads(fs);
    LiteralThen("NODES ", j + "\n");
    BodiesTidy(fs);
    HeadShort(j);
  }
}
