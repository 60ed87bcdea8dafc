/** The agent's parsers, and what they make of the planner's JOB_REQUEST. */
module Parsing {
  import opened Types
  import opened Seqs
  import opened Text
  import opened Planner

  /** One entry of a request list. */
  datatype Want = Want(host: string, res: Res, amount: int)

  function NameOf(r: Res): string {
    match r
    case Cpu => "cpu"
    case Mem => "mem"
    case Gpu => "gpu"
  }

  function ResOf(name: string): Option<Res> {
    if name == "cpu" then Some(Cpu)
    else if name == "mem" then Some(Mem)
    else if name == "gpu" then Some(Gpu)
    else None
  }

  lemma ResOfName(r: Res)
    ensures ResOf(NameOf(r)) == Some(r)
  {
    if r == Mem { assert "mem"[0] != "cpu"[0]; }
    if r == Gpu { assert "gpu"[0] != "cpu"[0] && "gpu"[0] != "mem"[0]; }
  }

  // ---------------------------------------------------------------- parse_job_request

  /** strtok_r with " ": the next token and what is left after it. */
  function NextToken(s: string): (r: Option<(string, string)>)
    ensures r.Some? ==> |r.value.1| < |s| && r.value.0 != [] && ' ' !in r.value.0
  {
    if s == [] then None
    else if s[0] == ' ' then NextToken(s[1..])
    else
      var n := RunWithout(s, ' ', |s|);
      Some((s[..n], s[n..]))
  }

  function Tokens(s: string): seq<string>
    decreases |s|
  {
    match NextToken(s)
    case None => []
    case Some(p) => [p.0] + Tokens(p.1)
  }

  /** sscanf with ":%7[^:]:%d%n". */
  function ScanPair(s: string): (r: Option<(string, int, string)>)
    ensures r.Some? ==> |r.value.2| < |s|
  {
    match Literal(s, ":")
    case None => None
    case Some(a) =>
      match ScanField(a, 7)
      case None => None
      case Some(name) =>
        match Literal(name.1, ":")
        case None => None
        case Some(b) =>
          match ScanInt(b)
          case None => None
          case Some(n) => Some((name.0, n.0, n.1))
  }

  function Wanted(host: string, r: Res, n: int): seq<Want> {
    if n > 0 then [Want(host, r, n)] else []
  }

  /** The pairs ":type:amount" that follow a host. */
  function Pairs(host: string, rest: string): Option<seq<Want>>
    decreases |rest|
  {
    if rest == [] || rest[0] != ':' then Some([])
    else
      match ScanPair(rest)
      case None => None
      case Some(p) =>
        match ResOf(p.0)
        case None => None
        case Some(r) =>
          match Pairs(host, p.2)
          case None => None
          case Some(ws) => Some(Wanted(host, r, p.1) + ws)
  }

  /** One token "@host:type:amount...". */
  function ParseBlock(token: string): Option<seq<Want>> {
    match Literal(token, "@")
    case None => None
    case Some(a) =>
      match ScanField(a, 15)
      case None => None
      case Some(host) =>
        if host.1 == [] || host.1[0] != ':' then None else Pairs(host.0, host.1)
  }

  function ParseBlocks(tokens: seq<string>): Option<seq<Want>> {
    if tokens == [] then Some([])
    else
      match ParseBlock(tokens[0])
      case None => None
      case Some(ws) =>
        match ParseBlocks(tokens[1..])
        case None => None
        case Some(vs) => Some(ws + vs)
  }

  /** sscanf with a keyword, white space and "%d". */
  function ScanId(s: string, keyword: string): Option<(int, string)> {
    match Literal(s, keyword)
    case None => None
    case Some(a) => ScanInt(a)
  }

  function Drop2(ts: seq<string>): seq<string> { if |ts| < 2 then [] else ts[2..] }

  /** What a JOB_REQUEST line says: its id and its request list. */
  function JobRequestOf(line: string): Option<(int, seq<Want>)> {
    match ScanId(line, "JOB_REQUEST")
    case None => None
    case Some(id) =>
      match ParseBlocks(Drop2(Tokens(line)))
      case None => None
      case Some(ws) => Some((id.0, ws))
  }

  /** What is still to be read, added to what has been. */
  function Onto(ws: seq<Want>, more: Option<seq<Want>>): Option<seq<Want>> {
    match more
    case None => None
    case Some(vs) => Some(ws + vs)
  }

  lemma OntoOnto(us: seq<Want>, vs: seq<Want>, more: Option<seq<Want>>)
    ensures Onto(us, Onto(vs, more)) == Onto(us + vs, more)
  {
    if more.Some? { Assoc(us, vs, more.value); }
  }

  /** The inner loop: the pairs of one token are appended to the list. */
  method ReadPairs(host: string, first: string, list: seq<Want>) returns (ok: bool, list': seq<Want>)
    ensures Onto(list, Pairs(host, first)) == if ok then Some(list') else None
  {
    var rest := first;
    list' := list;
    while rest != [] && rest[0] == ':'
      invariant Onto(list, Pairs(host, first)) == Onto(list', Pairs(host, rest))
      decreases |rest|
    {
      var p := ScanPair(rest);
      if p.None? { return false, list'; }
      var r := ResOf(p.value.0);
      if r.None? { return false, list'; }
      var w := Wanted(host, r.value, p.value.1);
      OntoOnto(list', w, Pairs(host, p.value.2));
      assert Pairs(host, rest) == Onto(w, Pairs(host, p.value.2));
      list' := list' + w;
      rest := p.value.2;
    }
    Nil(list');
    return true, list';
  }

  method ReadBlock(token: string, list: seq<Want>) returns (ok: bool, list': seq<Want>)
    ensures Onto(list, ParseBlock(token)) == if ok then Some(list') else None
  {
    var a := Literal(token, "@");
    if a.None? { return false, list; }
    var host := ScanField(a.value, 15);
    if host.None? { return false, list; }
    var rest := host.value.1;
    if rest == [] || rest[0] != ':' { return false, list; }
    ok, list' := ReadPairs(host.value.0, rest, list);
  }

  lemma BlocksStep(list: seq<Want>, t: string, ts: seq<string>)
    ensures Onto(list, ParseBlocks([t] + ts)) ==
            match Onto(list, ParseBlock(t)) { case None => None case Some(l) => Onto(l, ParseBlocks(ts)) }
  {
    Parts([t], ts);
    if ParseBlock(t).Some? { OntoOnto(list, ParseBlock(t).value, ParseBlocks(ts)); }
  }

  /** What strtok_r leaves after a token; nothing once it has returned NULL. */
  function AfterToken(s: string): string {
    var t := NextToken(s);
    if t.Some? then t.value.1 else []
  }

  lemma AfterTokens(s: string)
    ensures Tokens(AfterToken(AfterToken(s))) == Drop2(Tokens(s))
  {
    var a := AfterToken(s);
    assert Tokens([]) == [];
    if NextToken(s).Some? && NextToken(a).Some? {
      var t, u := NextToken(s).value.0, NextToken(a).value.0;
      var ts := Tokens(AfterToken(a));
      assert Tokens(s) == [t] + ([u] + ts);
      Assoc([t], [u], ts);
      Parts([t] + [u], ts);
    }
  }

  /** The outer loop: the blocks of the rest of the line, one token each. */
  method ReadBlocks(first: string) returns (r: Option<seq<Want>>)
    ensures r == ParseBlocks(Tokens(first))
  {
    var cursor := first;
    var list := [];
    Nothing(ParseBlocks(Tokens(first)));
    var t := NextToken(cursor);
    while t.Some?
      invariant ParseBlocks(Tokens(first)) == Onto(list, ParseBlocks(Tokens(cursor)))
      invariant t == NextToken(cursor)
      decreases |cursor|
    {
      BlocksStep(list, t.value.0, Tokens(t.value.1));
      var ok, more := ReadBlock(t.value.0, list);
      if !ok { return None; }
      list := more;
      cursor := t.value.1;
      t := NextToken(cursor);
    }
    Nil(list);
    return Some(list);
  }

  lemma Nothing(more: Option<seq<Want>>)
    ensures Onto([], more) == more
  {
    if more.Some? { Nil(more.value); }
  }

  /** parse_job_request. */
  method ParseJobRequest(line: string) returns (r: Option<(int, seq<Want>)>)
    ensures r == JobRequestOf(line)
  {
    var id := ScanId(line, "JOB_REQUEST");
    if id.None? { return None; }
    AfterTokens(line);
    var list := ReadBlocks(AfterToken(AfterToken(line)));
    r := if list.None? then None else Some((id.value.0, list.value));
  }

  // ---------------------------------------------------------------- the round trip

  predicate Clean(host: string) { ':' !in host && ' ' !in host }

  /** A host that %15[^:] reads whole. */
  predicate HostFits(host: string) { 0 < |host| <= 15 }

  predicate Sane(d: Draw) { Clean(d.host) && IsInt(d.cpu) && IsInt(d.mem) && IsInt(d.gpu) }

  /** The positive amounts of a node, as request entries. */
  function WantsOf(d: Draw): seq<Want> {
    Wanted(d.host, Cpu, d.cpu) + (Wanted(d.host, Mem, d.mem) + Wanted(d.host, Gpu, d.gpu))
  }

  function AllWants(ds: seq<Draw>): seq<Want> {
    if ds == [] then [] else WantsOf(ds[0]) + AllWants(ds[1..])
  }

  lemma FieldText(name: string, n: nat)
    requires n > 0
    ensures Field(name, n) == ":" + (name + (":" + Print(n)))
  {
    Assoc(":", name, ":");
    Assoc(":" + name, ":", Print(n));
    Assoc(":", name, ":" + Print(n));
  }

  predicate Ends(rest: string) { rest == [] || rest[0] == ':' }

  lemma PairScans(r: Res, n: nat, rest: string)
    requires 0 < n <= INT_MAX && Ends(rest)
    ensures ScanPair(Field(NameOf(r), n) + rest) == Some((NameOf(r), n, rest))
  {
    var name := NameOf(r);
    var b := Print(n) + rest;
    var a := name + (":" + b);
    FieldText(name, n);
    Assoc(":", name + (":" + Print(n)), rest);
    Assoc(name, ":" + Print(n), rest);
    Assoc(":", Print(n), rest);
    assert Field(name, n) + rest == ":" + a;
    LiteralThen(":", a);
    FieldThen(name, ":" + b, 7);
    LiteralThen(":", b);
    ScanPrinted(n, rest);
  }

  lemma PairParses(host: string, r: Res, n: nat, rest: string)
    requires n <= INT_MAX && Ends(rest)
    ensures Pairs(host, Field(NameOf(r), n) + rest) == Onto(Wanted(host, r, n), Pairs(host, rest))
    ensures Ends(Field(NameOf(r), n) + rest)
  {
    if n == 0 {
      Nil(rest);
      Nothing(Pairs(host, rest));
    } else {
      PairScans(r, n, rest);
      ResOfName(r);
      FieldText(NameOf(r), n);
      assert (Field(NameOf(r), n) + rest)[0] == ':';
    }
  }

  lemma FieldsParse(host: string, d: Draw)
    requires Sane(d)
    ensures Pairs(host, Fields(d)) == Some(WantsOf(d.(host := host)))
    ensures !d.Empty() ==> Fields(d) != [] && Fields(d)[0] == ':'
  {
    var g := Field("gpu", d.gpu);
    var m := Field("mem", d.mem) + g;
    Nil(g);
    PairParses(host, Gpu, d.gpu, "");
    PairParses(host, Mem, d.mem, g);
    PairParses(host, Cpu, d.cpu, m);
    Nil(Wanted(host, Gpu, d.gpu));
    if !d.Empty() { assert |Fields(d)| > 0; }
  }

  /** A block is read back as the node's positive amounts, if its host fits, and
      refused otherwise. */
  lemma BlockParses(d: Draw)
    requires Sane(d) && !d.Empty()
    ensures ParseBlock(Block(d)) == if HostFits(d.host) then Some(WantsOf(d)) else None
  {
    var f := Fields(d);
    FieldsParse(d.host, d);
    Assoc("@", d.host, f);
    LiteralThen("@", d.host + f);
    if HostFits(d.host) {
      FieldThen(d.host, f, 15);
    } else if d.host == [] {
      Nil(f);
    } else {
      LongField(d.host, f);
    }
  }

  lemma {:induction false} RunFull(a: string, b: string, stop: char, max: nat)
    requires |a| >= max && stop !in a
    ensures RunWithout(a + b, stop, max) == max
  {
    if max > 0 {
      CutLeft(a, b, 1);
      RunFull(a[1..], b, stop, max - 1);
    }
  }

  lemma LongField(a: string, b: string)
    requires |a| > 15 && ':' !in a
    ensures var r := ScanField(a + b, 15); r.Some? && r.value.1 != [] && r.value.1[0] != ':'
  {
    RunFull(a, b, ':', 15);
    assert (a + b)[15] == a[15];
  }

  // ---------------------------------------------------------------- tokens of the command

  lemma TokenThen(a: string, b: string)
    requires a != [] && ' ' !in a && (b == [] || b[0] == ' ')
    ensures NextToken(a + b) == Some((a, b)) && Tokens(a + b) == [a] + Tokens(b)
  {
    assert (a + b)[0] == a[0];
    RunWithoutIs(a, b, ' ', |a + b|);
    Parts(a, b);
  }

  lemma SpaceThen(b: string)
    ensures Tokens(" " + b) == Tokens(b)
  {
    Parts(" ", b);
  }

  function Blocks(ds: seq<Draw>): seq<string> {
    if ds == [] then []
    else if ds[0].Empty() then Blocks(ds[1..])
    else [Block(ds[0])] + Blocks(ds[1..])
  }

  lemma NumberHasNo(s: string, c: char)
    requires NumberText(s) && !NumberChar(c)
    ensures c !in s
  {}

  lemma FieldNoSpace(name: string, n: nat)
    requires ' ' !in name
    ensures ' ' !in Field(name, n)
  {
    PrintText(n);
    NumberHasNo(Print(n), ' ');
  }

  lemma BlockNoSpace(d: Draw)
    requires ' ' !in d.host
    ensures ' ' !in Block(d) && Block(d) != []
  {
    FieldNoSpace("cpu", d.cpu);
    FieldNoSpace("mem", d.mem);
    FieldNoSpace("gpu", d.gpu);
  }

  /** The command splits into the blocks of the nodes that are not skipped,
      whatever spaces the skipped ones leave at its end. */
  lemma {:induction false} CommandTokens(ds: seq<Draw>)
    requires forall i :: 0 <= i < |ds| ==> ' ' !in ds[i].host
    ensures Tokens(Command(ds)) == Blocks(ds)
  {
    if ds != [] {
      var rest := ds[1..];
      CommandTokens(rest);
      if !ds[0].Empty() {
        var b := Block(ds[0]);
        BlockNoSpace(ds[0]);
        if rest == [] {
          TokenThen(b, "");
          Nil(b);
        } else {
          Assoc(b, " ", Command(rest));
          TokenThen(b, " " + Command(rest));
          SpaceThen(Command(rest));
        }
      }
    }
  }

  ghost predicate HostsFit(ds: seq<Draw>) {
    forall i :: 0 <= i < |ds| && !ds[i].Empty() ==> HostFits(ds[i].host)
  }

  lemma HostsFitStep(ds: seq<Draw>)
    requires ds != []
    ensures HostsFit(ds) <==> (ds[0].Empty() || HostFits(ds[0].host)) && HostsFit(ds[1..])
  {
    assert forall i :: 0 < i < |ds| ==> ds[i] == ds[1..][i-1];
  }

  lemma EmptyWants(d: Draw)
    requires d.Empty()
    ensures WantsOf(d) == []
  {}

  lemma {:induction false} BlocksParse(ds: seq<Draw>)
    requires forall i :: 0 <= i < |ds| ==> Sane(ds[i])
    ensures ParseBlocks(Blocks(ds)) == if HostsFit(ds) then Some(AllWants(ds)) else None
  {
    if ds != [] {
      var rest := ds[1..];
      HostsFitStep(ds);
      BlocksParse(rest);
      if ds[0].Empty() {
        EmptyWants(ds[0]);
        Nil(AllWants(rest));
      } else {
        BlockParses(ds[0]);
        BlocksStep([], Block(ds[0]), Blocks(rest));
        Nothing(ParseBlocks(Blocks(ds)));
        Nothing(ParseBlock(Block(ds[0])));
      }
    }
  }

  lemma KeywordTokens(k: string, p: string, cmd: string)
    requires k != [] && ' ' !in k && p != [] && ' ' !in p
    ensures Tokens(k + (" " + (p + (" " + cmd)))) == [k] + ([p] + Tokens(cmd))
  {
    var tail := p + (" " + cmd);
    TokenThen(k, " " + tail);
    SpaceThen(tail);
    TokenThen(p, " " + cmd);
    SpaceThen(cmd);
  }

  lemma PrintNoSpace(n: int)
    ensures ' ' !in Print(n)
  {
    PrintText(n);
    NumberHasNo(Print(n), ' ');
  }

  lemma LineTokens(id: int, ds: seq<Draw>)
    ensures Drop2(Tokens(JobRequestLine(id, ds))) == Tokens(Command(ds))
  {
    var k, p, ts := "JOB_REQUEST", Print(id), Tokens(Command(ds));
    PrintNoSpace(id);
    KeywordTokens(k, p, Command(ds));
    Assoc([k], [p], ts);
    Parts([k] + [p], ts);
  }

  lemma LineId(id: int, k: string, rest: string)
    requires IsInt(id) && (rest == [] || !IsDigit(rest[0]))
    ensures ScanId(k + (" " + (Print(id) + rest)), k) == Some((id, rest))
  {
    var tail := Print(id) + rest;
    LiteralThen(k, " " + tail);
    ScanAfterSpace(tail);
    ScanPrinted(id, rest);
  }

  /** What the agent makes of a printed request: the id and exactly the positive
      amounts, in the printed order, unless a host that asks for something does
      not fit, and then nothing. */
  lemma LineParses(id: int, ds: seq<Draw>)
    requires IsInt(id) && forall i :: 0 <= i < |ds| ==> Sane(ds[i])
    ensures JobRequestOf(JobRequestLine(id, ds)) == if HostsFit(ds) then Some((id, AllWants(ds))) else None
  {
    LineId(id, "JOB_REQUEST", " " + Command(ds));
    LineTokens(id, ds);
    CommandTokens(ds);
    BlocksParse(ds);
  }

  // ---------------------------------------------------------------- sorted requests

  predicate WantsAscend(ws: seq<Want>) {
    forall i, j :: 0 <= i < j < |ws| ==> AtMost(ws[i].host, ws[j].host)
  }

  lemma {:induction false} WantHosts(ds: seq<Draw>, w: Want)
    requires w in AllWants(ds)
    ensures w.amount > 0 && exists i :: 0 <= i < |ds| && ds[i].host == w.host
  {
    if w in WantsOf(ds[0]) {
      assert ds[0].host == w.host;
    } else {
      WantHosts(ds[1..], w);
      var i :| 0 <= i < |ds[1..]| && ds[1..][i].host == w.host;
      assert ds[i+1].host == w.host;
    }
  }

  lemma {:induction false} WantsAscending(ds: seq<Draw>)
    requires Ascending(ds)
    ensures WantsAscend(AllWants(ds))
  {
    if ds != [] {
      var a, b := WantsOf(ds[0]), AllWants(ds[1..]);
      WantsAscending(ds[1..]);
      AtMostTotal(ds[0].host, ds[0].host);
      forall j | 0 <= j < |b| ensures AtMost(ds[0].host, b[j].host) {
        WantHosts(ds[1..], b[j]);
        var i :| 0 <= i < |ds[1..]| && ds[1..][i].host == b[j].host;
        assert ds[i+1].host == b[j].host;
      }
      assert forall i :: 0 <= i < |a| ==> a[i].host == ds[0].host;
    }
  }

  lemma {:induction false} WantsOfInsert(d: Draw, ds: seq<Draw>)
    ensures multiset(AllWants(Insert(d, ds))) == multiset(WantsOf(d)) + multiset(AllWants(ds))
  {
    if ds == [] || AtMost(d.host, ds[0].host) {
      Parts([d], ds);
    } else {
      WantsOfInsert(d, ds[1..]);
      Parts([ds[0]], Insert(d, ds[1..]));
    }
  }

  lemma {:induction false} WantsOfSort(ds: seq<Draw>)
    ensures multiset(AllWants(HostSort(ds))) == multiset(AllWants(ds))
  {
    if ds != [] {
      WantsOfSort(ds[1..]);
      WantsOfInsert(ds[0], HostSort(ds[1..]));
    }
  }

  lemma SortKeepsHosts(ds: seq<Draw>)
    ensures HostsFit(HostSort(ds)) <==> HostsFit(ds)
    ensures (forall i :: 0 <= i < |ds| ==> Sane(ds[i]))
            ==> forall i :: 0 <= i < |HostSort(ds)| ==> Sane(HostSort(ds)[i])
  {
    var ss := HostSort(ds);
    HostSortSorts(ds);
    forall i | 0 <= i < |ss| ensures ss[i] in ds { assert ss[i] in multiset(ss); }
    forall i | 0 <= i < |ds| ensures ds[i] in ss { assert ds[i] in multiset(ds); }
  }

  /** From the planner to the agent: whatever nodes are chosen, in any order, and
      whatever amounts are drawn, the agent reads the job id and exactly the
      positive (host, type, amount) entries, with the hosts in ascending order. */
  lemma RequestRoundTrip(id: int, ds: seq<Draw>)
    requires 0 <= id <= INT_MAX && forall i :: 0 <= i < |ds| ==> Sane(ds[i])
    ensures var r := JobRequestOf(JobRequestLine(id, HostSort(ds)));
            && (r.Some? <==> HostsFit(ds))
            && (r.Some? ==> r.value.0 == id && multiset(r.value.1) == multiset(AllWants(ds)) && WantsAscend(r.value.1))
  {
    SortKeepsHosts(ds);
    LineParses(id, HostSort(ds));
    HostSortSorts(ds);
    WantsAscending(HostSort(ds));
    WantsOfSort(ds);
  }
}
