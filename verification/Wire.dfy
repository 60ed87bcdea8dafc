/** The messages between agents, and the planner's orders, as lines of text:
    printed on one side and recognised on the other. */
module Wire {
  import opened Types
  import opened Seqs
  import opened Text
  import opened Parsing
  import opened Framing
  import opened Channel

  // ---------------------------------------------------------------- printing

  function KeywordOf(m: Msg): string {
    match m
    case Reserve(_, _, _) => "RESERVE"
    case Release(_, _, _) => "RELEASE"
    case Granted(_) => "GRANTED"
    case Denied(_) => "DENIED"
    case JobGranted(_) => "JOB_GRANTED"
    case JobDenied(_) => "JOB_DENIED"
  }

  function WithId(keyword: string, id: int): string { keyword + (" " + Print(id)) }

  function WithShare(keyword: string, id: int, r: Res, amount: int): string {
    keyword + (" " + (Print(id) + (" " + (NameOf(r) + (" " + Print(amount))))))
  }

  /** The line that the agent prints for a message, without its newline. */
  function Encode(m: Msg): string {
    match m
    case Reserve(id, r, amount) => WithShare(KeywordOf(m), id, r, amount)
    case Release(id, r, amount) => WithShare(KeywordOf(m), id, r, amount)
    case _ => WithId(KeywordOf(m), m.job)
  }

  // ---------------------------------------------------------------- process_message

  datatype Order =
    | DoReserve(job: int, res: Res, amount: int)
    | DoRelease(job: int, res: Res, amount: int)
    | DoGranted(job: int)
    | DoDenied(job: int)
    | DoJobRequest(job: int, wants: seq<Want>)
    | DoGetNodes
    | DoAnnounce
    | DoJobRelease(job: int)
    | DoJobStatus(job: int)
    | DoJobTimeout(job: int)
    | Malformed
    | Unknown

  /** sscanf with a keyword and "%d %15s %d", and the resource name looked up. */
  function ScanShare(line: string, keyword: string): Option<(int, Res, int)> {
    match ScanId(line, keyword)
    case None => None
    case Some(id) =>
      match ScanWord(id.1, 15)
      case None => None
      case Some(name) =>
        match ScanInt(name.1)
        case None => None
        case Some(n) =>
          match ResOf(name.0)
          case None => None
          case Some(r) => Some((id.0, r, n.0))
  }

  function IdOrder(line: string, keyword: string, order: int -> Order): Order {
    match ScanId(line, keyword)
    case None => Malformed
    case Some(id) => order(id.0)
  }

  /** The chain of keyword tests, in the order in which they are made. */
  function Decode(line: string): Order {
    if "RESERVE" <= line then
      match ScanShare(line, "RESERVE")
      case None => Malformed
      case Some(s) => DoReserve(s.0, s.1, s.2)
    else if "RELEASE" <= line then
      match ScanShare(line, "RELEASE")
      case None => Malformed
      case Some(s) => DoRelease(s.0, s.1, s.2)
    else if "GRANTED" <= line then IdOrder(line, "GRANTED", id => DoGranted(id))
    else if "DENIED" <= line then IdOrder(line, "DENIED", id => DoDenied(id))
    else if "JOB_REQUEST" <= line then
      match JobRequestOf(line)
      case None => Malformed
      case Some(r) => DoJobRequest(r.0, r.1)
    else if "GET_NODES" <= line then DoGetNodes
    else if "ANNOUNCE" <= line then DoAnnounce
    else if "JOB_RELEASE" <= line then IdOrder(line, "JOB_RELEASE", id => DoJobRelease(id))
    else if "JOB_STATUS" <= line then IdOrder(line, "JOB_STATUS", id => DoJobStatus(id))
    else if "JOB_TIMEOUT" <= line then IdOrder(line, "JOB_TIMEOUT", id => DoJobTimeout(id))
    else Unknown
  }

  /** What the receiving agent should understand. */
  function Meaning(m: Msg): Order {
    match m
    case Reserve(id, r, amount) => DoReserve(id, r, amount)
    case Release(id, r, amount) => DoRelease(id, r, amount)
    case Granted(id) => DoGranted(id)
    case Denied(id) => DoDenied(id)
    case _ => Unknown
  }

  // ---------------------------------------------------------------- round trips

  lemma Differ(k: string, line: string, i: nat)
    requires i < |k| && i < |line| && k[i] != line[i]
    ensures !(k <= line)
  {}

  lemma AmountScans(amount: int)
    requires IsInt(amount)
    ensures ScanInt(" " + Print(amount)) == Some((amount, ""))
  {
    ScanAfterSpace(Print(amount));
    ScanPrinted(amount, "");
    Nil(Print(amount));
  }

  lemma NameScans(r: Res, tail: string)
    ensures ScanWord(" " + (NameOf(r) + (" " + tail)), 15) == Some((NameOf(r), " " + tail))
  {
    WordThen(NameOf(r), " " + tail, 15);
  }

  lemma ShareScans(keyword: string, id: int, r: Res, amount: int)
    requires IsInt(id) && IsInt(amount)
    ensures ScanShare(WithShare(keyword, id, r, amount), keyword) == Some((id, r, amount))
  {
    LineId(id, keyword, " " + (NameOf(r) + (" " + Print(amount))));
    NameScans(r, Print(amount));
    AmountScans(amount);
    ResOfName(r);
  }

  lemma ReleaseKeyword(rest: string)
    ensures "RELEASE" <= "RELEASE" + rest && !("RESERVE" <= "RELEASE" + rest)
  {
    Differ("RESERVE", "RELEASE" + rest, 2);
  }

  lemma NotReserve(line: string)
    requires line != [] && line[0] != 'R'
    ensures !("RESERVE" <= line) && !("RELEASE" <= line)
  {
    Differ("RESERVE", line, 0);
    Differ("RELEASE", line, 0);
  }

  lemma NotPeer(line: string)
    requires line != [] && line[0] == 'J'
    ensures !("RESERVE" <= line) && !("RELEASE" <= line) && !("GRANTED" <= line) && !("DENIED" <= line)
    ensures !("GET_NODES" <= line) && !("ANNOUNCE" <= line)
  {
    NotReserve(line);
    Differ("GRANTED", line, 0);
    Differ("DENIED", line, 0);
    Differ("GET_NODES", line, 0);
    Differ("ANNOUNCE", line, 0);
  }

  lemma ReserveTrip(id: int, r: Res, amount: int)
    requires IsInt(id) && IsInt(amount)
    ensures Decode(WithShare("RESERVE", id, r, amount)) == DoReserve(id, r, amount)
  {
    ShareScans("RESERVE", id, r, amount);
  }

  lemma ReleaseTrip(id: int, r: Res, amount: int)
    requires IsInt(id) && IsInt(amount)
    ensures Decode(WithShare("RELEASE", id, r, amount)) == DoRelease(id, r, amount)
  {
    ShareScans("RELEASE", id, r, amount);
    ReleaseKeyword(" " + (Print(id) + (" " + (NameOf(r) + (" " + Print(amount))))));
  }

  lemma AnswerTrip(id: int)
    requires IsInt(id)
    ensures Decode(WithId("GRANTED", id)) == DoGranted(id)
    ensures Decode(WithId("DENIED", id)) == DoDenied(id)
  {
    Nil(Print(id));
    NotReserve(WithId("GRANTED", id));
    LineId(id, "GRANTED", "");
    NotReserve(WithId("DENIED", id));
    Differ("GRANTED", WithId("DENIED", id), 0);
    LineId(id, "DENIED", "");
  }

  /** The four messages between agents are understood as they were meant. */
  lemma PeerRoundTrip(m: Msg)
    requires IsInt(m.job) && (m.Reserve? || m.Release? ==> IsInt(m.amount))
    requires m.Reserve? || m.Release? || m.Granted? || m.Denied?
    ensures Decode(Encode(m)) == Meaning(m)
  {
    match m
    case Reserve(id, r, amount) => ReserveTrip(id, r, amount);
    case Release(id, r, amount) => ReleaseTrip(id, r, amount);
    case _ => AnswerTrip(m.job);
  }

  lemma NotOther(k: string, line: string)
    requires k <= line
    requires k == "JOB_RELEASE" || k == "JOB_STATUS" || k == "JOB_TIMEOUT"
    ensures k == "JOB_RELEASE" ==> !("JOB_REQUEST" <= line)
    ensures k == "JOB_STATUS" ==> !("JOB_REQUEST" <= line) && !("JOB_RELEASE" <= line)
    ensures k == "JOB_TIMEOUT" ==> !("JOB_REQUEST" <= line) && !("JOB_RELEASE" <= line) && !("JOB_STATUS" <= line)
  {
    assert line[4] == k[4] && line[6] == k[6];
    if k == "JOB_RELEASE" {
      Differ("JOB_REQUEST", line, 6);
    } else {
      Differ("JOB_REQUEST", line, 4);
      Differ("JOB_RELEASE", line, 4);
      if k == "JOB_TIMEOUT" { Differ("JOB_STATUS", line, 4); }
    }
  }

  /** The planner's JOB_RELEASE, and the other orders that carry only an id. */
  lemma OrderRoundTrip(id: int)
    requires IsInt(id)
    ensures Decode(WithId("JOB_RELEASE", id)) == DoJobRelease(id)
    ensures Decode(WithId("JOB_STATUS", id)) == DoJobStatus(id)
    ensures Decode(WithId("JOB_TIMEOUT", id)) == DoJobTimeout(id)
  {
    Nil(Print(id));
    NotPeer(WithId("JOB_RELEASE", id));
    NotOther("JOB_RELEASE", WithId("JOB_RELEASE", id));
    LineId(id, "JOB_RELEASE", "");
    NotPeer(WithId("JOB_STATUS", id));
    NotOther("JOB_STATUS", WithId("JOB_STATUS", id));
    LineId(id, "JOB_STATUS", "");
    NotPeer(WithId("JOB_TIMEOUT", id));
    NotOther("JOB_TIMEOUT", WithId("JOB_TIMEOUT", id));
    LineId(id, "JOB_TIMEOUT", "");
  }

  // ---------------------------------------------------------------- the planner's reader

  /** What the planner makes of a line: an answer for one of its jobs, a line it does
      not know, or text after a known keyword that is no number, which ends it. */
  datatype Heard = HeardGranted(job: int) | HeardDenied(job: int) | HeardTimeout(job: int) | Ignored | BadNumber

  /** string:trim(S, trailing, "\n"). */
  function TrimEnd(s: string): (t: string)
    ensures t <= s && (t != [] ==> t[|t|-1] != '\n')
  {
    if s != [] && s[|s|-1] == '\n' then TrimEnd(s[..|s|-1]) else s
  }

  /** list_to_integer: all digits, but for a sign. */
  function ListToInteger(s: string): Option<int> {
    var u := Unsigned(s);
    if u == [] || !AllDigits(u) then None else Some(if s[0] == '-' then -Value(u) else Value(u))
  }

  function HeardJob(rest: string, answer: int -> Heard): Heard {
    match ListToInteger(Trim(rest))
    case None => BadNumber
    case Some(id) => answer(id)
  }

  /** The prefixes of the planner's main loop, on a line with its newline. */
  function Hear(read: string): Heard {
    var line := TrimEnd(read);
    if "JOB_GRANTED " <= line then HeardJob(line[12..], id => HeardGranted(id))
    else if "JOB_DENIED " <= line then HeardJob(line[11..], id => HeardDenied(id))
    else if "JOB_TIMEOUT " <= line then HeardJob(line[12..], id => HeardTimeout(id))
    else Ignored
  }

  lemma DigitsInteger(n: int)
    requires n >= 0
    ensures ListToInteger(Digits(n)) == Some(n) && ListToInteger("-" + Digits(n)) == Some(-n)
  {
    var d := Digits(n);
    DigitsValue(n);
    assert IsDigit(d[0]);
    assert Unsigned(d) == d;
    var m := "-" + d;
    assert m[0] == '-';
    Parts("-", d);
    assert Unsigned(m) == d;
  }

  lemma PrintsInteger(n: int)
    ensures ListToInteger(Trim(Print(n))) == Some(n)
  {
    var s := Print(n);
    PrintText(n);
    assert NumberChar(s[0]) && NumberChar(s[|s|-1]);
    assert SkipSpace(s) == s && TrimRight(s) == s;
    DigitsInteger(if n < 0 then -n else n);
  }

  lemma LineTrimmed(a: string, n: int)
    ensures TrimEnd(a + Print(n) + "\n") == a + Print(n)
  {
    var s := a + Print(n);
    PrintText(n);
    Parts(s, "\n");
    assert s[|s|-1] == Print(n)[|Print(n)|-1];
    assert NumberChar(Print(n)[|Print(n)|-1]);
  }

  lemma HearsId(keyword: string, id: int)
    ensures TrimEnd(WithId(keyword, id) + "\n") == keyword + " " + Print(id)
    ensures (keyword + " " + Print(id))[|keyword + " "|..] == Print(id)
  {
    Assoc(keyword, " ", Print(id));
    LineTrimmed(keyword + " ", id);
    Parts(keyword + " ", Print(id));
  }

  lemma GrantedHeard(id: int)
    ensures Hear(WithId("JOB_GRANTED", id) + "\n") == HeardGranted(id)
  {
    HearsId("JOB_GRANTED", id);
    assert "JOB_GRANTED" + " " == "JOB_GRANTED ";
    PrintsInteger(id);
  }

  lemma DeniedHeard(id: int)
    ensures Hear(WithId("JOB_DENIED", id) + "\n") == HeardDenied(id)
  {
    HearsId("JOB_DENIED", id);
    assert "JOB_DENIED" + " " == "JOB_DENIED ";
    Differ("JOB_GRANTED ", "JOB_DENIED " + Print(id), 4);
    PrintsInteger(id);
  }

  lemma OthersIgnored(line: string)
    requires line != [] && line[0] != 'J'
    ensures Hear(line + "\n") == Ignored
  {
    var t := TrimEnd(line + "\n");
    if t != [] {
      assert t[0] == line[0];
      Differ("JOB_GRANTED ", t, 0);
      Differ("JOB_DENIED ", t, 0);
      Differ("JOB_TIMEOUT ", t, 0);
    }
  }

  /** The planner hears of a job exactly what the agent announced, and nothing in the
      messages that are meant for other agents. */
  lemma PlannerRoundTrip(m: Msg)
    ensures Hear(Encode(m) + "\n")
         == match m { case JobGranted(id) => HeardGranted(id) case JobDenied(id) => HeardDenied(id) case _ => Ignored }
  {
    match m
    case JobGranted(id) => GrantedHeard(id);
    case JobDenied(id) => DeniedHeard(id);
    case _ => OthersIgnored(Encode(m));
  }

  // ---------------------------------------------------------------- the text itself

  /** The formats that the messages between agents are printed with. */
  lemma PeerTexts(id: int, r: Res, amount: int)
    ensures Encode(Reserve(id, r, amount)) == "RESERVE " + Print(id) + " " + NameOf(r) + " " + Print(amount)
    ensures Encode(Release(id, r, amount)) == "RELEASE " + Print(id) + " " + NameOf(r) + " " + Print(amount)
    ensures Encode(Granted(id)) == "GRANTED " + Print(id) && Encode(Denied(id)) == "DENIED " + Print(id)
  {
    ShareText("RESERVE", "RESERVE ", id, r, amount);
    ShareText("RELEASE", "RELEASE ", id, r, amount);
    IdText("GRANTED", "GRANTED ", id);
    IdText("DENIED", "DENIED ", id);
  }

  /** And those to the planner. */
  lemma PlannerTexts(id: int)
    ensures Encode(JobGranted(id)) == "JOB_GRANTED " + Print(id)
    ensures Encode(JobDenied(id)) == "JOB_DENIED " + Print(id)
  {
    IdText("JOB_GRANTED", "JOB_GRANTED ", id);
    IdText("JOB_DENIED", "JOB_DENIED ", id);
  }

  lemma IdText(keyword: string, spaced: string, id: int)
    requires spaced == keyword + " "
    ensures WithId(keyword, id) == spaced + Print(id)
  {
    Assoc(keyword, " ", Print(id));
  }

  lemma ShareText(keyword: string, spaced: string, id: int, r: Res, amount: int)
    requires spaced == keyword + " "
    ensures WithShare(keyword, id, r, amount) == spaced + Print(id) + " " + NameOf(r) + " " + Print(amount)
  {
    var n, a := NameOf(r), Print(amount);
    Assoc(n, " ", a);
    Assoc(" ", n, " " + a);
    Assoc(" " + n, " ", a);
    Assoc(Print(id), " " + n, " " + a);
    Assoc(Print(id), " ", n);
    Assoc(" ", Print(id) + (" " + n), " " + a);
    Assoc(spaced, Print(id) + (" " + n), " " + a);
    Assoc(keyword, " ", Print(id) + (" " + n) + (" " + a));
    assert WithShare(keyword, id, r, amount) == spaced + (Print(id) + (" " + n)) + (" " + a);
  }

  // ---------------------------------------------------------------- fitting the channel

  lemma PrintPlain(n: int)
    requires IsInt(n)
    ensures Plain(Print(n)) && |Print(n)| <= 11
  {
    PrintText(n);
    PrintLength(n);
    NumberHasNo(Print(n), '\n');
    NumberHasNo(Print(n), NUL);
  }

  lemma PlainConcat(a: string, b: string)
    requires Plain(a) && Plain(b)
    ensures Plain(a + b)
  {}

  /** Every message is one line that an empty write buffer accepts, so what
      Channel proves of lines holds of messages. */
  lemma EncodeShort(m: Msg)
    requires IsInt(m.job) && (m.Reserve? || m.Release? ==> IsInt(m.amount))
    ensures Short(Encode(m))
  {
    PrintPlain(m.job);
    if m.Reserve? || m.Release? {
      PrintPlain(m.amount);
      var a := " " + Print(m.amount);
      var b := " " + (NameOf(m.res) + a);
      PlainConcat(" ", Print(m.amount));
      PlainConcat(NameOf(m.res), a);
      PlainConcat(" ", NameOf(m.res) + a);
      PlainConcat(Print(m.job), b);
      PlainConcat(" ", Print(m.job) + b);
      PlainConcat(KeywordOf(m), " " + (Print(m.job) + b));
    } else {
      PlainConcat(" ", Print(m.job));
      PlainConcat(KeywordOf(m), " " + Print(m.job));
    }
  }

  predicate ForPeer(m: Msg) {
    && (m.Reserve? || m.Release? || m.Granted? || m.Denied?)
    && IsInt(m.job) && (m.Reserve? || m.Release? ==> IsInt(m.amount))
  }

  /** Over any writes and reads, the receiving agent acts on the messages that
      the sender got accepted: each once, in order, as it was meant. */
  lemma MessagesArrive(moves: seq<Move>, sent: seq<Msg>)
    requires Run(Opened(), moves)
    requires |sent| == |After(Opened(), moves).accepted|
    requires forall i :: 0 <= i < |sent| ==> ForPeer(sent[i]) && After(Opened(), moves).accepted[i] == Encode(sent[i])
    ensures var got := After(Opened(), moves).delivered;
            |got| <= |sent| && forall i :: 0 <= i < |got| ==> Decode(got[i]) == Meaning(sent[i])
  {
    InOrder(moves);
    var ch := After(Opened(), moves);
    forall i | 0 <= i < |ch.delivered| ensures Decode(ch.delivered[i]) == Meaning(sent[i]) {
      assert ch.delivered[i] == ch.accepted[i];
      PeerRoundTrip(sent[i]);
    }
  }
}
