/** Two connections back to back: one agent enqueues lines, the sockets take and
    give bytes in any portions, the other agent's reads hand over lines. */
module Channel {
  import opened Seqs
  import opened Framing
  import opened Connection

  /** `accepted` and `got` are history: the lines that enqueue_write took, and
      all the bytes that the receiver has read. */
  datatype Channel = Channel(sender: Endpoint, wire: string, receiver: Endpoint,
                             delivered: seq<string>, accepted: seq<string>, got: string)

  datatype Move =
    | Send(line: string)   // enqueue_write of the line and a newline
    | Flush(n: nat)        // a write of which the socket takes n bytes
    | Get(n: nat)          // a read that returns n bytes

  /** A protocol line; enqueue_write is given it with a newline. */
  predicate Plain(line: string) { '\n' !in line && NUL !in line }

  predicate Enabled(ch: Channel, m: Move) {
    match m
    case Send(line) => Plain(line)
    case Flush(n) => ch.sender.written + n <= |ch.sender.outbox|
    case Get(n) => 0 < n <= |ch.wire| && n <= Room(ch.receiver.inbox)
  }

  function Next(ch: Channel, m: Move): Channel
    requires Enabled(ch, m)
  {
    match m
    case Send(line) =>
      var msg := line + "\n";
      ch.(sender := ch.sender.Enqueue(msg),
          accepted := if ch.sender.Accepts(msg) then ch.accepted + [line] else ch.accepted)
    case Flush(n) =>
      ch.(sender := ch.sender.Write(n), wire := ch.wire + ch.sender.Unsent()[..n])
    case Get(n) =>
      var c := ch.wire[..n];
      ch.(receiver := ch.receiver.Read(c), wire := ch.wire[n..], got := ch.got + c,
          delivered := ch.delivered + Delivered(ch.receiver.inbox + c))
  }

  function Opened(): Channel { Channel(Fresh(), [], Fresh(), [], [], []) }

  predicate Run(ch: Channel, ms: seq<Move>)
    decreases |ms|
  {
    ms == [] || (Enabled(ch, ms[0]) && Run(Next(ch, ms[0]), ms[1..]))
  }

  function After(ch: Channel, ms: seq<Move>): Channel
    requires Run(ch, ms)
    decreases |ms|
  {
    if ms == [] then ch else After(Next(ch, ms[0]), ms[1..])
  }

  /** A line that enqueue_write can accept: with its newline it fits an empty buffer. */
  predicate Short(line: string) { Plain(line) && |line| + 1 < BUFF_SIZE }

  ghost predicate AllShort(ls: seq<string>) { forall i :: 0 <= i < |ls| ==> Short(ls[i]) }

  /** Every accepted byte is read, on the wire, or still in the write buffer, in
      order; the receiver's buffer and its lines are those of the bytes read. */
  ghost predicate Sound(ch: Channel) {
    && ch.sender.Ok() && AllShort(ch.accepted)
    && ch.got + ch.wire + ch.sender.Unsent() == Unlines(ch.accepted)
    && ch.receiver.inbox == Kept(ch.got)
    && ch.delivered == Delivered(ch.got)
  }

  lemma OpenedSound()
    ensures Sound(Opened())
  {
    assert Seen("") == "" && Unlines([]) == "";
    assert Delivered("") == [] && Kept("") == "";
  }

  lemma SendSound(ch: Channel, line: string)
    requires Sound(ch) && Plain(line)
    ensures Sound(Next(ch, Send(line)))
  {
    var msg := line + "\n";
    if ch.sender.Accepts(msg) {
      CutLeft(ch.sender.outbox, msg, ch.sender.written);
      Assoc(ch.got + ch.wire, ch.sender.Unsent(), msg);
      Parts(ch.accepted, [line]);
      Assoc(Unlines(ch.accepted), line, "\n");
    }
  }

  lemma FlushSound(ch: Channel, n: nat)
    requires Sound(ch) && Enabled(ch, Flush(n))
    ensures Sound(Next(ch, Flush(n)))
  {
    WriteConserves(ch.sender, n);
    var u := ch.sender.Unsent()[..n];
    var v := ch.sender.Write(n).Unsent();
    Assoc(ch.got + ch.wire, u, v);
    Assoc(ch.got, ch.wire, u);
  }

  lemma GetSound(ch: Channel, n: nat)
    requires Sound(ch) && Enabled(ch, Get(n))
    ensures Sound(Next(ch, Get(n)))
  {
    Feed(ch.got, ch.wire[..n]);
    Halves(ch.wire, n);
    Assoc(ch.got, ch.wire[..n], ch.wire[n..]);
  }

  lemma NextSound(ch: Channel, m: Move)
    requires Sound(ch) && Enabled(ch, m)
    ensures Sound(Next(ch, m))
  {
    match m
    case Send(line) => SendSound(ch, line);
    case Flush(n) => FlushSound(ch, n);
    case Get(n) => GetSound(ch, n);
  }

  lemma {:induction false} AlwaysSound(ch: Channel, ms: seq<Move>)
    requires Sound(ch) && Run(ch, ms)
    ensures Sound(After(ch, ms))
    decreases |ms|
  {
    if ms != [] {
      NextSound(ch, ms[0]);
      AlwaysSound(Next(ch, ms[0]), ms[1..]);
    }
  }

  lemma {:induction false} UnlinesNulFree(ls: seq<string>)
    requires AllShort(ls)
    ensures NUL !in Unlines(ls)
  {
    if ls != [] {
      var f := ls[..|ls|-1];
      UnlinesNulFree(f);
      assert Short(ls[|ls|-1]);
      assert NUL !in Unlines(f) + ls[|ls|-1];
    }
  }

  /** The unfinished line at any point of accepted lines is shorter than the read buffer. */
  lemma {:induction false} TailBound(ls: seq<string>, p: string)
    requires AllShort(ls) && p <= Unlines(ls)
    ensures |Tail(p)| + 1 < BUFF_SIZE
  {
    if ls != [] {
      var f := ls[..|ls|-1];
      var l := ls[|ls|-1];
      var u := Unlines(f);
      assert Short(l);
      if |p| <= |u| {
        assert p <= u;
        TailBound(f, p);
      } else {
        var q := p[|u|..];
        assert p == u + q;
        Assoc(u, l, "\n");
        assert q <= l + "\n";
        LinesOfUnlines(f);
        LinesOfConcat(u, q);
        Parts("", q);
        if |q| == |l| + 1 { Step(l, '\n'); }
      }
    }
  }

  lemma GotFacts(ch: Channel)
    requires Sound(ch)
    ensures ch.got <= Unlines(ch.accepted) && NUL !in ch.got
    ensures ch.delivered == Lines(ch.got) && ch.receiver.inbox == Tail(ch.got)
  {
    UnlinesNulFree(ch.accepted);
    Assoc(ch.got, ch.wire, ch.sender.Unsent());
    Parts(ch.got, ch.wire + ch.sender.Unsent());
    SeenAll(ch.got);
  }

  /** End to end: whatever was delivered is a prefix, in order and uncorrupted,
      of what the sender accepted, and all of it once nothing is in transit. */
  lemma InOrder(ms: seq<Move>)
    requires Run(Opened(), ms)
    ensures var ch := After(Opened(), ms);
            && ch.delivered <= ch.accepted
            && (ch.wire == [] && ch.sender.outbox == [] ==> ch.delivered == ch.accepted)
  {
    var ch := After(Opened(), ms);
    OpenedSound();
    AlwaysSound(Opened(), ms);
    GotFacts(ch);
    var all := Unlines(ch.accepted);
    var rest := all[|ch.got|..];
    Halves(all, |ch.got|);
    assert ch.got == all[..|ch.got|];
    LinesOfConcat(ch.got, rest);
    LinesOfUnlines(ch.accepted);
    Parts(Lines(ch.got), Lines(Tail(ch.got) + rest));
    if ch.wire == [] && ch.sender.outbox == [] {
      Parts(ch.got, []);
    }
  }

  /** The receiver always has room for a byte, so it never makes the empty read
      that it would take for the end of the stream. */
  lemma NeverEmptyRead(ms: seq<Move>)
    requires Run(Opened(), ms)
    ensures Room(After(Opened(), ms).receiver.inbox) > 0
  {
    var ch := After(Opened(), ms);
    OpenedSound();
    AlwaysSound(Opened(), ms);
    GotFacts(ch);
    TailBound(ch.accepted, ch.got);
  }

  /** The bytes still to be moved, those not yet on the wire counted twice. */
  function Load(ch: Channel): nat
    requires ch.sender.written <= |ch.sender.outbox|
  {
    2 * |ch.sender.Unsent()| + |ch.wire|
  }

  /** From every reachable state reads and writes alone, in any portions that
      move something, get all that was accepted across. */
  lemma {:induction false} Drains(ch: Channel) returns (ms: seq<Move>)
    requires Sound(ch)
    ensures Run(ch, ms) && forall i :: 0 <= i < |ms| ==> !ms[i].Send?
    ensures var end := After(ch, ms);
            end.wire == [] && end.sender.outbox == [] && end.accepted == ch.accepted
    decreases Load(ch)
  {
    if ch.sender.outbox == [] && ch.wire == [] { return []; }
    GotFacts(ch);
    TailBound(ch.accepted, ch.got);
    var m := if ch.wire != [] then Get(1) else Flush(|ch.sender.outbox| - ch.sender.written);
    if ch.wire != [] { GetSound(ch, 1); } else { FlushSound(ch, m.n); }
    var rest := Drains(Next(ch, m));
    ms := [m] + rest;
    Parts([m], rest);
  }
}
