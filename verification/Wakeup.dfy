/** The one-shot epoll protocol of one open connection, shared by any number of
    workers: delivery of an event disarms the connection, leaving the handler
    rearms it, and enqueue_write arms it only outside of handlers. */
module Wakeup {
  import opened Seqs
  import opened Framing
  import opened Connection

  datatype Events = Events(rd: bool, wr: bool)

  /** Where a worker stands with respect to the connection. */
  datatype Phase =
    | Idle
    | Holding(ev: Events)   // epoll_wait returned the event, in_handler not set yet
    | Reading(ev: Events)   // in_handler set, the EPOLLIN part is next
    | Writing(ev: Events)   // the EPOLLOUT part is next
    | Leaving               // rearm_conn is next

  /** `dialling` is the type CONN_TCP_OUTGOING. */
  datatype State = State(workers: seq<Phase>, armed: Events, inHandler: bool, dialling: bool, conn: Endpoint)

  datatype Step =
    | Deliver(w: nat, ev: Events)
    | Enter(w: nat)
    | Read(w: nat)
    | Write(w: nat, n: nat)
    | Rearm(w: nat)
    | Enqueue(msg: string)

  const OFF := Events(false, false)

  predicate Enabled(s: State, a: Step) {
    match a
    case Deliver(w, ev) =>
      w < |s.workers| && s.workers[w].Idle? && (ev.rd || ev.wr) && (ev.rd ==> s.armed.rd) && (ev.wr ==> s.armed.wr)
    case Enter(w) => w < |s.workers| && s.workers[w].Holding?
    case Read(w) => w < |s.workers| && s.workers[w].Reading?
    case Write(w, n) =>
      w < |s.workers| && s.workers[w].Writing? && s.conn.written + n <= |s.conn.outbox|
    case Rearm(w) => w < |s.workers| && s.workers[w].Leaving?
    case Enqueue(msg) => msg != []
  }

  function Next(s: State, a: Step): State
    requires Enabled(s, a)
  {
    match a
    case Deliver(w, ev) => s.(workers := s.workers[w := Holding(ev)], armed := OFF)
    case Enter(w) => s.(workers := s.workers[w := Reading(s.workers[w].ev)], inHandler := true)
    case Read(w) => s.(workers := s.workers[w := Writing(s.workers[w].ev)])
    case Write(w, n) =>
      var t := s.(workers := s.workers[w := Leaving]);
      if !s.workers[w].ev.wr then t
      else if s.dialling then t.(dialling := false)
      else t.(conn := s.conn.Write(n))
    case Rearm(w) =>
      s.(workers := s.workers[w := Idle], inHandler := false, armed := Events(true, |s.conn.outbox| > 0))
    case Enqueue(msg) =>
      if !s.conn.Accepts(msg) then s
      else if s.inHandler then s.(conn := s.conn.Enqueue(msg))
      else s.(conn := s.conn.Enqueue(msg), armed := Events(true, true))
  }

  /** A connection as it is registered: accepted, or dialled and waiting to open. */
  predicate Registered(s: State) {
    && (forall w :: 0 <= w < |s.workers| ==> s.workers[w].Idle?)
    && s.armed == Events(!s.dialling, s.dialling) && !s.inHandler && s.conn == Fresh()
  }

  predicate Run(s: State, as_: seq<Step>)
    decreases |as_|
  {
    as_ == [] || (Enabled(s, as_[0]) && Run(Next(s, as_[0]), as_[1..]))
  }

  function After(s: State, as_: seq<Step>): State
    requires Run(s, as_)
    decreases |as_|
  {
    if as_ == [] then s else After(Next(s, as_[0]), as_[1..])
  }

  predicate Inside(p: Phase) { p.Reading? || p.Writing? || p.Leaving? }

  ghost predicate SomeInside(s: State) { exists w :: 0 <= w < |s.workers| && Inside(s.workers[w]) }

  ghost predicate Busy(s: State) { exists w :: 0 <= w < |s.workers| && !s.workers[w].Idle? }

  predicate Unsent(s: State) { s.conn.written < |s.conn.outbox| }

  /** Unsent bytes will be seen to: the connection waits for room to write, or a
      worker that has not rearmed it yet will. */
  ghost predicate Awake(s: State) { Unsent(s) ==> s.armed.wr || Busy(s) }

  /** With no worker on it, the connection listens, and asks for room to write
      only if it has something to write or is still opening. */
  ghost predicate Attentive(s: State) {
    !Busy(s) ==> (s.armed.rd || (s.dialling && s.armed.wr)) && (s.armed.wr ==> Unsent(s) || s.dialling)
  }

  ghost predicate Inv(s: State) {
    && s.conn.Ok()
    && (s.inHandler ==> SomeInside(s))
    && Awake(s) && Attentive(s)
  }

  lemma StepKeeps(s: State, a: Step)
    requires Inv(s) && Enabled(s, a)
    ensures Inv(Next(s, a))
  {
    var t := Next(s, a);
    match a {
      case Deliver(w, ev) =>
        assert !t.workers[w].Idle?;
        forall v | 0 <= v < |s.workers| && Inside(s.workers[v]) ensures Inside(t.workers[v]) {}
      case Enter(w) => assert Inside(t.workers[w]);
      case Read(w) => assert Inside(t.workers[w]);
      case Write(w, n) =>
        assert Inside(t.workers[w]);
        WriteConserves(s.conn, n);
      case Rearm(w) =>
      case Enqueue(msg) =>
        assert t.workers == s.workers;
    }
  }

  lemma {:induction false} RunKeeps(s: State, as_: seq<Step>)
    requires Inv(s) && Run(s, as_)
    ensures Inv(After(s, as_))
    decreases |as_|
  {
    if as_ != [] {
      StepKeeps(s, as_[0]);
      RunKeeps(Next(s, as_[0]), as_[1..]);
    }
  }

  /** No lost wake-up, no busy waiting and no deaf connection, in every
      interleaving of any number of workers. */
  lemma NoLostWakeup(s: State, as_: seq<Step>)
    requires Registered(s) && Run(s, as_)
    ensures Awake(After(s, as_)) && Attentive(After(s, as_))
  {
    RunKeeps(s, as_);
  }

  // ---------------------------------------------------------------- the bytes do get out

  // ---------------------------------------------------------------- the bytes

  /** What a step gives to the socket, and what it accepts. */
  ghost function Given(s: State, a: Step): string
    requires s.conn.Ok() && Enabled(s, a)
  {
    if a.Write? && s.workers[a.w].ev.wr && !s.dialling then s.conn.Unsent()[..a.n] else []
  }

  ghost function Taken(s: State, a: Step): string {
    if a.Enqueue? && |s.conn.outbox| + |a.msg| < BUFF_SIZE then a.msg else []
  }

  ghost function AllGiven(s: State, as_: seq<Step>): string
    requires Inv(s) && Run(s, as_)
    decreases |as_|
  {
    if as_ == [] then []
    else
      StepKeeps(s, as_[0]);
      Given(s, as_[0]) + AllGiven(Next(s, as_[0]), as_[1..])
  }

  ghost function AllTaken(s: State, as_: seq<Step>): string
    requires Run(s, as_)
    decreases |as_|
  {
    if as_ == [] then [] else Taken(s, as_[0]) + AllTaken(Next(s, as_[0]), as_[1..])
  }

  lemma StepBytes(s: State, a: Step)
    requires s.conn.Ok() && Enabled(s, a) && Next(s, a).conn.Ok()
    ensures s.conn.Unsent() + Taken(s, a) == Given(s, a) + Next(s, a).conn.Unsent()
  {
    Nil(s.conn.Unsent());
    if a.Write? {
      WriteConserves(s.conn, a.n);
    } else if a.Enqueue? && s.conn.Accepts(a.msg) {
      CutLeft(s.conn.outbox, a.msg, s.conn.written);
      Nil(Next(s, a).conn.Unsent());
    }
  }

  /** Over any interleaving the accepted bytes are those given to the socket and those
      not sent yet, in order: none is lost, doubled or moved, whichever worker
      writes and whether or not a handler runs. */
  lemma {:induction false} BytesKept(s: State, as_: seq<Step>)
    requires Inv(s) && Run(s, as_)
    ensures Inv(After(s, as_))
    ensures s.conn.Unsent() + AllTaken(s, as_) == AllGiven(s, as_) + After(s, as_).conn.Unsent()
    decreases |as_|
  {
    if as_ == [] {
      Nil(s.conn.Unsent());
    } else {
      var t, rest := Next(s, as_[0]), as_[1..];
      StepKeeps(s, as_[0]);
      BytesKept(t, rest);
      StepBytes(s, as_[0]);
      Assoc(s.conn.Unsent(), Taken(s, as_[0]), AllTaken(t, rest));
      Assoc(Given(s, as_[0]), t.conn.Unsent(), AllTaken(t, rest));
      Assoc(Given(s, as_[0]), AllGiven(t, rest), After(s, as_).conn.Unsent());
    }
  }

  lemma {:induction false} Joined(s: State, as_: seq<Step>, bs: seq<Step>)
    requires Run(s, as_) && Run(After(s, as_), bs)
    ensures Run(s, as_ + bs) && After(s, as_ + bs) == After(After(s, as_), bs)
    decreases |as_|
  {
    if as_ == [] {
      Parts([], bs);
    } else {
      Joined(Next(s, as_[0]), as_[1..], bs);
      assert (as_ + bs)[1..] == as_[1..] + bs;
    }
  }

  /** The steps that a worker has left before it is idle again. */
  function Left(p: Phase): nat {
    match p
    case Idle => 0
    case Holding(_) => 4
    case Reading(_) => 3
    case Writing(_) => 2
    case Leaving => 1
  }

  function Onward(s: State, w: nat): Step
    requires w < |s.workers| && !s.workers[w].Idle? && s.conn.written <= |s.conn.outbox|
  {
    match s.workers[w]
    case Holding(_) => Enter(w)
    case Reading(_) => Read(w)
    case Writing(_) => Write(w, |s.conn.outbox| - s.conn.written)
    case _ => Rearm(w)
  }

  predicate WriteReady(p: Phase) { (p.Holding? || p.Reading? || p.Writing?) && p.ev.wr }

  /** A worker on the connection can finish by itself; if its event lets it
      write and the connection is open, nothing is left to send. */
  lemma {:induction false} Finish(s: State, w: nat) returns (as_: seq<Step>)
    requires Inv(s) && w < |s.workers| && !s.workers[w].Idle?
    ensures Run(s, as_) && Inv(After(s, as_))
    ensures var t := After(s, as_);
            && |t.workers| == |s.workers| && t.workers[w].Idle?
            && (Unsent(t) ==> Unsent(s) && t.armed.wr)
            && (t.dialling ==> s.dialling)
            && (WriteReady(s.workers[w]) ==> !t.dialling && (s.dialling || !Unsent(t)))
    decreases Left(s.workers[w])
  {
    var a := Onward(s, w);
    var t := Next(s, a);
    StepKeeps(s, a);
    var rest := [];
    if !t.workers[w].Idle? { rest := Finish(t, w); }
    as_ := [a] + rest;
    Parts([a], rest);
  }

  /** One visit by an idle worker to a connection that is armed for writing. */
  lemma Visit(s: State, w: nat) returns (as_: seq<Step>)
    requires Inv(s) && w < |s.workers| && s.workers[w].Idle? && s.armed.wr
    ensures Run(s, as_) && Inv(After(s, as_))
    ensures var t := After(s, as_);
            && |t.workers| == |s.workers| && t.workers[w].Idle?
            && (Unsent(t) ==> t.armed.wr)
            && !t.dialling && (s.dialling || !Unsent(t))
  {
    var a := Deliver(w, Events(false, true));
    StepKeeps(s, a);
    var rest := Finish(Next(s, a), w);
    as_ := [a] + rest;
    Parts([a], rest);
  }

  /** From every reachable state with a worker, the workers alone can get all
      the accepted bytes out, opening the connection first if need be. */
  lemma Flushes(s: State) returns (as_: seq<Step>)
    requires Inv(s) && s.workers != []
    ensures Run(s, as_) && !Unsent(After(s, as_))
  {
    as_ := [];
    var w := 0;
    if Busy(s) { w :| 0 <= w < |s.workers| && !s.workers[w].Idle?; as_ := Finish(s, w); }
    var t := After(s, as_);
    var n := 0;
    while Unsent(t) && n < 2
      invariant 0 <= n <= 2
      invariant Run(s, as_) && t == After(s, as_) && Inv(t)
      invariant w < |t.workers| && t.workers[w].Idle? && (Unsent(t) ==> t.armed.wr)
      invariant n >= 1 ==> !t.dialling
      invariant n == 2 ==> !Unsent(t)
    {
      var more := Visit(t, w);
      Joined(s, as_, more);
      as_ := as_ + more;
      t := After(s, as_);
      n := n + 1;
    }
  }

  // ---------------------------------------------------------------- one worker at a time

  /** Nobody stands between epoll_wait and the setting of in_handler. */
  ghost predicate NoGap(s: State) { forall w :: 0 <= w < |s.workers| ==> !s.workers[w].Holding? }

  /** Every message that enqueue_write accepts during a run finds nobody in that gap. */
  ghost predicate Gapless(s: State, as_: seq<Step>)
    requires Run(s, as_)
    decreases |as_|
  {
    as_ == [] || ((as_[0].Enqueue? && s.conn.Accepts(as_[0].msg) ==> NoGap(s)) && Gapless(Next(s, as_[0]), as_[1..]))
  }

  ghost predicate WorkersOnly(as_: seq<Step>) { forall i :: 0 <= i < |as_| ==> !as_[i].Enqueue? }

  ghost predicate AtMostOne(s: State) {
    forall v, w :: 0 <= v < w < |s.workers| ==> s.workers[v].Idle? || s.workers[w].Idle?
  }

  /** However the workers go on, no two of them are on the connection. */
  ghost predicate Guarded(s: State) {
    forall bs :: Run(s, bs) && WorkersOnly(bs) ==> AtMostOne(After(s, bs))
  }

  ghost predicate GuardedRun(s: State, as_: seq<Step>)
    requires Run(s, as_)
    decreases |as_|
  {
    Guarded(s) && (as_ == [] || GuardedRun(Next(s, as_[0]), as_[1..]))
  }

  /** At most one worker is on the connection, which then is disarmed, and in_handler is its mark. */
  ghost predicate Sole(s: State) {
    && AtMostOne(s)
    && (Busy(s) ==> s.armed == OFF)
    && (SomeInside(s) ==> s.inHandler)
  }

  lemma SoleKept(s: State, a: Step)
    requires Sole(s) && Enabled(s, a) && (a.Enqueue? && s.conn.Accepts(a.msg) ==> NoGap(s))
    ensures Sole(Next(s, a))
  {
    var t := Next(s, a);
    if a.Enqueue? {
      assert t.workers == s.workers;
    } else {
      assert !a.Deliver? ==> !s.workers[a.w].Idle?;
      forall v | 0 <= v < |t.workers| && v != a.w ensures t.workers[v].Idle? { assert t.workers[v] == s.workers[v]; }
    }
  }

  /** The one-shot flag keeps other workers off the connection in every run
      whose accepted messages all miss that gap. */
  lemma {:induction false} SoleWorker(s: State, as_: seq<Step>)
    requires Sole(s) && Run(s, as_) && Gapless(s, as_)
    ensures Sole(After(s, as_))
    decreases |as_|
  {
    if as_ != [] {
      SoleKept(s, as_[0]);
      SoleWorker(Next(s, as_[0]), as_[1..]);
    }
  }

  /** That gap is where it is lost: an accepted enqueue_write in it rearms the
      connection, and any other worker can be let in beside the first. */
  lemma GapLetsIn(s: State, w: nat, v: nat, msg: string) returns (as_: seq<Step>)
    requires Inv(s) && Sole(s) && w < |s.workers| && v < |s.workers| && v != w
    requires s.workers[w].Holding? && msg != [] && s.conn.Accepts(msg)
    ensures as_ != [] && as_[0] == Enqueue(msg) && Run(s, as_) && WorkersOnly(as_[1..])
    ensures var t := After(s, as_); |t.workers| == |s.workers| && Inside(t.workers[v]) && Inside(t.workers[w])
  {
    forall u | 0 <= u < |s.workers| ensures !Inside(s.workers[u]) {}
    assert s.workers[v].Idle?;
    var rd := Events(true, false);
    var s1 := Next(s, Enqueue(msg));
    var s2 := Next(s1, Deliver(v, rd));
    var s3 := Next(s2, Enter(w));
    var s4 := Next(s3, Enter(v));
    var b3 := [Enter(v)];
    var b2 := [Enter(w)] + b3;
    var b1 := [Deliver(v, rd)] + b2;
    as_ := [Enqueue(msg)] + b1;
    assert b3[1..] == [] && b2[1..] == b3 && b1[1..] == b2 && as_[1..] == b1;
    assert Run(s4, []) && After(s4, []) == s4;
    assert Run(s3, b3) && After(s3, b3) == s4;
    assert Run(s2, b2) && After(s2, b2) == s4;
    assert Run(s1, b1) && After(s1, b1) == s4;
  }

  lemma {:induction false} QuietGapless(s: State, bs: seq<Step>)
    requires Run(s, bs) && WorkersOnly(bs)
    ensures Gapless(s, bs)
    decreases |bs|
  {
    if bs != [] {
      assert forall i :: 0 <= i < |bs[1..]| ==> bs[1..][i] == bs[i+1];
      QuietGapless(Next(s, bs[0]), bs[1..]);
    }
  }

  lemma SoleGuarded(s: State)
    requires Sole(s)
    ensures Guarded(s)
  {
    forall bs | Run(s, bs) && WorkersOnly(bs) ensures AtMostOne(After(s, bs)) {
      QuietGapless(s, bs);
      SoleWorker(s, bs);
    }
  }

  /** A message accepted in the gap ends the exclusion. */
  lemma GapUnguards(s: State, msg: string)
    requires Inv(s) && Sole(s) && |s.workers| >= 2 && !NoGap(s) && msg != [] && s.conn.Accepts(msg)
    ensures !Guarded(Next(s, Enqueue(msg)))
  {
    var w :| 0 <= w < |s.workers| && s.workers[w].Holding?;
    var v := if w == 0 then 1 else 0;
    var as_ := GapLetsIn(s, w, v, msg);
    var t := After(s, as_);
    assert t == After(Next(s, Enqueue(msg)), as_[1..]);
    assert !t.workers[v].Idle? && !t.workers[w].Idle?;
  }

  /** Of two or more workers never more than one can be on the connection, whatever
      they do at any point of a run, if and only if no message is accepted while one
      stands between epoll_wait and the setting of in_handler. */
  lemma {:induction false} ExclusionIff(s: State, as_: seq<Step>)
    requires Inv(s) && Sole(s) && |s.workers| >= 2 && Run(s, as_)
    ensures GuardedRun(s, as_) <==> Gapless(s, as_)
    decreases |as_|
  {
    SoleGuarded(s);
    if as_ != [] {
      var a := as_[0];
      StepKeeps(s, a);
      if a.Enqueue? && s.conn.Accepts(a.msg) && !NoGap(s) {
        GapUnguards(s, a.msg);
      } else {
        SoleKept(s, a);
        ExclusionIff(Next(s, a), as_[1..]);
      }
    }
  }

  /** In particular for the runs of a connection from its registration. */
  lemma RegisteredExclusion(s: State, as_: seq<Step>)
    requires Registered(s) && |s.workers| >= 2 && Run(s, as_)
    ensures GuardedRun(s, as_) <==> Gapless(s, as_)
  {
    ExclusionIff(s, as_);
  }

  /** So mutual exclusion of the workers does not hold of the protocol. */
  lemma TwoWorkers() returns (s: State, as_: seq<Step>)
    ensures Registered(s) && Run(s, as_)
    ensures var t := After(s, as_); |t.workers| == 2 && Inside(t.workers[0]) && Inside(t.workers[1])
  {
    var rd := Events(true, false);
    s := State([Idle, Idle], rd, false, false, Fresh());
    StepKeeps(s, Deliver(0, rd));
    var t := Next(s, Deliver(0, rd));
    var bs := GapLetsIn(t, 0, 1, "x");
    as_ := [Deliver(0, rd)] + bs;
    assert as_[1..] == bs;
  }
}
