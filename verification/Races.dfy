/** Which data the threads may use at the same time: none that is touched under its
    mutex, and only what is read without one. */
module Races {
  import opened Types
  import opened Seqs
  import opened Locks
  import opened LockPaths

  // ---------------------------------------------------------------- the theorem

  /** In every interleaving of any number of threads, whoever touches shared data
      holds its mutex, no two threads touch the same data at once, and the only data
      that a thread may read while another touches it are the counters and the host
      of a connection. */
  lemma RaceFree(ts: seq<Thread>, ms: seq<(nat, Choice)>)
    requires Started(ts) && Run(ts, ms)
    ensures forall x :: NoRace(After(ts, ms), x)
  {
    StartedGood(ts);
    RunGood(ts, ms);
    forall x ensures NoRace(After(ts, ms), x) { GoodNoRace(After(ts, ms), x); }
  }

  // ---------------------------------------------------------------- the race that there is

  /** A thread by itself, with these choices. */
  ghost predicate Alone(t: Thread, cs: seq<Choice>)
    decreases |cs|
  {
    cs == [] || (t.todo != [] && (t.todo[0].Lock? ==> t.todo[0].l !in t.held) && Alone(Advance(t, cs[0]), cs[1..]))
  }

  ghost function Goal(t: Thread, cs: seq<Choice>): Thread
    requires Alone(t, cs)
    decreases |cs|
  {
    if cs == [] then t else Goal(Advance(t, cs[0]), cs[1..])
  }

  ghost predicate Comes(t: Thread, u: Thread) { exists cs :: Alone(t, cs) && Goal(t, cs) == u }

  lemma ComesBy(t: Thread, c: Choice, u: Thread)
    requires t.todo != [] && (t.todo[0].Lock? ==> t.todo[0].l !in t.held) && Comes(Advance(t, c), u)
    ensures Comes(t, u)
  {
    var cs :| Alone(Advance(t, c), cs) && Goal(Advance(t, c), cs) == u;
    Parts([c], cs);
    assert Alone(t, [c] + cs) && Goal(t, [c] + cs) == u;
  }

  lemma Here(t: Thread)
    ensures Comes(t, t)
  {
    assert Alone(t, []) && Goal(t, []) == t;
  }

  lemma ByThen(p: Prog, q: Prog, rest: seq<Prog>, held: set<Lock>, u: Thread)
    requires Comes(Thread([p] + ([q] + rest), held), u)
    ensures Comes(Thread([Then(p, q)] + rest, held), u)
  {
    Parts([Then(p, q)], rest);
    assert [p, q] + rest == [p] + ([q] + rest);
    ComesBy(Thread([Then(p, q)] + rest, held), One, u);
  }

  lemma ByChoice(p: Prog, q: Prog, first: bool, rest: seq<Prog>, held: set<Lock>, u: Thread)
    requires Comes(Thread([if first then p else q] + rest, held), u)
    ensures Comes(Thread([Either(p, q)] + rest, held), u)
  {
    Parts([Either(p, q)], rest);
    ComesBy(Thread([Either(p, q)] + rest, held), if first then One else Other, u);
  }

  lemma ByTurn(p: Prog, rest: seq<Prog>, held: set<Lock>, u: Thread)
    requires Comes(Thread([p] + ([Repeat(p)] + rest), held), u)
    ensures Comes(Thread([Repeat(p)] + rest, held), u)
  {
    Parts([Repeat(p)], rest);
    assert [p, Repeat(p)] + rest == [p] + ([Repeat(p)] + rest);
    ComesBy(Thread([Repeat(p)] + rest, held), One, u);
  }

  lemma BySkip(rest: seq<Prog>, held: set<Lock>, u: Thread)
    requires Comes(Thread(rest, held), u)
    ensures Comes(Thread([Skip] + rest, held), u)
  {
    Parts([Skip], rest);
    ComesBy(Thread([Skip] + rest, held), One, u);
  }

  lemma ByPost(rest: seq<Prog>, u: Thread)
    requires Comes(Thread(rest, {}), u)
    ensures Comes(Thread([Post] + rest, {}), u)
  {
    var l, x := Output(0), Buffer(0);
    var a, b, c := Thread(Using(0) + rest, {}), Thread([Touch(x), Unlock(l)] + rest, {l}),
        Thread([Unlock(l)] + rest, {l});
    assert a.todo[1..] == b.todo && b.todo[1..] == c.todo && c.todo[1..] == rest;
    assert {} + {l} == {l} && {l} - {l} == {};
    ComesBy(c, One, u);
    ComesBy(b, One, u);
    ComesBy(a, One, u);
    Parts([Post], rest);
    ComesBy(Thread([Post] + rest, {}), One, u);
  }

  lemma ByLock(l: Lock, rest: seq<Prog>, u: Thread)
    requires Comes(Thread(rest, {l}), u)
    ensures Comes(Thread([Lock(l)] + rest, {}), u)
  {
    Parts([Lock(l)], rest);
    assert {} + {l} == {l};
    ComesBy(Thread([Lock(l)] + rest, {}), One, u);
  }

  /** What is left to do after the event whose message is processed. */
  ghost function Later(): seq<Prog> {
    [Then(Maybe(Either(TcpWrite(), OutgoingEvent())), Maybe(Then(Post, Maybe(ProcessDisconnect()))))] + [Worker()]
  }

  ghost function Onward(): seq<Prog> { [Repeat(ProcessMessage())] + ([Post] + Later()) }

  /** A worker comes to process a message of a readable connection. */
  lemma ToMessage(u: Thread)
    requires Comes(Thread([ProcessMessage()] + Onward(), {}), u)
    ensures Comes(Thread([Worker()], {}), u)
  {
    var lines := Then(Repeat(ProcessMessage()), Post);
    ByTurn(ProcessMessage(), [Post] + Later(), {}, u);
    ByThen(Repeat(ProcessMessage()), Post, Later(), {}, u);
    ByChoice(Maybe(ProcessDisconnect()), lines, false, Later(), {}, u);
    ByPost([Either(Maybe(ProcessDisconnect()), lines)] + Later(), u);
    ByThen(Post, Either(Maybe(ProcessDisconnect()), lines), Later(), {}, u);
    ByChoice(TcpRead(), UdpRead(), true, Later(), {}, u);
    ByChoice(Either(TcpRead(), UdpRead()), Skip, true, Later(), {}, u);
    ToRead(u);
  }

  lemma ToRead(u: Thread)
    requires Comes(Thread([Maybe(Either(TcpRead(), UdpRead()))] + Later(), {}), u)
    ensures Comes(Thread([Worker()], {}), u)
  {
    var next := Then(Maybe(Either(TcpWrite(), OutgoingEvent())), Maybe(Then(Post, Maybe(ProcessDisconnect()))));
    var treated := Then(Maybe(Either(TcpRead(), UdpRead())), next);
    ByThen(Maybe(Either(TcpRead(), UdpRead())), next, [Worker()], {}, u);
    ByChoice(ProcessDisconnect(), treated, false, [Worker()], {}, u);
    ByPost([Either(ProcessDisconnect(), treated)] + [Worker()], u);
    ByThen(Post, Either(ProcessDisconnect(), treated), [Worker()], {}, u);
    Nil([Worker()]);
    ByTurn(OneEvent(), [], {}, u);
  }

  /** The first of the handlers. */
  lemma ToReserve(rest: seq<Prog>, u: Thread)
    requires Comes(Thread([OnReserve()] + rest, {}), u)
    ensures Comes(Thread([Handler()] + rest, {}), u)
  {
    var peer, answer := Either(OnReserve(), OnRelease()), Either(OnGranted(), OnDenied());
    var more := Either(Either(OnJobRequest(), OnGetNodes()),
        Either(OnJobRelease(), Either(OnJobStatus(), OnJobTimeout())));
    ByChoice(OnReserve(), OnRelease(), true, rest, {}, u);
    ByChoice(peer, answer, true, rest, {}, u);
    ByChoice(Either(peer, answer), more, true, rest, {}, u);
  }

  /** A worker that prints the counters after a malformed message. */
  ghost function Printing(): Thread {
    Thread([Peek(Stock(Cpu))] + ([Then(Peek(Stock(Mem)), Peek(Stock(Gpu)))] + Onward()), {})
  }

  lemma ToPrinting()
    ensures Comes(Thread([Worker()], {}), Printing())
  {
    var u, rest := Printing(), [Maybe(PrintManager())] + Onward();
    Here(u);
    ByThen(Peek(Stock(Cpu)), Then(Peek(Stock(Mem)), Peek(Stock(Gpu))), Onward(), {}, u);
    ByChoice(PrintManager(), Skip, true, Onward(), {}, u);
    BySkip(rest, {}, u);
    ByChoice(Then(ReserveAny(), Maybe(Post)), Skip, false, rest, {}, u);
    ToReserve(rest, u);
    ByThen(Handler(), Maybe(PrintManager()), Onward(), {}, u);
    ToMessage(u);
  }

  /** A worker in reserve_resource, with the mutex of the counter. */
  ghost function Reserving(): Thread {
    Thread([Touch(Stock(Cpu))] + ([Unlock(Counter(Cpu))] + ([Maybe(Post)] + ([Maybe(PrintManager())] + Onward()))),
           {Counter(Cpu)})
  }

  lemma ToReserving()
    ensures Comes(Thread([Worker()], {}), Reserving())
  {
    var l, x := Counter(Cpu), Stock(Cpu);
    var u, rest := Reserving(), [Maybe(PrintManager())] + Onward();
    var more := [Maybe(Post)] + rest;
    Here(u);
    ByThen(Touch(x), Unlock(l), more, {l}, u);
    ByLock(l, [Then(Touch(x), Unlock(l))] + more, u);
    ByThen(Lock(l), Then(Touch(x), Unlock(l)), more, {}, u);
    ByChoice(ReserveResource(Cpu), Either(ReserveResource(Mem), ReserveResource(Gpu)), true, more, {}, u);
    ByThen(ReserveAny(), Maybe(Post), rest, {}, u);
    ByChoice(Then(ReserveAny(), Maybe(Post)), Skip, true, rest, {}, u);
    ToReserve(rest, u);
    ByThen(Handler(), Maybe(PrintManager()), Onward(), {}, u);
    ToMessage(u);
  }

  ghost function Moves(i: nat, cs: seq<Choice>): seq<(nat,
      Choice)> { seq(|cs|, n requires 0 <= n < |cs| => (i, cs[n])) }

  /** One thread goes its way while the others stand still and hold nothing. */
  lemma {:induction false} Goes(ts: seq<Thread>, i: nat, cs: seq<Choice>)
    requires i < |ts| && Alone(ts[i], cs) && forall j :: 0 <= j < |ts| && j != i ==> ts[j].held == {}
    ensures Run(ts, Moves(i, cs)) && After(ts, Moves(i, cs)) == ts[i := Goal(ts[i], cs)]
    decreases |cs|
  {
    var ms := Moves(i, cs);
    if cs != [] {
      Goes(Next(ts, i, cs[0]), i, cs[1..]);
      assert ms[1..] == Moves(i, cs[1..]);
      assert CanStep(ts, i);
    } else {
      assert ms == [] && ts[i := ts[i]] == ts;
    }
  }

  lemma TwoGo(t: Thread, u: Thread, v: Thread) returns (ms: seq<(nat, Choice)>)
    requires t.held == {} && u.held == {} && Comes(t, u) && Comes(t, v)
    ensures Run([t, t], ms) && After([t, t], ms) == [u, v]
  {
    var cs :| Alone(t, cs) && Goal(t, cs) == u;
    var ds :| Alone(t, ds) && Goal(t, ds) == v;
    Goes([t, t], 0, cs);
    assert [t, t][0 := u] == [u, t] && [u, t][1 := v] == [u, v];
    Goes([u, t], 1, ds);
    Joined([t, t], Moves(0, cs), Moves(1, ds));
    ms := Moves(0, cs) + Moves(1, ds);
  }

  /** One thread reads what another touches. */
  ghost predicate Race(ts: seq<Thread>, x: Data) {
    exists i, j :: 0 <= i < |ts| && 0 <= j < |ts| && Peeks(ts[i], x) && Touches(ts[j], x)
  }

  lemma Meet(t: Thread, u: Thread, v: Thread, x: Data) returns (ms: seq<(nat, Choice)>)
    requires t.held == {} && u.held == {} && Comes(t, u) && Comes(t, v) && Peeks(u, x) && Touches(v, x)
    ensures Run([t, t], ms) && Race(After([t, t], ms), x)
  {
    ms := TwoGo(t, u, v);
    var us := After([t, t], ms);
    assert Peeks(us[0], x) && Touches(us[1], x);
  }

  lemma AtTheCounter()
    ensures Peeks(Printing(), Stock(Cpu)) && Touches(Reserving(), Stock(Cpu))
    ensures Printing().held == {}
  {}

  lemma TwoStarted(t: Thread)
    requires t == Thread([Worker()], {})
    ensures Started([t, t])
  {}

  /** The counters are read while they are changed: one worker prints them while
      another reserves. */
  lemma PrintsWhileReserving(ts: seq<Thread>) returns (ms: seq<(nat, Choice)>)
    requires |ts| == 2 && ts[0] == ts[1] == Thread([Worker()], {})
    ensures Started(ts) && Run(ts, ms) && Race(After(ts, ms), Stock(Cpu))
  {
    var t := ts[0];
    assert ts == [t, t];
    TwoStarted(t);
    ToPrinting();
    ToReserving();
    AtTheCounter();
    ms := Meet(t, Printing(), Reserving(), Stock(Cpu));
  }
}
