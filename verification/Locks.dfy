/** Programs that take and release mutexes, run by any number of threads, and
    the ranked locking discipline that keeps them from deadlocking. */
module Locks {
  import opened Types
  import opened Seqs

  datatype Lock =
    | Table              // manager.tabla.lock
    | Counter(r: Res)    // manager.recursos[r].mutex
    | Conns              // conns.mutex
    | Nodes              // tabla_nodos.mutex
    | Output(c: nat)     // write_mutex of one connection

  function Rank(l: Lock): nat {
    match l
    case Table => 0
    case Counter(_) => 1
    case _ => 2
  }

  /** What the threads share. */
  datatype Data =
    | Jobs               // the buckets of manager.tabla and the jobs in them
    | Stock(r: Res)       // the counter and the queue of manager.recursos[r]
    | Registered         // the buckets of conns
    | Known              // the buckets of tabla_nodos
    | Buffer(c: nat)     // the write buffer of one connection

  function Guard(x: Data): Lock {
    match x
    case Jobs => Table
    case Stock(r) => Counter(r)
    case Registered => Conns
    case Known => Nodes
    case Buffer(c) => Output(c)
  }

  /** What a piece of code does with mutexes and shared data, everything else left
      open: a branch may go either way and a loop may turn any number of times. */
  datatype Prog =
    | Skip
    | Touch(x: Data)             // reads and writes it, counting on its mutex
    | Peek(x: Data)              // reads it whatever is held
    | Lock(l: Lock)
    | Unlock(l: Lock)
    | Post                       // uses the write buffer of some connection under its mutex
    | Then(first: Prog, next: Prog)
    | Either(one: Prog, other: Prog)
    | Repeat(body: Prog)

  datatype Choice = One | Other | On(c: nat)

  /** `todo` is run from its first element on. */
  datatype Thread = Thread(todo: seq<Prog>, held: set<Lock>)

  function Using(c: nat): seq<Prog> { [Lock(Output(c)), Touch(Buffer(c)), Unlock(Output(c))] }

  /** One step of a thread by itself. */
  function Advance(t: Thread, c: Choice): Thread
    requires t.todo != []
  {
    var rest := t.todo[1..];
    match t.todo[0]
    case Skip => t.(todo := rest)
    case Touch(_) => t.(todo := rest)
    case Peek(_) => t.(todo := rest)
    case Lock(l) => Thread(rest, t.held + {l})
    case Unlock(l) => Thread(rest, t.held - {l})
    case Post =>
      t.(todo := Using(if c.On? then c.c else 0) + rest)
    case Then(p, q) => t.(todo := [p, q] + rest)
    case Either(p, q) => t.(todo := [if c.One? then p else q] + rest)
    case Repeat(p) => if c.One? then t.(todo := [p, Repeat(p)] + rest) else t.(todo := rest)
  }

  ghost predicate Free(ts: seq<Thread>, l: Lock) {
    forall i :: 0 <= i < |ts| ==> l !in ts[i].held
  }

  /** A thread that is about to lock a mutex waits while any thread, itself
      included, holds it. */
  ghost predicate CanStep(ts: seq<Thread>, i: nat) {
    i < |ts| && ts[i].todo != [] && (ts[i].todo[0].Lock? ==> Free(ts, ts[i].todo[0].l))
  }

  function Next(ts: seq<Thread>, i: nat, c: Choice): seq<Thread>
    requires i < |ts| && ts[i].todo != []
  {
    ts[i := Advance(ts[i], c)]
  }

  ghost predicate Run(ts: seq<Thread>, ms: seq<(nat, Choice)>)
    decreases |ms|
  {
    ms == [] || (CanStep(ts, ms[0].0) && Run(Next(ts, ms[0].0, ms[0].1), ms[1..]))
  }

  ghost function After(ts: seq<Thread>, ms: seq<(nat, Choice)>): seq<Thread>
    requires Run(ts, ms)
    decreases |ms|
  {
    if ms == [] then ts else After(Next(ts, ms[0].0, ms[0].1), ms[1..])
  }

  // ---------------------------------------------------------------- the discipline

  predicate Above(l: Lock, held: set<Lock>) { forall k :: k in held ==> Rank(k) < Rank(l) }

  /** Read without the mutex: the counters, by print_manager, and the host that a
      GRANTED comes from. */
  predicate Loose(x: Data) { x.Stock? || x == Registered }

  /** The mutexes held after a program, if on all its paths it locks only above
      what it holds, unlocks only what it holds, touches only what is guarded by
      what it holds, and reads loosely only what may be. */
  function Check(p: Prog, held: set<Lock>): Option<set<Lock>> {
    match p
    case Skip => Some(held)
    case Touch(x) => if Guard(x) in held then Some(held) else None
    case Peek(x) => if Loose(x) then Some(held) else None
    case Lock(l) => if Above(l, held) then Some(held + {l}) else None
    case Unlock(l) => if l in held then Some(held - {l}) else None
    case Post => if forall k :: k in held ==> Rank(k) < 2 then Some(held) else None
    case Then(p, q) =>
      var m := Check(p, held);
      if m.Some? then Check(q, m.value) else None
    case Either(p, q) => if Check(p, held) == Check(q, held) then Check(p, held) else None
    case Repeat(p) => if Check(p, held) == Some(held) then Some(held) else None
  }

  function CheckAll(ps: seq<Prog>, held: set<Lock>): Option<set<Lock>> {
    if ps == [] then Some(held)
    else
      var m := Check(ps[0], held);
      if m.Some? then CheckAll(ps[1..], m.value) else None
  }

  /** The rest of a thread keeps the discipline and ends holding nothing. */
  ghost predicate Orderly(t: Thread) { CheckAll(t.todo, t.held) == Some({}) }

  ghost predicate Exclusive(ts: seq<Thread>) {
    forall i, j :: 0 <= i < j < |ts| ==> ts[i].held !! ts[j].held
  }

  ghost predicate Good(ts: seq<Thread>) {
    Exclusive(ts) && forall i :: 0 <= i < |ts| ==> Orderly(ts[i])
  }

  lemma Push(p: Prog, rest: seq<Prog>, held: set<Lock>)
    ensures CheckAll([p] + rest, held) ==
            if Check(p, held).Some? then CheckAll(rest, Check(p, held).value) else None
  {
    Parts([p], rest);
  }

  lemma Push2(p: Prog, q: Prog, rest: seq<Prog>, held: set<Lock>)
    ensures CheckAll([p, q] + rest, held) ==
            if Check(p, held).Some? then CheckAll([q] + rest, Check(p, held).value) else None
  {
    assert ([p, q] + rest)[1..] == [q] + rest;
  }

  lemma Push3(p: Prog, q: Prog, r: Prog, rest: seq<Prog>, held: set<Lock>)
    ensures CheckAll([p, q, r] + rest, held) ==
            if Check(p, held).Some? then CheckAll([q, r] + rest, Check(p, held).value) else None
  {
    assert ([p, q, r] + rest)[1..] == [q, r] + rest;
  }

  lemma PostOrderly(c: nat, rest: seq<Prog>, held: set<Lock>)
    requires forall k :: k in held ==> Rank(k) < 2
    ensures CheckAll(Using(c) + rest, held) == CheckAll(rest, held)
  {
    var l, x := Output(c), Buffer(c);
    Push3(Lock(l), Touch(x), Unlock(l), rest, held);
    Push2(Touch(x), Unlock(l), rest, held + {l});
    Push(Unlock(l), rest, held + {l});
    assert (held + {l}) - {l} == held;
  }

  lemma AdvanceOrderly(t: Thread, c: Choice)
    requires Orderly(t) && t.todo != []
    ensures Orderly(Advance(t, c))
  {
    var rest := t.todo[1..];
    match t.todo[0]
    case Post => PostOrderly(if c.On? then c.c else 0, rest, t.held);
    case Then(p, q) =>
      Push2(p, q, rest, t.held);
      if Check(p, t.held).Some? { Push(q, rest, Check(p, t.held).value); }
    case Either(p, q) => Push(if c.One? then p else q, rest, t.held);
    case Repeat(p) =>
      Push2(p, Repeat(p), rest, t.held);
      Push(Repeat(p), rest, t.held);
    case _ =>
  }

  lemma StepGood(ts: seq<Thread>, i: nat, c: Choice)
    requires Good(ts) && CanStep(ts, i)
    ensures Good(Next(ts, i, c))
  {
    AdvanceOrderly(ts[i], c);
    var us := Next(ts, i, c);
    forall j, k | 0 <= j < k < |us| ensures us[j].held !! us[k].held {
      assert ts[j].held !! ts[k].held;
    }
  }

  lemma {:induction false} RunGood(ts: seq<Thread>, ms: seq<(nat, Choice)>)
    requires Good(ts) && Run(ts, ms)
    ensures Good(After(ts, ms))
    decreases |ms|
  {
    if ms != [] {
      StepGood(ts, ms[0].0, ms[0].1);
      RunGood(Next(ts, ms[0].0, ms[0].1), ms[1..]);
    }
  }

  // ---------------------------------------------------------------- no deadlock

  /** Thread i waits for a mutex that a member of d holds. */
  ghost predicate WaitsIn(ts: seq<Thread>, i: nat, d: set<nat>) {
    && i < |ts| && ts[i].todo != [] && ts[i].todo[0].Lock?
    && exists j :: j in d && j < |ts| && ts[i].todo[0].l in ts[j].held
  }

  /** A deadlock: threads that wait for each other only. */
  ghost predicate Deadlocked(ts: seq<Thread>, d: set<nat>) {
    d != {} && forall i :: i in d ==> WaitsIn(ts, i, d)
  }

  /** A thread that holds a mutex wants only mutexes above it. */
  lemma WantsAbove(t: Thread, l: Lock)
    requires Orderly(t) && t.todo != [] && t.todo[0].Lock? && l in t.held
    ensures Rank(l) < Rank(t.todo[0].l) <= 2
  {}

  lemma {:induction false} Climb(ts: seq<Thread>, d: set<nat>, i: nat)
    requires Good(ts) && i in d && Deadlocked(ts, d)
    ensures false
    decreases 2 - Rank(ts[i].todo[0].l)
  {
    assert WaitsIn(ts, i, d);
    var l := ts[i].todo[0].l;
    var j :| j in d && j < |ts| && l in ts[j].held;
    assert WaitsIn(ts, j, d);
    WantsAbove(ts[j], l);
    Climb(ts, d, j);
  }

  lemma NoDeadlock(ts: seq<Thread>, d: set<nat>)
    requires Good(ts)
    ensures !Deadlocked(ts, d)
  {
    if Deadlocked(ts, d) {
      var i :| i in d;
      Climb(ts, d, i);
    }
  }

  /** A thread that has finished holds nothing, one about to lock does not hold
      that mutex already, and one about to unlock holds it. */
  lemma Discipline(t: Thread)
    requires Orderly(t)
    ensures t.todo == [] ==> t.held == {}
    ensures t.todo != [] && t.todo[0].Lock? ==> t.todo[0].l !in t.held
    ensures t.todo != [] && t.todo[0].Unlock? ==> t.todo[0].l in t.held
  {}

  ghost function Unfinished(ts: seq<Thread>): set<nat> {
    set i | 0 <= i < |ts| && ts[i].todo != []
  }

  ghost predicate SomeStep(ts: seq<Thread>) { exists i :: 0 <= i < |ts| && CanStep(ts, i) }

  /** While a thread is unfinished, some thread can step. */
  lemma Progress(ts: seq<Thread>, k: nat)
    requires Good(ts) && k < |ts| && ts[k].todo != []
    ensures SomeStep(ts)
  {
    var d := Unfinished(ts);
    NoDeadlock(ts, d);
    assert k in d;
    if !SomeStep(ts) {
      forall i | i in d ensures WaitsIn(ts, i, d) {
        assert !CanStep(ts, i);
        var j :| 0 <= j < |ts| && ts[i].todo[0].l in ts[j].held;
        Discipline(ts[j]);
        assert j in d;
      }
      assert Deadlocked(ts, d);
    }
  }

  // ---------------------------------------------------------------- no races

  /** About to touch shared data, and about to read it loosely. */
  ghost predicate Touches(t: Thread, x: Data) { t.todo != [] && t.todo[0] == Touch(x) }
  ghost predicate Peeks(t: Thread, x: Data) { t.todo != [] && t.todo[0] == Peek(x) }

  /** Who touches data holds its mutex, no two threads touch the same data at once, and
      a thread reads without the mutex only what may be read so. */
  ghost predicate NoRace(ts: seq<Thread>, x: Data) {
    && (forall i :: 0 <= i < |ts| && Touches(ts[i], x) ==> Guard(x) in ts[i].held)
    && (forall i, j :: 0 <= i < |ts| && 0 <= j < |ts| && i != j ==> !(Touches(ts[i], x) && Touches(ts[j], x)))
    && (forall i :: 0 <= i < |ts| && Peeks(ts[i], x) ==> Loose(x))
  }

  lemma OrderlyUse(t: Thread, x: Data)
    requires Orderly(t)
    ensures Touches(t, x) ==> Guard(x) in t.held
    ensures Peeks(t, x) ==> Loose(x)
  {}

  lemma GoodNoRace(ts: seq<Thread>, x: Data)
    requires Good(ts)
    ensures NoRace(ts, x)
  {
    forall i | 0 <= i < |ts|
      ensures Touches(ts[i], x) ==> Guard(x) in ts[i].held
      ensures Peeks(ts[i], x) ==> Loose(x)
    {
      OrderlyUse(ts[i], x);
    }
    forall i, j | 0 <= i < |ts| && 0 <= j < |ts| && i != j ensures !(Touches(ts[i], x) && Touches(ts[j], x)) {
      assert i < j ==> ts[i].held !! ts[j].held;
      assert j < i ==> ts[j].held !! ts[i].held;
    }
  }

  // ---------------------------------------------------------------- every wait can end

  function Size(p: Prog): nat {
    match p
    case Post => 4
    case Then(p, q) => 1 + Size(p) + Size(q)
    case Either(p, q) => 1 + Size(p) + Size(q)
    case Repeat(p) => 1 + Size(p)
    case _ => 1
  }

  function Sizes(ps: seq<Prog>): nat {
    if ps == [] then 0 else Size(ps[0]) + Sizes(ps[1..])
  }

  lemma SizesPush(p: Prog, rest: seq<Prog>)
    ensures Sizes([p] + rest) == Size(p) + Sizes(rest)
  {
    Parts([p], rest);
  }

  lemma SizesPush2(p: Prog, q: Prog, rest: seq<Prog>)
    ensures Sizes([p, q] + rest) == Size(p) + Size(q) + Sizes(rest)
  {
    assert ([p, q] + rest)[1..] == [q] + rest;
    SizesPush(q, rest);
  }

  lemma UsingSize(c: nat, rest: seq<Prog>)
    ensures Sizes(Using(c) + rest) == 3 + Sizes(rest)
  {
    var l, x := Output(c), Buffer(c);
    assert (Using(c) + rest)[1..] == [Touch(x), Unlock(l)] + rest;
    SizesPush2(Touch(x), Unlock(l), rest);
  }

  /** Leaving every loop, a thread gets nearer to its end with each step. */
  lemma Shrinks(t: Thread)
    requires t.todo != []
    ensures Sizes(Advance(t, Other).todo) < Sizes(t.todo)
  {
    var rest := t.todo[1..];
    match t.todo[0]
    case Post => UsingSize(0, rest);
    case Then(p, q) => SizesPush2(p, q, rest);
    case Either(p, q) => SizesPush(q, rest);
    case _ =>
  }

  lemma {:induction false} Joined(ts: seq<Thread>, ms: seq<(nat, Choice)>, ns: seq<(nat, Choice)>)
    requires Run(ts, ms) && Run(After(ts, ms), ns)
    ensures Run(ts, ms + ns) && After(ts, ms + ns) == After(After(ts, ms), ns)
    decreases |ms|
  {
    if ms == [] {
      Parts([], ns);
    } else {
      Joined(Next(ts, ms[0].0, ms[0].1), ms[1..], ns);
      assert (ms + ns)[1..] == ms[1..] + ns;
    }
  }

  /** The threads that hold nothing of rank n or above stay as they are. */
  ghost predicate LowStay(ts: seq<Thread>, us: seq<Thread>, n: nat) {
    |us| == |ts| &&
    forall i :: 0 <= i < |ts| && (forall k :: k in ts[i].held ==> Rank(k) < n) ==> us[i] == ts[i]
  }

  lemma Freed(ts: seq<Thread>, j: nat, l: Lock)
    requires Good(ts) && j < |ts| && l in ts[j].held && CanStep(ts, j) && l !in Advance(ts[j], Other).held
    ensures Free(Next(ts, j, Other), l)
  {
    forall i | 0 <= i < |ts| && i != j ensures l !in ts[i].held {
      assert i < j ==> ts[i].held !! ts[j].held;
      assert j < i ==> ts[j].held !! ts[i].held;
    }
  }

  lemma OneStep(ts: seq<Thread>, i: nat, c: Choice)
    requires CanStep(ts, i)
    ensures Run(ts, [(i, c)]) && After(ts, [(i, c)]) == Next(ts, i, c)
  {
    var step := [(i, c)];
    assert step[1..] == [] && step[0].0 == i && step[0].1 == c;
  }

  /** The holder of a mutex can be brought to release it. */
  lemma {:induction false} Drive(ts: seq<Thread>, j: nat, l: Lock) returns (ms: seq<(nat, Choice)>)
    requires Good(ts) && j < |ts| && l in ts[j].held
    ensures Run(ts, ms) && Good(After(ts, ms))
    ensures Free(After(ts, ms), l) && LowStay(ts, After(ts, ms), Rank(l))
    decreases 2 - Rank(l), Sizes(ts[j].todo)
  {
    Discipline(ts[j]);
    var us := ts;
    ms := [];
    if ts[j].todo[0].Lock? && !Free(ts, ts[j].todo[0].l) {
      var l' := ts[j].todo[0].l;
      var k :| 0 <= k < |ts| && l' in ts[k].held;
      WantsAbove(ts[j], l);
      ms := Drive(ts, k, l');
      us := After(ts, ms);
      assert us[j] == ts[j];
    }
    var step := [(j, Other)];
    var vs := Next(us, j, Other);
    StepGood(us, j, Other);
    OneStep(us, j, Other);
    Joined(ts, ms, step);
    ms := ms + step;
    if l in vs[j].held {
      Shrinks(us[j]);
      var more := Drive(vs, j, l);
      Joined(ts, ms, more);
      ms := ms + more;
    } else {
      Freed(us, j, l);
    }
  }

  /** A waiting thread can be served by steps of other threads alone. */
  lemma Served(ts: seq<Thread>, i: nat) returns (ms: seq<(nat, Choice)>)
    requires Good(ts) && i < |ts| && ts[i].todo != []
    ensures Run(ts, ms) && CanStep(After(ts, ms), i)
    ensures i < |After(ts, ms)| && After(ts, ms)[i] == ts[i]
  {
    ms := [];
    if !CanStep(ts, i) {
      var l := ts[i].todo[0].l;
      var j :| 0 <= j < |ts| && l in ts[j].held;
      ms := Drive(ts, j, l);
      assert forall k :: k in ts[i].held ==> Rank(k) < Rank(l);
    }
  }
}
