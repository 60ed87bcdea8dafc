/** Where the agent's promises stop: for each assumption on its inputs, an input
    that breaks conservation or the range of a counter without it, and the exact
    condition under which the single step concerned is right. */
module Limits {
  import opened Types
  import opened Seqs
  import opened Allocator
  import opened Ledger
  import opened Cascade
  import opened Handlers
  import opened Requests
  import opened Wiring
  import opened Runs
  import CT = ConnTable

  // ---------------------------------------------------------------- one request per resource

  /** The allocation that tabla_jobs_cambio_alloc would mark. */
  ghost function FirstMatch(as_: seq<Alloc>, c: Conn, r: Res): Option<Alloc> {
    if as_ == [] then None
    else if as_[0].kind == Local && as_[0].conn == c && as_[0].res == r then Some(as_[0])
    else FirstMatch(as_[1..], c, r)
  }

  lemma {:induction false} MarkGain(as_: seq<Alloc>, c: Conn, r: Res)
    ensures var m := FirstMatch(as_, c, r);
            Held(Mark(as_, c, r), r)
            == Held(as_, r) + if m.Some? && m.value.outcome != RmGranted then m.value.amount else 0
  {
    if as_ != [] {
      if as_[0].kind == Local && as_[0].conn == c && as_[0].res == r {
        assert Mark(as_, c, r)[1..] == as_[1..];
      } else {
        MarkGain(as_[1..], c, r);
        assert Mark(as_, c, r)[1..] == Mark(as_[1..], c, r);
      }
    }
  }

  /** Whatever the jobs look like, granting the head of a queue to a local job keeps
      the accounts if and only if the first allocation of that job, connection and
      resource is an ungranted one of the same amount. */
  lemma DequeueConserves(s: State, r: Res)
    requires CanPop(s.At(r)) && s.At(r).queue[0].origin == Local && s.At(r).queue[0].amount > 0
             && s.At(r).queue[0].job in s.jobs
    ensures var p := s.At(r).queue[0]; var m := FirstMatch(s.jobs[p.job].confirmed, p.owner, r);
            Use(Pop(s, r), r) == Use(s, r) <==> m.Some? && m.value.outcome != RmGranted && m.value.amount == p.amount
  {
    var p := s.At(r).queue[0];
    var j := s.jobs[p.job];
    var j' := j.(confirmed := Mark(j.confirmed, p.owner, r));
    MarkGain(j.confirmed, p.owner, r);
    SumSet(s.jobs, p.job, j', r);
    assert Pop(s, r).jobs == s.jobs[p.job := j'];
  }

  /** The state after a job takes all four units: the only event so far. */
  ghost function FourUnits(): State { Boot("h", 4, 0, 0) }

  ghost function TakeFour(): Event { EvJobRequest(Planner(0), 1, [Req("h", Cpu, 4, None)]) }

  ghost function AllHeld(): State {
    var k := Planner(0);
    FourUnits().(bank := FourUnits().bank.(cpu := Resource(0, 4, [], 0, [])),
                 jobs := map[1 := Job(1, k, [Alloc(Cpu, 4, Local, "h", 1, RmGranted, k)], [])],
                 log := [Out(k, JobGranted(1))])
  }

  lemma TakeFourRun()
    ensures LawfulRun(FourUnits(), [TakeFour()]) && After(FourUnits(), [TakeFour()]) == AllHeld()
    ensures Balanced(AllHeld(), Cpu)
  {
    var s, e := FourUnits(), TakeFour();
    var a := Alloc(Cpu, 4, Local, "h", 1, RmGranted, Planner(0));
    var t := s.(bank := AllHeld().bank);
    assert e.reqs[1..] == [] && [a] + [] == [a];
    assert Build(t, Job(1, Planner(0), [a], []), []) == Built(t, Job(1, Planner(0), [a], []));
    assert Build(s, Job(1, Planner(0), [], []), e.reqs) == Built(t, Job(1, Planner(0), [a], []));
    assert Step(s, e) == AllHeld();
    RunStep(s, [], e);
    Nil([e]);
    Conservation("h", 4, 0, 0, [e]);
    assert HarmlessRun(s, [e], Cpu);
  }

  lemma AllHeldReached() returns (s: State)
    ensures s == AllHeld() && Reachable(s) && Balanced(s, Cpu)
  {
    TakeFourRun();
    s := AllHeld();
  }

  /** A job without waits or requests that holds one share gives it back. */
  lemma ReleaseAlone(s: State, id: int)
    requires id in s.jobs && |s.jobs[id].confirmed| == 1 && IsLocalGrant(s.jobs[id].confirmed[0])
    ensures var a := s.jobs[id].confirmed[0];
            OnJobRelease(s, id) == PurgeJob(ReleaseRes(s.(jobs := s.jobs - {id}), a.res, a.amount), id)
  {
    var as_ := s.jobs[id].confirmed;
    var o := s.(jobs := s.jobs - {id});
    assert as_[1..] == [];
    assert ReturnAll(ReturnAlloc(o, as_[0]), []) == ReturnAlloc(o, as_[0]);
  }

  ghost function ThreeAndTwo(): seq<Req> { [Req("h", Cpu, 3, None), Req("h", Cpu, 2, None)] }

  /** The next job asks this host twice for the same resource: both requests wait,
      and its newest allocation comes first. */
  ghost function AskedTwice(): State {
    var k := Planner(0);
    var s := AllHeld();
    s.(bank := s.bank.(cpu := Resource(0, 4, [Pending(2, 3, k, Local), Pending(2, 2, k, Local)], 0, [])),
       jobs := s.jobs[2 := Job(2, k,
           [Alloc(Cpu, 2, Local, "h", 2, RmQueued, k), Alloc(Cpu, 3, Local, "h", 2, RmQueued, k)], [])])
  }

  lemma AskedTwiceReached()
    ensures OnJobRequest(AllHeld(), Planner(0), 2, ThreeAndTwo()) == AskedTwice()
  {
    var s, k, reqs := AllHeld(), Planner(0), ThreeAndTwo();
    var a3, a2 := Alloc(Cpu, 3, Local, "h", 2, RmQueued, k), Alloc(Cpu, 2, Local, "h", 2, RmQueued, k);
    var t3 := s.Put(Cpu, Resource(0, 4, [] + [Pending(2, 3, k, Local)], 0, []));
    var t2 := s.Put(Cpu, Resource(0, 4, [Pending(2, 3, k, Local)] + [Pending(2, 2, k, Local)], 0, []));
    assert reqs[1..][1..] == [] && [a3] + [] == [a3] && [a2] + [a3] == [a2, a3];
    assert Build(t2, Job(2, k, [a2, a3], []), []) == Built(t2, Job(2, k, [a2, a3], []));
    assert Build(t3, Job(2, k, [a3], []), reqs[1..]) == Built(t2, Job(2, k, [a2, a3], []));
    assert Build(s, Job(2, k, [], []), reqs) == Built(t2, Job(2, k, [a2, a3], []));
    assert a2 in [a2, a3] && IsLocalWait(a2);
  }

  /** The drain marks the first allocation, of 2, for the request of 3. */
  ghost function WrongMark(): State {
    var k := Planner(0);
    AskedTwice().(bank := FourUnits().bank.(cpu := Resource(1, 4, [Pending(2, 2, k, Local)], 0,
        [Pending(2, 3, k, Local)])),
                  jobs := map[2 := Job(2, k,
                      [Alloc(Cpu, 2, Local, "h", 2, RmGranted, k), Alloc(Cpu, 3, Local, "h", 2, RmQueued, k)], [])])
  }

  lemma WrongPop(g: State)
    requires g == Give(AskedTwice().(jobs := map[2 := AskedTwice().jobs[2]]), Cpu, 4)
    ensures Drain(g, Cpu) == WrongMark()
  {
    var k := Planner(0);
    var a3, a2 := Alloc(Cpu, 3, Local, "h", 2, RmQueued, k), Alloc(Cpu, 2, Local, "h", 2, RmQueued, k);
    var m := [a2.(outcome := RmGranted)] + [a2, a3][1..];
    assert Mark([a2, a3], k, Cpu) == m;
    assert m == [a2.(outcome := RmGranted), a3] && a3 in m && IsLocalWait(a3);
    assert g.At(Cpu).queue[1..] == [Pending(2, 2, k, Local)];
    assert Pop(g, Cpu) == WrongMark();
    assert Drain(WrongMark(), Cpu) == WrongMark();
  }

  lemma MarksWrong()
    ensures OnJobRelease(AskedTwice(), 1) == WrongMark()
  {
    var s := AskedTwice();
    ReleaseAlone(s, 1);
    var o := s.(jobs := s.jobs - {1});
    assert o.jobs == map[2 := s.jobs[2]];
    WrongPop(Give(o, Cpu, 4));
    assert ReleaseRes(o, Cpu, 4) == WrongMark();
    var q := WrongMark().At(Cpu).queue;
    assert DropJob(q, 1) == q by { assert q[1..] == []; }
  }

  lemma AskedTwiceUse()
    ensures Balanced(AskedTwice(), Cpu)
  {
    var j1, j2 := AllHeld().jobs[1], AskedTwice().jobs[2];
    assert j1.confirmed[1..] == [] && j2.confirmed[1..][1..] == [];
    SumSet(map[], 1, j1, Cpu);
    SumSet(map[1 := j1], 2, j2, Cpu);
    assert AskedTwice().jobs == map[][1 := j1][2 := j2];
  }

  lemma WrongMarkUse()
    ensures Use(WrongMark(), Cpu) == 3
  {
    var j := WrongMark().jobs[2];
    assert j.confirmed[1..][1..] == [];
    SumSet(map[], 2, j, Cpu);
    assert WrongMark().jobs == map[][2 := j];
  }

  /** A unit of capacity vanishes when the first job ends. Only the once-per-resource
      assumption is broken: the amounts are positive and nothing is dialled. */
  lemma AskedTwiceLoses() returns (s: State, t: State)
    ensures Reachable(s) && Balanced(s, Cpu)
    ensures t == OnJobRequest(s, Planner(0), 2, ThreeAndTwo()) && Balanced(t, Cpu)
    ensures Use(OnJobRelease(t, 1), Cpu) == 3
    ensures forall i :: 0 <= i < 2 ==> ThreeAndTwo()[i].amount > 0 && ThreeAndTwo()[i].dial == None
  {
    s := AllHeldReached();
    AskedTwiceReached();
    AskedTwiceUse();
    t := AskedTwice();
    MarksWrong();
    WrongMarkUse();
  }

  // ---------------------------------------------------------------- non-negative reservations

  /** A granted RESERVE leaves the counter in range, with nobody waiting for a free
      resource, if and only if its amount is not below what is already handed out. */
  lemma ReserveInRange(s: State, k: Conn, id: int, r: Res, amount: int)
    requires QueueOk(s.At(r)) && (s.At(r).queue != [] ==> s.At(r).avail < s.At(r).total) && amount <= s.At(r).avail
    ensures var c := s.At(r); var d := OnReserve(s, k, id, r, amount).At(r);
            (0 <= d.avail <= d.total && (d.queue != [] ==> d.avail < d.total))
            <==> c.avail - c.total <= amount && (c.queue != [] ==> c.avail - c.total < amount)
  {
  }

  /** After a granted RESERVE the share of a job comes back if and only if the amount
      is not below what the other holders leave; so a non-negative amount never
      makes it bounce, and any negative one does if the job holds all that is out. */
  lemma ReserveThenRelease(s: State, k: Conn, id: int, r: Res, amount: int, job: int)
    requires Inv(s) && job in s.jobs && Held(s.jobs[job].confirmed, r) > 0 && amount <= s.At(r).avail
    ensures var c := s.At(r); var h := Held(s.jobs[job].confirmed, r);
            var bounces := !Accepts(OnReserve(s, k, id, r, amount).At(r), h);
            && (bounces <==> amount < c.avail + h - c.total)
            && (amount >= 0 ==> !bounces)
            && (c.avail + h == c.total ==> (bounces <==> amount < 0))
  {
    SumRemove(s.jobs, job, r);
    forall n | n in s.jobs - {job} ensures JobOk((s.jobs - {job})[n], n) { assert JobOk(s.jobs[n], n); }
    SumNonNeg((s.jobs - {job}).Keys, s.jobs - {job}, r);
    assert Solvent(s, r);
    ReserveCases(s, k, id, r, amount);
  }

  /** After a RESERVE of -2: the counter grew, and the job still holds four units. */
  ghost function Negative(): State {
    AllHeld().Put(Cpu, Resource(2, 4, [], -2, [])).Send(Peer(1), Granted(9))
  }

  lemma NegativeGranted()
    ensures OnReserve(AllHeld(), Peer(1), 9, Cpu, -2) == Negative()
  {
    ReserveCases(AllHeld(), Peer(1), 9, Cpu, -2);
  }

  /** A release that finds no room changes nothing but the table. */
  lemma Bounces(s: State, id: int)
    requires id in s.jobs && |s.jobs[id].confirmed| == 1 && IsLocalGrant(s.jobs[id].confirmed[0])
    requires var a := s.jobs[id].confirmed[0]; !Accepts(s.At(a.res), a.amount)
    requires forall r :: s.At(r).queue == []
    ensures OnJobRelease(s, id) == s.(jobs := s.jobs - {id})
  {
    ReleaseAlone(s, id);
    var u := s.(jobs := s.jobs - {id});
    forall r ensures PurgeJob(u, id).At(r) == u.At(r) { assert s.At(r).queue == []; }
    assert PurgeJob(u, id).bank == u.bank by {
      assert u.At(Cpu) == u.bank.cpu && u.At(Mem) == u.bank.mem && u.At(Gpu) == u.bank.gpu;
    }
  }

  lemma NegativeBounces() returns (u: State)
    ensures u == OnJobRelease(Negative(), 1) && u.jobs == map[] && u.At(Cpu) == Resource(2, 4, [], -2, [])
  {
    var s := Negative();
    forall r ensures s.At(r).queue == [] {}
    Bounces(s, 1);
    u := s.(jobs := s.jobs - {1});
  }

  lemma EmptyUse(s: State, r: Res)
    requires s.jobs == map[]
    ensures Use(s, r) == s.At(r).avail + s.At(r).lent
  {}

  /** A RESERVE of -2 is granted, and the release of the job that holds all four
      units is refused: nobody holds anything and the counter says 2 of 4. */
  lemma NegativeReserveLoses() returns (s: State, t: State, u: State)
    ensures Reachable(s) && Balanced(s, Cpu)
    ensures t == OnReserve(s, Peer(1), 9, Cpu, -2) && t.log == s.log + [Out(Peer(1), Granted(9))]
    ensures u == OnJobRelease(t, 1) && u.jobs == map[] && u.At(Cpu).avail == 2 && !Balanced(u, Cpu)
  {
    s := AllHeldReached();
    NegativeGranted();
    t := Negative();
    u := NegativeBounces();
    EmptyUse(u, Cpu);
  }

  // ---------------------------------------------------------------- peers repay what they were lent

  /** A job's share comes back to the accounts if and only if the counter has room. */
  lemma ReleaseCounts(s: State, r: Res, amount: int)
    requires Good(s) && Clean(s, r) && amount > 0
    ensures Use(ReleaseRes(s, r, amount), r) == Use(s, r) + amount <==> Accepts(s.At(r), amount)
  {
    if Accepts(s.At(r), amount) { ReleaseExact(s, r, amount, r); }
  }

  /** After a peer gave back four units that it was never lent. */
  ghost function Overpaid(): State { AllHeld().Put(Cpu, Resource(4, 4, [], -4, [])) }

  lemma OverpaidStep()
    ensures OnRelease(AllHeld(), 9, Cpu, 4) == Overpaid()
  {
    var full := Overpaid();
    assert Drain(full, Cpu) == full;
    assert ReleaseRes(Repaid(AllHeld(), Cpu, 4), Cpu, 4) == full;
  }

  lemma OverpaidBounces() returns (u: State)
    ensures u == OnJobRelease(Overpaid(), 1) && u.jobs == map[] && u.At(Cpu) == Resource(4, 4, [], -4, [])
  {
    var s := Overpaid();
    forall r ensures s.At(r).queue == [] {}
    Bounces(s, 1);
    u := s.(jobs := s.jobs - {1});
  }

  /** A peer that gives back what it was never lent makes the real release bounce. */
  lemma OverpaidLoses() returns (s: State, t: State, u: State)
    ensures Reachable(s) && Balanced(s, Cpu)
    ensures t == OnRelease(s, 9, Cpu, 4) && t.At(Cpu).avail == t.At(Cpu).total && t.jobs == s.jobs
    ensures u == OnJobRelease(t, 1) && u.jobs == map[] && !Balanced(u, Cpu)
  {
    s := AllHeldReached();
    OverpaidStep();
    t := Overpaid();
    u := OverpaidBounces();
    EmptyUse(u, Cpu);
  }

  // ---------------------------------------------------------------- several jobs on one lost peer

  ghost function HolderAsks(): Event {
    EvJobRequest(Planner(0), 2, [Req("h", Cpu, 4, None), Req("p", Gpu, 1, Some(Peer(7)))])
  }

  ghost function WaiterAsks(): Event {
    EvJobRequest(Planner(0), 1, [Req("h", Cpu, 3, None), Req("p", Gpu, 1, None)])
  }

  /** A job holds all four units and has dialled a peer. */
  ghost function Dialling(): State {
    var k := Planner(0);
    FourUnits().(bank := AllHeld().bank,
                 jobs := map[2 := Job(2, k, [Alloc(Cpu, 4, Local, "h", 2, RmGranted, k)],
                                      [OutReq("p", Peer(7), Gpu, 1, Some(Reserve(2, Gpu, 1)))])])
  }

  ghost function Linked(): State {
    Dialling().(conns := CT.Insert(CT.EmptyTable(), "p", Peer(7)), log := [Out(Peer(7), Reserve(2, Gpu, 1))])
  }

  /** Two jobs wait for the same peer; one holds the resource the other queues for. */
  ghost function TwoVictims(): State {
    var k := Planner(0);
    Linked().(bank := FourUnits().bank.(cpu := Resource(0, 4, [Pending(1, 3, k, Local)], 0, [])),
              jobs := Linked().jobs[1 := Job(1, k, [Alloc(Cpu, 3, Local, "h", 1, RmQueued, k)],
                  [OutReq("p", Peer(7), Gpu, 1, None)])],
              log := [Out(Peer(7), Reserve(2, Gpu, 1)), Out(Peer(7), Reserve(1, Gpu, 1))])
  }

  lemma NoneMentioned(k: Conn)
    ensures !CT.Mentions(CT.EmptyTable(), k) && CT.Lookup(CT.EmptyTable(), "p") == None
  {}

  lemma HolderStep()
    ensures Lawful(FourUnits(), HolderAsks()) && Step(FourUnits(), HolderAsks()) == Dialling()
  {
    var s, k, reqs := FourUnits(), Planner(0), HolderAsks().reqs;
    var a := Alloc(Cpu, 4, Local, "h", 2, RmGranted, k);
    var o := OutReq("p", Peer(7), Gpu, 1, Some(Reserve(2, Gpu, 1)));
    var t := s.(bank := AllHeld().bank);
    NoneMentioned(Peer(7));
    assert "h"[0] != "p"[0] && Clip("p", 14) == "p";
    assert reqs[1..][1..] == [] && [a] + [] == [a] && [o] + [] == [o];
    assert Build(t, Job(2, k, [a], [o]), []) == Built(t, Job(2, k, [a], [o]));
    assert Build(t, Job(2, k, [a], []), reqs[1..]) == Built(t, Job(2, k, [a], [o]));
    assert Build(s, Job(2, k, [], []), reqs) == Built(t, Job(2, k, [a], [o]));
    assert FreshDials(s, reqs) && RequestOk("h", reqs);
  }

  lemma LinkStep()
    ensures var e := EvConnReady(Peer(7), [2]);
            Feasible(Dialling(), e) && Lawful(Dialling(), e) && Step(Dialling(), e) == Linked()
  {
    var s := Dialling();
    var ps := s.jobs[2].pending;
    NoneMentioned(Peer(7));
    assert ps[1..] == [] && OnConn([], Peer(7)) == [];
    assert OnConn(ps, Peer(7)) == ps;
    assert [2][1..] == [] && Awaiting(s.jobs, [], Peer(7)) == [];
    assert Awaiting(s.jobs, [2], Peer(7)) == ps;
    assert s.log + [Out(Peer(7), Reserve(2, Gpu, 1))] == [Out(Peer(7), Reserve(2, Gpu, 1))];
    assert Open(Linked(), Peer(7), []) == Linked();
  }

  lemma WaiterStep()
    ensures Lawful(Linked(), WaiterAsks()) && Step(Linked(), WaiterAsks()) == TwoVictims()
  {
    var s, k, reqs := Linked(), Planner(0), WaiterAsks().reqs;
    var a := Alloc(Cpu, 3, Local, "h", 1, RmQueued, k);
    var o := OutReq("p", Peer(7), Gpu, 1, None);
    var t := s.Put(Cpu, Resource(0, 4, [] + [Pending(1, 3, k, Local)], 0, []));
    var u := t.Send(Peer(7), Reserve(1, Gpu, 1));
    assert CT.Lookup(s.conns, "p") == Some(Peer(7)) by { assert Clip("p", 15) == "p"; }
    assert "h"[0] != "p"[0] && Clip("p", 14) == "p";
    assert reqs[1..][1..] == [] && [a] + [] == [a] && [o] + [] == [o];
    assert Build(u, Job(1, k, [a], [o]), []) == Built(u, Job(1, k, [a], [o]));
    assert Build(t, Job(1, k, [a], []), reqs[1..]) == Built(u, Job(1, k, [a], [o]));
    assert Build(s, Job(1, k, [], []), reqs) == Built(u, Job(1, k, [a], [o]));
    assert FreshDials(s, reqs) && RequestOk("h", reqs);
    assert u.log == TwoVictims().log;
    assert o in [o];
  }

  /** What the loss leaves behind: one unit of four, and nobody holds the rest. */
  ghost function Bereft(): State {
    FourUnits().(bank := FourUnits().bank.(cpu := Resource(1, 4, [], 0, [Pending(1, 3, Planner(0), Local)])),
        log := TwoVictims().log)
  }

  lemma VictimsAre()
    ensures Enumerates([2, 1], Victims(TwoVictims().jobs, Peer(7))) && Kept(TwoVictims().jobs, Peer(7)) == map[]
    ensures Pick(TwoVictims().jobs, [2, 1], Peer(7)) == [TwoVictims().jobs[2], TwoVictims().jobs[1]]
  {
    var jobs := TwoVictims().jobs;
    assert jobs[1].pending[0] in jobs[1].pending && jobs[2].pending[0] in jobs[2].pending;
    assert jobs[1].confirmed[1..] == [] && jobs[2].confirmed[1..] == [];
    assert StripAllocs(jobs[1].confirmed, Peer(7)) == jobs[1].confirmed;
    assert StripAllocs(jobs[2].confirmed, Peer(7)) == jobs[2].confirmed;
  }

  /** The first release grants the request of the second job, already out of the table. */
  lemma Spilled(s: State) returns (u: State)
    requires s == TwoVictims().(jobs := map[])
    ensures u == s.(bank := Bereft().bank) && FreeAll(PurgeJob(s, 2), 2, TwoVictims().jobs[2].confirmed) == u
  {
    var q := s.At(Cpu).queue;
    assert q[1..] == [] && DropJob(q, 2) == q;
    assert PurgeJob(s, 2) == s;
    u := s.(bank := Bereft().bank);
    assert Pop(Give(s, Cpu, 4), Cpu) == u;
    assert Drain(u, Cpu) == u && Drain(Give(s, Cpu, 4), Cpu) == u;
    assert TwoVictims().jobs[2].confirmed[1..] == [];
    assert FreeAll(u, 2, []) == u;
  }

  lemma Abandoned(s: State) returns (u: State)
    requires s == TwoVictims().(jobs := map[])
    ensures u == s.(bank := Bereft().bank) && Abandon(s, [TwoVictims().jobs[2], TwoVictims().jobs[1]]) == u
  {
    var v2, v1 := TwoVictims().jobs[2], TwoVictims().jobs[1];
    u := Spilled(s);
    assert v1.confirmed[1..] == [];
    assert PurgeJob(u, 1) == u;
    assert FreeAll(u, 1, []) == u && FreeAll(u, 1, v1.confirmed) == u;
    assert [v2, v1][1..] == [v1] && [v1][1..] == [];
    assert Abandon(u, []) == u && Abandon(u, [v1]) == u;
  }

  lemma Unlinked()
    ensures CT.DeleteByConn(TwoVictims().conns, Peer(7)) == CT.EmptyTable()
  {
    assert CT.Unlink([CT.Entry(Clip("p", 15), Peer(7))], Peer(7)) == [];
  }

  lemma LossStep()
    ensures var e := EvDisconnect(Peer(7), [2, 1]); Feasible(TwoVictims(), e) && Step(TwoVictims(), e) == Bereft()
  {
    var s := TwoVictims();
    VictimsAre();
    var q := s.At(Cpu).queue;
    assert q[1..] == [] && DropConn(q, Peer(7)) == q;
    assert PurgeConn(s, Peer(7)) == s;
    var u := Abandoned(s.(jobs := map[]));
    Unlinked();
    assert Step(s, EvDisconnect(Peer(7), [2, 1])) == u.(conns := CT.EmptyTable());
  }

  ghost function LossRun(): seq<Event> {
    [] + [HolderAsks()] + [EvConnReady(Peer(7), [2])] + [WaiterAsks()] + [EvDisconnect(Peer(7), [2, 1])]
  }

  /** A lawful run from boot in which losing a peer loses capacity: at its end no job
      exists, nothing is lent, nobody waits, and 3 of the 4 units are gone. */
  lemma TwoVictimsLose()
    ensures LawfulRun(FourUnits(), LossRun()) && After(FourUnits(), LossRun()) == Bereft()
    ensures Use(Bereft(), Cpu) == 1 && Bereft().jobs == map[] && !HarmlessRun(FourUnits(), LossRun(), Cpu)
  {
    var s := FourUnits();
    var e1 := [] + [HolderAsks()];
    var e2 := e1 + [EvConnReady(Peer(7), [2])];
    var e3 := e2 + [WaiterAsks()];
    HolderStep();
    RunStep(s, [], HolderAsks());
    LinkStep();
    RunStep(s, e1, EvConnReady(Peer(7), [2]));
    WaiterStep();
    RunStep(s, e2, WaiterAsks());
    LossStep();
    RunStep(s, e3, EvDisconnect(Peer(7), [2, 1]));
    Conservation("h", 4, 0, 0, LossRun());
    assert SumHeld(map[], Cpu) == 0;
    assert !Balanced(Bereft(), Cpu);
  }
}
