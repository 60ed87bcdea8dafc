/** Who is told JOB_GRANTED: over every event, the owner of each job that has come to
    have nothing outstanding, once, and nobody else; over every run, exactly when all
    that was requested is granted. And what is left of a job that has ended. */
module Announcements {
  import opened Types
  import opened Seqs
  import opened Allocator
  import opened Ledger
  import opened Cascade
  import opened Handlers
  import opened Requests
  import opened Disconnects
  import opened Wiring
  import opened Runs
  import opened Messages
  import opened Shares
  import CT = ConnTable

  /** An announcement to the owner of a job of the table. */
  ghost predicate Mine(o: Out, jobs: map<int, Job>) { o.msg.job in jobs && jobs[o.msg.job].conn == o.to }

  ghost predicate OwnedBy(p: Pending, jobs: map<int, Job>) {
    p.origin == Local && p.job in jobs ==> p.owner == jobs[p.job].conn
  }

  /** The local requests that wait belong to the owners of their jobs. */
  ghost predicate Owned(s: State) {
    forall r, i :: 0 <= i < |s.At(r).queue| ==> OwnedBy(s.At(r).queue[i], s.jobs)
  }

  ghost predicate SameOwners(s: State, t: State) {
    forall id :: id in t.jobs ==> id in s.jobs && t.jobs[id].conn == s.jobs[id].conn
  }

  /** Jobs may leave and requests may be taken from the queues, and nobody is told
      JOB_GRANTED but the owners of jobs of the table. */
  ghost predicate Hushed(s: State, t: State) {
    && SameOwners(s, t)
    && (forall r, p :: p in t.At(r).queue ==> p in s.At(r).queue)
    && (forall o: Out :: o.msg.JobGranted? && !Mine(o, s.jobs) ==> multiset(t.log)[o] == multiset(s.log)[o])
  }

  lemma HushedOwned(s: State, t: State)
    requires Owned(s) && Hushed(s, t)
    ensures Owned(t)
  {
    forall r, i | 0 <= i < |t.At(r).queue| ensures OwnedBy(t.At(r).queue[i], t.jobs) {
      var p := t.At(r).queue[i];
      assert p in s.At(r).queue;
      var n :| 0 <= n < |s.At(r).queue| && s.At(r).queue[n] == p;
      assert OwnedBy(s.At(r).queue[n], s.jobs);
    }
  }

  lemma HushedTrans(s: State, t: State, u: State)
    requires Hushed(s, t) && Hushed(t, u)
    ensures Hushed(s, u)
  {
    forall r, p | p in u.At(r).queue ensures p in s.At(r).queue { assert p in t.At(r).queue; }
  }

  lemma InvOwned(s: State)
    requires Inv(s)
    ensures Owned(s)
  {
    forall r, i | 0 <= i < |s.At(r).queue| ensures OwnedBy(s.At(r).queue[i], s.jobs) {
      var p := s.At(r).queue[i];
      if p.origin == Local && p.job in s.jobs {
        EntriesOf(s.At(r).queue, p.job);
        assert Matched(s, r, p.job) && JobOk(s.jobs[p.job], p.job);
        WantedOwner(s.jobs[p.job].confirmed, p.job, s.jobs[p.job].conn, r);
      }
    }
  }

  // ---------------------------------------------------------------- the cascade

  /** A message that is not an announcement, or one to the owner of a job of the table. */
  lemma SendHushed(s: State, t: State, to: Conn, m: Msg)
    requires t == s.Send(to, m) && (m.JobGranted? ==> Mine(Out(to, m), s.jobs))
    ensures Hushed(s, t)
  {
    forall r ensures t.At(r) == s.At(r) {}
  }

  lemma PopTakes(s: State, r: Res)
    requires CanPop(s.At(r))
    ensures var p, t := s.At(r).queue[0], Pop(s, r);
            && t.jobs == MarkIn(s.jobs, p.job, p.owner, r)
            && (forall x :: t.At(x).queue == if x == r then s.At(r).queue[1..] else s.At(x).queue)
            && t.log == s.log + if p.origin == Remote then [Out(p.owner, Granted(p.job))]
                                else if ReadyIn(t.jobs, p.job) then [Out(p.owner, JobGranted(p.job))] else []
  {
    Nil(s.log);
  }

  lemma PopHushed(s: State, r: Res)
    requires Owned(s) && CanPop(s.At(r))
    ensures Hushed(s, Pop(s, r))
  {
    var p, t := s.At(r).queue[0], Pop(s, r);
    PopTakes(s, r);
    assert OwnedBy(s.At(r).queue[0], s.jobs);
    assert SameOwners(s, t);
  }

  lemma {:induction false} DrainHushed(s: State, r: Res)
    requires Owned(s)
    ensures Hushed(s, Drain(s, r))
    decreases |s.At(r).queue|
  {
    if CanPop(s.At(r)) {
      PopHushed(s, r);
      HushedOwned(s, Pop(s, r));
      DrainHushed(Pop(s, r), r);
      HushedTrans(s, Pop(s, r), Drain(Pop(s, r), r));
    }
  }

  lemma ReleaseHushed(s: State, r: Res, amount: int)
    requires Owned(s)
    ensures Hushed(s, ReleaseRes(s, r, amount))
  {
    if Accepts(s.At(r), amount) {
      var t := Give(s, r, amount);
      forall x ensures t.At(x).queue == s.At(x).queue {}
      HushedOwned(s, t);
      DrainHushed(t, r);
      HushedTrans(s, t, Drain(t, r));
    }
  }

  lemma PurgeHushed(s: State, id: int)
    ensures Hushed(s, PurgeJob(s, id))
  {
    forall r ensures forall p :: p in PurgeJob(s, id).At(r).queue ==> p in s.At(r).queue {
      DroppedJob(s.At(r).queue, id);
      assert PurgeJob(s, id).At(r).queue == DropJob(s.At(r).queue, id);
    }
  }

  lemma FreeOneHushed(s: State, id: int, a: Alloc)
    requires Owned(s)
    ensures Hushed(s, FreeAlloc(s, id, a))
  {
    var k := CT.Lookup(s.conns, a.host);
    if IsLocalGrant(a) {
      ReleaseHushed(s, a.res, a.amount);
    } else if a.kind == Remote && k.Some? {
      SendHushed(s, FreeAlloc(s, id, a), k.value, Release(id, a.res, a.amount));
    }
  }

  lemma {:induction false} FreeHushed(s: State, id: int, as_: seq<Alloc>)
    requires Owned(s)
    ensures Hushed(s, FreeAll(s, id, as_))
    decreases |as_|
  {
    if as_ != [] {
      var t := FreeAlloc(s, id, as_[0]);
      FreeOneHushed(s, id, as_[0]);
      HushedOwned(s, t);
      FreeHushed(t, id, as_[1..]);
      HushedTrans(s, t, FreeAll(t, id, as_[1..]));
    }
  }

  lemma ReturnOneHushed(s: State, a: Alloc)
    requires Owned(s)
    ensures Hushed(s, ReturnAlloc(s, a))
  {
    var t := if IsLocalGrant(a) then ReleaseRes(s, a.res, a.amount) else PurgeJob(s, a.job);
    if IsLocalGrant(a) { ReleaseHushed(s, a.res, a.amount); } else { PurgeHushed(s, a.job); }
    if a.kind == Remote {
      SendHushed(t, ReturnAlloc(s, a), a.conn, Release(a.job, a.res, a.amount));
      HushedTrans(s, t, ReturnAlloc(s, a));
    }
  }

  lemma {:induction false} ReturnHushed(s: State, as_: seq<Alloc>)
    requires Owned(s)
    ensures Hushed(s, ReturnAll(s, as_))
    decreases |as_|
  {
    if as_ != [] {
      var t := ReturnAlloc(s, as_[0]);
      ReturnOneHushed(s, as_[0]);
      HushedOwned(s, t);
      ReturnHushed(t, as_[1..]);
      HushedTrans(s, t, ReturnAll(t, as_[1..]));
    }
  }

  lemma PurgeFreeHushed(s: State, id: int, as_: seq<Alloc>)
    requires Owned(s)
    ensures Hushed(s, FreeAll(PurgeJob(s, id), id, as_))
  {
    PurgeHushed(s, id);
    HushedOwned(s, PurgeJob(s, id));
    FreeHushed(PurgeJob(s, id), id, as_);
    HushedTrans(s, PurgeJob(s, id), FreeAll(PurgeJob(s, id), id, as_));
  }

  lemma {:induction false} AbandonHushed(s: State, vs: seq<Job>)
    requires Owned(s)
    ensures Hushed(s, Abandon(s, vs))
    decreases |vs|
  {
    if vs != [] {
      var t := FreeAll(PurgeJob(s, vs[0].id), vs[0].id, vs[0].confirmed);
      PurgeFreeHushed(s, vs[0].id, vs[0].confirmed);
      HushedOwned(s, t);
      AbandonHushed(t, vs[1..]);
      HushedTrans(s, t, Abandon(t, vs[1..]));
    }
  }

  // ---------------------------------------------------------------- one event

  /** The state without a job that is leaving it. */
  ghost function Bare(s: State, id: int): State { s.(jobs := s.jobs - {id}) }

  lemma BareOwned(s: State, id: int)
    requires Owned(s)
    ensures Owned(Bare(s, id))
  {
    forall r, i | 0 <= i < |Bare(s, id).At(r).queue| ensures OwnedBy(Bare(s, id).At(r).queue[i], Bare(s, id).jobs) {
      assert OwnedBy(s.At(r).queue[i], s.jobs);
    }
  }

  /** No announcement beyond those to owners of these jobs. */
  ghost predicate Silent(s: State, t: State, jobs: map<int, Job>) {
    forall o: Out :: o.msg.JobGranted? && !Mine(o, jobs) ==> multiset(t.log)[o] == multiset(s.log)[o]
  }

  lemma RemoveSilent(s: State, id: int)
    requires Owned(s)
    ensures Silent(s, PurgeJob(RemoveJob(s, id), id), s.jobs - {id})
    ensures Owned(RemoveJob(s, id))
  {
    if id in s.jobs {
      var as_ := s.jobs[id].confirmed;
      BareOwned(s, id);
      FreeHushed(Bare(s, id), id, as_);
      HushedOwned(Bare(s, id), FreeAll(Bare(s, id), id, as_));
    }
  }

  lemma DeniedSilent(s: State, id: int)
    requires Owned(s)
    ensures Silent(s, OnDenied(s, id), s.jobs - {id})
  {
    RemoveSilent(s, id);
  }

  lemma JobReleaseSilent(s: State, id: int)
    requires Owned(s)
    ensures Silent(s, OnJobRelease(s, id), s.jobs - {id})
  {
    if id in s.jobs {
      BareOwned(s, id);
      ReturnHushed(Bare(s, id), s.jobs[id].confirmed);
    }
  }

  lemma TakenBackHushed(s: State, r: Res, amount: int)
    requires Inv(s)
    ensures Hushed(s, TakenBack(s, r, amount)) && Owned(TakenBack(s, r, amount))
  {
    InvOwned(s);
    if amount != 0 {
      var t := Repaid(s, r, amount);
      forall x ensures t.At(x).queue == s.At(x).queue {}
      HushedOwned(s, t);
      ReleaseHushed(t, r, amount);
      HushedTrans(s, t, TakenBack(s, r, amount));
    }
    HushedOwned(s, TakenBack(s, r, amount));
  }

  lemma RefusedSilent(s: State, k: Conn, id: int, reqs: seq<Req>)
    requires Owned(s) && id !in s.jobs && Build(s, Job(id, k, [], []), reqs).Refused?
    requires var p := Build(s, Job(id, k, [], []), reqs); Owned(p.s) && p.s.jobs == s.jobs
    ensures Silent(s, OnJobRequest(s, k, id, reqs), s.jobs)
  {
    var p := Build(s, Job(id, k, [], []), reqs);
    BuildQuiet(s, Job(id, k, [], []), reqs);
    PurgeFreeHushed(p.s, id, p.j.confirmed);
  }

  lemma {:induction false} BuildQuiet(s: State, j: Job, reqs: seq<Req>)
    ensures forall o: Out :: o.msg.JobGranted? ==> multiset(Build(s, j, reqs).s.log)[o] == multiset(s.log)[o]
    decreases |reqs|
  {
    if reqs != [] {
      var q, rest := reqs[0], reqs[1..];
      if q.host == s.ip {
        var (t, o) := ReserveRes(s, q.res, q.amount, j.id, j.conn, Local);
        if o != RmDenied {
          BuildQuiet(t, j.(confirmed := [Alloc(q.res, q.amount, Local, s.ip, j.id, o, j.conn)] + j.confirmed), rest);
        }
      } else {
        match CT.Lookup(s.conns, q.host)
        case Some(c) => BuildQuiet(s.Send(c, Reserve(j.id, q.res, q.amount)), Ask(j, q, c, None), rest);
        case None =>
          if q.dial.Some? { BuildQuiet(s, Ask(j, q, q.dial.value, Some(Reserve(j.id, q.res, q.amount))), rest); }
      }
    }
  }

  /** The request loop adds local requests of its own job only. */
  lemma {:induction false} BuildOwned(s: State, j: Job, reqs: seq<Req>)
    requires Owned(s) && j.id !in s.jobs
    ensures Owned(Build(s, j, reqs).s) && Build(s, j, reqs).s.jobs == s.jobs && Build(s, j, reqs).j.conn == j.conn
    decreases |reqs|
  {
    if reqs != [] {
      var q, rest := reqs[0], reqs[1..];
      if q.host == s.ip {
        var (t, o) := ReserveRes(s, q.res, q.amount, j.id, j.conn, Local);
        ReserveOwned(s, q.res, q.amount, j.id, j.conn);
        if o != RmDenied {
          BuildOwned(t, j.(confirmed := [Alloc(q.res, q.amount, Local, s.ip, j.id, o, j.conn)] + j.confirmed), rest);
        }
      } else {
        match CT.Lookup(s.conns, q.host)
        case Some(c) =>
          var t := s.Send(c, Reserve(j.id, q.res, q.amount));
          forall r ensures t.At(r) == s.At(r) {}
          HushedOwned(s, t);
          BuildOwned(t, Ask(j, q, c, None), rest);
        case None =>
          if q.dial.Some? { BuildOwned(s, Ask(j, q, q.dial.value, Some(Reserve(j.id, q.res, q.amount))), rest); }
      }
    }
  }

  lemma ReserveOwned(s: State, r: Res, amount: int, id: int, k: Conn)
    requires Owned(s) && id !in s.jobs
    ensures Owned(ReserveRes(s, r, amount, id, k, Local).0)
  {
    var t := ReserveRes(s, r, amount, id, k, Local).0;
    forall x, i | 0 <= i < |t.At(x).queue| ensures OwnedBy(t.At(x).queue[i], t.jobs) {
      if i < |s.At(x).queue| { assert t.At(x).queue[i] == s.At(x).queue[i] && OwnedBy(s.At(x).queue[i], s.jobs); }
    }
  }

  lemma RequestSilentToOthers(s: State, k: Conn, id: int, reqs: seq<Req>)
    requires Inv(s)
    ensures Silent(s, OnJobRequest(s, k, id, reqs), OnJobRequest(s, k, id, reqs).jobs)
  {
    InvOwned(s);
    if id !in s.jobs {
      var j := Job(id, k, [], []);
      var p := Build(s, j, reqs);
      BuildOwned(s, j, reqs);
      BuildQuiet(s, j, reqs);
      if p.Refused? {
        RefusedSilent(s, k, id, reqs);
        FreeKeys(PurgeJob(p.s, id), id, p.j.confirmed);
        PurgeFreeHushed(p.s, id, p.j.confirmed);
      } else {
        BuildFrame(s, j, reqs);
      }
    }
  }

  lemma GrantedSilent(s: State, k: Conn, id: int)
    requires Inv(s)
    ensures Silent(s, OnGranted(s, k, id), OnGranted(s, k, id).jobs)
  {
    var t := OnGranted(s, k, id);
    if id in s.jobs {
      GrantedOwner(s, k, id);
      GrantedLog(s, k, id);
    } else if CT.HostOf(s.conns, k).Some? {
      DisownSays(s, k, id);
    }
  }

  lemma GrantedOwner(s: State, k: Conn, id: int)
    requires Inv(s) && id in s.jobs
    ensures var t := OnGranted(s, k, id); id in t.jobs && t.jobs[id].conn == s.jobs[id].conn
  {
    GrantedKeeps(s, k, id);
  }

  lemma LossSilentToOthers(s: State, e: Event)
    requires Inv(s) && Feasible(s, e) && (e.EvDisconnect? || e.EvConnFailed?)
    ensures Silent(s, Step(s, e), Step(s, e).jobs)
  {
    var p := if e.EvDisconnect? then PurgeConn(s, e.k) else s;
    var o := p.(jobs := Kept(s.jobs, e.k));
    var u := Abandon(o, Pick(s.jobs, e.order, e.k));
    InvOwned(s);
    LossOwned(s, e, o);
    AbandonHushed(o, Pick(s.jobs, e.order, e.k));
    if e.EvDisconnect? { DisconnectKeeps(s, e.k, e.order); } else { ConnFailedKeeps(s, e.k, e.order); }
    assert u.jobs == Step(s, e).jobs && o.jobs.Keys == u.jobs.Keys;
  }

  lemma LossOwned(s: State, e: Event, o: State)
    requires Owned(s) && (e.EvDisconnect? || e.EvConnFailed?)
    requires o == (if e.EvDisconnect? then PurgeConn(s, e.k) else s).(jobs := Kept(s.jobs, e.k))
    ensures Owned(o)
  {
    forall r, i | 0 <= i < |o.At(r).queue| ensures OwnedBy(o.At(r).queue[i], o.jobs) {
      var p := o.At(r).queue[i];
      DroppedConn(s.At(r).queue, e.k);
      assert p in s.At(r).queue;
      var n :| 0 <= n < |s.At(r).queue| && s.At(r).queue[n] == p;
      assert OwnedBy(s.At(r).queue[n], s.jobs);
    }
  }

  /** The job of a RELEASE may be announced by what the release frees, before it is removed. */
  ghost function Parting(s: State, e: Event, o: Out): int {
    if e.EvRelease? && o.msg.JobGranted? && o.msg.job == e.job && Mine(o, s.jobs)
    then Due(TakenBack(s, e.res, e.amount), e.job) - Due(s, e.job)
    else 0
  }

  /** Every event announces to its owner, once, each job of the table that has come to
      have nothing outstanding, and announces nothing else to anybody; but that the job
      that a RELEASE removes may have been announced by what that RELEASE freed. */
  lemma StepAnnounces(s: State, e: Event)
    requires Inv(s) && Wired(s) && Feasible(s, e) && Lawful(s, e)
    ensures var t := Step(s, e);
            && (forall id :: id in t.jobs ==>
                  multiset(t.log)[Out(t.jobs[id].conn, JobGranted(id))]
                  == multiset(s.log)[Out(t.jobs[id].conn, JobGranted(id))] as int + Due(t, id) - Due(s, id))
            && (forall o: Out :: o.msg.JobGranted? && !Mine(o, t.jobs) ==>
                  multiset(t.log)[o] == multiset(s.log)[o] as int + Parting(s, e, o))
  {
    var t := Step(s, e);
    StepSound(s, e);
    forall id | id in t.jobs
      ensures multiset(t.log)[Out(t.jobs[id].conn, JobGranted(id))]
              == multiset(s.log)[Out(t.jobs[id].conn, JobGranted(id))] as int + Due(t, id) - Due(s, id)
    {
      assert Sent(s, t, id) == Due(t, id) - Due(s, id);
    }
    if e.EvRelease? { PartingRelease(s, e); } else { OthersSilent(s, e); }
  }

  lemma PartingRelease(s: State, e: Event)
    requires Inv(s) && Wired(s) && e.EvRelease? && Lawful(s, e)
    ensures var t := Step(s, e);
            forall o: Out :: o.msg.JobGranted? && !Mine(o, t.jobs) ==>
              multiset(t.log)[o] == multiset(s.log)[o] as int + Parting(s, e, o)
  {
    var t, m := Step(s, e), TakenBack(s, e.res, e.amount);
    TakenBackHushed(s, e.res, e.amount);
    TakenBackKeeps(s, e.res, e.amount);
    RemoveSilent(m, e.job);
    RemoveKeeps(m, e.job);
    forall o: Out | o.msg.JobGranted? && !Mine(o, t.jobs)
      ensures multiset(t.log)[o] == multiset(s.log)[o] as int + Parting(s, e, o)
    {
      LeavingCount(s, m, t, e, o);
    }
  }

  lemma LeavingCount(s: State, m: State, t: State, e: Event, o: Out)
    requires e.EvRelease? && m == TakenBack(s, e.res, e.amount) && o.msg.JobGranted? && !Mine(o, t.jobs)
    requires Hushed(s, m) && Quiet(s, m) && m.jobs.Keys == s.jobs.Keys
    requires Silent(m, t, m.jobs - {e.job}) && Quiet(m, t) && t.jobs.Keys == m.jobs.Keys - {e.job}
    ensures multiset(t.log)[o] == multiset(s.log)[o] as int + Parting(s, e, o)
  {
    assert o.msg.job in t.jobs ==> SameJob(m, t, o.msg.job);
    assert multiset(t.log)[o] == multiset(m.log)[o];
    if Mine(o, s.jobs) { assert SameJob(s, m, o.msg.job); }
  }

  lemma OthersSilent(s: State, e: Event)
    requires Inv(s) && Wired(s) && Feasible(s, e) && Lawful(s, e) && !e.EvRelease?
    ensures Silent(s, Step(s, e), Step(s, e).jobs)
  {
    InvOwned(s);
    match e
    case EvReserve(k, id, r, amount) => ReserveCases(s, k, id, r, amount);
    case EvGranted(k, id) => GrantedSilent(s, k, id);
    case EvDenied(_, id) => DeniedSilent(s, id); DeniedKeeps(s, id);
    case EvJobRequest(k, id, reqs) => RequestSilentToOthers(s, k, id, reqs);
    case EvJobRelease(_, id) => JobReleaseSilent(s, id); JobReleaseKeeps(s, id);
    case EvJobTimeout(_, id) => RemoveSilent(s, id); RemoveKeeps(s, id);
    case EvDisconnect(_, _) => LossSilentToOthers(s, e);
    case EvConnFailed(_, _) => LossSilentToOthers(s, e);
    case EvConnReady(k, order) => OpenOne(s, k, order);
  }

  // ---------------------------------------------------------------- what an announcement means

  /** The shares of a job that were granted, here or by a peer. */
  ghost function GrantedOf(as_: seq<Alloc>): multiset<Share> {
    if as_ == [] then multiset{}
    else (if as_[0].outcome == RmGranted then multiset{Share(as_[0].host, as_[0].res, as_[0].amount)} else multiset{})
         + GrantedOf(as_[1..])
  }

  ghost predicate NoneQueued(as_: seq<Alloc>) { forall i :: 0 <= i < |as_| ==> as_[i].outcome == RmGranted }

  lemma NoneQueuedCons(as_: seq<Alloc>)
    requires as_ != []
    ensures NoneQueued(as_) <==> as_[0].outcome == RmGranted && NoneQueued(as_[1..])
  {
    assert forall i :: 0 < i < |as_| ==> as_[i] == as_[1..][i-1];
  }

  lemma Cancel(a: multiset<Share>, b: multiset<Share>, rest: multiset<Share>)
    requires a + rest == b + rest
    ensures a == b
  {
    forall x ensures a[x] == b[x] { assert (a + rest)[x] == (b + rest)[x]; }
  }

  lemma {:induction false} GrantedOfAll(as_: seq<Alloc>)
    ensures GrantedOf(as_) <= OfAllocs(as_) && |GrantedOf(as_)| <= |OfAllocs(as_)|
    ensures NoneQueued(as_) <==> GrantedOf(as_) == OfAllocs(as_)
  {
    if as_ != [] {
      var x := multiset{Share(as_[0].host, as_[0].res, as_[0].amount)};
      var g, a := GrantedOf(as_[1..]), OfAllocs(as_[1..]);
      GrantedOfAll(as_[1..]);
      NoneQueuedCons(as_);
      if as_[0].outcome == RmGranted {
        assert GrantedOf(as_) == g + x && OfAllocs(as_) == a + x;
        if g + x == a + x { Cancel(g, a, x); }
      } else {
        assert |x + a| == 1 + |a|;
      }
    }
  }

  lemma ReadyWhole(j: Job, id: int)
    requires JobOk(j, id)
    ensures Ready(j) <==> j.pending == [] && NoneQueued(j.confirmed)
  {
    forall i | 0 <= i < |j.confirmed|
      ensures IsLocalWait(j.confirmed[i]) <==> j.confirmed[i].outcome != RmGranted
    {
      assert AllocOk(j.confirmed[i], id, j.conn);
    }
    if Ready(j) {
      forall i | 0 <= i < |j.confirmed| ensures j.confirmed[i].outcome == RmGranted {
        assert j.confirmed[i] in j.confirmed;
      }
    }
  }

  lemma NoAsks(ps: seq<OutReq>)
    ensures OfAsks(ps) == multiset{} <==> ps == []
  {}

  lemma NothingElse(j: Job)
    requires GrantedOf(j.confirmed) == Bill(j)
    ensures j.pending == [] && NoneQueued(j.confirmed)
  {
    GrantedOfAll(j.confirmed);
    var g, as_, ps := GrantedOf(j.confirmed), OfAllocs(j.confirmed), OfAsks(j.pending);
    forall x ensures ps[x] == 0 && g[x] == as_[x] { assert g[x] <= as_[x] && g[x] == (ps + as_)[x]; }
    assert g == as_ && ps == multiset{};
    NoAsks(j.pending);
  }

  lemma WholeBill(j: Job, id: int, rest: multiset<Share>, all: multiset<Share>)
    requires JobOk(j, id) && Bill(j) + rest == all
    ensures Ready(j) <==> GrantedOf(j.confirmed) + rest == all
  {
    ReadyWhole(j, id);
    if GrantedOf(j.confirmed) + rest == all {
      Cancel(GrantedOf(j.confirmed), Bill(j), rest);
      NothingElse(j);
    }
    if Ready(j) { GrantedOfAll(j.confirmed); }
  }

  /** In every reachable state a job of the table has been announced, and once, exactly
      if what is granted to it - here and by peers - and what lost connections had
      granted are together what its request asked for. */
  lemma AnnouncedWhole(ip: string, cpu: nat, mem: nat, gpu: nat, es: seq<Event>, id: int)
    requires LawfulRun(Boot(ip, cpu, mem, gpu), es) && id in After(Boot(ip, cpu, mem, gpu), es).jobs
    ensures var s := Boot(ip, cpu, mem, gpu);
            Announced(s, es, id)
            == if GrantedOf(After(s, es).jobs[id].confirmed) + LostSince(s, es, id) == Invoice(RequestOf(s, es, id), ip)
               then 1 else 0
  {
    var s := Boot(ip, cpu, mem, gpu);
    AnnouncedExactly(ip, cpu, mem, gpu, es, id);
    SharesKept(ip, cpu, mem, gpu, es, id);
    Conservation(ip, cpu, mem, gpu, es);
    assert JobOk(After(s, es).jobs[id], id);
    WholeBill(After(s, es).jobs[id], id, LostSince(s, es, id), Invoice(RequestOf(s, es, id), ip));
  }

  // ---------------------------------------------------------------- what is left of a job

  /** Neither the table nor a queue knows of it. */
  ghost predicate Gone(t: State, id: int) { id !in t.jobs && forall r, p :: p in t.At(r).queue ==> p.job != id }

  lemma PurgedGone(s: State, id: int)
    requires id !in s.jobs
    ensures Gone(PurgeJob(s, id), id)
  {
    forall r, p | p in PurgeJob(s, id).At(r).queue ensures p.job != id { DroppedJob(s.At(r).queue, id); }
  }

  lemma RemovedGone(s: State, id: int)
    requires Inv(s)
    ensures Gone(PurgeJob(RemoveJob(s, id), id), id)
  {
    RemoveKeeps(s, id);
    PurgedGone(RemoveJob(s, id), id);
  }

  lemma RefusedGone(s: State, k: Conn, id: int, reqs: seq<Req>)
    requires Inv(s) && id !in s.jobs && Build(s, Job(id, k, [], []), reqs).Refused?
    ensures Gone(OnJobRequest(s, k, id, reqs), id)
  {
    var j := Job(id, k, [], []);
    var p := Build(s, j, reqs);
    InvOwned(s);
    BuildOwned(s, j, reqs);
    var u := PurgeJob(p.s, id);
    var v := FreeAll(u, id, p.j.confirmed);
    PurgedGone(p.s, id);
    PurgeHushed(p.s, id);
    HushedOwned(p.s, u);
    FreeHushed(u, id, p.j.confirmed);
    var t := OnJobRequest(s, k, id, reqs);
    assert t == v.Send(k, JobDenied(id));
    forall r, x | x in t.At(r).queue ensures x.job != id { assert x in v.At(r).queue && x in u.At(r).queue; }
  }

  /** A RELEASE, a DENIED, a JOB_TIMEOUT, the JOB_RELEASE of a job of the table and a
      refused request leave nothing of the job: no entry of the table, and no waiting
      request, local or of a peer. */
  lemma EndForgets(s: State, e: Event)
    requires Inv(s) && Wired(s) && Feasible(s, e) && Lawful(s, e)
    requires e.EvRelease? || e.EvDenied? || e.EvJobTimeout? || (e.EvJobRelease? && e.job in s.jobs)
             || (e.EvJobRequest? && e.job !in s.jobs && e.job !in Step(s, e).jobs)
    ensures Gone(Step(s, e), e.job)
  {
    match e
    case EvRelease(_, id, r, amount) => TakenBackKeeps(s, r, amount); RemovedGone(TakenBack(s, r, amount), id);
    case EvDenied(_, id) =>
      DeniedKeeps(s, id);
      PurgedGone(if id in s.jobs then RemoveJob(s, id).Send(s.jobs[id].conn, JobDenied(id)) else s, id);
    case EvJobTimeout(_, id) => RemovedGone(s, id);
    case EvJobRelease(_, id) =>
      JobReleaseKeeps(s, id);
      PurgedGone(ReturnAll(s.(jobs := s.jobs - {id}), s.jobs[id].confirmed), id);
    case EvJobRequest(k, id, reqs) => RefusedGone(s, k, id, reqs);
    case _ =>
  }
}
