/** What the handlers say besides grants: for every event, exactly which RESERVE,
    RELEASE, DENIED and JOB_DENIED messages it sends, to whom, and in which order. */
module Messages {
  import opened Types
  import opened Seqs
  import opened Allocator
  import opened Ledger
  import opened Cascade
  import opened Handlers
  import opened Requests
  import opened Disconnects
  import opened Wiring
  import opened Runs
  import opened Rollback
  import CT = ConnTable

  ghost predicate IsGrant(o: Out) { o.msg.Granted? || o.msg.JobGranted? }

  /** The messages of a log that are not grants. */
  ghost function Others(log: seq<Out>): seq<Out> {
    if log == [] then [] else Others(log[..|log|-1]) + if IsGrant(log[|log|-1]) then [] else [log[|log|-1]]
  }

  lemma OthersSend(log: seq<Out>, o: Out)
    ensures Others(log + [o]) == if IsGrant(o) then Others(log) else Others(log) + [o]
  {
    Parts(log, [o]);
    Nil(Others(log));
  }

  // ---------------------------------------------------------------- releases

  lemma PopSaysNothing(s: State, r: Res)
    requires CanPop(s.At(r))
    ensures Others(Pop(s, r).log) == Others(s.log) && Pop(s, r).conns == s.conns
  {
    var p := s.At(r).queue[0];
    OthersSend(s.log, Out(p.owner, Granted(p.job)));
    OthersSend(s.log, Out(p.owner, JobGranted(p.job)));
  }

  lemma {:induction false} DrainSaysNothing(s: State, r: Res)
    ensures Others(Drain(s, r).log) == Others(s.log) && Drain(s, r).conns == s.conns
    decreases |s.At(r).queue|
  {
    if CanPop(s.At(r)) {
      PopSaysNothing(s, r);
      DrainSaysNothing(Pop(s, r), r);
    }
  }

  lemma ReleaseSaysNothing(s: State, r: Res, amount: int)
    ensures Others(ReleaseRes(s, r, amount).log) == Others(s.log) && ReleaseRes(s, r, amount).conns == s.conns
  {
    if Accepts(s.At(r), amount) { DrainSaysNothing(Give(s, r, amount), r); }
  }

  /** The RELEASE of one share of a job that goes away, if it is remote and its host
      has an open connection. */
  ghost function GivenOne(conns: CT.Table, id: int, a: Alloc): seq<Out> {
    var k := CT.Lookup(conns, a.host);
    if a.kind == Remote && k.Some? then [Out(k.value, Release(id, a.res, a.amount))] else []
  }

  /** The RELEASEs for the remote shares of a job that goes away: each goes to the
      connection registered for its host, if there is one. */
  ghost function GivenBack(conns: CT.Table, id: int, as_: seq<Alloc>): seq<Out> {
    if as_ == [] then [] else GivenOne(conns, id, as_[0]) + GivenBack(conns, id, as_[1..])
  }

  /** Only the remote shares matter. */
  lemma {:induction false} GivenBackRemotes(conns: CT.Table, id: int, as_: seq<Alloc>)
    ensures GivenBack(conns, id, as_) == GivenBack(conns, id, Remotes(as_))
  {
    if as_ != [] {
      GivenBackRemotes(conns, id, as_[1..]);
      Nil(GivenBack(conns, id, as_[1..]));
      if as_[0].kind == Remote { Parts([as_[0]], Remotes(as_[1..])); }
    }
  }

  lemma FreeOneLog(s: State, id: int, a: Alloc)
    requires !IsLocalGrant(a)
    ensures var t := FreeAlloc(s, id, a); t.conns == s.conns && t.log == s.log + GivenOne(s.conns, id, a)
  {
    Nil(s.log);
  }

  lemma FreeOneSays(s: State, id: int, a: Alloc)
    ensures var t := FreeAlloc(s, id, a);
            t.conns == s.conns && Others(t.log) == Others(s.log) + GivenOne(s.conns, id, a)
  {
    if IsLocalGrant(a) {
      ReleaseSaysNothing(s, a.res, a.amount);
      Nil(Others(s.log));
    } else {
      FreeOneLog(s, id, a);
      OthersMore(s.log, GivenOne(s.conns, id, a));
    }
  }

  lemma {:induction false} FreeSays(s: State, id: int, as_: seq<Alloc>)
    ensures var t := FreeAll(s, id, as_);
            t.conns == s.conns && Others(t.log) == Others(s.log) + GivenBack(s.conns, id, as_)
    decreases |as_|
  {
    Nil(Others(s.log));
    if as_ != [] {
      FreeOneSays(s, id, as_[0]);
      FreeSays(FreeAlloc(s, id, as_[0]), id, as_[1..]);
      Assoc(Others(s.log), GivenOne(s.conns, id, as_[0]), GivenBack(s.conns, id, as_[1..]));
    }
  }

  /** The RELEASEs of a job that leaves the table, if it is there. */
  ghost function Leaving(s: State, id: int): seq<Out> {
    if id in s.jobs then GivenBack(s.conns, id, Remotes(s.jobs[id].confirmed)) else []
  }

  lemma RemoveSays(s: State, id: int)
    ensures var t := RemoveJob(s, id); t.conns == s.conns && Others(t.log) == Others(s.log) + Leaving(s, id)
  {
    Nil(Others(s.log));
    if id in s.jobs {
      FreeSays(s.(jobs := s.jobs - {id}), id, s.jobs[id].confirmed);
      GivenBackRemotes(s.conns, id, s.jobs[id].confirmed);
    }
  }

  // ---------------------------------------------------------------- JOB_RELEASE

  /** The RELEASEs of JOB_RELEASE: one for each remote share, on its own connection. */
  ghost function Returns(id: int, as_: seq<Alloc>): seq<Out> {
    if as_ == [] then []
    else (if as_[0].kind == Remote then [Out(as_[0].conn, Release(id, as_[0].res, as_[0].amount))] else [])
         + Returns(id, as_[1..])
  }

  ghost predicate ReturnFor(o: Out, a: Alloc, id: int) { o == Out(a.conn, Release(id, a.res, a.amount)) }

  ghost predicate ReturnsAll(os: seq<Out>, rs: seq<Alloc>, id: int) {
    |os| == |rs| && forall i :: 0 <= i < |rs| ==> ReturnFor(os[i], rs[i], id)
  }

  lemma ReturnsAllCons(o: Out, os: seq<Out>, a: Alloc, rs: seq<Alloc>, id: int)
    requires ReturnFor(o, a, id) && ReturnsAll(os, rs, id)
    ensures ReturnsAll([o] + os, [a] + rs, id)
  {}

  /** The same by position: share by share, each once. */
  lemma {:induction false} ReturnsAre(id: int, as_: seq<Alloc>)
    ensures ReturnsAll(Returns(id, as_), Remotes(as_), id)
  {
    if as_ != [] {
      var a, rest := as_[0], as_[1..];
      ReturnsAre(id, rest);
      Nil(Returns(id, rest));
      if a.kind == Remote {
        ReturnsAllCons(Out(a.conn, Release(id, a.res, a.amount)), Returns(id, rest), a, Remotes(rest), id);
      }
    }
  }

  lemma ReturnOneSays(s: State, a: Alloc)
    ensures Others(ReturnAlloc(s, a).log) == Others(s.log) + Returns(a.job, [a])
  {
    var t := if IsLocalGrant(a) then ReleaseRes(s, a.res, a.amount) else PurgeJob(s, a.job);
    assert [a][1..] == [];
    Nil(Others(s.log));
    if IsLocalGrant(a) { ReleaseSaysNothing(s, a.res, a.amount); }
    if a.kind == Remote {
      OthersSend(t.log, Out(a.conn, Release(a.job, a.res, a.amount)));
      Nil([Out(a.conn, Release(a.job, a.res, a.amount))]);
    }
  }

  lemma ReturnsCons(id: int, as_: seq<Alloc>)
    requires as_ != []
    ensures Returns(id, as_) == Returns(id, [as_[0]]) + Returns(id, as_[1..])
  {
    assert [as_[0]][1..] == [];
    Nil(Returns(id, as_[1..]));
  }

  lemma {:induction false} ReturnSays(s: State, id: int, as_: seq<Alloc>)
    requires forall i :: 0 <= i < |as_| ==> as_[i].job == id
    ensures Others(ReturnAll(s, as_).log) == Others(s.log) + Returns(id, as_)
    decreases |as_|
  {
    Nil(Others(s.log));
    if as_ != [] {
      ReturnOneSays(s, as_[0]);
      ReturnSays(ReturnAlloc(s, as_[0]), id, as_[1..]);
      ReturnsCons(id, as_);
      Assoc(Others(s.log), Returns(id, [as_[0]]), Returns(id, as_[1..]));
    }
  }

  /** JOB_RELEASE gives back every remote share of the job, in the order of its list,
      each once, and says nothing else but grants. */
  lemma JobReleaseSays(s: State, id: int)
    requires Good(s)
    ensures Others(OnJobRelease(s, id).log)
            == Others(s.log) + if id in s.jobs then Returns(id, s.jobs[id].confirmed) else []
  {
    Nil(Others(s.log));
    if id in s.jobs {
      var as_ := s.jobs[id].confirmed;
      assert JobOk(s.jobs[id], id);
      forall i | 0 <= i < |as_| ensures as_[i].job == id { assert AllocOk(as_[i], id, s.jobs[id].conn); }
      ReturnSays(s.(jobs := s.jobs - {id}), id, as_);
    }
  }

  // ---------------------------------------------------------------- RELEASE and DENIED

  lemma PeerReleaseSays(s: State, id: int, r: Res, amount: int)
    requires Inv(s) && amount <= s.At(r).lent
    ensures Others(OnRelease(s, id, r, amount).log) == Others(s.log) + Leaving(s, id)
  {
    var m := TakenBack(s, r, amount);
    if amount != 0 { ReleaseSaysNothing(Repaid(s, r, amount), r, amount); }
    TakenBackRemotes(s, r, amount, id);
    RemoveSays(m, id);
  }

  lemma TakenBackRemotes(s: State, r: Res, amount: int, id: int)
    requires Inv(s) && amount <= s.At(r).lent
    ensures Leaving(TakenBack(s, r, amount), id) == Leaving(s, id)
  {
    TakenBackKeeps(s, r, amount);
    if amount != 0 && Accepts(s.At(r), amount) {
      RepaidKeeps(s, r, amount);
      ReleaseKeeps(Repaid(s, r, amount), r, amount);
    }
  }

  lemma DeniedSays(s: State, id: int)
    ensures Others(OnDenied(s, id).log)
         == Others(s.log) + Leaving(s, id) + if id in s.jobs then [Out(s.jobs[id].conn, JobDenied(id))] else []
  {
    Nil(Others(s.log));
    if id in s.jobs {
      RemoveSays(s, id);
      OthersSend(RemoveJob(s, id).log, Out(s.jobs[id].conn, JobDenied(id)));
    }
  }

  // ---------------------------------------------------------------- GRANTED

  /** A GRANTED for a job that is not in the table is answered by three RELEASEs of
      nothing, if it came over a registered connection. */
  ghost function Disowning(s: State, k: Conn, id: int): seq<Out> {
    if CT.HostOf(s.conns, k).Some? && id !in s.jobs
    then [Out(k, Release(id, Cpu, 0)), Out(k, Release(id, Mem, 0)), Out(k, Release(id, Gpu, 0))]
    else []
  }

  lemma DisownSays(s: State, k: Conn, id: int)
    requires CT.HostOf(s.conns, k).Some? && id !in s.jobs
    ensures OnGranted(s, k, id) == s.(log := s.log + Disowning(s, k, id))
  {
    var a, b, c := Out(k, Release(id, Cpu, 0)), Out(k, Release(id, Mem, 0)), Out(k, Release(id, Gpu, 0));
    assert s.log + [a] + [b] + [c] == s.log + [a, b, c];
  }

  /** The messages of a GRANTED about a job of the table. */
  lemma GrantedLog(s: State, k: Conn, id: int)
    requires id in s.jobs
    ensures var t := OnGranted(s, k, id);
            t.log == s.log || t.log == s.log + [Out(s.jobs[id].conn, JobGranted(id))]
  {}

  lemma GrantedSays(s: State, k: Conn, id: int)
    ensures Others(OnGranted(s, k, id).log) == Others(s.log) + Disowning(s, k, id)
  {
    Nil(Others(s.log));
    if id in s.jobs {
      GrantedLog(s, k, id);
      OthersSend(s.log, Out(s.jobs[id].conn, JobGranted(id)));
    } else if CT.HostOf(s.conns, k).Some? {
      DisownSays(s, k, id);
      OthersMore(s.log, Disowning(s, k, id));
    }
  }

  // ---------------------------------------------------------------- JOB_REQUEST

  /** The RESERVEs of a request, up to the first share that refuses it: one for each
      share of a host with a registered connection, on that connection. */
  ghost function Reservations(s: State, id: int, reqs: seq<Req>): seq<Out> {
    if reqs == [] || Bad(s, reqs[0]) then []
    else
      var q := reqs[0];
      var k := CT.Lookup(s.conns, q.host);
      (if q.host != s.ip && k.Some? then [Out(k.value, Reserve(id, q.res, q.amount))] else [])
          + Reservations(s, id, reqs[1..])
  }

  lemma {:induction false} ReservationsSame(s: State, t: State, id: int, reqs: seq<Req>)
    requires t.ip == s.ip && t.conns == s.conns && forall x :: t.At(x).total == s.At(x).total
    ensures Reservations(t, id, reqs) == Reservations(s, id, reqs)
  {
    if reqs != [] { ReservationsSame(s, t, id, reqs[1..]); }
  }

  /** The loop sends those RESERVEs, in the order of the request, and nothing else. */
  lemma {:induction false} BuildSays(s: State, j: Job, reqs: seq<Req>)
    requires (forall x :: QueueOk(s.At(x))) && forall i :: 0 <= i < |reqs| ==> reqs[i].amount > 0
    ensures Build(s, j, reqs).s.log == s.log + Reservations(s, j.id, reqs)
    ensures Build(s, j, reqs).s.conns == s.conns
    decreases |reqs|
  {
    Nil(s.log);
    if reqs != [] {
      var q, rest := reqs[0], reqs[1..];
      Nil(Reservations(s, j.id, rest));
      if q.host == s.ip && !Bad(s, q) {
        var (t, o) := ReserveRes(s, q.res, q.amount, j.id, j.conn, Local);
        ShareGives(s, j, q, q.res);
        StaysOk(s, q.res, q.amount, j.id, j.conn);
        ReservationsSame(s, t, j.id, rest);
        BuildSays(t, j.(confirmed := [Alloc(q.res, q.amount, Local, s.ip, j.id, o, j.conn)] + j.confirmed), rest);
      } else if q.host != s.ip {
        var k := CT.Lookup(s.conns, q.host);
        if k.Some? {
          var m := Out(k.value, Reserve(j.id, q.res, q.amount));
          var t := s.Send(m.to, m.msg);
          forall x ensures t.At(x) == s.At(x) {}
          ReservationsSame(s, t, j.id, rest);
          BuildSays(t, Ask(j, q, k.value, None), rest);
          Assoc(s.log, [m], Reservations(s, j.id, rest));
        } else if q.dial.Some? {
          BuildSays(s, Ask(j, q, q.dial.value, Some(Reserve(j.id, q.res, q.amount))), rest);
        }
      } else {
        assert QueueOk(s.At(q.res));
      }
    }
  }

  lemma {:induction false} OthersMore(log: seq<Out>, more: seq<Out>)
    requires forall i :: 0 <= i < |more| ==> !IsGrant(more[i])
    ensures Others(log + more) == Others(log) + more
    decreases |more|
  {
    if more == [] {
      Nil(log);
      Nil(Others(log));
    } else {
      var f, o := more[..|more|-1], more[|more|-1];
      OthersMore(log, f);
      Snoc(more);
      Assoc(log, f, [o]);
      OthersSend(log + f, o);
      Assoc(Others(log), f, [o]);
    }
  }

  lemma {:induction false} ReservationsOnly(s: State, id: int, reqs: seq<Req>)
    ensures forall i :: 0 <= i < |Reservations(s, id, reqs)| ==> Reservations(s, id, reqs)[i].msg.Reserve?
  {
    if reqs != [] { ReservationsOnly(s, id, reqs[1..]); }
  }

  /** A new request says: its RESERVEs, and JOB_DENIED to the planner if it is refused. */
  lemma RequestSays(s: State, k: Conn, id: int, reqs: seq<Req>)
    requires (forall x :: QueueOk(s.At(x))) && (forall i :: 0 <= i < |reqs| ==> reqs[i].amount > 0) && id !in s.jobs
    ensures Others(OnJobRequest(s, k, id, reqs).log)
         == Others(s.log) + Reservations(s, id, reqs)
            + if Refusing(s, reqs) then [Out(k, JobDenied(id))] else []
  {
    var j := Job(id, k, [], []);
    var p := Build(s, j, reqs);
    BuildSays(s, j, reqs);
    BuildRefuses(s, j, reqs);
    ReservationsOnly(s, id, reqs);
    OthersMore(s.log, Reservations(s, id, reqs));
    Nil(Others(p.s.log));
    if p.Refused? {
      RefusedState(s, k, id, reqs);
      var u := FreeAll(PurgeJob(p.s, id), id, p.j.confirmed);
      FreeSays(PurgeJob(p.s, id), id, p.j.confirmed);
      LocalsSayNothing(s.conns, id, p.j.confirmed);
      OthersSend(u.log, Out(k, JobDenied(id)));
    } else {
      OthersSend(p.s.log, Out(k, JobGranted(id)));
    }
  }

  lemma {:induction false} LocalsSayNothing(conns: CT.Table, id: int, as_: seq<Alloc>)
    requires LocalOnly(as_)
    ensures GivenBack(conns, id, as_) == []
  {
    if as_ != [] {
      assert forall i :: 0 <= i < |as_[1..]| ==> as_[1..][i] == as_[i+1];
      LocalsSayNothing(conns, id, as_[1..]);
    }
  }

  // ---------------------------------------------------------------- losing a connection

  /** The shares that a connection did not grant. */
  ghost function OffConn(as_: seq<Alloc>, k: Conn): seq<Alloc> {
    if as_ == [] then [] else (if as_[0].conn != k then [as_[0]] else []) + OffConn(as_[1..], k)
  }

  lemma {:induction false} StrippedRemotes(as_: seq<Alloc>, k: Conn)
    ensures Remotes(StripAllocs(as_, k)) == OffConn(Remotes(as_), k)
  {
    if as_ != [] {
      StrippedRemotes(as_[1..], k);
      Nil(OffConn(Remotes(as_[1..]), k));
      if as_[0].kind == Remote { Parts([as_[0]], Remotes(as_[1..])); }
      if !(as_[0].kind == Remote && as_[0].conn == k) { Parts([as_[0]], StripAllocs(as_[1..], k)); }
    }
  }

  /** The jobs that leave, one after the other: the RELEASEs for the remote shares that
      other connections granted. */
  ghost function Abandoning(s: State, order: seq<int>, k: Conn): seq<Out>
    requires forall i :: 0 <= i < |order| ==> order[i] in s.jobs
  {
    if order == [] then []
    else GivenBack(s.conns, order[0], OffConn(Remotes(s.jobs[order[0]].confirmed), k)) + Abandoning(s, order[1..], k)
  }

  lemma {:induction false} AbandonSays(s: State, o: State, order: seq<int>, k: Conn)
    requires forall i :: 0 <= i < |order| ==> order[i] in s.jobs && s.jobs[order[i]].id == order[i]
    requires o.conns == s.conns
    ensures var t := Abandon(o, Pick(s.jobs, order, k));
            t.conns == s.conns && Others(t.log) == Others(o.log) + Abandoning(s, order, k)
    decreases |order|
  {
    var vs := Pick(s.jobs, order, k);
    Nil(Others(o.log));
    if order != [] {
      var id := order[0];
      var t := FreeAll(PurgeJob(o, id), id, vs[0].confirmed);
      FreeSays(PurgeJob(o, id), id, vs[0].confirmed);
      GivenBackRemotes(s.conns, id, vs[0].confirmed);
      StrippedRemotes(s.jobs[id].confirmed, k);
      assert vs[1..] == Pick(s.jobs, order[1..], k);
      AbandonSays(s, t, order[1..], k);
      Assoc(Others(o.log), GivenBack(s.conns, id, OffConn(Remotes(s.jobs[id].confirmed), k)),
          Abandoning(s, order[1..], k));
    }
  }

  lemma LossSays(s: State, e: Event)
    requires Good(s) && Feasible(s, e) && (e.EvDisconnect? || e.EvConnFailed?)
    ensures Others(Step(s, e).log) == Others(s.log) + Abandoning(s, e.order, e.k)
  {
    forall i | 0 <= i < |e.order| ensures e.order[i] in s.jobs && s.jobs[e.order[i]].id == e.order[i] {
      assert JobOk(s.jobs[e.order[i]], e.order[i]);
    }
    var p := if e.EvDisconnect? then PurgeConn(s, e.k) else s;
    AbandonSays(s, p.(jobs := Kept(s.jobs, e.k)), e.order, e.k);
  }

  // ---------------------------------------------------------------- any event

  /** What an event says besides grants, from the state before. A connection that opens
      is the subject of ReadySays. */
  ghost function Says(s: State, e: Event): seq<Out>
    requires Feasible(s, e) && !e.EvConnReady?
  {
    match e
    case EvReserve(k, id, r, amount) =>
      if s.At(r).avail < amount && s.At(r).total < amount then [Out(k, Denied(id))] else []
    case EvRelease(_, id, _, _) => Leaving(s, id)
    case EvGranted(k, id) => Disowning(s, k, id)
    case EvDenied(_, id) => Leaving(s, id) + if id in s.jobs then [Out(s.jobs[id].conn, JobDenied(id))] else []
    case EvJobRequest(k, id, reqs) =>
      if id in s.jobs then []
      else Reservations(s, id, reqs) + if Refusing(s, reqs) then [Out(k, JobDenied(id))] else []
    case EvJobRelease(_, id) => if id in s.jobs then Returns(id, s.jobs[id].confirmed) else []
    case EvJobTimeout(_, id) => Leaving(s, id)
    case EvDisconnect(k, order) => Abandoning(s, order, k)
    case EvConnFailed(k, order) => Abandoning(s, order, k)
  }

  /** Every event appends exactly those messages to the log, in that order, and grants
      between them. */
  lemma StepSays(s: State, e: Event)
    requires Inv(s) && Wired(s) && Feasible(s, e) && Lawful(s, e) && !e.EvConnReady?
    ensures Others(Step(s, e).log) == Others(s.log) + Says(s, e)
  {
    Nil(Others(s.log));
    match e
    case EvReserve(k, id, r, amount) =>
      ReserveCases(s, k, id, r, amount);
      OthersSend(s.log, Out(k, Granted(id)));
      OthersSend(s.log, Out(k, Denied(id)));
    case EvRelease(_, id, r, amount) => PeerReleaseSays(s, id, r, amount);
    case EvGranted(k, id) => GrantedSays(s, k, id);
    case EvDenied(_, id) =>
      DeniedSays(s, id);
      Assoc(Others(s.log), Leaving(s, id), if id in s.jobs then [Out(s.jobs[id].conn, JobDenied(id))] else []);
    case EvJobRequest(k, id, reqs) => if id !in s.jobs { NewRequestSays(s, k, id, reqs); }
    case EvJobRelease(_, id) => JobReleaseSays(s, id);
    case EvJobTimeout(_, id) => RemoveSays(s, id);
    case EvDisconnect(_, _) => LossSays(s, e);
    case EvConnFailed(_, _) => LossSays(s, e);
  }

  lemma NewRequestSays(s: State, k: Conn, id: int, reqs: seq<Req>)
    requires Inv(s) && RequestOk(s.ip, reqs) && id !in s.jobs
    ensures Others(OnJobRequest(s, k, id, reqs).log)
         == Others(s.log)
            + (Reservations(s, id, reqs) + if Refusing(s, reqs) then [Out(k, JobDenied(id))] else [])
  {
    var denial := if Refusing(s, reqs) then [Out(k, JobDenied(id))] else [];
    assert forall x :: QueueOk(s.At(x));
    RequestSays(s, k, id, reqs);
    Assoc(Others(s.log), Reservations(s, id, reqs), denial);
  }

  /** A connection that opens is registered for the one request that waited for it, and
      sends its RESERVE; if none waited nothing happens. */
  lemma ReadySays(s: State, k: Conn, order: seq<int>)
    requires Inv(s) && Wired(s) && Enumerates(order, s.jobs.Keys) && k.Peer? && !CT.Mentions(s.conns, k)
    ensures var t := OnConnReady(s, k, order);
            && ((forall id, o :: id in s.jobs && o in s.jobs[id].pending ==> o.conn != k) ==> t == s)
            && (forall id, o :: id in s.jobs && o in s.jobs[id].pending && o.conn == k ==>
                  && t.log == s.log + [Out(k, Reserve(id, o.res, o.amount))]
                  && t == s.(conns := CT.Insert(s.conns, o.host, k), log := t.log))
  {
    var t := OnConnReady(s, k, order);
    forall id, o | id in s.jobs && o in s.jobs[id].pending && o.conn == k
      ensures t.log == s.log + [Out(k, Reserve(id, o.res, o.amount))]
      ensures t == s.(conns := CT.Insert(s.conns, o.host, k), log := t.log)
    {
      ReadyOne(s, k, order, id, o);
    }
    if forall id, o :: id in s.jobs && o in s.jobs[id].pending ==> o.conn != k {
      forall i | 0 <= i < |order| ensures CountOn(s.jobs[order[i]].pending, k) == 0 {
        CountMember(s.jobs[order[i]].pending, k);
      }
      AwaitingOnce(s.jobs, order, s.conns, k);
    }
  }

  lemma {:induction false} AwaitingHas(jobs: map<int, Job>, order: seq<int>, k: Conn, id: int, o: OutReq)
    requires (forall i :: 0 <= i < |order| ==> order[i] in jobs) && id in order && o in jobs[id].pending && o.conn == k
    ensures o in Awaiting(jobs, order, k)
  {
    if order[0] == id { OnConnHas(jobs[id].pending, k, o); } else { AwaitingHas(jobs, order[1..], k, id, o); }
  }

  lemma {:induction false} OnConnHas(ps: seq<OutReq>, k: Conn, o: OutReq)
    requires o in ps && o.conn == k
    ensures o in OnConn(ps, k)
  {
    if ps[0] != o { OnConnHas(ps[1..], k, o); }
  }

  lemma ReadyOne(s: State, k: Conn, order: seq<int>, id: int, o: OutReq)
    requires Inv(s) && Wired(s) && Enumerates(order, s.jobs.Keys) && k.Peer? && !CT.Mentions(s.conns, k)
    requires id in s.jobs && o in s.jobs[id].pending && o.conn == k
    ensures var t := OnConnReady(s, k, order);
            && t.log == s.log + [Out(k, Reserve(id, o.res, o.amount))]
            && t == s.(conns := CT.Insert(s.conns, o.host, k), log := t.log)
  {
    var ps := Awaiting(s.jobs, order, k);
    AwaitingOnce(s.jobs, order, s.conns, k);
    assert id in order;
    AwaitingHas(s.jobs, order, k, id, o);
    assert ps == [o];
    assert JobOk(s.jobs[id], id);
    var i :| 0 <= i < |s.jobs[id].pending| && s.jobs[id].pending[i] == o;
    assert Backed(s.jobs[id].pending, s.conns);
    assert o.held == Some(Reserve(id, o.res, o.amount));
    var u := s.(conns := CT.Insert(s.conns, o.host, k)).Send(k, o.held.value);
    assert ps[1..] == [] && Open(u, k, []) == u;
  }
}
