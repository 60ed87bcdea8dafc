/** Whole runs of the agent: any number of messages, connections and losses. */
module Runs {
  import opened Types
  import opened Seqs
  import opened Allocator
  import opened Ledger
  import opened Cascade
  import opened Handlers
  import opened Requests
  import opened Disconnects
  import opened Wiring
  import CT = ConnTable

  datatype Event =
    | EvReserve(k: Conn, job: int, res: Res, amount: int)
    | EvRelease(k: Conn, job: int, res: Res, amount: int)
    | EvGranted(k: Conn, job: int)
    | EvDenied(k: Conn, job: int)
    | EvJobRequest(k: Conn, job: int, reqs: seq<Req>)
    | EvJobRelease(k: Conn, job: int)
    | EvJobTimeout(k: Conn, job: int)
    | EvDisconnect(k: Conn, order: seq<int>)
    | EvConnFailed(k: Conn, order: seq<int>)
    | EvConnReady(k: Conn, order: seq<int>)

  /** The walk orders that an event carries are walks of the table. */
  ghost predicate Feasible(s: State, e: Event) {
    match e
    case EvDisconnect(k, order) => Enumerates(order, Victims(s.jobs, k))
    case EvConnFailed(k, order) => Enumerates(order, Victims(s.jobs, k))
    case EvConnReady(_, order) => Enumerates(order, s.jobs.Keys)
    case _ => true
  }

  ghost function Step(s: State, e: Event): State
    requires Feasible(s, e)
  {
    match e
    case EvReserve(k, id, r, amount) => OnReserve(s, k, id, r, amount)
    case EvRelease(_, id, r, amount) => OnRelease(s, id, r, amount)
    case EvGranted(k, id) => OnGranted(s, k, id)
    case EvDenied(_, id) => OnDenied(s, id)
    case EvJobRequest(k, id, reqs) => OnJobRequest(s, k, id, reqs)
    case EvJobRelease(_, id) => OnJobRelease(s, id)
    case EvJobTimeout(_, id) => OnJobTimeout(s, id)
    case EvDisconnect(k, order) => OnDisconnect(s, k, order)
    case EvConnFailed(k, order) => OnConnFailed(s, k, order)
    case EvConnReady(k, order) => OnConnReady(s, k, order)
  }

  /** What the agent takes for granted about its inputs: reservations ask for no
      negative amount and come from peers, peers give back no more than they were
      lent, a job asks this host for each resource at most once, dialled
      connections are new and open once. */
  ghost predicate Lawful(s: State, e: Event) {
    match e
    case EvReserve(k, _, _, amount) => k.Peer? && amount >= 0
    case EvRelease(_, _, r, amount) => amount <= s.At(r).lent
    case EvJobRequest(k, _, reqs) => k.Planner? && RequestOk(s.ip, reqs) && FreshDials(s, reqs)
    case EvConnReady(k, _) => k.Peer? && !CT.Mentions(s.conns, k)
    case _ => true
  }

  /** Whether the event loses no capacity of a resource (see Disconnects). */
  ghost predicate Harmless(s: State, e: Event, r: Res)
    requires Feasible(s, e)
  {
    match e
    case EvDisconnect(k, order) => Lossless(s, k, order, true, r)
    case EvConnFailed(k, order) => Lossless(s, k, order, false, r)
    case _ => true
  }

  // ---------------------------------------------------------------- connections opening

  /** Opening a connection registers it and sends what was held for it. */
  lemma OpenOne(s: State, k: Conn, order: seq<int>)
    requires Inv(s) && Wired(s) && Enumerates(order, s.jobs.Keys) && k.Peer? && !CT.Mentions(s.conns, k)
    ensures var t := OnConnReady(s, k, order);
            && t.ip == s.ip && t.bank == s.bank && t.jobs == s.jobs
            && (forall o: Out :: !o.msg.Reserve? ==> multiset(t.log)[o] == multiset(s.log)[o])
            && (t == s || exists host :: t.conns == CT.Insert(s.conns, host, k))
  {
    var ps := Awaiting(s.jobs, order, k);
    AwaitingOnce(s.jobs, order, s.conns, k);
    AwaitingFrom(s.jobs, order, k);
    if ps != [] {
      assert ps[1..] == [];
      assert ps[0] in ps;
      var i :| 0 <= i < |order| && ps[0] in s.jobs[order[i]].pending;
      assert JobOk(s.jobs[order[i]], order[i]);
      assert ps[0].held.Some? ==> ps[0].held.value.Reserve?;
      var u := s.(conns := CT.Insert(s.conns, ps[0].host, k));
      var t := OnConnReady(s, k, order);
      var v := if ps[0].held.Some? then u.Send(k, ps[0].held.value) else u;
      assert t == Open(v, k, ps[1..]) && Open(v, k, []) == v;
    }
  }

  lemma ReadyKeeps(s: State, k: Conn, order: seq<int>)
    requires Inv(s) && Wired(s) && Enumerates(order, s.jobs.Keys) && k.Peer? && !CT.Mentions(s.conns, k)
    ensures var t := OnConnReady(s, k, order);
            && Inv(t) && Wired(t) && SameUse(s, t) && t.jobs == s.jobs
            && (forall id :: id in s.jobs ==> SameJob(s, t, id))
            && (forall c, id :: Owing(t, c, id) <= Owing(s, c, id))
  {
    var t := OnConnReady(s, k, order);
    OpenOne(s, k, order);
    forall r ensures t.At(r) == s.At(r) {}
    forall r ensures QueueOk(t.At(r)) && Solvent(t, r) && Use(t, r) == Use(s, r) {
      assert QueueOk(s.At(r)) && Solvent(s, r);
    }
    forall r, id ensures Matched(t, r, id) { assert Matched(s, r, id); }
    forall r, id | id !in t.jobs ensures Entries(t.At(r).queue, id) == [] { assert Entries(s.At(r).queue, id) == []; }
    if t != s {
      var host :| t.conns == CT.Insert(s.conns, host, k);
      InsertOnce(s.conns, host, k);
      forall c ensures CT.Mentions(s.conns, c) ==> CT.Mentions(t.conns, c) { InsertMentions(s.conns, host, k, c); }
    }
  }

  // ---------------------------------------------------------------- one step

  lemma QuietWired(s: State, t: State)
    requires Wired(s) && Quiet(s, t)
    ensures Wired(t)
  {
    forall id | id in t.jobs ensures t.jobs[id].pending == s.jobs[id].pending { assert SameJob(s, t, id); }
  }

  lemma DisconnectWired(s: State, t: State, k: Conn)
    requires Wired(s) && Quiet(s, t.(conns := s.conns)) && t.jobs.Keys == Kept(s.jobs, k).Keys
             && t.conns == CT.DeleteByConn(s.conns, k)
    ensures Wired(t) && !CT.Mentions(t.conns, k)
  {
    DeleteFacts(s.conns, k);
    forall id | id in t.jobs ensures t.jobs[id].pending == s.jobs[id].pending && CountOn(t.jobs[id].pending, k) == 0 {
      assert SameJob(s, t.(conns := s.conns), id);
      CountMember(s.jobs[id].pending, k);
      KeptBacked(s.jobs[id].pending, s.conns, k);
    }
  }

  lemma KeptBacked(ps: seq<OutReq>, conns: CT.Table, k: Conn)
    requires CT.Once(conns) && PeersOnly(conns) && Backed(ps, conns) && CountOn(ps, k) == 0
    ensures Backed(ps, CT.DeleteByConn(conns, k))
  {
    DeleteFacts(conns, k);
    CountMember(ps, k);
    forall i | 0 <= i < |ps| && ps[i].held.None? ensures CT.Mentions(CT.DeleteByConn(conns, k), ps[i].conn) {
      assert ps[i] in ps;
    }
  }

  /** The requests of a job with one of them confirmed. */
  lemma ConfirmWired(ps: seq<OutReq>, i: nat, conns: CT.Table)
    requires i < |ps| && Backed(ps, conns)
    ensures Backed(ps[..i] + ps[i+1..], conns)
    ensures forall c :: CountOn(ps[..i] + ps[i+1..], c) <= CountOn(ps, c)
  {
    forall c ensures CountOn(ps[..i] + ps[i+1..], c) <= CountOn(ps, c) { CountWithout(ps, i, c); }
    var qs := ps[..i] + ps[i+1..];
    assert forall n :: 0 <= n < |qs| ==> qs[n] == if n < i then ps[n] else ps[n+1];
  }

  /** Fewer requests on each connection. */
  lemma FewerWired(s: State, t: State)
    requires Wired(s) && t.conns == s.conns && t.jobs.Keys == s.jobs.Keys && AllBacked(t.jobs, t.conns)
    requires forall id, c :: id in s.jobs ==> CountOn(t.jobs[id].pending, c) <= CountOn(s.jobs[id].pending, c)
    ensures Wired(t)
  {
  }

  lemma ConfirmAtWired(s: State, id: int, i: nat)
    requires Wired(s) && id in s.jobs && i < |s.jobs[id].pending|
    ensures Wired(ConfirmAt(s, id, i))
  {
    var t := ConfirmAt(s, id, i);
    ConfirmWired(s.jobs[id].pending, i, s.conns);
    forall x, c | x in s.jobs
      ensures CountOn(t.jobs[x].pending, c) <= CountOn(s.jobs[x].pending, c) && Backed(t.jobs[x].pending, t.conns)
    {
      assert Backed(s.jobs[x].pending, s.conns);
    }
    forall x | x in t.jobs ensures Backed(t.jobs[x].pending, t.conns) {
      assert CountOn(t.jobs[x].pending, Peer(0)) <= CountOn(s.jobs[x].pending, Peer(0));
    }
    FewerWired(s, t);
  }

  lemma GrantWired(s: State, t: State, id: int)
    requires Wired(s) && GrantShape(s, t, id)
    ensures Wired(t)
  {
    if ConfirmsOne(s, t, id) {
      var i :| 0 <= i < |s.jobs[id].pending| && t == ConfirmAt(s, id, i);
      ConfirmAtWired(s, id, i);
    }
  }

  lemma RequestWired(s: State, k: Conn, id: int, reqs: seq<Req>)
    requires Wired(s) && FreshDials(s, reqs)
    requires Requested(s, OnJobRequest(s, k, id, reqs), k, id)
    ensures Wired(OnJobRequest(s, k, id, reqs))
  {
    var t := OnJobRequest(s, k, id, reqs);
    if id !in s.jobs {
      forall n | n in s.jobs && n in t.jobs ensures t.jobs[n].pending == s.jobs[n].pending { assert SameJob(s, t, n); }
      var p := Build(s, Job(id, k, [], []), reqs);
      if id in t.jobs {
        if p.Refused? { RefusedStaysOut(p.s, p.j, id); BuildFrame(s, Job(id, k, [], []), reqs); }
        assert t.jobs[id].pending == p.j.pending;
      }
      RequestDials(s, k, id, reqs, t);
      BuildBacked(s, Job(id, k, [], []), reqs);
    }
  }

  lemma {:induction false} BuildFrame(s: State, j: Job, reqs: seq<Req>)
    ensures Build(s, j, reqs).s.jobs == s.jobs
    decreases |reqs|
  {
    if reqs != [] {
      var q := reqs[0];
      if q.host == s.ip {
        var (t, o) := ReserveRes(s, q.res, q.amount, j.id, j.conn, Local);
        if o != RmDenied {
          BuildFrame(t, j.(confirmed := [Alloc(q.res, q.amount, Local, s.ip, j.id, o, j.conn)] + j.confirmed),
              reqs[1..]);
        }
      } else {
        match CT.Lookup(s.conns, q.host)
        case Some(c) => BuildFrame(s.Send(c, Reserve(j.id, q.res, q.amount)), Ask(j, q, c, None), reqs[1..]);
        case None =>
          if q.dial.Some? { BuildFrame(s, Ask(j, q, q.dial.value, Some(Reserve(j.id, q.res, q.amount))), reqs[1..]); }
      }
    }
  }

  lemma {:induction false} DrainKeys(s: State, r: Res)
    ensures Drain(s, r).jobs.Keys == s.jobs.Keys
    decreases |s.At(r).queue|
  {
    if CanPop(s.At(r)) {
      var t := Pop(s, r);
      assert t.jobs.Keys == s.jobs.Keys;
      DrainKeys(t, r);
    }
  }

  lemma {:induction false} FreeKeys(s: State, id: int, as_: seq<Alloc>)
    ensures FreeAll(s, id, as_).jobs.Keys == s.jobs.Keys
    decreases |as_|
  {
    if as_ != [] {
      if IsLocalGrant(as_[0]) && Accepts(s.At(as_[0].res), as_[0].amount) {
        DrainKeys(Give(s, as_[0].res, as_[0].amount), as_[0].res);
      }
      FreeKeys(FreeAlloc(s, id, as_[0]), id, as_[1..]);
    }
  }

  lemma RefusedStaysOut(s: State, j: Job, id: int)
    ensures FreeAll(PurgeJob(s, id), id, j.confirmed).jobs.Keys == s.jobs.Keys
  {
    FreeKeys(PurgeJob(s, id), id, j.confirmed);
  }

  /** Announcements sent to the owner of a job between two states. */
  ghost function Sent(s: State, t: State, id: int): int
    requires id in t.jobs
  {
    var o := Out(t.jobs[id].conn, JobGranted(id));
    multiset(t.log)[o] as int - multiset(s.log)[o]
  }

  ghost function Due(s: State, id: int): int { if ReadyIn(s.jobs, id) then 1 else 0 }

  /** Every job that became ready was announced once, and no other. */
  ghost predicate Announces(s: State, t: State) {
    forall id :: id in t.jobs ==> Sent(s, t, id) == Due(t, id) - Due(s, id)
  }

  ghost function Asked(e: Event, k: Conn, id: int): int {
    if e.EvReserve? && e.k == k && e.job == id then 1 else 0
  }

  /** What every event guarantees. */
  ghost predicate Sound(s: State, e: Event, t: State)
    requires Feasible(s, e)
  {
    && Inv(t) && Wired(t)
    && (forall r :: t.At(r).total == s.At(r).total)
    && (forall r :: Use(t, r) <= Use(s, r))
    && (forall r :: Use(t, r) == Use(s, r) <==> Harmless(s, e, r))
    && Announces(s, t)
    && (forall k, id :: Owing(t, k, id) <= Owing(s, k, id) + Asked(e, k, id))
  }

  lemma QuietSound(s: State, e: Event, t: State)
    requires Feasible(s, e) && !e.EvDisconnect? && !e.EvConnFailed?
    requires Wired(s) && Inv(t) && Quiet(s, t) && SameUse(s, t)
    ensures Sound(s, e, t)
  {
    QuietWired(s, t);
    QuietAnnounces(s, t);
    forall r ensures Use(t, r) == Use(s, r) {}
    forall k, id ensures Owing(t, k, id) <= Owing(s, k, id) + Asked(e, k, id) {
      assert Owing(t, k, id) <= Owing(s, k, id);
    }
  }

  lemma QuietAnnounces(s: State, t: State)
    requires Quiet(s, t)
    ensures Announces(s, t)
  {
    forall id | id in t.jobs ensures Sent(s, t, id) == Due(t, id) - Due(s, id) { assert SameJob(s, t, id); }
  }

  lemma RequestSound(s: State, e: Event)
    requires Inv(s) && Wired(s) && e.EvJobRequest? && Lawful(s, e)
    ensures Sound(s, e, Step(s, e))
  {
    var t := Step(s, e);
    JobRequestKeeps(s, e.k, e.job, e.reqs);
    RequestWired(s, e.k, e.job, e.reqs);
    forall id | id in t.jobs ensures Sent(s, t, id) == Due(t, id) - Due(s, id) {
      if id in s.jobs { assert SameJob(s, t, id); }
    }
    forall r ensures Use(t, r) == Use(s, r) {}
    forall k, id ensures Owing(t, k, id) <= Owing(s, k, id) + Asked(e, k, id) {
      assert Owing(t, k, id) <= Owing(s, k, id);
    }
  }

  lemma ReserveSound(s: State, e: Event)
    requires Inv(s) && Wired(s) && Lawful(s, e) && e.EvReserve?
    ensures Sound(s, e, Step(s, e))
  {
    var t := Step(s, e);
    ReserveKeeps(s, e.k, e.job, e.res, e.amount);
    forall k, id ensures Owing(t, k, id) <= Owing(s, k, id) + Asked(e, k, id) {
      ReserveOwing(s, e.k, e.job, e.res, e.amount, k, id);
    }
    forall id | id in t.jobs ensures Sent(s, t, id) == Due(t, id) - Due(s, id) { assert SameJob(s, t, id); }
    forall r ensures Use(t, r) == Use(s, r) {}
  }

  lemma GrantedSound(s: State, e: Event)
    requires Inv(s) && Wired(s) && e.EvGranted?
    ensures Sound(s, e, Step(s, e))
  {
    GrantedCases(s, e.k, e.job);
    GrantSound(s, e, Step(s, e));
  }

  lemma GrantSound(s: State, e: Event, t: State)
    requires Inv(s) && Wired(s) && e.EvGranted? && GrantShape(s, t, e.job)
    ensures Sound(s, e, t)
  {
    GrantKeeps(s, t, e.job);
    GrantWired(s, t, e.job);
    forall r ensures t.At(r) == s.At(r) && Use(t, r) == Use(s, r) {}
    forall id | id in t.jobs ensures Sent(s, t, id) == Due(t, id) - Due(s, id) { assert Phi(t, id) == Phi(s, id); }
    forall k, id ensures Owing(t, k, id) <= Owing(s, k, id) + Asked(e, k, id) {
      assert Owing(t, k, id) == Owing(s, k, id);
    }
  }

  /** A loss that keeps the rest quiet, whatever it does to the table of connections. */
  lemma QuietLoss(s: State, e: Event, t: State)
    requires Feasible(s, e) && (e.EvDisconnect? || e.EvConnFailed?)
    requires Wired(t) && Inv(t) && Quiet(s, t.(conns := s.conns))
    requires forall r :: Use(t, r) <= Use(s, r) && (Use(t, r) == Use(s, r) <==> Harmless(s, e, r))
    ensures Sound(s, e, t)
  {
    var u := t.(conns := s.conns);
    forall id | id in t.jobs ensures Sent(s, t, id) == Due(t, id) - Due(s, id) { assert SameJob(s, u, id); }
    forall k, id ensures Owing(t, k, id) <= Owing(s, k, id) + Asked(e, k, id) {
      assert Owing(u, k, id) <= Owing(s, k, id);
    }
    forall r ensures t.At(r).total == s.At(r).total { assert u.At(r) == t.At(r); }
  }

  lemma LossSound(s: State, e: Event)
    requires Inv(s) && Wired(s) && Feasible(s, e) && (e.EvDisconnect? || e.EvConnFailed?)
    ensures Sound(s, e, Step(s, e))
  {
    var t := Step(s, e);
    if e.EvDisconnect? {
      DisconnectKeeps(s, e.k, e.order);
      DisconnectWired(s, t, e.k);
    } else {
      ConnFailedKeeps(s, e.k, e.order);
      QuietWired(s, t);
      assert t.(conns := s.conns) == t;
    }
    QuietLoss(s, e, t);
  }

  lemma ReadySound(s: State, e: Event)
    requires Inv(s) && Wired(s) && Feasible(s, e) && Lawful(s, e) && e.EvConnReady?
    ensures Sound(s, e, Step(s, e))
  {
    var t := Step(s, e);
    ReadyKeeps(s, e.k, e.order);
    OpenOne(s, e.k, e.order);
    forall r ensures t.At(r) == s.At(r) {}
    forall id | id in t.jobs ensures Sent(s, t, id) == Due(t, id) - Due(s, id) { assert SameJob(s, t, id); }
    forall r ensures Use(t, r) == Use(s, r) {}
    forall k, id ensures Owing(t, k, id) <= Owing(s, k, id) + Asked(e, k, id) {
      assert Owing(t, k, id) <= Owing(s, k, id);
    }
  }

  /** Every event keeps the three records in agreement, keeps the accounts exactly
      when it is harmless, announces exactly the jobs it completes and answers no
      peer beyond its requests. */
  lemma StepSound(s: State, e: Event)
    requires Inv(s) && Wired(s) && Feasible(s, e) && Lawful(s, e)
    ensures Sound(s, e, Step(s, e))
  {
    match e
    case EvReserve(_, _, _, _) => ReserveSound(s, e);
    case EvGranted(_, _) => GrantedSound(s, e);
    case EvRelease(_, id, r, amount) => PeerReleaseKeeps(s, id, r, amount); QuietSound(s, e, Step(s, e));
    case EvDenied(_, id) => DeniedKeeps(s, id); QuietSound(s, e, Step(s, e));
    case EvJobRequest(_, _, _) => RequestSound(s, e);
    case EvJobRelease(_, id) => JobReleaseKeeps(s, id); QuietSound(s, e, Step(s, e));
    case EvJobTimeout(_, id) => RemoveKeeps(s, id); QuietSound(s, e, Step(s, e));
    case EvDisconnect(_, _) => LossSound(s, e);
    case EvConnFailed(_, _) => LossSound(s, e);
    case EvConnReady(_, _) => ReadySound(s, e);
  }

  // ---------------------------------------------------------------- runs

  /** The agent as manager_init leaves it. */
  ghost function Boot(ip: string, cpu: nat, mem: nat, gpu: nat): State {
    State(ip, Bank(Resource(cpu, cpu, [], 0, []), Resource(mem, mem, [], 0, []), Resource(gpu, gpu, [], 0, [])), map[],
        CT.EmptyTable(), [])
  }

  /** A run is lawful when each of its events is, in the state it finds. */
  ghost predicate LawfulRun(s: State, es: seq<Event>)
    decreases |es|, 0
  {
    es == [] || (LawfulRun(s, es[..|es|-1]) && var t := After(s, es[..|es|-1]); var e := es[|es|-1];
        Feasible(t, e) && Lawful(t, e))
  }

  ghost function After(s: State, es: seq<Event>): State
    requires LawfulRun(s, es)
    decreases |es|, 1
  {
    if es == [] then s else Step(After(s, es[..|es|-1]), es[|es|-1])
  }

  /** A lawful run from some boot ends in the state. */
  ghost predicate Reachable(s: State) {
    exists ip: string, cpu: nat, mem: nat, gpu: nat, es ::
      LawfulRun(Boot(ip, cpu, mem, gpu), es) && After(Boot(ip, cpu, mem, gpu), es) == s
  }

  lemma RunStep(s: State, es: seq<Event>, e: Event)
    requires LawfulRun(s, es) && Feasible(After(s, es), e) && Lawful(After(s, es), e)
    ensures LawfulRun(s, es + [e]) && After(s, es + [e]) == Step(After(s, es), e)
  {
    Parts(es, [e]);
  }

  /** One run after another. */
  lemma {:induction false} RunJoin(s: State, es: seq<Event>, fs: seq<Event>)
    requires LawfulRun(s, es) && LawfulRun(After(s, es), fs)
    ensures LawfulRun(s, es + fs) && After(s, es + fs) == After(After(s, es), fs)
    decreases |fs|
  {
    if fs == [] {
      Nil(es);
    } else {
      var f, e := fs[..|fs|-1], fs[|fs|-1];
      RunJoin(s, es, f);
      RunStep(s, es + f, e);
      Assoc(es, f, [e]);
      Snoc(fs);
    }
  }

  lemma {:induction false} LawfulPrefix(s: State, es: seq<Event>, n: nat)
    requires LawfulRun(s, es) && n <= |es|
    ensures LawfulRun(s, es[..n])
    decreases |es|
  {
    if n < |es| {
      LawfulPrefix(s, es[..|es|-1], n);
      CutFront(es, |es| - 1, n);
    } else {
      CutFront(es, n, n);
    }
  }

  ghost predicate HarmlessRun(s: State, es: seq<Event>, r: Res)
    requires LawfulRun(s, es)
  {
    es == [] || (HarmlessRun(s, es[..|es|-1], r) && Harmless(After(s, es[..|es|-1]), es[|es|-1], r))
  }

  /** Announcements of a job since it last entered the table. */
  ghost function Announced(s: State, es: seq<Event>, id: int): int
    requires LawfulRun(s, es) && id in After(s, es).jobs
  {
    if es == [] then 0
    else
      var p := es[..|es|-1];
      Sent(After(s, p), After(s, es), id) + if id in After(s, p).jobs then Announced(s, p, id) else 0
  }

  ghost function Reserves(es: seq<Event>, k: Conn, id: int): int {
    if es == [] then 0 else Reserves(es[..|es|-1], k, id) + Asked(es[|es|-1], k, id)
  }

  lemma BootInv(ip: string, cpu: nat, mem: nat, gpu: nat)
    ensures var s := Boot(ip, cpu, mem, gpu); Inv(s) && Wired(s) && forall r :: Balanced(s, r)
  {
    var s := Boot(ip, cpu, mem, gpu);
    forall r ensures QueueOk(s.At(r)) && s.At(r).queue == [] && s.At(r).lent == 0 && s.At(r).avail == s.At(r).total {}
    forall r ensures SumHeld(s.jobs, r) == 0 {}
    forall r ensures Balanced(s, r) && Solvent(s, r) {}
    forall r, id ensures Matched(s, r, id) {}
    forall r, id | id !in s.jobs ensures Entries(s.At(r).queue, id) == [] {}
  }

  /** In every reachable state, after any losses: the invariant holds, the capacity
      in use never exceeds the total, and it equals the total - conservation - for
      exactly those resources that no connection loss harmed. */
  lemma {:induction false} Conservation(ip: string, cpu: nat, mem: nat, gpu: nat, es: seq<Event>)
    requires LawfulRun(Boot(ip, cpu, mem, gpu), es)
    ensures var s := Boot(ip, cpu, mem, gpu); var t := After(s, es);
            && Inv(t) && Wired(t)
            && (forall r :: t.At(r).total == s.At(r).total)
            && (forall r :: Balanced(t, r) <==> HarmlessRun(s, es, r))
    decreases |es|
  {
    var s := Boot(ip, cpu, mem, gpu);
    BootInv(ip, cpu, mem, gpu);
    if es != [] {
      var p := es[..|es|-1];
      var m := After(s, p);
      Conservation(ip, cpu, mem, gpu, p);
      StepSound(m, es[|es|-1]);
      var t := After(s, es);
      forall r ensures Balanced(t, r) <==> HarmlessRun(s, es, r) {
        assert Solvent(m, r) && Use(t, r) <= Use(m, r);
        assert Balanced(m, r) <==> HarmlessRun(s, p, r);
      }
    } else {
      forall r ensures Balanced(s, r) {}
    }
  }

  /** A job of the table has been announced to its owner exactly once if nothing of
      it is outstanding, and not at all otherwise. */
  lemma {:induction false} AnnouncedExactly(ip: string, cpu: nat, mem: nat, gpu: nat, es: seq<Event>, id: int)
    requires LawfulRun(Boot(ip, cpu, mem, gpu), es)
    requires id in After(Boot(ip, cpu, mem, gpu), es).jobs
    ensures Announced(Boot(ip, cpu, mem, gpu), es, id)
            == if Ready(After(Boot(ip, cpu, mem, gpu), es).jobs[id]) then 1 else 0
    decreases |es|
  {
    var s := Boot(ip, cpu, mem, gpu);
    if es != [] {
      var p := es[..|es|-1];
      var m := After(s, p);
      Conservation(ip, cpu, mem, gpu, p);
      StepSound(m, es[|es|-1]);
      if id in m.jobs { AnnouncedExactly(ip, cpu, mem, gpu, p, id); }
      assert Sent(m, After(s, es), id) == Due(After(s, es), id) - Due(m, id);
    }
  }

  /** A peer never gets more answers about a job than reservations it made, counting
      the reservations that still wait as not answered. */
  lemma {:induction false} AnsweredAtMostOnce(ip: string, cpu: nat, mem: nat, gpu: nat, es: seq<Event>, k: Conn,
      id: int)
    requires LawfulRun(Boot(ip, cpu, mem, gpu), es)
    ensures Owing(After(Boot(ip, cpu, mem, gpu), es), k, id) <= Reserves(es, k, id)
    decreases |es|
  {
    var s := Boot(ip, cpu, mem, gpu);
    if es != [] {
      var p := es[..|es|-1];
      Conservation(ip, cpu, mem, gpu, p);
      AnsweredAtMostOnce(ip, cpu, mem, gpu, p, k, id);
      StepSound(After(s, p), es[|es|-1]);
    }
  }

  // ---------------------------------------------------------------- no stranded waiters

  lemma {:induction false} SomeHolder(ids: set<int>, jobs: map<int, Job>, r: Res) returns (id: int)
    requires ids <= jobs.Keys && SumOver(ids, jobs, r) > 0
    ensures id in ids && Held(jobs[id].confirmed, r) > 0
  {
    id := Any(ids);
    if Held(jobs[id].confirmed, r) <= 0 { id := SomeHolder(ids - {id}, jobs, r); }
  }

  /** Whoever waits for a resource waits for an amount within its capacity, and the
      resource is not entirely free, whatever was lost before. */
  lemma WaitersInRange(s: State, r: Res)
    requires Inv(s) && s.At(r).queue != []
    ensures 0 <= s.At(r).avail < s.At(r).total
    ensures forall p :: p in s.At(r).queue ==> 1 <= p.amount <= s.At(r).total
  {
    assert QueueOk(s.At(r));
    forall p | p in s.At(r).queue ensures 1 <= p.amount <= s.At(r).total {
      var i :| 0 <= i < |s.At(r).queue| && s.At(r).queue[i] == p;
      assert EntryOk(s.At(r).queue[i], s.At(r).total);
    }
  }

  /** Every holder of a resource can give it back in a release that is accepted. */
  lemma HolderAccepted(s: State, r: Res, id: int)
    requires Inv(s) && id in s.jobs
    ensures s.At(r).avail + Held(s.jobs[id].confirmed, r) + s.At(r).lent <= s.At(r).total
    ensures Held(s.jobs[id].confirmed, r) >= 0 && Accepts(s.At(r), Held(s.jobs[id].confirmed, r))
  {
    assert JobOk(s.jobs[id], id) && Solvent(s, r);
    HeldNonNeg(s.jobs[id].confirmed, id, s.jobs[id].conn, r);
    SumRemove(s.jobs, id, r);
    forall n | n in s.jobs - {id} ensures JobOk((s.jobs - {id})[n], n) { assert JobOk(s.jobs[n], n); }
    SumNonNeg((s.jobs - {id}).Keys, s.jobs - {id}, r);
  }

  /** While the accounts balance, some holder - a job of the table or a peer - has what
      a waiter lacks, and can give it back. */
  lemma NoStrandedWaiter(s: State, r: Res)
    requires Inv(s) && Balanced(s, r) && s.At(r).queue != []
    ensures (exists id :: id in s.jobs && Held(s.jobs[id].confirmed, r) > 0
              && Accepts(s.At(r), Held(s.jobs[id].confirmed, r)))
         || (s.At(r).lent > 0 && Accepts(s.At(r), s.At(r).lent))
  {
    WaitersInRange(s, r);
    assert Solvent(s, r);
    SumNonNeg(s.jobs.Keys, s.jobs, r);
    if SumHeld(s.jobs, r) > 0 {
      var id := SomeHolder(s.jobs.Keys, s.jobs, r);
      HolderAccepted(s, r, id);
    }
  }

  // ---------------------------------------------------------------- no references

  /** Nothing in the agent mentions a connection. */
  ghost predicate Forgotten(s: State, k: Conn) {
    && (forall r, p :: p in s.At(r).queue ==> p.owner != k)
    && (forall id :: id in s.jobs ==> s.jobs[id].conn != k)
    && (forall id, a :: id in s.jobs && a in s.jobs[id].confirmed ==> a.conn != k)
    && (forall id, o :: id in s.jobs && o in s.jobs[id].pending ==> o.conn != k)
    && !CT.Mentions(s.conns, k)
  }

  lemma {:induction false} RemotesMember(as_: seq<Alloc>)
    ensures forall a :: a in Remotes(as_) <==> a in as_ && a.kind == Remote
  {
    if as_ != [] {
      RemotesMember(as_[1..]);
      assert as_ == [as_[0]] + as_[1..];
    }
  }

  /** The jobs that survive the loss, and whatever cascades followed. */
  lemma SurvivorForgets(s: State, o: State, u: State, k: Conn, id: int)
    requires Inv(u) && Calm(o, u) && o.jobs == Kept(s.jobs, k) && id in o.jobs
    ensures id in u.jobs && u.jobs[id].conn != k
    ensures forall a :: a in u.jobs[id].confirmed ==> a.conn != k
    ensures forall q :: q in u.jobs[id].pending ==> q.conn != k
  {
    assert SameJob(o, u, id) && JobOk(u.jobs[id], id);
    StripMembers(s.jobs[id].confirmed, k);
    RemotesMember(o.jobs[id].confirmed);
    RemotesMember(u.jobs[id].confirmed);
    forall a | a in u.jobs[id].confirmed ensures a.conn != k {
      var i :| 0 <= i < |u.jobs[id].confirmed| && u.jobs[id].confirmed[i] == a;
      assert AllocOk(a, id, u.jobs[id].conn);
      if a.kind == Remote { assert a in Remotes(o.jobs[id].confirmed); }
    }
  }

  /** After a disconnection no queue entry, job, share, outgoing request or table
      entry refers to the connection, whatever its cascade granted on the way. */
  lemma DisconnectForgets(s: State, k: Conn, order: seq<int>)
    requires Inv(s) && Wired(s) && Enumerates(order, Victims(s.jobs, k))
    ensures Forgotten(OnDisconnect(s, k, order), k)
  {
    var o := PurgeConn(s, k).(jobs := Kept(s.jobs, k));
    var u := Abandon(o, Pick(s.jobs, order, k));
    var t := OnDisconnect(s, k, order);
    AbandonExtracted(s, o, k, order);
    DeleteFacts(s.conns, k);
    forall r, p | p in t.At(r).queue ensures p.owner != k {
      assert p in u.At(r).queue && p in o.At(r).queue;
      ExtractedAt(s, o, k, r);
    }
    forall id | id in t.jobs
      ensures t.jobs[id].conn != k && (forall a :: a in t.jobs[id].confirmed ==> a.conn != k)
      ensures forall q :: q in t.jobs[id].pending ==> q.conn != k
    {
      SurvivorForgets(s, o, u, k, id);
    }
  }

  /** After a failed connection no job, share or outgoing request refers to it; and
      nothing at all does if no queue entry did and it was not registered, as for a
      connection that never opened. */
  lemma FailureForgets(s: State, k: Conn, order: seq<int>)
    requires Inv(s) && Enumerates(order, Victims(s.jobs, k))
    ensures var t := OnConnFailed(s, k, order);
            && (forall id :: id in t.jobs ==> t.jobs[id].conn != k)
            && (forall id, a :: id in t.jobs && a in t.jobs[id].confirmed ==> a.conn != k)
            && (forall id, o :: id in t.jobs && o in t.jobs[id].pending ==> o.conn != k)
            && (Forgotten(t, k) <==> !CT.Mentions(s.conns, k) && forall r, p :: p in t.At(r).queue ==> p.owner != k)
            && (forall r, p :: p in t.At(r).queue ==> p in s.At(r).queue)
  {
    var o := s.(jobs := Kept(s.jobs, k));
    var t := OnConnFailed(s, k, order);
    forall r ensures o.At(r) == s.At(r) {}
    AbandonExtracted(s, o, k, order);
    forall id | id in t.jobs
      ensures t.jobs[id].conn != k && (forall a :: a in t.jobs[id].confirmed ==> a.conn != k)
      ensures forall q :: q in t.jobs[id].pending ==> q.conn != k
    {
      SurvivorForgets(s, o, t, k, id);
    }
  }

  /** Only its own request brings a job into the table. */
  lemma OnlyRequestsEnter(s: State, e: Event, id: int)
    requires Inv(s) && Wired(s) && Feasible(s, e) && Lawful(s, e) && id !in s.jobs && id in Step(s, e).jobs
    ensures e.EvJobRequest? && e.job == id
  {
    match e
    case EvReserve(k, job, r, amount) =>
    case EvGranted(k, job) => GrantedKeeps(s, k, job);
    case EvRelease(_, job, r, amount) => PeerReleaseKeeps(s, job, r, amount);
    case EvDenied(_, job) => DeniedKeeps(s, job);
    case EvJobRequest(_, _, _) => JobRequestKeeps(s, e.k, e.job, e.reqs);
    case EvJobRelease(_, job) => JobReleaseKeeps(s, job);
    case EvJobTimeout(_, job) => RemoveKeeps(s, job);
    case EvDisconnect(k, order) => DisconnectKeeps(s, k, order);
    case EvConnFailed(k, order) => ConnFailedKeeps(s, k, order);
    case EvConnReady(k, order) => ReadyKeeps(s, k, order);
  }
}
