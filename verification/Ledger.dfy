/** The accounts of the agent: what each job holds and waits for, what the queues
    owe, and the conditions that tie counters, queues and allocations together. */
module Ledger {
  import opened Types
  import opened Allocator

  // ---------------------------------------------------------------- accounts

  /** Amount of a resource that a list of allocations holds by local grants. */
  ghost function Held(as_: seq<Alloc>, r: Res): int {
    if as_ == [] then 0
    else (if IsLocalGrant(as_[0]) && as_[0].res == r then as_[0].amount else 0) + Held(as_[1..], r)
  }

  /** The queue entries that the local waits of a list of allocations call for. */
  ghost function Wanted(as_: seq<Alloc>, r: Res): seq<Pending> {
    if as_ == [] then []
    else if IsLocalWait(as_[0]) && as_[0].res == r then
      [Pending(as_[0].job, as_[0].amount, as_[0].conn, Local)] + Wanted(as_[1..], r)
    else Wanted(as_[1..], r)
  }

  /** The shares that peers granted. */
  ghost function Remotes(as_: seq<Alloc>): seq<Alloc> {
    if as_ == [] then []
    else if as_[0].kind == Remote then [as_[0]] + Remotes(as_[1..])
    else Remotes(as_[1..])
  }

  /** The local entries of a job in a queue. */
  ghost function Entries(q: seq<Pending>, id: int): seq<Pending> {
    if q == [] then []
    else if q[0].origin == Local && q[0].job == id then [q[0]] + Entries(q[1..], id)
    else Entries(q[1..], id)
  }

  /** The amount queued locally for jobs that are not in the table. */
  ghost function Orphans(q: seq<Pending>, ids: set<int>): int {
    if q == [] then 0
    else (if q[0].origin == Local && q[0].job !in ids then q[0].amount else 0) + Orphans(q[1..], ids)
  }

  /** Requests of one peer connection for one job that still wait in a queue. */
  ghost function Waiting(q: seq<Pending>, k: Conn, id: int): nat {
    if q == [] then 0
    else (if q[0].origin == Remote && q[0].owner == k && q[0].job == id then 1 else 0) + Waiting(q[1..], k, id)
  }

  ghost predicate Inhabited(ids: set<int>) { exists id: int :: id in ids }

  ghost function Any(ids: set<int>): (id: int)
    requires Inhabited(ids)
    ensures id in ids
  {
    var id: int :| id in ids;
    id
  }

  ghost function SumOver(ids: set<int>, jobs: map<int, Job>, r: Res): int
    requires ids <= jobs.Keys
  {
    if Inhabited(ids) then Held(jobs[Any(ids)].confirmed, r) + SumOver(ids - {Any(ids)}, jobs, r) else 0
  }

  /** The total held over all jobs of the table. */
  ghost function SumHeld(jobs: map<int, Job>, r: Res): int {
    SumOver(jobs.Keys, jobs, r)
  }

  // ---------------------------------------------------------------- conditions

  ghost predicate AllocOk(a: Alloc, id: int, k: Conn) {
    && a.job == id
    && (a.kind == Local ==> a.conn == k && a.amount > 0 && a.outcome != RmDenied)
    && (a.kind == Remote ==> a.conn.Peer? && a.outcome == RmGranted)
  }

  /** Local allocations carry their job's connection, and no resource twice. */
  ghost predicate AllocsOk(as_: seq<Alloc>, id: int, k: Conn) {
    && (forall i :: 0 <= i < |as_| ==> AllocOk(as_[i], id, k))
    && (forall i, j :: 0 <= i < j < |as_| && as_[i].kind == Local && as_[j].kind == Local ==> as_[i].res != as_[j].res)
  }

  ghost predicate JobOk(j: Job, id: int) {
    && j.id == id
    && j.conn.Planner?
    && AllocsOk(j.confirmed, id, j.conn)
    && PendingsOk(j.pending, id)
  }

  /** Outgoing requests go to peers; a message held for one is its reservation. */
  ghost predicate PendingsOk(ps: seq<OutReq>, id: int) {
    forall i :: 0 <= i < |ps| ==>
      ps[i].conn.Peer? && (ps[i].held.Some? ==> ps[i].held.value == Reserve(id, ps[i].res, ps[i].amount))
  }

  ghost predicate EntryOk(p: Pending, total: int) {
    1 <= p.amount <= total && (p.origin == Remote ==> p.owner.Peer?)
  }

  ghost predicate QueueOk(c: Resource) {
    && 0 <= c.avail <= c.total
    && forall i :: 0 <= i < |c.queue| ==> EntryOk(c.queue[i], c.total)
  }

  ghost predicate Matched(s: State, r: Res, id: int) {
    id in s.jobs ==> Entries(s.At(r).queue, id) == Wanted(s.jobs[id].confirmed, r)
  }

  /** Counters in range and, for every job of the table, its queue entries are
      exactly its queued allocations: same resource, same amount, same owner. */
  ghost predicate Good(s: State) {
    && (forall id :: id in s.jobs ==> JobOk(s.jobs[id], id))
    && (forall r :: QueueOk(s.At(r)))
    && (forall r, id :: Matched(s, r, id))
  }

  /** No queue holds a local entry of a job that is not in the table. */
  ghost predicate NoOrphans(s: State) {
    forall r, id :: id !in s.jobs ==> Entries(s.At(r).queue, id) == []
  }

  /** Counter plus local grants plus remote grants. */
  ghost function Use(s: State, r: Res): int {
    s.At(r).avail + SumHeld(s.jobs, r) + s.At(r).lent
  }

  /** `Use` without what is promised to jobs that are gone. */
  ghost function Book(s: State, r: Res): int {
    Use(s, r) - Orphans(s.At(r).queue, s.jobs.Keys)
  }

  /** Announcements of a job made so far, less one if it should have been announced. */
  ghost function Phi(s: State, id: int): int
    requires id in s.jobs
  {
    multiset(s.log)[Out(s.jobs[id].conn, JobGranted(id))] as int - if Ready(s.jobs[id]) then 1 else 0
  }

  /** Answers sent to a peer about a job plus its requests still waiting. */
  ghost function Owing(s: State, k: Conn, id: int): int {
    multiset(s.log)[Out(k, Granted(id))] + multiset(s.log)[Out(k, Denied(id))] + InQueues(s.bank, k, id)
  }

  ghost function InQueues(b: Bank, k: Conn, id: int): nat {
    Waiting(b.cpu.queue, k, id) + Waiting(b.mem.queue, k, id) + Waiting(b.gpu.queue, k, id)
  }

  lemma InQueuesWith(b: Bank, r: Res, c: Resource, k: Conn, id: int)
    ensures InQueues(b.With(r, c), k, id)
            == InQueues(b, k, id) - Waiting(b.At(r).queue, k, id) + Waiting(c.queue, k, id)
  {
  }

  ghost predicate SameJob(s: State, t: State, id: int)
    requires id in s.jobs && id in t.jobs
  {
    t.jobs[id].conn == s.jobs[id].conn && t.jobs[id].pending == s.jobs[id].pending && Phi(t, id) == Phi(s, id)
  }

  /** What a cascade of grants and purges leaves alone: the set of jobs, their
      owners and outgoing requests, the rest of the tables; every job it completes
      is announced exactly once, and every peer answered out of its own requests. */
  ghost predicate Calm(s: State, t: State) {
    && t.ip == s.ip && t.conns == s.conns && t.jobs.Keys == s.jobs.Keys
    && (forall r :: t.At(r).total == s.At(r).total)
    && (forall r :: t.At(r).lent >= s.At(r).lent)
    && (forall id :: id in s.jobs
         ==> SameJob(s, t, id) && Remotes(t.jobs[id].confirmed) == Remotes(s.jobs[id].confirmed))
    && (forall k, id :: Owing(t, k, id) <= Owing(s, k, id))
    && (forall r, id :: Entries(s.At(r).queue, id) == [] ==> Entries(t.At(r).queue, id) == [])
    && (forall r, p :: p in t.At(r).queue ==> p in s.At(r).queue)
    && (forall o: Out :: o.msg.Reserve? ==> multiset(t.log)[o] == multiset(s.log)[o])
  }

  lemma CalmTrans(s: State, t: State, u: State)
    requires Calm(s, t) && Calm(t, u)
    ensures Calm(s, u)
  {
    forall id | id in s.jobs
      ensures SameJob(s, u, id) && Remotes(u.jobs[id].confirmed) == Remotes(s.jobs[id].confirmed)
    {
      assert SameJob(s, t, id) && SameJob(t, u, id);
    }
    forall k, id ensures Owing(u, k, id) <= Owing(s, k, id) {
      assert Owing(t, k, id) <= Owing(s, k, id);
    }
    forall r, id | Entries(s.At(r).queue, id) == [] ensures Entries(u.At(r).queue, id) == [] {
      assert Entries(t.At(r).queue, id) == [];
    }
    forall o: Out | o.msg.Reserve? ensures multiset(u.log)[o] == multiset(s.log)[o] {
      assert multiset(t.log)[o] == multiset(s.log)[o];
    }
  }

  // ---------------------------------------------------------------- sums over jobs

  lemma {:induction false} SumOut(ids: set<int>, jobs: map<int, Job>, id: int, r: Res)
    requires id in ids && ids <= jobs.Keys
    ensures SumOver(ids, jobs, r) == Held(jobs[id].confirmed, r) + SumOver(ids - {id}, jobs, r)
  {
    var k := Any(ids);
    if k != id {
      SumOut(ids - {k}, jobs, id, r);
      SumOut(ids - {id}, jobs, k, r);
      assert ids - {k} - {id} == ids - {id} - {k};
    }
  }

  /** The sum depends only on what each job of the set holds. */
  lemma {:induction false} SumSame(ids: set<int>, jobs: map<int, Job>, jobs': map<int, Job>, r: Res)
    requires ids <= jobs.Keys && ids <= jobs'.Keys
    requires forall id :: id in ids ==> Held(jobs[id].confirmed, r) == Held(jobs'[id].confirmed, r)
    ensures SumOver(ids, jobs, r) == SumOver(ids, jobs', r)
  {
    if Inhabited(ids) { SumSame(ids - {Any(ids)}, jobs, jobs', r); }
  }

  lemma SumRemove(jobs: map<int, Job>, id: int, r: Res)
    requires id in jobs
    ensures SumHeld(jobs, r) == Held(jobs[id].confirmed, r) + SumHeld(jobs - {id}, r)
  {
    SumOut(jobs.Keys, jobs, id, r);
    assert (jobs - {id}).Keys == jobs.Keys - {id};
    SumSame(jobs.Keys - {id}, jobs, jobs - {id}, r);
  }

  lemma SumSet(jobs: map<int, Job>, id: int, j: Job, r: Res)
    ensures SumHeld(jobs[id := j], r)
         == SumHeld(jobs, r) + Held(j.confirmed, r) - if id in jobs then Held(jobs[id].confirmed, r) else 0
  {
    SumRemove(jobs[id := j], id, r);
    if id in jobs {
      SumRemove(jobs, id, r);
      assert jobs[id := j] - {id} == jobs - {id};
    } else {
      assert jobs[id := j] - {id} == jobs;
    }
  }

  lemma {:induction false} HeldNonNeg(as_: seq<Alloc>, id: int, k: Conn, r: Res)
    requires AllocsOk(as_, id, k)
    ensures Held(as_, r) >= 0
  {
    if as_ != [] { HeldNonNeg(as_[1..], id, k, r); }
  }

  lemma {:induction false} SumNonNeg(ids: set<int>, jobs: map<int, Job>, r: Res)
    requires ids <= jobs.Keys
    requires forall id :: id in jobs ==> JobOk(jobs[id], id)
    ensures SumOver(ids, jobs, r) >= 0
  {
    if Inhabited(ids) {
      var k := Any(ids);
      HeldNonNeg(jobs[k].confirmed, k, jobs[k].conn, r);
      SumNonNeg(ids - {k}, jobs, r);
    }
  }

  // ---------------------------------------------------------------- allocations

  lemma {:induction false} NoLocal(as_: seq<Alloc>, r: Res)
    requires forall i :: 0 <= i < |as_| && as_[i].kind == Local ==> as_[i].res != r
    ensures Held(as_, r) == 0 && Wanted(as_, r) == []
  {
    if as_ != [] { NoLocal(as_[1..], r); }
  }

  /** A job is ready exactly when it asks for no queue entry and no peer. */
  lemma {:induction false} WaitFree(as_: seq<Alloc>)
    ensures (forall a | a in as_ :: !IsLocalWait(a)) <==> (forall r :: Wanted(as_, r) == [])
  {
    if as_ != [] {
      WaitFree(as_[1..]);
      assert as_ == [as_[0]] + as_[1..];
      if IsLocalWait(as_[0]) {
        assert as_[0] in as_;
        assert Wanted(as_, as_[0].res) != [];
      } else if forall a | a in as_ :: !IsLocalWait(a) {
        assert forall a :: a in as_[1..] ==> a in as_;
        forall r ensures Wanted(as_, r) == [] { assert Wanted(as_[1..], r) == []; }
      } else {
        var a :| a in as_ && IsLocalWait(a);
        assert a in as_[1..];
        var r :| Wanted(as_[1..], r) != [];
        assert Wanted(as_, r) != [];
      }
    }
  }

  lemma {:induction false} MarkOther(as_: seq<Alloc>, id: int, k: Conn, c: Conn, r: Res)
    requires AllocsOk(as_, id, k) && c != k
    ensures Mark(as_, c, r) == as_
  {
    if as_ != [] { MarkOther(as_[1..], id, k, c, r); }
  }

  ghost function Total(q: seq<Pending>): int {
    if q == [] then 0 else q[0].amount + Total(q[1..])
  }

  /** Marking changes nothing but outcomes, to granted. */
  lemma {:induction false} MarkPoint(as_: seq<Alloc>, k: Conn, r: Res)
    ensures |Mark(as_, k, r)| == |as_|
    ensures forall i :: 0 <= i < |as_|
              ==> Mark(as_, k, r)[i] == as_[i] || Mark(as_, k, r)[i] == as_[i].(outcome := RmGranted)
  {
    if as_ != [] && !(as_[0].kind == Local && as_[0].conn == k && as_[0].res == r) {
      MarkPoint(as_[1..], k, r);
      var m := Mark(as_, k, r);
      forall i | 0 < i < |as_| ensures m[i] == as_[i] || m[i] == as_[i].(outcome := RmGranted) {
        assert m[i] == Mark(as_[1..], k, r)[i-1] && as_[i] == as_[1..][i-1];
      }
    }
  }

  lemma MarkShape(as_: seq<Alloc>, id: int, k: Conn, r: Res)
    requires AllocsOk(as_, id, k)
    ensures AllocsOk(Mark(as_, k, r), id, k)
  {
    MarkPoint(as_, k, r);
    var m := Mark(as_, k, r);
    forall i | 0 <= i < |m| ensures AllocOk(m[i], id, k) { assert AllocOk(as_[i], id, k); }
  }

  /** Marking turns the job's only wait for the resource into a grant. */
  lemma {:induction false} MarkFacts(as_: seq<Alloc>, id: int, k: Conn, r: Res)
    requires AllocsOk(as_, id, k)
    ensures Wanted(Mark(as_, k, r), r) == [] && |Wanted(as_, r)| <= 1
    ensures Held(Mark(as_, k, r), r) == Held(as_, r) + Total(Wanted(as_, r))
  {
    if as_ != [] {
      if as_[0].kind == Local && as_[0].res == r {
        NoLocal(as_[1..], r);
        assert Mark(as_, k, r)[1..] == as_[1..];
      } else {
        MarkFacts(as_[1..], id, k, r);
        assert Mark(as_, k, r)[1..] == Mark(as_[1..], k, r);
      }
    }
  }

  lemma {:induction false} MarkRemotes(as_: seq<Alloc>, k: Conn, r: Res)
    ensures Remotes(Mark(as_, k, r)) == Remotes(as_)
  {
    if as_ != [] {
      if as_[0].kind == Local && as_[0].conn == k && as_[0].res == r {
        assert Mark(as_, k, r)[1..] == as_[1..];
      } else {
        MarkRemotes(as_[1..], k, r);
        assert Mark(as_, k, r)[1..] == Mark(as_[1..], k, r);
      }
    }
  }

  lemma {:induction false} MarkElse(as_: seq<Alloc>, k: Conn, r: Res, q: Res)
    requires q != r
    ensures Wanted(Mark(as_, k, r), q) == Wanted(as_, q) && Held(Mark(as_, k, r), q) == Held(as_, q)
  {
    if as_ != [] {
      if as_[0].kind == Local && as_[0].conn == k && as_[0].res == r {
        assert Mark(as_, k, r)[1..] == as_[1..];
      } else {
        MarkElse(as_[1..], k, r, q);
        assert Mark(as_, k, r)[1..] == Mark(as_[1..], k, r);
      }
    }
  }

  // ---------------------------------------------------------------- queues

  lemma {:induction false} Appended(q: seq<Pending>, p: Pending)
    ensures forall id :: Entries(q + [p], id)
                      == if p.origin == Local && p.job == id then Entries(q, id) + [p] else Entries(q, id)
    ensures forall k, id :: Waiting(q + [p], k, id)
                         == Waiting(q, k, id) + if p.origin == Remote && p.owner == k && p.job == id then 1 else 0
    ensures forall ids :: Orphans(q + [p], ids)
                       == Orphans(q, ids) + if p.origin == Local && p.job !in ids then p.amount else 0
  {
    if q == [] {
      assert q + [p] == [p];
      assert [p][1..] == [];
    } else {
      Appended(q[1..], p);
      assert (q + [p])[1..] == q[1..] + [p];
    }
  }

  lemma {:induction false} DroppedJob(q: seq<Pending>, id: int)
    ensures forall k :: Entries(DropJob(q, id), k) == if k == id then [] else Entries(q, k)
    ensures forall k, j :: Waiting(DropJob(q, id), k, j) <= Waiting(q, k, j)
    ensures forall p :: p in DropJob(q, id) <==> p in q && p.job != id
  {
    if q != [] {
      DroppedJob(q[1..], id);
      assert q == [q[0]] + q[1..];
      if q[0].job != id {
        var d := DropJob(q, id);
        assert d[1..] == DropJob(q[1..], id) && d[0] == q[0];
      }
    }
  }

  lemma {:induction false} DroppedConn(q: seq<Pending>, c: Conn)
    ensures forall k :: (forall p | p in Entries(q, k) :: p.owner != c) ==> Entries(DropConn(q, c), k) == Entries(q, k)
    ensures forall k :: Entries(q, k) == [] ==> Entries(DropConn(q, c), k) == []
    ensures forall k, j :: Waiting(DropConn(q, c), k, j) <= Waiting(q, k, j)
    ensures forall p :: p in DropConn(q, c) <==> p in q && p.owner != c
  {
    if q != [] {
      DroppedConn(q[1..], c);
      assert q == [q[0]] + q[1..];
      if q[0].owner != c {
        var d := DropConn(q, c);
        assert d[1..] == DropConn(q[1..], c) && d[0] == q[0];
      }
      forall k | forall p | p in Entries(q, k) :: p.owner != c
        ensures Entries(DropConn(q, c), k) == Entries(q, k)
      {
        assert forall p :: p in Entries(q[1..], k) ==> p in Entries(q, k);
        if q[0].origin == Local && q[0].job == k { assert q[0] in Entries(q, k); }
      }
    }
  }

  /** Only entries of absent jobs are orphans. */
  lemma {:induction false} NoOrphanSum(q: seq<Pending>, ids: set<int>)
    requires forall id :: id !in ids ==> Entries(q, id) == []
    ensures Orphans(q, ids) == 0
  {
    if q != [] {
      assert q[0].job !in ids ==> Entries(q, q[0].job) == [];
      forall id | id !in ids ensures Entries(q[1..], id) == [] { assert Entries(q, id) == []; }
      NoOrphanSum(q[1..], ids);
    }
  }

  lemma {:induction false} EntriesOf(q: seq<Pending>, id: int)
    ensures forall p :: p in Entries(q, id) <==> p in q && p.origin == Local && p.job == id
  {
    if q != [] {
      EntriesOf(q[1..], id);
      assert q == [q[0]] + q[1..];
    }
  }

  lemma {:induction false} OrphansBound(q: seq<Pending>, ids: set<int>, total: int)
    requires forall i :: 0 <= i < |q| ==> EntryOk(q[i], total)
    ensures Orphans(q, ids) >= 0
  {
    if q != [] { OrphansBound(q[1..], ids, total); }
  }
}
