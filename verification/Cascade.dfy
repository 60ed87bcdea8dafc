/** What one grant, a whole drain, a release and a purge do to the accounts. */
module Cascade {
  import opened Types
  import opened Allocator
  import opened Ledger

  /** The job a popped entry belongs to, if it is a local one of the table. */
  ghost predicate Serves(s: State, p: Pending) { p.origin == Local && p.job in s.jobs }

  /** The queue entry of a local job of the table is its only wait for the resource. */
  lemma HeadIsWait(s: State, r: Res)
    requires Good(s) && CanPop(s.At(r)) && Serves(s, s.At(r).queue[0])
    ensures var p := s.At(r).queue[0]; Wanted(s.jobs[p.job].confirmed, r) == [p] && p.owner == s.jobs[p.job].conn
    ensures Entries(s.At(r).queue[1..], s.At(r).queue[0].job) == []
  {
    var q := s.At(r).queue;
    var p := q[0];
    var j := s.jobs[p.job];
    assert Matched(s, r, p.job) && JobOk(j, p.job);
    MarkFacts(j.confirmed, p.job, j.conn, r);
    assert Entries(q, p.job) == [p] + Entries(q[1..], p.job);
    WantedOwner(j.confirmed, p.job, j.conn, r);
    assert p in Wanted(j.confirmed, r);
  }

  lemma {:induction false} WantedOwner(as_: seq<Alloc>, id: int, k: Conn, r: Res)
    requires AllocsOk(as_, id, k)
    ensures forall p :: p in Wanted(as_, r) ==> p.owner == k && p.job == id && p.origin == Local
  {
    if as_ != [] { WantedOwner(as_[1..], id, k, r); }
  }

  /** The table changes only in the job served, and only by its mark. */
  lemma PopJobs(s: State, r: Res)
    requires Good(s) && CanPop(s.At(r))
    ensures var p := s.At(r).queue[0];
            Pop(s, r).jobs
            == if Serves(s, p)
               then s.jobs[p.job := s.jobs[p.job].(confirmed := Mark(s.jobs[p.job].confirmed, s.jobs[p.job].conn, r))]
               else s.jobs
  {
    var p := s.At(r).queue[0];
    if Serves(s, p) {
      HeadIsWait(s, r);
    } else if p.job in s.jobs {
      var j := s.jobs[p.job];
      assert JobOk(j, p.job) && EntryOk(p, s.At(r).total);
      MarkOther(j.confirmed, p.job, j.conn, p.owner, r);
      assert s.jobs[p.job := j] == s.jobs;
    }
  }

  lemma PopGood(s: State, r: Res)
    requires Good(s) && CanPop(s.At(r))
    ensures Good(Pop(s, r))
    ensures Pop(s, r).jobs.Keys == s.jobs.Keys
  {
    var t := Pop(s, r);
    var q := s.At(r).queue;
    var p := q[0];
    PopJobs(s, r);
    forall id | id in t.jobs ensures JobOk(t.jobs[id], id) {
      assert JobOk(s.jobs[id], id);
      if Serves(s, p) && id == p.job { MarkShape(s.jobs[id].confirmed, id, s.jobs[id].conn, r); }
    }
    assert QueueOk(s.At(r));
    forall x ensures QueueOk(t.At(x)) { assert QueueOk(s.At(x)); }
    forall x, id ensures Matched(t, x, id) {
      assert Matched(s, x, id);
      if id in s.jobs {
        var j := s.jobs[id];
        assert JobOk(j, id);
        if Serves(s, p) && id == p.job {
          HeadIsWait(s, r);
          if x == r { MarkFacts(j.confirmed, id, j.conn, r); } else { MarkElse(j.confirmed, j.conn, r, x); }
        }
      }
    }
  }

  /** What a grant adds to the holdings of the job it serves. */
  lemma PopHeld(s: State, r: Res, x: Res)
    requires Good(s) && CanPop(s.At(r))
    ensures var p := s.At(r).queue[0];
            SumHeld(Pop(s, r).jobs, x) == SumHeld(s.jobs, x) + if Serves(s, p) && x == r then p.amount else 0
  {
    var p := s.At(r).queue[0];
    PopJobs(s, r);
    if Serves(s, p) {
      var j := s.jobs[p.job];
      SumSet(s.jobs, p.job, j.(confirmed := Mark(j.confirmed, j.conn, r)), x);
      HeadIsWait(s, r);
      assert JobOk(j, p.job);
      if x == r {
        MarkFacts(j.confirmed, p.job, j.conn, r);
        assert Total([p]) == p.amount + Total([p][1..]);
      } else {
        MarkElse(j.confirmed, j.conn, r, x);
      }
    }
  }

  /** A grant moves capacity from the counter to its holder and from no one else. */
  lemma PopBook(s: State, r: Res, x: Res)
    requires Good(s) && CanPop(s.At(r))
    ensures Book(Pop(s, r), x) == Book(s, x)
  {
    PopHeld(s, r, x);
    PopGood(s, r);
  }

  /** A job is announced by the grant that completes it, and by no other. */
  lemma PopSame(s: State, r: Res, id: int)
    requires Good(s) && CanPop(s.At(r)) && id in s.jobs
    ensures id in Pop(s, r).jobs && SameJob(s, Pop(s, r), id)
    ensures Remotes(Pop(s, r).jobs[id].confirmed) == Remotes(s.jobs[id].confirmed)
  {
    MarkRemotes(s.jobs[id].confirmed, s.jobs[id].conn, r);
    var p := s.At(r).queue[0];
    PopJobs(s, r);
    if Serves(s, p) && p.job == id {
      HeadIsWait(s, r);
      WaitFree(s.jobs[id].confirmed);
      assert Wanted(s.jobs[id].confirmed, r) != [];
    }
  }

  lemma PopOwing(s: State, r: Res, k: Conn, id: int)
    requires CanPop(s.At(r))
    ensures Owing(Pop(s, r), k, id) <= Owing(s, k, id)
  {
    var t := Pop(s, r);
    var p := s.At(r).queue[0];
    var mine := if p.origin == Remote && p.owner == k && p.job == id then 1 else 0;
    assert Waiting(s.At(r).queue, k, id) == Waiting(t.At(r).queue, k, id) + mine;
    assert multiset(t.log)[Out(k, Granted(id))] == multiset(s.log)[Out(k, Granted(id))] + mine;
    assert multiset(t.log)[Out(k, Denied(id))] == multiset(s.log)[Out(k, Denied(id))];
    InQueuesWith(s.bank, r, t.At(r), k, id);
    assert t.bank == s.bank.With(r, t.At(r));
  }

  lemma PopQueues(s: State, r: Res, x: Res)
    requires CanPop(s.At(r)) && QueueOk(s.At(r))
    ensures var c := Pop(s, r).At(x); var d := s.At(x);
            && c.total == d.total && c.lent >= d.lent
            && c.queue == if x == r then d.queue[1..] else d.queue
  {
    assert EntryOk(s.At(r).queue[0], s.At(r).total);
  }

  lemma PopLog(s: State, r: Res, o: Out)
    requires CanPop(s.At(r)) && o.msg.Reserve?
    ensures multiset(Pop(s, r).log)[o] == multiset(s.log)[o]
  {
  }

  lemma PopCalm(s: State, r: Res)
    requires Good(s) && CanPop(s.At(r))
    ensures Calm(s, Pop(s, r))
  {
    var t := Pop(s, r);
    PopGood(s, r);
    assert t.ip == s.ip && t.conns == s.conns;
    assert QueueOk(s.At(r));
    forall x ensures t.At(x).total == s.At(x).total && t.At(x).lent >= s.At(x).lent { PopQueues(s, r, x); }
    forall id | id in s.jobs
      ensures SameJob(s, t, id) && Remotes(t.jobs[id].confirmed) == Remotes(s.jobs[id].confirmed)
    {
      PopSame(s, r, id);
    }
    forall k, id ensures Owing(t, k, id) <= Owing(s, k, id) { PopOwing(s, r, k, id); }
    forall x, id | Entries(s.At(x).queue, id) == [] ensures Entries(t.At(x).queue, id) == [] { PopQueues(s, r, x); }
    forall x, p | p in t.At(x).queue ensures p in s.At(x).queue { PopQueues(s, r, x); }
    forall o: Out | o.msg.Reserve? ensures multiset(t.log)[o] == multiset(s.log)[o] { PopLog(s, r, o); }
  }

  /** A grant to a job that has left the table is lost; any other keeps the sum. */
  lemma PopUse(s: State, r: Res, x: Res)
    requires Good(s) && CanPop(s.At(r))
    ensures Use(Pop(s, r), x) <= Use(s, x)
    ensures x != r ==> Pop(s, r).At(x) == s.At(x)
  {
    PopBook(s, r, x);
    PopGood(s, r);
    assert QueueOk(s.At(r)) && EntryOk(s.At(r).queue[0], s.At(r).total);
    PopQueues(s, r, x);
  }

  lemma {:induction false} DrainKeeps(s: State, r: Res)
    requires Good(s)
    ensures Good(Drain(s, r)) && Calm(s, Drain(s, r)) && !CanPop(Drain(s, r).At(r))
    ensures forall x :: Book(Drain(s, r), x) == Book(s, x) && Use(Drain(s, r), x) <= Use(s, x)
    ensures forall x :: x != r ==> Drain(s, r).At(x) == s.At(x)
    decreases |s.At(r).queue|
  {
    if CanPop(s.At(r)) {
      var t := Pop(s, r);
      PopGood(s, r);
      PopCalm(s, r);
      DrainKeeps(t, r);
      CalmTrans(s, t, Drain(s, r));
      forall x
        ensures Book(Drain(s, r), x) == Book(s, x) && Use(Drain(s, r), x) <= Use(s, x)
        ensures x != r ==> Drain(s, r).At(x) == s.At(x)
      {
        PopBook(s, r, x);
        PopUse(s, r, x);
        assert Book(Drain(t, r), x) == Book(t, x);
      }
    }
  }

  /** The accounts of a resource grew by an amount, less what went to absent jobs. */
  ghost predicate Grew(s: State, t: State, r: Res, amount: int) {
    Book(t, r) == Book(s, r) + amount && Use(t, r) <= Use(s, r) + amount
  }

  ghost function Only(x: Res, r: Res, amount: int): int { if x == r then amount else 0 }

  lemma GiveKeeps(s: State, r: Res, amount: int)
    requires Good(s) && Accepts(s.At(r), amount)
    ensures Good(Give(s, r, amount)) && Calm(s, Give(s, r, amount))
    ensures forall x :: Grew(s, Give(s, r, amount), x, Only(x, r, amount))
    ensures forall x :: x != r ==> Give(s, r, amount).At(x) == s.At(x)
  {
    var t := Give(s, r, amount);
    forall x ensures t.At(x).queue == s.At(x).queue && t.At(x).lent == s.At(x).lent && t.At(x).total == s.At(x).total {}
    forall x ensures QueueOk(t.At(x)) { assert QueueOk(s.At(x)); }
    forall x, id ensures Matched(t, x, id) { assert Matched(s, x, id); }
  }

  /** An accepted release adds its amount to the accounts and nothing else. */
  lemma ReleaseKeeps(s: State, r: Res, amount: int)
    requires Good(s) && Accepts(s.At(r), amount)
    ensures var t := ReleaseRes(s, r, amount);
            && Good(t) && Calm(s, t) && !CanPop(t.At(r))
            && (forall x :: Grew(s, t, x, Only(x, r, amount)))
            && (forall x :: x != r ==> t.At(x) == s.At(x))
  {
    var g := Give(s, r, amount);
    var t := ReleaseRes(s, r, amount);
    assert t == Drain(g, r);
    GiveKeeps(s, r, amount);
    DrainKeeps(g, r);
    CalmTrans(s, g, t);
    forall x ensures Grew(s, t, x, Only(x, r, amount)) {
      assert Grew(s, g, x, Only(x, r, amount));
      assert Book(t, x) == Book(g, x) && Use(t, x) <= Use(g, x);
    }
    forall x | x != r ensures t.At(x) == s.At(x) { assert g.At(x) == s.At(x); }
  }

  lemma PurgeAt(s: State, id: int)
    ensures forall r :: PurgeJob(s, id).At(r) == PurgeJobIn(s.At(r), id)
  {
  }

  /** Purging a job that is not in the table only forgets entries. */
  lemma PurgeKeeps(s: State, id: int)
    requires Good(s) && id !in s.jobs
    ensures Good(PurgeJob(s, id)) && Calm(s, PurgeJob(s, id))
    ensures forall r, k :: Entries(PurgeJob(s, id).At(r).queue, k) == if k == id then [] else Entries(s.At(r).queue, k)
    ensures forall r :: Use(PurgeJob(s, id), r) == Use(s, r)
  {
    var t := PurgeJob(s, id);
    PurgeAt(s, id);
    forall r ensures QueueOk(t.At(r)) {
      DroppedJob(s.At(r).queue, id);
      assert QueueOk(s.At(r));
      forall i | 0 <= i < |t.At(r).queue| ensures EntryOk(t.At(r).queue[i], t.At(r).total) {
        assert t.At(r).queue[i] in s.At(r).queue;
      }
    }
    forall r, k ensures Entries(t.At(r).queue, k) == if k == id then [] else Entries(s.At(r).queue, k) {
      DroppedJob(s.At(r).queue, id);
    }
    forall r, k ensures Matched(t, r, k) { assert Matched(s, r, k); }
    DroppedJob(s.bank.cpu.queue, id);
    DroppedJob(s.bank.mem.queue, id);
    DroppedJob(s.bank.gpu.queue, id);
    forall r, p | p in t.At(r).queue ensures p in s.At(r).queue { DroppedJob(s.At(r).queue, id); }
  }

  // ---------------------------------------------------------------- freeing a job's shares

  /** No queue of the resource mentions a job that has left the table. */
  ghost predicate Clean(s: State, r: Res) {
    forall id :: id !in s.jobs ==> Entries(s.At(r).queue, id) == []
  }

  /** Nobody waits for a resource that is entirely free. */
  ghost predicate Settled(s: State) {
    forall r :: s.At(r).queue != [] ==> s.At(r).avail < s.At(r).total
  }

  /** The accounts leave room for releasing what the allocations hold. */
  ghost predicate Room(s: State, as_: seq<Alloc>) {
    forall r :: s.At(r).lent >= 0 && Use(s, r) + Held(as_, r) <= s.At(r).total
  }

  lemma CleanCalm(s: State, t: State, r: Res)
    requires Calm(s, t) && Clean(s, r)
    ensures Clean(t, r)
  {
    forall id | id !in t.jobs ensures Entries(t.At(r).queue, id) == [] {
      assert Entries(s.At(r).queue, id) == [];
    }
  }

  /** With no orphan in the queue, releasing returns exactly what was held. */
  lemma ReleaseExact(s: State, r: Res, amount: int, x: Res)
    requires Good(s) && Accepts(s.At(r), amount) && Clean(s, r)
    ensures Use(ReleaseRes(s, r, amount), x) == Use(s, x) + Only(x, r, amount)
  {
    ReleaseKeeps(s, r, amount);
    var t := ReleaseRes(s, r, amount);
    assert Grew(s, t, x, Only(x, r, amount));
    if x == r {
      CleanCalm(s, t, r);
      NoOrphanSum(s.At(r).queue, s.jobs.Keys);
      NoOrphanSum(t.At(r).queue, t.jobs.Keys);
    }
  }

  lemma SendCalm(s: State, k: Conn, m: Msg)
    requires Good(s) && (m.Release? || m.JobDenied?)
    ensures Good(s.Send(k, m)) && Calm(s, s.Send(k, m))
    ensures forall r :: Grew(s, s.Send(k, m), r, 0) && Use(s.Send(k, m), r) == Use(s, r)
              && s.Send(k, m).At(r) == s.At(r)
  {
    var t := s.Send(k, m);
    forall r ensures QueueOk(t.At(r)) { assert QueueOk(s.At(r)); }
    forall r, id ensures Matched(t, r, id) { assert Matched(s, r, id); }
  }

  /** A local grant that was accounted for is always taken back. */
  lemma GrantAccepted(s: State, as_: seq<Alloc>, id: int, k: Conn)
    requires Good(s) && AllocsOk(as_, id, k) && Room(s, as_) && as_ != [] && IsLocalGrant(as_[0])
    ensures Accepts(s.At(as_[0].res), as_[0].amount)
  {
    var r := as_[0].res;
    SumNonNeg(s.jobs.Keys, s.jobs, r);
    HeldNonNeg(as_[1..], id, k, r);
  }

  ghost predicate AllClean(s: State, as_: seq<Alloc>) {
    forall r :: Held(as_, r) > 0 ==> Clean(s, r)
  }

  /** What freeing a list of shares guarantees. */
  ghost predicate Freed(s: State, t: State, as_: seq<Alloc>) {
    && Good(t) && Calm(s, t) && (Settled(s) ==> Settled(t))
    && (forall r :: Grew(s, t, r, Held(as_, r)))
    && (AllClean(s, as_) ==> forall r :: Use(t, r) == Use(s, r) + Held(as_, r))
  }

  lemma SettledAfter(s: State, t: State, r: Res)
    requires Settled(s) && QueueOk(t.At(r)) && !CanPop(t.At(r))
    requires forall x :: x != r ==> t.At(x) == s.At(x)
    ensures Settled(t)
  {
    forall x | t.At(x).queue != [] ensures t.At(x).avail < t.At(x).total {
      if x == r { assert EntryOk(t.At(r).queue[0], t.At(r).total); }
    }
  }

  lemma FreeGrant(s: State, id: int, as_: seq<Alloc>, k: Conn)
    requires Good(s) && AllocsOk(as_, id, k) && Room(s, as_) && as_ != [] && IsLocalGrant(as_[0])
    ensures Freed(s, FreeAlloc(s, id, as_[0]), [as_[0]])
  {
    var a := as_[0];
    var t := FreeAlloc(s, id, a);
    GrantAccepted(s, as_, id, k);
    ReleaseKeeps(s, a.res, a.amount);
    assert t == ReleaseRes(s, a.res, a.amount);
    assert [a][1..] == [];
    forall r ensures Grew(s, t, r, Held([a], r)) && Held([a], r) == Only(r, a.res, a.amount) {
      assert Grew(s, t, r, Only(r, a.res, a.amount));
    }
    assert AllocOk(a, id, k);
    if Settled(s) {
      assert QueueOk(t.At(a.res));
      SettledAfter(s, t, a.res);
    }
    if AllClean(s, [a]) {
      assert Held([a], a.res) > 0;
      forall r ensures Use(t, r) == Use(s, r) + Held([a], r) { ReleaseExact(s, a.res, a.amount, r); }
    }
  }

  lemma FreeOther(s: State, id: int, a: Alloc)
    requires Good(s) && !IsLocalGrant(a)
    ensures Freed(s, FreeAlloc(s, id, a), [a])
  {
    var t := FreeAlloc(s, id, a);
    assert [a][1..] == [];
    assert forall r :: Held([a], r) == 0;
    if t != s { SendCalm(s, t.log[|t.log|-1].to, Types.Release(id, a.res, a.amount)); }
  }

  lemma {:induction false} FreeAllKeeps(s: State, id: int, as_: seq<Alloc>, k: Conn)
    requires Good(s) && AllocsOk(as_, id, k) && Room(s, as_)
    ensures Freed(s, FreeAll(s, id, as_), as_)
    decreases |as_|
  {
    if as_ != [] {
      var t := FreeAlloc(s, id, as_[0]);
      var u := FreeAll(s, id, as_);
      if IsLocalGrant(as_[0]) { FreeGrant(s, id, as_, k); } else { FreeOther(s, id, as_[0]); }
      assert [as_[0]][1..] == [];
      assert forall r :: Held(as_, r) == Held([as_[0]], r) + Held(as_[1..], r);
      assert Room(t, as_[1..]) by {
        forall r ensures t.At(r).lent >= 0 { assert s.At(r).lent >= 0; }
        assert forall r :: Grew(s, t, r, Held([as_[0]], r));
      }
      FreeAllKeeps(t, id, as_[1..], k);
      FreedTrans(s, t, u, as_, id, k);
    }
  }

  lemma FreedTrans(s: State, t: State, u: State, as_: seq<Alloc>, id: int, k: Conn)
    requires AllocsOk(as_, id, k) && as_ != []
    requires Freed(s, t, [as_[0]]) && Freed(t, u, as_[1..])
    ensures Freed(s, u, as_)
  {
    assert [as_[0]][1..] == [];
    assert forall r :: Held(as_, r) == Held([as_[0]], r) + Held(as_[1..], r);
    CalmTrans(s, t, u);
    forall r ensures Grew(s, u, r, Held(as_, r)) {
      assert Grew(s, t, r, Held([as_[0]], r)) && Grew(t, u, r, Held(as_[1..], r));
    }
    if AllClean(s, as_) {
      forall r ensures Held([as_[0]], r) >= 0 && Held(as_[1..], r) >= 0 {
        HeldNonNeg([as_[0]], id, k, r);
        HeldNonNeg(as_[1..], id, k, r);
      }
      assert AllClean(s, [as_[0]]);
      forall r | Held(as_[1..], r) > 0 ensures Clean(t, r) { assert Clean(s, r); CleanCalm(s, t, r); }
      forall r ensures Use(u, r) == Use(s, r) + Held(as_, r) { assert Use(t, r) == Use(s, r) + Held([as_[0]], r); }
    }
  }
}
