/** Every message handler keeps the counters, the queues and the job table in
    agreement, and keeps the capacity accounts. */
module Handlers {
  import opened Types
  import opened Allocator
  import opened Ledger
  import opened Cascade
  import CT = ConnTable

  ghost predicate Solvent(s: State, r: Res) {
    s.At(r).lent >= 0 && Use(s, r) <= s.At(r).total
  }

  /** The invariant of the agent between handlers. */
  ghost predicate Inv(s: State) {
    Good(s) && NoOrphans(s) && Settled(s) && forall r :: Solvent(s, r)
  }

  /** Conservation: counter + local grants + grants to peers == capacity. */
  ghost predicate Balanced(s: State, r: Res) {
    Use(s, r) == s.At(r).total
  }

  /** What a handler that creates no job does to the jobs it keeps and to the
      answers it owes. */
  ghost predicate Quiet(s: State, t: State) {
    && t.ip == s.ip && t.conns == s.conns && t.jobs.Keys <= s.jobs.Keys
    && (forall r :: t.At(r).total == s.At(r).total)
    && (forall id :: id in t.jobs ==> SameJob(s, t, id))
    && (forall k, id :: Owing(t, k, id) <= Owing(s, k, id))
    && (forall o: Out :: o.msg.Reserve? ==> multiset(t.log)[o] == multiset(s.log)[o])
  }

  ghost predicate SameUse(s: State, t: State) {
    forall r :: Use(t, r) == Use(s, r)
  }

  // ---------------------------------------------------------------- a job leaves the table

  lemma CloseUp(s: State, t: State, id: int)
    requires forall r :: Use(t, r) <= t.At(r).total && t.At(r).lent >= 0
    requires Good(t) && Settled(t)
    requires forall r, k :: k !in t.jobs ==> Entries(t.At(r).queue, k) == []
    ensures Inv(t)
  {
    forall r ensures Solvent(t, r) {}
  }

  /** Taking a job out of the table leaves its queue entries as the only orphans. */
  lemma TakeOut(s: State, id: int)
    requires Inv(s) && id in s.jobs
    ensures var t := s.(jobs := s.jobs - {id});
            && Good(t) && Settled(t) && Room(t, s.jobs[id].confirmed) && AllClean(t, s.jobs[id].confirmed)
            && (forall r :: Use(t, r) + Held(s.jobs[id].confirmed, r) == Use(s, r))
            && (forall r, k :: k !in t.jobs && k != id ==> Entries(t.At(r).queue, k) == [])
            && Quiet(s, t)
  {
    var j := s.jobs[id];
    var t := s.(jobs := s.jobs - {id});
    forall r ensures Use(t, r) + Held(j.confirmed, r) == Use(s, r) { SumRemove(s.jobs, id, r); }
    forall r ensures t.At(r).lent >= 0 && Use(t, r) + Held(j.confirmed, r) <= t.At(r).total { assert Solvent(s, r); }
    forall k | k in t.jobs ensures JobOk(t.jobs[k], k) { assert JobOk(s.jobs[k], k); }
    forall r ensures QueueOk(t.At(r)) { assert QueueOk(s.At(r)); }
    forall r, k ensures Matched(t, r, k) { assert Matched(s, r, k); }
    assert JobOk(j, id);
    forall r | Held(j.confirmed, r) > 0 ensures Clean(t, r) {
      HeldNotWanted(j.confirmed, id, j.conn, r);
      assert Matched(s, r, id);
      forall k | k !in t.jobs ensures Entries(t.At(r).queue, k) == [] {
        if k != id { assert Entries(s.At(r).queue, k) == []; }
      }
    }
    forall k | k in t.jobs ensures SameJob(s, t, k) {}
  }

  /** A job that holds a resource does not wait for it. */
  lemma {:induction false} HeldNotWanted(as_: seq<Alloc>, id: int, k: Conn, r: Res)
    requires AllocsOk(as_, id, k) && Held(as_, r) > 0
    ensures Wanted(as_, r) == []
  {
    if as_[0].kind == Local && as_[0].res == r {
      NoLocal(as_[1..], r);
    } else {
      HeldNotWanted(as_[1..], id, k, r);
    }
  }

  lemma CalmQuiet(s: State, t: State)
    requires Calm(s, t)
    ensures Quiet(s, t)
  {
  }

  lemma QuietTrans(s: State, t: State, u: State)
    requires Quiet(s, t) && Quiet(t, u)
    ensures Quiet(s, u)
  {
    forall id | id in u.jobs ensures SameJob(s, u, id) { assert SameJob(s, t, id) && SameJob(t, u, id); }
    forall k, id ensures Owing(u, k, id) <= Owing(s, k, id) { assert Owing(t, k, id) <= Owing(s, k, id); }
    forall o: Out | o.msg.Reserve? ensures multiset(u.log)[o] == multiset(s.log)[o] {
      assert multiset(t.log)[o] == multiset(s.log)[o];
    }
  }

  /** The shares were given back in full and the cascade was orderly. */
  ghost predicate Returned(s: State, t: State, as_: seq<Alloc>) {
    Good(t) && Calm(s, t) && (Settled(s) ==> Settled(t)) && forall r :: Use(t, r) == Use(s, r) + Held(as_, r)
  }

  /** After the shares of a removed job are freed and its entries purged. */
  lemma FreeThenPurge(s: State, t: State, id: int)
    requires Inv(s) && id in s.jobs
    requires Returned(s.(jobs := s.jobs - {id}), t, s.jobs[id].confirmed)
    ensures Inv(PurgeJob(t, id)) && Quiet(s, PurgeJob(t, id)) && SameUse(s, PurgeJob(t, id))
    ensures PurgeJob(t, id).jobs.Keys == s.jobs.Keys - {id}
  {
    var o := s.(jobs := s.jobs - {id});
    var u := PurgeJob(t, id);
    TakeOut(s, id);
    PurgeKeeps(t, id);
    PurgeAt(t, id);
    forall r ensures Use(u, r) == Use(s, r) && u.At(r).lent >= 0 {
      assert Use(t, r) == Use(o, r) + Held(s.jobs[id].confirmed, r);
      assert Solvent(s, r);
    }
    forall r, k | k !in u.jobs ensures Entries(u.At(r).queue, k) == [] {
      if k != id { assert Entries(o.At(r).queue, k) == []; }
    }
    forall r | u.At(r).queue != [] ensures u.At(r).avail < u.At(r).total {
      DroppedJob(t.At(r).queue, id);
      assert u.At(r).queue[0] in t.At(r).queue;
    }
    forall r ensures Use(u, r) <= u.At(r).total { assert Solvent(s, r); }
    CloseUp(s, u, id);
    CalmQuiet(o, t);
    CalmQuiet(t, u);
    QuietTrans(s, o, t);
    QuietTrans(s, t, u);
  }

  /** tabla_jobs_remove followed by limpiar_colas_por_id. */
  lemma RemoveKeeps(s: State, id: int)
    requires Inv(s)
    ensures var t := PurgeJob(RemoveJob(s, id), id);
            Inv(t) && Quiet(s, t) && SameUse(s, t) && t.jobs.Keys == s.jobs.Keys - {id}
  {
    if id in s.jobs {
      var o := s.(jobs := s.jobs - {id});
      TakeOut(s, id);
      assert JobOk(s.jobs[id], id);
      FreeAllKeeps(o, id, s.jobs[id].confirmed, s.jobs[id].conn);
      FreeThenPurge(s, RemoveJob(s, id), id);
    } else {
      PurgeOnly(s, id);
    }
  }

  lemma PurgeOnly(s: State, id: int)
    requires Inv(s) && id !in s.jobs
    ensures var t := PurgeJob(s, id); Inv(t) && Quiet(s, t) && SameUse(s, t) && t.jobs.Keys == s.jobs.Keys - {id}
  {
    var t := PurgeJob(s, id);
    PurgeKeeps(s, id);
    PurgeAt(s, id);
    CalmQuiet(s, t);
    forall r ensures Use(t, r) <= t.At(r).total && t.At(r).lent >= 0 { assert Solvent(s, r); }
    forall r, k | k !in t.jobs ensures Entries(t.At(r).queue, k) == [] { assert Entries(s.At(r).queue, k) == []; }
    forall r | t.At(r).queue != [] ensures t.At(r).avail < t.At(r).total {
      DroppedJob(s.At(r).queue, id);
      assert t.At(r).queue[0] in s.At(r).queue;
    }
    CloseUp(s, t, id);
  }

  // ---------------------------------------------------------------- JOB_RELEASE

  lemma PurgeSettled(s: State, id: int)
    requires Settled(s)
    ensures Settled(PurgeJob(s, id))
  {
    PurgeAt(s, id);
    forall r | PurgeJob(s, id).At(r).queue != [] ensures s.At(r).queue != [] {
      DroppedJob(s.At(r).queue, id);
      assert PurgeJob(s, id).At(r).queue[0] in s.At(r).queue;
    }
  }

  lemma ReturnOne(s: State, as_: seq<Alloc>, id: int, k: Conn)
    requires Good(s) && AllocsOk(as_, id, k) && Room(s, as_) && AllClean(s, as_) && as_ != [] && id !in s.jobs
    ensures Returned(s, ReturnAlloc(s, as_[0]), [as_[0]])
  {
    var a := as_[0];
    var t := if IsLocalGrant(a) then ReleaseRes(s, a.res, a.amount) else PurgeJob(s, a.job);
    var u := ReturnAlloc(s, a);
    assert AllocOk(a, id, k);
    assert [a][1..] == [];
    if IsLocalGrant(a) {
      FreeGrant(s, id, as_, k);
      assert t == FreeAlloc(s, id, a);
      HeldNonNeg(as_[1..], id, k, a.res);
      assert AllClean(s, [a]) by {
        forall r | Held([a], r) > 0 ensures Clean(s, r) { assert Held([a][1..], r) == 0; assert r == a.res; }
      }
    } else {
      PurgeKeeps(s, a.job);
      if Settled(s) { PurgeSettled(s, a.job); }
      assert forall r :: Held([a], r) == 0;
    }
    if a.kind == Remote {
      SendCalm(t, a.conn, Types.Release(a.job, a.res, a.amount));
      CalmTrans(s, t, u);
      forall r ensures Use(u, r) == Use(s, r) + Held([a], r) { assert Use(u, r) == Use(t, r); }
      if Settled(s) {
        forall r | u.At(r).queue != [] ensures u.At(r).avail < u.At(r).total { assert u.At(r) == t.At(r); }
      }
    }
  }

  lemma HeldFirst(as_: seq<Alloc>, r: Res)
    requires as_ != []
    ensures Held(as_, r) == Held([as_[0]], r) + Held(as_[1..], r)
  {
    assert [as_[0]][1..] == [];
  }

  /** What remains to be returned after the first share. */
  lemma ReturnedRest(s: State, t: State, as_: seq<Alloc>, id: int, k: Conn)
    requires AllocsOk(as_, id, k) && Room(s, as_) && AllClean(s, as_) && as_ != [] && Returned(s, t, [as_[0]])
    ensures Room(t, as_[1..]) && AllClean(t, as_[1..])
  {
    forall r ensures t.At(r).lent >= 0 && Use(t, r) + Held(as_[1..], r) <= t.At(r).total {
      HeldFirst(as_, r);
      assert s.At(r).lent >= 0 && Use(s, r) + Held(as_, r) <= s.At(r).total;
      assert Use(t, r) == Use(s, r) + Held([as_[0]], r);
    }
    forall r | Held(as_[1..], r) > 0 ensures Clean(t, r) {
      HeldFirst(as_, r);
      HeldNonNeg([as_[0]], id, k, r);
      CleanCalm(s, t, r);
    }
  }

  lemma {:induction false} ReturnAllKeeps(s: State, as_: seq<Alloc>, id: int, k: Conn)
    requires Good(s) && AllocsOk(as_, id, k) && Room(s, as_) && AllClean(s, as_) && id !in s.jobs
    ensures Returned(s, ReturnAll(s, as_), as_)
    decreases |as_|
  {
    if as_ != [] {
      var t := ReturnAlloc(s, as_[0]);
      var u := ReturnAll(s, as_);
      ReturnOne(s, as_, id, k);
      ReturnedRest(s, t, as_, id, k);
      ReturnAllKeeps(t, as_[1..], id, k);
      CalmTrans(s, t, u);
      forall r ensures Use(u, r) == Use(s, r) + Held(as_, r) {
        HeldFirst(as_, r);
        assert Use(u, r) == Use(t, r) + Held(as_[1..], r);
      }
    }
  }

  lemma JobReleaseKeeps(s: State, id: int)
    requires Inv(s)
    ensures var t := OnJobRelease(s, id);
            Inv(t) && Quiet(s, t) && SameUse(s, t) && t.jobs.Keys == s.jobs.Keys - {id}
  {
    if id in s.jobs {
      var o := s.(jobs := s.jobs - {id});
      TakeOut(s, id);
      assert JobOk(s.jobs[id], id);
      ReturnAllKeeps(o, s.jobs[id].confirmed, id, s.jobs[id].conn);
      FreeThenPurge(s, ReturnAll(o, s.jobs[id].confirmed), id);
    }
  }

  // ---------------------------------------------------------------- DENIED

  lemma DeniedKeeps(s: State, id: int)
    requires Inv(s)
    ensures var t := OnDenied(s, id);
            Inv(t) && Quiet(s, t) && SameUse(s, t) && t.jobs.Keys == s.jobs.Keys - {id}
  {
    if id in s.jobs {
      var o := s.(jobs := s.jobs - {id});
      var j := s.jobs[id];
      TakeOut(s, id);
      assert JobOk(j, id);
      FreeAllKeeps(o, id, j.confirmed, j.conn);
      var t := RemoveJob(s, id);
      var u := t.Send(j.conn, JobDenied(id));
      SendCalm(t, j.conn, JobDenied(id));
      CalmTrans(o, t, u);
      assert Returned(o, u, j.confirmed) by {
        forall r ensures Use(u, r) == Use(o, r) + Held(j.confirmed, r) { assert Use(u, r) == Use(t, r); }
        forall r ensures u.At(r) == t.At(r) {}
      }
      FreeThenPurge(s, u, id);
    } else {
      PurgeOnly(s, id);
    }
  }

  // ---------------------------------------------------------------- RELEASE

  lemma RepaidKeeps(s: State, r: Res, amount: int)
    requires Inv(s) && Accepts(s.At(r), amount) && amount <= s.At(r).lent
    ensures var t := Repaid(s, r, amount);
            && Good(t) && NoOrphans(t) && Settled(t) && Quiet(s, t) && t.jobs == s.jobs && Accepts(t.At(r), amount)
            && (forall x :: Use(t, x) + Only(x, r, amount) == Use(s, x)) && (forall x :: t.At(x).lent >= 0)
  {
    var t := Repaid(s, r, amount);
    forall x ensures t.At(x) == s.At(x).(lent := s.At(x).lent - Only(x, r, amount)) {}
    forall x ensures QueueOk(t.At(x)) && t.At(x).lent >= 0 { assert QueueOk(s.At(x)); assert Solvent(s, x); }
    forall x, id ensures Matched(t, x, id) { assert Matched(s, x, id); }
    forall x, id | id !in t.jobs ensures Entries(t.At(x).queue, id) == [] { assert Entries(s.At(x).queue, id) == []; }
    assert forall id :: id in s.jobs ==> SameJob(s, t, id);
    forall k, id ensures Owing(t, k, id) <= Owing(s, k, id) {
      match r { case Cpu => case Mem => case Gpu => }
    }
  }

  /** The capacity that a RELEASE brings back, before the job it names is removed. */
  ghost function TakenBack(s: State, r: Res, amount: int): State {
    if amount != 0 then ReleaseRes(Repaid(s, r, amount), r, amount) else s
  }

  lemma TakenBackKeeps(s: State, r: Res, amount: int)
    requires Inv(s) && amount <= s.At(r).lent
    ensures var m := TakenBack(s, r, amount); Inv(m) && Quiet(s, m) && SameUse(s, m) && m.jobs.Keys == s.jobs.Keys
  {
    var m := TakenBack(s, r, amount);
    if amount != 0 && Accepts(s.At(r), amount) {
      var o := Repaid(s, r, amount);
      RepaidKeeps(s, r, amount);
      ReleaseKeeps(o, r, amount);
      CalmQuiet(o, m);
      QuietTrans(s, o, m);
      assert Clean(o, r);
      forall x ensures Use(m, x) == Use(s, x) { ReleaseExact(o, r, amount, x); }
      forall x, k | k !in m.jobs ensures Entries(m.At(x).queue, k) == [] { assert Entries(o.At(x).queue, k) == []; }
      assert QueueOk(m.At(r));
      SettledAfter(o, m, r);
      forall x ensures Solvent(m, x) { assert Solvent(s, x); assert o.At(x).lent >= 0; }
    }
  }

  /** A peer's release that repays at most what is lent keeps everything. */
  lemma PeerReleaseKeeps(s: State, id: int, r: Res, amount: int)
    requires Inv(s) && amount <= s.At(r).lent
    ensures var t := OnRelease(s, id, r, amount);
            Inv(t) && Quiet(s, t) && SameUse(s, t) && t.jobs.Keys == s.jobs.Keys - {id}
  {
    var m := TakenBack(s, r, amount);
    TakenBackKeeps(s, r, amount);
    RemoveKeeps(m, id);
    QuietTrans(s, m, OnRelease(s, id, r, amount));
  }

  // ---------------------------------------------------------------- RESERVE

  /** The three outcomes of a RESERVE. */
  lemma ReserveCases(s: State, k: Conn, id: int, r: Res, amount: int)
    ensures var c := s.At(r); var t := OnReserve(s, k, id, r, amount);
            || (c.avail >= amount
                 && t == s.Put(r, c.(avail := c.avail - amount, lent := c.lent + amount)).Send(k, Granted(id)))
            || (c.avail < amount && c.total < amount && t == s.Send(k, Denied(id)))
            || (c.avail < amount <= c.total && t == s.Put(r, c.(queue := c.queue + [Pending(id, amount, k, Remote)])))
  {
  }

  lemma ReserveInv(s: State, k: Conn, id: int, r: Res, amount: int)
    requires Inv(s) && amount >= 0 && k.Peer?
    ensures Inv(OnReserve(s, k, id, r, amount)) && SameUse(s, OnReserve(s, k, id, r, amount))
  {
    var t := OnReserve(s, k, id, r, amount);
    var p := Pending(id, amount, k, Remote);
    ReserveCases(s, k, id, r, amount);
    ReserveFrame(s, k, id, r, amount);
    Appended(s.At(r).queue, p);
    assert QueueOk(s.At(r));
    assert t.At(r).queue == s.At(r).queue || (t.At(r).queue == s.At(r).queue + [p] && EntryOk(p, s.At(r).total));
    assert forall x :: x != r ==> t.At(x) == s.At(x);
    forall x ensures QueueOk(t.At(x)) { assert QueueOk(s.At(x)); }
    forall x ensures Solvent(t, x) && Use(t, x) == Use(s, x) { assert Solvent(s, x); }
    forall x, j ensures Matched(t, x, j) { assert Matched(s, x, j); }
    forall x, j | j !in t.jobs ensures Entries(t.At(x).queue, j) == [] { assert Entries(s.At(x).queue, j) == []; }
  }

  /** The only answer a RESERVE adds to what the peer is owed is its own. */
  lemma ReserveOwing(s: State, k: Conn, id: int, r: Res, amount: int, q: Conn, j: int)
    ensures Owing(OnReserve(s, k, id, r, amount), q, j) == Owing(s, q, j) + if q == k && j == id then 1 else 0
  {
    var t := OnReserve(s, k, id, r, amount);
    ReserveCases(s, k, id, r, amount);
    Appended(s.At(r).queue, Pending(id, amount, k, Remote));
    InQueuesWith(s.bank, r, t.At(r), q, j);
    if t.bank == s.bank {
    } else {
      assert t.bank == s.bank.With(r, t.At(r));
    }
  }

  lemma ReserveFrame(s: State, k: Conn, id: int, r: Res, amount: int)
    ensures var t := OnReserve(s, k, id, r, amount);
            && t.jobs == s.jobs && t.conns == s.conns && t.ip == s.ip
            && (forall x :: t.At(x).total == s.At(x).total)
  {
    ReserveCases(s, k, id, r, amount);
  }

  lemma ReserveLog(s: State, k: Conn, id: int, r: Res, amount: int, o: Out)
    requires o.msg.Reserve? || o.msg.JobGranted?
    ensures multiset(OnReserve(s, k, id, r, amount).log)[o] == multiset(s.log)[o]
  {
    ReserveCases(s, k, id, r, amount);
  }

  lemma ReserveKeeps(s: State, k: Conn, id: int, r: Res, amount: int)
    requires Inv(s) && amount >= 0 && k.Peer?
    ensures var t := OnReserve(s, k, id, r, amount);
            && Inv(t) && SameUse(s, t) && t.jobs == s.jobs && t.conns == s.conns && t.ip == s.ip
            && (forall x :: t.At(x).total == s.At(x).total)
            && (forall j :: j in s.jobs ==> SameJob(s, t, j))
            && (forall o: Out :: o.msg.Reserve? ==> multiset(t.log)[o] == multiset(s.log)[o])
  {
    var t := OnReserve(s, k, id, r, amount);
    ReserveInv(s, k, id, r, amount);
    ReserveFrame(s, k, id, r, amount);
    forall j | j in s.jobs ensures SameJob(s, t, j) {
      ReserveLog(s, k, id, r, amount, Out(s.jobs[j].conn, JobGranted(j)));
    }
    forall o: Out | o.msg.Reserve? ensures multiset(t.log)[o] == multiset(s.log)[o] {
      ReserveLog(s, k, id, r, amount, o);
    }
  }

  // ---------------------------------------------------------------- GRANTED

  lemma ConfirmOk(j: Job, id: int, i: nat)
    requires JobOk(j, id) && i < |j.pending|
    ensures JobOk(Confirm(j, i), id) && !Ready(j)
    ensures forall r :: Held(Confirm(j, i).confirmed, r) == Held(j.confirmed, r)
              && Wanted(Confirm(j, i).confirmed, r) == Wanted(j.confirmed, r)
  {
    var c := Confirm(j, i);
    assert c.confirmed[1..] == j.confirmed;
    forall x | 0 <= x < |c.confirmed| ensures AllocOk(c.confirmed[x], id, j.conn) {
      if x > 0 { assert c.confirmed[x] == j.confirmed[x-1]; }
    }
  }

  /** A GRANTED that confirms nothing sends at most the RELEASEs of an unknown job. */
  lemma GrantedVoid(s: State, k: Conn, id: int)
    requires var h := CT.HostOf(s.conns, k);
             h == None || id !in s.jobs || FindHost(s.jobs[id].pending, h.value) == |s.jobs[id].pending|
    ensures var t := OnGranted(s, k, id);
            && t == s.(log := t.log)
            && forall o: Out :: !o.msg.Release? ==> multiset(t.log)[o] == multiset(s.log)[o]
  {
  }

  /** The state after the i-th request of a job was confirmed. */
  ghost function ConfirmAt(s: State, id: int, i: nat): State
    requires id in s.jobs && i < |s.jobs[id].pending|
  {
    var j := Confirm(s.jobs[id], i);
    var t := s.(jobs := s.jobs[id := j]);
    if Ready(j) then t.Send(s.jobs[id].conn, JobGranted(id)) else t
  }

  /** The shape of a GRANTED: at most one job changes, by one confirmation. */
  ghost predicate GrantShape(s: State, t: State, id: int) {
    && t.bank == s.bank && t.conns == s.conns && t.ip == s.ip
    && (forall o: Out :: !o.msg.Release? && !o.msg.JobGranted? ==> multiset(t.log)[o] == multiset(s.log)[o])
    && (|| (t.jobs == s.jobs && forall o: Out :: o.msg.JobGranted? ==> multiset(t.log)[o] == multiset(s.log)[o])
        || ConfirmsOne(s, t, id))
  }

  ghost predicate ConfirmsOne(s: State, t: State, id: int) {
    id in s.jobs && exists i :: 0 <= i < |s.jobs[id].pending| && t == ConfirmAt(s, id, i)
  }

  lemma GrantedCases(s: State, k: Conn, id: int)
    ensures GrantShape(s, OnGranted(s, k, id), id)
  {
    var h := CT.HostOf(s.conns, k);
    if h == None || id !in s.jobs || FindHost(s.jobs[id].pending, h.value) == |s.jobs[id].pending| {
      GrantedVoid(s, k, id);
    } else {
      var i := FindHost(s.jobs[id].pending, h.value);
      assert OnGranted(s, k, id) == ConfirmAt(s, id, i);
    }
  }

  /** The same queues and counters, and jobs that hold and want the same. */
  lemma SameHoldings(s: State, t: State)
    requires Inv(s) && t.bank == s.bank && t.jobs.Keys == s.jobs.Keys
    requires forall id :: id in s.jobs ==> JobOk(t.jobs[id], id)
    requires forall id, r :: id in s.jobs ==>
               Held(t.jobs[id].confirmed, r) == Held(s.jobs[id].confirmed, r)
                   && Wanted(t.jobs[id].confirmed, r) == Wanted(s.jobs[id].confirmed, r)
    ensures Inv(t) && SameUse(s, t)
  {
    forall r ensures t.At(r) == s.At(r) {}
    forall r ensures Use(t, r) == Use(s, r) { SumSame(s.jobs.Keys, s.jobs, t.jobs, r); }
    forall r ensures QueueOk(t.At(r)) && Solvent(t, r) { assert QueueOk(s.At(r)) && Solvent(s, r); }
    forall r, x ensures Matched(t, r, x) { assert Matched(s, r, x); }
    forall r, x | x !in t.jobs ensures Entries(t.At(r).queue, x) == [] { assert Entries(s.At(r).queue, x) == []; }
  }

  lemma ConfirmInv(s: State, id: int, i: nat)
    requires Inv(s) && id in s.jobs && i < |s.jobs[id].pending|
    ensures var t := ConfirmAt(s, id, i); Inv(t) && SameUse(s, t) && t.jobs.Keys == s.jobs.Keys
  {
    var t := ConfirmAt(s, id, i);
    assert JobOk(s.jobs[id], id);
    ConfirmOk(s.jobs[id], id, i);
    forall x, r | x in s.jobs
      ensures JobOk(t.jobs[x], x) && Held(t.jobs[x].confirmed, r) == Held(s.jobs[x].confirmed, r)
      ensures Wanted(t.jobs[x].confirmed, r) == Wanted(s.jobs[x].confirmed, r)
    {
      assert JobOk(s.jobs[x], x);
    }
    assert forall x :: x in s.jobs
             ==> JobOk(t.jobs[x], x) && Held(t.jobs[x].confirmed, Cpu) == Held(s.jobs[x].confirmed, Cpu);
    SameHoldings(s, t);
  }

  lemma GrantInv(s: State, t: State, id: int)
    requires Inv(s) && GrantShape(s, t, id)
    ensures Inv(t) && SameUse(s, t) && t.jobs.Keys == s.jobs.Keys
  {
    if ConfirmsOne(s, t, id) {
      var i :| 0 <= i < |s.jobs[id].pending| && t == ConfirmAt(s, id, i);
      ConfirmInv(s, id, i);
    } else {
      forall x | x in s.jobs ensures JobOk(t.jobs[x], x) { assert JobOk(s.jobs[x], x); }
      SameHoldings(s, t);
    }
  }

  /** Its own job is announced exactly when the confirmation completes it. */
  lemma ConfirmPhi(s: State, id: int, i: nat, j: int)
    requires id in s.jobs && JobOk(s.jobs[id], id) && i < |s.jobs[id].pending| && j in s.jobs
    ensures var t := ConfirmAt(s, id, i); j in t.jobs && t.jobs[j].conn == s.jobs[j].conn && Phi(t, j) == Phi(s, j)
  {
    ConfirmOk(s.jobs[id], id, i);
    var t := ConfirmAt(s, id, i);
    var o, a := Out(s.jobs[j].conn, JobGranted(j)), Out(s.jobs[id].conn, JobGranted(id));
    assert multiset(t.log)[o] == multiset(s.log)[o] + if Ready(Confirm(s.jobs[id], i)) && o == a then 1 else 0;
  }

  lemma GrantPhi(s: State, t: State, id: int, j: int)
    requires Inv(s) && GrantShape(s, t, id) && j in s.jobs
    ensures j in t.jobs && t.jobs[j].conn == s.jobs[j].conn && Phi(t, j) == Phi(s, j)
  {
    if ConfirmsOne(s, t, id) {
      var i :| 0 <= i < |s.jobs[id].pending| && t == ConfirmAt(s, id, i);
      assert JobOk(s.jobs[id], id);
      ConfirmPhi(s, id, i, j);
    }
  }

  /** What the answer of a peer does to the jobs and to the messages. */
  ghost predicate GrantKept(s: State, t: State) {
    && Inv(t) && SameUse(s, t) && t.jobs.Keys == s.jobs.Keys && t.bank == s.bank && t.conns == s.conns && t.ip == s.ip
    && (forall j :: j in s.jobs ==> t.jobs[j].conn == s.jobs[j].conn && Phi(t, j) == Phi(s, j))
    && (forall c, j :: Owing(t, c, j) == Owing(s, c, j))
    && (forall o: Out :: o.msg.Reserve? ==> multiset(t.log)[o] == multiset(s.log)[o])
  }

  lemma GrantKeeps(s: State, t: State, id: int)
    requires Inv(s) && GrantShape(s, t, id)
    ensures GrantKept(s, t)
  {
    GrantInv(s, t, id);
    forall j | j in s.jobs ensures t.jobs[j].conn == s.jobs[j].conn && Phi(t, j) == Phi(s, j) { GrantPhi(s, t, id, j); }
  }

  /** A GRANTED keeps everything but one job's list of requests, and announces that
      job exactly when it completes it. */
  lemma GrantedKeeps(s: State, k: Conn, id: int)
    requires Inv(s)
    ensures GrantKept(s, OnGranted(s, k, id))
  {
    GrantedCases(s, k, id);
    GrantKeeps(s, OnGranted(s, k, id), id);
  }
}
