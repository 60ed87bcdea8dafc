/** Losing a connection: which jobs go, what is given back, what is lost. */
module Disconnects {
  import opened Types
  import opened Allocator
  import opened Ledger
  import opened Cascade
  import opened Handlers
  import opened Greedy
  import CT = ConnTable

  // ---------------------------------------------------------------- one victim on one resource

  lemma FreeAside(s: State, id: int, a: Alloc, r: Res)
    requires IsLocalGrant(a) ==> a.res != r
    ensures FreeAlloc(s, id, a).At(r) == s.At(r)
  {
    if IsLocalGrant(a) && Accepts(s.At(a.res), a.amount) { ReleaseTakesPrefix(s, a.res, a.amount); }
  }

  lemma {:induction false} FreeElse(s: State, id: int, as_: seq<Alloc>, r: Res)
    requires forall i :: 0 <= i < |as_| && IsLocalGrant(as_[i]) ==> as_[i].res != r
    ensures FreeAll(s, id, as_).At(r) == s.At(r)
    decreases |as_|
  {
    if as_ != [] {
      FreeAside(s, id, as_[0], r);
      FreeElse(FreeAlloc(s, id, as_[0]), id, as_[1..], r);
    }
  }

  /** A held amount is a single local grant. */
  lemma {:induction false} OneGrant(as_: seq<Alloc>, id: int, k: Conn, r: Res)
    requires AllocsOk(as_, id, k)
    ensures Held(as_, r) == 0 ==> forall i :: 0 <= i < |as_| && IsLocalGrant(as_[i]) ==> as_[i].res != r
    ensures as_ != [] && IsLocalGrant(as_[0]) && as_[0].res == r ==>
              Held(as_, r) == as_[0].amount && forall i :: 0 < i < |as_| && IsLocalGrant(as_[i]) ==> as_[i].res != r
  {
    if as_ != [] {
      OneGrant(as_[1..], id, k, r);
      HeldNonNeg(as_[1..], id, k, r);
      assert AllocOk(as_[0], id, k);
      if IsLocalGrant(as_[0]) && as_[0].res == r { NoLocal(as_[1..], r); }
      assert forall i :: 0 < i < |as_| ==> as_[i] == as_[1..][i-1];
    }
  }

  /** A resource after one release of the amount, if there was any. */
  ghost predicate GaveBack(c: Resource, d: Resource, h: int) {
    if h == 0 then d == c else Took(c.(avail := c.avail + h), d, Fit(c.queue, c.avail + h))
  }

  lemma ReleaseTakesPrefix(s: State, r: Res, amount: int)
    requires Accepts(s.At(r), amount)
    ensures Took(s.At(r).(avail := s.At(r).avail + amount), ReleaseRes(s, r, amount).At(r),
            Fit(s.At(r).queue, s.At(r).avail + amount))
    ensures forall x :: x != r ==> ReleaseRes(s, r, amount).At(x) == s.At(x)
  {
    var g := Give(s, r, amount);
    assert g.At(r) == s.At(r).(avail := s.At(r).avail + amount);
    DrainTakesPrefix(g, r);
    forall x | x != r ensures ReleaseRes(s, r, amount).At(x) == s.At(x) { assert g.At(x) == s.At(x); }
  }

  lemma RoomLeft(s: State, id: int, as_: seq<Alloc>, k: Conn)
    requires Good(s) && AllocsOk(as_, id, k) && Room(s, as_) && as_ != []
    ensures Good(FreeAlloc(s, id, as_[0])) && Room(FreeAlloc(s, id, as_[0]), as_[1..])
  {
    var a := as_[0];
    var t := FreeAlloc(s, id, a);
    assert [a][1..] == [];
    if IsLocalGrant(a) { FreeGrant(s, id, as_, k); } else { FreeOther(s, id, a); }
    forall x ensures t.At(x).lent >= 0 && Use(t, x) + Held(as_[1..], x) <= t.At(x).total {
      assert s.At(x).lent >= 0;
      assert Grew(s, t, x, Held([a], x));
      assert Held(as_, x) == Held([a], x) + Held(as_[1..], x);
    }
  }

  /** Freeing the shares of a job releases each resource once, by what it held. */
  lemma {:induction false} FreeTakesPrefix(s: State, id: int, as_: seq<Alloc>, k: Conn, r: Res)
    requires Good(s) && AllocsOk(as_, id, k) && Room(s, as_)
    ensures GaveBack(s.At(r), FreeAll(s, id, as_).At(r), Held(as_, r))
    decreases |as_|
  {
    OneGrant(as_, id, k, r);
    if Held(as_, r) == 0 {
      FreeElse(s, id, as_, r);
    } else {
      var a := as_[0];
      var t := FreeAlloc(s, id, a);
      if IsLocalGrant(a) {
        GrantAccepted(s, as_, id, k);
        ReleaseTakesPrefix(s, a.res, a.amount);
      }
      if IsLocalGrant(a) && a.res == r {
        assert forall i :: 0 <= i < |as_[1..]| ==> as_[1..][i] == as_[i+1];
        FreeElse(t, id, as_[1..], r);
      } else {
        RoomLeft(s, id, as_, k);
        assert t.At(r) == s.At(r);
        FreeTakesPrefix(t, id, as_[1..], k, r);
      }
    }
  }

  lemma {:induction false} OrphansSplit(a: seq<Pending>, b: seq<Pending>, ids: set<int>)
    ensures Orphans(a + b, ids) == Orphans(a, ids) + Orphans(b, ids)
  {
    if a == [] {
      assert a + b == b;
    } else {
      OrphansSplit(a[1..], b, ids);
      assert (a + b)[1..] == a[1..] + b;
    }
  }

  /** Some entry of the queue belongs to one of the jobs. */
  ghost predicate Hits(q: seq<Pending>, vs: seq<Job>) {
    exists i, n :: 0 <= i < |q| && 0 <= n < |vs| && q[i].origin == Local && q[i].job == vs[n].id
  }

  lemma {:induction false} OrphansHit(q: seq<Pending>, ids: set<int>, vs: seq<Job>, total: int)
    requires forall i :: 0 <= i < |q| ==> EntryOk(q[i], total)
    requires forall i :: 0 <= i < |q| && q[i].origin == Local && q[i].job !in ids
               ==> exists n :: 0 <= n < |vs| && vs[n].id == q[i].job
    requires forall n :: 0 <= n < |vs| ==> vs[n].id !in ids
    ensures Orphans(q, ids) >= 0
    ensures Orphans(q, ids) > 0 <==> Hits(q, vs)
  {
    if q != [] {
      OrphansHit(q[1..], ids, vs, total);
      if q[0].origin == Local && q[0].job !in ids {
        var n :| 0 <= n < |vs| && vs[n].id == q[0].job;
        assert EntryOk(q[0], total);
      } else if Hits(q, vs) {
        var i, n :| 0 <= i < |q| && 0 <= n < |vs| && q[i].origin == Local && q[i].job == vs[n].id;
        assert q[i] == q[1..][i-1];
      }
      if Hits(q[1..], vs) {
        var i, n :| 0 <= i < |q[1..]| && 0 <= n < |vs| && q[1..][i].origin == Local && q[1..][i].job == vs[n].id;
        assert q[i+1] == q[1..][i];
      }
    }
  }

  // ---------------------------------------------------------------- all the victims

  ghost function HeldAll(vs: seq<Job>, r: Res): int {
    if vs == [] then 0 else Held(vs[0].confirmed, r) + HeldAll(vs[1..], r)
  }

  /** Whether abandoning the jobs one by one lets the release of an earlier one
      reach a queue entry of a later one, which is no longer in the table. It is
      decided by the counter, the queue and the amounts held, before anything runs. */
  ghost predicate Spills(avail: int, q: seq<Pending>, vs: seq<Job>, r: Res)
    decreases |vs|
  {
    vs != [] &&
    var rest := DropJob(q, vs[0].id);
    var h := Held(vs[0].confirmed, r);
    if h == 0 then Spills(avail, rest, vs[1..], r)
    else
      var n := Fit(rest, avail + h);
      Hits(rest[..n], vs[1..]) || Spills(avail + h - Total(rest[..n]), rest[n..], vs[1..], r)
  }

  /** Extracted jobs waiting to be abandoned: none is in the table, and nobody
      else's entries are orphans. */
  ghost predicate Doomed(s: State, vs: seq<Job>) {
    && (forall i :: 0 <= i < |vs| ==> vs[i].id !in s.jobs && AllocsOk(vs[i].confirmed, vs[i].id, vs[i].conn))
    && (forall i, k :: 0 <= i < k < |vs| ==> vs[i].id != vs[k].id)
    && (forall r, id :: id !in s.jobs && Entries(s.At(r).queue, id) != []
         ==> exists n :: 0 <= n < |vs| && vs[n].id == id)
    && (forall r :: s.At(r).lent >= 0 && Use(s, r) + HeldAll(vs, r) <= s.At(r).total)
  }

  lemma {:induction false} HeldAllNonNeg(vs: seq<Job>, r: Res)
    requires forall i :: 0 <= i < |vs| ==> AllocsOk(vs[i].confirmed, vs[i].id, vs[i].conn)
    ensures HeldAll(vs, r) >= 0
  {
    if vs != [] {
      HeldNonNeg(vs[0].confirmed, vs[0].id, vs[0].conn, r);
      HeldAllNonNeg(vs[1..], r);
    }
  }

  /** The first victim: purge its entries, free its shares. */
  ghost function First(s: State, v: Job): State { FreeAll(PurgeJob(s, v.id), v.id, v.confirmed) }

  lemma RoomFirst(s: State, vs: seq<Job>)
    requires Good(s) && Doomed(s, vs) && vs != []
    ensures Good(PurgeJob(s, vs[0].id)) && Room(PurgeJob(s, vs[0].id), vs[0].confirmed)
  {
    var v := vs[0];
    var p := PurgeJob(s, v.id);
    PurgeKeeps(s, v.id);
    PurgeAt(s, v.id);
    forall x ensures p.At(x).lent >= 0 && Use(p, x) + Held(v.confirmed, x) <= p.At(x).total {
      assert s.At(x).lent >= 0 && Use(s, x) + HeldAll(vs, x) <= s.At(x).total;
      HeldAllNonNeg(vs[1..], x);
      assert Use(p, x) == Use(s, x);
    }
  }

  /** The orphans after the first turn belong to the remaining victims. */
  lemma FirstOrphans(s: State, t: State, vs: seq<Job>, r: Res, id: int)
    requires Doomed(s, vs) && vs != [] && t.jobs.Keys == s.jobs.Keys && id !in s.jobs
    requires Entries(s.At(r).queue, id) != [] && id != vs[0].id
    ensures exists n :: 0 <= n < |vs[1..]| && vs[1..][n].id == id
  {
    var n :| 0 <= n < |vs| && vs[n].id == id;
    assert vs[1..][n-1].id == id;
  }

  lemma DoomedRest(s: State, p: State, t: State, vs: seq<Job>)
    requires Doomed(s, vs) && vs != [] && p == PurgeJob(s, vs[0].id) && Calm(p, t) && p.jobs == s.jobs
    requires forall r, k :: Entries(p.At(r).queue, k) == if k == vs[0].id then [] else Entries(s.At(r).queue, k)
    requires forall r :: t.At(r).lent >= 0 && Use(t, r) + HeldAll(vs[1..], r) <= t.At(r).total
    ensures Doomed(t, vs[1..])
  {
    forall i | 0 <= i < |vs[1..]|
      ensures vs[1..][i].id !in t.jobs && AllocsOk(vs[1..][i].confirmed, vs[1..][i].id, vs[1..][i].conn)
    {
      assert vs[1..][i] == vs[i+1];
    }
    forall r, id | id !in t.jobs && Entries(t.At(r).queue, id) != []
      ensures exists n :: 0 <= n < |vs[1..]| && vs[1..][n].id == id
    {
      assert Entries(p.At(r).queue, id) != [];
      FirstOrphans(s, t, vs, r, id);
    }
  }

  lemma FirstKeeps(s: State, vs: seq<Job>)
    requires Good(s) && Settled(s) && Doomed(s, vs) && vs != []
    ensures var t := First(s, vs[0]);
            && Good(t) && Settled(t) && Doomed(t, vs[1..]) && Calm(s, t)
            && (forall r :: Use(t, r) <= Use(s, r) + Held(vs[0].confirmed, r))
  {
    var v := vs[0];
    var p := PurgeJob(s, v.id);
    var t := First(s, v);
    PurgeKeeps(s, v.id);
    PurgeSettled(s, v.id);
    RoomFirst(s, vs);
    FreeAllKeeps(p, v.id, v.confirmed, v.conn);
    CalmTrans(s, p, t);
    forall r
      ensures t.At(r).lent >= 0 && Use(t, r) <= Use(s, r) + Held(v.confirmed, r)
              && Use(t, r) + HeldAll(vs[1..], r) <= t.At(r).total
    {
      assert Grew(p, t, r, Held(v.confirmed, r)) && Use(p, r) == Use(s, r);
      assert s.At(r).lent >= 0 && Use(s, r) + HeldAll(vs, r) <= s.At(r).total;
    }
    DoomedRest(s, p, t, vs);
  }

  /** The orphans left after the purge belong to the other victims. */
  lemma OrphansAreVictims(s: State, vs: seq<Job>, r: Res, n: nat)
    requires Good(s) && Doomed(s, vs) && vs != [] && n <= |DropJob(s.At(r).queue, vs[0].id)|
    ensures var q := DropJob(s.At(r).queue, vs[0].id);
            Orphans(q[..n], s.jobs.Keys) >= 0 && (Orphans(q[..n], s.jobs.Keys) > 0 <==> Hits(q[..n], vs[1..]))
  {
    var v := vs[0];
    var q := DropJob(s.At(r).queue, v.id);
    PurgeKeeps(s, v.id);
    PurgeAt(s, v.id);
    assert QueueOk(PurgeJob(s, v.id).At(r));
    forall i | 0 <= i < |q[..n]| && q[..n][i].origin == Local && q[..n][i].job !in s.jobs.Keys
      ensures exists m :: 0 <= m < |vs[1..]| && vs[1..][m].id == q[..n][i].job
    {
      var id := q[i].job;
      EntriesOf(q, id);
      assert q[i] in Entries(q, id);
      assert Entries(PurgeJob(s, v.id).At(r).queue, id) != [] && id != v.id;
      assert Entries(s.At(r).queue, id) != [];
      var m :| 0 <= m < |vs| && vs[m].id == id;
      assert vs[1..][m-1].id == id;
    }
    forall m | 0 <= m < |vs[1..]| ensures vs[1..][m].id !in s.jobs.Keys { assert vs[1..][m] == vs[m+1]; }
    OrphansHit(q[..n], s.jobs.Keys, vs[1..], s.At(r).total);
  }

  lemma FirstGives(s: State, vs: seq<Job>, r: Res)
    requires Good(s) && Doomed(s, vs) && vs != []
    ensures var v := vs[0]; var t := First(s, v); var h := Held(v.confirmed, r);
            && GaveBack(PurgeJobIn(s.At(r), v.id), t.At(r), h) && t.jobs.Keys == s.jobs.Keys
            && Use(t, r) == Use(s, r) + h - Orphans(DropJob(s.At(r).queue, v.id), s.jobs.Keys)
                 + Orphans(t.At(r).queue, s.jobs.Keys)
  {
    var v := vs[0];
    var p := PurgeJob(s, v.id);
    PurgeKeeps(s, v.id);
    PurgeAt(s, v.id);
    RoomFirst(s, vs);
    FreeAllKeeps(p, v.id, v.confirmed, v.conn);
    FreeTakesPrefix(p, v.id, v.confirmed, v.conn, r);
    assert Grew(p, First(s, v), r, Held(v.confirmed, r)) && Use(p, r) == Use(s, r);
  }

  lemma SplitLoss(q: seq<Pending>, n: nat, ids: set<int>, ws: seq<Job>)
    requires n <= |q| && Orphans(q[..n], ids) >= 0 && (Orphans(q[..n], ids) > 0 <==> Hits(q[..n], ws))
    ensures Orphans(q, ids) == Orphans(q[n..], ids) <==> !Hits(q[..n], ws)
  {
    PrefixOrphans(q, n, ids);
  }

  /** What was promised to the other victims is kept exactly if none is granted. */
  lemma LossOf(s: State, d: Resource, vs: seq<Job>, r: Res)
    requires Good(s) && Doomed(s, vs) && vs != []
    requires GaveBack(PurgeJobIn(s.At(r), vs[0].id), d, Held(vs[0].confirmed, r))
    ensures var h := Held(vs[0].confirmed, r); var q := DropJob(s.At(r).queue, vs[0].id);
            Orphans(q, s.jobs.Keys) == Orphans(d.queue, s.jobs.Keys)
            <==> h == 0 || !Hits(q[..Fit(q, s.At(r).avail + h)], vs[1..])
  {
    var c := PurgeJobIn(s.At(r), vs[0].id);
    var q, h := c.queue, Held(vs[0].confirmed, r);
    GaveBackQueue(c, d, h);
    if h != 0 {
      var n := Fit(q, c.avail + h);
      OrphansAreVictims(s, vs, r, n);
      SplitLoss(q, n, s.jobs.Keys, vs[1..]);
    }
  }

  lemma GaveBackQueue(c: Resource, d: Resource, h: int)
    requires GaveBack(c, d, h)
    ensures d.queue == if h == 0 then c.queue else c.queue[Fit(c.queue, c.avail + h)..]
  {
  }

  /** Capacity is lost in the first turn exactly when the release grants an entry
      of another victim. */
  lemma FirstLoss(s: State, vs: seq<Job>, r: Res)
    requires Good(s) && Doomed(s, vs) && vs != []
    ensures var v := vs[0]; var h := Held(v.confirmed, r); var q := DropJob(s.At(r).queue, v.id);
            && GaveBack(PurgeJobIn(s.At(r), v.id), First(s, v).At(r), h)
            && (Use(First(s, v), r) == Use(s, r) + h <==> h == 0 || !Hits(q[..Fit(q, s.At(r).avail + h)], vs[1..]))
  {
    FirstGives(s, vs, r);
    LossOf(s, First(s, vs[0]).At(r), vs, r);
  }

  lemma PrefixOrphans(q: seq<Pending>, n: nat, ids: set<int>)
    requires n <= |q|
    ensures Orphans(q, ids) == Orphans(q[..n], ids) + Orphans(q[n..], ids)
  {
    assert q == q[..n] + q[n..];
    OrphansSplit(q[..n], q[n..], ids);
  }

  lemma SpillsStep(s: State, vs: seq<Job>, r: Res)
    requires vs != []
    requires GaveBack(PurgeJobIn(s.At(r), vs[0].id), First(s, vs[0]).At(r), Held(vs[0].confirmed, r))
    ensures var h := Held(vs[0].confirmed, r); var q := DropJob(s.At(r).queue, vs[0].id);
            var d := First(s, vs[0]).At(r);
            Spills(s.At(r).avail, s.At(r).queue, vs, r) ==
            ((h != 0 && Hits(q[..Fit(q, s.At(r).avail + h)], vs[1..])) || Spills(d.avail, d.queue, vs[1..], r))
  {
  }

  /** Abandoning the victims keeps the invariant, and gives back everything they
      held exactly when no release spills into a later victim. */
  lemma {:induction false} AbandonKeeps(s: State, vs: seq<Job>)
    requires Good(s) && Settled(s) && Doomed(s, vs)
    ensures var t := Abandon(s, vs);
            && Inv(t) && Calm(s, t)
            && (forall r :: Use(t, r) <= Use(s, r) + HeldAll(vs, r))
            && (forall r :: Use(t, r) == Use(s, r) + HeldAll(vs, r) <==> !Spills(s.At(r).avail, s.At(r).queue, vs, r))
    decreases |vs|
  {
    if vs == [] {
      forall r ensures Solvent(s, r) {}
    } else {
      var t := First(s, vs[0]);
      var u := Abandon(t, vs[1..]);
      assert u == Abandon(s, vs);
      FirstKeeps(s, vs);
      AbandonKeeps(t, vs[1..]);
      CalmTrans(s, t, u);
      forall r
        ensures Use(u, r) <= Use(s, r) + HeldAll(vs, r)
        ensures Use(u, r) == Use(s, r) + HeldAll(vs, r) <==> !Spills(s.At(r).avail, s.At(r).queue, vs, r)
      {
        FirstLoss(s, vs, r);
        SpillsStep(s, vs, r);
        assert Use(u, r) <= Use(t, r) + HeldAll(vs[1..], r);
        assert Use(t, r) <= Use(s, r) + Held(vs[0].confirmed, r);
      }
    }
  }

  // ---------------------------------------------------------------- extraction

  lemma {:induction false} StripMembers(as_: seq<Alloc>, c: Conn)
    ensures forall a :: a in StripAllocs(as_, c) <==> a in as_ && !(a.kind == Remote && a.conn == c)
    ensures forall r :: Held(StripAllocs(as_, c), r) == Held(as_, r) && Wanted(StripAllocs(as_, c), r) == Wanted(as_, r)
  {
    if as_ != [] {
      StripMembers(as_[1..], c);
      assert as_ == [as_[0]] + as_[1..];
      if !(as_[0].kind == Remote && as_[0].conn == c) {
        assert StripAllocs(as_, c)[1..] == StripAllocs(as_[1..], c);
      }
    }
  }

  lemma {:induction false} StripOk(as_: seq<Alloc>, id: int, k: Conn, c: Conn)
    requires AllocsOk(as_, id, k)
    ensures AllocsOk(StripAllocs(as_, c), id, k)
  {
    if as_ != [] {
      var rest := StripAllocs(as_[1..], c);
      StripOk(as_[1..], id, k, c);
      StripMembers(as_[1..], c);
      if !(as_[0].kind == Remote && as_[0].conn == c) {
        var t := [as_[0]] + rest;
        forall i | 0 <= i < |t| ensures AllocOk(t[i], id, k) { if i > 0 { assert t[i] == rest[i-1]; } }
        forall i, j | 0 <= i < j < |t| && t[i].kind == Local && t[j].kind == Local ensures t[i].res != t[j].res {
          assert t[j] == rest[j-1] && t[j] in as_[1..];
          if i > 0 { assert t[i] == rest[i-1]; }
        }
      }
    }
  }

  lemma StripFacts(as_: seq<Alloc>, id: int, k: Conn, c: Conn)
    requires AllocsOk(as_, id, k)
    ensures AllocsOk(StripAllocs(as_, c), id, k)
    ensures forall r :: Held(StripAllocs(as_, c), r) == Held(as_, r) && Wanted(StripAllocs(as_, c), r) == Wanted(as_, r)
    ensures forall a :: a in StripAllocs(as_, c) <==> a in as_ && !(a.kind == Remote && a.conn == c)
  {
    StripOk(as_, id, k, c);
    StripMembers(as_, c);
  }

  /** Only local waits make a job unready, and stripping removes none. */
  lemma StripReady(j: Job, id: int, c: Conn)
    requires JobOk(j, id)
    ensures JobOk(Strip(j, c), id) && (Ready(Strip(j, c)) <==> Ready(j))
  {
    StripFacts(j.confirmed, id, j.conn, c);
    WaitFree(j.confirmed);
    WaitFree(Strip(j, c).confirmed);
  }

  ghost function HeldList(jobs: map<int, Job>, order: seq<int>, r: Res): int
    requires forall i :: 0 <= i < |order| ==> order[i] in jobs
  {
    if order == [] then 0 else Held(jobs[order[0]].confirmed, r) + HeldList(jobs, order[1..], r)
  }

  lemma {:induction false} SumParts(ids: set<int>, jobs: map<int, Job>, order: seq<int>, rest: set<int>, r: Res)
    requires ids <= jobs.Keys && rest <= ids
    requires forall i :: 0 <= i < |order| ==> order[i] in ids && order[i] !in rest
    requires forall i, k :: 0 <= i < k < |order| ==> order[i] != order[k]
    requires forall id :: id in ids ==> id in rest || id in order
    ensures SumOver(ids, jobs, r) == SumOver(rest, jobs, r) + HeldList(jobs, order, r)
    decreases |order|
  {
    if order == [] {
      forall id | id in ids ensures id in rest {}
      assert ids <= rest;
      assert ids == rest;
    } else {
      SumOut(ids, jobs, order[0], r);
      forall i | 0 <= i < |order[1..]| ensures order[1..][i] in ids - {order[0]} { assert order[1..][i] == order[i+1]; }
      forall id | id in ids - {order[0]} ensures id in rest || id in order[1..] {
        assert id in rest || id in order;
        assert order == [order[0]] + order[1..];
      }
      SumParts(ids - {order[0]}, jobs, order[1..], rest, r);
    }
  }

  lemma {:induction false} HeldPicked(jobs: map<int, Job>, order: seq<int>, k: Conn, r: Res)
    requires forall i :: 0 <= i < |order| ==> order[i] in jobs && JobOk(jobs[order[i]], order[i])
    ensures HeldAll(Pick(jobs, order, k), r) == HeldList(jobs, order, r)
  {
    if order != [] {
      HeldPicked(jobs, order[1..], k, r);
      assert Pick(jobs, order, k)[1..] == Pick(jobs, order[1..], k);
      StripFacts(jobs[order[0]].confirmed, order[0], jobs[order[0]].conn, k);
    }
  }

  lemma ExtractUse(s: State, k: Conn, order: seq<int>, r: Res)
    requires Good(s) && Enumerates(order, Victims(s.jobs, k))
    ensures SumHeld(s.jobs, r) == SumHeld(Kept(s.jobs, k), r) + HeldAll(Pick(s.jobs, order, k), r)
  {
    var kept := Kept(s.jobs, k);
    forall id | id in s.jobs ensures id in kept.Keys || id in order {}
    SumParts(s.jobs.Keys, s.jobs, order, kept.Keys, r);
    HeldPicked(s.jobs, order, k, r);
    forall id | id in kept.Keys ensures Held(kept[id].confirmed, r) == Held(s.jobs[id].confirmed, r) {
      assert JobOk(s.jobs[id], id);
      StripFacts(s.jobs[id].confirmed, id, s.jobs[id].conn, k);
    }
    SumSame(kept.Keys, s.jobs, kept, r);
  }

  /** The state after the extraction, with or without the queues purged of the
      connection. */
  ghost predicate Extracted(s: State, t: State, k: Conn) {
    && t.jobs == Kept(s.jobs, k) && t.ip == s.ip && t.conns == s.conns && t.log == s.log
    && (t.bank == s.bank || t.bank == PurgeConn(s, k).bank)
  }

  lemma ExtractedAt(s: State, t: State, k: Conn, r: Res)
    requires Extracted(s, t, k)
    ensures t.At(r) == s.At(r).(queue := t.At(r).queue)
    ensures forall p :: p in t.At(r).queue ==> p in s.At(r).queue
    ensures forall id :: Entries(s.At(r).queue, id) == [] ==> Entries(t.At(r).queue, id) == []
    ensures forall id :: (forall p | p in Entries(s.At(r).queue, id) :: p.owner != k)
              ==> Entries(t.At(r).queue, id) == Entries(s.At(r).queue, id)
    ensures t.bank == PurgeConn(s, k).bank ==> forall p :: p in t.At(r).queue ==> p.owner != k
    ensures forall c, id :: Waiting(t.At(r).queue, c, id) <= Waiting(s.At(r).queue, c, id)
  {
    DroppedConn(s.At(r).queue, k);
    if t.bank != s.bank { assert t.At(r) == PurgeConnIn(s.At(r), k); }
  }

  lemma ExtractGood(s: State, t: State, k: Conn)
    requires Inv(s) && Extracted(s, t, k)
    ensures Good(t) && Settled(t) && Quiet(s, t)
  {
    forall id | id in t.jobs ensures JobOk(t.jobs[id], id) && SameJob(s, t, id) { StripReady(s.jobs[id], id, k); }
    forall r ensures QueueOk(t.At(r)) && (t.At(r).queue != [] ==> t.At(r).avail < t.At(r).total) {
      ExtractedAt(s, t, k, r);
      assert QueueOk(s.At(r));
      forall i | 0 <= i < |t.At(r).queue| ensures EntryOk(t.At(r).queue[i], t.At(r).total) {
        assert t.At(r).queue[i] in s.At(r).queue;
      }
      if t.At(r).queue != [] { assert t.At(r).queue[0] in s.At(r).queue; }
    }
    forall r, id ensures Matched(t, r, id) {
      if id in t.jobs {
        var j := s.jobs[id];
        assert Matched(s, r, id) && JobOk(j, id);
        ExtractedAt(s, t, k, r);
        WantedOwner(j.confirmed, id, j.conn, r);
        StripFacts(j.confirmed, id, j.conn, k);
      }
    }
    forall r ensures t.At(r).total == s.At(r).total { ExtractedAt(s, t, k, r); }
    forall c, id ensures Owing(t, c, id) <= Owing(s, c, id) {
      ExtractedAt(s, t, k, Cpu);
      ExtractedAt(s, t, k, Mem);
      ExtractedAt(s, t, k, Gpu);
    }
  }

  lemma ExtractDoomed(s: State, t: State, k: Conn, order: seq<int>)
    requires Inv(s) && Extracted(s, t, k) && Enumerates(order, Victims(s.jobs, k))
    ensures Doomed(t, Pick(s.jobs, order, k))
    ensures forall r :: Use(t, r) + HeldAll(Pick(s.jobs, order, k), r) == Use(s, r)
  {
    var vs := Pick(s.jobs, order, k);
    forall i | 0 <= i < |vs|
      ensures vs[i].id == order[i] && vs[i].id !in t.jobs && AllocsOk(vs[i].confirmed, vs[i].id, vs[i].conn)
    {
      assert JobOk(s.jobs[order[i]], order[i]);
      StripReady(s.jobs[order[i]], order[i], k);
    }
    forall r ensures Use(t, r) + HeldAll(vs, r) == Use(s, r) { ExtractUse(s, k, order, r); ExtractedAt(s, t, k, r); }
    forall r ensures t.At(r).lent >= 0 && Use(t, r) + HeldAll(vs, r) <= t.At(r).total {
      assert Solvent(s, r);
      ExtractedAt(s, t, k, r);
    }
    forall r, id | id !in t.jobs && Entries(t.At(r).queue, id) != []
      ensures exists n :: 0 <= n < |vs| && vs[n].id == id
    {
      ExtractedAt(s, t, k, r);
      assert Entries(s.At(r).queue, id) != [];
      assert id in s.jobs;
      assert id in order;
      var n :| 0 <= n < |order| && order[n] == id;
      assert vs[n].id == id;
    }
  }

  /** When losing the connection loses no capacity of the resource. */
  ghost predicate Lossless(s: State, k: Conn, order: seq<int>, purged: bool, r: Res)
    requires Enumerates(order, Victims(s.jobs, k))
  {
    var q := if purged then DropConn(s.At(r).queue, k) else s.At(r).queue;
    !Spills(s.At(r).avail, q, Pick(s.jobs, order, k), r)
  }

  /** process_disconnect keeps the invariant; it keeps a resource's accounts if and
      only if no abandoned job's release reaches another abandoned job in the queue. */
  lemma DisconnectKeeps(s: State, k: Conn, order: seq<int>)
    requires Inv(s) && Enumerates(order, Victims(s.jobs, k))
    ensures var t := OnDisconnect(s, k, order);
            && Inv(t) && Quiet(s, t.(conns := s.conns)) && t.jobs.Keys == Kept(s.jobs, k).Keys
                 && t.conns == CT.DeleteByConn(s.conns, k)
            && (forall r :: Use(t, r) <= Use(s, r))
            && (forall r :: Use(t, r) == Use(s, r) <==> Lossless(s, k, order, true, r))
  {
    var o := PurgeConn(s, k).(jobs := Kept(s.jobs, k));
    var u := Abandon(o, Pick(s.jobs, order, k));
    var t := OnDisconnect(s, k, order);
    forall r ensures o.At(r) == PurgeConnIn(s.At(r), k) {}
    AbandonExtracted(s, o, k, order);
    assert t == u.(conns := CT.DeleteByConn(s.conns, k));
    Recabled(u, CT.DeleteByConn(s.conns, k));
    assert t.(conns := s.conns) == u;
  }

  lemma AbandonExtracted(s: State, o: State, k: Conn, order: seq<int>)
    requires Inv(s) && Extracted(s, o, k) && Enumerates(order, Victims(s.jobs, k))
    ensures var vs := Pick(s.jobs, order, k); var u := Abandon(o, vs);
            && Inv(u) && Quiet(s, u) && Calm(o, u)
            && (forall r :: Use(u, r) <= Use(s, r))
            && (forall r :: Use(u, r) == Use(s, r) <==> !Spills(o.At(r).avail, o.At(r).queue, vs, r))
  {
    var vs := Pick(s.jobs, order, k);
    var u := Abandon(o, vs);
    ExtractGood(s, o, k);
    ExtractDoomed(s, o, k, order);
    AbandonKeeps(o, vs);
    CalmQuiet(o, u);
    QuietTrans(s, o, u);
    forall r
      ensures Use(u, r) <= Use(s, r)
      ensures Use(u, r) == Use(s, r) <==> !Spills(o.At(r).avail, o.At(r).queue, vs, r)
    {
      assert Use(u, r) <= Use(o, r) + HeldAll(vs, r);
      assert Use(o, r) + HeldAll(vs, r) == Use(s, r);
    }
  }

  /** The table of connections takes no part in the accounts. */
  lemma Recabled(u: State, conns: CT.Table)
    requires Inv(u)
    ensures Inv(u.(conns := conns)) && forall r :: Use(u.(conns := conns), r) == Use(u, r)
  {
    var t := u.(conns := conns);
    forall r ensures t.At(r) == u.At(r) {}
    forall r ensures QueueOk(t.At(r)) && Solvent(t, r) { assert QueueOk(u.At(r)) && Solvent(u, r); }
    forall r, id ensures Matched(t, r, id) { assert Matched(u, r, id); }
    forall r, id | id !in t.jobs ensures Entries(t.At(r).queue, id) == [] { assert Entries(u.At(r).queue, id) == []; }
  }

  /** process_connection_failed, likewise. */
  lemma ConnFailedKeeps(s: State, k: Conn, order: seq<int>)
    requires Inv(s) && Enumerates(order, Victims(s.jobs, k))
    ensures var t := OnConnFailed(s, k, order);
            && Inv(t) && Quiet(s, t) && t.jobs.Keys == Kept(s.jobs, k).Keys
            && (forall r :: Use(t, r) <= Use(s, r))
            && (forall r :: Use(t, r) == Use(s, r) <==> Lossless(s, k, order, false, r))
  {
    var o := s.(jobs := Kept(s.jobs, k));
    forall r ensures o.At(r) == s.At(r) {}
    AbandonExtracted(s, o, k, order);
  }

  /** At most one job abandoned: nothing can spill. */
  lemma OneVictimLossless(s: State, k: Conn, order: seq<int>, purged: bool, r: Res)
    requires Enumerates(order, Victims(s.jobs, k)) && |order| <= 1
    ensures Lossless(s, k, order, purged, r)
  {
    var vs := Pick(s.jobs, order, k);
    if vs != [] { assert vs[1..] == []; }
  }

  /** The planner's own disconnection purges its jobs' entries before any release. */
  lemma PlannerLossless(s: State, k: Conn, order: seq<int>, r: Res)
    requires Inv(s) && k.Planner? && Enumerates(order, Victims(s.jobs, k))
    ensures Lossless(s, k, order, true, r)
  {
    var q := DropConn(s.At(r).queue, k);
    var vs := Pick(s.jobs, order, k);
    DroppedConn(s.At(r).queue, k);
    forall i, n | 0 <= i < |q| && 0 <= n < |vs| && q[i].origin == Local ensures q[i].job != vs[n].id {
      VictimEntriesGone(s, k, order, r, n, q[i]);
    }
    NoSpill(s.At(r).avail, q, vs, r);
  }

  lemma {:induction false} SomeWait(as_: seq<Alloc>, r: Res) returns (a: Alloc)
    requires Wanted(as_, r) != []
    ensures a in as_ && IsLocalWait(a)
  {
    if IsLocalWait(as_[0]) && as_[0].res == r { a := as_[0]; } else { a := SomeWait(as_[1..], r); }
  }

  lemma VictimEntriesGone(s: State, k: Conn, order: seq<int>, r: Res, n: nat, p: Pending)
    requires Inv(s) && k.Planner? && Enumerates(order, Victims(s.jobs, k)) && n < |order|
    requires p in s.At(r).queue && p.owner != k && p.origin == Local
    ensures p.job != Strip(s.jobs[order[n]], k).id
  {
    var id := order[n];
    var j := s.jobs[id];
    assert JobOk(j, id) && Matched(s, r, id);
    EntriesOf(s.At(r).queue, id);
    WantedOwner(j.confirmed, id, j.conn, r);
    if Wanted(j.confirmed, r) != [] {
      var a := SomeWait(j.confirmed, r);
      StripFacts(j.confirmed, id, j.conn, k);
      assert a in StripAllocs(j.confirmed, k);
      assert forall i :: 0 <= i < |j.pending| ==> j.pending[i].conn != k;
      assert j.conn == k;
    }
  }

  /** No entry of the queue belongs to any of the jobs. */
  ghost predicate Apart(q: seq<Pending>, vs: seq<Job>) {
    forall i, n :: 0 <= i < |q| && 0 <= n < |vs| && q[i].origin == Local ==> q[i].job != vs[n].id
  }

  lemma DropApart(q: seq<Pending>, vs: seq<Job>, n: nat)
    requires vs != [] && Apart(q, vs) && n <= |DropJob(q, vs[0].id)|
    ensures Apart(DropJob(q, vs[0].id), vs[1..]) && Apart(DropJob(q, vs[0].id)[..n], vs[1..])
            && Apart(DropJob(q, vs[0].id)[n..], vs[1..])
  {
    var rest := DropJob(q, vs[0].id);
    DroppedJob(q, vs[0].id);
    forall i, m | 0 <= i < |rest| && 0 <= m < |vs[1..]| && rest[i].origin == Local
      ensures rest[i].job != vs[1..][m].id
    {
      assert rest[i] in q && vs[1..][m] == vs[m+1];
    }
  }

  lemma ApartMisses(q: seq<Pending>, vs: seq<Job>)
    requires Apart(q, vs)
    ensures !Hits(q, vs)
  {
  }

  lemma {:induction false} NoSpill(avail: int, q: seq<Pending>, vs: seq<Job>, r: Res)
    requires Apart(q, vs)
    ensures !Spills(avail, q, vs, r)
    decreases |vs|
  {
    if vs != [] {
      var rest := DropJob(q, vs[0].id);
      var h := Held(vs[0].confirmed, r);
      if h == 0 {
        DropApart(q, vs, 0);
        NoSpill(avail, rest, vs[1..], r);
      } else {
        var n := Fit(rest, avail + h);
        DropApart(q, vs, n);
        ApartMisses(rest[..n], vs[1..]);
        NoSpill(avail + h - Total(rest[..n]), rest[n..], vs[1..], r);
      }
    }
  }
}
