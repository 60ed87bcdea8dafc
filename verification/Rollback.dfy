/** A refused JOB_REQUEST undoes itself: exactly when it restores the agent. */
module Rollback {
  import opened Types
  import opened Seqs
  import opened Allocator
  import opened Ledger
  import opened Greedy
  import opened Runs
  import CT = ConnTable

  ghost predicate Named(q: seq<Pending>, id: int) {
    exists i :: 0 <= i < |q| && q[i].job == id
  }

  /** The refused job had been given some of the resource. */
  ghost predicate WasGiven(as_: seq<Alloc>, r: Res) {
    exists i :: 0 <= i < |as_| && IsLocalGrant(as_[i]) && as_[i].res == r
  }

  /** A share that refuses its request: more than this host has, or asked of a host
      with no connection and none to be had. */
  ghost predicate Bad(s: State, q: Req) {
    if q.host == s.ip then q.amount > s.At(q.res).total else CT.Lookup(s.conns, q.host) == None && q.dial == None
  }

  /** Before any refusing share comes one of the resource on this host that the
      counter can pay. */
  ghost predicate Payable(s: State, reqs: seq<Req>, r: Res) {
    && reqs != [] && !Bad(s, reqs[0])
    && ((reqs[0].host == s.ip && reqs[0].res == r && reqs[0].amount <= s.At(r).avail) || Payable(s, reqs[1..], r))
  }

  /** The same counter and the same queue, history aside. */
  ghost predicate Alike(c: Resource, d: Resource) {
    c.avail == d.avail && c.total == d.total && c.queue == d.queue
  }

  ghost predicate LocalOnly(as_: seq<Alloc>) {
    forall i :: 0 <= i < |as_| ==> as_[i].kind == Local && as_[i].amount > 0
  }

  // ---------------------------------------------------------------- what building did

  /** While a job is built, a resource pays for its grants and queues only its waits. */
  ghost predicate Charged(c: Resource, d: Resource, as_: seq<Alloc>, id: int, r: Res) {
    && d.total == c.total && d.lent == c.lent && d.served == c.served
    && d.avail == c.avail - Held(as_, r) && d.avail >= 0
    && |c.queue| <= |d.queue| && d.queue[..|c.queue|] == c.queue
    && forall i :: |c.queue| <= i < |d.queue| ==> d.queue[i].job == id
  }

  lemma {:induction false} BuildCharges(o: State, s: State, j: Job, reqs: seq<Req>)
    requires s.jobs == o.jobs && s.conns == o.conns && s.ip == o.ip
    requires LocalOnly(j.confirmed) && forall r :: Charged(o.At(r), s.At(r), j.confirmed, j.id, r)
    requires forall i :: 0 <= i < |reqs| ==> reqs[i].amount > 0
    ensures var p := Build(s, j, reqs);
            && p.s.jobs == o.jobs && p.s.conns == o.conns && p.s.ip == o.ip && LocalOnly(p.j.confirmed)
                 && p.j.id == j.id
            && forall r :: Charged(o.At(r), p.s.At(r), p.j.confirmed, j.id, r)
    decreases |reqs|
  {
    if reqs != [] {
      var q := reqs[0];
      if q.host == s.ip {
        var (t, w) := ReserveRes(s, q.res, q.amount, j.id, j.conn, Local);
        if w != RmDenied {
          var a := Alloc(q.res, q.amount, Local, s.ip, j.id, w, j.conn);
          ShareCharges(o, s, j, a);
          BuildCharges(o, t, j.(confirmed := [a] + j.confirmed), reqs[1..]);
        }
      } else {
        match CT.Lookup(s.conns, q.host)
        case Some(c) =>
          AskCharges(o, s, s.Send(c, Reserve(j.id, q.res, q.amount)), j);
          BuildCharges(o, s.Send(c, Reserve(j.id, q.res, q.amount)), Ask(j, q, c, None), reqs[1..]);
        case None =>
          if q.dial.Some? {
            BuildCharges(o, s, Ask(j, q, q.dial.value, Some(Reserve(j.id, q.res, q.amount))), reqs[1..]);
          }
      }
    }
  }

  lemma AskCharges(o: State, s: State, t: State, j: Job)
    requires t.bank == s.bank && forall r :: Charged(o.At(r), s.At(r), j.confirmed, j.id, r)
    ensures forall r :: Charged(o.At(r), t.At(r), j.confirmed, j.id, r)
  {
    forall r ensures Charged(o.At(r), t.At(r), j.confirmed, j.id, r) {
      assert Charged(o.At(r), s.At(r), j.confirmed, j.id, r);
    }
  }

  lemma ShareCharges(o: State, s: State, j: Job, a: Alloc)
    requires forall r :: Charged(o.At(r), s.At(r), j.confirmed, j.id, r)
    requires LocalOnly(j.confirmed) && a.kind == Local && a.amount > 0 && a.job == j.id && a.conn == j.conn
    requires ReserveRes(s, a.res, a.amount, j.id, j.conn, Local).1 == a.outcome && a.outcome != RmDenied
    ensures var t := ReserveRes(s, a.res, a.amount, j.id, j.conn, Local).0;
            LocalOnly([a] + j.confirmed) && forall r :: Charged(o.At(r), t.At(r), [a] + j.confirmed, j.id, r)
  {
    var t := ReserveRes(s, a.res, a.amount, j.id, j.conn, Local).0;
    var as_ := [a] + j.confirmed;
    assert as_[1..] == j.confirmed;
    forall i | 0 <= i < |as_| ensures as_[i].kind == Local && as_[i].amount > 0 {
      if i > 0 { assert as_[i] == j.confirmed[i-1]; }
    }
    forall r ensures Charged(o.At(r), t.At(r), as_, j.id, r) {
      assert Charged(o.At(r), s.At(r), j.confirmed, j.id, r);
      if r == a.res && a.outcome == RmQueued {
        assert t.At(r).queue == s.At(r).queue + [Pending(j.id, a.amount, j.conn, Local)];
        assert t.At(r).queue[..|o.At(r).queue|] == s.At(r).queue[..|o.At(r).queue|];
      }
    }
  }

  // ---------------------------------------------------------------- what building grants

  /** Neither refusals nor what can be paid of a resource depend on anything else. */
  lemma {:induction false} PayableSame(s: State, t: State, reqs: seq<Req>, r: Res)
    requires t.ip == s.ip && t.conns == s.conns && t.At(r) == s.At(r).(queue := t.At(r).queue)
    requires forall x :: t.At(x).total == s.At(x).total
    ensures Payable(t, reqs, r) == Payable(s, reqs, r)
  {
    if reqs != [] { PayableSame(s, t, reqs[1..], r); }
  }

  /** One share of this host that is not refused. */
  lemma ShareGives(s: State, j: Job, q: Req, r: Res)
    requires q.host == s.ip && !Bad(s, q) && q.amount > 0 && QueueOk(s.At(q.res))
    ensures var (t, o) := ReserveRes(s, q.res, q.amount, j.id, j.conn, Local);
            var j' := j.(confirmed := [Alloc(q.res, q.amount, Local, s.ip, j.id, o, j.conn)] + j.confirmed);
            && o != RmDenied && t.ip == s.ip && t.conns == s.conns && (forall x :: t.At(x).total == s.At(x).total)
            && (WasGiven(j'.confirmed, r) <==> WasGiven(j.confirmed, r) || (q.res == r && q.amount <= s.At(r).avail))
            && ((q.res == r && q.amount <= s.At(r).avail) || t.At(r) == s.At(r).(queue := t.At(r).queue))
  {
    var (t, o) := ReserveRes(s, q.res, q.amount, j.id, j.conn, Local);
    var a := Alloc(q.res, q.amount, Local, s.ip, j.id, o, j.conn);
    GivenCons(a, j.confirmed, r);
  }

  lemma GivenCons(a: Alloc, as_: seq<Alloc>, r: Res)
    ensures WasGiven([a] + as_, r) <==> (IsLocalGrant(a) && a.res == r) || WasGiven(as_, r)
  {
    var bs := [a] + as_;
    assert bs[0] == a;
    assert forall i :: 0 <= i < |as_| ==> bs[i+1] == as_[i];
    if WasGiven(bs, r) && !(IsLocalGrant(a) && a.res == r) {
      var i :| 0 <= i < |bs| && IsLocalGrant(bs[i]) && bs[i].res == r;
      assert as_[i-1] == bs[i];
    }
  }

  /** The job is given some of a resource exactly when the request says so. */
  lemma {:induction false} BuildGives(s: State, j: Job, reqs: seq<Req>, r: Res)
    requires (forall x :: QueueOk(s.At(x))) && forall i :: 0 <= i < |reqs| ==> reqs[i].amount > 0
    ensures WasGiven(Build(s, j, reqs).j.confirmed, r) <==> WasGiven(j.confirmed, r) || Payable(s, reqs, r)
    decreases |reqs|
  {
    if reqs != [] {
      var q := reqs[0];
      if q.host == s.ip && !Bad(s, q) {
        var (t, o) := ReserveRes(s, q.res, q.amount, j.id, j.conn, Local);
        ShareGives(s, j, q, r);
        StaysOk(s, q.res, q.amount, j.id, j.conn);
        BuildGives(t, j.(confirmed := [Alloc(q.res, q.amount, Local, s.ip, j.id, o, j.conn)] + j.confirmed), reqs[1..],
            r);
        if !(q.res == r && q.amount <= s.At(r).avail) { PayableSame(s, t, reqs[1..], r); }
      } else if q.host != s.ip {
        match CT.Lookup(s.conns, q.host)
        case Some(c) =>
          var t := s.Send(c, Reserve(j.id, q.res, q.amount));
          forall x ensures t.At(x) == s.At(x) {}
          BuildGives(t, Ask(j, q, c, None), reqs[1..], r);
          PayableSame(s, t, reqs[1..], r);
        case None =>
          if q.dial.Some? {
            BuildGives(s, Ask(j, q, q.dial.value, Some(Reserve(j.id, q.res, q.amount))), reqs[1..], r);
          }
      } else {
        assert QueueOk(s.At(q.res));
      }
    }
  }

  lemma StaysOk(s: State, r: Res, amount: int, id: int, k: Conn)
    requires (forall x :: QueueOk(s.At(x))) && amount > 0
    ensures forall x :: QueueOk(ReserveRes(s, r, amount, id, k, Local).0.At(x))
  {
    var t := ReserveRes(s, r, amount, id, k, Local).0;
    forall x ensures QueueOk(t.At(x)) { assert QueueOk(s.At(x)); }
  }

  ghost predicate Refusing(s: State, reqs: seq<Req>) {
    exists i :: 0 <= i < |reqs| && Bad(s, reqs[i])
  }

  /** A request is refused exactly when one of its shares must be. */
  lemma {:induction false} BuildRefuses(s: State, j: Job, reqs: seq<Req>)
    requires (forall x :: QueueOk(s.At(x))) && forall i :: 0 <= i < |reqs| ==> reqs[i].amount > 0
    ensures Build(s, j, reqs).Refused? <==> exists i :: 0 <= i < |reqs| && Bad(s, reqs[i])
    decreases |reqs|
  {
    if reqs != [] {
      var q := reqs[0];
      BadCons(s, reqs);
      if q.host == s.ip && !Bad(s, q) {
        var (t, o) := ReserveRes(s, q.res, q.amount, j.id, j.conn, Local);
        ShareGives(s, j, q, q.res);
        StaysOk(s, q.res, q.amount, j.id, j.conn);
        BuildRefuses(t, j.(confirmed := [Alloc(q.res, q.amount, Local, s.ip, j.id, o, j.conn)] + j.confirmed),
            reqs[1..]);
        assert forall p :: Bad(t, p) == Bad(s, p);
      } else if q.host != s.ip {
        match CT.Lookup(s.conns, q.host)
        case Some(c) =>
          var t := s.Send(c, Reserve(j.id, q.res, q.amount));
          forall x ensures t.At(x) == s.At(x) {}
          BuildRefuses(t, Ask(j, q, c, None), reqs[1..]);
          assert forall p :: Bad(t, p) == Bad(s, p);
        case None =>
          if q.dial.Some? { BuildRefuses(s, Ask(j, q, q.dial.value, Some(Reserve(j.id, q.res, q.amount))), reqs[1..]); }
      } else {
        assert QueueOk(s.At(q.res));
      }
    }
  }

  lemma BadCons(s: State, reqs: seq<Req>)
    requires reqs != []
    ensures (exists i :: 0 <= i < |reqs| && Bad(s, reqs[i]))
       <==> Bad(s, reqs[0]) || exists i :: 0 <= i < |reqs[1..]| && Bad(s, reqs[1..][i])
  {
    assert forall i :: 0 <= i < |reqs[1..]| ==> reqs[1..][i] == reqs[i+1];
    if (exists i :: 0 <= i < |reqs| && Bad(s, reqs[i])) && !Bad(s, reqs[0]) {
      var i :| 0 <= i < |reqs| && Bad(s, reqs[i]);
      assert reqs[1..][i-1] == reqs[i];
    }
  }

  // ---------------------------------------------------------------- purging

  lemma {:induction false} DropOwn(q: seq<Pending>, n: nat, id: int)
    requires n <= |q| && forall i :: n <= i < |q| ==> q[i].job == id
    ensures DropJob(q, id) == DropJob(q[..n], id)
  {
    if q != [] {
      if n == 0 {
        DropOwn(q[1..], 0, id);
        assert q[..0] == [] && q[1..][..0] == [];
      } else {
        DropOwn(q[1..], n - 1, id);
        assert q[..n][1..] == q[1..][..n-1];
      }
    }
  }

  lemma {:induction false} DropNone(q: seq<Pending>, id: int)
    requires !Named(q, id)
    ensures DropJob(q, id) == q
  {
    if q != [] {
      assert q[0].job != id;
      assert forall i :: 0 <= i < |q[1..]| ==> q[1..][i] == q[i+1];
      DropNone(q[1..], id);
    }
  }

  // ---------------------------------------------------------------- releasing

  /** The counters lack exactly what the remaining shares hold. */
  ghost predicate Lacking(s: State, t: State, as_: seq<Alloc>) {
    && t.jobs == s.jobs && t.conns == s.conns && t.ip == s.ip
    && forall r :: t.At(r) == s.At(r).(avail := s.At(r).avail - Held(as_, r))
  }

  lemma {:induction false} HeldLocal(as_: seq<Alloc>, r: Res)
    requires LocalOnly(as_)
    ensures Held(as_, r) >= 0
    ensures Held(as_, r) > 0 <==> WasGiven(as_, r)
  {
    if as_ != [] {
      HeldLocal(as_[1..], r);
      assert as_ == [as_[0]] + as_[1..];
      if WasGiven(as_[1..], r) {
        var i :| 0 <= i < |as_[1..]| && IsLocalGrant(as_[1..][i]) && as_[1..][i].res == r;
        assert as_[i+1] == as_[1..][i];
      }
      if WasGiven(as_, r) && !(IsLocalGrant(as_[0]) && as_[0].res == r) {
        var i :| 0 <= i < |as_| && IsLocalGrant(as_[i]) && as_[i].res == r;
        assert as_[1..][i-1] == as_[i];
      }
    }
  }

  /** With every affected head blocked, the releases grant nobody. */
  lemma {:induction false} FreeRestores(s: State, t: State, id: int, as_: seq<Alloc>)
    requires LocalOnly(as_) && Lacking(s, t, as_)
    requires forall r :: s.At(r).avail <= s.At(r).total && (WasGiven(as_, r) ==> !CanPop(s.At(r)))
    ensures FreeAll(t, id, as_) == t.(bank := s.bank)
    decreases |as_|
  {
    if as_ == [] {
      forall r ensures t.At(r) == s.At(r) { assert t.At(r) == s.At(r).(avail := s.At(r).avail - Held(as_, r)); }
      assert t.At(Cpu) == s.At(Cpu) && t.At(Mem) == s.At(Mem) && t.At(Gpu) == s.At(Gpu);
      assert t.bank == s.bank;
    } else {
      var a := as_[0];
      var u := FreeAlloc(t, id, a);
      forall r ensures Held(as_[1..], r) >= 0 && (WasGiven(as_[1..], r) ==> WasGiven(as_, r)) {
        HeldLocal(as_[1..], r);
        HeldLocal(as_, r);
      }
      if IsLocalGrant(a) {
        assert WasGiven(as_, a.res);
        assert t.At(a.res) == s.At(a.res).(avail := s.At(a.res).avail - Held(as_, a.res));
        assert u == Give(t, a.res, a.amount);
      }
      forall r ensures u.At(r) == s.At(r).(avail := s.At(r).avail - Held(as_[1..], r)) {
        assert t.At(r) == s.At(r).(avail := s.At(r).avail - Held(as_, r));
      }
      FreeRestores(s, u, id, as_[1..]);
    }
  }

  lemma ReleaseBlocked(t: State, r: Res, amount: int)
    requires QueueOk(t.At(r)) && amount > 0 && t.At(r).avail + amount <= t.At(r).total
    ensures var u := ReleaseRes(t, r, amount);
            && !CanPop(u.At(r)) && QueueOk(u.At(r)) && u.At(r).avail <= t.At(r).avail + amount
                 && u.At(r).total == t.At(r).total
            && (forall x :: x != r ==> u.At(x) == t.At(x))
            && (forall p :: p in u.At(r).queue ==> p in t.At(r).queue)
  {
    var g := Give(t, r, amount);
    var c := g.At(r);
    var k := Fit(c.queue, c.avail);
    assert c == t.At(r).(avail := t.At(r).avail + amount);
    assert QueueOk(c);
    DrainIsGreedy(g, r);
    DrainTakesPrefix(g, r);
    TakesLittle(c, k);
    forall x | x != r ensures ReleaseRes(t, r, amount).At(x) == t.At(x) { assert g.At(x) == t.At(x); }
  }

  /** What is left of a queue, and what it cost. */
  lemma TakesLittle(c: Resource, k: nat)
    requires QueueOk(c) && k <= |c.queue|
    ensures Total(c.queue[..k]) >= 0
    ensures forall i :: 0 <= i < |c.queue[k..]| ==> EntryOk(c.queue[k..][i], c.total)
  {
    forall i | 0 <= i < |c.queue[..k]| ensures c.queue[..k][i].amount > 0 { assert EntryOk(c.queue[i], c.total); }
    TotalPositive(c.queue[..k]);
    forall i | 0 <= i < |c.queue[k..]| ensures EntryOk(c.queue[k..][i], c.total) {
      assert EntryOk(c.queue[k+i], c.total);
    }
  }

  /** Every resource that was released ends with its head blocked, and queues only shrink. */
  lemma {:induction false} FreeBlocks(t: State, id: int, as_: seq<Alloc>, r: Res)
    requires LocalOnly(as_)
    requires forall x :: QueueOk(t.At(x)) && t.At(x).avail + Held(as_, x) <= t.At(x).total
    ensures WasGiven(as_, r) ==> !CanPop(FreeAll(t, id, as_).At(r))
    ensures !WasGiven(as_, r) ==> FreeAll(t, id, as_).At(r) == t.At(r)
    ensures forall p :: p in FreeAll(t, id, as_).At(r).queue ==> p in t.At(r).queue
    decreases |as_|
  {
    if as_ != [] {
      var a := as_[0];
      var u := FreeAlloc(t, id, a);
      HeldLocal(as_[1..], r);
      HeldLocal(as_, r);
      if IsLocalGrant(a) {
        HeldLocal(as_[1..], a.res);
        assert QueueOk(t.At(a.res)) && t.At(a.res).avail + Held(as_, a.res) <= t.At(a.res).total;
        ReleaseBlocked(t, a.res, a.amount);
      }
      forall x ensures QueueOk(u.At(x)) && u.At(x).avail + Held(as_[1..], x) <= u.At(x).total {
        assert QueueOk(t.At(x)) && t.At(x).avail + Held(as_, x) <= t.At(x).total;
      }
      FreeBlocks(u, id, as_[1..], r);
    }
  }

  // ---------------------------------------------------------------- the theorem

  /** A refused JOB_REQUEST restores counters, queues and job table exactly if and
      only if no queue already names the job and the head is blocked of every resource
      of which the request was given something before its refusal; the rollback then
      grants nobody. All of it is decided by the state and the request alone. */
  lemma RefusedRestores(s: State, k: Conn, id: int, reqs: seq<Req>)
    requires id !in s.jobs && forall r :: QueueOk(s.At(r))
    requires forall i :: 0 <= i < |reqs| ==> reqs[i].amount > 0
    requires exists i :: 0 <= i < |reqs| && Bad(s, reqs[i])
    ensures var p := Build(s, Job(id, k, [], []), reqs); var t := OnJobRequest(s, k, id, reqs);
            var restores := forall r :: !Named(s.At(r).queue, id) && (Payable(s, reqs, r) ==> !CanPop(s.At(r)));
            && ((forall r :: Alike(t.At(r), s.At(r))) <==> restores)
            && (restores ==> t.bank == s.bank && t.jobs == s.jobs && t.conns == s.conns
                             && t.log == p.s.log + [Out(k, JobDenied(id))])
  {
    var j := Job(id, k, [], []);
    var p := Build(s, j, reqs);
    var b := PurgeJob(p.s, id);
    BuildRefuses(s, j, reqs);
    forall r ensures WasGiven(p.j.confirmed, r) <==> Payable(s, reqs, r) { BuildGives(s, j, reqs, r); }
    RefusedState(s, k, id, reqs);
    var u := FreeAll(b, id, p.j.confirmed);
    assert OnJobRequest(s, k, id, reqs) == u.Send(k, JobDenied(id));
    if forall r :: !Named(s.At(r).queue, id) && (Payable(s, reqs, r) ==> !CanPop(s.At(r))) {
      Restored(s, b, p.j.confirmed, id);
    }
    assert forall r :: u.Send(k, JobDenied(id)).At(r) == u.At(r);
    if forall r :: Alike(u.At(r), s.At(r)) {
      NotRestored(s, b, p.j.confirmed, id);
    }
  }

  /** The state the rollback starts its releases from. */
  ghost predicate Undone(s: State, b: State, as_: seq<Alloc>, id: int) {
    && b.jobs == s.jobs && b.conns == s.conns && b.ip == s.ip && LocalOnly(as_)
    && forall r :: UndoneAt(s.At(r), b.At(r), as_, id, r)
  }

  ghost predicate UndoneAt(c: Resource, d: Resource, as_: seq<Alloc>, id: int, r: Res) {
    d == c.(avail := c.avail - Held(as_, r), queue := DropJob(c.queue, id)) && d.avail >= 0
  }

  lemma RefusedState(s: State, k: Conn, id: int, reqs: seq<Req>)
    requires forall r :: QueueOk(s.At(r))
    requires forall i :: 0 <= i < |reqs| ==> reqs[i].amount > 0
    ensures var p := Build(s, Job(id, k, [], []), reqs); Undone(s, PurgeJob(p.s, id), p.j.confirmed, id)
  {
    var j := Job(id, k, [], []);
    var p := Build(s, j, reqs);
    forall r ensures Charged(s.At(r), s.At(r), j.confirmed, id, r) { assert QueueOk(s.At(r)); }
    BuildCharges(s, s, j, reqs);
    forall r ensures UndoneAt(s.At(r), PurgeJob(p.s, id).At(r), p.j.confirmed, id, r) {
      assert Charged(s.At(r), p.s.At(r), p.j.confirmed, id, r);
      DropOwn(p.s.At(r).queue, |s.At(r).queue|, id);
      assert PurgeJob(p.s, id).At(r) == PurgeJobIn(p.s.At(r), id);
    }
  }

  lemma Restored(s: State, b: State, as_: seq<Alloc>, id: int)
    requires Undone(s, b, as_, id) && forall r :: QueueOk(s.At(r))
    requires forall r :: !Named(s.At(r).queue, id) && (WasGiven(as_, r) ==> !CanPop(s.At(r)))
    ensures FreeAll(b, id, as_) == b.(bank := s.bank)
  {
    forall r ensures b.At(r) == s.At(r).(avail := s.At(r).avail - Held(as_, r)) && s.At(r).avail <= s.At(r).total {
      assert UndoneAt(s.At(r), b.At(r), as_, id, r) && QueueOk(s.At(r));
      DropNone(s.At(r).queue, id);
    }
    FreeRestores(s, b, id, as_);
  }

  lemma NotRestored(s: State, b: State, as_: seq<Alloc>, id: int)
    requires Undone(s, b, as_, id) && (forall r :: QueueOk(s.At(r)))
    requires forall r :: Alike(FreeAll(b, id, as_).At(r), s.At(r))
    ensures forall r :: !Named(s.At(r).queue, id) && (WasGiven(as_, r) ==> !CanPop(s.At(r)))
  {
    forall r ensures QueueOk(b.At(r)) && b.At(r).avail + Held(as_, r) <= b.At(r).total {
      assert QueueOk(s.At(r)) && UndoneAt(s.At(r), b.At(r), as_, id, r);
      DroppedJob(s.At(r).queue, id);
      forall i | 0 <= i < |b.At(r).queue| ensures EntryOk(b.At(r).queue[i], b.At(r).total) {
        assert b.At(r).queue[i] in s.At(r).queue;
      }
      HeldLocal(as_, r);
    }
    forall r ensures !Named(s.At(r).queue, id) && (WasGiven(as_, r) ==> !CanPop(s.At(r))) {
      FreeBlocks(b, id, as_, r);
      DroppedJob(s.At(r).queue, id);
      assert UndoneAt(s.At(r), b.At(r), as_, id, r);
      assert Alike(FreeAll(b, id, as_).At(r), s.At(r));
      forall i | 0 <= i < |s.At(r).queue| ensures s.At(r).queue[i].job != id {
        assert s.At(r).queue[i] in FreeAll(b, id, as_).At(r).queue;
        assert s.At(r).queue[i] in b.At(r).queue;
      }
    }
  }

  // ---------------------------------------------------------------- a refusal that changes the agent

  ghost function Three(): State { Boot("h", 3, 0, 0) }

  /** One grant of 2, then requests of 3 and of 2 that wait; one unit comes back and
      the first of the two times out: its successor could be served, but nothing
      serves it before the next release. */
  ghost function Wait(): seq<Event> {
    [] + [EvReserve(Peer(1), 11, Cpu, 2)] + [EvReserve(Peer(1), 12, Cpu, 3)] + [EvReserve(Peer(1), 13, Cpu, 2)]
      + [EvRelease(Peer(1), 11, Cpu, 1)] + [EvJobTimeout(Planner(0), 12)]
  }

  ghost function CpuOf(avail: int, lent: int, queue: seq<Pending>, log: seq<Out>): State {
    Three().(bank := Three().bank.(cpu := Resource(avail, 3, queue, lent, [])), log := log)
  }

  ghost function Asks(id: int, amount: int): Pending { Pending(id, amount, Peer(1), Remote) }

  lemma PurgesNone(s: State, id: int, avail: int, lent: int, q: seq<Pending>, log: seq<Out>)
    requires s == CpuOf(avail, lent, q, log) && !Named(q, id)
    ensures PurgeJob(RemoveJob(s, id), id) == s
  {
    DropNone(q, id);
  }

  lemma WaitRun() returns (s: State)
    ensures LawfulRun(Three(), Wait()) && s == After(Three(), Wait())
    ensures s == CpuOf(2, 1, [Asks(13, 2)], [Out(Peer(1), Granted(11))])
  {
    var b := Three();
    var log := [Out(Peer(1), Granted(11))];
    var e1 := [] + [EvReserve(Peer(1), 11, Cpu, 2)];
    var e2 := e1 + [EvReserve(Peer(1), 12, Cpu, 3)];
    var e3 := e2 + [EvReserve(Peer(1), 13, Cpu, 2)];
    var e4 := e3 + [EvRelease(Peer(1), 11, Cpu, 1)];
    RunStep(b, [], EvReserve(Peer(1), 11, Cpu, 2));
    Nil(log);
    assert After(b, e1) == CpuOf(1, 2, [], log);
    RunStep(b, e1, EvReserve(Peer(1), 12, Cpu, 3));
    Nil([Asks(12, 3)]);
    assert After(b, e2) == CpuOf(1, 2, [Asks(12, 3)], log);
    RunStep(b, e2, EvReserve(Peer(1), 13, Cpu, 2));
    assert [Asks(12, 3)] + [Asks(13, 2)] == [Asks(12, 3), Asks(13, 2)];
    var c := CpuOf(1, 2, [Asks(12, 3), Asks(13, 2)], log);
    assert After(b, e3) == c;
    RunStep(b, e3, EvRelease(Peer(1), 11, Cpu, 1));
    GivesOne(log);
    RunStep(b, e4, EvJobTimeout(Planner(0), 12));
    DropsHead(log);
    s := CpuOf(2, 1, [Asks(13, 2)], log);
  }

  lemma GivesOne(log: seq<Out>)
    ensures var q := [Asks(12, 3), Asks(13, 2)]; OnRelease(CpuOf(1, 2, q, log), 11, Cpu, 1) == CpuOf(2, 1, q, log)
  {
    var q := [Asks(12, 3), Asks(13, 2)];
    var d := CpuOf(2, 1, q, log);
    assert Drain(d, Cpu) == d;
    PurgesNone(d, 11, 2, 1, q, log);
  }

  lemma DropsHead(log: seq<Out>)
    ensures OnJobTimeout(CpuOf(2, 1, [Asks(12, 3), Asks(13, 2)], log), 12) == CpuOf(2, 1, [Asks(13, 2)], log)
  {
    var q := [Asks(12, 3), Asks(13, 2)];
    assert q[1..] == [Asks(13, 2)];
    DropNone([Asks(13, 2)], 12);
    assert DropJob(q, 12) == [Asks(13, 2)];
  }

  ghost function CpuAndGpu(): seq<Req> { [Req("h", Cpu, 1, None), Req("h", Gpu, 1, None)] }

  /** The cpu is taken before the gpu is refused. */
  lemma TakesCpu(s: State, log: seq<Out>)
    requires s == CpuOf(2, 1, [Asks(13, 2)], log)
    ensures var a := Alloc(Cpu, 1, Local, "h", 5, RmGranted, Planner(0));
            Build(s, Job(5, Planner(0), [], []), CpuAndGpu())
            == Refused(CpuOf(1, 1, [Asks(13, 2)], log), Job(5, Planner(0), [a], []))
  {
    var a := Alloc(Cpu, 1, Local, "h", 5, RmGranted, Planner(0));
    var u := CpuOf(1, 1, [Asks(13, 2)], log);
    var j := Job(5, Planner(0), [a], []);
    assert [a] + [] == [a];
    assert CpuAndGpu()[1..][0] == Req("h", Gpu, 1, None);
    assert Build(u, j, CpuAndGpu()[1..]) == Refused(u, j);
  }

  ghost function Served(log: seq<Out>): State {
    CpuOf(0, 3, [], log + [Out(Peer(1), Granted(13))]).Put(Cpu, Resource(0, 3, [], 3, [Asks(13, 2)]))
  }

  /** Giving it back serves the one who waits. */
  lemma ServesWaiter(s: State, log: seq<Out>)
    requires s == CpuOf(1, 1, [Asks(13, 2)], log)
    ensures FreeAll(s, 5, [Alloc(Cpu, 1, Local, "h", 5, RmGranted, Planner(0))])
            == Served(log)
  {
    var a := Alloc(Cpu, 1, Local, "h", 5, RmGranted, Planner(0));
    var g := Give(s, Cpu, 1);
    var u := Served(log);
    assert g.At(Cpu).queue[1..] == [] && [a][1..] == [];
    assert Pop(g, Cpu) == u && Drain(u, Cpu) == u;
    assert FreeAll(u, 5, []) == u;
  }

  /** A request for one cpu and one gpu: the cpu is granted, the gpu refused, and
      undoing it grants the peer that had been waiting. */
  lemma RefusalServesWaiter() returns (s: State, t: State)
    ensures LawfulRun(Three(), Wait()) && s == After(Three(), Wait())
    ensures t == OnJobRequest(s, Planner(0), 5, CpuAndGpu()) && t.jobs == s.jobs && !Alike(t.At(Cpu), s.At(Cpu))
    ensures t.log == s.log + [Out(Peer(1), Granted(13))] + [Out(Planner(0), JobDenied(5))]
    ensures Bad(s, CpuAndGpu()[1]) && Payable(s, CpuAndGpu(), Cpu) && CanPop(s.At(Cpu))
  {
    s := WaitRun();
    var m := CpuOf(1, 1, [Asks(13, 2)], s.log);
    TakesCpu(s, s.log);
    DropNone([Asks(13, 2)], 5);
    assert PurgeJob(m, 5) == m;
    ServesWaiter(m, s.log);
    t := Served(s.log).Send(Planner(0), JobDenied(5));
  }
}
