/** JOB_REQUEST: building a job share by share, and undoing it when refused. */
module Requests {
  import opened Types
  import opened Allocator
  import opened Ledger
  import opened Cascade
  import opened Handlers
  import CT = ConnTable

  /** The state as it would be with the job under construction in the table. */
  ghost function With(s: State, j: Job): State { s.(jobs := s.jobs[j.id := j]) }

  /** What the planner's request looks like to the agent: positive amounts, each
      resource of this host at most once, and dialled connections face peers. */
  ghost predicate RequestOk(ip: string, reqs: seq<Req>) {
    && (forall i :: 0 <= i < |reqs| ==> reqs[i].amount > 0 && (reqs[i].dial.Some? ==> reqs[i].dial.value.Peer?))
    && (forall i, k :: 0 <= i < k < |reqs| && reqs[i].host == ip && reqs[k].host == ip ==> reqs[i].res != reqs[k].res)
  }

  /** None of the shares still asked of this host is already in the job. */
  ghost predicate Unasked(j: Job, ip: string, reqs: seq<Req>) {
    forall i, k :: 0 <= i < |reqs| && reqs[i].host == ip && 0 <= k < |j.confirmed| && j.confirmed[k].kind == Local
      ==> j.confirmed[k].res != reqs[i].res
  }

  /** While a job is being built only reservations are sent. */
  ghost predicate Asking(s: State, t: State) {
    && t.jobs == s.jobs && t.conns == s.conns && t.ip == s.ip
    && (forall r :: t.At(r).total == s.At(r).total)
    && (forall k, id :: Owing(t, k, id) == Owing(s, k, id))
    && (forall o: Out :: !o.msg.Reserve? ==> multiset(t.log)[o] == multiset(s.log)[o])
  }

  lemma AskingTrans(s: State, t: State, u: State)
    requires Asking(s, t) && Asking(t, u)
    ensures Asking(s, u)
  {
    forall k, id ensures Owing(u, k, id) == Owing(s, k, id) { assert Owing(t, k, id) == Owing(s, k, id); }
    forall o: Out | !o.msg.Reserve? ensures multiset(u.log)[o] == multiset(s.log)[o] {
      assert multiset(t.log)[o] == multiset(s.log)[o];
    }
  }

  ghost predicate PeersOnly(t: CT.Table) {
    forall i, k :: 0 <= i < |t| && 0 <= k < |t[i]| ==> t[i][k].conn.Peer?
  }

  lemma {:induction false} FirstIsEntry(b: seq<CT.Entry>, host: string)
    requires forall k :: 0 <= k < |b| ==> b[k].conn.Peer?
    ensures CT.FirstByHost(b, host).Some? ==> CT.FirstByHost(b, host).value.Peer?
  {
    if b != [] && b[0].host != host { FirstIsEntry(b[1..], host); }
  }

  lemma LookupPeer(t: CT.Table, host: string)
    requires PeersOnly(t)
    ensures CT.Lookup(t, host).Some? ==> CT.Lookup(t, host).value.Peer?
  {
    FirstIsEntry(t[CT.Bucket(host)], host);
  }

  // ---------------------------------------------------------------- one local share

  lemma LocalJobOk(j: Job, id: int, a: Alloc)
    requires JobOk(j, id) && AllocOk(a, id, j.conn) && a.kind == Local
    requires forall k :: 0 <= k < |j.confirmed| && j.confirmed[k].kind == Local ==> j.confirmed[k].res != a.res
    ensures JobOk(j.(confirmed := [a] + j.confirmed), id)
    ensures Held([a] + j.confirmed, a.res) == if a.outcome == RmGranted then a.amount else 0
    ensures Wanted([a] + j.confirmed, a.res)
            == if a.outcome == RmQueued then [Pending(a.job, a.amount, a.conn, Local)] else []
    ensures Held(j.confirmed, a.res) == 0 && Wanted(j.confirmed, a.res) == []
    ensures forall x :: x != a.res
              ==> Held([a] + j.confirmed, x) == Held(j.confirmed, x)
                  && Wanted([a] + j.confirmed, x) == Wanted(j.confirmed, x)
  {
    var as_ := [a] + j.confirmed;
    NoLocal(j.confirmed, a.res);
    assert as_[1..] == j.confirmed;
    forall i | 0 <= i < |as_| ensures AllocOk(as_[i], id, j.conn) { if i > 0 { assert as_[i] == j.confirmed[i-1]; } }
    forall i, k | 0 <= i < k < |as_| && as_[i].kind == Local && as_[k].kind == Local ensures as_[i].res != as_[k].res {
      assert as_[k] == j.confirmed[k-1];
      if i > 0 { assert as_[i] == j.confirmed[i-1]; }
    }
  }

  lemma LocalAsking(s: State, j: Job, r: Res, amount: int)
    ensures Asking(s, ReserveRes(s, r, amount, j.id, j.conn, Local).0)
  {
    var t := ReserveRes(s, r, amount, j.id, j.conn, Local).0;
    Appended(s.At(r).queue, Pending(j.id, amount, j.conn, Local));
    forall k, id ensures Owing(t, k, id) == Owing(s, k, id) {
      InQueuesWith(s.bank, r, t.At(r), k, id);
      assert t == s || t.bank == s.bank.With(r, t.At(r));
    }
  }

  /** The share is accounted for in the counter or in the queue, as the outcome says. */
  ghost predicate Entered(s: State, t: State, a: Alloc) {
    var c := s.At(a.res);
    && t.jobs == s.jobs && t.ip == s.ip && t.conns == s.conns
    && (forall x :: x != a.res ==> t.At(x) == s.At(x))
    && (a.outcome == RmGranted ==> a.amount <= c.avail && t.At(a.res) == c.(avail := c.avail - a.amount))
    && (a.outcome == RmQueued ==>
          && c.avail < a.amount <= c.total
          && t.At(a.res) == c.(queue := c.queue + [Pending(a.job, a.amount, a.conn, Local)]))
  }

  lemma EnteredUse(s: State, t: State, j: Job, a: Alloc, x: Res)
    requires j.id !in s.jobs && Entered(s, t, a) && a.outcome != RmDenied
    requires Held([a] + j.confirmed, x)
             == Held(j.confirmed, x) + if x == a.res && a.outcome == RmGranted then a.amount else 0
    ensures Use(With(t, j.(confirmed := [a] + j.confirmed)), x) == Use(With(s, j), x)
  {
    SumSet(s.jobs, j.id, j, x);
    SumSet(s.jobs, j.id, j.(confirmed := [a] + j.confirmed), x);
    assert With(s, j).At(x) == s.At(x) && With(t, j.(confirmed := [a] + j.confirmed)).At(x) == t.At(x);
  }

  lemma EnteredMatched(s: State, t: State, j: Job, a: Alloc, x: Res, id: int)
    requires j.id !in s.jobs && Entered(s, t, a) && a.outcome != RmDenied && a.job == j.id
    requires Matched(With(s, j), x, id) && Wanted(j.confirmed, a.res) == []
    requires Wanted([a] + j.confirmed, a.res)
             == if a.outcome == RmQueued then [Pending(a.job, a.amount, a.conn, Local)] else []
    requires x != a.res ==> Wanted([a] + j.confirmed, x) == Wanted(j.confirmed, x)
    ensures Matched(With(t, j.(confirmed := [a] + j.confirmed)), x, id)
    ensures id != j.id && Entries(s.At(x).queue, id) == [] ==> Entries(t.At(x).queue, id) == []
  {
    Appended(s.At(x).queue, Pending(a.job, a.amount, a.conn, Local));
    assert With(s, j).At(x) == s.At(x) && With(t, j.(confirmed := [a] + j.confirmed)).At(x) == t.At(x);
  }

  lemma EnteredQueue(s: State, t: State, a: Alloc, x: Res)
    requires Entered(s, t, a) && a.outcome != RmDenied && QueueOk(s.At(x)) && a.amount > 0
    requires s.At(x).queue != [] ==> s.At(x).avail < s.At(x).total
    ensures QueueOk(t.At(x)) && (t.At(x).queue != [] ==> t.At(x).avail < t.At(x).total)
    ensures t.At(x).total == s.At(x).total && t.At(x).lent == s.At(x).lent
  {
  }

  lemma EnteredInv(s: State, t: State, j: Job, a: Alloc)
    requires j.id !in s.jobs && Inv(With(s, j)) && Entered(s, t, a)
    requires AllocOk(a, j.id, j.conn) && a.kind == Local
    requires forall k :: 0 <= k < |j.confirmed| && j.confirmed[k].kind == Local ==> j.confirmed[k].res != a.res
    ensures var j' := j.(confirmed := [a] + j.confirmed); Inv(With(t, j')) && SameUse(With(s, j), With(t, j'))
  {
    var j' := j.(confirmed := [a] + j.confirmed);
    var v := With(s, j);
    var w := With(t, j');
    assert v.jobs[j.id] == j && JobOk(j, j.id);
    LocalJobOk(j, j.id, a);
    forall x ensures v.At(x) == s.At(x) && w.At(x) == t.At(x) {}
    forall x ensures Use(w, x) == Use(v, x) { EnteredUse(s, t, j, a, x); }
    forall x ensures QueueOk(w.At(x)) && Solvent(w, x) && (w.At(x).queue != [] ==> w.At(x).avail < w.At(x).total) {
      assert QueueOk(v.At(x)) && Solvent(v, x);
      EnteredQueue(s, t, a, x);
    }
    assert w.jobs.Keys == v.jobs.Keys;
    forall id | id in w.jobs ensures JobOk(w.jobs[id], id) { assert JobOk(v.jobs[id], id); }
    forall x, id ensures Matched(w, x, id) { assert Matched(v, x, id); EnteredMatched(s, t, j, a, x, id); }
    forall x, id | id !in w.jobs ensures Entries(w.At(x).queue, id) == [] {
      assert Entries(v.At(x).queue, id) == [];
      assert Matched(v, x, id);
      EnteredMatched(s, t, j, a, x, id);
    }
  }

  /** Reserving a share of this host for the job under construction. */
  lemma LocalShare(s: State, j: Job, r: Res, amount: int)
    requires j.id !in s.jobs && Inv(With(s, j)) && amount > 0
    requires forall k :: 0 <= k < |j.confirmed| && j.confirmed[k].kind == Local ==> j.confirmed[k].res != r
    ensures var (t, o) := ReserveRes(s, r, amount, j.id, j.conn, Local);
            && Asking(s, t)
            && (o != RmDenied ==>
                  var j' := j.(confirmed := [Alloc(r, amount, Local, s.ip, j.id, o, j.conn)] + j.confirmed);
                  Inv(With(t, j')) && SameUse(With(s, j), With(t, j')))
  {
    var (t, o) := ReserveRes(s, r, amount, j.id, j.conn, Local);
    LocalAsking(s, j, r, amount);
    if o != RmDenied {
      assert QueueOk(With(s, j).At(r));
      ShareAt(s, r, amount, j.id, j.conn);
      assert With(s, j).jobs[j.id] == j && JobOk(j, j.id);
      EnteredInv(s, t, j, Alloc(r, amount, Local, s.ip, j.id, o, j.conn));
    }
  }

  lemma ShareAt(s: State, r: Res, amount: int, id: int, k: Conn)
    requires QueueOk(s.At(r)) && amount > 0
    ensures var (t, o) := ReserveRes(s, r, amount, id, k, Local); var c := s.At(r);
            && (forall x :: x != r ==> t.At(x) == s.At(x))
            && (o == RmGranted ==> amount <= c.avail && t.At(r) == c.(avail := c.avail - amount))
            && (o == RmQueued ==>
                  c.avail < amount <= c.total && t.At(r) == c.(queue := c.queue + [Pending(id, amount, k, Local)]))
  {
  }

  /** Asking a peer changes only the job's outgoing requests. */
  lemma RemoteShare(s: State, t: State, j: Job, j': Job)
    requires Inv(With(s, j)) && j.id !in s.jobs
    requires t.bank == s.bank && t.jobs == s.jobs && t.ip == s.ip && t.conns == s.conns
    requires j'.id == j.id && j'.conn == j.conn && j'.confirmed == j.confirmed
    requires PendingsOk(j'.pending, j.id)
    ensures Inv(With(t, j')) && SameUse(With(s, j), With(t, j'))
  {
    var v := With(s, j);
    var w := With(t, j');
    assert v.jobs[j.id] == j && JobOk(j, j.id);
    forall x ensures w.At(x) == v.At(x) {}
    forall x ensures Use(w, x) == Use(v, x) {
      SumSet(s.jobs, j.id, j, x);
      SumSet(s.jobs, j.id, j', x);
    }
    assert forall id :: id in w.jobs <==> id in v.jobs;
    forall id | id in w.jobs ensures JobOk(w.jobs[id], id) { assert JobOk(v.jobs[id], id); }
    forall x ensures QueueOk(w.At(x)) && Solvent(w, x) { assert QueueOk(v.At(x)) && Solvent(v, x); }
    forall x, id ensures Matched(w, x, id) { assert Matched(v, x, id); }
    forall x, id | id !in w.jobs ensures Entries(w.At(x).queue, id) == [] { assert Entries(v.At(x).queue, id) == []; }
  }

  // ---------------------------------------------------------------- the loop

  lemma {:induction false} BuildKeeps(s: State, j: Job, reqs: seq<Req>)
    requires j.id !in s.jobs && Inv(With(s, j)) && PeersOnly(s.conns)
    requires RequestOk(s.ip, reqs) && Unasked(j, s.ip, reqs)
    ensures var p := Build(s, j, reqs);
            && p.j.id == j.id && p.j.conn == j.conn && Asking(s, p.s)
            && Inv(With(p.s, p.j)) && SameUse(With(s, j), With(p.s, p.j))
    decreases |reqs|
  {
    if reqs != [] {
      var q := reqs[0];
      var rest := reqs[1..];
      var p := Build(s, j, reqs);
      assert RequestOk(s.ip, rest);
      assert With(s, j).jobs[j.id] == j && JobOk(j, j.id);
      if q.host == s.ip {
        var (t, o) := ReserveRes(s, q.res, q.amount, j.id, j.conn, Local);
        LocalShare(s, j, q.res, q.amount);
        if o != RmDenied {
          var j' := j.(confirmed := [Alloc(q.res, q.amount, Local, s.ip, j.id, o, j.conn)] + j.confirmed);
          StillUnasked(j, s.ip, reqs, o);
          BuildKeeps(t, j', rest);
          AskingTrans(s, t, p.s);
        }
      } else {
        LookupPeer(s.conns, q.host);
        var k := CT.Lookup(s.conns, q.host);
        if k.Some? {
          var t := s.Send(k.value, Reserve(j.id, q.res, q.amount));
          var j' := Ask(j, q, k.value, None);
          assert Asking(s, t);
          AskPeers(j, q, k.value, None);
          RemoteShare(s, t, j, j');
          BuildKeeps(t, j', rest);
          AskingTrans(s, t, p.s);
        } else if q.dial.Some? {
          var j' := Ask(j, q, q.dial.value, Some(Reserve(j.id, q.res, q.amount)));
          AskPeers(j, q, q.dial.value, Some(Reserve(j.id, q.res, q.amount)));
          RemoteShare(s, s, j, j');
          BuildKeeps(s, j', rest);
        }
      }
    }
  }

  lemma StillUnasked(j: Job, ip: string, reqs: seq<Req>, o: Outcome)
    requires reqs != [] && RequestOk(ip, reqs) && Unasked(j, ip, reqs) && reqs[0].host == ip
    ensures Unasked(j.(confirmed := [Alloc(reqs[0].res, reqs[0].amount, Local, ip, j.id, o, j.conn)] + j.confirmed),
            ip, reqs[1..])
  {
    var rest := reqs[1..];
    var as_ := [Alloc(reqs[0].res, reqs[0].amount, Local, ip, j.id, o, j.conn)] + j.confirmed;
    forall i, k | 0 <= i < |rest| && rest[i].host == ip && 0 <= k < |as_| && as_[k].kind == Local
      ensures as_[k].res != rest[i].res
    {
      assert rest[i] == reqs[i+1];
      if k > 0 { assert as_[k] == j.confirmed[k-1]; }
    }
  }

  lemma AskPeers(j: Job, q: Req, k: Conn, held: Option<Msg>)
    requires k.Peer? && PendingsOk(j.pending, j.id) && (held.Some? ==> held.value == Reserve(j.id, q.res, q.amount))
    ensures PendingsOk(Ask(j, q, k, held).pending, j.id)
  {
    forall i | 0 < i < |Ask(j, q, k, held).pending| ensures Ask(j, q, k, held).pending[i] == j.pending[i-1] {}
  }

  /** The empty job changes nothing. */
  lemma EmptyJob(s: State, id: int, k: Conn)
    requires Inv(s) && id !in s.jobs && k.Planner?
    ensures Inv(With(s, Job(id, k, [], []))) && SameUse(s, With(s, Job(id, k, [], [])))
  {
    var j := Job(id, k, [], []);
    var w := With(s, j);
    forall x ensures w.At(x) == s.At(x) {}
    forall x ensures Use(w, x) == Use(s, x) { SumSet(s.jobs, id, j, x); }
    forall i | i in w.jobs ensures JobOk(w.jobs[i], i) { if i != id { assert JobOk(s.jobs[i], i); } }
    forall x ensures QueueOk(w.At(x)) && Solvent(w, x) { assert QueueOk(s.At(x)) && Solvent(s, x); }
    forall x, i ensures Matched(w, x, i) { assert Matched(s, x, i); }
    forall x, i | i !in w.jobs ensures Entries(w.At(x).queue, i) == [] { assert Entries(s.At(x).queue, i) == []; }
  }

  /** The state from which the shares of a refused job are freed. */
  lemma RollbackRoom(t: State, j: Job)
    requires j.id !in t.jobs && Inv(With(t, j))
    ensures var p := PurgeJob(t, j.id);
            && Good(p) && Settled(p) && Calm(t, p) && Room(p, j.confirmed) && AllocsOk(j.confirmed, j.id, j.conn)
            && (forall r :: Clean(p, r) && Use(p, r) + Held(j.confirmed, r) == Use(With(t, j), r))
  {
    var v := With(t, j);
    assert v.jobs - {j.id} == t.jobs;
    assert v.(jobs := v.jobs - {j.id}) == t;
    TakeOut(v, j.id);
    var p := PurgeJob(t, j.id);
    PurgeKeeps(t, j.id);
    PurgeSettled(t, j.id);
    PurgeAt(t, j.id);
    forall r ensures Clean(p, r) {
      forall k | k !in p.jobs ensures Entries(p.At(r).queue, k) == [] {}
    }
    forall r ensures p.At(r).lent >= 0 && Use(p, r) + Held(j.confirmed, r) <= p.At(r).total {
      assert t.At(r).lent >= 0;
    }
    assert v.jobs[j.id] == j && JobOk(j, j.id);
  }

  /** Undoing a refused job gives everything back. */
  lemma RollbackKeeps(t: State, j: Job)
    requires j.id !in t.jobs && Inv(With(t, j))
    ensures var u := FreeAll(PurgeJob(t, j.id), j.id, j.confirmed);
            Inv(u) && SameUse(With(t, j), u) && Calm(t, u)
  {
    var v := With(t, j);
    var p := PurgeJob(t, j.id);
    RollbackRoom(t, j);
    FreeAllKeeps(p, j.id, j.confirmed, j.conn);
    var u := FreeAll(p, j.id, j.confirmed);
    CalmTrans(t, p, u);
    forall r ensures Use(u, r) == Use(v, r) { assert Clean(p, r); }
    forall r ensures Use(u, r) <= u.At(r).total && u.At(r).lent >= 0 { assert Solvent(v, r); assert p.At(r).lent >= 0; }
    forall r, k | k !in u.jobs ensures Entries(u.At(r).queue, k) == [] { assert Clean(p, r); }
    CloseUp(v, u, j.id);
  }

  /** What a JOB_REQUEST does, accepted or refused. */
  ghost predicate Requested(s: State, t: State, k: Conn, id: int) {
    && t.conns == s.conns && t.ip == s.ip
    && (forall r :: t.At(r).total == s.At(r).total)
    && s.jobs.Keys <= t.jobs.Keys <= s.jobs.Keys + {id}
    && (forall j :: j in s.jobs ==> SameJob(s, t, j))
    && (id in t.jobs && id !in s.jobs ==>
          && t.jobs[id].conn == k
          && Phi(t, id) == multiset(s.log)[Out(k, JobGranted(id))])
    && (forall c, j :: Owing(t, c, j) <= Owing(s, c, j))
  }

  lemma JobRequestKeeps(s: State, k: Conn, id: int, reqs: seq<Req>)
    requires Inv(s) && k.Planner? && PeersOnly(s.conns) && RequestOk(s.ip, reqs)
    ensures var t := OnJobRequest(s, k, id, reqs); Inv(t) && SameUse(s, t) && Requested(s, t, k, id)
  {
    var t := OnJobRequest(s, k, id, reqs);
    if id !in s.jobs {
      var j0 := Job(id, k, [], []);
      EmptyJob(s, id, k);
      BuildKeeps(s, j0, reqs);
      var p := Build(s, j0, reqs);
      forall r ensures Use(With(p.s, p.j), r) == Use(s, r) { assert Use(With(s, j0), r) == Use(s, r); }
      if p.Built? {
        Accepted(s, p.s, p.j, k, id);
      } else {
        RollbackKeeps(p.s, p.j);
        Refusal(s, p.s, p.j, k, id);
      }
    }
  }

  lemma Accepted(s: State, b: State, j: Job, k: Conn, id: int)
    requires id !in s.jobs && j.id == id && j.conn == k && Asking(s, b) && Inv(With(b, j)) && SameUse(s, With(b, j))
    ensures var u := With(b, j); var t := if Ready(j) then u.Send(k, JobGranted(id)) else u;
            Inv(t) && SameUse(s, t) && Requested(s, t, k, id)
  {
    var u := With(b, j);
    var t := if Ready(j) then u.Send(k, JobGranted(id)) else u;
    forall x ensures t.At(x) == u.At(x) && u.At(x) == b.At(x) {}
    forall x ensures QueueOk(t.At(x)) && Solvent(t, x) && Use(t, x) == Use(s, x) {
      assert QueueOk(u.At(x)) && Solvent(u, x);
      assert Use(u, x) == Use(s, x);
    }
    forall x, i ensures Matched(t, x, i) { assert Matched(u, x, i); }
    forall x, i | i !in t.jobs ensures Entries(t.At(x).queue, i) == [] { assert Entries(u.At(x).queue, i) == []; }
    forall c, i ensures Owing(t, c, i) <= Owing(s, c, i) { assert Owing(b, c, i) == Owing(s, c, i); }
    forall i | i in s.jobs ensures SameJob(s, t, i) {
      assert multiset(b.log)[Out(s.jobs[i].conn, JobGranted(i))] == multiset(s.log)[Out(s.jobs[i].conn, JobGranted(i))];
    }
    assert multiset(b.log)[Out(k, JobGranted(id))] == multiset(s.log)[Out(k, JobGranted(id))];
  }

  lemma Refusal(s: State, b: State, j: Job, k: Conn, id: int)
    requires id !in s.jobs && j.id == id && Asking(s, b) && SameUse(s, With(b, j))
    requires var u := FreeAll(PurgeJob(b, id), id, j.confirmed); Inv(u) && SameUse(With(b, j), u) && Calm(b, u)
    ensures var t := FreeAll(PurgeJob(b, id), id, j.confirmed).Send(k, JobDenied(id));
            Inv(t) && SameUse(s, t) && Requested(s, t, k, id)
  {
    var u := FreeAll(PurgeJob(b, id), id, j.confirmed);
    var t := u.Send(k, JobDenied(id));
    SendCalm(u, k, JobDenied(id));
    forall x ensures t.At(x) == u.At(x) {}
    forall x ensures Solvent(t, x) && Use(t, x) == Use(s, x) {
      assert Solvent(u, x);
      assert Use(u, x) == Use(With(b, j), x);
      assert Use(With(b, j), x) == Use(s, x);
    }
    forall x, i | i !in t.jobs ensures Entries(t.At(x).queue, i) == [] { assert Entries(u.At(x).queue, i) == []; }
    forall c, i ensures Owing(t, c, i) <= Owing(s, c, i) {
      assert Owing(u, c, i) <= Owing(b, c, i);
      assert Owing(b, c, i) == Owing(s, c, i);
    }
    forall i | i in s.jobs ensures SameJob(s, t, i) {
      assert SameJob(b, u, i);
      assert multiset(b.log)[Out(s.jobs[i].conn, JobGranted(i))] == multiset(s.log)[Out(s.jobs[i].conn, JobGranted(i))];
    }
  }
}
