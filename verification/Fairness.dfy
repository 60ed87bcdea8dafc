/** The order of grants: what one drain answers and marks, and that over any run
    no waiting request is granted while an earlier one of its queue still waits. */
module Fairness {
  import opened Types
  import opened Seqs
  import opened Allocator
  import opened Ledger
  import opened Greedy
  import opened Cascade
  import opened Handlers
  import opened Disconnects
  import opened Requests
  import opened Wiring
  import opened Runs
  import opened Fates
  import CT = ConnTable

  // ---------------------------------------------------------------- one drain

  /** The answers to requests that were granted, in order: GRANTED to a peer,
      JOB_GRANTED to a planner whose job the grants completed. */
  ghost function Answers(ps: seq<Pending>, jobs: map<int, Job>): seq<Out> {
    if ps == [] then []
    else if ps[0].origin == Remote then [Out(ps[0].owner, Granted(ps[0].job))] + Answers(ps[1..], jobs)
    else if ReadyIn(jobs, ps[0].job) then [Out(ps[0].owner, JobGranted(ps[0].job))] + Answers(ps[1..], jobs)
    else Answers(ps[1..], jobs)
  }

  ghost function MarkedIf(j: Job, ps: seq<Pending>, id: int, r: Res): Job {
    if Entries(ps, id) == [] then j else j.(confirmed := Mark(j.confirmed, j.conn, r))
  }

  /** The jobs with the waits for r of those that own one of the requests marked. */
  ghost predicate MarkedBy(jobs: map<int, Job>, jobs': map<int, Job>, ps: seq<Pending>, r: Res) {
    jobs'.Keys == jobs.Keys && forall id :: id in jobs ==> jobs'[id] == MarkedIf(jobs[id], ps, id, r)
  }

  lemma {:induction false} NoneInPrefix(ps: seq<Pending>, q: seq<Pending>, id: int)
    requires ps <= q && Entries(q, id) == []
    ensures Entries(ps, id) == []
  {
    if ps != [] { NoneInPrefix(ps[1..], q[1..], id); }
  }

  /** A grant settles its job's wait, so the job has no later request in the queue. */
  lemma MarkedOne(s: State, r: Res, jobs': map<int, Job>, ps: seq<Pending>, id: int)
    requires Good(s) && CanPop(s.At(r)) && ps <= s.At(r).queue[1..] && id in s.jobs
    requires MarkedBy(Pop(s, r).jobs, jobs', ps, r)
    ensures id in jobs' && jobs'[id] == MarkedIf(s.jobs[id], [s.At(r).queue[0]] + ps, id, r)
  {
    var p := s.At(r).queue[0];
    PopJobs(s, r);
    Parts([p], ps);
    if Serves(s, p) && p.job == id {
      HeadIsWait(s, r);
      NoneInPrefix(ps, s.At(r).queue[1..], id);
    }
  }

  lemma MarkedTrans(s: State, r: Res, jobs': map<int, Job>, ps: seq<Pending>)
    requires Good(s) && CanPop(s.At(r)) && ps <= s.At(r).queue[1..]
    requires MarkedBy(Pop(s, r).jobs, jobs', ps, r)
    ensures MarkedBy(s.jobs, jobs', [s.At(r).queue[0]] + ps, r)
  {
    PopGood(s, r);
    forall id | id in s.jobs ensures jobs'[id] == MarkedIf(s.jobs[id], [s.At(r).queue[0]] + ps, id, r) {
      MarkedOne(s, r, jobs', ps, id);
    }
  }

  /** Whether a job is ready does not change once its own wait was marked. */
  lemma HeadReady(s: State, r: Res, jobs': map<int, Job>, ps: seq<Pending>)
    requires Good(s) && CanPop(s.At(r)) && ps <= s.At(r).queue[1..] && s.At(r).queue[0].origin == Local
    requires MarkedBy(Pop(s, r).jobs, jobs', ps, r)
    ensures ReadyIn(Pop(s, r).jobs, s.At(r).queue[0].job) == ReadyIn(jobs', s.At(r).queue[0].job)
  {
    var p := s.At(r).queue[0];
    PopGood(s, r);
    if p.job in s.jobs {
      HeadIsWait(s, r);
      NoneInPrefix(ps, s.At(r).queue[1..], p.job);
    }
  }

  /** One grant answers its request, if it completes anything. */
  lemma PopAnswers(s: State, r: Res, jobs': map<int, Job>, ps: seq<Pending>)
    requires CanPop(s.At(r))
    requires var p := s.At(r).queue[0]; p.origin == Local ==> ReadyIn(Pop(s, r).jobs, p.job) == ReadyIn(jobs', p.job)
    ensures Pop(s, r).log + Answers(ps, jobs') == s.log + Answers([s.At(r).queue[0]] + ps, jobs')
  {
    var p := s.At(r).queue[0];
    var rest := Answers(ps, jobs');
    Parts([p], ps);
    if p.origin == Remote {
      Assoc(s.log, [Out(p.owner, Granted(p.job))], rest);
    } else if ReadyIn(jobs', p.job) {
      Assoc(s.log, [Out(p.owner, JobGranted(p.job))], rest);
    }
  }

  /** One grant less to go. */
  lemma PopFit(s: State, r: Res)
    requires CanPop(s.At(r))
    ensures var c := s.At(r); var d := Pop(s, r).At(r);
            d.queue == c.queue[1..] && Fit(c.queue, c.avail) == 1 + Fit(d.queue, d.avail)
                && Drain(s, r) == Drain(Pop(s, r), r)
  {
    PopAt(s, r);
  }

  /** The requests are answered in their order and their waits marked. */
  ghost predicate Grants(s: State, t: State, ps: seq<Pending>, r: Res) {
    t.log == s.log + Answers(ps, t.jobs) && MarkedBy(s.jobs, t.jobs, ps, r)
  }

  /** One grant before the others. */
  lemma PopGrants(s: State, r: Res, t: State, ps: seq<Pending>)
    requires Good(s) && CanPop(s.At(r)) && ps <= s.At(r).queue[1..] && Grants(Pop(s, r), t, ps, r)
    ensures Grants(s, t, [s.At(r).queue[0]] + ps, r)
  {
    MarkedTrans(s, r, t.jobs, ps);
    if s.At(r).queue[0].origin == Local { HeadReady(s, r, t.jobs, ps); }
    PopAnswers(s, r, t.jobs, ps);
  }

  /** The drain answers exactly the requests of the prefix it takes, in their
      order, and marks exactly the waits of that prefix. */
  lemma {:induction false} DrainGrants(s: State, r: Res)
    requires Good(s)
    ensures Grants(s, Drain(s, r), s.At(r).queue[..Fit(s.At(r).queue, s.At(r).avail)], r)
    decreases |s.At(r).queue|
  {
    var q := s.At(r).queue;
    var k := Fit(q, s.At(r).avail);
    if CanPop(s.At(r)) {
      var u := Pop(s, r);
      PopGood(s, r);
      PopFit(s, r);
      DrainGrants(u, r);
      Prefix(q, k);
      PopGrants(s, r, Drain(u, r), q[1..][..k-1]);
    } else {
      assert q[..0] == [];
      Nil(s.log);
    }
  }

  /** One run of the release loop: it grants the longest prefix of the queue that
      fits, answers exactly those requests in their order and marks exactly their
      jobs' waits. */
  lemma DrainServes(s: State, r: Res) returns (k: nat)
    requires Good(s)
    ensures Fits(s.At(r).queue, s.At(r).avail, k)
    ensures forall n :: Fits(s.At(r).queue, s.At(r).avail, n) ==> n <= k
    ensures var c := s.At(r); var t := Drain(s, r);
            && t.At(r).queue == c.queue[k..] && t.At(r).avail == c.avail - Total(c.queue[..k])
            && Grants(s, t, c.queue[..k], r)
  {
    k := Fit(s.At(r).queue, s.At(r).avail);
    assert QueueOk(s.At(r));
    FitLongest(s.At(r));
    DrainTakesPrefix(s, r);
    DrainGrants(s, r);
  }

  lemma Prefix(q: seq<Pending>, k: nat)
    requires 0 < k <= |q|
    ensures q[..k] == [q[0]] + q[1..][..k-1] && q[1..][..k-1] <= q[1..]
  {
  }

  // ---------------------------------------------------------------- the three queues

  datatype Ways = Ways(cpu: Way, mem: Way, gpu: Way) {
    ghost function At(r: Res): Way {
      match r
      case Cpu => cpu
      case Mem => mem
      case Gpu => gpu
    }

    ghost function With(r: Res, w: Way): (ws: Ways)
      ensures forall x :: ws.At(x) == if x == r then w else At(x)
    {
      match r
      case Cpu => this.(cpu := w)
      case Mem => this.(mem := w)
      case Gpu => this.(gpu := w)
    }
  }

  /** The GRANTEDs that the requests granted from the queues call for. */
  ghost function Served(ws: Ways, k: Conn, id: int): nat {
    Waiting(ws.cpu.granted, k, id) + Waiting(ws.mem.granted, k, id) + Waiting(ws.gpu.granted, k, id)
  }

  /** The amount of a resource that a job has asked of this host, granted or not. */
  ghost function Claim(as_: seq<Alloc>, r: Res): int {
    if as_ == [] then 0
    else (if as_[0].kind == Local && as_[0].res == r then as_[0].amount else 0) + Claim(as_[1..], r)
  }

  /** The jobs that are not named stay in the table with what they asked for. */
  ghost predicate Loyal(s: State, t: State, ids: set<int>) {
    forall id :: id in s.jobs && id !in ids ==> id in t.jobs && SameClaims(s.jobs[id], t.jobs[id])
  }

  ghost predicate SameClaims(j: Job, j': Job) {
    forall r :: Claim(j'.confirmed, r) == Claim(j.confirmed, r)
  }

  /** A queue goes its way, the history of its grants grows by those granted, and
      local newcomers belong to the jobs named. */
  ghost predicate Goes(c: Resource, d: Resource, w: Way, ids: set<int>, ks: set<Conn>) {
    && Led(c.queue, d.queue, w, ids, ks) && d.served == c.served + w.granted
    && (forall p :: p in w.added && p.origin == Local ==> p.job in ids)
  }

  /** From one state to another: each queue goes its way, only requests of these
      jobs and connections are purged, the other jobs keep their claims, and the
      GRANTEDs sent are those of the requests granted from the queues and those sent
      at once. */
  ghost predicate Flow(s: State, t: State, ws: Ways, ids: set<int>, ks: set<Conn>, once: multiset<Out>) {
    && (forall r :: Goes(s.At(r), t.At(r), ws.At(r), ids, ks))
    && (forall k, id :: Tallied(s, t, ws, once, k, id))
    && Loyal(s, t, ids)
  }

  ghost predicate Tallied(s: State, t: State, ws: Ways, once: multiset<Out>, k: Conn, id: int) {
    var o := Out(k, Granted(id));
    multiset(t.log)[o] == multiset(s.log)[o] + Served(ws, k, id) + once[o]
  }

  lemma {:induction false} WaitingSplit(a: seq<Pending>, b: seq<Pending>, k: Conn, id: int)
    ensures Waiting(a + b, k, id) == Waiting(a, k, id) + Waiting(b, k, id)
  {
    if a == [] {
      Nil(b);
    } else {
      CutLeft(a, b, 1);
      WaitingSplit(a[1..], b, k, id);
    }
  }

  ghost function JoinAll(v: Ways, w: Ways): Ways
    requires forall r :: |w.At(r).fates| == Count(v.At(r).fates) + |v.At(r).added|
  {
    assert |w.At(Cpu).fates| == Count(v.At(Cpu).fates) + |v.At(Cpu).added|;
    assert |w.At(Mem).fates| == Count(v.At(Mem).fates) + |v.At(Mem).added|;
    assert |w.At(Gpu).fates| == Count(v.At(Gpu).fates) + |v.At(Gpu).added|;
    Ways(Join(v.cpu, w.cpu), Join(v.mem, w.mem), Join(v.gpu, w.gpu))
  }

  /** The ways of two steps, one queue at a time. */
  ghost predicate Joins(v: Ways, w: Ways, ws: Ways) {
    forall r :: |w.At(r).fates| == Count(v.At(r).fates) + |v.At(r).added| && ws.At(r) == Join(v.At(r), w.At(r))
  }

  lemma GoesTrans(c: Resource, d: Resource, e: Resource, v: Way, w: Way, ids: set<int>, ks: set<Conn>)
    requires Goes(c, d, v, ids, ks) && Goes(d, e, w, ids, ks)
    ensures |w.fates| == Count(v.fates) + |v.added| && Goes(c, e, Join(v, w), ids, ks)
  {
    LedTrans(c.queue, d.queue, e.queue, v, w, ids, ks);
    Assoc(c.served, v.granted, w.granted);
    StayingOf(v.added, w.fates[Count(v.fates)..]);
  }

  lemma {:induction false} StayingOf(q: seq<Pending>, f: seq<Fate>)
    requires |f| == |q|
    ensures forall p :: p in Staying(q, f) ==> p in q
  {
    if q != [] { StayingOf(q[1..], f[1..]); }
  }

  lemma LoyalTrans(s: State, t: State, u: State, ids: set<int>)
    requires Loyal(s, t, ids) && Loyal(t, u, ids)
    ensures Loyal(s, u, ids)
  {
    forall id | id in s.jobs && id !in ids ensures id in u.jobs && SameClaims(s.jobs[id], u.jobs[id]) {
      assert SameClaims(s.jobs[id], t.jobs[id]) && SameClaims(t.jobs[id], u.jobs[id]);
    }
  }

  lemma FlowTrans(s: State, t: State, u: State, v: Ways, w: Ways, ids: set<int>, ks: set<Conn>, a: multiset<Out>,
      b: multiset<Out>)
    returns (ws: Ways)
    requires Flow(s, t, v, ids, ks, a) && Flow(t, u, w, ids, ks, b)
    ensures Flow(s, u, ws, ids, ks, a + b) && Joins(v, w, ws)
  {
    forall r
      ensures |w.At(r).fates| == Count(v.At(r).fates) + |v.At(r).added|
      ensures Goes(s.At(r), u.At(r), Join(v.At(r), w.At(r)), ids, ks)
    {
      assert Goes(s.At(r), t.At(r), v.At(r), ids, ks) && Goes(t.At(r), u.At(r), w.At(r), ids, ks);
      GoesTrans(s.At(r), t.At(r), u.At(r), v.At(r), w.At(r), ids, ks);
    }
    ws := JoinAll(v, w);
    forall r ensures ws.At(r) == Join(v.At(r), w.At(r)) {}
    forall k, id ensures Tallied(s, u, ws, a + b, k, id) {
      assert Tallied(s, t, v, a, k, id) && Tallied(t, u, w, b, k, id);
      WaitingSplit(v.cpu.granted, w.cpu.granted, k, id);
      WaitingSplit(v.mem.granted, w.mem.granted, k, id);
      WaitingSplit(v.gpu.granted, w.gpu.granted, k, id);
    }
    LoyalTrans(s, t, u, ids);
  }

  lemma FlowMore(s: State, t: State, ws: Ways, ids: set<int>, ks: set<Conn>, ids': set<int>, ks': set<Conn>,
      a: multiset<Out>)
    requires Flow(s, t, ws, ids, ks, a) && ids <= ids' && ks <= ks'
    ensures Flow(s, t, ws, ids', ks', a)
  {
    forall r ensures Goes(s.At(r), t.At(r), ws.At(r), ids', ks') {
      assert Goes(s.At(r), t.At(r), ws.At(r), ids, ks);
    }
    forall k, id ensures Tallied(s, t, ws, a, k, id) {}
  }

  // ---------------------------------------------------------------- the small steps

  /** The same GRANTEDs in both logs. */
  ghost predicate SameGranteds(s: State, t: State) {
    forall k, id :: multiset(t.log)[Out(k, Granted(id))] == multiset(s.log)[Out(k, Granted(id))]
  }

  ghost function Still(s: State): Ways {
    Ways(Way(AllStay(|s.bank.cpu.queue|), [], []), Way(AllStay(|s.bank.mem.queue|), [], []),
         Way(AllStay(|s.bank.gpu.queue|), [], []))
  }

  /** The same requests wait and the same were granted. */
  ghost predicate SameQueues(s: State, t: State) {
    forall r :: t.At(r).queue == s.At(r).queue && t.At(r).served == s.At(r).served
  }

  lemma StillGoes(c: Resource, d: Resource, ids: set<int>, ks: set<Conn>)
    requires d.queue == c.queue && d.served == c.served
    ensures Goes(c, d, Way(AllStay(|c.queue|), [], []), ids, ks)
  {
    StillLed(c.queue, ids, ks);
    Nil(c.served);
  }

  lemma FlowStill(s: State, t: State, ids: set<int>, ks: set<Conn>) returns (ws: Ways)
    requires SameGranteds(s, t) && SameQueues(s, t) && Loyal(s, t, ids)
    ensures Flow(s, t, ws, ids, ks, multiset{}) && ws == Still(s)
  {
    ws := Still(s);
    forall r ensures Goes(s.At(r), t.At(r), ws.At(r), ids, ks) { StillGoes(s.At(r), t.At(r), ids, ks); }
    forall k, id ensures Tallied(s, t, ws, multiset{}, k, id) {}
  }

  /** Nothing at all. */
  lemma FlowNone(s: State, ids: set<int>, ks: set<Conn>) returns (ws: Ways)
    ensures Flow(s, s, ws, ids, ks, multiset{}) && ws == Still(s)
  {
    ws := FlowStill(s, s, ids, ks);
  }

  /** One after the other, when neither grants anything outside the queues. */
  lemma FlowJoin(s: State, t: State, u: State, v: Ways, w: Ways, ids: set<int>, ks: set<Conn>) returns (ws: Ways)
    requires Flow(s, t, v, ids, ks, multiset{}) && Flow(t, u, w, ids, ks, multiset{})
    ensures Flow(s, u, ws, ids, ks, multiset{}) && Joins(v, w, ws)
  {
    var none: multiset<Out> := multiset{};
    assert none + none == none;
    ws := FlowTrans(s, t, u, v, w, ids, ks, none, none);
  }

  /** Only one queue is not left alone. */
  lemma FlowOne(s: State, t: State, r: Res, w: Way, ids: set<int>, ks: set<Conn>, once: multiset<Out>)
      returns (ws: Ways)
    requires Goes(s.At(r), t.At(r), w, ids, ks) && Loyal(s, t, ids)
    requires forall x :: x != r ==> t.At(x).queue == s.At(x).queue && t.At(x).served == s.At(x).served
    requires forall k, id :: multiset(t.log)[Out(k, Granted(id))]
               == multiset(s.log)[Out(k, Granted(id))] + Waiting(w.granted, k, id) + once[Out(k, Granted(id))]
    ensures Flow(s, t, ws, ids, ks, once) && ws.At(r) == w
  {
    ws := Still(s).With(r, w);
    forall x ensures Goes(s.At(x), t.At(x), ws.At(x), ids, ks) {
      if x != r { StillGoes(s.At(x), t.At(x), ids, ks); }
    }
    forall k, id ensures Tallied(s, t, ws, once, k, id) {
      assert forall x :: x != r ==> ws.At(x) == Still(s).At(x);
      assert ws.At(Cpu) == ws.cpu && ws.At(Mem) == ws.mem && ws.At(Gpu) == ws.gpu;
    }
  }

  lemma {:induction false} MarkClaim(as_: seq<Alloc>, k: Conn, r: Res, x: Res)
    ensures Claim(Mark(as_, k, r), x) == Claim(as_, x)
  {
    if as_ != [] {
      if as_[0].kind == Local && as_[0].conn == k && as_[0].res == r {
        assert Mark(as_, k, r)[1..] == as_[1..];
      } else {
        MarkClaim(as_[1..], k, r, x);
        assert Mark(as_, k, r)[1..] == Mark(as_[1..], k, r);
      }
    }
  }

  lemma PopLoyal(s: State, r: Res)
    requires CanPop(s.At(r))
    ensures Loyal(s, Pop(s, r), {})
  {
    var p := s.At(r).queue[0];
    if p.job in s.jobs {
      forall x ensures Claim(Mark(s.jobs[p.job].confirmed, p.owner, r), x) == Claim(s.jobs[p.job].confirmed, x) {
        MarkClaim(s.jobs[p.job].confirmed, p.owner, r, x);
      }
    }
    assert Pop(s, r).jobs == MarkIn(s.jobs, p.job, p.owner, r);
  }

  /** The drain keeps all claims and records what it grants. */
  lemma {:induction false} DrainRecords(s: State, r: Res)
    ensures Loyal(s, Drain(s, r), {})
    ensures Drain(s, r).At(r).served == s.At(r).served + s.At(r).queue[..Fit(s.At(r).queue, s.At(r).avail)]
    decreases |s.At(r).queue|
  {
    var q := s.At(r).queue;
    if CanPop(s.At(r)) {
      var u := Pop(s, r);
      var n := Fit(q, s.At(r).avail);
      PopFit(s, r);
      PopLoyal(s, r);
      DrainRecords(u, r);
      LoyalTrans(s, u, Drain(u, r), {});
      Prefix(q, n);
      Assoc(s.At(r).served, [q[0]], q[1..][..n-1]);
    } else {
      assert q[..0] == [];
      Nil(s.At(r).served);
    }
  }

  /** The GRANTEDs of a drain are those of the requests it takes. */
  lemma {:induction false} DrainTally(s: State, r: Res, k: Conn, id: int)
    ensures var n := Fit(s.At(r).queue, s.At(r).avail); var o := Out(k, Granted(id));
            multiset(Drain(s, r).log)[o] == multiset(s.log)[o] + Waiting(s.At(r).queue[..n], k, id)
    decreases |s.At(r).queue|
  {
    var q := s.At(r).queue;
    var n := Fit(q, s.At(r).avail);
    if CanPop(s.At(r)) {
      PopFit(s, r);
      DrainTally(Pop(s, r), r, k, id);
      Prefix(q, n);
      Parts([q[0]], q[1..][..n-1]);
      PopTally(s, r, k, id);
    } else {
      assert q[..0] == [];
    }
  }

  lemma PopTally(s: State, r: Res, k: Conn, id: int)
    requires CanPop(s.At(r))
    ensures var p := s.At(r).queue[0]; var o := Out(k, Granted(id));
            multiset(Pop(s, r).log)[o]
            == multiset(s.log)[o] + if p.origin == Remote && p.owner == k && p.job == id then 1 else 0
  {
  }

  lemma DrainFlow(s: State, r: Res, ids: set<int>, ks: set<Conn>) returns (ws: Ways)
    ensures Flow(s, Drain(s, r), ws, ids, ks, multiset{})
    ensures CanPop(s.At(r)) ==> ws.At(r).fates[0] == Taken
  {
    var q := s.At(r).queue;
    var n := Fit(q, s.At(r).avail);
    DrainTakesPrefix(s, r);
    DrainRecords(s, r);
    TakenLed(q, n, ids, ks);
    forall k, id ensures multiset(Drain(s, r).log)[Out(k, Granted(id))]
        == multiset(s.log)[Out(k, Granted(id))] + Waiting(TakeWay(q, n).granted, k, id)
            + multiset{}[Out(k, Granted(id))]
    {
      DrainTally(s, r, k, id);
    }
    ws := FlowOne(s, Drain(s, r), r, TakeWay(q, n), ids, ks, multiset{});
  }

  lemma ReleaseFlow(s: State, r: Res, amount: int, ids: set<int>, ks: set<Conn>) returns (ws: Ways)
    ensures Flow(s, ReleaseRes(s, r, amount), ws, ids, ks, multiset{})
    ensures Accepts(s.At(r), amount) && CanPop(Give(s, r, amount).At(r)) ==> ws.At(r).fates[0] == Taken
  {
    if Accepts(s.At(r), amount) {
      var g := Give(s, r, amount);
      forall x ensures g.At(x).queue == s.At(x).queue && g.At(x).served == s.At(x).served {}
      var v := FlowStill(s, g, ids, ks);
      var w := DrainFlow(g, r, ids, ks);
      ws := FlowJoin(s, g, Drain(g, r), v, w, ids, ks);
      if CanPop(g.At(r)) { JoinFirst(v.At(r), w.At(r)); }
    } else {
      ws := FlowNone(s, ids, ks);
    }
  }

  lemma SendFlow(s: State, k: Conn, m: Msg, ids: set<int>, ks: set<Conn>) returns (ws: Ways)
    requires !m.Granted?
    ensures Flow(s, s.Send(k, m), ws, ids, ks, multiset{})
  {
    forall r ensures s.Send(k, m).At(r) == s.At(r) {}
    ws := FlowStill(s, s.Send(k, m), ids, ks);
  }

  lemma PurgeFlow(s: State, id: int, ids: set<int>, ks: set<Conn>) returns (ws: Ways)
    requires id in ids
    ensures Flow(s, PurgeJob(s, id), ws, ids, ks, multiset{})
  {
    PurgeAt(s, id);
    ws := Ways(Way(JobFates(s.bank.cpu.queue, id), [], []), Way(JobFates(s.bank.mem.queue, id), [], []),
               Way(JobFates(s.bank.gpu.queue, id), [], []));
    forall r ensures Goes(s.At(r), PurgeJob(s, id).At(r), ws.At(r), ids, ks) {
      JobPurgeLed(s.At(r).queue, id, ids, ks);
      Nil(s.At(r).served);
    }
    forall k, j ensures Tallied(s, PurgeJob(s, id), ws, multiset{}, k, j) {}
  }

  lemma PurgeConnFlow(s: State, k: Conn, ids: set<int>, ks: set<Conn>) returns (ws: Ways)
    requires k in ks
    ensures Flow(s, PurgeConn(s, k), ws, ids, ks, multiset{})
  {
    ws := Ways(Way(ConnFates(s.bank.cpu.queue, k), [], []), Way(ConnFates(s.bank.mem.queue, k), [], []),
               Way(ConnFates(s.bank.gpu.queue, k), [], []));
    forall r ensures Goes(s.At(r), PurgeConn(s, k).At(r), ws.At(r), ids, ks) {
      ConnPurgeLed(s.At(r).queue, k, ids, ks);
      Nil(s.At(r).served);
      assert PurgeConn(s, k).At(r) == PurgeConnIn(s.At(r), k);
    }
    forall c, j ensures Tallied(s, PurgeConn(s, k), ws, multiset{}, c, j) {}
  }

  // ---------------------------------------------------------------- giving shares back

  lemma {:induction false} FreeAllFlow(s: State, id: int, as_: seq<Alloc>, ids: set<int>, ks: set<Conn>)
    returns (ws: Ways)
    ensures Flow(s, FreeAll(s, id, as_), ws, ids, ks, multiset{})
    decreases |as_|
  {
    if as_ == [] {
      ws := FlowNone(s, ids, ks);
    } else {
      var t := FreeAlloc(s, id, as_[0]);
      var v := FreeFlow(s, id, as_[0], ids, ks);
      var w := FreeAllFlow(t, id, as_[1..], ids, ks);
      ws := FlowJoin(s, t, FreeAll(s, id, as_), v, w, ids, ks);
    }
  }

  lemma FreeFlow(s: State, id: int, a: Alloc, ids: set<int>, ks: set<Conn>) returns (ws: Ways)
    ensures Flow(s, FreeAlloc(s, id, a), ws, ids, ks, multiset{})
  {
    var k := CT.Lookup(s.conns, a.host);
    if IsLocalGrant(a) {
      ws := ReleaseFlow(s, a.res, a.amount, ids, ks);
    } else if a.kind == Remote && k.Some? {
      ws := SendFlow(s, k.value, Types.Release(id, a.res, a.amount), ids, ks);
    } else {
      ws := FlowNone(s, ids, ks);
    }
  }

  /** Taking jobs out of the table moves no request. */
  lemma JobsFlow(s: State, jobs: map<int, Job>, ids: set<int>, ks: set<Conn>) returns (ws: Ways)
    requires Loyal(s, s.(jobs := jobs), ids)
    ensures Flow(s, s.(jobs := jobs), ws, ids, ks, multiset{}) && ws == Still(s)
  {
    forall r ensures s.(jobs := jobs).At(r) == s.At(r) {}
    ws := FlowStill(s, s.(jobs := jobs), ids, ks);
  }

  lemma RemoveFlow(s: State, id: int, ids: set<int>, ks: set<Conn>) returns (ws: Ways)
    requires id in ids
    ensures Flow(s, RemoveJob(s, id), ws, ids, ks, multiset{})
  {
    if id in s.jobs {
      var o := s.(jobs := s.jobs - {id});
      var v := JobsFlow(s, s.jobs - {id}, ids, ks);
      var w := FreeAllFlow(o, id, s.jobs[id].confirmed, ids, ks);
      ws := FlowJoin(s, o, RemoveJob(s, id), v, w, ids, ks);
    } else {
      ws := FlowNone(s, ids, ks);
    }
  }

  lemma RemovePurgeFlow(s: State, id: int, ids: set<int>, ks: set<Conn>) returns (ws: Ways)
    requires id in ids
    ensures Flow(s, PurgeJob(RemoveJob(s, id), id), ws, ids, ks, multiset{})
  {
    var t := RemoveJob(s, id);
    var v := RemoveFlow(s, id, ids, ks);
    var w := PurgeFlow(t, id, ids, ks);
    ws := FlowJoin(s, t, PurgeJob(t, id), v, w, ids, ks);
  }

  lemma ReturnFlow(s: State, a: Alloc, ids: set<int>, ks: set<Conn>) returns (ws: Ways)
    requires a.job in ids
    ensures Flow(s, ReturnAlloc(s, a), ws, ids, ks, multiset{})
  {
    var t := if IsLocalGrant(a) then ReleaseRes(s, a.res, a.amount) else PurgeJob(s, a.job);
    if IsLocalGrant(a) {
      ws := ReleaseFlow(s, a.res, a.amount, ids, ks);
    } else {
      ws := PurgeFlow(s, a.job, ids, ks);
    }
    if a.kind == Remote {
      var w := SendFlow(t, a.conn, Types.Release(a.job, a.res, a.amount), ids, ks);
      ws := FlowJoin(s, t, ReturnAlloc(s, a), ws, w, ids, ks);
    }
  }

  lemma {:induction false} ReturnAllFlow(s: State, as_: seq<Alloc>, ids: set<int>, ks: set<Conn>) returns (ws: Ways)
    requires forall i :: 0 <= i < |as_| ==> as_[i].job in ids
    ensures Flow(s, ReturnAll(s, as_), ws, ids, ks, multiset{})
    decreases |as_|
  {
    if as_ == [] {
      ws := FlowNone(s, ids, ks);
    } else {
      var t := ReturnAlloc(s, as_[0]);
      var v := ReturnFlow(s, as_[0], ids, ks);
      var w := ReturnAllFlow(t, as_[1..], ids, ks);
      ws := FlowJoin(s, t, ReturnAll(s, as_), v, w, ids, ks);
    }
  }

  lemma {:induction false} AbandonFlow(s: State, vs: seq<Job>, ids: set<int>, ks: set<Conn>) returns (ws: Ways)
    requires forall i :: 0 <= i < |vs| ==> vs[i].id in ids
    ensures Flow(s, Abandon(s, vs), ws, ids, ks, multiset{})
    decreases |vs|
  {
    if vs == [] {
      ws := FlowNone(s, ids, ks);
    } else {
      var p := PurgeJob(s, vs[0].id);
      var t := FreeAll(p, vs[0].id, vs[0].confirmed);
      var u := PurgeFlow(s, vs[0].id, ids, ks);
      var v := FreeAllFlow(p, vs[0].id, vs[0].confirmed, ids, ks);
      u := FlowJoin(s, p, t, u, v, ids, ks);
      var w := AbandonFlow(t, vs[1..], ids, ks);
      ws := FlowJoin(s, t, Abandon(s, vs), u, w, ids, ks);
    }
  }

  // ---------------------------------------------------------------- asking

  lemma ShareFlow(s: State, r: Res, amount: int, id: int, k: Conn, ids: set<int>, ks: set<Conn>) returns (ws: Ways)
    requires id in ids
    ensures Flow(s, ReserveRes(s, r, amount, id, k, Local).0, ws, ids, ks, multiset{})
  {
    var t := ReserveRes(s, r, amount, id, k, Local).0;
    var p := Pending(id, amount, k, Local);
    if s.At(r).avail < amount <= s.At(r).total {
      AddedLed(s.At(r).queue, [p], ids, ks);
      Nil(s.At(r).served);
      ws := FlowOne(s, t, r, Way(AllStay(|s.At(r).queue|), [p], []), ids, ks, multiset{});
    } else {
      forall x ensures t.At(x).queue == s.At(x).queue && t.At(x).served == s.At(x).served {}
      ws := FlowStill(s, t, ids, ks);
    }
  }

  lemma {:induction false} BuildFlow(s: State, j: Job, reqs: seq<Req>, ids: set<int>, ks: set<Conn>) returns (ws: Ways)
    requires j.id in ids
    ensures Flow(s, Build(s, j, reqs).s, ws, ids, ks, multiset{})
    decreases |reqs|
  {
    if reqs == [] {
      ws := FlowNone(s, ids, ks);
    } else {
      var q := reqs[0];
      var e := Build(s, j, reqs).s;
      var k := CT.Lookup(s.conns, q.host);
      if q.host == s.ip {
        var (t, o) := ReserveRes(s, q.res, q.amount, j.id, j.conn, Local);
        ws := ShareFlow(s, q.res, q.amount, j.id, j.conn, ids, ks);
        if o != RmDenied {
          var a := Alloc(q.res, q.amount, Local, s.ip, j.id, o, j.conn);
          var w := BuildFlow(t, j.(confirmed := [a] + j.confirmed), reqs[1..], ids, ks);
          ws := FlowJoin(s, t, e, ws, w, ids, ks);
        }
      } else if k.Some? {
        var t := s.Send(k.value, Reserve(j.id, q.res, q.amount));
        var v := SendFlow(s, k.value, Reserve(j.id, q.res, q.amount), ids, ks);
        var w := BuildFlow(t, Ask(j, q, k.value, None), reqs[1..], ids, ks);
        ws := FlowJoin(s, t, e, v, w, ids, ks);
      } else if q.dial.Some? {
        ws := BuildFlow(s, Ask(j, q, q.dial.value, Some(Reserve(j.id, q.res, q.amount))), reqs[1..], ids, ks);
      } else {
        ws := FlowNone(s, ids, ks);
      }
    }
  }

  lemma {:induction false} BuildName(s: State, j: Job, reqs: seq<Req>)
    ensures Build(s, j, reqs).j.id == j.id
    decreases |reqs|
  {
    if reqs != [] {
      var q := reqs[0];
      if q.host == s.ip {
        var (t, o) := ReserveRes(s, q.res, q.amount, j.id, j.conn, Local);
        var a := Alloc(q.res, q.amount, Local, s.ip, j.id, o, j.conn);
        if o != RmDenied { BuildName(t, j.(confirmed := [a] + j.confirmed), reqs[1..]); }
      } else {
        match CT.Lookup(s.conns, q.host)
        case Some(k) => BuildName(s.Send(k, Reserve(j.id, q.res, q.amount)), Ask(j, q, k, None), reqs[1..]);
        case None =>
          if q.dial.Some? { BuildName(s, Ask(j, q, q.dial.value, Some(Reserve(j.id, q.res, q.amount))), reqs[1..]); }
      }
    }
  }

  lemma RequestFlow(s: State, k: Conn, id: int, reqs: seq<Req>, ids: set<int>, ks: set<Conn>) returns (ws: Ways)
    requires id in s.jobs || id in ids
    ensures Flow(s, OnJobRequest(s, k, id, reqs), ws, ids, ks, multiset{})
  {
    var e := OnJobRequest(s, k, id, reqs);
    if id in s.jobs {
      ws := FlowNone(s, ids, ks);
    } else {
      var p := Build(s, Job(id, k, [], []), reqs);
      ws := BuildFlow(s, Job(id, k, [], []), reqs, ids, ks);
      var w: Ways;
      if p.Built? {
        var u := p.s.(jobs := p.s.jobs[id := p.j]);
        w := JobsFlow(p.s, p.s.jobs[id := p.j], ids, ks);
        ws := FlowJoin(s, p.s, u, ws, w, ids, ks);
        if Ready(p.j) {
          w := SendFlow(u, k, JobGranted(id), ids, ks);
          ws := FlowJoin(s, u, e, ws, w, ids, ks);
        }
      } else {
        var t := PurgeJob(p.s, id);
        var u := FreeAll(t, id, p.j.confirmed);
        w := PurgeFlow(p.s, id, ids, ks);
        ws := FlowJoin(s, p.s, t, ws, w, ids, ks);
        w := FreeAllFlow(t, id, p.j.confirmed, ids, ks);
        ws := FlowJoin(s, t, u, ws, w, ids, ks);
        w := SendFlow(u, k, JobDenied(id), ids, ks);
        ws := FlowJoin(s, u, e, ws, w, ids, ks);
      }
    }
  }

  // ---------------------------------------------------------------- one event

  /** The jobs whose requests an event may purge. */
  ghost function IdsOf(s: State, e: Event): set<int> {
    match e
    case EvRelease(_, id, _, _) => {id}
    case EvDenied(_, id) => {id}
    case EvJobRequest(_, id, _) => if id in s.jobs then {} else {id}
    case EvJobRelease(_, id) => {id}
    case EvJobTimeout(_, id) => {id}
    case EvDisconnect(k, _) => Victims(s.jobs, k)
    case EvConnFailed(k, _) => Victims(s.jobs, k)
    case _ => {}
  }

  /** The connection whose requests an event purges. */
  ghost function ConnsOf(e: Event): set<Conn> {
    if e.EvDisconnect? then {e.k} else {}
  }

  /** The GRANTED of a RESERVE that finds its amount available. */
  ghost function AtOnce(s: State, e: Event): multiset<Out> {
    if e.EvReserve? && e.amount <= s.At(e.res).avail then multiset{Out(e.k, Granted(e.job))} else multiset{}
  }

  lemma ReserveFlow(s: State, e: Event, ids: set<int>, ks: set<Conn>) returns (ws: Ways)
    requires e.EvReserve?
    ensures Flow(s, Step(s, e), ws, ids, ks, AtOnce(s, e))
  {
    var t := Step(s, e);
    var q := s.At(e.res).queue;
    var p := Pending(e.job, e.amount, e.k, Remote);
    ReserveCases(s, e.k, e.job, e.res, e.amount);
    StillLed(q, ids, ks);
    AddedLed(q, [p], ids, ks);
    Nil(s.At(e.res).served);
    var w := Way(AllStay(|q|), if s.At(e.res).avail < e.amount <= s.At(e.res).total then [p] else [], []);
    ws := FlowOne(s, t, e.res, w, ids, ks, AtOnce(s, e));
  }

  /** A GRANTED moves no request of the queues. */
  lemma GrantedFlow(s: State, t: State, id: int, ids: set<int>, ks: set<Conn>) returns (ws: Ways)
    requires GrantShape(s, t, id)
    ensures Flow(s, t, ws, ids, ks, multiset{})
  {
    forall r ensures t.At(r) == s.At(r) {}
    if ConfirmsOne(s, t, id) {
      var i :| 0 <= i < |s.jobs[id].pending| && t == ConfirmAt(s, id, i);
      assert Confirm(s.jobs[id], i).confirmed[1..] == s.jobs[id].confirmed;
      assert SameClaims(s.jobs[id], t.jobs[id]);
    }
    ws := FlowStill(s, t, ids, ks);
  }

  lemma PeerReleaseFlow(s: State, id: int, r: Res, amount: int, ids: set<int>, ks: set<Conn>) returns (ws: Ways)
    requires id in ids
    ensures Flow(s, OnRelease(s, id, r, amount), ws, ids, ks, multiset{})
  {
    var o := Repaid(s, r, amount);
    var m := if amount != 0 then ReleaseRes(o, r, amount) else s;
    var v := FlowNone(s, ids, ks);
    if amount != 0 {
      forall x ensures o.At(x).queue == s.At(x).queue && o.At(x).served == s.At(x).served {}
      v := FlowStill(s, o, ids, ks);
      var w := ReleaseFlow(o, r, amount, ids, ks);
      v := FlowJoin(s, o, m, v, w, ids, ks);
    }
    var w := RemovePurgeFlow(m, id, ids, ks);
    ws := FlowJoin(s, m, OnRelease(s, id, r, amount), v, w, ids, ks);
  }

  lemma DeniedFlow(s: State, id: int, ids: set<int>, ks: set<Conn>) returns (ws: Ways)
    requires id in ids
    ensures Flow(s, OnDenied(s, id), ws, ids, ks, multiset{})
  {
    if id in s.jobs {
      var t := RemoveJob(s, id);
      var u := t.Send(s.jobs[id].conn, JobDenied(id));
      var v := RemoveFlow(s, id, ids, ks);
      var w := SendFlow(t, s.jobs[id].conn, JobDenied(id), ids, ks);
      v := FlowJoin(s, t, u, v, w, ids, ks);
      w := PurgeFlow(u, id, ids, ks);
      ws := FlowJoin(s, u, OnDenied(s, id), v, w, ids, ks);
    } else {
      ws := PurgeFlow(s, id, ids, ks);
    }
  }

  lemma JobReleaseFlow(s: State, id: int, ids: set<int>, ks: set<Conn>) returns (ws: Ways)
    requires Good(s) && id in ids
    ensures Flow(s, OnJobRelease(s, id), ws, ids, ks, multiset{})
  {
    if id in s.jobs {
      var as_ := s.jobs[id].confirmed;
      var o := s.(jobs := s.jobs - {id});
      var t := ReturnAll(o, as_);
      assert JobOk(s.jobs[id], id);
      forall i | 0 <= i < |as_| ensures as_[i].job in ids { assert AllocOk(as_[i], id, s.jobs[id].conn); }
      var v := JobsFlow(s, s.jobs - {id}, ids, ks);
      var w := ReturnAllFlow(o, as_, ids, ks);
      v := FlowJoin(s, o, t, v, w, ids, ks);
      w := PurgeFlow(t, id, ids, ks);
      ws := FlowJoin(s, t, OnJobRelease(s, id), v, w, ids, ks);
    } else {
      ws := FlowNone(s, ids, ks);
    }
  }

  lemma PickIds(s: State, k: Conn, order: seq<int>)
    requires Good(s) && Enumerates(order, Victims(s.jobs, k))
    ensures forall i :: 0 <= i < |order| ==> Pick(s.jobs, order, k)[i].id in Victims(s.jobs, k)
  {
    forall i | 0 <= i < |order| ensures Pick(s.jobs, order, k)[i].id in Victims(s.jobs, k) {
      assert JobOk(s.jobs[order[i]], order[i]);
    }
  }

  lemma {:induction false} StripClaim(as_: seq<Alloc>, c: Conn, r: Res)
    ensures Claim(StripAllocs(as_, c), r) == Claim(as_, r)
  {
    if as_ != [] {
      StripClaim(as_[1..], c, r);
      if !(as_[0].kind == Remote && as_[0].conn == c) {
        assert StripAllocs(as_, c)[1..] == StripAllocs(as_[1..], c);
      }
    }
  }

  lemma KeptLoyal(s: State, k: Conn, ids: set<int>)
    requires Victims(s.jobs, k) <= ids
    ensures Loyal(s, s.(jobs := Kept(s.jobs, k)), ids)
  {
    forall id | id in s.jobs && id !in ids
      ensures id in Kept(s.jobs, k) && SameClaims(s.jobs[id], Kept(s.jobs, k)[id])
    {
      assert id !in Victims(s.jobs, k);
      forall r ensures Claim(Strip(s.jobs[id], k).confirmed, r) == Claim(s.jobs[id].confirmed, r) {
        StripClaim(s.jobs[id].confirmed, k, r);
      }
    }
  }

  lemma LossFlow(s: State, e: Event, ids: set<int>, ks: set<Conn>) returns (ws: Ways)
    requires Good(s) && Feasible(s, e) && (e.EvDisconnect? || e.EvConnFailed?)
    requires IdsOf(s, e) <= ids && ConnsOf(e) <= ks
    ensures Flow(s, Step(s, e), ws, ids, ks, multiset{})
  {
    var p := if e.EvDisconnect? then PurgeConn(s, e.k) else s;
    var o := p.(jobs := Kept(s.jobs, e.k));
    var u := Abandon(o, Pick(s.jobs, e.order, e.k));
    var t := Step(s, e);
    PickIds(s, e.k, e.order);
    var v, w: Ways;
    if e.EvDisconnect? { v := PurgeConnFlow(s, e.k, ids, ks); } else { v := FlowNone(s, ids, ks); }
    KeptLoyal(p, e.k, ids);
    w := JobsFlow(p, o.jobs, ids, ks);
    v := FlowJoin(s, p, o, v, w, ids, ks);
    w := AbandonFlow(o, Pick(s.jobs, e.order, e.k), ids, ks);
    v := FlowJoin(s, o, u, v, w, ids, ks);
    assert t == u.(conns := t.conns);
    forall r ensures t.At(r) == u.At(r) {}
    w := FlowStill(u, t, ids, ks);
    ws := FlowJoin(s, u, t, v, w, ids, ks);
  }

  lemma EventFlow(s: State, e: Event) returns (ws: Ways)
    requires Inv(s) && Wired(s) && Feasible(s, e) && Lawful(s, e)
    ensures Flow(s, Step(s, e), ws, IdsOf(s, e), ConnsOf(e), AtOnce(s, e))
  {
    var ids, ks := IdsOf(s, e), ConnsOf(e);
    match e
    case EvReserve(_, _, _, _) => ws := ReserveFlow(s, e, ids, ks);
    case EvJobRequest(k, id, reqs) => ws := RequestFlow(s, k, id, reqs, ids, ks);
    case EvJobRelease(_, id) => ws := JobReleaseFlow(s, id, ids, ks);
    case EvDisconnect(_, _) => ws := LossFlow(s, e, ids, ks);
    case EvConnFailed(_, _) => ws := LossFlow(s, e, ids, ks);
    case EvConnReady(k, order) =>
      OpenOne(s, k, order);
      forall r ensures Step(s, e).At(r) == s.At(r) {}
      ws := FlowStill(s, Step(s, e), ids, ks);
    case EvGranted(k, id) =>
      GrantedCases(s, k, id);
      ws := GrantedFlow(s, Step(s, e), id, ids, ks);
    case EvRelease(_, id, r, amount) => ws := PeerReleaseFlow(s, id, r, amount, ids, ks);
    case EvDenied(_, id) => ws := DeniedFlow(s, id, ids, ks);
    case EvJobTimeout(_, id) => ws := RemovePurgeFlow(s, id, ids, ks);
  }

  // ---------------------------------------------------------------- what a local grant leaves behind

  /** A local request that was granted to a job that nothing named is now a grant of
      its amount in that job, which waits for the resource no longer. */
  ghost predicate Honoured(s: State, t: State, ws: Ways, ids: set<int>) {
    forall r, i :: 0 <= i < |s.At(r).queue| && i < |ws.At(r).fates| && ws.At(r).fates[i] == Taken ==>
      var p := s.At(r).queue[i]; p.origin == Local && p.job !in ids ==> Paid(t, p, r)
  }

  /** The job of a local request holds the amount and does not wait. */
  ghost predicate Paid(t: State, p: Pending, r: Res) {
    && p.job in t.jobs
    && Held(t.jobs[p.job].confirmed, r) == p.amount && Wanted(t.jobs[p.job].confirmed, r) == []
  }

  lemma {:induction false} ClaimParts(as_: seq<Alloc>, id: int, k: Conn, r: Res)
    requires AllocsOk(as_, id, k)
    ensures Claim(as_, r) == Held(as_, r) + Total(Wanted(as_, r))
  {
    if as_ != [] {
      ClaimParts(as_[1..], id, k, r);
      assert AllocOk(as_[0], id, k);
      if IsLocalWait(as_[0]) && as_[0].res == r {
        Parts([Pending(as_[0].job, as_[0].amount, as_[0].conn, Local)], Wanted(as_[1..], r));
      }
    }
  }

  lemma {:induction false} EntriesSplit(a: seq<Pending>, b: seq<Pending>, id: int)
    ensures Entries(a + b, id) == Entries(a, id) + Entries(b, id)
  {
    if a == [] {
      Nil(b);
      Nil(Entries(b, id));
    } else {
      CutLeft(a, b, 1);
      EntriesSplit(a[1..], b, id);
      Assoc([a[0]], Entries(a[1..], id), Entries(b, id));
    }
  }

  /** The only entry of a job is gone from what stays. */
  lemma {:induction false} StayingWithout(q: seq<Pending>, f: seq<Fate>, id: int, i: nat)
    requires |f| == |q| && i < |q| && f[i] != Stays
    requires Entries(q, id) == [q[i]] && q[i].origin == Local && q[i].job == id
    ensures Entries(Staying(q, f), id) == []
  {
    var g := f[1..];
    if i == 0 {
      assert Entries(q, id) == [q[0]] + Entries(q[1..], id);
      NoneStaying(q[1..], g, id);
    } else {
      EntriesOf(q[1..], id);
      assert q[1..][i-1] in Entries(q[1..], id);
      StayingWithout(q[1..], g, id, i - 1);
      if f[0] == Stays { Parts([q[0]], Staying(q[1..], g)); }
    }
  }

  lemma {:induction false} NoneStaying(q: seq<Pending>, f: seq<Fate>, id: int)
    requires |f| == |q| && Entries(q, id) == []
    ensures Entries(Staying(q, f), id) == []
  {
    if q != [] {
      NoneStaying(q[1..], f[1..], id);
      if f[0] == Stays { Parts([q[0]], Staying(q[1..], f[1..])); }
    }
  }

  lemma {:induction false} NoneLocal(q: seq<Pending>, id: int)
    requires forall p :: p in q && p.origin == Local ==> p.job != id
    ensures Entries(q, id) == []
  {
    if q != [] {
      assert q[0] in q;
      NoneLocal(q[1..], id);
    }
  }

  /** A local request of the queue is the only one of its job, which holds nothing. */
  lemma WaitsAlone(s: State, r: Res, i: nat)
    requires Inv(s) && i < |s.At(r).queue| && s.At(r).queue[i].origin == Local
    ensures var p := s.At(r).queue[i];
            && p.job in s.jobs && Entries(s.At(r).queue, p.job) == [p]
            && Wanted(s.jobs[p.job].confirmed, r) == [p] && Held(s.jobs[p.job].confirmed, r) == 0
  {
    var p := s.At(r).queue[i];
    EntriesOf(s.At(r).queue, p.job);
    assert p in Entries(s.At(r).queue, p.job);
    var j := s.jobs[p.job];
    assert JobOk(j, p.job) && Matched(s, r, p.job);
    MarkFacts(j.confirmed, p.job, j.conn, r);
    HeldNonNeg(j.confirmed, p.job, j.conn, r);
    if Held(j.confirmed, r) > 0 { HeldNotWanted(j.confirmed, p.job, j.conn, r); }
  }

  lemma GrantPaid(s: State, t: State, ws: Ways, ids: set<int>, ks: set<Conn>, once: multiset<Out>, r: Res, i: nat)
    requires Inv(s) && Inv(t) && Flow(s, t, ws, ids, ks, once)
    requires i < |s.At(r).queue| == |ws.At(r).fates| && ws.At(r).fates[i] == Taken
    requires s.At(r).queue[i].origin == Local && s.At(r).queue[i].job !in ids
    ensures Paid(t, s.At(r).queue[i], r)
  {
    var q, w, p := s.At(r).queue, ws.At(r), s.At(r).queue[i];
    WaitsAlone(s, r, i);
    assert Goes(s.At(r), t.At(r), w, ids, ks);
    StayingWithout(q, w.fates, p.job, i);
    NoneLocal(w.added, p.job);
    EntriesSplit(Staying(q, w.fates), w.added, p.job);
    assert SameClaims(s.jobs[p.job], t.jobs[p.job]);
    assert Matched(t, r, p.job) && JobOk(s.jobs[p.job], p.job) && JobOk(t.jobs[p.job], p.job);
    ClaimParts(s.jobs[p.job].confirmed, p.job, s.jobs[p.job].conn, r);
    ClaimParts(t.jobs[p.job].confirmed, p.job, t.jobs[p.job].conn, r);
    assert Total([p]) == p.amount + Total([p][1..]);
  }

  lemma FlowHonours(s: State, t: State, ws: Ways, ids: set<int>, ks: set<Conn>, once: multiset<Out>)
    requires Inv(s) && Inv(t) && Flow(s, t, ws, ids, ks, once)
    ensures Honoured(s, t, ws, ids)
  {
    forall r, i | 0 <= i < |s.At(r).queue| && i < |ws.At(r).fates| && ws.At(r).fates[i] == Taken
      ensures var p := s.At(r).queue[i]; p.origin == Local && p.job !in ids ==> Paid(t, p, r)
    {
      var p := s.At(r).queue[i];
      assert Goes(s.At(r), t.At(r), ws.At(r), ids, ks);
      if p.origin == Local && p.job !in ids { GrantPaid(s, t, ws, ids, ks, once, r, i); }
    }
  }

  /** What every event does to the waiting requests: each is granted, purged or
      stays; those that stay keep their order, with the new ones behind them; none
      is granted while an earlier one of its queue stays; the GRANTEDs sent are
      exactly those of the peers' requests granted and of a RESERVE served at once;
      and a local request granted to a job that stays in the table is marked there. */
  lemma EventFates(s: State, e: Event) returns (ws: Ways)
    requires Inv(s) && Wired(s) && Feasible(s, e) && Lawful(s, e)
    ensures Flow(s, Step(s, e), ws, IdsOf(s, e), ConnsOf(e), AtOnce(s, e))
    ensures Honoured(s, Step(s, e), ws, IdsOf(s, e))
  {
    ws := EventFlow(s, e);
    StepSound(s, e);
    FlowHonours(s, Step(s, e), ws, IdsOf(s, e), ConnsOf(e), AtOnce(s, e));
  }

  // ---------------------------------------------------------------- runs

  /** The jobs that the events of a run after the first n may purge. */
  ghost function IdsSince(s: State, es: seq<Event>, n: nat): set<int>
    requires LawfulRun(s, es)
  {
    if |es| <= n then {}
    else IdsSince(s, es[..|es|-1], n) + IdsOf(After(s, es[..|es|-1]), es[|es|-1])
  }

  ghost function ConnsSince(es: seq<Event>, n: nat): set<Conn> {
    if |es| <= n then {} else ConnsSince(es[..|es|-1], n) + ConnsOf(es[|es|-1])
  }

  ghost function AtOnceSince(s: State, es: seq<Event>, n: nat): multiset<Out>
    requires LawfulRun(s, es)
  {
    if |es| <= n then multiset{}
    else AtOnceSince(s, es[..|es|-1], n) + AtOnce(After(s, es[..|es|-1]), es[|es|-1])
  }

  lemma FlowThen(s: State, t: State, u: State, v: Ways, w: Ways, ids: set<int>, ks: set<Conn>, a: multiset<Out>,
                 ids': set<int>, ks': set<Conn>, b: multiset<Out>)
    returns (ws: Ways)
    requires Flow(s, t, v, ids, ks, a) && Flow(t, u, w, ids', ks', b)
    ensures Flow(s, u, ws, ids + ids', ks + ks', a + b) && Joins(v, w, ws)
  {
    FlowMore(s, t, v, ids, ks, ids + ids', ks + ks', a);
    FlowMore(t, u, w, ids', ks', ids + ids', ks + ks', b);
    ws := FlowTrans(s, t, u, v, w, ids + ids', ks + ks', a, b);
  }

  /** Between the first n events of a run and its end. */
  ghost predicate FlowSince(s: State, es: seq<Event>, n: nat, ws: Ways)
    requires LawfulRun(s, es) && n <= |es| && LawfulRun(s, es[..n])
  {
    Flow(After(s, es[..n]), After(s, es), ws, IdsSince(s, es, n), ConnsSince(es, n), AtOnceSince(s, es, n))
  }

  lemma LastFates(s: State, es: seq<Event>, n: nat, v: Ways) returns (ws: Ways)
    requires LawfulRun(s, es) && n < |es| && LawfulRun(s, es[..n]) && es[..|es|-1][..n] == es[..n]
    requires FlowSince(s, es[..|es|-1], n, v)
    requires var m := After(s, es[..|es|-1]); Inv(m) && Wired(m)
    ensures FlowSince(s, es, n, ws)
  {
    var p, e := es[..|es|-1], es[|es|-1];
    var m := After(s, p);
    var w := EventFlow(m, e);
    ws := FlowThen(After(s, es[..n]), m, Step(m, e), v, w, IdsSince(s, p, n), ConnsSince(p, n), AtOnceSince(s, p, n),
                   IdsOf(m, e), ConnsOf(e), AtOnce(m, e));
  }

  lemma {:induction false} RunFlow(ip: string, cpu: nat, mem: nat, gpu: nat, es: seq<Event>, n: nat)
    returns (ws: Ways)
    requires LawfulRun(Boot(ip, cpu, mem, gpu), es) && n <= |es|
    ensures LawfulRun(Boot(ip, cpu, mem, gpu), es[..n]) && FlowSince(Boot(ip, cpu, mem, gpu), es, n, ws)
    decreases |es|
  {
    var s := Boot(ip, cpu, mem, gpu);
    LawfulPrefix(s, es, n);
    if n == |es| {
      CutFront(es, n, n);
      ws := FlowNone(After(s, es), {}, {});
    } else {
      var p := es[..|es|-1];
      CutFront(es, |es| - 1, n);
      var v := RunFlow(ip, cpu, mem, gpu, p, n);
      Conservation(ip, cpu, mem, gpu, p);
      ws := LastFates(s, es, n, v);
    }
  }

  /** From any moment of any run to any later one: of the requests that waited at
      the first moment, none was granted while an earlier one of its queue still
      waits, those that wait keep their order ahead of all newcomers, no newcomer
      was granted from the queue while one of them waits, and a request disappears
      without a grant only if an event named its job or its connection. The grants
      are those that the release loop made, and those to local jobs that no event
      named since are held by them. */
  lemma NoOvertaking(ip: string, cpu: nat, mem: nat, gpu: nat, es: seq<Event>, n: nat) returns (ws: Ways)
    requires LawfulRun(Boot(ip, cpu, mem, gpu), es) && n <= |es|
    ensures LawfulRun(Boot(ip, cpu, mem, gpu), es[..n]) && FlowSince(Boot(ip, cpu, mem, gpu), es, n, ws)
    ensures var s := Boot(ip, cpu, mem, gpu);
            Honoured(After(s, es[..n]), After(s, es), ws, IdsSince(s, es, n))
  {
    var s := Boot(ip, cpu, mem, gpu);
    ws := RunFlow(ip, cpu, mem, gpu, es, n);
    Conservation(ip, cpu, mem, gpu, es);
    Conservation(ip, cpu, mem, gpu, es[..n]);
    FlowHonours(After(s, es[..n]), After(s, es), ws, IdsSince(s, es, n), ConnsSince(es, n), AtOnceSince(s, es, n));
  }
}
