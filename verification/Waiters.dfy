/** Nobody waits in vain: from every state whose accounts balance, releases alone get
    the first waiting request of a resource granted. */
module Waiters {
  import opened Types
  import opened Seqs
  import opened Allocator
  import opened Ledger
  import opened Greedy
  import opened Cascade
  import opened Handlers
  import opened Disconnects
  import opened Wiring
  import opened Runs
  import opened Fates
  import opened Fairness

  /** An event by which a peer or a planner gives something back. */
  ghost predicate GivesBack(e: Event) { e.EvRelease? || e.EvJobRelease? || e.EvJobTimeout? }

  ghost predicate OnlyReleases(es: seq<Event>) { forall i :: 0 <= i < |es| ==> GivesBack(es[i]) }

  /** None of the releases names the job of a local request. */
  ghost predicate Spared(p: Pending, es: seq<Event>, ids: set<int>)
    requires OnlyReleases(es)
  {
    p.origin == Local ==> p.job !in ids && forall i :: 0 <= i < |es| ==> es[i].job != p.job
  }

  /** A number above all those of a set. */
  lemma {:induction false} Above(ids: set<int>) returns (n: int)
    ensures forall x :: x in ids ==> x < n
    decreases |ids|
  {
    n := 0;
    if Inhabited(ids) {
      var k := Any(ids);
      var m := Above(ids - {k});
      n := if k < m then m else k + 1;
      forall x | x in ids ensures x < n { assert x == k || x in ids - {k}; }
    } else {
      assert forall x :: x !in ids;
    }
  }

  /** If the first request stays, it is still the first. */
  lemma FirstStays(q: seq<Pending>, q': seq<Pending>, w: Way, ids: set<int>, ks: set<Conn>)
    requires Led(q, q', w, ids, ks) && q != [] && w.fates[0] == Stays
    ensures q' != [] && q'[0] == q[0]
  {}

  lemma {:induction false} NothingGoes(q: seq<Pending>, f: seq<Fate>)
    requires |f| == |q| && forall i :: 0 <= i < |f| ==> f[i] == Stays
    ensures Staying(q, f) == q
  {
    if q != [] { NothingGoes(q[1..], f[1..]); }
  }

  /** Without purges a queue only loses requests if the first of them is granted. */
  lemma ShortenedByGrant(q: seq<Pending>, q': seq<Pending>, w: Way)
    requires Led(q, q', w, {}, {}) && |q'| < |q|
    ensures w.fates[0] == Taken
  {
    if w.fates[0] == Stays {
      forall i | 0 <= i < |q| ensures w.fates[i] == Stays {}
      NothingGoes(q, w.fates);
    }
  }

  // ---------------------------------------------------------------- one release

  /** A step that serves the first request of a resource, or brings it closer. */
  ghost predicate Closer(s: State, e: Event, r: Res, ws: Ways, ids: set<int>) {
    && s.At(r).queue != [] && Feasible(s, e) && Lawful(s, e) && GivesBack(e)
    && Flow(s, Step(s, e), ws, ids, {}, multiset{})
    && (s.At(r).queue[0].origin == Local ==> s.At(r).queue[0].job !in ids && e.job != s.At(r).queue[0].job)
    && (ws.At(r).fates[0] == Taken ||
        (ws.At(r).fates[0] == Stays
         && (Step(s, e).jobs.Keys < s.jobs.Keys
             || (Step(s, e).jobs.Keys == s.jobs.Keys && Step(s, e).At(r).lent == 0 < s.At(r).lent))))
  }

  /** The entries of a job are purged after a step. */
  lemma ThenPurged(s: State, m: State, n: int, r: Res, v: Ways, ids: set<int>) returns (ws: Ways)
    requires s.At(r).queue != [] && Flow(s, m, v, ids, {}, multiset{}) && n in ids
    ensures Flow(s, PurgeJob(m, n), ws, ids, {}, multiset{})
    ensures v.At(r).fates[0] == Taken ==> ws.At(r).fates[0] == Taken
  {
    var u := PurgeFlow(m, n, ids, {});
    ws := FlowJoin(s, m, PurgeJob(m, n), v, u, ids, {});
    assert Goes(s.At(r), m.At(r), v.At(r), ids, {});
    JoinFirst(v.At(r), u.At(r));
  }

  /** A peer gives back an amount: the first request is granted if it then fits. */
  lemma RepayFlow(s: State, r: Res, amount: int, ids: set<int>) returns (ws: Ways)
    requires s.At(r).queue != [] && Accepts(s.At(r), amount)
    ensures Flow(s, ReleaseRes(Repaid(s, r, amount), r, amount), ws, ids, {}, multiset{})
    ensures CanPop(Give(s, r, amount).At(r)) ==> ws.At(r).fates[0] == Taken
    ensures !CanPop(Give(s, r, amount).At(r)) ==>
              ReleaseRes(Repaid(s, r, amount), r, amount).At(r).lent == s.At(r).lent - amount
  {
    var o := Repaid(s, r, amount);
    forall x ensures o.At(x).queue == s.At(x).queue && o.At(x).served == s.At(x).served {}
    var v := FlowStill(s, o, ids, {});
    var w := ReleaseFlow(o, r, amount, ids, {});
    ws := FlowJoin(s, o, ReleaseRes(o, r, amount), v, w, ids, {});
    assert v.At(r) == Way(AllStay(|s.At(r).queue|), [], []);
    JoinFirst(v.At(r), w.At(r));
  }

  /** A release under an id that the table does not hold touches no job. */
  lemma ReleaseUnknown(s: State, n: int, r: Res, amount: int)
    requires n !in s.jobs && amount != 0
    ensures var m := ReleaseRes(Repaid(s, r, amount), r, amount);
            && OnRelease(s, n, r, amount) == PurgeJob(m, n) && m.jobs.Keys == s.jobs.Keys
            && PurgeJob(m, n).At(r).lent == m.At(r).lent
  {
    var o := Repaid(s, r, amount);
    if Accepts(o.At(r), amount) { DrainKeys(Give(o, r, amount), r); }
    PurgeAt(ReleaseRes(o, r, amount), n);
  }

  /** Peers give back all they were lent, under a job id that is not in the table. */
  lemma PeersRepay(s: State, r: Res) returns (e: Event, ws: Ways, ids: set<int>)
    requires Inv(s) && Wired(s) && s.At(r).queue != [] && s.At(r).lent > 0
    ensures Closer(s, e, r, ws, ids)
  {
    var n := Above(s.jobs.Keys + {s.At(r).queue[0].job});
    var amount := s.At(r).lent;
    e := EvRelease(Peer(0), n, r, amount);
    ids := {n};
    SumNonNeg(s.jobs.Keys, s.jobs, r);
    assert Solvent(s, r) && QueueOk(s.At(r));
    ReleaseUnknown(s, n, r, amount);
    var m := ReleaseRes(Repaid(s, r, amount), r, amount);
    var v := RepayFlow(s, r, amount, ids);
    ws := ThenPurged(s, m, n, r, v, ids);
    NotPurged(s, Step(s, e), r, ws, ids);
  }

  lemma NotPurged(s: State, t: State, r: Res, ws: Ways, ids: set<int>)
    requires s.At(r).queue != [] && Flow(s, t, ws, ids, {}, multiset{}) && s.At(r).queue[0].job !in ids
    ensures ws.At(r).fates != [] && ws.At(r).fates[0] != Purged
  {
    assert Goes(s.At(r), t.At(r), ws.At(r), ids, {});
  }

  /** Another job of the table that holds the resource ends. */
  lemma HolderEnds(s: State, r: Res, id: int) returns (e: Event, ws: Ways, ids: set<int>)
    requires Inv(s) && Wired(s) && s.At(r).queue != [] && id in s.jobs && id != s.At(r).queue[0].job
    ensures Closer(s, e, r, ws, ids)
  {
    e := EvJobRelease(Planner(0), id);
    ids := {id};
    ws := EventFates(s, e);
    JobReleaseKeeps(s, id);
    NotPurged(s, Step(s, e), r, ws, ids);
  }

  /** The shares of a removed job are freed without any purge. */
  lemma RemovalServes(s: State, r: Res, id: int) returns (ws: Ways)
    requires s.At(r).queue != [] && id in s.jobs && |RemoveJob(s, id).At(r).queue| < |s.At(r).queue|
    ensures Flow(s, RemoveJob(s, id), ws, {id}, {}, multiset{}) && ws.At(r).fates[0] == Taken
  {
    var o, m := s.(jobs := s.jobs - {id}), RemoveJob(s, id);
    var v := JobsFlow(s, s.jobs - {id}, {id}, {});
    var f := FreeAllFlow(o, id, s.jobs[id].confirmed, {}, {});
    assert o.At(r) == s.At(r) && Goes(o.At(r), m.At(r), f.At(r), {}, {});
    ShortenedByGrant(s.At(r).queue, m.At(r).queue, f.At(r));
    FlowMore(o, m, f, {}, {}, {id}, {}, multiset{});
    ws := FlowJoin(s, o, m, v, f, {id}, {});
    assert v.At(r) == Way(AllStay(|s.At(r).queue|), [], []);
    JoinFirst(v.At(r), f.At(r));
  }

  /** The last holder ends; a peer's request bears its id, but the shares are
      released before that request could be purged. */
  lemma LastHolderEnds(s: State, r: Res) returns (e: Event, ws: Ways, ids: set<int>)
    requires Inv(s) && Wired(s) && s.At(r).queue != [] && s.At(r).queue[0].origin == Remote
    requires var id := s.At(r).queue[0].job;
             id in s.jobs && s.At(r).avail + Held(s.jobs[id].confirmed, r) == s.At(r).total
    ensures Closer(s, e, r, ws, ids)
  {
    var id := s.At(r).queue[0].job;
    e := EvJobTimeout(Planner(0), id);
    ids := {id};
    AllReturned(s, r);
    var f := RemovalServes(s, r, id);
    ws := ThenPurged(s, RemoveJob(s, id), id, r, f, ids);
  }

  /** With everything returned the first request fits. */
  lemma AllReturned(s: State, r: Res)
    requires Inv(s) && s.At(r).queue != []
    requires var id := s.At(r).queue[0].job;
             id in s.jobs && s.At(r).avail + Held(s.jobs[id].confirmed, r) == s.At(r).total
    ensures |RemoveJob(s, s.At(r).queue[0].job).At(r).queue| < |s.At(r).queue|
  {
    var id := s.At(r).queue[0].job;
    var j := s.jobs[id];
    var o := s.(jobs := s.jobs - {id});
    TakeOut(s, id);
    assert JobOk(j, id);
    WaitersInRange(s, r);
    assert s.At(r).queue[0] in s.At(r).queue;
    FreeTakesPrefix(o, id, j.confirmed, j.conn, r);
    assert o.At(r) == s.At(r);
  }

  /** As long as somebody waits and the accounts balance there is such a step. */
  lemma SomeoneGives(s: State, r: Res) returns (e: Event, ws: Ways, ids: set<int>)
    requires Inv(s) && Wired(s) && Balanced(s, r) && s.At(r).queue != []
    ensures Closer(s, e, r, ws, ids)
  {
    WaitersInRange(s, r);
    var p := s.At(r).queue[0];
    assert Solvent(s, r);
    if s.At(r).lent > 0 {
      e, ws, ids := PeersRepay(s, r);
    } else {
      var id := SomeHolder(s.jobs.Keys, s.jobs, r);
      if p.origin == Local { WaitsAlone(s, r, 0); }
      if id != p.job {
        e, ws, ids := HolderEnds(s, r, id);
      } else {
        SumRemove(s.jobs, id, r);
        if SumHeld(s.jobs - {id}, r) > 0 {
          var k := SomeHolder((s.jobs - {id}).Keys, s.jobs - {id}, r);
          e, ws, ids := HolderEnds(s, r, k);
        } else {
          HolderAccepted(s, r, id);
          e, ws, ids := LastHolderEnds(s, r);
        }
      }
    }
  }

  // ---------------------------------------------------------------- until it is served

  /** The way of a step and of what follows, for the first request of a resource. */
  lemma ThenServed(s: State, t: State, u: State, r: Res, v: Ways, w: Ways, ids: set<int>, ids': set<int>)
    returns (ws: Ways)
    requires s.At(r).queue != [] && Flow(s, t, v, ids, {}, multiset{}) && Flow(t, u, w, ids', {}, multiset{})
    requires v.At(r).fates[0] == Stays && t.At(r).queue != [] && w.At(r).fates[0] == Taken
    ensures Flow(s, u, ws, ids + ids', {}, multiset{}) && ws.At(r).fates[0] == Taken
  {
    var none: multiset<Out> := multiset{};
    var all: set<Conn> := {};
    assert none + none == none && all + all == all;
    ws := FlowThen(s, t, u, v, w, ids, all, none, ids', all, none);
    JoinFirst(v.At(r), w.At(r));
  }

  /** One release is a lawful run that keeps everything FindWay needs. */
  lemma OneRelease(s: State, e: Event, r: Res)
    requires Inv(s) && Wired(s) && Balanced(s, r) && Feasible(s, e) && Lawful(s, e) && GivesBack(e)
    ensures LawfulRun(s, [e]) && After(s, [e]) == Step(s, e)
    ensures Inv(Step(s, e)) && Wired(Step(s, e)) && Balanced(Step(s, e), r)
  {
    RunStep(s, [], e);
    Nil([e]);
    StepSound(s, e);
  }

  /** The releases serve the first request, and spare it if it is local. */
  ghost predicate Serves(s: State, t: State, es: seq<Event>, r: Res, ws: Ways, ids: set<int>) {
    && s.At(r).queue != [] && OnlyReleases(es) && Flow(s, t, ws, ids, {}, multiset{})
    && ws.At(r).fates != [] && ws.At(r).fates[0] == Taken && Spared(s.At(r).queue[0], es, ids)
  }

  /** A release that leaves the request where it is, and releases that serve it. */
  lemma ServesLater(s: State, e: Event, t: State, u: State, fs: seq<Event>, r: Res, v: Ways, w: Ways, ids: set<int>,
      ids': set<int>) returns (ws: Ways)
    requires s.At(r).queue != [] && Flow(s, t, v, ids, {}, multiset{}) && v.At(r).fates[0] == Stays && GivesBack(e)
    requires s.At(r).queue[0].origin == Local ==> s.At(r).queue[0].job !in ids && e.job != s.At(r).queue[0].job
    requires t.At(r).queue != [] && t.At(r).queue[0] == s.At(r).queue[0] && Serves(t, u, fs, r, w, ids')
    ensures Serves(s, u, [e] + fs, r, ws, ids + ids')
  {
    ws := ThenServed(s, t, u, r, v, w, ids, ids');
    assert forall i :: 0 <= i < |[e] + fs| ==> ([e] + fs)[i] == if i == 0 then e else fs[i-1];
    assert Goes(s.At(r), u.At(r), ws.At(r), ids + ids', {});
  }

  /** The way to serve the first request. */
  lemma {:induction false} FindWay(s: State, r: Res) returns (es: seq<Event>, ws: Ways, ids: set<int>)
    requires Inv(s) && Wired(s) && Balanced(s, r) && s.At(r).queue != []
    ensures LawfulRun(s, es) && Inv(After(s, es)) && Serves(s, After(s, es), es, r, ws, ids)
    decreases |s.jobs.Keys|, s.At(r).lent
  {
    var e;
    e, ws, ids := SomeoneGives(s, r);
    OneRelease(s, e, r);
    var t := After(s, [e]);
    es := [e];
    assert Goes(s.At(r), t.At(r), ws.At(r), ids, {});
    if ws.At(r).fates[0] == Stays {
      FirstStays(s.At(r).queue, t.At(r).queue, ws.At(r), ids, {});
      Shrinks(s.jobs.Keys, t.jobs.Keys);
      var fs, w, ids' := FindWay(t, r);
      ws := ServesLater(s, e, t, After(t, fs), fs, r, ws, w, ids, ids');
      ids := ids + ids';
      RunJoin(s, [e], fs);
      es := [e] + fs;
    }
  }

  /** What a request gets: a local job of the table holds its amount and waits no
      longer, a peer has one more GRANTED. */
  ghost predicate Answered(s: State, t: State, p: Pending, r: Res) {
    if p.origin == Local then Paid(t, p, r)
    else multiset(t.log)[Out(p.owner, Granted(p.job))] > multiset(s.log)[Out(p.owner, Granted(p.job))]
  }

  lemma HeadAnswered(s: State, t: State, r: Res, ws: Ways, ids: set<int>)
    requires Inv(s) && Inv(t) && Flow(s, t, ws, ids, {}, multiset{}) && s.At(r).queue != []
    requires ws.At(r).fates != [] && ws.At(r).fates[0] == Taken
    requires s.At(r).queue[0].origin == Local ==> s.At(r).queue[0].job !in ids
    ensures Answered(s, t, s.At(r).queue[0], r)
  {
    var p, w := s.At(r).queue[0], ws.At(r);
    assert Goes(s.At(r), t.At(r), w, ids, {});
    if p.origin == Local {
      GrantPaid(s, t, ws, ids, {}, multiset{}, r, 0);
    } else {
      assert w.granted[0] == TakenOf(s.At(r).queue, w.fates)[0] == p;
      assert Waiting(w.granted, p.owner, p.job) > 0;
      assert Tallied(s, t, ws, multiset{}, p.owner, p.job);
    }
  }

  /** Releases alone serve whoever waits first for a resource whose accounts balance:
      a local job is still in the table, named by none of them, and holds its amount;
      a peer gets its GRANTED. */
  lemma ServeHead(s: State, r: Res) returns (es: seq<Event>, ws: Ways, ids: set<int>)
    requires Inv(s) && Wired(s) && Balanced(s, r) && s.At(r).queue != []
    ensures LawfulRun(s, es) && Serves(s, After(s, es), es, r, ws, ids)
    ensures Answered(s, After(s, es), s.At(r).queue[0], r)
  {
    es, ws, ids := FindWay(s, r);
    HeadAnswered(s, After(s, es), r, ws, ids);
  }

  lemma Shrinks(a: set<int>, b: set<int>)
    ensures b < a ==> |b| < |a|
  {
    if forall x :: x in a ==> x in b {
      assert a <= b;
    } else {
      var x :| x in a && x !in b;
      assert x in a - b;
      assert b <= a ==> a == b + (a - b) && |a| == |b| + |a - b|;
    }
  }

  /** Progress over runs: while no loss has harmed a resource, whoever waits first for
      it can still be served, and by releases alone. */
  lemma HeadCanBeServed(ip: string, cpu: nat, mem: nat, gpu: nat, es: seq<Event>, r: Res)
    returns (fs: seq<Event>, ws: Ways, ids: set<int>)
    requires LawfulRun(Boot(ip, cpu, mem, gpu), es) && HarmlessRun(Boot(ip, cpu, mem, gpu), es, r)
    requires After(Boot(ip, cpu, mem, gpu), es).At(r).queue != []
    ensures LawfulRun(Boot(ip, cpu, mem, gpu), es + fs)
    ensures var s := Boot(ip, cpu, mem, gpu);
            && Serves(After(s, es), After(s, es + fs), fs, r, ws, ids)
            && Answered(After(s, es), After(s, es + fs), After(s, es).At(r).queue[0], r)
  {
    var s := Boot(ip, cpu, mem, gpu);
    Conservation(ip, cpu, mem, gpu, es);
    fs, ws, ids := ServeHead(After(s, es), r);
    RunJoin(s, es, fs);
  }
}
