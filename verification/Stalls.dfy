/** Requests that could be served and are not. Only a release runs the loop that
    serves the queue; a purge does not, and may uncover a request for which the
    counter suffices. This module says exactly when an event leaves such a request. */
module Stalls {
  import opened Types
  import opened Seqs
  import opened Allocator
  import opened Ledger
  import opened Greedy
  import opened Cascade
  import opened Handlers
  import opened Requests
  import opened Disconnects
  import opened Wiring
  import opened Runs
  import opened Rollback
  import opened Fairness
  import CT = ConnTable

  // ---------------------------------------------------------------- one resource by itself

  /** What decides who is served of a resource: its counter and its queue. */
  datatype Lane = Lane(avail: int, queue: seq<Pending>)

  ghost function LaneOf(c: Resource): Lane { Lane(c.avail, c.queue) }

  /** The first request of the queue could be paid. */
  ghost predicate Servable(l: Lane) { l.queue != [] && l.queue[0].amount <= l.avail }

  /** An amount comes back and the longest prefix that fits is served. */
  ghost function Pour(l: Lane, amount: int): Lane {
    if amount <= 0 then l
    else
      var n := Fit(l.queue, l.avail + amount);
      Lane(l.avail + amount - Total(l.queue[..n]), l.queue[n..])
  }

  /** The requests of a job are purged. */
  ghost function Sift(l: Lane, id: int): Lane { Lane(l.avail, DropJob(l.queue, id)) }

  ghost function SiftConn(l: Lane, k: Conn): Lane { Lane(l.avail, DropConn(l.queue, k)) }

  lemma {:induction false} DropTwice(q: seq<Pending>, id: int)
    ensures DropJob(DropJob(q, id), id) == DropJob(q, id)
  {
    if q != [] {
      DropTwice(q[1..], id);
      if q[0].job != id { Parts([q[0]], DropJob(q[1..], id)); }
    }
  }

  // ---------------------------------------------------------------- releases

  lemma ReleaseLane(s: State, r: Res, amount: int, x: Res)
    requires Accepts(s.At(r), amount)
    ensures amount > 0 && x == r ==> LaneOf(ReleaseRes(s, r, amount).At(x)) == Pour(LaneOf(s.At(x)), amount)
    ensures x != r ==> LaneOf(ReleaseRes(s, r, amount).At(x)) == LaneOf(s.At(x))
  {
    ReleaseTakesPrefix(s, r, amount);
  }

  lemma FreeLane(s: State, id: int, as_: seq<Alloc>, k: Conn, r: Res)
    requires Good(s) && AllocsOk(as_, id, k) && Room(s, as_)
    ensures LaneOf(FreeAll(s, id, as_).At(r)) == Pour(LaneOf(s.At(r)), Held(as_, r))
  {
    HeldNonNeg(as_, id, k, r);
    FreeTakesPrefix(s, id, as_, k, r);
  }

  /** What a job of the table holds of a resource. */
  ghost function HeldBy(s: State, id: int, r: Res): int {
    if id in s.jobs then Held(s.jobs[id].confirmed, r) else 0
  }

  /** A job ends: its shares are released, then its requests are purged. */
  lemma RemoveLane(s: State, id: int, r: Res)
    requires Inv(s)
    ensures LaneOf(RemoveJob(s, id).At(r)) == Pour(LaneOf(s.At(r)), HeldBy(s, id, r))
    ensures LaneOf(PurgeJob(RemoveJob(s, id), id).At(r)) == Sift(Pour(LaneOf(s.At(r)), HeldBy(s, id, r)), id)
  {
    PurgeAt(RemoveJob(s, id), id);
    if id in s.jobs {
      var j := s.jobs[id];
      TakeOut(s, id);
      assert JobOk(j, id);
      FreeLane(s.(jobs := s.jobs - {id}), id, j.confirmed, j.conn, r);
      assert s.(jobs := s.jobs - {id}).At(r) == s.At(r);
    }
  }

  lemma DeniedLane(s: State, id: int, r: Res)
    requires Inv(s)
    ensures LaneOf(OnDenied(s, id).At(r)) == Sift(Pour(LaneOf(s.At(r)), HeldBy(s, id, r)), id)
  {
    RemoveLane(s, id, r);
    var t := if id in s.jobs then RemoveJob(s, id).Send(s.jobs[id].conn, JobDenied(id)) else s;
    PurgeAt(t, id);
    assert t.At(r) == RemoveJob(s, id).At(r);
  }

  // ---------------------------------------------------------------- RELEASE

  /** How much of its waits a job is granted by the first n requests of a queue. */
  ghost function WonBy(q: seq<Pending>, n: nat, id: int): int
    requires n <= |q|
  {
    Total(Entries(q[..n], id))
  }

  /** What a job holds once a RELEASE has been taken back: what it held, and what the
      release granted to it. */
  ghost function HeldThen(s: State, id: int, r: Res, amount: int, x: Res): int {
    var c := s.At(r);
    HeldBy(s, id, x) +
    if x == r && id in s.jobs && amount > 0 && Accepts(c, amount)
    then WonBy(c.queue, Fit(c.queue, c.avail + amount), id) else 0
  }

  /** The entries of a prefix are a prefix of the entries. */
  lemma {:induction false} PrefixEntries(q: seq<Pending>, n: nat, id: int)
    requires n <= |q|
    ensures Entries(q[..n], id) <= Entries(q, id)
  {
    Halves(q, n);
    EntriesSplit(q[..n], q[n..], id);
  }

  lemma MarkedHolds(j: Job, q: seq<Pending>, n: nat, id: int, r: Res, x: Res)
    requires JobOk(j, id) && n <= |q| && Entries(q, id) == Wanted(j.confirmed, r)
    ensures Held(MarkedIf(j, q[..n], id, r).confirmed, x) == Held(j.confirmed, x) + if x
            == r then WonBy(q, n, id) else 0
  {
    var won := Entries(q[..n], id);
    PrefixEntries(q, n, id);
    MarkFacts(j.confirmed, id, j.conn, r);
    assert won != [] ==> won == Wanted(j.confirmed, r);
    if x != r { MarkElse(j.confirmed, j.conn, r, x); }
  }

  /** What a job holds after a drain. */
  lemma DrainHolds(s: State, r: Res, id: int, x: Res)
    requires Good(s)
    ensures HeldBy(Drain(s, r), id, x) == HeldBy(s, id, x)
              + if x == r && id in s.jobs then WonBy(s.At(r).queue, Fit(s.At(r).queue, s.At(r).avail), id) else 0
  {
    DrainGrants(s, r);
    if id in s.jobs {
      assert Matched(s, r, id) && JobOk(s.jobs[id], id);
      MarkedHolds(s.jobs[id], s.At(r).queue, Fit(s.At(r).queue, s.At(r).avail), id, r, x);
    }
  }

  /** The state in which a RELEASE starts its drain. */
  lemma Topped(s: State, r: Res, amount: int)
    requires Inv(s) && amount <= s.At(r).lent && Accepts(s.At(r), amount)
    ensures var g := Give(Repaid(s, r, amount), r, amount);
            Good(g) && g.jobs == s.jobs && LaneOf(g.At(r)) == Lane(s.At(r).avail + amount, s.At(r).queue)
  {
    RepaidKeeps(s, r, amount);
    GiveKeeps(Repaid(s, r, amount), r, amount);
  }

  lemma TakenBackHolds(s: State, r: Res, amount: int, id: int, x: Res)
    requires Inv(s) && amount <= s.At(r).lent
    ensures HeldBy(TakenBack(s, r, amount), id, x) == HeldThen(s, id, r, amount, x)
  {
    if amount != 0 && Accepts(s.At(r), amount) {
      var g := Give(Repaid(s, r, amount), r, amount);
      Topped(s, r, amount);
      DrainHolds(g, r, id, x);
      assert TakenBack(s, r, amount) == Drain(g, r);
    }
  }

  lemma TakenBackLane(s: State, r: Res, amount: int, x: Res)
    ensures LaneOf(TakenBack(s, r, amount).At(x))
         == if x == r && Accepts(s.At(r), amount) then Pour(LaneOf(s.At(x)), amount) else LaneOf(s.At(x))
  {
    var o := Repaid(s, r, amount);
    assert LaneOf(o.At(x)) == LaneOf(s.At(x)) && Accepts(o.At(r), amount) == Accepts(s.At(r), amount);
    if amount != 0 && Accepts(s.At(r), amount) { ReleaseLane(o, r, amount, x); }
  }

  lemma PeerReleaseLane(s: State, id: int, r: Res, amount: int, x: Res)
    requires Inv(s) && amount <= s.At(r).lent
    ensures LaneOf(OnRelease(s, id, r, amount).At(x))
         == Sift(Pour(if x == r && Accepts(s.At(r), amount) then Pour(LaneOf(s.At(x)), amount) else LaneOf(s.At(x)),
                      HeldThen(s, id, r, amount, x)), id)
  {
    TakenBackHolds(s, r, amount, id, x);
    TakenBackLane(s, r, amount, x);
    TakenBackKeeps(s, r, amount);
    RemoveLane(TakenBack(s, r, amount), id, x);
  }

  // ---------------------------------------------------------------- JOB_RELEASE

  /** Some share that is not a local grant comes before the local grant of r, if any:
      JOB_RELEASE then purges the queues before it releases that grant. */
  ghost predicate PurgesFirst(as_: seq<Alloc>, r: Res) {
    as_ != [] && !(IsLocalGrant(as_[0]) && as_[0].res == r) && (!IsLocalGrant(as_[0]) || PurgesFirst(as_[1..], r))
  }

  ghost function Returning(l: Lane, as_: seq<Alloc>, id: int, r: Res): Lane {
    Sift(Pour(if PurgesFirst(as_, r) then Sift(l, id) else l, Held(as_, r)), id)
  }

  /** One share of a JOB_RELEASE. */
  ghost function ReturnOn(l: Lane, a: Alloc, id: int, r: Res): Lane {
    if !IsLocalGrant(a) then Sift(l, id) else if a.res == r then Pour(l, a.amount) else l
  }

  lemma ReturnLaneOne(s: State, as_: seq<Alloc>, id: int, k: Conn, r: Res)
    requires Good(s) && AllocsOk(as_, id, k) && Room(s, as_) && as_ != []
    ensures LaneOf(ReturnAlloc(s, as_[0]).At(r)) == ReturnOn(LaneOf(s.At(r)), as_[0], id, r)
  {
    assert AllocOk(as_[0], id, k);
    if IsLocalGrant(as_[0]) {
      GrantAccepted(s, as_, id, k);
      ReleaseLane(s, as_[0].res, as_[0].amount, r);
    } else {
      PurgeAt(s, id);
    }
  }

  /** Nothing held: what is left is a purge, once or twice. */
  lemma ReturningNone(l: Lane, as_: seq<Alloc>, id: int, r: Res)
    requires Held(as_, r) == 0
    ensures Returning(l, as_, id, r) == Sift(l, id)
  {
    DropTwice(l.queue, id);
  }

  lemma ReturningStep(l: Lane, as_: seq<Alloc>, id: int, k: Conn, r: Res)
    requires AllocsOk(as_, id, k) && as_ != []
    ensures Returning(ReturnOn(l, as_[0], id, r), as_[1..], id, r) == Returning(l, as_, id, r)
  {
    if IsLocalGrant(as_[0]) && as_[0].res == r {
      NoLocal(as_[1..], r);
      ReturningNone(Pour(l, as_[0].amount), as_[1..], id, r);
    } else if !IsLocalGrant(as_[0]) {
      DropTwice(l.queue, id);
    }
  }

  lemma {:induction false} ReturnLane(s: State, as_: seq<Alloc>, id: int, k: Conn, r: Res)
    requires Good(s) && AllocsOk(as_, id, k) && Room(s, as_) && AllClean(s, as_) && id !in s.jobs
    ensures Sift(LaneOf(ReturnAll(s, as_).At(r)), id) == Returning(LaneOf(s.At(r)), as_, id, r)
    decreases |as_|
  {
    if as_ != [] {
      var t := ReturnAlloc(s, as_[0]);
      ReturnOne(s, as_, id, k);
      ReturnedRest(s, t, as_, id, k);
      ReturnLane(t, as_[1..], id, k, r);
      ReturnLaneOne(s, as_, id, k, r);
      ReturningStep(LaneOf(s.At(r)), as_, id, k, r);
    }
  }

  lemma JobReleaseLane(s: State, id: int, r: Res)
    requires Inv(s) && id in s.jobs
    ensures LaneOf(OnJobRelease(s, id).At(r)) == Returning(LaneOf(s.At(r)), s.jobs[id].confirmed, id, r)
  {
    var o := s.(jobs := s.jobs - {id});
    TakeOut(s, id);
    assert JobOk(s.jobs[id], id) && o.At(r) == s.At(r);
    ReturnLane(o, s.jobs[id].confirmed, id, s.jobs[id].conn, r);
    PurgeAt(ReturnAll(o, s.jobs[id].confirmed), id);
  }

  // ---------------------------------------------------------------- JOB_REQUEST

  /** The share of a resource that the request loop reserves here. */
  ghost function Seat(s: State, reqs: seq<Req>, r: Res): Option<int> {
    if reqs == [] || Bad(s, reqs[0]) then None
    else if reqs[0].host == s.ip && reqs[0].res == r then Some(reqs[0].amount)
    else Seat(s, reqs[1..], r)
  }

  ghost function Given(avail: int, seat: Option<int>): int {
    if seat.Some? && seat.value <= avail then seat.value else 0
  }

  ghost function Queued(avail: int, seat: Option<int>, id: int, k: Conn): seq<Pending> {
    if seat.Some? && avail < seat.value then [Pending(id, seat.value, k, Local)] else []
  }

  lemma {:induction false} SeatSame(s: State, t: State, reqs: seq<Req>, r: Res)
    requires t.ip == s.ip && t.conns == s.conns && forall x :: t.At(x).total == s.At(x).total
    ensures Seat(t, reqs, r) == Seat(s, reqs, r)
  {
    if reqs != [] { SeatSame(s, t, reqs[1..], r); }
  }

  lemma {:induction false} SeatNone(s: State, reqs: seq<Req>, r: Res)
    requires forall i :: 0 <= i < |reqs| && reqs[i].host == s.ip ==> reqs[i].res != r
    ensures Seat(s, reqs, r) == None
  {
    if reqs != [] { SeatNone(s, reqs[1..], r); }
  }

  /** The loop takes from the counter what it grants and adds to the queue what waits. */
  ghost predicate Seated(s: State, j: Job, p: Plan, seat: Option<int>, r: Res) {
    && p.s.At(r).avail == s.At(r).avail - Given(s.At(r).avail, seat)
    && p.s.At(r).queue == s.At(r).queue + Queued(s.At(r).avail, seat, j.id, j.conn)
    && Held(p.j.confirmed, r) == Held(j.confirmed, r) + Given(s.At(r).avail, seat)
  }

  /** A local share that is not refused, and the rest of the request after it. */
  lemma SeatShare(s: State, j: Job, reqs: seq<Req>, r: Res)
    requires reqs != [] && reqs[0].host == s.ip && !Bad(s, reqs[0]) && reqs[0].amount > 0
    requires QueueOk(s.At(reqs[0].res)) && RequestOk(s.ip, reqs)
    ensures var q := reqs[0]; var (t, o) := ReserveRes(s, q.res, q.amount, j.id, j.conn, Local);
            var j' := j.(confirmed := [Alloc(q.res, q.amount, Local, s.ip, j.id, o, j.conn)] + j.confirmed);
            && o != RmDenied
            && forall p: Plan :: Seated(t, j', p, Seat(t, reqs[1..], r), r) ==> Seated(s, j, p, Seat(s, reqs, r), r)
  {
    var q, rest := reqs[0], reqs[1..];
    var (t, o) := ReserveRes(s, q.res, q.amount, j.id, j.conn, Local);
    var a := Alloc(q.res, q.amount, Local, s.ip, j.id, o, j.conn);
    assert ([a] + j.confirmed)[1..] == j.confirmed;
    assert t.ip == s.ip && t.conns == s.conns && forall x :: t.At(x).total == s.At(x).total;
    if q.res == r {
      forall i | 0 <= i < |rest| && rest[i].host == t.ip ensures rest[i].res != r { assert rest[i] == reqs[i+1]; }
      SeatNone(t, rest, r);
      Nil(t.At(r).queue);
    } else {
      SeatSame(s, t, rest, r);
    }
  }

  lemma {:induction false} BuildLane(s: State, j: Job, reqs: seq<Req>, r: Res)
    requires (forall x :: QueueOk(s.At(x))) && RequestOk(s.ip, reqs)
    ensures Seated(s, j, Build(s, j, reqs), Seat(s, reqs, r), r)
    decreases |reqs|
  {
    Nil(s.At(r).queue);
    if reqs != [] {
      var q, rest := reqs[0], reqs[1..];
      assert RequestOk(s.ip, rest);
      if q.host == s.ip && !Bad(s, q) {
        var (t, o) := ReserveRes(s, q.res, q.amount, j.id, j.conn, Local);
        SeatShare(s, j, reqs, r);
        StaysOk(s, q.res, q.amount, j.id, j.conn);
        BuildLane(t, j.(confirmed := [Alloc(q.res, q.amount, Local, s.ip, j.id, o, j.conn)] + j.confirmed), rest, r);
      } else if q.host != s.ip {
        var k := CT.Lookup(s.conns, q.host);
        if k.Some? {
          var t := s.Send(k.value, Reserve(j.id, q.res, q.amount));
          forall x ensures t.At(x) == s.At(x) {}
          SeatSame(s, t, rest, r);
          BuildLane(t, Ask(j, q, k.value, None), rest, r);
        } else if q.dial.Some? {
          BuildLane(s, Ask(j, q, q.dial.value, Some(Reserve(j.id, q.res, q.amount))), rest, r);
        }
      } else {
        assert QueueOk(s.At(q.res));
      }
    }
  }

  /** A request that is refused gives back what it was granted, after a purge. */
  ghost function Settling(l: Lane, given: int, waits: seq<Pending>, id: int, refused: bool): Lane {
    if refused then Pour(Lane(l.avail - given, DropJob(l.queue, id)), given) else Lane(l.avail - given, l.queue + waits)
  }

  ghost function Requesting(s: State, k: Conn, id: int, reqs: seq<Req>, r: Res): Lane {
    var l, seat := LaneOf(s.At(r)), Seat(s, reqs, r);
    if id in s.jobs then l
    else Settling(l, Given(l.avail, seat), Queued(l.avail, seat, id, k), id, Refusing(s, reqs))
  }

  /** A resource after a request for a new job was built or undone. */
  ghost function RequestEnd(p: Plan, id: int, r: Res): Resource {
    if p.Built? then p.s.At(r) else FreeAll(PurgeJob(p.s, id), id, p.j.confirmed).At(r)
  }

  lemma RequestIs(s: State, k: Conn, id: int, reqs: seq<Req>, p: Plan, r: Res)
    requires id !in s.jobs && p == Build(s, Job(id, k, [], []), reqs)
    ensures OnJobRequest(s, k, id, reqs).At(r) == RequestEnd(p, id, r)
  {
  }

  lemma EndLane(s: State, k: Conn, id: int, p: Plan, seat: Option<int>, r: Res)
    requires Seated(s, Job(id, k, [], []), p, seat, r)
    requires p.j.id == id && id !in p.s.jobs && Inv(With(p.s, p.j))
    ensures var l := LaneOf(s.At(r));
            LaneOf(RequestEnd(p, id, r))
            == Settling(l, Given(l.avail, seat), Queued(l.avail, seat, id, k), id, p.Refused?)
  {
    if p.Refused? { RefusalLane(s, p, id, k, seat, r); }
  }

  lemma RequestLane(s: State, k: Conn, id: int, reqs: seq<Req>, r: Res)
    requires Inv(s) && k.Planner? && PeersOnly(s.conns) && RequestOk(s.ip, reqs)
    ensures LaneOf(OnJobRequest(s, k, id, reqs).At(r)) == Requesting(s, k, id, reqs, r)
  {
    if id !in s.jobs {
      var j := Job(id, k, [], []);
      var p := Build(s, j, reqs);
      assert forall x :: QueueOk(s.At(x));
      BuildLane(s, j, reqs, r);
      BuildRefuses(s, j, reqs);
      RefusedBuild(s, k, id, reqs);
      EndLane(s, k, id, p, Seat(s, reqs, r), r);
      assert p.Refused? == Refusing(s, reqs);
      RequestIs(s, k, id, reqs, p, r);
    }
  }

  lemma RefusedBuild(s: State, k: Conn, id: int, reqs: seq<Req>)
    requires Inv(s) && k.Planner? && PeersOnly(s.conns) && RequestOk(s.ip, reqs) && id !in s.jobs
    ensures var p := Build(s, Job(id, k, [], []), reqs); p.j.id == id && id !in p.s.jobs && Inv(With(p.s, p.j))
  {
    EmptyJob(s, id, k);
    BuildKeeps(s, Job(id, k, [], []), reqs);
  }

  lemma RefusalLane(s: State, p: Plan, id: int, k: Conn, seat: Option<int>, r: Res)
    requires p.j.id == id && id !in p.s.jobs && Inv(With(p.s, p.j)) && Seated(s, Job(id, k, [], []), p, seat, r)
    ensures var given := Given(s.At(r).avail, seat);
            LaneOf(FreeAll(PurgeJob(p.s, id), id, p.j.confirmed).At(r))
            == Pour(Lane(s.At(r).avail - given, DropJob(s.At(r).queue, id)), given)
  {
    var q, b := s.At(r).queue, p.s.At(r).queue;
    RollbackRoom(p.s, p.j);
    PurgeAt(p.s, id);
    Parts(q, Queued(s.At(r).avail, seat, id, k));
    DropOwn(b, |q|, id);
    FreeLane(PurgeJob(p.s, id), id, p.j.confirmed, p.j.conn, r);
  }

  // ---------------------------------------------------------------- losing a connection

  /** Jobs abandoned one after the other: purge, then release. */
  ghost function Shed(l: Lane, vs: seq<Job>, r: Res): Lane
    decreases |vs|
  {
    if vs == [] then l else Shed(Pour(Sift(l, vs[0].id), Held(vs[0].confirmed, r)), vs[1..], r)
  }

  lemma FirstLane(s: State, vs: seq<Job>, r: Res)
    requires Good(s) && Doomed(s, vs) && vs != []
    ensures LaneOf(First(s, vs[0]).At(r)) == Pour(Sift(LaneOf(s.At(r)), vs[0].id), Held(vs[0].confirmed, r))
  {
    FirstGives(s, vs, r);
    HeldNonNeg(vs[0].confirmed, vs[0].id, vs[0].conn, r);
  }

  lemma {:induction false} AbandonLane(s: State, vs: seq<Job>, r: Res)
    requires Good(s) && Settled(s) && Doomed(s, vs)
    ensures LaneOf(Abandon(s, vs).At(r)) == Shed(LaneOf(s.At(r)), vs, r)
    decreases |vs|
  {
    if vs != [] {
      var t := First(s, vs[0]);
      FirstKeeps(s, vs);
      FirstLane(s, vs, r);
      AbandonLane(t, vs[1..], r);
      assert Abandon(s, vs) == Abandon(t, vs[1..]);
    }
  }

  lemma LossLane(s: State, o: State, k: Conn, order: seq<int>, r: Res)
    requires Inv(s) && Extracted(s, o, k) && Enumerates(order, Victims(s.jobs, k))
    ensures LaneOf(Abandon(o, Pick(s.jobs, order, k)).At(r)) == Shed(LaneOf(o.At(r)), Pick(s.jobs, order, k), r)
  {
    ExtractGood(s, o, k);
    ExtractDoomed(s, o, k, order);
    AbandonLane(o, Pick(s.jobs, order, k), r);
  }

  lemma DisconnectLane(s: State, k: Conn, order: seq<int>, r: Res)
    requires Inv(s) && Enumerates(order, Victims(s.jobs, k))
    ensures LaneOf(OnDisconnect(s, k, order).At(r)) == Shed(SiftConn(LaneOf(s.At(r)), k), Pick(s.jobs, order, k), r)
  {
    var o := PurgeConn(s, k).(jobs := Kept(s.jobs, k));
    var u := Abandon(o, Pick(s.jobs, order, k));
    assert o.At(r) == PurgeConnIn(s.At(r), k);
    LossLane(s, o, k, order, r);
    assert OnDisconnect(s, k, order).At(r) == u.At(r);
  }

  lemma ConnFailedLane(s: State, k: Conn, order: seq<int>, r: Res)
    requires Inv(s) && Enumerates(order, Victims(s.jobs, k))
    ensures LaneOf(OnConnFailed(s, k, order).At(r)) == Shed(LaneOf(s.At(r)), Pick(s.jobs, order, k), r)
  {
    var o := s.(jobs := Kept(s.jobs, k));
    assert o.At(r) == s.At(r);
    LossLane(s, o, k, order, r);
  }

  // ---------------------------------------------------------------- any event

  /** The counter and the queue of a resource after an event, from the state before:
      what is released and what is purged, in the order in which the agent does it. */
  ghost function NextLane(s: State, e: Event, r: Res): Lane
    requires Feasible(s, e)
  {
    var l := LaneOf(s.At(r));
    match e
    case EvReserve(k, id, x, amount) =>
      if r != x || (l.avail < amount && s.At(r).total < amount) then l
      else if amount <= l.avail then Lane(l.avail - amount, l.queue)
      else Lane(l.avail, l.queue + [Pending(id, amount, k, Remote)])
    case EvRelease(_, id, x, amount) =>
      var m := if r == x && Accepts(s.At(x), amount) then Pour(l, amount) else l;
      Sift(Pour(m, HeldThen(s, id, x, amount, r)), id)
    case EvDenied(_, id) => Sift(Pour(l, HeldBy(s, id, r)), id)
    case EvJobTimeout(_, id) => Sift(Pour(l, HeldBy(s, id, r)), id)
    case EvJobRelease(_, id) => if id in s.jobs then Returning(l, s.jobs[id].confirmed, id, r) else l
    case EvJobRequest(k, id, reqs) => Requesting(s, k, id, reqs, r)
    case EvDisconnect(k, order) => Shed(SiftConn(l, k), Pick(s.jobs, order, k), r)
    case EvConnFailed(k, order) => Shed(l, Pick(s.jobs, order, k), r)
    case EvGranted(_, _) => l
    case EvConnReady(_, _) => l
  }

  /** Every event does to each resource exactly that. */
  lemma StepLane(s: State, e: Event, r: Res)
    requires Inv(s) && Wired(s) && Feasible(s, e) && Lawful(s, e)
    ensures LaneOf(Step(s, e).At(r)) == NextLane(s, e, r)
  {
    match e
    case EvReserve(k, id, x, amount) => ReserveCases(s, k, id, x, amount);
    case EvRelease(_, id, x, amount) => PeerReleaseLane(s, id, x, amount, r);
    case EvDenied(_, id) => DeniedLane(s, id, r);
    case EvJobTimeout(_, id) => RemoveLane(s, id, r);
    case EvJobRelease(_, id) => if id in s.jobs { JobReleaseLane(s, id, r); }
    case EvJobRequest(k, id, reqs) => RequestLane(s, k, id, reqs, r);
    case EvDisconnect(k, order) => DisconnectLane(s, k, order, r);
    case EvConnFailed(k, order) => ConnFailedLane(s, k, order, r);
    case EvGranted(k, id) => GrantedCases(s, k, id);
    case EvConnReady(k, order) => OpenOne(s, k, order);
  }

  /** An event leaves the first request of a resource waiting although the counter
      suffices, if and only if what it releases and purges uncovers such a request. */
  lemma StallsIff(s: State, e: Event, r: Res)
    requires Inv(s) && Wired(s) && Feasible(s, e) && Lawful(s, e)
    ensures CanPop(Step(s, e).At(r)) <==> Servable(NextLane(s, e, r))
  {
    StepLane(s, e, r);
  }

  // ---------------------------------------------------------------- from a state where nothing is owed

  /** A release leaves nobody who could be served. */
  lemma {:induction false} FitBlocks(q: seq<Pending>, avail: int)
    ensures var n := Fit(q, avail); n < |q| ==> q[n].amount > avail - Total(q[..n])
  {
    var n := Fit(q, avail);
    if q != [] && q[0].amount <= avail {
      FitBlocks(q[1..], avail - q[0].amount);
      assert q[..n][1..] == q[1..][..n-1];
    } else {
      assert q[..0] == [];
    }
  }

  lemma PourBlocks(l: Lane, amount: int)
    requires amount > 0 || !Servable(l)
    ensures !Servable(Pour(l, amount))
  {
    if amount > 0 { FitBlocks(l.queue, l.avail + amount); }
  }

  /** A purge uncovers a request exactly if it removes the first one and the first of
      the others can be paid. */
  lemma SiftUncovers(l: Lane, id: int)
    requires !Servable(l)
    ensures Servable(Sift(l, id)) <==>
              l.queue != [] && l.queue[0].job == id && Servable(Sift(Lane(l.avail, l.queue[1..]), id))
  {
  }

  /** When a job is removed where nobody could be served, somebody waits in vain
      afterwards exactly if the request at which its own releases stopped is the job's
      and the first of the others can be paid. */
  lemma RemovalStalls(s: State, id: int, r: Res)
    requires Inv(s) && !CanPop(s.At(r))
    ensures var m := Pour(LaneOf(s.At(r)), HeldBy(s, id, r));
            CanPop(PurgeJob(RemoveJob(s, id), id).At(r)) <==>
              m.queue != [] && m.queue[0].job == id && Servable(Sift(Lane(m.avail, m.queue[1..]), id))
  {
    RemoveLane(s, id, r);
    PourBlocks(LaneOf(s.At(r)), HeldBy(s, id, r));
    SiftUncovers(Pour(LaneOf(s.At(r)), HeldBy(s, id, r)), id);
  }

  /** No request of a queue is one of these jobs' or connections'. */
  ghost predicate Unnamed(q: seq<Pending>, ids: set<int>, ks: set<Conn>) {
    forall p :: p in q ==> p.job !in ids && p.owner !in ks
  }

  lemma {:induction false} KeepsAll(q: seq<Pending>, id: int)
    requires forall p :: p in q ==> p.job != id
    ensures DropJob(q, id) == q
  {
    if q != [] {
      assert q[0] in q;
      KeepsAll(q[1..], id);
    }
  }

  lemma {:induction false} KeepsAllOf(q: seq<Pending>, k: Conn)
    requires forall p :: p in q ==> p.owner != k
    ensures DropConn(q, k) == q
  {
    if q != [] {
      assert q[0] in q;
      KeepsAllOf(q[1..], k);
    }
  }

  /** A release and a purge that names nobody. */
  lemma PourSift(l: Lane, amount: int, id: int, ids: set<int>, ks: set<Conn>)
    requires !Servable(l) && Unnamed(l.queue, ids, ks) && id in ids
    ensures !Servable(Pour(l, amount)) && Unnamed(Pour(l, amount).queue, ids, ks)
    ensures Sift(Pour(l, amount), id) == Pour(l, amount) && Sift(l, id) == l
  {
    PourBlocks(l, amount);
    KeepsAll(l.queue, id);
    KeepsAll(Pour(l, amount).queue, id);
  }

  lemma {:induction false} ShedBlocks(l: Lane, vs: seq<Job>, r: Res, ids: set<int>, ks: set<Conn>)
    requires !Servable(l) && Unnamed(l.queue, ids, ks) && forall i :: 0 <= i < |vs| ==> vs[i].id in ids
    ensures !Servable(Shed(l, vs, r))
    decreases |vs|
  {
    if vs != [] {
      PourSift(l, Held(vs[0].confirmed, r), vs[0].id, ids, ks);
      ShedBlocks(Pour(l, Held(vs[0].confirmed, r)), vs[1..], r, ids, ks);
    }
  }

  lemma LossBlocks(s: State, e: Event, r: Res)
    requires Good(s) && Feasible(s, e) && (e.EvDisconnect? || e.EvConnFailed?) && !CanPop(s.At(r))
    requires Unnamed(s.At(r).queue, IdsOf(s, e), ConnsOf(e))
    ensures !Servable(NextLane(s, e, r))
  {
    var l := LaneOf(s.At(r));
    PickIds(s, e.k, e.order);
    if e.EvDisconnect? { KeepsAllOf(l.queue, e.k); }
    ShedBlocks(l, Pick(s.jobs, e.order, e.k), r, IdsOf(s, e), ConnsOf(e));
  }

  lemma RequestBlocks(s: State, k: Conn, id: int, reqs: seq<Req>, r: Res)
    requires !CanPop(s.At(r)) && (id !in s.jobs ==> Unnamed(s.At(r).queue, {id}, {}))
    requires forall i :: 0 <= i < |reqs| ==> reqs[i].amount > 0
    ensures !Servable(Requesting(s, k, id, reqs, r))
  {
    var l := LaneOf(s.At(r));
    var given := Given(l.avail, Seat(s, reqs, r));
    SeatPositive(s, reqs, r);
    if id !in s.jobs {
      KeepsAll(l.queue, id);
      PourBlocks(Lane(l.avail - given, l.queue), given);
    }
  }

  lemma {:induction false} SeatPositive(s: State, reqs: seq<Req>, r: Res)
    requires forall i :: 0 <= i < |reqs| ==> reqs[i].amount > 0
    ensures Seat(s, reqs, r).Some? ==> Seat(s, reqs, r).value > 0
  {
    if reqs != [] { SeatPositive(s, reqs[1..], r); }
  }

  lemma EndBlocks(s: State, e: Event, r: Res)
    requires e.EvRelease? || e.EvDenied? || e.EvJobRelease? || e.EvJobTimeout?
    requires !CanPop(s.At(r)) && Unnamed(s.At(r).queue, {e.job}, {})
    ensures !Servable(NextLane(s, e, r))
  {
    var l := LaneOf(s.At(r));
    if e.EvRelease? {
      var m := if r == e.res && Accepts(s.At(r), e.amount) then Pour(l, e.amount) else l;
      PourSift(l, e.amount, e.job, {e.job}, {});
      PourSift(m, HeldThen(s, e.job, e.res, e.amount, r), e.job, {e.job}, {});
    } else {
      PourSift(l, HeldBy(s, e.job, r), e.job, {e.job}, {});
    }
  }

  /** Where nobody could be served, only an event that names one of those who wait for
      the resource can leave somebody waiting in vain. */
  lemma OnlyPurgesStall(s: State, e: Event, r: Res)
    requires Inv(s) && Wired(s) && Feasible(s, e) && Lawful(s, e) && !CanPop(s.At(r))
    ensures CanPop(Step(s, e).At(r)) ==>
              exists p :: p in s.At(r).queue && (p.job in IdsOf(s, e) || p.owner in ConnsOf(e))
  {
    StallsIff(s, e, r);
    if Unnamed(s.At(r).queue, IdsOf(s, e), ConnsOf(e)) {
      if e.EvDisconnect? || e.EvConnFailed? {
        LossBlocks(s, e, r);
      } else if e.EvJobRequest? {
        RequestBlocks(s, e.k, e.job, e.reqs, r);
      } else if e.EvRelease? || e.EvDenied? || e.EvJobRelease? || e.EvJobTimeout? {
        EndBlocks(s, e, r);
      }
    }
  }

  // ---------------------------------------------------------------- runs

  /** At no moment of the run could the first request of a resource be paid. */
  ghost predicate AlwaysBlocked(s: State, es: seq<Event>, r: Res)
    requires LawfulRun(s, es)
    decreases |es|
  {
    !CanPop(After(s, es).At(r)) && (es == [] || AlwaysBlocked(s, es[..|es|-1], r))
  }

  /** No event of the run uncovers a request that could be paid. */
  ghost predicate NeverUncovers(s: State, es: seq<Event>, r: Res)
    requires LawfulRun(s, es)
    decreases |es|
  {
    es == [] || (NeverUncovers(s, es[..|es|-1], r) && !Servable(NextLane(After(s, es[..|es|-1]), es[|es|-1], r)))
  }

  /** Throughout a run every first request of a resource is one that cannot be paid, if
      and only if no event of the run uncovers one that can. */
  lemma {:induction false} BlockedIff(ip: string, cpu: nat, mem: nat, gpu: nat, es: seq<Event>, r: Res)
    requires LawfulRun(Boot(ip, cpu, mem, gpu), es)
    ensures AlwaysBlocked(Boot(ip, cpu, mem, gpu), es, r) <==> NeverUncovers(Boot(ip, cpu, mem, gpu), es, r)
    decreases |es|
  {
    var s := Boot(ip, cpu, mem, gpu);
    if es != [] {
      var p := es[..|es|-1];
      BlockedIff(ip, cpu, mem, gpu, p, r);
      Conservation(ip, cpu, mem, gpu, p);
      StallsIff(After(s, p), es[|es|-1], r);
    }
  }
}
