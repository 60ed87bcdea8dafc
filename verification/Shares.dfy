/** The shares of a job: what a request makes of it, what a GRANTED moves, and that
    over any run nothing of it changes or goes missing but with a lost connection. */
module Shares {
  import opened Types
  import opened Seqs
  import opened Allocator
  import opened Ledger
  import opened Cascade
  import opened Handlers
  import opened Requests
  import opened Disconnects
  import opened Wiring
  import opened Runs
  import opened Rollback
  import opened Messages
  import CT = ConnTable

  // ---------------------------------------------------------------- what a request asks for

  /** The shares asked of other hosts, in the order of the request. */
  ghost function Foreign(reqs: seq<Req>, ip: string): seq<Req> {
    if reqs == [] then [] else (if reqs[0].host != ip then [reqs[0]] else []) + Foreign(reqs[1..], ip)
  }

  /** The shares asked of this host, in the order of the request. */
  ghost function Here(reqs: seq<Req>, ip: string): seq<Req> {
    if reqs == [] then [] else (if reqs[0].host == ip then [reqs[0]] else []) + Here(reqs[1..], ip)
  }

  lemma ForeignCons(reqs: seq<Req>, ip: string)
    requires reqs != []
    ensures Foreign(reqs, ip) == if reqs[0].host
            == ip then Foreign(reqs[1..], ip) else [reqs[0]] + Foreign(reqs[1..], ip)
    ensures Here(reqs, ip) == if reqs[0].host == ip then [reqs[0]] + Here(reqs[1..], ip) else Here(reqs[1..], ip)
  {
    Nil(Foreign(reqs[1..], ip));
    Nil(Here(reqs[1..], ip));
  }

  /** Every share is on exactly one of the two lists. */
  lemma {:induction false} EveryShare(reqs: seq<Req>, ip: string)
    ensures multiset(reqs) == multiset(Foreign(reqs, ip)) + multiset(Here(reqs, ip))
    ensures forall q :: q in Foreign(reqs, ip) ==> q.host != ip
    ensures forall q :: q in Here(reqs, ip) ==> q.host == ip
  {
    if reqs != [] {
      EveryShare(reqs[1..], ip);
      ForeignCons(reqs, ip);
      Halves(reqs, 1);
      assert reqs[..1] == [reqs[0]];
    }
  }

  /** The outgoing request for a share: with its host, resource and amount; on the open
      connection to the host, or else on the one dialled, with its RESERVE held back. */
  ghost predicate AsksFor(o: OutReq, q: Req, conns: CT.Table, id: int) {
    && o.host == Clip(q.host, 14) && o.res == q.res && o.amount == q.amount
    && match CT.Lookup(conns, q.host)
       case Some(k) => o.conn == k && o.held == None
       case None => q.dial == Some(o.conn) && o.held == Some(Reserve(id, q.res, q.amount))
  }

  /** The allocation for a share of this host: granted if the counter has the amount. */
  ghost predicate KeptFor(a: Alloc, q: Req, s: State, id: int, k: Conn) {
    && a.res == q.res && a.amount == q.amount && a.kind == Local && a.host == s.ip && a.job == id && a.conn == k
    && a.outcome == if q.amount <= s.At(q.res).avail then RmGranted else RmQueued
  }

  ghost predicate AsksAll(ps: seq<OutReq>, qs: seq<Req>, conns: CT.Table, id: int) {
    |ps| == |qs| && forall i :: 0 <= i < |qs| ==> AsksFor(ps[|qs|-1-i], qs[i], conns, id)
  }

  ghost predicate KeepsAll(as_: seq<Alloc>, qs: seq<Req>, s: State, id: int, k: Conn) {
    |as_| == |qs| && forall i :: 0 <= i < |qs| ==> KeptFor(as_[|qs|-1-i], qs[i], s, id, k)
  }

  lemma AsksCons(ps: seq<OutReq>, o: OutReq, q: Req, qs: seq<Req>, conns: CT.Table, id: int)
    requires AsksAll(ps, qs, conns, id) && AsksFor(o, q, conns, id)
    ensures AsksAll(ps + [o], [q] + qs, conns, id)
  {
    var all, rs := ps + [o], [q] + qs;
    forall i | 0 <= i < |rs| ensures AsksFor(all[|rs|-1-i], rs[i], conns, id) {
      assert i > 0 ==> rs[i] == qs[i-1] && all[|rs|-1-i] == ps[|qs|-1-(i-1)];
    }
  }

  lemma KeepsCons(as_: seq<Alloc>, a: Alloc, q: Req, qs: seq<Req>, s: State, id: int, k: Conn)
    requires KeepsAll(as_, qs, s, id, k) && KeptFor(a, q, s, id, k)
    ensures KeepsAll(as_ + [a], [q] + qs, s, id, k)
  {
    var all, rs := as_ + [a], [q] + qs;
    forall i | 0 <= i < |rs| ensures KeptFor(all[|rs|-1-i], rs[i], s, id, k) {
      assert i > 0 ==> rs[i] == qs[i-1] && all[|rs|-1-i] == as_[|qs|-1-(i-1)];
    }
  }

  // ---------------------------------------------------------------- what the loop makes of it

  /** The shares still to come find their counters as the request found them. */
  ghost predicate Untouched(o: State, s: State, reqs: seq<Req>) {
    && s.ip == o.ip && s.conns == o.conns
    && forall i :: 0 <= i < |reqs| && reqs[i].host == s.ip ==> s.At(reqs[i].res).avail == o.At(reqs[i].res).avail
  }

  ghost predicate NoneBad(s: State, reqs: seq<Req>) { forall i :: 0 <= i < |reqs| ==> !Bad(s, reqs[i]) }

  /** The loop links an outgoing request for every foreign share and an allocation for
      every share of this host, in order, the newest first, and nothing else. */
  ghost predicate Made(o: State, j: Job, reqs: seq<Req>, p: Plan, ps: seq<OutReq>, as_: seq<Alloc>) {
    && p.Built? && p.j.id == j.id && p.j.conn == j.conn
    && p.j.pending == ps + j.pending && p.j.confirmed == as_ + j.confirmed
    && AsksAll(ps, Foreign(reqs, o.ip), o.conns, j.id) && KeepsAll(as_, Here(reqs, o.ip), o, j.id, j.conn)
  }

  lemma {:induction false} BuildMakes(o: State, s: State, j: Job, reqs: seq<Req>)
    returns (ps: seq<OutReq>, as_: seq<Alloc>)
    requires (forall x :: QueueOk(s.At(x))) && RequestOk(s.ip, reqs) && NoneBad(s, reqs) && Untouched(o, s, reqs)
    ensures Made(o, j, reqs, Build(s, j, reqs), ps, as_)
    decreases |reqs|
  {
    if reqs == [] {
      ps, as_ := [], [];
      Nil(j.pending);
      Nil(j.confirmed);
    } else {
      var q, rest := reqs[0], reqs[1..];
      assert forall i :: 0 <= i < |rest| ==> rest[i] == reqs[i+1];
      assert RequestOk(s.ip, rest) && !Bad(s, q);
      if q.host == s.ip {
        var (t, w) := ReserveRes(s, q.res, q.amount, j.id, j.conn, Local);
        var a := Alloc(q.res, q.amount, Local, s.ip, j.id, w, j.conn);
        StaysOk(s, q.res, q.amount, j.id, j.conn);
        ShareStill(o, s, j, reqs);
        ps, as_ := BuildMakes(o, t, j.(confirmed := [a] + j.confirmed), rest);
        KeepsCons(as_, a, q, Here(rest, o.ip), o, j.id, j.conn);
        Assoc(as_, [a], j.confirmed);
        as_ := as_ + [a];
        Nil(Foreign(rest, o.ip));
      } else {
        var k := CT.Lookup(s.conns, q.host);
        var t := if k.Some? then s.Send(k.value, Reserve(j.id, q.res, q.amount)) else s;
        var c := if k.Some? then k.value else q.dial.value;
        var held := if k.Some? then None else Some(Reserve(j.id, q.res, q.amount));
        var x := OutReq(Clip(q.host, 14), c, q.res, q.amount, held);
        forall y ensures t.At(y) == s.At(y) {}
        ps, as_ := BuildMakes(o, t, Ask(j, q, c, held), rest);
        AsksCons(ps, x, q, Foreign(rest, o.ip), o.conns, j.id);
        Assoc(ps, [x], j.pending);
        ps := ps + [x];
        Nil(Here(rest, o.ip));
      }
    }
  }

  /** A share of this host that is not refused leaves the rest of the request as it was. */
  lemma ShareStill(o: State, s: State, j: Job, reqs: seq<Req>)
    requires reqs != [] && reqs[0].host == s.ip && !Bad(s, reqs[0]) && QueueOk(s.At(reqs[0].res))
    requires RequestOk(s.ip, reqs) && NoneBad(s, reqs) && Untouched(o, s, reqs)
    ensures var q := reqs[0]; var (t, w) := ReserveRes(s, q.res, q.amount, j.id, j.conn, Local);
            && w == (if q.amount <= o.At(q.res).avail then RmGranted else RmQueued)
            && NoneBad(t, reqs[1..]) && Untouched(o, t, reqs[1..])
  {
    var q, rest := reqs[0], reqs[1..];
    var (t, w) := ReserveRes(s, q.res, q.amount, j.id, j.conn, Local);
    assert forall x :: t.At(x).total == s.At(x).total && (x != q.res ==> t.At(x) == s.At(x));
    forall i | 0 <= i < |rest| ensures !Bad(t, rest[i]) && (rest[i].host == s.ip ==> rest[i].res != q.res) {
      assert rest[i] == reqs[i+1];
    }
  }

  /** An accepted request: the job enters the table under its id and owner, with exactly
      one outgoing request for every foreign share and one allocation for every share of
      this host; the agent sends exactly the RESERVEs of the open connections, and
      announces the job if nothing of it is outstanding. */
  lemma RequestMakes(s: State, k: Conn, id: int, reqs: seq<Req>)
    requires (forall x :: QueueOk(s.At(x))) && RequestOk(s.ip, reqs) && id !in s.jobs && NoneBad(s, reqs)
    ensures var t := OnJobRequest(s, k, id, reqs);
            && id in t.jobs && t.jobs == s.jobs[id := t.jobs[id]] && t.jobs[id].id == id && t.jobs[id].conn == k
            && AsksAll(t.jobs[id].pending, Foreign(reqs, s.ip), s.conns, id)
            && KeepsAll(t.jobs[id].confirmed, Here(reqs, s.ip), s, id, k)
            && t.log == s.log + Reservations(s, id, reqs) + if Ready(t.jobs[id]) then [Out(k, JobGranted(id))] else []
  {
    var j := Job(id, k, [], []);
    var p := Build(s, j, reqs);
    var ps, as_ := BuildMakes(s, s, j, reqs);
    Nil(ps);
    Nil(as_);
    BuildSays(s, j, reqs);
    BuildFrame(s, j, reqs);
    Nil(p.s.log);
  }

  ghost predicate Orders(os: seq<Out>, qs: seq<Req>, conns: CT.Table, id: int) {
    |os| == |qs| && forall i :: 0 <= i < |qs| ==> ReserveFor(os[i], qs[i], conns, id)
  }

  ghost predicate ReserveFor(o: Out, q: Req, conns: CT.Table, id: int) {
    CT.Lookup(conns, q.host) == Some(o.to) && o.msg == Reserve(id, q.res, q.amount)
  }

  lemma OrdersCons(o: Out, os: seq<Out>, q: Req, qs: seq<Req>, conns: CT.Table, id: int)
    requires Orders(os, qs, conns, id) && ReserveFor(o, q, conns, id)
    ensures Orders([o] + os, [q] + qs, conns, id)
  {}

  /** What the RESERVEs are, share by share: one for each foreign share whose host has
      an open connection, in order, with its resource and amount. */
  lemma {:induction false} ReservationsAre(s: State, id: int, reqs: seq<Req>)
    requires NoneBad(s, reqs)
    ensures Orders(Reservations(s, id, reqs), Connected(Foreign(reqs, s.ip), s.conns), s.conns, id)
  {
    if reqs != [] {
      var q, rest := reqs[0], reqs[1..];
      assert !Bad(s, q) && forall i :: 0 <= i < |rest| ==> rest[i] == reqs[i+1];
      ReservationsAre(s, id, rest);
      Nil(Reservations(s, id, rest));
      ForeignCons(reqs, s.ip);
      var qs, k := Foreign(rest, s.ip), CT.Lookup(s.conns, q.host);
      if q.host != s.ip { ConnectedCons(q, qs, s.conns); }
      if q.host != s.ip && k.Some? {
        OrdersCons(Out(k.value, Reserve(id, q.res, q.amount)), Reservations(s, id, rest),
                     q, Connected(qs, s.conns), s.conns, id);
      }
    }
  }

  lemma ConnectedCons(q: Req, qs: seq<Req>, conns: CT.Table)
    ensures Connected([q] + qs, conns)
            == if CT.Lookup(conns, q.host).Some? then [q] + Connected(qs, conns) else Connected(qs, conns)
  {
    Parts([q], qs);
    Nil(Connected(qs, conns));
  }

  ghost function Connected(qs: seq<Req>, conns: CT.Table): (cs: seq<Req>)
    ensures forall i :: 0 <= i < |cs| ==> CT.Lookup(conns, cs[i].host).Some?
  {
    if qs == [] then []
    else (if CT.Lookup(conns, qs[0].host).Some? then [qs[0]] else []) + Connected(qs[1..], conns)
  }

  // ---------------------------------------------------------------- GRANTED

  ghost function Locals(as_: seq<Alloc>): seq<Alloc> {
    if as_ == [] then [] else (if as_[0].kind == Local then [as_[0]] else []) + Locals(as_[1..])
  }

  /** The share that a GRANTED of a host answers is its first pending request there. */
  ghost predicate FirstOf(ps: seq<OutReq>, host: string, i: nat) {
    i < |ps| && ps[i].host == host && forall n :: 0 <= n < i ==> ps[n].host != host
  }

  /** It moves to the confirmed shares with its host, resource, amount and connection;
      the other requests, the remote shares before it and the local shares stay. */
  lemma GrantedMoves(s: State, k: Conn, id: int, host: string, i: nat)
    requires CT.HostOf(s.conns, k) == Some(host) && id in s.jobs && FirstOf(s.jobs[id].pending, host, i)
    ensures var j, t := s.jobs[id], OnGranted(s, k, id); var o := j.pending[i];
            && id in t.jobs && t.jobs == s.jobs[id := t.jobs[id]]
            && t.jobs[id].id == j.id && t.jobs[id].conn == j.conn
            && t.jobs[id].pending == j.pending[..i] + j.pending[i+1..]
            && Remotes(t.jobs[id].confirmed)
               == [Alloc(o.res, o.amount, Remote, o.host, j.id, RmGranted, o.conn)] + Remotes(j.confirmed)
            && Locals(t.jobs[id].confirmed) == Locals(j.confirmed)
  {
    var j := s.jobs[id];
    var o := j.pending[i];
    Parts([Alloc(o.res, o.amount, Remote, o.host, j.id, RmGranted, o.conn)], j.confirmed);
    assert FindHost(j.pending, host) == i;
  }

  lemma {:induction false} NoneThere(ps: seq<OutReq>, host: string)
    requires forall o :: o in ps ==> o.host != host
    ensures FindHost(ps, host) == |ps|
  {
    if ps != [] {
      assert ps[0] in ps;
      NoneThere(ps[1..], host);
    }
  }

  /** A GRANTED that answers no request changes no job. */
  lemma GrantedIdle(s: State, k: Conn, id: int)
    requires var h := CT.HostOf(s.conns, k);
             h == None || id !in s.jobs || forall o :: o in s.jobs[id].pending ==> o.host != h.value
    ensures OnGranted(s, k, id).jobs == s.jobs
  {
    var h := CT.HostOf(s.conns, k);
    if h.Some? && id in s.jobs { NoneThere(s.jobs[id].pending, h.value); }
  }

  // ---------------------------------------------------------------- the bill of a job

  datatype Share = Share(host: string, res: Res, amount: int)

  ghost function OfAsks(ps: seq<OutReq>): multiset<Share> {
    if ps == [] then multiset{} else multiset{Share(ps[0].host, ps[0].res, ps[0].amount)} + OfAsks(ps[1..])
  }

  ghost function OfAllocs(as_: seq<Alloc>): multiset<Share> {
    if as_ == [] then multiset{} else multiset{Share(as_[0].host, as_[0].res, as_[0].amount)} + OfAllocs(as_[1..])
  }

  /** Everything that a job has asked for and has not lost: pending, waiting here,
      granted here or granted by a peer. */
  ghost function Bill(j: Job): multiset<Share> { OfAsks(j.pending) + OfAllocs(j.confirmed) }

  ghost function Named(q: Req, ip: string): Share {
    Share(if q.host == ip then ip else Clip(q.host, 14), q.res, q.amount)
  }

  ghost function Invoice(reqs: seq<Req>, ip: string): multiset<Share> {
    if reqs == [] then multiset{} else multiset{Named(reqs[0], ip)} + Invoice(reqs[1..], ip)
  }

  lemma {:induction false} OfAsksSplit(a: seq<OutReq>, b: seq<OutReq>)
    ensures OfAsks(a + b) == OfAsks(a) + OfAsks(b)
  {
    if a == [] {
      Nil(b);
    } else {
      CutLeft(a, b, 1);
      OfAsksSplit(a[1..], b);
    }
  }

  lemma {:induction false} OfAllocsSplit(a: seq<Alloc>, b: seq<Alloc>)
    ensures OfAllocs(a + b) == OfAllocs(a) + OfAllocs(b)
  {
    if a == [] {
      Nil(b);
    } else {
      CutLeft(a, b, 1);
      OfAllocsSplit(a[1..], b);
    }
  }

  lemma {:induction false} AsksBill(ps: seq<OutReq>, qs: seq<Req>, conns: CT.Table, id: int, ip: string)
    requires AsksAll(ps, qs, conns, id) && forall q :: q in qs ==> q.host != ip
    ensures OfAsks(ps) == Invoice(qs, ip)
    decreases |qs|
  {
    if qs != [] {
      var f, o, rest := ps[..|ps|-1], ps[|ps|-1], qs[1..];
      assert AsksFor(ps[|qs|-1-0], qs[0], conns, id);
      forall i | 0 <= i < |rest| ensures AsksFor(f[|rest|-1-i], rest[i], conns, id) {
        assert AsksFor(ps[|qs|-1-(i+1)], qs[i+1], conns, id);
      }
      AsksBill(f, rest, conns, id, ip);
      Snoc(ps);
      OfAsksSplit(f, [o]);
      assert qs[0] in qs && [o][1..] == [];
    }
  }

  lemma {:induction false} KeepsBill(as_: seq<Alloc>, qs: seq<Req>, s: State, id: int, k: Conn)
    requires KeepsAll(as_, qs, s, id, k) && forall q :: q in qs ==> q.host == s.ip
    ensures OfAllocs(as_) == Invoice(qs, s.ip)
    decreases |qs|
  {
    if qs != [] {
      var f, a, rest := as_[..|as_|-1], as_[|as_|-1], qs[1..];
      assert KeptFor(as_[|qs|-1-0], qs[0], s, id, k);
      forall i | 0 <= i < |rest| ensures KeptFor(f[|rest|-1-i], rest[i], s, id, k) {
        assert KeptFor(as_[|qs|-1-(i+1)], qs[i+1], s, id, k);
      }
      KeepsBill(f, rest, s, id, k);
      Snoc(as_);
      OfAllocsSplit(f, [a]);
      assert qs[0] in qs && [a][1..] == [];
    }
  }

  lemma RequestedCons(q: Req, qs: seq<Req>, ip: string)
    ensures Invoice([q] + qs, ip) == multiset{Named(q, ip)} + Invoice(qs, ip)
  {
    Parts([q], qs);
  }

  lemma {:induction false} RequestedParts(reqs: seq<Req>, ip: string)
    ensures Invoice(reqs, ip) == Invoice(Foreign(reqs, ip), ip) + Invoice(Here(reqs, ip), ip)
  {
    if reqs != [] {
      RequestedParts(reqs[1..], ip);
      ForeignCons(reqs, ip);
      RequestedCons(reqs[0], Foreign(reqs[1..], ip), ip);
      RequestedCons(reqs[0], Here(reqs[1..], ip), ip);
    }
  }

  /** A request that puts its job into the table was accepted. */
  lemma EntryAccepted(s: State, k: Conn, id: int, reqs: seq<Req>)
    requires (forall x :: QueueOk(s.At(x))) && RequestOk(s.ip, reqs) && id !in s.jobs
    requires id in OnJobRequest(s, k, id, reqs).jobs
    ensures NoneBad(s, reqs)
  {
    var j := Job(id, k, [], []);
    var p := Build(s, j, reqs);
    BuildRefuses(s, j, reqs);
    if p.Refused? {
      RefusedStaysOut(p.s, p.j, id);
      BuildFrame(s, j, reqs);
    }
  }

  /** A job enters the table with the bill of its request. */
  lemma EntryBill(s: State, k: Conn, id: int, reqs: seq<Req>)
    requires (forall x :: QueueOk(s.At(x))) && RequestOk(s.ip, reqs) && id !in s.jobs
    requires id in OnJobRequest(s, k, id, reqs).jobs
    ensures Bill(OnJobRequest(s, k, id, reqs).jobs[id]) == Invoice(reqs, s.ip)
  {
    EntryAccepted(s, k, id, reqs);
    RequestMakes(s, k, id, reqs);
    var t := OnJobRequest(s, k, id, reqs);
    EveryShare(reqs, s.ip);
    AsksBill(t.jobs[id].pending, Foreign(reqs, s.ip), s.conns, id, s.ip);
    KeepsBill(t.jobs[id].confirmed, Here(reqs, s.ip), s, id, k);
    RequestedParts(reqs, s.ip);
  }

  // ---------------------------------------------------------------- what keeps the bill

  ghost predicate SameBill(j: Job, j': Job) {
    j'.pending == j.pending && OfAllocs(j'.confirmed) == OfAllocs(j.confirmed)
        && Remotes(j'.confirmed) == Remotes(j.confirmed)
  }

  /** Jobs may leave, and no other's bill changes. */
  ghost predicate Unbilled(s: State, t: State) {
    forall id :: id in t.jobs ==> id in s.jobs && SameBill(s.jobs[id], t.jobs[id])
  }

  lemma UnbilledTrans(s: State, t: State, u: State)
    requires Unbilled(s, t) && Unbilled(t, u)
    ensures Unbilled(s, u)
  {
    forall id | id in u.jobs ensures id in s.jobs && SameBill(s.jobs[id], u.jobs[id]) {
      assert SameBill(t.jobs[id], u.jobs[id]) && SameBill(s.jobs[id], t.jobs[id]);
    }
  }

  lemma {:induction false} MarkBill(as_: seq<Alloc>, k: Conn, r: Res)
    ensures OfAllocs(Mark(as_, k, r)) == OfAllocs(as_)
  {
    if as_ != [] {
      if as_[0].kind == Local && as_[0].conn == k && as_[0].res == r {
        assert Mark(as_, k, r)[1..] == as_[1..];
      } else {
        MarkBill(as_[1..], k, r);
        assert Mark(as_, k, r)[1..] == Mark(as_[1..], k, r);
      }
    }
  }

  lemma {:induction false} DrainBills(s: State, r: Res)
    ensures Unbilled(s, Drain(s, r))
    decreases |s.At(r).queue|
  {
    if CanPop(s.At(r)) {
      var p, t := s.At(r).queue[0], Pop(s, r);
      assert t.jobs == MarkIn(s.jobs, p.job, p.owner, r);
      if p.job in s.jobs {
        MarkBill(s.jobs[p.job].confirmed, p.owner, r);
        MarkRemotes(s.jobs[p.job].confirmed, p.owner, r);
      }
      assert Unbilled(s, t);
      DrainBills(t, r);
      UnbilledTrans(s, t, Drain(t, r));
    }
  }

  lemma ReleaseBills(s: State, r: Res, amount: int)
    ensures Unbilled(s, ReleaseRes(s, r, amount))
  {
    if Accepts(s.At(r), amount) { DrainBills(Give(s, r, amount), r); }
  }

  lemma {:induction false} FreeBills(s: State, id: int, as_: seq<Alloc>)
    ensures Unbilled(s, FreeAll(s, id, as_))
    decreases |as_|
  {
    if as_ != [] {
      var t := FreeAlloc(s, id, as_[0]);
      if IsLocalGrant(as_[0]) { ReleaseBills(s, as_[0].res, as_[0].amount); }
      assert Unbilled(s, t);
      FreeBills(t, id, as_[1..]);
      UnbilledTrans(s, t, FreeAll(s, id, as_));
    }
  }

  lemma {:induction false} ReturnBills(s: State, as_: seq<Alloc>)
    ensures Unbilled(s, ReturnAll(s, as_))
    decreases |as_|
  {
    if as_ != [] {
      var t := ReturnAlloc(s, as_[0]);
      if IsLocalGrant(as_[0]) { ReleaseBills(s, as_[0].res, as_[0].amount); }
      assert Unbilled(s, t);
      ReturnBills(t, as_[1..]);
      UnbilledTrans(s, t, ReturnAll(s, as_));
    }
  }

  lemma {:induction false} AbandonBills(s: State, vs: seq<Job>)
    ensures Unbilled(s, Abandon(s, vs))
    decreases |vs|
  {
    if vs != [] {
      var t := FreeAll(PurgeJob(s, vs[0].id), vs[0].id, vs[0].confirmed);
      FreeBills(PurgeJob(s, vs[0].id), vs[0].id, vs[0].confirmed);
      assert Unbilled(s, t);
      AbandonBills(t, vs[1..]);
      UnbilledTrans(s, t, Abandon(s, vs));
    }
  }

  lemma RemoveBills(s: State, id: int)
    ensures Unbilled(s, RemoveJob(s, id))
  {
    if id in s.jobs { FreeBills(s.(jobs := s.jobs - {id}), id, s.jobs[id].confirmed); }
  }

  lemma EndBills(s: State, e: Event)
    requires e.EvRelease? || e.EvDenied? || e.EvJobRelease? || e.EvJobTimeout?
    ensures Unbilled(s, Step(s, e))
  {
    if e.EvRelease? {
      var m := TakenBack(s, e.res, e.amount);
      ReleaseBills(Repaid(s, e.res, e.amount), e.res, e.amount);
      assert Unbilled(s, m);
      RemoveBills(m, e.job);
      UnbilledTrans(s, m, Step(s, e));
    } else if e.EvJobRelease? {
      if e.job in s.jobs { ReturnBills(s.(jobs := s.jobs - {e.job}), s.jobs[e.job].confirmed); }
    } else {
      RemoveBills(s, e.job);
    }
  }

  lemma OthersRequestBills(s: State, k: Conn, id: int, reqs: seq<Req>, x: int)
    requires x in s.jobs && (x == id ==> id in s.jobs) && x in OnJobRequest(s, k, id, reqs).jobs
    ensures SameBill(s.jobs[x], OnJobRequest(s, k, id, reqs).jobs[x])
  {
    if id !in s.jobs {
      var j := Job(id, k, [], []);
      var p := Build(s, j, reqs);
      BuildFrame(s, j, reqs);
      if p.Refused? { FreeBills(PurgeJob(p.s, id), id, p.j.confirmed); }
    }
  }

  // ---------------------------------------------------------------- one event

  /** The remote shares that a lost connection had granted to a job. */
  ghost function GrantedOver(as_: seq<Alloc>, k: Conn): seq<Alloc> {
    if as_ == [] then []
    else (if as_[0].kind == Remote && as_[0].conn == k then [as_[0]] else []) + GrantedOver(as_[1..], k)
  }

  /** What a job that stays loses in an event. */
  ghost function LostIn(s: State, e: Event, id: int): multiset<Share>
    requires id in s.jobs
  {
    if e.EvDisconnect? || e.EvConnFailed? then OfAllocs(GrantedOver(s.jobs[id].confirmed, e.k)) else multiset{}
  }

  lemma OfAllocsCons(a: Alloc, rest: seq<Alloc>)
    ensures OfAllocs([a] + rest) == multiset{Share(a.host, a.res, a.amount)} + OfAllocs(rest)
  {
    Parts([a], rest);
  }

  /** Some shares taken apart: what one list gains the other keeps. */
  lemma DealBill(a: Alloc, left: seq<Alloc>, taken: seq<Alloc>, all: multiset<Share>)
    requires OfAllocs(left) + OfAllocs(taken) == all
    ensures OfAllocs([a] + left) + OfAllocs(taken) == multiset{Share(a.host, a.res, a.amount)} + all
    ensures OfAllocs(left) + OfAllocs([a] + taken) == multiset{Share(a.host, a.res, a.amount)} + all
  {
    OfAllocsCons(a, left);
    OfAllocsCons(a, taken);
  }

  lemma {:induction false} StripBill(as_: seq<Alloc>, k: Conn)
    ensures OfAllocs(StripAllocs(as_, k)) + OfAllocs(GrantedOver(as_, k)) == OfAllocs(as_)
  {
    if as_ != [] {
      StripBill(as_[1..], k);
      Nil(GrantedOver(as_[1..], k));
      DealBill(as_[0], StripAllocs(as_[1..], k), GrantedOver(as_[1..], k), OfAllocs(as_[1..]));
    }
  }

  lemma LossBill(s: State, e: Event, id: int)
    requires Feasible(s, e) && (e.EvDisconnect? || e.EvConnFailed?) && id in Step(s, e).jobs
    ensures id in s.jobs && Bill(Step(s, e).jobs[id]) + LostIn(s, e, id) == Bill(s.jobs[id])
  {
    var p := if e.EvDisconnect? then PurgeConn(s, e.k) else s;
    var o := p.(jobs := Kept(s.jobs, e.k));
    AbandonBills(o, Pick(s.jobs, e.order, e.k));
    StripBill(s.jobs[id].confirmed, e.k);
    assert SameBill(o.jobs[id], Step(s, e).jobs[id]);
  }

  // ---------------------------------------------------------------- which jobs a lost connection ends

  /** Shares that a connection granted, all of them. */
  ghost predicate AllOver(as_: seq<Alloc>, k: Conn) {
    forall i :: 0 <= i < |as_| ==> as_[i].kind == Remote && as_[i].conn == k
  }

  /** The jobs that a lost connection ends: those of the planner behind it, those with
      a request out on it, and those to which it had granted all there is. */
  ghost predicate Ends(j: Job, k: Conn) {
    || j.conn == k
    || (exists i :: 0 <= i < |j.pending| && j.pending[i].conn == k)
    || (j.pending == [] && AllOver(j.confirmed, k))
  }

  ghost predicate Idle(j: Job) { j.pending == [] && j.confirmed == [] }

  lemma {:induction false} StripsAway(as_: seq<Alloc>, k: Conn)
    ensures StripAllocs(as_, k) == [] <==> AllOver(as_, k)
  {
    if as_ != [] {
      StripsAway(as_[1..], k);
      assert forall i :: 0 < i < |as_| ==> as_[i] == as_[1..][i-1];
    }
  }

  lemma EndsIff(j: Job, k: Conn)
    ensures Affected(j, k) <==> Ends(j, k)
  {
    StripsAway(j.confirmed, k);
    if o :| o in j.pending && o.conn == k {
      var i :| 0 <= i < |j.pending| && j.pending[i] == o;
    }
  }

  lemma BilledShares(a: seq<Alloc>, b: seq<Alloc>)
    requires OfAllocs(a) == OfAllocs(b) && a != []
    ensures b != []
  {
    assert Share(a[0].host, a[0].res, a[0].amount) in OfAllocs(a);
  }

  /** A lost connection ends exactly those jobs. Every other one stays with its owner,
      its requests and the shares that other connections granted, and is not idle. */
  lemma LeavesIff(s: State, e: Event, id: int)
    requires Inv(s) && Feasible(s, e) && (e.EvDisconnect? || e.EvConnFailed?) && id in s.jobs
    ensures id !in Step(s, e).jobs <==> Ends(s.jobs[id], e.k)
    ensures id in Step(s, e).jobs ==>
              var j, j' := s.jobs[id], Step(s, e).jobs[id];
              && j'.conn == j.conn && j'.pending == j.pending
              && Remotes(j'.confirmed) == OffConn(Remotes(j.confirmed), e.k) && !Idle(j')
  {
    var p := if e.EvDisconnect? then PurgeConn(s, e.k) else s;
    var o := p.(jobs := Kept(s.jobs, e.k));
    var t := Step(s, e);
    if e.EvDisconnect? { DisconnectKeeps(s, e.k, e.order); } else { ConnFailedKeeps(s, e.k, e.order); }
    EndsIff(s.jobs[id], e.k);
    if id in t.jobs {
      AbandonBills(o, Pick(s.jobs, e.order, e.k));
      assert SameBill(o.jobs[id], t.jobs[id]) && SameJob(s, t.(conns := s.conns), id);
      StrippedRemotes(s.jobs[id].confirmed, e.k);
      if o.jobs[id].confirmed != [] { BilledShares(o.jobs[id].confirmed, t.jobs[id].confirmed); }
    }
  }

  lemma {:induction false} OfAsksWithout(ps: seq<OutReq>, i: nat)
    requires i < |ps|
    ensures OfAsks(ps) == OfAsks(ps[..i] + ps[i+1..]) + multiset{Share(ps[i].host, ps[i].res, ps[i].amount)}
  {
    Halves(ps, i);
    assert ps[i..] == [ps[i]] + ps[i+1..];
    OfAsksSplit(ps[..i], ps[i..]);
    OfAsksSplit([ps[i]], ps[i+1..]);
    OfAsksSplit(ps[..i], ps[i+1..]);
    assert [ps[i]][1..] == [];
  }

  lemma ConfirmedBill(j: Job, i: nat)
    requires i < |j.pending|
    ensures Bill(Confirm(j, i)) == Bill(j)
  {
    var o := j.pending[i];
    var a := Alloc(o.res, o.amount, Remote, o.host, j.id, RmGranted, o.conn);
    OfAsksWithout(j.pending, i);
    OfAllocsSplit([a], j.confirmed);
    assert [a][1..] == [];
  }

  lemma ConfirmedJobs(s: State, id: int, i: nat)
    requires id in s.jobs && i < |s.jobs[id].pending|
    ensures ConfirmAt(s, id, i).jobs == s.jobs[id := Confirm(s.jobs[id], i)]
  {}

  lemma ConfirmBill(s: State, t: State, id: int, x: int)
    requires GrantShape(s, t, id) && x in s.jobs
    ensures x in t.jobs && Bill(t.jobs[x]) == Bill(s.jobs[x])
  {
    if ConfirmsOne(s, t, id) {
      var i: nat :| i < |s.jobs[id].pending| && t == ConfirmAt(s, id, i);
      var c := Confirm(s.jobs[id], i);
      assert Bill(c) == Bill(s.jobs[id]) by { ConfirmedBill(s.jobs[id], i); }
      assert t.jobs == s.jobs[id := c] by { ConfirmedJobs(s, id, i); }
    }
  }

  /** Whatever happens, a job that stays in the table keeps its bill, but for what a
      lost connection had granted. */
  lemma StepBill(s: State, e: Event, id: int)
    requires Inv(s) && Wired(s) && Feasible(s, e) && Lawful(s, e) && id in s.jobs && id in Step(s, e).jobs
    ensures Bill(Step(s, e).jobs[id]) + LostIn(s, e, id) == Bill(s.jobs[id])
  {
    match e
    case EvReserve(k, x, r, amount) => ReserveCases(s, k, x, r, amount);
    case EvGranted(k, x) => GrantedCases(s, k, x); ConfirmBill(s, Step(s, e), x, id);
    case EvJobRequest(k, x, reqs) => OthersRequestBills(s, k, x, reqs, id);
    case EvDisconnect(_, _) => LossBill(s, e, id);
    case EvConnFailed(_, _) => LossBill(s, e, id);
    case EvConnReady(k, order) => OpenOne(s, k, order);
    case _ => EndBills(s, e);
  }

  // ---------------------------------------------------------------- runs

  /** The request with which a job of the table entered it last. */
  ghost function RequestOf(s: State, es: seq<Event>, id: int): seq<Req>
    requires LawfulRun(s, es) && id in After(s, es).jobs
  {
    if es == [] then []
    else
      var p, e := es[..|es|-1], es[|es|-1];
      if id in After(s, p).jobs then RequestOf(s, p, id) else if e.EvJobRequest? then e.reqs else []
  }

  /** What lost connections had granted to the job since it entered. */
  ghost function LostSince(s: State, es: seq<Event>, id: int): multiset<Share>
    requires LawfulRun(s, es) && id in After(s, es).jobs
  {
    if es == [] then multiset{}
    else
      var p := es[..|es|-1];
      if id in After(s, p).jobs then LostSince(s, p, id) + LostIn(After(s, p), es[|es|-1], id) else multiset{}
  }

  lemma SameIp(s: State, e: Event)
    requires Inv(s) && Wired(s) && Feasible(s, e) && Lawful(s, e)
    ensures Step(s, e).ip == s.ip
  {
    match e
    case EvReserve(k, x, r, amount) => ReserveCases(s, k, x, r, amount);
    case EvGranted(k, x) => GrantedCases(s, k, x);
    case EvRelease(_, x, r, amount) => PeerReleaseKeeps(s, x, r, amount);
    case EvDenied(_, x) => DeniedKeeps(s, x);
    case EvJobRequest(k, x, reqs) => JobRequestKeeps(s, k, x, reqs);
    case EvJobRelease(_, x) => JobReleaseKeeps(s, x);
    case EvJobTimeout(_, x) => RemoveKeeps(s, x);
    case EvDisconnect(k, order) => DisconnectKeeps(s, k, order);
    case EvConnFailed(k, order) => ConnFailedKeeps(s, k, order);
    case EvConnReady(k, order) => OpenOne(s, k, order);
  }

  /** In every reachable state, whatever is pending, queued, granted here and granted by
      peers to a job of the table is together exactly what its request asked for - host,
      resource and amount of every share - less what lost connections had granted. */
  lemma {:induction false} SharesKept(ip: string, cpu: nat, mem: nat, gpu: nat, es: seq<Event>, id: int)
    requires LawfulRun(Boot(ip, cpu, mem, gpu), es) && id in After(Boot(ip, cpu, mem, gpu), es).jobs
    ensures var s := Boot(ip, cpu, mem, gpu);
            && After(s, es).ip == ip
            && Bill(After(s, es).jobs[id]) + LostSince(s, es, id) == Invoice(RequestOf(s, es, id), ip)
    decreases |es|
  {
    var s := Boot(ip, cpu, mem, gpu);
    if es != [] {
      var p, e := es[..|es|-1], es[|es|-1];
      var m := After(s, p);
      Conservation(ip, cpu, mem, gpu, p);
      SameHost(ip, cpu, mem, gpu, p);
      SameIp(m, e);
      if id in m.jobs {
        SharesKept(ip, cpu, mem, gpu, p, id);
        StepBill(m, e, id);
      } else {
        OnlyRequestsEnter(m, e, id);
        assert forall x :: QueueOk(m.At(x));
        EntryBill(m, e.k, id, e.reqs);
      }
    }
  }

  lemma {:induction false} SameHost(ip: string, cpu: nat, mem: nat, gpu: nat, es: seq<Event>)
    requires LawfulRun(Boot(ip, cpu, mem, gpu), es)
    ensures After(Boot(ip, cpu, mem, gpu), es).ip == ip
    decreases |es|
  {
    if es != [] {
      var p := es[..|es|-1];
      SameHost(ip, cpu, mem, gpu, p);
      Conservation(ip, cpu, mem, gpu, p);
      SameIp(After(Boot(ip, cpu, mem, gpu), p), es[|es|-1]);
    }
  }

  lemma BillIdle(j: Job)
    ensures Idle(j) <==> Bill(j) == multiset{}
  {
    if j.pending != [] {
      assert Share(j.pending[0].host, j.pending[0].res, j.pending[0].amount) in Bill(j);
    } else if j.confirmed != [] {
      assert Share(j.confirmed[0].host, j.confirmed[0].res, j.confirmed[0].amount) in Bill(j);
    }
  }

  /** In every reachable state a job with neither a share nor a request asked for none. */
  lemma {:induction false} IdleAsksNothing(ip: string, cpu: nat, mem: nat, gpu: nat, es: seq<Event>, id: int)
    requires LawfulRun(Boot(ip, cpu, mem, gpu), es) && id in After(Boot(ip, cpu, mem, gpu), es).jobs
    requires Idle(After(Boot(ip, cpu, mem, gpu), es).jobs[id])
    ensures RequestOf(Boot(ip, cpu, mem, gpu), es, id) == []
    decreases |es|
  {
    var s := Boot(ip, cpu, mem, gpu);
    var p, e := es[..|es|-1], es[|es|-1];
    var m, t := After(s, p), After(s, es);
    Conservation(ip, cpu, mem, gpu, p);
    BillIdle(t.jobs[id]);
    if id !in m.jobs {
      SharesKept(ip, cpu, mem, gpu, es, id);
    } else if e.EvDisconnect? || e.EvConnFailed? {
      LeavesIff(m, e, id);
    } else {
      StepBill(m, e, id);
      BillIdle(m.jobs[id]);
      IdleAsksNothing(ip, cpu, mem, gpu, p, id);
    }
  }
}
