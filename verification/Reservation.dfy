/** Two agents: what the client of a reservation may conclude from its own
    bookkeeping about what the server did, GRANTED carrying no resource. */
module Reservation {
  import opened Types
  import opened Seqs
  import opened Allocator
  import opened Ledger
  import opened Handlers
  import opened Requests
  import opened Disconnects
  import opened Wiring
  import opened Runs
  import CT = ConnTable

  // ---------------------------------------------------------------- RESERVEs issued

  /** Shares to be counted: all of them, or those of one resource and amount. */
  datatype What = Any | Only(res: Res, amount: int) {
    ghost predicate Takes(r: Res, a: int) { this == Any || this == Only(r, a) }
  }

  ghost predicate IsIssue(o: Out, k: Conn, id: int, w: What) {
    o.to == k && o.msg.Reserve? && o.msg.job == id && w.Takes(o.msg.res, o.msg.amount)
  }

  /** The RESERVEs of a job handed to a connection. */
  ghost function Issued(log: seq<Out>, k: Conn, id: int, w: What): nat {
    if log == [] then 0 else Issued(log[..|log|-1], k, id, w) + if IsIssue(log[|log|-1], k, id, w) then 1 else 0
  }

  lemma IssuedSend(log: seq<Out>, o: Out, k: Conn, id: int, w: What)
    ensures Issued(log + [o], k, id, w) == Issued(log, k, id, w) + if IsIssue(o, k, id, w) then 1 else 0
  {
    Parts(log, [o]);
  }

  lemma {:induction false} IssuedRemove(log: seq<Out>, i: nat, k: Conn, id: int, w: What)
    requires i < |log|
    ensures Issued(log[..i] + log[i+1..], k, id, w)
            == Issued(log, k, id, w) - if IsIssue(log[i], k, id, w) then 1 else 0
    decreases |log|
  {
    var f := log[..|log|-1];
    if i == |log| - 1 {
      assert log[..i] + log[i+1..] == f;
    } else {
      IssuedRemove(f, i, k, id, w);
      assert log[..i] + log[i+1..] == (f[..i] + f[i+1..]) + [log[|log|-1]];
      IssuedSend(f[..i] + f[i+1..], log[|log|-1], k, id, w);
    }
  }

  ghost predicate SameReserves(a: seq<Out>, b: seq<Out>) {
    forall o: Out :: o.msg.Reserve? ==> multiset(a)[o] == multiset(b)[o]
  }

  lemma DropLast(a: seq<Out>)
    requires a != []
    ensures multiset(a) == multiset(a[..|a|-1]) + multiset{a[|a|-1]}
  {
    Snoc(a);
  }

  lemma DropAt(b: seq<Out>, i: nat)
    requires i < |b|
    ensures multiset(b) == multiset(b[..i] + b[i+1..]) + multiset{b[i]}
  {
    assert b == b[..i] + [b[i]] + b[i+1..];
  }

  lemma {:induction false} IssuedNone(b: seq<Out>, k: Conn, id: int, w: What)
    requires forall o: Out :: o.msg.Reserve? ==> multiset(b)[o] == 0
    ensures Issued(b, k, id, w) == 0
  {
    if b != [] {
      DropLast(b);
      assert multiset(b)[b[|b|-1]] > 0;
      IssuedNone(b[..|b|-1], k, id, w);
    }
  }

  /** Logs with the same RESERVEs issue the same to every connection. */
  lemma {:induction false} IssuedSame(a: seq<Out>, b: seq<Out>, k: Conn, id: int, w: What)
    requires SameReserves(a, b)
    ensures Issued(a, k, id, w) == Issued(b, k, id, w)
    decreases |a|
  {
    if a == [] {
      IssuedNone(b, k, id, w);
    } else {
      var f, x := a[..|a|-1], a[|a|-1];
      DropLast(a);
      if x.msg.Reserve? {
        assert multiset(b)[x] > 0 && x in multiset(b);
        var i :| 0 <= i < |b| && b[i] == x;
        DropAt(b, i);
        IssuedSame(f, b[..i] + b[i+1..], k, id, w);
        IssuedRemove(b, i, k, id, w);
      } else {
        IssuedSame(f, b, k, id, w);
      }
    }
  }

  // ---------------------------------------------------------------- routes

  /** A table in which exactly the connections of L are registered under host h. */
  ghost predicate TableRouted(t: CT.Table, L: set<Conn>, h: string) {
    forall i, n :: 0 <= i < CT.BUCKETS && 0 <= n < |t[i]| ==> EntryRouted(t[i][n], L, h)
  }

  ghost predicate EntryRouted(e: CT.Entry, L: set<Conn>, h: string) {
    |e.host| <= 14 && (e.conn in L <==> e.host == h)
  }

  ghost predicate AskRouted(o: OutReq, L: set<Conn>, h: string) {
    |o.host| <= 14 && (o.conn in L <==> o.host == h)
  }

  ghost predicate ListRouted(ps: seq<OutReq>, L: set<Conn>, h: string) {
    forall i :: 0 <= i < |ps| ==> AskRouted(ps[i], L, h)
  }

  /** The connections of L are the client's connections to host h, and no others are. */
  ghost predicate Routed(s: State, L: set<Conn>, h: string) {
    TableRouted(s.conns, L, h) && forall id :: id in s.jobs ==> ListRouted(s.jobs[id].pending, L, h)
  }

  /** Dialling h, and only dialling h, yields a connection of L. */
  ghost predicate DialsTo(reqs: seq<Req>, L: set<Conn>, h: string) {
    forall i :: 0 <= i < |reqs| && reqs[i].dial.Some? ==> (reqs[i].dial.value in L <==> Clip(reqs[i].host, 14) == h)
  }

  lemma {:induction false} FirstHostEntry(b: seq<CT.Entry>, host: string)
    requires CT.FirstByHost(b, host).Some?
    ensures exists n :: 0 <= n < |b| && b[n] == CT.Entry(host, CT.FirstByHost(b, host).value)
  {
    if b[0].host != host {
      FirstHostEntry(b[1..], host);
      var n :| 0 <= n < |b[1..]| && b[1..][n] == CT.Entry(host, CT.FirstByHost(b, host).value);
      assert b[n+1] == b[1..][n];
    } else {
      assert b[0] == CT.Entry(host, b[0].conn);
    }
  }

  lemma LookupRouted(t: CT.Table, host: string, L: set<Conn>, h: string)
    requires TableRouted(t, L, h) && CT.Lookup(t, host).Some?
    ensures |host| <= 14 && (CT.Lookup(t, host).value in L <==> host == h)
  {
    var i := CT.Bucket(host);
    FirstHostEntry(t[i], host);
    var n :| 0 <= n < |t[i]| && t[i][n] == CT.Entry(host, CT.Lookup(t, host).value);
    assert EntryRouted(t[i][n], L, h);
  }

  lemma {:induction false} FirstConnEntry(b: seq<CT.Entry>, k: Conn)
    requires CT.FirstByConn(b, k).Some?
    ensures exists n :: 0 <= n < |b| && b[n] == CT.Entry(CT.FirstByConn(b, k).value, k)
  {
    if b[0].conn != k {
      FirstConnEntry(b[1..], k);
      var n :| 0 <= n < |b[1..]| && b[1..][n] == CT.Entry(CT.FirstByConn(b, k).value, k);
      assert b[n+1] == b[1..][n];
    } else {
      assert b[0] == CT.Entry(b[0].host, k);
    }
  }

  lemma {:induction false} HostEntry(t: seq<seq<CT.Entry>>, k: Conn)
    requires CT.HostFrom(t, k).Some?
    ensures exists i, n :: 0 <= i < |t| && 0 <= n < |t[i]| && t[i][n] == CT.Entry(CT.HostFrom(t, k).value, k)
  {
    if CT.FirstByConn(t[0], k).Some? {
      FirstConnEntry(t[0], k);
      var n :| 0 <= n < |t[0]| && t[0][n] == CT.Entry(CT.HostFrom(t, k).value, k);
    } else {
      HostEntry(t[1..], k);
      var i, n :| 0 <= i < |t[1..]| && 0 <= n < |t[1..][i]| && t[1..][i][n] == CT.Entry(CT.HostFrom(t, k).value, k);
      assert t[i+1] == t[1..][i];
    }
  }

  lemma HostRouted(t: CT.Table, k: Conn, L: set<Conn>, h: string)
    requires TableRouted(t, L, h) && CT.HostOf(t, k).Some?
    ensures k in L <==> CT.HostOf(t, k).value == h
  {
    HostEntry(t, k);
    var i, n :| 0 <= i < |t| && 0 <= n < |t[i]| && t[i][n] == CT.Entry(CT.HostFrom(t, k).value, k);
    assert EntryRouted(t[i][n], L, h);
  }

  lemma {:induction false} BuildRouted(s: State, j: Job, reqs: seq<Req>, L: set<Conn>, h: string)
    requires TableRouted(s.conns, L, h) && ListRouted(j.pending, L, h) && DialsTo(reqs, L, h)
    ensures ListRouted(Build(s, j, reqs).j.pending, L, h)
    decreases |reqs|
  {
    if reqs != [] {
      var q, rest := reqs[0], reqs[1..];
      assert DialsTo(rest, L, h) by { assert forall i :: 0 <= i < |rest| ==> rest[i] == reqs[i+1]; }
      if q.host == s.ip {
        var (t, o) := ReserveRes(s, q.res, q.amount, j.id, j.conn, Local);
        if o != RmDenied {
          BuildRouted(t, j.(confirmed := [Alloc(q.res, q.amount, Local, s.ip, j.id, o, j.conn)] + j.confirmed), rest,
              L, h);
        }
      } else {
        match CT.Lookup(s.conns, q.host)
        case Some(k) =>
          LookupRouted(s.conns, q.host, L, h);
          BuildRouted(s.Send(k, Reserve(j.id, q.res, q.amount)), Ask(j, q, k, None), rest, L, h);
        case None =>
          if q.dial.Some? { BuildRouted(s, Ask(j, q, q.dial.value, Some(Reserve(j.id, q.res, q.amount))), rest, L, h); }
      }
    }
  }

  // ---------------------------------------------------------------- the request loop

  /** How many requests of a list use a connection and ask for such a share. */
  ghost function CountAs(ps: seq<OutReq>, k: Conn, w: What): nat {
    if ps == [] then 0
    else (if ps[0].conn == k && w.Takes(ps[0].res, ps[0].amount) then 1 else 0) + CountAs(ps[1..], k, w)
  }

  lemma {:induction false} CountAsAny(ps: seq<OutReq>, k: Conn, w: What)
    ensures CountAs(ps, k, Any) == CountOn(ps, k) && CountAs(ps, k, w) <= CountOn(ps, k)
  {
    if ps != [] { CountAsAny(ps[1..], k, w); }
  }

  /** The only request that uses a connection is what is counted there. */
  lemma {:induction false} CountAsOnly(ps: seq<OutReq>, k: Conn, o: OutReq, w: What)
    requires o in ps && o.conn == k && CountOn(ps, k) <= 1
    ensures CountAs(ps, k, w) == if w.Takes(o.res, o.amount) then 1 else 0
  {
    CountAsAny(ps[1..], k, w);
    if ps[0] != o {
      CountMember(ps[1..], k);
      CountAsOnly(ps[1..], k, o, w);
    }
  }

  lemma {:induction false} CountAsWithout(ps: seq<OutReq>, i: nat, k: Conn, w: What)
    requires i < |ps|
    ensures CountAs(ps[..i] + ps[i+1..], k, w)
         == CountAs(ps, k, w) - if ps[i].conn == k && w.Takes(ps[i].res, ps[i].amount) then 1 else 0
  {
    if i == 0 {
      assert ps[..0] + ps[1..] == ps[1..];
    } else {
      CountAsWithout(ps[1..], i - 1, k, w);
      assert ps[..i] + ps[i+1..] == [ps[0]] + (ps[1..][..i-1] + ps[1..][i..]);
    }
  }

  lemma AskCounts(j: Job, q: Req, k: Conn, held: Option<Msg>, c: Conn, w: What)
    ensures CountAs(Ask(j, q, k, held).pending, c, w)
         == CountAs(j.pending, c, w) + if c == k && w.Takes(q.res, q.amount) then 1 else 0
  {
    var o := OutReq(Clip(q.host, 14), k, q.res, q.amount, held);
    Parts([o], j.pending);
  }

  ghost predicate NewDials(conns: CT.Table, reqs: seq<Req>) {
    forall i :: 0 <= i < |reqs| && reqs[i].dial.Some? ==> !CT.Mentions(conns, reqs[i].dial.value)
  }

  /** The loop issues RESERVEs of its own job and on registered connections only. */
  lemma {:induction false} BuildSilent(s: State, j: Job, reqs: seq<Req>, k: Conn, id: int, w: What)
    requires id != j.id || !CT.Mentions(s.conns, k)
    ensures Issued(Build(s, j, reqs).s.log, k, id, w) == Issued(s.log, k, id, w)
    decreases |reqs|
  {
    if reqs != [] {
      var q, rest := reqs[0], reqs[1..];
      if q.host == s.ip {
        var (t, o) := ReserveRes(s, q.res, q.amount, j.id, j.conn, Local);
        if o != RmDenied {
          var a := Alloc(q.res, q.amount, Local, s.ip, j.id, o, j.conn);
          BuildSilent(t, j.(confirmed := [a] + j.confirmed), rest, k, id, w);
        }
      } else {
        match CT.Lookup(s.conns, q.host)
        case Some(c) =>
          LookupMentioned(s.conns, q.host);
          var m := Reserve(j.id, q.res, q.amount);
          IssuedSend(s.log, Out(c, m), k, id, w);
          BuildSilent(s.Send(c, m), Ask(j, q, c, None), rest, k, id, w);
        case None =>
          if q.dial.Some? {
            BuildSilent(s, Ask(j, q, q.dial.value, Some(Reserve(j.id, q.res, q.amount))), rest, k, id, w);
          }
      }
    }
  }

  /** It issues exactly one for each share it asks of a registered connection. */
  lemma {:induction false} BuildIssues(s: State, j: Job, reqs: seq<Req>, k: Conn, w: What)
    requires CT.Mentions(s.conns, k) && NewDials(s.conns, reqs)
    ensures var p := Build(s, j, reqs);
            Issued(p.s.log, k, j.id, w) - Issued(s.log, k, j.id, w)
            == CountAs(p.j.pending, k, w) - CountAs(j.pending, k, w)
    decreases |reqs|
  {
    if reqs != [] {
      var q, rest := reqs[0], reqs[1..];
      assert forall i :: 0 <= i < |rest| ==> rest[i] == reqs[i+1];
      if q.host == s.ip {
        var (t, o) := ReserveRes(s, q.res, q.amount, j.id, j.conn, Local);
        if o != RmDenied {
          var a := Alloc(q.res, q.amount, Local, s.ip, j.id, o, j.conn);
          BuildIssues(t, j.(confirmed := [a] + j.confirmed), rest, k, w);
        }
      } else {
        match CT.Lookup(s.conns, q.host)
        case Some(c) =>
          var m := Reserve(j.id, q.res, q.amount);
          IssuedSend(s.log, Out(c, m), k, j.id, w);
          AskCounts(j, q, c, None, k, w);
          BuildIssues(s.Send(c, m), Ask(j, q, c, None), rest, k, w);
        case None =>
          if q.dial.Some? {
            var held := Some(Reserve(j.id, q.res, q.amount));
            AskCounts(j, q, q.dial.value, held, k, w);
            BuildIssues(s, Ask(j, q, q.dial.value, held), rest, k, w);
          }
      }
    }
  }

  lemma {:induction false} DrainReserves(s: State, r: Res)
    ensures SameReserves(Drain(s, r).log, s.log)
    decreases |s.At(r).queue|
  {
    if CanPop(s.At(r)) { DrainReserves(Pop(s, r), r); }
  }

  lemma {:induction false} FreeReserves(s: State, id: int, as_: seq<Alloc>)
    ensures SameReserves(FreeAll(s, id, as_).log, s.log)
    decreases |as_|
  {
    if as_ != [] {
      var t := FreeAlloc(s, id, as_[0]);
      if IsLocalGrant(as_[0]) { DrainReserves(Give(s, as_[0].res, as_[0].amount), as_[0].res); }
      assert SameReserves(t.log, s.log);
      FreeReserves(t, id, as_[1..]);
    }
  }

  lemma RequestReserves(s: State, k: Conn, id: int, reqs: seq<Req>)
    requires id !in s.jobs
    ensures SameReserves(OnJobRequest(s, k, id, reqs).log, Build(s, Job(id, k, [], []), reqs).s.log)
  {
    var p := Build(s, Job(id, k, [], []), reqs);
    if p.Refused? { FreeReserves(PurgeJob(p.s, id), id, p.j.confirmed); }
  }

  // ---------------------------------------------------------------- one step of the client

  ghost function CountIn(ps: seq<OutReq>, L: set<Conn>): nat {
    if ps == [] then 0 else (if ps[0].conn in L then 1 else 0) + CountIn(ps[1..], L)
  }

  /** Requests of a job whose RESERVE waits for the connection to open. */
  ghost function Unsent(s: State, id: int, k: Conn, w: What): nat
    requires id in s.jobs
  {
    if CT.Mentions(s.conns, k) then 0 else CountAs(s.jobs[id].pending, k, w)
  }

  /** A GRANTED that the client takes as the answer of host h to a request of the job. */
  ghost predicate Consumes(s: State, e: Event, id: int, h: string) {
    && e.EvGranted? && e.job == id && id in s.jobs && CT.HostOf(s.conns, e.k) == Some(h)
    && FindHost(s.jobs[id].pending, h) < |s.jobs[id].pending|
  }

  ghost predicate Kin(s: State, t: State, id: int)
    requires id in s.jobs && id in t.jobs
  {
    t.jobs[id].pending == s.jobs[id].pending && forall k, w :: Issued(t.log, k, id, w) == Issued(s.log, k, id, w)
  }

  lemma QuietKin(s: State, t: State, id: int)
    requires Quiet(s, t) && id in t.jobs
    ensures Kin(s, t, id)
  {
    assert SameJob(s, t, id);
    forall k, w ensures Issued(t.log, k, id, w) == Issued(s.log, k, id, w) { IssuedSame(t.log, s.log, k, id, w); }
  }

  lemma ReserveKin(s: State, k: Conn, job: int, r: Res, amount: int, id: int)
    requires id in s.jobs
    ensures var t := OnReserve(s, k, job, r, amount); id in t.jobs && Kin(s, t, id) && t.conns == s.conns
  {
    var t := OnReserve(s, k, job, r, amount);
    forall c, w ensures Issued(t.log, c, id, w) == Issued(s.log, c, id, w) { IssuedSame(t.log, s.log, c, id, w); }
  }

  lemma OtherRequestKin(s: State, k: Conn, job: int, reqs: seq<Req>, id: int)
    requires Inv(s) && k.Planner? && PeersOnly(s.conns) && RequestOk(s.ip, reqs) && id in s.jobs
    ensures var t := OnJobRequest(s, k, job, reqs); id in t.jobs && Kin(s, t, id) && t.conns == s.conns
  {
    var t := OnJobRequest(s, k, job, reqs);
    JobRequestKeeps(s, k, job, reqs);
    assert SameJob(s, t, id);
    if job !in s.jobs {
      RequestReserves(s, k, job, reqs);
      forall c, w ensures Issued(t.log, c, id, w) == Issued(s.log, c, id, w) {
        IssuedSame(t.log, Build(s, Job(job, k, [], []), reqs).s.log, c, id, w);
        BuildSilent(s, Job(job, k, [], []), reqs, c, id, w);
      }
    }
  }

  lemma {:induction false} CountInWithout(ps: seq<OutReq>, i: nat, L: set<Conn>)
    requires i < |ps|
    ensures CountIn(ps[..i] + ps[i+1..], L) + (if ps[i].conn in L then 1 else 0) == CountIn(ps, L)
  {
    if i == 0 {
      assert ps[..0] + ps[1..] == ps[1..];
    } else {
      CountInWithout(ps[1..], i - 1, L);
      assert ps[..i] + ps[i+1..] == [ps[0]] + (ps[1..][..i-1] + ps[1..][i..]);
    }
  }

  /** A GRANTED that the client takes as the answer to one of the job's requests. */
  ghost predicate Confirms(s: State, e: Event, id: int) {
    && e.EvGranted? && e.job == id && id in s.jobs && CT.HostOf(s.conns, e.k).Some?
    && FindHost(s.jobs[id].pending, CT.HostOf(s.conns, e.k).value) < |s.jobs[id].pending|
  }

  /** The request that it confirms. */
  ghost function Confirmed(s: State, e: Event, id: int): OutReq
    requires Confirms(s, e, id)
  {
    s.jobs[id].pending[FindHost(s.jobs[id].pending, CT.HostOf(s.conns, e.k).value)]
  }

  /** A GRANTED that confirms a request of the job on k before k is open: the
      RESERVE that was held back for it is never sent. */
  ghost predicate Loses(s: State, e: Event, id: int, k: Conn) {
    Confirms(s, e, id) && Confirmed(s, e, id).conn == k && !CT.Mentions(s.conns, k)
  }

  /** The same for a share of a given kind. */
  ghost predicate LosesAs(s: State, e: Event, id: int, k: Conn, w: What) {
    Loses(s, e, id, k) && w.Takes(Confirmed(s, e, id).res, Confirmed(s, e, id).amount)
  }

  lemma ConfirmShape(s: State, k: Conn, job: int, id: int)
    requires Inv(s) && id in s.jobs
    ensures var t := OnGranted(s, k, job); var e := EvGranted(k, job); var ps := s.jobs[id].pending;
            && id in t.jobs
            && t.jobs[id].pending ==
               if Confirms(s, e, id)
               then var i := FindHost(ps, CT.HostOf(s.conns, k).value); ps[..i] + ps[i+1..]
               else ps
  {
  }

  lemma ConfirmCount(s: State, k: Conn, job: int, id: int, c: Conn, w: What)
    requires Inv(s) && id in s.jobs
    ensures var t := OnGranted(s, k, job); var e := EvGranted(k, job);
            && id in t.jobs
            && CountAs(t.jobs[id].pending, c, w) ==
               CountAs(s.jobs[id].pending, c, w)
               - if Confirms(s, e, id) && Confirmed(s, e, id).conn == c
                    && w.Takes(Confirmed(s, e, id).res, Confirmed(s, e, id).amount) then 1 else 0
  {
    ConfirmShape(s, k, job, id);
    if Confirms(s, EvGranted(k, job), id) {
      CountAsWithout(s.jobs[id].pending, FindHost(s.jobs[id].pending, CT.HostOf(s.conns, k).value), c, w);
    }
  }

  /** A confirmation leaves the RESERVEs issued or held back as they were, except
      for the request it confirms if its connection is not open: that RESERVE is
      lost, and no other is. */
  lemma ConfirmLoses(s: State, k: Conn, job: int, id: int, c: Conn, w: What)
    requires Inv(s) && id in s.jobs
    ensures var t := OnGranted(s, k, job);
            && id in t.jobs
            && Issued(t.log, c, id, w) + Unsent(t, id, c, w)
                 + (if LosesAs(s, EvGranted(k, job), id, c, w) then 1 else 0) ==
               Issued(s.log, c, id, w) + Unsent(s, id, c, w)
  {
    GrantedKeeps(s, k, job);
    IssuedSame(OnGranted(s, k, job).log, s.log, c, id, w);
    ConfirmCount(s, k, job, id, c, w);
  }

  lemma GrantedTakes(s: State, k: Conn, job: int, id: int, L: set<Conn>, h: string)
    requires Inv(s) && Routed(s, L, h) && id in s.jobs
    ensures var t := OnGranted(s, k, job);
            && id in t.jobs
            && CountIn(t.jobs[id].pending, L) + (if Consumes(s, EvGranted(k, job), id, h) then 1 else 0) ==
               CountIn(s.jobs[id].pending, L)
  {
    ConfirmShape(s, k, job, id);
    if Confirms(s, EvGranted(k, job), id) {
      var ps := s.jobs[id].pending;
      var i := FindHost(ps, CT.HostOf(s.conns, k).value);
      assert AskRouted(ps[i], L, h);
      CountInWithout(ps, i, L);
    }
  }

  lemma {:induction false} OnConnUses(ps: seq<OutReq>, k: Conn)
    ensures forall o :: o in OnConn(ps, k) ==> o.conn == k
  {
    if ps != [] { OnConnUses(ps[1..], k); }
  }

  lemma {:induction false} AwaitingUses(jobs: map<int, Job>, order: seq<int>, k: Conn)
    requires forall i :: 0 <= i < |order| ==> order[i] in jobs
    ensures forall o :: o in Awaiting(jobs, order, k) ==> o.conn == k
  {
    if order != [] {
      AwaitingUses(jobs, order[1..], k);
      OnConnUses(jobs[order[0]].pending, k);
    }
  }

  /** The one request that a connection opening can serve, if there is one: its
      message was held back, so there is always a message to send. */
  lemma OpenedFor(s: State, k: Conn, order: seq<int>) returns (o: OutReq, job: int)
    requires Inv(s) && Wired(s) && Enumerates(order, s.jobs.Keys) && k.Peer? && !CT.Mentions(s.conns, k)
    requires Awaiting(s.jobs, order, k) != []
    ensures job in s.jobs && o in s.jobs[job].pending && o.conn == k
    ensures var t := OnConnReady(s, k, order);
            && t.jobs == s.jobs && t.conns == CT.Insert(s.conns, o.host, k)
            && t.log == s.log + [Out(k, Reserve(job, o.res, o.amount))]
  {
    var ps := Awaiting(s.jobs, order, k);
    AwaitingOnce(s.jobs, order, s.conns, k);
    AwaitingFrom(s.jobs, order, k);
    AwaitingUses(s.jobs, order, k);
    o := ps[0];
    assert o in ps;
    var i :| 0 <= i < |order| && o in s.jobs[order[i]].pending;
    job := order[i];
    assert JobOk(s.jobs[job], job);
    var n :| 0 <= n < |s.jobs[job].pending| && s.jobs[job].pending[n] == o;
    assert ps[1..] == [];
    assert Backed(s.jobs[job].pending, s.conns);
    var v := s.(conns := CT.Insert(s.conns, o.host, k)).Send(k, o.held.value);
    assert OnConnReady(s, k, order) == Open(v, k, []) == v;
  }

  /** Opening a connection sends exactly what was held back for it. */
  lemma ReadyIssues(s: State, k: Conn, order: seq<int>, id: int, c: Conn, w: What)
    requires Inv(s) && Wired(s) && Enumerates(order, s.jobs.Keys) && k.Peer? && !CT.Mentions(s.conns, k) && id in s.jobs
    ensures var t := OnConnReady(s, k, order);
            t.jobs == s.jobs
                && Issued(t.log, c, id, w) + Unsent(t, id, c, w) == Issued(s.log, c, id, w) + Unsent(s, id, c, w)
  {
    var t := OnConnReady(s, k, order);
    if Awaiting(s.jobs, order, k) != [] {
      var o, job := OpenedFor(s, k, order);
      CountMember(s.jobs[job].pending, k);
      InsertMentions(s.conns, o.host, k, c);
      IssuedSend(s.log, Out(k, Reserve(job, o.res, o.amount)), c, id, w);
      CountAsAny(s.jobs[id].pending, k, w);
      if id == job { CountAsOnly(s.jobs[id].pending, k, o, w); } else { assert CountOn(s.jobs[id].pending, k) == 0; }
    }
  }

  lemma InsertRouted(t: CT.Table, host: string, k: Conn, L: set<Conn>, h: string)
    requires TableRouted(t, L, h) && |host| <= 14 && (k in L <==> host == h)
    ensures TableRouted(CT.Insert(t, host, k), L, h)
  {
    var u, b := CT.Insert(t, host, k), CT.Bucket(host);
    forall i, n | 0 <= i < CT.BUCKETS && 0 <= n < |u[i]| ensures EntryRouted(u[i][n], L, h) {
      if i == b && n > 0 { assert u[i][n] == t[i][n-1]; }
    }
  }

  lemma DeleteRouted(t: CT.Table, k: Conn, L: set<Conn>, h: string)
    requires TableRouted(t, L, h)
    ensures TableRouted(CT.DeleteByConn(t, k), L, h)
  {
    var u := CT.DeleteByConn(t, k);
    forall i, n | 0 <= i < CT.BUCKETS && 0 <= n < |u[i]| ensures EntryRouted(u[i][n], L, h) {
      UnlinkFacts(t[i], k);
      assert u[i][n] in t[i];
      var m :| 0 <= m < |t[i]| && t[i][m] == u[i][n];
    }
  }

  lemma QuietRouted(s: State, t: State, L: set<Conn>, h: string)
    requires Quiet(s, t) && Routed(s, L, h)
    ensures Routed(t, L, h)
  {
    forall id | id in t.jobs ensures ListRouted(t.jobs[id].pending, L, h) { assert SameJob(s, t, id); }
  }

  lemma RequestRouted(s: State, e: Event, L: set<Conn>, h: string)
    requires Inv(s) && Wired(s) && e.EvJobRequest? && Lawful(s, e) && Routed(s, L, h) && DialsTo(e.reqs, L, h)
    ensures Routed(Step(s, e), L, h)
  {
    var t := Step(s, e);
    JobRequestKeeps(s, e.k, e.job, e.reqs);
    forall id | id in t.jobs ensures ListRouted(t.jobs[id].pending, L, h) {
      if id in s.jobs {
        assert SameJob(s, t, id);
      } else {
        BuildRouted(s, Job(id, e.k, [], []), e.reqs, L, h);
        EnteredPending(s, e, id);
      }
    }
  }

  /** A job enters the table with the requests that its loop made. */
  lemma EnteredPending(s: State, e: Event, id: int)
    requires Inv(s) && Wired(s) && e.EvJobRequest? && Lawful(s, e) && id !in s.jobs && id in Step(s, e).jobs
    ensures e.job == id && Step(s, e).jobs[id].pending == Build(s, Job(id, e.k, [], []), e.reqs).j.pending
  {
    JobRequestKeeps(s, e.k, e.job, e.reqs);
    var p := Build(s, Job(e.job, e.k, [], []), e.reqs);
    if p.Refused? {
      RefusedStaysOut(p.s, p.j, e.job);
      BuildFrame(s, Job(e.job, e.k, [], []), e.reqs);
    }
  }

  lemma WithoutRouted(ps: seq<OutReq>, i: nat, qs: seq<OutReq>, L: set<Conn>, h: string)
    requires i < |ps| && qs == ps[..i] + ps[i+1..] && forall n :: 0 <= n < |ps| ==> AskRouted(ps[n], L, h)
    ensures forall n :: 0 <= n < |qs| ==> AskRouted(qs[n], L, h)
  {
    forall n | 0 <= n < |qs| ensures AskRouted(qs[n], L, h) { assert qs[n] == if n < i then ps[n] else ps[n+1]; }
  }

  lemma GrantedRouted(s: State, k: Conn, job: int, L: set<Conn>, h: string)
    requires Inv(s) && Routed(s, L, h)
    ensures Routed(OnGranted(s, k, job), L, h)
  {
    GrantedCases(s, k, job);
    GrantRouted(s, OnGranted(s, k, job), job, L, h);
  }

  lemma GrantRouted(s: State, t: State, job: int, L: set<Conn>, h: string)
    requires Routed(s, L, h) && GrantShape(s, t, job)
    ensures Routed(t, L, h)
  {
    if ConfirmsOne(s, t, job) {
      var i :| 0 <= i < |s.jobs[job].pending| && t == ConfirmAt(s, job, i);
      WithoutRouted(s.jobs[job].pending, i, t.jobs[job].pending, L, h);
    }
  }

  lemma ReadyRouted(s: State, k: Conn, order: seq<int>, L: set<Conn>, h: string)
    requires Inv(s) && Wired(s) && Enumerates(order, s.jobs.Keys) && k.Peer? && !CT.Mentions(s.conns, k)
             && Routed(s, L, h)
    ensures Routed(OnConnReady(s, k, order), L, h)
  {
    if Awaiting(s.jobs, order, k) != [] {
      var o, job := OpenedFor(s, k, order);
      var n :| 0 <= n < |s.jobs[job].pending| && s.jobs[job].pending[n] == o;
      assert AskRouted(s.jobs[job].pending[n], L, h);
      InsertRouted(s.conns, o.host, k, L, h);
    }
  }

  lemma StepRouted(s: State, e: Event, L: set<Conn>, h: string)
    requires Inv(s) && Wired(s) && Feasible(s, e) && Lawful(s, e) && Routed(s, L, h)
    requires e.EvJobRequest? ==> DialsTo(e.reqs, L, h)
    ensures Routed(Step(s, e), L, h)
  {
    var t := Step(s, e);
    match e
    case EvReserve(k, id, r, amount) =>
    case EvGranted(k, id) => GrantedRouted(s, k, id, L, h);
    case EvRelease(_, id, r, amount) => PeerReleaseKeeps(s, id, r, amount); QuietRouted(s, t, L, h);
    case EvDenied(_, id) => DeniedKeeps(s, id); QuietRouted(s, t, L, h);
    case EvJobRequest(_, _, _) => RequestRouted(s, e, L, h);
    case EvJobRelease(_, id) => JobReleaseKeeps(s, id); QuietRouted(s, t, L, h);
    case EvJobTimeout(_, id) => RemoveKeeps(s, id); QuietRouted(s, t, L, h);
    case EvDisconnect(k, order) =>
      DisconnectKeeps(s, k, order);
      QuietRouted(s, t.(conns := s.conns), L, h);
      DeleteRouted(s.conns, k, L, h);
    case EvConnFailed(k, order) => ConnFailedKeeps(s, k, order); QuietRouted(s, t, L, h);
    case EvConnReady(k, order) => ReadyRouted(s, k, order, L, h);
  }

  // ---------------------------------------------------------------- the accounts of a job

  /** What one step does to the requests of a job that stays in the table: a
      consumed GRANTED takes one away, and what was issued or is held back on a
      connection changes only by the RESERVE that a confirmation loses. */
  ghost predicate Accounted(s: State, e: Event, t: State, id: int, L: set<Conn>, h: string)
    requires id in s.jobs && id in t.jobs
  {
    && CountIn(t.jobs[id].pending, L) + (if Consumes(s, e, id, h) then 1 else 0) == CountIn(s.jobs[id].pending, L)
    && forall k, w :: Steady(s, e, t, id, k, w)
  }

  ghost predicate Steady(s: State, e: Event, t: State, id: int, k: Conn, w: What)
    requires id in s.jobs && id in t.jobs
  {
    Issued(t.log, k, id, w) + Unsent(t, id, k, w) + (if LosesAs(s, e, id, k, w) then 1 else 0) ==
    Issued(s.log, k, id, w) + Unsent(s, id, k, w)
  }

  lemma KinAccounted(s: State, e: Event, t: State, id: int, L: set<Conn>, h: string)
    requires id in s.jobs && id in t.jobs && Kin(s, t, id) && !e.EvGranted?
    requires forall k :: CT.Mentions(s.conns, k) != CT.Mentions(t.conns, k) ==> CountOn(t.jobs[id].pending, k) == 0
    ensures Accounted(s, e, t, id, L, h)
  {
    forall k, w ensures Steady(s, e, t, id, k, w) {
      CountAsAny(t.jobs[id].pending, k, w);
      assert Issued(t.log, k, id, w) == Issued(s.log, k, id, w);
    }
  }

  lemma DisconnectAccounted(s: State, e: Event, id: int, L: set<Conn>, h: string)
    requires Inv(s) && Wired(s) && Feasible(s, e) && e.EvDisconnect? && id in s.jobs && id in Step(s, e).jobs
    ensures Accounted(s, e, Step(s, e), id, L, h)
  {
    var t := Step(s, e);
    var u := t.(conns := s.conns);
    DisconnectKeeps(s, e.k, e.order);
    QuietKin(s, u, id);
    DeleteFacts(s.conns, e.k);
    assert SameJob(s, u, id);
    CountMember(s.jobs[id].pending, e.k);
    assert id in Kept(s.jobs, e.k);
    KinAccounted(s, e, t, id, L, h);
  }

  lemma AnswerAccounted(s: State, e: Event, id: int, L: set<Conn>, h: string)
    requires Inv(s) && Wired(s) && Feasible(s, e) && Lawful(s, e) && Routed(s, L, h) && id in s.jobs
    requires e.EvGranted? || e.EvConnReady?
    ensures id in Step(s, e).jobs && Accounted(s, e, Step(s, e), id, L, h)
  {
    var t := Step(s, e);
    match e
    case EvGranted(k, job) =>
      GrantedTakes(s, k, job, id, L, h);
      forall c, w ensures Steady(s, e, t, id, c, w) { ConfirmLoses(s, k, job, id, c, w); }
    case EvConnReady(k, order) =>
      ReadyIssues(s, k, order, id, k, Any);
      forall c, w ensures Steady(s, e, t, id, c, w) { ReadyIssues(s, k, order, id, c, w); }
    case _ =>
  }

  lemma StepAccounted(s: State, e: Event, id: int, L: set<Conn>, h: string)
    requires Inv(s) && Wired(s) && Feasible(s, e) && Lawful(s, e) && Routed(s, L, h)
    requires id in s.jobs && id in Step(s, e).jobs
    ensures Accounted(s, e, Step(s, e), id, L, h)
  {
    var t := Step(s, e);
    match e
    case EvReserve(k, job, r, amount) => ReserveKin(s, k, job, r, amount, id); KinAccounted(s, e, t, id, L, h);
    case EvGranted(_, _) => AnswerAccounted(s, e, id, L, h);
    case EvRelease(_, job, r, amount) =>
      PeerReleaseKeeps(s, job, r, amount); QuietKin(s, t, id); KinAccounted(s, e, t, id, L, h);
    case EvDenied(_, job) => DeniedKeeps(s, job); QuietKin(s, t, id); KinAccounted(s, e, t, id, L, h);
    case EvJobRequest(k, job, reqs) => OtherRequestKin(s, k, job, reqs, id); KinAccounted(s, e, t, id, L, h);
    case EvJobRelease(_, job) => JobReleaseKeeps(s, job); QuietKin(s, t, id); KinAccounted(s, e, t, id, L, h);
    case EvJobTimeout(_, job) => RemoveKeeps(s, job); QuietKin(s, t, id); KinAccounted(s, e, t, id, L, h);
    case EvDisconnect(_, _) => DisconnectAccounted(s, e, id, L, h);
    case EvConnFailed(k, order) => ConnFailedKeeps(s, k, order); QuietKin(s, t, id); KinAccounted(s, e, t, id, L, h);
    case EvConnReady(_, _) => AnswerAccounted(s, e, id, L, h);
  }

  /** A job that enters the table has issued, or holds back, exactly one RESERVE
      for each share it asked, if none was issued under its id before. */
  lemma EntryAccounted(s: State, e: Event, id: int, k: Conn, w: What)
    requires Inv(s) && Wired(s) && Feasible(s, e) && Lawful(s, e) && id !in s.jobs && id in Step(s, e).jobs
    requires Issued(s.log, k, id, w) == 0
    ensures var t := Step(s, e); Issued(t.log, k, id, w) + Unsent(t, id, k, w) == CountAs(t.jobs[id].pending, k, w)
  {
    OnlyRequestsEnter(s, e, id);
    var t := Step(s, e);
    EnteredPending(s, e, id);
    var j := Job(id, e.k, [], []);
    RequestReserves(s, e.k, id, e.reqs);
    IssuedSame(t.log, Build(s, j, e.reqs).s.log, k, id, w);
    assert NewDials(s.conns, e.reqs);
    if CT.Mentions(s.conns, k) { BuildIssues(s, j, e.reqs, k, w); } else { BuildSilent(s, j, e.reqs, k, id, w); }
    JobRequestKeeps(s, e.k, id, e.reqs);
  }
}
