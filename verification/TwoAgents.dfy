/** A client and a server agent, any runs of the two, and reliable FIFO channels
    between them: a job that is announced as granted has had every one of its
    reservations granted by the server. */
module TwoAgents {
  import opened Types
  import opened Seqs
  import opened Allocator
  import opened Ledger
  import opened Handlers
  import opened Requests
  import opened Disconnects
  import opened Wiring
  import opened Runs
  import opened Reservation
  import opened Shares
  import CT = ConnTable

  /** The parameters of manager_init. */
  datatype Setup = Setup(ip: string, cpu: nat, mem: nat, gpu: nat) {
    ghost function Init(): State { Boot(ip, cpu, mem, gpu) }
  }

  // ---------------------------------------------------------------- the client's run

  /** The JOB_REQUESTs of a run that carry an id. */
  ghost function TimesRequested(es: seq<Event>, id: int): nat {
    if es == [] then 0
    else TimesRequested(es[..|es|-1], id) + if es[|es|-1].EvJobRequest? && es[|es|-1].job == id then 1 else 0
  }

  ghost predicate AllDialTo(es: seq<Event>, L: set<Conn>, h: string) {
    forall i :: 0 <= i < |es| && es[i].EvJobRequest? ==> DialsTo(es[i].reqs, L, h)
  }

  // ---------------------------------------------------------------- what the request asked of peers

  /** The connection on which a share is asked: the open one to its host, or the one
      that was dialled. */
  ghost function Target(q: Req, conns: CT.Table): Option<Conn> {
    if CT.Lookup(conns, q.host).Some? then CT.Lookup(conns, q.host) else q.dial
  }

  /** The shares of a list that are asked on a connection. */
  ghost function AskedOn(qs: seq<Req>, conns: CT.Table, k: Conn, w: What): nat {
    if qs == [] then 0
    else (if Target(qs[0], conns) == Some(k) && w.Takes(qs[0].res, qs[0].amount) then 1 else 0)
         + AskedOn(qs[1..], conns, k, w)
  }

  /** The shares of a list that are asked of a host, by the 14 characters kept of it. */
  ghost function AskedOf(qs: seq<Req>, h: string): nat {
    if qs == [] then 0 else (if Clip(qs[0].host, 14) == h then 1 else 0) + AskedOf(qs[1..], h)
  }

  /** The shares of other hosts in the request with which a job entered the table. */
  ghost function Wishes(s: State, es: seq<Event>, id: int): seq<Req>
    requires LawfulRun(s, es) && id in After(s, es).jobs
  {
    Foreign(RequestOf(s, es, id), s.ip)
  }

  /** The connections registered when it did. */
  ghost function OnEntry(s: State, es: seq<Event>, id: int): CT.Table
    requires LawfulRun(s, es) && id in After(s, es).jobs
  {
    if es == [] then s.conns
    else
      var p := es[..|es|-1];
      if id in After(s, p).jobs then OnEntry(s, p, id) else After(s, p).conns
  }

  /** The outgoing requests with which it did. */
  ghost function Entered(s: State, es: seq<Event>, id: int): seq<OutReq>
    requires LawfulRun(s, es) && id in After(s, es).jobs
  {
    if es == [] then []
    else
      var p := es[..|es|-1];
      if id in After(s, p).jobs then Entered(s, p, id) else After(s, es).jobs[id].pending
  }

  /** They are the requested shares, one by one. */
  lemma {:induction false} EnteredAre(a: Setup, es: seq<Event>, id: int)
    requires LawfulRun(a.Init(), es) && id in After(a.Init(), es).jobs
    ensures AsksAll(Entered(a.Init(), es, id), Wishes(a.Init(), es, id), OnEntry(a.Init(), es, id), id)
    decreases |es|
  {
    var s := a.Init();
    if es != [] {
      var p, e := es[..|es|-1], es[|es|-1];
      var m := After(s, p);
      if id in m.jobs {
        EnteredAre(a, p, id);
      } else {
        Conservation(a.ip, a.cpu, a.mem, a.gpu, p);
        SameHost(a.ip, a.cpu, a.mem, a.gpu, p);
        OnlyRequestsEnter(m, e, id);
        EntryAsks(m, e.k, id, e.reqs);
      }
    }
  }

  lemma EntryAsks(s: State, k: Conn, id: int, reqs: seq<Req>)
    requires Inv(s) && RequestOk(s.ip, reqs) && id !in s.jobs && id in OnJobRequest(s, k, id, reqs).jobs
    ensures AsksAll(OnJobRequest(s, k, id, reqs).jobs[id].pending, Foreign(reqs, s.ip), s.conns, id)
  {
    assert forall x :: QueueOk(s.At(x));
    EntryAccepted(s, k, id, reqs);
    RequestMakes(s, k, id, reqs);
  }

  lemma {:induction false} EnteredRouted(a: Setup, es: seq<Event>, id: int, L: set<Conn>, h: string)
    requires LawfulRun(a.Init(), es) && id in After(a.Init(), es).jobs && AllDialTo(es, L, h)
    ensures ListRouted(Entered(a.Init(), es, id), L, h)
    decreases |es|
  {
    if es != [] {
      var p := es[..|es|-1];
      assert forall i :: 0 <= i < |p| ==> p[i] == es[i];
      if id in After(a.Init(), p).jobs { EnteredRouted(a, p, id, L, h); } else { RoutedRun(a, es, L, h); }
    }
  }

  lemma {:induction false} CountsSnoc(ps: seq<OutReq>, o: OutReq, k: Conn, w: What, L: set<Conn>)
    ensures CountAs(ps + [o], k, w) == CountAs(ps, k, w) + if o.conn == k && w.Takes(o.res, o.amount) then 1 else 0
    ensures CountIn(ps + [o], L) == CountIn(ps, L) + if o.conn in L then 1 else 0
  {
    if ps == [] {
      Nil([o]);
      assert [o][1..] == [];
    } else {
      CutLeft(ps, [o], 1);
      CountsSnoc(ps[1..], o, k, w, L);
    }
  }

  /** Counting outgoing requests is counting the shares they were made for. */
  lemma {:induction false} AsksCount(ps: seq<OutReq>, qs: seq<Req>, conns: CT.Table, id: int, k: Conn, w: What,
      L: set<Conn>, h: string)
    requires AsksAll(ps, qs, conns, id)
    ensures CountAs(ps, k, w) == AskedOn(qs, conns, k, w)
    ensures ListRouted(ps, L, h) ==> CountIn(ps, L) == AskedOf(qs, h)
    decreases |qs|
  {
    if qs != [] {
      var f, o, rest := ps[..|ps|-1], ps[|ps|-1], qs[1..];
      assert AsksFor(ps[|qs|-1-0], qs[0], conns, id);
      assert AskRouted(ps[|qs|-1-0], L, h) || !ListRouted(ps, L, h);
      forall i | 0 <= i < |rest| ensures AsksFor(f[|rest|-1-i], rest[i], conns, id) {
        assert AsksFor(ps[|qs|-1-(i+1)], qs[i+1], conns, id);
      }
      assert ListRouted(ps, L, h) ==> ListRouted(f, L, h);
      AsksCount(f, rest, conns, id, k, w, L, h);
      Snoc(ps);
      CountsSnoc(f, o, k, w, L);
    }
  }

  /** On every connection, and of the host, the job asked what its request says. */
  lemma AskedCounts(a: Setup, es: seq<Event>, id: int, L: set<Conn>, h: string)
    requires LawfulRun(a.Init(), es) && id in After(a.Init(), es).jobs && AllDialTo(es, L, h)
    ensures var s := a.Init(); var asked, qs := Entered(s, es, id), Wishes(s, es, id);
            && CountIn(asked, L) == AskedOf(qs, h)
            && forall k, w :: CountAs(asked, k, w) == AskedOn(qs, OnEntry(s, es, id), k, w)
  {
    var s := a.Init();
    var asked, qs, conns := Entered(s, es, id), Wishes(s, es, id), OnEntry(s, es, id);
    EnteredAre(a, es, id);
    EnteredRouted(a, es, id, L, h);
    forall k, w ensures CountAs(asked, k, w) == AskedOn(qs, conns, k, w) && CountIn(asked, L) == AskedOf(qs, h) {
      AsksCount(asked, qs, conns, id, k, w, L, h);
    }
    AsksCount(asked, qs, conns, id, Planner(0), Any, L, h);
  }

  /** Every share asked of the host is asked on one of its connections. */
  lemma WishesRouted(a: Setup, es: seq<Event>, id: int, L: set<Conn>, h: string)
    requires LawfulRun(a.Init(), es) && id in After(a.Init(), es).jobs && AllDialTo(es, L, h)
    ensures forall q :: q in Wishes(a.Init(), es, id) && Clip(q.host, 14) == h
              ==> TargetIn(q, OnEntry(a.Init(), es, id), L)
  {
    var s := a.Init();
    var asked, qs, conns := Entered(s, es, id), Wishes(s, es, id), OnEntry(s, es, id);
    EnteredAre(a, es, id);
    EnteredRouted(a, es, id, L, h);
    ListTargets(asked, qs, conns, id, L, h);
  }

  lemma ListTargets(ps: seq<OutReq>, qs: seq<Req>, conns: CT.Table, id: int, L: set<Conn>, h: string)
    requires AsksAll(ps, qs, conns, id) && ListRouted(ps, L, h)
    ensures forall q :: q in qs && Clip(q.host, 14) == h ==> TargetIn(q, conns, L)
  {
    forall q | q in qs && Clip(q.host, 14) == h ensures TargetIn(q, conns, L) {
      var i :| 0 <= i < |qs| && qs[i] == q;
      assert AsksFor(ps[|qs|-1-i], q, conns, id) && AskRouted(ps[|qs|-1-i], L, h);
    }
  }

  ghost predicate TargetIn(q: Req, conns: CT.Table, L: set<Conn>) {
    Target(q, conns).Some? && Target(q, conns).value in L
  }

  // ---------------------------------------------------------------- over the run

  /** The GRANTEDs of host h that the client has consumed for a job since it entered. */
  ghost function Consumed(s: State, es: seq<Event>, id: int, h: string): nat
    requires LawfulRun(s, es) && id in After(s, es).jobs
  {
    if es == [] then 0
    else
      var p := es[..|es|-1];
      if id in After(s, p).jobs
      then Consumed(s, p, id, h) + if Consumes(After(s, p), es[|es|-1], id, h) then 1 else 0
      else 0
  }

  /** Messages other than JOB_REQUEST issue no RESERVE at all. */
  lemma MessageSilent(s: State, e: Event, o: Out)
    requires Inv(s) && Feasible(s, e) && Lawful(s, e) && o.msg.Reserve?
    requires e.EvReserve? || e.EvGranted? || e.EvRelease? || e.EvDenied? || e.EvJobRelease? || e.EvJobTimeout?
    ensures multiset(Step(s, e).log)[o] == multiset(s.log)[o]
  {
    match e
    case EvReserve(k, job, r, amount) => ReserveLog(s, k, job, r, amount, o);
    case EvGranted(c, job) => GrantedKeeps(s, c, job);
    case EvRelease(_, job, r, amount) => PeerReleaseKeeps(s, job, r, amount);
    case EvDenied(_, job) => DeniedKeeps(s, job);
    case EvJobRelease(_, job) => JobReleaseKeeps(s, job);
    case EvJobTimeout(_, job) => RemoveKeeps(s, job);
  }

  lemma LossSilent(s: State, e: Event, o: Out)
    requires Inv(s) && Feasible(s, e) && o.msg.Reserve? && (e.EvDisconnect? || e.EvConnFailed?)
    ensures multiset(Step(s, e).log)[o] == multiset(s.log)[o]
  {
    if e.EvDisconnect? { DisconnectKeeps(s, e.k, e.order); } else { ConnFailedKeeps(s, e.k, e.order); }
  }

  /** An event that does not request the job issues no RESERVE for it while it is
      not in the table. */
  lemma StepSilent(s: State, e: Event, id: int, k: Conn, w: What)
    requires Inv(s) && Wired(s) && Feasible(s, e) && Lawful(s, e) && id !in s.jobs
    requires !(e.EvJobRequest? && e.job == id)
    ensures Issued(Step(s, e).log, k, id, w) == Issued(s.log, k, id, w)
  {
    if e.EvJobRequest? {
      RequestSilent(s, e.k, e.job, e.reqs, id, k, w);
    } else if e.EvConnReady? {
      ReadySilent(s, e.k, e.order, id, k, w);
    } else {
      forall o: Out | o.msg.Reserve? ensures multiset(Step(s, e).log)[o] == multiset(s.log)[o] {
        if e.EvDisconnect? || e.EvConnFailed? { LossSilent(s, e, o); } else { MessageSilent(s, e, o); }
      }
      IssuedSame(Step(s, e).log, s.log, k, id, w);
    }
  }

  lemma RequestSilent(s: State, c: Conn, job: int, reqs: seq<Req>, id: int, k: Conn, w: What)
    requires job != id
    ensures Issued(OnJobRequest(s, c, job, reqs).log, k, id, w) == Issued(s.log, k, id, w)
  {
    if job !in s.jobs {
      var p := Build(s, Job(job, c, [], []), reqs);
      RequestReserves(s, c, job, reqs);
      IssuedSame(OnJobRequest(s, c, job, reqs).log, p.s.log, k, id, w);
      BuildSilent(s, Job(job, c, [], []), reqs, k, id, w);
    }
  }

  lemma ReadySilent(s: State, c: Conn, order: seq<int>, id: int, k: Conn, w: What)
    requires Inv(s) && Wired(s) && Enumerates(order, s.jobs.Keys) && c.Peer? && !CT.Mentions(s.conns, c)
             && id !in s.jobs
    ensures Issued(OnConnReady(s, c, order).log, k, id, w) == Issued(s.log, k, id, w)
  {
    if Awaiting(s.jobs, order, c) != [] {
      var o, job := OpenedFor(s, c, order);
      IssuedSend(s.log, Out(c, Reserve(job, o.res, o.amount)), k, id, w);
    }
  }

  /** Before its request an id is neither in the table nor in any RESERVE. */
  lemma {:induction false} Unused(a: Setup, es: seq<Event>, id: int, k: Conn, w: What)
    requires LawfulRun(a.Init(), es) && TimesRequested(es, id) == 0
    ensures id !in After(a.Init(), es).jobs && Issued(After(a.Init(), es).log, k, id, w) == 0
    decreases |es|
  {
    if es != [] {
      var p, e := es[..|es|-1], es[|es|-1];
      var m := After(a.Init(), p);
      Unused(a, p, id, k, w);
      Conservation(a.ip, a.cpu, a.mem, a.gpu, p);
      StepSilent(m, e, id, k, w);
      if id in Step(m, e).jobs { OnlyRequestsEnter(m, e, id); }
    }
  }

  lemma {:induction false} RoutedRun(a: Setup, es: seq<Event>, L: set<Conn>, h: string)
    requires LawfulRun(a.Init(), es) && AllDialTo(es, L, h)
    ensures Routed(After(a.Init(), es), L, h)
    decreases |es|
  {
    if es != [] {
      var p := es[..|es|-1];
      assert forall i :: 0 <= i < |p| ==> p[i] == es[i];
      RoutedRun(a, p, L, h);
      Conservation(a.ip, a.cpu, a.mem, a.gpu, p);
      StepRouted(After(a.Init(), p), es[|es|-1], L, h);
    }
  }

  /** The RESERVEs of a job held back for a connection and lost since it entered,
      because a GRANTED confirmed their request before the connection opened. */
  ghost function Lost(s: State, es: seq<Event>, id: int, k: Conn, w: What): nat
    requires LawfulRun(s, es) && id in After(s, es).jobs
  {
    if es == [] then 0
    else
      var p := es[..|es|-1];
      if id in After(s, p).jobs
      then Lost(s, p, id, k, w) + if LosesAs(After(s, p), es[|es|-1], id, k, w) then 1 else 0
      else 0
  }

  lemma {:induction false} LostWithin(s: State, es: seq<Event>, id: int, k: Conn, w: What)
    requires LawfulRun(s, es) && id in After(s, es).jobs
    ensures Lost(s, es, id, k, w) <= Lost(s, es, id, k, Any)
    decreases |es|
  {
    if es != [] && id in After(s, es[..|es|-1]).jobs { LostWithin(s, es[..|es|-1], id, k, w); }
  }

  /** The same by the outgoing requests with which the job entered. */
  lemma {:induction false} EnteredCount(a: Setup, es: seq<Event>, id: int, L: set<Conn>, h: string)
    requires LawfulRun(a.Init(), es) && AllDialTo(es, L, h) && TimesRequested(es, id) <= 1
    requires id in After(a.Init(), es).jobs
    ensures var t := After(a.Init(), es); var asked := Entered(a.Init(), es, id);
            && CountIn(t.jobs[id].pending, L) == CountIn(asked, L) - Consumed(a.Init(), es, id, h)
            && forall k, w :: Tallied(a.Init(), es, id, asked, k, w)
    decreases |es|
  {
    var s := a.Init();
    if es != [] {
      var p, e := es[..|es|-1], es[|es|-1];
      var m, t := After(s, p), After(s, es);
      assert forall i :: 0 <= i < |p| ==> p[i] == es[i];
      Conservation(a.ip, a.cpu, a.mem, a.gpu, p);
      if id in m.jobs {
        EnteredCount(a, p, id, L, h);
        RoutedRun(a, p, L, h);
        StepAccounted(m, e, id, L, h);
        forall k, w ensures Tallied(s, es, id, Entered(s, es, id), k, w) {
          assert Steady(m, e, t, id, k, w) && Tallied(s, p, id, Entered(s, p, id), k, w);
        }
      } else {
        OnlyRequestsEnter(m, e, id);
        forall k, w ensures Tallied(s, es, id, Entered(s, es, id), k, w) {
          Unused(a, p, id, k, w);
          EntryAccounted(m, e, id, k, w);
        }
      }
    }
  }

  /** What a job issued on a connection, holds back for it and lost is what it asked there. */
  ghost predicate Tallied(s: State, es: seq<Event>, id: int, asked: seq<OutReq>, k: Conn, w: What)
    requires LawfulRun(s, es) && id in After(s, es).jobs
  {
    var t := After(s, es);
    Issued(t.log, k, id, w) + Unsent(t, id, k, w) + Lost(s, es, id, k, w) == CountAs(asked, k, w)
  }

  /** In every reachable state the requests of a job still pending with a host are
      the shares its JOB_REQUEST asked of the host less the GRANTEDs consumed; and on
      every connection, for every resource and amount, what it issued, holds back and
      lost is exactly what the JOB_REQUEST asked there. */
  lemma PendingCount(a: Setup, es: seq<Event>, id: int, L: set<Conn>, h: string)
    requires LawfulRun(a.Init(), es) && AllDialTo(es, L, h) && TimesRequested(es, id) <= 1
    requires id in After(a.Init(), es).jobs
    ensures var s := a.Init(); var t, qs := After(s, es), Wishes(s, es, id);
            && CountIn(t.jobs[id].pending, L) == AskedOf(qs, h) - Consumed(s, es, id, h)
            && forall k, w :: Issued(t.log, k, id, w) + Unsent(t, id, k, w) + Lost(s, es, id, k, w)
                              == AskedOn(qs, OnEntry(s, es, id), k, w)
  {
    var s := a.Init();
    var t, qs, asked := After(s, es), Wishes(s, es, id), Entered(s, es, id);
    EnteredCount(a, es, id, L, h);
    AskedCounts(a, es, id, L, h);
    forall k, w ensures Issued(t.log, k, id, w) + Unsent(t, id, k, w) + Lost(s, es, id, k, w)
                        == AskedOn(qs, OnEntry(s, es, id), k, w) {
      assert Tallied(s, es, id, asked, k, w);
      assert CountAs(asked, k, w) == AskedOn(qs, OnEntry(s, es, id), k, w);
    }
  }

  // ---------------------------------------------------------------- channels

  /** What the handlers of an agent were given on a connection by its peer, in order. */
  ghost function Inbox(es: seq<Event>, k: Conn): seq<Msg> {
    if es == [] then [] else Inbox(es[..|es|-1], k) + Incoming(es[|es|-1], k)
  }

  ghost function Incoming(e: Event, k: Conn): seq<Msg> {
    match e
    case EvReserve(c, id, r, amount) => if c == k then [Reserve(id, r, amount)] else []
    case EvRelease(c, id, r, amount) => if c == k then [Release(id, r, amount)] else []
    case EvGranted(c, id) => if c == k then [Granted(id)] else []
    case EvDenied(c, id) => if c == k then [Denied(id)] else []
    case _ => []
  }

  /** What an agent handed to a connection, in order. */
  ghost function Outbox(log: seq<Out>, k: Conn): seq<Msg> {
    if log == [] then [] else Outbox(log[..|log|-1], k) + if log[|log|-1].to == k then [log[|log|-1].msg] else []
  }

  ghost predicate IsAsk(m: Msg, id: int, w: What) { m.Reserve? && m.job == id && w.Takes(m.res, m.amount) }

  ghost function Reserved(ms: seq<Msg>, id: int, w: What): nat {
    if ms == [] then 0
    else Reserved(ms[..|ms|-1], id, w) + if IsAsk(ms[|ms|-1], id, w) then 1 else 0
  }

  ghost function Grants(ms: seq<Msg>, id: int): nat {
    if ms == [] then 0 else Grants(ms[..|ms|-1], id) + if ms[|ms|-1] == Granted(id) then 1 else 0
  }

  lemma CountsAppend(ms: seq<Msg>, m: Msg, id: int, w: What)
    ensures Reserved(ms + [m], id, w) == Reserved(ms, id, w) + if IsAsk(m, id, w) then 1 else 0
    ensures Grants(ms + [m], id) == Grants(ms, id) + if m == Granted(id) then 1 else 0
  {
    Parts(ms, [m]);
  }

  /** A prefix holds no more than the whole. */
  lemma {:induction false} CountsPrefix(a: seq<Msg>, b: seq<Msg>, id: int, w: What)
    requires a <= b
    ensures Reserved(a, id, w) <= Reserved(b, id, w) && Grants(a, id) <= Grants(b, id)
    decreases |b|
  {
    if |a| < |b| {
      CountsPrefix(a, b[..|b|-1], id, w);
    } else {
      assert a == b;
    }
  }

  lemma {:induction false} ReservedWithin(ms: seq<Msg>, id: int, w: What)
    ensures Reserved(ms, id, w) <= Reserved(ms, id, Any)
  {
    if ms != [] { ReservedWithin(ms[..|ms|-1], id, w); }
  }

  /** A prefix that holds as many of a job's RESERVEs holds the same. */
  lemma {:induction false} PrefixWhole(a: seq<Msg>, b: seq<Msg>, id: int, w: What)
    requires a <= b && Reserved(a, id, Any) == Reserved(b, id, Any)
    ensures Reserved(a, id, w) == Reserved(b, id, w)
    decreases |b|
  {
    if |a| < |b| {
      CountsPrefix(a, b[..|b|-1], id, Any);
      PrefixWhole(a, b[..|b|-1], id, w);
    } else {
      assert a == b;
    }
  }

  lemma {:induction false} OutboxCounts(log: seq<Out>, k: Conn, id: int, w: What)
    ensures Reserved(Outbox(log, k), id, w) == Issued(log, k, id, w)
    ensures Grants(Outbox(log, k), id) == multiset(log)[Out(k, Granted(id))]
  {
    if log != [] {
      var f, o := log[..|log|-1], log[|log|-1];
      OutboxCounts(f, k, id, w);
      DropLast(log);
      if o.to == k { CountsAppend(Outbox(f, k), o.msg, id, w); } else { Nil(Outbox(f, k)); }
    }
  }

  /** The GRANTEDs about a job that arrived on a connection. */
  ghost function Heard(es: seq<Event>, k: Conn, id: int): nat {
    if es == [] then 0 else Heard(es[..|es|-1], k, id) + if es[|es|-1] == EvGranted(k, id) then 1 else 0
  }

  lemma IncomingCounts(ms: seq<Msg>, e: Event, k: Conn, id: int, w: What)
    ensures Reserved(ms + Incoming(e, k), id, w) == Reserved(ms, id, w) + if e.EvReserve? && e.k == k
            && IsAsk(Reserve(e.job, e.res, e.amount), id, w) then 1 else 0
    ensures Grants(ms + Incoming(e, k), id) == Grants(ms, id) + if e == EvGranted(k, id) then 1 else 0
  {
    Nil(ms);
    match e
    case EvReserve(_, job, r, amount) => CountsAppend(ms, Reserve(job, r, amount), id, w);
    case EvRelease(_, job, r, amount) => CountsAppend(ms, Release(job, r, amount), id, w);
    case EvGranted(_, job) => CountsAppend(ms, Granted(job), id, w);
    case EvDenied(_, job) => CountsAppend(ms, Denied(job), id, w);
    case _ =>
  }

  lemma {:induction false} InboxCounts(es: seq<Event>, k: Conn, id: int)
    ensures Reserved(Inbox(es, k), id, Any) == Reserves(es, k, id)
    ensures Grants(Inbox(es, k), id) == Heard(es, k, id)
  {
    if es != [] {
      InboxCounts(es[..|es|-1], k, id);
      IncomingCounts(Inbox(es[..|es|-1], k), es[|es|-1], k, id, Any);
    }
  }

  // ---------------------------------------------------------------- several connections

  /** A connection of the client and the server's end of it. */
  datatype Link = Link(near: Conn, far: Conn)

  ghost function Nears(links: seq<Link>): set<Conn> { set l | l in links :: l.near }

  ghost predicate Distinct(links: seq<Link>) {
    forall i, j :: 0 <= i < j < |links| ==> links[i].near != links[j].near
  }

  ghost function CountOver(ps: seq<OutReq>, links: seq<Link>): nat {
    if links == [] then 0 else CountOver(ps, links[1..]) + CountOn(ps, links[0].near)
  }

  ghost function HeardOver(es: seq<Event>, links: seq<Link>, id: int): nat {
    if links == [] then 0 else HeardOver(es, links[1..], id) + Heard(es, links[0].near, id)
  }

  ghost function Hits(c: Conn, links: seq<Link>): nat {
    if links == [] then 0 else Hits(c, links[1..]) + if links[0].near == c then 1 else 0
  }

  lemma {:induction false} HitsOnce(c: Conn, links: seq<Link>)
    requires Distinct(links)
    ensures Hits(c, links) == if c in Nears(links) then 1 else 0
  {
    if links != [] {
      var rest := links[1..];
      assert forall i :: 0 <= i < |rest| ==> rest[i] == links[i+1];
      HitsOnce(c, rest);
      assert links == [links[0]] + rest;
      assert c in Nears(links) <==> c == links[0].near || c in Nears(rest);
      assert links[0].near !in Nears(rest);
    }
  }

  lemma {:induction false} CountOverCons(ps: seq<OutReq>, links: seq<Link>)
    requires ps != []
    ensures CountOver(ps, links) == CountOver(ps[1..], links) + Hits(ps[0].conn, links)
  {
    if links != [] { CountOverCons(ps, links[1..]); }
  }

  lemma {:induction false} CountOverNone(links: seq<Link>)
    ensures CountOver([], links) == 0
  {
    if links != [] { CountOverNone(links[1..]); }
  }

  lemma {:induction false} CountOverIs(ps: seq<OutReq>, links: seq<Link>)
    requires Distinct(links)
    ensures CountOver(ps, links) == CountIn(ps, Nears(links))
  {
    if ps == [] {
      CountOverNone(links);
    } else {
      CountOverIs(ps[1..], links);
      CountOverCons(ps, links);
      HitsOnce(ps[0].conn, links);
    }
  }

  lemma {:induction false} HeardOverStep(es: seq<Event>, links: seq<Link>, id: int)
    requires es != []
    ensures var e := es[|es|-1];
            HeardOver(es, links, id)
            == HeardOver(es[..|es|-1], links, id) + if e.EvGranted? && e.job == id then Hits(e.k, links) else 0
  {
    if links != [] { HeardOverStep(es, links[1..], id); }
  }

  /** Every consumed GRANTED arrived on one of the connections to the host. */
  lemma {:induction false} ConsumedHeard(a: Setup, es: seq<Event>, id: int, links: seq<Link>, h: string)
    requires LawfulRun(a.Init(), es) && id in After(a.Init(), es).jobs
    requires Distinct(links) && AllDialTo(es, Nears(links), h)
    ensures Consumed(a.Init(), es, id, h) <= HeardOver(es, links, id)
    decreases |es|
  {
    var s := a.Init();
    if es != [] {
      var p, e := es[..|es|-1], es[|es|-1];
      var m := After(s, p);
      assert forall i :: 0 <= i < |p| ==> p[i] == es[i];
      HeardOverStep(es, links, id);
      if id in m.jobs {
        ConsumedHeard(a, p, id, links, h);
        if Consumes(m, e, id, h) {
          RoutedRun(a, p, Nears(links), h);
          HostRouted(m.conns, e.k, Nears(links), h);
          HitsOnce(e.k, links);
        }
      }
    }
  }

  // ---------------------------------------------------------------- pending is issued minus consumed

  /** What a job has issued or holds back on the connections of some links. */
  ghost function OutOver(t: State, id: int, links: seq<Link>): nat
    requires id in t.jobs
  {
    if links == [] then 0
    else OutOver(t, id, links[1..]) + Issued(t.log, links[0].near, id, Any) + Unsent(t, id, links[0].near, Any)
  }

  ghost function LostOver(s: State, es: seq<Event>, id: int, links: seq<Link>): nat
    requires LawfulRun(s, es) && id in After(s, es).jobs
    decreases |links|
  {
    if links == [] then 0 else LostOver(s, es, id, links[1..]) + Lost(s, es, id, links[0].near, Any)
  }

  /** No GRANTED consumed since the job entered confirmed a request of it whose
      connection was one of these and not open. */
  ghost predicate Faultless(s: State, es: seq<Event>, id: int, links: seq<Link>)
    requires LawfulRun(s, es) && id in After(s, es).jobs
    decreases |es|
  {
    es == [] ||
    var p := es[..|es|-1];
    (id in After(s, p).jobs ==>
      && Faultless(s, p, id, links)
      && forall i :: 0 <= i < |links| ==> !Loses(After(s, p), es[|es|-1], id, links[i].near))
  }

  lemma {:induction false} LostNone(s: State, es: seq<Event>, id: int, links: seq<Link>)
    requires LawfulRun(s, es) && id in After(s, es).jobs
    ensures Faultless(s, es, id, links) <==> forall i :: 0 <= i < |links| ==> Lost(s, es, id, links[i].near, Any) == 0
    decreases |es|
  {
    if es != [] && id in After(s, es[..|es|-1]).jobs { LostNone(s, es[..|es|-1], id, links); }
  }

  lemma {:induction false} LostOverNone(s: State, es: seq<Event>, id: int, links: seq<Link>)
    requires LawfulRun(s, es) && id in After(s, es).jobs
    ensures LostOver(s, es, id, links) == 0
            <==> forall i :: 0 <= i < |links| ==> Lost(s, es, id, links[i].near, Any) == 0
    decreases |links|
  {
    if links != [] {
      var rest := links[1..];
      assert forall i :: 0 <= i < |rest| ==> rest[i] == links[i+1];
      LostOverNone(s, es, id, rest);
      assert Lost(s, es, id, links[0].near, Any) >= 0;
    }
  }

  lemma {:induction false} OutOverIs(s: State, es: seq<Event>, id: int, links: seq<Link>, asked: seq<OutReq>)
    requires LawfulRun(s, es) && id in After(s, es).jobs
    requires forall k, w :: Tallied(s, es, id, asked, k, w)
    ensures OutOver(After(s, es), id, links) + LostOver(s, es, id, links) == CountOver(asked, links)
    decreases |links|
  {
    if links != [] {
      OutOverIs(s, es, id, links[1..], asked);
      assert Tallied(s, es, id, asked, links[0].near, Any);
      CountAsAny(asked, links[0].near, Any);
    }
  }

  /** The requests of a job pending with a host are the RESERVEs it issued or
      holds back on its connections to that host less the GRANTEDs it consumed,
      if and only if no GRANTED it consumed confirmed a request whose connection
      was not open yet. */
  lemma PendingIsIssued(a: Setup, es: seq<Event>, id: int, links: seq<Link>, h: string)
    requires LawfulRun(a.Init(), es) && TimesRequested(es, id) <= 1 && id in After(a.Init(), es).jobs
    requires Distinct(links) && AllDialTo(es, Nears(links), h)
    ensures var s := a.Init(); var t := After(s, es);
            CountIn(t.jobs[id].pending, Nears(links)) == OutOver(t, id, links) - Consumed(s, es, id, h)
            <==> Faultless(s, es, id, links)
  {
    var s := a.Init();
    var asked := Entered(s, es, id);
    EnteredCount(a, es, id, Nears(links), h);
    CountOverIs(asked, links);
    OutOverIs(s, es, id, links, asked);
    LostOverNone(s, es, id, links);
    LostNone(s, es, id, links);
  }

  // ---------------------------------------------------------------- the theorem

  /** Reliable FIFO in both directions: what one side has handled of a connection
      is a prefix of what the other side handed to it. */
  ghost predicate Fifo(client: State, ca: seq<Event>, server: State, sb: seq<Event>, l: Link) {
    Inbox(sb, l.far) <= Outbox(client.log, l.near) && Inbox(ca, l.near) <= Outbox(server.log, l.far)
  }

  /** What the client heard on a connection, the server answered to reservations
      that it received and the client issued there, for shares that the job asked. */
  lemma Chain(a: Setup, ca: seq<Event>, b: Setup, sb: seq<Event>, l: Link, id: int)
    requires LawfulRun(a.Init(), ca) && LawfulRun(b.Init(), sb)
    requires Fifo(After(a.Init(), ca), ca, After(b.Init(), sb), sb, l)
    ensures var server := After(b.Init(), sb);
            && Heard(ca, l.near, id) <= multiset(server.log)[Out(l.far, Granted(id))]
            && Owing(server, l.far, id) <= Reserves(sb, l.far, id) <= Issued(After(a.Init(), ca).log, l.near, id, Any)
  {
    var client, server := After(a.Init(), ca), After(b.Init(), sb);
    InboxCounts(ca, l.near, id);
    OutboxCounts(server.log, l.far, id, Any);
    CountsPrefix(Inbox(ca, l.near), Outbox(server.log, l.far), id, Any);
    AnsweredAtMostOnce(b.ip, b.cpu, b.mem, b.gpu, sb, l.far, id);
    InboxCounts(sb, l.far, id);
    OutboxCounts(client.log, l.near, id, Any);
    CountsPrefix(Inbox(sb, l.far), Outbox(client.log, l.near), id, Any);
  }

  /** The RESERVEs that the server received on a connection are, by resource and
      amount, those that the client issued there and the request asked there; each was
      granted, none was denied and none is still waiting. */
  ghost predicate Honoured(client: State, server: State, sb: seq<Event>, l: Link, id: int, qs: seq<Req>,
      conns: CT.Table) {
    && (forall w :: Delivered(client, sb, l, id, qs, conns, w))
    && multiset(server.log)[Out(l.far, Granted(id))] == Reserves(sb, l.far, id)
    && multiset(server.log)[Out(l.far, Denied(id))] == 0 && InQueues(server.bank, l.far, id) == 0
  }

  ghost predicate Delivered(client: State, sb: seq<Event>, l: Link, id: int, qs: seq<Req>, conns: CT.Table, w: What) {
    AskedOn(qs, conns, l.near, w) == Issued(client.log, l.near, id, w) == Reserved(Inbox(sb, l.far), id, w)
  }

  /** Where as many GRANTEDs were heard as shares were asked, everything asked was
      issued and received. */
  lemma HeardDelivers(a: Setup, ca: seq<Event>, b: Setup, sb: seq<Event>, l: Link, id: int, asked: seq<OutReq>, w: What)
    requires LawfulRun(a.Init(), ca) && LawfulRun(b.Init(), sb) && id in After(a.Init(), ca).jobs
    requires Fifo(After(a.Init(), ca), ca, After(b.Init(), sb), sb, l)
    requires Heard(ca, l.near, id) == CountOn(asked, l.near) && forall v :: Tallied(a.Init(), ca, id, asked, l.near, v)
    ensures CountAs(asked, l.near, w) == Issued(After(a.Init(), ca).log, l.near, id, w)
            == Reserved(Inbox(sb, l.far), id, w)
  {
    var s := a.Init();
    var client := After(s, ca);
    Chain(a, ca, b, sb, l, id);
    InboxCounts(sb, l.far, id);
    assert Tallied(s, ca, id, asked, l.near, Any) && Tallied(s, ca, id, asked, l.near, w);
    CountAsAny(asked, l.near, Any);
    CountAsAny(client.jobs[id].pending, l.near, w);
    LostWithin(s, ca, id, l.near, w);
    OutboxCounts(client.log, l.near, id, Any);
    OutboxCounts(client.log, l.near, id, w);
    PrefixWhole(Inbox(sb, l.far), Outbox(client.log, l.near), id, w);
  }

  /** Sums that bound each other term by term and are equal are equal term by term. */
  lemma {:induction false} Squeeze(asked: seq<OutReq>, ca: seq<Event>, links: seq<Link>, id: int)
    requires forall i :: 0 <= i < |links| ==> Heard(ca, links[i].near, id) <= CountOn(asked, links[i].near)
    ensures HeardOver(ca, links, id) <= CountOver(asked, links)
    ensures HeardOver(ca, links, id) == CountOver(asked, links) ==>
              forall i :: 0 <= i < |links| ==> Heard(ca, links[i].near, id) == CountOn(asked, links[i].near)
  {
    if links != [] {
      var rest := links[1..];
      assert forall i :: 0 <= i < |rest| ==> rest[i] == links[i+1];
      Squeeze(asked, ca, rest, id);
      assert Heard(ca, links[0].near, id) <= CountOn(asked, links[0].near);
    }
  }

  /** The client's own bookkeeping suffices: for any runs of the two agents over
      any number of connections between them, with an id requested once, a job
      with nothing outstanding - in particular one announced by JOB_GRANTED, see
      Runs.AnnouncedExactly - has had each share that its JOB_REQUEST asks of the
      server reserved there, with its resource and amount, and granted, although
      GRANTED names neither. */
  lemma GrantedIsGranted(a: Setup, ca: seq<Event>, b: Setup, sb: seq<Event>, links: seq<Link>, h: string, id: int)
    requires LawfulRun(a.Init(), ca) && LawfulRun(b.Init(), sb)
    requires Distinct(links) && AllDialTo(ca, Nears(links), h) && TimesRequested(ca, id) <= 1
    requires forall i :: 0 <= i < |links| ==> Fifo(After(a.Init(), ca), ca, After(b.Init(), sb), sb, links[i])
    requires id in After(a.Init(), ca).jobs && Ready(After(a.Init(), ca).jobs[id])
    ensures var s := a.Init(); var qs, conns := Wishes(s, ca, id), OnEntry(s, ca, id);
            && (forall q :: q in qs && Clip(q.host, 14) == h ==> TargetIn(q, conns, Nears(links)))
            && forall i :: 0 <= i < |links| ==> Honoured(After(s, ca), After(b.Init(), sb), sb, links[i], id, qs, conns)
  {
    var s := a.Init();
    var client, server := After(s, ca), After(b.Init(), sb);
    var asked, qs, conns := Entered(s, ca, id), Wishes(s, ca, id), OnEntry(s, ca, id);
    AskedCounts(a, ca, id, Nears(links), h);
    WishesRouted(a, ca, id, Nears(links), h);
    AllHeard(a, ca, b, sb, links, h, id);
    forall i | 0 <= i < |links| ensures Honoured(client, server, sb, links[i], id, qs, conns) {
      var l := links[i];
      Chain(a, ca, b, sb, l, id);
      assert Heard(ca, l.near, id) == CountOn(asked, l.near);
      assert forall v :: Tallied(s, ca, id, asked, l.near, v);
      forall w ensures Delivered(client, sb, l, id, qs, conns, w) {
        HeardDelivers(a, ca, b, sb, l, id, asked, w);
        assert CountAs(asked, l.near, w) == AskedOn(qs, conns, l.near, w);
      }
      HeardDelivers(a, ca, b, sb, l, id, asked, Any);
      InboxCounts(sb, l.far, id);
      CountAsAny(asked, l.near, Any);
    }
  }

  /** A job with nothing outstanding has heard on every connection as many GRANTEDs
      as it asked shares there. */
  lemma AllHeard(a: Setup, ca: seq<Event>, b: Setup, sb: seq<Event>, links: seq<Link>, h: string, id: int)
    requires LawfulRun(a.Init(), ca) && LawfulRun(b.Init(), sb)
    requires Distinct(links) && AllDialTo(ca, Nears(links), h) && TimesRequested(ca, id) <= 1
    requires forall i :: 0 <= i < |links| ==> Fifo(After(a.Init(), ca), ca, After(b.Init(), sb), sb, links[i])
    requires id in After(a.Init(), ca).jobs && Ready(After(a.Init(), ca).jobs[id])
    ensures var asked := Entered(a.Init(), ca, id);
            && (forall i :: 0 <= i < |links| ==> Heard(ca, links[i].near, id) == CountOn(asked, links[i].near))
            && forall k, w :: Tallied(a.Init(), ca, id, asked, k, w)
  {
    var asked := Entered(a.Init(), ca, id);
    EnteredCount(a, ca, id, Nears(links), h);
    ConsumedHeard(a, ca, id, links, h);
    CountOverIs(asked, links);
    forall i | 0 <= i < |links| ensures Heard(ca, links[i].near, id) <= CountOn(asked, links[i].near) {
      Chain(a, ca, b, sb, links[i], id);
      assert Tallied(a.Init(), ca, id, asked, links[i].near, Any);
      CountAsAny(asked, links[i].near, Any);
    }
    Squeeze(asked, ca, links, id);
  }
}
