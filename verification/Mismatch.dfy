/** GRANTED is matched to a request by host alone. If the client is still dialling
    a second connection to that host, it may confirm the request that waits for
    it, and the RESERVE of that request is never sent. */
module Mismatch {
  import opened Types
  import opened Seqs
  import opened Allocator
  import opened Ledger
  import opened Handlers
  import opened Requests
  import opened Wiring
  import opened Runs
  import opened Reservation
  import CT = ConnTable

  // ---------------------------------------------------------------- a run in which it happens

  ghost function TwoShares(): seq<Req> {
    [Req("B", Cpu, 1, Some(Peer(1))), Req("B", Mem, 1, Some(Peer(2)))]
  }

  ghost function CpuAsk(): OutReq { OutReq("B", Peer(1), Cpu, 1, Some(Reserve(1, Cpu, 1))) }
  ghost function MemAsk(): OutReq { OutReq("B", Peer(2), Mem, 1, Some(Reserve(1, Mem, 1))) }

  ghost function Start(): State { Boot("A", 1, 1, 1) }

  ghost function Requesting(): State {
    Start().(jobs := map[1 := Job(1, Planner(0), [], [MemAsk(), CpuAsk()])])
  }

  ghost function Opened(): State {
    Requesting().(conns := CT.Insert(CT.EmptyTable(), "B", Peer(1)), log := [Out(Peer(1), Reserve(1, Cpu, 1))])
  }

  ghost function Confirmed(): State {
    Opened().(jobs := map[1 := Job(1, Planner(0), [Alloc(Mem, 1, Remote, "B", 1, RmGranted, Peer(2))], [CpuAsk()])])
  }

  lemma EmptyLookup(host: string)
    ensures CT.Lookup(CT.EmptyTable(), host) == None
    ensures forall k :: !CT.Mentions(CT.EmptyTable(), k)
  {}

  lemma RequestStep()
    ensures OnJobRequest(Start(), Planner(0), 1, TwoShares()) == Requesting()
  {
    var s, reqs := Start(), TwoShares();
    EmptyLookup("B");
    var j0 := Job(1, Planner(0), [], []);
    var j1 := Ask(j0, reqs[0], Peer(1), Some(Reserve(1, Cpu, 1)));
    var j2 := Ask(j1, reqs[1], Peer(2), Some(Reserve(1, Mem, 1)));
    assert "A"[0] != "B"[0];
    assert Clip("B", 14) == "B";
    assert j1.pending == [CpuAsk()] && j2.pending == [MemAsk(), CpuAsk()];
    assert reqs[1..][1..] == [];
    assert Build(s, j2, []) == Built(s, j2);
    assert Build(s, j1, reqs[1..]) == Built(s, j2);
    assert Build(s, j0, reqs) == Built(s, j2);
  }

  lemma OpenStep()
    ensures OnConnReady(Requesting(), Peer(1), [1]) == Opened()
  {
    var s := Requesting();
    var ps := s.jobs[1].pending;
    assert ps[1..] == [CpuAsk()] && [CpuAsk()][1..] == [];
    assert OnConn([CpuAsk()], Peer(1)) == [CpuAsk()];
    assert OnConn(ps, Peer(1)) == [CpuAsk()];
    assert [1][1..] == [] && Awaiting(s.jobs, [], Peer(1)) == [];
    assert Awaiting(s.jobs, [1], Peer(1)) == [CpuAsk()];
    var t := s.(conns := CT.Insert(s.conns, "B", Peer(1))).Send(Peer(1), Reserve(1, Cpu, 1));
    assert Open(t, Peer(1), []) == t;
    assert s.log + [Out(Peer(1), Reserve(1, Cpu, 1))] == [Out(Peer(1), Reserve(1, Cpu, 1))];
  }

  lemma {:induction false} HostFromSkip(t: seq<seq<CT.Entry>>, k: Conn, i: nat)
    requires i < |t| && t[i] != [] && t[i][0].conn == k && forall n :: 0 <= n < i ==> t[n] == []
    ensures CT.HostFrom(t, k) == Some(t[i][0].host)
  {
    if i > 0 { HostFromSkip(t[1..], k, i - 1); }
  }

  lemma ConfirmStep()
    ensures OnGranted(Opened(), Peer(1), 1) == Confirmed()
  {
    var s := Opened();
    HostFromSkip(s.conns, Peer(1), CT.Bucket("B"));
    assert CT.HostOf(s.conns, Peer(1)) == Some("B");
    var ps := s.jobs[1].pending;
    assert FindHost(ps, "B") == 0;
    assert ps[..0] + ps[1..] == [CpuAsk()];
    var a := Alloc(Mem, 1, Remote, "B", 1, RmGranted, Peer(2));
    assert [a] + s.jobs[1].confirmed == [a];
  }

  lemma NothingHappens()
    ensures OnConnReady(Confirmed(), Peer(2), [1]) == Confirmed()
  {
    var s := Confirmed();
    var ps := s.jobs[1].pending;
    assert ps[1..] == [];
    assert OnConn(ps, Peer(2)) == [];
    assert [1][1..] == [] && Awaiting(s.jobs, [], Peer(2)) == [];
    assert Awaiting(s.jobs, [1], Peer(2)) == [];
  }

  lemma RequestLawful()
    ensures Lawful(Start(), EvJobRequest(Planner(0), 1, TwoShares()))
  {
    EmptyLookup("B");
    assert "A"[0] != "B"[0];
    assert FreshDials(Start(), TwoShares());
    assert RequestOk(Start().ip, TwoShares());
  }

  lemma OpensLawful()
    ensures Feasible(Requesting(), EvConnReady(Peer(1), [1])) && Lawful(Requesting(), EvConnReady(Peer(1), [1]))
    ensures Feasible(Confirmed(), EvConnReady(Peer(2), [1])) && Lawful(Confirmed(), EvConnReady(Peer(2), [1]))
  {
    EmptyLookup("B");
    InsertMentions(CT.EmptyTable(), "B", Peer(1), Peer(2));
  }

  ghost function Events(): seq<Event> {
    [] + [EvJobRequest(Planner(0), 1, TwoShares())] + [EvConnReady(Peer(1), [1])] + [EvGranted(Peer(1), 1)]
       + [EvConnReady(Peer(2), [1])]
  }

  lemma RunLawful()
    ensures LawfulRun(Start(), Events()) && After(Start(), Events()) == Confirmed()
  {
    var s := Start();
    var e1 := [] + [EvJobRequest(Planner(0), 1, TwoShares())];
    var e2 := e1 + [EvConnReady(Peer(1), [1])];
    var e3 := e2 + [EvGranted(Peer(1), 1)];
    RequestLawful();
    RequestStep();
    RunStep(s, [], EvJobRequest(Planner(0), 1, TwoShares()));
    OpensLawful();
    OpenStep();
    RunStep(s, e1, EvConnReady(Peer(1), [1]));
    ConfirmStep();
    RunStep(s, e2, EvGranted(Peer(1), 1));
    NothingHappens();
    RunStep(s, e3, EvConnReady(Peer(2), [1]));
  }

  lemma LosesIt()
    ensures Loses(Opened(), EvGranted(Peer(1), 1), 1, Peer(2))
  {
    HostFromSkip(Opened().conns, Peer(1), CT.Bucket("B"));
    assert FindHost(Opened().jobs[1].pending, "B") == 0;
    InsertMentions(CT.EmptyTable(), "B", Peer(1), Peer(2));
  }

  lemma NothingUnsent(k: Conn)
    ensures Unsent(Confirmed(), 1, k, Any) == 0
  {
    InsertMentions(CT.EmptyTable(), "B", Peer(1), k);
    var ps := Confirmed().jobs[1].pending;
    assert ps == [CpuAsk()] && ps[1..] == [];
    assert CountOn(ps, k) == if k == Peer(1) then 1 else 0;
    CountAsAny(ps, k, Any);
  }

  /** A job that asks one host for two resources before any connection to it is
      open: the answer to the first reservation arrives before the second
      connection opens, confirms the other share, and the reservation of that
      share is never issued. The job is not announced, and no answer is due. */
  lemma LostReserve()
    ensures LawfulRun(Start(), Events())
    ensures var t := After(Start(), Events());
            && 1 in t.jobs && !Ready(t.jobs[1]) && t.jobs[1].pending == [CpuAsk()]
            && t.log == [Out(Peer(1), Reserve(1, Cpu, 1))]
            && (forall k :: Unsent(t, 1, k, Any) == 0)
    ensures Loses(Opened(), EvGranted(Peer(1), 1), 1, Peer(2))
  {
    RunLawful();
    LosesIt();
    forall k ensures Unsent(Confirmed(), 1, k, Any) == 0 { NothingUnsent(k); }
  }
}
