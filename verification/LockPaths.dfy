/** The mutexes that every handler of the agent takes and releases and the data it
    uses in between, path by path with the early returns, and the discipline they
    all keep. */
module LockPaths {
  import opened Types
  import opened Locks

  function Do3(p: Prog, q: Prog, r: Prog): Prog { Then(p, Then(q, r)) }
  function Do4(p: Prog, q: Prog, r: Prog, s: Prog): Prog { Then(p, Do3(q, r, s)) }
  function Do5(p: Prog, q: Prog, r: Prog, s: Prog, t: Prog): Prog { Then(p, Do4(q, r, s, t)) }

  function Maybe(p: Prog): Prog { Either(p, Skip) }

  function When(flag: bool, p: Prog): Prog { if flag then p else Skip }

  /** Data used with its mutex locked around it. */
  function Around(x: Data): Prog { Do3(Lock(Guard(x)), Touch(x), Unlock(Guard(x))) }

  // ---------------------------------------------------------------- shared procedures

  /** limpiar_colas_por_id and limpiar_colas_por_conn. */
  function PurgeQueues(): Prog { Do3(Around(Stock(Cpu)), Around(Stock(Mem)), Around(Stock(Gpu))) }

  function ReserveResource(r: Res): Prog { Around(Stock(r)) }

  function Leave(r: Res, takeLock: bool): Prog { Then(Unlock(Counter(r)), When(takeLock, Unlock(Table))) }

  /** One turn of the drain: the head leaves the queue, its job is marked and looked
      at, and an answer may go out. */
  function GrantOne(r: Res): Prog { Do3(Touch(Stock(r)), Touch(Jobs), Maybe(Post)) }

  /** release_resource: the refused release returns before the drain, whose
      turns may send a message with both mutexes held. */
  function ReleaseResource(r: Res, takeLock: bool): Prog {
    Do4(When(takeLock, Lock(Table)), Lock(Counter(r)), Touch(Stock(r)),
        Either(Leave(r, takeLock), Then(Repeat(GrantOne(r)), Leave(r, takeLock))))
  }

  function ReserveAny(): Prog { Either(ReserveResource(Cpu), Either(ReserveResource(Mem), ReserveResource(Gpu))) }

  function ReleaseAny(takeLock: bool): Prog {
    Either(ReleaseResource(Cpu, takeLock), Either(ReleaseResource(Mem, takeLock), ReleaseResource(Gpu, takeLock)))
  }

  /** tabla_conns_lookup, and a RELEASE to the connection found. */
  function TellPeer(): Prog { Then(Around(Registered), Maybe(Post)) }

  /** The loop that gives back a job's shares. */
  function ReturnShares(takeLock: bool): Prog { Repeat(Either(ReleaseAny(takeLock), Maybe(TellPeer()))) }

  /** tabla_jobs_remove. */
  function RemoveJob(takeLock: bool, takeLockReserve: bool): Prog {
    Do4(When(takeLock, Lock(Table)), Touch(Jobs), When(takeLock, Unlock(Table)), ReturnShares(takeLockReserve))
  }

  // ---------------------------------------------------------------- process_message

  function OnReserve(): Prog { Maybe(Then(ReserveAny(), Maybe(Post))) }

  function OnRelease(): Prog { Maybe(Do3(Maybe(ReleaseAny(true)), RemoveJob(true, true), PurgeQueues())) }

  /** The host found in the table is compared after its mutex is unlocked. */
  function OnGranted(): Prog {
    Maybe(Then(Around(Registered),
               Maybe(Do3(Lock(Table), Touch(Jobs),
                         Either(Do4(Post, Post, Post, Unlock(Table)),
                                Do3(Peek(Registered), Maybe(Post), Unlock(Table)))))))
  }

  function OnDenied(): Prog {
    Maybe(Do5(Lock(Table), Touch(Jobs), Maybe(Then(RemoveJob(false, false), Post)), PurgeQueues(), Unlock(Table)))
  }

  /** A request of the list that is served, locally or by a peer known or dialled. */
  function OneRequest(): Prog { Either(ReserveAny(), Then(Around(Registered), Either(Post, Around(Known)))) }

  /** A request that is not: refused here, or its host cannot be reached. */
  function BadRequest(): Prog { Either(ReserveAny(), Then(Around(Registered), Around(Known))) }

  function OnJobRequest(): Prog {
    Maybe(Do3(Lock(Table), Touch(Jobs),
              Either(Unlock(Table),
                     Then(Repeat(OneRequest()),
                          Either(Do5(BadRequest(), PurgeQueues(), ReturnShares(false), Unlock(Table), Post),
                                 Do3(Touch(Jobs), Maybe(Post), Unlock(Table)))))))
  }

  function OnGetNodes(): Prog { Then(Around(Known), Post) }

  function OnJobRelease(): Prog {
    Maybe(Do3(Lock(Table), Touch(Jobs),
              Either(Unlock(Table),
                     Do3(Unlock(Table),
                         Repeat(Either(ReleaseAny(true), Then(PurgeQueues(), Maybe(Post)))),
                         PurgeQueues()))))
  }

  function OnJobStatus(): Prog { Maybe(Then(Around(Jobs), Post)) }

  function OnJobTimeout(): Prog { Maybe(Then(RemoveJob(true, true), PurgeQueues())) }

  /** print_manager reads the counters without their mutexes; a handler that returns
      early skips it. */
  function PrintManager(): Prog { Do3(Peek(Stock(Cpu)), Peek(Stock(Mem)), Peek(Stock(Gpu))) }

  function Handler(): Prog {
    Either(Either(Either(OnReserve(), OnRelease()), Either(OnGranted(), OnDenied())),
           Either(Either(OnJobRequest(), OnGetNodes()), Either(OnJobRelease(), Either(OnJobStatus(), OnJobTimeout()))))
  }

  function ProcessMessage(): Prog { Then(Handler(), Maybe(PrintManager())) }

  // ---------------------------------------------------------------- connections and workers

  /** tabla_jobs_extract_by_remote_conn and what its callers do with the jobs. */
  function AbandonJobs(): Prog { Then(Around(Jobs), Repeat(Then(PurgeQueues(), ReturnShares(true)))) }

  function ProcessDisconnect(): Prog { Do3(PurgeQueues(), AbandonJobs(), Around(Registered)) }

  function ConnectionReady(): Prog { Do4(Lock(Table), Touch(Jobs), Repeat(Then(Around(Registered), Post)),
      Unlock(Table)) }

  /** handle_tcp_read: the buffer is filled and later compacted under write_mutex,
      and the messages are processed in between without it. */
  function TcpRead(): Prog { Then(Post, Either(Maybe(ProcessDisconnect()), Then(Repeat(ProcessMessage()), Post))) }

  function TcpWrite(): Prog { Then(Post, Maybe(ProcessDisconnect())) }

  function OutgoingEvent(): Prog { Either(AbandonJobs(), ConnectionReady()) }

  function UdpRead(): Prog { Repeat(Maybe(Around(Known))) }

  /** The treatment of one event in worker_thread_loop. */
  function OneEvent(): Prog {
    Then(Post,
         Either(ProcessDisconnect(),
                Do3(Maybe(Either(TcpRead(), UdpRead())),
                    Maybe(Either(TcpWrite(), OutgoingEvent())),
                    Maybe(Then(Post, Maybe(ProcessDisconnect()))))))
  }

  function Worker(): Prog { Repeat(OneEvent()) }

  /** broadcast_loop, which expires the nodes. */
  function Broadcaster(): Prog { Repeat(Around(Known)) }

  // ---------------------------------------------------------------- they keep the discipline

  /** A program that keeps the discipline and leaves the held mutexes as they were. */
  ghost predicate Keeps(p: Prog, held: set<Lock>) { Check(p, held) == Some(held) }

  /** What is held where the procedures are called: nothing, or the job table. */
  ghost predicate Low(held: set<Lock>) { held == {} || held == {Table} }

  /** From holding some mutexes to holding others. */
  ghost predicate Goes(p: Prog, a: set<Lock>, b: set<Lock>) { Check(p, a) == Some(b) }

  lemma Seq2(p: Prog, q: Prog, a: set<Lock>, b: set<Lock>, c: set<Lock>)
    requires Goes(p, a, b) && Goes(q, b, c)
    ensures Goes(Then(p, q), a, c)
  {}

  lemma Seq3(p: Prog, q: Prog, r: Prog, a: set<Lock>, b: set<Lock>, c: set<Lock>, d: set<Lock>)
    requires Goes(p, a, b) && Goes(q, b, c) && Goes(r, c, d)
    ensures Goes(Do3(p, q, r), a, d)
  {
    Seq2(q, r, b, c, d);
    Seq2(p, Then(q, r), a, b, d);
  }

  lemma Seq4(p: Prog, q: Prog, r: Prog, t: Prog, a: set<Lock>, b: set<Lock>, c: set<Lock>, d: set<Lock>, e: set<Lock>)
    requires Goes(p, a, b) && Goes(q, b, c) && Goes(r, c, d) && Goes(t, d, e)
    ensures Goes(Do4(p, q, r, t), a, e)
  {
    Seq3(q, r, t, b, c, d, e);
    Seq2(p, Do3(q, r, t), a, b, e);
  }

  lemma Branch(p: Prog, q: Prog, a: set<Lock>, b: set<Lock>)
    requires Goes(p, a, b) && Goes(q, a, b)
    ensures Goes(Either(p, q), a, b)
  {}

  /** What may be left out, or done over and over. */
  lemma Optional(p: Prog, held: set<Lock>)
    requires Keeps(p, held)
    ensures Keeps(Maybe(p), held) && Keeps(Repeat(p), held)
  {}

  lemma Both(p: Prog, q: Prog, held: set<Lock>)
    requires Keeps(p, held) && Keeps(q, held)
    ensures Keeps(Then(p, q), held) && Keeps(Either(p, q), held)
  {}

  lemma All3(p: Prog, q: Prog, r: Prog, held: set<Lock>)
    requires Keeps(p, held) && Keeps(q, held) && Keeps(r, held)
    ensures Keeps(Do3(p, q, r), held) && Keeps(Either(p, Either(q, r)), held)
  {
    Both(q, r, held);
    Both(p, Then(q, r), held);
    Both(p, Either(q, r), held);
  }

  lemma AroundKeeps(x: Data, held: set<Lock>)
    requires Above(Guard(x), held)
    ensures Keeps(Around(x), held)
  {
    assert held + {Guard(x)} - {Guard(x)} == held;
    Seq3(Lock(Guard(x)), Touch(x), Unlock(Guard(x)), held, held + {Guard(x)}, held + {Guard(x)}, held);
  }

  lemma PostKeeps(held: set<Lock>)
    requires forall k :: k in held ==> Rank(k) < 2
    ensures Keeps(Post, held) && Keeps(Maybe(Post), held)
  {
    Optional(Post, held);
  }

  lemma PurgeKeeps(held: set<Lock>)
    requires Low(held)
    ensures Keeps(PurgeQueues(), held) && Keeps(ReserveAny(), held)
  {
    AroundKeeps(Stock(Cpu), held);
    AroundKeeps(Stock(Mem), held);
    AroundKeeps(Stock(Gpu), held);
    All3(Around(Stock(Cpu)), Around(Stock(Mem)), Around(Stock(Gpu)), held);
  }

  /** The job table's mutex, taken and dropped by the procedure if the caller does not hold it. */
  lemma OptionalTable(take: bool, held: set<Lock>)
    requires held == if take then {} else {Table}
    ensures Goes(When(take, Lock(Table)), held, {Table}) && Goes(When(take, Unlock(Table)), {Table}, held)
  {
    assert {} + {Table} == {Table};
    assert {Table} - {Table} == {};
  }

  lemma LeaveKeeps(r: Res, takeLock: bool, held: set<Lock>)
    requires held == if takeLock then {} else {Table}
    ensures Goes(Leave(r, takeLock), {Table, Counter(r)}, held)
  {
    assert {Table, Counter(r)} - {Counter(r)} == {Table};
    OptionalTable(takeLock, held);
    Seq2(Unlock(Counter(r)), When(takeLock, Unlock(Table)), {Table, Counter(r)}, {Table}, held);
  }

  lemma GrantOneKeeps(r: Res)
    ensures Keeps(GrantOne(r), {Table, Counter(r)})
  {
    PostKeeps({Table, Counter(r)});
    All3(Touch(Stock(r)), Touch(Jobs), Maybe(Post), {Table, Counter(r)});
  }

  lemma ReleaseOneKeeps(r: Res, takeLock: bool, held: set<Lock>)
    requires held == if takeLock then {} else {Table}
    ensures Keeps(ReleaseResource(r, takeLock), held)
  {
    var both := {Table, Counter(r)};
    var leave := Leave(r, takeLock);
    LeaveKeeps(r, takeLock, held);
    GrantOneKeeps(r);
    Optional(GrantOne(r), both);
    Seq2(Repeat(GrantOne(r)), leave, both, both, held);
    Branch(leave, Then(Repeat(GrantOne(r)), leave), both, held);
    OptionalTable(takeLock, held);
    assert {Table} + {Counter(r)} == both;
    Seq4(When(takeLock, Lock(Table)), Lock(Counter(r)), Touch(Stock(r)),
         Either(leave, Then(Repeat(GrantOne(r)), leave)), held, {Table}, both, both, held);
  }

  lemma ReleaseKeeps(takeLock: bool, held: set<Lock>)
    requires held == if takeLock then {} else {Table}
    ensures Keeps(ReleaseAny(takeLock), held)
  {
    ReleaseOneKeeps(Cpu, takeLock, held);
    ReleaseOneKeeps(Mem, takeLock, held);
    ReleaseOneKeeps(Gpu, takeLock, held);
    All3(ReleaseResource(Cpu, takeLock), ReleaseResource(Mem, takeLock), ReleaseResource(Gpu, takeLock), held);
  }

  lemma ReturnKeeps(takeLock: bool, held: set<Lock>)
    requires held == if takeLock then {} else {Table}
    ensures Keeps(ReturnShares(takeLock), held)
  {
    ReleaseKeeps(takeLock, held);
    AroundKeeps(Registered, held);
    PostKeeps(held);
    Both(Around(Registered), Maybe(Post), held);
    Optional(TellPeer(), held);
    Both(ReleaseAny(takeLock), Maybe(TellPeer()), held);
    Optional(Either(ReleaseAny(takeLock), Maybe(TellPeer())), held);
  }

  lemma RemoveKeeps(takeLock: bool, held: set<Lock>)
    requires held == if takeLock then {} else {Table}
    ensures Keeps(RemoveJob(takeLock, takeLock), held)
  {
    ReturnKeeps(takeLock, held);
    OptionalTable(takeLock, held);
    Seq4(When(takeLock, Lock(Table)), Touch(Jobs), When(takeLock, Unlock(Table)), ReturnShares(takeLock),
         held, {Table}, {Table}, held, held);
  }

  /** Code under the job table's mutex, which it drops by itself. */
  lemma TableThen(p: Prog)
    requires Goes(p, {Table}, {})
    ensures Keeps(Do3(Lock(Table), Touch(Jobs), p), {}) && Keeps(Maybe(Do3(Lock(Table), Touch(Jobs), p)), {})
  {
    assert {} + {Table} == {Table};
    Seq3(Lock(Table), Touch(Jobs), p, {}, {Table}, {Table}, {});
    Optional(Do3(Lock(Table), Touch(Jobs), p), {});
  }

  lemma TableEnds()
    ensures Goes(Unlock(Table), {Table}, {})
  {
    assert {Table} - {Table} == {};
  }

  lemma PeerMessagesKeep()
    ensures Keeps(OnReserve(), {}) && Keeps(OnRelease(), {})
  {
    PurgeKeeps({});
    PostKeeps({});
    Both(ReserveAny(), Maybe(Post), {});
    Optional(Then(ReserveAny(), Maybe(Post)), {});
    ReleaseKeeps(true, {});
    Optional(ReleaseAny(true), {});
    RemoveKeeps(true, {});
    All3(Maybe(ReleaseAny(true)), RemoveJob(true, true), PurgeQueues(), {});
    Optional(Do3(Maybe(ReleaseAny(true)), RemoveJob(true, true), PurgeQueues()), {});
  }

  lemma GrantedKeeps()
    ensures Keeps(OnGranted(), {})
  {
    var lost := Do4(Post, Post, Post, Unlock(Table));
    var found := Do3(Peek(Registered), Maybe(Post), Unlock(Table));
    PostKeeps({Table});
    TableEnds();
    Seq4(Post, Post, Post, Unlock(Table), {Table}, {Table}, {Table}, {Table}, {});
    Seq3(Peek(Registered), Maybe(Post), Unlock(Table), {Table}, {Table}, {Table}, {});
    Branch(lost, found, {Table}, {});
    TableThen(Either(lost, found));
    AroundKeeps(Registered, {});
    var known := Maybe(Do3(Lock(Table), Touch(Jobs), Either(lost, found)));
    Both(Around(Registered), known, {});
    Optional(Then(Around(Registered), known), {});
  }

  lemma DeniedKeeps()
    ensures Keeps(OnDenied(), {})
  {
    var found := Then(RemoveJob(false, false), Post);
    RemoveKeeps(false, {Table});
    PostKeeps({Table});
    Both(RemoveJob(false, false), Post, {Table});
    Optional(found, {Table});
    PurgeKeeps({Table});
    TableEnds();
    Seq3(Maybe(found), PurgeQueues(), Unlock(Table), {Table}, {Table}, {Table}, {});
    TableThen(Do3(Maybe(found), PurgeQueues(), Unlock(Table)));
  }

  lemma RequestsKeep()
    ensures Keeps(OneRequest(), {Table}) && Keeps(BadRequest(), {Table})
  {
    PurgeKeeps({Table});
    PostKeeps({Table});
    AroundKeeps(Registered, {Table});
    AroundKeeps(Known, {Table});
    Both(Post, Around(Known), {Table});
    Both(Around(Registered), Either(Post, Around(Known)), {Table});
    Both(Around(Registered), Around(Known), {Table});
    Both(ReserveAny(), Then(Around(Registered), Either(Post, Around(Known))), {Table});
    Both(ReserveAny(), Then(Around(Registered), Around(Known)), {Table});
  }

  /** A refused request, and one that was served to the end. */
  lemma OutcomesKeep()
    ensures Goes(Do5(BadRequest(), PurgeQueues(), ReturnShares(false), Unlock(Table), Post), {Table}, {})
    ensures Goes(Do3(Touch(Jobs), Maybe(Post), Unlock(Table)), {Table}, {})
  {
    RequestsKeep();
    PurgeKeeps({Table});
    ReturnKeeps(false, {Table});
    PostKeeps({Table});
    PostKeeps({});
    TableEnds();
    Seq4(PurgeQueues(), ReturnShares(false), Unlock(Table), Post, {Table}, {Table}, {Table}, {}, {});
    Seq2(BadRequest(), Do4(PurgeQueues(), ReturnShares(false), Unlock(Table), Post), {Table}, {Table}, {});
    Seq3(Touch(Jobs), Maybe(Post), Unlock(Table), {Table}, {Table}, {Table}, {});
  }

  lemma JobRequestKeeps()
    ensures Keeps(OnJobRequest(), {})
  {
    var refused := Do5(BadRequest(), PurgeQueues(), ReturnShares(false), Unlock(Table), Post);
    var done := Do3(Touch(Jobs), Maybe(Post), Unlock(Table));
    OutcomesKeep();
    RequestsKeep();
    Optional(OneRequest(), {Table});
    TableEnds();
    Branch(refused, done, {Table}, {});
    Seq2(Repeat(OneRequest()), Either(refused, done), {Table}, {Table}, {});
    var served := Then(Repeat(OneRequest()), Either(refused, done));
    Branch(Unlock(Table), served, {Table}, {});
    TableThen(Either(Unlock(Table), served));
  }

  lemma JobReleaseKeeps()
    ensures Keeps(OnJobRelease(), {})
  {
    ReleaseKeeps(true, {});
    PurgeKeeps({});
    PostKeeps({});
    TableEnds();
    var share := Either(ReleaseAny(true), Then(PurgeQueues(), Maybe(Post)));
    Both(PurgeQueues(), Maybe(Post), {});
    Both(ReleaseAny(true), Then(PurgeQueues(), Maybe(Post)), {});
    Optional(share, {});
    Seq3(Unlock(Table), Repeat(share), PurgeQueues(), {Table}, {}, {}, {});
    var rest := Do3(Unlock(Table), Repeat(share), PurgeQueues());
    Branch(Unlock(Table), rest, {Table}, {});
    TableThen(Either(Unlock(Table), rest));
  }

  lemma PlannerMessagesKeep()
    ensures Keeps(OnGetNodes(), {}) && Keeps(OnJobStatus(), {}) && Keeps(OnJobTimeout(), {})
  {
    PostKeeps({});
    AroundKeeps(Known, {});
    Both(Around(Known), Post, {});
    AroundKeeps(Jobs, {});
    Both(Around(Jobs), Post, {});
    Optional(Then(Around(Jobs), Post), {});
    RemoveKeeps(true, {});
    PurgeKeeps({});
    Both(RemoveJob(true, true), PurgeQueues(), {});
    Optional(Then(RemoveJob(true, true), PurgeQueues()), {});
  }

  lemma HandlersKeep()
    ensures Keeps(Handler(), {})
  {
    PeerMessagesKeep();
    GrantedKeeps();
    DeniedKeeps();
    JobRequestKeeps();
    JobReleaseKeeps();
    PlannerMessagesKeep();
    AnyHandler(OnReserve(), OnRelease(), OnGranted(), OnDenied(),
               Either(OnJobRequest(), OnGetNodes()), OnJobRelease(), OnJobStatus(), OnJobTimeout());
  }

  lemma AnyHandler(a: Prog, b: Prog, c: Prog, d: Prog, e: Prog, f: Prog, g: Prog, h: Prog)
    requires Keeps(a, {}) && Keeps(b, {}) && Keeps(c, {}) && Keeps(d, {})
    requires Keeps(e, {}) && Keeps(f, {}) && Keeps(g, {}) && Keeps(h, {})
    ensures Keeps(Either(Either(Either(a, b), Either(c, d)), Either(e, Either(f, Either(g, h)))), {})
  {
    Both(a, b, {});
    Both(c, d, {});
    Both(Either(a, b), Either(c, d), {});
    All3(f, g, h, {});
    Both(e, Either(f, Either(g, h)), {});
    Both(Either(Either(a, b), Either(c, d)), Either(e, Either(f, Either(g, h))), {});
  }

  lemma MessageKeeps()
    ensures Keeps(ProcessMessage(), {})
  {
    HandlersKeep();
    All3(Peek(Stock(Cpu)), Peek(Stock(Mem)), Peek(Stock(Gpu)), {});
    Optional(PrintManager(), {});
    Both(Handler(), Maybe(PrintManager()), {});
  }

  lemma ConnectionsKeep()
    ensures Keeps(ProcessDisconnect(), {}) && Keeps(AbandonJobs(), {}) && Keeps(ConnectionReady(), {})
  {
    PurgeKeeps({});
    ReturnKeeps(true, {});
    Both(PurgeQueues(), ReturnShares(true), {});
    Optional(Then(PurgeQueues(), ReturnShares(true)), {});
    AroundKeeps(Jobs, {});
    Both(Around(Jobs), Repeat(Then(PurgeQueues(), ReturnShares(true))), {});
    AroundKeeps(Registered, {});
    All3(PurgeQueues(), AbandonJobs(), Around(Registered), {});
    AroundKeeps(Registered, {Table});
    PostKeeps({Table});
    TableEnds();
    var open := Then(Around(Registered), Post);
    Both(Around(Registered), Post, {Table});
    Optional(open, {Table});
    Seq2(Repeat(open), Unlock(Table), {Table}, {Table}, {});
    TableThen(Then(Repeat(open), Unlock(Table)));
  }

  lemma ReadsKeep()
    ensures Keeps(TcpRead(), {}) && Keeps(TcpWrite(), {}) && Keeps(UdpRead(), {}) && Keeps(OutgoingEvent(), {})
  {
    MessageKeeps();
    ConnectionsKeep();
    PostKeeps({});
    Optional(ProcessDisconnect(), {});
    Optional(ProcessMessage(), {});
    Both(Repeat(ProcessMessage()), Post, {});
    Both(Maybe(ProcessDisconnect()), Then(Repeat(ProcessMessage()), Post), {});
    Both(Post, Either(Maybe(ProcessDisconnect()), Then(Repeat(ProcessMessage()), Post)), {});
    Both(Post, Maybe(ProcessDisconnect()), {});
    AroundKeeps(Known, {});
    Optional(Around(Known), {});
    Optional(Maybe(Around(Known)), {});
    Both(AbandonJobs(), ConnectionReady(), {});
  }

  lemma WorkerKeeps()
    ensures Keeps(Worker(), {}) && Keeps(Broadcaster(), {})
  {
    ReadsKeep();
    ConnectionsKeep();
    PostKeeps({});
    var hungUp := Then(Post, Maybe(ProcessDisconnect()));
    Both(TcpRead(), UdpRead(), {});
    Optional(Either(TcpRead(), UdpRead()), {});
    Both(TcpWrite(), OutgoingEvent(), {});
    Optional(Either(TcpWrite(), OutgoingEvent()), {});
    Optional(hungUp, {});
    All3(Maybe(Either(TcpRead(), UdpRead())), Maybe(Either(TcpWrite(), OutgoingEvent())), Maybe(hungUp), {});
    var treated := Do3(Maybe(Either(TcpRead(), UdpRead())), Maybe(Either(TcpWrite(), OutgoingEvent())), Maybe(hungUp));
    Both(ProcessDisconnect(), treated, {});
    Both(Post, Either(ProcessDisconnect(), treated), {});
    Optional(OneEvent(), {});
    AroundKeeps(Known, {});
    Optional(Around(Known), {});
  }

  /** Any number of workers and broadcasters. */
  ghost predicate Started(ts: seq<Thread>) {
    forall i :: 0 <= i < |ts| ==> ts[i] == Thread([Worker()], {}) || ts[i] == Thread([Broadcaster()], {})
  }

  lemma StartedGood(ts: seq<Thread>)
    requires Started(ts)
    ensures Good(ts)
  {
    WorkerKeeps();
    forall i | 0 <= i < |ts| ensures Orderly(ts[i]) {
      assert ts[i].todo[1..] == [];
      assert CheckAll([], {}) == Some({});
    }
  }

  /** The agent's mutexes never deadlock: in every interleaving of any number of
      threads no set of threads waits for itself, every thread that waits can
      be served by the others, no mutex is locked twice or unlocked by a
      thread that does not hold it, and some thread can always step. */
  lemma DeadlockFree(ts: seq<Thread>, ms: seq<(nat, Choice)>)
    requires Started(ts) && Run(ts, ms)
    ensures var us := After(ts, ms);
            && (forall d :: !Deadlocked(us, d))
            && (forall i :: 0 <= i < |us| && us[i].todo != [] ==> SomeStep(us) && CanBeServed(us, i))
            && (forall i :: 0 <= i < |us| && us[i].todo != [] && us[i].todo[0].Lock? ==> us[i].todo[0].l !in us[i].held)
            && (forall i :: 0 <= i < |us| && us[i].todo != [] && us[i].todo[0].Unlock?
                 ==> us[i].todo[0].l in us[i].held)
  {
    StartedGood(ts);
    RunGood(ts, ms);
    var us := After(ts, ms);
    forall d ensures !Deadlocked(us, d) { NoDeadlock(us, d); }
    forall i | 0 <= i < |us| && us[i].todo != [] ensures SomeStep(us) && CanBeServed(us, i) {
      Progress(us, i);
      var ns := Served(us, i);
    }
    forall i | 0 <= i < |us| && us[i].todo != []
      ensures us[i].todo[0].Lock? ==> us[i].todo[0].l !in us[i].held
      ensures us[i].todo[0].Unlock? ==> us[i].todo[0].l in us[i].held
    {
      Discipline(us[i]);
    }
  }

  /** Steps of other threads after which thread i can take its own. */
  ghost predicate CanBeServed(ts: seq<Thread>, i: nat)
    requires i < |ts|
  {
    exists ns :: Run(ts, ns) && CanStep(After(ts, ns), i) && After(ts, ns)[i] == ts[i]
  }
}
