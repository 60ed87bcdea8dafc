# A verified model of the resource allocator

The system modelled here is a distributed resource allocator. On every node a C
agent owns three counters (CPU, MEM, GPU), grants, queues and releases capacity
for the jobs of its local Erlang planner and for other agents, and keeps a table
of jobs with their confirmed shares and outgoing requests. The same fact lives in
three places (a counter, a queue entry, the flag of an allocation), a release can
cascade into grants for other jobs, and all of it is driven by lines of text over
partial reads and writes, by several worker threads.

The project states what each part does and proves what it promises:

* **Allocator** (`Types`, `ConnTable`, `Allocator`): every message handler as a
  step on the agent's state. `Ledger`, `Cascade`, `Handlers`, `Requests`, `Greedy`,
  `Disconnects`, `Wiring` and `Rollback` prove what each step keeps; `Runs` proves
  the results over whole runs; `Fates` and `Fairness` prove in which order waiting
  requests are granted, `Waiters` that they can be, and `Stalls` exactly when one that
  could be is left waiting; `Shares` that a job is made of exactly what was requested
  and stays so, `Messages` and `Announcements` exactly which messages every event
  sends; `Limits` gives, for each assumption about amounts and requests, a run that
  breaks the result without it and the exact condition under which it holds.
* **In-place code** (`WaitQueue`, `JobTable`, `ConnIndex`, `Manager`): the linked
  queue, the two bucketed tables and, built on three such queues and both tables, the
  agent whose message handlers update them in place by loops. Every handler is proved
  to compute its step on the agent's state.
* **Byte streams** (`Framing`, `Connection`, `Channel`): the two fixed buffers of a
  connection, line framing, and the channel between two agents.
* **Concurrency** (`Wakeup`, `Locks`, `LockPaths`, `Races`): the one-shot epoll
  protocol with any number of workers, and the mutexes of every handler with the data
  that they guard.
* **Wire formats** (`Text`, `Planner`, `Parsing`, `Dispatch`, `Wire`, `Nodes`): the
  printers and the parsers of both sides against each other, and what the planner must
  choose for its request to be one the agent can take.
* **Two agents** (`Reservation`, `TwoAgents`, `Mismatch`): what a client agent may
  conclude about the reservations it made with a server agent.

`Seqs` holds facts about sequences that the proofs name.

## Assumptions

They are stated as `requires` clauses, most of them in `Runs.Lawful`.

* Handlers are atomic steps. JOB_RELEASE lets go of the table lock before it
  releases the shares (agente_c/src/resource_manager.c:672), so in the program
  another handler can run in between.
* A RESERVE asks for no negative amount: only JOB_REQUEST filters amounts
  (agente_c/src/parsing.c:231). `Limits.NegativeReserveLoses` shows it is needed and
  `Limits.ReserveThenRelease` exactly when a negative amount does harm.
* A RELEASE gives back no more than was lent to peers. The agent does not record
  what it lends, so the model carries it as the history field `lent`, beside `served`,
  the requests that the release loop granted. `Limits.OverpaidLoses` shows it is needed.
* A job asks its own agent for each resource at most once
  (agente_c/src/tabla_jobs.c:502). `Limits.AskedTwiceLoses` shows it is needed, and
  `Dispatch.PlannedRequest` that the planner's requests meet it exactly when the nodes
  chosen on that host ask for each resource at most once.
* A dialled connection is new, opens once and faces a peer; planner connections
  are those accepted on the local listening socket.
* Integers are unbounded; job ids are non-negative where they index the table, and
  ids and amounts fit an `int` where they are printed and scanned. A conversion by
  `%d` that overflows, which ISO/IEC 9899:2011 leaves undefined, counts as a
  failure to match.
* The order in which a walk over the job table yields jobs is part of the event, any
  order; `JobTable.Table.ExtractByRemoteConn` and `JobTable.Table.PendientesPorConn`
  show that the bucket walks are such orders, and the handlers of `Manager.Agent`
  return the one they followed.
* For `Channel`, one worker reads a connection at a time and messages are single
  lines without NUL. What a NUL does is `Framing.NulSilences`.
* For `TwoAgents`, an id is requested once and channels are reliable and FIFO.

## Where code and expectations differ

* A peer's disconnection that takes out two or more jobs can lose capacity: a
  release for the first can grant to the second, which has already left the table.
  `Disconnects.DisconnectKeeps` says exactly when; `Limits.TwoVictimsLose` is a run
  from boot in which three of four units are lost.
* GRANTED carries only the job id and is matched by host. When a job asks one host
  for two resources before any connection to it is open, the answer to the first
  reservation can confirm the other share, whose RESERVE is then never sent:
  `Mismatch.LostReserve`, with the exact condition for one step in
  `Reservation.ConfirmLoses` and for a run in `TwoAgents.PendingIsIssued`. Such a job
  is never announced as granted, so `TwoAgents.GrantedIsGranted` stands.
* EPOLLONESHOT is said to give a worker the connection to itself
  (agente_c/src/server.c:189). `Wakeup.ExclusionIff` says in exactly which runs: those
  in which no message is accepted between the return of epoll_wait and the setting of
  in_handler.
* The rollback of a refused JOB_REQUEST restores the agent exactly when
  `Rollback.RefusedRestores` says, not always: `Rollback.RefusalServesWaiter` is a run
  in which it grants a waiting peer instead.
* print_manager reads the counters without their mutexes
  (agente_c/src/resource_manager.c:236-240): `Races.PrintsWhileReserving` is a run in
  which a reservation changes one meanwhile. `Races.RaceFree` says that nothing but the
  counters and the host found for a GRANTED is ever read so.
* A RELEASE removes the local job that has its id, after a release that may just have
  completed and announced that job (agente_c/src/resource_manager.c:338-341);
  `Announcements.StepAnnounces` counts that announcement apart.
* A purge of the queues is not followed by a drain (agente_c/src/resource_manager.c:95-128),
  so a request that has become satisfiable waits for the next accepted release of its
  resource. `Stalls.StallsIff` says for every event exactly when it leaves such a
  request, `Stalls.BlockedIff` in exactly which runs none is ever left, and
  `Rollback.WaitRun` is a run that leaves one.
* A reservation is granted without looking at the queue
  (agente_c/src/resource_manager.c:158-162), so a newcomer can pass those who wait;
  `Fairness.NoOvertaking` counts such grants apart.
* The pair scan of JOB_REQUEST admits 7 characters into a buffer of 7 bytes
  (agente_c/src/parsing.c:185 and 210), so a name of 7 characters is written one byte
  past its end. The model reads such a name as the unknown resource it is.
* The NODES reply and a held RESERVE are passed to send_message as its format
  (agente_c/src/resource_manager.c:641 and 833). They contain no `%` as the agent
  builds them, and the model sends them as they are.
* A host name is kept with 15 characters in the request list and with 14 in an
  outgoing request (agente_c/include/tabla_jobs.h:44); the model clips it likewise.

## Model

| member | source | states |
|---|---|---|
| Runs.Conservation | agente_c/src/resource_manager.c:152-234 | in every reachable state the counters, queues and allocations agree, and available + local grants + grants to peers equals the capacity of a resource if and only if no connection loss of the run spilled it |
| Runs.StepSound | agente_c/src/resource_manager.c:300-752 | each of the ten kinds of event keeps the invariant, keeps the accounts exactly when harmless, announces exactly the jobs it completes and answers no peer beyond its requests |
| Runs.AnnouncedExactly | agente_c/src/tabla_jobs.c:373-396 | in every reachable state a job of the table has been announced by JOB_GRANTED exactly once if nothing of it is outstanding and not at all otherwise, over all three send sites |
| Announcements.AnnouncedWhole | agente_c/src/tabla_jobs.c:373-396 | in every reachable state a job of the table has been announced, once, if and only if what is granted to it here and by peers, with what lost connections had granted, is as a multiset of host, resource and amount exactly what its request asked for |
| Announcements.StepAnnounces | agente_c/src/resource_manager.c:208-230 | every event sends JOB_GRANTED to the owner of each job of the table that has come to have nothing outstanding, once, and to nobody else; but a job that a RELEASE removes may have been announced by what that RELEASE freed |
| Announcements.EndForgets | agente_c/src/resource_manager.c:335-345 | after a RELEASE, a DENIED, a JOB_TIMEOUT, the JOB_RELEASE of a job of the table or a refused request, neither the table nor any queue knows of the job, whoever had asked for it |
| Shares.SharesKept | agente_c/src/resource_manager.c:422-603 | in every reachable state the pending requests, the queued and granted local shares and the remote shares of a job are together, as a multiset of host, resource and amount, what its JOB_REQUEST asked for, less what lost connections had granted |
| Shares.RequestMakes | agente_c/src/resource_manager.c:450-603 | an accepted request puts into the table one job under its id and owner, with exactly one outgoing request for each foreign share, with its clipped host, resource, amount and connection or held RESERVE, and exactly one allocation for each local share, with its resource, amount and outcome, newest first; the messages added are exactly its RESERVEs, and JOB_GRANTED if nothing is outstanding |
| Shares.EveryShare | agente_c/src/resource_manager.c:453-512 | every share of a request is on exactly one of the two lists that RequestMakes speaks of: foreign or of this host |
| Shares.ReservationsAre | agente_c/src/resource_manager.c:512-516 | those RESERVEs are, position by position, one for each foreign share whose host has an open connection, on that connection, with its resource and amount |
| Shares.StepBill | agente_c/src/resource_manager.c:300-887 | whatever the event, a job that stays in the table keeps that multiset, but for what a lost connection had granted |
| Shares.GrantedMoves | agente_c/src/tabla_jobs.c:529-560 | a GRANTED takes the first pending request of its host out of the job and puts one remote share with that host, resource, amount and connection in front of the old ones; local shares, owner and the other requests stay |
| Shares.GrantedIdle | agente_c/src/resource_manager.c:354-386 | a GRANTED that answers no pending request changes no job |
| Shares.LeavesIff | agente_c/src/tabla_jobs.c:398-475 | a lost connection takes a job out of the table if and only if the connection is its owner, carries one of its pending requests, or nothing is pending and it granted all the shares there are; a job that stays keeps owner, requests and the other remote shares, and has a share or a request |
| Shares.IdleAsksNothing | agente_c/src/tabla_jobs.c:436-463 | in every reachable state a job of the table with neither a share nor a request was requested with none |
| Messages.StepSays | agente_c/src/resource_manager.c:300-887 | for each event the messages that are not grants, to whom and in which order: the answer to a refused RESERVE, the RELEASEs of a job that leaves for its remote shares, the zero RELEASEs for an unknown job, the RESERVEs of a request up to the first share that refuses it, JOB_DENIED |
| Messages.ReadySays | agente_c/src/resource_manager.c:825-842 | a connection that opens sends the RESERVE of the one request that waited for it and is registered under its host; if none waited nothing is sent |
| Messages.FreeSays | agente_c/src/tabla_jobs.c:219-236 | freeing shares sends, share by share in order, one RELEASE of its resource and amount for each remote share whose host has an open connection, and nothing else but grants |
| Messages.JobReleaseSays | agente_c/src/resource_manager.c:674-700 | JOB_RELEASE sends one RELEASE for each remote share of the job in order, and nothing else but grants |
| Messages.ReturnsAre | agente_c/src/resource_manager.c:681-684 | these are, position by position, the remote shares on their own connections with their resources and amounts |
| Messages.DeniedSays | agente_c/src/resource_manager.c:402-411 | DENIED about a job of the table sends the RELEASEs of its remote shares and then JOB_DENIED to its owner |
| Messages.GrantedSays | agente_c/src/resource_manager.c:367-386 | GRANTED about an unknown job from a known connection is answered with the three RELEASEs of zero, and otherwise with nothing but a grant |
| Runs.AnsweredAtMostOnce | agente_c/src/resource_manager.c:309-328 | over every run the GRANTEDs and DENIEDs sent to a peer about a job plus its waiting entries never exceed the RESERVEs it made |
| Runs.WaitersInRange | agente_c/src/resource_manager.c:158-172 | in every state of the invariant, after any losses, whoever waits asks for 1..total and the resource is not entirely free |
| Runs.NoStrandedWaiter | agente_c/src/resource_manager.c:180-193 | while the accounts of a resource balance and somebody waits for it, some job or peer holds of it and its release will be accepted |
| Waiters.HeadCanBeServed | agente_c/src/resource_manager.c:180-234 | from every reachable state in which a resource lost nothing, a lawful continuation of releases and endings of jobs alone serves the first waiting request of that resource: a peer gets one more GRANTED, and a local job, which none of these events names, is still in the table, holds the amount and no longer waits |
| Waiters.ServeHead | agente_c/src/resource_manager.c:180-234 | the same from any state of the invariant whose accounts balance |
| Stalls.StepLane | agente_c/src/resource_manager.c:300-887 | for every event and resource, the counter and the queue afterwards are those that the releases and purges of the event give on that resource alone, in the order in which the agent makes them |
| Stalls.StallsIff | agente_c/src/resource_manager.c:95-128 | an event leaves the first request of a resource waiting although the counter suffices if and only if the first request left by those releases and purges can be paid with what they leave |
| Stalls.RemovalStalls | agente_c/src/tabla_jobs.c:188-246 | where nobody could be served, removing a job leaves somebody waiting in vain if and only if the request at which its own releases stopped is the job's and the first of the others can be paid |
| Stalls.OnlyPurgesStall | agente_c/src/resource_manager.c:95-128 | where nobody could be served, only an event that purges one of those who wait for the resource can leave somebody waiting in vain |
| Stalls.BlockedIff | agente_c/src/resource_manager.c:180-234 | throughout a run the first request of a resource is one that cannot be paid if and only if no event of the run leaves such a rest |
| Fairness.NoOvertaking | agente_c/src/resource_manager.c:208-230 | between any two moments of any run every request that waited at the first is granted, purged or still waits; none is granted while an earlier one of its queue still waits; those that wait keep their order ahead of all newcomers, none of which was granted from the queue meanwhile; only requests of a job or connection named by an event are purged; the grants are those the release loop made, in order; the GRANTEDs sent are exactly those of the peers' requests granted and of RESERVEs served at once; and a local request granted to a job that no event named is held by that job, which no longer waits |
| Fairness.EventFates | agente_c/src/resource_manager.c:300-887 | the same for each of the ten kinds of event |
| Fairness.DrainServes | agente_c/src/resource_manager.c:208-230 | one run of the release loop grants the longest prefix that fits, appends to the messages exactly the answers of that prefix in its order, and marks exactly the waits of its local entries |
| Fates.LedTrans | agente_c/src/resource_manager.c:208-230 | order of grants composes: what holds of two successive changes of a queue holds of both together |
| Runs.DisconnectForgets | agente_c/src/resource_manager.c:771-819 | after a disconnection no queue entry, owner, allocation, outgoing request or table entry mentions the connection, whatever the cascade granted on the way |
| Runs.FailureForgets | agente_c/src/resource_manager.c:848-887 | after a failed connection no job, allocation or outgoing request mentions it, and nothing at all does if and only if it was not registered and owns none of the queue entries left, which are among the old ones |
| Rollback.RefusedRestores | agente_c/src/resource_manager.c:470-509 | a refused JOB_REQUEST restores counters, queues and table exactly if and only if no queue names the job and the head is blocked of every resource of which some local share before the first refusing one can be paid; then the releases grant nobody |
| Rollback.BuildRefuses | agente_c/src/resource_manager.c:450-578 | a request is refused if and only if one of its shares exceeds the capacity of this host or names a host with no connection and none to be had |
| Rollback.BuildGives | agente_c/src/resource_manager.c:455-469 | the loop gives the job some of a resource if and only if a local share of it before any refusing one is within what was available at the start |
| Rollback.RefusalServesWaiter | agente_c/src/resource_manager.c:470-509 | a lawful run after which undoing a refused request grants a waiting peer, so that counter and queue are not as before |
| Greedy.DrainIsGreedy | agente_c/src/resource_manager.c:208-230 | the release loop takes exactly the longest queue prefix whose amounts fit in the availability, and stops with the queue empty or its head unsatisfiable |
| Greedy.DrainTakesPrefix | agente_c/src/pending_request.c:145-165 | what the loop takes is a prefix of the queue, paid for from the counter, and other resources are untouched |
| Cascade.DrainKeeps | agente_c/src/resource_manager.c:208-230 | the cascade keeps every job's queue entries equal to its queued allocations, keeps the books and leaves no satisfiable head |
| Cascade.ReleaseExact | agente_c/src/resource_manager.c:180-234 | an accepted release adds exactly its amount to the accounts of its resource and nothing to the others |
| Cascade.FreeAllKeeps | agente_c/src/tabla_jobs.c:219-236 | freeing the shares of a job returns exactly what it held while keeping the agreement for all others |
| Handlers.ReserveKeeps | agente_c/src/resource_manager.c:309-328 | a RESERVE, granted, queued or denied, keeps invariant and accounts and disturbs no job |
| Handlers.ReserveOwing | agente_c/src/resource_manager.c:152-177 | a RESERVE adds at most one to what is answered or waiting for that peer and job, and nothing for others |
| Handlers.PeerReleaseKeeps | agente_c/src/resource_manager.c:332-350 | a RELEASE keeps invariant and accounts and removes the job it names |
| Handlers.GrantedKeeps | agente_c/src/resource_manager.c:354-394 | a GRANTED keeps invariant and accounts, and announces its job if and only if it completed it |
| Handlers.DeniedKeeps | agente_c/src/resource_manager.c:398-418 | a DENIED removes its job and gives back all it held |
| Handlers.JobReleaseKeeps | agente_c/src/resource_manager.c:655-706 | a JOB_RELEASE removes its job, gives back all it held and leaves no entry of it in any queue |
| Handlers.RemoveKeeps | agente_c/src/tabla_jobs.c:188-246 | removal by timeout or release does the same |
| Requests.BuildKeeps | agente_c/src/resource_manager.c:450-594 | the request loop keeps the agreement with the job under construction counted as if it were in the table |
| Requests.RollbackKeeps | agente_c/src/resource_manager.c:538-578 | the rollback gives back exactly what the loop took and purges what it queued |
| Requests.JobRequestKeeps | agente_c/src/resource_manager.c:422-603 | a JOB_REQUEST, accepted or refused at any point, keeps invariant and accounts and all other jobs |
| Disconnects.AbandonKeeps | agente_c/src/resource_manager.c:779-814 | abandoning extracted jobs one by one returns all they held if and only if no release grants to a job still in the list |
| Disconnects.DisconnectKeeps | agente_c/src/resource_manager.c:771-819 | a disconnection keeps the invariant and, for each resource, the accounts if and only if the walk is lossless |
| Disconnects.ConnFailedKeeps | agente_c/src/resource_manager.c:848-887 | the same for a failed connection, whose queue entries are not purged first |
| Disconnects.OneVictimLossless | agente_c/src/resource_manager.c:779-814 | with at most one affected job nothing is ever lost |
| Disconnects.PlannerLossless | agente_c/src/resource_manager.c:773-777 | the disconnection of a planner loses nothing however many jobs it owned |
| Wiring.RequestDials | agente_c/src/resource_manager.c:512-592 | at most one request waits on a connection that is being dialled |
| Wiring.DeleteFacts | agente_c/src/tabla_conns.c:115-141 | deletion by connection forgets that connection and no other, and keeps each registered at most once |
| Limits.DequeueConserves | agente_c/src/tabla_jobs.c:478-512 | granting the head of a queue to a local job conserves capacity if and only if the allocation that gets marked is a waiting one of that amount |
| Limits.AskedTwiceLoses | agente_c/src/tabla_jobs.c:502 | from a reachable state, a job that asks twice for one resource, with nothing else wrong, makes a unit of capacity vanish at the next release |
| Limits.ReserveInRange | agente_c/src/resource_manager.c:158-162 | a granted RESERVE leaves the counter in range with nobody waiting for a free resource if and only if its amount is at least available less total, and strictly more if somebody waits |
| Limits.ReserveThenRelease | agente_c/src/resource_manager.c:158-193 | after a granted RESERVE the release of what a job holds is refused if and only if the amount is below available + held - total: never for a non-negative one, and for every negative one if that job holds all that is out |
| Limits.NegativeReserveLoses | agente_c/src/resource_manager.c:158-193 | from a reachable state, a RESERVE of -2 is granted and makes the release of a job bounce, for good |
| Limits.ReleaseCounts | agente_c/src/resource_manager.c:185-193 | a release is counted if and only if the counter has room for it |
| Limits.OverpaidLoses | agente_c/src/resource_manager.c:185-193 | from a reachable state, a peer that gives back what it was not lent makes the release of a job bounce |
| Limits.TwoVictimsLose | agente_c/src/resource_manager.c:779-814 | a lawful run from boot that ends in the loss of a peer shared by two jobs, with no job, nothing lent, nobody waiting and 3 of 4 units gone |
| Manager.ManagerInit | agente_c/src/resource_manager.c:249-268 | the tables and queues as allocated represent the state in which the runs start |
| Manager.Agent.HandlePeer | agente_c/src/resource_manager.c:300-418 | any message of a peer takes the agent, queues, tables and counters, through exactly one step of a run |
| Manager.Agent.HandlePlanner | agente_c/src/resource_manager.c:422-740 | so does any message of the planner |
| Manager.Agent.HandleConn | agente_c/src/resource_manager.c:771-887 | so does a connection that opens, fails or is lost, in the order of the walk over the buckets |
| Manager.Agent.CambioAlloc | agente_c/src/tabla_jobs.c:478-512 | the bucket walk and the search loop mark the first local allocation of that connection and resource, and queues and counters are not touched |
| Manager.Agent.Verificar | agente_c/src/tabla_jobs.c:373-396 | true exactly for a job of the table with no queued local allocation and no outgoing request |
| Manager.Agent.ReserveResource | agente_c/src/resource_manager.c:152-177 | the in-place update and its result are those of the reservation step |
| Manager.Agent.GrantHead | agente_c/src/resource_manager.c:209-230 | one turn of the drain loop is one Pop |
| Manager.Agent.ReleaseResource | agente_c/src/resource_manager.c:180-234 | the loop, refused release included, is the drain that Greedy characterises |
| Manager.Agent.LimpiarColasPorId | agente_c/src/resource_manager.c:95-110 | the pointer walks over the three linked queues leave in each exactly the other entries, in order, with no node shared or gained, and counters and tables as they were |
| Manager.Agent.LimpiarColasPorConn | agente_c/src/resource_manager.c:112-128 | the same for the entries of a connection |
| Manager.Agent.FreeShares | agente_c/src/tabla_jobs.c:219-236 | the loop over a job's shares releases or announces each in order |
| Manager.Agent.TablaJobsRemove | agente_c/src/tabla_jobs.c:188-246 | removes the job and frees its shares, or does nothing if it is unknown |
| Manager.Agent.ProcessReserve | agente_c/src/resource_manager.c:309-328 | computes the RESERVE step |
| Manager.Agent.ProcessRelease | agente_c/src/resource_manager.c:332-350 | computes the RELEASE step, zero amounts included |
| Manager.Agent.ProcessGranted | agente_c/src/resource_manager.c:354-394 | computes the GRANTED step by the walks over both tables and the search for the host, with the zero RELEASEs for an unknown job |
| Manager.Agent.ProcessDenied | agente_c/src/resource_manager.c:398-418 | computes the DENIED step |
| Manager.Agent.ProcessJobRequest | agente_c/src/resource_manager.c:422-603 | the loop with its two refusals computes the JOB_REQUEST step; the job enters the table only under a new id, so no bucket ever holds an id twice |
| Manager.Agent.ProcessJobRelease | agente_c/src/resource_manager.c:655-706 | computes the JOB_RELEASE step |
| Manager.Agent.ProcessJobTimeout | agente_c/src/resource_manager.c:730-740 | computes the JOB_TIMEOUT step |
| Manager.Agent.AbandonJobs | agente_c/src/resource_manager.c:779-814 | the loop over extracted jobs |
| Manager.Agent.ProcessDisconnect | agente_c/src/resource_manager.c:771-819 | computes the disconnection step for the order in which the bucket walk extracted the jobs |
| Manager.Agent.ProcessConnectionFailed | agente_c/src/resource_manager.c:848-887 | likewise the failed-connection step |
| Manager.Agent.ProcessConnectionReady | agente_c/src/resource_manager.c:825-842 | registers the connection and sends what waited for it, in the order the walk over the table collected it; that a message is always there is Reservation.OpenedFor |
| WaitQueue.Queue.constructor | agente_c/src/pending_request.c:33-37 | the empty sequence with cached amount zero |
| WaitQueue.Queue.IsEmpty | agente_c/src/pending_request.c:52-54 | both ends null exactly when the sequence is empty |
| WaitQueue.Queue.Enqueue | agente_c/src/pending_request.c:117-139 | appends to the sequence; the ends are its ends and the cached amount its sum |
| WaitQueue.Queue.Dequeue | agente_c/src/pending_request.c:145-165 | takes the first element off, or null on an empty queue |
| WaitQueue.Queue.DeleteByJobId | agente_c/src/pending_request.c:90-111 | the pointer loop filters out exactly the entries of the job, in order, and the nodes left are among the old ones |
| WaitQueue.Queue.DeleteByConn | agente_c/src/pending_request.c:57-87 | the same for the entries of the connection |
| JobTable.Table.constructor | agente_c/src/tabla_jobs.c:89-93 | the empty map |
| JobTable.Table.Insertar | agente_c/src/tabla_jobs.c:173-183 | the job is linked at the head of its bucket, and every job stays in its own bucket once if and only if the id was new |
| JobTable.Table.BuscarPorId | agente_c/src/tabla_jobs.c:515-526 | finds what the map holds |
| JobTable.Table.ExtractById | agente_c/src/tabla_jobs.c:563-586 | returns what the map held and removes it |
| JobTable.Table.CambioAlloc | agente_c/src/tabla_jobs.c:478-512 | the job found is marked in place by a walk to its first matching allocation, and no other |
| JobTable.Table.Verificar | agente_c/src/tabla_jobs.c:373-396 | true exactly for a job of the map with no queued local allocation and no outgoing request |
| JobTable.Table.Confirmar | agente_c/src/tabla_jobs.c:529-560 | moves the first outgoing request to the host, if any, to the confirmed shares of that job |
| JobTable.Table.PendientesPorConn | agente_c/src/tabla_jobs.c:301-326 | the walk visits every job of the map once and collects exactly the requests on the connection, the latest found first |
| JobTable.Table.ExtractByRemoteConn | agente_c/src/tabla_jobs.c:398-475 | partitions the map: the affected jobs come out, each once, and the others stay without the remote shares of that connection |
| JobTable.StayAllProper | agente_c/src/tabla_jobs.c:403-471 | after the walk every kept job is in its own bucket once |
| JobTable.LeaveAllVictims | agente_c/src/tabla_jobs.c:454-463 | the extracted list is an enumeration of the affected jobs |
| ConnIndex.HashIp | agente_c/src/tabla_conns.c:17-24 | the wrapping 32-bit hash of the whole host |
| ConnTable.HashIsPoly | agente_c/src/tabla_conns.c:17-24 | the accumulator that wraps at each character is the polynomial at 31 of the bytes modulo 2^32 |
| ConnTable.InsertFinds | agente_c/src/tabla_conns.c:27-65 | after an insertion the connection is found for the host it was inserted with, as clipped, and every other host finds what it found before |
| ConnTable.InsertNames | agente_c/src/tabla_conns.c:27-84 | a connection not registered before is found under the clipped host, and every other connection under the host it had |
| ConnIndex.Index.Insertar | agente_c/src/tabla_conns.c:27-45 | inserts at the head of the host's bucket |
| ConnIndex.Index.Buscar | agente_c/src/tabla_conns.c:48-65 | the first entry of the host's bucket with that name, or none |
| ConnIndex.Index.HostPorConn | agente_c/src/tabla_conns.c:68-84 | the first entry with that connection over all buckets, or none |
| ConnIndex.Index.BorrarPorConn | agente_c/src/tabla_conns.c:115-141 | unlinks the first entry with that connection in every bucket |
| Framing.LinesRejoin | agente_c/src/server.c:322-347 | the lines and tail of a stream are newline-free and written out again give the stream |
| Framing.Feed | agente_c/src/server.c:315-347 | after any read the buffer and the lines are those of the whole stream so far, NULs included |
| Framing.ChunkInvariant | agente_c/src/server.c:283-350 | the lines delivered and the buffer kept do not depend on how the stream is divided into reads |
| Framing.ReadToEnd | agente_c/src/server.c:285 | some division of a stream gets through it if and only if no prefix fills the buffer, and then no partial division ever makes an empty read |
| Framing.FitsLines | agente_c/src/server.c:285 | for a NUL-free stream that means every line takes at most BUFF_SIZE-1 bytes with its newline |
| Framing.NulSilences | agente_c/src/server.c:327 | after a NUL no further line is delivered |
| Connection.Socket.EnqueueWrite | agente_c/src/server.c:601-627 | accepts exactly the messages that leave the buffer below BUFF_SIZE and appends them to the unsent bytes |
| Connection.Socket.TcpWrite | agente_c/src/server.c:353-393 | a socket that is not ready changes nothing, an error while bytes are unsent closes, and otherwise the bytes sent and the bytes left are together those that were unsent, and an emptied buffer is reset |
| Connection.Socket.Strchr | agente_c/src/server.c:327 | finds the first newline before any NUL |
| Connection.Socket.TcpRead | agente_c/src/server.c:283-350 | no data changes nothing, an error or an empty read closes, and otherwise the in-place loop and the compaction deliver exactly the lines and keep exactly the rest |
| Connection.WriteConserves | agente_c/src/server.c:378-390 | no byte is lost or repeated by a partial write |
| Channel.InOrder | agente_c/src/server.c:283-393 | for any interleaving of enqueues, partial writes and partial reads the delivered lines are a prefix of the accepted ones, and all of them once nothing is in transit |
| Channel.NeverEmptyRead | agente_c/src/server.c:285 | the receiver always has room, so it never makes the empty read that it would take for the end |
| Channel.Drains | agente_c/src/server.c:353-393 | from every reachable state reads and writes alone get everything across |
| Wakeup.NoLostWakeup | agente_c/src/server.c:32-48 | in every interleaving of any number of workers unsent bytes imply that EPOLLOUT is armed or a worker has yet to rearm; an idle connection listens and does not ask for room it does not need |
| Wakeup.StepKeeps | agente_c/src/server.c:464-561 | every step of the protocol keeps that |
| Wakeup.BytesKept | agente_c/src/server.c:353-393 | over any interleaving the bytes accepted are those given to the socket followed by those not sent yet, in order, whichever worker writes and whether or not a handler runs |
| Wakeup.Flushes | agente_c/src/server.c:532-561 | from every reachable state the workers can get all the bytes out |
| Wakeup.ExclusionIff | agente_c/src/server.c:464-483 | with two or more workers, at every point of a run no continuation by the workers puts two of them on the connection, if and only if no message is accepted during the run between the return of epoll_wait and the setting of in_handler |
| Wakeup.RegisteredExclusion | agente_c/src/server.c:186-193 | the same for the runs of a connection from its registration |
| Wakeup.SoleWorker | agente_c/src/server.c:478-483 | at most one worker is on a connection in every run whose accepted messages all miss that gap |
| Wakeup.GapLetsIn | agente_c/src/server.c:617-624 | an accepted enqueue_write in that gap lets any second worker in |
| Wakeup.TwoWorkers | agente_c/src/server.c:464-483 | a run with two workers on one connection |
| Locks.NoDeadlock | agente_c/src/resource_manager.c:180-234 | threads that lock only upwards in rank never wait for each other in a circle |
| Locks.Progress | agente_c/src/server.c:458-565 | while a thread is unfinished some thread can step |
| Locks.Served | agente_c/src/server.c:458-565 | every waiting thread can be served by steps of the others alone |
| Locks.Discipline | agente_c/src/resource_manager.c:180-234 | no mutex is locked twice or unlocked by a thread that does not hold it, and a finished thread holds none |
| LockPaths.ReleaseOneKeeps | agente_c/src/resource_manager.c:180-234 | release_resource keeps the discipline with and without the table lock, on both exits |
| LockPaths.RemoveKeeps | agente_c/src/tabla_jobs.c:188-246 | so does tabla_jobs_remove in both modes |
| LockPaths.PeerMessagesKeep | agente_c/src/resource_manager.c:309-350 | so do RESERVE and RELEASE |
| LockPaths.GrantedKeeps | agente_c/src/resource_manager.c:354-394 | so does GRANTED with its early returns |
| LockPaths.DeniedKeeps | agente_c/src/resource_manager.c:398-418 | so does DENIED, which nests resource mutexes in the table lock |
| LockPaths.JobRequestKeeps | agente_c/src/resource_manager.c:422-603 | so does JOB_REQUEST on every exit |
| LockPaths.JobReleaseKeeps | agente_c/src/resource_manager.c:655-706 | so does JOB_RELEASE |
| LockPaths.PlannerMessagesKeep | agente_c/src/resource_manager.c:607-740 | so do GET_NODES, JOB_STATUS and JOB_TIMEOUT |
| LockPaths.ConnectionsKeep | agente_c/src/resource_manager.c:771-887 | so do the connection handlers |
| LockPaths.WorkerKeeps | agente_c/src/server.c:458-565 | so does the treatment of every event by a worker |
| LockPaths.DeadlockFree | agente_c/src/server.c:458-565 | in every reachable interleaving of any number of workers no set of threads waits for itself, every waiting thread can be served, and some thread can step |
| Races.RaceFree | agente_c/src/server.c:458-565 | in every reachable interleaving of any number of workers whoever touches a table, a counter with its queue or a write buffer holds its mutex, no two threads touch the same one at once, and only the counters and the host of a connection are read without it |
| Races.PrintsWhileReserving | agente_c/src/resource_manager.c:236-240 | two workers come to a point where one reads a counter in print_manager while the other changes it in reserve_resource |
| Text.ScanPrinted | agente_c/src/parsing.c:56-87 | a printed int is scanned back by %d up to whatever follows it |
| Text.PrintLength | agente_c/src/resource_manager.c:618-621 | a printed int takes at most 11 characters |
| Planner.HostSortSorts | planificador_erl/c_agent_client.erl:68-72 | the sort is a permutation, ascending by host, and stable |
| Parsing.ReadPairs | agente_c/src/parsing.c:208-235 | the inner loop appends the pairs of one token, or fails where the format does |
| Parsing.ReadBlocks | agente_c/src/parsing.c:189-236 | the outer loop reads one block per token |
| Parsing.ParseJobRequest | agente_c/src/parsing.c:165-241 | the whole parser |
| Parsing.BlockParses | agente_c/src/parsing.c:194-235 | a printed block is read back as the positive amounts of its node if its host has 1 to 15 characters, and refused otherwise |
| Parsing.CommandTokens | planificador_erl/c_agent_client.erl:90-122 | the command splits into the blocks of the nodes that are not skipped, trailing spaces or not |
| Parsing.LineParses | planificador_erl/c_agent_client.erl:169-170 | the printed line is read back as the id and the positive entries in the printed order if and only if the hosts fit |
| Parsing.RequestRoundTrip | planificador_erl/c_agent_client.erl:84-122 | for every list of nodes and amounts the agent reads the id and exactly the positive entries, hosts ascending |
| Dispatch.PlannedRequest | planificador_erl/c_agent_client.erl:84-122 | the entries read make a request the agent can take, positive and with each resource of its own host at most once, if and only if the chosen nodes of that host ask for each resource at most once; so for every list without a repeated host |
| Wire.PeerRoundTrip | agente_c/src/resource_manager.c:309-418 | the four messages between agents are recognised and parsed as they were meant |
| Wire.OrderRoundTrip | agente_c/src/parsing.c:246-313 | so are the orders that carry only an id |
| Wire.PlannerRoundTrip | planificador_erl/c_agent_client.erl:257-276 | the line printed for any message is heard by the planner as granted or denied for its id exactly if it announces that, and ignored otherwise |
| Wire.PeerTexts | agente_c/src/resource_manager.c:316-322 | the four messages between agents are printed with exactly the formats of the source |
| Wire.PlannerTexts | agente_c/src/resource_manager.c:385-408 | so are the two announcements to the planner |
| Wire.EncodeShort | agente_c/src/resource_manager.c:131-143 | every message is a single line that an empty write buffer accepts |
| Wire.MessagesArrive | agente_c/src/server.c:327-334 | over any writes and reads the receiver acts on the accepted messages in order, each once and as meant |
| Nodes.GetNodes | agente_c/src/resource_manager.c:607-642 | the nested loops build the reply for the nodes in walk order |
| Nodes.AppendAllIs | agente_c/src/resource_manager.c:623-626 | the buffer holds exactly the items of the nodes that fitted and stays below BUFF_SIZE-2 |
| Nodes.AllFit | agente_c/src/resource_manager.c:623-626 | if all items fit together no node is left out |
| Nodes.SplitJoin | planificador_erl/c_agent_client.erl:195-202 | splitting undoes joining |
| Nodes.ListOfParts | planificador_erl/c_agent_client.erl:53-59 | armar_lista makes the four pairs of a node, dropping the port |
| Nodes.NodesRoundTrip | planificador_erl/c_agent_client.erl:192-205 | the planner recovers exactly host, cpu, mem and gpu of the nodes that fitted, in order, the empty table included; the reply is one line below BUFF_SIZE-1 bytes |
| Reservation.BuildIssues | agente_c/src/resource_manager.c:512-592 | the request loop issues on a registered connection, for every resource and amount, exactly as many RESERVEs as it links outgoing requests there; that these are the requested shares is Shares.RequestMakes |
| Reservation.StepAccounted | agente_c/src/tabla_jobs.c:529-560 | a consumed GRANTED takes away one pending request to its host, and on every connection, for every resource and amount, the RESERVEs issued or held back for a job stay the same in number except for the one that a confirmation before the opening loses |
| Reservation.ConfirmLoses | agente_c/src/tabla_jobs.c:536-553 | a confirmation loses the RESERVE of the request it confirms if and only if its connection is not open, and no other |
| Reservation.OpenedFor | agente_c/src/resource_manager.c:825-842 | the request that a connection opening serves always has a message held for it, its own RESERVE, and there is at most one |
| Reservation.StepRouted | agente_c/src/resource_manager.c:825-842 | connections and outgoing requests stay paired with the hosts they were dialled for |
| TwoAgents.PendingCount | agente_c/src/tabla_jobs.c:529-560 | in every reachable state the pending requests of a job to a host are the shares that its JOB_REQUEST asks of the host less the GRANTEDs consumed; and on every connection, for every resource and amount, the RESERVEs issued, held back and lost are as many as the JOB_REQUEST asks there |
| TwoAgents.PendingIsIssued | agente_c/src/tabla_jobs.c:529-560 | the pending requests of a job to a host are the RESERVEs issued or held back less the GRANTEDs consumed, if and only if no GRANTED of the run confirmed a request whose connection was not open |
| TwoAgents.Chain | agente_c/src/resource_manager.c:309-328 | what the client heard on a connection the server answered to reservations received and issued there |
| TwoAgents.GrantedIsGranted | agente_c/src/resource_manager.c:383-386 | for any runs of client and server over any number of connections, a job with nothing outstanding has had every share that its JOB_REQUEST asks of the server asked on one of the connections, received there with its resource and amount, and granted; none was denied and none waits |
| Mismatch.LostReserve | agente_c/src/resource_manager.c:825-842 | a lawful run in which a RESERVE is never issued, and the step that loses it |

## Left out

- Socket creation, accept, connect, UDP broadcast and epoll calls: they appear only as inputs (bytes read, bytes taken, event delivered, connection dialled), and epoll calls succeed.
- Memory allocation, destruction of the tables, and what is logged or printed: no property of interest; that `print_manager` reads the counters is in `Races`.
- JOB_STATUS: it changes nothing; only its locks and its text are modelled.
- ANNOUNCE and the table of nodes (`tabla_node_entry.c`, `parse_announce`): a plain keyed table with expiry, which would add easy members; the nodes appear as the input of the NODES reply.
- Conservation over the whole cluster: a late GRANTED for a job that is gone is answered with RELEASEs of zero (agente_c/src/resource_manager.c:376-378), so capacity lent by the peer is not claimed back.
- Freedom from deadlock between jobs of different nodes: the agent issues all the requests of a job without waiting for answers, so host order alone does not give it; only the order is proved (`Parsing.RequestRoundTrip`).
- Fairness between newcomers and queued requests: a reservation is granted without looking at the queue, so none is claimed; such grants are counted apart in `Fairness.NoOvertaking`.
- Interleavings inside a handler: the allocator's steps are atomic. `Races` says which data each path uses under which mutex, not what it does to it; the receive buffer, used by one worker at a time, is not among that data.
- Overflow of `available_amount + amount`: integers are unbounded.
- Lifetime of connection objects: a connection is a name, so use after `free` is not modelled.
- Random choices, timers, processes and the generation of job ids in the planner: the nodes chosen and the amounts drawn are inputs.
- JobTable.Table.Insertar: the lists of a bucket and of a job are sequences, so the pointers that link them are not modelled; the linked queue is.
- ConnIndex.Index.Insertar: buckets are sequences here too.
- Negative job ids: `job_id % TAM_TABLA_JOBS` is then no index of the table (agente_c/src/tabla_jobs.c:174), so the members of `JobTable` and `Manager` ask for ids that are not negative.
- Text.ScanPrinted: values outside the range of `int` are excluded, the standard leaving their conversion undefined.
