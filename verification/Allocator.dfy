/** The allocator and job state machine: every message handler as a function on
    the agent's state. Handlers are atomic steps. */
module Allocator {
  import opened Types
  import CT = ConnTable

  /** The static `manager` and `conns` of the agent. `ip` is its own address and
      `log` the messages handed to the connections, in order. */
  datatype State = State(ip: string, bank: Bank, jobs: map<int, Job>, conns: CT.Table, log: seq<Out>) {
    function At(r: Res): Resource { bank.At(r) }

    function Put(r: Res, c: Resource): State { this.(bank := bank.With(r, c)) }

    function Send(to: Conn, m: Msg): State { this.(log := log + [Out(to, m)]) }
  }

  // ---------------------------------------------------------------- queues

  function DropJob(q: seq<Pending>, id: int): seq<Pending> {
    if q == [] then []
    else if q[0].job == id then DropJob(q[1..], id)
    else [q[0]] + DropJob(q[1..], id)
  }

  function DropConn(q: seq<Pending>, c: Conn): seq<Pending> {
    if q == [] then []
    else if q[0].owner == c then DropConn(q[1..], c)
    else [q[0]] + DropConn(q[1..], c)
  }

  function PurgeJobIn(c: Resource, id: int): Resource { c.(queue := DropJob(c.queue, id)) }

  function PurgeConnIn(c: Resource, k: Conn): Resource { c.(queue := DropConn(c.queue, k)) }

  /** limpiar_colas_por_id. */
  function PurgeJob(s: State, id: int): State {
    s.(bank := Bank(PurgeJobIn(s.bank.cpu, id), PurgeJobIn(s.bank.mem, id), PurgeJobIn(s.bank.gpu, id)))
  }

  /** limpiar_colas_por_conn. */
  function PurgeConn(s: State, k: Conn): State {
    s.(bank := Bank(PurgeConnIn(s.bank.cpu, k), PurgeConnIn(s.bank.mem, k), PurgeConnIn(s.bank.gpu, k)))
  }

  // ---------------------------------------------------------------- jobs

  predicate IsLocalGrant(a: Alloc) { a.kind == Local && a.outcome == RmGranted }

  predicate IsLocalWait(a: Alloc) { a.kind == Local && a.outcome == RmQueued }

  /** tabla_jobs_verificar on a job that was found. */
  predicate Ready(j: Job) {
    j.pending == [] && forall a | a in j.confirmed :: !IsLocalWait(a)
  }

  predicate ReadyIn(jobs: map<int, Job>, id: int) {
    id in jobs && Ready(jobs[id])
  }

  /** tabla_jobs_cambio_alloc: the first local allocation of that connection and
      resource becomes granted. */
  function Mark(as_: seq<Alloc>, c: Conn, r: Res): seq<Alloc> {
    if as_ == [] then []
    else if as_[0].kind == Local && as_[0].conn == c && as_[0].res == r then
      [as_[0].(outcome := RmGranted)] + as_[1..]
    else [as_[0]] + Mark(as_[1..], c, r)
  }

  function MarkIn(jobs: map<int, Job>, id: int, c: Conn, r: Res): map<int, Job> {
    if id in jobs then jobs[id := jobs[id].(confirmed := Mark(jobs[id].confirmed, c, r))] else jobs
  }

  // ---------------------------------------------------------------- resources

  /** reserve_resource. */
  function ReserveRes(s: State, r: Res, amount: int, id: int, k: Conn, origin: Origin): (State, Outcome) {
    var c := s.At(r);
    if c.avail >= amount then
      (s.Put(r, c.(avail := c.avail - amount, lent := c.lent + if origin == Remote then amount else 0)), RmGranted)
    else if c.total < amount then (s, RmDenied)
    else (s.Put(r, c.(queue := c.queue + [Pending(id, amount, k, origin)])), RmQueued)
  }

  predicate CanPop(c: Resource) { c.queue != [] && c.avail >= c.queue[0].amount }

  /** One turn of the release loop: the head of the queue is granted. */
  function Pop(s: State, r: Res): State
    requires CanPop(s.At(r))
  {
    var c := s.At(r);
    var p := c.queue[0];
    var back := if p.origin == Remote then p.amount else 0;
    var d := c.(avail := c.avail - p.amount, queue := c.queue[1..], lent := c.lent + back, served := c.served + [p]);
    var t := s.Put(r, d)
              .(jobs := MarkIn(s.jobs, p.job, p.owner, r));
    if p.origin == Remote then t.Send(p.owner, Granted(p.job))
    else if ReadyIn(t.jobs, p.job) then t.Send(p.owner, JobGranted(p.job))
    else t
  }

  function Drain(s: State, r: Res): State
    decreases |s.At(r).queue|
  {
    if CanPop(s.At(r)) then Drain(Pop(s, r), r) else s
  }

  predicate Accepts(c: Resource, amount: int) { amount >= 0 && c.avail + amount <= c.total }

  function Give(s: State, r: Res, amount: int): State {
    s.Put(r, s.At(r).(avail := s.At(r).avail + amount))
  }

  /** release_resource. */
  function ReleaseRes(s: State, r: Res, amount: int): State {
    if Accepts(s.At(r), amount) then Drain(Give(s, r, amount), r) else s
  }

  // ---------------------------------------------------------------- freeing a job

  /** What happens to one confirmed share when its job goes away: a local grant is
      released, a remote one is announced to the peer if it is still connected. */
  function FreeAlloc(s: State, id: int, a: Alloc): State {
    if IsLocalGrant(a) then ReleaseRes(s, a.res, a.amount)
    else if a.kind == Remote then
      match CT.Lookup(s.conns, a.host)
      case None => s
      case Some(k) => s.Send(k, Release(id, a.res, a.amount))
    else s
  }

  function FreeAll(s: State, id: int, as_: seq<Alloc>): State
    decreases |as_|
  {
    if as_ == [] then s else FreeAll(FreeAlloc(s, id, as_[0]), id, as_[1..])
  }

  /** tabla_jobs_remove. */
  function RemoveJob(s: State, id: int): State {
    if id in s.jobs then FreeAll(s.(jobs := s.jobs - {id}), id, s.jobs[id].confirmed) else s
  }

  // ---------------------------------------------------------------- handlers

  /** RESERVE. */
  function OnReserve(s: State, k: Conn, id: int, r: Res, amount: int): State {
    var (t, o) := ReserveRes(s, r, amount, id, k, Remote);
    match o
    case RmDenied => t.Send(k, Denied(id))
    case RmGranted => t.Send(k, Granted(id))
    case RmQueued => t
  }

  /** The history variable when a peer gives capacity back. */
  function Repaid(s: State, r: Res, amount: int): State {
    if Accepts(s.At(r), amount) then s.Put(r, s.At(r).(lent := s.At(r).lent - amount)) else s
  }

  /** RELEASE. */
  function OnRelease(s: State, id: int, r: Res, amount: int): State {
    var t := if amount != 0 then ReleaseRes(Repaid(s, r, amount), r, amount) else s;
    PurgeJob(RemoveJob(t, id), id)
  }

  /** The first outgoing request to a host, if any (job_confirmar). */
  function FindHost(ps: seq<OutReq>, host: string): (i: nat)
    ensures i <= |ps|
    ensures i < |ps| ==> ps[i].host == host
    ensures forall k :: 0 <= k < i ==> ps[k].host != host
  {
    if ps == [] then 0 else if ps[0].host == host then 0 else 1 + FindHost(ps[1..], host)
  }

  function Confirm(j: Job, i: nat): Job
    requires i < |j.pending|
  {
    var o := j.pending[i];
    j.(pending := j.pending[..i] + j.pending[i+1..],
       confirmed := [Alloc(o.res, o.amount, Remote, o.host, j.id, RmGranted, o.conn)] + j.confirmed)
  }

  /** GRANTED. */
  function OnGranted(s: State, k: Conn, id: int): State {
    match CT.HostOf(s.conns, k)
    case None => s
    case Some(host) =>
      if id !in s.jobs then
        s.Send(k, Release(id, Cpu, 0)).Send(k, Release(id, Mem, 0)).Send(k, Release(id, Gpu, 0))
      else
        var j := s.jobs[id];
        var i := FindHost(j.pending, host);
        if i == |j.pending| then s
        else
          var j' := Confirm(j, i);
          var t := s.(jobs := s.jobs[id := j']);
          if Ready(j') then t.Send(j'.conn, JobGranted(id)) else t
  }

  /** DENIED. */
  function OnDenied(s: State, id: int): State {
    var t := if id in s.jobs then RemoveJob(s, id).Send(s.jobs[id].conn, JobDenied(id)) else s;
    PurgeJob(t, id)
  }

  /** One share of a JOB_REQUEST. `dial` is what connecting to the host would
      give, used only when no connection to it is registered. */
  datatype Req = Req(host: string, res: Res, amount: int, dial: Option<Conn>)

  datatype Plan = Built(s: State, j: Job) | Refused(s: State, j: Job)

  /** The request loop of JOB_REQUEST, up to success or the first refusal. */
  function Build(s: State, j: Job, reqs: seq<Req>): Plan
    decreases |reqs|
  {
    if reqs == [] then Built(s, j)
    else
      var q := reqs[0];
      if q.host == s.ip then
        var (t, o) := ReserveRes(s, q.res, q.amount, j.id, j.conn, Local);
        if o == RmDenied then Refused(t, j)
        else Build(t, j.(confirmed := [Alloc(q.res, q.amount, Local, s.ip, j.id, o, j.conn)] + j.confirmed), reqs[1..])
      else
        match CT.Lookup(s.conns, q.host)
        case Some(k) =>
          Build(s.Send(k, Reserve(j.id, q.res, q.amount)), Ask(j, q, k, None), reqs[1..])
        case None =>
          if q.dial == None then Refused(s, j)
          else Build(s, Ask(j, q, q.dial.value, Some(Reserve(j.id, q.res, q.amount))), reqs[1..])
  }

  /** crear_outrequest, linked at the head; its host field holds 14 characters. */
  function Ask(j: Job, q: Req, k: Conn, held: Option<Msg>): Job {
    j.(pending := [OutReq(Clip(q.host, 14), k, q.res, q.amount, held)] + j.pending)
  }

  /** JOB_REQUEST. */
  function OnJobRequest(s: State, k: Conn, id: int, reqs: seq<Req>): State {
    if id in s.jobs then s
    else
      match Build(s, Job(id, k, [], []), reqs)
      case Built(t, j) =>
        var u := t.(jobs := t.jobs[id := j]);
        if Ready(j) then u.Send(k, JobGranted(id)) else u
      case Refused(t, j) =>
        FreeAll(PurgeJob(t, id), id, j.confirmed).Send(k, JobDenied(id))
  }

  /** JOB_RELEASE treats each share in its own way: what is not a local grant
      purges the queues, and a remote grant is returned on its own connection. */
  function ReturnAlloc(s: State, a: Alloc): State {
    var t := if IsLocalGrant(a) then ReleaseRes(s, a.res, a.amount) else PurgeJob(s, a.job);
    if a.kind == Remote then t.Send(a.conn, Release(a.job, a.res, a.amount)) else t
  }

  function ReturnAll(s: State, as_: seq<Alloc>): State
    decreases |as_|
  {
    if as_ == [] then s else ReturnAll(ReturnAlloc(s, as_[0]), as_[1..])
  }

  function OnJobRelease(s: State, id: int): State {
    if id !in s.jobs then s
    else PurgeJob(ReturnAll(s.(jobs := s.jobs - {id}), s.jobs[id].confirmed), id)
  }

  /** JOB_TIMEOUT. */
  function OnJobTimeout(s: State, id: int): State {
    PurgeJob(RemoveJob(s, id), id)
  }

  // ---------------------------------------------------------------- connections

  function StripAllocs(as_: seq<Alloc>, k: Conn): seq<Alloc> {
    if as_ == [] then []
    else if as_[0].kind == Remote && as_[0].conn == k then StripAllocs(as_[1..], k)
    else [as_[0]] + StripAllocs(as_[1..], k)
  }

  /** A job without the shares that a lost connection had granted. */
  function Strip(j: Job, k: Conn): Job { j.(confirmed := StripAllocs(j.confirmed, k)) }

  /** Whether tabla_jobs_extract_by_remote_conn takes the job out of the table. */
  predicate Affected(j: Job, k: Conn) {
    || j.conn == k
    || (exists o | o in j.pending :: o.conn == k)
    || (StripAllocs(j.confirmed, k) == [] && j.pending == [])
  }

  function Victims(jobs: map<int, Job>, k: Conn): set<int> {
    set id | id in jobs && Affected(jobs[id], k)
  }

  function Kept(jobs: map<int, Job>, k: Conn): map<int, Job> {
    map id | id in jobs && !Affected(jobs[id], k) :: Strip(jobs[id], k)
  }

  /** `order` lists a set of keys without repetition, as a walk of the buckets does. */
  ghost predicate Enumerates(order: seq<int>, ids: set<int>) {
    && (forall i, k :: 0 <= i < k < |order| ==> order[i] != order[k])
    && (forall i :: 0 <= i < |order| ==> order[i] in ids)
    && (forall id :: id in ids ==> id in order)
  }

  function Pick(jobs: map<int, Job>, order: seq<int>, k: Conn): (js: seq<Job>)
    requires forall i :: 0 <= i < |order| ==> order[i] in jobs
    ensures |js| == |order|
    ensures forall i :: 0 <= i < |order| ==> js[i] == Strip(jobs[order[i]], k)
  {
    seq(|order|, i requires 0 <= i < |order| => Strip(jobs[order[i]], k))
  }

  /** The loop over extracted jobs: purge the job's queue entries, free its shares. */
  function Abandon(s: State, vs: seq<Job>): State
    decreases |vs|
  {
    if vs == [] then s
    else Abandon(FreeAll(PurgeJob(s, vs[0].id), vs[0].id, vs[0].confirmed), vs[1..])
  }

  /** process_disconnect; `order` is the order in which the table yields the
      extracted jobs. */
  function OnDisconnect(s: State, k: Conn, order: seq<int>): State
    requires Enumerates(order, Victims(s.jobs, k))
  {
    var t := PurgeConn(s, k).(jobs := Kept(s.jobs, k));
    var u := Abandon(t, Pick(s.jobs, order, k));
    u.(conns := CT.DeleteByConn(u.conns, k))
  }

  /** process_connection_failed. */
  function OnConnFailed(s: State, k: Conn, order: seq<int>): State
    requires Enumerates(order, Victims(s.jobs, k))
  {
    Abandon(s.(jobs := Kept(s.jobs, k)), Pick(s.jobs, order, k))
  }

  function OnConn(ps: seq<OutReq>, k: Conn): seq<OutReq> {
    if ps == [] then []
    else if ps[0].conn == k then OnConn(ps[1..], k) + [ps[0]]
    else OnConn(ps[1..], k)
  }

  /** tabla_jobs_get_pendientes_by_conn: each find is linked at the head. */
  function Awaiting(jobs: map<int, Job>, order: seq<int>, k: Conn): seq<OutReq>
    requires forall i :: 0 <= i < |order| ==> order[i] in jobs
  {
    if order == [] then []
    else Awaiting(jobs, order[1..], k) + OnConn(jobs[order[0]].pending, k)
  }

  function Open(s: State, k: Conn, ps: seq<OutReq>): State
    decreases |ps|
  {
    if ps == [] then s
    else
      var t := s.(conns := CT.Insert(s.conns, ps[0].host, k));
      Open(if ps[0].held.Some? then t.Send(k, ps[0].held.value) else t, k, ps[1..])
  }

  /** process_connection_ready; `order` is the order of the walk over the table. */
  function OnConnReady(s: State, k: Conn, order: seq<int>): State
    requires Enumerates(order, s.jobs.Keys)
  {
    Open(s, k, Awaiting(s.jobs, order, k))
  }
}
