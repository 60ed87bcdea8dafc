/** The entities the agent keeps: resources with their wait queues, jobs with
    their allocations and outgoing requests, and the messages it emits. */
module Types {

  datatype Option<+T> = None | Some(value: T)

  /** The three managed resources (resource_t). */
  datatype Res = Cpu | Mem | Gpu

  /** A connection and the side it faces: the local planner or another agent.
      The side is fixed by the listening socket that accepted it, or by having
      been dialled by this agent. */
  datatype Conn = Planner(n: nat) | Peer(n: nat)

  datatype Origin = Local | Remote

  /** A request waiting in a resource's queue. */
  datatype Pending = Pending(job: int, amount: int, owner: Conn, origin: Origin)

  datatype Outcome = RmGranted | RmQueued | RmDenied

  /** A confirmed share of a job: granted or queued here, or granted by a peer. */
  datatype Alloc = Alloc(res: Res, amount: int, kind: Origin, host: string, job: int, outcome: Outcome, conn: Conn)

  /** A share asked of a peer and not answered yet; `held` is the message that
      waits for the connection to open, if the host had to be dialled. */
  datatype OutReq = OutReq(host: string, conn: Conn, res: Res, amount: int, held: Option<Msg>)

  datatype Job = Job(id: int, conn: Conn, confirmed: seq<Alloc>, pending: seq<OutReq>)

  datatype Msg =
    | Reserve(job: int, res: Res, amount: int)
    | Release(job: int, res: Res, amount: int)
    | Granted(job: int)
    | Denied(job: int)
    | JobGranted(job: int)
    | JobDenied(job: int)

  datatype Out = Out(to: Conn, msg: Msg)

  /** One counter with its FIFO. Two history variables, which the agent itself never
      records: `lent`, the capacity granted to peers and not given back, and `served`,
      the requests granted out of the queue, in order. */
  datatype Resource = Resource(avail: int, total: int, queue: seq<Pending>, lent: int, served: seq<Pending>)

  /** The agent's `recursos[3]`. */
  datatype Bank = Bank(cpu: Resource, mem: Resource, gpu: Resource) {
    function At(r: Res): Resource {
      match r
      case Cpu => cpu
      case Mem => mem
      case Gpu => gpu
    }

    function With(r: Res, c: Resource): (b: Bank)
      ensures b.At(r) == c
      ensures forall q :: q != r ==> b.At(q) == At(q)
    {
      match r
      case Cpu => this.(cpu := c)
      case Mem => this.(mem := c)
      case Gpu => this.(gpu := c)
    }
  }

  /** strncpy into a buffer of n+1 bytes. */
  function Clip(s: string, n: nat): (t: string)
    ensures t <= s && |t| == if |s| <= n then |s| else n
  {
    if |s| <= n then s else s[..n]
  }
}
