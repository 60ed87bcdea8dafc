/** The resource manager as the program keeps it: three counters, each with its
    linked queue, the hash table of jobs, the hash table of connections and the
    messages sent, all changed in place by the message handlers. Every handler is
    shown to compute its state function. */
module Manager {
  import opened Types
  import opened Seqs
  import opened Allocator
  import opened Ledger
  import opened WaitQueue
  import JT = JobTable
  import CI = ConnIndex
  import CT = ConnTable
  import opened Runs

  /** Job ids are non-negative: they index the buckets of the table. */
  ghost predicate Ids(q: seq<Pending>) {
    forall p :: p in q ==> p.job >= 0
  }

  /** What reserve_resource answers, as far as its counter is concerned. */
  function Verdict(c: Resource, amount: int): Outcome {
    if c.avail >= amount then RmGranted else if c.total < amount then RmDenied else RmQueued
  }

  /** The counter or the queue charged with a request. */
  function Charged(c: Resource, p: Pending): Resource {
    match Verdict(c, p.amount)
    case RmGranted => c.(avail := c.avail - p.amount, lent := c.lent + if p.origin == Remote then p.amount else 0)
    case RmDenied => c
    case RmQueued => c.(queue := c.queue + [p])
  }

  /** release_resource before its loop. */
  function Topped(c: Resource, amount: int): Resource {
    if Accepts(c, amount) then c.(avail := c.avail + amount) else c
  }

  function RepaidIn(c: Resource, amount: int): Resource {
    if Accepts(c, amount) then c.(lent := c.lent - amount) else c
  }

  lemma ReservesAs(s: State, r: Res, amount: int, id: int, k: Conn, origin: Origin)
    ensures var p := Pending(id, amount, k, origin);
            ReserveRes(s, r, amount, id, k, origin) == (s.Put(r, Charged(s.At(r), p)), Verdict(s.At(r), amount))
  {
    assert s.Put(r, s.At(r)) == s;
  }

  /** The oldest request taken off and paid. */
  function Paid(c: Resource): Resource
    requires c.queue != []
  {
    var p := c.queue[0];
    c.(avail := c.avail - p.amount, queue := c.queue[1..], lent := c.lent + if p.origin == Remote then p.amount else 0,
       served := c.served + [p])
  }

  function Answered(s: State, p: Pending): State {
    if p.origin == Remote then s.Send(p.owner, Granted(p.job))
    else if ReadyIn(s.jobs, p.job) then s.Send(p.owner, JobGranted(p.job))
    else s
  }

  /** GRANTED for a job of the table, from the peer registered under a host. */
  function ConfirmedBy(s: State, id: int, host: string): State
    requires id in s.jobs
  {
    var j := s.jobs[id];
    var i := FindHost(j.pending, host);
    if i == |j.pending| then s
    else
      var t := s.(jobs := s.jobs[id := Confirm(j, i)]);
      if Ready(Confirm(j, i)) then t.Send(j.conn, JobGranted(id)) else t
  }

  lemma PopsAs(s: State, r: Res)
    requires CanPop(s.At(r))
    ensures var p := s.At(r).queue[0];
            Pop(s, r) == Answered(s.Put(r, Paid(s.At(r))).(jobs := MarkIn(s.jobs, p.job, p.owner, r)), p)
    ensures |Pop(s, r).At(r).queue| < |s.At(r).queue|
  {
  }

  lemma ReleasesAs(s: State, r: Res, amount: int)
    ensures var t := s.Put(r, Topped(s.At(r), amount));
            ReleaseRes(s, r, amount) == if Accepts(s.At(r), amount) then Drain(t, r) else t
  {
    assert s.Put(r, s.At(r)) == s;
  }

  lemma RepaysAs(s: State, r: Res, amount: int)
    ensures Repaid(s, r, amount) == s.Put(r, RepaidIn(s.At(r), amount))
  {
    assert s.Put(r, s.At(r)) == s;
  }

  lemma IdsRest(q: seq<Pending>)
    requires Ids(q) && q != []
    ensures Ids(q[1..]) && q[0].job >= 0
  {
  }

  lemma IdsMore(q: seq<Pending>, p: Pending)
    requires Ids(q) && p.job >= 0
    ensures Ids(q + [p])
  {
  }

  /** A counter with the queue of those who wait for it. */
  class Recurso {
    var available: int
    const total: int
    const cola: Queue
    ghost var lent: int
    ghost var served: seq<Pending>
    ghost var Repr: set<object>

    ghost predicate Valid()
      reads this, Repr
    {
      && this in Repr && cola in Repr && (forall x :: x in cola.spine ==> x in Repr)
      && cola.Valid() && Ids(cola.Contents())
    }

    ghost function Abs(): Resource
      reads this, cola
    {
      Resource(available, total, cola.Contents(), lent, served)
    }

    constructor (amount: nat)
      ensures Valid() && fresh(Repr) && Abs() == Resource(amount, amount, [], 0, [])
    {
      available := amount;
      total := amount;
      cola := new Queue();
      lent := 0;
      served := [];
      new;
      Repr := {this, cola};
    }

    /** reserve_resource on this counter. */
    method Reserve(p: Pending) returns (o: Outcome)
      requires Valid() && p.job >= 0
      modifies Repr
      ensures Valid() && fresh(Repr - old(Repr))
      ensures o == Verdict(old(Abs()), p.amount) && Abs() == Charged(old(Abs()), p)
    {
      if available >= p.amount {
        Charge(p);
        o := RmGranted;
      } else if total < p.amount {
        o := RmDenied;
      } else {
        Wait(p);
        o := RmQueued;
      }
    }

    method Wait(p: Pending)
      requires Valid() && p.job >= 0
      modifies Repr
      ensures Valid() && fresh(Repr - old(Repr))
      ensures Abs() == old(Abs()).(queue := old(Abs()).queue + [p])
    {
      IdsMore(cola.Contents(), p);
      cola.Enqueue(p);
      Repr := Repr + set x | x in cola.spine;
    }

    /** The counter takes an amount back if it has room. */
    method GiveBack(amount: int) returns (ok: bool)
      requires Valid()
      modifies this`available
      ensures Valid() && ok == Accepts(old(Abs()), amount) && Abs() == Topped(old(Abs()), amount)
    {
      ok := amount >= 0 && available + amount <= total;
      if ok { available := available + amount; }
    }

    /** The history variable when a peer repays. */
    ghost method Repay(amount: int)
      requires Valid()
      modifies this`lent
      ensures Valid() && Abs() == RepaidIn(old(Abs()), amount)
    {
      if amount >= 0 && available + amount <= total { lent := lent - amount; }
    }

    /** Whether the oldest request can be paid. */
    method Payable() returns (b: bool)
      requires Valid()
      ensures b == CanPop(Abs())
    {
      var empty := cola.IsEmpty();
      if empty { return false; }
      var n := cola.TopAmount();
      return available >= n;
    }

    method TakeTop() returns (p: Pending)
      requires Valid() && cola.Contents() != []
      modifies Repr
      ensures Valid() && Repr == old(Repr) && p == old(Abs()).queue[0] && p.job >= 0
      ensures Abs() == old(Abs()).(queue := old(Abs()).queue[1..])
    {
      IdsRest(cola.Contents());
      var n := cola.Dequeue();
      p := n.request;
    }

    method Charge(p: Pending)
      requires Valid()
      modifies this`available, this`lent
      ensures Valid()
      ensures var c := old(Abs());
              Abs() == c.(avail := c.avail - p.amount, lent := c.lent + if p.origin == Remote then p.amount else 0)
    {
      available := available - p.amount;
      if p.origin == Remote { lent := lent + p.amount; }
    }

    /** Takes the oldest request off the queue and pays it. */
    method PayTop() returns (p: Pending)
      requires Valid() && CanPop(Abs())
      modifies Repr
      ensures Valid() && Repr == old(Repr) && p == old(Abs()).queue[0] && p.job >= 0
      ensures Abs() == Paid(old(Abs()))
    {
      p := TakeTop();
      Charge(p);
      served := served + [p];
    }

    method DropJobId(id: int)
      requires Valid()
      modifies Repr
      ensures Valid() && Repr == old(Repr) && Abs() == PurgeJobIn(old(Abs()), id)
    {
      DroppedJob(cola.Contents(), id);
      cola.DeleteByJobId(id);
    }

    method DropOwner(k: Conn)
      requires Valid()
      modifies Repr
      ensures Valid() && Repr == old(Repr) && Abs() == PurgeConnIn(old(Abs()), k)
    {
      DroppedConn(cola.Contents(), k);
      cola.DeleteByConn(k);
    }
  }

  /** The three counters of the manager, no two of which share anything. */
  class Recursos {
    const cpu: Recurso
    const mem: Recurso
    const gpu: Recurso
    ghost var Repr: set<object>

    function Of(r: Res): Recurso {
      match r
      case Cpu => cpu
      case Mem => mem
      case Gpu => gpu
    }

    /** The counter is whole, and part of this object. */
    ghost predicate Own(r: Res)
      reads this, Repr
    {
      this in Repr && Of(r) in Repr && Of(r).Repr <= Repr && this !in Of(r).Repr && Of(r).Valid()
    }

    ghost predicate Valid()
      reads this, Repr
    {
      && this in Repr
      && (forall r: Res {:trigger Own(r)} :: Own(r))
      && (forall r: Res, x: Res {:trigger Own(r), Own(x)} :: r != x && Own(r) && Own(x) ==> Of(r).Repr !! Of(x).Repr)
    }

    /** The same, but one counter may have grown out of this object's footprint. */
    ghost predicate Loose(r: Res)
      reads this, Repr, cpu, mem, gpu, Of(r).Repr
    {
      && this in Repr && Of(r) in Repr && this !in Of(r).Repr && Of(r).Valid()
      && (forall x: Res {:trigger Own(x)} :: x != r ==> Own(x) && Of(x).Repr !! Of(r).Repr)
      && (forall x: Res, y: Res {:trigger Own(x), Own(y)} :: x != y && x != r && y != r ==> Of(x).Repr !! Of(y).Repr)
    }

    lemma Whole(r: Res)
      requires Loose(r) && Of(r).Repr <= Repr
      ensures Valid()
    {
      forall x: Res ensures Own(x) { assert x != r ==> Own(x); }
    }

    ghost function Abs(): Bank
      reads this, cpu, cpu.cola, mem, mem.cola, gpu, gpu.cola
    {
      Bank(cpu.Abs(), mem.Abs(), gpu.Abs())
    }

    /** The other counters do not notice what happens to one. */
    twostate lemma Beside(r: Res)
      requires old(Valid()) && Of(r).Valid()
      requires unchanged(old(Repr) - old(Of(r).Repr)) && fresh(Of(r).Repr - old(Of(r).Repr))
      ensures Loose(r) && Repr == old(Repr)
      ensures Abs() == old(Abs()).With(r, Of(r).Abs())
    {
      assert old(Own(r)) && old(Own(Cpu)) && old(Own(Mem)) && old(Own(Gpu));
      forall x: Res | x != r ensures Own(x) && Of(x).Repr !! Of(r).Repr { assert old(Own(x)); }
    }

    ghost method Absorb(r: Res)
      requires Loose(r)
      modifies this`Repr
      ensures Valid() && Abs() == old(Abs()) && Repr == old(Repr) + Of(r).Repr
    {
      Repr := Repr + Of(r).Repr;
      forall x: Res | x != r ensures Own(x) && Of(x).Repr !! Of(r).Repr { assert old(Own(x)); }
      forall x: Res, y: Res | x != y && x != r && y != r ensures Of(x).Repr !! Of(y).Repr {
        assert old(Own(x)) && old(Own(y));
      }
      Whole(r);
    }

    /** Three counters that share nothing; `all` holds their footprints. */
    constructor (cpu: Recurso, mem: Recurso, gpu: Recurso, ghost all: set<object>)
      requires cpu.Valid() && mem.Valid() && gpu.Valid()
      requires cpu.Repr <= all && mem.Repr <= all && gpu.Repr <= all
      requires cpu.Repr !! mem.Repr && cpu.Repr !! gpu.Repr && mem.Repr !! gpu.Repr
      ensures Valid() && Abs() == Bank(cpu.Abs(), mem.Abs(), gpu.Abs()) && Repr == {this} + all
    {
      this.cpu := cpu;
      this.mem := mem;
      this.gpu := gpu;
      Repr := {this} + all;
      new;
      forall r: Res ensures Own(r) {
        match r
        case Cpu => assert Of(r) == cpu;
        case Mem => assert Of(r) == mem;
        case Gpu => assert Of(r) == gpu;
      }
    }

    /** reserve_resource. */
    method Reserve(r: Res, p: Pending) returns (o: Outcome)
      requires Valid() && p.job >= 0
      modifies Repr
      ensures Valid() && fresh(Repr - old(Repr))
      ensures o == Verdict(old(Abs()).At(r), p.amount) && Abs() == old(Abs()).With(r, Charged(old(Abs()).At(r), p))
    {
      assert Own(r) && Of(r).Abs() == Abs().At(r);
      o := Of(r).Reserve(p);
      Beside(r);
      Absorb(r);
    }

    method GiveBack(r: Res, amount: int) returns (ok: bool)
      requires Valid()
      modifies Repr
      ensures Valid() && Repr == old(Repr) && ok == Accepts(old(Abs()).At(r), amount)
      ensures Abs() == old(Abs()).With(r, Topped(old(Abs()).At(r), amount))
    {
      assert Own(r) && Of(r).Abs() == Abs().At(r);
      ok := Of(r).GiveBack(amount);
      Beside(r);
      Whole(r);
    }

    ghost method Repay(r: Res, amount: int)
      requires Valid()
      modifies Repr
      ensures Valid() && Repr == old(Repr) && Abs() == old(Abs()).With(r, RepaidIn(old(Abs()).At(r), amount))
    {
      assert Own(r) && Of(r).Abs() == Abs().At(r);
      Of(r).Repay(amount);
      Beside(r);
      Whole(r);
    }

    method Payable(r: Res) returns (b: bool)
      requires Valid()
      ensures b == CanPop(Abs().At(r))
    {
      assert Own(r) && Of(r).Abs() == Abs().At(r);
      b := Of(r).Payable();
    }

    method PayTop(r: Res) returns (p: Pending)
      requires Valid() && CanPop(Abs().At(r))
      modifies Repr
      ensures Valid() && Repr == old(Repr) && p == old(Abs()).At(r).queue[0] && p.job >= 0
      ensures Abs() == old(Abs()).With(r, Paid(old(Abs()).At(r)))
    {
      assert Own(r) && Of(r).Abs() == Abs().At(r);
      p := Of(r).PayTop();
      Beside(r);
      Whole(r);
    }

    /** limpiar_colas_por_id. */
    method LimpiarColasPorId(id: int)
      requires Valid()
      modifies Repr
      ensures Valid() && Repr == old(Repr)
      ensures Abs() == Bank(PurgeJobIn(old(Abs()).cpu, id), PurgeJobIn(old(Abs()).mem, id),
              PurgeJobIn(old(Abs()).gpu, id))
    {
      Drop(Cpu, id);
      Drop(Mem, id);
      Drop(Gpu, id);
    }

    method Drop(r: Res, id: int)
      requires Valid()
      modifies Repr
      ensures Valid() && Repr == old(Repr) && Abs() == old(Abs()).With(r, PurgeJobIn(old(Abs()).At(r), id))
    {
      assert Own(r) && Of(r).Abs() == Abs().At(r);
      Of(r).DropJobId(id);
      Beside(r);
      Whole(r);
    }

    /** limpiar_colas_por_conn. */
    method LimpiarColasPorConn(k: Conn)
      requires Valid()
      modifies Repr
      ensures Valid() && Repr == old(Repr)
      ensures Abs() == Bank(PurgeConnIn(old(Abs()).cpu, k), PurgeConnIn(old(Abs()).mem, k),
              PurgeConnIn(old(Abs()).gpu, k))
    {
      DropOf(Cpu, k);
      DropOf(Mem, k);
      DropOf(Gpu, k);
    }

    method DropOf(r: Res, k: Conn)
      requires Valid()
      modifies Repr
      ensures Valid() && Repr == old(Repr) && Abs() == old(Abs()).With(r, PurgeConnIn(old(Abs()).At(r), k))
    {
      assert Own(r) && Of(r).Abs() == Abs().At(r);
      Of(r).DropOwner(k);
      Beside(r);
      Whole(r);
    }
  }

  class Agent {
    const ip: string
    const recursos: Recursos
    const tabla: JT.Table
    const conns: CI.Index
    var log: seq<Out>

    /** No part of the agent is shared with another. */
    ghost predicate Apart()
      reads recursos
    {
      && (tabla.buckets as object) != conns.buckets
      && this !in recursos.Repr && tabla !in recursos.Repr
      && tabla.buckets !in recursos.Repr && conns.buckets !in recursos.Repr
    }

    ghost predicate Valid()
      reads this, recursos, recursos.Repr, tabla, tabla.buckets, conns.buckets
    {
      Apart() && recursos.Valid() && tabla.Valid() && conns.Valid()
    }

    ghost function Abs(): State
      requires conns.Valid()
      reads this, recursos, recursos.cpu, recursos.mem, recursos.gpu, recursos.cpu.cola, recursos.mem.cola,
            recursos.gpu.cola
      reads tabla, conns.buckets
    {
      State(ip, recursos.Abs(), tabla.view, conns.View(), log)
    }

    constructor (ip: string, recursos: Recursos, tabla: JT.Table, conns: CI.Index)
      requires recursos.Valid() && tabla.Valid() && conns.Valid() && (tabla.buckets as object) != conns.buckets
      requires tabla !in recursos.Repr && tabla.buckets !in recursos.Repr && conns.buckets !in recursos.Repr
      ensures Valid() && Abs() == State(ip, recursos.Abs(), tabla.view, conns.View(), [])
    {
      this.ip := ip;
      this.recursos := recursos;
      this.tabla := tabla;
      this.conns := conns;
      log := [];
    }

    // -------------------------------------------------------------- the parts one by one

    method SendMessage(k: Conn, m: Msg)
      requires Valid()
      modifies this`log
      ensures Valid() && recursos.Repr == old(recursos.Repr) && Abs() == old(Abs()).Send(k, m)
    {
      log := log + [Out(k, m)];
    }

    /** reserve_resource. */
    method ReserveResource(r: Res, amount: int, id: int, k: Conn, origin: Origin) returns (o: Outcome)
      requires Valid() && id >= 0
      modifies this, tabla, tabla.buckets, conns.buckets, recursos.Repr
      ensures Valid() && fresh(recursos.Repr - old(recursos.Repr))
      ensures var (t, w) := ReserveRes(old(Abs()), r, amount, id, k, origin); Abs() == t && o == w
    {
      ReservesAs(Abs(), r, amount, id, k, origin);
      o := Reserving(r, Pending(id, amount, k, origin));
    }

    method Reserving(r: Res, p: Pending) returns (o: Outcome)
      requires Valid() && p.job >= 0
      modifies this, tabla, tabla.buckets, conns.buckets, recursos.Repr
      ensures Valid() && fresh(recursos.Repr - old(recursos.Repr))
      ensures o == Verdict(old(Abs()).At(r), p.amount) && Abs() == old(Abs()).Put(r, Charged(old(Abs()).At(r), p))
    {
      o := recursos.Reserve(r, p);
    }

    /** tabla_jobs_cambio_alloc. */
    method CambioAlloc(id: int, k: Conn, r: Res)
      requires Valid() && id >= 0
      modifies this, tabla, tabla.buckets, conns.buckets, recursos.Repr
      ensures Valid() && recursos.Repr == old(recursos.Repr)
      ensures Abs() == old(Abs()).(jobs := MarkIn(old(Abs()).jobs, id, k, r))
    {
      tabla.CambioAlloc(id, k, r);
    }

    method PayTop(r: Res) returns (p: Pending)
      requires Valid() && CanPop(Abs().At(r))
      modifies this, tabla, tabla.buckets, conns.buckets, recursos.Repr
      ensures Valid() && recursos.Repr == old(recursos.Repr) && p == old(Abs()).At(r).queue[0] && p.job >= 0
      ensures Abs() == old(Abs()).Put(r, Paid(old(Abs()).At(r)))
    {
      p := recursos.PayTop(r);
    }

    method GiveBack(r: Res, amount: int) returns (ok: bool)
      requires Valid()
      modifies this, tabla, tabla.buckets, conns.buckets, recursos.Repr
      ensures Valid() && recursos.Repr == old(recursos.Repr) && ok == Accepts(old(Abs()).At(r), amount)
      ensures Abs() == old(Abs()).Put(r, Topped(old(Abs()).At(r), amount))
    {
      ok := recursos.GiveBack(r, amount);
    }

    ghost method Repay(r: Res, amount: int)
      requires Valid()
      modifies this, tabla, tabla.buckets, conns.buckets, recursos.Repr
      ensures Valid() && recursos.Repr == old(recursos.Repr) && Abs() == Repaid(old(Abs()), r, amount)
    {
      RepaysAs(Abs(), r, amount);
      recursos.Repay(r, amount);
    }

    method Payable(r: Res) returns (b: bool)
      requires Valid()
      ensures b == CanPop(Abs().At(r))
    {
      b := recursos.Payable(r);
    }

    /** limpiar_colas_por_id. */
    method LimpiarColasPorId(id: int)
      requires Valid()
      modifies this, tabla, tabla.buckets, conns.buckets, recursos.Repr
      ensures Valid() && recursos.Repr == old(recursos.Repr) && Abs() == PurgeJob(old(Abs()), id)
    {
      recursos.LimpiarColasPorId(id);
    }

    /** limpiar_colas_por_conn. */
    method LimpiarColasPorConn(k: Conn)
      requires Valid()
      modifies this, tabla, tabla.buckets, conns.buckets, recursos.Repr
      ensures Valid() && recursos.Repr == old(recursos.Repr) && Abs() == PurgeConn(old(Abs()), k)
    {
      recursos.LimpiarColasPorConn(k);
    }

    // -------------------------------------------------------------- the tables

    /** tabla_jobs_verificar. */
    method Verificar(id: int) returns (ready: bool)
      requires Valid() && id >= 0
      ensures ready <==> ReadyIn(Abs().jobs, id)
    {
      ready := tabla.Verificar(id);
    }

    method Insertar(j: Job)
      requires Valid() && j.id >= 0 && j.id !in Abs().jobs
      modifies this, tabla, tabla.buckets, conns.buckets, recursos.Repr
      ensures Valid() && recursos.Repr == old(recursos.Repr)
      ensures Abs() == old(Abs()).(jobs := old(Abs()).jobs[j.id := j])
    {
      tabla.Insertar(j);
    }

    method Extraer(id: int) returns (j: Option<Job>)
      requires Valid() && id >= 0
      modifies this, tabla, tabla.buckets, conns.buckets, recursos.Repr
      ensures Valid() && recursos.Repr == old(recursos.Repr)
      ensures Abs() == old(Abs()).(jobs := old(Abs()).jobs - {id})
      ensures j == if id in old(Abs()).jobs then Some(old(Abs()).jobs[id]) else None
    {
      j := tabla.ExtractById(id);
    }

    method Confirmar(id: int, host: string) returns (ok: bool)
      requires Valid() && id >= 0
      modifies this, tabla, tabla.buckets, conns.buckets, recursos.Repr
      ensures Valid() && recursos.Repr == old(recursos.Repr)
      ensures ok <==> id in old(Abs()).jobs
                      && FindHost(old(Abs()).jobs[id].pending, host) < |old(Abs()).jobs[id].pending|
      ensures Abs() == if !ok then old(Abs())
                       else var j := old(Abs()).jobs[id];
                           old(Abs()).(jobs := old(Abs()).jobs[id := Confirm(j, FindHost(j.pending, host))])
    {
      ok := tabla.Confirmar(id, host);
    }

    method ExtraerPorConn(k: Conn) returns (vs: seq<Job>, ghost order: seq<int>)
      requires Valid()
      modifies this, tabla, tabla.buckets, conns.buckets, recursos.Repr
      ensures Valid() && recursos.Repr == old(recursos.Repr)
      ensures Abs() == old(Abs()).(jobs := Kept(old(Abs()).jobs, k))
      ensures Enumerates(order, Victims(old(Abs()).jobs, k)) && vs == Pick(old(Abs()).jobs, order, k)
    {
      vs := tabla.ExtractByRemoteConn(k);
      order := JT.IdsOf(vs);
    }

    method Conectar(host: string, k: Conn)
      requires Valid()
      modifies this, tabla, tabla.buckets, conns.buckets, recursos.Repr
      ensures Valid() && recursos.Repr == old(recursos.Repr)
      ensures Abs() == old(Abs()).(conns := CT.Insert(old(Abs()).conns, host, k))
    {
      conns.Insertar(host, k);
    }

    method Desconectar(k: Conn)
      requires Valid()
      modifies this, tabla, tabla.buckets, conns.buckets, recursos.Repr
      ensures Valid() && recursos.Repr == old(recursos.Repr)
      ensures Abs() == old(Abs()).(conns := CT.DeleteByConn(old(Abs()).conns, k))
    {
      conns.BorrarPorConn(k);
    }

    // -------------------------------------------------------------- releasing

    /** The answer to a request that was just granted. */
    method Answer(p: Pending)
      requires Valid() && p.job >= 0
      modifies this`log
      ensures Valid() && recursos.Repr == old(recursos.Repr) && Abs() == Answered(old(Abs()), p)
    {
      if p.origin == Remote {
        SendMessage(p.owner, Granted(p.job));
      } else {
        var ready := Verificar(p.job);
        if ready { SendMessage(p.owner, JobGranted(p.job)); }
      }
    }

    /** One turn of the release loop: dequeue, pay, mark, answer. */
    method GrantHead(r: Res)
      requires Valid() && CanPop(Abs().At(r))
      modifies this, tabla, tabla.buckets, conns.buckets, recursos.Repr
      ensures Valid() && recursos.Repr == old(recursos.Repr) && Abs() == Pop(old(Abs()), r)
      ensures |Abs().At(r).queue| < |old(Abs()).At(r).queue|
    {
      PopsAs(Abs(), r);
      var p := PayTop(r);
      CambioAlloc(p.job, p.owner, r);
      Answer(p);
    }

    /** The release loop. */
    method Drenar(r: Res)
      requires Valid()
      modifies this, tabla, tabla.buckets, conns.buckets, recursos.Repr
      ensures Valid() && recursos.Repr == old(recursos.Repr) && Abs() == Drain(old(Abs()), r)
    {
      var more := Payable(r);
      while more
        invariant Valid() && recursos.Repr == old(recursos.Repr)
        invariant Drain(Abs(), r) == Drain(old(Abs()), r) && more == CanPop(Abs().At(r))
        decreases |Abs().At(r).queue|
      {
        GrantHead(r);
        more := Payable(r);
      }
    }

    /** release_resource. */
    method ReleaseResource(r: Res, amount: int)
      requires Valid()
      modifies this, tabla, tabla.buckets, conns.buckets, recursos.Repr
      ensures Valid() && recursos.Repr == old(recursos.Repr) && Abs() == ReleaseRes(old(Abs()), r, amount)
    {
      ReleasesAs(Abs(), r, amount);
      var ok := GiveBack(r, amount);
      if ok { Drenar(r); }
    }

    // -------------------------------------------------------------- freeing shares

    /** One confirmed share of a job that goes away. */
    method FreeShare(id: int, a: Alloc)
      requires Valid()
      modifies this, tabla, tabla.buckets, conns.buckets, recursos.Repr
      ensures Valid() && recursos.Repr == old(recursos.Repr) && Abs() == FreeAlloc(old(Abs()), id, a)
    {
      if a.kind == Local && a.outcome == RmGranted {
        ReleaseResource(a.res, a.amount);
      } else if a.kind == Remote {
        var remote := conns.Buscar(a.host);
        if remote.Some? { SendMessage(remote.value, Release(id, a.res, a.amount)); }
      }
    }

    method FreeShares(id: int, as_: seq<Alloc>)
      requires Valid()
      modifies this, tabla, tabla.buckets, conns.buckets, recursos.Repr
      ensures Valid() && recursos.Repr == old(recursos.Repr) && Abs() == FreeAll(old(Abs()), id, as_)
    {
      var i := 0;
      while i < |as_|
        invariant i <= |as_| && Valid() && recursos.Repr == old(recursos.Repr)
        invariant FreeAll(Abs(), id, as_[i..]) == FreeAll(old(Abs()), id, as_)
      {
        assert as_[i..][1..] == as_[i+1..];
        FreeShare(id, as_[i]);
        i := i + 1;
      }
    }

    /** tabla_jobs_remove. */
    method TablaJobsRemove(id: int)
      requires Valid() && id >= 0
      modifies this, tabla, tabla.buckets, conns.buckets, recursos.Repr
      ensures Valid() && recursos.Repr == old(recursos.Repr) && Abs() == RemoveJob(old(Abs()), id)
    {
      ghost var jobs := Abs().jobs;
      var j := Extraer(id);
      if j.Some? {
        FreeShares(id, j.value.confirmed);
      } else {
        assert jobs - {id} == jobs;
      }
    }

    // -------------------------------------------------------------- messages of peers

    method ProcessReserve(k: Conn, id: int, r: Res, amount: int)
      requires Valid() && id >= 0
      modifies this, tabla, tabla.buckets, conns.buckets, recursos.Repr
      ensures Valid() && fresh(recursos.Repr - old(recursos.Repr)) && Abs() == OnReserve(old(Abs()), k, id, r, amount)
    {
      var o := ReserveResource(r, amount, id, k, Remote);
      if o == RmDenied {
        SendMessage(k, Denied(id));
      } else if o == RmGranted {
        SendMessage(k, Granted(id));
      }
    }

    method ProcessRelease(id: int, r: Res, amount: int)
      requires Valid() && id >= 0
      modifies this, tabla, tabla.buckets, conns.buckets, recursos.Repr
      ensures Valid() && recursos.Repr == old(recursos.Repr) && Abs() == OnRelease(old(Abs()), id, r, amount)
    {
      if amount != 0 {
        Repay(r, amount);
        ReleaseResource(r, amount);
      }
      TablaJobsRemove(id);
      LimpiarColasPorId(id);
    }

    /** GRANTED for a job that is gone: the peer is asked to clean up. */
    method Disown(k: Conn, id: int)
      requires Valid()
      modifies this`log
      ensures Valid() && recursos.Repr == old(recursos.Repr)
      ensures Abs() == old(Abs()).Send(k, Release(id, Cpu, 0)).Send(k, Release(id, Mem, 0)).Send(k, Release(id, Gpu, 0))
    {
      SendMessage(k, Release(id, Cpu, 0));
      SendMessage(k, Release(id, Mem, 0));
      SendMessage(k, Release(id, Gpu, 0));
    }

    /** job_confirmar, and the announcement of a job that it completes. */
    method ConfirmShare(id: int, j: Job, host: string)
      requires Valid() && id >= 0 && id in Abs().jobs && Abs().jobs[id] == j
      modifies this, tabla, tabla.buckets, conns.buckets, recursos.Repr
      ensures Valid() && recursos.Repr == old(recursos.Repr) && Abs() == ConfirmedBy(old(Abs()), id, host)
    {
      var ok := Confirmar(id, host);
      if ok {
        var ready := Verificar(id);
        if ready { SendMessage(j.conn, JobGranted(id)); }
      }
    }

    /** GRANTED: job_confirmar scans the outgoing requests for the peer's host. */
    method ProcessGranted(k: Conn, id: int)
      requires Valid() && id >= 0
      modifies this, tabla, tabla.buckets, conns.buckets, recursos.Repr
      ensures Valid() && recursos.Repr == old(recursos.Repr) && Abs() == OnGranted(old(Abs()), k, id)
    {
      var host := conns.HostPorConn(k);
      if host.None? { return; }
      var j := tabla.BuscarPorId(id);
      if j.None? {
        Disown(k, id);
      } else {
        ConfirmShare(id, j.value, host.value);
      }
    }

    method ProcessDenied(id: int)
      requires Valid() && id >= 0
      modifies this, tabla, tabla.buckets, conns.buckets, recursos.Repr
      ensures Valid() && recursos.Repr == old(recursos.Repr) && Abs() == OnDenied(old(Abs()), id)
    {
      var j := tabla.BuscarPorId(id);
      if j.Some? {
        TablaJobsRemove(id);
        SendMessage(j.value.conn, JobDenied(id));
      }
      LimpiarColasPorId(id);
    }

    // -------------------------------------------------------------- messages of the planner

    /** One share of a JOB_REQUEST: kept in the job, or refused. */
    method RequestShare(j: Job, q: Req) returns (j': Job, refused: bool)
      requires Valid() && j.id >= 0
      modifies this, tabla, tabla.buckets, conns.buckets, recursos.Repr
      ensures Valid() && fresh(recursos.Repr - old(recursos.Repr)) && j'.id == j.id && j'.conn == j.conn
      ensures Abs().jobs == old(Abs()).jobs
      ensures forall rest: seq<Req> :: Build(old(Abs()), j, [q] + rest)
                == if refused then Refused(Abs(), j') else Build(Abs(), j', rest)
    {
      ghost var s := Abs();
      refused := false;
      j' := j;
      if q.host == ip {
        var o := ReserveResource(q.res, q.amount, j.id, j.conn, Local);
        if o == RmDenied {
          refused := true;
        } else {
          j' := j.(confirmed := [Alloc(q.res, q.amount, Local, ip, j.id, o, j.conn)] + j.confirmed);
        }
      } else {
        var remote := conns.Buscar(q.host);
        if remote.Some? {
          SendMessage(remote.value, Reserve(j.id, q.res, q.amount));
          j' := Ask(j, q, remote.value, None);
        } else if q.dial.None? {
          refused := true;
        } else {
          j' := Ask(j, q, q.dial.value, Some(Reserve(j.id, q.res, q.amount)));
        }
      }
      forall rest: seq<Req>
        ensures Build(s, j, [q] + rest) == if refused then Refused(Abs(), j') else Build(Abs(), j', rest)
      {
        Parts([q], rest);
      }
    }

    /** A refused request is undone. */
    method Refuse(k: Conn, id: int, as_: seq<Alloc>)
      requires Valid()
      modifies this, tabla, tabla.buckets, conns.buckets, recursos.Repr
      ensures Valid() && recursos.Repr == old(recursos.Repr)
      ensures Abs() == FreeAll(PurgeJob(old(Abs()), id), id, as_).Send(k, JobDenied(id))
    {
      LimpiarColasPorId(id);
      FreeShares(id, as_);
      SendMessage(k, JobDenied(id));
    }

    method Accept(k: Conn, j: Job)
      requires Valid() && j.id >= 0 && j.id !in Abs().jobs
      modifies this, tabla, tabla.buckets, conns.buckets, recursos.Repr
      ensures Valid() && recursos.Repr == old(recursos.Repr)
      ensures var u := old(Abs()).(jobs := old(Abs()).jobs[j.id := j]);
              Abs() == if Ready(j) then u.Send(k, JobGranted(j.id)) else u
    {
      Insertar(j);
      var ready := Verificar(j.id);
      if ready { SendMessage(k, JobGranted(j.id)); }
    }

    /** The loop over the shares of a request. */
    method BuildJob(j0: Job, reqs: seq<Req>) returns (j: Job, refused: bool)
      requires Valid() && j0.id >= 0
      modifies this, tabla, tabla.buckets, conns.buckets, recursos.Repr
      ensures Valid() && fresh(recursos.Repr - old(recursos.Repr)) && j.id == j0.id && j.conn == j0.conn
      ensures Abs().jobs == old(Abs()).jobs
      ensures Build(old(Abs()), j0, reqs) == if refused then Refused(Abs(), j) else Built(Abs(), j)
    {
      j, refused := j0, false;
      var i := 0;
      while i < |reqs|
        invariant i <= |reqs| && Valid() && fresh(recursos.Repr - old(recursos.Repr))
        invariant j.id == j0.id && j.conn == j0.conn && Abs().jobs == old(Abs()).jobs
        invariant !refused && Build(Abs(), j, reqs[i..]) == Build(old(Abs()), j0, reqs)
      {
        assert reqs[i..] == [reqs[i]] + reqs[i+1..];
        j, refused := RequestShare(j, reqs[i]);
        if refused { return; }
        i := i + 1;
      }
    }

    method ProcessJobRequest(k: Conn, id: int, reqs: seq<Req>)
      requires Valid() && id >= 0
      modifies this, tabla, tabla.buckets, conns.buckets, recursos.Repr
      ensures Valid() && fresh(recursos.Repr - old(recursos.Repr)) && Abs() == OnJobRequest(old(Abs()), k, id, reqs)
    {
      var known := tabla.BuscarPorId(id);
      if known.Some? { return; }
      var j, refused := BuildJob(Job(id, k, [], []), reqs);
      if refused {
        Refuse(k, id, j.confirmed);
      } else {
        Accept(k, j);
      }
    }

    /** JOB_RELEASE, one confirmed share. */
    method ReturnShare(a: Alloc)
      requires Valid()
      modifies this, tabla, tabla.buckets, conns.buckets, recursos.Repr
      ensures Valid() && recursos.Repr == old(recursos.Repr) && Abs() == ReturnAlloc(old(Abs()), a)
    {
      if a.kind == Local && a.outcome == RmGranted {
        ReleaseResource(a.res, a.amount);
      } else {
        LimpiarColasPorId(a.job);
      }
      if a.kind == Remote { SendMessage(a.conn, Release(a.job, a.res, a.amount)); }
    }

    method ReturnShares(as_: seq<Alloc>)
      requires Valid()
      modifies this, tabla, tabla.buckets, conns.buckets, recursos.Repr
      ensures Valid() && recursos.Repr == old(recursos.Repr) && Abs() == ReturnAll(old(Abs()), as_)
    {
      var i := 0;
      while i < |as_|
        invariant i <= |as_| && Valid() && recursos.Repr == old(recursos.Repr)
        invariant ReturnAll(Abs(), as_[i..]) == ReturnAll(old(Abs()), as_)
      {
        assert as_[i..][1..] == as_[i+1..];
        ReturnShare(as_[i]);
        i := i + 1;
      }
    }

    method ProcessJobRelease(id: int)
      requires Valid() && id >= 0
      modifies this, tabla, tabla.buckets, conns.buckets, recursos.Repr
      ensures Valid() && recursos.Repr == old(recursos.Repr) && Abs() == OnJobRelease(old(Abs()), id)
    {
      ghost var jobs := Abs().jobs;
      var j := Extraer(id);
      if j.None? {
        assert jobs - {id} == jobs;
        return;
      }
      ReturnShares(j.value.confirmed);
      LimpiarColasPorId(id);
    }

    method ProcessJobTimeout(id: int)
      requires Valid() && id >= 0
      modifies this, tabla, tabla.buckets, conns.buckets, recursos.Repr
      ensures Valid() && recursos.Repr == old(recursos.Repr) && Abs() == OnJobTimeout(old(Abs()), id)
    {
      TablaJobsRemove(id);
      LimpiarColasPorId(id);
    }

    // -------------------------------------------------------------- connections

    /** The loop over the list of extracted jobs. */
    method AbandonJobs(vs: seq<Job>)
      requires Valid()
      modifies this, tabla, tabla.buckets, conns.buckets, recursos.Repr
      ensures Valid() && recursos.Repr == old(recursos.Repr) && Abs() == Abandon(old(Abs()), vs)
    {
      var i := 0;
      while i < |vs|
        invariant i <= |vs| && Valid() && recursos.Repr == old(recursos.Repr)
        invariant Abandon(Abs(), vs[i..]) == Abandon(old(Abs()), vs)
      {
        assert vs[i..][1..] == vs[i+1..];
        LimpiarColasPorId(vs[i].id);
        FreeShares(vs[i].id, vs[i].confirmed);
        i := i + 1;
      }
    }

    /** process_disconnect, in the order in which the walk of the table yields the jobs. */
    method ProcessDisconnect(k: Conn) returns (ghost order: seq<int>)
      requires Valid()
      modifies this, tabla, tabla.buckets, conns.buckets, recursos.Repr
      ensures Valid() && recursos.Repr == old(recursos.Repr)
      ensures Enumerates(order, Victims(old(Abs()).jobs, k)) && Abs() == OnDisconnect(old(Abs()), k, order)
    {
      LimpiarColasPorConn(k);
      var vs;
      vs, order := ExtraerPorConn(k);
      AbandonJobs(vs);
      Desconectar(k);
    }

    /** process_connection_failed. */
    method ProcessConnectionFailed(k: Conn) returns (ghost order: seq<int>)
      requires Valid()
      modifies this, tabla, tabla.buckets, conns.buckets, recursos.Repr
      ensures Valid() && recursos.Repr == old(recursos.Repr)
      ensures Enumerates(order, Victims(old(Abs()).jobs, k)) && Abs() == OnConnFailed(old(Abs()), k, order)
    {
      var vs;
      vs, order := ExtraerPorConn(k);
      AbandonJobs(vs);
    }

    /** One request that waited for the connection. */
    method OpenFor(k: Conn, o: OutReq)
      requires Valid()
      modifies this, tabla, tabla.buckets, conns.buckets, recursos.Repr
      ensures Valid() && recursos.Repr == old(recursos.Repr) && Abs().jobs == old(Abs()).jobs
      ensures forall rest: seq<OutReq> :: Open(old(Abs()), k, [o] + rest) == Open(Abs(), k, rest)
    {
      ghost var s := Abs();
      Conectar(o.host, k);
      if o.held.Some? { SendMessage(k, o.held.value); }
      forall rest: seq<OutReq> ensures Open(s, k, [o] + rest) == Open(Abs(), k, rest) { Parts([o], rest); }
    }

    method OpenAll(k: Conn, ps: seq<OutReq>)
      requires Valid()
      modifies this, tabla, tabla.buckets, conns.buckets, recursos.Repr
      ensures Valid() && recursos.Repr == old(recursos.Repr) && Abs() == Open(old(Abs()), k, ps)
    {
      var i := 0;
      while i < |ps|
        invariant i <= |ps| && Valid() && recursos.Repr == old(recursos.Repr)
        invariant Open(Abs(), k, ps[i..]) == Open(old(Abs()), k, ps)
      {
        assert ps[i..] == [ps[i]] + ps[i+1..];
        OpenFor(k, ps[i]);
        i := i + 1;
      }
    }

    /** process_connection_ready. */
    method ProcessConnectionReady(k: Conn) returns (ghost order: seq<int>)
      requires Valid()
      modifies this, tabla, tabla.buckets, conns.buckets, recursos.Repr
      ensures Valid() && recursos.Repr == old(recursos.Repr)
      ensures Enumerates(order, old(Abs()).jobs.Keys) && Abs() == OnConnReady(old(Abs()), k, order)
    {
      var ps;
      ps, order := tabla.PendientesPorConn(k);
      OpenAll(k, ps);
    }

    // -------------------------------------------------------------- any event

    /** Any message of a peer. */
    method HandlePeer(e: Event)
      requires Valid() && (e.EvReserve? || e.EvRelease? || e.EvGranted? || e.EvDenied?) && e.job >= 0
      modifies this, tabla, tabla.buckets, conns.buckets, recursos.Repr
      ensures Valid() && fresh(recursos.Repr - old(recursos.Repr)) && Abs() == Step(old(Abs()), e)
    {
      match e
      case EvReserve(k, id, r, amount) => ProcessReserve(k, id, r, amount);
      case EvRelease(_, id, r, amount) => ProcessRelease(id, r, amount);
      case EvGranted(k, id) => ProcessGranted(k, id);
      case EvDenied(_, id) => ProcessDenied(id);
    }

    /** Any message of the planner. */
    method HandlePlanner(e: Event)
      requires Valid() && (e.EvJobRequest? || e.EvJobRelease? || e.EvJobTimeout?) && e.job >= 0
      modifies this, tabla, tabla.buckets, conns.buckets, recursos.Repr
      ensures Valid() && fresh(recursos.Repr - old(recursos.Repr)) && Abs() == Step(old(Abs()), e)
    {
      match e
      case EvJobRequest(k, id, reqs) => ProcessJobRequest(k, id, reqs);
      case EvJobRelease(_, id) => ProcessJobRelease(id);
      case EvJobTimeout(_, id) => ProcessJobTimeout(id);
    }

    /** A connection opens, fails or is lost; the walk order is the table's. */
    method HandleConn(e: Event) returns (ghost order: seq<int>)
      requires Valid() && (e.EvDisconnect? || e.EvConnFailed? || e.EvConnReady?)
      modifies this, tabla, tabla.buckets, conns.buckets, recursos.Repr
      ensures Valid() && fresh(recursos.Repr - old(recursos.Repr))
      ensures Feasible(old(Abs()), e.(order := order)) && Abs() == Step(old(Abs()), e.(order := order))
    {
      match e
      case EvDisconnect(k, _) => order := ProcessDisconnect(k);
      case EvConnFailed(k, _) => order := ProcessConnectionFailed(k);
      case EvConnReady(k, _) => order := ProcessConnectionReady(k);
    }
  }

  /** manager_init. */
  method ManagerInit(ip: string, cpu: nat, mem: nat, gpu: nat) returns (a: Agent)
    ensures a.Valid()
    ensures a.Abs() == Boot(ip, cpu, mem, gpu)
  {
    var c := new Recurso(cpu);
    var m := new Recurso(mem);
    var g := new Recurso(gpu);
    var rs := new Recursos(c, m, g, c.Repr + m.Repr + g.Repr);
    var tabla := new JT.Table();
    var conns := new CI.Index();
    a := new Agent(ip, rs, tabla, conns);
  }
}
