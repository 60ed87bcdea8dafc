/** The linked wait queue, shown to be the sequence of requests that the state
    machine works on. */
module WaitQueue {
  import opened Types
  import opened Allocator
  import opened Ledger
  import opened Greedy

  class Node {
    const request: Pending
    var sig: Node?

    constructor (p: Pending)
      ensures request == p && sig == null
    {
      request := p;
      sig := null;
    }
  }

  function Values(ns: seq<Node>): (vs: seq<Pending>)
    ensures |vs| == |ns| && forall i :: 0 <= i < |ns| ==> vs[i] == ns[i].request
  {
    seq(|ns|, i requires 0 <= i < |ns| => ns[i].request)
  }

  /** The requests that a deletion spares, in order. */
  function Spare(q: seq<Pending>, gone: Pending -> bool): seq<Pending> {
    if q == [] then []
    else Spare(q[..|q|-1], gone) + if gone(q[|q|-1]) then [] else [q[|q|-1]]
  }

  lemma {:induction false} SpareFront(q: seq<Pending>, gone: Pending -> bool)
    requires q != []
    ensures Spare(q, gone) == (if gone(q[0]) then [] else [q[0]]) + Spare(q[1..], gone)
  {
    if |q| == 1 {
      assert q[..0] == [] && q[1..] == [];
    } else {
      SpareFront(q[..|q|-1], gone);
      assert q[..|q|-1][1..] == q[1..][..|q|-2];
    }
  }

  lemma {:induction false} SpareJob(q: seq<Pending>, id: int)
    ensures Spare(q, (p: Pending) => p.job == id) == DropJob(q, id)
  {
    if q != [] {
      SpareFront(q, (p: Pending) => p.job == id);
      SpareJob(q[1..], id);
    }
  }

  lemma {:induction false} SpareConn(q: seq<Pending>, k: Conn)
    ensures Spare(q, (p: Pending) => p.owner == k) == DropConn(q, k)
  {
    if q != [] {
      SpareFront(q, (p: Pending) => p.owner == k);
      SpareConn(q[1..], k);
    }
  }

  /** The successor of a position in a chain of nodes. */
  ghost function Succ(ns: seq<Node>, i: int): Node?
    requires 0 <= i < |ns|
  {
    if i + 1 < |ns| then ns[i+1] else null
  }

  ghost function Here(ns: seq<Node>, i: nat): Node? {
    if i < |ns| then ns[i] else null
  }

  ghost function Before(ns: seq<Node>, i: nat): Node? {
    if 0 < i <= |ns| then ns[i-1] else null
  }

  /** A chain without one of its nodes. */
  ghost function Without(ns: seq<Node>, i: nat): (w: seq<Node>)
    requires i < |ns|
    ensures |w| == |ns| - 1
    ensures forall n :: 0 <= n < i ==> w[n] == ns[n]
    ensures forall n :: i <= n < |w| ==> w[n] == ns[n+1]
  {
    ns[..i] + ns[i+1..]
  }

  ghost predicate Distinct(ns: seq<Node>) {
    forall i, k :: 0 <= i < k < |ns| ==> ns[i] != ns[k]
  }

  /** The two ends of a chain. */
  ghost predicate Ends(ns: seq<Node>, top: Node?, bottom: Node?) {
    top == Here(ns, 0) && bottom == Before(ns, |ns|)
  }

  lemma WithoutShape(ns: seq<Node>, i: nat, top: Node?, bottom: Node?)
    requires Distinct(ns) && 0 < i < |ns| && Ends(ns, top, bottom)
    ensures Distinct(Without(ns, i)) && Ends(Without(ns, i), top, if bottom == ns[i] then ns[i-1] else bottom)
  {
  }

  lemma SuccWithout(ns: seq<Node>, i: nat, n: nat)
    requires i < |ns| && n < |ns| - 1
    ensures Succ(Without(ns, i), n)
            == if n + 1 < i then Succ(ns, n) else if n + 1 == i then Succ(ns, i) else Succ(ns, n + 1)
  {
  }

  lemma TotalWithout(ns: seq<Node>, i: nat)
    requires i < |ns|
    ensures Total(Values(Without(ns, i))) == Total(Values(ns)) - ns[i].request.amount
  {
    var a, b, p := Values(ns[..i]), Values(ns[i+1..]), ns[i].request;
    assert Values(ns) == a + ([p] + b);
    assert ([p] + b)[1..] == b;
    TotalSplit(a, [p] + b);
    TotalSplit(a, b);
    assert Values(Without(ns, i)) == a + b;
  }

  /** Each node links to the next. */
  ghost predicate Chained(ns: seq<Node>)
    reads ns
  {
    forall i :: 0 <= i < |ns| ==> ns[i].sig == Succ(ns, i)
  }

  /** Bypassing a node leaves a chain without it. */
  lemma Bypassed(ns: seq<Node>, i: nat)
    requires 0 < i < |ns| && ns[i-1].sig == Succ(ns, i)
    requires forall n :: 0 <= n < |ns| && n != i - 1 ==> ns[n].sig == Succ(ns, n)
    ensures Chained(Without(ns, i))
  {
    var w := Without(ns, i);
    forall n | 0 <= n < |w| ensures w[n].sig == Succ(w, n) {
      SuccWithout(ns, i, n);
      assert w[n] == if n < i then ns[n] else ns[n+1];
    }
  }

  method Bypass(ghost ns: seq<Node>, ghost i: nat, prev: Node, curr: Node)
    requires Distinct(ns) && Chained(ns) && 0 < i < |ns| && prev == ns[i-1] && curr == ns[i]
    modifies prev
    ensures Chained(Without(ns, i))
  {
    assert curr.sig == Succ(ns, i);
    prev.sig := curr.sig;
    assert forall n :: 0 <= n < |ns| && n != i - 1 ==> ns[n] != prev;
    Bypassed(ns, i);
  }

  /** A new node linked after the last one. */
  method Extend(ghost ns: seq<Node>, bottom: Node, n: Node)
    requires Distinct(ns) && Chained(ns) && ns != [] && bottom == ns[|ns|-1] && n !in ns && n.sig == null
    modifies bottom
    ensures Chained(ns + [n])
  {
    bottom.sig := n;
    ghost var w := ns + [n];
    assert forall i :: 0 <= i < |ns| - 1 ==> ns[i] != bottom;
    forall i | 0 <= i < |w| ensures w[i].sig == Succ(w, i) {
      assert i < |ns| - 1 ==> w[i] == ns[i] && Succ(w, i) == Succ(ns, i);
    }
  }

  lemma SnocShape(ns: seq<Node>, n: Node, top: Node?, bottom: Node?)
    requires Distinct(ns) && Ends(ns, top, bottom) && n !in ns
    ensures Distinct(ns + [n]) && Ends(ns + [n], if ns == [] then n else top, n)
    ensures ns == [] <==> top == null && bottom == null
  {
  }

  lemma TotalSnoc(ns: seq<Node>, n: Node)
    ensures Values(ns + [n]) == Values(ns) + [n.request]
    ensures Total(Values(ns + [n])) == Total(Values(ns)) + n.request.amount
  {
    assert Values(ns + [n]) == Values(ns) + [n.request];
    TotalSplit(Values(ns), [n.request]);
    assert [n.request][1..] == [];
  }

  /** A deletion that has passed n nodes of the original chain and kept some. */
  ghost predicate Progress(was: seq<Node>, n: nat, now: seq<Node>, kept: nat, gone: Pending -> bool) {
    && n <= |was| && kept <= |now| && now[kept..] == was[n..]
    && Values(now[..kept]) == Spare(Values(was[..n]), gone)
    && (forall x :: x in now ==> x in was)
  }

  lemma ProgressStart(was: seq<Node>, gone: Pending -> bool)
    ensures Progress(was, 0, was, 0, gone) && Before(was, 0) == null
  {
    assert was[..0] == [] && Values([]) == [];
  }

  lemma ProgressNext(was: seq<Node>, n: nat, now: seq<Node>, kept: nat, gone: Pending -> bool)
    requires Progress(was, n, now, kept, gone) && kept < |now|
    ensures n < |was| && now[kept] == was[n]
    ensures Before(now, kept) != null ==> Before(now, kept) in was
    ensures gone(now[kept].request) ==> Progress(was, n + 1, Without(now, kept), kept, gone)
    ensures !gone(now[kept].request) ==> Progress(was, n + 1, now, kept + 1, gone)
  {
    var p := now[kept];
    assert p == now[kept..][0] && p == was[n..][0];
    assert now[kept+1..] == now[kept..][1..] && was[n+1..] == was[n..][1..];
    assert Values(was[..n+1]) == Values(was[..n]) + [p.request];
    if gone(p.request) {
      var w := Without(now, kept);
      assert w[..kept] == now[..kept] && w[kept..] == now[kept+1..];
      forall x | x in w ensures x in was {
        var i :| 0 <= i < |w| && w[i] == x;
        if i < kept { assert now[i] == x; } else { assert now[i+1] == x; }
      }
    } else {
      assert Values(now[..kept+1]) == Values(now[..kept]) + [p.request];
    }
  }

  lemma ProgressDone(was: seq<Node>, n: nat, now: seq<Node>, kept: nat, gone: Pending -> bool)
    requires Progress(was, n, now, kept, gone) && Here(now, kept) == null
    ensures Values(now) == Spare(Values(was), gone) && forall x :: x in now ==> x in was
  {
    assert |was[n..]| == 0;
    assert was[..n] == was && now[..kept] == now;
  }

  class Queue {
    var top: Node?
    var bottom: Node?
    var amount: int
    ghost var spine: seq<Node>

    /** The nodes form a chain from top to bottom, and `amount` caches their sum. */
    ghost predicate Valid()
      reads this, spine
    {
      && Distinct(spine)
      && Ends(spine, top, bottom)
      && Chained(spine)
      && amount == Total(Values(spine))
    }

    ghost function Contents(): seq<Pending>
      reads this
    {
      Values(spine)
    }

    /** queue_init. */
    constructor ()
      ensures Valid() && Contents() == [] && fresh(spine)
    {
      top := null;
      bottom := null;
      amount := 0;
      spine := [];
    }

    /** queue_is_empty: both ends are null exactly when nothing waits. */
    method IsEmpty() returns (b: bool)
      requires Valid()
      ensures b <==> Contents() == []
      ensures b <==> top == null
      ensures b <==> bottom == null
    {
      b := top == null && bottom == null;
      assert spine == [] <==> Values(spine) == [];
    }

    /** The amount that the oldest request asks for. */
    method TopAmount() returns (n: int)
      requires Valid() && Contents() != []
      ensures n == Contents()[0].amount
    {
      assert spine != [];
      n := top.request.amount;
    }

    /** Links a new node at the bottom. */
    method Append(n: Node)
      requires Valid() && n !in spine && n.sig == null
      modifies this, bottom
      ensures Valid() && spine == old(spine) + [n]
    {
      ghost var w := spine + [n];
      SnocShape(spine, n, top, bottom);
      TotalSnoc(spine, n);
      if top == null && bottom == null {
        top := n;
      } else {
        Extend(spine, bottom, n);
      }
      bottom := n;
      amount := amount + n.request.amount;
      spine := w;
      assert Chained(w);
    }

    method Enqueue(p: Pending)
      requires Valid()
      modifies this, spine
      ensures Valid() && Contents() == old(Contents()) + [p]
      ensures forall x :: x in spine ==> x in old(spine) || fresh(x)
    {
      var n := new Node(p);
      TotalSnoc(spine, n);
      Append(n);
    }

    /** queue_dequeue: the oldest request, unlinked. */
    method Dequeue() returns (n: Node?)
      requires Valid()
      modifies this, spine
      ensures Valid()
      ensures old(Contents()) == [] ==> n == null && Contents() == []
      ensures old(Contents()) != []
              ==> n != null && n.sig == null && n.request == old(Contents())[0] && Contents() == old(Contents())[1..]
      ensures forall x :: x in spine ==> x in old(spine) && x != n
    {
      if top == null && bottom == null {
        return null;
      }
      ghost var was := spine;
      n := top;
      assert n.sig == Succ(was, 0);
      top := n.sig;
      if top == null { bottom := null; }
      n.sig := null;
      amount := amount - n.request.amount;
      spine := spine[1..];
      assert Values(spine) == Values(was)[1..];
      forall i | 0 <= i < |spine| ensures spine[i].sig == Succ(spine, i) {
        assert spine[i] == was[i+1] && was[i+1].sig == Succ(was, i+1);
      }
    }

    /** Unlinking the top node. */
    method UnlinkTop(curr: Node)
      requires Valid() && spine != [] && curr == spine[0]
      modifies this
      ensures Valid() && spine == Without(old(spine), 0)
    {
      ghost var was := spine;
      assert curr.sig == Succ(was, 0);
      top := curr.sig;
      if bottom == curr { bottom := null; }
      amount := amount - curr.request.amount;
      spine := Without(was, 0);
      TotalWithout(was, 0);
      forall n | 0 <= n < |spine| ensures spine[n].sig == Succ(spine, n) {
        assert was[n+1].sig == Succ(was, n + 1);
      }
    }

    /** Unlinking a node that has a predecessor. */
    method UnlinkAfter(ghost i: nat, prev: Node, curr: Node)
      requires Valid() && 0 < i < |spine| && curr == spine[i] && prev == spine[i-1]
      modifies this, prev
      ensures Valid() && spine == Without(old(spine), i)
    {
      ghost var was := spine;
      ghost var w := Without(was, i);
      WithoutShape(was, i, top, bottom);
      TotalWithout(was, i);
      if bottom == curr { bottom := prev; }
      amount := amount - curr.request.amount;
      Bypass(was, i, prev, curr);
      spine := w;
      assert Chained(w);
    }

    method Unlink(ghost i: nat, prev: Node?, curr: Node)
      requires Valid() && i < |spine| && curr == spine[i] && prev == Before(spine, i)
      modifies this, prev
      ensures Valid() && spine == Without(old(spine), i)
    {
      if prev == null { UnlinkTop(curr); } else { UnlinkAfter(i, prev, curr); }
    }

    /** One turn of a deletion: the current node is unlinked, or becomes the previous one. */
    method Visit(ghost kept: nat, prev: Node?, curr: Node, drop: bool) returns (prev': Node?, next: Node?)
      requires Valid() && kept < |spine| && curr == spine[kept] && prev == Before(spine, kept)
      modifies this, prev
      ensures Valid() && spine == if drop then Without(old(spine), kept) else old(spine)
      ensures var k := if drop then kept else kept + 1; next == Here(spine, k) && prev' == Before(spine, k)
    {
      next := curr.sig;
      assert next == Succ(spine, kept);
      if drop {
        Unlink(kept, prev, curr);
        prev' := prev;
      } else {
        prev' := curr;
      }
    }

    method Turn(ghost was: seq<Node>, ghost n: nat, ghost kept: nat, prev: Node?, curr: Node, gone: Pending -> bool)
      returns (ghost kept': nat, prev': Node?, next: Node?)
      requires Valid() && Progress(was, n, spine, kept, gone)
      requires curr == Here(spine, kept) && prev == Before(spine, kept)
      modifies this, prev
      ensures Valid() && n < |was| && Progress(was, n + 1, spine, kept', gone)
      ensures next == Here(spine, kept') && prev' == Before(spine, kept') && (prev' != null ==> prev' in was)
    {
      ProgressNext(was, n, spine, kept, gone);
      var drop := gone(curr.request);
      prev', next := Visit(kept, prev, curr, drop);
      kept' := if drop then kept else kept + 1;
    }

    /** The walk with prev and curr that both deletions make. */
    method DeleteWhere(gone: Pending -> bool)
      requires Valid()
      modifies this, spine
      ensures Valid() && Contents() == Spare(old(Contents()), gone)
      ensures forall x :: x in spine ==> x in old(spine)
    {
      ghost var was := spine;
      ghost var n: nat := 0;
      ghost var kept: nat := 0;
      var curr := top;
      var prev: Node? := null;
      ProgressStart(was, gone);
      while curr != null
        invariant Valid() && n <= |was| && Progress(was, n, spine, kept, gone)
        invariant curr == Here(spine, kept) && prev == Before(spine, kept) && (prev != null ==> prev in was)
        decreases |was| - n
      {
        kept, prev, curr := Turn(was, n, kept, prev, curr, gone);
        n := n + 1;
      }
      ProgressDone(was, n, spine, kept, gone);
    }

    /** queue_delete_by_job_id: an order-preserving filter. */
    method DeleteByJobId(id: int)
      requires Valid()
      modifies this, spine
      ensures Valid() && Contents() == DropJob(old(Contents()), id)
      ensures forall x :: x in spine ==> x in old(spine)
    {
      SpareJob(Contents(), id);
      DeleteWhere((p: Pending) => p.job == id);
    }

    /** queue_delete_by_conn: an order-preserving filter. */
    method DeleteByConn(k: Conn)
      requires Valid()
      modifies this, spine
      ensures Valid() && Contents() == DropConn(old(Contents()), k)
      ensures forall x :: x in spine ==> x in old(spine)
    {
      SpareConn(Contents(), k);
      DeleteWhere((p: Pending) => p.owner == k);
    }
  }
}
