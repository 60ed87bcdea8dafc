/** The release loop as a greedy rule on one resource. */
module Greedy {
  import opened Types
  import opened Allocator
  import opened Ledger

  /** How many entries from the head the loop grants. */
  ghost function Fit(q: seq<Pending>, avail: int): (k: nat)
    ensures k <= |q|
  {
    if q == [] || avail < q[0].amount then 0 else 1 + Fit(q[1..], avail - q[0].amount)
  }

  lemma {:induction false} TotalSplit(a: seq<Pending>, b: seq<Pending>)
    ensures Total(a + b) == Total(a) + Total(b)
  {
    if a == [] {
      assert a + b == b;
    } else {
      TotalSplit(a[1..], b);
      assert (a + b)[1..] == a[1..] + b;
    }
  }

  lemma {:induction false} TotalPositive(q: seq<Pending>)
    requires forall i :: 0 <= i < |q| ==> q[i].amount > 0
    ensures Total(q) >= 0
  {
    if q != [] { TotalPositive(q[1..]); }
  }

  /** The resource after its first n waiting entries were granted. */
  ghost predicate Took(c: Resource, d: Resource, n: nat)
    requires n <= |c.queue|
  {
    d.queue == c.queue[n..] && d.avail == c.avail - Total(c.queue[..n]) && d.total == c.total
  }

  lemma TookNone(c: Resource)
    ensures Took(c, c, 0)
  {
    assert c.queue[..0] == [];
  }

  lemma TookOne(c: Resource, b: Resource, d: Resource, n: nat)
    requires c.queue != [] && b.queue == c.queue[1..] && b.avail == c.avail - c.queue[0].amount && b.total == c.total
    requires n <= |b.queue| && Took(b, d, n)
    ensures Took(c, d, n + 1)
  {
    assert c.queue[..n+1][1..] == c.queue[1..][..n];
    assert c.queue[1..][n..] == c.queue[n+1..];
  }

  lemma PopAt(s: State, r: Res)
    requires CanPop(s.At(r))
    ensures var c := s.At(r); var d := Pop(s, r).At(r);
            d.queue == c.queue[1..] && d.avail == c.avail - c.queue[0].amount && d.total == c.total
    ensures forall x :: x != r ==> Pop(s, r).At(x) == s.At(x)
  {
  }

  /** The loop takes the prefix of `Fit` entries off the queue, pays for it from
      the counter, and touches no other resource. */
  lemma {:induction false} DrainTakesPrefix(s: State, r: Res)
    ensures Took(s.At(r), Drain(s, r).At(r), Fit(s.At(r).queue, s.At(r).avail))
    ensures forall x :: x != r ==> Drain(s, r).At(x) == s.At(x)
    decreases |s.At(r).queue|
  {
    var c := s.At(r);
    if CanPop(c) {
      var t := Pop(s, r);
      PopAt(s, r);
      DrainTakesPrefix(t, r);
      TookOne(c, t.At(r), Drain(t, r).At(r), Fit(t.At(r).queue, t.At(r).avail));
    } else {
      TookNone(c);
    }
  }

  /** A prefix fits when its amounts do not exceed what is available. */
  ghost predicate Fits(q: seq<Pending>, avail: int, k: int) {
    0 <= k <= |q| && Total(q[..k]) <= avail
  }

  lemma {:induction false} FitFits(q: seq<Pending>, avail: int)
    requires avail >= 0
    ensures Fits(q, avail, Fit(q, avail))
    ensures Fit(q, avail) < |q| ==> Total(q[..Fit(q, avail) + 1]) > avail
  {
    var k := Fit(q, avail);
    if q == [] || avail < q[0].amount {
      assert q[..0] == [];
      if q != [] { assert q[..1][1..] == []; }
    } else {
      FitFits(q[1..], avail - q[0].amount);
      assert q[..k][1..] == q[1..][..k-1];
      if k < |q| { assert q[..k+1][1..] == q[1..][..k]; }
    }
  }

  /** What the loop grants is the longest prefix that fits. */
  lemma FitLongest(c: Resource)
    requires QueueOk(c)
    ensures Fits(c.queue, c.avail, Fit(c.queue, c.avail))
    ensures forall n :: Fits(c.queue, c.avail, n) ==> n <= Fit(c.queue, c.avail)
  {
    var k := Fit(c.queue, c.avail);
    FitFits(c.queue, c.avail);
    forall n | Fits(c.queue, c.avail, n) ensures n <= k {
      if n > k {
        var more := c.queue[k+1..n];
        assert c.queue[..n] == c.queue[..k+1] + more;
        TotalSplit(c.queue[..k+1], more);
        forall i | 0 <= i < |more| ensures more[i].amount > 0 { assert EntryOk(c.queue[k+1+i], c.total); }
        TotalPositive(more);
      }
    }
  }

  /** What is left can be paid for nobody who comes next. */
  lemma FitEnds(c: Resource)
    requires QueueOk(c)
    ensures var k := Fit(c.queue, c.avail); var left := c.avail - Total(c.queue[..k]);
            left >= 0 && (k < |c.queue| ==> left < c.queue[k].amount)
  {
    var k := Fit(c.queue, c.avail);
    FitFits(c.queue, c.avail);
    if k < |c.queue| {
      assert c.queue[..k+1] == c.queue[..k] + [c.queue[k]];
      TotalSplit(c.queue[..k], [c.queue[k]]);
      assert [c.queue[k]][1..] == [];
    }
  }

  /** The release loop grants exactly the longest prefix of the queue whose
      amounts fit in the availability, and stops with the queue empty or its head
      unsatisfiable. */
  lemma DrainIsGreedy(s: State, r: Res)
    requires QueueOk(s.At(r))
    ensures var c := s.At(r); var d := Drain(s, r).At(r);
            exists k :: Fits(c.queue, c.avail, k)
              && (forall n :: Fits(c.queue, c.avail, n) ==> n <= k)
              && d.queue == c.queue[k..] && d.avail == c.avail - Total(c.queue[..k]) && d.avail >= 0
              && (d.queue == [] || d.avail < d.queue[0].amount)
  {
    var c := s.At(r);
    var k := Fit(c.queue, c.avail);
    DrainTakesPrefix(s, r);
    FitEnds(c);
    FitLongest(c);
    assert k < |c.queue| ==> c.queue[k..][0] == c.queue[k];
  }
}
