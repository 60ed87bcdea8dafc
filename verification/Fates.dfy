/** What becomes of the requests waiting in a queue: which are granted, which are
    purged and which stay, over one drain, one event and whole runs. */
module Fates {
  import opened Types
  import opened Seqs
  import opened Allocator
  import opened Ledger

  // ---------------------------------------------------------------- fates of a queue

  datatype Fate = Taken | Purged | Stays

  /** What happens to a queue: the fate of each request that was in it, the
      requests at its end that came later, and all those granted, in order. */
  datatype Way = Way(fates: seq<Fate>, added: seq<Pending>, granted: seq<Pending>)

  ghost function Staying(q: seq<Pending>, f: seq<Fate>): seq<Pending>
    requires |f| == |q|
  {
    if q == [] then []
    else if f[0] == Stays then [q[0]] + Staying(q[1..], f[1..])
    else Staying(q[1..], f[1..])
  }

  ghost function TakenOf(q: seq<Pending>, f: seq<Fate>): seq<Pending>
    requires |f| == |q|
  {
    if q == [] then []
    else if f[0] == Taken then [q[0]] + TakenOf(q[1..], f[1..])
    else TakenOf(q[1..], f[1..])
  }

  /** Nobody is granted while an earlier one stays. */
  ghost predicate Ordered(f: seq<Fate>) {
    forall i, j :: 0 <= i < j < |f| && f[j] == Taken ==> f[i] != Stays
  }

  /** Only requests of these jobs or of these connections are purged. */
  ghost predicate Excused(q: seq<Pending>, f: seq<Fate>, ids: set<int>, ks: set<Conn>)
    requires |f| == |q|
  {
    forall i :: 0 <= i < |q| && f[i] == Purged ==> q[i].job in ids || q[i].owner in ks
  }

  /** A queue becomes another in a certain way: what stays keeps its order, what is
      new comes after it, and a newcomer is granted only once no old one stays. */
  ghost predicate Led(q: seq<Pending>, q': seq<Pending>, w: Way, ids: set<int>, ks: set<Conn>) {
    && |w.fates| == |q| && Ordered(w.fates) && Excused(q, w.fates, ids, ks)
    && q' == Staying(q, w.fates) + w.added
    && TakenOf(q, w.fates) <= w.granted
    && (w.granted != TakenOf(q, w.fates) ==> Stays !in w.fates)
  }

  // ---------------------------------------------------------------- one after the other

  ghost function Count(f: seq<Fate>): nat {
    if f == [] then 0 else (if f[0] == Stays then 1 else 0) + Count(f[1..])
  }

  lemma {:induction false} StayingCount(q: seq<Pending>, f: seq<Fate>)
    requires |f| == |q|
    ensures |Staying(q, f)| == Count(f)
  {
    if q != [] { StayingCount(q[1..], f[1..]); }
  }

  /** The fates of a first step, and of a second for those that stayed. */
  ghost function Then(f: seq<Fate>, g: seq<Fate>): (h: seq<Fate>)
    requires |g| == Count(f)
    ensures |h| == |f|
  {
    if f == [] then []
    else if f[0] == Stays then [g[0]] + Then(f[1..], g[1..])
    else [f[0]] + Then(f[1..], g)
  }

  lemma OrderedCons(x: Fate, f: seq<Fate>)
    ensures Ordered([x] + f) <==> Ordered(f) && (x == Stays ==> Taken !in f)
  {
    var h := [x] + f;
    assert h[1..] == f;
    if Ordered(h) {
      OrderedRest(h);
    }
    if Ordered(f) && (x == Stays ==> Taken !in f) {
      forall i, j | 0 <= i < j < |h| && h[j] == Taken ensures h[i] != Stays {
        assert h[j] == f[j-1];
        assert i > 0 ==> h[i] == f[i-1];
      }
    }
  }

  lemma OrderedRest(h: seq<Fate>)
    requires h != [] && Ordered(h)
    ensures Ordered(h[1..]) && (h[0] == Stays ==> Taken !in h[1..])
  {
    var f := h[1..];
    assert forall i :: 0 <= i < |f| ==> f[i] == h[i+1];
  }

  lemma {:induction false} ThenMembers(f: seq<Fate>, g: seq<Fate>)
    requires |g| == Count(f)
    ensures Taken in Then(f, g) ==> Taken in f || Taken in g
    ensures Stays in Then(f, g) ==> Stays in f && Stays in g
  {
    if f != [] {
      assert f == [f[0]] + f[1..];
      if f[0] == Stays {
        ThenMembers(f[1..], g[1..]);
        assert g == [g[0]] + g[1..];
      } else {
        ThenMembers(f[1..], g);
      }
    }
  }

  lemma {:induction false} ThenOrdered(f: seq<Fate>, g: seq<Fate>)
    requires |g| == Count(f) && Ordered(f) && Ordered(g)
    ensures Ordered(Then(f, g))
  {
    if f != [] {
      assert f == [f[0]] + f[1..];
      OrderedCons(f[0], f[1..]);
      if f[0] == Stays {
        assert g == [g[0]] + g[1..];
        OrderedCons(g[0], g[1..]);
        ThenOrdered(f[1..], g[1..]);
        ThenMembers(f[1..], g[1..]);
        OrderedCons(g[0], Then(f[1..], g[1..]));
      } else {
        ThenOrdered(f[1..], g);
        OrderedCons(f[0], Then(f[1..], g));
      }
    }
  }

  lemma {:induction false} NoneTaken(q: seq<Pending>, f: seq<Fate>)
    requires |f| == |q| && Taken !in f
    ensures TakenOf(q, f) == []
  {
    if q != [] {
      assert f == [f[0]] + f[1..];
      NoneTaken(q[1..], f[1..]);
    }
  }

  /** Both steps together leave what the second leaves of the first, and grant
      what the first grants and then what the second does. */
  lemma {:induction false} ThenIs(q: seq<Pending>, f: seq<Fate>, g: seq<Fate>)
    requires |f| == |q| && |g| == Count(f) && Ordered(f)
    ensures |Staying(q, f)| == |g|
    ensures Staying(q, Then(f, g)) == Staying(Staying(q, f), g)
    ensures TakenOf(q, Then(f, g)) == TakenOf(q, f) + TakenOf(Staying(q, f), g)
  {
    StayingCount(q, f);
    if q != [] {
      var r, h := q[1..], f[1..];
      assert f == [f[0]] + h;
      OrderedCons(f[0], h);
      if f[0] == Stays {
        var st := Staying(r, h);
        ThenIs(r, h, g[1..]);
        Parts([q[0]], st);
        Parts([g[0]], Then(h, g[1..]));
        NoneTaken(r, h);
        Nil(TakenOf(st, g[1..]));
        Nil(TakenOf([q[0]] + st, g));
      } else {
        ThenIs(r, h, g);
        Parts([f[0]], Then(h, g));
        Assoc([q[0]], TakenOf(r, h), TakenOf(Staying(r, h), g));
      }
    }
  }

  lemma {:induction false} ThenExcused(q: seq<Pending>, f: seq<Fate>, g: seq<Fate>, ids: set<int>, ks: set<Conn>)
    requires |f| == |q| && |g| == Count(f) && |Staying(q, f)| == |g|
    requires Excused(q, f, ids, ks) && Excused(Staying(q, f), g, ids, ks)
    ensures Excused(q, Then(f, g), ids, ks)
  {
    if q != [] {
      var r, h := q[1..], f[1..];
      StayingCount(r, h);
      assert forall i :: 0 <= i < |r| ==> r[i] == q[i+1] && h[i] == f[i+1];
      if f[0] == Stays {
        var st := Staying(q, f);
        assert st[1..] == Staying(r, h) && st[0] == q[0];
        assert forall i :: 0 <= i < |g[1..]| ==> g[1..][i] == g[i+1] && st[1..][i] == st[i+1];
        ThenExcused(r, h, g[1..], ids, ks);
      } else {
        ThenExcused(r, h, g, ids, ks);
      }
      var t := Then(f, g);
      forall i | 0 <= i < |q| && t[i] == Purged ensures q[i].job in ids || q[i].owner in ks {
        if i > 0 { assert q[i] == r[i-1]; }
      }
    }
  }

  lemma {:induction false} SplitFates(a: seq<Pending>, b: seq<Pending>, f: seq<Fate>)
    requires |f| == |a| + |b|
    ensures Staying(a + b, f) == Staying(a, f[..|a|]) + Staying(b, f[|a|..])
    ensures TakenOf(a + b, f) == TakenOf(a, f[..|a|]) + TakenOf(b, f[|a|..])
  {
    if a == [] {
      Nil(b);
      assert f[|a|..] == f;
      Nil(Staying(b, f));
      Nil(TakenOf(b, f));
    } else {
      SplitFates(a[1..], b, f[1..]);
      CutLeft(a, b, 1);
      assert f[..|a|][1..] == f[1..][..|a|-1] && f[1..][|a|-1..] == f[|a|..];
      Assoc([a[0]], Staying(a[1..], f[1..][..|a|-1]), Staying(b, f[|a|..]));
      Assoc([a[0]], TakenOf(a[1..], f[1..][..|a|-1]), TakenOf(b, f[|a|..]));
    }
  }

  /** The way of two steps. */
  ghost function Join(v: Way, w: Way): Way
    requires |w.fates| == Count(v.fates) + |v.added|
  {
    var n := Count(v.fates);
    Way(Then(v.fates, w.fates[..n]), Staying(v.added, w.fates[n..]) + w.added, v.granted + w.granted)
  }

  /** What became of the first request after both steps. */
  lemma JoinFirst(v: Way, w: Way)
    requires |w.fates| == Count(v.fates) + |v.added| && v.fates != []
    ensures v.fates[0] == Stays ==> w.fates != []
    ensures Join(v, w).fates[0] == if v.fates[0] == Stays then w.fates[0] else v.fates[0]
  {}

  lemma JoinQueue(q: seq<Pending>, q': seq<Pending>, q'': seq<Pending>, v: Way, w: Way, ids: set<int>, ks: set<Conn>)
    requires Led(q, q', v, ids, ks) && Led(q', q'', w, ids, ks)
    ensures |w.fates| == Count(v.fates) + |v.added|
    ensures q'' == Staying(q, Join(v, w).fates) + Join(v, w).added
  {
    var n := Count(v.fates);
    var st := Staying(q, v.fates);
    StayingCount(q, v.fates);
    SplitFates(st, v.added, w.fates);
    ThenIs(q, v.fates, w.fates[..n]);
    Assoc(Staying(st, w.fates[..n]), Staying(v.added, w.fates[n..]), w.added);
  }

  lemma JoinGranted(q: seq<Pending>, q': seq<Pending>, q'': seq<Pending>, v: Way, w: Way, ids: set<int>, ks: set<Conn>)
    requires Led(q, q', v, ids, ks) && Led(q', q'', w, ids, ks) && |w.fates| == Count(v.fates) + |v.added|
    ensures TakenOf(q, Join(v, w).fates) <= v.granted + w.granted
    ensures v.granted + w.granted != TakenOf(q, Join(v, w).fates) ==> Stays !in Join(v, w).fates
  {
    var n := Count(v.fates);
    var st, f, g := Staying(q, v.fates), v.fates, w.fates;
    StayingCount(q, f);
    SplitFates(st, v.added, g);
    ThenIs(q, f, g[..n]);
    ThenMembers(f, g[..n]);
    var x, y, z := TakenOf(q, f), TakenOf(st, g[..n]), TakenOf(v.added, g[n..]);
    if v.granted == x {
      assert y + z <= w.granted;
      assert x + y <= x + w.granted;
      assert w.granted == y ==> v.granted + w.granted == x + y;
      if w.granted != y && Stays in g[..n] {
        assert w.granted != y + z || z != [];
        LateTaken(g, n, v.added);
        Nil(y);
      }
    } else {
      NoStay(q, f);
      assert st == [] && y == [] && n == 0;
      Nil(x);
      Assoc(x, v.granted[|x|..], w.granted);
    }
  }

  lemma {:induction false} NoStay(q: seq<Pending>, f: seq<Fate>)
    requires |f| == |q| && Stays !in f
    ensures Staying(q, f) == [] && Count(f) == 0
  {
    if q != [] {
      assert f == [f[0]] + f[1..];
      NoStay(q[1..], f[1..]);
    }
  }

  /** If an earlier one stays, none of the later ones is granted. */
  lemma LateTaken(g: seq<Fate>, n: nat, b: seq<Pending>)
    requires Ordered(g) && n <= |g| && Stays in g[..n] && |b| == |g| - n
    ensures TakenOf(b, g[n..]) == []
  {
    var i :| 0 <= i < n && g[..n][i] == Stays;
    forall j | 0 <= j < |g[n..]| ensures g[n..][j] != Taken { assert g[i] == Stays; }
    NoneTaken(b, g[n..]);
  }

  /** Ways compose: order is kept over any number of steps. */
  lemma LedTrans(q: seq<Pending>, q': seq<Pending>, q'': seq<Pending>, v: Way, w: Way, ids: set<int>, ks: set<Conn>)
    requires Led(q, q', v, ids, ks) && Led(q', q'', w, ids, ks)
    ensures |w.fates| == Count(v.fates) + |v.added| && Led(q, q'', Join(v, w), ids, ks)
  {
    var n := Count(v.fates);
    var st := Staying(q, v.fates);
    StayingCount(q, v.fates);
    JoinQueue(q, q', q'', v, w, ids, ks);
    JoinGranted(q, q', q'', v, w, ids, ks);
    assert Ordered(w.fates[..n]);
    ThenOrdered(v.fates, w.fates[..n]);
    forall i | 0 <= i < |st| && w.fates[..n][i] == Purged ensures st[i].job in ids || st[i].owner in ks {
      assert q'[i] == st[i];
    }
    ThenExcused(q, v.fates, w.fates[..n], ids, ks);
  }

  // ---------------------------------------------------------------- the simple ways

  ghost function AllStay(n: nat): (f: seq<Fate>)
    ensures |f| == n && forall i :: 0 <= i < n ==> f[i] == Stays
  {
    seq(n, _ => Stays)
  }

  ghost function AllTaken(n: nat): (f: seq<Fate>)
    ensures |f| == n && forall i :: 0 <= i < n ==> f[i] == Taken
  {
    seq(n, _ => Taken)
  }

  lemma {:induction false} StayAll(q: seq<Pending>)
    ensures Staying(q, AllStay(|q|)) == q && TakenOf(q, AllStay(|q|)) == []
  {
    if q != [] {
      StayAll(q[1..]);
      assert AllStay(|q|)[1..] == AllStay(|q| - 1);
    }
  }

  lemma {:induction false} TakeAll(q: seq<Pending>)
    ensures Staying(q, AllTaken(|q|)) == [] && TakenOf(q, AllTaken(|q|)) == q
  {
    if q != [] {
      TakeAll(q[1..]);
      assert AllTaken(|q|)[1..] == AllTaken(|q| - 1);
    }
  }

  /** Nothing happens but an arrival. */
  lemma AddedLed(q: seq<Pending>, ps: seq<Pending>, ids: set<int>, ks: set<Conn>)
    ensures Led(q, q + ps, Way(AllStay(|q|), ps, []), ids, ks)
  {
    StayAll(q);
  }

  lemma StillLed(q: seq<Pending>, ids: set<int>, ks: set<Conn>)
    ensures Led(q, q, Way(AllStay(|q|), [], []), ids, ks)
  {
    StayAll(q);
    Nil(q);
  }

  ghost function TakeWay(q: seq<Pending>, k: nat): Way
    requires k <= |q|
  {
    Way(AllTaken(k) + AllStay(|q| - k), [], q[..k])
  }

  lemma TakenSplit(a: seq<Pending>, b: seq<Pending>)
    ensures var f := AllTaken(|a|) + AllStay(|b|); Staying(a + b, f) == b && TakenOf(a + b, f) == a
  {
    var f, g := AllTaken(|a|), AllStay(|b|);
    SplitFates(a, b, f + g);
    Parts(f, g);
    TakeAll(a);
    StayAll(b);
    Nil(a);
    Nil(b);
  }

  /** A prefix is granted. */
  lemma TakenLed(q: seq<Pending>, k: nat, ids: set<int>, ks: set<Conn>)
    requires k <= |q|
    ensures Led(q, q[k..], TakeWay(q, k), ids, ks)
  {
    Halves(q, k);
    TakenSplit(q[..k], q[k..]);
    Nil(q[k..]);
  }

  ghost function JobFates(q: seq<Pending>, id: int): (f: seq<Fate>)
    ensures |f| == |q| && forall i :: 0 <= i < |q| ==> f[i] == if q[i].job == id then Purged else Stays
  {
    seq(|q|, i requires 0 <= i < |q| => if q[i].job == id then Purged else Stays)
  }

  ghost function ConnFates(q: seq<Pending>, k: Conn): (f: seq<Fate>)
    ensures |f| == |q| && forall i :: 0 <= i < |q| ==> f[i] == if q[i].owner == k then Purged else Stays
  {
    seq(|q|, i requires 0 <= i < |q| => if q[i].owner == k then Purged else Stays)
  }

  lemma {:induction false} JobStaying(q: seq<Pending>, id: int)
    ensures Staying(q, JobFates(q, id)) == DropJob(q, id) && TakenOf(q, JobFates(q, id)) == []
  {
    if q != [] {
      JobStaying(q[1..], id);
      assert JobFates(q, id)[1..] == JobFates(q[1..], id);
    }
  }

  lemma {:induction false} ConnStaying(q: seq<Pending>, k: Conn)
    ensures Staying(q, ConnFates(q, k)) == DropConn(q, k) && TakenOf(q, ConnFates(q, k)) == []
  {
    if q != [] {
      ConnStaying(q[1..], k);
      assert ConnFates(q, k)[1..] == ConnFates(q[1..], k);
    }
  }

  /** The requests of a job are purged. */
  lemma JobPurgeLed(q: seq<Pending>, id: int, ids: set<int>, ks: set<Conn>)
    requires id in ids
    ensures Led(q, DropJob(q, id), Way(JobFates(q, id), [], []), ids, ks)
  {
    JobStaying(q, id);
    Nil(DropJob(q, id));
  }

  /** The requests of a connection are purged. */
  lemma ConnPurgeLed(q: seq<Pending>, k: Conn, ids: set<int>, ks: set<Conn>)
    requires k in ks
    ensures Led(q, DropConn(q, k), Way(ConnFates(q, k), [], []), ids, ks)
  {
    ConnStaying(q, k);
    Nil(DropConn(q, k));
  }
}
