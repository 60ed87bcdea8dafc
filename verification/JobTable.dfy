/** The hash table of jobs, shown to be the map from ids to jobs that the state
    machine works on. Ids are non-negative; a bucket is a list, newest first. */
module JobTable {
  import opened Types
  import opened Seqs
  import opened Allocator

  const TAM_TABLA_JOBS := 71

  function BucketOf(id: int): (i: nat)
    ensures i < TAM_TABLA_JOBS
  {
    id % TAM_TABLA_JOBS
  }

  ghost predicate OwnBucket(b: seq<Job>, i: int, view: map<int, Job>) {
    && (forall n :: 0 <= n < |b| ==> b[n].id >= 0 && BucketOf(b[n].id) == i && b[n].id in view && view[b[n].id] == b[n])
    && (forall n, m :: 0 <= n < m < |b| ==> b[n].id != b[m].id)
  }

  /** Every job sits in its own bucket, once, and the buckets hold the whole map. */
  ghost predicate Proper(bs: seq<seq<Job>>, view: map<int, Job>) {
    && |bs| == TAM_TABLA_JOBS
    && (forall i :: 0 <= i < |bs| ==> OwnBucket(bs[i], i, view))
    && (forall id :: id in view ==> id >= 0 && view[id] in bs[BucketOf(id)] && view[id].id == id)
  }

  lemma InsertNew(bs: seq<seq<Job>>, view: map<int, Job>, j: Job)
    requires Proper(bs, view) && j.id >= 0 && j.id !in view
    ensures Proper(bs[BucketOf(j.id) := [j] + bs[BucketOf(j.id)]], view[j.id := j])
  {
    var h := BucketOf(j.id);
    var cs := bs[h := [j] + bs[h]];
    var w := view[j.id := j];
    forall i | 0 <= i < |cs| ensures OwnBucket(cs[i], i, w) {
      assert OwnBucket(bs[i], i, view);
      if i == h { assert forall n :: 0 < n < |cs[i]| ==> cs[i][n] == bs[i][n-1]; }
    }
    forall id | id in w ensures id >= 0 && w[id] in cs[BucketOf(id)] && w[id].id == id {
      if id != j.id { assert view[id] in bs[BucketOf(id)]; }
    }
  }

  /** A second job with the same id would be found in the same bucket. */
  lemma InsertTwice(bs: seq<seq<Job>>, view: map<int, Job>, j: Job)
    requires Proper(bs, view) && j.id >= 0 && j.id in view
    ensures !Proper(bs[BucketOf(j.id) := [j] + bs[BucketOf(j.id)]], view[j.id := j])
  {
    var h := BucketOf(j.id);
    var c := [j] + bs[h];
    assert view[j.id] in bs[h];
    var n :| 0 <= n < |bs[h]| && bs[h][n] == view[j.id];
    assert c[0].id == c[n+1].id;
    assert !OwnBucket(c, h, view[j.id := j]);
  }

  lemma RemoveOwn(b: seq<Job>, h: int, view: map<int, Job>, n: nat)
    requires OwnBucket(b, h, view) && n < |b|
    ensures OwnBucket(b[..n] + b[n+1..], h, view - {b[n].id})
  {
    var c := b[..n] + b[n+1..];
    assert forall m :: 0 <= m < |c| ==> c[m] == if m < n then b[m] else b[m+1];
  }

  lemma RemoveRest(b: seq<Job>, n: nat, j: Job)
    requires n < |b| && j in b && j != b[n]
    ensures j in b[..n] + b[n+1..]
  {
    var m :| 0 <= m < |b| && b[m] == j;
    var c := b[..n] + b[n+1..];
    assert c[if m < n then m else m - 1] == j;
  }

  lemma RemoveProper(bs: seq<seq<Job>>, view: map<int, Job>, id: int, n: nat)
    requires Proper(bs, view) && n < |bs[BucketOf(id)]| && bs[BucketOf(id)][n].id == id
    ensures Proper(bs[BucketOf(id) := bs[BucketOf(id)][..n] + bs[BucketOf(id)][n+1..]], view - {id})
  {
    var h := BucketOf(id);
    var cs := bs[h := bs[h][..n] + bs[h][n+1..]];
    var w := view - {id};
    RemoveOwn(bs[h], h, view, n);
    forall i | 0 <= i < |cs| ensures OwnBucket(cs[i], i, w) { assert OwnBucket(bs[i], i, view); }
    forall k | k in w ensures k >= 0 && w[k] in cs[BucketOf(k)] && w[k].id == k {
      assert view[k] in bs[BucketOf(k)];
      if BucketOf(k) == h { RemoveRest(bs[h], n, view[k]); }
    }
  }

  lemma UpdateOwn(b: seq<Job>, i: nat, view: map<int, Job>, n: nat, j: Job)
    requires OwnBucket(b, i, view) && j.id >= 0 && BucketOf(j.id) == i && n < |b| && b[n].id == j.id
    ensures OwnBucket(b[n := j], i, view[j.id := j])
    ensures forall x :: x in b && x.id != j.id ==> x in b[n := j]
  {
    forall x | x in b && x.id != j.id ensures x in b[n := j] {
      var m :| 0 <= m < |b| && b[m] == x;
      assert b[n := j][m] == x;
    }
  }

  lemma UpdateProper(bs: seq<seq<Job>>, view: map<int, Job>, n: nat, j: Job)
    requires Proper(bs, view) && j.id >= 0 && n < |bs[BucketOf(j.id)]| && bs[BucketOf(j.id)][n].id == j.id
    ensures Proper(bs[BucketOf(j.id) := bs[BucketOf(j.id)][n := j]], view[j.id := j]) && j.id in view
  {
    var h := BucketOf(j.id);
    var cs := bs[h := bs[h][n := j]];
    var w := view[j.id := j];
    assert OwnBucket(bs[h], h, view);
    UpdateOwn(bs[h], h, view, n, j);
    forall i | 0 <= i < |cs| ensures OwnBucket(cs[i], i, w) { assert OwnBucket(bs[i], i, view); }
    forall id | id in w ensures id >= 0 && w[id] in cs[BucketOf(id)] && w[id].id == id {
      if id == j.id { assert cs[h][n] == j; } else { assert view[id] in bs[BucketOf(id)]; }
    }
  }

  // ---------------------------------------------------------------- extraction by connection

  /** What the walk over one bucket leaves in it. */
  function Stay(b: seq<Job>, k: Conn): seq<Job> {
    if b == [] then []
    else Stay(b[..|b|-1], k) + if Affected(b[|b|-1], k) then [] else [Strip(b[|b|-1], k)]
  }

  /** What it takes out, each job linked before the previous ones. */
  function Leave(b: seq<Job>, k: Conn): seq<Job> {
    if b == [] then []
    else (if Affected(b[|b|-1], k) then [Strip(b[|b|-1], k)] else []) + Leave(b[..|b|-1], k)
  }

  /** The jobs taken out of the first n buckets. */
  function LeaveAll(bs: seq<seq<Job>>, k: Conn): seq<Job> {
    if bs == [] then [] else Leave(bs[|bs|-1], k) + LeaveAll(bs[..|bs|-1], k)
  }

  lemma WalkStep(b: seq<Job>, i: nat, k: Conn)
    requires i < |b|
    ensures Stay(b[..i+1], k) == Stay(b[..i], k) + if Affected(b[i], k) then [] else [Strip(b[i], k)]
    ensures Leave(b[..i+1], k) == (if Affected(b[i], k) then [Strip(b[i], k)] else []) + Leave(b[..i], k)
  {
    assert b[..i+1][..i] == b[..i] && b[..i+1][i] == b[i];
  }

  lemma {:induction false} StayIds(b: seq<Job>, k: Conn)
    ensures forall j :: j in Stay(b, k) ==> exists n :: 0 <= n < |b| && b[n].id == j.id
    ensures forall j :: j in Leave(b, k) ==> exists n :: 0 <= n < |b| && b[n].id == j.id
  {
    if b != [] {
      var f := b[..|b|-1];
      StayIds(f, k);
      assert forall n :: 0 <= n < |f| ==> f[n] == b[n];
      forall j | j in Stay(b, k) || j in Leave(b, k) ensures exists n :: 0 <= n < |b| && b[n].id == j.id {
        if j in Stay(f, k) || j in Leave(f, k) { var n :| 0 <= n < |f| && f[n].id == j.id; assert b[n].id == j.id; }
        else { assert b[|b|-1].id == j.id; }
      }
    }
  }

  /** The last job of a bucket shares its id with none of those before it. */
  lemma LastApart(b: seq<Job>, i: int, view: map<int, Job>, k: Conn)
    requires OwnBucket(b, i, view) && b != []
    ensures forall j :: j in Stay(b[..|b|-1], k) ==> j.id != b[|b|-1].id
    ensures forall j :: j in Leave(b[..|b|-1], k) ==> j.id != b[|b|-1].id
  {
    var f := b[..|b|-1];
    StayIds(f, k);
    assert forall n :: 0 <= n < |f| ==> f[n].id == b[n].id != b[|b|-1].id;
  }

  lemma OwnSnoc(b: seq<Job>, j: Job, i: int, view: map<int, Job>)
    requires OwnBucket(b, i, view) && j.id >= 0 && BucketOf(j.id) == i && j.id in view && view[j.id] == j
    requires forall x :: x in b ==> x.id != j.id
    ensures OwnBucket(b + [j], i, view)
  {
  }

  /** A bucket keeps exactly its unaffected jobs, stripped, in their order. */
  lemma {:induction false} StayOwn(b: seq<Job>, i: int, view: map<int, Job>, k: Conn)
    requires OwnBucket(b, i, view)
    ensures OwnBucket(Stay(b, k), i, Kept(view, k))
    ensures forall n :: 0 <= n < |b| && !Affected(b[n], k) ==> Strip(b[n], k) in Stay(b, k)
  {
    if b != [] {
      var f := b[..|b|-1];
      var z := b[|b|-1];
      StayOwn(f, i, view, k);
      LastApart(b, i, view, k);
      assert forall n :: 0 <= n < |f| ==> f[n] == b[n];
      if Affected(z, k) {
        Nil(Stay(f, k));
      } else {
        OwnSnoc(Stay(f, k), Strip(z, k), i, Kept(view, k));
      }
    }
  }

  /** A job that the walk takes out, as the map has it. */
  ghost predicate Taken(j: Job, view: map<int, Job>, k: Conn) {
    j.id in view && Affected(view[j.id], k) && j == Strip(view[j.id], k)
  }

  lemma {:induction false} LeaveOwn(b: seq<Job>, i: int, view: map<int, Job>, k: Conn)
    requires OwnBucket(b, i, view)
    ensures forall n :: 0 <= n < |Leave(b, k)| ==> Taken(Leave(b, k)[n], view, k) && BucketOf(Leave(b, k)[n].id) == i
    ensures DistinctIds(Leave(b, k))
    ensures forall n :: 0 <= n < |b| && Affected(b[n], k) ==> Strip(b[n], k) in Leave(b, k)
  {
    if b != [] {
      var f := b[..|b|-1];
      var z := b[|b|-1];
      LeaveOwn(f, i, view, k);
      LastApart(b, i, view, k);
      assert forall n :: 0 <= n < |f| ==> f[n] == b[n];
    }
  }

  ghost predicate DistinctIds(js: seq<Job>) {
    forall n, m :: 0 <= n < m < |js| ==> js[n].id != js[m].id
  }

  /** Jobs of one bucket and jobs of others share no id. */
  lemma DistinctJoin(a: seq<Job>, b: seq<Job>, i: nat)
    requires DistinctIds(a) && DistinctIds(b)
    requires forall n :: 0 <= n < |a| ==> BucketOf(a[n].id) == i
    requires forall n :: 0 <= n < |b| ==> BucketOf(b[n].id) < i
    ensures DistinctIds(a + b) && DistinctIds(b + a)
  {
    assert forall n :: 0 <= n < |a| ==> (a + b)[n] == a[n];
    assert forall n :: 0 <= n < |b| ==> (b + a)[n] == b[n];
  }

  lemma {:induction false} LeaveAllOwn(bs: seq<seq<Job>>, view: map<int, Job>, k: Conn)
    requires forall i :: 0 <= i < |bs| ==> OwnBucket(bs[i], i, view)
    ensures forall n :: 0 <= n < |LeaveAll(bs, k)|
              ==> Taken(LeaveAll(bs, k)[n], view, k) && BucketOf(LeaveAll(bs, k)[n].id) < |bs|
    ensures DistinctIds(LeaveAll(bs, k))
    ensures forall i, n :: 0 <= i < |bs| && 0 <= n < |bs[i]| && Affected(bs[i][n], k)
              ==> Strip(bs[i][n], k) in LeaveAll(bs, k)
  {
    if bs != [] {
      var f := bs[..|bs|-1];
      var z := bs[|bs|-1];
      assert forall i :: 0 <= i < |f| ==> f[i] == bs[i];
      LeaveAllOwn(f, view, k);
      LeaveOwn(z, |bs| - 1, view, k);
      DistinctJoin(Leave(z, k), LeaveAll(f, k), |bs| - 1);
    }
  }

  lemma LeaveStep(bs: seq<seq<Job>>, i: nat, k: Conn)
    requires i < |bs|
    ensures LeaveAll(bs[..i+1], k) == Leave(bs[i], k) + LeaveAll(bs[..i], k)
  {
    assert bs[..i+1][..i] == bs[..i] && bs[..i+1][i] == bs[i];
  }

  ghost function IdsOf(js: seq<Job>): (ids: seq<int>)
    ensures |ids| == |js| && forall i :: 0 <= i < |js| ==> ids[i] == js[i].id
  {
    seq(|js|, i requires 0 <= i < |js| => js[i].id)
  }

  function StayAll(bs: seq<seq<Job>>, k: Conn): (cs: seq<seq<Job>>)
    ensures |cs| == |bs| && forall i :: 0 <= i < |bs| ==> cs[i] == Stay(bs[i], k)
  {
    seq(|bs|, i requires 0 <= i < |bs| => Stay(bs[i], k))
  }

  lemma StayAllProper(bs: seq<seq<Job>>, view: map<int, Job>, k: Conn)
    requires Proper(bs, view)
    ensures Proper(StayAll(bs, k), Kept(view, k))
  {
    var w := Kept(view, k);
    forall i | 0 <= i < |bs| ensures OwnBucket(StayAll(bs, k)[i], i, w) {
      assert OwnBucket(bs[i], i, view);
      StayOwn(bs[i], i, view, k);
    }
    forall id | id in w ensures id >= 0 && w[id] in StayAll(bs, k)[BucketOf(id)] && w[id].id == id {
      assert view[id] in bs[BucketOf(id)];
      var n :| 0 <= n < |bs[BucketOf(id)]| && bs[BucketOf(id)][n] == view[id];
      assert OwnBucket(bs[BucketOf(id)], BucketOf(id), view);
      StayOwn(bs[BucketOf(id)], BucketOf(id), view, k);
    }
  }

  /** Every victim of the map is on the extracted list. */
  lemma VictimLeaves(bs: seq<seq<Job>>, view: map<int, Job>, k: Conn, id: int)
    requires Proper(bs, view) && id in Victims(view, k)
    ensures Strip(view[id], k) in LeaveAll(bs, k)
  {
    LeaveAllOwn(bs, view, k);
    var b := bs[BucketOf(id)];
    assert view[id] in b;
    var n :| 0 <= n < |b| && b[n] == view[id];
    assert Affected(bs[BucketOf(id)][n], k);
  }

  /** The extracted list is the map's victims, each once, stripped. */
  lemma LeaveAllVictims(bs: seq<seq<Job>>, view: map<int, Job>, k: Conn)
    requires Proper(bs, view)
    ensures Enumerates(IdsOf(LeaveAll(bs, k)), Victims(view, k))
    ensures LeaveAll(bs, k) == Pick(view, IdsOf(LeaveAll(bs, k)), k)
  {
    var out := LeaveAll(bs, k);
    forall id | id in Victims(view, k) ensures id in IdsOf(out) {
      VictimLeaves(bs, view, k, id);
      var m :| 0 <= m < |out| && out[m] == Strip(view[id], k);
      assert view[id].id == id;
      assert IdsOf(out)[m] == id;
    }
    LeavesAre(bs, view, k);
  }

  lemma LeavesAre(bs: seq<seq<Job>>, view: map<int, Job>, k: Conn)
    requires Proper(bs, view)
    ensures forall i :: 0 <= i < |LeaveAll(bs, k)| ==> Taken(LeaveAll(bs, k)[i], view, k)
    ensures DistinctIds(LeaveAll(bs, k))
  {
    LeaveAllOwn(bs, view, k);
  }

  // ---------------------------------------------------------------- the lists of a job

  predicate Hit(a: Alloc, k: Conn, r: Res) { a.kind == Local && a.conn == k && a.res == r }

  /** Marking updates the first hit, if there is one. */
  lemma {:induction false} MarksFirst(as_: seq<Alloc>, k: Conn, r: Res, i: nat)
    requires i <= |as_| && (forall n :: 0 <= n < i ==> !Hit(as_[n], k, r)) && (i < |as_| ==> Hit(as_[i], k, r))
    ensures Mark(as_, k, r) == if i < |as_| then as_[i := as_[i].(outcome := RmGranted)] else as_
  {
    if as_ != [] && i == 0 {
      var a := as_[0].(outcome := RmGranted);
      assert as_[0 := a] == [a] + as_[1..];
    } else if as_ != [] {
      MarksFirst(as_[1..], k, r, i - 1);
      UpdateCons(as_, i);
    }
  }

  /** Granting at a position past the head. */
  lemma UpdateCons(as_: seq<Alloc>, i: nat)
    requires 0 < i <= |as_|
    ensures as_ == [as_[0]] + as_[1..]
    ensures i < |as_| ==> var a := as_[i].(outcome := RmGranted); as_[i := a] == [as_[0]] + as_[1..][i-1 := a]
  {
  }

  /** The allocations walked to the first match, which becomes granted. */
  method MarkFirst(as_: seq<Alloc>, k: Conn, r: Res) returns (bs: seq<Alloc>)
    ensures bs == Mark(as_, k, r)
  {
    var i := 0;
    while i < |as_| && !Hit(as_[i], k, r)
      invariant i <= |as_| && forall n :: 0 <= n < i ==> !Hit(as_[n], k, r)
    {
      i := i + 1;
    }
    MarksFirst(as_, k, r, i);
    bs := if i < |as_| then as_[i := as_[i].(outcome := RmGranted)] else as_;
  }

  method SomeWait(as_: seq<Alloc>) returns (found: bool)
    ensures found <==> exists a :: a in as_ && IsLocalWait(a)
  {
    for i := 0 to |as_|
      invariant forall n :: 0 <= n < i ==> !IsLocalWait(as_[n])
    {
      if as_[i].kind == Local && as_[i].outcome == RmQueued {
        assert as_[i] in as_;
        return true;
      }
    }
    return false;
  }

  /** The first outgoing request to a host. */
  method HostAt(ps: seq<OutReq>, host: string) returns (i: nat)
    ensures i == FindHost(ps, host)
  {
    i := 0;
    ghost var f := FindHost(ps, host);
    while i < |ps| && ps[i].host != host
      invariant i <= f <= |ps| && forall n :: 0 <= n < i ==> ps[n].host != host
    {
      i := i + 1;
    }
  }

  /** The shares granted over a connection are unlinked. */
  method DropShares(as_: seq<Alloc>, k: Conn) returns (bs: seq<Alloc>)
    ensures bs == StripAllocs(as_, k)
  {
    bs := [];
    for i := 0 to |as_|
      invariant bs + StripAllocs(as_[i..], k) == StripAllocs(as_, k)
    {
      assert as_[i..][1..] == as_[i+1..];
      if !(as_[i].kind == Remote && as_[i].conn == k) {
        Assoc(bs, [as_[i]], StripAllocs(as_[i+1..], k));
        bs := bs + [as_[i]];
      }
    }
  }

  method UsesConn(ps: seq<OutReq>, k: Conn) returns (found: bool)
    ensures found <==> exists o :: o in ps && o.conn == k
  {
    for i := 0 to |ps|
      invariant forall n :: 0 <= n < i ==> ps[n].conn != k
    {
      if ps[i].conn == k {
        assert ps[i] in ps;
        return true;
      }
    }
    return false;
  }

  /** The requests on a connection, each copied in front of the list. */
  method PushOnConn(ps: seq<OutReq>, k: Conn, found: seq<OutReq>) returns (found': seq<OutReq>)
    ensures found' == OnConn(ps, k) + found
  {
    found' := found;
    for i := 0 to |ps|
      invariant OnConn(ps[i..], k) + found' == OnConn(ps, k) + found
    {
      assert ps[i..][1..] == ps[i+1..];
      if ps[i].conn == k {
        Assoc(OnConn(ps[i+1..], k), [ps[i]], found');
        found' := [ps[i]] + found';
      }
    }
    Nil(found');
  }

  // ---------------------------------------------------------------- walking the whole table

  /** The jobs in the order of a walk over the buckets. */
  ghost function Flat(bs: seq<seq<Job>>): seq<Job> {
    if bs == [] then [] else Flat(bs[..|bs|-1]) + bs[|bs|-1]
  }

  /** What the walk collects: the finds of a later job before those of an earlier. */
  ghost function Found(js: seq<Job>, k: Conn): seq<OutReq> {
    if js == [] then [] else OnConn(js[|js|-1].pending, k) + Found(js[..|js|-1], k)
  }

  lemma {:induction false} FlatOwn(bs: seq<seq<Job>>, view: map<int, Job>)
    requires forall i :: 0 <= i < |bs| ==> OwnBucket(bs[i], i, view)
    ensures forall n :: 0 <= n < |Flat(bs)|
              ==> Flat(bs)[n].id in view && view[Flat(bs)[n].id] == Flat(bs)[n] && BucketOf(Flat(bs)[n].id) < |bs|
    ensures DistinctIds(Flat(bs))
    ensures forall i, j :: 0 <= i < |bs| && j in bs[i] ==> j in Flat(bs)
  {
    if bs != [] {
      var f := bs[..|bs|-1];
      var z := bs[|bs|-1];
      assert forall i :: 0 <= i < |f| ==> f[i] == bs[i];
      FlatOwn(f, view);
      assert OwnBucket(z, |bs| - 1, view);
      DistinctJoin(z, Flat(f), |bs| - 1);
    }
  }

  lemma FlatHas(bs: seq<seq<Job>>, view: map<int, Job>, id: int)
    requires Proper(bs, view) && id in view
    ensures id in IdsOf(Flat(bs))
  {
    FlatOwn(bs, view);
    var i := BucketOf(id);
    assert i < |bs| && view[id] in bs[i];
    assert view[id] in Flat(bs);
    var n :| 0 <= n < |Flat(bs)| && Flat(bs)[n] == view[id];
    assert IdsOf(Flat(bs))[n] == id;
  }

  /** The walk visits every job of the map once. */
  lemma FlatAll(bs: seq<seq<Job>>, view: map<int, Job>)
    requires Proper(bs, view)
    ensures Enumerates(IdsOf(Flat(bs)), view.Keys)
    ensures forall n :: 0 <= n < |Flat(bs)| ==> Flat(bs)[n].id in view && view[Flat(bs)[n].id] == Flat(bs)[n]
  {
    FlatOwn(bs, view);
    forall id | id in view.Keys ensures id in IdsOf(Flat(bs)) { FlatHas(bs, view, id); }
  }

  lemma {:induction false} AwaitingSnoc(jobs: map<int, Job>, order: seq<int>, id: int, k: Conn)
    requires id in jobs && forall i :: 0 <= i < |order| ==> order[i] in jobs
    ensures Awaiting(jobs, order + [id], k) == OnConn(jobs[id].pending, k) + Awaiting(jobs, order, k)
  {
    var whole := order + [id];
    if order == [] {
      assert whole == [id] && [id][1..] == [];
      Nil(OnConn(jobs[id].pending, k));
    } else {
      AwaitingSnoc(jobs, order[1..], id, k);
      CutLeft(order, [id], 1);
      Assoc(OnConn(jobs[id].pending, k), Awaiting(jobs, order[1..], k), OnConn(jobs[order[0]].pending, k));
    }
  }

  lemma {:induction false} FoundAwaits(jobs: map<int, Job>, js: seq<Job>, k: Conn)
    requires forall n :: 0 <= n < |js| ==> js[n].id in jobs && jobs[js[n].id] == js[n]
    ensures Found(js, k) == Awaiting(jobs, IdsOf(js), k)
  {
    if js != [] {
      var f, z := js[..|js|-1], js[|js|-1];
      FoundAwaits(jobs, f, k);
      AwaitingSnoc(jobs, IdsOf(f), z.id, k);
      assert IdsOf(js) == IdsOf(f) + [z.id];
    }
  }

  lemma FoundSnoc(js: seq<Job>, j: Job, k: Conn)
    ensures Found(js + [j], k) == OnConn(j.pending, k) + Found(js, k)
  {
    Parts(js, [j]);
  }

  lemma {:induction false} FoundSplit(a: seq<Job>, b: seq<Job>, k: Conn)
    ensures Found(a + b, k) == Found(b, k) + Found(a, k)
  {
    if b == [] {
      Nil(a);
      Nil(Found(a, k));
    } else {
      var f, z := b[..|b|-1], b[|b|-1];
      FoundSplit(a, f, k);
      Snoc(b);
      Assoc(a, f, [z]);
      FoundSnoc(a + f, z, k);
      FoundSnoc(f, z, k);
      Assoc(OnConn(z.pending, k), Found(f, k), Found(a, k));
    }
  }

  lemma FlatStep(bs: seq<seq<Job>>, i: nat, k: Conn)
    requires i < |bs|
    ensures Found(Flat(bs[..i+1]), k) == Found(bs[i], k) + Found(Flat(bs[..i]), k)
  {
    assert bs[..i+1][..i] == bs[..i] && bs[..i+1][i] == bs[i];
    FoundSplit(Flat(bs[..i]), bs[i], k);
  }

  // ---------------------------------------------------------------- the table

  class Table {
    const buckets: array<seq<Job>>
    ghost var view: map<int, Job>

    ghost predicate Valid()
      reads this, buckets
    {
      Proper(buckets[..], view)
    }

    /** tabla_jobs_init. */
    constructor ()
      ensures Valid() && fresh(buckets) && view == map[]
    {
      buckets := new seq<Job>[TAM_TABLA_JOBS](_ => []);
      view := map[];
    }

    /** tabla_jobs_insertar_job: the job is linked at the head of its bucket, whatever
        the bucket holds; the table stays proper exactly if the id is new. */
    method Insertar(j: Job)
      requires Valid() && j.id >= 0
      modifies this, buckets
      ensures buckets[..] == old(buckets[..])[BucketOf(j.id) := [j] + old(buckets[BucketOf(j.id)])]
      ensures view == old(view)[j.id := j] && (Valid() <==> j.id !in old(view))
    {
      if j.id in view { InsertTwice(buckets[..], view, j); } else { InsertNew(buckets[..], view, j); }
      var h := BucketOf(j.id);
      ghost var bs := buckets[..];
      buckets[h] := [j] + buckets[h];
      view := view[j.id := j];
      assert buckets[..] == bs[h := [j] + bs[h]];
    }

    /** The position of a job in its bucket, by the list walk that every lookup makes. */
    method Position(id: int) returns (n: nat)
      requires Valid() && id >= 0
      ensures n <= |buckets[BucketOf(id)]|
      ensures n < |buckets[BucketOf(id)]| ==> id in view && buckets[BucketOf(id)][n] == view[id] && view[id].id == id
      ensures n == |buckets[BucketOf(id)]| ==> id !in view
    {
      var b := buckets[BucketOf(id)];
      ghost var bs := buckets[..];
      assert bs[BucketOf(id)] == b && OwnBucket(bs[BucketOf(id)], BucketOf(id), view);
      assert id in view ==> view[id] in b && view[id].id == id;
      n := 0;
      while n < |b| && b[n].id != id
        invariant n <= |b| && forall m :: 0 <= m < n ==> b[m].id != id
      {
        n := n + 1;
      }
    }

    /** tabla_jobs_buscar_por_id. */
    method BuscarPorId(id: int) returns (r: Option<Job>)
      requires Valid() && id >= 0
      ensures r == if id in view then Some(view[id]) else None
    {
      var n := Position(id);
      var b := buckets[BucketOf(id)];
      r := if n < |b| then Some(b[n]) else None;
    }

    /** tabla_jobs_extract_by_id, and the unlinking part of tabla_jobs_remove. */
    method ExtractById(id: int) returns (r: Option<Job>)
      requires Valid() && id >= 0
      modifies this, buckets
      ensures Valid() && view == old(view) - {id}
      ensures r == if id in old(view) then Some(old(view)[id]) else None
    {
      var n := Position(id);
      var h := BucketOf(id);
      var b := buckets[h];
      if n == |b| {
        assert view - {id} == view;
        return None;
      }
      r := Some(b[n]);
      RemoveProper(buckets[..], view, id, n);
      ghost var bs := buckets[..];
      buckets[h] := b[..n] + b[n+1..];
      view := view - {id};
      assert buckets[..] == bs[h := bs[h][..n] + bs[h][n+1..]];
    }

    /** Puts a new version of a job where the old one was found. */
    method Replace(n: nat, j: Job)
      requires Valid() && j.id >= 0 && n < |buckets[BucketOf(j.id)]| && buckets[BucketOf(j.id)][n].id == j.id
      modifies this, buckets
      ensures Valid() && view == old(view)[j.id := j]
    {
      var h := BucketOf(j.id);
      UpdateProper(buckets[..], view, n, j);
      ghost var bs := buckets[..];
      buckets[h] := buckets[h][n := j];
      view := view[j.id := j];
      assert buckets[..] == bs[h := bs[h][n := j]];
    }

    /** tabla_jobs_cambio_alloc: the job found is marked in place. */
    method CambioAlloc(id: int, k: Conn, r: Res)
      requires Valid() && id >= 0
      modifies this, buckets
      ensures Valid() && view == MarkIn(old(view), id, k, r)
    {
      var n := Position(id);
      var b := buckets[BucketOf(id)];
      if n == |b| { return; }
      var as_ := MarkFirst(b[n].confirmed, k, r);
      Replace(n, b[n].(confirmed := as_));
    }

    /** tabla_jobs_verificar. */
    method Verificar(id: int) returns (ready: bool)
      requires Valid() && id >= 0
      ensures ready <==> ReadyIn(view, id)
    {
      var j := BuscarPorId(id);
      if j.None? { return false; }
      var waits := SomeWait(j.value.confirmed);
      return !waits && j.value.pending == [];
    }

    /** job_confirmar on the job with an id, if it is in the table. */
    method Confirmar(id: int, host: string) returns (ok: bool)
      requires Valid() && id >= 0
      modifies this, buckets
      ensures ok <==> id in old(view) && FindHost(old(view)[id].pending, host) < |old(view)[id].pending|
      ensures Valid()
      ensures view == if ok then old(view)[id := Confirm(old(view)[id], FindHost(old(view)[id].pending, host))]
              else old(view)
    {
      var n := Position(id);
      var b := buckets[BucketOf(id)];
      if n == |b| { return false; }
      var i := HostAt(b[n].pending, host);
      if i == |b[n].pending| { return false; }
      Replace(n, Confirm(b[n], i));
      return true;
    }

    /** One job: its shares on the connection go, and then perhaps the job itself. */
    method WalkJob(j: Job, k: Conn) returns (j': Job, affected: bool)
      ensures j' == Strip(j, k) && affected == Affected(j, k)
    {
      var as_ := DropShares(j.confirmed, k);
      j' := j.(confirmed := as_);
      affected := j.conn == k;
      if !affected { affected := UsesConn(j.pending, k); }
      affected := affected || (as_ == [] && j.pending == []);
    }

    /** The walk over one bucket: affected jobs are pushed on the extracted list. */
    method WalkBucket(b: seq<Job>, k: Conn, out: seq<Job>) returns (stay: seq<Job>, out': seq<Job>)
      ensures stay == Stay(b, k) && out' == Leave(b, k) + out
    {
      stay, out' := [], out;
      Nil(out);
      for i := 0 to |b|
        invariant stay == Stay(b[..i], k) && out' == Leave(b[..i], k) + out
      {
        WalkStep(b, i, k);
        var j, affected := WalkJob(b[i], k);
        if affected {
          Assoc([j], Leave(b[..i], k), out);
          out' := [j] + out';
        } else {
          Nil(stay);
          Nil(Leave(b[..i], k));
          stay := stay + [j];
        }
      }
      CutFront(b, |b|, |b|);
    }

    method WalkAt(i: nat, k: Conn, out: seq<Job>) returns (out': seq<Job>)
      requires i < buckets.Length
      modifies buckets
      ensures buckets[i] == Stay(old(buckets[i]), k) && out' == Leave(old(buckets[i]), k) + out
      ensures forall n :: 0 <= n < buckets.Length && n != i ==> buckets[n] == old(buckets[n])
    {
      var stay;
      stay, out' := WalkBucket(buckets[i], k, out);
      buckets[i] := stay;
    }

    /** The walk over all the buckets. */
    method WalkTable(k: Conn) returns (out: seq<Job>)
      requires buckets.Length == TAM_TABLA_JOBS
      modifies buckets
      ensures buckets[..] == StayAll(old(buckets[..]), k) && out == LeaveAll(old(buckets[..]), k)
    {
      ghost var bs := buckets[..];
      out := [];
      assert bs[..0] == [];
      for i := 0 to TAM_TABLA_JOBS
        invariant forall n :: 0 <= n < i ==> buckets[n] == Stay(bs[n], k)
        invariant forall n :: i <= n < TAM_TABLA_JOBS ==> buckets[n] == bs[n]
        invariant out == LeaveAll(bs[..i], k)
      {
        LeaveStep(bs, i, k);
        out := WalkAt(i, k, out);
      }
      assert bs[..TAM_TABLA_JOBS] == bs;
    }

    /** tabla_jobs_extract_by_remote_conn: the table keeps the unaffected jobs
        without the shares of the connection, and the list returned is an
        enumeration of the affected ones. */
    method ExtractByRemoteConn(k: Conn) returns (out: seq<Job>)
      requires Valid()
      modifies this, buckets
      ensures Valid() && view == Kept(old(view), k)
      ensures Enumerates(IdsOf(out), Victims(old(view), k)) && out == Pick(old(view), IdsOf(out), k)
    {
      StayAllProper(buckets[..], view, k);
      LeaveAllVictims(buckets[..], view, k);
      out := WalkTable(k);
      view := Kept(view, k);
    }

    method PushBucket(b: seq<Job>, k: Conn, found: seq<OutReq>) returns (found': seq<OutReq>)
      ensures found' == Found(b, k) + found
    {
      found' := found;
      Nil(found);
      for i := 0 to |b|
        invariant found' == Found(b[..i], k) + found
      {
        CutFront(b[..i+1], i, i);
        assert b[..i+1][..i] == b[..i] && b[..i+1][i] == b[i];
        Assoc(OnConn(b[i].pending, k), Found(b[..i], k), found);
        found' := PushOnConn(b[i].pending, k, found');
      }
      CutFront(b, |b|, |b|);
    }

    method PushTable(k: Conn) returns (found: seq<OutReq>)
      requires buckets.Length == TAM_TABLA_JOBS
      ensures found == Found(Flat(buckets[..]), k)
    {
      ghost var bs := buckets[..];
      found := [];
      for i := 0 to TAM_TABLA_JOBS
        invariant found == Found(Flat(bs[..i]), k)
      {
        FlatStep(bs, i, k);
        found := PushBucket(buckets[i], k, found);
      }
      CutFront(bs, |bs|, |bs|);
    }

    /** tabla_jobs_get_pendientes_by_conn: every request on the connection, from a
        walk over all the jobs. */
    method PendientesPorConn(k: Conn) returns (found: seq<OutReq>, ghost order: seq<int>)
      requires Valid()
      ensures Enumerates(order, view.Keys) && found == Awaiting(view, order, k)
    {
      ghost var bs := buckets[..];
      found := PushTable(k);
      FlatAll(bs, view);
      FoundAwaits(view, Flat(bs), k);
      order := IdsOf(Flat(bs));
    }
  }
}
