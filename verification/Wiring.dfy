/** The table of connections over time: each connection is registered once, and
    only connections that are still being dialled carry unsent requests. */
module Wiring {
  import opened Types
  import opened Seqs
  import opened Allocator
  import opened Ledger
  import opened Requests
  import CT = ConnTable

  /** How many outgoing requests of a list use a connection. */
  ghost function CountOn(ps: seq<OutReq>, k: Conn): nat {
    if ps == [] then 0 else (if ps[0].conn == k then 1 else 0) + CountOn(ps[1..], k)
  }

  /** At most one outgoing request waits for a connection not registered yet. */
  ghost predicate DialOnce(jobs: map<int, Job>, conns: CT.Table) {
    && (forall id, k :: id in jobs && !CT.Mentions(conns, k) ==> CountOn(jobs[id].pending, k) <= 1)
    && (forall id, id', k :: id in jobs && id' in jobs && id != id' && !CT.Mentions(conns, k)
          ==> CountOn(jobs[id].pending, k) == 0 || CountOn(jobs[id'].pending, k) == 0)
  }

  /** A request without a message that waits for its connection uses an open one. */
  ghost predicate Backed(ps: seq<OutReq>, conns: CT.Table) {
    forall i :: 0 <= i < |ps| && ps[i].held.None? ==> CT.Mentions(conns, ps[i].conn)
  }

  ghost predicate AllBacked(jobs: map<int, Job>, conns: CT.Table) {
    forall id :: id in jobs ==> Backed(jobs[id].pending, conns)
  }

  ghost predicate Wired(s: State) {
    PeersOnly(s.conns) && CT.Once(s.conns) && DialOnce(s.jobs, s.conns) && AllBacked(s.jobs, s.conns)
  }

  // ---------------------------------------------------------------- lists of requests

  lemma {:induction false} CountMember(ps: seq<OutReq>, k: Conn)
    ensures CountOn(ps, k) == 0 <==> forall o | o in ps :: o.conn != k
    ensures |OnConn(ps, k)| == CountOn(ps, k)
  {
    if ps != [] {
      CountMember(ps[1..], k);
      assert ps == [ps[0]] + ps[1..];
    }
  }

  lemma {:induction false} CountWithout(ps: seq<OutReq>, i: nat, k: Conn)
    requires i < |ps|
    ensures CountOn(ps[..i] + ps[i+1..], k) == CountOn(ps, k) - if ps[i].conn == k then 1 else 0
  {
    if i == 0 {
      assert ps[..0] + ps[1..] == ps[1..];
    } else {
      CountWithout(ps[1..], i - 1, k);
      assert ps[..i] + ps[i+1..] == [ps[0]] + (ps[1..][..i-1] + ps[1..][i..]);
    }
  }

  // ---------------------------------------------------------------- building a job

  ghost function DialCount(reqs: seq<Req>, k: Conn): nat {
    if reqs == [] then 0 else (if reqs[0].dial == Some(k) then 1 else 0) + DialCount(reqs[1..], k)
  }

  lemma {:induction false} FoundInBucket(b: seq<CT.Entry>, host: string)
    requires CT.FirstByHost(b, host).Some?
    ensures exists i :: 0 <= i < |b| && b[i].conn == CT.FirstByHost(b, host).value
  {
    if b[0].host != host {
      FoundInBucket(b[1..], host);
      var i :| 0 <= i < |b[1..]| && b[1..][i].conn == CT.FirstByHost(b[1..], host).value;
      assert b[i+1] == b[1..][i];
    }
  }

  lemma LookupMentioned(t: CT.Table, host: string)
    requires CT.Lookup(t, host).Some?
    ensures CT.Mentions(t, CT.Lookup(t, host).value)
  {
    var i := CT.Bucket(host);
    FoundInBucket(t[i], host);
    var n :| 0 <= n < |t[i]| && t[i][n].conn == CT.FirstByHost(t[i], host).value;
    assert t[i][n].conn == CT.Lookup(t, host).value;
  }

  /** A job uses an unregistered connection only where the request dialled it. */
  lemma {:induction false} BuildDials(s: State, j: Job, reqs: seq<Req>, k: Conn)
    requires !CT.Mentions(s.conns, k)
    ensures CountOn(Build(s, j, reqs).j.pending, k) <= CountOn(j.pending, k) + DialCount(reqs, k)
    decreases |reqs|
  {
    if reqs != [] {
      var q := reqs[0];
      if q.host == s.ip {
        var (t, o) := ReserveRes(s, q.res, q.amount, j.id, j.conn, Local);
        if o != RmDenied {
          BuildDials(t, j.(confirmed := [Alloc(q.res, q.amount, Local, s.ip, j.id, o, j.conn)] + j.confirmed),
              reqs[1..], k);
        }
      } else {
        var c := CT.Lookup(s.conns, q.host);
        if c.Some? {
          LookupMentioned(s.conns, q.host);
          var j' := Ask(j, q, c.value, None);
          assert j'.pending[1..] == j.pending;
          BuildDials(s.Send(c.value, Reserve(j.id, q.res, q.amount)), j', reqs[1..], k);
        } else if q.dial.Some? {
          var j' := Ask(j, q, q.dial.value, Some(Reserve(j.id, q.res, q.amount)));
          assert j'.pending[1..] == j.pending;
          BuildDials(s, j', reqs[1..], k);
        }
      }
    }
  }

  lemma {:induction false} BuildBacked(s: State, j: Job, reqs: seq<Req>)
    requires Backed(j.pending, s.conns)
    ensures Backed(Build(s, j, reqs).j.pending, s.conns)
    decreases |reqs|
  {
    if reqs != [] {
      var q := reqs[0];
      if q.host == s.ip {
        var (t, o) := ReserveRes(s, q.res, q.amount, j.id, j.conn, Local);
        if o != RmDenied {
          var a := Alloc(q.res, q.amount, Local, s.ip, j.id, o, j.conn);
          BuildBacked(t, j.(confirmed := [a] + j.confirmed), reqs[1..]);
        }
      } else {
        var c := CT.Lookup(s.conns, q.host);
        if c.Some? {
          LookupMentioned(s.conns, q.host);
          BuildBacked(s.Send(c.value, Reserve(j.id, q.res, q.amount)), Ask(j, q, c.value, None), reqs[1..]);
        } else if q.dial.Some? {
          BuildBacked(s, Ask(j, q, q.dial.value, Some(Reserve(j.id, q.res, q.amount))), reqs[1..]);
        }
      }
    }
  }

  /** Dialled connections are new: nothing mentions them yet and none is repeated. */
  ghost predicate FreshDials(s: State, reqs: seq<Req>) {
    && (forall i :: 0 <= i < |reqs| && reqs[i].dial.Some? ==> FreshConn(s, reqs[i].dial.value))
    && (forall i, n :: 0 <= i < n < |reqs| && reqs[i].dial.Some? ==> reqs[i].dial != reqs[n].dial)
  }

  ghost predicate FreshConn(s: State, k: Conn) {
    !CT.Mentions(s.conns, k) && forall id :: id in s.jobs ==> CountOn(s.jobs[id].pending, k) == 0
  }

  lemma {:induction false} DialsOnce(reqs: seq<Req>, k: Conn)
    requires forall i, n :: 0 <= i < n < |reqs| && reqs[i].dial.Some? ==> reqs[i].dial != reqs[n].dial
    ensures DialCount(reqs, k) <= 1
    ensures DialCount(reqs, k) > 0 ==> exists i :: 0 <= i < |reqs| && reqs[i].dial == Some(k)
    ensures (forall i :: 0 <= i < |reqs| ==> reqs[i].dial != Some(k)) ==> DialCount(reqs, k) == 0
  {
    if reqs != [] {
      DialsOnce(reqs[1..], k);
      assert forall i :: 0 <= i < |reqs[1..]| ==> reqs[1..][i] == reqs[i+1];
    }
  }

  lemma RequestDials(s: State, c: Conn, id: int, reqs: seq<Req>, t: State)
    requires DialOnce(s.jobs, s.conns) && FreshDials(s, reqs) && id !in s.jobs
    requires t.conns == s.conns && t.jobs.Keys <= s.jobs.Keys + {id}
    requires forall n :: n in s.jobs && n in t.jobs ==> t.jobs[n].pending == s.jobs[n].pending
    requires id in t.jobs ==> t.jobs[id].pending == Build(s, Job(id, c, [], []), reqs).j.pending
    ensures DialOnce(t.jobs, t.conns)
  {
    forall k | !CT.Mentions(s.conns, k) ensures id in t.jobs ==> CountOn(t.jobs[id].pending, k) <= DialCount(reqs, k) {
      BuildDials(s, Job(id, c, [], []), reqs, k);
    }
    forall n, k | n in t.jobs && !CT.Mentions(t.conns, k) ensures CountOn(t.jobs[n].pending, k) <= 1 {
      DialsOnce(reqs, k);
      assert n != id ==> n in s.jobs;
    }
    forall n, n', k | n in t.jobs && n' in t.jobs && n != n' && !CT.Mentions(t.conns, k)
      ensures CountOn(t.jobs[n].pending, k) == 0 || CountOn(t.jobs[n'].pending, k) == 0
    {
      DialsOnce(reqs, k);
      assert n != id ==> n in s.jobs;
      assert n' != id ==> n' in s.jobs;
      if (n == id || n' == id) && DialCount(reqs, k) > 0 {
        var i :| 0 <= i < |reqs| && reqs[i].dial == Some(k);
        assert FreshConn(s, k);
      }
    }
  }

  // ---------------------------------------------------------------- registering

  lemma InsertMentions(t: CT.Table, host: string, c: Conn, k: Conn)
    ensures CT.Mentions(CT.Insert(t, host, c), k) <==> CT.Mentions(t, k) || k == c
  {
    var b := CT.Bucket(host);
    var u := CT.Insert(t, host, c);
    assert u[b][0].conn == c;
    if CT.Mentions(t, k) {
      var i, n :| 0 <= i < CT.BUCKETS && 0 <= n < |t[i]| && t[i][n].conn == k;
      if i == b { assert u[i][n+1].conn == k; } else { assert u[i][n].conn == k; }
    }
    if CT.Mentions(u, k) && k != c {
      var i, n :| 0 <= i < CT.BUCKETS && 0 <= n < |u[i]| && u[i][n].conn == k;
      if i == b { assert t[i][n-1].conn == k; } else { assert t[i][n].conn == k; }
    }
  }

  lemma InsertOnce(t: CT.Table, host: string, c: Conn)
    requires CT.Once(t) && PeersOnly(t) && !CT.Mentions(t, c) && c.Peer?
    ensures CT.Once(CT.Insert(t, host, c)) && PeersOnly(CT.Insert(t, host, c))
  {
    var b := CT.Bucket(host);
    var u := CT.Insert(t, host, c);
    forall i | 0 <= i < CT.BUCKETS ensures CT.BucketOnce(u[i]) {
      assert CT.BucketOnce(t[i]);
      if i == b {
        forall j, k | 0 <= j < k < |u[i]| ensures u[i][j].conn != u[i][k].conn {
          assert u[i][k] == t[i][k-1];
          if j > 0 { assert u[i][j] == t[i][j-1]; } else { assert t[i][k-1].conn != c; }
        }
      }
    }
    forall i, k | 0 <= i < |u| && 0 <= k < |u[i]| ensures u[i][k].conn.Peer? {
      if i == b && k > 0 { assert u[i][k] == t[i][k-1]; }
    }
  }

  /** Whatever waits for a connection is a request of some job. */
  lemma {:induction false} AwaitingFrom(jobs: map<int, Job>, order: seq<int>, k: Conn)
    requires forall i :: 0 <= i < |order| ==> order[i] in jobs
    ensures forall o :: o in Awaiting(jobs, order, k) ==> exists i :: 0 <= i < |order| && o in jobs[order[i]].pending
  {
    if order != [] {
      var rest := order[1..];
      AwaitingFrom(jobs, rest, k);
      OnConnMember(jobs[order[0]].pending, k);
      forall o | o in Awaiting(jobs, order, k) ensures exists i :: 0 <= i < |order| && o in jobs[order[i]].pending {
        if o in Awaiting(jobs, rest, k) {
          var i :| 0 <= i < |rest| && o in jobs[rest[i]].pending;
          assert order[i+1] == rest[i];
        } else {
          assert o in jobs[order[0]].pending;
        }
      }
    }
  }

  lemma AwaitingCount(jobs: map<int, Job>, order: seq<int>, k: Conn)
    requires order != [] && forall i :: 0 <= i < |order| ==> order[i] in jobs
    ensures |Awaiting(jobs, order, k)| == |Awaiting(jobs, order[1..], k)| + CountOn(jobs[order[0]].pending, k)
  {
    CountMember(jobs[order[0]].pending, k);
  }

  /** The requests that wait for a connection being dialled: at most one. */
  lemma {:induction false} AwaitingOnce(jobs: map<int, Job>, order: seq<int>, conns: CT.Table, k: Conn)
    requires DialOnce(jobs, conns) && !CT.Mentions(conns, k)
    requires forall i :: 0 <= i < |order| ==> order[i] in jobs
    requires forall i, n :: 0 <= i < n < |order| ==> order[i] != order[n]
    ensures |Awaiting(jobs, order, k)| <= 1
    ensures (forall i :: 0 <= i < |order| ==> CountOn(jobs[order[i]].pending, k) == 0)
            ==> Awaiting(jobs, order, k) == []
  {
    if order != [] {
      var rest := order[1..];
      assert forall i :: 0 <= i < |rest| ==> rest[i] == order[i+1];
      AwaitingOnce(jobs, rest, conns, k);
      AwaitingCount(jobs, order, k);
      if CountOn(jobs[order[0]].pending, k) > 0 {
        forall i | 0 <= i < |rest| ensures CountOn(jobs[rest[i]].pending, k) == 0 { assert rest[i] == order[i+1]; }
      }
    }
  }

  lemma {:induction false} OnConnMember(ps: seq<OutReq>, k: Conn)
    ensures forall o :: o in OnConn(ps, k) ==> o in ps
  {
    if ps != [] { OnConnMember(ps[1..], k); }
  }

  // ---------------------------------------------------------------- forgetting a connection

  lemma {:induction false} UnlinkFacts(b: seq<CT.Entry>, c: Conn)
    ensures forall e :: e in CT.Unlink(b, c) ==> e in b
    ensures forall e :: e in b && e.conn != c ==> e in CT.Unlink(b, c)
    ensures CT.BucketOnce(b) ==> CT.BucketOnce(CT.Unlink(b, c)) && forall e :: e in CT.Unlink(b, c) ==> e.conn != c
  {
    if b != [] {
      Halves(b, 1);
      if b[0].conn != c { UnlinkFacts(b[1..], c); }
      if CT.BucketOnce(b) {
        OnceRest(b);
        if b[0].conn != c { OnceCons(b[0], CT.Unlink(b[1..], c)); }
      }
    }
  }

  lemma OnceRest(b: seq<CT.Entry>)
    requires CT.BucketOnce(b) && b != []
    ensures CT.BucketOnce(b[1..]) && forall e :: e in b[1..] ==> e.conn != b[0].conn
  {
    assert forall i :: 0 <= i < |b[1..]| ==> b[1..][i] == b[i+1];
  }

  lemma OnceCons(x: CT.Entry, b: seq<CT.Entry>)
    requires CT.BucketOnce(b) && forall e :: e in b ==> e.conn != x.conn
    ensures CT.BucketOnce([x] + b)
  {
    var u := [x] + b;
    forall j, k | 0 <= j < k < |u| ensures u[j].conn != u[k].conn {
      assert u[k] == b[k-1] && b[k-1] in b;
      if j > 0 { assert u[j] == b[j-1]; }
    }
  }

  lemma DeleteFacts(t: CT.Table, c: Conn)
    requires CT.Once(t) && PeersOnly(t)
    ensures CT.Once(CT.DeleteByConn(t, c)) && PeersOnly(CT.DeleteByConn(t, c))
    ensures !CT.Mentions(CT.DeleteByConn(t, c), c)
    ensures forall k :: k != c ==> (CT.Mentions(CT.DeleteByConn(t, c), k) <==> CT.Mentions(t, k))
  {
    var u := CT.DeleteByConn(t, c);
    forall i | 0 <= i < CT.BUCKETS ensures CT.BucketOnce(u[i]) { assert CT.BucketOnce(t[i]); UnlinkFacts(t[i], c); }
    forall i, n | 0 <= i < CT.BUCKETS && 0 <= n < |u[i]| ensures u[i][n].conn != c && u[i][n] in t[i] {
      assert CT.BucketOnce(t[i]);
      UnlinkFacts(t[i], c);
      assert u[i][n] in u[i];
    }
    forall i, n | 0 <= i < |u| && 0 <= n < |u[i]| ensures u[i][n].conn.Peer? {
      var m :| 0 <= m < |t[i]| && t[i][m] == u[i][n];
    }
    forall k | k != c ensures CT.Mentions(u, k) <==> CT.Mentions(t, k) {
      if CT.Mentions(t, k) {
        var i, n :| 0 <= i < CT.BUCKETS && 0 <= n < |t[i]| && t[i][n].conn == k;
        UnlinkFacts(t[i], c);
        assert t[i][n] in u[i];
        var m :| 0 <= m < |u[i]| && u[i][m] == t[i][n];
      }
      if CT.Mentions(u, k) {
        var i, n :| 0 <= i < CT.BUCKETS && 0 <= n < |u[i]| && u[i][n].conn == k;
        var m :| 0 <= m < |t[i]| && t[i][m] == u[i][n];
      }
    }
  }
}
