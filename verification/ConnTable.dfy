/** The table of outgoing connections: 71 buckets hashed by host, newest first. */
module ConnTable {
  import opened Types

  const BUCKETS := 71

  datatype Entry = Entry(host: string, conn: Conn)

  type Table = t: seq<seq<Entry>> | |t| == BUCKETS witness seq(BUCKETS, _ => [])

  function EmptyTable(): (t: Table)
    ensures forall i :: 0 <= i < BUCKETS ==> t[i] == []
  {
    seq(BUCKETS, _ => [])
  }

  /** The unsigned 32-bit accumulator of hash_ip over the first characters of a host. */
  function HashSum(host: string): (h: nat)
    ensures h < 0x1_0000_0000
  {
    if host == [] then 0
    else (HashSum(host[..|host|-1]) * 31 + (host[|host|-1] as int) % 256) % 0x1_0000_0000
  }

  function Pow31(n: nat): nat { if n == 0 then 1 else 31 * Pow31(n - 1) }

  /** The polynomial at 31 whose coefficients are the bytes of a string, first byte first. */
  function Poly(s: string): nat {
    if s == [] then 0 else (s[0] as int) % 256 * Pow31(|s| - 1) + Poly(s[1..])
  }

  lemma {:induction false} PolySnoc(s: string, c: char)
    ensures Poly(s + [c]) == 31 * Poly(s) + (c as int) % 256
  {
    if s == [] {
      assert [c][1..] == [] && Pow31(0) == 1;
    } else {
      var b, p := (s[0] as int) % 256, Pow31(|s| - 1);
      PolySnoc(s[1..], c);
      assert (s + [c])[1..] == s[1..] + [c];
      assert Pow31(|s|) == 31 * p;
      assert b * (31 * p) == 31 * (b * p);
    }
  }

  lemma WrapOnce(x: nat, c: nat)
    ensures (x % 0x1_0000_0000 * 31 + c) % 0x1_0000_0000 == (31 * x + c) % 0x1_0000_0000
  {
    var q, r := x / 0x1_0000_0000, x % 0x1_0000_0000;
    assert 31 * x + c == r * 31 + c + (31 * q) * 0x1_0000_0000;
  }

  /** The accumulator that wraps at every character is the polynomial modulo 2^32. */
  lemma {:induction false} HashIsPoly(s: string)
    ensures HashSum(s) == Poly(s) % 0x1_0000_0000
  {
    if s != [] {
      var f, c := s[..|s|-1], s[|s|-1];
      HashIsPoly(f);
      assert s == f + [c];
      PolySnoc(f, c);
      WrapOnce(Poly(f), (c as int) % 256);
    }
  }

  function Bucket(host: string): (i: nat)
    ensures i < BUCKETS
  {
    HashSum(host) % BUCKETS
  }

  function Insert(t: Table, host: string, c: Conn): Table {
    var i := Bucket(host);
    t[i := [Entry(Clip(host, 15), c)] + t[i]]
  }

  function FirstByHost(b: seq<Entry>, host: string): Option<Conn> {
    if b == [] then None
    else if b[0].host == host then Some(b[0].conn)
    else FirstByHost(b[1..], host)
  }

  function Lookup(t: Table, host: string): Option<Conn> {
    FirstByHost(t[Bucket(host)], host)
  }

  function FirstByConn(b: seq<Entry>, c: Conn): Option<string> {
    if b == [] then None
    else if b[0].conn == c then Some(b[0].host)
    else FirstByConn(b[1..], c)
  }

  function HostFrom(t: seq<seq<Entry>>, c: Conn): Option<string> {
    if t == [] then None
    else
      var h := FirstByConn(t[0], c);
      if h.Some? then h else HostFrom(t[1..], c)
  }

  /** The host a connection is registered under, scanning the buckets in order. */
  function HostOf(t: Table, c: Conn): Option<string> {
    HostFrom(t, c)
  }

  /** Unlinks the first entry of a bucket that carries the connection. */
  function Unlink(b: seq<Entry>, c: Conn): seq<Entry> {
    if b == [] then []
    else if b[0].conn == c then b[1..]
    else [b[0]] + Unlink(b[1..], c)
  }

  function DeleteByConn(t: Table, c: Conn): Table {
    seq(BUCKETS, i requires 0 <= i < BUCKETS => Unlink(t[i], c))
  }

  ghost predicate Mentions(t: Table, c: Conn) {
    exists i, k :: 0 <= i < BUCKETS && 0 <= k < |t[i]| && t[i][k].conn == c
  }

  /** No connection occurs twice in the same bucket. */
  ghost predicate BucketOnce(b: seq<Entry>) {
    forall j, k :: 0 <= j < k < |b| ==> b[j].conn != b[k].conn
  }

  ghost predicate Once(t: Table) {
    forall i :: 0 <= i < BUCKETS ==> BucketOnce(t[i])
  }

  // ---------------------------------------------------------------- what the operations mean

  /** A connection just inserted is the one found for its host, and for no other. */
  lemma InsertFinds(t: Table, host: string, c: Conn, h: string)
    ensures Lookup(Insert(t, host, c), h)
         == if h == Clip(host, 15) && Bucket(h) == Bucket(host) then Some(c) else Lookup(t, h)
  {
    var i := Bucket(host);
    assert Insert(t, host, c)[i][1..] == t[i];
  }

  lemma {:induction false} HostFromAbsent(t: seq<seq<Entry>>, k: Conn)
    requires forall i, n :: 0 <= i < |t| && 0 <= n < |t[i]| ==> t[i][n].conn != k
    ensures HostFrom(t, k) == None
  {
    if t != [] {
      FirstByConnAbsent(t[0], k);
      assert forall i :: 0 <= i < |t[1..]| ==> t[1..][i] == t[i+1];
      HostFromAbsent(t[1..], k);
    }
  }

  lemma {:induction false} FirstByConnAbsent(b: seq<Entry>, k: Conn)
    requires forall n :: 0 <= n < |b| ==> b[n].conn != k
    ensures FirstByConn(b, k) == None
  {
    if b != [] {
      assert forall n :: 0 <= n < |b[1..]| ==> b[1..][n] == b[n+1];
      FirstByConnAbsent(b[1..], k);
    }
  }

  /** One entry more at the head of a bucket. */
  lemma {:induction false} HostFromInsert(t: seq<seq<Entry>>, i: nat, e: Entry, k: Conn)
    requires i < |t|
    ensures e.conn != k ==> HostFrom(t[i := [e] + t[i]], k) == HostFrom(t, k)
    ensures e.conn == k && HostFrom(t, k) == None ==> HostFrom(t[i := [e] + t[i]], k) == Some(e.host)
  {
    var u := t[i := [e] + t[i]];
    if i == 0 {
      assert u[0][1..] == t[0] && u[1..] == t[1..];
    } else {
      assert u[1..] == t[1..][i-1 := [e] + t[1..][i-1]];
      HostFromInsert(t[1..], i - 1, e, k);
    }
  }

  /** A connection that was not registered is found under the host it is inserted with,
      and every other one as before. */
  lemma InsertNames(t: Table, host: string, c: Conn, k: Conn)
    requires !Mentions(t, c)
    ensures HostOf(Insert(t, host, c), k) == if k == c then Some(Clip(host, 15)) else HostOf(t, k)
  {
    HostFromAbsent(t, c);
    HostFromInsert(t, Bucket(host), Entry(Clip(host, 15), c), k);
  }
}
