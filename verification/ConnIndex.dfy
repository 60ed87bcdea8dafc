/** The bucket array of outgoing connections, changed in place, against the
    value that the state machine works on. */
module ConnIndex {
  import opened Types
  import opened ConnTable

  /** hash_ip: one pass over the characters with a wrapping 32-bit accumulator. */
  method HashIp(host: string) returns (i: nat)
    ensures i == Bucket(host)
  {
    var h: nat := 0;
    assert host[..0] == [];
    for n := 0 to |host|
      invariant h == HashSum(host[..n])
    {
      assert host[..n+1][..n] == host[..n];
      h := (h * 31 + (host[n] as int) % 256) % 0x1_0000_0000;
    }
    assert host[..|host|] == host;
    return h % BUCKETS;
  }

  lemma {:induction false} FirstByHostAt(b: seq<Entry>, host: string, n: nat)
    requires n <= |b| && forall m :: 0 <= m < n ==> b[m].host != host
    requires n < |b| ==> b[n].host == host
    ensures FirstByHost(b, host) == if n < |b| then Some(b[n].conn) else None
  {
    if n > 0 { FirstByHostAt(b[1..], host, n - 1); }
  }

  lemma {:induction false} FirstByConnAt(b: seq<Entry>, c: Conn, n: nat)
    requires n <= |b| && forall m :: 0 <= m < n ==> b[m].conn != c
    requires n < |b| ==> b[n].conn == c
    ensures FirstByConn(b, c) == if n < |b| then Some(b[n].host) else None
    ensures Unlink(b, c) == if n < |b| then b[..n] + b[n+1..] else b
  {
    if n > 0 {
      FirstByConnAt(b[1..], c, n - 1);
      assert n < |b| ==> [b[0]] + (b[1..][..n-1] + b[1..][n..]) == b[..n] + b[n+1..];
    }
  }

  class Index {
    const buckets: array<seq<Entry>>

    ghost predicate Valid() { buckets.Length == BUCKETS }

    ghost function View(): Table
      requires Valid()
      reads buckets
    {
      buckets[..]
    }

    /** tabla_conns_init. */
    constructor ()
      ensures Valid() && fresh(buckets) && View() == EmptyTable()
    {
      buckets := new seq<Entry>[BUCKETS](_ => []);
      new;
      assert buckets[..] == EmptyTable();
    }

    /** tabla_conns_insert. */
    method Insertar(host: string, c: Conn)
      requires Valid()
      modifies buckets
      ensures View() == Insert(old(View()), host, c)
    {
      var i := HashIp(host);
      buckets[i] := [Entry(Clip(host, 15), c)] + buckets[i];
    }

    /** tabla_conns_lookup. */
    method Buscar(host: string) returns (r: Option<Conn>)
      requires Valid()
      ensures r == Lookup(View(), host)
    {
      var i := HashIp(host);
      var b := buckets[i];
      var n := 0;
      while n < |b| && b[n].host != host
        invariant n <= |b| && forall m :: 0 <= m < n ==> b[m].host != host
      {
        n := n + 1;
      }
      FirstByHostAt(b, host, n);
      r := if n < |b| then Some(b[n].conn) else None;
    }

    /** The position of the first entry of a bucket that carries the connection. */
    method Position(b: seq<Entry>, c: Conn) returns (n: nat)
      ensures n <= |b|
      ensures FirstByConn(b, c) == if n < |b| then Some(b[n].host) else None
      ensures Unlink(b, c) == if n < |b| then b[..n] + b[n+1..] else b
    {
      n := 0;
      while n < |b| && b[n].conn != c
        invariant n <= |b| && forall m :: 0 <= m < n ==> b[m].conn != c
      {
        n := n + 1;
      }
      FirstByConnAt(b, c, n);
    }

    /** tabla_conns_get_ip_by_conn. */
    method HostPorConn(c: Conn) returns (r: Option<string>)
      requires Valid()
      ensures r == HostOf(View(), c)
    {
      ghost var t := buckets[..];
      for i := 0 to BUCKETS
        invariant HostFrom(t, c) == HostFrom(t[i..], c)
      {
        var b := buckets[i];
        var n := Position(b, c);
        if n < |b| { return Some(b[n].host); }
        assert t[i..][1..] == t[i+1..];
      }
      return None;
    }

    method DeleteAt(i: nat, c: Conn)
      requires i < buckets.Length
      modifies buckets
      ensures buckets[i] == Unlink(old(buckets[i]), c)
      ensures forall n :: 0 <= n < buckets.Length && n != i ==> buckets[n] == old(buckets[n])
    {
      var b := buckets[i];
      var n := Position(b, c);
      if n < |b| { buckets[i] := b[..n] + b[n+1..]; }
    }

    /** tabla_conns_delete_by_conn. */
    method BorrarPorConn(c: Conn)
      requires Valid()
      modifies buckets
      ensures View() == DeleteByConn(old(View()), c)
    {
      ghost var t := buckets[..];
      for i := 0 to BUCKETS
        invariant forall n :: 0 <= n < i ==> buckets[n] == Unlink(t[n], c)
        invariant forall n :: i <= n < BUCKETS ==> buckets[n] == t[n]
      {
        DeleteAt(i, c);
      }
    }
  }
}
