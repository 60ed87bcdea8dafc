/** Line framing of a byte stream: what the lines of a stream are, and what any
    division of the stream into reads makes of them. */
module Framing {
  import opened Seqs

  const BUFF_SIZE := 1024
  const NUL := '\0'

  /** The newline-free end of a stream. */
  function Tail(s: string): (t: string)
    ensures |t| <= |s|
  {
    if s == [] || s[|s|-1] == '\n' then []
    else Tail(s[..|s|-1]) + [s[|s|-1]]
  }

  /** The finished lines of a stream, without their newlines. */
  function Lines(s: string): seq<string> {
    if s == [] then []
    else if s[|s|-1] == '\n' then Lines(s[..|s|-1]) + [Tail(s[..|s|-1])]
    else Lines(s[..|s|-1])
  }

  /** The part of a stream before its first NUL: all that strchr can see. */
  function Seen(s: string): (u: string)
    ensures u <= s && NUL !in u
    ensures |u| < |s| ==> s[|u|] == NUL
  {
    if s == [] || s[0] == NUL then [] else [s[0]] + Seen(s[1..])
  }

  /** What a connection delivers of a stream, and what it keeps in its buffer. */
  function Delivered(s: string): seq<string> { Lines(Seen(s)) }

  function Kept(s: string): (k: string) {
    Tail(Seen(s)) + s[|Seen(s)|..]
  }

  lemma {:induction false} SeenIs(s: string, n: nat)
    requires n <= |s| && NUL !in s[..n] && (n < |s| ==> s[n] == NUL)
    ensures Seen(s) == s[..n]
  {
    if n > 0 {
      assert s[..n] == [s[0]] + s[1..][..n-1];
      SeenIs(s[1..], n - 1);
    }
  }

  lemma SeenShort(s: string)
    requires NUL in s
    ensures |Seen(s)| < |s|
  {
    assert Seen(s) == s ==> NUL !in s;
  }

  /** One byte more. */
  lemma Step(s: string, c: char)
    ensures Tail(s + [c]) == if c == '\n' then [] else Tail(s) + [c]
    ensures Lines(s + [c]) == if c == '\n' then Lines(s) + [Tail(s)] else Lines(s)
  {
    Parts(s, [c]);
  }

  lemma {:induction false} TailFree(s: string)
    ensures '\n' !in Tail(s) && (NUL !in s ==> NUL !in Tail(s))
  {
    if s != [] { TailFree(s[..|s|-1]); }
  }

  lemma {:induction false} NoNewline(s: string)
    requires '\n' !in s
    ensures Lines(s) == [] && Tail(s) == s
  {
    if s != [] { NoNewline(s[..|s|-1]); }
  }

  /** Splitting carries over a cut at any place: only the tail matters. */
  lemma {:induction false} LinesOfConcat(a: string, b: string)
    ensures Lines(a + b) == Lines(a) + Lines(Tail(a) + b)
    ensures Tail(a + b) == Tail(Tail(a) + b)
  {
    if b == [] {
      assert a + b == a && Tail(a) + b == Tail(a);
      TailFree(a);
      NoNewline(Tail(a));
    } else {
      var f := b[..|b|-1];
      var c := b[|b|-1];
      LinesOfConcat(a, f);
      Snoc(b);
      Assoc(a, f, [c]);
      Assoc(Tail(a), f, [c]);
      Step(a + f, c);
      Step(Tail(a) + f, c);
      Assoc(Lines(a), Lines(Tail(a) + f), [Tail(a + f)]);
    }
  }

  /** Lines written out again, each with its newline. */
  function Unlines(ls: seq<string>): string {
    if ls == [] then [] else Unlines(ls[..|ls|-1]) + ls[|ls|-1] + "\n"
  }

  /** Lines and Tail lose nothing and add nothing: no line or tail has a
      newline, and written out again they are the stream. */
  lemma {:induction false} LinesRejoin(s: string)
    ensures Unlines(Lines(s)) + Tail(s) == s
    ensures '\n' !in Tail(s) && forall i :: 0 <= i < |Lines(s)| ==> '\n' !in Lines(s)[i]
  {
    TailFree(s);
    if s != [] {
      var f := s[..|s|-1];
      LinesRejoin(f);
      Snoc(s);
      Step(f, s[|s|-1]);
      if s[|s|-1] == '\n' {
        Parts(Lines(f), [Tail(f)]);
      } else {
        Assoc(Unlines(Lines(f)), Tail(f), [s[|s|-1]]);
      }
    }
  }

  lemma LineEnd(a: string, l: string)
    requires Tail(a) == "" && '\n' !in l
    ensures Lines(a + l + "\n") == Lines(a) + [l] && Tail(a + l + "\n") == ""
  {
    LinesOfConcat(a, l);
    Parts("", l);
    NoNewline(l);
    Parts(Lines(a), []);
    Step(a + l, '\n');
  }

  /** Messages that are one line each come back as they were. */
  lemma {:induction false} LinesOfUnlines(ls: seq<string>)
    requires forall i :: 0 <= i < |ls| ==> '\n' !in ls[i]
    ensures Lines(Unlines(ls)) == ls && Tail(Unlines(ls)) == ""
  {
    if ls != [] {
      var f := ls[..|ls|-1];
      var l := ls[|ls|-1];
      LinesOfUnlines(f);
      LineEnd(Unlines(f), l);
      Snoc(ls);
    }
  }

  lemma SeenOfConcat(s: string, c: string)
    ensures Seen(s + c) == if NUL in s then Seen(s) else s + Seen(c)
  {
    if NUL in s {
      SeenShort(s);
      assert (s + c)[..|Seen(s)|] == Seen(s);
      SeenIs(s + c, |Seen(s)|);
    } else {
      var n := |s| + |Seen(c)|;
      assert (s + c)[..n] == s + Seen(c);
      SeenIs(s + c, n);
    }
  }

  lemma SeenAll(s: string)
    requires NUL !in s
    ensures Seen(s) == s && Delivered(s) == Lines(s) && Kept(s) == Tail(s)
  {
    assert s[..|s|] == s;
    SeenIs(s, |s|);
  }

  lemma FeedSilent(s: string, c: string)
    requires NUL in s
    ensures Delivered(s + c) == Delivered(s) + Delivered(Kept(s) + c)
    ensures Kept(s + c) == Kept(Kept(s) + c)
  {
    SeenOfConcat(s, c);
    SeenShort(s);
    var u := Seen(s);
    var t := Tail(u);
    var e := s[|u|..] + c;
    CutLeft(s, c, |u|);
    Assoc(t, s[|u|..], c);
    TailFree(u);
    NoNewline(t);
    Parts(t, e);
    SeenIs(t + e, |t|);
  }

  lemma PlainThen(s: string, c: string)
    requires NUL !in s
    ensures Delivered(s + c) == Lines(s + Seen(c))
    ensures Kept(s + c) == Tail(s + Seen(c)) + c[|Seen(c)|..]
  {
    SeenOfConcat(s, c);
    CutRight(s, c, |Seen(c)|);
  }

  lemma FeedPlain(s: string, c: string)
    requires NUL !in s
    ensures Delivered(s + c) == Lines(s) + Delivered(Tail(s) + c)
    ensures Kept(s + c) == Kept(Tail(s) + c)
  {
    TailFree(s);
    PlainThen(s, c);
    PlainThen(Tail(s), c);
    LinesOfConcat(s, Seen(c));
  }

  /** One more read: the connection goes on from its buffer as if it had the
      whole stream, whether or not the stream holds a NUL. */
  lemma Feed(s: string, c: string)
    ensures Delivered(s + c) == Delivered(s) + Delivered(Kept(s) + c)
    ensures Kept(s + c) == Kept(Kept(s) + c)
  {
    if NUL in s {
      FeedSilent(s, c);
    } else {
      SeenAll(s);
      FeedPlain(s, c);
    }
  }

  // ---------------------------------------------------------------- divisions of a stream

  function Concat(chunks: seq<string>): string {
    if chunks == [] then [] else Concat(chunks[..|chunks|-1]) + chunks[|chunks|-1]
  }

  /** The room that a read is given when the buffer holds k. */
  function Room(k: string): int { BUFF_SIZE - |k| - 1 }

  /** Reads that the socket can make one after the other: none empty, and none
      longer than the room left in the buffer by those before it. */
  predicate Readable(chunks: seq<string>) {
    chunks == [] ||
    (var f := chunks[..|chunks|-1];
     Readable(f) && 0 < |chunks[|chunks|-1]| <= Room(Kept(Concat(f))))
  }

  /** The reads performed one after the other: what is in the buffer, and what was delivered. */
  function ReadAll(chunks: seq<string>): (string, seq<string>) {
    if chunks == [] then ("", [])
    else
      var r := ReadAll(chunks[..|chunks|-1]);
      (Kept(r.0 + chunks[|chunks|-1]), r.1 + Delivered(r.0 + chunks[|chunks|-1]))
  }

  /** Framing does not depend on the division of the stream into reads. */
  lemma {:induction false} ChunkInvariant(chunks: seq<string>)
    ensures ReadAll(chunks) == (Kept(Concat(chunks)), Delivered(Concat(chunks)))
  {
    if chunks == [] {
      assert Concat(chunks) == "" && Seen("") == "";
      assert Delivered("") == [] && Kept("") == "";
    } else {
      var f := chunks[..|chunks|-1];
      ChunkInvariant(f);
      Feed(Concat(f), chunks[|chunks|-1]);
    }
  }

  /** Every buffer that arises before the end of the stream has room for a byte more. */
  ghost predicate Fits(s: string) {
    forall n :: 0 <= n < |s| ==> Room(Kept(s[..n])) > 0
  }

  lemma KeptGrows(s: string, c: string)
    ensures |Kept(s + c)| <= |Kept(s)| + |c|
  {
    Feed(s, c);
    var b := Kept(s) + c;
    assert |Kept(b)| <= |b|;
  }

  /** A stream can be read to its end exactly when it fits, however it is divided. */
  lemma {:induction false} ReadableFits(chunks: seq<string>)
    requires Readable(chunks)
    ensures Fits(Concat(chunks))
  {
    if chunks != [] {
      var f := chunks[..|chunks|-1];
      var c := chunks[|chunks|-1];
      ReadableFits(f);
      var s := Concat(f);
      forall n | 0 <= n < |s + c| ensures Room(Kept((s + c)[..n])) > 0 {
        if n < |s| {
          assert (s + c)[..n] == s[..n];
        } else {
          assert (s + c)[..n] == s + c[..n-|s|];
          KeptGrows(s, c[..n-|s|]);
        }
      }
    }
  }

  function Bytes(s: string): (cs: seq<string>)
    ensures |cs| == |s|
  {
    if s == [] then [] else Bytes(s[..|s|-1]) + [[s[|s|-1]]]
  }

  lemma More(f: seq<string>, c: string)
    ensures Concat(f + [c]) == Concat(f) + c
    ensures Readable(f + [c]) <==> Readable(f) && 0 < |c| <= Room(Kept(Concat(f)))
  {
    Parts(f, [c]);
  }

  lemma {:induction false} BytesReadable(s: string)
    requires Fits(s)
    ensures Readable(Bytes(s)) && Concat(Bytes(s)) == s
  {
    if s != [] {
      var f := s[..|s|-1];
      assert forall n :: 0 <= n < |f| ==> s[..n] == f[..n];
      BytesReadable(f);
      More(Bytes(f), [s[|s|-1]]);
      Snoc(s);
    }
  }

  ghost predicate SomeReads(s: string) {
    exists chunks :: Readable(chunks) && Concat(chunks) == s
  }

  /** Some division of a stream into reads gets through it, and then every
      partial one can go on, exactly when the stream fits. */
  lemma ReadToEnd(s: string)
    ensures SomeReads(s) <==> Fits(s)
    ensures Fits(s) ==> forall chunks :: Readable(chunks) && Concat(chunks) < s ==> Room(ReadAll(chunks).0) > 0
  {
    if Fits(s) {
      BytesReadable(s);
      forall chunks | Readable(chunks) && Concat(chunks) < s ensures Room(ReadAll(chunks).0) > 0 {
        ChunkInvariant(chunks);
        assert s[..|Concat(chunks)|] == Concat(chunks);
      }
    }
    if SomeReads(s) {
      var chunks :| Readable(chunks) && Concat(chunks) == s;
      ReadableFits(chunks);
    }
  }

  /** The position after the last newline. */
  lemma {:induction false} TailShort(s: string, n: nat)
    requires n <= |s| && '\n' in s[n..]
    ensures |Tail(s)| < |s| - n
  {
    var f := s[..|s|-1];
    if s[|s|-1] != '\n' {
      var m :| 0 <= m < |s[n..]| && s[n..][m] == '\n';
      assert f[n..][m] == '\n';
      TailShort(f, n);
    }
  }

  /** Every stretch of a stream as long as the buffer, short of the last byte,
      has a newline: each line, with its newline, takes at most BUFF_SIZE - 1 bytes. */
  ghost predicate ShortLines(s: string) {
    forall n, m :: 0 <= n && m == n + BUFF_SIZE - 1 && m < |s| ==> '\n' in s[n..m]
  }

  lemma LongTail(s: string, n: nat)
    requires n <= |s| && '\n' !in s[n..]
    ensures |Tail(s)| >= |s| - n
  {
    assert s == s[..n] + s[n..];
    LinesOfConcat(s[..n], s[n..]);
    TailFree(s[..n]);
    NoNewline(Tail(s[..n]) + s[n..]);
  }

  /** A NUL-free stream fits exactly when its lines do. */
  lemma FitsLines(s: string)
    requires NUL !in s
    ensures Fits(s) <==> ShortLines(s)
  {
    forall m | 0 <= m < |s| ensures Kept(s[..m]) == Tail(s[..m]) { SeenAll(s[..m]); }
    if Fits(s) {
      forall n, m | 0 <= n && m == n + BUFF_SIZE - 1 && m < |s| ensures '\n' in s[n..m] {
        assert Room(Kept(s[..m])) > 0;
        assert s[..m][n..] == s[n..m];
        if '\n' !in s[..m][n..] { LongTail(s[..m], n); }
      }
    }
    if ShortLines(s) {
      forall m | 0 <= m < |s| ensures Room(Kept(s[..m])) > 0 {
        if m >= BUFF_SIZE - 1 {
          var n := m - (BUFF_SIZE - 1);
          assert s[..m][n..] == s[n..m];
          assert '\n' in s[n..m];
          TailShort(s[..m], n);
        }
      }
    }
  }

  /** A NUL stops the deliveries of its connection for good. */
  lemma NulSilences(s: string, c: string)
    requires NUL in s
    ensures Delivered(s + c) == Delivered(s)
  {
    SeenOfConcat(s, c);
  }
}
