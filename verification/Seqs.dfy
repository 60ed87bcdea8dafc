/** Facts about sequences that the proofs name rather than search for. */
module Seqs {

  lemma Snoc<T>(s: seq<T>)
    requires s != []
    ensures s == s[..|s|-1] + [s[|s|-1]]
  {}

  lemma Assoc<T>(a: seq<T>, b: seq<T>, c: seq<T>)
    ensures a + (b + c) == a + b + c
  {}

  lemma Nil<T>(s: seq<T>)
    ensures s + [] == s && [] + s == s
  {}

  lemma Parts<T>(a: seq<T>, b: seq<T>)
    ensures (a + b)[..|a|] == a && (a + b)[|a|..] == b
  {}

  lemma Halves<T>(s: seq<T>, n: nat)
    requires n <= |s|
    ensures s == s[..n] + s[n..]
  {}

  /** Cutting a concatenation inside its second part. */
  lemma CutRight<T>(a: seq<T>, b: seq<T>, n: nat)
    requires n <= |b|
    ensures (a + b)[..|a|+n] == a + b[..n] && (a + b)[|a|+n..] == b[n..]
  {}

  /** Cutting a concatenation inside its first part. */
  lemma CutLeft<T>(a: seq<T>, b: seq<T>, n: nat)
    requires n <= |a|
    ensures (a + b)[..n] == a[..n] && (a + b)[n..] == a[n..] + b
  {}

  lemma CutFront<T>(s: seq<T>, m: nat, n: nat)
    requires n <= m <= |s|
    ensures s[..m][..n] == s[..n] && s[..|s|] == s
  {}
}
