/** Decimal printing and the scanf conversions that the parsers use, as section
    7.21.6.2 of ISO/IEC 9899:2011 defines them. */
module Text {
  import opened Types
  import opened Seqs

  const INT_MIN := -0x8000_0000
  const INT_MAX := 0x7fff_ffff

  predicate IsInt(n: int) { INT_MIN <= n <= INT_MAX }

  predicate IsDigit(c: char) { '0' <= c <= '9' }

  /** isspace. */
  predicate IsSpace(c: char) { c == ' ' || '\t' <= c <= '\r' }

  // ---------------------------------------------------------------- numbers

  function DigitChar(d: nat): (c: char)
    requires d < 10
    ensures IsDigit(c) && c as int - '0' as int == d
  {
    (d + '0' as int) as char
  }

  function Digits(n: nat): (s: string)
    ensures s != []
  {
    if n < 10 then [DigitChar(n)] else Digits(n / 10) + [DigitChar(n % 10)]
  }

  /** %d when printing, and integer_to_list. */
  function Print(n: int): (s: string)
    ensures s != []
  {
    if n < 0 then "-" + Digits(-n) else Digits(n)
  }

  predicate AllDigits(s: string) { forall i :: 0 <= i < |s| ==> IsDigit(s[i]) }

  function Value(s: string): (v: int)
    requires AllDigits(s)
    ensures v >= 0
  {
    if s == [] then 0 else Value(s[..|s|-1]) * 10 + (s[|s|-1] as int - '0' as int)
  }

  lemma {:induction false} DigitsValue(n: nat)
    ensures AllDigits(Digits(n)) && Value(Digits(n)) == n
  {
    if n >= 10 {
      DigitsValue(n / 10);
      Parts(Digits(n / 10), [DigitChar(n % 10)]);
    } else {
      assert [DigitChar(n)][..0] == [];
    }
  }

  function Pow10(k: nat): nat { if k == 0 then 1 else 10 * Pow10(k - 1) }

  lemma {:induction false} DigitsLength(n: nat, k: nat)
    requires k > 0 && n < Pow10(k)
    ensures |Digits(n)| <= k
  {
    if n >= 10 {
      assert Pow10(1) == 10 * Pow10(0);
      DigitsLength(n / 10, k - 1);
    }
  }

  lemma PrintLength(n: int)
    requires IsInt(n)
    ensures |Print(n)| <= 11
  {
    assert Pow10(2) == 100 && Pow10(4) == 10_000 && Pow10(6) == 1_000_000;
    assert Pow10(8) == 100_000_000 && Pow10(10) == 10_000_000_000;
    DigitsLength(if n < 0 then -n else n, 10);
  }

  /** No leading zero, but for zero itself. */
  lemma {:induction false} DigitsLead(n: nat)
    ensures n > 0 ==> Digits(n)[0] != '0'
    ensures n < 10 <==> |Digits(n)| == 1
  {
    if n >= 10 { DigitsLead(n / 10); }
  }

  /** Characters of a printed number. */
  predicate NumberChar(c: char) { IsDigit(c) || c == '-' }

  ghost predicate NumberText(s: string) { forall i :: 0 <= i < |s| ==> NumberChar(s[i]) }

  lemma PrintText(n: int)
    ensures NumberText(Print(n))
  {
    DigitsValue(if n < 0 then -n else n);
  }

  // ---------------------------------------------------------------- scanning

  /** A directive that matches white space, also when there is none. */
  function SkipSpace(s: string): (t: string)
    ensures |t| <= |s| && (t != [] ==> !IsSpace(t[0]))
  {
    if s == [] || !IsSpace(s[0]) then s else SkipSpace(s[1..])
  }

  function TrimRight(s: string): string {
    if s == [] || !IsSpace(s[|s|-1]) then s else TrimRight(s[..|s|-1])
  }

  /** string:trim(S). */
  function Trim(s: string): string { TrimRight(SkipSpace(s)) }

  /** Ordinary characters of a format. */
  function Literal(s: string, lit: string): Option<string> {
    if lit <= s then Some(s[|lit|..]) else None
  }

  function DigitRun(s: string): (d: nat)
    ensures d <= |s| && AllDigits(s[..d]) && (d < |s| ==> !IsDigit(s[d]))
  {
    if s == [] || !IsDigit(s[0]) then 0
    else
      var d := DigitRun(s[1..]);
      assert s[..1+d] == [s[0]] + s[1..][..d];
      1 + d
  }

  function Unsigned(s: string): string {
    if s != [] && (s[0] == '-' || s[0] == '+') then s[1..] else s
  }

  /** %d. A value that does not fit an int, which the standard leaves undefined,
      counts as a failure to match. */
  function ScanInt(s: string): (r: Option<(int, string)>)
    ensures r.Some? ==> IsInt(r.value.0) && |r.value.1| < |s|
  {
    var t := SkipSpace(s);
    var u := Unsigned(t);
    var d := DigitRun(u);
    if d == 0 then None
    else
      var n: int := if t[0] == '-' then -Value(u[..d]) else Value(u[..d]);
      if IsInt(n) then Some((n, u[d..])) else None
  }

  /** The length of the longest prefix of at most `max` characters without `stop`. */
  function RunWithout(s: string, stop: char, max: nat): (n: nat)
    ensures n <= |s| && n <= max && stop !in s[..n]
    ensures n < |s| && n < max ==> s[n] == stop
  {
    if s == [] || max == 0 || s[0] == stop then 0
    else
      var n := RunWithout(s[1..], stop, max - 1);
      assert s[..1+n] == [s[0]] + s[1..][..n];
      1 + n
  }

  /** %max[^:]. */
  function ScanField(s: string, max: nat): (r: Option<(string, string)>)
    ensures r.Some? ==> |r.value.1| < |s| && r.value.0 + r.value.1 == s && 0 < |r.value.0| <= max && ':' !in r.value.0
  {
    var n := RunWithout(s, ':', max);
    if n == 0 then None else Some((s[..n], s[n..]))
  }

  function WordRun(s: string, max: nat): (n: nat)
    ensures n <= |s| && n <= max
  {
    if s == [] || max == 0 || IsSpace(s[0]) then 0 else 1 + WordRun(s[1..], max - 1)
  }

  /** %maxs. */
  function ScanWord(s: string, max: nat): Option<(string, string)> {
    var t := SkipSpace(s);
    var n := WordRun(t, max);
    if n == 0 then None else Some((t[..n], t[n..]))
  }

  // ---------------------------------------------------------------- scanning what was printed

  lemma {:induction false} DigitRunIs(a: string, b: string)
    requires AllDigits(a) && (b == [] || !IsDigit(b[0]))
    ensures DigitRun(a + b) == |a|
  {
    if a == [] {
      Parts(a, b);
    } else {
      CutLeft(a, b, 1);
      DigitRunIs(a[1..], b);
    }
  }

  lemma SpaceSkipped(s: string)
    ensures SkipSpace(" " + s) == SkipSpace(s)
  {
    Parts(" ", s);
  }

  lemma ScanAfterSpace(s: string)
    ensures ScanInt(" " + s) == ScanInt(s)
  {
    SpaceSkipped(s);
  }

  lemma ScanDigits(n: nat, rest: string)
    requires n <= INT_MAX && (rest == [] || !IsDigit(rest[0]))
    ensures ScanInt(Digits(n) + rest) == Some((n, rest))
  {
    var a := Digits(n);
    DigitsValue(n);
    assert IsDigit((a + rest)[0]);
    assert SkipSpace(a + rest) == a + rest;
    assert Unsigned(a + rest) == a + rest;
    DigitRunIs(a, rest);
    Parts(a, rest);
  }

  lemma ScanNegative(n: int, rest: string)
    requires 0 < n <= -INT_MIN && (rest == [] || !IsDigit(rest[0]))
    ensures ScanInt("-" + Digits(n) + rest) == Some((-n, rest))
  {
    var a := Digits(n);
    DigitsValue(n);
    Assoc("-", a, rest);
    Parts("-", a + rest);
    var s := "-" + (a + rest);
    assert s[0] == '-';
    assert SkipSpace(s) == s;
    assert Unsigned(s) == a + rest;
    DigitRunIs(a, rest);
    Parts(a, rest);
  }

  /** A printed int is scanned back, up to whatever follows it. */
  lemma ScanPrinted(n: int, rest: string)
    requires IsInt(n) && (rest == [] || !IsDigit(rest[0]))
    ensures ScanInt(Print(n) + rest) == Some((n, rest))
  {
    if n < 0 { ScanNegative(-n, rest); } else { ScanDigits(n, rest); }
  }

  lemma LiteralThen(lit: string, rest: string)
    ensures Literal(lit + rest, lit) == Some(rest)
  {
    Parts(lit, rest);
  }

  lemma {:induction false} RunWithoutIs(a: string, b: string, stop: char, max: nat)
    requires |a| <= max && stop !in a && (b == [] || b[0] == stop)
    ensures RunWithout(a + b, stop, max) == |a|
  {
    if a == [] {
      Parts(a, b);
    } else {
      CutLeft(a, b, 1);
      RunWithoutIs(a[1..], b, stop, max - 1);
    }
  }

  lemma FieldThen(a: string, b: string, max: nat)
    requires 0 < |a| <= max && ':' !in a && (b == [] || b[0] == ':')
    ensures ScanField(a + b, max) == Some((a, b))
  {
    RunWithoutIs(a, b, ':', max);
    Parts(a, b);
  }

  lemma {:induction false} WordRunIs(a: string, b: string, max: nat)
    requires |a| <= max && (forall i :: 0 <= i < |a| ==> !IsSpace(a[i])) && (b == [] || IsSpace(b[0]))
    ensures WordRun(a + b, max) == |a|
  {
    if a == [] {
      Parts(a, b);
    } else {
      CutLeft(a, b, 1);
      WordRunIs(a[1..], b, max - 1);
    }
  }

  lemma WordThen(a: string, b: string, max: nat)
    requires 0 < |a| <= max && (forall i :: 0 <= i < |a| ==> !IsSpace(a[i])) && (b == [] || IsSpace(b[0]))
    ensures ScanWord(a + b, max) == Some((a, b))
    ensures ScanWord(" " + (a + b), max) == Some((a, b))
  {
    assert !IsSpace((a + b)[0]);
    assert SkipSpace(a + b) == a + b;
    SpaceSkipped(a + b);
    WordRunIs(a, b, max);
    Parts(a, b);
  }
}
