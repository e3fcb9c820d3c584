/**
 * Decimal digit strings: the `/^\d+$/` guard, `BigInt(s)` on such a string,
 * `n.toString()` and the `replace(/\D/g, '')` input filter.
 */
module Decimal {
  import opened Chars
  import Seqs

  predicate AllDigits(s: string) { forall i :: 0 <= i < |s| ==> IsDigit(s[i]) }

  function DigitValue(c: char): (d: nat)
    requires IsDigit(c)
    ensures d < 10
  {
    c as int - '0' as int
  }

  function DigitChar(d: nat): (c: char)
    requires d < 10
    ensures IsDigit(c) && DigitValue(c) == d
  {
    ('0' as int + d) as char
  }

  /** The number `BigInt(s)` denotes, for a string of decimal digits. */
  function Value(s: string): nat
    requires AllDigits(s)
    decreases |s|
  {
    if s == [] then 0 else Value(s[..|s| - 1]) * 10 + DigitValue(s[|s| - 1])
  }

  lemma ValueSnoc(p: string, c: char)
    requires AllDigits(p) && IsDigit(c)
    ensures AllDigits(p + [c]) && Value(p + [c]) == Value(p) * 10 + DigitValue(c)
  {
    assert (p + [c])[..|p|] == p;
  }

  /** `n.toString()` for a non-negative integer: digits, no leading zero, denoting `n`. */
  function ToDecimal(n: nat): (r: string)
    ensures AllDigits(r) && |r| >= 1
    ensures |r| > 1 ==> r[0] != '0'
    ensures Value(r) == n
  {
    if n < 10 then [DigitChar(n)]
    else
      var r := ToDecimal(n / 10) + [DigitChar(n % 10)];
      assert r[..|r| - 1] == ToDecimal(n / 10);
      r
  }

  /** A digit string as `toString` would print it. */
  predicate Canonical(s: string)
  {
    AllDigits(s) && |s| >= 1 && (|s| > 1 ==> s[0] != '0')
  }

  lemma {:induction false} LeadingDigitPositive(s: string)
    requires AllDigits(s) && |s| >= 1 && s[0] != '0'
    ensures Value(s) >= 1
    decreases |s|
  {
    if |s| > 1 {
      LeadingDigitPositive(s[..|s| - 1]);
    }
  }

  /** Printing the value of a canonical digit string gives the string back. */
  lemma {:induction false} ToDecimalOfValue(s: string)
    requires Canonical(s)
    ensures ToDecimal(Value(s)) == s
    decreases |s|
  {
    if |s| > 1 {
      var p := s[..|s| - 1];
      assert Canonical(p);
      LeadingDigitPositive(p);
      ToDecimalOfValue(p);
      assert s == p + [s[|s| - 1]];
    }
  }

  /**
   * `s.replace(/\D/g, '')`: the digits of `s`, in order, each as often as
   * in `s`; by `Seqs.FilterUnique` that is exactly `Seqs.Filter(s, IsDigit)`.
   */
  function StripNonDigits(s: string): (r: string)
    ensures AllDigits(r)
    ensures Seqs.IsSubsequence(r, s)
    ensures forall i :: 0 <= i < |s| && IsDigit(s[i]) ==> s[i] in r
    ensures Seqs.CountsKept(r, s, IsDigit)
    ensures AllDigits(s) ==> r == s
  {
    var r := Seqs.Filter(s, IsDigit);
    Seqs.FilterCounts(s, IsDigit);
    assert AllDigits(s) ==> r == s by {
      if AllDigits(s) { Seqs.FilterAll(s, IsDigit); }
    }
    r
  }
}
