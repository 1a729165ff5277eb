/**
  Decimal rendering of non-negative integers, as JavaScript's
  `Number.prototype.toString()` produces it for a safe integer, and its
  inverse. The verification code is the decimal rendering of an integer, so
  everything said about the shape of a code rests on this module.
 */
module Decimal {

  predicate IsDigit(c: char) {
    '0' <= c <= '9'
  }

  predicate AllDigits(s: string) {
    forall i :: 0 <= i < |s| ==> IsDigit(s[i])
  }

  /** A rendering with no superfluous leading zero: what `toString()` emits. */
  predicate Canonical(s: string) {
    |s| >= 1 && AllDigits(s) && (s[0] == '0' ==> |s| == 1)
  }

  function DigitChar(d: nat): (c: char)
    requires d < 10
    ensures IsDigit(c)
    ensures c == '0' <==> d == 0
  {
    ('0' as int + d) as char
  }

  function DigitValue(c: char): (d: nat)
    requires IsDigit(c)
    ensures d < 10
  {
    c as int - '0' as int
  }

  function Pow10(k: nat): (p: nat)
    ensures p >= 1
  {
    if k == 0 then 1 else 10 * Pow10(k - 1)
  }

  /** Most significant digit first, as `toString()` writes it. */
  function ToDecimal(n: nat): (r: string)
    ensures Canonical(r)
    ensures r[0] == '0' <==> n == 0
    decreases n
  {
    if n < 10 then [DigitChar(n)] else ToDecimal(n / 10) + [DigitChar(n % 10)]
  }

  /** The value denoted by a string of decimal digits (the empty string denotes 0). */
  function ValueOf(s: string): (v: nat)
    requires AllDigits(s)
    ensures v < Pow10(|s|)
  {
    if |s| == 0 then 0 else ValueOf(s[..|s| - 1]) * 10 + DigitValue(s[|s| - 1])
  }

  /** Parsing a rendering gives back the number. */
  lemma {:induction false} ValueOfToDecimal(n: nat)
    ensures ValueOf(ToDecimal(n)) == n
    decreases n
  {
    var r := ToDecimal(n);
    if n >= 10 {
      ValueOfToDecimal(n / 10);
      assert r[..|r| - 1] == ToDecimal(n / 10);
    }
  }

  /** Rendering a parsed canonical string gives back the string. */
  lemma {:induction false} ToDecimalValueOf(s: string)
    requires Canonical(s)
    ensures ToDecimal(ValueOf(s)) == s
    decreases |s|
  {
    if |s| > 1 {
      var p := s[..|s| - 1];
      assert p[0] == s[0];
      ToDecimalValueOf(p);
      LeadingDigitBound(p);
      assert s == p + [s[|s| - 1]];
    }
  }

  /** A canonical string of two or more digits denotes at least ten. */
  lemma {:induction false} LeadingDigitBound(s: string)
    requires Canonical(s) && |s| >= 1
    ensures |s| >= 2 ==> ValueOf(s) >= Pow10(|s| - 1)
    ensures |s| == 1 ==> ValueOf(s) < 10
    decreases |s|
  {
    if |s| >= 2 {
      var p := s[..|s| - 1];
      assert p[0] == s[0];
      if |p| >= 2 {
        LeadingDigitBound(p);
      } else {
        assert p[0] != '0';
        assert ValueOf(p) == DigitValue(p[0]);
      }
    }
  }

  /** Exactly k digits for every number in [10^(k-1), 10^k). */
  lemma {:induction false} DecimalLength(n: nat, k: nat)
    requires k >= 1 && Pow10(k - 1) <= n < Pow10(k)
    ensures |ToDecimal(n)| == k
    decreases k
  {
    if k > 1 {
      DecimalLength(n / 10, k - 1);
    }
  }
}
