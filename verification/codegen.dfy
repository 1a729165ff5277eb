/**
  The one-time code generator of server/utils/whatsapp.js:
  `Math.floor(100000 + Math.random() * 900000).toString()`.
  The random draw is an input: `Draw` is the integer
  `Math.floor(100000 + Math.random() * 900000) - 100000`, so the code is the
  decimal rendering of `100000 + draw`. (The floor is taken after the
  floating-point addition, which can round up; the draw is defined from the
  floored sum for that reason.)
 */
module CodeGen {
  import opened Decimal

  const CodeLength: nat := 6
  const Lowest: nat := 100000
  const Span: nat := 900000

  /** `Math.floor(100000 + Math.random() * 900000) - 100000`: with
      Math.random() in [0, 1) the floored sum lies in [100000, 999999]. */
  type Draw = d: int | 0 <= d < Span

  /** A well-formed code: six ASCII digits, the first of them not '0'. */
  predicate IsCode(s: string) {
    |s| == CodeLength && AllDigits(s) && s[0] != '0'
  }

  function GenerateCode(draw: Draw): (code: string)
    ensures IsCode(code)
    ensures ValueOf(code) == Lowest + draw
    ensures Lowest <= ValueOf(code) <= 999999
  {
    var n := Lowest + draw;
    assert Pow10(5) == 100000 && Pow10(6) == 1000000;
    DecimalLength(n, CodeLength);
    ValueOfToDecimal(n);
    ToDecimal(n)
  }

  /** Distinct draws give distinct codes. */
  lemma GenerateCodeInjective(a: Draw, b: Draw)
    ensures GenerateCode(a) == GenerateCode(b) <==> a == b
  {
  }

  /** Every well-formed code is produced by exactly one draw. */
  lemma {:induction false} GenerateCodeOnto(s: string)
    requires IsCode(s)
    ensures 0 <= ValueOf(s) - Lowest < Span
    ensures GenerateCode(ValueOf(s) - Lowest) == s
  {
    assert Canonical(s);
    LeadingDigitBound(s);
    ToDecimalValueOf(s);
  }
}
