/** PaytabsService.toDecimal and toMinor: a round trip through two roundings. */
module Money {

  /** Half an ulp, relatively: 2^-53. */
  const U: real := 1.0 / 9007199254740992.0

  /** 2^51 minor units. */
  const LIMIT: int := 0x8_0000_0000_0000

  function Abs(x: real): real {
    if x < 0.0 then -x else x
  }

  /** y is x rounded to nearest in binary64, as far as section 4.3.1 of IEEE 754-2019 bounds it. */
  predicate RoundsTo(x: real, y: real) {
    Abs(y - x) <= Abs(x) * U
  }

  /** `amountMinor / 100`, up to the rounding of the division. */
  predicate ToDecimal(minor: int, decimal: real) {
    RoundsTo(minor as real / 100.0, decimal)
  }

  /** `Math.round(p)` for the rounded product p of the decimal and 100. */
  function MathRound(p: real): int {
    (p + 0.5).Floor
  }

  ghost predicate ToMinor(decimal: real, minor: int) {
    exists p: real :: RoundsTo(decimal * 100.0, p) && minor == MathRound(p)
  }

  /** Written out: a hundredfold decimal is the amount up to a relative 2^-53. */
  lemma DecimalExactly(minor: int, decimal: real)
    ensures ToDecimal(minor, decimal) <==>
      var error := decimal * 100.0 - minor as real;
      (if error < 0.0 then -error else error) * 9007199254740992.0 <= (if minor < 0 then -minor else minor) as real
  {
    assert (decimal - minor as real / 100.0) * 100.0 == decimal * 100.0 - minor as real;
  }

  /** The rounded product's nearest integer, halves rounded up. */
  lemma RoundExactly(p: real, minor: int)
    ensures MathRound(p) == minor <==> minor as real - 0.5 <= p < minor as real + 0.5
  {
  }

  /** The two roundings together. */
  lemma ErrorBound(minor: int, decimal: real, p: real)
    requires ToDecimal(minor, decimal) && RoundsTo(decimal * 100.0, p)
    ensures Abs(p - minor as real) <= Abs(minor as real) * (2.0 * U + U * U)
  {
    var x := minor as real;
    assert Abs(decimal * 100.0 - x) <= Abs(x) * U;
    assert Abs(decimal * 100.0) <= Abs(x) + Abs(x) * U;
    assert Abs(decimal * 100.0) * U <= (Abs(x) + Abs(x) * U) * U;
  }

  /** An amount below the limit comes back unchanged, whichever way the two roundings fall. */
  lemma RoundTrip(minor: int, decimal: real, back: int)
    requires -LIMIT < minor < LIMIT
    requires ToDecimal(minor, decimal) && ToMinor(decimal, back)
    ensures back == minor
  {
    var p: real :| RoundsTo(decimal * 100.0, p) && back == MathRound(p);
    ErrorBound(minor, decimal, p);
    assert Abs(minor as real) * (2.0 * U + U * U) <= (LIMIT - 1) as real * (2.0 * U + U * U) < 0.5;
  }

  /** From the limit on, two roundings away from zero move the amount. */
  lemma Drifts(minor: int) returns (decimal: real, back: int)
    requires minor <= -LIMIT || LIMIT <= minor
    ensures ToDecimal(minor, decimal) && ToMinor(decimal, back) && back != minor
  {
    var x := minor as real;
    decimal := x / 100.0 * (1.0 + U);
    var p := decimal * 100.0 * (1.0 + U);
    back := MathRound(p);
    assert decimal - x / 100.0 == x / 100.0 * U;
    assert p - decimal * 100.0 == decimal * 100.0 * U;
    assert p - x == x * (2.0 * U + U * U);
    assert ToDecimal(minor, decimal) && RoundsTo(decimal * 100.0, p);
    assert Abs(x) * (2.0 * U + U * U) >= LIMIT as real * (2.0 * U + U * U) > 0.5;
  }

  /** The bound on rounding errors guarantees the round trip exactly for amounts below 2^51 minor units. */
  lemma RoundTripExactly(minor: int)
    ensures (forall decimal: real, back: int :: ToDecimal(minor, decimal) && ToMinor(decimal, back) ==> back == minor)
            <==> -2251799813685248 < minor < 2251799813685248
  {
    if -LIMIT < minor < LIMIT {
      forall decimal: real, back: int | ToDecimal(minor, decimal) && ToMinor(decimal, back)
        ensures back == minor
      {
        RoundTrip(minor, decimal, back);
      }
    } else {
      var decimal, back := Drifts(minor);
    }
  }
}
