/** Linear interpolation (src/math/mod.rs). */
module Interpolation {
  import opened Numbers

  /** `lerp(start, end, amt)`, written as the source writes it. */
  function Lerp(start: real, end: real, amt: real): real {
    (1.0 - amt) * start + amt * end
  }

  lemma LerpEndpoints(start: real, end: real)
    ensures Lerp(start, end, 0.0) == start
    ensures Lerp(start, end, 1.0) == end
  {
  }

  lemma LerpConstant(s: real, t: real)
    ensures Lerp(s, s, t) == s
  {
  }

  /** Lerp is affine in its third argument. */
  lemma LerpAffine(start: real, end: real, amt: real)
    ensures Lerp(start, end, amt) == start + amt * (end - start)
  {
  }

  /** Between the endpoints the interpolant stays between them. */
  lemma LerpBounded(start: real, end: real, amt: real)
    requires 0.0 <= amt <= 1.0
    requires start <= end
    ensures start <= Lerp(start, end, amt) <= end
  {
    LerpAffine(start, end, amt);
    FractionBounded(amt, end - start);
    assert Lerp(start, end, amt) == start + Times(amt, end - start);
  }

  /** A fraction in [0, 1] of a non-negative b lies between 0 and b. */
  lemma FractionBounded(a: real, b: real)
    requires 0.0 <= a <= 1.0 && 0.0 <= b
    ensures 0.0 <= Times(a, b) <= b
  {
    assert b - a * b == (1.0 - a) * b;
    if 0.0 < a && 0.0 < b {
      TimesPositive(a, b);
      if a < 1.0 {
        TimesPositive(1.0 - a, b);
      }
    }
  }
}
