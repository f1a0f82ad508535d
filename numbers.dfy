/**
 * The few items of Rust's primitive numeric types that the geometry core uses,
 * over Dafny's exact `real` instead of IEEE floating point.
 */
module Numbers {

  /** An unsigned byte, Rust's `u8`. */
  newtype u8 = x: int | 0 <= x < 256

  /** `f32::EPSILON`, the gap between 1.0 and the next f32: exactly 2^-23. */
  const F32_EPSILON: real := 0.00000011920928955078125

  /** `f32::MAX`, the largest finite f32: exactly (2 - 2^-23) * 2^127. */
  const F32_MAX: real := 340282346638528859811704183484516925440.0

  /** `f32::abs` */
  function Abs(a: real): (r: real)
    ensures r >= 0.0 && (r == a || r == -a)
  {
    if a < 0.0 then -a else a
  }

  /** `f32::max` (the operands are never NaN here) */
  function Max(a: real, b: real): (r: real)
    ensures a <= r && b <= r && (r == a || r == b)
  {
    if a < b then b else a
  }

  /** `f32::min` (the operands are never NaN here) */
  function Min(a: real, b: real): (r: real)
    ensures r <= a && r <= b && (r == a || r == b)
  {
    if b < a then b else a
  }

  /**
   * Multiplication behind a name. Facts about a square `r * r` stated directly
   * are rewritten by the solver into facts that no longer mention the square;
   * stated about `Times(r, r)` they stay usable where `r * r` itself appears.
   */
  function Times(a: real, b: real): real {
    a * b
  }

  lemma TimesPositive(a: real, b: real)
    requires a > 0.0 && b > 0.0
    ensures Times(a, b) > 0.0
  {
  }

  /** A square is never negative, and is positive unless its root is 0. */
  lemma SquarePositive(r: real)
    ensures Times(r, r) >= 0.0
    ensures r != 0.0 ==> Times(r, r) > 0.0
  {
    if r > 0.0 {
      TimesPositive(r, r);
    } else if r < 0.0 {
      TimesPositive(-r, -r);
      assert Times(r, r) == Times(-r, -r);
    }
  }
}
