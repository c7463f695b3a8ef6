/**
 * Real-number helpers shared by the model: the contract assumed of the
 * platform square root and fifth power, and the integer conversions
 * `as i32` and `as usize` applied to finite reals.
 */
module Numeric {

  /** The square root of a non-negative real is the non-negative real whose square it is. */
  ghost predicate IsSqrt(sqrt: real -> real)
  {
    forall x :: 0.0 <= x ==> 0.0 <= sqrt(x) && sqrt(x) * sqrt(x) == x
  }

  /** `powf(x, 5.0)` is the fifth power of `x`. */
  ghost predicate IsFifthPower(powf: (real, real) -> real)
  {
    forall x :: powf(x, 5.0) == x * x * x * x * x
  }

  /** `x as i32` for a finite real: truncation toward zero (saturation is not modelled). */
  function Trunc(x: real): (n: int)
    ensures 0.0 <= x ==> 0 <= n && n as real <= x < n as real + 1.0
    ensures x < 0.0 ==> n <= 0 && n as real - 1.0 < x <= n as real
  {
    if x >= 0.0 then x.Floor else -((-x).Floor)
  }

  /** `x as usize` for a finite real: negative values saturate at zero, others are truncated. */
  function ToUsize(x: real): (n: nat)
    ensures x <= 0.0 ==> n == 0
    ensures 0.0 <= x ==> n as real <= x < n as real + 1.0
  {
    if x <= 0.0 then 0 else x.Floor
  }

  /** Truncation toward zero never reverses order. */
  lemma TruncMonotone(a: real, b: real)
    requires a <= b
    ensures Trunc(a) <= Trunc(b)
  {
  }

  lemma MulNonneg(a: real, b: real)
    requires 0.0 <= a && 0.0 <= b
    ensures 0.0 <= a * b
  {
  }

  lemma MulPos(a: real, b: real)
    requires 0.0 < a && 0.0 < b
    ensures 0.0 < a * b
  {
  }

  lemma MulMonotone(x: real, y: real, z: real)
    requires x <= y && 0.0 <= z
    ensures x * z <= y * z
  {
    MulNonneg(y - x, z);
    assert (y - x) * z == y * z - x * z;
  }

  /** A product of two reals in [0, 1] stays in [0, 1]. */
  lemma ProductInUnit(a: real, b: real)
    requires 0.0 <= a <= 1.0 && 0.0 <= b <= 1.0
    ensures 0.0 <= a * b <= 1.0
  {
    MulNonneg(a, b);
    MulMonotone(a, 1.0, b);
  }

  lemma SquareNonneg(c: real)
    ensures 0.0 <= c * c
  {
    if c < 0.0 { MulNonneg(-c, -c); } else { MulNonneg(c, c); }
  }

  /** Only 0 has square 0. */
  lemma SquarePositive(c: real)
    ensures c != 0.0 ==> 0.0 < c * c
  {
    if c < 0.0 { MulPos(-c, -c); } else if c > 0.0 { MulPos(c, c); }
  }

  /** A real whose square is at most 1 lies between -1 and 1. */
  lemma AtMostOneOfSquare(c: real)
    ensures c * c <= 1.0 ==> -1.0 <= c <= 1.0
  {
    if 1.0 < c { SquareStrict(1.0, c); }
    if c < -1.0 { SquareStrict(1.0, -c); }
  }

  /** Squaring is strictly monotone on the non-negative reals. */
  lemma SquareStrict(x: real, y: real)
    requires 0.0 <= x && 0.0 <= y
    ensures x < y ==> x * x < y * y
  {
    if x < y {
      MulPos(y - x, y + x);
      assert (y - x) * (y + x) == y * y - x * x;
    }
  }

  /** A real between -1 and 1 has a square at most 1. */
  lemma SquareAtMostOne(c: real)
    requires -1.0 <= c <= 1.0
    ensures 0.0 <= c * c <= 1.0
  {
    MulNonneg(1.0 - c, 1.0 + c);
    assert (1.0 - c) * (1.0 + c) == 1.0 - c * c;
    if 0.0 <= c { MulNonneg(c, c); } else { MulNonneg(-c, -c); }
  }

  /** Two non-negative reals with the same square are equal. */
  lemma SameSquare(a: real, b: real)
    requires 0.0 <= a && 0.0 <= b && a * a == b * b
    ensures a == b
  {
    SquareStrict(a, b);
    SquareStrict(b, a);
  }

  lemma SqrtZero(sqrt: real -> real)
    requires IsSqrt(sqrt)
    ensures sqrt(0.0) == 0.0
  {
    SameSquare(sqrt(0.0), 0.0);
  }

  lemma SqrtOne(sqrt: real -> real)
    requires IsSqrt(sqrt)
    ensures sqrt(1.0) == 1.0
  {
    SameSquare(sqrt(1.0), 1.0);
  }

  /** The square root is monotone on the non-negative reals. */
  lemma SqrtMonotone(sqrt: real -> real, a: real, b: real)
    requires IsSqrt(sqrt) && 0.0 <= a <= b
    ensures sqrt(a) <= sqrt(b)
  {
    SquareStrict(sqrt(b), sqrt(a));
  }

  /** Roots of values at least 1 are at least 1. */
  lemma SqrtAtLeastOne(sqrt: real -> real, a: real)
    requires IsSqrt(sqrt) && 1.0 <= a
    ensures 1.0 <= sqrt(a)
  {
    SqrtOne(sqrt);
    SqrtMonotone(sqrt, 1.0, a);
  }

  /** The square root of a square is the absolute value. */
  lemma SqrtOfSquare(sqrt: real -> real, x: real)
    requires IsSqrt(sqrt)
    ensures sqrt(x * x) == if x < 0.0 then -x else x
  {
    var ax := if x < 0.0 then -x else x;
    assert ax * ax == x * x;
    SameSquare(sqrt(x * x), ax);
  }
}
