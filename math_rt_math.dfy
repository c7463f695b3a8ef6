/**
 * src/math/rt_math.rs: the angle conversion and the two random draws. The
 * generator itself is not modelled: a value of `random_number()` is a
 * parameter of type `UnitDraw` wherever the modelled code draws one.
 */
module MathRtMath {
  import Interval

  /** `PI`: the f64 constant, written out in decimal. */
  const Pi: real := 3.141592653589793

  /** `INFINITY`. */
  const Infinity: Interval.Ext := Interval.PosInf

  /** A value of `random_number()`: `gen::<f64>()` draws from [0, 1). */
  type UnitDraw = x: real | 0.0 <= x < 1.0

  /** A value of `random_number_in_range(min, max)`: `gen_range(min..=max)` includes both ends. */
  predicate InRange(min: real, max: real, x: real)
  {
    min <= x <= max
  }

  /** `degrees_to_radians`: 180 degrees are `PI` radians. */
  function DegreesToRadians(degrees: real): (radians: real)
    ensures radians * 180.0 == degrees * Pi
  {
    degrees * Pi / 180.0
  }

  /** 0 degrees is 0 and 180 degrees is PI. */
  lemma DegreesToRadiansEnds()
    ensures DegreesToRadians(0.0) == 0.0
    ensures DegreesToRadians(180.0) == Pi
  {
  }

  /** The conversion is linear. */
  lemma DegreesToRadiansLinear(a: real, b: real, k: real)
    ensures DegreesToRadians(a + b) == DegreesToRadians(a) + DegreesToRadians(b)
    ensures DegreesToRadians(k * a) == k * DegreesToRadians(a)
  {
    assert k * a * Pi == k * (a * Pi);
  }

  /** The conversion preserves order, since PI is positive. */
  lemma DegreesToRadiansMonotone(a: real, b: real)
    ensures a < b <==> DegreesToRadians(a) < DegreesToRadians(b)
  {
  }
}
