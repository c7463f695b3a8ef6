/** src/rt_math.rs: the older angle conversion, without the random draws. */
module RtMath {
  import Interval

  /** `PI`: the f64 constant, written out in decimal. */
  const Pi: real := 3.141592653589793

  /** `INFINITY`. */
  const Infinity: Interval.Ext := Interval.PosInf

  /** `degrees_to_radians`: 180 degrees are `PI` radians. */
  function DegreesToRadians(degrees: real): (radians: real)
    ensures radians * 180.0 == degrees * Pi
  {
    degrees * Pi / 180.0
  }

  /** 0 degrees is 0, 90 degrees is PI/2 and 180 degrees is PI. */
  lemma DegreesToRadiansValues()
    ensures DegreesToRadians(0.0) == 0.0
    ensures DegreesToRadians(90.0) == Pi / 2.0
    ensures DegreesToRadians(180.0) == Pi
  {
  }

  /** The conversion is additive. */
  lemma DegreesToRadiansAdditive(a: real, b: real)
    ensures DegreesToRadians(a + b) == DegreesToRadians(a) + DegreesToRadians(b)
  {
  }

  /** The conversion preserves order, since PI is positive. */
  lemma DegreesToRadiansMonotone(a: real, b: real)
    ensures a < b <==> DegreesToRadians(a) < DegreesToRadians(b)
  {
  }
}
