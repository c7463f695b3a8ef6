/** src/ray.rs: the older ray, an origin and a direction without a time. */
module Ray {
  import opened Numeric
  import opened Vector

  datatype Ray = Ray(origin: Vec3, direction: Vec3)
  {
    /** `at(t)`: the point reached after `t` units of direction. */
    function At(t: real): (p: Vec3)
      ensures p.Sub(origin) == Scale(t, direction)
    {
      origin.Add(Scale(t, direction))
    }

    /** `unit_vector()`: the same origin with the direction normalized. */
    function UnitVector(sqrt: real -> real): (r: Ray)
      requires direction.Length(sqrt) != 0.0
      ensures r.origin == origin
      ensures r.direction == Scale(1.0 / direction.Length(sqrt), direction)
      ensures IsSqrt(sqrt) ==> r.direction.Magnitude() == 1.0
    {
      var direction := direction.Normalize(sqrt);
      Ray(origin, direction)
    }
  }

  /** `Ray::new(origin, direction)`. */
  function New(origin: Vec3, direction: Vec3): (r: Ray)
    ensures r.origin == origin && r.direction == direction
  {
    Ray(origin, direction)
  }

  /** `at(0)` is the origin and `at(1)` is origin + direction. */
  lemma AtEnds(r: Ray)
    ensures r.At(0.0) == r.origin
    ensures r.At(1.0) == r.origin.Add(r.direction)
  {
  }

  /** Two points of a ray differ by the parameter difference times the direction. */
  lemma AtDifference(r: Ray, s: real, t: real)
    ensures r.At(t).Sub(r.At(s)) == Scale(t - s, r.direction)
  {
  }
}
