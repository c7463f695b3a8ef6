/** src/vectors/ray.rs: a ray with an origin, a direction and a sample time (used for motion blur). */
module VectorsRay {
  import opened Vector
  import opened Library

  datatype Ray = Ray(origin: Vec3, direction: Vec3, time: real)
  {
    /** `at(t)`: the point reached after `t` units of direction; its offset from the origin is `t·direction`. */
    function At(t: real): (p: Vec3)
      ensures p.Sub(origin) == Scale(t, direction)
    {
      origin.Add(Scale(t, direction))
    }
  }

  /** `Ray::new()`: both vectors are the zero-argument `Vec3::new()`, the time is 0. */
  function New(lib: Lib): (r: Ray)
    ensures ZeroNew(lib) ==> r.origin == Zero && r.direction == Zero && r.time == 0.0
  {
    Ray(lib.vecNew, lib.vecNew, 0.0)
  }

  /** `Ray::from(origin, direction, time)`. */
  function From(origin: Vec3, direction: Vec3, time: real): (r: Ray)
    ensures r.origin == origin && r.direction == direction && r.time == time
  {
    Ray(origin, direction, time)
  }

  /** `at(0)` is the origin and `at(1)` is one step along the direction. */
  lemma AtEnds(r: Ray)
    ensures r.At(0.0) == r.origin
    ensures r.At(1.0) == r.origin.Add(r.direction)
  {
  }

  /** `at` is affine in its parameter. */
  lemma AtAffine(r: Ray, s: real, t: real)
    ensures r.At(s + t) == r.At(s).Add(Scale(t, r.direction))
  {
  }
}
