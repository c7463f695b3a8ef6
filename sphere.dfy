/**
 * src/sphere.rs: the older sphere, a centre and a radius, whose `hit` takes
 * the bounds as (`ray_parameter_max`, `ray_parameter_min`) and writes a
 * record without a material. Its `hit` declares the larger root in an inner
 * block, so that binding is lost and the record always receives the smaller
 * root: `HitAsWritten` is the code as written (`ShadowedRoot` shows the
 * parameter it records outside the bounds), `HitIntended` the evident
 * intention, which the method `Hit` follows.
 */
module Sphere {
  import opened Optional
  import opened Numeric
  import opened Vector
  import opened Library
  import opened Traceable
  import opened Quadratic
  import Ray

  datatype Sphere = Sphere(center: Vec3, radius: real)
  {
    /**
     * `hit`, with the larger root assigned to the `root` the record
     * receives rather than to a new binding in the inner block. The
     * record's material, absent from the source's record, is left
     * untouched. The zero radius and the zero direction, for which the
     * source divides by zero, are excluded.
     */
    method Hit<M(0)>(ray: Ray.Ray, rayParameterMax: real, rayParameterMin: real, record: HitRecord<M>, lib: Lib) returns (hit: bool)
      requires radius != 0.0 && ray.direction.Magnitude() != 0.0
      modifies record
      ensures hit <==> HitIntended(this, ray, rayParameterMax, rayParameterMin, lib, old(record.material)).Some?
      ensures hit ==> record.Data() == HitIntended(this, ray, rayParameterMax, rayParameterMin, lib, old(record.material)).value
      ensures !hit ==> record.Data() == old(record.Data())
    {
      var originVector := ray.origin.Sub(center);
      var a := Dot(ray.direction, ray.direction);
      var halfB := Dot(originVector, ray.direction);
      var c := originVector.Dot(originVector) - radius * radius;
      var discriminant := halfB * halfB - a * c;
      assert a == Coefficients(this, ray).0;
      assert halfB == Coefficients(this, ray).1;
      assert c == Coefficients(this, ray).2;
      assert discriminant == Discriminant(a, halfB, c);
      if discriminant < 0.0 {
        return false;
      } else {
        var discriminantRoot := lib.sqrt(discriminant);
        var root := (-halfB - discriminantRoot) / a;
        assert root == NearRoot(a, halfB, discriminantRoot);
        if root <= rayParameterMin || rayParameterMax <= root {
          root := (-halfB + discriminantRoot) / a;
          assert root == FarRoot(a, halfB, discriminantRoot);
          if root <= rayParameterMin || rayParameterMax <= root {
            return false;
          }
        }
        record.SetParameter(root);
        record.SetPoint(ray.At(record.parameter));
        var outwardNormal := record.point.Sub(center).DivScalar(radius);
        record.SetNormalFace(ray.direction, outwardNormal);
        return true;
      }
    }
  }

  /** `Sphere::new(center, radius)`. */
  function New(center: Vec3, radius: real): (s: Sphere)
    ensures s.center == center && s.radius == radius
  {
    Sphere(center, radius)
  }

  /** `a`, `half_b` and `c` of the quadratic of `hit`. */
  function Coefficients(s: Sphere, ray: Ray.Ray): (real, real, real)
  {
    var originVector := ray.origin.Sub(s.center);
    (Dot(ray.direction, ray.direction), Dot(originVector, ray.direction), originVector.Dot(originVector) - s.radius * s.radius)
  }

  /** The acceptance test of `hit`: the root is neither at or below the minimum nor at or above the maximum. */
  predicate InRange(rayParameterMax: real, rayParameterMin: real, t: real)
  {
    !(t <= rayParameterMin || rayParameterMax <= t)
  }

  /** What `hit` writes for the parameter `t`; `kept` is the material already in the record. */
  function RecordAt<M>(s: Sphere, ray: Ray.Ray, t: real, kept: M): HitData<M>
    requires s.radius != 0.0
  {
    var point := ray.At(t);
    var oriented := OrientNormal(ray.direction, point.Sub(s.center).DivScalar(s.radius));
    HitData(point, oriented.1, t, oriented.0, kept)
  }

  /** `hit` as written: it succeeds when either root is in range, and always records the smaller root. */
  function HitAsWritten<M>(s: Sphere, ray: Ray.Ray, rayParameterMax: real, rayParameterMin: real, lib: Lib, kept: M): Option<HitData<M>>
    requires s.radius != 0.0 && ray.direction.Magnitude() != 0.0
  {
    var (a, halfB, c) := Coefficients(s, ray);
    if Discriminant(a, halfB, c) < 0.0 then None
    else
      var root := lib.sqrt(Discriminant(a, halfB, c));
      if !InRange(rayParameterMax, rayParameterMin, NearRoot(a, halfB, root)) &&
         !InRange(rayParameterMax, rayParameterMin, FarRoot(a, halfB, root))
      then None
      else Some(RecordAt(s, ray, NearRoot(a, halfB, root), kept))
  }

  /** `hit` as evidently intended: the larger root is recorded when only it is in range. */
  function HitIntended<M>(s: Sphere, ray: Ray.Ray, rayParameterMax: real, rayParameterMin: real, lib: Lib, kept: M): Option<HitData<M>>
    requires s.radius != 0.0 && ray.direction.Magnitude() != 0.0
  {
    var (a, halfB, c) := Coefficients(s, ray);
    if Discriminant(a, halfB, c) < 0.0 then None
    else
      var root := lib.sqrt(Discriminant(a, halfB, c));
      if InRange(rayParameterMax, rayParameterMin, NearRoot(a, halfB, root)) then Some(RecordAt(s, ray, NearRoot(a, halfB, root), kept))
      else if InRange(rayParameterMax, rayParameterMin, FarRoot(a, halfB, root)) then Some(RecordAt(s, ray, FarRoot(a, halfB, root), kept))
      else None
  }

  /** The point of the ray at `t` lies on the sphere. */
  predicate OnSphere(s: Sphere, ray: Ray.Ray, t: real)
  {
    ray.At(t).Sub(s.center).Magnitude() == s.radius * s.radius
  }

  lemma OnSphereIsRoot(s: Sphere, ray: Ray.Ray, t: real)
    ensures var (a, halfB, c) := Coefficients(s, ray);
      OnSphere(s, ray, t) <==> Quad(a, halfB, c, t) == 0.0
  {
    var o := ray.origin.Sub(s.center);
    var d := ray.direction;
    assert ray.At(t).Sub(s.center) == Vec3(o.x + t * d.x, o.y + t * d.y, o.z + t * d.z);
    assert Coefficients(s, ray).0 == d.Magnitude();
    assert Coefficients(s, ray).1 == Dot(o, d);
    assert Coefficients(s, ray).2 == o.Dot(o) - s.radius * s.radius;
    DistanceQuad(o, d, t, s.radius * s.radius);
  }

  /** The points of the ray on the sphere are exactly the two roots, or none when the discriminant is negative. */
  lemma IntersectionsAreRoots(s: Sphere, ray: Ray.Ray, lib: Lib, t: real)
    requires IsSqrt(lib.sqrt)
    requires s.radius != 0.0 && ray.direction.Magnitude() != 0.0
    ensures var (a, halfB, c) := Coefficients(s, ray);
      OnSphere(s, ray, t) <==>
        0.0 <= Discriminant(a, halfB, c) &&
        (t == NearRoot(a, halfB, lib.sqrt(Discriminant(a, halfB, c))) || t == FarRoot(a, halfB, lib.sqrt(Discriminant(a, halfB, c))))
  {
    var (a, halfB, c) := Coefficients(s, ray);
    assert 0.0 < a;
    OnSphereIsRoot(s, ray, t);
    if Discriminant(a, halfB, c) < 0.0 {
      NoRoot(a, halfB, c, t);
    } else {
      Roots(a, halfB, c, lib.sqrt(Discriminant(a, halfB, c)), t);
    }
  }

  /**
   * As written, `hit` succeeds exactly when some point of the ray on the
   * sphere has its parameter strictly between the bounds. The point written
   * is the ray at the recorded parameter and the normal opposes the ray.
   */
  lemma HitAsWrittenSucceeds<M>(s: Sphere, ray: Ray.Ray, rayParameterMax: real, rayParameterMin: real, lib: Lib, kept: M)
    requires IsSqrt(lib.sqrt)
    requires s.radius != 0.0 && ray.direction.Magnitude() != 0.0
    ensures HitAsWritten(s, ray, rayParameterMax, rayParameterMin, lib, kept).Some? <==>
      exists t :: rayParameterMin < t < rayParameterMax && OnSphere(s, ray, t)
    ensures HitAsWritten(s, ray, rayParameterMax, rayParameterMin, lib, kept).Some? ==>
      var h := HitAsWritten(s, ray, rayParameterMax, rayParameterMin, lib, kept).value;
      h.point == ray.At(h.parameter) && Dot(ray.direction, h.normal) <= 0.0 && OnSphere(s, ray, h.parameter)
  {
    var (a, halfB, c) := Coefficients(s, ray);
    if 0.0 <= Discriminant(a, halfB, c) {
      var root := lib.sqrt(Discriminant(a, halfB, c));
      var near, far := NearRoot(a, halfB, root), FarRoot(a, halfB, root);
      IntersectionsAreRoots(s, ray, lib, near);
      IntersectionsAreRoots(s, ray, lib, far);
      if InRange(rayParameterMax, rayParameterMin, near) {
        assert rayParameterMin < near < rayParameterMax && OnSphere(s, ray, near);
      } else if InRange(rayParameterMax, rayParameterMin, far) {
        assert rayParameterMin < far < rayParameterMax && OnSphere(s, ray, far);
      }
    }
    forall t | rayParameterMin < t < rayParameterMax && OnSphere(s, ray, t)
      ensures HitAsWritten(s, ray, rayParameterMax, rayParameterMin, lib, kept).Some?
    {
      IntersectionsAreRoots(s, ray, lib, t);
    }
  }

  /** As written, the recorded parameter is always the smaller root. */
  lemma AsWrittenRecordsNearRoot<M>(s: Sphere, ray: Ray.Ray, rayParameterMax: real, rayParameterMin: real, lib: Lib, kept: M)
    requires s.radius != 0.0 && ray.direction.Magnitude() != 0.0
    ensures var (a, halfB, c) := Coefficients(s, ray);
      HitAsWritten(s, ray, rayParameterMax, rayParameterMin, lib, kept).Some? ==>
        HitAsWritten(s, ray, rayParameterMax, rayParameterMin, lib, kept).value.parameter == NearRoot(a, halfB, lib.sqrt(Discriminant(a, halfB, c)))
  {
  }

  /**
   * The shadowed root: a unit sphere around the origin of a ray along x,
   * with bounds (0, 10). The ray leaves the sphere at parameter 1, inside
   * the bounds, so `hit` succeeds, but it records the parameter -1.
   */
  lemma ShadowedRoot<M>(lib: Lib, kept: M)
    requires IsSqrt(lib.sqrt)
    ensures
      var h := HitAsWritten(Sphere(Zero, 1.0), Ray.Ray(Zero, Vec3(1.0, 0.0, 0.0)), 10.0, 0.0, lib, kept);
      h.Some? && h.value.parameter == -1.0 && !(0.0 < h.value.parameter < 10.0)
  {
    var s, ray := Sphere(Zero, 1.0), Ray.Ray(Zero, Vec3(1.0, 0.0, 0.0));
    var (a, halfB, c) := Coefficients(s, ray);
    assert a == 1.0 && halfB == 0.0 && c == -1.0;
    assert Discriminant(a, halfB, c) == 1.0;
    SqrtOne(lib.sqrt);
    assert NearRoot(a, halfB, 1.0) == -1.0;
    assert InRange(10.0, 0.0, FarRoot(a, halfB, 1.0));
    AsWrittenRecordsNearRoot(s, ray, 10.0, 0.0, lib, kept);
  }

  /**
   * As intended, `hit` records the nearest point of the ray on the sphere
   * with a parameter strictly between the bounds, and fails when there is
   * none.
   */
  lemma HitIntendedIsNearest<M>(s: Sphere, ray: Ray.Ray, rayParameterMax: real, rayParameterMin: real, lib: Lib, kept: M)
    requires IsSqrt(lib.sqrt)
    requires s.radius != 0.0 && ray.direction.Magnitude() != 0.0
    ensures HitIntended(s, ray, rayParameterMax, rayParameterMin, lib, kept).None? <==>
      forall t :: rayParameterMin < t < rayParameterMax ==> !OnSphere(s, ray, t)
    ensures HitIntended(s, ray, rayParameterMax, rayParameterMin, lib, kept).Some? ==>
      var h := HitIntended(s, ray, rayParameterMax, rayParameterMin, lib, kept).value;
      rayParameterMin < h.parameter < rayParameterMax && OnSphere(s, ray, h.parameter) &&
      h.point == ray.At(h.parameter) && Dot(ray.direction, h.normal) <= 0.0 &&
      forall t :: rayParameterMin < t < rayParameterMax && OnSphere(s, ray, t) ==> h.parameter <= t
  {
    var (a, halfB, c) := Coefficients(s, ray);
    assert 0.0 < a;
    var h := HitIntended(s, ray, rayParameterMax, rayParameterMin, lib, kept);
    forall t
      ensures OnSphere(s, ray, t) <==>
        0.0 <= Discriminant(a, halfB, c) &&
        (t == NearRoot(a, halfB, lib.sqrt(Discriminant(a, halfB, c))) || t == FarRoot(a, halfB, lib.sqrt(Discriminant(a, halfB, c))))
    {
      IntersectionsAreRoots(s, ray, lib, t);
    }
    if 0.0 <= Discriminant(a, halfB, c) {
      var root := lib.sqrt(Discriminant(a, halfB, c));
      var near, far := NearRoot(a, halfB, root), FarRoot(a, halfB, root);
      RootsOrdered(a, halfB, root);
      assert OnSphere(s, ray, near) && OnSphere(s, ray, far);
      if InRange(rayParameterMax, rayParameterMin, near) {
        assert h.value.parameter == near;
      } else if InRange(rayParameterMax, rayParameterMin, far) {
        assert h.value.parameter == far;
      } else {
        assert h.None?;
      }
    }
  }

  /** The two agree whenever the smaller root is in range, and both fail together. */
  lemma AsWrittenAgreesWithIntended<M>(s: Sphere, ray: Ray.Ray, rayParameterMax: real, rayParameterMin: real, lib: Lib, kept: M)
    requires s.radius != 0.0 && ray.direction.Magnitude() != 0.0
    ensures HitAsWritten(s, ray, rayParameterMax, rayParameterMin, lib, kept).Some? ==
            HitIntended(s, ray, rayParameterMax, rayParameterMin, lib, kept).Some?
    ensures HitIntended(s, ray, rayParameterMax, rayParameterMin, lib, kept).Some? &&
            HitIntended(s, ray, rayParameterMax, rayParameterMin, lib, kept).value.parameter ==
            HitAsWritten(s, ray, rayParameterMax, rayParameterMin, lib, kept).value.parameter ==>
      HitAsWritten(s, ray, rayParameterMax, rayParameterMin, lib, kept) == HitIntended(s, ray, rayParameterMax, rayParameterMin, lib, kept)
  {
  }
}
