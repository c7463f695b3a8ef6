/**
 * src/drawable/sphere.rs: a sphere with a material, possibly moving
 * linearly during the exposure, and its `Traceable::hit`.
 */
module DrawableSphere {
  import opened Optional
  import opened Numeric
  import opened Vector
  import opened Interval
  import opened Library
  import opened Traceable
  import opened Quadratic
  import opened MaterialsMaterial
  import VectorsRay
  import MaterialsLambert

  datatype Sphere = Sphere(center: Vec3, radius: real, material: Material, inMotion: bool, motionBlurLerpFactor: Vec3)
  {
    /** `center(time)`: the start centre moved by `time` steps of the motion vector, or the fixed centre. */
    function Center(time: real): Vec3
    {
      if inMotion then center.Add(Scale(time, motionBlurLerpFactor)) else center
    }

    /**
     * `hit`: solves the quadratic for the centre at the ray's time, takes the
     * smaller root when the interval surrounds it and the larger one
     * otherwise, then writes parameter, point, the oriented normal and the
     * material into the record. The outward normal is measured from the
     * unmoved centre. The zero radius and the zero direction, for which the
     * source divides by zero, are excluded.
     */
    method Hit(ray: VectorsRay.Ray, rayParameter: Interval, record: HitRecord<Material>, lib: Lib) returns (hit: bool)
      requires radius != 0.0 && ray.direction.Magnitude() != 0.0
      modifies record
      ensures hit <==> HitOutcome(this, ray, rayParameter, lib).Some?
      ensures hit ==> record.Data() == HitOutcome(this, ray, rayParameter, lib).value
      ensures !hit ==> record.Data() == old(record.Data())
    {
      var movedCenter := if inMotion then Center(ray.time) else center;
      var originVector := ray.origin.Sub(movedCenter);
      var a := ray.direction.Magnitude();
      var halfB := Dot(originVector, ray.direction);
      var c := originVector.Dot(originVector) - radius * radius;
      var discriminant := halfB * halfB - a * c;
      assert (a, halfB, c) == Coefficients(this, ray) && discriminant == Discriminant(a, halfB, c);
      if discriminant < 0.0 {
        return false;
      }
      var discriminantRoot := lib.sqrt(discriminant);
      var root := (-halfB - discriminantRoot) / a;
      assert root == NearRoot(a, halfB, discriminantRoot);
      if !rayParameter.Surrounds(root) {
        root := (-halfB + discriminantRoot) / a;
        assert root == FarRoot(a, halfB, discriminantRoot);
        if !rayParameter.Surrounds(root) {
          return false;
        }
      }
      record.SetParameter(root);
      record.SetPoint(ray.At(record.parameter));
      var outwardNormal := record.point.Sub(center).DivScalar(radius);
      record.SetNormalFace(ray.direction, outwardNormal);
      record.SetMaterial(material);
      return true;
    }
  }

  /** `Sphere::new()`: radius 0, at rest, with the diffuse material `Lambertian::new()`. */
  function New(lib: Lib): (s: Sphere)
    ensures s.radius == 0.0 && !s.inMotion && s.material == Diffuse(MaterialsLambert.New(lib))
    ensures ZeroNew(lib) ==> forall time: real :: s.Center(time) == Zero
  {
    Sphere(lib.vecNew, 0.0, Diffuse(MaterialsLambert.New(lib)), false, lib.vecNew)
  }

  /** `new_in_motion`: the centre is `centerStart` at time 0 and `centerEnd` at time 1. */
  function NewInMotion(centerStart: Vec3, centerEnd: Vec3, radius: real, material: Material): (s: Sphere)
    ensures s.radius == radius && s.material == material && s.inMotion
    ensures s.Center(0.0) == centerStart && s.Center(1.0) == centerEnd
  {
    Sphere(centerStart, radius, material, true, centerEnd.Sub(centerStart))
  }

  /** `Sphere::from`: a sphere at rest, whose centre ignores the time. */
  function From(center: Vec3, radius: real, material: Material, lib: Lib): (s: Sphere)
    ensures s.radius == radius && s.material == material && !s.inMotion
    ensures forall time: real :: s.Center(time) == center
  {
    Sphere(center, radius, material, false, lib.vecNew)
  }

  /** `a`, `half_b` and `c` of the quadratic of `hit`, for the centre at the ray's time. */
  function Coefficients(s: Sphere, ray: VectorsRay.Ray): (real, real, real)
  {
    var originVector := ray.origin.Sub(s.Center(ray.time));
    (ray.direction.Magnitude(), Dot(originVector, ray.direction), originVector.Dot(originVector) - s.radius * s.radius)
  }

  /** What `hit` writes for the root `t`. */
  function RecordAt(s: Sphere, ray: VectorsRay.Ray, t: real): HitData<Material>
    requires s.radius != 0.0
  {
    var point := ray.At(t);
    var oriented := OrientNormal(ray.direction, point.Sub(s.center).DivScalar(s.radius));
    HitData(point, oriented.1, t, oriented.0, s.material)
  }

  /** The result of `hit`: `Some` of the record written when it returns true. */
  function HitOutcome(s: Sphere, ray: VectorsRay.Ray, rayParameter: Interval, lib: Lib): Option<HitData<Material>>
    requires s.radius != 0.0 && ray.direction.Magnitude() != 0.0
  {
    var (a, halfB, c) := Coefficients(s, ray);
    if Discriminant(a, halfB, c) < 0.0 then None
    else
      var root := lib.sqrt(Discriminant(a, halfB, c));
      if rayParameter.Surrounds(NearRoot(a, halfB, root)) then Some(RecordAt(s, ray, NearRoot(a, halfB, root)))
      else if rayParameter.Surrounds(FarRoot(a, halfB, root)) then Some(RecordAt(s, ray, FarRoot(a, halfB, root)))
      else None
  }

  /** The point of the ray at `t` lies on the sphere as placed at the ray's time. */
  predicate OnSphere(s: Sphere, ray: VectorsRay.Ray, t: real)
  {
    ray.At(t).Sub(s.Center(ray.time)).Magnitude() == s.radius * s.radius
  }

  /** A point of the ray is on the sphere exactly when its parameter is a zero of the quadratic. */
  lemma OnSphereIsRoot(s: Sphere, ray: VectorsRay.Ray, t: real)
    ensures var (a, halfB, c) := Coefficients(s, ray);
      OnSphere(s, ray, t) <==> Quad(a, halfB, c, t) == 0.0
  {
    var o := ray.origin.Sub(s.Center(ray.time));
    var d := ray.direction;
    assert ray.At(t).Sub(s.Center(ray.time)) == Vec3(o.x + t * d.x, o.y + t * d.y, o.z + t * d.z);
    DistanceQuad(o, d, t, s.radius * s.radius);
  }

  /**
   * `hit` reports the nearest intersection strictly inside the interval:
   * it misses exactly when the interval surrounds no parameter whose point
   * is on the sphere, and otherwise the reported parameter is such a
   * parameter and is at most every other one.
   */
  lemma HitIsNearestIntersection(s: Sphere, ray: VectorsRay.Ray, rayParameter: Interval, lib: Lib)
    requires IsSqrt(lib.sqrt)
    requires s.radius != 0.0 && ray.direction.Magnitude() != 0.0
    ensures HitOutcome(s, ray, rayParameter, lib).None? <==>
      forall t :: rayParameter.Surrounds(t) ==> !OnSphere(s, ray, t)
    ensures HitOutcome(s, ray, rayParameter, lib).Some? ==>
      var t := HitOutcome(s, ray, rayParameter, lib).value.parameter;
      rayParameter.Surrounds(t) && OnSphere(s, ray, t) &&
      forall t' :: rayParameter.Surrounds(t') && OnSphere(s, ray, t') ==> t <= t'
  {
    var (a, halfB, c) := Coefficients(s, ray);
    assert 0.0 < a;
    var outcome := HitOutcome(s, ray, rayParameter, lib);
    if Discriminant(a, halfB, c) < 0.0 {
      forall t | rayParameter.Surrounds(t)
        ensures !OnSphere(s, ray, t)
      {
        OnSphereIsRoot(s, ray, t);
        NoRoot(a, halfB, c, t);
      }
    } else {
      var root := lib.sqrt(Discriminant(a, halfB, c));
      var near, far := NearRoot(a, halfB, root), FarRoot(a, halfB, root);
      RootsOrdered(a, halfB, root);
      forall t
        ensures OnSphere(s, ray, t) <==> t == near || t == far
      {
        OnSphereIsRoot(s, ray, t);
        Roots(a, halfB, c, root, t);
      }
    }
  }

  /**
   * On a hit the point is the ray at the parameter, the normal opposes the
   * ray, the material is the sphere's, and for a sphere at rest the normal
   * has unit length.
   */
  lemma HitRecordFields(s: Sphere, ray: VectorsRay.Ray, rayParameter: Interval, lib: Lib)
    requires IsSqrt(lib.sqrt)
    requires s.radius != 0.0 && ray.direction.Magnitude() != 0.0
    ensures HitOutcome(s, ray, rayParameter, lib).Some? ==>
      var h := HitOutcome(s, ray, rayParameter, lib).value;
      h.point == ray.At(h.parameter) && Dot(ray.direction, h.normal) <= 0.0 && h.material == s.material &&
      (!s.inMotion ==> h.normal.Magnitude() == 1.0)
  {
    var outcome := HitOutcome(s, ray, rayParameter, lib);
    if outcome.Some? {
      HitIsNearestIntersection(s, ray, rayParameter, lib);
      var h := outcome.value;
      var offset := h.point.Sub(s.center);
      if !s.inMotion {
        assert offset.Magnitude() == s.radius * s.radius;
        ScaledToUnit(offset, s.radius);
        assert offset.DivScalar(s.radius) == Vec3(offset.x / s.radius, offset.y / s.radius, offset.z / s.radius);
      }
    }
  }

  /** The record for a root, with the radius negated: the same parameter and point, the flag flipped off tangency. */
  lemma RecordOfInverted(s: Sphere, ray: VectorsRay.Ray, t: real)
    requires s.radius != 0.0
    ensures
      var g, h := RecordAt(s.(radius := -s.radius), ray, t), RecordAt(s, ray, t);
      g.parameter == h.parameter && g.point == h.point &&
      (Dot(ray.direction, h.point.Sub(s.center)) != 0.0 ==> g.normal == h.normal && g.rayFacesOutside == !h.rayFacesOutside)
  {
    var offset := ray.At(t).Sub(s.center);
    var r := s.radius;
    assert offset.DivScalar(-r) == offset.DivScalar(r).Neg();
    var d := Dot(ray.direction, offset);
    assert Dot(ray.direction, offset.DivScalar(r)) == d / r;
    assert d != 0.0 ==> d / r != 0.0;
  }

  /**
   * A negative radius (a hollow sphere) finds the same parameter and point.
   * Its outward normal is reversed, so when the ray is not tangent to it the
   * stored normal is the same and `rayFacesOutside` is flipped.
   */
  lemma NegativeRadius(s: Sphere, ray: VectorsRay.Ray, rayParameter: Interval, lib: Lib)
    requires s.radius != 0.0 && ray.direction.Magnitude() != 0.0
    ensures
      var h, g := HitOutcome(s, ray, rayParameter, lib), HitOutcome(s.(radius := -s.radius), ray, rayParameter, lib);
      h.Some? == g.Some? &&
      (h.Some? ==>
        g.value.parameter == h.value.parameter && g.value.point == h.value.point &&
        (Dot(ray.direction, h.value.point.Sub(s.center)) != 0.0 ==>
          g.value.normal == h.value.normal && g.value.rayFacesOutside == !h.value.rayFacesOutside))
  {
    var inverted := s.(radius := -s.radius);
    var (a, halfB, c) := Coefficients(s, ray);
    assert inverted.Center(ray.time) == s.Center(ray.time);
    assert inverted.radius * inverted.radius == s.radius * s.radius;
    assert Coefficients(inverted, ray).0 == Coefficients(s, ray).0;
    assert Coefficients(inverted, ray).1 == Coefficients(s, ray).1;
    assert Coefficients(inverted, ray).2 == Coefficients(s, ray).2;
    assert Coefficients(inverted, ray) == Coefficients(s, ray);
    if 0.0 <= Discriminant(a, halfB, c) {
      var root := lib.sqrt(Discriminant(a, halfB, c));
      RecordOfInverted(s, ray, NearRoot(a, halfB, root));
      RecordOfInverted(s, ray, FarRoot(a, halfB, root));
    }
  }

  /** A sphere with a non-zero radius: the objects of a list of spheres. */
  type SolidSphere = s: Sphere | s.radius != 0.0
    witness Sphere(Zero, 1.0, Diffuse(MaterialsLambert.Lambertian(Zero)), false, Zero)

  /** A ray with a direction. */
  type AimedRay = r: VectorsRay.Ray | r.direction.Magnitude() != 0.0
    witness VectorsRay.Ray(Zero, Vec3(1.0, 0.0, 0.0), 0.0)

  /** `hit` as the per-object test of a list of spheres. */
  function SphereHit(lib: Lib): MemberHit<SolidSphere, AimedRay, Material>
  {
    (s: SolidSphere, ray: AimedRay, interval: Interval) => HitOutcome(s, ray, interval, lib)
  }

  lemma SphereAdmissibleAndNarrows(s: Sphere, ray: VectorsRay.Ray, i: Interval, top: Ext, lib: Lib)
    requires IsSqrt(lib.sqrt)
    requires s.radius != 0.0 && ray.direction.Magnitude() != 0.0
    requires Le(top, i.max)
    ensures HitOutcome(s, ray, i, lib).Some? ==> i.Surrounds(HitOutcome(s, ray, i, lib).value.parameter)
    ensures HitOutcome(s, ray, Interval(i.min, top), lib) == Below(HitOutcome(s, ray, i, lib), top)
  {
    var (a, halfB, c) := Coefficients(s, ray);
    if 0.0 <= Discriminant(a, halfB, c) {
      var root := lib.sqrt(Discriminant(a, halfB, c));
      RootsOrdered(a, halfB, root);
    }
  }

  /**
   * Spheres satisfy what the nearest-hit theorem of the list needs: each
   * reports only parameters inside its interval, and shrinking the interval
   * keeps its answer or drops it.
   */
  lemma SpheresReportNearest(objects: seq<SolidSphere>, ray: AimedRay, lib: Lib)
    requires IsSqrt(lib.sqrt)
    ensures Admissible(objects, ray, SphereHit(lib))
    ensures Narrows(objects, ray, SphereHit(lib))
  {
    forall k, i: Interval | 0 <= k < |objects| && SphereHit(lib)(objects[k], ray, i).Some?
      ensures i.Surrounds(SphereHit(lib)(objects[k], ray, i).value.parameter)
    {
      SphereAdmissibleAndNarrows(objects[k], ray, i, i.max, lib);
    }
    forall k, i: Interval, top: Ext | 0 <= k < |objects| && Le(top, i.max)
      ensures SphereHit(lib)(objects[k], ray, Interval(i.min, top)) == Below(SphereHit(lib)(objects[k], ray, i), top)
    {
      SphereAdmissibleAndNarrows(objects[k], ray, i, top, lib);
    }
  }

  /**
   * A list of spheres misses exactly when no sphere has a point of the ray
   * strictly inside the interval, and otherwise reports a parameter inside
   * it that lies on one of the spheres and is at most every such parameter
   * of every sphere.
   */
  lemma SceneOfSpheresIsNearest(objects: seq<SolidSphere>, ray: AimedRay, interval: Interval, lib: Lib)
    requires IsSqrt(lib.sqrt)
    ensures SceneHit(objects, ray, interval, SphereHit(lib)).None? <==>
      forall j, t :: 0 <= j < |objects| && interval.Surrounds(t) ==> !OnSphere(objects[j], ray, t)
    ensures SceneHit(objects, ray, interval, SphereHit(lib)).Some? ==>
      var t := SceneHit(objects, ray, interval, SphereHit(lib)).value.parameter;
      interval.Surrounds(t) && (exists w :: 0 <= w < |objects| && OnSphere(objects[w], ray, t)) &&
      forall j, t' :: 0 <= j < |objects| && interval.Surrounds(t') && OnSphere(objects[j], ray, t') ==> t <= t'
  {
    SpheresReportNearest(objects, ray, lib);
    SceneHitIsNearest(objects, ray, interval, SphereHit(lib));
    forall j | 0 <= j < |objects|
      ensures SphereHit(lib)(objects[j], ray, interval).None? <==>
        forall t :: interval.Surrounds(t) ==> !OnSphere(objects[j], ray, t)
      ensures SphereHit(lib)(objects[j], ray, interval).Some? ==>
        var t := SphereHit(lib)(objects[j], ray, interval).value.parameter;
        interval.Surrounds(t) && OnSphere(objects[j], ray, t) &&
        forall t' :: interval.Surrounds(t') && OnSphere(objects[j], ray, t') ==> t <= t'
    {
      HitIsNearestIntersection(objects[j], ray, interval, lib);
    }
  }
}
