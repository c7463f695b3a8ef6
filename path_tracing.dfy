/**
 * The colour estimator `get_ray_color` of the two later cameras. The source
 * repeats the same function in src/perspective_camera/camera.rs and
 * src/camera/camera.rs; they differ only in the ray type, so it is modelled
 * once, over any ray type `R`.
 *
 * A ray that hits nothing sees the sky gradient; a ray that hits an object
 * whose material scatters it sees the attenuation times what the scattered
 * ray sees, one bounce fewer; an absorbed ray, or one that has used up its
 * bounces, sees `Color::new()`.
 */
module PathTracing {
  import opened Numeric
  import opened Vector
  import opened Interval
  import opened Library
  import opened Traceable

  /**
   * What the estimator consults: the scene's objects and their intersection
   * test, the scatter rule of the materials (the dynamic call
   * `record.material().scatter(...)`, whose random draws are folded into
   * it), and the direction accessor of the ray type.
   */
  datatype Scene<!T, !R, !M> = Scene(
    objects: seq<T>,
    memberHit: MemberHit<T, R, M>,
    scatter: (M, R, HitData<M>) -> (bool, Vec3, R),
    direction: R -> Vec3)

  /** `Interval::new(0.1, f64::INFINITY)`: the parameters at which the scene is searched. */
  const SearchInterval: Interval := Interval(Fin(0.1), PosInf)

  /** Every ray a material scatters has a direction that can be normalized. */
  ghost predicate Aimed<T, R(!new), M(!new)>(scene: Scene<T, R, M>, lib: Lib)
  {
    forall m: M, r: R, h: HitData<M> :: scene.scatter(m, r, h).0 ==>
      scene.direction(scene.scatter(m, r, h).2).Length(lib.sqrt) != 0.0
  }

  /** Every attenuation a material reports lies in the unit cube. */
  ghost predicate Dimming<T, R(!new), M(!new)>(scene: Scene<T, R, M>)
  {
    forall m: M, r: R, h: HitData<M> :: scene.scatter(m, r, h).0 ==> InUnitCube(scene.scatter(m, r, h).1)
  }

  predicate InUnitCube(c: Vec3)
  {
    0.0 <= c.x <= 1.0 && 0.0 <= c.y <= 1.0 && 0.0 <= c.z <= 1.0
  }

  /** The blend factor `0.5 (unit.y + 1)` of a direction. */
  function Blend(direction: Vec3, lib: Lib): real
    requires direction.Length(lib.sqrt) != 0.0
  {
    0.5 * (direction.Normalize(lib.sqrt).y + 1.0)
  }

  /** The sky seen along `direction`: white blended toward light blue as the direction turns up. */
  function Sky(direction: Vec3, lib: Lib): Vec3
    requires direction.Length(lib.sqrt) != 0.0
  {
    var blendFactor := Blend(direction, lib);
    Scale(1.0 - blendFactor, lib.vecFrom(1.0, 1.0, 1.0)).Add(Scale(blendFactor, lib.vecFrom(0.5, 0.7, 1.0)))
  }

  /** `get_ray_color(ray, depth, world)`. */
  function RayColor<T, R(!new), M(!new)>(ray: R, depth: nat, scene: Scene<T, R, M>, lib: Lib): Vec3
    requires scene.direction(ray).Length(lib.sqrt) != 0.0 && Aimed(scene, lib)
    decreases depth
  {
    if depth == 0 then lib.vecNew
    else
      match SceneHit(scene.objects, ray, SearchInterval, scene.memberHit)
      case Some(record) =>
        var (scattered, attenuation, scatteredRay) := scene.scatter(record.material, ray, record);
        if scattered then attenuation.Mul(RayColor(scatteredRay, depth - 1, scene, lib)) else lib.vecNew
      case None => Sky(scene.direction(ray), lib)
  }

  /** The number of scatters along the path that `RayColor` follows: never more than the depth. */
  function Bounces<T, R(!new), M(!new)>(ray: R, depth: nat, scene: Scene<T, R, M>, lib: Lib): (n: nat)
    requires scene.direction(ray).Length(lib.sqrt) != 0.0 && Aimed(scene, lib)
    ensures n <= depth
    decreases depth
  {
    if depth == 0 then 0
    else
      match SceneHit(scene.objects, ray, SearchInterval, scene.memberHit)
      case Some(record) =>
        var (scattered, _, scatteredRay) := scene.scatter(record.material, ray, record);
        if scattered then 1 + Bounces(scatteredRay, depth - 1, scene, lib) else 0
      case None => 0
  }

  /**
   * The three outcomes of one step: no depth left gives `Color::new()`, a
   * miss gives the sky (whatever the depth left), and a hit whose material
   * absorbs the ray gives `Color::new()`.
   */
  lemma RayColorCases<T, R(!new), M(!new)>(ray: R, depth: nat, scene: Scene<T, R, M>, lib: Lib)
    requires scene.direction(ray).Length(lib.sqrt) != 0.0 && Aimed(scene, lib)
    ensures depth == 0 ==> RayColor(ray, depth, scene, lib) == lib.vecNew
    ensures 0 < depth && SceneHit(scene.objects, ray, SearchInterval, scene.memberHit).None? ==>
      RayColor(ray, depth, scene, lib) == Sky(scene.direction(ray), lib) && Bounces(ray, depth, scene, lib) == 0
    ensures 0 < depth && scene.objects == [] ==> RayColor(ray, depth, scene, lib) == Sky(scene.direction(ray), lib)
    ensures 0 < depth && (var h := SceneHit(scene.objects, ray, SearchInterval, scene.memberHit);
      h.Some? && !scene.scatter(h.value.material, ray, h.value).0) ==>
      RayColor(ray, depth, scene, lib) == lib.vecNew && Bounces(ray, depth, scene, lib) == 0
  {
  }

  /**
   * A path that ends before its bounces run out (by a miss or an
   * absorption) sees the same colour with any larger depth.
   */
  lemma {:induction false} DeeperAgrees<T, R(!new), M(!new)>(ray: R, depth: nat, scene: Scene<T, R, M>, lib: Lib)
    requires scene.direction(ray).Length(lib.sqrt) != 0.0 && Aimed(scene, lib)
    requires Bounces(ray, depth, scene, lib) < depth
    ensures RayColor(ray, depth + 1, scene, lib) == RayColor(ray, depth, scene, lib)
    ensures Bounces(ray, depth + 1, scene, lib) == Bounces(ray, depth, scene, lib)
    decreases depth
  {
    match SceneHit(scene.objects, ray, SearchInterval, scene.memberHit)
    case Some(record) =>
      var (scattered, _, scatteredRay) := scene.scatter(record.material, ray, record);
      if scattered {
        DeeperAgrees(scatteredRay, depth - 1, scene, lib);
      }
    case None =>
  }

  /** A unit vector has every component in [-1, 1]. */
  lemma UnitComponent(v: Vec3)
    requires v.Magnitude() == 1.0
    ensures -1.0 <= v.x <= 1.0 && -1.0 <= v.y <= 1.0 && -1.0 <= v.z <= 1.0
  {
    SquareNonneg(v.x);
    SquareNonneg(v.y);
    SquareNonneg(v.z);
    AtMostOneOfSquare(v.x);
    AtMostOneOfSquare(v.y);
    AtMostOneOfSquare(v.z);
  }

  /**
   * The blend factor lies in [0, 1], so the sky's red channel lies in
   * [0.5, 1], its green in [0.7, 1], and its blue is 1.
   */
  lemma SkyRange(direction: Vec3, lib: Lib)
    requires IsSqrt(lib.sqrt) && ComponentFrom(lib) && direction.Length(lib.sqrt) != 0.0
    ensures 0.0 <= Blend(direction, lib) <= 1.0
    ensures var c := Sky(direction, lib);
      0.5 <= c.x <= 1.0 && 0.7 <= c.y <= 1.0 && c.z == 1.0
  {
    var unit := direction.Normalize(lib.sqrt);
    UnitComponent(unit);
  }

  /**
   * For a unit direction the sky is (1 - b/2, 1 - 3b/10, 1) with blend
   * factor b = (y + 1)/2: light blue (0.5, 0.7, 1) straight up, white
   * straight down.
   */
  lemma SkyOfUnit(direction: Vec3, lib: Lib)
    requires IsSqrt(lib.sqrt) && ComponentFrom(lib) && direction.Magnitude() == 1.0
    ensures direction.Length(lib.sqrt) == 1.0
    ensures Blend(direction, lib) == 0.5 * (direction.y + 1.0)
    ensures Sky(direction, lib) == Vec3(1.0 - 0.5 * Blend(direction, lib), 1.0 - 0.3 * Blend(direction, lib), 1.0)
  {
    SqrtOne(lib.sqrt);
    NormalizeOfUnit(direction, lib.sqrt);
  }

  /** The component-wise product of two colours in the unit cube stays in it. */
  lemma MulInUnitCube(a: Vec3, b: Vec3)
    requires InUnitCube(a) && InUnitCube(b)
    ensures InUnitCube(a.Mul(b))
  {
    ProductInUnit(a.x, b.x);
    ProductInUnit(a.y, b.y);
    ProductInUnit(a.z, b.z);
  }

  /**
   * With attenuations in the unit cube and `Color::new()` black, every
   * estimate is a colour in the unit cube: light is never amplified.
   */
  lemma {:induction false} RayColorInUnitCube<T, R(!new), M(!new)>(ray: R, depth: nat, scene: Scene<T, R, M>, lib: Lib)
    requires IsSqrt(lib.sqrt) && ComponentFrom(lib) && ZeroNew(lib)
    requires scene.direction(ray).Length(lib.sqrt) != 0.0 && Aimed(scene, lib) && Dimming(scene)
    ensures InUnitCube(RayColor(ray, depth, scene, lib))
    decreases depth
  {
    if depth > 0 {
      match SceneHit(scene.objects, ray, SearchInterval, scene.memberHit)
      case Some(record) =>
        var (scattered, attenuation, scatteredRay) := scene.scatter(record.material, ray, record);
        if scattered {
          RayColorInUnitCube(scatteredRay, depth - 1, scene, lib);
          MulInUnitCube(attenuation, RayColor(scatteredRay, depth - 1, scene, lib));
        }
      case None =>
        SkyRange(scene.direction(ray), lib);
    }
  }
}
