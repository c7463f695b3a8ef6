/**
 * Functions the core calls whose code is outside the modelled files: the
 * f64 square root, tangent and power, the zero-argument `Vec3::new()`,
 * `Vec3::from`, `Vec3::reflect`, `Vec3::refract`, `Vec3::approx_zero` and
 * `Interval::clamp`. They are carried as values of `Lib`; the predicates
 * below state the only facts about them that the proofs rely on.
 */
module Library {
  import opened Numeric
  import opened Vector
  import opened Interval

  datatype Lib = Lib(
    sqrt: real -> real,
    tan: real -> real,
    powf: (real, real) -> real,
    /** zero-argument `Vec3::new()` */
    vecNew: Vec3,
    /** `Vec3::from(x, y, z)` */
    vecFrom: (real, real, real) -> Vec3,
    /** `Vec3::reflect(v, n)` */
    reflect: (Vec3, Vec3) -> Vec3,
    /** `Vec3::refract(uv, n, ratio)` */
    refract: (Vec3, Vec3, real) -> Vec3,
    /** `Vec3::approx_zero()` */
    approxZero: Vec3 -> bool,
    /** `Interval::clamp(x)` */
    clamp: (Interval, real) -> real)

  /** An interval with finite bounds in order. */
  predicate Proper(i: Interval)
  {
    i.min.Fin? && i.max.Fin? && i.min.value <= i.max.value
  }

  /** Clamping to a proper interval lands in it, keeps values already in it, and keeps order. */
  ghost predicate IsClamp(clamp: (Interval, real) -> real)
  {
    (forall i: Interval, x: real :: Proper(i) ==>
      i.min.value <= clamp(i, x) <= i.max.value && (i.Contains(x) ==> clamp(i, x) == x)) &&
    (forall i: Interval, a: real, b: real :: Proper(i) && a <= b ==> clamp(i, a) <= clamp(i, b))
  }

  /** The numeric facts used: square root, fifth power and clamp. */
  ghost predicate Sound(lib: Lib)
  {
    IsSqrt(lib.sqrt) && IsFifthPower(lib.powf) && IsClamp(lib.clamp)
  }

  /** `Vec3::new()` is the zero vector (its definition is not shown; some properties need it). */
  predicate ZeroNew(lib: Lib)
  {
    lib.vecNew == Zero
  }

  /** `Vec3::from(x, y, z)` builds the vector with those components. */
  ghost predicate ComponentFrom(lib: Lib)
  {
    forall x: real, y: real, z: real :: lib.vecFrom(x, y, z) == Vec3(x, y, z)
  }
}
