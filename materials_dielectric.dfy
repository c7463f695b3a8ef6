/** src/materials/dielectric.rs: the refracting material (glass, water) with Schlick's reflectance. */
module MaterialsDielectric {
  import opened Numeric
  import opened Vector
  import opened Library
  import opened Traceable
  import VectorsRay

  /** The ratio of refractive indices: `1/ior` entering the surface from outside, `ior` leaving it. */
  function RefractionRatio(faces: bool, ior: real): (r: real)
    requires faces ==> ior != 0.0
    ensures faces ==> r * ior == 1.0
    ensures !faces ==> r == ior
  {
    if faces then 1.0 / ior else ior
  }

  /** `f64::min(dot(-unit, normal), 1.0)`: the cosine of the incidence angle, capped at 1. */
  function CosTheta(unitDirection: Vec3, normal: Vec3): (c: real)
    ensures c <= 1.0 && c <= Dot(unitDirection.Neg(), normal)
    ensures c == 1.0 || c == Dot(unitDirection.Neg(), normal)
  {
    var d := Dot(unitDirection.Neg(), normal);
    if d <= 1.0 then d else 1.0
  }

  /** `(1 - cos²).sqrt()`. */
  function SinTheta(cosTheta: real, sqrt: real -> real): real
  {
    sqrt(1.0 - cosTheta * cosTheta)
  }

  /** `refraction_ratio * sin_theta > 1`: Snell's law has no solution (total internal reflection). */
  predicate CannotRefract(cosTheta: real, refractionRatio: real, sqrt: real -> real)
  {
    refractionRatio * SinTheta(cosTheta, sqrt) > 1.0
  }

  /** `reflectance`: Schlick's approximation r0 + (1 - r0)(1 - cos)^5 with r0 = ((1 - r)/(1 + r))². */
  function Reflectance(cosTheta: real, refractionRatio: real, powf: (real, real) -> real): real
    requires refractionRatio != -1.0
  {
    var r0 := (1.0 - refractionRatio) / (1.0 + refractionRatio);
    var r0 := r0 * r0;
    r0 + (1.0 - r0) * powf(1.0 - cosTheta, 5.0)
  }

  /** The decision of `scatter`: reflect when refraction is impossible or the draw falls below the reflectance. */
  predicate Reflects(cosTheta: real, refractionRatio: real, draw: real, lib: Lib)
    requires refractionRatio != -1.0
  {
    CannotRefract(cosTheta, refractionRatio, lib.sqrt) || Reflectance(cosTheta, refractionRatio, lib.powf) > draw
  }

  datatype Dielectric = Dielectric(indexOfRefraction: real)
  {
    /**
     * `scatter`: no attenuation; the unit incoming direction is reflected
     * or refracted about the normal as `Reflects` decides, from the hit
     * point and at the incoming ray's time. `draw` is the value of
     * `random_number()`.
     */
    method Scatter<M(0)>(rayIn: VectorsRay.Ray, record: HitRecord<M>, draw: real, lib: Lib)
      returns (scattered: bool, attenuation: Vec3, scatteredRay: VectorsRay.Ray)
      requires rayIn.direction.Length(lib.sqrt) != 0.0
      requires record.rayFacesOutside ==> indexOfRefraction != 0.0
      requires indexOfRefraction != -1.0
      ensures scattered
      ensures attenuation == lib.vecFrom(1.0, 1.0, 1.0)
      ensures scatteredRay.origin == record.point && scatteredRay.time == rayIn.time
      ensures
        var ratio := RefractionRatio(record.rayFacesOutside, indexOfRefraction);
        var unit := rayIn.direction.Normalize(lib.sqrt);
        var cos := CosTheta(unit, record.normal);
        scatteredRay.direction ==
          if Reflects(cos, ratio, draw, lib) then lib.reflect(unit, record.normal)
          else lib.refract(unit, record.normal, ratio)
    {
      attenuation := lib.vecFrom(1.0, 1.0, 1.0);
      var refractionRatio := RefractionRatio(record.rayFacesOutside, indexOfRefraction);
      var rayInUnitDirection := rayIn.direction.Normalize(lib.sqrt);
      var cosTheta := CosTheta(rayInUnitDirection, record.normal);
      var notRefractable := CannotRefract(cosTheta, refractionRatio, lib.sqrt);
      var direction;
      if notRefractable || Reflectance(cosTheta, refractionRatio, lib.powf) > draw {
        direction := lib.reflect(rayInUnitDirection, record.normal);
      } else {
        direction := lib.refract(rayInUnitDirection, record.normal, refractionRatio);
      }
      scatteredRay := VectorsRay.From(record.point, direction, rayIn.time);
      scattered := true;
    }
  }

  /** `Dielectric::new()`: index 0. */
  function New(): (d: Dielectric)
    ensures d.indexOfRefraction == 0.0
  {
    Dielectric(0.0)
  }

  /** `Dielectric::from(ior)`. */
  function From(indexOfRefraction: real): (d: Dielectric)
    ensures d.indexOfRefraction == indexOfRefraction
  {
    Dielectric(indexOfRefraction)
  }

  /** For a cosine in [-1, 1] the sine is non-negative and sin² + cos² = 1. */
  lemma SinCos(cosTheta: real, sqrt: real -> real)
    requires IsSqrt(sqrt) && -1.0 <= cosTheta <= 1.0
    ensures 0.0 <= SinTheta(cosTheta, sqrt)
    ensures SinTheta(cosTheta, sqrt) * SinTheta(cosTheta, sqrt) + cosTheta * cosTheta == 1.0
  {
    SquareAtMostOne(cosTheta);
  }

  /** When the ratio times the sine exceeds 1 (total internal reflection) the ray reflects whatever the draw. */
  lemma TotalInternalReflection(cosTheta: real, refractionRatio: real, lib: Lib)
    requires refractionRatio != -1.0
    requires CannotRefract(cosTheta, refractionRatio, lib.sqrt)
    ensures forall draw: real :: Reflects(cosTheta, refractionRatio, draw, lib)
  {
  }

  /** Otherwise it reflects exactly when the reflectance exceeds the draw. */
  lemma ReflectsByReflectance(cosTheta: real, refractionRatio: real, draw: real, lib: Lib)
    requires refractionRatio != -1.0
    requires !CannotRefract(cosTheta, refractionRatio, lib.sqrt)
    ensures Reflects(cosTheta, refractionRatio, draw, lib) <==> Reflectance(cosTheta, refractionRatio, lib.powf) > draw
  {
  }

  /** At normal incidence the reflectance is r0, at grazing incidence it is 1. */
  lemma ReflectanceEnds(refractionRatio: real, powf: (real, real) -> real)
    requires IsFifthPower(powf) && refractionRatio != -1.0
    ensures Reflectance(1.0, refractionRatio, powf) ==
      ((1.0 - refractionRatio) / (1.0 + refractionRatio)) * ((1.0 - refractionRatio) / (1.0 + refractionRatio))
    ensures Reflectance(0.0, refractionRatio, powf) == 1.0
  {
    assert powf(0.0, 5.0) == 0.0;
    assert powf(1.0, 5.0) == 1.0;
  }

  /** The fifth power maps [0, 1] into itself. */
  lemma FifthPowerInUnit(x: real)
    requires 0.0 <= x <= 1.0
    ensures 0.0 <= x * x * x * x * x <= 1.0
  {
    ProductInUnit(x, x);
    ProductInUnit(x * x, x);
    ProductInUnit(x * x * x, x);
    ProductInUnit(x * x * x * x, x);
  }

  /** For a cosine in [0, 1] and a positive ratio, the reflectance is a probability. */
  lemma ReflectanceInUnit(cosTheta: real, refractionRatio: real, powf: (real, real) -> real)
    requires IsFifthPower(powf)
    requires 0.0 <= cosTheta <= 1.0 && 0.0 < refractionRatio
    ensures 0.0 <= Reflectance(cosTheta, refractionRatio, powf) <= 1.0
  {
    var q := (1.0 - refractionRatio) / (1.0 + refractionRatio);
    assert -1.0 < q < 1.0;
    SquareAtMostOne(q);
    var r0 := q * q;
    var p := powf(1.0 - cosTheta, 5.0);
    FifthPowerInUnit(1.0 - cosTheta);
    ProductInUnit(1.0 - r0, p);
    MulMonotone(p, 1.0, 1.0 - r0);
  }
}
