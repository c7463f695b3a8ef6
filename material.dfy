/**
 * src/material.rs: the older materials, diffuse and metal, which scatter the
 * untimed ray of src/ray.rs. The `Material` trait of that file is the shape
 * of the two `Scatter` methods: an incoming ray and a hit record in, a flag,
 * an attenuation and a scattered ray out. `sample` stands for the draw of
 * `random_unit_sphere_vector`.
 */
module Material {
  import opened Vector
  import opened Library
  import opened Traceable
  import Ray

  /** The diffuse bounce direction: normal plus the random vector, or the bare normal when that sum is nearly zero. */
  function DiffuseDirection(normal: Vec3, sample: Vec3, lib: Lib): (d: Vec3)
    ensures lib.approxZero(normal.Add(sample)) ==> d == normal
    ensures !lib.approxZero(normal.Add(sample)) ==> d == normal.Add(sample)
  {
    var sum := normal.Add(sample);
    if lib.approxZero(sum) then normal else sum
  }

  /** A normal that is not itself nearly zero never yields a nearly zero bounce direction. */
  lemma DiffuseDirectionNotDegenerate(normal: Vec3, sample: Vec3, lib: Lib)
    requires !lib.approxZero(normal)
    ensures !lib.approxZero(DiffuseDirection(normal, sample, lib))
  {
  }

  datatype Lambertian = Lambertian(albedo: Vec3)
  {
    /** `scatter`: always scatters from the hit point, attenuated by the albedo, and ignores the incoming ray. */
    method Scatter<M(0)>(rayIn: Ray.Ray, record: HitRecord<M>, sample: Vec3, lib: Lib)
      returns (scattered: bool, attenuation: Vec3, scatteredRay: Ray.Ray)
      ensures scattered
      ensures attenuation == albedo
      ensures scatteredRay == Ray.Ray(record.point, DiffuseDirection(record.normal, sample, lib))
    {
      var scatterDirection := record.normal.Add(sample);
      if lib.approxZero(scatterDirection) {
        scatterDirection := record.normal;
      }
      scatteredRay := Ray.New(record.point, scatterDirection);
      attenuation := albedo;
      scattered := true;
    }
  }

  /** `Lambertian::new(color)`. */
  function NewLambertian(color: Vec3): (l: Lambertian)
    ensures l.albedo == color
  {
    Lambertian(color)
  }

  datatype Metal = Metal(albedo: Vec3, fuzz: real)
  {
    /**
     * `scatter`: the unit incoming direction reflected about the normal and
     * perturbed by `fuzz` times the random vector. It always scatters,
     * attenuated by the albedo; the incoming direction must not be zero.
     */
    method Scatter<M(0)>(rayIn: Ray.Ray, record: HitRecord<M>, sample: Vec3, lib: Lib)
      returns (scattered: bool, attenuation: Vec3, scatteredRay: Ray.Ray)
      requires rayIn.direction.Length(lib.sqrt) != 0.0
      ensures scattered
      ensures attenuation == albedo
      ensures scatteredRay.origin == record.point
      ensures scatteredRay.direction == lib.reflect(rayIn.direction.Normalize(lib.sqrt), record.normal).Add(Scale(fuzz, sample))
      ensures fuzz == 0.0 ==> scatteredRay.direction == lib.reflect(rayIn.direction.Normalize(lib.sqrt), record.normal)
    {
      var reflectedVector := lib.reflect(rayIn.direction.Normalize(lib.sqrt), record.normal);
      scatteredRay := Ray.New(record.point, reflectedVector.Add(Scale(fuzz, sample)));
      attenuation := albedo;
      scattered := true;
    }
  }

  /** `Metal::new(albedo, fuzz)`: fuzz values below 1 are kept, anything else becomes 1. */
  function NewMetal(albedo: Vec3, fuzz: real): (m: Metal)
    ensures m.albedo == albedo && m.fuzz <= 1.0
    ensures fuzz < 1.0 ==> m.fuzz == fuzz
    ensures 1.0 <= fuzz ==> m.fuzz == 1.0
  {
    Metal(albedo, if fuzz < 1.0 then fuzz else 1.0)
  }

  /** Capping again changes nothing, and the cap is the smaller of the fuzz and 1. */
  lemma NewMetalIdempotent(albedo: Vec3, fuzz: real)
    ensures NewMetal(albedo, NewMetal(albedo, fuzz).fuzz) == NewMetal(albedo, fuzz)
    ensures NewMetal(albedo, fuzz).fuzz == if fuzz <= 1.0 then fuzz else 1.0
  {
  }
}
