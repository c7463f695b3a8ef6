/** src/materials/metal.rs: the reflective material with a fuzz factor. */
module MaterialsMetal {
  import opened Vector
  import opened Library
  import opened Traceable
  import VectorsRay
  import Ray

  datatype Metal = Metal(albedo: Vec3, fuzz: real)
  {
    /**
     * `scatter`: the unit incoming direction reflected about the normal,
     * perturbed by `fuzz` times the random vector `sample`. It always
     * scatters (nothing rejects a result that points into the surface) and
     * the attenuation is the albedo. As for the diffuse material the
     * scattered ray is untimed, the ray of src/ray.rs.
     */
    method Scatter<M(0)>(rayIn: VectorsRay.Ray, record: HitRecord<M>, sample: Vec3, lib: Lib)
      returns (scattered: bool, attenuation: Vec3, scatteredRay: Ray.Ray)
      requires rayIn.direction.Length(lib.sqrt) != 0.0
      ensures scattered
      ensures attenuation == albedo
      ensures scatteredRay.origin == record.point
      ensures scatteredRay.direction == lib.reflect(rayIn.direction.Normalize(lib.sqrt), record.normal).Add(Scale(fuzz, sample))
      ensures fuzz == 0.0 ==> scatteredRay.direction == lib.reflect(rayIn.direction.Normalize(lib.sqrt), record.normal)
    {
      var reflectedVector := lib.reflect(rayIn.direction.Normalize(lib.sqrt), record.normal);
      scatteredRay := Ray.New(record.point, reflectedVector.Add(Scale(fuzz, sample)));
      attenuation := albedo;
      scattered := true;
    }
  }

  /** `Metal::new()`: zero-argument `Vec3::new()` albedo and no fuzz. */
  function New(lib: Lib): (m: Metal)
    ensures m.fuzz == 0.0
    ensures ZeroNew(lib) ==> m.albedo == Zero
  {
    Metal(lib.vecNew, 0.0)
  }

  /** `Metal::from(albedo, fuzz)`: fuzz values below 1, negative ones included, are kept; anything else becomes 1. */
  function From(albedo: Vec3, fuzz: real): (m: Metal)
    ensures m.albedo == albedo && m.fuzz <= 1.0
    ensures fuzz < 1.0 ==> m.fuzz == fuzz
    ensures 1.0 <= fuzz ==> m.fuzz == 1.0
  {
    Metal(albedo, if fuzz < 1.0 then fuzz else 1.0)
  }

  /** Capping again changes nothing: rebuilding a metal from its own fields gives it back. */
  lemma FromIdempotent(albedo: Vec3, fuzz: real)
    ensures From(From(albedo, fuzz).albedo, From(albedo, fuzz).fuzz) == From(albedo, fuzz)
  {
  }
}
