/** src/materials/lambert.rs: the diffuse material. */
module MaterialsLambert {
  import opened Vector
  import opened Library
  import opened Traceable
  import VectorsRay
  import Ray

  datatype Lambertian = Lambertian(albedo: Vec3)
  {
    /**
     * `scatter`: the bounce leaves the hit point along the normal plus a
     * random vector (`sample`, the draw of `random_unit_sphere_vector`),
     * falling back to the bare normal when that sum is nearly zero. It
     * always scatters, attenuated by the albedo, and ignores the incoming ray.
     * The scattered ray is built by a two-argument `Ray::from`, so it carries
     * no time: it is modelled as the ray of src/ray.rs.
     */
    method Scatter<M(0)>(rayIn: VectorsRay.Ray, record: HitRecord<M>, sample: Vec3, lib: Lib)
      returns (scattered: bool, attenuation: Vec3, scatteredRay: Ray.Ray)
      ensures scattered
      ensures attenuation == albedo
      ensures scatteredRay.origin == record.point
      ensures lib.approxZero(record.normal.Add(sample)) ==> scatteredRay.direction == record.normal
      ensures !lib.approxZero(record.normal.Add(sample)) ==> scatteredRay.direction == record.normal.Add(sample)
    {
      var scatterDirection := record.normal.Add(sample);
      if lib.approxZero(scatterDirection) {
        scatterDirection := record.normal;
      }
      scatteredRay := Ray.New(record.point, scatterDirection);
      attenuation := albedo;
      scattered := true;
    }
  }

  /** `Lambertian::new()`: the albedo is the zero-argument `Vec3::new()`. */
  function New(lib: Lib): (l: Lambertian)
    ensures ZeroNew(lib) ==> l.albedo == Zero
  {
    Lambertian(lib.vecNew)
  }

  /** `Lambertian::from(color)`. */
  function From(color: Vec3): (l: Lambertian)
    ensures l.albedo == color
  {
    Lambertian(color)
  }
}
