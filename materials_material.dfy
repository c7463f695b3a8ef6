/**
 * src/materials/material.rs declares only the `Material` interface that the
 * three materials of src/materials/ implement. A sphere holds one of them
 * behind `Arc<dyn Material>`; the model closes that choice over the three
 * implementations.
 */
module MaterialsMaterial {
  import MaterialsLambert
  import MaterialsMetal
  import MaterialsDielectric

  datatype Material =
    | Diffuse(lambertian: MaterialsLambert.Lambertian)
    | Reflective(metal: MaterialsMetal.Metal)
    | Refractive(dielectric: MaterialsDielectric.Dielectric)
}
