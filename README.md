# A verified model of a small Monte Carlo ray tracer

This project models the core of a Rust path tracer written after the "Ray
Tracing in One Weekend" series:

- vector and ray algebra;
- intervals over extended reals;
- the hit record and the nearest-hit loop over a list of objects;
- the sphere intersection;
- the diffuse, metal and glass scatter rules;
- pixel quantisation into plain PPM ("P3") lines;
- the three cameras: their derived state, their primary rays, the recursive colour estimator and the row-major output.

The repository keeps several historical, mutually inconsistent versions of the
same components, and each Rust file is modelled as its own module:

- src/vector.rs: `Vector`
- src/interval.rs: `Interval`
- src/vectors/ray.rs: `VectorsRay`
- src/ray.rs: `Ray`
- src/traceable.rs: `Traceable`
- src/drawable/sphere.rs: `DrawableSphere`
- src/sphere.rs: `Sphere`
- src/materials/lambert.rs: `MaterialsLambert`
- src/materials/metal.rs: `MaterialsMetal`
- src/materials/dielectric.rs: `MaterialsDielectric`
- src/materials/material.rs: `MaterialsMaterial`
- src/material.rs: `Material`
- src/vectors/color.rs: `VectorsColor`
- src/color.rs: `Color`
- src/math/rt_math.rs: `MathRtMath`
- src/rt_math.rs: `RtMath`
- src/perspective_camera/camera.rs: `PerspectiveCamera`
- src/camera/camera.rs: `CameraCamera`
- src/camera.rs: `Camera`

Shared pieces:

- `PathTracing` is the colour estimator `get_ray_color` that the two later cameras repeat word for word.
- `Ppm` and `Decimal` give the output format a reader, so the writers are specified by what a reader gets back.
- `Numeric`, `Quadratic` and `Optional` are helpers.

How the model represents the source:

- `f64` is modelled as `real`.
- Functions the modelled files call but do not define are fields of one record `Library.Lib`: the f64 square root, tangent and power, the zero-argument `Vec3::new()`, `Vec3::from`, `Vec3::reflect`, `Vec3::refract`, `Vec3::approx_zero` and `Interval::clamp`. Ghost predicates state the only facts the proofs use about them: `Numeric.IsSqrt`, `Numeric.IsFifthPower`, `Library.IsClamp`, `Library.ZeroNew` and `Library.ComponentFrom`.
- The cameras' random draws (pixel jitter, defocus disc point, ray time) are explicit parameters: a `Draws` value that the renderers take as a function of pixel and sample index. A material's `Scatter` method takes its draw as the parameter `sample`. Inside the colour estimator, however, the materials' draws are folded into the fixed function `PathTracing.Scene.scatter` (see Left out).
- Structures the source updates in place are classes with `modifies` clauses: `Vector.Vec3Cell`, `Traceable.HitRecord`, `Traceable.Traceables` and the three `Camera` classes.
- Loops are methods proved against specification functions.
- In three places the code evidently does not do what it means (see Findings). In each, the code as written is a separate function, with a lemma that exhibits the difference, and the methods follow the corrected code.

## Model

| member | source | states |
|---|---|---|
| Vector.Vec3.Magnitude | src/vector.rs:65-67 | the squared length is non-negative and equals the dot product of the vector with itself |
| Vector.Vec3.Length | src/vector.rs:58-60 | with a sound square root, the length is non-negative and its square is the magnitude |
| Vector.Vec3.Cross | src/vector.rs:91-97 | the cross product is orthogonal to both arguments |
| Vector.Vec3.Normalize | src/vector.rs:104-111 | for a vector of non-zero length, the result is the vector scaled by 1/length and has magnitude 1 |
| Vector.Vec3.Index | src/vector.rs:303-310 | indices 0, 1 and 2 read x, y and z; any other index is excluded (it panics in the source) |
| Vector.Dot | src/vector.rs:123-125 | the free `dot` agrees with the method `dot` and is symmetric |
| Vector.DotCommutes | src/vector.rs:78-80 | the dot product is symmetric |
| Vector.CrossAntiCommutes | src/vector.rs:91-97 | `cross(b, a)` is `-cross(a, b)` |
| Vector.CrossMagnitude | src/vector.rs:91-97 | Lagrange's identity: the squared length of a × b is \|a\|²\|b\|² − (a·b)² |
| Vector.CrossZero | src/vector.rs:91-97 | the cross product with the zero vector is zero |
| Vector.ProductsCommute | src/vector.rs:184-222 | `v * t` multiplies every component by t, as `t * v` does, and the component-wise product commutes |
| Vector.AddInverses | src/vector.rs:148-172 | `a + (-a)` is zero and `(a + b) - b` is `a` |
| Vector.DivIsMulInverse | src/vector.rs:270-276 | for t ≠ 0, `v / t` equals `v * (1/t)` |
| Vector.MagnitudeOfScale | src/vector.rs:202-208 | scaling by t multiplies the magnitude by t² |
| Vector.NormalizeOfUnit | src/vector.rs:104-111 | normalizing a unit vector returns it unchanged |
| Vector.MagnitudePositive | src/vector.rs:65-67 | only the zero vector has magnitude 0 |
| Vector.LengthNonzero | src/vector.rs:58-60 | only the zero vector has length 0 |
| Vector.Vec3Cell.constructor | src/vector.rs:30-32 | a cell holds the vector it was built from |
| Vector.Vec3Cell.IndexMut | src/vector.rs:320-327 | writing through index i < 3 sets that component and leaves the other two as they were |
| Vector.Vec3Cell.AddAssign | src/vector.rs:335-339 | `+=` leaves the same vector as the binary `+` |
| Vector.Vec3Cell.SubAssign | src/vector.rs:347-351 | `-=` leaves the same vector as the binary `-` |
| Vector.Vec3Cell.MulAssign | src/vector.rs:359-363 | `*= t` leaves the same vector as `v * t` |
| Vector.Vec3Cell.DivAssign | src/vector.rs:371-373 | `/= t` multiplies by 1/t, which equals `v / t` |
| Interval.New | src/interval.rs:24-26 | `min()` and `max()` return the constructor's arguments |
| Interval.Default | src/interval.rs:35-40 | the default interval surrounds every finite value |
| Interval.FiniteBounds | src/interval.rs:54-72 | with finite bounds, `contains(x)` holds iff min ≤ x ≤ max, and `surrounds(x)` iff min < x < max |
| Interval.SurroundsImpliesContains | src/interval.rs:54-72 | whatever the bounds, a surrounded value is contained |
| Interval.DocumentedExamples | src/interval.rs:50-96 | the documented examples: [0, 5] contains 2, does not surround 0, and reports max 5 and min 0 |
| Interval.EmptyAndUniverse | src/interval.rs:35-108 | `EMPTY` contains and surrounds nothing; `default()` equals `UNIVERSE`, which contains and surrounds every finite value |
| VectorsRay.Ray.At | src/vectors/ray.rs:81-83 | `at(t)` lies t steps of the direction from the origin |
| VectorsRay.New | src/vectors/ray.rs:28-34 | `new()` has zero origin and direction (when `Vec3::new()` is zero) and time 0 |
| VectorsRay.From | src/vectors/ray.rs:46-87 | `origin()`, `direction()` and `time()` return the values given to `from` |
| VectorsRay.AtEnds | src/vectors/ray.rs:81-83 | `at(0)` is the origin and `at(1)` is origin + direction |
| VectorsRay.AtAffine | src/vectors/ray.rs:81-83 | `at(s + t)` is `at(s) + t·direction` |
| Ray.Ray.At | src/ray.rs:55-57 | `at(t)` lies t steps of the direction from the origin |
| Ray.Ray.UnitVector | src/ray.rs:64-70 | `unit_vector` keeps the origin, scales the direction by 1/length, and the new direction has magnitude 1 |
| Ray.New | src/ray.rs:24-44 | the accessors return the constructor's arguments |
| Ray.AtEnds | src/ray.rs:55-57 | `at(0)` is the origin and `at(1)` is origin + direction |
| Ray.AtDifference | src/ray.rs:55-57 | `at(t) - at(s)` is (t − s)·direction |
| Traceable.OrientNormal | src/traceable.rs:79-87 | the ray faces outside iff `dot(direction, outward) < 0`; the normal is the outward normal in that case and its negation otherwise; it opposes the ray and keeps the argument's length, because the `normalize` result on line 80 is discarded |
| Traceable.HitRecord.constructor | src/traceable.rs:29-36 | a new record has zero point and normal, parameter 0 and `ray_faces_outside` true |
| Traceable.HitRecord.SetPoint | src/traceable.rs:59-61 | only the point changes |
| Traceable.HitRecord.SetNormal | src/traceable.rs:64-66 | only the normal changes |
| Traceable.HitRecord.SetParameter | src/traceable.rs:69-71 | only the parameter changes |
| Traceable.HitRecord.SetRayFacesOutside | src/traceable.rs:74-76 | only the flag changes |
| Traceable.HitRecord.SetMaterial | src/drawable/sphere.rs:124 | only the material changes |
| Traceable.HitRecord.SetNormalFace | src/traceable.rs:79-87 | the flag and the normal become `OrientNormal` of the arguments; point, parameter and material are unchanged |
| Traceable.HitRecord.Assign | src/traceable.rs:135 | `*record = temp_record.clone()` copies every field |
| Traceable.Traceables.constructor | src/traceable.rs:103-107 | a new list is empty |
| Traceable.Traceables.Clear | src/traceable.rs:110-112 | `clear` leaves the list empty |
| Traceable.Traceables.Add | src/traceable.rs:115-117 | `add` appends at the end and keeps the existing order |
| Traceable.Traceables.Hit | src/traceable.rs:122-140 | the loop returns true iff the scan over the members, each given the interval narrowed to the closest parameter so far, found a hit; it then leaves in `record` the last record reported, and on false `record` is untouched |
| Traceable.HitIffSomeMemberHit | src/traceable.rs:127-137 | after k members, a hit is kept iff one of the first k members reported one |
| Traceable.EmptySceneMisses | src/traceable.rs:122-140 | an empty list never hits |
| Traceable.AdmissibleScan | src/traceable.rs:124-136 | when members only succeed strictly inside their interval: `closest_parameter` never grows, the kept parameter lies strictly inside the interval and is at most every reported parameter, and each report is strictly below the earlier ones, so the earlier member wins ties |
| Traceable.NearestPrefix | src/traceable.rs:127-137 | for members that report their nearest hit, the first k members give the nearest hit among them, each queried alone on the whole interval, and the earliest of equally near ones |
| Traceable.SceneHitIsNearest | src/traceable.rs:122-140 | the list misses exactly when every member misses alone, and otherwise reports the nearest, earliest member hit |
| DrawableSphere.New | src/drawable/sphere.rs:20-28 | `new()` has radius 0, is at rest, uses `Lambertian::new()`, and its centre is always zero (when `Vec3::new()` is zero) |
| DrawableSphere.NewInMotion | src/drawable/sphere.rs:30-43 | a moving sphere's centre is `center_start` at time 0 and `center_end` at time 1 |
| DrawableSphere.From | src/drawable/sphere.rs:54-76 | a sphere at rest has a centre that ignores the time |
| DrawableSphere.Sphere.Hit | src/drawable/sphere.rs:95-126 | `hit` returns true iff the `HitOutcome` rule succeeds (the smaller root if surrounded, else the larger one if surrounded), writes that record, and leaves the record untouched on false |
| DrawableSphere.OnSphereIsRoot | src/drawable/sphere.rs:100-105 | the ray's point at t lies on the sphere placed at the ray's time iff t is a zero of a t² + 2 half_b t + c |
| DrawableSphere.HitIsNearestIntersection | src/drawable/sphere.rs:105-118 | `hit` misses iff the interval surrounds no parameter whose point is on the sphere (a negative discriminant gives false); otherwise the recorded parameter is such a parameter, surrounded by the interval, and at most every other one |
| DrawableSphere.HitRecordFields | src/drawable/sphere.rs:120-124 | on a hit the point is `ray.at(parameter)`, the normal opposes the ray, the material is the sphere's own, and for a sphere at rest the normal has unit length |
| DrawableSphere.RecordOfInverted | src/drawable/sphere.rs:122-123 | negating the radius keeps the parameter and point of a root and reverses the outward normal |
| DrawableSphere.NegativeRadius | src/drawable/sphere.rs:103-123 | a negative radius finds the same parameter and point; off tangency the stored normal is the same and `ray_faces_outside` is flipped |
| DrawableSphere.SphereAdmissibleAndNarrows | src/drawable/sphere.rs:112-118 | a sphere reports only surrounded parameters, and narrowing the top of the interval keeps its answer when that stays below the new top and drops it otherwise |
| DrawableSphere.SpheresReportNearest | src/drawable/sphere.rs:112-118 | every list of spheres meets the two hypotheses of the list's nearest-hit theorem |
| DrawableSphere.SceneOfSpheresIsNearest | src/traceable.rs:122-140 | a list of spheres misses iff no sphere has a point of the ray strictly inside the interval, and otherwise reports a surrounded parameter on one of them that is at most every such parameter of every sphere |
| Sphere.New | src/sphere.rs:11-19 | the centre and radius accessors return the constructor's arguments |
| Sphere.Sphere.Hit | src/sphere.rs:23-53 | `hit`, with bounds in the order (max, min) and the larger root recorded when only it passes the range test (the corrected rule, see Findings), returns true iff `HitIntended` succeeds, writes that record with the material untouched, and leaves the record untouched on false |
| Sphere.OnSphereIsRoot | src/sphere.rs:30-33 | the ray's point at t is on the sphere iff t is a zero of the quadratic |
| Sphere.IntersectionsAreRoots | src/sphere.rs:35-42 | the points of the ray on the sphere are exactly the two roots, and there are none when the discriminant is negative |
| Sphere.HitAsWritten | src/sphere.rs:23-53 | the definition of `hit` as written (no contract of its own), with the inner `let root` that leaves the smaller root recorded; `HitAsWrittenSucceeds`, `AsWrittenRecordsNearRoot` and `ShadowedRoot` state its properties |
| Sphere.HitAsWrittenSucceeds | src/sphere.rs:35-50 | as written, `hit` succeeds iff some point of the ray on the sphere has a parameter strictly between the bounds; the point is `ray.at(parameter)` and the normal opposes the ray |
| Sphere.AsWrittenRecordsNearRoot | src/sphere.rs:40-47 | as written, the recorded parameter is always the smaller root |
| Sphere.ShadowedRoot | src/sphere.rs:40-47 | a unit sphere at the origin and a ray from the origin along x with bounds (0, 10): `hit` succeeds and records −1, outside the bounds |
| Sphere.HitIntendedIsNearest | src/sphere.rs:40-50 | recording the root that passed the test gives the nearest point of the ray on the sphere strictly between the bounds, and fails when there is none |
| Sphere.AsWrittenAgreesWithIntended | src/sphere.rs:40-47 | the code and the intended rule succeed on the same inputs, and write the same record whenever they record the same parameter |
| MaterialsLambert.Lambertian.Scatter | src/materials/lambert.rs:25-39 | always scatters, with attenuation equal to the albedo, from the hit point; the direction is normal + sample, or exactly the normal when that sum is nearly zero; the result does not depend on the incoming ray |
| MaterialsLambert.New | src/materials/lambert.rs:13-17 | `new()` has the albedo `Vec3::new()`, which is zero when `Vec3::new()` is |
| MaterialsLambert.From | src/materials/lambert.rs:19-21 | `from(c)` stores c |
| MaterialsMetal.Metal.Scatter | src/materials/metal.rs:29-44 | always scatters, with attenuation equal to the albedo, from the hit point along reflect(unit(direction), normal) + fuzz·sample, which is exactly the reflection when fuzz is 0 |
| MaterialsMetal.New | src/materials/metal.rs:14-19 | `new()` has fuzz 0 and the albedo `Vec3::new()` |
| MaterialsMetal.From | src/materials/metal.rs:20-25 | fuzz values below 1, negative ones included, are kept; anything else becomes 1 |
| MaterialsMetal.FromIdempotent | src/materials/metal.rs:23 | capping again changes nothing |
| MaterialsDielectric.RefractionRatio | src/materials/dielectric.rs:37-40 | the ratio is 1/ior when the ray faces outside and ior otherwise |
| MaterialsDielectric.CosTheta | src/materials/dielectric.rs:42 | the cosine is the smaller of `dot(-unit, normal)` and 1 |
| MaterialsDielectric.SinCos | src/materials/dielectric.rs:43 | for a cosine in [−1, 1], the sine is non-negative and sin² + cos² = 1 |
| MaterialsDielectric.TotalInternalReflection | src/materials/dielectric.rs:45-49 | when ratio·sin > 1 the ray reflects, whatever the draw |
| MaterialsDielectric.ReflectsByReflectance | src/materials/dielectric.rs:47-51 | otherwise it reflects iff the reflectance exceeds the draw |
| MaterialsDielectric.Dielectric.Scatter | src/materials/dielectric.rs:29-54 | always scatters, with attenuation `Color::from(1, 1, 1)`, from the hit point and at the incoming ray's time; the direction is the reflection or the refraction of the unit incoming direction, as the rule decides |
| MaterialsDielectric.New | src/materials/dielectric.rs:16-20 | `new()` has index 0 |
| MaterialsDielectric.From | src/materials/dielectric.rs:21-25 | `from(ior)` stores ior |
| MaterialsDielectric.ReflectanceEnds | src/materials/dielectric.rs:72-76 | `reflectance(1, r)` is ((1 − r)/(1 + r))² and `reflectance(0, r)` is 1 |
| MaterialsDielectric.ReflectanceInUnit | src/materials/dielectric.rs:72-76 | for a cosine in [0, 1] and r > 0, with `powf(x, 5)` = x⁵, the reflectance lies in [0, 1] |
| Material.DiffuseDirection | src/material.rs:49-52 | the bounce direction is normal + sample or exactly the normal |
| Material.DiffuseDirectionNotDegenerate | src/material.rs:49-52 | a normal that is not nearly zero never yields a nearly zero bounce direction |
| Material.Lambertian.Scatter | src/material.rs:42-56 | always scatters, with attenuation equal to the albedo, along the diffuse direction from the record's point |
| Material.NewLambertian | src/material.rs:36-38 | `new(color)` stores the colour |
| Material.Metal.Scatter | src/material.rs:74-89 | always scatters, with attenuation equal to the albedo, from the record's point along reflect(unit(direction), normal) + fuzz·sample |
| Material.NewMetal | src/material.rs:65-70 | `new` keeps fuzz values below 1 and caps the rest at 1 |
| Material.NewMetalIdempotent | src/material.rs:68 | capping again changes nothing, and the cap is min(fuzz, 1) |
| VectorsColor.LinearToGamma | src/vectors/color.rs:7-9 | for x ≥ 0, the gamma value is non-negative and its square is x |
| VectorsColor.Channel | src/vectors/color.rs:36-41 | with a sound clamp, every emitted integer lies in [0, 255] |
| VectorsColor.SampleScale | src/vectors/color.rs:27 | for a positive number of samples, the scale is in (0, 1] and multiplies back to 1 |
| VectorsColor.WriteColor | src/vectors/color.rs:22-43 | the line reads back as three integers, each computed from its own channel alone, averaged, gamma-corrected, clamped and truncated |
| VectorsColor.BlackPixel | src/vectors/color.rs:22-43 | black is written "0 0 0\n" |
| VectorsColor.SaturatedChannel | src/vectors/color.rs:27-41 | an averaged channel of at least 1 is written 255 |
| VectorsColor.ChannelMonotone | src/vectors/color.rs:27-41 | a larger non-negative channel never gives a smaller integer |
| Color.WriteColor | src/color.rs:16-23 | the line reads back as trunc(255.999·c) for each channel |
| Color.ChannelRange | src/color.rs:19-21 | a channel in [0, 1] gives an integer in [0, 255]; 0 gives 0 and 1 gives 255 |
| Color.ChannelMonotone | src/color.rs:19-21 | a brighter channel never gives a smaller integer |
| Color.Black | src/color.rs:16-23 | black is written "0 0 0\n" |
| Color.White | src/color.rs:16-23 | white is written "255 255 255\n" |
| Numeric.Trunc | src/color.rs:19-21 | `as i32` truncates toward zero: the integer part for x ≥ 0, and the negated integer part of −x below 0 |
| Numeric.ToUsize | src/perspective_camera/camera.rs:169 | `as usize` gives 0 for x ≤ 0 and otherwise the integer part |
| Decimal.ReadTripleOf | src/vectors/color.rs:37-42 | a "{} {} {}\n" line of three integers reads back as those integers |
| Decimal.ReadIntOf | src/vectors/color.rs:37-42 | a formatted integer followed by a non-digit reads back as that integer and the rest |
| Ppm.ReadHeaderOf | src/perspective_camera/camera.rs:221 | the header "P3\n{w} {h}\n255\n" reads back as w and h, followed by the body |
| Ppm.FlattenRowMajor | src/perspective_camera/camera.rs:266-271 | with w lines per row, the flattened image has h·w lines, and line j·w + i is pixel i of row j |
| MathRtMath.DegreesToRadians | src/math/rt_math.rs:9-11 | 180 degrees are `PI` radians |
| MathRtMath.DegreesToRadiansEnds | src/math/rt_math.rs:9-11 | 0 maps to 0 and 180 to `PI` |
| MathRtMath.DegreesToRadiansLinear | src/math/rt_math.rs:9-11 | the conversion is additive and homogeneous |
| MathRtMath.DegreesToRadiansMonotone | src/math/rt_math.rs:9-11 | the conversion preserves strict order |
| RtMath.DegreesToRadians | src/rt_math.rs:9-11 | 180 degrees are `PI` radians |
| RtMath.DegreesToRadiansValues | src/rt_math.rs:9-11 | 0, 90 and 180 degrees map to 0, `PI`/2 and `PI` |
| RtMath.DegreesToRadiansAdditive | src/rt_math.rs:9-11 | d2r(a + b) = d2r(a) + d2r(b) |
| RtMath.DegreesToRadiansMonotone | src/rt_math.rs:9-11 | the conversion preserves strict order |
| PathTracing.RayColor | src/perspective_camera/camera.rs:111-136 | the definition of `get_ray_color` (no contract of its own): `Color::new()` at depth 0, the sky on a miss of (0.1, +∞), the attenuation times the scattered ray's colour one level down, or `Color::new()` on absorption; `RayColorCases`, `DeeperAgrees` and `RayColorInUnitCube` state its properties |
| PathTracing.Bounces | src/perspective_camera/camera.rs:111-126 | a path never scatters more times than the depth it starts with |
| PathTracing.RayColorCases | src/perspective_camera/camera.rs:111-135 | depth 0 gives `Color::new()` without consulting the world; a miss on the interval (0.1, +∞) gives the sky, as does an empty world; a hit whose material absorbs the ray gives `Color::new()` with no bounce |
| PathTracing.DeeperAgrees | src/perspective_camera/camera.rs:117-126 | a path that ends by a miss or an absorption before its depth runs out sees the same colour with more depth |
| PathTracing.SkyRange | src/perspective_camera/camera.rs:128-134 | the blend factor lies in [0, 1], and the sky lies in [0.5, 1] × [0.7, 1] × {1} |
| PathTracing.SkyOfUnit | src/camera/camera.rs:114-119 | for a unit direction, b = (y + 1)/2 and the sky is (1 − b/2, 1 − 3b/10, 1) |
| PathTracing.RayColorInUnitCube | src/perspective_camera/camera.rs:111-135 | with attenuations in the unit cube and a black `Color::new()`, every estimate is a colour in the unit cube |
| PerspectiveCamera.ImageHeight | src/perspective_camera/camera.rs:169-170 | the height is at least 1, and otherwise the truncated quotient width/aspect |
| PerspectiveCamera.Derive | src/perspective_camera/camera.rs:168-204 | the definition of the frame `initialize` derives (no contract of its own): w = unit(origin − target), u = unit(up × w), v = w × u and the grid and disc radii on them; `FrameOrthonormal`, `GridSpansViewport`, `ImageCentred` and `FocusZeroDerive` state its properties |
| PerspectiveCamera.FrameOrthonormal | src/perspective_camera/camera.rs:172-183 | the centre is the camera origin; w, u and v have length 1 and are mutually perpendicular |
| PerspectiveCamera.GridSpansViewport | src/perspective_camera/camera.rs:186-191 | width steps of du make the viewport's width along u, and height steps of dv make its height down along v |
| PerspectiveCamera.ImageCentred | src/perspective_camera/camera.rs:190-198 | the middle of the pixel grid lies at `center − focus_distance·w` |
| PerspectiveCamera.PixelSampleSquare | src/perspective_camera/camera.rs:160-165 | the definition of `pixel_sample_square` (no contract of its own): the two unit draws shifted by −0.5 along du and dv; `GetRayAim` bounds the offset |
| PerspectiveCamera.SampleDefocusDisc | src/perspective_camera/camera.rs:154-158 | the definition of `sample_defocus_disc` (no contract of its own): the centre moved by the disc point's x and y along the two disc radii |
| PerspectiveCamera.GetRay | src/perspective_camera/camera.rs:138-152 | the definition of `get_ray` (no contract of its own): from the centre or a disc sample toward the jittered pixel sample, at the drawn time; `GetRayAim` states its properties |
| PerspectiveCamera.GetRayAim | src/perspective_camera/camera.rs:138-165 | the ray starts at the centre when `defocus_angle` ≤ 0 and at the disc sample otherwise, carries the drawn time, reaches the jittered pixel sample at parameter 1, and the jitter is within half a step along du and dv |
| PerspectiveCamera.FocusZeroCollapses | src/perspective_camera/camera.rs:177-203 | at focus distance 0 the steps and disc radii vanish and every primary ray has the zero direction |
| PerspectiveCamera.FocusZeroExtents | src/perspective_camera/camera.rs:175-201 | at focus distance 0 the viewport height and the defocus radius are 0, whatever the angles |
| PerspectiveCamera.FocusZeroDerive | src/perspective_camera/camera.rs:168-204 | the same for the frame `initialize` derives, whatever the angles and basis |
| PerspectiveCamera.DefaultView | src/perspective_camera/camera.rs:63-87 | the defaults look from −z at the origin with +y up, onto a 100 × 100 image, at focus distance 0 |
| PerspectiveCamera.DefaultSettings | src/perspective_camera/camera.rs:63-87 | `new()` sets width 100, 10 samples, depth 10 and focus distance 0 |
| PerspectiveCamera.PixelSumBound | src/perspective_camera/camera.rs:234-238 | a sum of n samples has every channel in [0, n] when no material amplifies light |
| PerspectiveCamera.SamplePixel | src/perspective_camera/camera.rs:234-238 | the sample loop adds `pixel_samples` estimates to `Color::new()` |
| PerspectiveCamera.RenderRow | src/perspective_camera/camera.rs:231-241 | one row of the parallel map is that row's pixel lines, left to right |
| PerspectiveCamera.RenderImage | src/perspective_camera/camera.rs:221-271 | the output is the header, then every row's lines in row order, with one line per pixel |
| PerspectiveCamera.WriteRows | src/perspective_camera/camera.rs:266-271 | the write loop emits every line of every row, in order, after the header |
| PerspectiveCamera.Scanlines | src/perspective_camera/camera.rs:228-263 | the image has `image_height` rows, and row j is the j-th scanline |
| PerspectiveCamera.Scanline | src/perspective_camera/camera.rs:231-241 | a row has `image_width` lines, and line i is pixel i's line |
| PerspectiveCamera.Camera.constructor | src/perspective_camera/camera.rs:63-87 | `new()` sets the default settings and every derived vector to `Vec3::new()` |
| PerspectiveCamera.Camera.Initialize | src/perspective_camera/camera.rs:168-204 | the derived fields become the frame derived from the settings; the settings are not touched |
| PerspectiveCamera.Camera.Render | src/perspective_camera/camera.rs:216-274 | after initializing, the output is the header and each pixel's averaged line, in row-major order |
| CameraCamera.Derive | src/camera/camera.rs:142-177 | the definition of the frame `initialize` computes as written (no contract of its own): centre `Point3::new()`, w = unit(origin − target), v = up × w, u = w × (the previous u); `DeriveFrame` and `StaleBasis` state its properties |
| CameraCamera.DeriveFrame | src/camera/camera.rs:143-160 | `initialize` records (width, height) as the image dimensions and puts the centre at `Point3::new()` whatever `camera_origin` is, because line 150 overwrites line 146; w is a unit vector and v and u are perpendicular to it |
| CameraCamera.ImageCentred | src/camera/camera.rs:152-176 | the middle of the pixel grid lies at `center − focal_length·w`, where focal_length is \|origin − target\| |
| CameraCamera.PixelSampleSquare | src/camera/camera.rs:134-139 | the definition of `pixel_sample_square` (no contract of its own): the two unit draws shifted by −0.5 along du and dv; `GetRayAim` bounds the offset |
| CameraCamera.GetRay | src/camera/camera.rs:123-132 | the definition of `get_ray` (no contract of its own): from the centre toward the jittered pixel sample; `GetRayAim` states its properties |
| CameraCamera.GetRayAim | src/camera/camera.rs:123-139 | the ray starts at the centre and reaches the jittered pixel sample at parameter 1; the jitter is within half a step along du and dv |
| CameraCamera.StaleBasis | src/camera/camera.rs:159-168 | with u starting at zero, u = w × u stays zero, so the horizontal step is zero and every column gets the same ray |
| CameraCamera.IntendedBasis | src/camera/camera.rs:159-165 | with u = up × w and v = w × u (the two names of lines 160-161 swapped), w is a unit vector, the basis is orthogonal and right-handed (u × v = \|u\|²·w), u is horizontal (u·up = 0) and v leans up (v·up = \|u\|² ≥ 0), so `pixel_delta_u` steps right and `pixel_delta_v` down as lines 40-41 document; \|u\| = \|v\|, both zero only together; the dimensions are (width, height) and the centre is `Point3::new()` |
| CameraCamera.DefaultSettings | src/camera/camera.rs:52-72 | `new()` sets width 100, 10 samples, depth 10 and a 90-degree field of view |
| CameraCamera.SamplePixel | src/camera/camera.rs:200-204 | the sample loop adds `pixel_samples` estimates to `Color::new()` |
| CameraCamera.RenderPixel | src/camera/camera.rs:200-206 | the pixel's line is `write_color` of its summed samples |
| CameraCamera.WriteRow | src/camera/camera.rs:199-242 | the inner loop appends row j's lines, left to right |
| CameraCamera.RenderImage | src/camera/camera.rs:193-243 | the output is the header, then every pixel's line in row-major order |
| CameraCamera.Scanlines | src/camera/camera.rs:198-243 | the image has `image_height` rows, and row j is the j-th scanline |
| CameraCamera.Scanline | src/camera/camera.rs:199-242 | a row has `image_width` lines, and line i is pixel i's line |
| CameraCamera.Camera.constructor | src/camera/camera.rs:52-72 | `new()` sets the default settings and every derived vector to `Vec3::new()` |
| CameraCamera.Camera.Initialize | src/camera/camera.rs:142-177 | the derived fields become the frame derived from the settings with u = up × w and v = w × u (the corrected code, see Findings); the settings are not touched |
| CameraCamera.Camera.Render | src/camera/camera.rs:188-246 | after initializing with u = up × w and v = w × u, the output is the header and each pixel's summed-and-averaged line, in row-major order |
| Camera.LayoutHeight | src/camera.rs:86-89 | 400 pixels at 16:9 give 225 rows |
| Camera.GridValues | src/camera.rs:91-107 | for aspect a, width n and height m: steps 2a/n right and 2/m down, first pixel centre (−a + a/n, 1 − 1/m, −1), centre the origin |
| Camera.LayoutValues | src/camera.rs:85-107 | the grid `initialize` computes is 400 × 225, with steps 2/225, from (−399/225, 224/225, −1) |
| Camera.AsWritten | src/camera.rs:85-108 | the definition of the layout `initialize` stores as written (no contract of its own): the intended layout with the previous pixel steps; `FixedLayout` and `ShadowedDeltas` state its properties |
| Camera.FixedLayout | src/camera.rs:85-107 | as written, `initialize` stores the intended layout with the previous pixel steps |
| Camera.InitializedLayout | src/camera.rs:85-107 | any aspect ratio a with 9a = 16 and the width 400 give the intended layout |
| Camera.IntendedAimed | src/camera.rs:129-135 | every primary ray of the intended layout has a non-zero direction, since its pixel centres lie in the plane z = −1 |
| Camera.FlatStepsAimed | src/camera.rs:129-135 | with steps that have no depth component, every primary ray has a non-zero direction |
| Camera.IntendedGrid | src/camera.rs:100-107 | with the steps stored, pixel (i, j) is centred at ((2i + 1)/225 − 16/9, 1 − (2j + 1)/225, −1), and different pixels get different rays |
| Camera.ShadowedDeltas | src/camera.rs:100-101 | as written, the steps stay at their zero initial values, so every pixel gets the same ray and the same line |
| Camera.PrimaryRay | src/camera.rs:130-135 | the definition of the ray `render` traces for pixel (i, j) (no contract of its own): from the centre toward the pixel centre; `IntendedGrid` and `IntendedAimed` state its properties |
| Camera.RayColor | src/camera.rs:68-82 | the definition of `get_ray_color` (no contract of its own): the shading of the nearest hit on [0, +∞) or the sky; `RayColorCases` states its properties |
| Camera.ShadeInUnitCube | src/camera.rs:72 | a unit normal is shaded inside the unit cube |
| Camera.SkyAgrees | src/camera.rs:74-80 | the sky is the later cameras' gradient and lies in the unit cube |
| Camera.ScanUnitNormal | src/traceable.rs:127-137 | the record the list keeps is one an object reported, so its normal has unit length when every object reports unit normals |
| Camera.RayColorCases | src/camera.rs:68-82 | `get_ray_color` shades the nearest hit on [0, +∞) by 0.5·(normal + (1, 1, 1)) and otherwise shows the sky; with unit normals every colour is in the unit cube |
| Camera.RenderPixel | src/camera.rs:130-139 | the pixel's line is `write_color` of the colour of the ray from the centre toward the pixel centre |
| Camera.WriteRow | src/camera.rs:129-152 | the inner loop appends row j's lines, left to right |
| Camera.RenderImage | src/camera.rs:124-153 | the output is the header, then every pixel's line in row-major order |
| Camera.Scanlines | src/camera.rs:127-153 | the image has `image_height` rows, and row j is the j-th scanline |
| Camera.Scanline | src/camera.rs:129-152 | a row has `image_width` lines, and line i is pixel i's line |
| Camera.Camera.constructor | src/camera.rs:33-44 | `new()` sets every field to zero |
| Camera.Camera.Initialize | src/camera.rs:85-108 | fixes aspect 16:9 and width 400, records the dimensions, and stores the whole layout, pixel steps included (the corrected code, see Findings) |
| Camera.Camera.Place | src/camera.rs:88-107 | height, dimensions, centre, first pixel centre and pixel steps are set from the stored aspect ratio and width |
| Camera.Camera.Render | src/camera.rs:119-156 | after initializing, the camera holds the intended layout, every primary ray is aimed, and the output is the header and one line per pixel in row-major order |
| Camera.Camera.Trace | src/camera.rs:124-153 | the loops of `render`, on an initialized camera, produce the header and the row-major pixel lines of the intended layout |

## Left out

- File creation, writes, flushes, `expect` and `panic!` on I/O errors: `render` is modelled as building the text of the file.
- Progress bars and `print!`/`eprintln!` output: terminal UI only.
- The rayon fan-out and the atomic progress counter: the rows are computed one after another. Writing the collected rows in order makes the file row-major whatever order the rows finish in.
- `rand::thread_rng`: every draw is a parameter, and `MathRtMath.UnitDraw` and `MathRtMath.InRange` state the ranges of `random_number` and `random_number_in_range`.
- The random vector generators `random_unit_sphere_vector` and `random_unit_disk_point`: their values are parameters.
- PathTracing.RayColor: the materials' random draws along a path are folded into the fixed function `scatter` of the scene, so two scatters of the same material, ray and record give the same ray, while the source draws afresh on every call. The estimator is therefore one fixed sample of each bounce, not a fresh one per call.
- Exact `f64` behaviour: rounding, NaN and infinity arithmetic are not modelled. `f64::INFINITY` is the `PosInf` bound of an interval, and `PI` is its decimal value.
- Numeric.Trunc: models `as i32` on reals without the saturation of out-of-range values.
- Numeric.ToUsize: models `as usize`, with negative values saturating at 0, but without the upper saturation.
- `Display` impls and the scene construction in src/main.rs: formatting of reals and hard-coded glue.
- src/materials/material.rs declares only the `scatter` interface, which has no body. The `Arc<dyn Material>` a sphere holds is the closed datatype `MaterialsMaterial.Material` of the three implementations. The interface's signature is the shape of every `Scatter` method and of the `scatter` field of `PathTracing.Scene`, through which the cameras call a material.
- PathTracing.RayColor: the materials the scene holds are reached through that `scatter` field. The estimator is therefore not tied to the particular `Scatter` methods, which are methods and cannot be called from a function.
- The bodies of `reflect`, `refract`, `approx_zero`, `Interval::clamp`, zero-argument `Vec3::new()` and `Vec3::from`: their code is not part of this model. They are fields of `Library.Lib`, and only their stated contracts are used.
- Traceable.Traceables.Hit: each member's `hit` is a value that either writes a whole record or nothing, so a member that writes some fields and then returns false is not modelled.
- Traceable.HitRecord: the record of src/traceable.rs has no material, but src/drawable/sphere.rs calls `set_material` on it. The model adds a material field, which the constructor leaves at its default.
- src/perspective_camera/camera.rs, src/camera/camera.rs and src/drawable/sphere.rs import `crate::math::interval::Interval`, a file that is not part of this model: the interval is modelled by src/interval.rs (`Interval`), whose `Interval::new` and `surrounds` are the operations they use.
- src/drawable/sphere.rs imports the untimed ray of src/ray.rs but calls `ray.time()`: `DrawableSphere` is modelled with the timed ray of src/vectors/ray.rs.
- The perspective camera imports the untimed ray of src/ray.rs but calls a three-argument `Ray::from`: it is modelled with the timed ray of src/vectors/ray.rs.
- The materials of src/materials/ receive a timed ray but call a two-argument `Ray::from`: their scattered ray is modelled as the untimed ray of src/ray.rs.
- src/camera/camera.rs and src/perspective_camera/camera.rs import `crate::color` but call the two-argument `write_color`: they are modelled with src/vectors/color.rs.
- src/camera.rs calls a three-argument `Vec3::new(x, y, z)`, the later files a zero-argument one: the first is the literal vector, the second the field `vecNew` of `Library.Lib`.
- Vector.Vec3.Normalize, Vector.Vec3.Div, Vector.Vec3.DivScalar, Vector.ScalarOver: the zero divisor is excluded by a precondition, because f64 division by zero gives infinities or NaN that reals cannot represent.
- VectorsColor.WriteColor: requires at least one sample, because `1.0 / 0` is an f64 infinity.
- DrawableSphere.Sphere.Hit: requires a non-zero radius and direction, which the source divides by.
- Sphere.Sphere.Hit: requires a non-zero radius and direction, which the source divides by.
- MaterialsDielectric.Dielectric.Scatter: requires a non-zero incoming direction, a non-zero index when the ray faces outside, and an index other than −1, which the source divides by.
- MaterialsMetal.Metal.Scatter: requires a non-zero incoming direction, which is normalized.
- Material.Metal.Scatter: requires a non-zero incoming direction, which is normalized.
- PathTracing.RayColor: requires every ray it follows to have a non-zero direction (`Aimed`), which is normalized for the sky.
- PerspectiveCamera.Camera.Render: requires settings that `initialize` can divide and normalize by, and primary rays with non-zero directions.
- CameraCamera.Camera.Render: requires settings that `initialize` can divide and normalize by, and primary rays with non-zero directions.
- Camera.Camera.Initialize: states the aspect ratio 16/9 as `9·aspect_ratio = 16`, an equivalent form.
- Camera.Camera.Place and Camera.Camera.Trace: these split `initialize` and `render` at the point where the fixed settings are set; they are not functions of the source.
- PerspectiveCamera.Camera.Render: the defaults of `Camera::new()` have focus distance 0, so every primary ray has the zero direction (`FocusZeroDerive`). Rendering the defaults unchanged would therefore normalize a zero vector, which the model excludes.
- Facts about the literal default basis of the two later cameras (for example that the defaults can be initialized) are not stated. `PerspectiveCamera.DefaultView` states the default view symbolically.

## Findings

| source | as written | input that shows it | evidently intended | confidence | as-written member | corrected member |
|---|---|---|---|---|---|---|
| src/sphere.rs:40-47 | the larger root is bound by an inner `let root` that goes out of scope, so the record always receives the smaller root, even when only the larger one passed the range test | unit sphere at the origin, ray from the origin along +x, bounds (max 10, min 0): `hit` returns true with parameter −1 | record the root that passed the test, the nearest intersection inside the bounds | high, not executed | Sphere.ShadowedRoot | Sphere.HitIntendedIsNearest |
| src/camera.rs:100-101 | `let pixel_delta_u` and `let pixel_delta_v` are locals that shadow the fields, so the fields keep the zeros of `Camera::new()` | `Camera::new()` then `render`: every pixel gets the ray toward the first pixel centre, and the image is one colour | store the steps in `self.pixel_delta_u` and `self.pixel_delta_v` | high, not executed | Camera.ShadowedDeltas | Camera.IntendedGrid |
| src/camera/camera.rs:161 | `u = w × u` uses the previous u, which `Camera::new()` sets to `Vec3::new()` | `Camera::new()` (with `Vec3::new()` zero) then `render`: u and `pixel_delta_u` are zero, and all columns of a row get the same ray | the two names of lines 160-161 swapped, as in src/perspective_camera/camera.rs:182-183: u = up × w (horizontal, so that `pixel_delta_u` steps right as line 40 documents) and v = w × u (up), an orthogonal basis | high, not executed | CameraCamera.StaleBasis | CameraCamera.IntendedBasis |
