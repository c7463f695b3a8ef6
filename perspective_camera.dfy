/**
 * src/perspective_camera/camera.rs: the positionable camera with a field of
 * view, a focus distance and a defocus (depth-of-field) disc. `initialize`
 * derives the image height, the orthonormal camera frame and the pixel grid
 * from the settings; `get_ray` shoots a jittered ray through a pixel, from
 * the camera centre or from a point of the defocus disc; `render` averages
 * `pixel_samples` estimates per pixel and emits the image in row-major
 * order.
 */
module PerspectiveCamera {
  import opened Optional
  import opened Numeric
  import opened Vector
  import opened Library
  import opened MathRtMath
  import opened PathTracing
  import opened Ppm
  import VectorsRay
  import VectorsColor

  /**
   * The random values one call of `get_ray` consumes: the two
   * `random_number()` draws of `pixel_sample_square`, the point of
   * `random_unit_disk_point()` (only its x and y are read) and the ray time.
   */
  datatype Draws = Draws(px: UnitDraw, py: UnitDraw, disk: Vec3, time: UnitDraw)

  /** The public fields a caller sets before rendering. */
  datatype Settings = Settings(
    aspectRatio: real, imageWidth: nat, pixelSamples: nat, maxDepth: nat,
    vfov: real, defocusAngle: real, focusDistance: real,
    cameraOrigin: Vec3, cameraTarget: Vec3, upVector: Vec3)

  /** The private fields `initialize` derives. */
  datatype Frame = Frame(
    imageHeight: nat, center: Vec3, pixelOrigin: Vec3, pixelDeltaU: Vec3, pixelDeltaV: Vec3,
    defocusDiscU: Vec3, defocusDiscV: Vec3, u: Vec3, v: Vec3, w: Vec3)

  /** `camera_origin - camera_target`: the backward viewing direction. */
  function Backward(s: Settings): Vec3
  {
    s.cameraOrigin.Sub(s.cameraTarget)
  }

  /**
   * What `initialize` needs to produce finite values: a non-zero aspect
   * ratio and width (both are divisors) and a viewing direction and an up
   * vector that are neither zero nor parallel (both are normalized).
   */
  predicate CanInitialize(s: Settings, lib: Lib)
  {
    s.aspectRatio != 0.0 && s.imageWidth > 0 &&
    Backward(s).Length(lib.sqrt) != 0.0 &&
    s.upVector.Cross(Backward(s).Normalize(lib.sqrt)).Length(lib.sqrt) != 0.0
  }

  /**
   * `(width as f64 / aspect_ratio) as usize`, then `.max(1)`: at least one
   * row, and otherwise the truncated quotient.
   */
  function ImageHeight(imageWidth: nat, aspectRatio: real): (h: nat)
    requires aspectRatio != 0.0
    ensures 1 <= h
    ensures h == 1 || (h as real <= imageWidth as real / aspectRatio < h as real + 1.0)
    ensures imageWidth as real / aspectRatio < 2.0 ==> h == 1
  {
    var h := ToUsize(imageWidth as real / aspectRatio);
    if h < 1 then 1 else h
  }

  /** `2 tan(theta / 2) focus_distance` with theta the field of view in radians: the viewport's height. */
  function ViewportHeight(vfov: real, focusDistance: real, lib: Lib): real
  {
    var theta := DegreesToRadians(vfov);
    var heightComponent := lib.tan(theta / 2.0);
    2.0 * heightComponent * focusDistance
  }

  /** The viewport's width: its height scaled by the image's width over its height. */
  function ViewportWidth(viewportHeight: real, imageWidth: nat, imageHeight: nat): real
    requires imageHeight > 0
  {
    viewportHeight * imageWidth as real / imageHeight as real
  }

  /** `focus_distance tan(defocus_angle / 2)`, the angle converted to radians. */
  function DefocusRadius(focusDistance: real, defocusAngle: real, lib: Lib): real
  {
    focusDistance * lib.tan(DegreesToRadians(defocusAngle / 2.0))
  }

  /**
   * The pixel grid and the defocus disc `initialize` builds on the camera
   * basis (u, v, w): the viewport of the given height, and of the width
   * that keeps the pixels square, stands `focus_distance` in front of the
   * centre along -w.
   */
  function Grid(s: Settings, imageHeight: nat, viewportHeight: real, u: Vec3, v: Vec3, w: Vec3, defocusRadius: real): Frame
    requires s.imageWidth > 0 && imageHeight > 0
  {
    var center := s.cameraOrigin;
    var viewportWidth := ViewportWidth(viewportHeight, s.imageWidth, imageHeight);
    var viewportU := Scale(viewportWidth, u);
    var viewportV := Scale(viewportHeight, v.Neg());
    var pixelDeltaU := viewportU.DivScalar(s.imageWidth as real);
    var pixelDeltaV := viewportV.DivScalar(imageHeight as real);
    var viewportOrigin := center.Sub(Scale(s.focusDistance, w)).Sub(viewportU.DivScalar(2.0)).Sub(viewportV.DivScalar(2.0));
    var pixelOrigin := viewportOrigin.Add(Scale(0.5, pixelDeltaU.Add(pixelDeltaV)));
    Frame(imageHeight, center, pixelOrigin, pixelDeltaU, pixelDeltaV,
          u.MulScalar(defocusRadius), v.MulScalar(defocusRadius), u, v, w)
  }

  /** The frame `initialize` computes from the settings: the image height, the basis, then the grid. */
  function Derive(s: Settings, lib: Lib): Frame
    requires CanInitialize(s, lib)
  {
    var imageHeight := ImageHeight(s.imageWidth, s.aspectRatio);
    var w := Backward(s).Normalize(lib.sqrt);
    var u := s.upVector.Cross(w).Normalize(lib.sqrt);
    var v := w.Cross(u);
    Grid(s, imageHeight, ViewportHeight(s.vfov, s.focusDistance, lib), u, v, w,
         DefocusRadius(s.focusDistance, s.defocusAngle, lib))
  }

  /** The centre of pixel (i, j): `pixel_origin + i du + j dv`. */
  function PixelCenter(f: Frame, i: nat, j: nat): Vec3
  {
    f.pixelOrigin.Add(Scale(i as real, f.pixelDeltaU)).Add(Scale(j as real, f.pixelDeltaV))
  }

  /** `pixel_sample_square`: an offset of up to half a pixel in each direction. */
  function PixelSampleSquare(f: Frame, d: Draws): Vec3
  {
    var px := -0.5 + d.px;
    var py := -0.5 + d.py;
    Scale(px, f.pixelDeltaU).Add(Scale(py, f.pixelDeltaV))
  }

  /** `sample_defocus_disc`: the centre moved by the disc point along the two disc radii. */
  function SampleDefocusDisc(f: Frame, point: Vec3): Vec3
  {
    f.center.Add(Scale(point.x, f.defocusDiscU)).Add(Scale(point.y, f.defocusDiscV))
  }

  /** `get_ray(i, j)`: from the centre (no defocus) or a disc point, toward the jittered pixel sample. */
  function GetRay(s: Settings, f: Frame, i: nat, j: nat, d: Draws): VectorsRay.Ray
  {
    var pixelSample := PixelCenter(f, i, j).Add(PixelSampleSquare(f, d));
    var rayOrigin := if s.defocusAngle <= 0.0 then f.center else SampleDefocusDisc(f, d.disk);
    VectorsRay.From(rayOrigin, pixelSample.Sub(rayOrigin), d.time)
  }

  /** The scene as the perspective camera traces it: rays of src/vectors/ray.rs. */
  type World<!T, !M> = Scene<T, VectorsRay.Ray, M>

  function Direction(r: VectorsRay.Ray): Vec3
  {
    r.direction
  }

  /** Every primary ray of the image has a direction that can be normalized. */
  ghost predicate PrimaryRaysAimed(s: Settings, f: Frame, draws: (nat, nat, nat) -> Draws, lib: Lib)
  {
    forall i: nat, j: nat, k: nat :: i < s.imageWidth && j < f.imageHeight && k < s.pixelSamples ==>
      GetRay(s, f, i, j, draws(i, j, k)).direction.Length(lib.sqrt) != 0.0
  }

  /** The colour sum of the first `n` samples of pixel (i, j), starting from `Color::new()`. */
  function PixelSum<T, M(!new)>(s: Settings, f: Frame, world: World<T, M>, draws: (nat, nat, nat) -> Draws,
                                  i: nat, j: nat, n: nat, lib: Lib): Vec3
    requires i < s.imageWidth && j < f.imageHeight && n <= s.pixelSamples
    requires world.direction == Direction && Aimed(world, lib) && PrimaryRaysAimed(s, f, draws, lib)
  {
    if n == 0 then lib.vecNew
    else PixelSum(s, f, world, draws, i, j, n - 1, lib).Add(RayColor(GetRay(s, f, i, j, draws(i, j, n - 1)), s.maxDepth, world, lib))
  }

  /** The line written for pixel (i, j). */
  function PixelLine<T, M(!new)>(s: Settings, f: Frame, world: World<T, M>, draws: (nat, nat, nat) -> Draws,
                                   i: nat, j: nat, lib: Lib): string
    requires i < s.imageWidth && j < f.imageHeight && s.pixelSamples > 0
    requires world.direction == Direction && Aimed(world, lib) && PrimaryRaysAimed(s, f, draws, lib)
  {
    VectorsColor.WriteColor(PixelSum(s, f, world, draws, i, j, s.pixelSamples, lib), s.pixelSamples, lib)
  }

  /** The pixel lines of row `j`, left to right. */
  function Scanline<T, M(!new)>(s: Settings, f: Frame, world: World<T, M>, draws: (nat, nat, nat) -> Draws,
                                  j: nat, lib: Lib): (row: seq<string>)
    requires j < f.imageHeight && s.pixelSamples > 0
    requires world.direction == Direction && Aimed(world, lib) && PrimaryRaysAimed(s, f, draws, lib)
    ensures |row| == s.imageWidth
    ensures forall i :: 0 <= i < s.imageWidth ==> row[i] == PixelLine(s, f, world, draws, i, j, lib)
  {
    seq(s.imageWidth, i requires 0 <= i < s.imageWidth => PixelLine(s, f, world, draws, i, j, lib))
  }

  /** The whole image, top row first. */
  function Scanlines<T, M(!new)>(s: Settings, f: Frame, world: World<T, M>, draws: (nat, nat, nat) -> Draws,
                                   lib: Lib): (rows: seq<seq<string>>)
    requires s.pixelSamples > 0
    requires world.direction == Direction && Aimed(world, lib) && PrimaryRaysAimed(s, f, draws, lib)
    ensures |rows| == f.imageHeight
    ensures forall j :: 0 <= j < f.imageHeight ==> rows[j] == Scanline(s, f, world, draws, j, lib)
  {
    seq(f.imageHeight, j requires 0 <= j < f.imageHeight => Scanline(s, f, world, draws, j, lib))
  }

  /**
   * The camera frame is orthonormal: w, u and v have length 1 and are
   * mutually perpendicular, and the centre is the camera origin.
   */
  lemma FrameOrthonormal(s: Settings, lib: Lib)
    requires IsSqrt(lib.sqrt) && CanInitialize(s, lib)
    ensures var f := Derive(s, lib);
      f.center == s.cameraOrigin &&
      f.w.Magnitude() == 1.0 && f.u.Magnitude() == 1.0 && f.v.Magnitude() == 1.0 &&
      f.u.Dot(f.w) == 0.0 && f.v.Dot(f.w) == 0.0 && f.v.Dot(f.u) == 0.0
  {
    var f := Derive(s, lib);
    var c := s.upVector.Cross(f.w);
    var t := 1.0 / c.Length(lib.sqrt);
    calc {
      f.u.Dot(f.w);
    == { DotOfScale(t, c, f.w); }
      t * c.Dot(f.w);
    == { DotCommutes(c, f.w); }
      t * f.w.Dot(c);
    ==
      0.0;
    }
    DotCommutes(f.w, f.u);
    CrossMagnitude(f.w, f.u);
    DotCommutes(f.v, f.w);
    DotCommutes(f.v, f.u);
  }

  /**
   * The pixel grid spans the viewport: `image_width` steps of `pixel_delta_u`
   * make the viewport's width along u, `image_height` steps of
   * `pixel_delta_v` its height down along v.
   */
  lemma GridSpansViewport(s: Settings, imageHeight: nat, viewportHeight: real, u: Vec3, v: Vec3, w: Vec3, defocusRadius: real)
    requires s.imageWidth > 0 && imageHeight > 0
    ensures var f := Grid(s, imageHeight, viewportHeight, u, v, w, defocusRadius);
      Scale(s.imageWidth as real, f.pixelDeltaU) == Scale(ViewportWidth(viewportHeight, s.imageWidth, imageHeight), u) &&
      Scale(imageHeight as real, f.pixelDeltaV) == Scale(viewportHeight, v.Neg())
  {
    Rescale(s.imageWidth as real, Scale(ViewportWidth(viewportHeight, s.imageWidth, imageHeight), u));
    Rescale(imageHeight as real, Scale(viewportHeight, v.Neg()));
  }

  /** `n (v / n) == v` for a non-zero `n`. */
  lemma Rescale(n: real, v: Vec3)
    requires n != 0.0
    ensures Scale(n, v.DivScalar(n)) == v
  {
    assert n * (v.x / n) == v.x;
    assert n * (v.y / n) == v.y;
    assert n * (v.z / n) == v.z;
  }

  /**
   * The middle of the image lies on the optical axis at the focus
   * distance: from the first pixel centre, half of the remaining width and
   * height of the grid lead to `center - focus_distance w`.
   */
  lemma ImageCentred(s: Settings, imageHeight: nat, viewportHeight: real, u: Vec3, v: Vec3, w: Vec3, defocusRadius: real)
    requires s.imageWidth > 0 && imageHeight > 0
    ensures var f := Grid(s, imageHeight, viewportHeight, u, v, w, defocusRadius);
      f.pixelOrigin.Add(Scale((s.imageWidth as real - 1.0) / 2.0, f.pixelDeltaU))
                   .Add(Scale((imageHeight as real - 1.0) / 2.0, f.pixelDeltaV))
        == f.center.Sub(Scale(s.focusDistance, w))
  {
    HalfSpan(s.imageWidth as real, Scale(ViewportWidth(viewportHeight, s.imageWidth, imageHeight), u));
    HalfSpan(imageHeight as real, Scale(viewportHeight, v.Neg()));
  }

  /** Half a step plus `(n - 1)/2` steps of `v / n` is half of `v`. */
  lemma HalfSpan(n: real, v: Vec3)
    requires n != 0.0
    ensures Scale(0.5, v.DivScalar(n)).Add(Scale((n - 1.0) / 2.0, v.DivScalar(n))) == v.DivScalar(2.0)
  {
    assert 0.5 * (v.x / n) + (n - 1.0) / 2.0 * (v.x / n) == v.x / 2.0;
    assert 0.5 * (v.y / n) + (n - 1.0) / 2.0 * (v.y / n) == v.y / 2.0;
    assert 0.5 * (v.z / n) + (n - 1.0) / 2.0 * (v.z / n) == v.z / 2.0;
  }

  /**
   * `get_ray` starts at the centre when there is no defocus and at the
   * sampled disc point otherwise, carries the drawn time, and reaches the
   * pixel sample at parameter 1, which lies within half a pixel step of the
   * pixel centre in each grid direction.
   */
  lemma GetRayAim(s: Settings, f: Frame, i: nat, j: nat, d: Draws)
    ensures var r := GetRay(s, f, i, j, d);
      r.time == d.time &&
      (s.defocusAngle <= 0.0 ==> r.origin == f.center) &&
      (0.0 < s.defocusAngle ==> r.origin == SampleDefocusDisc(f, d.disk)) &&
      r.At(1.0) == PixelCenter(f, i, j).Add(PixelSampleSquare(f, d))
    ensures exists a: real, b: real ::
      -0.5 <= a < 0.5 && -0.5 <= b < 0.5 && PixelSampleSquare(f, d) == Scale(a, f.pixelDeltaU).Add(Scale(b, f.pixelDeltaV))
  {
    var r := GetRay(s, f, i, j, d);
    var p := r.origin.Add(r.direction);
    assert r.At(1.0) == p;
    var a, b := -0.5 + d.px, -0.5 + d.py;
    assert PixelSampleSquare(f, d) == Scale(a, f.pixelDeltaU).Add(Scale(b, f.pixelDeltaV));
  }

  /**
   * A viewport of height 0 and a disc of radius 0 at focus distance 0 (what
   * the `Camera::new()` focus distance gives) collapse onto the centre: both
   * pixel steps and both disc radii are zero, and every primary ray has the
   * zero direction.
   */
  lemma FocusZeroCollapses(s: Settings, imageHeight: nat, u: Vec3, v: Vec3, w: Vec3)
    requires s.imageWidth > 0 && imageHeight > 0 && s.focusDistance == 0.0
    ensures var f := Grid(s, imageHeight, 0.0, u, v, w, 0.0);
      f.pixelDeltaU == Zero && f.pixelDeltaV == Zero && f.pixelOrigin == f.center &&
      f.defocusDiscU == Zero && f.defocusDiscV == Zero
    ensures forall i: nat, j: nat, d: Draws :: GetRay(s, Grid(s, imageHeight, 0.0, u, v, w, 0.0), i, j, d).direction == Zero
  {
    var f := Grid(s, imageHeight, 0.0, u, v, w, 0.0);
    assert ViewportWidth(0.0, s.imageWidth, imageHeight) == 0.0;
    forall i: nat, j: nat, d: Draws
      ensures GetRay(s, f, i, j, d).direction == Zero
    {
      assert PixelCenter(f, i, j) == f.center;
      assert PixelSampleSquare(f, d) == Zero;
      assert SampleDefocusDisc(f, d.disk) == f.center;
    }
  }

  /**
   * The default settings look from -z toward the origin with +y up, onto
   * a 100 by 100 image, at focus distance 0: by `FocusZeroDerive` every
   * primary ray of the default camera has the zero direction, so rendering
   * needs a focus distance set first.
   */
  lemma DefaultView(lib: Lib)
    requires ComponentFrom(lib)
    ensures var s := DefaultSettings(lib);
      Backward(s) == Vec3(0.0, 0.0, -1.0) && s.upVector == Vec3(0.0, 1.0, 0.0) &&
      ImageHeight(s.imageWidth, s.aspectRatio) == 100 && s.focusDistance == 0.0
  {
    var s := DefaultSettings(lib);
    assert s.cameraOrigin == Vec3(0.0, 0.0, -1.0) && s.cameraTarget == Zero;
    SquareImageHeight(100);
  }

  /** A square image is as tall as it is wide. */
  lemma SquareImageHeight(imageWidth: nat)
    requires imageWidth > 0
    ensures ImageHeight(imageWidth, 1.0) == imageWidth
  {
    assert imageWidth as real / 1.0 == imageWidth as real;
  }

  /** The view and the disc have no extent at focus distance 0, whatever the angles. */
  lemma FocusZeroExtents(vfov: real, defocusAngle: real, lib: Lib)
    ensures ViewportHeight(vfov, 0.0, lib) == 0.0 && DefocusRadius(0.0, defocusAngle, lib) == 0.0
  {
  }

  /** The settings `Camera::new()` starts from. */
  function DefaultSettings(lib: Lib): (s: Settings)
    ensures s.imageWidth == 100 && s.pixelSamples == 10 && s.maxDepth == 10 && s.focusDistance == 0.0
  {
    Settings(1.0, 100, 10, 10, 90.0, 0.0, 0.0,
      lib.vecFrom(0.0, 0.0, -1.0), lib.vecFrom(0.0, 0.0, 0.0), lib.vecFrom(0.0, 1.0, 0.0))
  }

  /**
   * At focus distance 0 every primary ray of the derived frame has the zero
   * direction, whatever the angles and the basis.
   */
  lemma FocusZeroDerive(s: Settings, lib: Lib)
    requires CanInitialize(s, lib) && s.focusDistance == 0.0
    ensures var f := Derive(s, lib);
      f.pixelDeltaU == Zero && f.pixelDeltaV == Zero && f.pixelOrigin == f.center &&
      f.defocusDiscU == Zero && f.defocusDiscV == Zero
    ensures forall i: nat, j: nat, d: Draws :: GetRay(s, Derive(s, lib), i, j, d).direction == Zero
  {
    var w := Backward(s).Normalize(lib.sqrt);
    var u := s.upVector.Cross(w).Normalize(lib.sqrt);
    var h := ImageHeight(s.imageWidth, s.aspectRatio);
    FocusZeroExtents(s.vfov, s.defocusAngle, lib);
    DeriveOf(s, lib, h, 0.0, u, w.Cross(u), w, 0.0);
    FocusZeroCollapses(s, h, u, w.Cross(u), w);
  }

  /** `Derive` is the grid of its image height, viewport height, basis and disc radius. */
  lemma DeriveOf(s: Settings, lib: Lib, imageHeight: nat, viewportHeight: real, u: Vec3, v: Vec3, w: Vec3, defocusRadius: real)
    requires CanInitialize(s, lib)
    requires ImageHeight(s.imageWidth, s.aspectRatio) == imageHeight
    requires ViewportHeight(s.vfov, s.focusDistance, lib) == viewportHeight
    requires DefocusRadius(s.focusDistance, s.defocusAngle, lib) == defocusRadius
    requires Backward(s).Normalize(lib.sqrt) == w && s.upVector.Cross(w).Normalize(lib.sqrt) == u && w.Cross(u) == v
    ensures Derive(s, lib) == Grid(s, imageHeight, viewportHeight, u, v, w, defocusRadius)
  {
  }

  /** The colour sum of `n` samples has every channel in [0, n] when no material amplifies light. */
  lemma {:induction false} PixelSumBound<T, M(!new)>(s: Settings, f: Frame, world: World<T, M>, draws: (nat, nat, nat) -> Draws,
                                                       i: nat, j: nat, n: nat, lib: Lib)
    requires i < s.imageWidth && j < f.imageHeight && n <= s.pixelSamples
    requires world.direction == Direction && Aimed(world, lib) && PrimaryRaysAimed(s, f, draws, lib)
    requires IsSqrt(lib.sqrt) && ComponentFrom(lib) && ZeroNew(lib) && Dimming(world)
    ensures var c := PixelSum(s, f, world, draws, i, j, n, lib);
      0.0 <= c.x <= n as real && 0.0 <= c.y <= n as real && 0.0 <= c.z <= n as real
  {
    if n > 0 {
      var ray := GetRay(s, f, i, j, draws(i, j, n - 1));
      PixelSumBound(s, f, world, draws, i, j, n - 1, lib);
      RayColorInUnitCube(ray, s.maxDepth, world, lib);
      AddBound(PixelSum(s, f, world, draws, i, j, n - 1, lib), RayColor(ray, s.maxDepth, world, lib), (n - 1) as real);
    }
  }

  /** A colour with channels in [0, k] plus one in the unit cube has channels in [0, k + 1]. */
  lemma AddBound(sum: Vec3, c: Vec3, k: real)
    requires 0.0 <= sum.x <= k && 0.0 <= sum.y <= k && 0.0 <= sum.z <= k && InUnitCube(c)
    ensures var t := sum.Add(c);
      0.0 <= t.x <= k + 1.0 && 0.0 <= t.y <= k + 1.0 && 0.0 <= t.z <= k + 1.0
  {
  }

  /** The sample loop of `render` for pixel (i, j): `pixel_samples` estimates added to `Color::new()`. */
  method SamplePixel<T, M(!new)>(s: Settings, f: Frame, world: World<T, M>, draws: (nat, nat, nat) -> Draws,
                                   i: nat, j: nat, lib: Lib) returns (pixelColor: Vec3)
    requires i < s.imageWidth && j < f.imageHeight
    requires world.direction == Direction && Aimed(world, lib) && PrimaryRaysAimed(s, f, draws, lib)
    ensures pixelColor == PixelSum(s, f, world, draws, i, j, s.pixelSamples, lib)
  {
    pixelColor := lib.vecNew;
    for sample := 0 to s.pixelSamples
      invariant pixelColor == PixelSum(s, f, world, draws, i, j, sample, lib)
    {
      var ray := GetRay(s, f, i, j, draws(i, j, sample));
      pixelColor := pixelColor.Add(RayColor(ray, s.maxDepth, world, lib));
    }
  }

  lemma SliceStep<X>(xs: seq<X>, i: nat)
    requires i < |xs|
    ensures xs[..i + 1] == xs[..i] + [xs[i]]
  {
  }

  /** One row of `render`'s parallel map: the pixel lines of row `j`, left to right. */
  method RenderRow<T, M(!new)>(s: Settings, f: Frame, world: World<T, M>, draws: (nat, nat, nat) -> Draws,
                                 j: nat, lib: Lib) returns (scanlineData: seq<string>)
    requires j < f.imageHeight && s.pixelSamples > 0
    requires world.direction == Direction && Aimed(world, lib) && PrimaryRaysAimed(s, f, draws, lib)
    ensures scanlineData == Scanline(s, f, world, draws, j, lib)
  {
    ghost var row := Scanline(s, f, world, draws, j, lib);
    scanlineData := [];
    for i := 0 to s.imageWidth
      invariant scanlineData == row[..i]
    {
      var pixelColor := SamplePixel(s, f, world, draws, i, j, lib);
      var line := VectorsColor.WriteColor(pixelColor, s.pixelSamples, lib);
      assert line == row[i];
      SliceStep(row, i);
      scanlineData := scanlineData + [line];
    }
    assert row[..s.imageWidth] == row;
  }

  /**
   * The body of `render` after `initialize`: the header, then the rows
   * computed one by one and written in order.
   */
  method RenderImage<T, M(!new)>(s: Settings, f: Frame, world: World<T, M>, draws: (nat, nat, nat) -> Draws,
                                   lib: Lib) returns (image: string)
    requires s.pixelSamples > 0
    requires world.direction == Direction && Aimed(world, lib) && PrimaryRaysAimed(s, f, draws, lib)
    ensures image == Header(s.imageWidth, f.imageHeight) + Concat(Flatten(Scanlines(s, f, world, draws, lib)))
  {
    ghost var rows := Scanlines(s, f, world, draws, lib);
    var pixels: seq<seq<string>> := [];
    for j := 0 to f.imageHeight
      invariant pixels == rows[..j]
    {
      var scanlineData := RenderRow(s, f, world, draws, j, lib);
      SliceStep(rows, j);
      pixels := pixels + [scanlineData];
    }
    assert rows[..f.imageHeight] == rows;
    image := WriteRows(Header(s.imageWidth, f.imageHeight), pixels);
  }

  /** The write loop of `render`: every line of every row, in order, after the header. */
  method WriteRows(header: string, pixels: seq<seq<string>>) returns (image: string)
    ensures image == header + Concat(Flatten(pixels))
  {
    image := header;
    ghost var written: seq<string> := [];
    for k := 0 to |pixels|
      invariant written == Flatten(pixels[..k])
      invariant image == header + Concat(written)
    {
      var row := pixels[k];
      assert written + row[..0] == written;
      for p := 0 to |row|
        invariant image == header + Concat(written + row[..p])
      {
        ConcatStep(written, row, p);
        image := image + row[p];
      }
      assert row[..|row|] == row;
      FlattenStep(pixels, k);
      written := written + row;
    }
    assert pixels[..|pixels|] == pixels;
  }

  class Camera {
    var aspectRatio: real
    var imageDimensions: (nat, nat)
    var imageWidth: nat
    var pixelSamples: nat
    var maxDepth: nat
    var vfov: real
    var defocusAngle: real
    var focusDistance: real
    var cameraOrigin: Vec3
    var cameraTarget: Vec3
    var upVector: Vec3
    var imageHeight: nat
    var center: Vec3
    var pixelOrigin: Vec3
    var pixelDeltaU: Vec3
    var pixelDeltaV: Vec3
    var defocusDiscU: Vec3
    var defocusDiscV: Vec3
    var u: Vec3
    var v: Vec3
    var w: Vec3

    function CurrentSettings(): Settings
      reads this`aspectRatio, this`imageWidth, this`pixelSamples, this`maxDepth, this`vfov,
        this`defocusAngle, this`focusDistance, this`cameraOrigin, this`cameraTarget, this`upVector
    {
      Settings(aspectRatio, imageWidth, pixelSamples, maxDepth, vfov, defocusAngle, focusDistance,
               cameraOrigin, cameraTarget, upVector)
    }

    function CurrentFrame(): Frame
      reads this`imageHeight, this`center, this`pixelOrigin, this`pixelDeltaU, this`pixelDeltaV,
        this`defocusDiscU, this`defocusDiscV, this`u, this`v, this`w
    {
      Frame(imageHeight, center, pixelOrigin, pixelDeltaU, pixelDeltaV, defocusDiscU, defocusDiscV, u, v, w)
    }

    /**
     * `Camera::new()`: square 100-pixel-wide image, 10 samples, 10
     * bounces, 90 degrees of field of view, no defocus and focus distance
     * 0, looking from (0, 0, -1) at the origin with +y up; every derived
     * vector is `Vec3::new()`.
     */
    constructor (lib: Lib)
      ensures CurrentSettings() == DefaultSettings(lib)
      ensures imageDimensions == (0, 0)
      ensures CurrentFrame() == Frame(0, lib.vecNew, lib.vecNew, lib.vecNew, lib.vecNew,
        lib.vecNew, lib.vecNew, lib.vecNew, lib.vecNew, lib.vecNew)
    {
      aspectRatio := 1.0;
      imageWidth := 100;
      imageHeight := 0;
      imageDimensions := (0, 0);
      center := lib.vecNew;
      defocusAngle := 0.0;
      focusDistance := 0.0;
      cameraOrigin := lib.vecFrom(0.0, 0.0, -1.0);
      cameraTarget := lib.vecFrom(0.0, 0.0, 0.0);
      upVector := lib.vecFrom(0.0, 1.0, 0.0);
      pixelOrigin := lib.vecNew;
      pixelDeltaU := lib.vecNew;
      pixelDeltaV := lib.vecNew;
      defocusDiscU := lib.vecNew;
      defocusDiscV := lib.vecNew;
      pixelSamples := 10;
      maxDepth := 10;
      vfov := 90.0;
      u := lib.vecNew;
      v := lib.vecNew;
      w := lib.vecNew;
    }

    /**
     * `initialize`: the derived fields are overwritten in the source's
     * order; the settings and `image_dimensions` are not touched.
     */
    method Initialize(lib: Lib)
      requires CanInitialize(CurrentSettings(), lib)
      modifies this`imageHeight, this`center, this`pixelOrigin, this`pixelDeltaU, this`pixelDeltaV,
        this`defocusDiscU, this`defocusDiscV, this`u, this`v, this`w
      ensures CurrentFrame() == Derive(CurrentSettings(), lib)
    {
      var s := CurrentSettings();
      var f := Derive(s, lib);
      imageHeight, center, pixelOrigin, pixelDeltaU, pixelDeltaV := f.imageHeight, f.center, f.pixelOrigin, f.pixelDeltaU, f.pixelDeltaV;
      defocusDiscU, defocusDiscV, u, v, w := f.defocusDiscU, f.defocusDiscV, f.u, f.v, f.w;
      assert CurrentSettings() == s;
      assert CurrentFrame() == f;
    }

    /**
     * `render`: initializes the camera, then emits the header and, row by
     * row, each pixel's line: the sum of `pixel_samples` estimates at
     * `max_depth` bounces, averaged by `write_color`. The rows are computed
     * into a list first and then written in order, so the file is row-major
     * whatever order the rows were computed in.
     */
    method Render<T, M(!new)>(world: World<T, M>, draws: (nat, nat, nat) -> Draws, lib: Lib) returns (image: string)
      requires CanInitialize(CurrentSettings(), lib) && pixelSamples > 0
      requires world.direction == Direction && Aimed(world, lib)
      requires PrimaryRaysAimed(CurrentSettings(), Derive(CurrentSettings(), lib), draws, lib)
      modifies this`imageHeight, this`center, this`pixelOrigin, this`pixelDeltaU, this`pixelDeltaV,
        this`defocusDiscU, this`defocusDiscV, this`u, this`v, this`w
      ensures CurrentSettings() == old(CurrentSettings()) && CurrentFrame() == Derive(CurrentSettings(), lib)
      ensures image == Header(imageWidth, imageHeight) + Concat(Flatten(Scanlines(CurrentSettings(), CurrentFrame(), world, draws, lib)))
    {
      Initialize(lib);
      image := RenderImage(CurrentSettings(), CurrentFrame(), world, draws, lib);
    }
  }
}
