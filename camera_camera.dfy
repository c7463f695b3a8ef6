/**
 * src/camera/camera.rs: the positionable camera with a field of view but no
 * defocus disc. `initialize` derives the image height, the camera basis and
 * the pixel grid; `get_ray` shoots a jittered ray from the camera centre
 * through a pixel; `render` sums `pixel_samples` estimates per pixel and
 * writes every pixel line as soon as it is computed.
 *
 * The centre is reset to `Point3::new()` after being set to the camera
 * origin, as written. The basis vector u is, as written, the cross product
 * of w with the previous value of u: `Derive` is that frame and
 * `StaleBasis` what it does to a new camera. The class computes instead
 * the frame `DeriveIntended` that the code evidently means: u is the
 * horizontal direction up x w (the step "to the next pixel to the right"
 * scales u) and v = w x u the upward one, with the two names of the
 * written lines swapped, as the perspective camera has them
 * (`IntendedBasis`).
 */
module CameraCamera {
  import opened Numeric
  import opened Vector
  import opened Library
  import opened MathRtMath
  import opened PathTracing
  import opened Ppm
  import PerspectiveCamera
  import Ray
  import VectorsColor

  /** The two `random_number()` draws one call of `pixel_sample_square` consumes. */
  datatype Draws = Draws(px: UnitDraw, py: UnitDraw)

  /** The public fields a caller sets before rendering. */
  datatype Settings = Settings(
    aspectRatio: real, imageWidth: nat, pixelSamples: nat, maxDepth: nat, vfov: real,
    cameraOrigin: Vec3, cameraTarget: Vec3, upVector: Vec3)

  /** The fields `initialize` derives. */
  datatype Frame = Frame(
    imageHeight: nat, imageDimensions: (nat, nat), center: Vec3, pixelOrigin: Vec3,
    pixelDeltaU: Vec3, pixelDeltaV: Vec3, u: Vec3, v: Vec3, w: Vec3)

  /** `camera_origin - camera_target`: the backward viewing direction, whose length is the focal length. */
  function Backward(s: Settings): Vec3
  {
    s.cameraOrigin.Sub(s.cameraTarget)
  }

  /**
   * What `initialize` needs to produce finite values: a non-zero aspect
   * ratio and width (both are divisors) and a viewing direction that is not
   * zero (it is normalized).
   */
  predicate CanInitialize(s: Settings, lib: Lib)
  {
    s.aspectRatio != 0.0 && s.imageWidth > 0 && Backward(s).Length(lib.sqrt) != 0.0
  }

  /**
   * The pixel grid on a basis (u, v, w): a viewport of the given height and
   * width (here the height times the aspect ratio) stands `focal_length` in
   * front of the centre along -w, and the first pixel centre is half a step
   * into it in each direction.
   */
  function Grid(s: Settings, imageHeight: nat, focalLength: real, viewportHeight: real,
                center: Vec3, u: Vec3, v: Vec3, w: Vec3): Frame
    requires s.imageWidth > 0 && imageHeight > 0
  {
    var viewportWidth := viewportHeight * s.aspectRatio;
    var viewportU := Scale(viewportWidth, u);
    var viewportV := Scale(viewportHeight, v.Neg());
    var pixelDeltaU := viewportU.DivScalar(s.imageWidth as real);
    var pixelDeltaV := viewportV.DivScalar(imageHeight as real);
    var viewportOrigin := center.Sub(Scale(focalLength, w)).Sub(viewportU.DivScalar(2.0)).Sub(viewportV.DivScalar(2.0));
    var pixelOrigin := viewportOrigin.Add(Scale(0.5, pixelDeltaU)).Add(Scale(0.5, pixelDeltaV));
    Frame(imageHeight, (s.imageWidth, imageHeight), center, pixelOrigin, pixelDeltaU, pixelDeltaV, u, v, w)
  }

  /** `(camera_origin - camera_target).length()`. */
  function FocalLength(s: Settings, lib: Lib): real
  {
    Backward(s).Length(lib.sqrt)
  }

  /** `(camera_origin - camera_target).normalize()`: the basis vector w. */
  function BackwardUnit(s: Settings, lib: Lib): Vec3
    requires Backward(s).Length(lib.sqrt) != 0.0
  {
    Backward(s).Normalize(lib.sqrt)
  }

  /** `2 tan(theta / 2) focal_length`, theta the field of view in radians. */
  function ViewportHeight(s: Settings, lib: Lib): real
  {
    PerspectiveCamera.ViewportHeight(s.vfov, FocalLength(s, lib), lib)
  }

  /**
   * The frame `initialize` computes, as written: the centre is
   * `Point3::new()`, w is the unit backward direction, v = up x w, and
   * u = w x (the u the camera had before).
   */
  function Derive(s: Settings, oldU: Vec3, lib: Lib): Frame
    requires CanInitialize(s, lib)
  {
    Grid(s, PerspectiveCamera.ImageHeight(s.imageWidth, s.aspectRatio), FocalLength(s, lib),
         ViewportHeight(s, lib), lib.vecNew,
         BackwardUnit(s, lib).Cross(oldU), s.upVector.Cross(BackwardUnit(s, lib)), BackwardUnit(s, lib))
  }

  /**
   * The frame with the evidently intended basis: u = up x w, pointing to
   * the right of the view, and v = w x u, pointing up.
   */
  function DeriveIntended(s: Settings, lib: Lib): Frame
    requires CanInitialize(s, lib)
  {
    var w := BackwardUnit(s, lib);
    var u := s.upVector.Cross(w);
    Grid(s, PerspectiveCamera.ImageHeight(s.imageWidth, s.aspectRatio), FocalLength(s, lib),
         ViewportHeight(s, lib), lib.vecNew, u, w.Cross(u), w)
  }

  /** The centre of pixel (i, j): `pixel_origin + i du + j dv`. */
  function PixelCenter(f: Frame, i: nat, j: nat): Vec3
  {
    f.pixelOrigin.Add(Scale(i as real, f.pixelDeltaU)).Add(Scale(j as real, f.pixelDeltaV))
  }

  /** `pixel_sample_square`: an offset of up to half a pixel in each direction. */
  function PixelSampleSquare(f: Frame, d: Draws): Vec3
  {
    var px := -0.5 + d.px;
    var py := -0.5 + d.py;
    Scale(px, f.pixelDeltaU).Add(Scale(py, f.pixelDeltaV))
  }

  /** `get_ray(i, j)`: from the centre toward the jittered pixel sample. */
  function GetRay(f: Frame, i: nat, j: nat, d: Draws): Ray.Ray
  {
    var pixelSample := PixelCenter(f, i, j).Add(PixelSampleSquare(f, d));
    Ray.Ray(f.center, pixelSample.Sub(f.center))
  }

  /** The scene as this camera traces it: rays of src/ray.rs. */
  type World<!T, !M> = Scene<T, Ray.Ray, M>

  function Direction(r: Ray.Ray): Vec3
  {
    r.direction
  }

  /** Every primary ray of the image has a direction that can be normalized. */
  ghost predicate PrimaryRaysAimed(s: Settings, f: Frame, draws: (nat, nat, nat) -> Draws, lib: Lib)
  {
    forall i: nat, j: nat, k: nat :: i < s.imageWidth && j < f.imageHeight && k < s.pixelSamples ==>
      GetRay(f, i, j, draws(i, j, k)).direction.Length(lib.sqrt) != 0.0
  }

  /** The colour sum of the first `n` samples of pixel (i, j), starting from `Color::new()`. */
  function PixelSum<T, M(!new)>(s: Settings, f: Frame, world: World<T, M>, draws: (nat, nat, nat) -> Draws,
                                  i: nat, j: nat, n: nat, lib: Lib): Vec3
    requires i < s.imageWidth && j < f.imageHeight && n <= s.pixelSamples
    requires world.direction == Direction && Aimed(world, lib) && PrimaryRaysAimed(s, f, draws, lib)
  {
    if n == 0 then lib.vecNew
    else PixelSum(s, f, world, draws, i, j, n - 1, lib).Add(RayColor(GetRay(f, i, j, draws(i, j, n - 1)), s.maxDepth, world, lib))
  }

  /** The line written for pixel (i, j). */
  function PixelLine<T, M(!new)>(s: Settings, f: Frame, world: World<T, M>, draws: (nat, nat, nat) -> Draws,
                                   i: nat, j: nat, lib: Lib): string
    requires i < s.imageWidth && j < f.imageHeight && s.pixelSamples > 0
    requires world.direction == Direction && Aimed(world, lib) && PrimaryRaysAimed(s, f, draws, lib)
  {
    VectorsColor.WriteColor(PixelSum(s, f, world, draws, i, j, s.pixelSamples, lib), s.pixelSamples, lib)
  }

  /** The pixel lines of row `j`, left to right. */
  function Scanline<T, M(!new)>(s: Settings, f: Frame, world: World<T, M>, draws: (nat, nat, nat) -> Draws,
                                  j: nat, lib: Lib): (row: seq<string>)
    requires j < f.imageHeight && s.pixelSamples > 0
    requires world.direction == Direction && Aimed(world, lib) && PrimaryRaysAimed(s, f, draws, lib)
    ensures |row| == s.imageWidth
    ensures forall i :: 0 <= i < s.imageWidth ==> row[i] == PixelLine(s, f, world, draws, i, j, lib)
  {
    seq(s.imageWidth, i requires 0 <= i < s.imageWidth => PixelLine(s, f, world, draws, i, j, lib))
  }

  /** The whole image, top row first. */
  function Scanlines<T, M(!new)>(s: Settings, f: Frame, world: World<T, M>, draws: (nat, nat, nat) -> Draws,
                                   lib: Lib): (rows: seq<seq<string>>)
    requires s.pixelSamples > 0
    requires world.direction == Direction && Aimed(world, lib) && PrimaryRaysAimed(s, f, draws, lib)
    ensures |rows| == f.imageHeight
    ensures forall j :: 0 <= j < f.imageHeight ==> rows[j] == Scanline(s, f, world, draws, j, lib)
  {
    seq(f.imageHeight, j requires 0 <= j < f.imageHeight => Scanline(s, f, world, draws, j, lib))
  }

  /**
   * `initialize` records the image dimensions, puts the centre at
   * `Point3::new()` whatever the camera origin, and builds a unit w and a
   * v perpendicular to it; the viewport is as wide as it is tall times the
   * aspect ratio.
   */
  lemma DeriveFrame(s: Settings, oldU: Vec3, lib: Lib)
    requires IsSqrt(lib.sqrt) && CanInitialize(s, lib)
    ensures var f := Derive(s, oldU, lib);
      f.imageDimensions == (s.imageWidth, f.imageHeight) &&
      f.imageHeight == PerspectiveCamera.ImageHeight(s.imageWidth, s.aspectRatio) &&
      f.center == lib.vecNew &&
      f.w.Magnitude() == 1.0 && f.v.Dot(f.w) == 0.0 && f.u.Dot(f.w) == 0.0 && f.u.Dot(oldU) == 0.0
  {
    var f := Derive(s, oldU, lib);
    assert f.w.Dot(f.v) == 0.0;
    assert f.w.Dot(f.u) == 0.0;
  }

  /**
   * The image is centred on the optical axis: from the first pixel centre,
   * half of the remaining width and height of the grid lead to
   * `center - focal_length w`.
   */
  lemma ImageCentred(s: Settings, imageHeight: nat, focalLength: real, viewportHeight: real,
                     center: Vec3, u: Vec3, v: Vec3, w: Vec3)
    requires s.imageWidth > 0 && imageHeight > 0
    ensures var f := Grid(s, imageHeight, focalLength, viewportHeight, center, u, v, w);
      f.pixelOrigin.Add(Scale((s.imageWidth as real - 1.0) / 2.0, f.pixelDeltaU))
                   .Add(Scale((imageHeight as real - 1.0) / 2.0, f.pixelDeltaV))
        == center.Sub(Scale(focalLength, w))
  {
    PerspectiveCamera.HalfSpan(s.imageWidth as real, Scale(viewportHeight * s.aspectRatio, u));
    PerspectiveCamera.HalfSpan(imageHeight as real, Scale(viewportHeight, v.Neg()));
  }

  /**
   * `get_ray` starts at the centre and reaches the pixel sample at
   * parameter 1, which lies within half a pixel step of the pixel centre in
   * each grid direction.
   */
  lemma GetRayAim(f: Frame, i: nat, j: nat, d: Draws)
    ensures var r := GetRay(f, i, j, d);
      r.origin == f.center && r.At(1.0) == PixelCenter(f, i, j).Add(PixelSampleSquare(f, d))
    ensures exists a: real, b: real ::
      -0.5 <= a < 0.5 && -0.5 <= b < 0.5 && PixelSampleSquare(f, d) == Scale(a, f.pixelDeltaU).Add(Scale(b, f.pixelDeltaV))
  {
    var r := GetRay(f, i, j, d);
    var p := r.origin.Add(r.direction);
    assert r.At(1.0) == p;
    var a, b := -0.5 + d.px, -0.5 + d.py;
    assert PixelSampleSquare(f, d) == Scale(a, f.pixelDeltaU).Add(Scale(b, f.pixelDeltaV));
  }

  /**
   * As written, u is w x (the previous u). A camera whose u is zero, as
   * `Camera::new()` leaves it, derives u = 0 and so a zero horizontal
   * pixel step, again on every later `initialize`: every column of a row
   * gets the same ray for the same draws.
   */
  lemma StaleBasis(s: Settings, lib: Lib)
    requires CanInitialize(s, lib)
    ensures var f := Derive(s, Zero, lib);
      f.u == Zero && f.pixelDeltaU == Zero &&
      (forall i: nat, j: nat, d: Draws :: GetRay(f, i, j, d) == GetRay(f, 0, j, d))
  {
    var w := BackwardUnit(s, lib);
    CrossZero(w);
    DeriveGrid(s, Zero, lib);
    var h := PerspectiveCamera.ImageHeight(s.imageWidth, s.aspectRatio);
    ZeroStep(s, h, FocalLength(s, lib), ViewportHeight(s, lib), lib.vecNew, s.upVector.Cross(w), w);
    ColumnsCoincide(Derive(s, Zero, lib));
  }

  /** `Derive` is the grid of its image height, focal length, viewport height and basis. */
  lemma DeriveGrid(s: Settings, oldU: Vec3, lib: Lib)
    requires CanInitialize(s, lib)
    ensures Derive(s, oldU, lib) == Grid(s, PerspectiveCamera.ImageHeight(s.imageWidth, s.aspectRatio), FocalLength(s, lib),
      ViewportHeight(s, lib), lib.vecNew, BackwardUnit(s, lib).Cross(oldU), s.upVector.Cross(BackwardUnit(s, lib)), BackwardUnit(s, lib))
  {
  }

  /** A zero u gives a zero horizontal pixel step. */
  lemma ZeroStep(s: Settings, imageHeight: nat, focalLength: real, viewportHeight: real,
                 center: Vec3, v: Vec3, w: Vec3)
    requires s.imageWidth > 0 && imageHeight > 0
    ensures Grid(s, imageHeight, focalLength, viewportHeight, center, Zero, v, w).pixelDeltaU == Zero
  {
    assert Scale(viewportHeight * s.aspectRatio, Zero) == Zero;
  }

  /** With a zero horizontal step the column does not change the ray. */
  lemma ColumnsCoincide(f: Frame)
    requires f.pixelDeltaU == Zero
    ensures forall i: nat, j: nat, d: Draws :: GetRay(f, i, j, d) == GetRay(f, 0, j, d)
  {
    forall i: nat, j: nat, d: Draws
      ensures GetRay(f, i, j, d) == GetRay(f, 0, j, d)
    {
      assert PixelCenter(f, i, j) == PixelCenter(f, 0, j);
    }
  }

  /**
   * With u = up x w and v = w x u the basis is orthogonal and right-handed
   * (u x v is w scaled by |u|^2): u is horizontal (perpendicular to the up
   * vector) and v leans toward the up vector, with v . up = |u|^2 >= 0, so
   * the rows of the image run down the screen and the columns to the right.
   * u and v are equally long, and non-zero unless the up vector is parallel
   * to the viewing direction.
   */
  lemma IntendedBasis(s: Settings, lib: Lib)
    requires IsSqrt(lib.sqrt) && CanInitialize(s, lib)
    ensures var f := DeriveIntended(s, lib);
      f.w.Magnitude() == 1.0 && f.u.Dot(f.w) == 0.0 && f.v.Dot(f.w) == 0.0 && f.u.Dot(f.v) == 0.0 &&
      f.u.Cross(f.v) == Scale(f.u.Magnitude(), f.w)
    ensures var f := DeriveIntended(s, lib);
      f.u.Dot(s.upVector) == 0.0 && f.v.Dot(s.upVector) == f.u.Magnitude() && 0.0 <= f.v.Dot(s.upVector) &&
      f.v.Magnitude() == f.u.Magnitude()
    ensures var f := DeriveIntended(s, lib);
      f.imageDimensions == (s.imageWidth, f.imageHeight) && f.center == lib.vecNew &&
      (f.u == Zero <==> f.v == Zero)
  {
    var w := BackwardUnit(s, lib);
    UpBasis(s.upVector, w);
  }

  /** The basis u = up x w, v = w x u on a unit w. */
  lemma UpBasis(up: Vec3, w: Vec3)
    requires w.Magnitude() == 1.0
    ensures var u := up.Cross(w); var v := w.Cross(u);
      u.Dot(w) == 0.0 && v.Dot(w) == 0.0 && u.Dot(v) == 0.0 && u.Cross(v) == Scale(u.Magnitude(), w) &&
      u.Dot(up) == 0.0 && v.Dot(up) == u.Magnitude() && v.Magnitude() == u.Magnitude() &&
      (u == Zero <==> v == Zero)
  {
    var u := up.Cross(w);
    var v := w.Cross(u);
    DotCommutes(u, w);
    DotCommutes(u, up);
    TripleProductCycles(w, u, up);
    DotCommutes(v, up);
    DoubleCross(u, w, u);
    assert u.Cross(v) == Scale(u.Magnitude(), w);
    CrossMagnitude(w, u);
    if u == Zero {
      CrossZero(w);
    } else {
      MagnitudePositive(u);
    }
  }

  /** The sample loop of `render` for pixel (i, j): `pixel_samples` estimates added to `Color::new()`. */
  method SamplePixel<T, M(!new)>(s: Settings, f: Frame, world: World<T, M>, draws: (nat, nat, nat) -> Draws,
                                   i: nat, j: nat, lib: Lib) returns (pixelColor: Vec3)
    requires i < s.imageWidth && j < f.imageHeight
    requires world.direction == Direction && Aimed(world, lib) && PrimaryRaysAimed(s, f, draws, lib)
    ensures pixelColor == PixelSum(s, f, world, draws, i, j, s.pixelSamples, lib)
  {
    pixelColor := lib.vecNew;
    for sample := 0 to s.pixelSamples
      invariant pixelColor == PixelSum(s, f, world, draws, i, j, sample, lib)
    {
      var ray := GetRay(f, i, j, draws(i, j, sample));
      pixelColor := pixelColor.Add(RayColor(ray, s.maxDepth, world, lib));
    }
  }

  /** The line `render` writes for pixel (i, j): its samples summed, then `write_color`. */
  method RenderPixel<T, M(!new)>(s: Settings, f: Frame, world: World<T, M>, draws: (nat, nat, nat) -> Draws,
                                   i: nat, j: nat, lib: Lib) returns (rgbBuffer: string)
    requires i < s.imageWidth && j < f.imageHeight && s.pixelSamples > 0
    requires world.direction == Direction && Aimed(world, lib) && PrimaryRaysAimed(s, f, draws, lib)
    ensures rgbBuffer == PixelLine(s, f, world, draws, i, j, lib)
  {
    var pixelColor := SamplePixel(s, f, world, draws, i, j, lib);
    rgbBuffer := VectorsColor.WriteColor(pixelColor, s.pixelSamples, lib);
  }

  /**
   * The pixel loops of `render` after `initialize`: the header, then each
   * pixel's line written as soon as it is computed, rows top to bottom and
   * pixels left to right.
   */
  method RenderImage<T, M(!new)>(s: Settings, f: Frame, world: World<T, M>, draws: (nat, nat, nat) -> Draws,
                                   lib: Lib) returns (image: string)
    requires s.pixelSamples > 0
    requires world.direction == Direction && Aimed(world, lib) && PrimaryRaysAimed(s, f, draws, lib)
    ensures image == Header(s.imageWidth, f.imageHeight) + Concat(Flatten(Scanlines(s, f, world, draws, lib)))
  {
    ghost var rows := Scanlines(s, f, world, draws, lib);
    var header := Header(s.imageWidth, f.imageHeight);
    image := header;
    for j := 0 to f.imageHeight
      invariant image == header + Concat(Flatten(rows[..j]))
    {
      WriteRowStep(header, rows, j);
      image := WriteRow(image, s, f, world, draws, j, lib);
    }
    assert rows[..f.imageHeight] == rows;
  }

  /** The inner loop of `render`: the lines of row `j`, left to right, written after `image`. */
  method WriteRow<T, M(!new)>(image: string, s: Settings, f: Frame, world: World<T, M>, draws: (nat, nat, nat) -> Draws,
                                j: nat, lib: Lib) returns (written: string)
    requires j < f.imageHeight && s.pixelSamples > 0
    requires world.direction == Direction && Aimed(world, lib) && PrimaryRaysAimed(s, f, draws, lib)
    ensures written == image + Concat(Scanline(s, f, world, draws, j, lib))
  {
    ghost var row := Scanline(s, f, world, draws, j, lib);
    written := image;
    assert row[..0] == [];
    for i := 0 to s.imageWidth
      invariant written == image + Concat(row[..i])
    {
      var rgbBuffer := RenderPixel(s, f, world, draws, i, j, lib);
      WriteLineStep(image, row, i);
      written := written + rgbBuffer;
    }
    assert row[..s.imageWidth] == row;
  }

  /** The settings `Camera::new()` starts from. */
  function DefaultSettings(lib: Lib): (s: Settings)
    ensures s.imageWidth == 100 && s.pixelSamples == 10 && s.maxDepth == 10 && s.vfov == 90.0
  {
    Settings(1.0, 100, 10, 10, 90.0, lib.vecFrom(0.0, 0.0, -1.0), lib.vecFrom(0.0, 0.0, 0.0), lib.vecFrom(0.0, 1.0, 0.0))
  }

  class Camera {
    var aspectRatio: real
    var imageDimensions: (nat, nat)
    var imageWidth: nat
    var pixelSamples: nat
    var maxDepth: nat
    var vfov: real
    var imageHeight: nat
    var center: Vec3
    var cameraOrigin: Vec3
    var cameraTarget: Vec3
    var upVector: Vec3
    var pixelOrigin: Vec3
    var pixelDeltaU: Vec3
    var pixelDeltaV: Vec3
    var u: Vec3
    var v: Vec3
    var w: Vec3

    function CurrentSettings(): Settings
      reads this`aspectRatio, this`imageWidth, this`pixelSamples, this`maxDepth, this`vfov,
        this`cameraOrigin, this`cameraTarget, this`upVector
    {
      Settings(aspectRatio, imageWidth, pixelSamples, maxDepth, vfov, cameraOrigin, cameraTarget, upVector)
    }

    function CurrentFrame(): Frame
      reads this`imageHeight, this`imageDimensions, this`center, this`pixelOrigin, this`pixelDeltaU,
        this`pixelDeltaV, this`u, this`v, this`w
    {
      Frame(imageHeight, imageDimensions, center, pixelOrigin, pixelDeltaU, pixelDeltaV, u, v, w)
    }

    /**
     * `Camera::new()`: square 100-pixel-wide image, 10 samples, 10
     * bounces, 90 degrees of field of view, looking from (0, 0, -1) at the
     * origin with +y up; every derived vector is `Vec3::new()`.
     */
    constructor (lib: Lib)
      ensures CurrentSettings() == DefaultSettings(lib)
      ensures CurrentFrame() == Frame(0, (0, 0), lib.vecNew, lib.vecNew, lib.vecNew, lib.vecNew,
        lib.vecNew, lib.vecNew, lib.vecNew)
    {
      aspectRatio := 1.0;
      imageWidth := 100;
      imageHeight := 0;
      imageDimensions := (0, 0);
      center := lib.vecNew;
      cameraOrigin := lib.vecFrom(0.0, 0.0, -1.0);
      cameraTarget := lib.vecFrom(0.0, 0.0, 0.0);
      upVector := lib.vecFrom(0.0, 1.0, 0.0);
      pixelOrigin := lib.vecNew;
      pixelDeltaU := lib.vecNew;
      pixelDeltaV := lib.vecNew;
      pixelSamples := 10;
      maxDepth := 10;
      vfov := 90.0;
      u := lib.vecNew;
      v := lib.vecNew;
      w := lib.vecNew;
    }

    /**
     * `initialize`: the derived fields are overwritten in the source's
     * order, with the intended basis u = up x w, v = w x u; the settings
     * are not touched.
     */
    method Initialize(lib: Lib)
      requires CanInitialize(CurrentSettings(), lib)
      modifies this`imageHeight, this`imageDimensions, this`center, this`pixelOrigin, this`pixelDeltaU,
        this`pixelDeltaV, this`u, this`v, this`w
      ensures CurrentFrame() == DeriveIntended(CurrentSettings(), lib)
    {
      var s := CurrentSettings();
      var f := DeriveIntended(s, lib);
      imageHeight, imageDimensions, center, pixelOrigin := f.imageHeight, f.imageDimensions, f.center, f.pixelOrigin;
      pixelDeltaU, pixelDeltaV, u, v, w := f.pixelDeltaU, f.pixelDeltaV, f.u, f.v, f.w;
      assert CurrentSettings() == s;
      assert CurrentFrame() == f;
    }

    /**
     * `render`: initializes the camera, then writes the header and every
     * pixel's line (the sum of `pixel_samples` estimates at `max_depth`
     * bounces, averaged by `write_color`) in row-major order.
     */
    method Render<T, M(!new)>(world: World<T, M>, draws: (nat, nat, nat) -> Draws, lib: Lib) returns (image: string)
      requires CanInitialize(CurrentSettings(), lib) && pixelSamples > 0
      requires world.direction == Direction && Aimed(world, lib)
      requires PrimaryRaysAimed(CurrentSettings(), DeriveIntended(CurrentSettings(), lib), draws, lib)
      modifies this`imageHeight, this`imageDimensions, this`center, this`pixelOrigin, this`pixelDeltaU,
        this`pixelDeltaV, this`u, this`v, this`w
      ensures CurrentSettings() == old(CurrentSettings()) && CurrentFrame() == DeriveIntended(CurrentSettings(), lib)
      ensures image == Header(imageWidth, imageHeight) + Concat(Flatten(Scanlines(CurrentSettings(), CurrentFrame(), world, draws, lib)))
    {
      Initialize(lib);
      image := RenderImage(CurrentSettings(), CurrentFrame(), world, draws, lib);
    }
  }
}
