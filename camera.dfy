/**
 * src/camera.rs: the first camera. `initialize` fixes a 400-pixel-wide 16:9
 * image with a viewport of height 2 at focal length 1 in front of the
 * origin; `render` shoots one ray per pixel from the centre through the
 * pixel centre, shades a hit by its normal and a miss by the sky, and
 * writes each pixel line as it is computed.
 *
 * As written, `initialize` computes the pixel steps into local variables
 * that shadow the fields, so the fields keep the values they had:
 * `AsWritten` is that state and `ShadowedDeltas` what it renders. The class
 * stores the steps, as the code evidently intends: `Layout` is that grid
 * and `IntendedGrid` its pixel centres.
 */
module Camera {
  import opened Numeric
  import opened Vector
  import opened Interval
  import opened Traceable
  import opened PathTracing
  import opened Ppm
  import PerspectiveCamera
  import Ray
  import Color

  /** The fields `initialize` derives. */
  datatype Frame = Frame(imageWidth: nat, imageHeight: nat, center: Vec3, pixelOrigin: Vec3, pixelDeltaU: Vec3, pixelDeltaV: Vec3)

  const AspectRatio: real := 16.0 / 9.0
  const ImageWidth: nat := 400
  const FocalLength: real := 1.0
  const ViewportHeight: real := 2.0

  /** The viewport's top left corner: `center - (0, 0, focal_length) - viewport_u / 2 - viewport_v / 2`. */
  function Corner(center: Vec3, focal: Vec3, viewportU: Vec3, viewportV: Vec3): Vec3
  {
    center.Sub(focal).Sub(viewportU.DivScalar(2.0)).Sub(viewportV.DivScalar(2.0))
  }

  /**
   * The grid `initialize` computes for an aspect ratio, a width and a
   * height: the viewport edges along +x and -y, the pixel steps, and the
   * first pixel centre half a step inside the viewport's top left corner.
   */
  function Grid(aspectRatio: real, imageWidth: nat, imageHeight: nat): Frame
    requires imageWidth > 0 && imageHeight > 0
  {
    var center := Vec3(0.0, 0.0, 0.0);
    var viewportWidth := ViewportHeight * aspectRatio;
    var viewportU := Vec3(viewportWidth, 0.0, 0.0);
    var viewportV := Vec3(0.0, -ViewportHeight, 0.0);
    var pixelDeltaU := viewportU.DivScalar(imageWidth as real);
    var pixelDeltaV := viewportV.DivScalar(imageHeight as real);
    var viewportOrigin := Corner(center, Vec3(0.0, 0.0, FocalLength), viewportU, viewportV);
    var pixelOrigin := viewportOrigin.Add(Scale(0.5, pixelDeltaU)).Add(Scale(0.5, pixelDeltaV));
    Frame(imageWidth, imageHeight, center, pixelOrigin, pixelDeltaU, pixelDeltaV)
  }

  /**
   * The grid `initialize` computes from the aspect ratio and width it sets:
   * the height is the truncated quotient, at least one row.
   */
  function Layout(aspectRatio: real, imageWidth: nat): Frame
    requires aspectRatio != 0.0 && imageWidth > 0
  {
    Grid(aspectRatio, imageWidth, PerspectiveCamera.ImageHeight(imageWidth, aspectRatio))
  }

  /** What `initialize` stores as written: the layout, except that the pixel steps stay as they were. */
  function AsWritten(aspectRatio: real, imageWidth: nat, oldDeltaU: Vec3, oldDeltaV: Vec3): Frame
    requires aspectRatio != 0.0 && imageWidth > 0
  {
    Layout(aspectRatio, imageWidth).(pixelDeltaU := oldDeltaU, pixelDeltaV := oldDeltaV)
  }

  /** The centre of pixel (i, j): `pixel_origin + i du + j dv`. */
  function PixelCenter(f: Frame, i: nat, j: nat): Vec3
  {
    f.pixelOrigin.Add(Scale(i as real, f.pixelDeltaU)).Add(Scale(j as real, f.pixelDeltaV))
  }

  /** The ray `render` shoots for pixel (i, j): `Ray::new(center, pixel_center - center)`. */
  function PrimaryRay(f: Frame, i: nat, j: nat): Ray.Ray
  {
    Ray.New(f.center, PixelCenter(f, i, j).Sub(f.center))
  }

  /** The scene `render` traces: the objects of a `Traceables` list and their intersection test. */
  datatype World<!T, !M> = World(objects: seq<T>, memberHit: MemberHit<T, Ray.Ray, M>)

  /** `Interval::new(0.0, f64::INFINITY)`: the parameters at which the scene is searched. */
  const HitInterval: Interval := Interval(Fin(0.0), PosInf)

  /** The shade of a hit: `0.5 (normal + (1, 1, 1))`. */
  function Shade(normal: Vec3): Vec3
  {
    Scale(0.5, normal.Add(Vec3(1.0, 1.0, 1.0)))
  }

  /** The sky seen along `direction`: white blended toward light blue as the direction turns up. */
  function Sky(direction: Vec3, sqrt: real -> real): Vec3
    requires direction.Length(sqrt) != 0.0
  {
    var unitDirection := direction.Normalize(sqrt);
    var blendFactor := 0.5 * (unitDirection.y + 1.0);
    Scale(1.0 - blendFactor, Vec3(1.0, 1.0, 1.0)).Add(Scale(blendFactor, Vec3(0.5, 0.7, 1.0)))
  }

  /** `get_ray_color(ray, world)`: the shade of the nearest hit, or the sky. */
  function RayColor<T, M>(ray: Ray.Ray, world: World<T, M>, sqrt: real -> real): Vec3
    requires ray.direction.Length(sqrt) != 0.0
  {
    match SceneHit(world.objects, ray, HitInterval, world.memberHit)
    case Some(record) => Shade(record.normal)
    case None => Sky(ray.direction, sqrt)
  }

  /** Every primary ray of the image has a direction that can be normalized. */
  ghost predicate PrimaryRaysAimed(f: Frame, sqrt: real -> real)
  {
    forall i: nat, j: nat :: i < f.imageWidth && j < f.imageHeight ==> PrimaryRay(f, i, j).direction.Length(sqrt) != 0.0
  }

  /** The line written for pixel (i, j). */
  function PixelLine<T, M>(f: Frame, world: World<T, M>, i: nat, j: nat, sqrt: real -> real): string
    requires i < f.imageWidth && j < f.imageHeight && PrimaryRaysAimed(f, sqrt)
  {
    Color.WriteColor(RayColor(PrimaryRay(f, i, j), world, sqrt))
  }

  /** The pixel lines of row `j`, left to right. */
  function Scanline<T, M>(f: Frame, world: World<T, M>, j: nat, sqrt: real -> real): (row: seq<string>)
    requires j < f.imageHeight && PrimaryRaysAimed(f, sqrt)
    ensures |row| == f.imageWidth
    ensures forall i :: 0 <= i < f.imageWidth ==> row[i] == PixelLine(f, world, i, j, sqrt)
  {
    seq(f.imageWidth, i requires 0 <= i < f.imageWidth => PixelLine(f, world, i, j, sqrt))
  }

  /** The whole image, top row first. */
  function Scanlines<T, M>(f: Frame, world: World<T, M>, sqrt: real -> real): (rows: seq<seq<string>>)
    requires PrimaryRaysAimed(f, sqrt)
    ensures |rows| == f.imageHeight
    ensures forall j :: 0 <= j < f.imageHeight ==> rows[j] == Scanline(f, world, j, sqrt)
  {
    seq(f.imageHeight, j requires 0 <= j < f.imageHeight => Scanline(f, world, j, sqrt))
  }

  /** 400 pixels at 16:9 make 225 rows. */
  lemma LayoutHeight()
    ensures PerspectiveCamera.ImageHeight(ImageWidth, AspectRatio) == 225
  {
    assert ImageWidth as real / AspectRatio == 225.0;
  }

  /**
   * The grid for aspect ratio a, width n and height m: steps 2a/n to the
   * right and 2/m down, the first pixel centre half a step inside the
   * corner (-a, 1, -1).
   */
  lemma GridValues(a: real, n: nat, m: nat)
    requires n > 0 && m > 0
    ensures Grid(a, n, m) == Frame(n, m, Zero, Vec3(-a + a / n as real, 1.0 - 1.0 / m as real, -1.0),
                                   Vec3(2.0 * a / n as real, 0.0, 0.0), Vec3(0.0, -2.0 / m as real, 0.0))
  {
  }

  /** 225 rows of steps 2/225 to the right and 2/225 down from (-399/225, 224/225, -1). */
  const IntendedLayout: Frame :=
    Frame(400, 225, Zero, Vec3(-399.0 / 225.0, 224.0 / 225.0, -1.0), Vec3(2.0 / 225.0, 0.0, 0.0), Vec3(0.0, -2.0 / 225.0, 0.0))

  /**
   * The intended grid: 225 rows of steps 2/225 to the right and 2/225 down,
   * the first pixel centre half a step inside the corner (-16/9, 1, -1).
   */
  lemma LayoutValues()
    ensures Layout(AspectRatio, ImageWidth) == IntendedLayout
  {
    LayoutHeight();
    GridValues(AspectRatio, ImageWidth, 225);
    LayoutArithmetic();
  }

  /** What `initialize` as written stores for the fixed settings: the intended layout with the previous steps. */
  lemma FixedLayout(aspectRatio: real, imageWidth: nat, oldDeltaU: Vec3, oldDeltaV: Vec3)
    requires aspectRatio == AspectRatio && imageWidth == ImageWidth
    ensures AsWritten(aspectRatio, imageWidth, oldDeltaU, oldDeltaV) == IntendedLayout.(pixelDeltaU := oldDeltaU, pixelDeltaV := oldDeltaV)
  {
    LayoutValues();
  }

  /** Steps without a depth component keep every pixel centre in the plane z = -1, so every primary ray is aimed. */
  lemma FlatStepsAimed(aspectRatio: real, imageWidth: nat, oldDeltaU: Vec3, oldDeltaV: Vec3, sqrt: real -> real)
    requires aspectRatio != 0.0 && imageWidth > 0 && IsSqrt(sqrt) && oldDeltaU.z == 0.0 && oldDeltaV.z == 0.0
    ensures PrimaryRaysAimed(AsWritten(aspectRatio, imageWidth, oldDeltaU, oldDeltaV), sqrt)
  {
    var f := AsWritten(aspectRatio, imageWidth, oldDeltaU, oldDeltaV);
    GridValues(aspectRatio, imageWidth, f.imageHeight);
    forall i: nat, j: nat | i < f.imageWidth && j < f.imageHeight
      ensures PrimaryRay(f, i, j).direction.Length(sqrt) != 0.0
    {
      var d := PrimaryRay(f, i, j).direction;
      assert d.z == -1.0;
      LengthNonzero(d, sqrt);
    }
  }

  /** The layout for any aspect ratio equal to 16/9 and the width 400 is the intended one. */
  lemma InitializedLayout(aspectRatio: real, imageWidth: nat)
    requires 9.0 * aspectRatio == 16.0 && imageWidth == ImageWidth
    ensures Layout(aspectRatio, imageWidth) == IntendedLayout
  {
    assert aspectRatio == AspectRatio;
    LayoutValues();
  }

  /** Every primary ray of the intended layout is aimed: its pixel centres lie in the plane z = -1. */
  lemma IntendedAimed(sqrt: real -> real)
    requires IsSqrt(sqrt)
    ensures PrimaryRaysAimed(IntendedLayout, sqrt)
  {
    FlatStepsAimed(AspectRatio, ImageWidth, IntendedLayout.pixelDeltaU, IntendedLayout.pixelDeltaV, sqrt);
    FixedLayout(AspectRatio, ImageWidth, IntendedLayout.pixelDeltaU, IntendedLayout.pixelDeltaV);
    assert IntendedLayout.(pixelDeltaU := IntendedLayout.pixelDeltaU, pixelDeltaV := IntendedLayout.pixelDeltaV) == IntendedLayout;
  }

  /** The quotients of the fixed layout. */
  lemma LayoutArithmetic()
    ensures -AspectRatio + AspectRatio / ImageWidth as real == -399.0 / 225.0
    ensures 2.0 * AspectRatio / ImageWidth as real == 2.0 / 225.0
    ensures 1.0 - 1.0 / 225 as real == 224.0 / 225.0
    ensures -2.0 / 225 as real == -2.0 / 225.0
  {
  }

  /**
   * With the pixel steps stored, the pixel centres form the intended grid:
   * pixel (i, j) is centred at ((2i + 1)/225 - 16/9, 1 - (2j + 1)/225, -1),
   * so the image's middle lies on the -z axis, and different pixels get
   * different rays.
   */
  lemma IntendedGrid(i: nat, j: nat, i': nat, j': nat)
    ensures PixelCenter(IntendedLayout, i, j) ==
      Vec3((2 * i + 1) as real / 225.0 - 16.0 / 9.0, 1.0 - (2 * j + 1) as real / 225.0, -1.0)
    ensures (i, j) != (i', j') ==> PrimaryRay(IntendedLayout, i, j) != PrimaryRay(IntendedLayout, i', j')
  {
  }

  /** Steps of zero leave the first pixel centre where it is. */
  lemma ZeroSteps(origin: Vec3, i: nat, j: nat)
    ensures origin.Add(Scale(i as real, Zero)).Add(Scale(j as real, Zero)) == origin
  {
  }

  /**
   * As written, `initialize` never stores the pixel steps, so a camera
   * whose steps are still zero, as `Camera::new()` leaves them, shoots the
   * same ray through every pixel, from the origin toward the first pixel
   * centre, which lies in the plane z = -1. The whole image is one colour.
   */
  lemma ShadowedDeltas<T, M>(aspectRatio: real, imageWidth: nat, world: World<T, M>, sqrt: real -> real)
    requires aspectRatio != 0.0 && imageWidth > 0 && IsSqrt(sqrt)
    ensures var f := AsWritten(aspectRatio, imageWidth, Zero, Zero);
      f.pixelOrigin.z == -1.0 && PrimaryRaysAimed(f, sqrt) &&
      (forall i: nat, j: nat :: PrimaryRay(f, i, j) == Ray.Ray(Zero, f.pixelOrigin)) &&
      (forall i: nat, j: nat :: i < f.imageWidth && j < f.imageHeight ==> PixelLine(f, world, i, j, sqrt) == PixelLine(f, world, 0, 0, sqrt))
  {
    var f := AsWritten(aspectRatio, imageWidth, Zero, Zero);
    var d := f.pixelOrigin;
    GridValues(aspectRatio, imageWidth, f.imageHeight);
    forall i: nat, j: nat
      ensures PrimaryRay(f, i, j) == Ray.Ray(Zero, d)
    {
      ZeroSteps(d, i, j);
    }
    LengthNonzero(d, sqrt);
  }

  /** A unit normal is shaded inside the unit cube. */
  lemma ShadeInUnitCube(normal: Vec3)
    requires normal.Magnitude() == 1.0
    ensures InUnitCube(Shade(normal))
  {
    UnitComponent(normal);
  }

  /**
   * The sky lies in the unit cube, and it is the gradient the later cameras
   * draw: with `Vec3::from` building its components, `PathTracing.Sky`.
   */
  lemma SkyAgrees(direction: Vec3, lib: Library.Lib)
    requires IsSqrt(lib.sqrt) && Library.ComponentFrom(lib) && direction.Length(lib.sqrt) != 0.0
    ensures Sky(direction, lib.sqrt) == PathTracing.Sky(direction, lib)
    ensures InUnitCube(Sky(direction, lib.sqrt))
  {
    SkyRange(direction, lib);
  }

  /** Every object reports hits with unit normals. */
  ghost predicate UnitNormals<T, M(!new)>(world: World<T, M>)
  {
    forall k, r: Ray.Ray, i: Interval :: 0 <= k < |world.objects| && world.memberHit(world.objects[k], r, i).Some? ==>
      world.memberHit(world.objects[k], r, i).value.normal.Magnitude() == 1.0
  }

  /** The record the list keeps is one an object reported, so its normal is a unit vector. */
  lemma {:induction false} ScanUnitNormal<T, M(!new)>(world: World<T, M>, ray: Ray.Ray, interval: Interval, k: nat)
    requires UnitNormals(world) && k <= |world.objects|
    ensures var h := ScanPrefix(world.objects, ray, interval, world.memberHit, k);
      h.Some? ==> h.value.normal.Magnitude() == 1.0
  {
    if k > 0 {
      ScanUnitNormal(world, ray, interval, k - 1);
    }
  }

  /**
   * `get_ray_color` shades the nearest hit by its normal and otherwise
   * shows the sky; with unit normals every colour is in the unit cube.
   */
  lemma RayColorCases<T, M(!new)>(ray: Ray.Ray, world: World<T, M>, sqrt: real -> real)
    requires ray.direction.Length(sqrt) != 0.0
    ensures var h := SceneHit(world.objects, ray, HitInterval, world.memberHit);
      RayColor(ray, world, sqrt) == if h.Some? then Shade(h.value.normal) else Sky(ray.direction, sqrt)
    ensures world.objects == [] ==> RayColor(ray, world, sqrt) == Sky(ray.direction, sqrt)
    ensures IsSqrt(sqrt) && UnitNormals(world) ==> InUnitCube(RayColor(ray, world, sqrt))
  {
    var h := SceneHit(world.objects, ray, HitInterval, world.memberHit);
    if IsSqrt(sqrt) && UnitNormals(world) {
      ScanUnitNormal(world, ray, HitInterval, |world.objects|);
      if h.Some? {
        ShadeInUnitCube(h.value.normal);
      } else {
        var unitDirection := ray.direction.Normalize(sqrt);
        UnitComponent(unitDirection);
      }
    }
  }

  /** One pixel of `render`: its primary ray, its colour, then `write_color`. */
  method RenderPixel<T, M>(f: Frame, world: World<T, M>, i: nat, j: nat, sqrt: real -> real) returns (rgbBuffer: string)
    requires i < f.imageWidth && j < f.imageHeight && PrimaryRaysAimed(f, sqrt)
    ensures rgbBuffer == PixelLine(f, world, i, j, sqrt)
  {
    var pixelCenter := f.pixelOrigin.Add(Scale(i as real, f.pixelDeltaU)).Add(Scale(j as real, f.pixelDeltaV));
    var rayDirection := pixelCenter.Sub(f.center);
    var ray := Ray.New(f.center, rayDirection);
    assert ray == PrimaryRay(f, i, j);
    var pixelColor := RayColor(ray, world, sqrt);
    rgbBuffer := Color.WriteColor(pixelColor);
  }

  /** The inner loop of `render`: the lines of row `j`, left to right, written after `image`. */
  method WriteRow<T, M>(image: string, f: Frame, world: World<T, M>, j: nat, sqrt: real -> real) returns (written: string)
    requires j < f.imageHeight && PrimaryRaysAimed(f, sqrt)
    ensures written == image + Concat(Scanline(f, world, j, sqrt))
  {
    ghost var row := Scanline(f, world, j, sqrt);
    written := image;
    assert row[..0] == [];
    for i := 0 to f.imageWidth
      invariant written == image + Concat(row[..i])
    {
      var rgbBuffer := RenderPixel(f, world, i, j, sqrt);
      WriteLineStep(image, row, i);
      written := written + rgbBuffer;
    }
    assert row[..f.imageWidth] == row;
  }

  /** The pixel loops of `render` after `initialize`: the header, then the rows top to bottom. */
  method RenderImage<T, M>(f: Frame, world: World<T, M>, sqrt: real -> real) returns (image: string)
    requires PrimaryRaysAimed(f, sqrt)
    ensures image == Header(f.imageWidth, f.imageHeight) + Concat(Flatten(Scanlines(f, world, sqrt)))
  {
    ghost var rows := Scanlines(f, world, sqrt);
    var header := Header(f.imageWidth, f.imageHeight);
    image := header;
    for j := 0 to f.imageHeight
      invariant image == header + Concat(Flatten(rows[..j]))
    {
      WriteRowStep(header, rows, j);
      image := WriteRow(image, f, world, j, sqrt);
    }
    assert rows[..f.imageHeight] == rows;
  }

  class Camera {
    var aspectRatio: real
    var imageDimensions: (nat, nat)
    var imageWidth: nat
    var imageHeight: nat
    var center: Vec3
    var pixelOrigin: Vec3
    var pixelDeltaU: Vec3
    var pixelDeltaV: Vec3

    function CurrentFrame(): Frame
      reads this`imageWidth, this`imageHeight, this`center, this`pixelOrigin, this`pixelDeltaU, this`pixelDeltaV
    {
      Frame(imageWidth, imageHeight, center, pixelOrigin, pixelDeltaU, pixelDeltaV)
    }

    /** `Camera::new()`: every field zero. */
    constructor ()
      ensures aspectRatio == 0.0 && imageWidth == 0 && imageDimensions == (0, 0)
      ensures CurrentFrame() == Frame(0, 0, Zero, Zero, Zero, Zero)
    {
      aspectRatio := 0.0;
      imageWidth := 0;
      imageHeight := 0;
      imageDimensions := (0, 0);
      center := Vec3(0.0, 0.0, 0.0);
      pixelOrigin := Vec3(0.0, 0.0, 0.0);
      pixelDeltaU := Vec3(0.0, 0.0, 0.0);
      pixelDeltaV := Vec3(0.0, 0.0, 0.0);
    }

    /**
     * `initialize`: fixes the aspect ratio and width, then stores the
     * height, dimensions, centre, first pixel centre and pixel steps of
     * the layout.
     */
    method Initialize()
      modifies this`aspectRatio, this`imageWidth, this`imageHeight, this`imageDimensions, this`center, this`pixelOrigin,
               this`pixelDeltaU, this`pixelDeltaV
      ensures 9.0 * aspectRatio == 16.0 && imageWidth == ImageWidth && imageDimensions == (imageWidth, imageHeight)
      ensures CurrentFrame() == Layout(aspectRatio, imageWidth)
    {
      aspectRatio := AspectRatio;
      imageWidth := ImageWidth;
      Place();
    }

    /** The part of `initialize` after the settings: height, dimensions, centre, first pixel centre and steps. */
    method Place()
      requires aspectRatio != 0.0 && imageWidth > 0
      modifies this`imageHeight, this`imageDimensions, this`center, this`pixelOrigin, this`pixelDeltaU, this`pixelDeltaV
      ensures imageDimensions == (imageWidth, imageHeight)
      ensures CurrentFrame() == Layout(aspectRatio, imageWidth)
    {
      var f := Layout(aspectRatio, imageWidth);
      imageHeight := f.imageHeight;
      imageDimensions := (imageWidth, imageHeight);
      center := f.center;
      pixelOrigin := f.pixelOrigin;
      pixelDeltaU := f.pixelDeltaU;
      pixelDeltaV := f.pixelDeltaV;
    }

    /**
     * `render`: initializes the camera, then writes the header and every
     * pixel's line in row-major order.
     */
    method Render<T, M>(world: World<T, M>, sqrt: real -> real) returns (image: string)
      requires IsSqrt(sqrt)
      modifies this`aspectRatio, this`imageWidth, this`imageHeight, this`imageDimensions, this`center, this`pixelOrigin,
               this`pixelDeltaU, this`pixelDeltaV
      ensures 9.0 * aspectRatio == 16.0 && imageWidth == ImageWidth && imageDimensions == (imageWidth, imageHeight)
      ensures CurrentFrame() == IntendedLayout
      ensures PrimaryRaysAimed(CurrentFrame(), sqrt)
      ensures image == Header(imageWidth, imageHeight) + Concat(Flatten(Scanlines(CurrentFrame(), world, sqrt)))
    {
      Initialize();
      image := Trace(world, sqrt);
    }

    /** The loops of `render`, on an initialized camera. */
    method Trace<T, M>(world: World<T, M>, sqrt: real -> real) returns (image: string)
      requires IsSqrt(sqrt) && 9.0 * aspectRatio == 16.0 && imageWidth == ImageWidth
      requires CurrentFrame() == Layout(aspectRatio, imageWidth)
      ensures CurrentFrame() == IntendedLayout
      ensures PrimaryRaysAimed(CurrentFrame(), sqrt)
      ensures image == Header(imageWidth, imageHeight) + Concat(Flatten(Scanlines(CurrentFrame(), world, sqrt)))
    {
      InitializedLayout(aspectRatio, imageWidth);
      IntendedAimed(sqrt);
      image := RenderImage(CurrentFrame(), world, sqrt);
    }
  }
}
