/**
 * src/vectors/color.rs: the pixel writer. The summed colour of a pixel is
 * averaged over the samples, gamma-corrected by a square root, clamped to
 * [0, 0.999], scaled by 256 and truncated, giving one line "r g b\n" of a
 * plain PPM ("P3") image.
 */
module VectorsColor {
  import opened Optional
  import opened Numeric
  import opened Vector
  import opened Interval
  import opened Library
  import opened Decimal

  /** `linear_to_gamma`: the square root, whose square gives the linear value back. */
  function LinearToGamma(linearComponent: real, sqrt: real -> real): (g: real)
    ensures IsSqrt(sqrt) && 0.0 <= linearComponent ==> 0.0 <= g && g * g == linearComponent
  {
    sqrt(linearComponent)
  }

  /** `intensity`: the clamp range [0, 0.999]. */
  const Intensity: Interval := Interval(Fin(0.0), Fin(0.999))

  /** One channel: the component scaled by `scale`, gamma-corrected, clamped, scaled by 256 and truncated. */
  function Channel(component: real, scale: real, lib: Lib): (n: int)
    ensures IsClamp(lib.clamp) ==> 0 <= n <= 255
  {
    var clamped := lib.clamp(Intensity, LinearToGamma(component * scale, lib.sqrt));
    assert IsClamp(lib.clamp) ==> 0.0 <= clamped <= 0.999;
    Trunc(256.0 * clamped)
  }

  /** `1 / pixel_samples`: the factor that averages the summed samples. */
  function SampleScale(pixelSamples: nat): (scale: real)
    requires pixelSamples > 0
    ensures 0.0 < scale <= 1.0 && scale * pixelSamples as real == 1.0
  {
    1.0 / pixelSamples as real
  }

  /**
   * `write_color`: each channel of the summed colour is averaged, then
   * gamma-corrected, clamped and truncated, and the three are formatted as
   * one line that a plain-PPM reader reads back as those three integers.
   * The number of samples must be positive.
   */
  function WriteColor(pixelColor: Vec3, pixelSamples: nat, lib: Lib): (line: string)
    requires pixelSamples > 0
    ensures var scale := SampleScale(pixelSamples);
      ReadTriple(line) == Some((Channel(pixelColor.x, scale, lib), Channel(pixelColor.y, scale, lib), Channel(pixelColor.z, scale, lib)))
  {
    var scale := SampleScale(pixelSamples);
    var red, green, blue := Channel(pixelColor.x, scale, lib), Channel(pixelColor.y, scale, lib), Channel(pixelColor.z, scale, lib);
    ReadTripleOf(red, green, blue);
    Triple(red, green, blue)
  }

  /** A black pixel is written "0 0 0\n". */
  lemma BlackPixel(pixelSamples: nat, lib: Lib)
    requires pixelSamples > 0 && Sound(lib)
    ensures WriteColor(Zero, pixelSamples, lib) == "0 0 0\n"
  {
    SqrtZero(lib.sqrt);
    assert Intensity.Contains(0.0);
    var scale := SampleScale(pixelSamples);
    assert Channel(0.0, scale, lib) == 0;
    assert WriteColor(Zero, pixelSamples, lib) == Triple(0, 0, 0);
    ZeroLine();
  }

  /** An averaged channel of at least 1 is written 255. */
  lemma SaturatedChannel(component: real, scale: real, lib: Lib)
    requires Sound(lib) && 1.0 <= component * scale
    ensures Channel(component, scale, lib) == 255
  {
    SqrtAtLeastOne(lib.sqrt, component * scale);
    var clamped := lib.clamp(Intensity, LinearToGamma(component * scale, lib.sqrt));
    assert Intensity.Contains(0.999);
    assert lib.clamp(Intensity, 0.999) <= clamped;
  }

  /** For a positive scale, a larger non-negative component never gives a smaller integer. */
  lemma ChannelMonotone(a: real, b: real, scale: real, lib: Lib)
    requires Sound(lib) && 0.0 <= a <= b && 0.0 < scale
    ensures Channel(a, scale, lib) <= Channel(b, scale, lib)
  {
    MulMonotone(a, b, scale);
    MulNonneg(a, scale);
    SqrtMonotone(lib.sqrt, a * scale, b * scale);
    var ca := lib.clamp(Intensity, LinearToGamma(a * scale, lib.sqrt));
    var cb := lib.clamp(Intensity, LinearToGamma(b * scale, lib.sqrt));
    assert ca <= cb;
    TruncMonotone(256.0 * ca, 256.0 * cb);
  }
}
