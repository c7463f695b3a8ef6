/**
 * src/color.rs: the older pixel writer, which scales each channel by
 * 255.999 and truncates, with no averaging, gamma or clamp.
 */
module Color {
  import opened Optional
  import opened Numeric
  import opened Vector
  import opened Decimal

  /** One channel: `(255.999 * c) as i32`. */
  function Channel(c: real): int
  {
    Trunc(255.999 * c)
  }

  /** `write_color`: the pixel line that a reader of plain PPM reads back as the three channels. */
  function WriteColor(pixelColor: Vec3): (line: string)
    ensures ReadTriple(line) == Some((Channel(pixelColor.x), Channel(pixelColor.y), Channel(pixelColor.z)))
  {
    ReadTripleOf(Channel(pixelColor.x), Channel(pixelColor.y), Channel(pixelColor.z));
    Triple(Channel(pixelColor.x), Channel(pixelColor.y), Channel(pixelColor.z))
  }

  /** A channel in [0, 1] is written in [0, 255]; 0 gives 0 and 1 gives 255. */
  lemma ChannelRange(c: real)
    requires 0.0 <= c <= 1.0
    ensures 0 <= Channel(c) <= 255
    ensures Channel(0.0) == 0 && Channel(1.0) == 255
  {
  }

  /** A brighter channel never gives a smaller integer. */
  lemma ChannelMonotone(a: real, b: real)
    requires a <= b
    ensures Channel(a) <= Channel(b)
  {
    TruncMonotone(255.999 * a, 255.999 * b);
  }

  /** Black is written "0 0 0\n". */
  lemma Black()
    ensures WriteColor(Zero) == "0 0 0\n"
  {
    assert Channel(0.0) == 0;
    assert WriteColor(Zero) == Triple(0, 0, 0);
    ZeroLine();
  }

  /** The line of three 255s. */
  lemma WhiteLine()
    ensures Triple(255, 255, 255) == "255 255 255\n"
  {
    assert NatToString(2) == "2";
    assert NatToString(25) == NatToString(2) + [DigitChar(5)];
    assert NatToString(255) == NatToString(25) + [DigitChar(5)];
  }

  /** White is written "255 255 255\n". */
  lemma White()
    ensures WriteColor(Vec3(1.0, 1.0, 1.0)) == "255 255 255\n"
  {
    ChannelRange(1.0);
    assert WriteColor(Vec3(1.0, 1.0, 1.0)) == Triple(255, 255, 255);
    WhiteLine();
  }
}
