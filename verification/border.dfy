/** Border padding: the colour it samples and the frame widths it asks the backend for. */
module BorderPadder {
  import opened ColorMath
  import opened Magick

  /** The direction values the padding routine distinguishes. */
  const DIR_WIDTH: string := "width"
  const DIR_HEIGHT: string := "height"
  const DIR_BOTH: string := "both"

  /** Half of the shortfall from `current` to `target`; negative when `current` is larger. */
  function HalfShortfall(target: int, current: int): (r: real)
    ensures r + r + current as real == target as real
  {
    (target - current) as real / 2.0
  }

  /**
   * Whether `addBorder` pads at all: the image is narrower or lower than the target, that is,
   * at least one of the two pads it would ask for is positive.
   */
  predicate NeedsBorder(imgWidth: int, imgHeight: int, width: int, height: int)
    ensures NeedsBorder(imgWidth, imgHeight, width, height) <==>
      HalfShortfall(width, imgWidth) > 0.0 || HalfShortfall(height, imgHeight) > 0.0
  {
    imgWidth < width || imgHeight < height
  }

  /**
   * The calls the padding routine issues on the current image `f` for target `width` x
   * `height`; every sample is taken from `f`. "width" averages the samples at the left edge
   * and one past the right edge, halfway down, and pads sideways only; "height" samples the
   * left edge at a height of half the width and pads top and bottom only; any other direction
   * samples the left edge halfway down and pads on both axes.
   */
  function BorderCalls(dir: string, b: Backend, f: Frame, width: int, height: int): (cs: seq<Call>)
    ensures |cs| == (if dir == DIR_WIDTH then 3 else 2)
    ensures cs[|cs| - 1].FrameImage? && cs[|cs| - 1].innerBevel == 0 && cs[|cs| - 1].outerBevel == 0
    ensures forall i :: 0 <= i < |cs| - 1 ==> cs[i].GetImagePixelColor?
  {
    if dir == DIR_WIDTH then
      var left := b.pixelColor(f, 0.0, f.height as real / 2.0);
      var right := b.pixelColor(f, f.width as real, f.height as real / 2.0);
      [GetImagePixelColor(0.0, f.height as real / 2.0),
       GetImagePixelColor(f.width as real, f.height as real / 2.0),
       FrameImage(AvgColor(left, right), HalfShortfall(width, f.width), 0.0, 0, 0)]
    else if dir == DIR_HEIGHT then
      [GetImagePixelColor(0.0, f.width as real / 2.0),
       FrameImage(b.pixelColor(f, 0.0, f.width as real / 2.0), 0.0, HalfShortfall(height, f.height), 0, 0)]
    else
      [GetImagePixelColor(0.0, f.height as real / 2.0),
       FrameImage(b.pixelColor(f, 0.0, f.height as real / 2.0), HalfShortfall(width, f.width), HalfShortfall(height, f.height), 0, 0)]
  }

  /** Whether a call pads the canvas. */
  predicate IsFraming(c: Call) {
    c.FrameImage?
  }

  /**
   * Every direction issues exactly one framing call, as the last call. In the "both" direction
   * its colour is the single sample of the image at the left edge halfway down, and the pads
   * on each side add up with the current size to exactly the target size on both axes.
   */
  lemma BothBorder(b: Backend, f: Frame, width: int, height: int)
    ensures var cs := BorderCalls(DIR_BOTH, b, f, width, height);
      && |cs| == 2
      && cs[0] == GetImagePixelColor(0.0, f.height as real / 2.0)
      && Count(cs, IsFraming) == 1
      && cs[1].FrameImage?
      && cs[1].color == b.pixelColor(f, 0.0, f.height as real / 2.0)
      && 2.0 * cs[1].frameWidth + f.width as real == width as real
      && 2.0 * cs[1].frameHeight + f.height as real == height as real
      && cs[1].innerBevel == 0 && cs[1].outerBevel == 0
  {
    var cs := BorderCalls(DIR_BOTH, b, f, width, height);
    assert cs[1..][1..] == [];
  }

  /**
   * The "width" direction pads sideways only, with the mean of its two samples of the image,
   * the second of which lies one column past the right edge.
   */
  lemma WidthBorder(b: Backend, f: Frame, width: int, height: int)
    ensures var cs := BorderCalls(DIR_WIDTH, b, f, width, height);
      && |cs| == 3
      && cs[1] == GetImagePixelColor(f.width as real, f.height as real / 2.0)
      && cs[2].FrameImage?
      && cs[2].color == AvgColor(b.pixelColor(f, 0.0, f.height as real / 2.0), b.pixelColor(f, f.width as real, f.height as real / 2.0))
      && 2.0 * cs[2].frameWidth + f.width as real == width as real
      && cs[2].frameHeight == 0.0
  {
  }

  /**
   * The "height" direction pads top and bottom only, and samples at a height of half the
   * image's width, not its height.
   */
  lemma HeightBorder(b: Backend, f: Frame, width: int, height: int)
    ensures var cs := BorderCalls(DIR_HEIGHT, b, f, width, height);
      && |cs| == 2
      && cs[0] == GetImagePixelColor(0.0, f.width as real / 2.0)
      && cs[1].FrameImage?
      && cs[1].frameWidth == 0.0
      && 2.0 * cs[1].frameHeight + f.height as real == height as real
  {
  }

  /**
   * `addBorder` pads when only one axis falls short; the other axis then gets a negative
   * frame width whenever the image already exceeds the target on it.
   */
  lemma OneAxisShortfall(b: Backend, f: Frame, width: int, height: int)
    requires f.width > width && f.height < height
    ensures NeedsBorder(f.width, f.height, width, height)
    ensures BorderCalls(DIR_BOTH, b, f, width, height)[1].frameWidth < 0.0
    ensures BorderCalls(DIR_BOTH, b, f, width, height)[1].frameHeight > 0.0
  {
  }
}
