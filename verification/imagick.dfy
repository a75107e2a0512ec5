/**
 * The abstract Imagick handle the filter drives: what an image frame looks like to the
 * filter, the backend calls it issues, and the backend's effects, which stay uninterpreted.
 */
module Magick {
  import opened ColorMath
  import opened Orientation

  /** A frame's declared canvas: size and offset, independent of its pixel size. */
  datatype Page = Page(width: int, height: int, x: int, y: int)

  /**
   * One image of the handle, as far as the filter can observe it: its size, its page, its
   * pixels (an opaque token the backend alone interprets), and the two per-image properties
   * the filter sets, the orientation tag and the compression quality.
   */
  datatype Frame = Frame(width: int, height: int, page: Page, content: nat, orientation: Orientation, quality: int)

  /**
   * The object a call is issued on: the handle itself (`$this->_image`) or the loop
   * variable of a `foreach` over the handle, at frame `index`.
   */
  datatype Receiver = Handle | LoopFrame(index: nat)

  /** The backend calls the filter issues, with their arguments. */
  datatype Call =
    | SetImageCompressionQuality(quality: int)
    | ThumbnailImage(on: Receiver, columns: int, rows: int, bestfit: bool)
    | CropThumbnailImage(on: Receiver, columns: int, rows: int)
    | SetImagePage(on: Receiver, width: int, height: int, x: int, y: int)
    | ModulateImage(brightness: int, saturation: int, hue: int)
    | GetImagePixelColor(px: real, py: real)
    | FrameImage(color: Rgb, frameWidth: real, frameHeight: real, innerBevel: int, outerBevel: int)
    | SetImageFormat(format: string)
    | WriteImages(path: string, adjoin: bool)
    | WriteImage(path: string)
    | RotateImage(degrees: int)
    | FlipImage
    | SetImageOrientation(orientation: Orientation)
    | Destroy

  /** Whether a call resamples a frame. */
  predicate IsResample(c: Call) {
    c.ThumbnailImage? || c.CropThumbnailImage?
  }

  /** The number of calls in `cs` that satisfy `p`: zero exactly when none does, all exactly when all do. */
  function Count(cs: seq<Call>, p: Call -> bool): (n: nat)
    ensures n <= |cs|
    ensures n == 0 <==> forall i :: 0 <= i < |cs| ==> !p(cs[i])
    ensures n == |cs| <==> forall i :: 0 <= i < |cs| ==> p(cs[i])
  {
    if cs == [] then 0 else (if p(cs[0]) then 1 else 0) + Count(cs[1..], p)
  }

  /** Counting distributes over concatenation. */
  lemma {:induction false} CountAppend(a: seq<Call>, b: seq<Call>, p: Call -> bool)
    ensures Count(a + b, p) == Count(a, p) + Count(b, p)
  {
    if a == [] {
      assert a + b == b;
    } else {
      assert (a + b)[1..] == a[1..] + b;
      CountAppend(a[1..], b, p);
    }
  }

  /**
   * What the backend does, left uninterpreted: the frame a resample, a framing, a rotation
   * or a flip produces, the pixels a modulation leaves, the colour of a frame at a point,
   * and the result of a write (whose second argument says whether all frames are written).
   */
  datatype Backend = Backend(
    thumbnail: (Frame, int, int) -> Frame,
    cropThumbnail: (Frame, int, int) -> Frame,
    frame: (Frame, Rgb, real, real) -> Frame,
    rotate: (Frame, int) -> Frame,
    flip: Frame -> Frame,
    modulate: (Frame, int, int, int) -> nat,
    pixelColor: (Frame, real, real) -> Rgb,
    write: (string, bool) -> bool)

  /** The image the backend decoded from the input path. */
  datatype Loaded = Loaded(frames: seq<Frame>, current: nat)
}
