/**
 * The fluent filter around one Imagick handle: format selection at construction, the three
 * resize operations, desaturation, border padding, orientation normalisation, format
 * change, writing and release.
 */
module Filter {
  import opened Wrappers
  import opened ColorMath
  import opened Geometry
  import opened Orientation
  import opened Magick
  import opened MagickHandle
  import opened Format
  import opened Thumbnailer
  import opened BorderPadder
  import opened Normaliser

  /** A PHP error raised by a call. */
  datatype Thrown = UndefinedMethod(name: string)

  class ImageFilter {
    /** The owned handle (`$_image`). */
    const image: Imagick
    /** The format chosen at construction (`$_format`); it decides the gif handling. */
    var format: string

    ghost predicate Valid()
      reads this, image
    {
      image.Valid()
    }

    /**
     * A filter over the image decoded from the input path (`loaded`), whose extension is
     * `extension`. The format is `format` verbatim when given, else the lower-cased extension.
     */
    constructor (loaded: Loaded, backend: Backend, extension: string, format: Option<string> := None)
      requires loaded.current < |loaded.frames|
      ensures Valid() && fresh(image)
      ensures image.frames == loaded.frames && image.current == loaded.current
      ensures image.backend == backend && image.calls == []
      ensures this.format == SelectFormat(format, extension)
    {
      image := new Imagick(loaded, backend);
      if format.None? {
        this.format := Lower(extension);
      } else {
        this.format := format.value;
      }
    }

    /** The handle's state after a resize of kind `kind` that proceeded from the given old state. */
    ghost predicate ResizedFrom(kind: Kind, fs: seq<Frame>, current: nat, cs: seq<Call>, w: int, h: int, quality: int)
      reads this, image
      requires current < |fs|
    {
      && image.calls == cs + ResizeCalls(kind, image.backend, format, fs, current, w, h, quality)
      && image.frames == ResizeFrames(kind, image.backend, format, fs, current, w, h, quality)
      && image.current == ResizeCurrent(format, fs, current)
    }

    /**
     * Fits the image into `newWidth` x `newHeight`, keeping its aspect ratio, unless the
     * behaviour `resize` says to skip; a gif is resized frame by frame.
     */
    method FilterResize(newWidth: int, newHeight: int, resize: string := RESIZE_BOTH, quality: int := 90)
      returns (self: ImageFilter)
      requires Valid()
      modifies image
      ensures self == this && Valid() && format == old(format)
      ensures !ShouldResize(old(image.GetImageWidth()), old(image.GetImageHeight()), newWidth, newHeight, resize) ==>
        unchanged(image)
      ensures ShouldResize(old(image.GetImageWidth()), old(image.GetImageHeight()), newWidth, newHeight, resize) ==>
        ResizedFrom(Fit, old(image.frames), old(image.current), old(image.calls), newWidth, newHeight, quality)
    {
      self := this;
      if !ShouldResize(image.GetImageWidth(), image.GetImageHeight(), newWidth, newHeight, resize) {
        return;
      }
      Resample(Fit, newWidth, newHeight, quality);
    }

    /**
     * Resizes and crops the image to exactly `newWidth` x `newHeight` (as far as the backend's
     * crop does so), unless the behaviour `resize` says to skip.
     */
    method FilterResizeCrop(newWidth: int, newHeight: int, resize: string := RESIZE_BOTH, quality: int := 90)
      returns (self: ImageFilter)
      requires Valid()
      modifies image
      ensures self == this && Valid() && format == old(format)
      ensures !ShouldResize(old(image.GetImageWidth()), old(image.GetImageHeight()), newWidth, newHeight, resize) ==>
        unchanged(image)
      ensures ShouldResize(old(image.GetImageWidth()), old(image.GetImageHeight()), newWidth, newHeight, resize) ==>
        ResizedFrom(Fill, old(image.frames), old(image.current), old(image.calls), newWidth, newHeight, quality)
    {
      self := this;
      if !ShouldResize(image.GetImageWidth(), image.GetImageHeight(), newWidth, newHeight, resize) {
        return;
      }
      Resample(Fill, newWidth, newHeight, quality);
    }

    /**
     * The square resize as written: its first statement calls `_checkResizeBahavior`, which the
     * class does not define, so every call raises an error before anything happens.
     */
    method FilterResizeQuad(newWidthAndHeight: int, resize: string := RESIZE_BOTH, quality: int := 90)
      returns (r: Result<ImageFilter, Thrown>)
      requires Valid()
      ensures r == Err(UndefinedMethod("ImageFilter::_checkResizeBahavior"))
    {
      r := Err(UndefinedMethod("ImageFilter::_checkResizeBahavior"));
    }

    /**
     * The square resize with the skip rule it evidently meant to call: resizes and crops to
     * `newWidthAndHeight` on both axes, and tags each gif frame with that square page.
     */
    method FilterResizeQuadCorrected(newWidthAndHeight: int, resize: string := RESIZE_BOTH, quality: int := 90)
      returns (self: ImageFilter)
      requires Valid()
      modifies image
      ensures self == this && Valid() && format == old(format)
      ensures !ShouldResize(old(image.GetImageWidth()), old(image.GetImageHeight()), newWidthAndHeight, newWidthAndHeight, resize) ==>
        unchanged(image)
      ensures ShouldResize(old(image.GetImageWidth()), old(image.GetImageHeight()), newWidthAndHeight, newWidthAndHeight, resize) ==>
        ResizedFrom(Square, old(image.frames), old(image.current), old(image.calls), newWidthAndHeight, newWidthAndHeight, quality)
    {
      self := this;
      if !ShouldResize(image.GetImageWidth(), image.GetImageHeight(), newWidthAndHeight, newWidthAndHeight, resize) {
        return;
      }
      Resample(Square, newWidthAndHeight, newWidthAndHeight, quality);
    }

    /**
     * The part the resize operations share once they proceed: set the quality of the current
     * image, then for a gif visit every frame in order, resample it and re-tag its page;
     * otherwise resample the handle once.
     */
    method Resample(kind: Kind, w: int, h: int, quality: int)
      requires Valid()
      modifies image
      ensures Valid() && format == old(format)
      ensures ResizedFrom(kind, old(image.frames), old(image.current), old(image.calls), w, h, quality)
    {
      image.SetImageCompressionQuality(quality);
      if format == FORMAT_GIF {
        ResampleEachFrame(kind, w, h);
      } else if kind == Fit {
        image.ThumbnailImage(Handle, w, h, true);
      } else {
        image.CropThumbnailImage(Handle, w, h);
      }
    }

    /** The `foreach` over the frames of a gif: every frame in order, one resample and one page call each. */
    method ResampleEachFrame(kind: Kind, w: int, h: int)
      requires Valid()
      modifies image
      ensures Valid()
      ensures |image.frames| == |old(image.frames)|
      ensures image.frames == seq(|old(image.frames)|, i requires 0 <= i < |old(image.frames)| => FrameResult(kind, image.backend, old(image.frames[i]), w, h))
      ensures image.calls == old(image.calls) + LoopCalls(kind, image.backend, old(image.frames), w, h, |old(image.frames)|)
      ensures image.current == |old(image.frames)| - 1
    {
      ghost var fs := image.frames;
      ghost var cs := image.calls;
      var n := |image.frames|;
      var i := 0;
      while i < n
        invariant 0 <= i <= n == |fs| && |image.frames| == n
        invariant image.Valid()
        invariant image.current == if i == 0 then old(image.current) else i - 1
        invariant forall j :: 0 <= j < i ==> image.frames[j] == FrameResult(kind, image.backend, fs[j], w, h)
        invariant forall j :: i <= j < n ==> image.frames[j] == fs[j]
        invariant image.calls == cs + LoopCalls(kind, image.backend, fs, w, h, i)
      {
        ResampleFrame(kind, i, w, h);
        i := i + 1;
      }
    }

    /** One pass of the gif loop: position the handle at frame `i`, resample it, re-tag its page. */
    method ResampleFrame(kind: Kind, i: nat, w: int, h: int)
      requires Valid() && i < |image.frames|
      modifies image
      ensures Valid() && image.current == i
      ensures image.frames == old(image.frames)[i := FrameResult(kind, image.backend, old(image.frames[i]), w, h)]
      ensures image.calls == old(image.calls) + FrameCalls(kind, image.backend, old(image.frames[i]), i, w, h)
    {
      image.SetIteratorIndex(i);
      match kind {
        case Fit =>
          image.ThumbnailImage(LoopFrame(i), w, h, true);
          // `$frame` is the handle itself, positioned at frame i.
          var fw, fh := image.GetImageWidth(), image.GetImageHeight();
          image.SetImagePage(LoopFrame(i), fw, fh, 0, 0);
        case Fill =>
          image.CropThumbnailImage(Handle, w, h);
          var fw, fh := image.GetImageWidth(), image.GetImageHeight();
          image.SetImagePage(LoopFrame(i), fw, fh, 0, 0);
        case Square =>
          image.CropThumbnailImage(Handle, w, h);
          image.SetImagePage(LoopFrame(i), w, h, 0, 0);
      }
    }

    /**
     * Removes the colour saturation of the current image: its pixels become the backend's
     * modulation at (100, 0, 100); its size, page, tag and quality stay.
     */
    method FilterDesaturate() returns (self: ImageFilter)
      requires Valid()
      modifies image
      ensures self == this && Valid()
      ensures image.calls == old(image.calls) + [ModulateImage(100, 0, 100)]
      ensures image.frames == old(image.frames)[old(image.current) :=
        old(image.frames[image.current]).(content := image.backend.modulate(old(image.frames[image.current]), 100, 0, 100))]
      ensures unchanged(image`current)
    {
      self := this;
      image.ModulateImage(100, 0, 100);
    }

    /** The padding routine (`_addBorder`) in direction `dir` towards `width` x `height`. */
    method AddBorderIn(dir: string, width: int, height: int)
      requires Valid()
      modifies image
      ensures Valid()
      ensures image.calls == old(image.calls) + BorderCalls(dir, image.backend, old(image.frames[image.current]), width, height)
      ensures image.frames == old(image.frames)[old(image.current) :=
        var cs := BorderCalls(dir, image.backend, old(image.frames[image.current]), width, height);
        image.backend.frame(old(image.frames[image.current]), cs[|cs| - 1].color, cs[|cs| - 1].frameWidth, cs[|cs| - 1].frameHeight)]
      ensures unchanged(image`current)
    {
      var imgWidth, imgHeight := image.GetImageWidth(), image.GetImageHeight();
      if dir == DIR_WIDTH {
        var leftPix := image.GetImagePixelColor(0.0, imgHeight as real / 2.0);
        var rightPix := image.GetImagePixelColor(imgWidth as real, imgHeight as real / 2.0);
        var avgColor := AvgColor(leftPix, rightPix);
        image.FrameImage(avgColor, HalfShortfall(width, imgWidth), 0.0, 0, 0);
      } else if dir == DIR_HEIGHT {
        var pixColor := image.GetImagePixelColor(0.0, imgWidth as real / 2.0);
        image.FrameImage(pixColor, 0.0, HalfShortfall(height, imgHeight), 0, 0);
      } else {
        var pixColor := image.GetImagePixelColor(0.0, imgHeight as real / 2.0);
        image.FrameImage(pixColor, HalfShortfall(width, imgWidth), HalfShortfall(height, imgHeight), 0, 0);
      }
    }

    /** Pads the image out to `width` x `height` unless it already reaches both. */
    method AddBorder(width: int, height: int)
      requires Valid()
      modifies image
      ensures Valid()
      ensures !NeedsBorder(old(image.GetImageWidth()), old(image.GetImageHeight()), width, height) ==> unchanged(image)
      ensures NeedsBorder(old(image.GetImageWidth()), old(image.GetImageHeight()), width, height) ==>
        && image.calls == old(image.calls) + BorderCalls(DIR_BOTH, image.backend, old(image.frames[image.current]), width, height)
        && image.frames == old(image.frames)[old(image.current) :=
             image.backend.frame(old(image.frames[image.current]),
                                 image.backend.pixelColor(old(image.frames[image.current]), 0.0, old(image.GetImageHeight()) as real / 2.0),
                                 HalfShortfall(width, old(image.GetImageWidth())), HalfShortfall(height, old(image.GetImageHeight())))]
        && unchanged(image`current)
    {
      var imgWidth, imgHeight := image.GetImageWidth(), image.GetImageHeight();
      if imgWidth < width || imgHeight < height {
        AddBorderIn(DIR_BOTH, width, height);
      }
    }

    /** Passes a format to the handle; the filter's own format, and so the gif handling, stay. */
    method SetImageFormat(format: string) returns (self: ImageFilter)
      requires Valid()
      modifies image
      ensures self == this && Valid() && this.format == old(this.format)
      ensures image.calls == old(image.calls) + [Call.SetImageFormat(format)]
      ensures unchanged(image`frames, image`current)
    {
      self := this;
      image.SetImageFormat(format);
    }

    /** Writes all frames for gif, the one image otherwise; the result is the backend's. */
    method WriteImage(pathOut: string) returns (ok: bool)
      requires Valid()
      modifies image
      ensures Valid()
      ensures image.calls == old(image.calls) + [WriteCall(format, pathOut)]
      ensures ok == image.backend.write(pathOut, format == FORMAT_GIF)
      ensures unchanged(image`frames, image`current)
    {
      if format == FORMAT_GIF {
        ok := image.WriteImages(pathOut, true);
      } else {
        ok := image.WriteImage(pathOut);
      }
    }

    /**
     * Reads the current image's tag, applies the rotation and flip it calls for (as written),
     * then clears that image's tag. Always succeeds. Only the current image is touched: after
     * a gif resize, which leaves the handle on the last frame, that is the last frame.
     */
    method ProcessOrientation() returns (ok: bool)
      requires Valid()
      modifies image
      ensures Valid() && ok
      ensures image.calls == old(image.calls) + OrientationCalls(old(image.frames[image.current].orientation))
      ensures image.frames == old(image.frames)[old(image.current) :=
        Replay(image.backend, old(image.frames[image.current]), OrientationCalls(old(image.frames[image.current].orientation)))]
      ensures image.frames[image.current].orientation == Undefined
      ensures unchanged(image`current)
    {
      var code := image.GetImageOrientation();
      ExifCodeInverse(code);
      if code == ExifCode(Undefined) {
        return true;
      }
      var orientation := FromExifCode(code).value;
      ghost var f0 := image.frames[image.current];
      if orientation == BottomLeft || orientation == BottomRight {
        image.RotateImage(180);
      }
      if orientation == LeftBottom || orientation == LeftTop {
        image.RotateImage(-90);
      }
      if orientation == RightBottom || orientation == RightTop {
        image.RotateImage(90);
      }
      if Mirrored(orientation) {
        image.FlipImage();
      }
      image.SetImageOrientation(Undefined);
      ReplayOrientation(image.backend, f0, orientation);
      return true;
    }

    /**
     * The orientation normalisation with the corrected table: the half turn goes with TopRight
     * and BottomRight, which puts every tagged image upright.
     */
    method ProcessOrientationCorrected() returns (ok: bool)
      requires Valid()
      modifies image
      ensures Valid() && ok
      ensures image.calls == old(image.calls) + CorrectedOrientationCalls(old(image.frames[image.current].orientation))
      ensures image.frames == old(image.frames)[old(image.current) :=
        Replay(image.backend, old(image.frames[image.current]), CorrectedOrientationCalls(old(image.frames[image.current].orientation)))]
      ensures image.frames[image.current].orientation == Undefined
      ensures unchanged(image`current)
    {
      var code := image.GetImageOrientation();
      ExifCodeInverse(code);
      if code == ExifCode(Undefined) {
        return true;
      }
      var orientation := FromExifCode(code).value;
      ghost var f0 := image.frames[image.current];
      if orientation == TopRight || orientation == BottomRight {
        image.RotateImage(180);
      }
      if orientation == LeftBottom || orientation == LeftTop {
        image.RotateImage(-90);
      }
      if orientation == RightBottom || orientation == RightTop {
        image.RotateImage(90);
      }
      if Mirrored(orientation) {
        image.FlipImage();
      }
      image.SetImageOrientation(Undefined);
      ReplayCorrectedOrientation(image.backend, f0, orientation);
      return true;
    }

    /** Releases the handle's images; nothing in the filter guards later calls. */
    method Destroy()
      requires Valid()
      modifies image
      ensures image.frames == [] && !Valid()
      ensures image.calls == old(image.calls) + [Call.Destroy]
      ensures unchanged(image`current)
    {
      image.Destroy();
    }
  }

  /**
   * The frame left after replaying the rotate, flip and tag calls of `cs` on `f`, first call
   * first; other calls leave it as it is.
   */
  function Replay(b: Backend, f: Frame, cs: seq<Call>): (r: Frame)
    ensures (forall i :: 0 <= i < |cs| ==> !cs[i].RotateImage? && !cs[i].FlipImage? && !cs[i].SetImageOrientation?) ==> r == f
    decreases |cs|
  {
    if cs == [] then f
    else
      var g := match cs[0]
        case RotateImage(degrees) => b.rotate(f, degrees)
        case FlipImage => b.flip(f)
        case SetImageOrientation(o) => f.(orientation := o)
        case _ => f;
      Replay(b, g, cs[1..])
  }

  /** Replaying the normaliser's calls applies its rotation, if any, then its flip, if any, then clears the tag. */
  lemma ReplayOrientation(b: Backend, f: Frame, o: Orientation)
    requires o != Undefined
    ensures Replay(b, f, OrientationCalls(o)) ==
      var r := if o == BottomLeft || o == BottomRight then b.rotate(f, 180)
               else if o == LeftBottom || o == LeftTop then b.rotate(f, -90)
               else if o == RightBottom || o == RightTop then b.rotate(f, 90)
               else f;
      (if Mirrored(o) then b.flip(r) else r).(orientation := Undefined)
  {
    var reset := [SetImageOrientation(Undefined)];
    ReplayReset(b, f);
    ReplayReset(b, b.flip(f));
    match o
    case TopLeft =>
      assert OrientationCalls(o) == reset;
    case TopRight =>
      assert OrientationCalls(o) == [FlipImage] + reset;
    case BottomRight =>
      assert OrientationCalls(o) == [RotateImage(180)] + [] + reset;
      ReplayRotation(b, f, 180, false);
    case BottomLeft =>
      assert OrientationCalls(o) == [RotateImage(180)] + [FlipImage] + reset;
      ReplayRotation(b, f, 180, true);
    case LeftTop =>
      assert OrientationCalls(o) == [RotateImage(-90)] + [FlipImage] + reset;
      ReplayRotation(b, f, -90, true);
    case RightTop =>
      assert OrientationCalls(o) == [RotateImage(90)] + [] + reset;
      ReplayRotation(b, f, 90, false);
    case RightBottom =>
      assert OrientationCalls(o) == [RotateImage(90)] + [FlipImage] + reset;
      ReplayRotation(b, f, 90, true);
    case LeftBottom =>
      assert OrientationCalls(o) == [RotateImage(-90)] + [] + reset;
      ReplayRotation(b, f, -90, false);
  }

  /** Replaying the corrected calls applies its rotation, if any, then its flip, if any, then clears the tag. */
  lemma ReplayCorrectedOrientation(b: Backend, f: Frame, o: Orientation)
    requires o != Undefined
    ensures Replay(b, f, CorrectedOrientationCalls(o)) ==
      var r := if o == TopRight || o == BottomRight then b.rotate(f, 180)
               else if o == LeftBottom || o == LeftTop then b.rotate(f, -90)
               else if o == RightBottom || o == RightTop then b.rotate(f, 90)
               else f;
      (if Mirrored(o) then b.flip(r) else r).(orientation := Undefined)
  {
    var reset := [SetImageOrientation(Undefined)];
    ReplayReset(b, f);
    ReplayReset(b, b.flip(f));
    match o
    case TopLeft =>
      assert CorrectedOrientationCalls(o) == reset;
    case BottomLeft =>
      assert CorrectedOrientationCalls(o) == [FlipImage] + reset;
    case BottomRight =>
      assert CorrectedOrientationCalls(o) == [RotateImage(180)] + [] + reset;
      ReplayRotation(b, f, 180, false);
    case TopRight =>
      assert CorrectedOrientationCalls(o) == [RotateImage(180)] + [FlipImage] + reset;
      ReplayRotation(b, f, 180, true);
    case LeftTop =>
      assert CorrectedOrientationCalls(o) == [RotateImage(-90)] + [FlipImage] + reset;
      ReplayRotation(b, f, -90, true);
    case RightTop =>
      assert CorrectedOrientationCalls(o) == [RotateImage(90)] + [] + reset;
      ReplayRotation(b, f, 90, false);
    case RightBottom =>
      assert CorrectedOrientationCalls(o) == [RotateImage(90)] + [FlipImage] + reset;
      ReplayRotation(b, f, 90, true);
    case LeftBottom =>
      assert CorrectedOrientationCalls(o) == [RotateImage(-90)] + [] + reset;
      ReplayRotation(b, f, -90, false);
  }

  /** Replaying the tag reset alone clears the tag and nothing else. */
  lemma ReplayReset(b: Backend, f: Frame)
    ensures Replay(b, f, [SetImageOrientation(Undefined)]) == f.(orientation := Undefined)
  {
    assert [SetImageOrientation(Undefined)][1..] == [];
  }

  /** Replaying a rotation, an optional flip and the tag reset. */
  lemma ReplayRotation(b: Backend, f: Frame, degrees: int, flip: bool)
    ensures Replay(b, f, [RotateImage(degrees)] + (if flip then [FlipImage] else []) + [SetImageOrientation(Undefined)])
         == (if flip then b.flip(b.rotate(f, degrees)) else b.rotate(f, degrees)).(orientation := Undefined)
  {
    var rest := (if flip then [FlipImage] else []) + [SetImageOrientation(Undefined)];
    var cs := [RotateImage(degrees)] + rest;
    assert [RotateImage(degrees)] + (if flip then [FlipImage] else []) + [SetImageOrientation(Undefined)] == cs;
    assert cs[1..] == rest;
    var r := b.rotate(f, degrees);
    assert Replay(b, f, cs) == Replay(b, r, rest);
    ReplayReset(b, r);
    if flip {
      assert rest[1..] == [SetImageOrientation(Undefined)];
      assert Replay(b, r, rest) == Replay(b, b.flip(r), [SetImageOrientation(Undefined)]);
      ReplayReset(b, b.flip(r));
    }
  }
}
