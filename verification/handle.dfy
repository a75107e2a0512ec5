/**
 * An Imagick handle as the filter sees it: its images (frames), the index of the image that
 * calls on the handle act on, and the log of the state-changing calls and pixel samples
 * issued on it, in order. Size and tag reads are functions of the state and are not logged.
 * The orientation tag and the compression quality belong to each image, so calls that set
 * them act on the current image only. What each call does to pixels is the backend's.
 */
module MagickHandle {
  import opened Wrappers
  import opened ColorMath
  import opened Orientation
  import opened Magick

  class Imagick {
    /** The backend's behaviour, fixed for the handle's lifetime. */
    const backend: Backend
    /** The images of the handle, in order (one for a still image; none once released). */
    var frames: seq<Frame>
    /** The image that calls on the handle itself act on (Imagick's iterator position). */
    var current: nat
    /** Every logged call issued on the handle or on one of its frames, oldest first. */
    var calls: seq<Call>

    /** The handle holds images and points at one of them; a released handle does not. */
    ghost predicate Valid()
      reads this
    {
      current < |frames|
    }

    /** Whether a call on `on` names an image the handle has. */
    ghost predicate Addresses(on: Receiver)
      reads this
    {
      Valid() && (on.LoopFrame? ==> on.index < |frames|)
    }

    /** The image a call on `on` acts on: the current one for the handle, frame `index` for a loop frame. */
    function Target(on: Receiver): (t: nat)
      reads this
      requires Addresses(on)
      ensures t < |frames|
      ensures on.Handle? ==> t == current
      ensures on.LoopFrame? ==> t == on.index
    {
      if on.Handle? then current else on.index
    }

    /** Decodes `loaded` (the backend's result for the input path). */
    constructor (loaded: Loaded, backend: Backend)
      requires loaded.current < |loaded.frames|
      ensures Valid() && this.backend == backend
      ensures frames == loaded.frames && current == loaded.current
      ensures calls == []
    {
      this.backend := backend;
      frames := loaded.frames;
      current := loaded.current;
      calls := [];
    }

    /** The current image's width. */
    function GetImageWidth(): (w: int)
      reads this
      requires Valid()
      ensures w == frames[current].width
    {
      frames[current].width
    }

    /** The current image's height. */
    function GetImageHeight(): (h: int)
      reads this
      requires Valid()
      ensures h == frames[current].height
    {
      frames[current].height
    }

    /** The current image's orientation tag, as the numeric code Imagick returns. */
    function GetImageOrientation(): (c: int)
      reads this
      requires Valid()
      ensures FromExifCode(c) == Some(frames[current].orientation)
    {
      FromExifCodeInverse(frames[current].orientation);
      ExifCode(frames[current].orientation)
    }

    /** One step of a `foreach` over the handle: the handle is positioned at image `index`. */
    method SetIteratorIndex(index: nat)
      requires Valid() && index < |frames|
      modifies this
      ensures Valid() && current == index
      ensures unchanged(this`frames, this`calls)
    {
      current := index;
    }

    /** Sets the compression quality of the current image only. */
    method SetImageCompressionQuality(q: int)
      requires Valid()
      modifies this
      ensures Valid()
      ensures frames == old(frames)[old(current) := old(frames[current]).(quality := q)]
      ensures calls == old(calls) + [Call.SetImageCompressionQuality(q)]
      ensures unchanged(this`current)
    {
      frames := frames[current := frames[current].(quality := q)];
      calls := calls + [Call.SetImageCompressionQuality(q)];
    }

    method ThumbnailImage(on: Receiver, columns: int, rows: int, bestfit: bool)
      requires Addresses(on)
      modifies this
      ensures Valid()
      ensures frames == old(frames)[old(Target(on)) := backend.thumbnail(old(frames[Target(on)]), columns, rows)]
      ensures calls == old(calls) + [Call.ThumbnailImage(on, columns, rows, bestfit)]
      ensures unchanged(this`current)
    {
      var t := Target(on);
      frames := frames[t := backend.thumbnail(frames[t], columns, rows)];
      calls := calls + [Call.ThumbnailImage(on, columns, rows, bestfit)];
    }

    method CropThumbnailImage(on: Receiver, columns: int, rows: int)
      requires Addresses(on)
      modifies this
      ensures Valid()
      ensures frames == old(frames)[old(Target(on)) := backend.cropThumbnail(old(frames[Target(on)]), columns, rows)]
      ensures calls == old(calls) + [Call.CropThumbnailImage(on, columns, rows)]
      ensures unchanged(this`current)
    {
      var t := Target(on);
      frames := frames[t := backend.cropThumbnail(frames[t], columns, rows)];
      calls := calls + [Call.CropThumbnailImage(on, columns, rows)];
    }

    method SetImagePage(on: Receiver, width: int, height: int, x: int, y: int)
      requires Addresses(on)
      modifies this
      ensures Valid()
      ensures frames == old(frames)[old(Target(on)) := old(frames[Target(on)]).(page := Page(width, height, x, y))]
      ensures calls == old(calls) + [Call.SetImagePage(on, width, height, x, y)]
      ensures unchanged(this`current)
    {
      var t := Target(on);
      frames := frames[t := frames[t].(page := Page(width, height, x, y))];
      calls := calls + [Call.SetImagePage(on, width, height, x, y)];
    }

    /** Replaces the current image's pixels by the backend's modulation; its geometry and properties stay. */
    method ModulateImage(brightness: int, saturation: int, hue: int)
      requires Valid()
      modifies this
      ensures Valid()
      ensures frames == old(frames)[old(current) :=
        old(frames[current]).(content := backend.modulate(old(frames[current]), brightness, saturation, hue))]
      ensures calls == old(calls) + [Call.ModulateImage(brightness, saturation, hue)]
      ensures unchanged(this`current)
    {
      frames := frames[current := frames[current].(content := backend.modulate(frames[current], brightness, saturation, hue))];
      calls := calls + [Call.ModulateImage(brightness, saturation, hue)];
    }

    /** Samples the current image, as it is now, at (x, y). */
    method GetImagePixelColor(x: real, y: real) returns (color: Rgb)
      requires Valid()
      modifies this
      ensures Valid() && color == backend.pixelColor(frames[current], x, y)
      ensures calls == old(calls) + [Call.GetImagePixelColor(x, y)]
      ensures unchanged(this`frames, this`current)
    {
      color := backend.pixelColor(frames[current], x, y);
      calls := calls + [Call.GetImagePixelColor(x, y)];
    }

    method FrameImage(color: Rgb, width: real, height: real, innerBevel: int, outerBevel: int)
      requires Valid()
      modifies this
      ensures Valid()
      ensures frames == old(frames)[old(current) := backend.frame(old(frames[current]), color, width, height)]
      ensures calls == old(calls) + [Call.FrameImage(color, width, height, innerBevel, outerBevel)]
      ensures unchanged(this`current)
    {
      frames := frames[current := backend.frame(frames[current], color, width, height)];
      calls := calls + [Call.FrameImage(color, width, height, innerBevel, outerBevel)];
    }

    /** Sets the encoder format of the handle; the filter's own format is not affected. */
    method SetImageFormat(format: string)
      requires Valid()
      modifies this
      ensures Valid()
      ensures calls == old(calls) + [Call.SetImageFormat(format)]
      ensures unchanged(this`frames, this`current)
    {
      calls := calls + [Call.SetImageFormat(format)];
    }

    /** Writes every image of the handle; the result is the backend's. */
    method WriteImages(path: string, adjoin: bool) returns (ok: bool)
      requires Valid()
      modifies this
      ensures Valid() && ok == backend.write(path, true)
      ensures calls == old(calls) + [Call.WriteImages(path, adjoin)]
      ensures unchanged(this`frames, this`current)
    {
      ok := backend.write(path, true);
      calls := calls + [Call.WriteImages(path, adjoin)];
    }

    /** Writes the current image; the result is the backend's. */
    method WriteImage(path: string) returns (ok: bool)
      requires Valid()
      modifies this
      ensures Valid() && ok == backend.write(path, false)
      ensures calls == old(calls) + [Call.WriteImage(path)]
      ensures unchanged(this`frames, this`current)
    {
      ok := backend.write(path, false);
      calls := calls + [Call.WriteImage(path)];
    }

    method RotateImage(degrees: int)
      requires Valid()
      modifies this
      ensures Valid()
      ensures frames == old(frames)[old(current) := backend.rotate(old(frames[current]), degrees)]
      ensures calls == old(calls) + [Call.RotateImage(degrees)]
      ensures unchanged(this`current)
    {
      frames := frames[current := backend.rotate(frames[current], degrees)];
      calls := calls + [Call.RotateImage(degrees)];
    }

    method FlipImage()
      requires Valid()
      modifies this
      ensures Valid()
      ensures frames == old(frames)[old(current) := backend.flip(old(frames[current]))]
      ensures calls == old(calls) + [Call.FlipImage]
      ensures unchanged(this`current)
    {
      frames := frames[current := backend.flip(frames[current])];
      calls := calls + [Call.FlipImage];
    }

    /** Sets the orientation tag of the current image only. */
    method SetImageOrientation(o: Orientation)
      requires Valid()
      modifies this
      ensures Valid()
      ensures frames == old(frames)[old(current) := old(frames[current]).(orientation := o)]
      ensures calls == old(calls) + [Call.SetImageOrientation(o)]
      ensures unchanged(this`current)
    {
      frames := frames[current := frames[current].(orientation := o)];
      calls := calls + [Call.SetImageOrientation(o)];
    }

    /**
     * Releases the handle's images. Nothing guards later use; the handle is then no longer
     * `Valid()`, so no further call is admitted.
     */
    method Destroy()
      requires Valid()
      modifies this
      ensures frames == [] && !Valid()
      ensures calls == old(calls) + [Call.Destroy]
      ensures unchanged(this`current)
    {
      frames := [];
      calls := calls + [Call.Destroy];
    }
  }
}
