/**
 * What the three resize operations do once the skip rule lets them proceed: the calls they
 * issue and the frames they leave, for a gif (frame by frame) and for any other format.
 */
module Thumbnailer {
  import opened Magick
  import opened Format

  /**
   * The three resize operations: fit inside the box (`filterResize`), fill the box and crop
   * (`filterResizeCrop`), and fill a square (`filterResizeQuad`, once it can run at all).
   */
  datatype Kind = Fit | Fill | Square

  /** The frame with its page geometry set to its own size at offset (0, 0). */
  function Repaged(f: Frame): (r: Frame)
    ensures r.width == f.width && r.height == f.height
    ensures r.page == Page(r.width, r.height, 0, 0)
  {
    f.(page := Page(f.width, f.height, 0, 0))
  }

  /**
   * The calls the gif loop issues for frame `i` (holding `f`). The fill and square loops
   * crop through the handle itself, not through the loop's frame.
   */
  function FrameCalls(kind: Kind, b: Backend, f: Frame, i: nat, w: int, h: int): (cs: seq<Call>)
    ensures |cs| == 2 && IsResample(cs[0]) && cs[1].SetImagePage? && cs[1].on == LoopFrame(i)
  {
    match kind
    case Fit =>
      var t := b.thumbnail(f, w, h);
      [ThumbnailImage(LoopFrame(i), w, h, true), SetImagePage(LoopFrame(i), t.width, t.height, 0, 0)]
    case Fill =>
      var t := b.cropThumbnail(f, w, h);
      [CropThumbnailImage(Handle, w, h), SetImagePage(LoopFrame(i), t.width, t.height, 0, 0)]
    case Square =>
      [CropThumbnailImage(Handle, w, h), SetImagePage(LoopFrame(i), w, h, 0, 0)]
  }

  /** The frame the gif loop leaves in place of `f`. */
  function FrameResult(kind: Kind, b: Backend, f: Frame, w: int, h: int): (r: Frame)
    ensures kind != Square ==> r.width == SingleResult(kind, b, f, w, h).width && r.height == SingleResult(kind, b, f, w, h).height
    ensures r.page == if kind == Square then Page(w, h, 0, 0) else Page(r.width, r.height, 0, 0)
  {
    match kind
    case Fit => Repaged(b.thumbnail(f, w, h))
    case Fill => Repaged(b.cropThumbnail(f, w, h))
    case Square => b.cropThumbnail(f, w, h).(page := Page(w, h, 0, 0))
  }

  /** The calls the gif loop issues for the first `k` frames of `fs`, frame after frame. */
  function LoopCalls(kind: Kind, b: Backend, fs: seq<Frame>, w: int, h: int, k: nat): (cs: seq<Call>)
    requires k <= |fs|
    ensures |cs| == 2 * k
  {
    if k == 0 then [] else LoopCalls(kind, b, fs, w, h, k - 1) + FrameCalls(kind, b, fs[k - 1], k - 1, w, h)
  }

  /** The one resample call issued on the handle for a format other than gif. */
  function SingleCall(kind: Kind, w: int, h: int): (c: Call)
    ensures IsResample(c) && c.on == Handle && c.columns == w && c.rows == h
    ensures c.ThumbnailImage? <==> kind == Fit
  {
    if kind == Fit then ThumbnailImage(Handle, w, h, true) else CropThumbnailImage(Handle, w, h)
  }

  /** The image that one resample call leaves in place of `f`. */
  function SingleResult(kind: Kind, b: Backend, f: Frame, w: int, h: int): (r: Frame)
    ensures r == if SingleCall(kind, w, h).ThumbnailImage? then b.thumbnail(f, w, h) else b.cropThumbnail(f, w, h)
  {
    if kind == Fit then b.thumbnail(f, w, h) else b.cropThumbnail(f, w, h)
  }

  /** Everything a resize that proceeds issues: the quality first, then the resampling. */
  function ResizeCalls(kind: Kind, b: Backend, format: string, fs: seq<Frame>, current: nat, w: int, h: int, quality: int): (cs: seq<Call>)
    requires current < |fs|
    ensures |cs| == if format == FORMAT_GIF then 1 + 2 * |fs| else 2
    ensures cs[0] == SetImageCompressionQuality(quality)
  {
    [SetImageCompressionQuality(quality)]
    + if format == FORMAT_GIF then LoopCalls(kind, b, WithQuality(fs, current, quality), w, h, |fs|) else [SingleCall(kind, w, h)]
  }

  /** The frames once the compression quality is set: it lands on the current image only. */
  function WithQuality(fs: seq<Frame>, current: nat, quality: int): (r: seq<Frame>)
    requires current < |fs|
    ensures |r| == |fs| && r[current].quality == quality
    ensures forall i :: 0 <= i < |fs| && i != current ==> r[i] == fs[i]
  {
    fs[current := fs[current].(quality := quality)]
  }

  /**
   * The frames a resize that proceeds leaves: the quality is set on the current image, then
   * every frame is resampled for gif, the current image alone otherwise.
   */
  function ResizeFrames(kind: Kind, b: Backend, format: string, fs: seq<Frame>, current: nat, w: int, h: int, quality: int): (r: seq<Frame>)
    requires current < |fs|
    ensures |r| == |fs|
  {
    var fq := WithQuality(fs, current, quality);
    if format == FORMAT_GIF then seq(|fs|, i requires 0 <= i < |fs| => FrameResult(kind, b, fq[i], w, h))
    else fq[current := SingleResult(kind, b, fq[current], w, h)]
  }

  /** The handle's position after the resize: the last frame once a gif loop has run. */
  function ResizeCurrent(format: string, fs: seq<Frame>, current: nat): (r: nat)
    requires current < |fs|
    ensures r < |fs|
    ensures format == FORMAT_GIF ==> r == |fs| - 1
  {
    if format == FORMAT_GIF then |fs| - 1 else current
  }

  /**
   * The gif loop's calls come in pairs, one pair per frame in frame order: the resample for
   * frame i at position 2i and its page call at position 2i+1.
   */
  lemma {:induction false} LoopCallsAt(kind: Kind, b: Backend, fs: seq<Frame>, w: int, h: int, k: nat)
    requires k <= |fs|
    ensures |LoopCalls(kind, b, fs, w, h, k)| == 2 * k
    ensures forall i :: 0 <= i < k ==>
      LoopCalls(kind, b, fs, w, h, k)[2 * i] == FrameCalls(kind, b, fs[i], i, w, h)[0] &&
      LoopCalls(kind, b, fs, w, h, k)[2 * i + 1] == FrameCalls(kind, b, fs[i], i, w, h)[1]
  {
    if k > 0 {
      LoopCallsAt(kind, b, fs, w, h, k - 1);
    }
  }

  /** The gif loop never sets the compression quality. */
  lemma {:induction false} LoopSetsNoQuality(kind: Kind, b: Backend, fs: seq<Frame>, w: int, h: int, k: nat)
    requires k <= |fs|
    ensures forall j :: 0 <= j < |LoopCalls(kind, b, fs, w, h, k)| ==>
      !LoopCalls(kind, b, fs, w, h, k)[j].SetImageCompressionQuality?
  {
    if k > 0 {
      LoopSetsNoQuality(kind, b, fs, w, h, k - 1);
      var cs := FrameCalls(kind, b, fs[k - 1], k - 1, w, h);
      assert !cs[0].SetImageCompressionQuality? && !cs[1].SetImageCompressionQuality?;
    }
  }

  /** The gif loop resamples exactly once per frame. */
  lemma {:induction false} LoopResamples(kind: Kind, b: Backend, fs: seq<Frame>, w: int, h: int, k: nat)
    requires k <= |fs|
    ensures Count(LoopCalls(kind, b, fs, w, h, k), IsResample) == k
  {
    if k > 0 {
      var cs := FrameCalls(kind, b, fs[k - 1], k - 1, w, h);
      LoopResamples(kind, b, fs, w, h, k - 1);
      CountAppend(LoopCalls(kind, b, fs, w, h, k - 1), cs, IsResample);
      assert cs[1..][1..] == [];
      assert Count(cs, IsResample) == 1;
    }
  }

  /**
   * A resize that proceeds sets the compression quality first and nowhere else, then
   * resamples exactly once per frame for a gif and exactly once otherwise.
   */
  lemma ResizeCallsShape(kind: Kind, b: Backend, format: string, fs: seq<Frame>, current: nat, w: int, h: int, quality: int)
    requires current < |fs|
    ensures ResizeCalls(kind, b, format, fs, current, w, h, quality)[0] == SetImageCompressionQuality(quality)
    ensures forall j :: 0 < j < |ResizeCalls(kind, b, format, fs, current, w, h, quality)| ==>
      !ResizeCalls(kind, b, format, fs, current, w, h, quality)[j].SetImageCompressionQuality?
    ensures Count(ResizeCalls(kind, b, format, fs, current, w, h, quality), IsResample) == if format == FORMAT_GIF then |fs| else 1
  {
    var fq := WithQuality(fs, current, quality);
    var rest := if format == FORMAT_GIF then LoopCalls(kind, b, fq, w, h, |fs|) else [SingleCall(kind, w, h)];
    assert ResizeCalls(kind, b, format, fs, current, w, h, quality) == [SetImageCompressionQuality(quality)] + rest;
    CountAppend([SetImageCompressionQuality(quality)], rest, IsResample);
    if format == FORMAT_GIF {
      LoopResamples(kind, b, fq, w, h, |fs|);
      LoopSetsNoQuality(kind, b, fq, w, h, |fs|);
    } else {
      assert [SingleCall(kind, w, h)][1..] == [];
    }
  }

  /**
   * After a gif resize that fits or fills, every frame's page geometry is its own new size at
   * offset (0, 0), and that size is the backend's result for the frame; after a square
   * resize the page is the square itself.
   */
  lemma GifPages(kind: Kind, b: Backend, fs: seq<Frame>, current: nat, w: int, h: int, quality: int)
    requires current < |fs|
    ensures forall i :: 0 <= i < |fs| && kind != Square ==>
      var f := ResizeFrames(kind, b, FORMAT_GIF, fs, current, w, h, quality)[i];
      f.page == Page(f.width, f.height, 0, 0) &&
      (f.width, f.height) == (var t := SingleResult(kind, b, WithQuality(fs, current, quality)[i], w, h); (t.width, t.height))
    ensures forall i :: 0 <= i < |fs| && kind == Square ==>
      ResizeFrames(kind, b, FORMAT_GIF, fs, current, w, h, quality)[i].page == Page(w, h, 0, 0)
  {
  }

  /**
   * The quality reaches only the image the handle pointed at: in a gif every other frame is
   * resampled with the quality it already had.
   */
  lemma GifQualityOnCurrentOnly(kind: Kind, b: Backend, fs: seq<Frame>, current: nat, w: int, h: int, quality: int)
    requires current < |fs|
    ensures ResizeFrames(kind, b, FORMAT_GIF, fs, current, w, h, quality)[current]
         == FrameResult(kind, b, fs[current].(quality := quality), w, h)
    ensures forall i :: 0 <= i < |fs| && i != current ==>
      ResizeFrames(kind, b, FORMAT_GIF, fs, current, w, h, quality)[i] == FrameResult(kind, b, fs[i], w, h)
  {
  }

  /**
   * For any format other than gif only the current image changes, through one resample on the
   * handle of the image with its new quality.
   */
  lemma SingleFrameOnly(kind: Kind, b: Backend, format: string, fs: seq<Frame>, current: nat, w: int, h: int, quality: int)
    requires current < |fs| && format != FORMAT_GIF
    ensures forall i :: 0 <= i < |fs| && i != current ==> ResizeFrames(kind, b, format, fs, current, w, h, quality)[i] == fs[i]
    ensures ResizeFrames(kind, b, format, fs, current, w, h, quality)[current]
         == SingleResult(kind, b, fs[current].(quality := quality), w, h)
    ensures ResizeCalls(kind, b, format, fs, current, w, h, quality)[1] == SingleCall(kind, w, h)
    ensures SingleCall(kind, w, h).on == Handle
  {
  }
}
