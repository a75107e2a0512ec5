# ImageFilter: a Dafny model of a fluent Imagick wrapper

`ImageFilter` wraps one Imagick handle and offers chained image operations:
- fit-in-box resize (`filterResize`), fill-and-crop resize (`filterResizeCrop`) and square resize (`filterResizeQuad`);
- desaturation and border padding (`addBorder`);
- EXIF orientation normalisation (`processOrientation`);
- a format change, writing, and release.

The pixel work happens inside Imagick. The filter itself decides four things: when a resize is skipped, which backend calls it issues and in what order, the arguments it passes (border widths, sample points, page geometry, rotation angles), and whether output is written frame by frame.

The model keeps exactly that decision logic:

- `MagickHandle.Imagick` is the handle, with three fields:
  - `frames`: each frame has a size, a page geometry, an opaque pixel token, and its own orientation tag and compression quality;
  - `current`: the index of the current image;
  - `calls`: the log of the state-changing calls and pixel samples issued on the handle, in order.
- Each state-changing Imagick method the filter uses, and each pixel sample, is a method that appends its call to the log.
- Reading the current image's width, height or orientation tag is a function of the state and is not logged. So "no call" below means no logged call: the tag is still read.
- What Imagick computes stays uninterpreted. The frame a resample, framing, rotation or flip produces, the pixels a modulation leaves, the colour of a frame at a point, and a write's result are function fields of `Magick.Backend`, fixed when the handle is made.
- The orientation tag and the quality belong to each image, as in Imagick. `setImageCompressionQuality`, `getimageorientation` and `setimageorientation` act on the current image only.
- `Filter.ImageFilter` is the filter: the handle (`image`) and the format chosen at construction (`format`). The gif branches are a loop over the frames (`ResampleEachFrame`), one frame per pass.
- Pure parts are functions with lemmas. These cover the skip rule (`Geometry`), the colour mean (`ColorMath`), format selection (`Format`), the calls and frames of each resize (`Thumbnailer`), the padding calls (`BorderPadder`) and the orientation table (`Normaliser`). `Plane` and `Orientation.Upright` say what a rotation or a flip does to the picture, and what each EXIF Orientation value (EXIF 2.3, tag 0x0112) asks for.

Modelling choices:
- A `foreach` over an Imagick object iterates the handle itself: the loop variable is the handle, positioned at frame i. So `SetIteratorIndex` moves the current image to frame i on each pass. Calls on the loop variable are logged with receiver `LoopFrame(i)`, and calls on `$this->_image` with receiver `Handle`. This keeps the source's choice of receiver visible (the crop loops use `$this->_image`).
- A gif resize therefore leaves the handle on the last frame. The quality set before the loop lands on the image that was current before it. A later `processOrientation` reads and clears the last frame's tag.
- The resize behaviour is a string, compared with the three constants. Any other string proceeds.
- Colour channels, border widths and sample coordinates are reals, as PHP's `/ 2` produces them. How Imagick converts them to integers is not modelled.
- The explicit format is kept verbatim; the format derived from the extension is lower-cased (ASCII, as `strtolower` does).
- The model follows the code where it departs from the docblocks and from what the names suggest:
  - The `filterResizeQuad` docblock (ImageFilter.php:114-120) promises a square output, but the method always fails.
  - The `filterResizeCrop` loop crops through the handle rather than the loop frame.
  - `destroy` (ImageFilter.php:268-274) has no use-after-release guard.
  - `setImageFormat` (ImageFilter.php:215-224) does not change the format that decides the gif handling.

## Model

| member | source | states |
|---|---|---|
| Geometry.ShouldResize | ImageFilter.php:45-58 | a resize is skipped exactly when the behaviour is decrease and the target is larger on both axes, or increase and smaller on both axes |
| Geometry.OtherBehavioursProceed | ImageFilter.php:45-58 | RESIZE_BOTH and every unknown behaviour string always proceed |
| Geometry.MixedTargetProceeds | ImageFilter.php:47-56 | the rule is conjunctive: growing one axis while shrinking the other always proceeds |
| Geometry.SameAxisProceeds | ImageFilter.php:47-56 | a target equal to the current size on either axis never skips |
| Geometry.SkipsAreDisjoint | ImageFilter.php:47-56 | no request is skipped by both one-way behaviours |
| ColorMath.AvgColor | ImageFilter.php:154-169 | each of red, green and blue is the arithmetic mean of the two samples' channels |
| ColorMath.AvgColorSymmetric | ImageFilter.php:154-169 | the average does not depend on the order of the samples |
| ColorMath.AvgColorBetween | ImageFilter.php:154-169 | every channel of the average lies between the two samples' channels |
| ColorMath.AvgColorIdempotent | ImageFilter.php:154-169 | averaging a colour with itself returns it |
| ColorMath.AvgColorExample | ImageFilter.php:156-161 | the mean of (10,20,30) and (20,40,60) is (15,30,45) |
| Format.LowerChar | ImageFilter.php:32 | ASCII upper-case letters map to lower case, everything else is kept |
| Format.Lower | ImageFilter.php:32 | lower-casing keeps the length and maps every character |
| Format.LowerIdempotent | ImageFilter.php:32 | lower-casing twice equals lower-casing once |
| Format.SelectFormat | ImageFilter.php:30-35 | an explicit format is used verbatim, otherwise the lower-cased extension |
| Format.GifDetection | ImageFilter.php:30-35 | a ".GIF" extension selects gif handling; an explicit "GIF" does not |
| Format.WriteCall | ImageFilter.php:233-237 | output is written as all frames (adjoined) exactly when the format is gif, else as one image |
| Filter.ImageFilter.constructor | ImageFilter.php:27-36 | the handle holds the decoded frames and position with an empty call log; the format follows SelectFormat |
| Filter.ImageFilter.FilterResize | ImageFilter.php:68-85 | on skip the handle is unchanged; otherwise calls, frames and position become those of a fit resize |
| Filter.ImageFilter.FilterResizeCrop | ImageFilter.php:95-112 | on skip the handle is unchanged; otherwise calls, frames and position become those of a fill resize |
| Filter.ImageFilter.FilterResizeQuad | ImageFilter.php:121-124 | every call fails with an undefined-method error for `_checkResizeBahavior` and changes nothing |
| Filter.ImageFilter.FilterResizeQuadCorrected | ImageFilter.php:121-136 | the square resize with the skip rule it meant to call: on skip nothing changes, otherwise a square fill resize |
| Filter.ImageFilter.Resample | ImageFilter.php:73-83 | sets the current image's quality, then resamples every gif frame in turn, or the current image once |
| Filter.ImageFilter.ResampleEachFrame | ImageFilter.php:75-80 | after the loop every frame is its per-frame result, the calls are the per-frame pairs in frame order, and the handle sits on the last frame |
| Filter.ImageFilter.ResampleFrame | ImageFilter.php:102-107 | one loop pass positions the handle at frame i, replaces frame i by its result, and logs its resample and page calls |
| Thumbnailer.Repaged | ImageFilter.php:77-79 | a re-tagged frame keeps its size and gets the page (its width, its height, 0, 0) |
| Thumbnailer.FrameResult | ImageFilter.php:76-79 | a gif frame after fit or fill has the size of the single-image resample and its own size as page; after a square resize, the square page |
| Thumbnailer.LoopCalls | ImageFilter.php:75-80 | the loop over k frames issues two calls per frame |
| Thumbnailer.SingleCall | ImageFilter.php:82 | the non-gif branch issues one resample on the handle with the target size: a fit for filterResize, a fill crop otherwise |
| Thumbnailer.SingleResult | ImageFilter.php:82 | the image after the non-gif branch is the backend's result for exactly the call SingleCall issues |
| Thumbnailer.ResizeCalls | ImageFilter.php:73-83 | a resize that proceeds issues 1 + 2n calls for an n-frame gif and 2 otherwise, the quality call first |
| Thumbnailer.WithQuality | ImageFilter.php:73 | setting the quality changes the current image's quality and no other frame |
| Thumbnailer.ResizeCurrent | ImageFilter.php:74-80 | after a resize the handle still points at one of its frames, the last one after a gif loop |
| Thumbnailer.GifQualityOnCurrentOnly | ImageFilter.php:73-80 | in a gif only the image current before the loop is resampled with the new quality; every other frame keeps its own |
| Thumbnailer.FrameCalls | ImageFilter.php:76-79 | each loop pass issues one resample then one page call on the loop frame; the crop loops resample through the handle |
| Thumbnailer.ResizeFrames | ImageFilter.php:74-83 | a resize keeps the number of frames |
| Thumbnailer.LoopCallsAt | ImageFilter.php:75-80 | the loop's calls are pairs in frame order: frame i's resample at 2i and its page call at 2i+1 |
| Thumbnailer.LoopSetsNoQuality | ImageFilter.php:75-80 | the gif loop never sets the compression quality |
| Thumbnailer.LoopResamples | ImageFilter.php:75-80 | the gif loop resamples exactly once per frame |
| Thumbnailer.ResizeCallsShape | ImageFilter.php:73-83 | the quality is set first and only once; there is one resample per frame for gif and exactly one otherwise |
| Thumbnailer.GifPages | ImageFilter.php:74-80 | after a gif fit or fill every frame's page is its own new size at (0,0); after a square resize it is the square |
| Thumbnailer.SingleFrameOnly | ImageFilter.php:81-83 | for other formats only the current image changes, through one resample call on the handle |
| Filter.ImageFilter.FilterDesaturate | ImageFilter.php:142-146 | issues one modulate call (100, 0, 100); the current image's pixels become the backend's modulation, and its size, page, tag and quality stay |
| BorderPadder.HalfShortfall | ImageFilter.php:194-195 | twice the pad plus the current size equals the target size |
| BorderPadder.BorderCalls | ImageFilter.php:177-197 | three calls for "width" and two otherwise: pixel samples, then exactly one framing call, with no bevel, last |
| BorderPadder.NeedsBorder | ImageFilter.php:210 | padding happens exactly when at least one of the two pads would be positive |
| BorderPadder.BothBorder | ImageFilter.php:191-196 | one sample at (0, height/2), then one framing call with that colour whose pads make up the shortfall on both axes |
| BorderPadder.WidthBorder | ImageFilter.php:179-187 | the width direction pads sideways with the mean of the samples at x=0 and x=width |
| BorderPadder.HeightBorder | ImageFilter.php:188-190 | the height direction pads top and bottom only, sampling at y=width/2 |
| BorderPadder.OneAxisShortfall | ImageFilter.php:205-212 | padding proceeds when only the height falls short, with a negative width pad |
| Filter.ImageFilter.AddBorderIn | ImageFilter.php:177-197 | issues the direction's sample and framing calls, sampling the current image as it is, and replaces it by the backend's framed image |
| Filter.ImageFilter.AddBorder | ImageFilter.php:205-213 | nothing happens when width and height already reach the target; otherwise the both-direction padding, with the colour sampled from the current image |
| Filter.ImageFilter.SetImageFormat | ImageFilter.php:220-224 | passes the format to the handle and leaves the filter's own format unchanged |
| Filter.ImageFilter.WriteImage | ImageFilter.php:231-238 | issues the single write call WriteCall selects and returns the backend's result for it |
| Filter.ImageFilter.ProcessOrientation | ImageFilter.php:240-266 | issues the table's calls for the current image's old tag, applies the rotation then the flip to that image, leaves its tag Undefined, returns true |
| Filter.ImageFilter.ProcessOrientationCorrected | ImageFilter.php:252-254 | the same with the half turn for TopRight and BottomRight instead of BottomLeft and BottomRight |
| Filter.ImageFilter.Destroy | ImageFilter.php:271-274 | issues the release call with no guard; the handle then holds no image and admits no further call |
| Filter.ReplayOrientation | ImageFilter.php:252-264 | replaying the normaliser's calls rotates first (180, -90 or 90 by the table), then flips the mirrored values, then clears the tag |
| Filter.ReplayCorrectedOrientation | ImageFilter.php:252-264 | the same for the corrected table |
| Filter.ReplayRotation | ImageFilter.php:253-264 | a rotation, an optional flip and the tag reset act on the frame in that order |
| Filter.Replay | ImageFilter.php:252-264 | calls other than rotate, flip and tag calls leave the frame as it is |
| Filter.ReplayReset | ImageFilter.php:264 | the tag reset clears the tag and changes nothing else of the frame |
| Normaliser.OrientationCallsFollowTable | ImageFilter.php:242-265 | no logged call for Undefined; otherwise the row's rotation, then a flip if the row mirrors, then the tag reset |
| Normaliser.OrientationCalls | ImageFilter.php:243-264 | no logged call exactly for Undefined; otherwise at most three calls, rotations and flips, ending with the tag reset |
| Normaliser.CorrectedOrientationCalls | ImageFilter.php:243-264 | the corrected dispatch has the same shape: nothing for Undefined, else rotations and flips ending with the tag reset |
| Normaliser.Mirrored | ImageFilter.php:246-251 | the flipped list holds exactly the tag values whose upright view is a mirror image of the stored picture |
| Normaliser.OrientationCallsShape | ImageFilter.php:246-264 | at most one rotation, exactly one for the six rotated values; a flip iff TopRight, BottomLeft, LeftTop or RightBottom; the tag reset comes last |
| Normaliser.NormalisationIdempotent | ImageFilter.php:243-245 | after the calls the tag is Undefined, and for Undefined no logged call is issued, so a second run is a no-op |
| Normaliser.TagAfterAppend | ImageFilter.php:264 | the tag after two runs of calls is the tag after the second, started from the first's |
| Normaliser.WrittenNormalisation | ImageFilter.php:246-263 | the written table puts six values upright; TopRight and BottomLeft end up turned 180 degrees |
| Normaliser.CorrectedNormalisation | ImageFilter.php:252-263 | the corrected table puts every value upright and differs from the written one only on TopRight and BottomLeft |
| Normaliser.EffectOfNormalisation | ImageFilter.php:253-264 | a rotation, an optional flip and the tag reset act as the rotation, followed by a top-bottom mirror when the flip is present |
| Normaliser.EffectOfFlipOnly | ImageFilter.php:261-264 | an optional flip and the tag reset act as a top-bottom mirror or not at all |
| Normaliser.EffectOfReset | ImageFilter.php:264 | resetting the tag does not move any pixel |
| Orientation.ExifCode | ImageFilter.php:243 | tag values have codes 0 to 8, and 0 is exactly Undefined |
| Orientation.FromExifCode | ImageFilter.php:242 | a code names a tag value exactly when it lies in 0..8 |
| Orientation.FromExifCodeInverse | ImageFilter.php:242-243 | decoding a tag value's code gives the value back |
| Orientation.ExifCodeInverse | ImageFilter.php:242-243 | encoding a decoded code gives the code back |
| Magick.Count | ImageFilter.php:75-80 | a count of calls is zero exactly when no call qualifies and the full length exactly when every call does |
| Magick.CountAppend | ImageFilter.php:75-80 | counting calls distributes over concatenation |
| MagickHandle.Imagick.constructor | ImageFilter.php:29 | a new handle holds the decoded frames, each with its own tag and quality, and the position, with an empty log |
| MagickHandle.Imagick.SetIteratorIndex | ImageFilter.php:75 | a loop pass positions the handle at frame i and changes nothing else |
| MagickHandle.Imagick.SetImageCompressionQuality | ImageFilter.php:73 | only the current image's quality becomes the argument, and the call is logged |
| MagickHandle.Imagick.ThumbnailImage | ImageFilter.php:76 | the addressed image becomes the backend's fit result, and the call is logged |
| MagickHandle.Imagick.CropThumbnailImage | ImageFilter.php:103 | the addressed image becomes the backend's fill result, and the call is logged |
| MagickHandle.Imagick.SetImagePage | ImageFilter.php:79 | only the addressed image's page changes, to the given geometry |
| MagickHandle.Imagick.ModulateImage | ImageFilter.php:144 | only the current image's pixels change, to the backend's modulation; the call is logged |
| MagickHandle.Imagick.GetImagePixelColor | ImageFilter.php:182-193 | returns the backend's colour of the current image, as it is now, at the point; logs the sample |
| MagickHandle.Imagick.FrameImage | ImageFilter.php:194 | the current image becomes the backend's framed image, and the call is logged |
| MagickHandle.Imagick.SetImageFormat | ImageFilter.php:222 | the call is logged, and nothing else changes |
| MagickHandle.Imagick.WriteImages | ImageFilter.php:234 | returns the backend's all-frames write result and logs the call |
| MagickHandle.Imagick.WriteImage | ImageFilter.php:236 | returns the backend's single-image write result and logs the call |
| MagickHandle.Imagick.RotateImage | ImageFilter.php:253 | the current image becomes the backend's rotation, and the call is logged |
| MagickHandle.Imagick.FlipImage | ImageFilter.php:262 | the current image becomes the backend's flip, and the call is logged |
| MagickHandle.Imagick.SetImageOrientation | ImageFilter.php:264 | only the current image's tag becomes the argument, and the call is logged |
| MagickHandle.Imagick.Destroy | ImageFilter.php:273 | the handle's images are released, so it is no longer valid; the call is logged |
| MagickHandle.Imagick.Target | ImageFilter.php:75-79 | a call on the handle addresses the current image, a call on the loop frame addresses frame i |
| MagickHandle.Imagick.GetImageWidth | ImageFilter.php:48 | the width read is the current image's width |
| MagickHandle.Imagick.GetImageHeight | ImageFilter.php:53 | the height read is the current image's height |
| MagickHandle.Imagick.GetImageOrientation | ImageFilter.php:242 | the tag read is a numeric code that decodes to the current image's tag |

## Findings

| source | as written | input that shows it | evidently intended | confidence | as-written member | corrected member |
|---|---|---|---|---|---|---|
| ImageFilter.php:123 | `filterResizeQuad` calls `_checkResizeBahavior`, which the class does not define, so every call raises an error | any call, e.g. `filterResizeQuad(100)` | call `_checkResizeBehavior`, then crop every frame to the square | high, not executed | Filter.ImageFilter.FilterResizeQuad | Filter.ImageFilter.FilterResizeQuadCorrected |
| ImageFilter.php:252 | the half turn is applied to BottomLeft and BottomRight, and `flipImage` (a top-bottom mirror) is applied to TopRight | tag TopRight (2): the image is flipped top to bottom and ends up turned 180 degrees; tag BottomLeft (4) likewise | half turn for TopRight and BottomRight, so that every tag ends upright | medium (relies on `flipImage` mirrors top-bottom and positive `rotateImage` angles turn clockwise), not executed | Normaliser.WrittenNormalisation | Normaliser.CorrectedNormalisation |

## Left out

- Pixel content: resampling, cropping, framing, modulation, rotation and flipping are uninterpreted backend functions. The model knows the frame each produces, and its pixels only as an opaque token.
- Filter.ImageFilter.FilterResizeCrop: does not claim that every frame ends exactly the requested size, because that is the backend's crop semantics, which stay abstract.
- Filter.ImageFilter.FilterResize: does not claim that the result fits the box with the aspect ratio kept, for the same reason.
- MagickHandle.Imagick.Destroy: Imagick throws on a call to a released handle. Here such a call is not admitted at all, because every method requires a valid handle, so the exception itself is not modelled.
- Backend failures: every other Imagick call is modelled as succeeding. An Imagick exception part-way through a gif loop is not modelled.
- Loading: the constructor takes the decoded image. A path that Imagick cannot read throws before any field is set, and that path is not modelled.
- PHP loose comparison (`==`) between a behaviour value of another type and the string constants is not modelled; the behaviour is always a string.
- The integer conversion Imagick applies to the real border widths and sample coordinates is not modelled.
- `pathinfo` is not modelled: the extension is an input. `strtolower` is modelled as ASCII lower-casing.
- The file I/O of a write is left to the backend's result function.
