/** The EXIF Orientation tag (EXIF 2.3, tag 0x0112) and what each value asks a viewer to do. */
module Orientation {
  import opened Wrappers
  import opened Plane

  /** The tag values in the order of their numeric codes 0 to 8 (0 is Imagick's "undefined"). */
  datatype Orientation =
    | Undefined
    | TopLeft
    | TopRight
    | BottomRight
    | BottomLeft
    | LeftTop
    | RightTop
    | RightBottom
    | LeftBottom

  /** The numeric value of the tag (Imagick::ORIENTATION_* constants). */
  function ExifCode(o: Orientation): (c: nat)
    ensures c <= 8
    ensures c == 0 <==> o == Undefined
  {
    match o
    case Undefined => 0
    case TopLeft => 1
    case TopRight => 2
    case BottomRight => 3
    case BottomLeft => 4
    case LeftTop => 5
    case RightTop => 6
    case RightBottom => 7
    case LeftBottom => 8
  }

  /** The tag value for a numeric code, or None for a code outside 0..8. */
  function FromExifCode(c: int): (r: Option<Orientation>)
    ensures r.Some? <==> 0 <= c <= 8
  {
    if c == 0 then Some(Undefined)
    else if c == 1 then Some(TopLeft)
    else if c == 2 then Some(TopRight)
    else if c == 3 then Some(BottomRight)
    else if c == 4 then Some(BottomLeft)
    else if c == 5 then Some(LeftTop)
    else if c == 6 then Some(RightTop)
    else if c == 7 then Some(RightBottom)
    else if c == 8 then Some(LeftBottom)
    else None
  }

  /** Decoding a code that came from a tag value gives that value back. */
  lemma FromExifCodeInverse(o: Orientation)
    ensures FromExifCode(ExifCode(o)) == Some(o)
  {
    match o
    case Undefined =>
    case TopLeft =>
    case TopRight =>
    case BottomRight =>
    case BottomLeft =>
    case LeftTop =>
    case RightTop =>
    case RightBottom =>
    case LeftBottom =>
  }

  /** Encoding a decoded code gives that code back. */
  lemma ExifCodeInverse(c: int)
    requires FromExifCode(c).Some?
    ensures ExifCode(FromExifCode(c).value) == c
  {
  }

  /**
   * The symmetry that carries the stored pixels to the upright view the tag describes. The
   * tag names the visual side of the 0th stored row, then of the 0th stored column: for
   * RightTop the 0th row is the visual right side and the 0th column the visual top, so the
   * stored picture must be turned a quarter turn clockwise.
   */
  function Upright(o: Orientation): (r: Symmetry)
    ensures o == Undefined || o == TopLeft <==> r == Identity
  {
    match o
    case Undefined => Identity
    case TopLeft => Identity
    case TopRight => HorizontalMirror
    case BottomRight => HalfTurn
    case BottomLeft => VerticalMirror
    case LeftTop => Transpose
    case RightTop => QuarterTurn
    case RightBottom => Transverse
    case LeftBottom => ThreeQuarterTurn
  }

  /**
   * Upright agrees with the tag's own definition: the stored top edge (offset (0, -1)) lands
   * on the visual side the tag names for the 0th row, and the stored left edge (offset (-1, 0))
   * on the side it names for the 0th column.
   */
  lemma UprightMatchesTag(o: Orientation)
    ensures o == TopLeft ==> Apply(Upright(o), 0, -1) == (0, -1) && Apply(Upright(o), -1, 0) == (-1, 0)
    ensures o == TopRight ==> Apply(Upright(o), 0, -1) == (0, -1) && Apply(Upright(o), -1, 0) == (1, 0)
    ensures o == BottomRight ==> Apply(Upright(o), 0, -1) == (0, 1) && Apply(Upright(o), -1, 0) == (1, 0)
    ensures o == BottomLeft ==> Apply(Upright(o), 0, -1) == (0, 1) && Apply(Upright(o), -1, 0) == (-1, 0)
    ensures o == LeftTop ==> Apply(Upright(o), 0, -1) == (-1, 0) && Apply(Upright(o), -1, 0) == (0, -1)
    ensures o == RightTop ==> Apply(Upright(o), 0, -1) == (1, 0) && Apply(Upright(o), -1, 0) == (0, -1)
    ensures o == RightBottom ==> Apply(Upright(o), 0, -1) == (1, 0) && Apply(Upright(o), -1, 0) == (0, 1)
    ensures o == LeftBottom ==> Apply(Upright(o), 0, -1) == (-1, 0) && Apply(Upright(o), -1, 0) == (0, 1)
  {
  }
}
