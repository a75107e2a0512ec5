/**
 * The orientation normaliser's dispatch table: which rotate and flip calls each EXIF
 * orientation triggers, and what those calls do to the stored picture.
 */
module Normaliser {
  import opened Wrappers
  import opened Plane
  import opened Orientation
  import opened Magick

  /**
   * The orientations the normaliser mirrors (its `$flippedOrientations` list): exactly the
   * tag values whose upright view is a mirror image of the stored picture.
   */
  predicate Mirrored(o: Orientation)
    ensures Mirrored(o) <==> Reversing(Upright(o))
  {
    o == TopRight || o == BottomLeft || o == LeftTop || o == RightBottom
  }

  /**
   * The calls `processOrientation` issues for tag value `o`, as written: nothing for
   * Undefined; otherwise a half turn for BottomLeft or BottomRight, a counter-clockwise
   * quarter turn for LeftBottom or LeftTop, a clockwise quarter turn for RightBottom or
   * RightTop, then a flip for the mirrored values, then the tag reset to Undefined.
   */
  function OrientationCalls(o: Orientation): (cs: seq<Call>)
    ensures cs == [] <==> o == Undefined
    ensures cs != [] ==> |cs| <= 3 && cs[|cs| - 1] == SetImageOrientation(Undefined)
    ensures forall i :: 0 <= i < |cs| - 1 ==> cs[i].RotateImage? || cs[i] == FlipImage
  {
    if o == Undefined then []
    else
      (if o == BottomLeft || o == BottomRight then [RotateImage(180)] else [])
      + (if o == LeftBottom || o == LeftTop then [RotateImage(-90)] else [])
      + (if o == RightBottom || o == RightTop then [RotateImage(90)] else [])
      + (if Mirrored(o) then [FlipImage] else [])
      + [SetImageOrientation(Undefined)]
  }

  /** The rotation column of the normaliser's table, read per value. */
  function TableRotation(o: Orientation): Option<int> {
    match o
    case BottomLeft => Some(180)
    case BottomRight => Some(180)
    case LeftBottom => Some(-90)
    case LeftTop => Some(-90)
    case RightBottom => Some(90)
    case RightTop => Some(90)
    case _ => None
  }

  /** The mirror column of the normaliser's table, read per value. */
  function TableMirror(o: Orientation): bool {
    match o
    case TopRight => true
    case BottomLeft => true
    case LeftTop => true
    case RightBottom => true
    case _ => false
  }

  /** Whether a call rotates the image. */
  predicate IsRotation(c: Call) {
    c.RotateImage?
  }

  /**
   * The calls follow the table row by row: for Undefined none at all; otherwise the
   * row's rotation if it has one, then a flip if the row mirrors, then the tag reset.
   */
  lemma OrientationCallsFollowTable(o: Orientation)
    ensures o == Undefined ==> OrientationCalls(o) == []
    ensures o != Undefined ==>
      OrientationCalls(o) ==
        (if TableRotation(o).Some? then [RotateImage(TableRotation(o).value)] else [])
        + (if TableMirror(o) then [FlipImage] else [])
        + [SetImageOrientation(Undefined)]
  {
    match o
    case Undefined =>
    case TopLeft =>
    case TopRight =>
    case BottomRight =>
    case BottomLeft =>
    case LeftTop =>
    case RightTop =>
    case RightBottom =>
    case LeftBottom =>
  }

  /**
   * At most one rotation is issued, and exactly one for the six values with a rotation;
   * a flip is issued exactly for the mirrored values; every defined value ends with the
   * tag reset to Undefined.
   */
  lemma OrientationCallsShape(o: Orientation)
    ensures Count(OrientationCalls(o), IsRotation) <= 1
    ensures Count(OrientationCalls(o), IsRotation) == 1 <==> TableRotation(o).Some?
    ensures FlipImage in OrientationCalls(o) <==> Mirrored(o)
    ensures o != Undefined ==> |OrientationCalls(o)| >= 1 && OrientationCalls(o)[|OrientationCalls(o)| - 1] == SetImageOrientation(Undefined)
  {
    OrientationCallsFollowTable(o);
    if o != Undefined {
      var rot := if TableRotation(o).Some? then [RotateImage(TableRotation(o).value)] else [];
      var flip := if TableMirror(o) then [FlipImage] else [];
      CountAppend(rot, flip, IsRotation);
      CountAppend(rot + flip, [SetImageOrientation(Undefined)], IsRotation);
    }
  }

  /** The tag value after the calls `cs` on a handle tagged `o`: the last one set, if any. */
  function TagAfter(o: Orientation, cs: seq<Call>): Orientation
    decreases |cs|
  {
    if cs == [] then o
    else TagAfter(if cs[0].SetImageOrientation? then cs[0].orientation else o, cs[1..])
  }

  /**
   * Normalisation is idempotent: the calls leave the tag Undefined, and for an Undefined tag
   * no call at all is issued, so a second normalisation changes nothing.
   */
  lemma NormalisationIdempotent(o: Orientation)
    ensures TagAfter(o, OrientationCalls(o)) == Undefined
    ensures OrientationCalls(TagAfter(o, OrientationCalls(o))) == []
  {
    if o != Undefined {
      OrientationCallsFollowTable(o);
      var rot := if TableRotation(o).Some? then [RotateImage(TableRotation(o).value)] else [];
      var flip := if TableMirror(o) then [FlipImage] else [];
      TagAfterAppend(o, rot + flip, [SetImageOrientation(Undefined)]);
      assert [SetImageOrientation(Undefined)][1..] == [];
    }
  }

  /** The tag after two runs of calls is the tag after the second, started from the first's. */
  lemma {:induction false} TagAfterAppend(o: Orientation, a: seq<Call>, b: seq<Call>)
    ensures TagAfter(o, a + b) == TagAfter(TagAfter(o, a), b)
    decreases |a|
  {
    if a == [] {
      assert a + b == b;
    } else {
      assert (a + b)[1..] == a[1..] + b;
      TagAfterAppend(if a[0].SetImageOrientation? then a[0].orientation else o, a[1..], b);
    }
  }

  /** Rotations in `cs` are by whole quarter turns. */
  predicate QuarterTurnsOnly(cs: seq<Call>) {
    forall c :: c in cs && c.RotateImage? ==> c.degrees % 90 == 0
  }

  /** What one call does to the stored picture: rotate clockwise, or mirror top and bottom. */
  function Step(c: Call): Symmetry
    requires c.RotateImage? ==> c.degrees % 90 == 0
  {
    match c
    case RotateImage(degrees) => Rotation(degrees)
    case FlipImage => VerticalMirror
    case _ => Identity
  }

  /** The symmetry a sequence of calls applies, the first call first. */
  function Effect(cs: seq<Call>): Symmetry
    requires QuarterTurnsOnly(cs)
  {
    if cs == [] then Identity
    else
      assert cs[0] in cs;
      Compose(Effect(cs[1..]), Step(cs[0]))
  }

  /** The tag reset on its own does nothing to the picture. */
  lemma EffectOfReset()
    ensures QuarterTurnsOnly([SetImageOrientation(Undefined)])
    ensures Effect([SetImageOrientation(Undefined)]) == Identity
  {
    var cs := [SetImageOrientation(Undefined)];
    assert cs[1..] == [];
  }

  /** The symmetry of an optional flip followed by the tag reset. */
  lemma EffectOfFlipOnly(flip: bool)
    ensures QuarterTurnsOnly((if flip then [FlipImage] else []) + [SetImageOrientation(Undefined)])
    ensures Effect((if flip then [FlipImage] else []) + [SetImageOrientation(Undefined)])
         == if flip then VerticalMirror else Identity
  {
    EffectOfReset();
    var cs := (if flip then [FlipImage] else []) + [SetImageOrientation(Undefined)];
    if flip {
      assert cs[1..] == [SetImageOrientation(Undefined)];
      assert Effect(cs) == Compose(Identity, VerticalMirror);
    } else {
      assert cs == [SetImageOrientation(Undefined)];
    }
  }

  /** The symmetry of a rotation, then an optional flip, then the tag reset. */
  lemma EffectOfNormalisation(degrees: int, flip: bool)
    requires degrees % 90 == 0
    ensures QuarterTurnsOnly([RotateImage(degrees)] + (if flip then [FlipImage] else []) + [SetImageOrientation(Undefined)])
    ensures Effect([RotateImage(degrees)] + (if flip then [FlipImage] else []) + [SetImageOrientation(Undefined)])
         == if flip then Compose(VerticalMirror, Rotation(degrees)) else Rotation(degrees)
  {
    EffectOfFlipOnly(flip);
    var rest := (if flip then [FlipImage] else []) + [SetImageOrientation(Undefined)];
    var cs := [RotateImage(degrees)] + rest;
    assert [RotateImage(degrees)] + (if flip then [FlipImage] else []) + [SetImageOrientation(Undefined)] == cs;
    assert cs[1..] == rest;
    assert forall c :: c in cs ==> c == RotateImage(degrees) || c in rest;
    assert Effect(cs) == Compose(Effect(rest), Rotation(degrees));
    ComposeIdentity(Rotation(degrees));
  }

  /**
   * As written, the normaliser puts six of the eight defined values upright, but TopRight and
   * BottomLeft come out upside down: `flipImage` mirrors top and bottom, so TopRight (which needs
   * left and right swapped) gets the wrong mirror, and BottomLeft's half turn followed by that
   * mirror amounts to a left-right swap instead of the top-bottom swap it needs.
   */
  lemma WrittenNormalisation(o: Orientation)
    ensures QuarterTurnsOnly(OrientationCalls(o))
    ensures Effect(OrientationCalls(o)) == Upright(o) <==> o != TopRight && o != BottomLeft
    ensures o == TopRight || o == BottomLeft ==> Effect(OrientationCalls(o)) == Compose(HalfTurn, Upright(o))
  {
    RotationValues();
    match o
    case Undefined =>
    case TopLeft =>
      assert OrientationCalls(o) == [SetImageOrientation(Undefined)];
      EffectOfReset();
    case TopRight =>
      assert OrientationCalls(o) == [FlipImage] + [SetImageOrientation(Undefined)];
      EffectOfFlipOnly(true);
    case BottomRight =>
      assert OrientationCalls(o) == [RotateImage(180)] + [SetImageOrientation(Undefined)];
      EffectOfNormalisation(180, false);
    case BottomLeft =>
      assert OrientationCalls(o) == [RotateImage(180)] + [FlipImage] + [SetImageOrientation(Undefined)];
      EffectOfNormalisation(180, true);
    case LeftTop =>
      assert OrientationCalls(o) == [RotateImage(-90)] + [FlipImage] + [SetImageOrientation(Undefined)];
      EffectOfNormalisation(-90, true);
    case RightTop =>
      assert OrientationCalls(o) == [RotateImage(90)] + [SetImageOrientation(Undefined)];
      EffectOfNormalisation(90, false);
    case RightBottom =>
      assert OrientationCalls(o) == [RotateImage(90)] + [FlipImage] + [SetImageOrientation(Undefined)];
      EffectOfNormalisation(90, true);
    case LeftBottom =>
      assert OrientationCalls(o) == [RotateImage(-90)] + [SetImageOrientation(Undefined)];
      EffectOfNormalisation(-90, false);
  }

  /**
   * The corrected dispatch: the half turn goes with TopRight and BottomRight instead of
   * BottomLeft and BottomRight; everything else is unchanged.
   */
  function CorrectedOrientationCalls(o: Orientation): (cs: seq<Call>)
    ensures cs == [] <==> o == Undefined
    ensures cs != [] ==> |cs| <= 3 && cs[|cs| - 1] == SetImageOrientation(Undefined)
    ensures forall i :: 0 <= i < |cs| - 1 ==> cs[i].RotateImage? || cs[i] == FlipImage
  {
    if o == Undefined then []
    else
      (if o == TopRight || o == BottomRight then [RotateImage(180)] else [])
      + (if o == LeftBottom || o == LeftTop then [RotateImage(-90)] else [])
      + (if o == RightBottom || o == RightTop then [RotateImage(90)] else [])
      + (if Mirrored(o) then [FlipImage] else [])
      + [SetImageOrientation(Undefined)]
  }

  /**
   * The corrected dispatch puts every orientation upright, differs from the written one
   * only on TopRight and BottomLeft, and likewise ends every defined value with the tag reset.
   */
  lemma CorrectedNormalisation(o: Orientation)
    ensures QuarterTurnsOnly(CorrectedOrientationCalls(o))
    ensures Effect(CorrectedOrientationCalls(o)) == Upright(o)
    ensures o != TopRight && o != BottomLeft ==> CorrectedOrientationCalls(o) == OrientationCalls(o)
    ensures o != Undefined ==> CorrectedOrientationCalls(o)[|CorrectedOrientationCalls(o)| - 1] == SetImageOrientation(Undefined)
  {
    RotationValues();
    match o
    case Undefined =>
    case TopLeft =>
      assert CorrectedOrientationCalls(o) == [SetImageOrientation(Undefined)];
      EffectOfReset();
    case TopRight =>
      assert CorrectedOrientationCalls(o) == [RotateImage(180)] + [FlipImage] + [SetImageOrientation(Undefined)];
      EffectOfNormalisation(180, true);
    case BottomRight =>
      assert CorrectedOrientationCalls(o) == [RotateImage(180)] + [SetImageOrientation(Undefined)];
      EffectOfNormalisation(180, false);
    case BottomLeft =>
      assert CorrectedOrientationCalls(o) == [FlipImage] + [SetImageOrientation(Undefined)];
      EffectOfFlipOnly(true);
    case LeftTop =>
      assert CorrectedOrientationCalls(o) == [RotateImage(-90)] + [FlipImage] + [SetImageOrientation(Undefined)];
      EffectOfNormalisation(-90, true);
    case RightTop =>
      assert CorrectedOrientationCalls(o) == [RotateImage(90)] + [SetImageOrientation(Undefined)];
      EffectOfNormalisation(90, false);
    case RightBottom =>
      assert CorrectedOrientationCalls(o) == [RotateImage(90)] + [FlipImage] + [SetImageOrientation(Undefined)];
      EffectOfNormalisation(90, true);
    case LeftBottom =>
      assert CorrectedOrientationCalls(o) == [RotateImage(-90)] + [SetImageOrientation(Undefined)];
      EffectOfNormalisation(-90, false);
  }
}
