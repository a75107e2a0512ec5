/**
 * The eight symmetries of a rectangle's pixel grid, acting on pixel offsets from the image
 * centre in screen coordinates (x grows to the right, y grows downwards). They give the
 * rotation and mirror calls of the orientation normaliser a meaning that can be compared
 * with what the EXIF Orientation tag asks for.
 */
module Plane {

  /**
   * The signed permutation (x, y) |-> (±u, ±v), where (u, v) is (y, x) when `swap` holds and
   * (x, y) otherwise; `negX` and `negY` negate the first and second component.
   */
  datatype Symmetry = Symmetry(swap: bool, negX: bool, negY: bool)

  /** The image of the offset (x, y). */
  function Apply(f: Symmetry, x: int, y: int): (int, int) {
    var (u, v) := if f.swap then (y, x) else (x, y);
    (if f.negX then -u else u, if f.negY then -v else v)
  }

  /** `g` applied after `f`. */
  function Compose(g: Symmetry, f: Symmetry): (r: Symmetry)
    ensures forall x: int, y: int :: Apply(r, x, y) == Apply(g, Apply(f, x, y).0, Apply(f, x, y).1)
  {
    Symmetry(g.swap != f.swap,
             if g.swap then f.negY != g.negX else f.negX != g.negX,
             if g.swap then f.negX != g.negY else f.negY != g.negY)
  }

  /**
   * Whether `f` turns the picture into its mirror image (reverses orientation) rather than
   * rotating it: an odd number of the swap and the two negations.
   */
  predicate Reversing(f: Symmetry) {
    f.swap != (f.negX != f.negY)
  }

  /** A composition reverses orientation exactly when one of its two parts does. */
  lemma ComposeReversing(g: Symmetry, f: Symmetry)
    ensures Reversing(Compose(g, f)) <==> Reversing(g) != Reversing(f)
  {
  }

  const Identity: Symmetry := Symmetry(false, false, false)
  /** A clockwise quarter turn on screen: (x, y) |-> (-y, x), so right goes to down. */
  const QuarterTurn: Symmetry := Symmetry(true, true, false)
  /** (x, y) |-> (-x, -y). */
  const HalfTurn: Symmetry := Symmetry(false, true, true)
  /** A counter-clockwise quarter turn on screen: (x, y) |-> (y, -x). */
  const ThreeQuarterTurn: Symmetry := Symmetry(true, false, true)
  /** Mirror about the horizontal centre line, top and bottom swap: (x, y) |-> (x, -y). */
  const VerticalMirror: Symmetry := Symmetry(false, false, true)
  /** Mirror about the vertical centre line, left and right swap: (x, y) |-> (-x, y). */
  const HorizontalMirror: Symmetry := Symmetry(false, true, false)
  /** Mirror about the main diagonal, the top edge becomes the left edge: (x, y) |-> (y, x). */
  const Transpose: Symmetry := Symmetry(true, false, false)
  /** Mirror about the anti-diagonal, the top edge becomes the right edge: (x, y) |-> (-y, -x). */
  const Transverse: Symmetry := Symmetry(true, true, true)

  /**
   * A rotation by `degrees`, positive meaning clockwise on screen, for multiples of 90
   * (the only angles the orientation normaliser uses).
   */
  function Rotation(degrees: int): Symmetry
    requires degrees % 90 == 0
  {
    var k := (degrees / 90) % 4;
    if k == 0 then Identity
    else if k == 1 then QuarterTurn
    else if k == 2 then HalfTurn
    else ThreeQuarterTurn
  }

  /** The rotations the orientation normaliser issues, as symmetries of the grid. */
  lemma RotationValues()
    ensures Rotation(90) == QuarterTurn
    ensures Rotation(-90) == ThreeQuarterTurn
    ensures Rotation(180) == HalfTurn
  {
    assert -90 / 90 == -1;
  }

  /** The identity is neutral on either side of a composition. */
  lemma ComposeIdentity(f: Symmetry)
    ensures Compose(Identity, f) == f
    ensures Compose(f, Identity) == f
  {
  }
}
