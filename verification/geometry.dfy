/** The resize-skip rule: whether a resize request is honoured against the current dimensions. */
module Geometry {

  /** The three behaviour values the filter defines. The parameter itself is a free string. */
  const RESIZE_DECREASE: string := "resize_decrease"
  const RESIZE_INCREASE: string := "resize_increase"
  const RESIZE_BOTH: string := "resize_both"

  /**
   * Whether a resize from `width` x `height` to `newWidth` x `newHeight` under behaviour
   * `resize` goes ahead. A decrease-only request is skipped when the target is larger on
   * both axes; an increase-only request is skipped when it is smaller on both axes. Any
   * other behaviour string, RESIZE_BOTH included, always proceeds.
   */
  function ShouldResize(width: int, height: int, newWidth: int, newHeight: int, resize: string): (r: bool)
    ensures !r <==>
      || (resize == RESIZE_DECREASE && newWidth > width && newHeight > height)
      || (resize == RESIZE_INCREASE && newWidth < width && newHeight < height)
  {
    if resize == RESIZE_DECREASE && newWidth > width && newHeight > height then false
    else if resize == RESIZE_INCREASE && newWidth < width && newHeight < height then false
    else true
  }

  /** RESIZE_BOTH, and every string that is neither of the two one-way behaviours, never skips. */
  lemma OtherBehavioursProceed(width: int, height: int, newWidth: int, newHeight: int, resize: string)
    requires resize != RESIZE_DECREASE && resize != RESIZE_INCREASE
    ensures ShouldResize(width, height, newWidth, newHeight, resize)
  {
  }

  /** The rule is conjunctive: a target that grows one axis and shrinks the other always proceeds. */
  lemma MixedTargetProceeds(width: int, height: int, newWidth: int, newHeight: int, resize: string)
    requires (newWidth > width && newHeight < height) || (newWidth < width && newHeight > height)
    ensures ShouldResize(width, height, newWidth, newHeight, resize)
  {
  }

  /** A target equal to the current size on either axis never triggers a skip. */
  lemma SameAxisProceeds(width: int, height: int, newWidth: int, newHeight: int, resize: string)
    requires newWidth == width || newHeight == height
    ensures ShouldResize(width, height, newWidth, newHeight, resize)
  {
  }

  /** At most one of the two one-way behaviours can skip a given request. */
  lemma SkipsAreDisjoint(width: int, height: int, newWidth: int, newHeight: int)
    ensures ShouldResize(width, height, newWidth, newHeight, RESIZE_DECREASE)
         || ShouldResize(width, height, newWidth, newHeight, RESIZE_INCREASE)
  {
  }
}
