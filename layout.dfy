/**
 * The layout compensator's arithmetic: the scrollbar inset of a fixed header,
 * the padding of `main`, and the short-page guard that keeps the scrolled
 * classes from shrinking the page below the scrolled point.
 */
module Layout {
  import opened Wrappers
  import opened HeaderKinds

  /** Width the scrollbar takes from the scroll container: offset width minus client width minus the header's borders. */
  function ScrollbarInset(g: Geometry): int {
    g.containerOffsetWidth - g.containerClientWidth - (g.borderLeftWidth + g.borderRightWidth)
  }

  /**
   * The inline `right` that `_adaptFixedHeaderPosition` leaves: removed, and for
   * a fixed header set back to the stylesheet's `right` widened by the scrollbar.
   */
  function FixedRight(fixedHeader: bool, g: Geometry): (r: Option<int>)
    ensures r.Some? <==> fixedHeader
    ensures r.Some? ==> r.value - g.cssRight == ScrollbarInset(g)
  {
    if fixedHeader then
      Some(g.cssRight + g.containerOffsetWidth - g.containerClientWidth
           - (g.borderLeftWidth + g.borderRightWidth))
    else None
  }

  /**
   * The `padding-top` of `main` that `_updateMainPaddingTop` leaves: an overlay
   * header keeps whatever was there, any other header pads by its height while
   * fixed and clears the padding otherwise.
   */
  function MainPadding(overlay: bool, fixedHeader: bool, height: int, current: Option<int>): (r: Option<int>)
    ensures overlay ==> r == current
    ensures !overlay ==> (r.Some? <==> fixedHeader)
    ensures !overlay && r.Some? ==> r.value == height
  {
    if overlay then current else if fixedHeader then Some(height) else None
  }

  /** The largest scroll offset the page allows once the header has shrunk by `shrink` pixels. */
  function MaxScrollAfterShrink(g: Geometry, shrink: int): int {
    (g.scrollHeight - shrink) - g.clientHeight
  }

  /** `(scrollHeight - clientHeight) - scrolledPoint`: how far the page can scroll past the scrolled point. */
  function RemainingScroll(v: Variant, g: Geometry): int {
    (g.scrollHeight - g.clientHeight) - ScrolledPoint(v)
  }

  /**
   * `_scrollHeightTooShort`: the header would shrink by `headerHeight - scrolledHeight`
   * once scrolled; the guard holds when that shrink is positive and at least the
   * remaining scroll. An unmeasured height makes the difference NaN, hence false.
   * It holds exactly when, after shrinking, the page could no longer be scrolled
   * past the scrolled point, so the scrolled classes would undo themselves.
   */
  function ScrollHeightTooShort(v: Variant, headerHeight: Option<int>, g: Geometry): (r: bool)
    ensures r <==> (headerHeight.Some? && headerHeight.value > g.scrolledHeight &&
      MaxScrollAfterShrink(g, headerHeight.value - g.scrolledHeight) <= ScrolledPoint(v))
    ensures headerHeight.Some? && headerHeight.value - g.scrolledHeight <= 0 ==> !r
  {
    match headerHeight
    case None => false
    case Some(h) =>
      var heightDiff := h - g.scrolledHeight;
      if heightDiff > 0 then RemainingScroll(v, g) <= heightDiff else false
  }

  /**
   * A standard header 100 px high whose scrolled form is 60 px lower, on a page
   * with 40 px of scroll left past the scrolled point, keeps its unscrolled form.
   */
  lemma ShortPageExample()
    ensures ScrollHeightTooShort(StandardAffixed, Some(100),
      Geometry(100, 100, 40, 1340, 1000, 0, 0, 0, 0, 0))
  {
  }
}
