/**
 * The scroll classifier: the decisions the scroll handlers take from the
 * scroll offset, apart from the DOM writes that carry them out. The base
 * handler decides whether `o_header_is_scrolled` switches; the disappearing
 * headers track the scroll direction and hide or reshow with hysteresis.
 */
module ScrollClassifier {
  import opened Wrappers
  import opened HeaderKinds

  /** What the base scroll handler does with `o_header_is_scrolled`. */
  datatype ScrolledSwitch =
    | Unchanged           // the offset is on the same side of the scrolled point as recorded
    | Suppressed          // switching on would make the page too short
    | Switched(on: bool)  // class and field now say `on`

  /**
   * The decision in `_updateHeaderOnScroll`: the header counts as scrolled past
   * `scrolledPoint`; a change from the recorded value (an unrecorded value always
   * differs) switches class and field together, except that switching on is
   * suppressed exactly when the short-page guard holds. Switching off is never
   * suppressed.
   */
  function ScrolledDecision(recorded: Option<bool>, scroll: int, scrolledPoint: int, tooShort: bool): (r: ScrolledSwitch)
    ensures r.Unchanged? <==> recorded == Some(scroll > scrolledPoint)
    ensures r.Suppressed? <==> recorded != Some(scroll > scrolledPoint) && scroll > scrolledPoint && tooShort
    ensures r.Switched? ==> r.on == (scroll > scrolledPoint) && recorded != Some(r.on)
    ensures scroll <= scrolledPoint ==> !r.Suppressed?
  {
    var headerIsScrolled := scroll > scrolledPoint;
    if recorded == Some(headerIsScrolled) then Unchanged
    else if headerIsScrolled && tooShort then Suppressed
    else Switched(headerIsScrolled)
  }

  /** The fields of a disappearing header that follow the scroll direction. */
  datatype Vanish = Vanish(
    scrollingDownwards: bool,
    hiddenHeader: bool,
    position: int,    // the offset of the previous scroll event
    atTop: bool,
    checkPoint: int)  // the offset where the direction last changed

  /** The fields as `init` sets them. */
  const VanishInit: Vanish := Vanish(true, false, 0, true, 0)

  /**
   * The first half of the disappearing step (the assignments before any
   * hide or show): a direction flip moves the check point to the current offset.
   */
  function Observe(v: Vanish, scroll: int): (r: Vanish)
    ensures r.scrollingDownwards == (scroll > v.position)
    ensures r.checkPoint == (if r.scrollingDownwards != v.scrollingDownwards then scroll else v.checkPoint)
    ensures r.position == scroll && r.atTop == (scroll <= 0) && r.hiddenHeader == v.hiddenHeader
  {
    var scrollingDownwards := scroll > v.position;
    var atTop := scroll <= 0;
    var checkPoint := if scrollingDownwards != v.scrollingDownwards then scroll else v.checkPoint;
    Vanish(scrollingDownwards, v.hiddenHeader, scroll, atTop, checkPoint)
  }

  /** Hide: scrolling down, not hidden yet, and further than `bound` below the check point. */
  predicate HidesAt(o: Vanish, scroll: int, bound: Option<int>) {
    o.scrollingDownwards && !o.hiddenHeader && Gt(scroll - o.checkPoint, bound)
  }

  /** Reshow: scrolling up, hidden, and further than half of `bound` above the check point. */
  predicate ShowsAt(o: Vanish, scroll: int, bound: Option<int>) {
    !o.scrollingDownwards && o.hiddenHeader && HalfBelow(scroll - o.checkPoint, bound)
  }

  /**
   * The direction and visibility fields after one disappearing step, whose
   * hide/show bound is `scrollOffsetLimit + topGap` (NaN while `topGap` is
   * unmeasured). The check point moves to the offset exactly when the direction
   * flips; the header hides exactly when scrolling down past the bound and
   * reshows exactly when scrolling up past half the bound (real division, so an
   * odd bound is exact); position and `atTop` record the offset.
   */
  function VanishStep(v: Vanish, scroll: int, bound: Option<int>): (r: Vanish)
    ensures r.scrollingDownwards == (scroll > v.position)
    ensures r.checkPoint == (if r.scrollingDownwards != v.scrollingDownwards then scroll else v.checkPoint)
    ensures r.position == scroll && r.atTop == (scroll <= 0)
    ensures !v.hiddenHeader && r.hiddenHeader <==>
      scroll > v.position && !v.hiddenHeader && bound.Some? && scroll - r.checkPoint > bound.value
    ensures v.hiddenHeader && !r.hiddenHeader <==>
      scroll <= v.position && v.hiddenHeader && bound.Some? && 2 * (scroll - r.checkPoint) < -bound.value
  {
    var o := Observe(v, scroll);
    o.(hiddenHeader := Visibility(o, scroll, bound))
  }

  /**
   * The second half of the disappearing step: the header becomes hidden
   * exactly when `HidesAt`, shown exactly when `ShowsAt`, and otherwise stays.
   */
  function Visibility(o: Vanish, scroll: int, bound: Option<int>): (r: bool)
    ensures r && !o.hiddenHeader <==> HidesAt(o, scroll, bound)
    ensures !r && o.hiddenHeader <==> ShowsAt(o, scroll, bound)
  {
    if HidesAt(o, scroll, bound) then true
    else if ShowsAt(o, scroll, bound) then false
    else o.hiddenHeader
  }

  /** A scroll event that reverses the direction never hides or reshows the header. */
  lemma FlipNeverToggles(v: Vanish, scroll: int, bound: Option<int>)
    requires bound.Some? ==> bound.value >= 0
    requires (scroll > v.position) != v.scrollingDownwards
    ensures VanishStep(v, scroll, bound).hiddenHeader == v.hiddenHeader
  {
  }

  /**
   * The "reshow at top" test of the disappearing step compares the offset with
   * `atTop` after that field has already been overwritten with the same test.
   */
  predicate ReshowAtTop(v: Vanish, scroll: int, bound: Option<int>) {
    var atTop := scroll <= 0;
    atTop && !VanishStep(v, scroll, bound).atTop
  }

  /** The reshow-at-top branch can never run. */
  lemma ReshowAtTopNeverFires(v: Vanish, scroll: int, bound: Option<int>)
    ensures !ReshowAtTop(v, scroll, bound)
  {
    var o := Observe(v, scroll);
    assert VanishStep(v, scroll, bound).atTop == o.atTop;
  }

  /**
   * So a hidden header that jumps straight back to the top in one upward
   * scroll stays hidden: the jump is a direction flip, the check point moves to
   * the top, and nothing forces it back.
   */
  lemma JumpToTopStaysHidden()
    ensures var r := VanishStep(Vanish(true, true, 500, false, 100), 0, Some(ScrollOffsetLimit));
      r.hiddenHeader && r.atTop && r.checkPoint == 0
  {
  }

  /** The fields after a sequence of scroll offsets with a fixed bound. */
  function VanishRun(v: Vanish, offsets: seq<int>, bound: Option<int>): Vanish
    decreases |offsets|
  {
    if offsets == [] then v
    else VanishRun(VanishStep(v, offsets[0], bound), offsets[1..], bound)
  }

  /** Every offset is at most the one before, starting from `start`: the page only scrolls up. */
  predicate ScrollsUp(start: int, offsets: seq<int>) {
    (|offsets| > 0 ==> offsets[0] <= start) &&
    forall i :: 0 < i < |offsets| ==> offsets[i] <= offsets[i - 1]
  }

  /** Every offset exceeds the one before, starting from `start`: the page only scrolls down. */
  predicate ScrollsDown(start: int, offsets: seq<int>) {
    (|offsets| > 0 ==> offsets[0] > start) &&
    forall i :: 0 < i < |offsets| ==> offsets[i] > offsets[i - 1]
  }

  /**
   * Hysteresis on the way up: a hidden header that keeps scrolling up stays
   * hidden as long as it has not climbed more than half the bound above the
   * check point, however many scroll events that takes.
   */
  lemma {:induction false} SmallRiseKeepsHidden(v: Vanish, offsets: seq<int>, b: int)
    requires v.hiddenHeader && !v.scrollingDownwards
    requires ScrollsUp(v.position, offsets)
    requires forall i :: 0 <= i < |offsets| ==> 2 * (offsets[i] - v.checkPoint) >= -b
    ensures var r := VanishRun(v, offsets, Some(b));
      r.hiddenHeader && !r.scrollingDownwards && r.checkPoint == v.checkPoint
    decreases |offsets|
  {
    if offsets != [] {
      var v1 := VanishStep(v, offsets[0], Some(b));
      assert v1.hiddenHeader && !v1.scrollingDownwards && v1.checkPoint == v.checkPoint;
      assert v1.position == offsets[0];
      SmallRiseKeepsHidden(v1, offsets[1..], b);
    }
  }

  /**
   * Hysteresis on the way down: a shown header that keeps scrolling down stays
   * shown as long as it has not gone more than the bound below the check point.
   */
  lemma {:induction false} SmallDescentKeepsShown(v: Vanish, offsets: seq<int>, b: int)
    requires !v.hiddenHeader && v.scrollingDownwards
    requires ScrollsDown(v.position, offsets)
    requires forall i :: 0 <= i < |offsets| ==> offsets[i] - v.checkPoint <= b
    ensures var r := VanishRun(v, offsets, Some(b));
      !r.hiddenHeader && r.scrollingDownwards && r.checkPoint == v.checkPoint
    decreases |offsets|
  {
    if offsets != [] {
      var v1 := VanishStep(v, offsets[0], Some(b));
      assert !v1.hiddenHeader && v1.scrollingDownwards && v1.checkPoint == v.checkPoint;
      assert v1.position == offsets[0];
      SmallDescentKeepsShown(v1, offsets[1..], b);
    }
  }
}
