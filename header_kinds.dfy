/**
 * The vocabulary shared by the header widgets: the four registered variants,
 * the inline transforms they write, the DOM measurements they
 * read, and JavaScript's arithmetic on fields that may still be `undefined`.
 */
module HeaderKinds {
  import opened Wrappers

  /** The four registered header widgets. */
  datatype Variant = StandardAffixed | Fixed | Disappearing | FadeOut

  /** The header's inline `transform`. */
  datatype Transform =
    | NoTransform          // ''
    | TranslateUp(px: int) // `translate(0, -<px>px)`
    | TranslateFullUp      // `translate(0, -100%)`

  /** The DOM measurements a handler reads, in whole pixels. */
  datatype Geometry = Geometry(
    outerHeight: int,          // the header's `outerHeight()`
    offsetHeight: int,         // the header's `offsetHeight`
    scrolledHeight: int,       // `offsetHeight` of a clone carrying the scrolled classes
    scrollHeight: int,         // the scrolling element's `scrollHeight`
    clientHeight: int,         // the scrolling element's `clientHeight`
    cssRight: int,             // the header's computed `right` once its inline value is removed
    borderLeftWidth: int,
    borderRightWidth: int,
    containerOffsetWidth: int, // `offsetWidth` of the closest scrollable ancestor
    containerClientWidth: int) // `clientWidth` of the closest scrollable ancestor

  /** `scrolledPoint` as each widget's constructor sets it. */
  function ScrolledPoint(v: Variant): int {
    if v.StandardAffixed? then 300 else 0
  }

  /** `scrollOffsetLimit` of the disappearing headers. */
  const ScrollOffsetLimit: int := 200

  predicate IsDisappearing(v: Variant) {
    v.Disappearing? || v.FadeOut?
  }

  /** JavaScript addition where either operand may be `undefined`: the sum is then NaN. */
  function Plus(a: Option<int>, b: Option<int>): Option<int> {
    if a.Some? && b.Some? then Some(a.value + b.value) else None
  }

  /** `x > y` where `y` may be NaN: every comparison with NaN is false. */
  predicate Gt(x: int, y: Option<int>) {
    y.Some? && x > y.value
  }

  /** `x < -y / 2` under JavaScript's real division, where `y` may be NaN. */
  predicate HalfBelow(x: int, y: Option<int>) {
    y.Some? && 2 * x < -y.value
  }

  /** `_isShown` of each variant: whether the header is visible at the top of the viewport. */
  function IsShown(v: Variant, fixedHeader: bool, fixedHeaderShow: bool, hiddenHeader: bool): (r: bool)
    ensures !fixedHeader ==> r
    ensures v.Fixed? ==> r
  {
    match v
    case StandardAffixed => !fixedHeader || fixedHeaderShow
    case Fixed => true
    case Disappearing => !fixedHeader || !hiddenHeader
    case FadeOut => !fixedHeader || !hiddenHeader
  }
}
