/**
 * One animated website header, as the widgets in menu.js keep it: the fields
 * the widget stores on itself and the DOM it writes, updated in place by the
 * scroll, resize and transition handlers. The four registered widgets share
 * this class and differ by `variant`; each scroll handler runs the base step
 * and then its own post-step, as the `_super` chains do.
 *
 * Each class name the widgets manage on the header element is one boolean
 * field; `classList.add`, `remove` and `toggle` assign it.
 */
module AnimatedHeaders {
  import opened Wrappers
  import opened HeaderKinds
  import TransitionTracker
  import Layout
  import ScrollClassifier

  class AnimatedHeader {
    // fixed when the widget is attached
    const variant: Variant
    const isOverlayHeader: bool
    const editableMode: bool
    const computedTopGap: nat    // what `_computeTopGap` returns
    const scrolledPoint: int := ScrolledPoint(variant)
    const scrollOffsetLimit: int := ScrollOffsetLimit

    // the DOM the widget writes
    var attached: bool           // between `start` and `destroy`
    var affixedClass: bool       // o_header_affixed
    var scrolledClass: bool      // o_header_is_scrolled
    var noTransitionClass: bool  // o_header_no_transition
    var transitioningClass: bool // o_transitioning
    var topFixedClass: bool      // o_top_fixed_element
    var transform: Transform
    var right: Option<int>       // inline `right`, None once removed
    var mainPaddingTop: Option<int>  // inline `padding-top` of `main`, None once cleared
    var menusShown: bool         // some dropdown or navbar collapse carries `show`
    var fadedOut: bool           // the last fade asked of jQuery was `fadeOut`
    var scrollNudges: seq<int>   // the `scrollBy` offsets asked for, in order

    // the widget's own fields
    var fixedHeader: bool
    var hasScrolled: bool
    var closeOpenedMenus: bool
    var scrollHeightTooShort: bool
    var headerIsScrolled: Option<bool>
    var headerHeight: Option<int>
    var topGap: Option<int>
    var transitionCount: int
    var framesPending: nat       // `requestAnimationFrame` callbacks not yet run
    var timerArmed: bool         // `_changeLoopTimer` pending
    var timerArms: nat           // how many times `setTimeout` armed it
    var notifications: nat       // rounds of `extraMenuUpdateCallbacks` calls
    var fixedHeaderShow: bool    // StandardAffixed
    var scrollingDownwards: bool // Disappearing and FadeOut
    var hiddenHeader: bool
    var position: int
    var atTop: bool
    var checkPoint: int

    function Tracker(): TransitionTracker.Tracker
      reads this`transitionCount, this`framesPending, this`timerArmed, this`timerArms
    {
      TransitionTracker.Tracker(transitionCount, framesPending, timerArmed, timerArms)
    }

    function Vanish(): ScrollClassifier.Vanish
      reads this`scrollingDownwards, this`hiddenHeader, this`position, this`atTop, this`checkPoint
    {
      ScrollClassifier.Vanish(scrollingDownwards, hiddenHeader, position, atTop, checkPoint)
    }

    /** `_isShown`. */
    function Shown(): bool
      reads this`fixedHeader, this`fixedHeaderShow, this`hiddenHeader
    {
      IsShown(variant, fixedHeader, fixedHeaderShow, hiddenHeader)
    }

    /**
     * The header invariant, in three parts: the transition tracker's, the
     * scrolled class's, and the fixed state's.
     */
    ghost predicate Valid()
      reads this`transitionCount, this`framesPending, this`timerArmed, this`timerArms,
            this`attached, this`transitioningClass, this`scrolledClass, this`headerIsScrolled,
            this`affixedClass, this`fixedHeader, this`right, this`mainPaddingTop, this`headerHeight, this`topGap
    {
      TrackerValid() && ScrolledValid() && FixedValid()
    }

    /** The tracker invariant, and `o_transitioning` present exactly while transitions are outstanding. */
    ghost predicate TrackerValid()
      reads this`transitionCount, this`framesPending, this`timerArmed, this`timerArms,
            this`attached, this`transitioningClass
    {
      TransitionTracker.Valid(Tracker()) &&
      (attached ==> (transitioningClass <==> transitionCount > 0))
    }

    /** `o_header_is_scrolled` present exactly when the recorded scrolled state is on. */
    ghost predicate ScrolledValid()
      reads this`attached, this`scrolledClass, this`headerIsScrolled
    {
      attached ==> (scrolledClass <==> headerIsScrolled == Some(true))
    }

    /**
     * `o_header_affixed`, the inline `right` and the padding of `main` agree with
     * the fixed state; the standard header's height is measured; a measured top
     * gap is the configured one; only an attached header is fixed.
     */
    ghost predicate FixedValid()
      reads this`attached, this`affixedClass, this`fixedHeader, this`right, this`mainPaddingTop, this`headerHeight, this`topGap
    {
      affixedClass == fixedHeader &&
      right.Some? == fixedHeader &&
      mainPaddingTop == (if isOverlayHeader || !fixedHeader then None else headerHeight) &&
      (variant.StandardAffixed? ==> headerHeight.Some?) &&
      (topGap.Some? ==> topGap.value == computedTopGap) &&
      (!attached ==> !fixedHeader)
    }

    /** The layout fields after one `_adaptToHeaderChange` with measurements `g`. */
    twostate predicate Adapted(g: Geometry)
      reads this
    {
      headerHeight == Some(g.outerHeight) && topGap == Some(computedTopGap) &&
      mainPaddingTop == Layout.MainPadding(isOverlayHeader, fixedHeader, g.outerHeight, old(mainPaddingTop)) &&
      topFixedClass == Shown() &&
      notifications == old(notifications) + 1
    }

    /** The effect of `_hideHeader` beyond its transition start: Disappearing slides up, FadeOut fades out. */
    twostate predicate HideEffect()
      reads this`transform, this`fadedOut
    {
      transform == (if variant.Disappearing? then TranslateFullUp else old(transform)) &&
      fadedOut == (old(fadedOut) || variant.FadeOut?)
    }

    /**
     * The effect of `_showHeader` beyond its transition start: the disappearing
     * headers go back to their natural place at the top and just under the top
     * gap elsewhere; FadeOut fades back in.
     */
    twostate predicate ShowEffect()
      reads this`transform, this`fadedOut, this`atTop
    {
      transform == (if !IsDisappearing(variant) then old(transform)
                    else if atTop then NoTransform else TranslateUp(computedTopGap)) &&
      fadedOut == (old(fadedOut) && !variant.FadeOut?)
    }

    /** The layout fields untouched. */
    twostate predicate NotAdapted()
      reads this
    {
      headerHeight == old(headerHeight) && topGap == old(topGap) &&
      mainPaddingTop == old(mainPaddingTop) && topFixedClass == old(topFixedClass) &&
      notifications == old(notifications)
    }

    /** `init` followed by `start`; only the standard header measures its height in `start`. */
    constructor (variant: Variant, isOverlayHeader: bool, editableMode: bool, topGap: nat,
                 g: Geometry, menusShown: bool)
      ensures Valid() && attached
      ensures this.variant == variant && this.isOverlayHeader == isOverlayHeader
      ensures this.editableMode == editableMode && computedTopGap == topGap
      ensures !affixedClass && !scrolledClass && !noTransitionClass && !transitioningClass && !topFixedClass
      ensures transform == NoTransform && right == None && mainPaddingTop == None
      ensures this.menusShown == menusShown && !fadedOut && scrollNudges == []
      ensures !fixedHeader && !hasScrolled && !closeOpenedMenus && !scrollHeightTooShort
      ensures headerIsScrolled == None && this.topGap == None
      ensures headerHeight == (if variant.StandardAffixed? then Some(g.outerHeight) else None)
      ensures Tracker() == TransitionTracker.Idle && notifications == 0 && !fixedHeaderShow
      ensures Vanish() == ScrollClassifier.VanishInit
    {
      this.variant := variant;
      this.isOverlayHeader := isOverlayHeader;
      this.editableMode := editableMode;
      computedTopGap := topGap;
      attached := true;
      affixedClass := false;
      scrolledClass := false;
      noTransitionClass := false;
      transitioningClass := false;
      topFixedClass := false;
      transform := NoTransform;
      right := None;
      mainPaddingTop := None;
      this.menusShown := menusShown;
      fadedOut := false;
      scrollNudges := [];
      fixedHeader := false;
      hasScrolled := false;
      closeOpenedMenus := false;
      scrollHeightTooShort := false;
      headerIsScrolled := None;
      headerHeight := if variant.StandardAffixed? then Some(g.outerHeight) else None;
      this.topGap := None;
      transitionCount := 0;
      framesPending := 0;
      timerArmed := false;
      timerArms := 0;
      notifications := 0;
      fixedHeaderShow := false;
      scrollingDownwards := true;
      hiddenHeader := false;
      position := 0;
      atTop := true;
      checkPoint := 0;
    }

    //------------------------------------------------------------------
    // Layout compensator
    //------------------------------------------------------------------

    /** `_updateMainPaddingTop`. */
    method UpdateMainPaddingTop(g: Geometry)
      modifies this`headerHeight, this`topGap, this`mainPaddingTop
      ensures headerHeight == Some(g.outerHeight) && topGap == Some(computedTopGap)
      ensures mainPaddingTop == Layout.MainPadding(isOverlayHeader, fixedHeader, g.outerHeight, old(mainPaddingTop))
      ensures old(Valid()) ==> Valid()
    {
      headerHeight := Some(g.outerHeight);
      topGap := Some(computedTopGap);
      if isOverlayHeader {
        return;
      }
      mainPaddingTop := if fixedHeader then headerHeight else None;
    }

    /** `_adaptToHeaderChange`: padding, the visibility marker, one round of menu callbacks. */
    method AdaptToHeaderChange(g: Geometry)
      modifies this`headerHeight, this`topGap, this`mainPaddingTop, this`topFixedClass, this`notifications
      ensures Adapted(g)
      ensures old(Valid()) ==> Valid()
    {
      UpdateMainPaddingTop(g);
      topFixedClass := Shown();
      notifications := notifications + 1;
    }

    /** `_adaptFixedHeaderPosition`. */
    method AdaptFixedHeaderPosition(g: Geometry)
      modifies this`right
      ensures right == Layout.FixedRight(fixedHeader, g)
      ensures old(Valid()) ==> Valid()
    {
      right := None;
      if fixedHeader {
        var bordersWidth := g.borderLeftWidth + g.borderRightWidth;
        var newValue := g.cssRight + g.containerOffsetWidth - g.containerClientWidth - bordersWidth;
        right := Some(newValue);
      }
    }

    /** `_toggleFixedHeader(useFixed)`: field and class both become `useFixed`; padding and inset follow. */
    method ToggleFixedHeader(useFixed: bool, g: Geometry)
      modifies this`fixedHeader, this`headerHeight, this`topGap, this`mainPaddingTop, this`topFixedClass,
               this`notifications, this`affixedClass, this`right
      ensures fixedHeader == useFixed && affixedClass == useFixed && Adapted(g)
      ensures right == Layout.FixedRight(useFixed, g)
    {
      fixedHeader := useFixed;
      AdaptToHeaderChange(g);
      affixedClass := useFixed;
      AdaptFixedHeaderPosition(g);
    }

    //------------------------------------------------------------------
    // Transition tracker
    //------------------------------------------------------------------

    /**
     * `_adaptToHeaderChangeLoop(addCount)`: the tracker moves as `Loop` says;
     * at zero `o_transitioning` goes, above zero it stays as it was.
     */
    method AdaptToHeaderChangeLoop(addCount: int, g: Geometry)
      modifies this`headerHeight, this`topGap, this`mainPaddingTop, this`topFixedClass, this`notifications,
               this`transitionCount, this`framesPending, this`timerArmed, this`timerArms, this`transitioningClass
      ensures Tracker() == TransitionTracker.Loop(old(Tracker()), addCount)
      ensures Adapted(g)
      ensures transitioningClass == (transitionCount > 0 && old(transitioningClass))
    {
      AdaptToHeaderChange(g);
      transitionCount := transitionCount + addCount;
      transitionCount := if 0 > transitionCount then 0 else transitionCount;  // Math.max(0, ...)
      if transitionCount > 0 {
        framesPending := framesPending + 1;  // requestAnimationFrame
        if addCount != 0 {
          // clearTimeout, then setTimeout(..., 500)
          timerArmed, timerArms := true, timerArms + 1;
        }
      } else {
        timerArmed := false;  // clearTimeout
        transitioningClass := false;
      }
    }

    /** The `odoo-transitionstart` handler. */
    method OnTransitionStart(g: Geometry)
      requires attached
      modifies this`headerHeight, this`topGap, this`mainPaddingTop, this`topFixedClass, this`notifications,
               this`transitionCount, this`framesPending, this`timerArmed, this`timerArms, this`transitioningClass
      ensures Tracker() == TransitionTracker.Step(old(Tracker()), TransitionTracker.Start)
      ensures Adapted(g)
      ensures transitioningClass == (transitionCount > 0)
      ensures old(Valid()) ==> Valid()
    {
      transitioningClass := true;
      AdaptToHeaderChangeLoop(1, g);
    }

    /** The `transitionend` handler. */
    method OnTransitionEnd(g: Geometry)
      requires attached
      modifies this`headerHeight, this`topGap, this`mainPaddingTop, this`topFixedClass, this`notifications,
               this`transitionCount, this`framesPending, this`timerArmed, this`timerArms, this`transitioningClass
      ensures Tracker() == TransitionTracker.Step(old(Tracker()), TransitionTracker.End)
      ensures Adapted(g)
      ensures transitioningClass == (transitionCount > 0 && old(transitioningClass))
      ensures old(Valid()) ==> Valid()
    {
      AdaptToHeaderChangeLoop(-1, g);
    }

    /** A scheduled animation frame runs `_adaptToHeaderChangeLoop()`. */
    method AnimationFrame(g: Geometry)
      requires framesPending > 0
      modifies this`headerHeight, this`topGap, this`mainPaddingTop, this`topFixedClass, this`notifications,
               this`transitionCount, this`framesPending, this`timerArmed, this`timerArms, this`transitioningClass
      ensures Tracker() == TransitionTracker.Step(old(Tracker()), TransitionTracker.Frame)
      ensures Adapted(g)
      ensures transitioningClass == (transitionCount > 0 && old(transitioningClass))
      ensures old(Valid()) ==> Valid()
    {
      framesPending := framesPending - 1;
      AdaptToHeaderChangeLoop(0, g);
    }

    /** The fallback timer fires and runs `_adaptToHeaderChangeLoop(-_transitionCount)`. */
    method FallbackTimeout(g: Geometry)
      requires timerArmed
      modifies this`headerHeight, this`topGap, this`mainPaddingTop, this`topFixedClass, this`notifications,
               this`transitionCount, this`framesPending, this`timerArmed, this`timerArms, this`transitioningClass
      ensures Tracker() == TransitionTracker.Step(old(Tracker()), TransitionTracker.Timeout)
      ensures transitionCount == 0 && !timerArmed && !transitioningClass
      ensures Adapted(g)
      ensures old(Valid()) ==> Valid()
    {
      timerArmed := false;
      AdaptToHeaderChangeLoop(-transitionCount, g);
    }

    //------------------------------------------------------------------
    // Scroll steps
    //------------------------------------------------------------------

    /** `_adjustUrlAutoScroll`; the disappearing headers override it with a no-op. */
    method AdjustUrlAutoScroll(g: Geometry)
      modifies this`scrollNudges
      ensures scrollNudges ==
        if IsDisappearing(variant) || editableMode then old(scrollNudges) else old(scrollNudges) + [-g.offsetHeight]
    {
      if !IsDisappearing(variant) && !editableMode {
        scrollNudges := scrollNudges + [-g.offsetHeight];
      }
    }

    /**
     * The first-scroll latch of the base `_updateHeaderOnScroll`: the first
     * scroll event below the top suspends transitions and nudges the page
     * under the header; every later one lifts the suspension and arms the
     * closing of open menus.
     */
    method FirstScrollLatch(scroll: int, g: Geometry)
      modifies this`hasScrolled, this`noTransitionClass, this`closeOpenedMenus, this`scrollNudges
      ensures hasScrolled
      ensures closeOpenedMenus == (old(closeOpenedMenus) || old(hasScrolled))
      ensures noTransitionClass == if old(hasScrolled) then false else old(noTransitionClass) || scroll > 0
      ensures scrollNudges == if !old(hasScrolled) && scroll > 0 && !IsDisappearing(variant) && !editableMode
                              then old(scrollNudges) + [-g.offsetHeight] else old(scrollNudges)
      ensures old(Valid()) ==> Valid()
    {
      if !hasScrolled {
        hasScrolled := true;
        if scroll > 0 {
          noTransitionClass := true;
          AdjustUrlAutoScroll(g);
        }
      } else {
        noTransitionClass := false;
        closeOpenedMenus := true;
      }
    }

    /**
     * The scrolled switch of the base `_updateHeaderOnScroll`: decided by
     * `ScrolledDecision` on the recorded value; a switch toggles
     * `o_header_is_scrolled`, starts one transition and records the value.
     */
    method SwitchScrolled(scroll: int, g: Geometry)
      requires attached
      modifies this`scrollHeightTooShort, this`scrolledClass, this`headerIsScrolled,
               this`headerHeight, this`topGap, this`mainPaddingTop, this`topFixedClass, this`notifications,
               this`transitionCount, this`framesPending, this`timerArmed, this`timerArms, this`transitioningClass
      ensures old(Valid()) ==> Valid()
      ensures var d := ScrollClassifier.ScrolledDecision(old(headerIsScrolled), scroll, scrolledPoint,
                         Layout.ScrollHeightTooShort(variant, old(headerHeight), g));
        scrollHeightTooShort == (if d.Unchanged? then old(scrollHeightTooShort) else d.Suppressed?) &&
        headerIsScrolled == (if d.Switched? then Some(d.on) else old(headerIsScrolled)) &&
        scrolledClass == (if d.Switched? then d.on else old(scrolledClass)) &&
        Tracker() == (if d.Switched? then TransitionTracker.Loop(old(Tracker()), 1) else old(Tracker())) &&
        transitioningClass == (if d.Switched? then transitionCount > 0 else old(transitioningClass)) &&
        (d.Switched? ==> Adapted(g)) && (!d.Switched? ==> NotAdapted())
    {
      var isScrolled := scroll > scrolledPoint;
      if headerIsScrolled != Some(isScrolled) {
        scrollHeightTooShort := isScrolled && Layout.ScrollHeightTooShort(variant, headerHeight, g);
        if !scrollHeightTooShort {
          ToggleScrolled(isScrolled, g);
        }
      }
    }

    /**
     * A switch of the scrolled state: `o_header_is_scrolled` toggled, one
     * transition started, the value recorded. No handler of the transition
     * start reads the recorded value, so recording it before the start is the same.
     */
    method ToggleScrolled(isScrolled: bool, g: Geometry)
      requires attached
      modifies this`scrolledClass, this`headerIsScrolled,
               this`headerHeight, this`topGap, this`mainPaddingTop, this`topFixedClass, this`notifications,
               this`transitionCount, this`framesPending, this`timerArmed, this`timerArms, this`transitioningClass
      ensures old(Valid()) ==> Valid()
      ensures scrolledClass == isScrolled && headerIsScrolled == Some(isScrolled)
      ensures Tracker() == TransitionTracker.Loop(old(Tracker()), 1)
      ensures transitioningClass == (transitionCount > 0) && Adapted(g)
    {
      scrolledClass, headerIsScrolled := isScrolled, Some(isScrolled);
      OnTransitionStart(g);
    }

    /** The base `_updateHeaderOnScroll`: latch, scrolled switch, then the menus close once armed. */
    method BaseUpdateOnScroll(scroll: int, g: Geometry)
      requires Valid() && attached
      modifies this`hasScrolled, this`noTransitionClass, this`closeOpenedMenus, this`scrollNudges,
               this`scrollHeightTooShort, this`scrolledClass, this`headerIsScrolled, this`menusShown,
               this`headerHeight, this`topGap, this`mainPaddingTop, this`topFixedClass, this`notifications,
               this`transitionCount, this`framesPending, this`timerArmed, this`timerArms, this`transitioningClass
      ensures Valid()
      ensures hasScrolled && (old(hasScrolled) ==> !noTransitionClass && !menusShown)
      ensures headerIsScrolled != old(headerIsScrolled) ==> headerIsScrolled == Some(scroll > scrolledPoint)
    {
      FirstScrollLatch(scroll, g);
      SwitchScrolled(scroll, g);
      CloseOpenedMenus();
    }

    /** The end of the base `_updateHeaderOnScroll`: once armed, every scroll event closes the open menus. */
    method CloseOpenedMenus()
      modifies this`menusShown
      ensures menusShown == (old(menusShown) && !closeOpenedMenus)
      ensures old(Valid()) ==> Valid()
    {
      if closeOpenedMenus {
        menusShown := false;
      }
    }

    /**
     * The StandardAffixed post-step: fixed past the header's height, shown past
     * the scrolled point unless the page is too short, the transform chosen in
     * that order of priority whenever either flag changes.
     */
    method StandardUpdateOnScroll(scroll: int, g: Geometry)
      requires FixedValid() && attached && variant.StandardAffixed?
      modifies this`transform, this`fixedHeaderShow, this`fixedHeader, this`affixedClass, this`right,
               this`headerHeight, this`topGap, this`mainPaddingTop, this`topFixedClass, this`notifications
      ensures FixedValid()
      ensures fixedHeader == Gt(scroll, Plus(old(headerHeight), old(topGap)))
      ensures fixedHeaderShow == (Gt(scroll, Plus(Some(scrolledPoint), old(topGap))) && !scrollHeightTooShort)
      ensures Shown() == (!fixedHeader || fixedHeaderShow)
      ensures transform == (if fixedHeader == old(fixedHeader) && fixedHeaderShow == old(fixedHeaderShow) then old(transform)
                            else if fixedHeaderShow then TranslateUp(old(topGap).value)
                            else if fixedHeader then TranslateFullUp
                            else NoTransform)
      ensures right == (if fixedHeader != old(fixedHeader) then Layout.FixedRight(fixedHeader, g) else old(right))
      ensures fixedHeader != old(fixedHeader) || fixedHeaderShow != old(fixedHeaderShow) ==> Adapted(g)
      ensures fixedHeader == old(fixedHeader) && fixedHeaderShow == old(fixedHeaderShow) ==> NotAdapted()
    {
      var mainPosScrolled := Gt(scroll, Plus(headerHeight, topGap));
      var reachPosScrolled := Gt(scroll, Plus(Some(scrolledPoint), topGap)) && !scrollHeightTooShort;
      var fixedUpdate := fixedHeader != mainPosScrolled;
      var showUpdate := fixedHeaderShow != reachPosScrolled;

      if fixedUpdate || showUpdate {
        transform := if reachPosScrolled then TranslateUp(topGap.value)
                     else if mainPosScrolled then TranslateFullUp
                     else NoTransform;
      }

      fixedHeaderShow := reachPosScrolled;

      if fixedUpdate {
        ToggleFixedHeader(mainPosScrolled, g);
      } else if showUpdate {
        AdaptToHeaderChange(g);
      }
    }

    /**
     * The Fixed post-step: affixed exactly when past the scrolled point plus the
     * top gap, unfixed and untransformed otherwise.
     */
    method FixedUpdateOnScroll(scroll: int, g: Geometry)
      requires FixedValid() && attached
      modifies this`transform, this`fixedHeader, this`affixedClass, this`right,
               this`headerHeight, this`topGap, this`mainPaddingTop, this`topFixedClass, this`notifications
      ensures FixedValid() && topGap == Some(computedTopGap)
      ensures var above := Gt(scroll, Plus(Some(scrolledPoint), old(topGap)));
        affixedClass == above &&
        (above && old(affixedClass) ==>
           NotAdapted() && fixedHeader == old(fixedHeader) && right == old(right) && transform == old(transform)) &&
        (above && !old(affixedClass) ==>
           fixedHeader && Adapted(g) && transform == TranslateUp(old(topGap).value) &&
           right == Layout.FixedRight(true, g)) &&
        (!above ==>
           !fixedHeader && Adapted(g) && transform == NoTransform && right == Layout.FixedRight(false, g))
    {
      if Gt(scroll, Plus(Some(scrolledPoint), topGap)) {
        if !affixedClass {
          transform := TranslateUp(topGap.value);
          ToggleFixedHeader(true, g);
        }
      } else {
        ToggleFixedHeader(false, g);
        transform := NoTransform;
      }
    }

    /** `_hideHeader`: a transition start, then a slide up (Disappearing) or a fade out (FadeOut). */
    method HideHeader(g: Geometry)
      requires attached
      modifies this`headerHeight, this`topGap, this`mainPaddingTop, this`topFixedClass, this`notifications,
               this`transitionCount, this`framesPending, this`timerArmed, this`timerArms, this`transitioningClass,
               this`transform, this`fadedOut
      ensures old(Valid()) ==> Valid()
      ensures Tracker() == TransitionTracker.Step(old(Tracker()), TransitionTracker.Start)
      ensures Adapted(g) && transitioningClass == (transitionCount > 0)
      ensures HideEffect()
    {
      OnTransitionStart(g);
      match variant
      case Disappearing => transform := TranslateFullUp;
      case FadeOut => fadedOut := true;
      case _ =>
    }

    /**
     * `_showHeader`: a transition start, then back to the natural position at
     * the top of the page or just under the top gap elsewhere; FadeOut also fades in.
     */
    method ShowHeader(g: Geometry)
      requires attached
      modifies this`headerHeight, this`topGap, this`mainPaddingTop, this`topFixedClass, this`notifications,
               this`transitionCount, this`framesPending, this`timerArmed, this`timerArms, this`transitioningClass,
               this`transform, this`fadedOut
      ensures old(Valid()) ==> Valid()
      ensures Tracker() == TransitionTracker.Step(old(Tracker()), TransitionTracker.Start)
      ensures Adapted(g) && transitioningClass == (transitionCount > 0)
      ensures ShowEffect()
    {
      OnTransitionStart(g);
      match variant
      case Disappearing =>
        transform := if atTop then NoTransform else TranslateUp(topGap.value);
      case FadeOut =>
        transform := if atTop then NoTransform else TranslateUp(topGap.value);
        fadedOut := false;
      case _ =>
    }

    /**
     * The first half of the disappearing post-step: direction, position and
     * `atTop` follow the offset as `Observe` says.
     */
    method ObserveScroll(scroll: int)
      modifies this`scrollingDownwards, this`position, this`atTop, this`checkPoint
      ensures Vanish() == ScrollClassifier.Observe(old(Vanish()), scroll)
      ensures old(Valid()) ==> Valid()
    {
      var scrollingDownwardsNow := scroll > position;
      var atTopNow := scroll <= 0;
      if scrollingDownwardsNow != scrollingDownwards {
        checkPoint := scroll;
      }
      scrollingDownwards := scrollingDownwardsNow;
      position := scroll;
      atTop := atTopNow;
    }

    /**
     * The second half: hide when `HidesAt`, reshow when `ShowsAt`, with the
     * bound `scrollOffsetLimit + topGap`; either is one transition start.
     */
    method HideOrShow(scroll: int, g: Geometry)
      requires Valid() && attached
      modifies this`hiddenHeader,
               this`headerHeight, this`topGap, this`mainPaddingTop, this`topFixedClass, this`notifications,
               this`transitionCount, this`framesPending, this`timerArmed, this`timerArms, this`transitioningClass,
               this`transform, this`fadedOut
      ensures Valid()
      ensures hiddenHeader == ScrollClassifier.Visibility(old(Vanish()), scroll, Plus(Some(scrollOffsetLimit), old(topGap)))
      ensures hiddenHeader == old(hiddenHeader) ==>
        Tracker() == old(Tracker()) && NotAdapted() && transitioningClass == old(transitioningClass) &&
        transform == old(transform) && fadedOut == old(fadedOut)
      ensures hiddenHeader != old(hiddenHeader) ==>
        Tracker() == TransitionTracker.Step(old(Tracker()), TransitionTracker.Start) && Adapted(g) &&
        transitioningClass == (transitionCount > 0)
      ensures hiddenHeader && !old(hiddenHeader) ==> HideEffect()
      ensures !hiddenHeader && old(hiddenHeader) ==> ShowEffect()
    {
      if scrollingDownwards {
        if !hiddenHeader && Gt(scroll - checkPoint, Plus(Some(scrollOffsetLimit), topGap)) {
          hiddenHeader := true;
          HideHeader(g);
        }
      } else {
        if hiddenHeader && HalfBelow(scroll - checkPoint, Plus(Some(scrollOffsetLimit), topGap)) {
          hiddenHeader := false;
          ShowHeader(g);
        }
      }
    }

    /**
     * The disappearing post-step: the direction and visibility fields move as
     * `VanishStep` says; a hide or a reshow is one transition start.
     */
    method DisappearingUpdateOnScroll(scroll: int, g: Geometry)
      requires Valid() && attached
      modifies this`scrollingDownwards, this`hiddenHeader, this`position, this`atTop, this`checkPoint,
               this`headerHeight, this`topGap, this`mainPaddingTop, this`topFixedClass, this`notifications,
               this`transitionCount, this`framesPending, this`timerArmed, this`timerArms, this`transitioningClass,
               this`transform, this`fadedOut
      ensures Valid()
      ensures Vanish() == ScrollClassifier.VanishStep(old(Vanish()), scroll, Plus(Some(scrollOffsetLimit), old(topGap)))
      ensures hiddenHeader == old(hiddenHeader) ==>
        Tracker() == old(Tracker()) && NotAdapted() && transitioningClass == old(transitioningClass) &&
        transform == old(transform) && fadedOut == old(fadedOut)
      ensures hiddenHeader != old(hiddenHeader) ==>
        Tracker() == TransitionTracker.Step(old(Tracker()), TransitionTracker.Start) && Adapted(g) &&
        transitioningClass == (transitionCount > 0)
      ensures hiddenHeader && !old(hiddenHeader) ==> HideEffect()
      ensures !hiddenHeader && old(hiddenHeader) ==> ShowEffect()
    {
      var atTopNow := scroll <= 0;
      ObserveScroll(scroll);
      HideOrShow(scroll, g);
      if atTopNow && !atTop {
        // `_showHeader()` stands here; the test reads `atTop` after it was
        // overwritten with the same value, so it is never reached
        assert false;
      }
    }

    /**
     * The post-step of each widget's `_updateHeaderOnScroll` after the base
     * step; the disappearing headers run the Fixed post-step first, as their
     * `_super` call does.
     */
    method PostStep(scroll: int, g: Geometry)
      requires Valid() && attached
      modifies this`transform, this`fixedHeaderShow, this`fixedHeader, this`affixedClass, this`right,
               this`scrollingDownwards, this`hiddenHeader, this`position, this`atTop, this`checkPoint,
               this`headerHeight, this`topGap, this`mainPaddingTop, this`topFixedClass, this`notifications,
               this`transitionCount, this`framesPending, this`timerArmed, this`timerArms, this`transitioningClass,
               this`fadedOut
      ensures Valid()
      ensures variant.StandardAffixed? ==> fixedHeader == Gt(scroll, Plus(old(headerHeight), old(topGap)))
      ensures !variant.StandardAffixed? ==> fixedHeader == Gt(scroll, Plus(Some(scrolledPoint), old(topGap)))
      ensures IsDisappearing(variant) ==>
        Vanish() == ScrollClassifier.VanishStep(old(Vanish()), scroll, Some(scrollOffsetLimit + computedTopGap))
    {
      match variant
      case StandardAffixed =>
        StandardUpdateOnScroll(scroll, g);
      case Fixed =>
        FixedUpdateOnScroll(scroll, g);
      case Disappearing | FadeOut =>
        VanishingPostStep(scroll, g);
    }

    /** The disappearing headers' post-step: the Fixed post-step, as their `_super` call runs it, then their own. */
    method VanishingPostStep(scroll: int, g: Geometry)
      requires Valid() && attached
      modifies this`transform, this`fixedHeader, this`affixedClass, this`right,
               this`scrollingDownwards, this`hiddenHeader, this`position, this`atTop, this`checkPoint,
               this`headerHeight, this`topGap, this`mainPaddingTop, this`topFixedClass, this`notifications,
               this`transitionCount, this`framesPending, this`timerArmed, this`timerArms, this`transitioningClass,
               this`fadedOut
      ensures Valid()
      ensures fixedHeader == Gt(scroll, Plus(Some(scrolledPoint), old(topGap)))
      ensures Vanish() == ScrollClassifier.VanishStep(old(Vanish()), scroll, Some(scrollOffsetLimit + computedTopGap))
    {
      FixedUpdateOnScroll(scroll, g);
      assert Vanish() == old(Vanish());
      assert Plus(Some(scrollOffsetLimit), topGap) == Some(scrollOffsetLimit + computedTopGap);
      DisappearingUpdateOnScroll(scroll, g);
    }

    /** `_updateHeaderOnScroll` of each widget: the base step, then the widget's post-step. */
    method UpdateHeaderOnScroll(scroll: int, g: Geometry)
      requires Valid() && attached
      modifies this
      ensures Valid() && attached && hasScrolled
      ensures old(hasScrolled) ==> !noTransitionClass && !menusShown
      ensures headerIsScrolled != old(headerIsScrolled) ==> headerIsScrolled == Some(scroll > scrolledPoint)
      ensures !variant.StandardAffixed? && fixedHeader ==> scroll > scrolledPoint + computedTopGap
      ensures IsDisappearing(variant) ==>
        Vanish() == ScrollClassifier.VanishStep(old(Vanish()), scroll, Some(scrollOffsetLimit + computedTopGap))
    {
      BaseUpdateOnScroll(scroll, g);
      assert Vanish() == old(Vanish());
      PostStep(scroll, g);
    }

    /** `_updateHeaderOnResize`, without its body-class part: the scrollbar inset is recomputed. */
    method UpdateHeaderOnResize(g: Geometry)
      requires Valid() && attached
      modifies this`right
      ensures Valid() && right == Layout.FixedRight(fixedHeader, g)
    {
      AdaptFixedHeaderPosition(g);
    }

    /** The base `destroy`: unfix, drop the managed classes except the visibility marker, unbind. */
    method BaseDestroy(g: Geometry)
      modifies this`fixedHeader, this`headerHeight, this`topGap, this`mainPaddingTop, this`topFixedClass,
               this`notifications, this`affixedClass, this`right,
               this`scrolledClass, this`noTransitionClass, this`transitioningClass, this`attached
      ensures old(Valid()) ==> Valid()
      ensures !attached && !fixedHeader && Adapted(g) && right == None
      ensures !affixedClass && !scrolledClass && !noTransitionClass && !transitioningClass
    {
      ToggleFixedHeader(false, g);
      affixedClass, scrolledClass, noTransitionClass, transitioningClass := false, false, false, false;
      attached := false;
    }

    /** `destroy` of the standard header: the transform is cleared before the base teardown. */
    method StandardDestroy(g: Geometry)
      modifies this`fixedHeader, this`headerHeight, this`topGap, this`mainPaddingTop, this`topFixedClass,
               this`notifications, this`affixedClass, this`right,
               this`scrolledClass, this`noTransitionClass, this`transitioningClass, this`attached, this`transform
      ensures old(Valid()) ==> Valid()
      ensures !attached && !fixedHeader && Adapted(g) && right == None
      ensures !affixedClass && !scrolledClass && !noTransitionClass && !transitioningClass
      ensures transform == NoTransform
    {
      transform := NoTransform;
      BaseDestroy(g);
    }

    /**
     * `destroy` of the disappearing headers: the header is reshown first, which
     * starts one more transition and leaves the reshow transform in place.
     */
    method DisappearingDestroy(g: Geometry)
      requires attached
      modifies this`fixedHeader, this`headerHeight, this`topGap, this`mainPaddingTop, this`topFixedClass,
               this`notifications, this`affixedClass, this`right,
               this`scrolledClass, this`noTransitionClass, this`transitioningClass, this`attached,
               this`transitionCount, this`framesPending, this`timerArmed, this`timerArms, this`transform, this`fadedOut
      ensures old(Valid()) ==> Valid()
      ensures !attached && !fixedHeader && right == None
      ensures headerHeight == Some(g.outerHeight) && topGap == Some(computedTopGap)
      ensures mainPaddingTop == Layout.MainPadding(isOverlayHeader, false, g.outerHeight, old(mainPaddingTop))
      ensures topFixedClass == Shown() && notifications == old(notifications) + 2
      ensures !affixedClass && !scrolledClass && !noTransitionClass && !transitioningClass
      ensures Tracker() == TransitionTracker.Step(old(Tracker()), TransitionTracker.Start)
      ensures ShowEffect()
    {
      ShowHeader(g);
      BaseDestroy(g);
    }

    /** `destroy` of each widget. */
    method Destroy(g: Geometry)
      requires Valid() && attached
      modifies this`fixedHeader, this`headerHeight, this`topGap, this`mainPaddingTop, this`topFixedClass,
               this`notifications, this`affixedClass, this`right,
               this`scrolledClass, this`noTransitionClass, this`transitioningClass, this`attached,
               this`transitionCount, this`framesPending, this`timerArmed, this`timerArms, this`transform, this`fadedOut
      ensures Valid() && !attached && !fixedHeader && right == None
      ensures !affixedClass && !scrolledClass && !noTransitionClass && !transitioningClass
      ensures headerHeight == Some(g.outerHeight) && topGap == Some(computedTopGap)
      ensures mainPaddingTop == Layout.MainPadding(isOverlayHeader, false, g.outerHeight, old(mainPaddingTop))
      ensures topFixedClass == Shown()
      ensures notifications == old(notifications) + (if IsDisappearing(variant) then 2 else 1)
      ensures variant.StandardAffixed? ==> transform == NoTransform && Tracker() == old(Tracker())
      ensures variant.Fixed? ==> transform == old(transform) && Tracker() == old(Tracker())
      ensures IsDisappearing(variant) ==>
        transform == (if atTop then NoTransform else TranslateUp(computedTopGap)) &&
        Tracker() == TransitionTracker.Step(old(Tracker()), TransitionTracker.Start)
      ensures fadedOut == (old(fadedOut) && !variant.FadeOut?)
    {
      match variant
      case StandardAffixed =>
        StandardDestroy(g);
      case Fixed =>
        BaseDestroy(g);
      case Disappearing =>
        DisappearingDestroy(g);
      case FadeOut =>
        DisappearingDestroy(g);
    }
  }
}
