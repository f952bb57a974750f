# Animated website headers: the scroll-state machine

This project models the animated headers of the website add-on
(`addons/website/static/src/js/content/menu.js`) and proves properties of that model. There are four widgets:

- **StandardAffixed** slides out of view past its own height and comes back fixed past 300 px.
- **Fixed** is pinned once the page is scrolled at all.
- **Disappearing** hides on the way down and comes back on the way up.
- **FadeOut** does the same with a fade.

All four share one base widget. That widget:

- records whether the page is scrolled past the header's scrolled point (the `o_header_is_scrolled` class);
- refuses to switch on when the page is too short to stay scrolled afterwards;
- pins and unpins the header;
- pads `main` under a pinned header and widens the header by the scrollbar;
- counts the CSS transitions in flight, re-adapting the layout on every animation frame until they end or a 500 ms fallback timer fires.

The DOM is replaced by recorded state. Each managed class is a boolean field. The inline `transform`, `right` and `padding-top` are values. The `show` state of the menus is a flag, and a FadeOut fade is a `fadedOut` flag. The `scrollBy` nudges are kept as a list of offsets, and each round of `extraMenuUpdateCallbacks` calls adds one to a notification count. DOM measurements arrive as a `Geometry` value of whole pixels.

Two kinds of asynchrony become explicit method calls:

- `requestAnimationFrame` and `setTimeout` become a pending-frame count and an armed-timer flag;
- the environment fires them by calling `AnimationFrame` and `FallbackTimeout`.

A JavaScript field that may still be `undefined` (`headerIsScrolled`, `headerHeight`, `topGap`) is an `Option`. Arithmetic on `None` gives NaN, and every comparison with NaN is false.

The modules:

- `Wrappers` holds `Option`.
- `HeaderKinds` holds the variants, transforms, measurements, the JavaScript arithmetic on `undefined`, and `_isShown`.
- `TransitionTracker` is the counter, the frame loop and the fallback timer, as pure functions over a `Tracker` value with a signal-sequence semantics.
- `Layout` holds the scrollbar inset, the padding of `main`, and the short-page guard.
- `ScrollClassifier` holds the scrolled decision and the direction and hysteresis logic of the disappearing headers, as pure functions.
- `AnimatedHeaders.AnimatedHeader` is the widget itself: a class whose methods update its fields in place. Each method is proved against the functions above, and the header invariant `Valid` is kept by every handler.

The variants are a tagged union, and the `_super` chains are explicit compositions:

- every scroll handler runs the base step and then its variant's post-step;
- the disappearing headers run the Fixed post-step before their own, as their `_super` call does.

The code does some things that its names and comments do not suggest. The model follows the code:

- **Teardown leaves state behind.** `destroy` unpins the header and re-adapts the layout. That re-adaptation adds `o_top_fixed_element`, because an unpinned header counts as shown. A Fixed header keeps its inline transform. A Disappearing or FadeOut header is reshown first. That reshow leaves its transform in place and starts one more transition, whose counter and timer outlive the removal of `o_transitioning`.
- **The timeout zeroes the counter.** The fallback timeout does not decrement the counter by one: it runs the loop with `-count`, so the counter drops to zero at once.
- **The "reshow at top" branch never runs** (menu.js:440-444). Its test reads `this.atTop` after that field has been overwritten with the same value. A hidden header that returns to the top in one upward scroll therefore keeps `hiddenHeader` set. What that means differs by variant:
  - A Disappearing header is back in view at the top anyway, because the Fixed post-step unpins it there and clears its transform.
  - On the next descent the Disappearing header is pinned in view, at `-topGap`. It does not disappear again until it has been reshown, and meanwhile `o_top_fixed_element` is missing, because `_isShown` is false.
  - A FadeOut header stays invisible, because it stays faded.
- **The short-page guard measures from the scrolled point.** It compares the header's shrink with the scroll remaining past the scrolled point, not past the current offset.

## Model

| member | source | states |
|---|---|---|
| `HeaderKinds.IsShown` | addons/website/static/src/js/content/menu.js:398-400 | an unpinned header is always shown, and a Fixed header is always shown (base `_isShown` at 159-161, StandardAffixed at 299-301) |
| `TransitionTracker.Loop` | addons/website/static/src/js/content/menu.js:112-137 | the count is the old count plus `addCount`, floored at zero; above zero one more frame is scheduled and the timer is re-armed exactly when `addCount` is nonzero; at zero the timer is cleared and nothing is scheduled; the result always keeps the tracker invariant |
| `TransitionTracker.Step` | addons/website/static/src/js/content/menu.js:50-55 | the tracker effect of each handler: from a valid tracker a start adds one, an end takes one away floored at zero, a frame leaves the count; the fallback timeout (127-129) always lands on zero with no timer armed; only a real start or end arms the timer; the result keeps the tracker invariant |
| `TransitionTracker.RunKeepsValid` | addons/website/static/src/js/content/menu.js:112-137 | after any sequence of start, end, frame and timeout signals the count is non-negative and no timer outlives the transitions |
| `TransitionTracker.CountIsBalance` | addons/website/static/src/js/content/menu.js:115-116 | with no timeout, and with ends never outnumbering the outstanding transitions, the count is the starting count plus starts minus ends: the floor never bites |
| `Layout.FixedRight` | addons/website/static/src/js/content/menu.js:80-91 | the inline `right` is present exactly when the header is pinned, and then exceeds the stylesheet's `right` by the scrollbar width less the borders |
| `Layout.MainPadding` | addons/website/static/src/js/content/menu.js:175-183 | an overlay header leaves the padding untouched; any other header pads `main` by its height exactly while pinned and clears it otherwise |
| `Layout.ScrollHeightTooShort` | addons/website/static/src/js/content/menu.js:200-210 | the guard holds exactly when the header would shrink and, after shrinking, the page could no longer scroll past the scrolled point; it is false when the header would not shrink or its height is unmeasured |
| `Layout.ShortPageExample` | addons/website/static/src/js/content/menu.js:200-210 | a 100 px header shrinking by 60 px with 40 px of scroll left past the scrolled point is held back |
| `ScrollClassifier.ScrolledDecision` | addons/website/static/src/js/content/menu.js:236-244 | nothing changes exactly when the recorded value already says whether the offset is past the scrolled point; switching on is suppressed exactly when the short-page guard holds; switching off is never suppressed; a switch records the new side |
| `ScrollClassifier.Observe` | addons/website/static/src/js/content/menu.js:418-426 | the direction is down exactly when the offset grew; the check point moves to the offset exactly when the direction flips; position and `atTop` record the offset; visibility is untouched |
| `ScrollClassifier.VanishStep` | addons/website/static/src/js/content/menu.js:418-438 | one disappearing step: the check point moves to the offset exactly when the direction flips; the header hides exactly when scrolling down, shown, and more than the bound past the check point; it reshows exactly when scrolling up, hidden, and more than half the bound above it (real division, so odd bounds are exact); position and `atTop` record the offset |
| `ScrollClassifier.Visibility` | addons/website/static/src/js/content/menu.js:428-438 | after the direction update the header becomes hidden exactly when it is scrolling down, shown and past the bound, and becomes shown exactly when it is scrolling up, hidden and more than half the bound above the check point; otherwise it stays as it was |
| `ScrollClassifier.FlipNeverToggles` | addons/website/static/src/js/content/menu.js:420-438 | a scroll event that reverses the direction never hides or reshows the header |
| `ScrollClassifier.ReshowAtTopNeverFires` | addons/website/static/src/js/content/menu.js:440-444 | the forced reshow at the top can never run |
| `ScrollClassifier.JumpToTopStaysHidden` | addons/website/static/src/js/content/menu.js:415-445 | a hidden header that jumps to the top in one upward scroll keeps `hiddenHeader` set, with the check point at the top |
| `ScrollClassifier.SmallRiseKeepsHidden` | addons/website/static/src/js/content/menu.js:433-437 | a hidden header scrolling only upward stays hidden, and keeps its check point, over any number of events while it has climbed no more than half the bound |
| `ScrollClassifier.SmallDescentKeepsShown` | addons/website/static/src/js/content/menu.js:428-432 | a shown header scrolling only downward stays shown, and keeps its check point, over any number of events while it has gone no more than the bound |
| `AnimatedHeaders.AnimatedHeader.constructor` | addons/website/static/src/js/content/menu.js:21-58 | `init` then `start`: attached, every managed class absent, nothing recorded as scrolled, the tracker idle, the direction fields as the disappearing `init` sets them, only the standard header's height measured; the invariant holds |
| `AnimatedHeaders.AnimatedHeader.UpdateMainPaddingTop` | addons/website/static/src/js/content/menu.js:175-183 | height and top gap are measured and the padding of `main` becomes `MainPadding`; the invariant is kept |
| `AnimatedHeaders.AnimatedHeader.AdaptToHeaderChange` | addons/website/static/src/js/content/menu.js:96-107 | padding updated, `o_top_fixed_element` present exactly when the header is shown, one more round of callbacks; the invariant is kept |
| `AnimatedHeaders.AnimatedHeader.AdaptFixedHeaderPosition` | addons/website/static/src/js/content/menu.js:80-91 | the inline `right` becomes `FixedRight` of the fixed state; the invariant is kept |
| `AnimatedHeaders.AnimatedHeader.ToggleFixedHeader` | addons/website/static/src/js/content/menu.js:166-171 | the fixed field and `o_header_affixed` both become the argument; layout re-adapted; inset recomputed for the new state |
| `AnimatedHeaders.AnimatedHeader.AdaptToHeaderChangeLoop` | addons/website/static/src/js/content/menu.js:112-137 | the tracker moves as `Loop` says; the layout is re-adapted; `o_transitioning` is removed when the count reaches zero and untouched otherwise |
| `AnimatedHeaders.AnimatedHeader.OnTransitionStart` | addons/website/static/src/js/content/menu.js:51-54 | bound only while attached: the tracker takes a start step; `o_transitioning` is present exactly while transitions are outstanding; the invariant is kept |
| `AnimatedHeaders.AnimatedHeader.OnTransitionEnd` | addons/website/static/src/js/content/menu.js:55-55 | bound only while attached: the tracker takes an end step, floored at zero; the invariant is kept |
| `AnimatedHeaders.AnimatedHeader.AnimationFrame` | addons/website/static/src/js/content/menu.js:121-121 | a scheduled frame runs the loop with no count change; the invariant is kept |
| `AnimatedHeaders.AnimatedHeader.FallbackTimeout` | addons/website/static/src/js/content/menu.js:127-129 | the timer fires and the count drops to zero, the timer is disarmed and `o_transitioning` removed; the invariant is kept |
| `AnimatedHeaders.AnimatedHeader.AdjustUrlAutoScroll` | addons/website/static/src/js/content/menu.js:143-149 | the page is nudged up by the header's height, except in edit mode and for the disappearing headers, whose override does nothing (458, 485) |
| `AnimatedHeaders.AnimatedHeader.FirstScrollLatch` | addons/website/static/src/js/content/menu.js:223-233 | `hasScrolled` becomes and stays true; `o_header_no_transition` is added only on the first event and only below the top; every later event removes it and arms the closing of menus |
| `AnimatedHeaders.AnimatedHeader.SwitchScrolled` | addons/website/static/src/js/content/menu.js:235-244 | class, recorded value, guard field and tracker follow `ScrolledDecision`: they change together exactly when it switches, a switch starts one transition, a suppressed switch only records the guard; the invariant is kept |
| `AnimatedHeaders.AnimatedHeader.ToggleScrolled` | addons/website/static/src/js/content/menu.js:240-242 | `o_header_is_scrolled` and the recorded value both become the new side, and one transition starts |
| `AnimatedHeaders.AnimatedHeader.CloseOpenedMenus` | addons/website/static/src/js/content/menu.js:246-249 | once armed, every scroll event closes the open dropdowns and collapses |
| `AnimatedHeaders.AnimatedHeader.BaseUpdateOnScroll` | addons/website/static/src/js/content/menu.js:222-250 | keeps the invariant; after the first event transitions are re-enabled and menus closed; the recorded scrolled value only ever changes to the current side of the scrolled point |
| `AnimatedHeaders.AnimatedHeader.StandardUpdateOnScroll` | addons/website/static/src/js/content/menu.js:308-333 | pinned exactly past height plus top gap; shown exactly past the scrolled point plus top gap unless the page is too short; transform `-topGap`, `-100%` or none in that priority whenever either flag changed; `_isShown` is not pinned or shown; layout re-adapted exactly when a flag changed |
| `AnimatedHeaders.AnimatedHeader.FixedUpdateOnScroll` | addons/website/static/src/js/content/menu.js:346-361 | `o_header_affixed` present exactly past the scrolled point plus top gap; pinning sets the `-topGap` transform, already pinned changes nothing, below the point unpins and clears the transform |
| `AnimatedHeaders.AnimatedHeader.HideHeader` | addons/website/static/src/js/content/menu.js:392-394 | one transition start, then the Disappearing header slides fully up (462-465) and the FadeOut header fades out with its transform untouched (489-492) |
| `AnimatedHeaders.AnimatedHeader.ShowHeader` | addons/website/static/src/js/content/menu.js:404-406 | one transition start, then the transform is cleared at the top and `-topGap` elsewhere (469-472, 496-500); FadeOut fades back in, Disappearing leaves the fade alone |
| `AnimatedHeaders.AnimatedHeader.ObserveScroll` | addons/website/static/src/js/content/menu.js:418-426 | direction, position, `atTop` and check point move as `Observe` says |
| `AnimatedHeaders.AnimatedHeader.HideOrShow` | addons/website/static/src/js/content/menu.js:428-438 | hidden state follows `Visibility` with bound `scrollOffsetLimit + topGap`; a change is exactly one transition start and one layout adaptation, with the hide or show effect on transform and fade; no change touches nothing |
| `AnimatedHeaders.AnimatedHeader.DisappearingUpdateOnScroll` | addons/website/static/src/js/content/menu.js:415-445 | the direction and visibility fields move as `VanishStep` says; a hide or reshow is exactly one transition start and one layout adaptation, with the hide or show effect on transform and fade; otherwise tracker, layout, transform and fade are untouched; the branch at 440-444 is unreachable |
| `AnimatedHeaders.AnimatedHeader.VanishingPostStep` | addons/website/static/src/js/content/menu.js:415-416 | the Fixed post-step runs first: pinned exactly past the scrolled point plus top gap; the direction and visibility fields then move as `VanishStep` says with bound `scrollOffsetLimit + topGap`; the invariant is kept |
| `AnimatedHeaders.AnimatedHeader.PostStep` | addons/website/static/src/js/content/menu.js:308-309 | each variant's post-step keeps the invariant; the standard header is pinned past its height plus top gap, the others past the scrolled point plus top gap; for the disappearing headers the direction and visibility fields move as `VanishStep` says |
| `AnimatedHeaders.AnimatedHeader.UpdateHeaderOnScroll` | addons/website/static/src/js/content/menu.js:222-250 | base step then post-step: invariant kept, header still attached and latched, the recorded scrolled value only changes to the current side, a pinned non-standard header is past the scrolled point plus top gap; for the disappearing headers the direction and visibility fields move as `VanishStep` says, so the hysteresis lemmas apply to the scroll handler itself |
| `AnimatedHeaders.AnimatedHeader.UpdateHeaderOnResize` | addons/website/static/src/js/content/menu.js:256-257 | the inset is recomputed for the current fixed state; the invariant is kept |
| `AnimatedHeaders.AnimatedHeader.BaseDestroy` | addons/website/static/src/js/content/menu.js:62-68 | unpinned with the inset removed, the four managed classes removed, layout re-adapted, detached; the invariant is kept |
| `AnimatedHeaders.AnimatedHeader.StandardDestroy` | addons/website/static/src/js/content/menu.js:287-290 | the transform is cleared, then the base teardown |
| `AnimatedHeaders.AnimatedHeader.DisappearingDestroy` | addons/website/static/src/js/content/menu.js:380-383 | the header is reshown first (one transition start, reshow transform, fade in), then the base teardown: detached, unpinned, classes removed, padding as for an unpinned header, two rounds of callbacks |
| `AnimatedHeaders.AnimatedHeader.Destroy` | addons/website/static/src/js/content/menu.js:62-68 | each widget's teardown, touching only the layout, class, tracker, transform and fade fields: detached and unpinned, the managed classes removed, height and gap measured, padding as for an unpinned header, `o_top_fixed_element` as `_isShown` says, one round of callbacks (two for the disappearing headers); transform and tracker as each variant leaves them |

## Left out

- Device size classes, the `overflow-hidden` body class and its Bootstrap collapse listeners (menu.js:39-46, 258-262) depend on the environment's breakpoints and are not part of this model.
- `hoverableDropdown` and `HeaderMainCollapse` (menu.js:503-597) are framework event glue around a foreign `Dropdown` object and are not part of this model.
- The event-track suggestion widget (`website_event_track_suggestion.js`) is not part of this model: it only clears an interval and removes a node.
- DOM measurement (`outerHeight`, `offsetHeight` of a cloned header, `getComputedStyle` and `parseInt` of pixel strings) is replaced by the integer `Geometry` inputs; sub-pixel values are not modelled.
- The forced reflow reads (`void offsetWidth`) have no effect on the recorded state and are dropped.
- jQuery `fadeIn`, `fadeOut` and `stop` are recorded only as the `fadedOut` flag; animation timing is not modelled.
- `requestAnimationFrame` and `setTimeout` are explicit `AnimationFrame` and `FallbackTimeout` calls; real timing, and which one the browser delivers first, is left to the caller.
- The `extraMenuUpdateCallbacks` are foreign code; each round of calls is one `notifications` increment, and the registry itself is not modelled.
- The wysiwyg observer toggling (menu.js:97, 106) does not touch header state and is dropped.
- Unbinding of event handlers in `destroy` is modelled only as the `attached` flag: the transition, scroll and resize handlers require it, while an already scheduled animation frame or fallback timeout may still run after teardown.
- Each handler call takes one `Geometry`, so every measurement read during one event returns the same value; in the page, `outerHeight` read again after a class toggle in the same event (menu.js:168, 176, 241) could differ.
- No other code reopens a dropdown or collapse between scroll events; `menusShown` changes only when the model closes the menus.
- The constructor assumes the header element starts clean: no managed class and no inline transform. A widget started again on an element that an earlier `destroy` left with `o_top_fixed_element` or a transform is not modelled.
- `_computeTopGap` returns 0 in this file; the model takes the top gap as a non-negative constructor parameter so that subclasses returning other gaps are covered.
- AnimatedHeaders.AnimatedHeader.ToggleScrolled records the scrolled value before the transition start, where the code records it after; no transition-start handler reads that value.
- AnimatedHeaders.AnimatedHeader.BaseUpdateOnScroll states the invariant and the latch and scrolled facts; the full new state is stated by the members it composes (`FirstScrollLatch`, `SwitchScrolled`, `CloseOpenedMenus`).
- AnimatedHeaders.AnimatedHeader.PostStep states the invariant, the fixed state and the `VanishStep` relation; the rest of each variant's new state is stated by `StandardUpdateOnScroll`, `FixedUpdateOnScroll` and `DisappearingUpdateOnScroll`.
- AnimatedHeaders.AnimatedHeader.VanishingPostStep states the invariant, the fixed state and the `VanishStep` relation; the rest is stated by `FixedUpdateOnScroll` and `DisappearingUpdateOnScroll`.
- AnimatedHeaders.AnimatedHeader.UpdateHeaderOnScroll states the invariant, the cross-step facts and the `VanishStep` relation, not the whole new state, which its parts state.
