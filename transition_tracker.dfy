/**
 * The transition tracker: `_transitionCount` with its floor at zero, the
 * animation-frame loop that keeps re-adapting the layout while transitions are
 * outstanding, and the 500 ms fallback timeout for lost `transitionend` events.
 * Scheduling is made explicit: a frame callback or the timeout runs only when
 * the environment delivers it as a `Frame` or `Timeout` signal.
 */
module TransitionTracker {

  datatype Tracker = Tracker(
    count: int,          // `_transitionCount`
    framesPending: nat,  // `requestAnimationFrame` callbacks scheduled and not yet run
    timerArmed: bool,    // `_changeLoopTimer` is pending
    timerArms: nat)      // how many times `setTimeout` armed it

  /** The tracker as `start` leaves it. */
  const Idle: Tracker := Tracker(0, 0, false, 0)

  /** The tracker invariant: the count is never negative, and a pending timer means a transition is outstanding. */
  predicate Valid(t: Tracker) {
    t.count >= 0 && (t.timerArmed ==> t.count > 0)
  }

  /**
   * The tracker part of `_adaptToHeaderChangeLoop(addCount)`: add to the count
   * and floor it at zero; while it stays above zero schedule another frame and,
   * for a real start or end, re-arm the timer; at zero clear the timer.
   */
  function Loop(t: Tracker, addCount: int): (r: Tracker)
    ensures r.count >= 0 && (r.count == 0 <==> t.count + addCount <= 0)
    ensures r.count > 0 ==> r.count == t.count + addCount
    ensures r.count > 0 ==> r.framesPending == t.framesPending + 1
    ensures r.count > 0 ==> (r.timerArmed <==> t.timerArmed || addCount != 0)
    ensures r.count > 0 ==> r.timerArms == t.timerArms + (if addCount != 0 then 1 else 0)
    ensures r.count == 0 ==> !r.timerArmed && r.framesPending == t.framesPending && r.timerArms == t.timerArms
    ensures Valid(r)
  {
    var sum := t.count + addCount;
    var n := if 0 > sum then 0 else sum;  // Math.max(0, sum)
    if n > 0 then
      Tracker(n, t.framesPending + 1, t.timerArmed || addCount != 0,
              if addCount != 0 then t.timerArms + 1 else t.timerArms)
    else
      Tracker(0, t.framesPending, false, t.timerArms)
  }

  /** What reaches the tracker: the custom transition start, `transitionend`, a frame callback, the fallback timeout. */
  datatype Signal = Start | End | Frame | Timeout

  /** A frame callback runs only if one was scheduled, the timeout only while it is armed. */
  predicate Enabled(t: Tracker, e: Signal) {
    match e
    case Frame => t.framesPending > 0
    case Timeout => t.timerArmed
    case _ => true
  }

  /**
   * The tracker's reaction to one delivered signal: from a valid tracker a
   * start adds one, an end takes one away but never below zero, a frame leaves
   * the count alone; the timeout always settles at zero with no timer; only a
   * real start or end arms the timer; the result always keeps the invariant.
   */
  function Step(t: Tracker, e: Signal): (r: Tracker)
    requires Enabled(t, e)
    ensures Valid(r)
    ensures Valid(t) && e.Start? ==> r.count == t.count + 1
    ensures Valid(t) && e.End? ==> r.count == (if t.count > 0 then t.count - 1 else 0)
    ensures Valid(t) && e.Frame? ==> r.count == t.count
    ensures e.Timeout? ==> r.count == 0 && !r.timerArmed
    ensures r.timerArmed ==> t.timerArmed || e.Start? || e.End?
  {
    match e
    case Start => Loop(t, 1)
    case End => Loop(t, -1)
    case Frame => Loop(t.(framesPending := t.framesPending - 1), 0)
    case Timeout => Loop(t.(timerArmed := false), -t.count)  // the timer fired, then runs the loop
  }

  /** The tracker after a sequence of signals; a signal that cannot be delivered is dropped. */
  function Run(t: Tracker, es: seq<Signal>): Tracker
    decreases |es|
  {
    if es == [] then t
    else Run(if Enabled(t, es[0]) then Step(t, es[0]) else t, es[1..])
  }

  /** The count is never negative, and the timer never outlives the transitions, after any sequence of signals. */
  lemma {:induction false} RunKeepsValid(t: Tracker, es: seq<Signal>)
    requires Valid(t)
    ensures Valid(Run(t, es))
    decreases |es|
  {
    if es != [] {
      var t1 := if Enabled(t, es[0]) then Step(t, es[0]) else t;
      RunKeepsValid(t1, es[1..]);
    }
  }

  /** Number of `Start` signals minus number of `End` signals. */
  function Balance(es: seq<Signal>): int
    decreases |es|
  {
    if es == [] then 0
    else (match es[0] case Start => 1 case End => -1 case _ => 0) + Balance(es[1..])
  }

  /** No prefix of `es` delivers more ends than `c` plus its starts. */
  predicate NeverUnderflows(c: int, es: seq<Signal>) {
    forall k :: 0 <= k <= |es| ==> c + Balance(es[..k]) >= 0
  }

  lemma {:induction false} BalanceCons(e: Signal, es: seq<Signal>)
    ensures Balance([e] + es) == (match e case Start => 1 case End => -1 case _ => 0) + Balance(es)
  {
    assert ([e] + es)[1..] == es;
  }

  /**
   * Without the fallback timeout, and as long as ends never outnumber the
   * outstanding transitions, the floor never bites: the count is exactly the
   * starting count plus starts minus ends.
   */
  lemma {:induction false} CountIsBalance(t: Tracker, es: seq<Signal>)
    requires Valid(t)
    requires Timeout !in es
    requires NeverUnderflows(t.count, es)
    ensures Run(t, es).count == t.count + Balance(es)
    decreases |es|
  {
    if es != [] {
      var e := es[0];
      var t1 := if Enabled(t, e) then Step(t, e) else t;
      var d := match e case Start => 1 case End => -1 case _ => 0;
      assert es == [e] + es[1..];
      BalanceCons(e, es[1..]);
      assert t.count + d >= 0 by {
        assert Balance([e]) == d by {
          BalanceCons(e, []);
          assert [e] + [] == [e];
        }
        assert es[..1] == [e];
        assert t.count + Balance(es[..1]) >= 0;
      }
      assert t1.count == t.count + d;
      forall k | 0 <= k <= |es[1..]|
        ensures t1.count + Balance(es[1..][..k]) >= 0
      {
        assert es[..k + 1] == [e] + es[1..][..k];
        BalanceCons(e, es[1..][..k]);
        assert t.count + Balance(es[..k + 1]) >= 0;
      }
      CountIsBalance(t1, es[1..]);
    }
  }
}
