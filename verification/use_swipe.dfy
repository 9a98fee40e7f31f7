/**
 * The `useSwipe` hook (react-fluid-tabs/src/hooks/useSwipe.ts): an earlier form of
 * the gesture interpreter that fires `onSwipeLeft` / `onSwipeRight` instead of
 * changing tabs. Its refs are the fields of `Listeners`; each listener is one
 * atomic transition, given by the pure functions `TouchStart`, `TouchMove` and
 * `TouchEnd`.
 *
 * It differs from `TabsContent` in three ways: the direction is latched once per
 * gesture (`gestureDetected`), the ratio test is strict (`deltaX > 0.6 * deltaY`),
 * and a coordinate of 0 reads as "no coordinate" where the code tests truthiness.
 */
module UseSwipe {
  import opened Wrappers
  import TabsContent

  /** The hook's options; `hasSwipeLeft` / `hasSwipeRight` say whether the callbacks were given. */
  datatype SwipeOptions = SwipeOptions(hasSwipeLeft: bool, hasSwipeRight: bool, threshold: int)

  /** The default options: no callbacks, threshold 50. */
  function DefaultOptions(): (r: SwipeOptions)
    ensures r.threshold == 50 && !r.hasSwipeLeft && !r.hasSwipeRight
  {
    SwipeOptions(false, false, 50)
  }

  /** The six refs. */
  datatype SwipeState = SwipeState(
    touchStart: Option<int>,
    touchEnd: Option<int>,
    touchStartY: Option<int>,
    isHorizontalSwipe: bool,
    isVerticalScroll: bool,
    gestureDetected: bool)

  /** The refs as `useRef` creates them. */
  function Fresh(): SwipeState
  {
    SwipeState(None, None, None, false, false, false)
  }

  /** A callback the hook calls. */
  datatype Swipe = SwipedLeft | SwipedRight

  /** A number JavaScript treats as true: present and not 0. */
  predicate Truthy(v: Option<int>)
  {
    v.Some? && v.value != 0
  }

  /** The detection rule `deltaX > deltaY * 0.6`, over exact rationals. */
  predicate StrictlyHorizontal(deltaX: nat, deltaY: nat)
  {
    5 * deltaX > 3 * deltaY
  }

  /**
   * The invariant the listeners keep: at most one direction flag, the latch is up
   * exactly when one is, and a vertical scroll has no end point.
   */
  predicate Consistent(st: SwipeState)
  {
    && !(st.isHorizontalSwipe && st.isVerticalScroll)
    && (st.gestureDetected <==> st.isHorizontalSwipe || st.isVerticalScroll)
    && (st.isVerticalScroll ==> st.touchEnd.None?)
  }

  /** `onTouchStart`. */
  function TouchStart(st: SwipeState, x: int, y: int): (r: SwipeState)
    ensures Consistent(r) && Tracking(r) == (x != 0)
    ensures r.touchStart == Some(x) && r.touchStartY == Some(y) && r.touchEnd == None && !r.gestureDetected
  {
    SwipeState(Some(x), None, Some(y), false, false, false)
  }

  /** True when `onTouchMove` proceeds past its guard. */
  predicate Tracking(st: SwipeState)
  {
    Truthy(st.touchStart) && st.touchStartY.Some?
  }

  /** `onTouchMove`: the new refs. */
  function TouchMove(st: SwipeState, x: int, y: int): (r: SwipeState)
    ensures Consistent(st) ==> Consistent(r)
    ensures !Tracking(st) ==> r == st
    ensures r.touchStart == st.touchStart && r.touchStartY == st.touchStartY
    ensures st.gestureDetected ==>
              r.gestureDetected && r.isHorizontalSwipe == st.isHorizontalSwipe && r.isVerticalScroll == st.isVerticalScroll
    ensures Tracking(st) && !st.gestureDetected &&
            TabsContent.PastNoise(TabsContent.Abs(x - st.touchStart.value), TabsContent.Abs(y - st.touchStartY.value)) ==>
              r.gestureDetected &&
              (r.isHorizontalSwipe <==> StrictlyHorizontal(TabsContent.Abs(x - st.touchStart.value), TabsContent.Abs(y - st.touchStartY.value)))
    ensures Tracking(st) ==> r.touchEnd == if r.isVerticalScroll then None else Some(x)
  {
    if !Tracking(st) then st
    else
      var deltaX := TabsContent.Abs(x - st.touchStart.value);
      var deltaY := TabsContent.Abs(y - st.touchStartY.value);
      var detect := !st.gestureDetected && (deltaX > 5 || deltaY > 5);
      var horizontal := if detect then StrictlyHorizontal(deltaX, deltaY) else st.isHorizontalSwipe;
      var vertical := if detect then !StrictlyHorizontal(deltaX, deltaY) else st.isVerticalScroll;
      st.(touchEnd := if vertical then None else Some(x),
          isHorizontalSwipe := horizontal,
          isVerticalScroll := vertical,
          gestureDetected := st.gestureDetected || detect)
  }

  /** `onTouchMove`: whether it calls `preventDefault`. */
  predicate MovePrevents(st: SwipeState, x: int, y: int)
    ensures Consistent(st) && MovePrevents(st, x, y) ==>
              !TouchMove(st, x, y).isVerticalScroll && TouchMove(st, x, y).touchEnd == Some(x)
  {
    Tracking(st) && TouchMove(st, x, y).isHorizontalSwipe
  }

  /** `onTouchEnd`: the callbacks it fires, in order. */
  function Fired(o: SwipeOptions, st: SwipeState): (r: seq<Swipe>)
    ensures |r| <= 2 && (o.threshold >= 0 ==> |r| <= 1)
    ensures st.isVerticalScroll || !Truthy(st.touchStart) || !Truthy(st.touchEnd) ==> r == []
    ensures SwipedLeft in r ==> o.hasSwipeLeft && Truthy(st.touchStart) && Truthy(st.touchEnd) &&
                                  st.touchStart.value - st.touchEnd.value > o.threshold
    ensures SwipedRight in r ==> o.hasSwipeRight && Truthy(st.touchStart) && Truthy(st.touchEnd) &&
                                   st.touchStart.value - st.touchEnd.value < -o.threshold
  {
    if !Truthy(st.touchStart) || !Truthy(st.touchEnd) || st.isVerticalScroll then []
    else
      var distance := st.touchStart.value - st.touchEnd.value;
      var isLeftSwipe := distance > o.threshold;
      var isRightSwipe := distance < -o.threshold;
      (if isLeftSwipe && o.hasSwipeLeft then [SwipedLeft] else []) +
      (if isRightSwipe && o.hasSwipeRight then [SwipedRight] else [])
  }

  /** `onTouchEnd`: the new refs (both paths reset the three flags, nothing else). */
  function TouchEnd(st: SwipeState): (r: SwipeState)
    ensures Consistent(st) ==> Consistent(r)
    ensures !r.isHorizontalSwipe && !r.isVerticalScroll && !r.gestureDetected
    ensures r.touchStart == st.touchStart && r.touchEnd == st.touchEnd && r.touchStartY == st.touchStartY
  {
    st.(isHorizontalSwipe := false, isVerticalScroll := false, gestureDetected := false)
  }

  datatype SwipeEvent = Down(x: int, y: int) | Slide(x: int, y: int) | Up

  function Step(st: SwipeState, e: SwipeEvent): SwipeState
  {
    match e
    case Down(x, y) => TouchStart(st, x, y)
    case Slide(x, y) => TouchMove(st, x, y)
    case Up => TouchEnd(st)
  }

  function Run(st: SwipeState, events: seq<SwipeEvent>): SwipeState
    decreases |events|
  {
    if |events| == 0 then st else Run(Step(st, events[0]), events[1..])
  }

  // ---------------------------------------------------------------------------
  // Properties
  // ---------------------------------------------------------------------------

  /** A touchstart records the point, forgets the end point and clears the three flags. */
  lemma StartResets(st: SwipeState, x: int, y: int)
    ensures var n := TouchStart(st, x, y);
            n.touchStart == Some(x) && n.touchStartY == Some(y) && n.touchEnd == None &&
            !n.isHorizontalSwipe && !n.isVerticalScroll && !n.gestureDetected && Consistent(n)
  {
  }

  /** Every listener keeps `Consistent`: the two direction flags never both hold. */
  lemma StepKeepsConsistent(st: SwipeState, e: SwipeEvent)
    requires Consistent(st)
    ensures Consistent(Step(st, e))
  {
  }

  lemma {:induction false} RunKeepsConsistent(st: SwipeState, events: seq<SwipeEvent>)
    requires Consistent(st)
    ensures Consistent(Run(st, events))
    decreases |events|
  {
    if |events| > 0 {
      StepKeepsConsistent(st, events[0]);
      RunKeepsConsistent(Step(st, events[0]), events[1..]);
    }
  }

  /**
   * The first move past 5 px on either axis latches the direction: horizontal
   * exactly when 5 * deltaX > 3 * deltaY, vertical otherwise.
   */
  lemma FirstSignificantMoveDetects(st: SwipeState, x: int, y: int)
    requires Tracking(st) && !st.gestureDetected
    requires TabsContent.PastNoise(TabsContent.Abs(x - st.touchStart.value), TabsContent.Abs(y - st.touchStartY.value))
    ensures var n := TouchMove(st, x, y);
            var h := StrictlyHorizontal(TabsContent.Abs(x - st.touchStart.value), TabsContent.Abs(y - st.touchStartY.value));
            n.gestureDetected && (n.isHorizontalSwipe <==> h) && (n.isVerticalScroll <==> !h)
  {
  }

  /** Before detection, a move within 5 px on both axes only records the end point. */
  lemma NoiseMoveOnlyTracks(st: SwipeState, x: int, y: int)
    requires Tracking(st) && !st.gestureDetected
    requires !TabsContent.PastNoise(TabsContent.Abs(x - st.touchStart.value), TabsContent.Abs(y - st.touchStartY.value))
    ensures TouchMove(st, x, y) == st.(touchEnd := if st.isVerticalScroll then None else Some(x))
  {
  }

  /** Once latched, a move never changes the detected direction. */
  lemma LatchHolds(st: SwipeState, x: int, y: int)
    requires st.gestureDetected
    ensures var n := TouchMove(st, x, y);
            n.gestureDetected && n.isHorizontalSwipe == st.isHorizontalSwipe &&
            n.isVerticalScroll == st.isVerticalScroll
  {
  }

  /** Once vertical, every move clears the end point, so the touchend fires nothing. */
  lemma VerticalSilencesEnd(o: SwipeOptions, st: SwipeState, x: int, y: int)
    requires Consistent(st) && st.isVerticalScroll
    ensures TouchMove(st, x, y).touchEnd == None
    ensures Fired(o, st) == [] && Fired(o, TouchMove(st, x, y)) == []
  {
  }

  /** Only moves between a press and a release. */
  predicate OnlySlides(events: seq<SwipeEvent>)
  {
    forall i :: 0 <= i < |events| ==> events[i].Slide?
  }

  /** A gesture detected as vertical stays vertical through any moves, and its release fires nothing. */
  lemma {:induction false} VerticalGestureFiresNothing(o: SwipeOptions, st: SwipeState, events: seq<SwipeEvent>)
    requires Consistent(st) && st.isVerticalScroll && OnlySlides(events)
    ensures Run(st, events).isVerticalScroll && Fired(o, Run(st, events)) == []
    decreases |events|
  {
    if |events| > 0 {
      var n := Step(st, events[0]);
      assert OnlySlides(events[1..]) by {
        forall i | 0 <= i < |events[1..]| ensures events[1..][i].Slide? {
          assert events[1..][i] == events[i + 1];
        }
      }
      VerticalGestureFiresNothing(o, n, events[1..]);
    }
  }

  /**
   * The touchend fires `onSwipeLeft` exactly when the start and end are recorded
   * (and non-zero), the gesture is not vertical, the finger travelled left by more
   * than the threshold, and the callback exists; symmetrically for `onSwipeRight`.
   */
  lemma EndFiringRule(o: SwipeOptions, st: SwipeState)
    ensures var armed := Truthy(st.touchStart) && Truthy(st.touchEnd) && !st.isVerticalScroll;
            && (SwipedLeft in Fired(o, st) <==>
                  armed && st.touchStart.value - st.touchEnd.value > o.threshold && o.hasSwipeLeft)
            && (SwipedRight in Fired(o, st) <==>
                  armed && st.touchStart.value - st.touchEnd.value < -o.threshold && o.hasSwipeRight)
  {
  }

  /** With a non-negative threshold at most one callback fires. */
  lemma AtMostOneFires(o: SwipeOptions, st: SwipeState)
    requires o.threshold >= 0
    ensures |Fired(o, st)| <= 1
  {
  }

  /** With a negative threshold a short swipe fires both callbacks. */
  lemma NegativeThresholdFiresBoth()
    ensures Fired(SwipeOptions(true, true, -10), SwipeState(Some(100), Some(100), Some(0), true, false, true))
            == [SwipedLeft, SwipedRight]
  {
  }

  /** With the default options (no callbacks given) a touchend fires nothing. */
  lemma DefaultOptionsFireNothing(st: SwipeState)
    ensures DefaultOptions().threshold == 50
    ensures Fired(DefaultOptions(), st) == []
  {
  }

  /** A touchend on either path clears the three flags and keeps the recorded points. */
  lemma EndResetsFlags(st: SwipeState)
    ensures var n := TouchEnd(st);
            !n.isHorizontalSwipe && !n.isVerticalScroll && !n.gestureDetected &&
            n.touchStart == st.touchStart && n.touchEnd == st.touchEnd && n.touchStartY == st.touchStartY
  {
  }

  /** A start or end x-coordinate of exactly 0 counts as absent: moves are ignored and nothing fires. */
  lemma ZeroIsAbsent(o: SwipeOptions, st: SwipeState, x: int, y: int)
    ensures st.touchStart == Some(0) ==> TouchMove(st, x, y) == st && !MovePrevents(st, x, y) && Fired(o, st) == []
    ensures st.touchEnd == Some(0) ==> Fired(o, st) == []
    ensures st.touchStartY.None? ==> TouchMove(st, x, y) == st
  {
  }

  /**
   * The two direction rules compared: past the noise band they disagree exactly on
   * the boundary 5 * dx == 3 * dy, where `TabsContent` locks horizontal and
   * `useSwipe` detects vertical; for example dx = 6, dy = 10.
   */
  lemma RulesDifferOnBoundary(dx: nat, dy: nat)
    ensures TabsContent.FavoursHorizontal(dx, dy) != StrictlyHorizontal(dx, dy) <==> 5 * dx == 3 * dy
    ensures 5 * dx == 3 * dy ==> TabsContent.FavoursHorizontal(dx, dy) && !StrictlyHorizontal(dx, dy)
  {
  }

  /** The boundary case on the two machines: a 6 px / 10 px move from (100, 100). */
  lemma BoundaryMoveOnBothMachines()
    ensures TabsContent.Move(TabsContent.Settings(["a", "b"], 50, true),
                             TabsContent.State(Some(100), Some(100), Some(100), false, TabsContent.Unlocked, "a"),
                             106, 110).directionLock == TabsContent.Horizontal
    ensures TouchMove(TouchStart(Fresh(), 100, 100), 106, 110).isVerticalScroll
  {
  }

  // ---------------------------------------------------------------------------
  // The refs
  // ---------------------------------------------------------------------------

  class Listeners {
    const options: SwipeOptions
    var touchStart: Option<int>
    var touchEnd: Option<int>
    var touchStartY: Option<int>
    var isHorizontalSwipe: bool
    var isVerticalScroll: bool
    var gestureDetected: bool

    function Refs(): SwipeState
      reads this
    {
      SwipeState(touchStart, touchEnd, touchStartY, isHorizontalSwipe, isVerticalScroll, gestureDetected)
    }

    ghost predicate Valid()
      reads this
    {
      Consistent(Refs())
    }

    constructor (options: SwipeOptions)
      ensures Valid() && this.options == options && Refs() == Fresh()
    {
      this.options := options;
      touchStart, touchEnd, touchStartY := None, None, None;
      isHorizontalSwipe, isVerticalScroll, gestureDetected := false, false, false;
    }

    method OnTouchStart(x: int, y: int)
      requires Valid()
      modifies this
      ensures Valid()
      ensures Refs() == TouchStart(old(Refs()), x, y)
    {
      touchEnd := None;
      touchStart := Some(x);
      touchStartY := Some(y);
      isHorizontalSwipe := false;
      isVerticalScroll := false;
      gestureDetected := false;
    }

    /** Returns whether `preventDefault` ran. */
    method OnTouchMove(x: int, y: int) returns (prevented: bool)
      requires Valid()
      modifies this
      ensures Valid()
      ensures Refs() == TouchMove(old(Refs()), x, y)
      ensures prevented == MovePrevents(old(Refs()), x, y)
    {
      prevented := false;
      if !Truthy(touchStart) || touchStartY.None? {
        return;
      }
      touchEnd := Some(x);
      var deltaX := TabsContent.Abs(x - touchStart.value);
      var deltaY := TabsContent.Abs(y - touchStartY.value);
      if !gestureDetected && (deltaX > 5 || deltaY > 5) {
        gestureDetected := true;
        if 5 * deltaX > 3 * deltaY {
          isHorizontalSwipe := true;
          isVerticalScroll := false;
        } else {
          isVerticalScroll := true;
          isHorizontalSwipe := false;
        }
      }
      if isHorizontalSwipe {
        prevented := true;
      }
      if isVerticalScroll {
        touchEnd := None;
      }
    }

    /** Returns the callbacks fired, in order. */
    method OnTouchEnd() returns (fired: seq<Swipe>)
      requires Valid()
      modifies this
      ensures Valid()
      ensures Refs() == TouchEnd(old(Refs()))
      ensures fired == Fired(options, old(Refs()))
    {
      fired := [];
      if !Truthy(touchStart) || !Truthy(touchEnd) || isVerticalScroll {
        isHorizontalSwipe := false;
        isVerticalScroll := false;
        gestureDetected := false;
        return;
      }
      var distance := touchStart.value - touchEnd.value;
      var isLeftSwipe := distance > options.threshold;
      var isRightSwipe := distance < -options.threshold;
      if isLeftSwipe && options.hasSwipeLeft {
        fired := fired + [SwipedLeft];
      }
      if isRightSwipe && options.hasSwipeRight {
        fired := fired + [SwipedRight];
      }
      isHorizontalSwipe := false;
      isVerticalScroll := false;
      gestureDetected := false;
    }
  }

  /** A client: a 60 px swipe to the left fires `onSwipeLeft`; a vertical scroll fires nothing. */
  method SwipeThenScroll() returns (swipe: seq<Swipe>, scroll: seq<Swipe>)
    ensures swipe == [SwipedLeft] && scroll == []
  {
    var l := new Listeners(SwipeOptions(true, true, 50));
    l.OnTouchStart(200, 100);
    var prevented := l.OnTouchMove(190, 102);
    prevented := l.OnTouchMove(140, 104);
    swipe := l.OnTouchEnd();
    l.OnTouchStart(200, 100);
    prevented := l.OnTouchMove(198, 120);
    prevented := l.OnTouchMove(100, 400);
    scroll := l.OnTouchEnd();
  }
}
