/**
 * The gesture interpreter of `TabsContent`
 * (react-fluid-tabs/src/components/TabsContent.tsx).
 *
 * A press records the start point; moves lock the gesture to one axis once it has
 * travelled more than 5 px; a release commits to the neighbouring tab or snaps
 * back. Each handler is one atomic transition: the pure functions `Start`, `Move`,
 * `End`, `MouseMove` and `MouseLeave` give the state after it, and the methods of
 * `Handlers` perform it on the component's state fields.
 */
module TabsContent {
  import opened Wrappers
  import Tabs

  /** `directionLock`: null | 'horizontal' | 'vertical'. */
  datatype Lock = Unlocked | Horizontal | Vertical

  /** What the component reads from the provider's context and keeps fixed here. */
  datatype Settings = Settings(tabsOrder: seq<string>, threshold: int, gesturesEnabled: bool)

  /** The settings as the provider passes them down from its props and its order of known tabs. */
  function SettingsOf(cfg: Tabs.Config, order: seq<string>): Settings
  {
    Settings(order, cfg.threshold, cfg.gesturesEnabled)
  }

  /**
   * The component's gesture state (`touchStart`, `touchCurrent`, `isDragging`,
   * `directionLock`, the `touchStartY` ref) and the provider's active tab.
   * Coordinates are whole pixels.
   */
  datatype State = State(
    touchStart: Option<int>,
    touchCurrent: Option<int>,
    touchStartY: Option<int>,
    isDragging: bool,
    directionLock: Lock,
    activeTab: string)

  /** The state before any press. */
  function Idle(activeTab: string): State
  {
    State(None, None, None, false, Unlocked, activeTab)
  }

  /** What a release does beside clearing the gesture. */
  datatype Notice =
    | Ignored          // nothing handled: gestures disabled, or the mouse left without a drag
    | Released         // not a drag: nothing is notified
    | SnapBack         // `notifySwipe(0, true)`: the drag is cancelled
    | Changed(tab: string)  // `setActiveTab(tab)`

  /** The noise threshold of a move, in pixels. */
  const MoveThreshold := 5

  function Abs(n: int): nat
  {
    if n < 0 then -n else n
  }

  /** The lock rule `diffX >= diffY * 0.6`, over exact rationals. */
  predicate FavoursHorizontal(diffX: nat, diffY: nat)
  {
    5 * diffX >= 3 * diffY
  }

  /** A move has left the noise band when either axis travelled more than 5 px. */
  predicate PastNoise(diffX: nat, diffY: nat)
  {
    diffX > MoveThreshold || diffY > MoveThreshold
  }

  /**
   * The invariant the handlers keep: the drag flag is the horizontal lock, the
   * three coordinates are recorded together, and a lock implies a recorded press.
   */
  predicate Consistent(g: State)
  {
    && (g.isDragging <==> g.directionLock == Horizontal)
    && (g.touchStart.Some? <==> g.touchCurrent.Some?)
    && (g.touchStart.Some? <==> g.touchStartY.Some?)
    && (g.directionLock != Unlocked ==> g.touchStart.Some?)
  }

  // ---------------------------------------------------------------------------
  // The release decision
  // ---------------------------------------------------------------------------

  /**
   * The tab a release commits to. `diffX` is `touchStart - touchCurrent`
   * (positive for a drag to the left). Only a drag longer than `threshold` commits,
   * and only to the neighbour in the drag's direction: the next tab for a drag to
   * the left, the previous tab for a drag to the right; there is no wraparound.
   * An active tab outside the order never commits (see `ReleaseTargetAsWritten`).
   */
  function ReleaseTarget(order: seq<string>, active: string, diffX: int, threshold: int): (r: Option<string>)
    ensures r.Some? ==> active in order && r.value in order && Abs(diffX) > threshold
    ensures r.Some? && diffX > 0 ==> Tabs.IndexOf(order, active) + 1 < |order| &&
                                     r.value == order[Tabs.IndexOf(order, active) + 1]
    ensures r.Some? && diffX < 0 ==> Tabs.IndexOf(order, active) > 0 &&
                                     r.value == order[Tabs.IndexOf(order, active) - 1]
    ensures r.Some? ==> diffX != 0
  {
    var i := Tabs.IndexOf(order, active);
    if Abs(diffX) <= threshold || i < 0 then None
    else if diffX > 0 then (if i < |order| - 1 then Some(order[i + 1]) else None)
    else if diffX < 0 then (if i > 0 then Some(order[i - 1]) else None)
    else None
  }

  /** A JavaScript array read: `order[k]`, `undefined` outside the array. */
  datatype JsValue = Str(s: string) | Undefined

  function At(order: seq<string>, k: int): JsValue
  {
    if 0 <= k < |order| then Str(order[k]) else Undefined
  }

  /**
   * The release decision exactly as `handleEnd` writes it, with
   * `currentIndex = tabsOrder.indexOf(activeTab)` used unchecked.
   */
  function ReleaseTargetAsWritten(order: seq<string>, active: string, diffX: int, threshold: int): (r: Option<JsValue>)
    ensures r.Some? ==> Abs(diffX) > threshold && diffX != 0
    ensures r == Some(Undefined) ==> active !in order && diffX < 0
    ensures r.Some? && active !in order && diffX > 0 ==> |order| > 0 && r == Some(Str(order[0]))
  {
    var currentIndex := Tabs.IndexOf(order, active);
    var isFirst := currentIndex == 0;
    var isLast := currentIndex == |order| - 1;
    if Abs(diffX) > threshold then
      if diffX > 0 then (if !isLast then Some(At(order, currentIndex + 1)) else None)
      else if diffX < 0 then (if !isFirst then Some(At(order, currentIndex - 1)) else None)
      else None
    else None
  }

  /** For an active tab in the order the as-written decision is `ReleaseTarget`. */
  lemma AsWrittenAgreesOnKnownTab(order: seq<string>, active: string, diffX: int, threshold: int)
    requires active in order
    ensures ReleaseTargetAsWritten(order, active, diffX, threshold) ==
            match ReleaseTarget(order, active, diffX, threshold)
            case Some(t) => Some(Str(t))
            case None => None
  {
  }

  /**
   * The discrepancy: with the active tab missing from the order (a hash tab that
   * is not a known tab stays active), a long drag to the right calls
   * `setActiveTab(tabsOrder[-2])`, that is `setActiveTab(undefined)`, and a long
   * drag to the left jumps to the first tab.
   */
  lemma AsWrittenSelectsUndefined()
    ensures ReleaseTargetAsWritten(["a", "b"], "unknown", -100, 50) == Some(Undefined)
    ensures ReleaseTargetAsWritten(["a", "b"], "unknown", 100, 50) == Some(Str("a"))
    ensures ReleaseTarget(["a", "b"], "unknown", -100, 50) == None
    ensures ReleaseTarget(["a", "b"], "unknown", 100, 50) == None
  {
    assert Tabs.IndexOf(["a", "b"], "unknown") == -1;
  }

  // ---------------------------------------------------------------------------
  // The handlers as transitions
  // ---------------------------------------------------------------------------

  /** `handleStart(x, y)`. */
  function Start(s: Settings, g: State, x: int, y: int): (r: State)
    ensures !s.gesturesEnabled ==> r == g
    ensures s.gesturesEnabled ==>
              Consistent(r) && r.touchStart == Some(x) && r.touchCurrent == Some(x) &&
              r.touchStartY == Some(y) && r.directionLock == Unlocked && !r.isDragging
    ensures r.activeTab == g.activeTab
  {
    if !s.gesturesEnabled then g
    else g.(touchStart := Some(x), touchCurrent := Some(x), touchStartY := Some(y),
            directionLock := Unlocked, isDragging := false)
  }

  /** `handleMove(x, y)`: the new state. */
  function Move(s: Settings, g: State, x: int, y: int): (r: State)
    ensures Consistent(g) ==> Consistent(r)
    ensures r.activeTab == g.activeTab && r.touchStart == g.touchStart && r.touchStartY == g.touchStartY
    ensures g.directionLock != Unlocked ==> r.directionLock == g.directionLock
    ensures r.directionLock == Unlocked ==> r == g
    ensures g.directionLock == Unlocked && r.directionLock != Unlocked ==>
              && s.gesturesEnabled && g.touchStart.Some? && g.touchStartY.Some?
              && PastNoise(Abs(x - g.touchStart.value), Abs(y - g.touchStartY.value))
              && (r.directionLock == Horizontal <==>
                    FavoursHorizontal(Abs(x - g.touchStart.value), Abs(y - g.touchStartY.value)))
              && r.touchCurrent == g.touchCurrent
  {
    if !s.gesturesEnabled || g.directionLock == Vertical then g
    else if g.directionLock == Horizontal then g.(touchCurrent := Some(x))
    else if g.touchStart.Some? && g.touchStartY.Some? then
      var diffX := Abs(x - g.touchStart.value);
      var diffY := Abs(y - g.touchStartY.value);
      if PastNoise(diffX, diffY) then
        if FavoursHorizontal(diffX, diffY) then g.(directionLock := Horizontal, isDragging := true)
        else g.(directionLock := Vertical)
      else g
    else g
  }

  /** `handleMove(x, y)`: whether the cancel callback (`preventDefault`) runs. */
  predicate MovePrevents(s: Settings, g: State, x: int, y: int)
    ensures MovePrevents(s, g, x, y) <==> s.gesturesEnabled && Move(s, g, x, y).directionLock == Horizontal
  {
    s.gesturesEnabled && g.directionLock != Vertical && Move(s, g, x, y).directionLock == Horizontal
  }

  /** `handleMove(x, y)`: whether a swipe-progress notification is issued. */
  predicate MoveNotifies(s: Settings, g: State)
    ensures MoveNotifies(s, g) ==> forall x, y :: Move(s, g, x, y) == g.(touchCurrent := Some(x))
  {
    s.gesturesEnabled && g.directionLock == Horizontal && g.touchStart.Some?
  }

  /**
   * `handleEnd()`: the new state, with the corrected release decision: an active
   * tab outside the order snaps back (see `ReleaseTargetAsWritten`).
   */
  function End(s: Settings, g: State): (r: State)
    ensures !s.gesturesEnabled ==> r == g
    ensures s.gesturesEnabled ==>
              Consistent(r) && r.touchStart == None && r.touchCurrent == None && r.touchStartY == None &&
              r.directionLock == Unlocked && !r.isDragging
    ensures r.activeTab != g.activeTab ==> g.isDragging && g.activeTab in s.tabsOrder && r.activeTab in s.tabsOrder
  {
    if !s.gesturesEnabled then g
    else
      var cleared := g.(directionLock := Unlocked, touchStartY := None, isDragging := false,
                        touchStart := None, touchCurrent := None);
      if !g.isDragging || g.touchStart.None? || g.touchCurrent.None? then cleared
      else match ReleaseTarget(s.tabsOrder, g.activeTab, g.touchStart.value - g.touchCurrent.value, s.threshold)
        case Some(t) => cleared.(activeTab := t)
        case None => cleared
  }

  /** `handleEnd()`: what it tells the provider, with the same corrected release decision. */
  function EndNotice(s: Settings, g: State): (r: Notice)
    ensures r == Ignored <==> !s.gesturesEnabled
    ensures r.Changed? ==> End(s, g).activeTab == r.tab && r.tab in s.tabsOrder
    ensures !r.Changed? ==> End(s, g).activeTab == g.activeTab
    ensures r == SnapBack || r.Changed? ==> g.isDragging
  {
    if !s.gesturesEnabled then Ignored
    else if !g.isDragging || g.touchStart.None? || g.touchCurrent.None? then Released
    else match ReleaseTarget(s.tabsOrder, g.activeTab, g.touchStart.value - g.touchCurrent.value, s.threshold)
      case Some(t) => Changed(t)
      case None => SnapBack
  }

  /** `handleMouseMove`: moves count only while the button is down. */
  function MouseMove(s: Settings, g: State, x: int, y: int): (r: State)
    ensures g.touchStart.None? ==> r == g
    ensures Consistent(g) ==> Consistent(r)
    ensures r.activeTab == g.activeTab
  {
    if g.touchStart.None? then g else Move(s, g, x, y)
  }

  /** `handleMouseLeave`: leaving the area ends a drag, and only a drag. */
  function MouseLeave(s: Settings, g: State): (r: State)
    ensures !g.isDragging ==> r == g
    ensures g.isDragging && s.gesturesEnabled ==> !r.isDragging && r.directionLock == Unlocked && r.touchStart == None
  {
    if g.isDragging then End(s, g) else g
  }

  /** The component's events: touch start and mouse down share `handleStart`, and so on. */
  datatype Event =
    | Press(x: int, y: int)        // touchstart, mousedown
    | TouchMove(x: int, y: int)    // touchmove
    | Release                      // touchend, touchcancel, mouseup
    | MouseMoved(x: int, y: int)  // mousemove
    | Leave                        // mouseleave

  function Step(s: Settings, g: State, e: Event): State
  {
    match e
    case Press(x, y) => Start(s, g, x, y)
    case TouchMove(x, y) => Move(s, g, x, y)
    case Release => End(s, g)
    case MouseMoved(x, y) => MouseMove(s, g, x, y)
    case Leave => MouseLeave(s, g)
  }

  function Run(s: Settings, g: State, events: seq<Event>): State
    decreases |events|
  {
    if |events| == 0 then g else Run(s, Step(s, g, events[0]), events[1..])
  }

  // ---------------------------------------------------------------------------
  // Properties of one handler
  // ---------------------------------------------------------------------------

  /** With gestures disabled no handler changes anything or tells the provider anything. */
  lemma DisabledIsInert(s: Settings, g: State, x: int, y: int)
    requires !s.gesturesEnabled
    ensures Start(s, g, x, y) == g && Move(s, g, x, y) == g && End(s, g) == g
    ensures !MovePrevents(s, g, x, y) && !MoveNotifies(s, g) && EndNotice(s, g) == Ignored
  {
  }

  /** A press records the point, clears the lock and the drag flag, and keeps the tab. */
  lemma StartRecordsPress(s: Settings, g: State, x: int, y: int)
    requires s.gesturesEnabled
    ensures var n := Start(s, g, x, y);
            n.touchStart == Some(x) && n.touchCurrent == Some(x) && n.touchStartY == Some(y) &&
            n.directionLock == Unlocked && !n.isDragging && n.activeTab == g.activeTab
  {
  }

  /** Before a lock, a move that stays within 5 px on both axes changes nothing. */
  lemma NoiseMoveIsInert(s: Settings, g: State, x: int, y: int)
    requires g.directionLock == Unlocked && g.touchStart.Some? && g.touchStartY.Some?
    requires Abs(x - g.touchStart.value) <= MoveThreshold && Abs(y - g.touchStartY.value) <= MoveThreshold
    ensures Move(s, g, x, y) == g
    ensures !MovePrevents(s, g, x, y) && !MoveNotifies(s, g)
  {
  }

  /**
   * Before a lock, a move past the noise band locks: horizontal (and dragging)
   * exactly when 5 * diffX >= 3 * diffY, vertical otherwise; nothing else changes.
   */
  lemma MoveLocksByRatio(s: Settings, g: State, x: int, y: int)
    requires s.gesturesEnabled && Consistent(g)
    requires g.directionLock == Unlocked && g.touchStart.Some?
    requires PastNoise(Abs(x - g.touchStart.value), Abs(y - g.touchStartY.value))
    ensures var n := Move(s, g, x, y);
            && (n.directionLock == Horizontal <==> FavoursHorizontal(Abs(x - g.touchStart.value), Abs(y - g.touchStartY.value)))
            && (n.directionLock == Vertical <==> !FavoursHorizontal(Abs(x - g.touchStart.value), Abs(y - g.touchStartY.value)))
            && (n.isDragging <==> n.directionLock == Horizontal)
            && n.touchStart == g.touchStart && n.touchCurrent == g.touchCurrent
            && n.touchStartY == g.touchStartY && n.activeTab == g.activeTab
    ensures MovePrevents(s, g, x, y) <==> Move(s, g, x, y).directionLock == Horizontal
  {
  }

  /**
   * Once locked, a move keeps the lock: a vertical lock makes it a no-op, a
   * horizontal lock only moves `touchCurrent` (and suppresses scrolling).
   */
  lemma LockedMoveKeepsLock(s: Settings, g: State, x: int, y: int)
    requires g.directionLock != Unlocked
    ensures Move(s, g, x, y).directionLock == g.directionLock
    ensures g.directionLock == Vertical ==> Move(s, g, x, y) == g && !MovePrevents(s, g, x, y)
    ensures g.directionLock == Horizontal && s.gesturesEnabled ==>
              Move(s, g, x, y) == g.(touchCurrent := Some(x)) && MovePrevents(s, g, x, y)
  {
  }

  /** Every handler keeps `Consistent`; in particular `isDragging` is the horizontal lock. */
  lemma StepKeepsConsistent(s: Settings, g: State, e: Event)
    requires Consistent(g)
    ensures Consistent(Step(s, g, e))
  {
  }

  /** After any enabled release the gesture is gone: no coordinates, no lock, no drag. */
  lemma EndClearsGesture(s: Settings, g: State)
    requires s.gesturesEnabled
    ensures var n := End(s, g);
            n.touchStart == None && n.touchCurrent == None && n.touchStartY == None &&
            n.directionLock == Unlocked && !n.isDragging
  {
  }

  /** A release that is not a drag never changes the tab and notifies nothing. */
  lemma NonDragKeepsTab(s: Settings, g: State)
    requires !g.isDragging
    ensures End(s, g).activeTab == g.activeTab
    ensures EndNotice(s, g) == Ignored || EndNotice(s, g) == Released
  {
  }

  /**
   * The commit rule of a drag: it commits to the next tab when it moved left by
   * more than the threshold and the tab is not the last, to the previous tab when it
   * moved right by more than the threshold and the tab is not the first; otherwise
   * the tab stays and the drag snaps back.
   */
  lemma DragCommitRule(s: Settings, g: State)
    requires s.gesturesEnabled && Consistent(g) && g.isDragging && g.activeTab in s.tabsOrder
    ensures var i := Tabs.IndexOf(s.tabsOrder, g.activeTab);
            var d := g.touchStart.value - g.touchCurrent.value;
            && (d > s.threshold && d > 0 && i < |s.tabsOrder| - 1 ==>
                  End(s, g).activeTab == s.tabsOrder[i + 1] && EndNotice(s, g) == Changed(s.tabsOrder[i + 1]))
            && (-d > s.threshold && d < 0 && i > 0 ==>
                  End(s, g).activeTab == s.tabsOrder[i - 1] && EndNotice(s, g) == Changed(s.tabsOrder[i - 1]))
            && (Abs(d) <= s.threshold || d == 0 || (d > 0 && i == |s.tabsOrder| - 1) || (d < 0 && i == 0) ==>
                  End(s, g).activeTab == g.activeTab && EndNotice(s, g) == SnapBack)
  {
  }

  /** At the first tab a drag to the right never commits, at the last a drag to the left never does. */
  lemma NoWraparound(s: Settings, g: State)
    requires s.gesturesEnabled && Consistent(g) && g.isDragging && Tabs.Distinct(s.tabsOrder)
    ensures (|s.tabsOrder| > 0 && g.activeTab == s.tabsOrder[0] && g.touchStart.value < g.touchCurrent.value)
              ==> End(s, g).activeTab == g.activeTab && EndNotice(s, g) == SnapBack
    ensures (|s.tabsOrder| > 0 && g.activeTab == s.tabsOrder[|s.tabsOrder| - 1] && g.touchStart.value > g.touchCurrent.value)
              ==> End(s, g).activeTab == g.activeTab && EndNotice(s, g) == SnapBack
  {
    if |s.tabsOrder| > 0 {
      Tabs.IndexOfDistinct(s.tabsOrder, |s.tabsOrder| - 1);
    }
  }

  /**
   * A release keeps a known tab known and moves it by at most one place (exactly
   * one when it changes), given that no tab identity is repeated.
   */
  lemma EndMovesAtMostOne(s: Settings, g: State)
    requires g.activeTab in s.tabsOrder && Tabs.Distinct(s.tabsOrder)
    ensures End(s, g).activeTab in s.tabsOrder
    ensures var before := Tabs.IndexOf(s.tabsOrder, g.activeTab);
            var after := Tabs.IndexOf(s.tabsOrder, End(s, g).activeTab);
            -1 <= after - before <= 1 && (End(s, g).activeTab != g.activeTab ==> after != before)
  {
    var i := Tabs.IndexOf(s.tabsOrder, g.activeTab);
    if End(s, g).activeTab != g.activeTab {
      var t := ReleaseTarget(s.tabsOrder, g.activeTab, g.touchStart.value - g.touchCurrent.value, s.threshold);
      assert t.Some? && End(s, g).activeTab == t.value;
      if g.touchStart.value - g.touchCurrent.value > 0 {
        Tabs.IndexOfDistinct(s.tabsOrder, i + 1);
      } else {
        Tabs.IndexOfDistinct(s.tabsOrder, i - 1);
      }
    }
  }

  /** Mouse moves are ignored with no button down; leaving ends a drag and nothing else. */
  lemma MouseWrappers(s: Settings, g: State, x: int, y: int)
    ensures g.touchStart.None? ==> MouseMove(s, g, x, y) == g
    ensures g.touchStart.Some? ==> MouseMove(s, g, x, y) == Move(s, g, x, y)
    ensures !g.isDragging ==> MouseLeave(s, g) == g
    ensures g.isDragging ==> MouseLeave(s, g) == End(s, g)
  {
  }

  // ---------------------------------------------------------------------------
  // Properties of event sequences
  // ---------------------------------------------------------------------------

  /** Any sequence of events keeps `Consistent`. */
  lemma {:induction false} RunKeepsConsistent(s: Settings, g: State, events: seq<Event>)
    requires Consistent(g)
    ensures Consistent(Run(s, g, events))
    decreases |events|
  {
    if |events| > 0 {
      StepKeepsConsistent(s, g, events[0]);
      RunKeepsConsistent(s, Step(s, g, events[0]), events[1..]);
    }
  }

  /** Any sequence of events keeps a known active tab known, when tab identities are unique. */
  lemma {:induction false} RunKeepsTabKnown(s: Settings, g: State, events: seq<Event>)
    requires g.activeTab in s.tabsOrder && Tabs.Distinct(s.tabsOrder)
    ensures Run(s, g, events).activeTab in s.tabsOrder
    decreases |events|
  {
    if |events| > 0 {
      EndMovesAtMostOne(s, g);
      RunKeepsTabKnown(s, Step(s, g, events[0]), events[1..]);
    }
  }

  /** Only the moves of one gesture: no press, no release, no leaving the area. */
  predicate OnlyMoves(events: seq<Event>)
  {
    forall i :: 0 <= i < |events| ==> events[i].TouchMove? || events[i].MouseMoved?
  }

  /** Within a gesture a lock, once taken, never changes. */
  lemma {:induction false} LockHoldsWithinGesture(s: Settings, g: State, events: seq<Event>)
    requires g.directionLock != Unlocked && OnlyMoves(events)
    ensures Run(s, g, events).directionLock == g.directionLock
    decreases |events|
  {
    if |events| > 0 {
      var n := Step(s, g, events[0]);
      assert n.directionLock == g.directionLock;
      assert OnlyMoves(events[1..]) by {
        forall i | 0 <= i < |events[1..]| ensures events[1..][i].TouchMove? || events[1..][i].MouseMoved? {
          assert events[1..][i] == events[i + 1];
        }
      }
      LockHoldsWithinGesture(s, n, events[1..]);
    }
  }

  /** Within a gesture a vertical lock freezes the whole state, including the tab. */
  lemma {:induction false} VerticalGestureIsInert(s: Settings, g: State, events: seq<Event>)
    requires g.directionLock == Vertical && OnlyMoves(events)
    ensures Run(s, g, events) == g
    decreases |events|
  {
    if |events| > 0 {
      assert Step(s, g, events[0]) == g;
      assert OnlyMoves(events[1..]) by {
        forall i | 0 <= i < |events[1..]| ensures events[1..][i].TouchMove? || events[1..][i].MouseMoved? {
          assert events[1..][i] == events[i + 1];
        }
      }
      VerticalGestureIsInert(s, g, events[1..]);
    }
  }

  // ---------------------------------------------------------------------------
  // The component's state fields
  // ---------------------------------------------------------------------------

  class Handlers {
    const settings: Settings
    var touchStart: Option<int>
    var touchCurrent: Option<int>
    var touchStartY: Option<int>
    var isDragging: bool
    var directionLock: Lock
    var activeTab: string

    function Snapshot(): State
      reads this
    {
      State(touchStart, touchCurrent, touchStartY, isDragging, directionLock, activeTab)
    }

    ghost predicate Valid()
      reads this
    {
      Consistent(Snapshot())
    }

    constructor (settings: Settings, activeTab: string)
      ensures Valid() && this.settings == settings && Snapshot() == Idle(activeTab)
    {
      this.settings := settings;
      touchStart, touchCurrent, touchStartY := None, None, None;
      isDragging, directionLock := false, Unlocked;
      this.activeTab := activeTab;
    }

    method HandleStart(x: int, y: int)
      requires Valid()
      modifies this
      ensures Valid()
      ensures Snapshot() == Start(settings, old(Snapshot()), x, y)
    {
      if !settings.gesturesEnabled {
        return;
      }
      touchStart := Some(x);
      touchCurrent := Some(x);
      touchStartY := Some(y);
      directionLock := Unlocked;
      isDragging := false;
    }

    /** Returns whether `preventDefault` ran and whether swipe progress was notified. */
    method HandleMove(x: int, y: int) returns (prevented: bool, notified: bool)
      requires Valid()
      modifies this
      ensures Valid()
      ensures Snapshot() == Move(settings, old(Snapshot()), x, y)
      ensures prevented == MovePrevents(settings, old(Snapshot()), x, y)
      ensures notified == MoveNotifies(settings, old(Snapshot()))
    {
      prevented, notified := false, false;
      if !settings.gesturesEnabled {
        return;
      }
      if directionLock == Vertical {
        return;
      }
      if directionLock == Horizontal {
        prevented := true;
        touchCurrent := Some(x);
        notified := touchStart.Some?;
        return;
      }
      if touchStart.Some? && touchStartY.Some? {
        var diffX := Abs(x - touchStart.value);
        var diffY := Abs(y - touchStartY.value);
        if diffX > MoveThreshold || diffY > MoveThreshold {
          if 5 * diffX >= 3 * diffY {
            directionLock := Horizontal;
            isDragging := true;
            prevented := true;
          } else {
            directionLock := Vertical;
          }
        }
      }
    }

    method HandleEnd() returns (notice: Notice)
      requires Valid()
      modifies this
      ensures Valid()
      ensures Snapshot() == End(settings, old(Snapshot()))
      ensures notice == EndNotice(settings, old(Snapshot()))
    {
      if !settings.gesturesEnabled {
        return Ignored;
      }
      directionLock := Unlocked;
      touchStartY := None;
      if !isDragging || touchStart.None? || touchCurrent.None? {
        isDragging := false;
        touchStart := None;
        touchCurrent := None;
        return Released;
      }
      var diffX := touchStart.value - touchCurrent.value;
      var target := ReleaseTarget(settings.tabsOrder, activeTab, diffX, settings.threshold);
      if target.Some? {
        activeTab := target.value;
        notice := Changed(target.value);
      } else {
        notice := SnapBack;
      }
      isDragging := false;
      touchStart := None;
      touchCurrent := None;
    }

    method HandleMouseMove(x: int, y: int) returns (prevented: bool, notified: bool)
      requires Valid()
      modifies this
      ensures Valid()
      ensures Snapshot() == MouseMove(settings, old(Snapshot()), x, y)
      ensures prevented == (old(touchStart).Some? && MovePrevents(settings, old(Snapshot()), x, y))
      ensures notified == (old(touchStart).Some? && MoveNotifies(settings, old(Snapshot())))
    {
      prevented, notified := false, false;
      if touchStart.None? {
        return;
      }
      prevented, notified := HandleMove(x, y);
    }

    /** Returns the release's notice, or `Ignored` when the mouse left without a drag. */
    method HandleMouseLeave() returns (notice: Notice)
      requires Valid()
      modifies this
      ensures Valid()
      ensures Snapshot() == MouseLeave(settings, old(Snapshot()))
      ensures notice == if old(isDragging) then EndNotice(settings, old(Snapshot())) else Ignored
    {
      notice := Ignored;
      if isDragging {
        notice := HandleEnd();
      }
    }
  }

  /** A client: a 80 px drag to the left from the first of two tabs commits to the second. */
  method DragToNext(a: string, b: string) returns (notice: Notice, active: string)
    requires a != b
    ensures notice == Changed(b) && active == b
  {
    var h := new Handlers(SettingsOf(Tabs.DefaultConfig(a), [a, b]), a);
    h.HandleStart(200, 100);
    var prevented, notified := h.HandleMove(190, 102);
    prevented, notified := h.HandleMove(120, 110);
    notice := h.HandleEnd();
    active := h.activeTab;
  }

  /** A client: the same drag from the last tab snaps back, and a mostly vertical drag is not a swipe. */
  method DragPastEdge(a: string, b: string) returns (edge: Notice, scroll: Notice, active: string)
    requires a != b
    ensures edge == SnapBack && scroll == Released && active == b
  {
    var h := new Handlers(Settings([a, b], 50, true), b);
    h.HandleStart(200, 100);
    var prevented, notified := h.HandleMove(190, 102);
    prevented, notified := h.HandleMove(120, 110);
    edge := h.HandleEnd();
    h.HandleStart(200, 100);
    prevented, notified := h.HandleMove(195, 120);
    prevented, notified := h.HandleMove(100, 300);
    scroll := h.HandleEnd();
    active := h.activeTab;
  }
}
