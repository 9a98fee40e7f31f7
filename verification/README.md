# react-fluid-tabs: gesture interpreter and tabs store, modelled in Dafny

This project models the logic of react-fluid-tabs, a headless React tab component whose pages can be swiped.
It has three parts:

- **`Tabs` provider** (`tabs.dfy`, module `Tabs`). It holds the active tab, the order of the known tabs, the swipe direction and the swipe-progress subscribers. It can also keep the active tab in the browser URL, either in the hash fragment or in a query parameter. The URL is an abstract record, `Location`: the `location.hash` string, a map of query parameters, and the number of history entries. The decisions made over it are pure functions:
  - `GetTabFromUrl`
  - `GetInitialActiveTab`
  - `WriteUrl` (for `updateUrlWithTab`)
  - `NextDirection`
  - `PopStateTarget`
  - `MountSyncValue`

  The class `Provider` holds the state. Its methods are `setActiveTab`, the popstate handler, the URL-sync effect, subscribe/unsubscribe and `notifySwipe`.
- **`TabsContent` gesture interpreter** (`tabs_content.dfy`, module `TabsContent`). A press records the start point. A move locks the gesture to one axis once it has gone more than 5 px on either axis. The lock is horizontal when `|dx| >= 0.6 |dy|`, written exactly as `5*dx >= 3*dy`. A release either commits to the neighbouring tab or snaps back. Each handler is one atomic transition:
  - The pure functions `Start`, `Move`, `End`, `MouseMove` and `MouseLeave` give the next state.
  - `MovePrevents`, `MoveNotifies` and `EndNotice` give the side effects.
  - `SettingsOf` packs what the component reads from the provider (the order, `threshold`, `gesturesEnabled`) into the `Settings` record the functions take.
  - The methods of class `Handlers` perform the transition on the component's fields (`touchStart`, `touchCurrent`, `touchStartY`, `isDragging`, `directionLock`, `activeTab`), and each is proved equal to its function.
- **`useSwipe` hook** (`use_swipe.dfy`, module `UseSwipe`). This is the older form of the same machine:
  - The direction is latched once per gesture.
  - The ratio test is strict (`5*dx > 3*dy`).
  - It calls `onSwipeLeft` / `onSwipeRight` instead of changing tabs.
  - An x-coordinate of 0 counts as "absent" wherever the code tests truthiness.

  The class `Listeners` holds its six refs.

`wrappers.dfy` defines `Option` (JavaScript `null`) and `Result` (a thrown error).

In three places the code behaves differently from what one might expect. The model follows the code in the first two and corrects the third:

- **Loading with an unknown hash tab** (for example `#unknown`):
  - One might expect the active tab to fall back to the default.
  - The code (`getInitialActiveTab`, react-fluid-tabs/src/components/Tabs.tsx:144-147) makes the unknown value the active tab.
  - The mount effect (react-fluid-tabs/src/components/Tabs.tsx:244-251) only rewrites the URL to the default.
  - `Tabs.UnknownHashCorrected` states this behaviour of the code.
- **Back/forward to a URL tab outside a non-empty order, or to an entry with no tab** (for example Back past the entry written at mount):
  - One might expect the active tab to fall back to the default.
  - The code's popstate handler (react-fluid-tabs/src/components/Tabs.tsx:222-229) keeps the current tab. While no tab is known yet (`tabsOrder` empty), it accepts any new non-empty URL value (Tabs.tsx:224).
  - The model follows the code: `PopStateTarget` returns `None`, and `HandlePopState` keeps the tab.
- **Release with an active tab outside the order.** Here the model does not follow the code. `TabsContent.End`, `TabsContent.EndNotice`, `TabsContent.MouseLeave`, `TabsContent.Handlers.HandleEnd` and `TabsContent.Handlers.HandleMouseLeave` use the corrected release decision: they snap back. The code as written is modelled separately by `TabsContent.ReleaseTargetAsWritten` (see Findings).

## Model

| member | source | states |
|---|---|---|
| `Tabs.IndexOf` | react-fluid-tabs/src/components/TabsContent.tsx:43-44 | `indexOf`: -1 exactly when the tab is absent. Otherwise the result is a position holding the tab with no earlier occurrence. This gives `activeIndex` and the indices `setActiveTab` compares. |
| `Tabs.UseTabs` | react-fluid-tabs/src/components/Tabs.tsx:29-35 | Fails with the "must be used within a TabsProvider" error exactly when there is no provider context. Otherwise it returns that context. |
| `Tabs.GetTabFromUrl` | react-fluid-tabs/src/components/Tabs.tsx:101-115 | Absent without a window or in mode 'none'. In hash mode, the value is the hash minus its first character exactly when that is non-empty, and absent otherwise. In query mode, the value is present exactly when the parameter exists, and is that entry (possibly ""). |
| `Tabs.GetInitialActiveTab` | react-fluid-tabs/src/components/Tabs.tsx:139-156 | Agrees with `getTabFromUrl`: the URL's non-empty tab, or `defaultValue` when there is none, and always `defaultValue` in mode 'none'. |
| `Tabs.WriteUrl` | react-fluid-tabs/src/components/Tabs.tsx:118-136 | No change without a window, in mode 'none' or with `updateUrl` off. Otherwise 'push' adds exactly one history entry and 'replace' adds none. Query mode changes only the `urlParam` entry. Hash mode leaves the query alone. Reading the URL back gives the written tab, except that hash mode cannot hold "". |
| `Tabs.NextDirection` | react-fluid-tabs/src/components/Tabs.tsx:192-199 | Unchanged unless both the previous tab and the new one are in the order. Then 'right' exactly when the new index is greater, otherwise 'left'. |
| `Tabs.PopStateTarget` | react-fluid-tabs/src/components/Tabs.tsx:217-231 | A popstate switches only to the URL's own value. That value must be non-empty and differ from the active tab, and it must be in the order whenever the order is non-empty. When the handler refuses a present value, the value is the active tab or an unknown one. Conversely, a new non-empty URL tab is accepted when it is known or when no tab is known yet. |
| `Tabs.MountSyncValue` | react-fluid-tabs/src/components/Tabs.tsx:238-256 | With a URL tab: writes `defaultValue` exactly when the order is non-empty and lacks that tab. Without one: writes the active tab exactly when `updateUrl` is on. Never anything else. |
| `Tabs.Added` | react-fluid-tabs/src/components/Tabs.tsx:175 | `Set.add`: the result holds the old members plus the callback and stays duplicate-free. |
| `Tabs.Removed` | react-fluid-tabs/src/components/Tabs.tsx:176-178 | `Set.delete`: the result holds exactly the old members other than the callback and stays duplicate-free. |
| `Tabs.UnsubscribeUndoesSubscribe` | react-fluid-tabs/src/components/Tabs.tsx:173-181 | For a callback not already subscribed, the function returned by `subscribeSwipe(cb)` restores the subscribers as they were before. |
| `Tabs.Provider.constructor` | react-fluid-tabs/src/components/Tabs.tsx:158-171 | Initial state: the tab from `getInitialActiveTab`, no direction, no known tabs, flag down, no subscribers. |
| `Tabs.Provider.SetTabsOrder` | react-fluid-tabs/src/components/Tabs.tsx:160 | Replaces the order of the known tabs. |
| `Tabs.Provider.SetActiveTab` | react-fluid-tabs/src/components/Tabs.tsx:190-214 | `id` becomes active and the direction follows `NextDirection`. The URL is written unless the internal-update flag was up, in which case nothing is written and the flag is lowered. `onChange(id)` is recorded on every call. |
| `Tabs.Provider.HandlePopState` | react-fluid-tabs/src/components/Tabs.tsx:217-235 | The tab changes exactly as `PopStateTarget` says. The location is the one the browser arrived at: the change writes no URL. The flag is down again afterwards. |
| `Tabs.Provider.SyncUrl` | react-fluid-tabs/src/components/Tabs.tsx:238-265 | The location becomes `WriteUrl` of the value `MountSyncValue` chooses, if any. The active tab is not changed. |
| `Tabs.Provider.Subscribe` | react-fluid-tabs/src/components/Tabs.tsx:173-181 | Adds the callback, keeping the subscribers a set. |
| `Tabs.Provider.Unsubscribe` | react-fluid-tabs/src/components/Tabs.tsx:176-178 | Removes the callback. |
| `Tabs.Provider.NotifySwipe` | react-fluid-tabs/src/components/Tabs.tsx:183-188 | Calls every subscriber exactly once, in subscription order, with `(progress, shouldAnimate)`. `shouldAnimate` defaults to false. |
| `Tabs.SelectThenRead` | react-fluid-tabs/src/components/Tabs.tsx:190-211 | After `setActiveTab(x)`, the active tab is `x`. With URL sync and `updateUrl`, the URL reads back `x`, provided `x` is not "" in hash mode (an empty hash reads as no tab). Without `updateUrl`, the URL is untouched. |
| `Tabs.NavigateBack` | react-fluid-tabs/src/components/Tabs.tsx:220-231 | Navigating to a URL that names another known tab makes it active and adds no history entry. |
| `Tabs.QueryRoundTrip` | react-fluid-tabs/src/components/Tabs.tsx:109-112 | In query mode, writing then reading gives the written value. The initial tab computed from that URL is the value, or the default when the value is "". |
| `Tabs.ReselectGoesLeft` | react-fluid-tabs/src/components/Tabs.tsx:196 | Selecting the already-active known tab sets the direction to 'left'. |
| `Tabs.PopStateTargetIsKnown` | react-fluid-tabs/src/components/Tabs.tsx:222-225 | Once tabs are known, a popstate with a new non-empty URL tab switches exactly when that tab is known. |
| `Tabs.DefaultConfig` | react-fluid-tabs/src/components/Tabs.tsx:91-97 | The default props: threshold 50, gestures on, mode 'none', parameter "tab", `updateUrl` on, history 'push'. |
| `Tabs.DefaultsDoNotSync` | react-fluid-tabs/src/components/Tabs.tsx:91-97 | With the default props (threshold 50, gestures on, mode 'none'), the initial tab is `defaultValue`, no URL is written, and popstate and mount sync do nothing. |
| `Tabs.HashInitialTab` | react-fluid-tabs/src/components/Tabs.tsx:144-147 | `#t` gives initial tab `t`. An empty or bare `#` fragment gives the default. |
| `Tabs.UnknownHashCorrected` | react-fluid-tabs/src/components/Tabs.tsx:244-251 | `#t` with `t` unknown makes `t` the initial tab, and the mount effect writes the default into the URL. |
| `TabsContent.ReleaseTarget` | react-fluid-tabs/src/components/TabsContent.tsx:137-164 | A commit needs more than `threshold` pixels of travel and a known active tab, and it targets a tab in the order. A left drag goes to the next tab and a right drag to the previous one; each requires that tab to exist. |
| `TabsContent.ReleaseTargetAsWritten` | react-fluid-tabs/src/components/TabsContent.tsx:137-164 | The release decision exactly as written, with an unchecked `indexOf`. It commits only past the threshold. `undefined` arises only from a right drag with the active tab missing from the order, and a left drag from such a tab selects the first tab. |
| `TabsContent.AsWrittenAgreesOnKnownTab` | react-fluid-tabs/src/components/TabsContent.tsx:137-164 | For an active tab in the order, the decision as written and `ReleaseTarget` agree. |
| `TabsContent.AsWrittenSelectsUndefined` | react-fluid-tabs/src/components/TabsContent.tsx:156-161 | With active tab "unknown" and order ["a","b"], a 100 px right drag selects `tabsOrder[-2]` (undefined) and a left drag selects "a". The corrected rule snaps back in both cases. |
| `TabsContent.Start` | react-fluid-tabs/src/components/TabsContent.tsx:79-86 | With gestures off, nothing changes. Otherwise the press is recorded at x (start and current) and y, the lock and the drag flag are cleared, and the invariant holds. The tab is kept. |
| `TabsContent.Move` | react-fluid-tabs/src/components/TabsContent.tsx:88-123 | Keeps the invariant, the tab and the press. A lock, once taken, is kept. Without a lock the state is unchanged unless a lock is taken now. A new lock needs gestures on, a recorded press and more than 5 px of travel, and it is horizontal exactly when `5*dx >= 3*dy`. |
| `TabsContent.MovePrevents` | react-fluid-tabs/src/components/TabsContent.tsx:91-117 | The cancel callback runs exactly when gestures are on and the move leaves the gesture locked horizontally. |
| `TabsContent.MoveNotifies` | react-fluid-tabs/src/components/TabsContent.tsx:93-103 | A progress notification happens only on a horizontal-locked move, and that move changes only `touchCurrent`. |
| `TabsContent.End` | react-fluid-tabs/src/components/TabsContent.tsx:125-174 | Corrected release. With gestures off, nothing changes. Otherwise the press, the lock and the drag flag are cleared and the invariant holds. The tab changes only on a drag from a tab in the order, to another tab in the order. |
| `TabsContent.EndNotice` | react-fluid-tabs/src/components/TabsContent.tsx:125-174 | Corrected release. Ignored exactly when gestures are off. A commit names the tab `End` makes active, which is in the order. Every other notice keeps the tab. A snap-back or a commit happens only after a drag. |
| `TabsContent.MouseMove` | react-fluid-tabs/src/components/TabsContent.tsx:192-197 | No change while no press is recorded. Keeps the invariant and the tab. |
| `TabsContent.MouseLeave` | react-fluid-tabs/src/components/TabsContent.tsx:203-205 | Corrected release. No change unless dragging. Leaving during an enabled drag ends it: no drag, no lock, no press. |
| `TabsContent.DisabledIsInert` | react-fluid-tabs/src/components/TabsContent.tsx:80 | With gestures off, start, move and end change nothing, prevent nothing and notify nothing. |
| `TabsContent.StartRecordsPress` | react-fluid-tabs/src/components/TabsContent.tsx:79-86 | Start sets `touchStart = touchCurrent = x` and `touchStartY = y`, clears the lock and the drag flag, and keeps the tab. |
| `TabsContent.NoiseMoveIsInert` | react-fluid-tabs/src/components/TabsContent.tsx:107-112 | Unlocked, within 5 px on both axes: the state is unchanged, with no prevention and no notification. |
| `TabsContent.MoveLocksByRatio` | react-fluid-tabs/src/components/TabsContent.tsx:107-121 | Unlocked, past 5 px: the lock is horizontal exactly when `5*dx >= 3*dy` and vertical otherwise. Dragging is exactly the horizontal lock, scrolling is prevented exactly then, and the coordinates are untouched. |
| `TabsContent.LockedMoveKeepsLock` | react-fluid-tabs/src/components/TabsContent.tsx:91-105 | Once locked, a move keeps the lock. Vertical: a no-op. Horizontal: only `touchCurrent` moves, and scrolling is prevented. |
| `TabsContent.StepKeepsConsistent` | react-fluid-tabs/src/components/TabsContent.tsx:85-134 | Every handler keeps the invariant: `isDragging` iff horizontal lock, coordinates recorded together, and a lock implies a press. |
| `TabsContent.EndClearsGesture` | react-fluid-tabs/src/components/TabsContent.tsx:127-134 | After an enabled end, the coordinates are null, the lock is null and the drag flag is off. |
| `TabsContent.NonDragKeepsTab` | react-fluid-tabs/src/components/TabsContent.tsx:130-135 | A release that is not a drag keeps the tab and issues no notification. |
| `TabsContent.DragCommitRule` | react-fluid-tabs/src/components/TabsContent.tsx:141-169 | A drag of more than `threshold` commits: left to `tabsOrder[i+1]` unless i is last, right to `tabsOrder[i-1]` unless i is first. In every other case the tab stays and a snap-back is notified. |
| `TabsContent.NoWraparound` | react-fluid-tabs/src/components/TabsContent.tsx:138-162 | With distinct tab ids, a right drag at the first tab and a left drag at the last tab always snap back. |
| `TabsContent.EndMovesAtMostOne` | react-fluid-tabs/src/components/TabsContent.tsx:137-164 | With distinct tab ids, a known tab stays known after a release, and its index moves by at most one place (exactly one when it changes). |
| `TabsContent.MouseWrappers` | react-fluid-tabs/src/components/TabsContent.tsx:192-205 | Mouse move is ignored while `touchStart` is null. Mouse leave ends the gesture only when dragging. |
| `TabsContent.RunKeepsConsistent` | react-fluid-tabs/src/components/TabsContent.tsx:177-205 | Every sequence of touch and mouse events keeps the invariant. |
| `TabsContent.RunKeepsTabKnown` | react-fluid-tabs/src/components/TabsContent.tsx:137-164 | Every sequence of events keeps a known active tab known. |
| `TabsContent.LockHoldsWithinGesture` | react-fluid-tabs/src/components/TabsContent.tsx:91-105 | Through any moves of one gesture, a lock once taken does not change. |
| `TabsContent.VerticalGestureIsInert` | react-fluid-tabs/src/components/TabsContent.tsx:91 | Through any moves, a vertical lock leaves the whole state, tab included, as it is. |
| `TabsContent.Handlers.constructor` | react-fluid-tabs/src/components/TabsContent.tsx:35-46 | Initial state: nothing recorded, unlocked, not dragging. |
| `TabsContent.Handlers.HandleStart` | react-fluid-tabs/src/components/TabsContent.tsx:79-86 | The new state is `Start` of the old one, and the invariant is kept. |
| `TabsContent.Handlers.HandleMove` | react-fluid-tabs/src/components/TabsContent.tsx:88-123 | The new state is `Move` of the old one. `preventDefault` and the progress notification happen as `MovePrevents` and `MoveNotifies` say. |
| `TabsContent.Handlers.HandleEnd` | react-fluid-tabs/src/components/TabsContent.tsx:125-174 | The new state is `End` of the old one. The notice (commit, snap-back, silent, ignored) is `EndNotice`. |
| `TabsContent.Handlers.HandleMouseMove` | react-fluid-tabs/src/components/TabsContent.tsx:192-197 | `MouseMove` of the old state. It prevents and notifies only when a press is recorded. |
| `TabsContent.Handlers.HandleMouseLeave` | react-fluid-tabs/src/components/TabsContent.tsx:203-205 | `MouseLeave` of the old state (corrected release). The end's notice when dragging, nothing otherwise. |
| `TabsContent.DragToNext` | react-fluid-tabs/src/components/TabsContent.tsx:148-155 | An 80 px left drag from the first of two tabs commits to the second. |
| `TabsContent.DragPastEdge` | react-fluid-tabs/src/components/TabsContent.tsx:151-169 | The same drag from the last tab snaps back. A mostly vertical drag is a silent release. |
| `UseSwipe.DefaultOptions` | react-fluid-tabs/src/hooks/useSwipe.ts:11 | No callbacks given, threshold 50. |
| `UseSwipe.TouchStart` | react-fluid-tabs/src/hooks/useSwipe.ts:26-33 | Records x and y, nulls the end point and clears the latch. The invariant holds, and moves are tracked exactly when x is not 0. |
| `UseSwipe.TouchMove` | react-fluid-tabs/src/hooks/useSwipe.ts:35-71 | Keeps the invariant and the start point. Without a truthy start x and a start y, nothing changes. A latched direction is kept. The first move past 5 px latches: horizontal exactly when `5*dx > 3*dy`. When tracked, the end point becomes x, or null once vertical. |
| `UseSwipe.MovePrevents` | react-fluid-tabs/src/hooks/useSwipe.ts:62-64 | A move that prevents scrolling is not vertical and records x as the end point. |
| `UseSwipe.Fired` | react-fluid-tabs/src/hooks/useSwipe.ts:73-96 | At most two callbacks, at most one with a non-negative threshold. None when vertical or when either point is absent or 0. `onSwipeLeft` only when given and `start - end > threshold`; `onSwipeRight` only when given and `start - end < -threshold`. |
| `UseSwipe.TouchEnd` | react-fluid-tabs/src/hooks/useSwipe.ts:73-102 | Clears the three flags on either path, keeps the recorded points and keeps the invariant. |
| `UseSwipe.StartResets` | react-fluid-tabs/src/hooks/useSwipe.ts:26-33 | Touchstart records x and y, sets `touchEnd` to null and clears the three flags. |
| `UseSwipe.StepKeepsConsistent` | react-fluid-tabs/src/hooks/useSwipe.ts:26-102 | Every listener keeps the invariant: the flags are mutually exclusive, the latch is up iff a direction is detected, and vertical implies no end point. |
| `UseSwipe.RunKeepsConsistent` | react-fluid-tabs/src/hooks/useSwipe.ts:104-106 | Every event sequence keeps the invariant. |
| `UseSwipe.FirstSignificantMoveDetects` | react-fluid-tabs/src/hooks/useSwipe.ts:46-59 | The first move past 5 px latches the direction: horizontal iff `5*dx > 3*dy`, vertical otherwise. |
| `UseSwipe.NoiseMoveOnlyTracks` | react-fluid-tabs/src/hooks/useSwipe.ts:38-46 | Before detection, a move within 5 px only records the end point. |
| `UseSwipe.LatchHolds` | react-fluid-tabs/src/hooks/useSwipe.ts:46 | Once latched, no move changes the detected direction. |
| `UseSwipe.VerticalSilencesEnd` | react-fluid-tabs/src/hooks/useSwipe.ts:68-70 | Once vertical, each move nulls `touchEnd`, and the touchend fires nothing. |
| `UseSwipe.VerticalGestureFiresNothing` | react-fluid-tabs/src/hooks/useSwipe.ts:68-84 | Through any moves, a vertical gesture stays vertical and its release fires nothing. |
| `UseSwipe.EndFiringRule` | react-fluid-tabs/src/hooks/useSwipe.ts:74-96 | `onSwipeLeft` fires iff armed, `start - end > threshold` and the callback is given. `onSwipeRight` fires iff armed, `start - end < -threshold` and the callback is given. |
| `UseSwipe.AtMostOneFires` | react-fluid-tabs/src/hooks/useSwipe.ts:86-96 | With a non-negative threshold, at most one callback fires. |
| `UseSwipe.NegativeThresholdFiresBoth` | react-fluid-tabs/src/hooks/useSwipe.ts:87-96 | With threshold -10, a zero-length swipe fires both callbacks. |
| `UseSwipe.DefaultOptionsFireNothing` | react-fluid-tabs/src/hooks/useSwipe.ts:11 | The default threshold is 50, and with no callbacks given a touchend fires nothing. |
| `UseSwipe.EndResetsFlags` | react-fluid-tabs/src/hooks/useSwipe.ts:79-83 | Touchend on either path clears the three flags and keeps the recorded points. |
| `UseSwipe.ZeroIsAbsent` | react-fluid-tabs/src/hooks/useSwipe.ts:36 | A start x of 0 makes moves no-ops and fires nothing. An end x of 0 fires nothing. Without a start y, moves are ignored. |
| `UseSwipe.RulesDifferOnBoundary` | react-fluid-tabs/src/hooks/useSwipe.ts:50 | Compared with `TabsContent`'s rule, the two disagree exactly when `5*dx == 3*dy`: there TabsContent locks horizontal and useSwipe detects vertical. |
| `UseSwipe.BoundaryMoveOnBothMachines` | react-fluid-tabs/src/components/TabsContent.tsx:114 | A 6 px / 10 px move locks TabsContent horizontal and makes useSwipe detect vertical. |
| `UseSwipe.Listeners.constructor` | react-fluid-tabs/src/hooks/useSwipe.ts:13-18 | All refs null or false. |
| `UseSwipe.Listeners.OnTouchStart` | react-fluid-tabs/src/hooks/useSwipe.ts:26-33 | The new refs are `TouchStart` of the old ones. |
| `UseSwipe.Listeners.OnTouchMove` | react-fluid-tabs/src/hooks/useSwipe.ts:35-71 | The new refs are `TouchMove` of the old ones. `preventDefault` runs exactly when horizontal. |
| `UseSwipe.Listeners.OnTouchEnd` | react-fluid-tabs/src/hooks/useSwipe.ts:73-102 | The new refs are `TouchEnd` of the old ones, and the callbacks fired are `Fired`. |
| `UseSwipe.SwipeThenScroll` | react-fluid-tabs/src/hooks/useSwipe.ts:46-96 | A 60 px left swipe fires `onSwipeLeft`, and a following vertical scroll fires nothing. |

## Findings

| source | as written | input that shows it | evidently intended | confidence | as-written member | corrected member |
|---|---|---|---|---|---|---|
| react-fluid-tabs/src/components/TabsContent.tsx:137-164 | `currentIndex = tabsOrder.indexOf(activeTab)` is used unchecked. At -1 with a non-empty order, `isFirst` and `isLast` are false, so a drag to the right selects `tabsOrder[-2]` and a drag to the left selects `tabsOrder[0]`. | Hash mode, URL `#unknown`, known tabs `["a","b"]`. The active tab stays "unknown" (Tabs.tsx:144-147, 244-251). Drag right by 100 px with threshold 50 and `setActiveTab(undefined)` is called. | A release commits only to a real neighbour of a known active tab, otherwise it snaps back. | medium; not executed | `TabsContent.ReleaseTargetAsWritten`, `TabsContent.AsWrittenSelectsUndefined` | `TabsContent.ReleaseTarget`, `TabsContent.EndMovesAtMostOne` |

## Left out

- Rendering: styles, `touchAction`, cursor, `cloneElement`, lazy mounting, the `requestAnimationFrame` initial-mount flag and `getTranslateX`. None of these decides anything.
- Swipe-progress values: the ratio `-(deltaX / containerWidth)` is floating point. The model records only that a progress notification happens (`MoveNotifies`). The container is assumed to be mounted.
- Exact IEEE behaviour of `0.6 * diffY`: the test is the exact rational comparison over integer pixels. Fractional client coordinates are not modelled.
- Browser plumbing:
  - `addEventListener`/`removeEventListener`.
  - `preventDefault`, which is reported as a boolean result instead.
  - WHATWG URL parsing and serialisation: percent-encoding, and the hash setter's stripping of a leading `#` from the value. Writing tab `v` to the hash is modelled as `location.hash` becoming `"#" + v`, or `""` when `v` is empty.
- `useEffect` scheduling and the `activeTabRef` sync. Each handler or effect runs as one atomic step and reads the current state, so the popstate handler reads `activeTab` directly. The URL-sync effect is a method the caller runs on mount and after each change of its dependencies.
- React's deferred state updates: the functional update inside `setActiveTab` is applied at once, with `prev` being the current tab.
- The callbacks themselves (`onChange`, swipe subscribers, `onSwipeLeft`/`onSwipeRight`) are opaque. The model records which were called and with what arguments. A callback that unsubscribes during `notifySwipe` is not modelled.
- `TabsContent.Handlers` gets `tabsOrder`, `threshold` and `gesturesEnabled` from the provider once, as constants. A commit sets the handler's own `activeTab` and returns `Changed(tab)`. That result stands for the call to `setActiveTab`, whose URL, direction and `onChange` effects are those of `Tabs.Provider.SetActiveTab`.
- `TabsContent.End`: with the active tab outside the order it snaps back, where the code selects `tabsOrder[-2]` or `tabsOrder[0]` (see Findings).
- `TabsContent.EndNotice`: with the active tab outside the order it snaps back, where the code selects `tabsOrder[-2]` or `tabsOrder[0]` (see Findings).
- `TabsContent.MouseLeave`: with the active tab outside the order it snaps back, where the code selects `tabsOrder[-2]` or `tabsOrder[0]` (see Findings).
- `TabsContent.Handlers.HandleEnd`: with the active tab outside the order it snaps back, where the code selects `tabsOrder[-2]` or `tabsOrder[0]` (see Findings).
- `TabsContent.Handlers.HandleMouseLeave`: with the active tab outside the order it snaps back, where the code selects `tabsOrder[-2]` or `tabsOrder[0]` (see Findings).
- History length: `historyLength` counts the entries up to and including the current one. 'push' adds one to it. The forward entries that `pushState` discards after a Back are not tracked, so this is not `history.length` in that case.
- `useSwipe` assumes the element exists when the effect runs (`ref.current` non-null). The event listeners stay attached for the element's lifetime.
