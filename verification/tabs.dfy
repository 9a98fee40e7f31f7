/**
 * The `Tabs` provider (react-fluid-tabs/src/components/Tabs.tsx): the active tab,
 * the order of the known tabs, the swipe direction, the swipe-progress subscribers
 * and the optional synchronisation of the active tab with the browser URL.
 *
 * The URL is an abstract record (`Location`); the decisions taken over it are the
 * pure functions below, and the provider's state changes are the methods of
 * `Provider`, each one React handler or effect run as one atomic step.
 */
module Tabs {
  import opened Wrappers

  // ---------------------------------------------------------------------------
  // Configuration (the props of `Tabs`)
  // ---------------------------------------------------------------------------

  /** `urlMode`: 'none' | 'hash' | 'query'. */
  datatype UrlMode = NoSync | HashMode | QueryMode

  /** `historyMode`: 'push' | 'replace'. */
  datatype HistoryMode = Push | Replace

  /** The swipe direction used for transition styling: 'left' | 'right' | null. */
  datatype Direction = NoDirection | Left | Right

  /**
   * The props that drive the logic. `hasWindow` is `typeof window !== 'undefined'`
   * (false during server-side rendering); `hasOnChange` says whether an `onChange`
   * callback was passed.
   */
  datatype Config = Config(
    defaultValue: string,
    threshold: int,
    gesturesEnabled: bool,
    urlMode: UrlMode,
    urlParam: string,
    updateUrl: bool,
    historyMode: HistoryMode,
    hasWindow: bool,
    hasOnChange: bool)

  /** The prop defaults: threshold 50, gestures on, no URL sync, parameter 'tab', update on, push. */
  function DefaultConfig(defaultValue: string): (r: Config)
    ensures r.defaultValue == defaultValue && r.threshold == 50 && r.gesturesEnabled
    ensures r.urlMode == NoSync && r.urlParam == "tab" && r.updateUrl && r.historyMode == Push
  {
    Config(defaultValue, 50, true, NoSync, "tab", true, Push, true, false)
  }

  /**
   * The part of the browser the provider reads and writes: `location.hash` (with
   * its leading '#', or "" when there is no fragment), the query parameters of
   * `location.search`, and the number of session-history entries up to and
   * including the current one (entries forward of it are not tracked).
   */
  datatype Location = Location(hash: string, query: map<string, string>, historyLength: nat)

  // ---------------------------------------------------------------------------
  // JavaScript helpers
  // ---------------------------------------------------------------------------

  /** `Array.prototype.indexOf`: the first position of `x` in `s`, or -1. */
  function IndexOf<T(==)>(s: seq<T>, x: T): (r: int)
    ensures -1 <= r < |s|
    ensures r == -1 <==> x !in s
    ensures 0 <= r ==> s[r] == x && forall j :: 0 <= j < r ==> s[j] != x
    decreases |s|
  {
    if |s| == 0 then -1
    else if s[0] == x then 0
    else
      var k := IndexOf(s[1..], x);
      if k == -1 then -1 else k + 1
  }

  /** No tab identity occurs twice. */
  predicate Distinct<T(==)>(s: seq<T>)
  {
    forall i, j :: 0 <= i < j < |s| ==> s[i] != s[j]
  }

  /** In a duplicate-free order, `indexOf` of the element at `i` is `i`. */
  lemma IndexOfDistinct<T>(s: seq<T>, i: int)
    requires Distinct(s) && 0 <= i < |s|
    ensures IndexOf(s, s[i]) == i
  {
  }

  /** A string value that JavaScript treats as true: present and not empty. */
  predicate Present(v: Option<string>)
  {
    v.Some? && v.value != ""
  }

  /** `s.slice(1)`. */
  function DropFirst(s: string): string
  {
    if |s| == 0 then s else s[1..]
  }

  /** The value `location.hash` reads back after `url.hash = v`. */
  function HashOf(v: string): string
  {
    if v == "" then "" else "#" + v
  }

  // ---------------------------------------------------------------------------
  // Context access
  // ---------------------------------------------------------------------------

  const ProviderMissing := "useTabs must be used within a TabsProvider"

  /** `useTabs`: the provider's context, or a thrown error when there is none. */
  function UseTabs<C>(context: Option<C>): (r: Result<C, string>)
    ensures r.Failure? <==> context.None?
    ensures r.Failure? ==> r.error == ProviderMissing
    ensures r.Success? ==> r.value == context.value
  {
    match context
    case None => Failure(ProviderMissing)
    case Some(c) => Success(c)
  }

  // ---------------------------------------------------------------------------
  // URL decisions
  // ---------------------------------------------------------------------------

  /** True when the URL is synchronised at all: a window exists and the mode is not 'none'. */
  predicate Syncing(cfg: Config)
  {
    cfg.hasWindow && cfg.urlMode != NoSync
  }

  /**
   * `getTabFromUrl`: the fragment without its '#' (absent when empty) in hash mode,
   * the `urlParam` entry (possibly the empty string) in query mode, absent otherwise.
   */
  function GetTabFromUrl(cfg: Config, loc: Location): (r: Option<string>)
    ensures !Syncing(cfg) ==> r == None
    ensures cfg.urlMode == HashMode && r.Some? ==> r.value != "" && |loc.hash| > 1 && loc.hash[1..] == r.value
    ensures Syncing(cfg) && cfg.urlMode == HashMode ==> r == (if |loc.hash| > 1 then Some(loc.hash[1..]) else None)
    ensures cfg.urlMode == QueryMode && Syncing(cfg) ==>
              (r.Some? <==> cfg.urlParam in loc.query) && (r.Some? ==> r.value == loc.query[cfg.urlParam])
  {
    if !cfg.hasWindow || cfg.urlMode == NoSync then None
    else if cfg.urlMode == HashMode then
      var h := DropFirst(loc.hash);
      if h == "" then None else Some(h)
    else if cfg.urlParam in loc.query then Some(loc.query[cfg.urlParam])
    else None
  }

  /**
   * `getInitialActiveTab`: written in the source as its own case analysis; its
   * contract says it agrees with `getTabFromUrl`, falling back to `defaultValue`
   * when the URL holds no (non-empty) tab.
   */
  function GetInitialActiveTab(cfg: Config, loc: Location): (r: string)
    ensures Present(GetTabFromUrl(cfg, loc)) ==> r == GetTabFromUrl(cfg, loc).value
    ensures !Present(GetTabFromUrl(cfg, loc)) ==> r == cfg.defaultValue
    ensures !Syncing(cfg) ==> r == cfg.defaultValue
  {
    if !cfg.hasWindow || cfg.urlMode == NoSync then cfg.defaultValue
    else if cfg.urlMode == HashMode then
      var hash := DropFirst(loc.hash);
      if hash != "" then hash else cfg.defaultValue
    else
      var urlTab := if cfg.urlParam in loc.query then loc.query[cfg.urlParam] else "";
      if urlTab != "" then urlTab else cfg.defaultValue
  }

  /**
   * `updateUrlWithTab`: nothing without a window, in mode 'none' or with
   * `updateUrl` off; otherwise the fragment (hash mode) or the `urlParam` entry
   * (query mode) is set to `v`, and 'push' adds a history entry where 'replace'
   * does not. Reading the URL back gives `v` (hash mode cannot hold "").
   */
  function WriteUrl(cfg: Config, loc: Location, v: string): (r: Location)
    ensures !Syncing(cfg) || !cfg.updateUrl ==> r == loc
    ensures Syncing(cfg) && cfg.updateUrl ==>
              r.historyLength == loc.historyLength + (if cfg.historyMode == Push then 1 else 0)
    ensures Syncing(cfg) && cfg.updateUrl && cfg.urlMode == QueryMode ==>
              r.hash == loc.hash && r.query.Keys == loc.query.Keys + {cfg.urlParam} &&
              (forall k :: k in loc.query && k != cfg.urlParam ==> r.query[k] == loc.query[k]) &&
              GetTabFromUrl(cfg, r) == Some(v)
    ensures Syncing(cfg) && cfg.updateUrl && cfg.urlMode == HashMode ==>
              r.query == loc.query &&
              GetTabFromUrl(cfg, r) == (if v == "" then None else Some(v))
  {
    if !cfg.hasWindow || cfg.urlMode == NoSync || !cfg.updateUrl then loc
    else
      var written :=
        if cfg.urlMode == HashMode then loc.(hash := HashOf(v))
        else loc.(query := loc.query[cfg.urlParam := v]);
      var entries := if cfg.historyMode == Push then loc.historyLength + 1 else loc.historyLength;
      written.(historyLength := entries)
  }

  /**
   * The direction `setActiveTab(id)` leaves behind: 'right' when `id` comes later
   * in the order than the previous tab and 'left' otherwise, when both are known;
   * unchanged when either is missing from the order.
   */
  function NextDirection(order: seq<string>, prev: string, id: string, dir: Direction): (r: Direction)
    ensures prev !in order || id !in order ==> r == dir
    ensures prev in order && id in order ==>
              (r == Right <==> IndexOf(order, id) > IndexOf(order, prev)) && r != NoDirection
  {
    var prevIndex := IndexOf(order, prev);
    var newIndex := IndexOf(order, id);
    if prevIndex != -1 && newIndex != -1 then
      (if newIndex > prevIndex then Right else Left)
    else dir
  }

  /**
   * The tab a popstate event switches to: the URL's value when it is non-empty,
   * differs from the current tab, and is known (or no tab is known yet). Without a
   * window or in mode 'none' there is no listener.
   */
  function PopStateTarget(cfg: Config, loc: Location, order: seq<string>, active: string): (r: Option<string>)
    ensures r.Some? ==> Syncing(cfg) && r.value != active && r.value != ""
    ensures r.Some? ==> GetTabFromUrl(cfg, loc) == r
    ensures r.Some? && |order| > 0 ==> r.value in order
    ensures r.None? && Syncing(cfg) && Present(GetTabFromUrl(cfg, loc)) ==>
              GetTabFromUrl(cfg, loc).value == active || GetTabFromUrl(cfg, loc).value !in order
    ensures (Syncing(cfg) && Present(GetTabFromUrl(cfg, loc)) && GetTabFromUrl(cfg, loc).value != active &&
             (|order| == 0 || GetTabFromUrl(cfg, loc).value in order))
              ==> r == GetTabFromUrl(cfg, loc)
  {
    if !cfg.hasWindow || cfg.urlMode == NoSync then None
    else
      var urlTab := GetTabFromUrl(cfg, loc);
      if Present(urlTab) && urlTab.value != active && (|order| == 0 || urlTab.value in order)
      then urlTab
      else None
  }

  /**
   * The value the mount-time URL correction hands to `updateUrlWithTab`: the
   * default when the URL names a tab outside a non-empty order, the active tab
   * when the URL names none and `updateUrl` is on, nothing otherwise.
   */
  function MountSyncValue(cfg: Config, loc: Location, order: seq<string>, active: string): (r: Option<string>)
    ensures r.Some? ==> Syncing(cfg)
    ensures r == Some(cfg.defaultValue) || r == Some(active) || r == None
    ensures Syncing(cfg) && Present(GetTabFromUrl(cfg, loc)) ==>
              (r.Some? <==> |order| > 0 && GetTabFromUrl(cfg, loc).value !in order) &&
              (r.Some? ==> r.value == cfg.defaultValue)
    ensures Syncing(cfg) && !Present(GetTabFromUrl(cfg, loc)) ==>
              (r.Some? <==> cfg.updateUrl) && (r.Some? ==> r.value == active)
  {
    if !cfg.hasWindow || cfg.urlMode == NoSync then None
    else
      var urlTab := GetTabFromUrl(cfg, loc);
      if Present(urlTab) then
        (if |order| > 0 && urlTab.value !in order then Some(cfg.defaultValue) else None)
      else if cfg.updateUrl then Some(active)
      else None
  }

  // ---------------------------------------------------------------------------
  // Swipe-progress subscribers
  // ---------------------------------------------------------------------------

  /** A subscribed callback, identified by reference. */
  type CallbackId = nat

  /** One invocation `cb(progress, shouldAnimate)`. */
  datatype Call = Call(callback: CallbackId, progress: real, shouldAnimate: bool)

  /** `Set.prototype.add`: appended at the end unless already present. */
  function Added(s: seq<CallbackId>, cb: CallbackId): (r: seq<CallbackId>)
    ensures Distinct(s) ==> Distinct(r)
    ensures cb in r && forall c :: c in r <==> c in s || c == cb
  {
    if cb in s then s else s + [cb]
  }

  /** `Set.prototype.delete`: the entries other than `cb`, in their order. */
  function Removed(s: seq<CallbackId>, cb: CallbackId): (r: seq<CallbackId>)
    ensures cb !in r
    ensures forall c :: c in r <==> c in s && c != cb
    ensures Distinct(s) ==> Distinct(r)
    ensures |r| <= |s|
  {
    if |s| == 0 then []
    else if s[0] == cb then Removed(s[1..], cb)
    else
      var rest := Removed(s[1..], cb);
      assert Distinct(s) ==> s[0] !in s[1..] && Distinct(s[1..]) by {
        if Distinct(s) {
          forall j | 0 <= j < |s[1..]| ensures s[1..][j] != s[0] { assert s[1..][j] == s[j + 1]; }
        }
      }
      [s[0]] + rest
  }

  /** Subscribing a new callback and calling the returned function restores the subscribers. */
  lemma {:induction false} UnsubscribeUndoesSubscribe(s: seq<CallbackId>, cb: CallbackId)
    requires cb !in s
    ensures Removed(Added(s, cb), cb) == s
  {
    RemovedAbsent(s, cb);
    RemovedAppend(s, [cb], cb);
  }

  lemma {:induction false} RemovedAbsent(s: seq<CallbackId>, cb: CallbackId)
    requires cb !in s
    ensures Removed(s, cb) == s
  {
    if |s| > 0 {
      RemovedAbsent(s[1..], cb);
    }
  }

  lemma {:induction false} RemovedAppend(s: seq<CallbackId>, t: seq<CallbackId>, cb: CallbackId)
    ensures Removed(s + t, cb) == Removed(s, cb) + Removed(t, cb)
  {
    if |s| > 0 {
      assert (s + t)[1..] == s[1..] + t;
      RemovedAppend(s[1..], t, cb);
    } else {
      assert s + t == t;
    }
  }

  // ---------------------------------------------------------------------------
  // The provider's state
  // ---------------------------------------------------------------------------

  class Provider {
    const config: Config
    var activeTab: string
    var direction: Direction
    var tabsOrder: seq<string>
    /** The `isInternalUpdate` ref: raised by popstate so that `setActiveTab` skips the URL write. */
    var isInternalUpdate: bool
    var location: Location
    /** `swipeCallbacks`: a JavaScript Set, kept in insertion order. */
    var swipeCallbacks: seq<CallbackId>
    /** The arguments of every `onChange` call so far. */
    var changes: seq<string>

    /** Between events the internal-update flag is down and the subscribers are a set. */
    ghost predicate Valid()
      reads this
    {
      !isInternalUpdate && Distinct(swipeCallbacks)
    }

    /** First render: the initial tab comes from the URL or `defaultValue`; no tab is known yet. */
    constructor (config: Config, location: Location)
      ensures Valid()
      ensures this.config == config && this.location == location
      ensures activeTab == GetInitialActiveTab(config, location)
      ensures direction == NoDirection && tabsOrder == [] && swipeCallbacks == [] && changes == []
    {
      this.config := config;
      this.location := location;
      activeTab := GetInitialActiveTab(config, location);
      direction := NoDirection;
      tabsOrder := [];
      isInternalUpdate := false;
      swipeCallbacks := [];
      changes := [];
    }

    /** `setTabsOrder`, used by the tab list as its triggers register. */
    method SetTabsOrder(order: seq<string>)
      modifies this`tabsOrder
      ensures tabsOrder == order
    {
      tabsOrder := order;
    }

    /**
     * `setActiveTab(id)`: `id` becomes active, the direction follows the order,
     * the URL is written unless the internal-update flag is up (which is then
     * lowered), and `onChange(id)` is called.
     */
    method SetActiveTab(id: string)
      modifies this`activeTab, this`direction, this`isInternalUpdate, this`location, this`changes
      ensures activeTab == id
      ensures direction == NextDirection(tabsOrder, old(activeTab), id, old(direction))
      ensures location == if old(isInternalUpdate) then old(location) else WriteUrl(config, old(location), id)
      ensures !isInternalUpdate
      ensures changes == old(changes) + (if config.hasOnChange then [id] else [])
    {
      var prevIndex := IndexOf(tabsOrder, activeTab);
      var newIndex := IndexOf(tabsOrder, id);
      if prevIndex != -1 && newIndex != -1 {
        direction := if newIndex > prevIndex then Right else Left;
      }
      activeTab := id;
      if !isInternalUpdate {
        location := WriteUrl(config, location, id);
      } else {
        isInternalUpdate := false;
      }
      if config.hasOnChange {
        changes := changes + [id];
      }
    }

    /**
     * Back/forward navigation: the browser moves to `arrived` and fires popstate;
     * the handler switches to the URL's tab when `PopStateTarget` allows it, without
     * writing the URL back.
     */
    method HandlePopState(arrived: Location)
      requires Valid()
      modifies this`activeTab, this`direction, this`isInternalUpdate, this`location, this`changes
      ensures Valid()
      ensures location == arrived
      ensures activeTab == match PopStateTarget(config, arrived, tabsOrder, old(activeTab))
                           case Some(t) => t
                           case None => old(activeTab)
      ensures direction == match PopStateTarget(config, arrived, tabsOrder, old(activeTab))
                           case Some(t) => NextDirection(tabsOrder, old(activeTab), t, old(direction))
                           case None => old(direction)
      ensures changes == match PopStateTarget(config, arrived, tabsOrder, old(activeTab))
                         case Some(t) => old(changes) + (if config.hasOnChange then [t] else [])
                         case None => old(changes)
    {
      location := arrived;
      if !config.hasWindow || config.urlMode == NoSync {
        return;
      }
      var urlTab := GetTabFromUrl(config, location);
      if Present(urlTab) && urlTab.value != activeTab {
        var isValidTab := |tabsOrder| == 0 || urlTab.value in tabsOrder;
        if isValidTab {
          isInternalUpdate := true;
          SetActiveTab(urlTab.value);
        }
      }
    }

    /**
     * The URL-sync effect: writes the default over an unknown URL tab, or the active
     * tab into a URL that names none; the active tab itself never changes.
     */
    method SyncUrl()
      modifies this`location
      ensures location == match MountSyncValue(config, old(location), tabsOrder, activeTab)
                          case Some(v) => WriteUrl(config, old(location), v)
                          case None => old(location)
    {
      if !config.hasWindow || config.urlMode == NoSync {
        return;
      }
      var urlTab := GetTabFromUrl(config, location);
      if Present(urlTab) {
        if |tabsOrder| > 0 {
          var isValidTab := urlTab.value in tabsOrder;
          if !isValidTab {
            location := WriteUrl(config, location, config.defaultValue);
          }
        }
      } else if config.updateUrl {
        location := WriteUrl(config, location, activeTab);
      }
    }

    /** `subscribeSwipe(cb)`: adds `cb`; `Unsubscribe(cb)` is the function it returns. */
    method Subscribe(cb: CallbackId)
      requires Valid()
      modifies this`swipeCallbacks
      ensures Valid()
      ensures swipeCallbacks == Added(old(swipeCallbacks), cb)
    {
      if cb !in swipeCallbacks {
        swipeCallbacks := swipeCallbacks + [cb];
      }
    }

    /** The unsubscribe function returned by `subscribeSwipe(cb)`. */
    method Unsubscribe(cb: CallbackId)
      requires Valid()
      modifies this`swipeCallbacks
      ensures Valid()
      ensures swipeCallbacks == Removed(old(swipeCallbacks), cb)
    {
      swipeCallbacks := Removed(swipeCallbacks, cb);
    }

    /**
     * `notifySwipe(progress, shouldAnimate = false)`: every subscriber is called
     * once, in subscription order, with the same two arguments.
     */
    method NotifySwipe(progress: real, shouldAnimate: bool := false) returns (calls: seq<Call>)
      ensures |calls| == |swipeCallbacks|
      ensures forall i :: 0 <= i < |calls| ==>
                calls[i] == Call(swipeCallbacks[i], progress, shouldAnimate)
    {
      calls := [];
      for i := 0 to |swipeCallbacks|
        invariant |calls| == i
        invariant forall k :: 0 <= k < i ==> calls[k] == Call(swipeCallbacks[k], progress, shouldAnimate)
      {
        calls := calls + [Call(swipeCallbacks[i], progress, shouldAnimate)];
      }
    }
  }

  /**
   * A client: selecting tab `x` programmatically, then reading the active tab and
   * the URL back, gives `x` on both (hash mode cannot hold the empty tab).
   */
  method SelectThenRead(cfg: Config, loc: Location, x: string) returns (active: string, fromUrl: Option<string>)
    ensures active == x
    ensures Syncing(cfg) && cfg.updateUrl && (cfg.urlMode == QueryMode || x != "") ==> fromUrl == Some(x)
    ensures !cfg.updateUrl ==> fromUrl == GetTabFromUrl(cfg, loc)
  {
    var provider := new Provider(cfg, loc);
    provider.SetActiveTab(x);
    active := provider.activeTab;
    fromUrl := GetTabFromUrl(cfg, provider.location);
  }

  /**
   * A client: back/forward navigation to a URL naming another known tab switches
   * to it and leaves the history as the browser left it.
   */
  method NavigateBack(cfg: Config, start: Location, arrived: Location, order: seq<string>) returns (active: string, entries: nat)
    requires Syncing(cfg) && Present(GetTabFromUrl(cfg, arrived))
    requires GetTabFromUrl(cfg, arrived).value in order
    requires GetTabFromUrl(cfg, arrived).value != GetInitialActiveTab(cfg, start)
    ensures active == GetTabFromUrl(cfg, arrived).value
    ensures entries == arrived.historyLength
  {
    var provider := new Provider(cfg, start);
    provider.SetTabsOrder(order);
    provider.HandlePopState(arrived);
    active := provider.activeTab;
    entries := provider.location.historyLength;
  }

  // ---------------------------------------------------------------------------
  // Properties
  // ---------------------------------------------------------------------------

  /** With the default props there is no URL sync: the initial tab is `defaultValue` and nothing is written. */
  lemma DefaultsDoNotSync(defaultValue: string, loc: Location, order: seq<string>, active: string, v: string)
    ensures !Syncing(DefaultConfig(defaultValue))
    ensures DefaultConfig(defaultValue).threshold == 50 && DefaultConfig(defaultValue).gesturesEnabled
    ensures GetInitialActiveTab(DefaultConfig(defaultValue), loc) == defaultValue
    ensures WriteUrl(DefaultConfig(defaultValue), loc, v) == loc
    ensures PopStateTarget(DefaultConfig(defaultValue), loc, order, active) == None
    ensures MountSyncValue(DefaultConfig(defaultValue), loc, order, active) == None
  {
  }

  /** Writing a tab and reading the URL back in query mode gives that tab. */
  lemma QueryRoundTrip(cfg: Config, loc: Location, v: string)
    requires cfg.hasWindow && cfg.urlMode == QueryMode && cfg.updateUrl
    ensures GetTabFromUrl(cfg, WriteUrl(cfg, loc, v)) == Some(v)
    ensures GetInitialActiveTab(cfg, WriteUrl(cfg, loc, v)) == if v == "" then cfg.defaultValue else v
  {
  }

  /** Re-selecting the active (known) tab sets the direction to 'left'. */
  lemma ReselectGoesLeft(order: seq<string>, t: string, dir: Direction)
    requires t in order
    ensures NextDirection(order, t, t, dir) == Left
  {
  }

  /** Once tabs are known, a popstate with a new, non-empty URL tab switches exactly when that tab is known. */
  lemma PopStateTargetIsKnown(cfg: Config, loc: Location, order: seq<string>, active: string)
    requires Syncing(cfg) && |order| > 0
    requires Present(GetTabFromUrl(cfg, loc)) && GetTabFromUrl(cfg, loc).value != active
    ensures PopStateTarget(cfg, loc, order, active).Some? <==> GetTabFromUrl(cfg, loc).value in order
  {
  }

  /** Loading with `#t` in hash mode yields `t` as the initial tab; `#` alone or no fragment yields the default. */
  lemma HashInitialTab(cfg: Config, loc: Location, t: string)
    requires cfg.hasWindow && cfg.urlMode == HashMode
    ensures loc.hash == "#" + t && t != "" ==> GetInitialActiveTab(cfg, loc) == t
    ensures |loc.hash| <= 1 ==> GetInitialActiveTab(cfg, loc) == cfg.defaultValue
  {
    if loc.hash == "#" + t && t != "" {
      assert DropFirst(loc.hash) == t;
    }
  }

  /**
   * Loading with an unknown tab in hash mode: the initial tab is the unknown value,
   * and the mount-time correction writes the default into the URL.
   */
  lemma UnknownHashCorrected(cfg: Config, loc: Location, order: seq<string>, t: string)
    requires cfg.hasWindow && cfg.urlMode == HashMode
    requires loc.hash == "#" + t && t != "" && |order| > 0 && t !in order
    ensures GetInitialActiveTab(cfg, loc) == t
    ensures MountSyncValue(cfg, loc, order, GetInitialActiveTab(cfg, loc)) == Some(cfg.defaultValue)
  {
    assert DropFirst(loc.hash) == t;
  }
}
