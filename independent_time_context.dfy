/**
  A per-view time context of Open MCT (`IndependentTimeContext`). While it
  has an upstream context (the global context, or the independent context of
  an object further up the view's object path) the overridden operations act
  on that upstream context; without one they act on the context's own state.
  The operations the declaration does not override (`stopClock`,
  `isRealTime`, the validations) are those of `base`, the context's own state.
 */
module IndependentTime {
  import opened Wrappers
  import opened Time
  import opened GlobalTime

  /**
    The position on an object path, at `from` or later, of the first object
    whose key is in `owned`, or `|path|` when there is none.
   */
  function FirstOwned(path: seq<string>, owned: set<string>, from: nat): (r: nat)
    requires from <= |path|
    ensures from <= r <= |path|
    ensures r < |path| ==> path[r] in owned
    ensures forall j :: from <= j < r ==> path[j] !in owned
    decreases |path| - from
  {
    if from == |path| then from
    else if path[from] in owned then from
    else FirstOwned(path, owned, from + 1)
  }

  /**
    The upstream of a view: walking its object path past the view itself
    (position 0), the first object that has an independent context of its
    own; the global context when there is none.
   */
  function UpstreamOf(path: seq<string>, owned: map<string, TimeContext>, global: TimeContext): (r: TimeContext)
    ensures r == global || exists i :: 1 <= i < |path| && path[i] in owned && r == owned[path[i]]
    ensures (forall i :: 1 <= i < |path| ==> path[i] !in owned) ==> r == global
    ensures forall i :: 1 <= i < |path| && path[i] in owned ==>
      exists k :: 1 <= k <= i && path[k] in owned && r == owned[path[k]]
  {
    var k := FirstOwned(path, owned.Keys, if |path| == 0 then 0 else 1);
    if k < |path| then owned[path[k]] else global
  }

  class IndependentTimeContext {
    /** The context's own time state (its `TimeContext` part). */
    const base: TimeContext
    const global: GlobalTimeContext
    /** Keys of the objects on the view's path; position 0 is the view itself. */
    const objectPath: seq<string>
    /** `upstreamTimeContext`; `None` when the context has its own state. */
    var upstream: Option<TimeContext>
    /** `unlisteners`: the upstream events currently relayed, one entry per event name. */
    var unlisteners: seq<EventName>

    /** The context the overridden operations act on. */
    function Target(): TimeContext
      reads this
    {
      if upstream.Some? then upstream.value else base
    }

    ghost predicate Valid()
      reads this, base, Target()
    {
      && base.Valid() && Target().Valid()
      && (unlisteners == [] || unlisteners == TimeContextEvents)
      && (unlisteners != [] ==> upstream.Some?)
    }

    /** A new context follows the upstream found on its object path. */
    constructor (globalContext: GlobalTimeContext, path: seq<string>, owned: map<string, TimeContext>)
      requires globalContext.Valid()
      requires forall k :: k in owned ==> owned[k].Valid()
      ensures Valid() && fresh(base)
      ensures global == globalContext && objectPath == path
      ensures upstream == Some(UpstreamOf(path, owned, globalContext.base))
      ensures GetUpstreamContext(owned) == upstream
      ensures unlisteners == TimeContextEvents
      ensures base.boundsVal.None? && base.activeClock.None? && base.offsets.None? && base.events == []
    {
      base := new TimeContext(globalContext.base.timeSystems, globalContext.base.clocks);
      global := globalContext;
      objectPath := path;
      upstream := Some(UpstreamOf(path, owned, globalContext.base));
      unlisteners := TimeContextEvents;
    }

    /** `hasOwnContext`: true exactly when no upstream is followed. */
    function HasOwnContext(): (r: bool)
      reads this
      ensures r <==> Target() == base && upstream.None?
    {
      upstream.None?
    }

    /**
      `getUpstreamContext`: nothing when the context has its own state;
      otherwise the context its object path calls for, given the contexts
      that currently have their own state.
     */
    function GetUpstreamContext(owned: map<string, TimeContext>): (r: Option<TimeContext>)
      reads this
      ensures r.None? <==> HasOwnContext()
      ensures r.Some? ==> r.value == UpstreamOf(objectPath, owned, global.base)
      ensures r.Some? ==> r.value == global.base || exists i :: 1 <= i < |objectPath| && objectPath[i] in owned && r.value == owned[objectPath[i]]
    {
      if upstream.None? then None else Some(UpstreamOf(objectPath, owned, global.base))
    }

    /** `bounds()`: while following, the upstream's bounds; otherwise the own bounds. */
    function CurrentBounds(): (r: Option<Bounds>)
      reads this, Target()
      ensures upstream.Some? ==> r == upstream.value.boundsVal
      ensures upstream.None? ==> r == base.boundsVal
    {
      Target().boundsVal
    }

    /** `clockOffsets()`: while following, the upstream's offsets; otherwise the own offsets. */
    function CurrentClockOffsets(): (r: Option<ClockOffsets>)
      reads this, Target()
      ensures upstream.Some? ==> r == upstream.value.offsets
      ensures upstream.None? ==> r == base.offsets
    {
      Target().offsets
    }

    /** `clock()`: while following, the upstream's active clock; otherwise the own one. */
    function CurrentClock(): (r: Option<Clock>)
      reads this, Target()
      ensures upstream.Some? ==> r == upstream.value.activeClock
      ensures upstream.None? ==> r == base.activeClock
    {
      Target().activeClock
    }

    /** `timeSystem()`: while following, the upstream's time system; otherwise the own one. */
    function CurrentTimeSystem(): (r: Option<TimeSystem>)
      reads this, Target()
      ensures upstream.Some? ==> r == upstream.value.system
      ensures upstream.None? ==> r == base.system
    {
      Target().system
    }

    /**
      `bounds(newBounds)`, applied to the context the overrides act on (the
      upstream while following): the same validation, and on success the same
      new bounds and event; the rest of that context is untouched.
     */
    method SetBounds(newBounds: Bounds) returns (r: Result<Bounds, string>)
      requires Valid()
      modifies Target()
      ensures Valid()
      ensures r.Ok? <==> ValidateBounds(newBounds).valid
      ensures r.Err? ==> r.error == ValidateBounds(newBounds).message && unchanged(Target())
      ensures r.Ok? ==>
        && r.value == newBounds && CurrentBounds() == Some(newBounds)
        && Target().events == old(Target().events) + [BoundsChanged(newBounds, false)]
      ensures CurrentTimeSystem() == old(CurrentTimeSystem()) && CurrentClock() == old(CurrentClock())
      ensures CurrentClockOffsets() == old(CurrentClockOffsets())
      ensures Target().timeSystems == old(Target().timeSystems) && Target().clocks == old(Target().clocks)
    {
      r := Target().SetBounds(newBounds);
    }

    /**
      `tick(timestamp)`, applied to the context the overrides act on: with
      offsets, its bounds follow the timestamp and a tick event fires there;
      without offsets nothing changes. While the global context is followed
      its own `tick` runs, so a time of interest the new bounds leave outside
      is unset, with a time-of-interest event after the bounds event.
     */
    method Tick(timestamp: int)
      requires Valid()
      modifies Target(), global`toi
      ensures Valid()
      ensures old(CurrentClockOffsets()).Some? ==>
        CurrentBounds() == Some(TickBounds(timestamp, old(CurrentClockOffsets()).value))
      ensures old(CurrentClockOffsets()).None? ==> CurrentBounds() == old(CurrentBounds())
      ensures Target().events == old(Target().events)
        + (if old(CurrentClockOffsets()).Some? then [BoundsChanged(TickBounds(timestamp, old(CurrentClockOffsets()).value), true)] else [])
        + (if upstream == Some(global.base) && old(global.toi).Some? && OutsideWindow(old(global.toi).value, CurrentBounds())
           then [TimeOfInterestChanged(None)] else [])
      ensures global.toi ==
        if upstream == Some(global.base) && old(global.toi).Some? && OutsideWindow(old(global.toi).value, CurrentBounds())
        then None else old(global.toi)
      ensures upstream == Some(global.base) && global.toi.Some? && CurrentBounds().Some? ==>
        CurrentBounds().value.start <= global.toi.value <= CurrentBounds().value.end
      ensures CurrentTimeSystem() == old(CurrentTimeSystem()) && CurrentClock() == old(CurrentClock())
      ensures CurrentClockOffsets() == old(CurrentClockOffsets())
      ensures Target().timeSystems == old(Target().timeSystems) && Target().clocks == old(Target().clocks)
    {
      if upstream == Some(global.base) {
        global.Tick(timestamp);
      } else {
        Target().Tick(timestamp);
      }
    }

    /**
      `clockOffsets(offsets)`, applied to the context the overrides act on;
      `now` is the current value of its clock, if one runs.
     */
    method SetClockOffsets(newOffsets: ClockOffsets, now: int) returns (r: Result<ClockOffsets, string>)
      requires Valid()
      modifies Target()
      ensures Valid()
      ensures r.Ok? <==> ValidateOffsets(newOffsets).valid
      ensures r.Err? ==> r.error == ValidateOffsets(newOffsets).message && unchanged(Target())
      ensures r.Ok? ==>
        && r.value == newOffsets && CurrentClockOffsets() == Some(newOffsets)
        && CurrentBounds() == (if old(CurrentClock()).Some? then Some(TickBounds(now, newOffsets)) else old(CurrentBounds()))
        && Target().events == old(Target().events)
             + (if old(CurrentClock()).Some? then [BoundsChanged(TickBounds(now, newOffsets), false)] else [])
             + [ClockOffsetsChanged(newOffsets)]
      ensures CurrentTimeSystem() == old(CurrentTimeSystem()) && CurrentClock() == old(CurrentClock())
      ensures Target().timeSystems == old(Target().timeSystems) && Target().clocks == old(Target().clocks)
    {
      r := Target().SetClockOffsets(newOffsets, now);
    }

    /**
      `timeSystem(timeSystemOrKey, bounds)`, applied to the context the
      overrides act on, resolved against that context's registry.
     */
    method SetTimeSystem(ref: TimeSystemRef, newBounds: Option<Bounds>) returns (r: Result<TimeSystem, string>)
      requires Valid()
      modifies Target()
      ensures Valid()
      ensures r.Ok? <==>
        ResolveTimeSystem(old(Target().timeSystems), ref).Some? && (newBounds.Some? ==> ValidateBounds(newBounds.value).valid)
      ensures r.Err? ==> unchanged(Target())
      ensures r.Ok? ==>
        && r.value == ResolveTimeSystem(old(Target().timeSystems), ref).value && CurrentTimeSystem() == Some(r.value)
        && CurrentBounds() == (if newBounds.Some? then newBounds else old(CurrentBounds()))
        && Target().events == old(Target().events) + [TimeSystemChanged(r.value)]
             + (if newBounds.Some? then [BoundsChanged(newBounds.value, false)] else [])
      ensures CurrentClock() == old(CurrentClock()) && CurrentClockOffsets() == old(CurrentClockOffsets())
      ensures Target().timeSystems == old(Target().timeSystems) && Target().clocks == old(Target().clocks)
    {
      r := Target().SetTimeSystem(ref, newBounds);
    }

    /**
      `clock(keyOrClock, offsets)`, applied to the context the overrides act
      on; `now` is the current value of the new clock.
     */
    method SetClock(ref: ClockRef, newOffsets: ClockOffsets, now: int) returns (r: Result<Clock, string>)
      requires Valid()
      modifies Target()
      ensures Valid()
      ensures r.Ok? <==> ResolveClock(old(Target().clocks), ref).Some? && ValidateOffsets(newOffsets).valid
      ensures r.Err? ==> unchanged(Target())
      ensures r.Ok? ==>
        && r.value == ResolveClock(old(Target().clocks), ref).value
        && CurrentClock() == Some(r.value) && CurrentClockOffsets() == Some(newOffsets)
        && CurrentBounds() == Some(TickBounds(now, newOffsets))
        && Target().events == old(Target().events)
             + [ClockChanged(Some(r.value)), BoundsChanged(TickBounds(now, newOffsets), false), ClockOffsetsChanged(newOffsets)]
      ensures CurrentTimeSystem() == old(CurrentTimeSystem())
      ensures Target().timeSystems == old(Target().timeSystems) && Target().clocks == old(Target().clocks)
    {
      r := Target().SetClock(ref, newOffsets, now);
    }

    /** `timeOfInterest(newTOI)`: the time of interest is held by the global context only. */
    method SetTimeOfInterest(newTOI: Option<int>) returns (r: Option<int>)
      requires global.Valid()
      modifies global`toi, global.base`events
      ensures global.Valid()
      ensures global.toi == newTOI && r == newTOI
      ensures global.base.events == old(global.base.events) + [TimeOfInterestChanged(newTOI)]
    {
      r := global.SetTimeOfInterest(newTOI);
    }

    /**
      The relay installed by `followTimeContext`: an upstream event whose name
      is subscribed to is fired again, unchanged, by this context.
     */
    method Relay(e: TimeEvent)
      requires Valid()
      modifies base`events
      ensures Valid()
      ensures base.events == old(base.events) + (if e.Name() in unlisteners then [e] else [])
      ensures unlisteners != [] && !e.TimeOfInterestChanged? ==> upstream.Some? && base.events == old(base.events) + [e]
    {
      if e.Name() in unlisteners {
        base.events := base.events + [e];
      }
    }

    /** `followTimeContext`: subscribe to every time-context event of the upstream, if there is one. */
    method FollowTimeContext()
      requires Valid()
      modifies this`unlisteners
      ensures Valid()
      ensures unlisteners == if upstream.Some? then TimeContextEvents else []
    {
      unlisteners := [];
      if upstream.Some? {
        unlisteners := TimeContextEvents;
      }
    }

    /**
      `stopFollowingTimeContext`: no upstream event is relayed afterwards, and
      the context keeps the upstream's bounds, offsets, clock and time system
      as its own, so later changes upstream no longer reach it.
     */
    method StopFollowingTimeContext()
      requires Valid()
      modifies this`unlisteners, this`upstream, base`system, base`boundsVal, base`activeClock, base`offsets
      ensures Valid()
      ensures unlisteners == [] && upstream.None? && HasOwnContext() && Target() == base
      ensures forall e: TimeEvent :: e.Name() !in unlisteners
      ensures CurrentBounds() == old(CurrentBounds()) && CurrentClockOffsets() == old(CurrentClockOffsets())
      ensures CurrentClock() == old(CurrentClock()) && CurrentTimeSystem() == old(CurrentTimeSystem())
      ensures base.events == old(base.events)
    {
      var t := Target();
      base.system, base.boundsVal, base.activeClock, base.offsets := t.system, t.boundsVal, t.activeClock, t.offsets;
      unlisteners, upstream := [], None;
    }

    /**
      `resetContext`: the context stops following, and acts on its own
      state, which starts as the last state it followed.
     */
    method ResetContext()
      requires Valid()
      modifies this`unlisteners, this`upstream, base`system, base`boundsVal, base`activeClock, base`offsets
      ensures Valid()
      ensures unlisteners == [] && upstream.None? && HasOwnContext() && Target() == base
      ensures CurrentBounds() == old(CurrentBounds()) && CurrentClockOffsets() == old(CurrentClockOffsets())
      ensures CurrentClock() == old(CurrentClock()) && CurrentTimeSystem() == old(CurrentTimeSystem())
    {
      if upstream.Some? {
        StopFollowingTimeContext();
      }
    }

    /**
      `refreshContext`: follow the upstream the object path now calls for;
      afterwards `getUpstreamContext` reports exactly the context followed.
     */
    method RefreshContext(owned: map<string, TimeContext>)
      requires Valid() && global.Valid()
      requires forall k :: k in owned ==> owned[k].Valid()
      modifies this`unlisteners, this`upstream
      ensures Valid()
      ensures upstream == Some(UpstreamOf(objectPath, owned, global.base))
      ensures GetUpstreamContext(owned) == upstream && !HasOwnContext()
      ensures unlisteners == TimeContextEvents
    {
      upstream := Some(UpstreamOf(objectPath, owned, global.base));
      FollowTimeContext();
    }

    /**
      `removeIndependentContext(viewKey)`: the view `viewKey` no longer has a
      context of its own, so this context follows whatever upstream is left,
      the global context by default.
     */
    method RemoveIndependentContext(viewKey: string, owned: map<string, TimeContext>)
      requires Valid() && global.Valid()
      requires forall k :: k in owned ==> owned[k].Valid()
      modifies this`unlisteners, this`upstream
      ensures Valid()
      ensures upstream == Some(UpstreamOf(objectPath, owned - {viewKey}, global.base))
      ensures (forall i :: 1 <= i < |objectPath| && objectPath[i] != viewKey ==> objectPath[i] !in owned) ==>
        Target() == global.base
      ensures unlisteners == TimeContextEvents
    {
      RefreshContext(owned - {viewKey});
    }
  }
}
