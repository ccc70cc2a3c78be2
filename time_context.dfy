/**
  The time context of Open MCT (`TimeContext`): the applied time system, the
  current bounds, the active clock and the clock offsets, with the validation
  of bounds and offsets and the events the context fires.

  Numbers are integers here; the time units are those of the time system.
 */
module Time {
  import opened Wrappers

  /** A time window `{start, end}`. */
  datatype Bounds = Bounds(start: int, end: int)

  /** Offsets of the window from the clock's "now": `start` must be < 0, `end` >= 0. */
  datatype ClockOffsets = ClockOffsets(start: int, end: int)

  /** `{valid, message}`; the message explains an invalid input. */
  datatype ValidationResult = ValidationResult(valid: bool, message: string)

  /** A registered time system; `key` names the datum field that holds its time value. */
  datatype TimeSystem = TimeSystem(key: string, isUTCBased: bool)

  /** A registered tick source. */
  datatype Clock = Clock(key: string)

  /** The first argument of `timeSystem`: a key, or a time system object. */
  datatype TimeSystemRef = SystemKey(key: string) | SystemObject(system: TimeSystem) {
    function Key(): string { if SystemKey? then key else system.key }
  }

  /** The first argument of `clock`: a key, or a clock object. */
  datatype ClockRef = ClockKey(key: string) | ClockObject(clock: Clock) {
    function Key(): string { if ClockKey? then key else clock.key }
  }

  /** The names of the events a time context fires. */
  datatype EventName = BoundsEvent | TimeSystemEvent | ClockEvent | ClockOffsetsEvent | TimeOfInterestEvent

  /** An event fired by a time context, with its payload. */
  datatype TimeEvent =
    | BoundsChanged(bounds: Bounds, isTick: bool)
    | TimeSystemChanged(system: TimeSystem)
    | ClockChanged(clock: Option<Clock>)
    | ClockOffsetsChanged(offsets: ClockOffsets)
    | TimeOfInterestChanged(toi: Option<int>)
  {
    function Name(): EventName {
      match this
      case BoundsChanged(_, _) => BoundsEvent
      case TimeSystemChanged(_) => TimeSystemEvent
      case ClockChanged(_) => ClockEvent
      case ClockOffsetsChanged(_) => ClockOffsetsEvent
      case TimeOfInterestChanged(_) => TimeOfInterestEvent
    }
  }

  /** `TIME_CONTEXT_EVENTS`: the events an independent context relays from its upstream. */
  const TimeContextEvents: seq<EventName> := [BoundsEvent, TimeSystemEvent, ClockEvent, ClockOffsetsEvent]

  const InvalidBoundsMessage: string := "Specified start date exceeds end bound"
  const InvalidOffsetsMessage: string := "Clock offsets must have start < 0 and end >= 0"
  const UnknownTimeSystemMessage: string := "Unknown time system"
  const UnknownClockMessage: string := "Unknown clock"

  /** `validateBounds`: a window is valid when it does not end before it starts. */
  function ValidateBounds(b: Bounds): (r: ValidationResult)
    ensures r.valid <==> b.start <= b.end
    ensures !r.valid ==> r.message != ""
  {
    if b.start <= b.end then ValidationResult(true, "")
    else ValidationResult(false, InvalidBoundsMessage)
  }

  /** `validateOffsets`: the start offset must be negative and the end offset not negative. */
  function ValidateOffsets(o: ClockOffsets): (r: ValidationResult)
    ensures r.valid <==> o.start < 0 && 0 <= o.end
    ensures !r.valid ==> r.message != ""
  {
    if o.start < 0 && 0 <= o.end then ValidationResult(true, "")
    else ValidationResult(false, InvalidOffsetsMessage)
  }

  /** The bounds a tick at `timestamp` derives from the offsets. */
  function TickBounds(timestamp: int, o: ClockOffsets): Bounds {
    Bounds(timestamp + o.start, timestamp + o.end)
  }

  /** A tick under valid offsets yields valid bounds of the offsets' width that contain the tick. */
  lemma TickBoundsValid(timestamp: int, o: ClockOffsets)
    requires ValidateOffsets(o).valid
    ensures ValidateBounds(TickBounds(timestamp, o)).valid
    ensures TickBounds(timestamp, o).end - TickBounds(timestamp, o).start == o.end - o.start
    ensures TickBounds(timestamp, o).start < timestamp <= TickBounds(timestamp, o).end
  {
  }

  /** Looks a time system reference up in the registry. */
  function ResolveTimeSystem(systems: map<string, TimeSystem>, ref: TimeSystemRef): (r: Option<TimeSystem>)
    ensures r.Some? <==> ref.Key() in systems
    ensures r.Some? && ref.SystemKey? ==> r.value == systems[ref.key]
    ensures r.Some? && ref.SystemObject? ==> r.value == ref.system
  {
    match ref
    case SystemKey(k) => if k in systems then Some(systems[k]) else None
    case SystemObject(s) => if s.key in systems then Some(s) else None
  }

  /** Looks a clock reference up in the registry. */
  function ResolveClock(clocks: map<string, Clock>, ref: ClockRef): (r: Option<Clock>)
    ensures r.Some? <==> ref.Key() in clocks
    ensures r.Some? && ref.ClockKey? ==> r.value == clocks[ref.key]
    ensures r.Some? && ref.ClockObject? ==> r.value == ref.clock
  {
    match ref
    case ClockKey(k) => if k in clocks then Some(clocks[k]) else None
    case ClockObject(c) => if c.key in clocks then Some(c) else None
  }

  class TimeContext {
    /** Registered time systems and clocks, by key. */
    var timeSystems: map<string, TimeSystem>
    var clocks: map<string, Clock>
    /** The applied time system, if any. */
    var system: Option<TimeSystem>
    /** `boundsVal`; `None` is the initial `{start: undefined, end: undefined}`. */
    var boundsVal: Option<Bounds>
    var activeClock: Option<Clock>
    var offsets: Option<ClockOffsets>
    /** Every event fired so far, oldest first. */
    var events: seq<TimeEvent>

    /** The context never holds invalid bounds or offsets, and ticks only with offsets. */
    ghost predicate Valid()
      reads this
    {
      && (boundsVal.Some? ==> ValidateBounds(boundsVal.value).valid)
      && (offsets.Some? ==> ValidateOffsets(offsets.value).valid)
      && (activeClock.Some? ==> offsets.Some?)
    }

    constructor (systems: map<string, TimeSystem>, clockRegistry: map<string, Clock>)
      ensures Valid()
      ensures timeSystems == systems && clocks == clockRegistry
      ensures system.None? && boundsVal.None? && activeClock.None? && offsets.None? && events == []
    {
      timeSystems, clocks := systems, clockRegistry;
      system, boundsVal, activeClock, offsets := None, None, None, None;
      events := [];
    }

    /** `isRealTime`: the context is ticking exactly when a clock is active. */
    function IsRealTime(): (r: bool)
      reads this
      ensures r <==> activeClock != None
    {
      activeClock.Some?
    }

    /**
      `tick`: the bounds become the timestamp plus the current offsets, and a
      bounds event tagged as a tick is fired. Without offsets nothing changes.
     */
    method Tick(timestamp: int)
      requires Valid()
      modifies this
      ensures Valid()
      ensures old(offsets).Some? ==>
        && boundsVal == Some(TickBounds(timestamp, old(offsets).value))
        && boundsVal.value.end - boundsVal.value.start == old(offsets).value.end - old(offsets).value.start
        && events == old(events) + [BoundsChanged(boundsVal.value, true)]
      ensures old(offsets).None? ==> boundsVal == old(boundsVal) && events == old(events)
      ensures system == old(system) && activeClock == old(activeClock) && offsets == old(offsets)
      ensures timeSystems == old(timeSystems) && clocks == old(clocks)
    {
      if offsets.Some? {
        TickBoundsValid(timestamp, offsets.value);
        var b := TickBounds(timestamp, offsets.value);
        boundsVal := Some(b);
        events := events + [BoundsChanged(b, true)];
      }
    }

    /**
      `bounds(newBounds)`: invalid bounds are rejected with the validation
      message and change nothing; valid bounds are applied and announced as a
      bounds event that is not a tick.
     */
    method SetBounds(newBounds: Bounds) returns (r: Result<Bounds, string>)
      requires Valid()
      modifies this
      ensures Valid()
      ensures r.Ok? <==> ValidateBounds(newBounds).valid
      ensures r.Err? ==> r.error == ValidateBounds(newBounds).message && unchanged(this)
      ensures r.Ok? ==>
        && r.value == newBounds && boundsVal == Some(newBounds)
        && events == old(events) + [BoundsChanged(newBounds, false)]
      ensures system == old(system) && activeClock == old(activeClock) && offsets == old(offsets)
      ensures timeSystems == old(timeSystems) && clocks == old(clocks)
    {
      var v := ValidateBounds(newBounds);
      if !v.valid {
        return Err(v.message);
      }
      boundsVal := Some(newBounds);
      events := events + [BoundsChanged(newBounds, false)];
      r := Ok(newBounds);
    }

    /**
      `timeSystem(timeSystemOrKey, bounds)`: the system must be registered and
      the bounds, when given, valid; otherwise nothing changes. On success the
      system and the bounds are applied together and the applied system is returned.
     */
    method SetTimeSystem(ref: TimeSystemRef, newBounds: Option<Bounds>) returns (r: Result<TimeSystem, string>)
      requires Valid()
      modifies this
      ensures Valid()
      ensures r.Ok? <==>
        ResolveTimeSystem(old(timeSystems), ref).Some? && (newBounds.Some? ==> ValidateBounds(newBounds.value).valid)
      ensures r.Err? ==> unchanged(this)
      ensures r.Ok? ==>
        && r.value == ResolveTimeSystem(old(timeSystems), ref).value && system == Some(r.value)
        && boundsVal == (if newBounds.Some? then newBounds else old(boundsVal))
        && events == old(events) + [TimeSystemChanged(r.value)]
                            + (if newBounds.Some? then [BoundsChanged(newBounds.value, false)] else [])
      ensures activeClock == old(activeClock) && offsets == old(offsets)
      ensures timeSystems == old(timeSystems) && clocks == old(clocks)
    {
      var s := ResolveTimeSystem(timeSystems, ref);
      if s.None? {
        return Err(UnknownTimeSystemMessage);
      }
      if newBounds.Some? && !ValidateBounds(newBounds.value).valid {
        return Err(ValidateBounds(newBounds.value).message);
      }
      system := s;
      events := events + [TimeSystemChanged(s.value)];
      if newBounds.Some? {
        boundsVal := newBounds;
        events := events + [BoundsChanged(newBounds.value, false)];
      }
      r := Ok(s.value);
    }

    /**
      `clockOffsets(offsets)`: invalid offsets are rejected and change nothing;
      valid ones become the offsets later ticks use. With a clock running, the
      bounds are recomputed at once from `now`, the clock's current value, and
      announced before the new offsets are.
     */
    method SetClockOffsets(newOffsets: ClockOffsets, now: int) returns (r: Result<ClockOffsets, string>)
      requires Valid()
      modifies this
      ensures Valid()
      ensures r.Ok? <==> ValidateOffsets(newOffsets).valid
      ensures r.Err? ==> r.error == ValidateOffsets(newOffsets).message && unchanged(this)
      ensures r.Ok? ==>
        && r.value == newOffsets && offsets == Some(newOffsets)
        && boundsVal == (if old(activeClock).Some? then Some(TickBounds(now, newOffsets)) else old(boundsVal))
        && events == old(events)
                     + (if old(activeClock).Some? then [BoundsChanged(TickBounds(now, newOffsets), false)] else [])
                     + [ClockOffsetsChanged(newOffsets)]
      ensures r.Err? ==> boundsVal == old(boundsVal)
      ensures system == old(system) && activeClock == old(activeClock)
      ensures timeSystems == old(timeSystems) && clocks == old(clocks)
    {
      var v := ValidateOffsets(newOffsets);
      if !v.valid {
        return Err(v.message);
      }
      offsets := Some(newOffsets);
      if activeClock.Some? {
        TickBoundsValid(now, newOffsets);
        var b := TickBounds(now, newOffsets);
        boundsVal := Some(b);
        events := events + [BoundsChanged(b, false)];
      }
      events := events + [ClockOffsetsChanged(newOffsets)];
      r := Ok(newOffsets);
    }

    /**
      `stopClock`: the context leaves real-time mode; the bounds stay frozen at
      their last value.
     */
    method StopClock()
      requires Valid()
      modifies this
      ensures Valid()
      ensures activeClock.None? && !IsRealTime()
      ensures events == old(events) + [ClockChanged(None)]
      ensures system == old(system) && boundsVal == old(boundsVal) && offsets == old(offsets)
      ensures timeSystems == old(timeSystems) && clocks == old(clocks)
    {
      activeClock := None;
      events := events + [ClockChanged(None)];
    }

    /**
      `clock(keyOrClock, offsets)`: the clock must be registered and the
      offsets valid; otherwise nothing changes. On success the clock becomes
      active, announced first, and the offsets are applied as `clockOffsets`
      applies them: the bounds are set at once from `now`, the new clock's
      current value, so the context is in real-time mode with a window that
      contains `now`.
     */
    method SetClock(ref: ClockRef, newOffsets: ClockOffsets, now: int) returns (r: Result<Clock, string>)
      requires Valid()
      modifies this
      ensures Valid()
      ensures r.Ok? <==> ResolveClock(old(clocks), ref).Some? && ValidateOffsets(newOffsets).valid
      ensures r.Err? ==> unchanged(this)
      ensures r.Ok? ==>
        && r.value == ResolveClock(old(clocks), ref).value
        && activeClock == Some(r.value) && IsRealTime()
        && offsets == Some(newOffsets)
        && boundsVal == Some(TickBounds(now, newOffsets))
        && boundsVal.value.start < now <= boundsVal.value.end
        && events == old(events) + [ClockChanged(Some(r.value)), BoundsChanged(TickBounds(now, newOffsets), false),
                                    ClockOffsetsChanged(newOffsets)]
      ensures system == old(system)
      ensures timeSystems == old(timeSystems) && clocks == old(clocks)
    {
      var c := ResolveClock(clocks, ref);
      if c.None? {
        return Err(UnknownClockMessage);
      }
      var v := ValidateOffsets(newOffsets);
      if !v.valid {
        return Err(v.message);
      }
      TickBoundsValid(now, newOffsets);
      var b := TickBounds(now, newOffsets);
      activeClock, offsets, boundsVal := c, Some(newOffsets), Some(b);
      events := events + [ClockChanged(c), BoundsChanged(b, false), ClockOffsetsChanged(newOffsets)];
      r := Ok(c.value);
    }
  }
}
