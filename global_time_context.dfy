/**
  The application-wide time context of Open MCT (`GlobalTimeContext`): a time
  context that also holds the time of interest.
 */
module GlobalTime {
  import opened Wrappers
  import opened Time

  /** A time lies outside the bounds, when there are bounds (`undefined` bounds compare false). */
  predicate OutsideWindow(t: int, b: Option<Bounds>) {
    b.Some? && (t < b.value.start || t > b.value.end)
  }

  class GlobalTimeContext {
    /** The time context state this context shares with every other context. */
    const base: TimeContext
    /** `toi`: the time of interest; `None` when it is unset. */
    var toi: Option<int>

    ghost predicate Valid()
      reads this, base
    {
      base.Valid()
    }

    constructor (systems: map<string, TimeSystem>, clockRegistry: map<string, Clock>)
      ensures Valid() && fresh(base) && toi.None?
      ensures base.timeSystems == systems && base.clocks == clockRegistry
      ensures base.system.None? && base.boundsVal.None? && base.activeClock.None? && base.offsets.None?
      ensures base.events == []
    {
      base := new TimeContext(systems, clockRegistry);
      toi := None;
    }

    /** `timeOfInterest()`: reading the time of interest changes nothing. */
    function TimeOfInterest(): Option<int>
      reads this
    {
      toi
    }

    /**
      `timeOfInterest(newTOI)`: the time of interest becomes `newTOI` (`None`
      unsets it), a time-of-interest event is fired and the new value is returned.
     */
    method SetTimeOfInterest(newTOI: Option<int>) returns (r: Option<int>)
      requires Valid()
      modifies this`toi, base`events
      ensures Valid()
      ensures toi == newTOI && r == newTOI && TimeOfInterest() == newTOI
      ensures base.events == old(base.events) + [TimeOfInterestChanged(newTOI)]
    {
      toi := newTOI;
      base.events := base.events + [TimeOfInterestChanged(newTOI)];
      r := toi;
    }

    /**
      The private `tick`: bounds are recomputed from the timestamp and the
      current offsets, and a time of interest that the new bounds leave
      outside is unset, with a time-of-interest event after the bounds event.
     */
    method Tick(timestamp: int)
      requires Valid()
      modifies this`toi, base
      ensures Valid()
      ensures old(base.offsets).Some? ==> base.boundsVal == Some(TickBounds(timestamp, old(base.offsets).value))
      ensures old(base.offsets).None? ==> base.boundsVal == old(base.boundsVal)
      ensures toi == if old(toi).Some? && OutsideWindow(old(toi).value, base.boundsVal) then None else old(toi)
      ensures base.events == old(base.events)
        + (if old(base.offsets).Some? then [BoundsChanged(base.boundsVal.value, true)] else [])
        + (if old(toi).Some? && OutsideWindow(old(toi).value, base.boundsVal) then [TimeOfInterestChanged(None)] else [])
      ensures toi.Some? && base.boundsVal.Some? ==> base.boundsVal.value.start <= toi.value <= base.boundsVal.value.end
      ensures base.system == old(base.system) && base.activeClock == old(base.activeClock)
      ensures base.offsets == old(base.offsets)
      ensures base.timeSystems == old(base.timeSystems) && base.clocks == old(base.clocks)
    {
      base.Tick(timestamp);
      if toi.Some? && OutsideWindow(toi.value, base.boundsVal) {
        var _ := SetTimeOfInterest(None);
      }
    }
  }
}
