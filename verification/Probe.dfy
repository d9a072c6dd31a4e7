/**
 `createSingleFlightProbe`: waiting for a browser-side probe can be given up, the probe
 cannot; while one is out there no other is started.
*/
module Probes {
  import opened Wire

  /** How the race between the probe and its timer went. */
  datatype Race<T> = Answered(value: T) | Rejected | TimerFirst

  datatype ProbeResult<T> = Value(value: T) | TimedOut | Skipped | Failed

  class SingleFlightProbe {
    var inFlight: Option<nat>       // the probe the closure remembers, by number
    var launched: nat
    ghost var unsettled: set<nat>   // probes whose browser-side work has not settled

    /** At most one probe's work is out, and the closure knows which. */
    ghost predicate Valid()
      reads this
    {
      && unsettled == (if inFlight.Some? then {inFlight.value} else {})
      && (inFlight.Some? ==> inFlight.value < launched)
    }

    constructor ()
      ensures Valid() && inFlight.None? && launched == 0
    {
      inFlight, launched, unsettled := None, 0, {};
    }

    /** The browser-side work of a probe ends, whether or not anyone still waits for it. */
    method Settle(probe: nat)
      requires Valid() && probe in unsettled
      modifies this
      ensures Valid() && unsettled == old(unsettled) - {probe} && inFlight.None? && launched == old(launched)
    {
      if inFlight == Some(probe) {
        inFlight := None;
      }
      unsettled := unsettled - {probe};
    }

    /** One call: skipped if and only if earlier work is still out, and given up on without
        ending it when the timer comes first. `race` decides what the browser does. */
    method Run<T>(budget: nat, race: Race<T>) returns (r: ProbeResult<T>)
      requires Valid()
      modifies this
      ensures Valid() && |unsettled| <= 1
      ensures r.Skipped? <==> old(inFlight).Some?
      ensures old(inFlight).Some? ==> inFlight == old(inFlight) && launched == old(launched)
      ensures old(inFlight).None? && budget == 0 ==> r.TimedOut? && inFlight.None? && launched == old(launched)
      ensures old(inFlight).None? && budget > 0 ==>
        && launched == old(launched) + 1
        && r == (match race case Answered(v) => Value(v) case Rejected => Failed case TimerFirst => TimedOut)
        && inFlight == if race.TimerFirst? then Some(old(launched)) else None
    {
      if inFlight.Some? {
        return Skipped;
      }
      if budget == 0 {
        return TimedOut;
      }
      var current := launched;
      launched := launched + 1;
      inFlight := Some(current);
      unsettled := unsettled + {current};
      match race
      case Answered(value) =>
        Settle(current);
        r := Value(value);
      case Rejected =>
        Settle(current);
        r := Failed;
      case TimerFirst =>
        r := TimedOut;
    }
  }
}
