// The Rust mouse extractor: a bounded queue of mouse events, the feature
// snapshot over it, and the cleanup of events older than two windows.

module MouseExtractorRs {
  import opened Common
  import opened MouseFeaturesRs

  /** The queue holds at most this many events. */
  const Capacity: nat := 50000

  /** Cleanup never drops an event of the extraction window, so the features
      are the same before and after it. */
  lemma CleanupKeepsWindow(events: seq<MouseEvent>, now: real, windowSeconds: nat)
    ensures Filter(DropOlder(events, Time, CleanupCutoff(now, windowSeconds)), After(now - windowSeconds as real))
         == Filter(events, After(now - windowSeconds as real))
  {
    DropOlderKeeps(events, Time, CleanupCutoff(now, windowSeconds), After(now - windowSeconds as real));
  }

  /** `MouseExtractor`. */
  class Extractor {
    var events: seq<MouseEvent>
    const calculator: Calculator
    const windowSeconds: nat

    ghost predicate Valid()
      reads this`events
    {
      |events| <= Capacity
    }

    constructor(windowSeconds: nat)
      ensures Valid() && events == []
      ensures this.windowSeconds == windowSeconds && calculator.windowSeconds == windowSeconds
    {
      events := [];
      calculator := new Calculator(windowSeconds);
      this.windowSeconds := windowSeconds;
    }

    /** `add_event`: drop the oldest event when full, then append. */
    method AddEvent(timestamp: real, x: Option<real>, y: Option<real>, eventType: string,
                    button: Option<string>, scrollDelta: Option<real>)
      requires Valid()
      modifies this`events
      ensures Valid()
      ensures events == DequeAppend(old(events), MouseEvent(timestamp, x, y, eventType, button, scrollDelta), Capacity)
    {
      if |events| >= Capacity {
        events := events[1..];
      }
      events := events + [MouseEvent(timestamp, x, y, eventType, button, scrollDelta)];
    }

    /** `extract_features` at wall-clock time `now`; the queue is only
        read. */
    method ExtractFeatures(n: Numerics, now: real) returns (r: Outcome)
      ensures r == Extract(n, events, now, calculator.windowSeconds)
    {
      r := calculator.ExtractFeatures(n, events, now);
    }

    /** `cleanup_old_events` at wall-clock time `now`. */
    method CleanupOldEvents(now: real)
      requires Valid()
      modifies this`events
      ensures Valid()
      ensures events == DropOlder(old(events), Time, CleanupCutoff(now, windowSeconds))
    {
      var cutoff := CleanupCutoff(now, windowSeconds);
      while events != [] && events[0].timestamp < cutoff
        invariant |events| <= Capacity
        invariant DropOlder(events, Time, cutoff) == DropOlder(old(events), Time, cutoff)
        decreases |events|
      {
        events := events[1..];
      }
    }
  }
}
