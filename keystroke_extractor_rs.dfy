// The Rust keystroke extractor: a bounded queue of key events, the feature
// snapshot over it, and the cleanup of events older than two windows.

module KeystrokeExtractorRs {
  import opened Common
  import opened KeystrokeFeaturesRs

  /** The queue holds at most this many events. */
  const Capacity: nat := 10000

  /** Cleanup never drops an event of the extraction window, so the features
      are the same before and after it. */
  lemma CleanupKeepsWindow(events: seq<KeyEvent>, now: real, windowSeconds: nat)
    ensures Recent(DropOlder(events, Time, CleanupCutoff(now, windowSeconds)), now - windowSeconds as real)
         == Recent(events, now - windowSeconds as real)
  {
    DropOlderKeeps(events, Time, CleanupCutoff(now, windowSeconds), After(now - windowSeconds as real));
  }

  /** Cleanup removes exactly the leading run of events older than the
      cutoff: what remains is a suffix of the queue that starts, if at all,
      with an event at or after the cutoff. */
  lemma CleanupLeavesSuffix(events: seq<KeyEvent>, now: real, windowSeconds: nat)
    ensures var r := DropOlder(events, Time, CleanupCutoff(now, windowSeconds));
      && |r| <= |events| && r == events[|events| - |r|..]
      && (r != [] ==> r[0].timestamp >= CleanupCutoff(now, windowSeconds))
      && (forall i :: 0 <= i < |events| - |r| ==> events[i].timestamp < CleanupCutoff(now, windowSeconds))
  {
    var k := DropOlderSuffix(events, Time, CleanupCutoff(now, windowSeconds));
  }

  /** `KeystrokeExtractor`. */
  class Extractor {
    var events: seq<KeyEvent>
    const calculator: Calculator
    const windowSeconds: nat
    const updateInterval: nat

    ghost predicate Valid()
      reads this`events
    {
      |events| <= Capacity
    }

    constructor(windowSeconds: nat, updateInterval: nat)
      ensures Valid() && events == []
      ensures this.windowSeconds == windowSeconds && this.updateInterval == updateInterval
      ensures calculator.windowSeconds == windowSeconds
    {
      events := [];
      calculator := new Calculator(windowSeconds);
      this.windowSeconds := windowSeconds;
      this.updateInterval := updateInterval;
    }

    /** `add_event`: drop the oldest event when full, then append. */
    method AddEvent(timestamp: real, key: string, eventType: string)
      requires Valid()
      modifies this`events
      ensures Valid()
      ensures events == DequeAppend(old(events), KeyEvent(timestamp, key, eventType), Capacity)
    {
      if |events| >= Capacity {
        events := events[1..];
      }
      events := events + [KeyEvent(timestamp, key, eventType)];
    }

    /** `extract_features` at wall-clock time `now`. */
    method ExtractFeatures(n: Numerics, now: real) returns (r: Option<map<string, Value>>)
      ensures r == Extract(n, events, now, calculator.windowSeconds)
    {
      r := calculator.ExtractFeatures(n, events, now);
    }

    /** `cleanup_old_events` at wall-clock time `now`. */
    method CleanupOldEvents(now: real)
      requires Valid()
      modifies this`events
      ensures Valid()
      ensures events == DropOlder(old(events), Time, CleanupCutoff(now, windowSeconds))
    {
      var cutoff := CleanupCutoff(now, windowSeconds);
      while events != [] && events[0].timestamp < cutoff
        invariant |events| <= Capacity
        invariant DropOlder(events, Time, cutoff) == DropOlder(old(events), Time, cutoff)
        decreases |events|
      {
        events := events[1..];
      }
    }
  }
}
