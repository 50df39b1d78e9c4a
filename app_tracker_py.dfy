/** The application usage tracker of the Python pipeline. On every switch
    of the foreground application it counts the (from, to) transition,
    records how long the previous application stayed in front, counts the
    hour of day of the switch per application and keeps the last 1000
    switches. From those tables it derives transition and hour-of-day
    probabilities and an anomaly score for a sequence of applications.

    The time-series store and the publisher are write sinks that may raise:
    `writeRaises` and `publishRaises` say whether they do, and the records
    they accepted are kept in `stored` and `published`. The developer-mode
    flag and the wall clock's hour are parameters. */
module AppTrackerPy {
  import opened Common
  import opened CountTables

  const RecentCapacity: nat := 1000
  const MicrosPerSecond: real := 1000000.0
  const MicrosPerHour: int := 3600000000
  /** The smoothing floor applied to every probability of the anomaly score. */
  const ProbabilityFloor: real := 0.01

  /** An entry of `recent_events`. */
  datatype RecentEvent = RecentEvent(app: string, timestamp: real, hour: int, devMode: bool)

  /** What a transition writes to the time-series store and publishes. */
  datatype TransitionRecord = TransitionRecord(fromApp: string, toApp: string, durationMs: int, timestamp: real)

  /** `datetime.fromtimestamp(ts / 1e6, tz=timezone.utc).hour` for a
      timestamp in microseconds. */
  function HourOfMicros(ts: int): (h: int)
    ensures 0 <= h < 24
  {
    (ts / MicrosPerHour) % 24
  }

  /** `ts / 1_000_000`: microseconds to seconds. */
  function Seconds(ts: int): real
  {
    ts as real / MicrosPerSecond
  }

  /** The record of a switch from `from` to `to` after `duration` seconds,
      with `int(duration * 1000)` milliseconds. */
  function Record(from: string, to: string, duration: real, timestamp: real): TransitionRecord
  {
    TransitionRecord(from, to, Trunc(duration * 1000.0), timestamp)
  }

  /** A log after an attempt to add `r` to it; an attempt that raised
      leaves it as it was. */
  function Logged(log: seq<TransitionRecord>, r: TransitionRecord, raised: bool): seq<TransitionRecord>
  {
    if raised then log else log + [r]
  }

  /** A switch records a transition when some application was in front and
      the new one differs from it. */
  predicate Switches(current: Option<string>, newApp: string)
  {
    current.Some? && current.value != newApp
  }

  /** The probability of the sequence: the product over adjacent pairs of
      the transition probability, each floored at 0.01. */
  function SequenceProbability(t: seq<(Pair, nat)>, s: seq<string>): real
  {
    if |s| < 2 then 1.0
    else SequenceProbability(t, s[..|s| - 1])
         * MaxR(TransitionProbability(t, s[|s| - 2], s[|s| - 1]), ProbabilityFloor)
  }

  lemma ProductInUnit(a: real, b: real)
    requires 0.0 < a <= 1.0 && 0.0 < b <= 1.0
    ensures 0.0 < a * b <= 1.0
  {
    assert a * b <= a * 1.0;
  }

  lemma {:induction false} SequenceProbabilityBounds(t: seq<(Pair, nat)>, s: seq<string>)
    ensures 0.0 < SequenceProbability(t, s) <= 1.0
  {
    if |s| >= 2 {
      SequenceProbabilityBounds(t, s[..|s| - 1]);
      TransitionProbabilityBounds(t, s[|s| - 2], s[|s| - 1]);
      var prefix := SequenceProbability(t, s[..|s| - 1]);
      var factor := MaxR(TransitionProbability(t, s[|s| - 2], s[|s| - 1]), ProbabilityFloor);
      ProductInUnit(prefix, factor);
    }
  }

  /** `(sequence_prob * time_prob) ** (1 / len)`. */
  function Combined(n: Numerics, sequenceProb: real, timeProb: real, len: nat): real
    requires len > 0
  {
    n.pow(sequenceProb * timeProb, 1.0 / len as real)
  }

  /** `calculate_anomaly_score`: 0 for fewer than two applications, else one
      minus the `len(seq)`-th root of the sequence probability times the
      floored probability of the last application at `hour`, capped at 1. */
  function AnomalyScore(n: Numerics, t: seq<(Pair, nat)>, p: seq<(string, seq<(int, nat)>)>,
                        s: seq<string>, hour: int): real
  {
    if |s| < 2 then 0.0
    else
      var timeProb := MaxR(HourProbability(p, s[|s| - 1], hour), ProbabilityFloor);
      var combined := Combined(n, SequenceProbability(t, s), timeProb, |s|);
      MinR(1.0 - combined, 1.0)
  }

  /** A power routine that keeps a probability a probability. */
  ghost predicate PowKeepsUnit(n: Numerics)
  {
    forall x, e :: 0.0 < x <= 1.0 && 0.0 < e ==> 0.0 <= n.pow(x, e) <= 1.0
  }

  /** The anomaly score never exceeds 1, is 0 for a sequence shorter than
      two, and is not negative when the power routine behaves. */
  lemma AnomalyScoreBounds(n: Numerics, t: seq<(Pair, nat)>, p: seq<(string, seq<(int, nat)>)>,
                           s: seq<string>, hour: int)
    ensures AnomalyScore(n, t, p, s, hour) <= 1.0
    ensures |s| < 2 ==> AnomalyScore(n, t, p, s, hour) == 0.0
    ensures PowKeepsUnit(n) ==> 0.0 <= AnomalyScore(n, t, p, s, hour)
  {
    if |s| >= 2 && PowKeepsUnit(n) {
      SequenceProbabilityBounds(t, s);
      HourProbabilityBounds(p, s[|s| - 1], hour);
      var timeProb := MaxR(HourProbability(p, s[|s| - 1], hour), ProbabilityFloor);
      var x := SequenceProbability(t, s) * timeProb;
      ProductInUnit(SequenceProbability(t, s), timeProb);
      assert 0.0 <= Combined(n, SequenceProbability(t, s), timeProb, |s|) <= 1.0;
    }
  }

  class Tracker {
    /** (from, to) -> number of switches. */
    var transitions: seq<(Pair, nat)>
    /** application -> seconds it stayed in front, one per switch away from it. */
    var durations: seq<(string, seq<real>)>
    /** application -> hour of day -> number of switches to it. */
    var timePatterns: seq<(string, seq<(int, nat)>)>
    var currentApp: Option<string>
    /** When `currentApp` came to the front, in seconds. */
    var currentStart: Option<real>
    var recentEvents: seq<RecentEvent>
    /** Transitions the time-series store accepted. */
    var stored: seq<TransitionRecord>
    /** Transitions published after a successful store. */
    var published: seq<TransitionRecord>

    /** The tables are dictionaries with positive counts, the recent events
        fit their deque, a current application has a start time, and every
        switch away from an application left one duration and one transition
        out of it. */
    ghost predicate Valid()
      reads this`transitions, this`durations, this`timePatterns, this`currentApp,
            this`currentStart, this`recentEvents
    {
      && TablesOk(transitions, durations)
      && RowsWellFormed(timePatterns)
      && |recentEvents| <= RecentCapacity
      && (currentApp.Some? ==> currentStart.Some?)
    }

    constructor()
      ensures Valid()
      ensures transitions == [] && durations == [] && timePatterns == []
      ensures currentApp == None && currentStart == None && recentEvents == []
      ensures stored == [] && published == []
    {
      transitions := [];
      durations := [];
      timePatterns := [];
      currentApp := None;
      currentStart := None;
      recentEvents := [];
      stored := [];
      published := [];
    }

    /** `_handle_app_switch` for an event naming `newApp` at `ts`
        microseconds. A failing store or publish is caught: it only stops
        the steps after it within the same `try`. */
    method HandleAppSwitch(newApp: string, ts: int, devActive: bool, writeRaises: bool, publishRaises: bool)
      requires Valid()
      modifies this`transitions, this`durations, this`timePatterns, this`currentApp,
               this`currentStart, this`recentEvents, this`stored, this`published
      ensures Valid()
      ensures currentApp == Some(newApp) && currentStart == Some(Seconds(ts))
      ensures timePatterns == IncrementIn(old(timePatterns), newApp, HourOfMicros(ts))
      ensures recentEvents == DequeAppend(old(recentEvents),
                RecentEvent(newApp, Seconds(ts), HourOfMicros(ts), devActive), RecentCapacity)
      ensures !Switches(old(currentApp), newApp) ==>
                transitions == old(transitions) && durations == old(durations)
                && stored == old(stored) && published == old(published)
      ensures Switches(old(currentApp), newApp) ==>
                var from := old(currentApp).value;
                var duration := Seconds(ts) - old(currentStart).value;
                var record := Record(from, newApp, duration, Seconds(ts));
                && transitions == Increment(old(transitions), (from, newApp))
                && durations == AppendAt(old(durations), from, duration)
                && stored == Logged(old(stored), record, writeRaises)
                && published == Logged(old(published), record, writeRaises || publishRaises)
    {
      var timestamp := Seconds(ts);
      var hour := HourOfMicros(ts);
      if currentApp.Some? && currentApp.value != newApp {
        var from := currentApp.value;
        var duration := timestamp - currentStart.value;
        RecordTransition(from, newApp, duration, timestamp, writeRaises, publishRaises);
        ghost var t, d, s, p := transitions, durations, stored, published;
        EnterApp(newApp, timestamp, hour, devActive);
        assert transitions == t && durations == d && stored == s && published == p;
      } else {
        EnterApp(newApp, timestamp, hour, devActive);
      }
    }

    /** The part of `_handle_app_switch` that runs on every event: the new
        application becomes current, its hour is counted and the event is
        kept among the recent ones. */
    method EnterApp(app: string, timestamp: real, hour: int, devActive: bool)
      requires Valid()
      modifies this`currentApp, this`currentStart, this`timePatterns, this`recentEvents
      ensures Valid()
      ensures currentApp == Some(app) && currentStart == Some(timestamp)
      ensures timePatterns == IncrementIn(old(timePatterns), app, hour)
      ensures recentEvents == DequeAppend(old(recentEvents), RecentEvent(app, timestamp, hour, devActive), RecentCapacity)
    {
      currentApp := Some(app);
      currentStart := Some(timestamp);
      IncrementInKeepsRows(timePatterns, app, hour);
      timePatterns := IncrementIn(timePatterns, app, hour);
      recentEvents := DequeAppend(recentEvents, RecentEvent(app, timestamp, hour, devActive), RecentCapacity);
    }

    /** The part of `_handle_app_switch` that runs on an actual switch away
        from `from` after `duration` seconds. */
    method RecordTransition(from: string, to: string, duration: real, timestamp: real,
                            writeRaises: bool, publishRaises: bool)
      requires Valid()
      modifies this`transitions, this`durations, this`stored, this`published
      ensures Valid()
      ensures var record := Record(from, to, duration, timestamp);
              && transitions == Increment(old(transitions), (from, to))
              && durations == AppendAt(old(durations), from, duration)
              && stored == Logged(old(stored), record, writeRaises)
              && published == Logged(old(published), record, writeRaises || publishRaises)
    {
      RecordKeepsTables(transitions, durations, from, to, duration);
      durations := AppendAt(durations, from, duration);
      transitions := Increment(transitions, (from, to));
      var record := Record(from, to, duration, timestamp);
      if !writeRaises {
        stored := stored + [record];
        if !publishRaises {
          published := published + [record];
        }
      }
    }

    /** `_calculate_transition_matrix`: row totals first, then each
        transition's count over its row total under its `"from->to"` name. */
    method CalculateTransitionMatrix() returns (probs: map<string, real>)
      ensures probs == Matrix(transitions)
    {
      var totals := RowTotals(transitions);
      probs := DivideByTotals(transitions, totals);
    }

    /** The first loop: the number of transitions leaving each application. */
    static method RowTotals(t: seq<(Pair, nat)>) returns (totals: map<string, nat>)
      ensures forall f :: Get0(totals, f) == RowTotal(t, f)
    {
      totals := map[];
      var i := 0;
      while i < |t|
        invariant 0 <= i <= |t|
        invariant forall f :: Get0(totals, f) == RowTotal(t[..i], f)
      {
        ghost var before := totals;
        totals := totals[t[i].0.0 := Get0(totals, t[i].0.0) + t[i].1];
        forall f
          ensures Get0(totals, f) == RowTotal(t[..i + 1], f)
        {
          assert Get0(totals, f) == Get0(before, f) + (if t[i].0.0 == f then t[i].1 else 0);
          RowTotalSnoc(t, i, f);
        }
        i := i + 1;
      }
      assert t[..i] == t;
    }

    /** The second loop: each count over the total of its row. */
    static method DivideByTotals(t: seq<(Pair, nat)>, totals: map<string, nat>) returns (probs: map<string, real>)
      requires forall f :: Get0(totals, f) == RowTotal(t, f)
      ensures probs == Matrix(t)
    {
      ghost var named := NamedEntries(t);
      probs := map[];
      var i := 0;
      while i < |t|
        invariant 0 <= i <= |t|
        invariant probs == Keyed(named[..i])
      {
        var total := Get0(totals, t[i].0.0);
        assert named[i] == (PairName(t[i].0), Probability(t[i].1, total));
        KeyedSnoc(named, i);
        probs := probs[PairName(t[i].0) := Probability(t[i].1, total)];
        i := i + 1;
      }
      assert named[..i] == named;
    }

    /** `_calculate_time_preferences`: each application's hour counts over
        the application's total. */
    method CalculateTimePreferences() returns (prefs: map<string, map<int, real>>)
      ensures prefs == TimePreferences(timePatterns)
    {
      var p := timePatterns;
      ghost var named := seq(|p|, k requires 0 <= k < |p| => (p[k].0, HourMap(p[k].1)));
      prefs := map[];
      var i := 0;
      while i < |p|
        invariant 0 <= i <= |p|
        invariant prefs == Keyed(named[..i])
      {
        KeyedSnoc(named, i);
        prefs := prefs[p[i].0 := HourMap(p[i].1)];
        i := i + 1;
      }
      assert named[..i] == named;
    }

    /** `get_time_probability`. Reading `time_patterns[app]` on the
        `defaultdict` creates an empty row for an unknown application. */
    method TimeProbability(app: string, hour: int) returns (r: real)
      requires Valid()
      modifies this`timePatterns
      ensures Valid()
      ensures timePatterns == Touch(old(timePatterns), app)
      ensures r == HourProbability(old(timePatterns), app, hour)
      ensures 0.0 <= r <= 1.0
    {
      TouchKeepsRows(timePatterns, app);
      HourProbabilityBounds(timePatterns, app, hour);
      r := HourProbability(timePatterns, app, hour);
      timePatterns := Touch(timePatterns, app);
    }

    /** The product loop of `calculate_anomaly_score`. */
    method CalculateSequenceProbability(s: seq<string>) returns (sequenceProb: real)
      requires |s| >= 2
      ensures sequenceProb == SequenceProbability(transitions, s)
    {
      sequenceProb := 1.0;
      var i := 0;
      while i < |s| - 1
        invariant 0 <= i <= |s| - 1
        invariant sequenceProb == SequenceProbability(transitions, s[..i + 1])
      {
        var prob := TransitionProbability(transitions, s[i], s[i + 1]);
        prob := MaxR(prob, ProbabilityFloor);
        sequenceProb := sequenceProb * prob;
        assert s[..i + 2][..i + 1] == s[..i + 1];
        i := i + 1;
      }
      assert s[..i + 1] == s;
    }

    /** `calculate_anomaly_score` for `s` with the wall clock at `nowHour`;
        `n.pow` is the fractional power. */
    method CalculateAnomalyScore(n: Numerics, s: seq<string>, nowHour: int) returns (score: real)
      requires Valid()
      modifies this`timePatterns
      ensures Valid()
      ensures score == AnomalyScore(n, transitions, old(timePatterns), s, nowHour)
      ensures timePatterns == if |s| < 2 then old(timePatterns) else Touch(old(timePatterns), s[|s| - 1])
    {
      if |s| < 2 {
        return 0.0;
      }
      ghost var before := timePatterns;
      var sequenceProb := CalculateSequenceProbability(s);
      var hourProb := TimeProbability(s[|s| - 1], nowHour);
      var timeProb := MaxR(hourProb, ProbabilityFloor);
      var combined := Combined(n, sequenceProb, timeProb, |s|);
      var anomaly := 1.0 - combined;
      score := MinR(anomaly, 1.0);
    }
  }
}
