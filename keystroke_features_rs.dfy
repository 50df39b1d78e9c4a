// The Rust keystroke feature calculator: dwell and flight times, the twenty
// shortest press-to-press gaps, correction ratios, typing rhythm and the
// statistics helpers behind them.

module KeystrokeFeaturesRs {
  import opened Common

  const MinEvents: nat := 10
  const DigraphSlots: nat := 20
  const DwellLimit: real := 1000.0
  const FlightLimit: real := 2000.0
  const IntervalLimit: real := 5000.0

  /** A buffered key event; `eventType` is `"press"` or `"release"`. */
  datatype KeyEvent = KeyEvent(timestamp: real, key: string, eventType: string)

  predicate IsPress(e: KeyEvent) { e.eventType == "press" }

  predicate IsRelease(e: KeyEvent) { e.eventType == "release" }

  /** A press of a key whose name contains `BackSpace` or `Delete`. */
  predicate IsCorrection(e: KeyEvent)
  {
    IsPress(e) && (Contains(e.key, "BackSpace") || Contains(e.key, "Delete"))
  }

  function Time(e: KeyEvent): real { e.timestamp }

  function After(cutoff: real): KeyEvent -> bool
  {
    (e: KeyEvent) => e.timestamp > cutoff
  }

  /** The events of the window: timestamp strictly after the cutoff. */
  function Recent(events: seq<KeyEvent>, cutoff: real): seq<KeyEvent>
  {
    Filter(events, After(cutoff))
  }

  // ---------------------------------------------------------------------
  // Statistics helpers

  /** `variance.sqrt()`; the square root is not modelled. */
  function StdDev(n: Numerics, s: seq<real>): real
    requires s != []
  {
    n.sqrt(Variance(s))
  }

  /** Position `min(len * p / 100, len - 1)` of a sorted copy. */
  function PercentileIndex(len: nat, p: nat): (i: nat)
    requires len > 0
    ensures i < len
  {
    var i := len * p / 100;
    if i < len - 1 then i else len - 1
  }

  function Percentile(s: seq<real>, p: nat): real
    requires s != []
  {
    SortReals(s)[PercentileIndex(|s|, p)]
  }

  /** Percentiles lie within the sample and grow with `p`. */
  lemma PercentileIndexMonotone(len: nat, p: nat, q: nat)
    requires len > 0 && p <= q
    ensures PercentileIndex(len, p) <= PercentileIndex(len, q)
  {
    assert len * p <= len * q by {
      assert len * q == len * p + len * (q - p);
    }
  }

  lemma PercentileOrder(s: seq<real>, p: nat, q: nat)
    requires s != [] && p <= q
    ensures SeqMin(s) <= Percentile(s, p) <= Percentile(s, q) <= SeqMax(s)
  {
    var i, j := PercentileIndex(|s|, p), PercentileIndex(|s|, q);
    PercentileIndexMonotone(|s|, p, q);
    SortRealsSorted(s);
    SortedWithin(s, i);
    SortedWithin(s, j);
  }

  /** The eight summary statistics of a non-empty sample. */
  datatype Description = Description(mean: real, std: real, min: real, max: real,
                                     median: real, q25: real, q75: real, range: real)

  function Describe(n: Numerics, xs: seq<real>): Description
    requires xs != []
  {
    Description(Mean(xs), StdDev(n, xs), SeqMin(xs), SeqMax(xs), Median(xs),
                Percentile(xs, 25), Percentile(xs, 75), SeqMax(xs) - SeqMin(xs))
  }

  /** Minimum, quartiles, median, mean and maximum are ordered as the names
      say, and the range is their non-negative spread. */
  lemma DescribeOrder(n: Numerics, xs: seq<real>)
    requires xs != []
    ensures var d := Describe(n, xs);
      && d.min <= d.q25 <= d.q75 <= d.max
      && d.min <= d.median <= d.max
      && d.min <= d.mean <= d.max
      && d.range == d.max - d.min >= 0.0
  {
    PercentileOrder(xs, 25, 75);
    MedianWithin(xs);
    MeanBounds(xs, SeqMin(xs), SeqMax(xs));
  }

  function Stats(prefix: string, d: Description): map<string, Value>
  {
    map[prefix + "_mean" := Num(d.mean), prefix + "_std" := Num(d.std), prefix + "_min" := Num(d.min),
        prefix + "_max" := Num(d.max), prefix + "_median" := Num(d.median), prefix + "_q25" := Num(d.q25),
        prefix + "_q75" := Num(d.q75), prefix + "_range" := Num(d.range)]
  }

  // ---------------------------------------------------------------------
  // Dwell times (`calculate_dwell_times`)

  /** The pending presses by key and the dwell times so far. */
  datatype DwellState = DwellState(pressed: map<string, real>, times: seq<real>)

  function DwellStep(st: DwellState, e: KeyEvent): DwellState
  {
    if IsPress(e) then st.(pressed := st.pressed[e.key := e.timestamp])
    else if IsRelease(e) && e.key in st.pressed then
      var dwell := (e.timestamp - st.pressed[e.key]) * 1000.0;
      DwellState(st.pressed - {e.key}, if 0.0 < dwell < DwellLimit then st.times + [dwell] else st.times)
    else st
  }

  function DwellFold(events: seq<KeyEvent>): DwellState
  {
    if events == [] then DwellState(map[], [])
    else DwellStep(DwellFold(events[..|events| - 1]), events[|events| - 1])
  }

  function DwellTimes(events: seq<KeyEvent>): seq<real>
  {
    DwellFold(events).times
  }

  /** Every dwell time lies in (0, 1000) ms, and each comes from a distinct
      release. */
  lemma {:induction false} DwellTimesBounds(events: seq<KeyEvent>)
    ensures forall i :: 0 <= i < |DwellTimes(events)| ==> 0.0 < DwellTimes(events)[i] < DwellLimit
    ensures |DwellTimes(events)| <= Count(events, IsRelease)
  {
    if events != [] {
      var init, last := events[..|events| - 1], events[|events| - 1];
      DwellTimesBounds(init);
      assert events == init + [last];
      FilterAppend(init, [last], IsRelease);
    }
  }

  /** The latest event of key `k` among `events` is a press at time `t`. */
  ghost predicate LatestIsPress(events: seq<KeyEvent>, k: string, t: real)
  {
    exists i :: 0 <= i < |events| && events[i] == KeyEvent(t, k, "press")
      && forall j :: i < j < |events| ==> events[j].key != k || !(IsPress(events[j]) || IsRelease(events[j]))
  }

  /** A key is pending exactly with the time of its latest press, when no
      release of it followed; a release therefore pairs with the latest
      press of its key and clears it. */
  lemma {:induction false} PendingIsLatestPress(events: seq<KeyEvent>, k: string)
    ensures k in DwellFold(events).pressed ==> LatestIsPress(events, k, DwellFold(events).pressed[k])
  {
    if events != [] {
      var init, last := events[..|events| - 1], events[|events| - 1];
      var st := DwellFold(init);
      PendingIsLatestPress(init, k);
      var now := DwellFold(events).pressed;
      if k in now {
        if last.key == k && IsPress(last) {
          assert events[|events| - 1] == KeyEvent(now[k], k, "press");
        } else {
          assert k in st.pressed && now[k] == st.pressed[k];
          var i :| 0 <= i < |init| && init[i] == KeyEvent(now[k], k, "press")
                   && forall j :: i < j < |init| ==> init[j].key != k || !(IsPress(init[j]) || IsRelease(init[j]));
          assert events[i] == init[i];
          forall j | i < j < |events|
            ensures events[j].key != k || !(IsPress(events[j]) || IsRelease(events[j]))
          {
            if j < |init| {
              assert events[j] == init[j];
            }
          }
        }
      }
    }
  }

  lemma ReleaseClears(events: seq<KeyEvent>, e: KeyEvent)
    requires IsRelease(e)
    ensures e.key !in DwellFold(events + [e]).pressed
  {
    assert (events + [e])[..|events|] == events;
  }

  method CalculateDwellTimes(events: seq<KeyEvent>) returns (times: seq<real>)
    ensures times == DwellTimes(events)
  {
    times := [];
    var keyPresses: map<string, real> := map[];
    var i := 0;
    while i < |events|
      invariant 0 <= i <= |events|
      invariant DwellState(keyPresses, times) == DwellFold(events[..i])
    {
      var e := events[i];
      assert events[..i + 1][..i] == events[..i];
      if IsPress(e) {
        keyPresses := keyPresses[e.key := e.timestamp];
      } else if IsRelease(e) {
        if e.key in keyPresses {
          var dwell := (e.timestamp - keyPresses[e.key]) * 1000.0;
          if 0.0 < dwell < DwellLimit {
            times := times + [dwell];
          }
          keyPresses := keyPresses - {e.key};
        }
      }
      i := i + 1;
    }
    assert events[..i] == events;
  }

  // ---------------------------------------------------------------------
  // Press-to-press gaps (flight times, digraphs, rhythm intervals)

  function PressTimes(events: seq<KeyEvent>): seq<real>
  {
    Map(Filter(events, IsPress), Time)
  }

  /** The gaps `(p[i+1] - p[i]) * 1000` for `i < n` that lie in (0, limit). */
  function GapsUpTo(p: seq<real>, n: nat, limit: real): seq<real>
    requires n < |p| || n == 0
  {
    if n == 0 then []
    else
      var gap := (p[n] - p[n - 1]) * 1000.0;
      GapsUpTo(p, n - 1, limit) + (if 0.0 < gap < limit then [gap] else [])
  }

  /** `for i in 0..p.len().saturating_sub(1)`. */
  function Gaps(p: seq<real>, limit: real): seq<real>
  {
    if |p| < 2 then [] else GapsUpTo(p, |p| - 1, limit)
  }

  lemma {:induction false} GapsUpToBounds(p: seq<real>, n: nat, limit: real)
    requires n < |p| || n == 0
    ensures |GapsUpTo(p, n, limit)| <= n
    ensures forall i :: 0 <= i < |GapsUpTo(p, n, limit)| ==> 0.0 < GapsUpTo(p, n, limit)[i] < limit
  {
    if n > 0 {
      GapsUpToBounds(p, n - 1, limit);
    }
  }

  /** Gaps lie in (0, limit), at most one per adjacent pair of presses. */
  lemma GapsBounds(p: seq<real>, limit: real)
    ensures |Gaps(p, limit)| <= if |p| < 2 then 0 else |p| - 1
    ensures forall i :: 0 <= i < |Gaps(p, limit)| ==> 0.0 < Gaps(p, limit)[i] < limit
  {
    if |p| >= 2 {
      GapsUpToBounds(p, |p| - 1, limit);
    }
  }

  function Under(limit: real): real -> bool
  {
    (x: real) => x < limit
  }

  lemma {:induction false} GapsUpToNarrow(p: seq<real>, n: nat, small: real, large: real)
    requires n < |p| || n == 0
    requires small <= large
    ensures GapsUpTo(p, n, small) == Filter(GapsUpTo(p, n, large), Under(small))
  {
    if n > 0 {
      GapsUpToNarrow(p, n - 1, small, large);
      var gap := (p[n] - p[n - 1]) * 1000.0;
      var tail := if 0.0 < gap < large then [gap] else [];
      FilterAppend(GapsUpTo(p, n - 1, large), tail, Under(small));
    }
  }

  /** The flight times are exactly the rhythm intervals under two seconds,
      in the same order. */
  lemma FlightsAreShortIntervals(events: seq<KeyEvent>)
    ensures Gaps(PressTimes(events), FlightLimit) == Filter(Gaps(PressTimes(events), IntervalLimit), Under(FlightLimit))
  {
    var p := PressTimes(events);
    if |p| >= 2 {
      GapsUpToNarrow(p, |p| - 1, FlightLimit, IntervalLimit);
    }
  }

  function FlightTimes(events: seq<KeyEvent>): seq<real>
  {
    Gaps(PressTimes(events), FlightLimit)
  }

  /** The loop shared by `calculate_flight_times`, `calculate_digraphs` and
      `calculate_rhythm` over the press timestamps. */
  method CalculateGaps(presses: seq<real>, limit: real) returns (times: seq<real>)
    ensures times == Gaps(presses, limit)
  {
    times := [];
    if |presses| < 2 {
      return;
    }
    var i := 0;
    while i < |presses| - 1
      invariant 0 <= i <= |presses| - 1
      invariant times == GapsUpTo(presses, i, limit)
    {
      var gap := (presses[i + 1] - presses[i]) * 1000.0;
      if 0.0 < gap < limit {
        times := times + [gap];
      }
      i := i + 1;
    }
  }

  // ---------------------------------------------------------------------
  // Digraphs (`calculate_digraphs`)

  /** The gaps sorted ascending and truncated to twenty. */
  function Digraphs(events: seq<KeyEvent>): seq<real>
  {
    TakeAtMost(SortReals(FlightTimes(events)), DigraphSlots)
  }

  /** `iter().take(n)`. */
  function TakeAtMost(s: seq<real>, n: nat): seq<real>
  {
    if |s| <= n then s else s[..n]
  }

  /** The digraphs are the (at most) twenty shortest flight times, in
      ascending order: no flight time left out is shorter than one kept. */
  lemma DigraphsShortest(events: seq<KeyEvent>)
    ensures var d, f := Digraphs(events), FlightTimes(events);
      && |d| == (if |f| < DigraphSlots then |f| else DigraphSlots)
      && (forall i, j :: 0 <= i < j < |d| ==> d[i] <= d[j])
      && (forall i, j :: 0 <= i < |d| <= j < |f| ==> d[i] <= SortReals(f)[j])
      && multiset(d) <= multiset(f)
  {
    var f := FlightTimes(events);
    var sorted := SortReals(f);
    SortRealsSorted(f);
    SortedPrefix(sorted, DigraphSlots);
  }

  /** The first `n` elements of an ascending sequence are ascending, no later
      element is smaller, and they are drawn from it. */
  lemma SortedPrefix(s: seq<real>, n: nat)
    requires forall i, j :: 0 <= i < j < |s| ==> s[i] <= s[j]
    ensures var d := TakeAtMost(s, n);
      && |d| == (if |s| < n then |s| else n)
      && (forall i, j :: 0 <= i < j < |d| ==> d[i] <= d[j])
      && (forall i, j :: 0 <= i < |d| <= j < |s| ==> d[i] <= s[j])
      && multiset(d) <= multiset(s)
  {
    if |s| > n {
      assert s == s[..n] + s[n..];
    }
  }

  /** Each digraph is a flight time, hence in (0, 2000) ms. */
  lemma DigraphsAreFlights(events: seq<KeyEvent>)
    ensures forall i :: 0 <= i < |Digraphs(events)| ==>
              Digraphs(events)[i] in FlightTimes(events) && 0.0 < Digraphs(events)[i] < FlightLimit
  {
    var f := FlightTimes(events);
    var sorted := SortReals(f);
    GapsBounds(PressTimes(events), FlightLimit);
    forall i | 0 <= i < |Digraphs(events)|
      ensures Digraphs(events)[i] in f && 0.0 < Digraphs(events)[i] < FlightLimit
    {
      assert Digraphs(events)[i] == sorted[i];
      assert sorted[i] in multiset(sorted);
    }
  }

  function Slot(d: seq<real>, i: nat): Value
  {
    if i < |d| then Num(d[i]) else Num(0.0)
  }

  /** `digraph_0_mean` .. `digraph_19_mean`, zero beyond the digraphs. */
  function DigraphFeatures(d: seq<real>): map<string, Value>
  {
    IndexedMap("digraph_", "_mean", seq(DigraphSlots, i requires 0 <= i < DigraphSlots => Slot(d, i)))
  }

  lemma DigraphFeaturesShape(d: seq<real>)
    ensures DigraphFeatures(d).Keys == IndexedNames("digraph_", "_mean", DigraphSlots)
    ensures forall i :: 0 <= i < DigraphSlots ==>
              DigraphFeatures(d)["digraph_" + NatToString(i) + "_mean"] == (if i < |d| then Num(d[i]) else Num(0.0))
  {
  }

  method CalculateDigraphs(events: seq<KeyEvent>) returns (digraphs: seq<real>)
    ensures digraphs == Digraphs(events)
  {
    var times := CalculateGaps(PressTimes(events), FlightLimit);
    var sorted := SortReals(times);
    digraphs := if |sorted| <= DigraphSlots then sorted else sorted[..DigraphSlots];
  }

  // ---------------------------------------------------------------------
  // Corrections (`calculate_error_patterns`)

  function ErrorMap(total: nat, corrections: nat): map<string, Value>
    requires corrections <= total
  {
    map["backspace_frequency" := Num(Fraction(corrections, total)),
        "backspace_count" := Num(corrections as real),
        "correction_rate" := Num(Fraction(corrections, total - corrections)),
        "clean_typing_ratio" := Num(Fraction(total - corrections, total))]
  }

  lemma CorrectionsArePresses(events: seq<KeyEvent>)
    ensures Count(events, IsCorrection) <= Count(events, IsPress)
  {
    FilterMonotone(events, IsCorrection, IsPress);
  }

  function ErrorFeatures(events: seq<KeyEvent>): map<string, Value>
  {
    CorrectionsArePresses(events);
    ErrorMap(Count(events, IsPress), Count(events, IsCorrection))
  }

  function ErrorKeys(): set<string>
  {
    {"backspace_frequency", "backspace_count", "correction_rate", "clean_typing_ratio"}
  }

  /** With at least one press, the correction frequency and the clean-typing
      ratio are complementary fractions; with none, both are 0. */
  lemma ErrorRatios(events: seq<KeyEvent>)
    ensures var m := ErrorFeatures(events);
      && m.Keys == ErrorKeys()
      && 0.0 <= m["backspace_frequency"].r <= 1.0
      && 0.0 <= m["clean_typing_ratio"].r <= 1.0
      && (Count(events, IsPress) > 0 ==> m["backspace_frequency"].r + m["clean_typing_ratio"].r == 1.0)
      && (Count(events, IsPress) == 0 ==> m["backspace_frequency"].r == 0.0 == m["clean_typing_ratio"].r)
  {
    CorrectionsArePresses(events);
    FractionsComplement(Count(events, IsCorrection), Count(events, IsPress));
  }

  // ---------------------------------------------------------------------
  // Rhythm (`calculate_rhythm`)

  function RhythmKeys(): set<string>
  {
    {"rhythm_consistency", "burst_frequency", "pause_frequency", "avg_burst_speed",
     "avg_pause_duration", "rhythm_variation", "typing_speed_wpm", "rhythm_stability"}
  }

  function AtLeast(t: real): real -> bool
  {
    (x: real) => x >= t
  }

  /** Intervals shorter than the median (bursts) and the rest (pauses). */
  function Bursts(iv: seq<real>): seq<real>
    requires iv != []
  {
    Filter(iv, Under(Median(iv)))
  }

  function Pauses(iv: seq<real>): seq<real>
    requires iv != []
  {
    Filter(iv, AtLeast(Median(iv)))
  }

  /** The eight rhythm features of a non-empty interval list. */
  function RhythmOf(n: Numerics, iv: seq<real>): map<string, Value>
    requires iv != []
  {
    var bursts, pauses := Bursts(iv), Pauses(iv);
    var std := StdDev(n, iv);
    map["rhythm_consistency" := Num(1.0 - std / MaxR(Mean(iv), 1.0)),
        "burst_frequency" := Num(|bursts| as real / |iv| as real),
        "pause_frequency" := Num(|pauses| as real / |iv| as real),
        "avg_burst_speed" := Num(if bursts == [] then 0.0 else Mean(bursts)),
        "avg_pause_duration" := Num(if pauses == [] then 0.0 else Mean(pauses)),
        "rhythm_variation" := Num(std),
        "typing_speed_wpm" := Num(60000.0 / MaxR(Mean(iv), 1.0) / 5.0),
        "rhythm_stability" := Num(1.0 / (1.0 + Variance(iv)))]
  }

  function Intervals(events: seq<KeyEvent>): seq<real>
  {
    Gaps(PressTimes(events), IntervalLimit)
  }

  function RhythmFeatures(n: Numerics, events: seq<KeyEvent>): map<string, Value>
  {
    var iv := Intervals(events);
    if iv == [] then ConstIndexed("rhythm_", "", 8, Num(0.0)) else RhythmOf(n, iv)
  }

  /** Bursts and pauses split the intervals, and since the largest interval
      is never below the median, there is always a pause. */
  lemma BurstsAndPauses(iv: seq<real>)
    requires iv != []
    ensures |Bursts(iv)| + |Pauses(iv)| == |iv|
    ensures |Pauses(iv)| > 0
  {
    var threshold := Median(iv);
    FilterPartition(iv, Under(threshold), AtLeast(threshold));
    MedianWithin(iv);
    var k :| 0 <= k < |iv| && iv[k] == SeqMax(iv);
    FilterCountsWitness(iv, AtLeast(threshold), k);
  }

  lemma Shares(bursts: nat, pauses: nat)
    requires pauses > 0
    ensures var len := (bursts + pauses) as real;
      && bursts as real / len + pauses as real / len == 1.0
      && 0.0 <= bursts as real / len < 1.0
      && 0.0 < pauses as real / len <= 1.0
  {
    var len := (bursts + pauses) as real;
    assert bursts as real / len + pauses as real / len == len / len;
    assert pauses as real / len <= len / len;
    assert bursts as real / len < len / len;
  }

  lemma StabilityBounds(v: real)
    requires v >= 0.0
    ensures 0.0 < 1.0 / (1.0 + v) <= 1.0
  {
  }

  /** Burst and pause frequencies add up to one, some pause always exists,
      and the stability lies in (0, 1]. */
  lemma RhythmOfRatios(n: Numerics, iv: seq<real>)
    requires iv != []
    ensures var r := RhythmOf(n, iv);
      && r.Keys == RhythmKeys()
      && r["burst_frequency"].r + r["pause_frequency"].r == 1.0
      && 0.0 <= r["burst_frequency"].r < 1.0
      && 0.0 < r["pause_frequency"].r <= 1.0
      && 0.0 < r["rhythm_stability"].r <= 1.0
  {
    BurstsAndPauses(iv);
    Shares(|Bursts(iv)|, |Pauses(iv)|);
    StabilityBounds(Variance(iv));
  }

  /** An element that satisfies the filter makes it non-empty. */
  lemma {:induction false} FilterCountsWitness<T>(s: seq<T>, p: T -> bool, k: nat)
    requires k < |s| && p(s[k])
    ensures |Filter(s, p)| > 0
  {
    if k > 0 && !p(s[0]) {
      FilterCountsWitness(s[1..], p, k - 1);
    }
  }

  /** Either the eight zero placeholders `rhythm_0` .. `rhythm_7` (no
      interval in range), or the eight named features. */
  lemma RhythmShape(n: Numerics, events: seq<KeyEvent>)
    ensures var r := RhythmFeatures(n, events);
      if Intervals(events) == [] then
        r.Keys == IndexedNames("rhythm_", "", 8) && forall k :: k in r ==> r[k] == Num(0.0)
      else r.Keys == RhythmKeys()
  {
    if Intervals(events) != [] {
      RhythmOfRatios(n, Intervals(events));
    }
  }

  method CalculateRhythm(n: Numerics, events: seq<KeyEvent>) returns (rhythm: map<string, Value>)
    ensures rhythm == RhythmFeatures(n, events)
  {
    var intervals := CalculateGaps(PressTimes(events), IntervalLimit);
    if intervals == [] {
      return ConstIndexed("rhythm_", "", 8, Num(0.0));
    }
    rhythm := RhythmOf(n, intervals);
  }

  // ---------------------------------------------------------------------
  // The feature map (`extract_features`)

  function DwellPart(n: Numerics, xs: seq<real>): map<string, Value>
  {
    if xs == [] then map[] else Stats("dwell", Describe(n, xs))
  }

  function FlightPart(n: Numerics, xs: seq<real>): map<string, Value>
  {
    if xs == [] then map[] else Stats("flight", Describe(n, xs))
  }

  function Summary(recent: seq<KeyEvent>): map<string, Value>
  {
    map["total_keys" := Num(Count(recent, IsPress) as real), "dev_mode" := Num(0.0)]
  }

  /** The map in the order the source fills it. */
  function Assemble(n: Numerics, dwell: seq<real>, flight: seq<real>, digraphs: seq<real>,
                    rhythm: map<string, Value>, recent: seq<KeyEvent>): map<string, Value>
  {
    DwellPart(n, dwell) + FlightPart(n, flight) + DigraphFeatures(digraphs) + ErrorFeatures(recent)
    + rhythm + Summary(recent)
  }

  function Features(n: Numerics, recent: seq<KeyEvent>): map<string, Value>
  {
    Assemble(n, DwellTimes(recent), FlightTimes(recent), Digraphs(recent), RhythmFeatures(n, recent), recent)
  }

  function Extract(n: Numerics, events: seq<KeyEvent>, now: real, windowSeconds: nat): Option<map<string, Value>>
  {
    var recent := Recent(events, now - windowSeconds as real);
    if |recent| < MinEvents then None else Some(Features(n, recent))
  }

  /** No features from fewer than ten events in the window. */
  lemma ExtractNeedsTenEvents(n: Numerics, events: seq<KeyEvent>, now: real, windowSeconds: nat)
    ensures Extract(n, events, now, windowSeconds).None? <==> |Recent(events, now - windowSeconds as real)| < MinEvents
  {
  }

  lemma StatsKeys(prefix: string, d: Description)
    ensures prefix + "_mean" in Stats(prefix, d)
  {
  }

  /** A name that starts differently from the prefix is not a statistic. */
  lemma StatsLack(prefix: string, d: Description, k: string)
    requires prefix != [] && k != [] && k[0] != prefix[0]
    ensures k !in Stats(prefix, d)
  {
    forall suffix: string
      ensures (prefix + suffix)[0] == prefix[0]
    {
    }
  }

  lemma ErrorKeysOf(events: seq<KeyEvent>)
    ensures ErrorFeatures(events).Keys == ErrorKeys()
  {
  }

  lemma MergeFirst<K, V>(k: K, a: map<K, V>, b: map<K, V>, c: map<K, V>, d: map<K, V>, e: map<K, V>, f: map<K, V>)
    requires k !in b && k !in c && k !in d && k !in e && k !in f
    ensures k in a + b + c + d + e + f <==> k in a
  {
  }

  lemma MergeSecond<K, V>(k: K, a: map<K, V>, b: map<K, V>, c: map<K, V>, d: map<K, V>, e: map<K, V>, f: map<K, V>)
    requires k !in a && k !in c && k !in d && k !in e && k !in f
    ensures k in a + b + c + d + e + f <==> k in b
  {
  }

  /** `dwell_mean` is not a name of any other part of the merge. */
  lemma DwellNameApart(n: Numerics, flight: seq<real>, digraphs: seq<real>,
                       rhythm: map<string, Value>, recent: seq<KeyEvent>)
    requires rhythm.Keys == IndexedNames("rhythm_", "", 8) || rhythm.Keys == RhythmKeys()
    ensures "dwell_mean" !in FlightPart(n, flight) && "dwell_mean" !in DigraphFeatures(digraphs)
    ensures "dwell_mean" !in ErrorFeatures(recent) && "dwell_mean" !in rhythm && "dwell_mean" !in Summary(recent)
  {
    if flight != [] {
      StatsLack("flight", Describe(n, flight), "dwell_mean");
    }
    NotIndexed("dwell_mean", "digraph_", "_mean", DigraphSlots, 1);
    NotIndexed("dwell_mean", "rhythm_", "", 8, 0);
    DigraphFeaturesShape(digraphs);
    ErrorKeysOf(recent);
  }

  /** `flight_mean` is not a name of any part of the merge after the
      flight statistics. */
  lemma FlightNameApart(digraphs: seq<real>, rhythm: map<string, Value>, recent: seq<KeyEvent>)
    requires rhythm.Keys == IndexedNames("rhythm_", "", 8) || rhythm.Keys == RhythmKeys()
    ensures "flight_mean" !in DigraphFeatures(digraphs)
    ensures "flight_mean" !in ErrorFeatures(recent) && "flight_mean" !in rhythm && "flight_mean" !in Summary(recent)
  {
    NotIndexed("flight_mean", "digraph_", "_mean", DigraphSlots, 0);
    NotIndexed("flight_mean", "rhythm_", "", 8, 0);
    DigraphFeaturesShape(digraphs);
    ErrorKeysOf(recent);
  }

  /** The merge ends with the number of presses and a zero developer-mode
      flag, and keeps the twenty digraph slots and the error features. */
  lemma AssembleSummary(n: Numerics, dwell: seq<real>, flight: seq<real>, digraphs: seq<real>,
                        rhythm: map<string, Value>, recent: seq<KeyEvent>)
    ensures var f := Assemble(n, dwell, flight, digraphs, rhythm, recent);
      && f["total_keys"] == Num(Count(recent, IsPress) as real)
      && f["dev_mode"] == Num(0.0)
      && IndexedNames("digraph_", "_mean", DigraphSlots) <= f.Keys
      && ErrorKeys() <= f.Keys
  {
    var e := DwellPart(n, dwell) + FlightPart(n, flight) + DigraphFeatures(digraphs) + ErrorFeatures(recent) + rhythm;
    UpdateWins(e, Summary(recent), "total_keys");
    UpdateWins(e, Summary(recent), "dev_mode");
    DigraphFeaturesShape(digraphs);
    ErrorKeysOf(recent);
  }

  lemma PartsHave(n: Numerics, dwell: seq<real>, flight: seq<real>)
    ensures "dwell_mean" in DwellPart(n, dwell) <==> dwell != []
    ensures "flight_mean" in FlightPart(n, flight) <==> flight != []
    ensures "flight_mean" !in DwellPart(n, dwell)
  {
    if dwell != [] {
      StatsKeys("dwell", Describe(n, dwell));
      assert "dwell" + "_mean" == "dwell_mean";
      StatsLack("dwell", Describe(n, dwell), "flight_mean");
    } else {
      assert DwellPart(n, dwell) == map[];
    }
    if flight != [] {
      StatsKeys("flight", Describe(n, flight));
      assert "flight" + "_mean" == "flight_mean";
    } else {
      assert FlightPart(n, flight) == map[];
    }
  }

  /** Dwell (flight) statistics appear exactly when some dwell (flight)
      time was measured. */
  lemma AssembleStats(n: Numerics, dwell: seq<real>, flight: seq<real>, digraphs: seq<real>,
                      rhythm: map<string, Value>, recent: seq<KeyEvent>)
    requires rhythm.Keys == IndexedNames("rhythm_", "", 8) || rhythm.Keys == RhythmKeys()
    ensures "dwell_mean" in Assemble(n, dwell, flight, digraphs, rhythm, recent) <==> dwell != []
    ensures "flight_mean" in Assemble(n, dwell, flight, digraphs, rhythm, recent) <==> flight != []
  {
    var d, f, g, e, s := DwellPart(n, dwell), FlightPart(n, flight), DigraphFeatures(digraphs), ErrorFeatures(recent), Summary(recent);
    DwellNameApart(n, flight, digraphs, rhythm, recent);
    FlightNameApart(digraphs, rhythm, recent);
    PartsHave(n, dwell, flight);
    MergeFirst("dwell_mean", d, f, g, e, rhythm, s);
    MergeSecond("flight_mean", d, f, g, e, rhythm, s);
  }

  /** The feature map always holds the digraph slots, the error features,
      the number of presses and a zero developer-mode flag, and dwell
      (flight) statistics exactly when there are dwell (flight) times. */
  lemma FeaturesShape(n: Numerics, recent: seq<KeyEvent>)
    ensures var f := Features(n, recent);
      && IndexedNames("digraph_", "_mean", DigraphSlots) <= f.Keys
      && ErrorKeys() <= f.Keys
      && f["total_keys"] == Num(Count(recent, IsPress) as real)
      && f["dev_mode"] == Num(0.0)
      && ("dwell_mean" in f <==> DwellTimes(recent) != [])
      && ("flight_mean" in f <==> FlightTimes(recent) != [])
  {
    RhythmShape(n, recent);
    var dwell, flight, digraphs, rhythm := DwellTimes(recent), FlightTimes(recent), Digraphs(recent), RhythmFeatures(n, recent);
    AssembleSummary(n, dwell, flight, digraphs, rhythm, recent);
    AssembleStats(n, dwell, flight, digraphs, rhythm, recent);
  }

  /** `KeystrokeFeatureCalculator`: the window length it was built with. */
  class Calculator {
    const windowSeconds: nat

    constructor(windowSeconds: nat)
      ensures this.windowSeconds == windowSeconds
    {
      this.windowSeconds := windowSeconds;
    }

    /** `extract_features(events, current_time)`. */
    method ExtractFeatures(n: Numerics, events: seq<KeyEvent>, now: real) returns (r: Option<map<string, Value>>)
      ensures r == Extract(n, events, now, windowSeconds)
    {
      var recent := Recent(events, now - windowSeconds as real);
      if |recent| < MinEvents {
        return None;
      }
      var dwell := CalculateDwellTimes(recent);
      var flight := CalculateGaps(PressTimes(recent), FlightLimit);
      var digraphs := CalculateDigraphs(recent);
      var rhythm := CalculateRhythm(n, recent);
      return Some(Assemble(n, dwell, flight, digraphs, rhythm, recent));
    }
  }
}
