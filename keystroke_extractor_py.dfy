/** The Python keystroke feature extractor: a bounded buffer of key events
    and, over a sliding window of it, dwell times, flight times, digraph
    timings, error patterns and typing rhythm. */
module KeystrokeExtractorPy {
  import opened Common

  const Capacity: nat := 10000
  const MinEvents: nat := 10
  const DigraphSlots: nat := 20
  const DwellLimit: real := 1000.0
  const FlightLimit: real := 2000.0
  const IntervalLimit: real := 5000.0

  datatype Kind = Press | Release | OtherKind(name: string)

  /** One buffered event; the timestamp is in seconds. */
  datatype KeyEvent = KeyEvent(timestamp: real, key: string, kind: Kind, devMode: bool)

  function Time(e: KeyEvent): real { e.timestamp }

  predicate IsPress(e: KeyEvent) { e.kind == Press }

  /** A press of a key whose name contains "Backspace" or "Delete". */
  predicate IsCorrection(e: KeyEvent)
  {
    (Contains(e.key, "Backspace") || Contains(e.key, "Delete")) && e.kind == Press
  }

  /** Events of the window: strictly newer than the cutoff. */
  function Recent(events: seq<KeyEvent>, cutoff: real): (r: seq<KeyEvent>)
    ensures forall i :: 0 <= i < |r| ==> r[i].timestamp > cutoff
  {
    Filter(events, (e: KeyEvent) => e.timestamp > cutoff)
  }

  // ---------------------------------------------------------------------
  // Dwell times: per key, a release closes the latest pending press

  datatype DwellState = DwellState(pending: Option<real>, out: seq<real>)

  function DwellStep(st: DwellState, e: KeyEvent): DwellState
  {
    if e.kind == Press then st.(pending := Some(e.timestamp))
    else if e.kind == Release && st.pending.Some? then
      var d := (e.timestamp - st.pending.value) * 1000.0;
      DwellState(None, if 0.0 < d < DwellLimit then st.out + [d] else st.out)
    else st
  }

  function DwellFold(group: seq<KeyEvent>): DwellState
  {
    if group == [] then DwellState(None, [])
    else DwellStep(DwellFold(group[..|group| - 1]), group[|group| - 1])
  }

  lemma {:induction false} DwellFoldBounds(group: seq<KeyEvent>)
    ensures forall i :: 0 <= i < |DwellFold(group).out| ==> 0.0 < DwellFold(group).out[i] < DwellLimit
  {
    if group != [] {
      DwellFoldBounds(group[..|group| - 1]);
    }
  }

  /** Each dwell time pairs a press with a later release: at most one per
      press of the group. */
  lemma {:induction false} DwellFoldCount(group: seq<KeyEvent>)
    ensures |DwellFold(group).out| + (if DwellFold(group).pending.Some? then 1 else 0)
            <= |Filter(group, IsPress)|
  {
    if group != [] {
      var init := group[..|group| - 1];
      DwellFoldCount(init);
      assert group == init + [group[|group| - 1]];
      FilterAppend(init, [group[|group| - 1]], IsPress);
    }
  }

  /** Keys in order of first appearance, each once. */
  function DistinctKeys(events: seq<KeyEvent>): (r: seq<string>)
    ensures forall i :: 0 <= i < |events| ==> events[i].key in r
    ensures forall k :: k in r ==> exists i :: 0 <= i < |events| && events[i].key == k
    ensures forall i, j :: 0 <= i < j < |r| ==> r[i] != r[j]
  {
    if events == [] then []
    else
      var init := events[..|events| - 1];
      var r0 := DistinctKeys(init);
      assert forall i :: 0 <= i < |init| ==> init[i] == events[i];
      if events[|events| - 1].key in r0 then r0 else r0 + [events[|events| - 1].key]
  }

  function KeyGroup(events: seq<KeyEvent>, k: string): seq<KeyEvent>
  {
    Filter(events, (e: KeyEvent) => e.key == k)
  }

  function DwellOfKeys(events: seq<KeyEvent>, keys: seq<string>): seq<real>
  {
    if keys == [] then []
    else DwellOfKeys(events, keys[..|keys| - 1]) + DwellFold(KeyGroup(events, keys[|keys| - 1])).out
  }

  function DwellTimes(events: seq<KeyEvent>): seq<real>
  {
    DwellOfKeys(events, DistinctKeys(events))
  }

  lemma {:induction false} DwellOfKeysBounds(events: seq<KeyEvent>, keys: seq<string>)
    ensures forall i :: 0 <= i < |DwellOfKeys(events, keys)| ==> 0.0 < DwellOfKeys(events, keys)[i] < DwellLimit
  {
    if keys != [] {
      DwellOfKeysBounds(events, keys[..|keys| - 1]);
      DwellFoldBounds(KeyGroup(events, keys[|keys| - 1]));
    }
  }

  /** Every dwell time is strictly between 0 and 1000 ms. */
  lemma DwellTimesBounds(events: seq<KeyEvent>)
    ensures forall i :: 0 <= i < |DwellTimes(events)| ==> 0.0 < DwellTimes(events)[i] < DwellLimit
  {
    DwellOfKeysBounds(events, DistinctKeys(events));
  }

  /** Pairs the presses and releases of one key, in buffer order. */
  method MatchPresses(group: seq<KeyEvent>) returns (out: seq<real>)
    ensures out == DwellFold(group).out
  {
    var pressTime: Option<real> := None;
    out := [];
    var j := 0;
    while j < |group|
      invariant 0 <= j <= |group|
      invariant DwellFold(group[..j]) == DwellState(pressTime, out)
    {
      var e := group[j];
      if e.kind == Press {
        pressTime := Some(e.timestamp);
      } else if e.kind == Release && pressTime.Some? {
        var d := (e.timestamp - pressTime.value) * 1000.0;
        if 0.0 < d < DwellLimit {
          out := out + [d];
        }
        pressTime := None;
      }
      assert group[..j + 1][..j] == group[..j];
      j := j + 1;
    }
    assert group[..j] == group;
  }

  lemma DwellOfKeysSnoc(events: seq<KeyEvent>, keys: seq<string>, k: nat)
    requires k < |keys|
    ensures DwellOfKeys(events, keys[..k + 1])
            == DwellOfKeys(events, keys[..k]) + DwellFold(KeyGroup(events, keys[k])).out
  {
    assert keys[..k + 1][..k] == keys[..k];
  }

  method CalculateDwellTimes(events: seq<KeyEvent>) returns (dwell: seq<real>)
    ensures dwell == DwellTimes(events)
  {
    var keys := DistinctKeys(events);
    dwell := [];
    var k := 0;
    while k < |keys|
      invariant 0 <= k <= |keys|
      invariant dwell == DwellOfKeys(events, keys[..k])
    {
      var out := MatchPresses(KeyGroup(events, keys[k]));
      DwellOfKeysSnoc(events, keys, k);
      dwell := dwell + out;
      k := k + 1;
    }
    assert keys[..k] == keys;
  }

  // ---------------------------------------------------------------------
  // Flight times: from the latest release to the next press, in time order

  datatype FlightState = FlightState(lastRelease: Option<real>, out: seq<real>)

  function FlightStep(st: FlightState, e: KeyEvent): FlightState
  {
    if e.kind == Release then st.(lastRelease := Some(e.timestamp))
    else if e.kind == Press && st.lastRelease.Some? then
      var f := (e.timestamp - st.lastRelease.value) * 1000.0;
      if 0.0 < f < FlightLimit then st.(out := st.out + [f]) else st
    else st
  }

  function FlightFold(sorted: seq<KeyEvent>): FlightState
  {
    if sorted == [] then FlightState(None, [])
    else FlightStep(FlightFold(sorted[..|sorted| - 1]), sorted[|sorted| - 1])
  }

  function FlightTimes(events: seq<KeyEvent>): seq<real>
  {
    FlightFold(SortBy(events, Time)).out
  }

  lemma {:induction false} FlightFoldBounds(sorted: seq<KeyEvent>)
    ensures forall i :: 0 <= i < |FlightFold(sorted).out| ==> 0.0 < FlightFold(sorted).out[i] < FlightLimit
  {
    if sorted != [] {
      FlightFoldBounds(sorted[..|sorted| - 1]);
    }
  }

  /** At most one flight time per press: a release is not consumed, so
      several presses may follow one release. */
  lemma {:induction false} FlightFoldCount(sorted: seq<KeyEvent>)
    ensures |FlightFold(sorted).out| <= |Filter(sorted, IsPress)|
  {
    if sorted != [] {
      var init := sorted[..|sorted| - 1];
      FlightFoldCount(init);
      assert sorted == init + [sorted[|sorted| - 1]];
      FilterAppend(init, [sorted[|sorted| - 1]], IsPress);
    }
  }

  /** Every flight time is strictly between 0 and 2000 ms. */
  lemma FlightTimesBounds(events: seq<KeyEvent>)
    ensures forall i :: 0 <= i < |FlightTimes(events)| ==> 0.0 < FlightTimes(events)[i] < FlightLimit
  {
    FlightFoldBounds(SortBy(events, Time));
  }

  method CalculateFlightTimes(events: seq<KeyEvent>) returns (flight: seq<real>)
    ensures flight == FlightTimes(events)
  {
    var sorted := SortBy(events, Time);
    var lastRelease: Option<real> := None;
    flight := [];
    var i := 0;
    while i < |sorted|
      invariant 0 <= i <= |sorted|
      invariant FlightFold(sorted[..i]) == FlightState(lastRelease, flight)
    {
      var e := sorted[i];
      if e.kind == Release {
        lastRelease := Some(e.timestamp);
      } else if e.kind == Press && lastRelease.Some? {
        var f := (e.timestamp - lastRelease.value) * 1000.0;
        if 0.0 < f < FlightLimit {
          flight := flight + [f];
        }
      }
      assert sorted[..i + 1][..i] == sorted[..i];
      i := i + 1;
    }
    assert sorted[..i] == sorted;
  }

  // ---------------------------------------------------------------------
  // Digraphs: timings of consecutive presses, grouped by key pair

  /** Presses in time order. */
  function Presses(events: seq<KeyEvent>): seq<KeyEvent>
  {
    SortBy(Filter(events, IsPress), Time)
  }

  /** Time from each press to the next one, in milliseconds. */
  function Gap(p: seq<KeyEvent>, i: nat): real
    requires i + 1 < |p|
  {
    (p[i + 1].timestamp - p[i].timestamp) * 1000.0
  }

  function PairName(p: seq<KeyEvent>, i: nat): string
    requires i + 1 < |p|
  {
    p[i].key + "_" + p[i + 1].key
  }

  type Table = seq<(string, seq<real>)>

  /** The digraph table after the first `n` consecutive pairs. */
  function DigraphTable(p: seq<KeyEvent>, n: nat): Table
    requires n < |p| || n == 0
  {
    if n == 0 then []
    else
      var t := DigraphTable(p, n - 1);
      if 0.0 < Gap(p, n - 1) < FlightLimit then AppendAt(t, PairName(p, n - 1), Gap(p, n - 1)) else t
  }

  function AllPairs(p: seq<KeyEvent>): Table
  {
    if p == [] then [] else DigraphTable(p, |p| - 1)
  }

  /** Every list of the table is non-empty and holds times in (0, 2000). */
  ghost predicate WellFormed(t: Table)
  {
    forall i :: 0 <= i < |t| ==> t[i].1 != [] && forall j :: 0 <= j < |t[i].1| ==> 0.0 < t[i].1[j] < FlightLimit
  }

  lemma {:induction false} AppendAtWellFormed(t: Table, k: string, v: real)
    requires WellFormed(t)
    requires 0.0 < v < FlightLimit
    ensures WellFormed(AppendAt(t, k, v))
  {
    if t != [] && t[0].0 != k {
      AppendAtWellFormed(t[1..], k, v);
    }
  }

  lemma {:induction false} DigraphTableWellFormed(p: seq<KeyEvent>, n: nat)
    requires n < |p| || n == 0
    ensures WellFormed(DigraphTable(p, n))
  {
    if n > 0 {
      DigraphTableWellFormed(p, n - 1);
      if 0.0 < Gap(p, n - 1) < FlightLimit {
        AppendAtWellFormed(DigraphTable(p, n - 1), PairName(p, n - 1), Gap(p, n - 1));
      }
    }
  }

  function NegCount(e: (string, seq<real>)): real { -(|e.1| as real) }

  /** `sorted(..., key=len, reverse=True)[:20]`: stable, most frequent first. */
  function TopDigraphs(t: Table): (r: Table)
    ensures |r| <= DigraphSlots
  {
    var s := SortBy(t, NegCount);
    if |s| <= DigraphSlots then s else s[..DigraphSlots]
  }

  function DigraphValues(top: Table): seq<Value>
  {
    seq(DigraphSlots, i => if 0 <= i < |top| then Num(Mean(top[i].1)) else Num(0.0))
  }

  function DigraphFeatures(events: seq<KeyEvent>): map<string, Value>
  {
    IndexedMap("digraph_", "_mean", DigraphValues(TopDigraphs(AllPairs(Presses(events)))))
  }

  /** Exactly the twenty names digraph_0_mean .. digraph_19_mean. */
  lemma DigraphFeatureKeys(events: seq<KeyEvent>)
    ensures DigraphFeatures(events).Keys == IndexedNames("digraph_", "_mean", DigraphSlots)
    ensures |DigraphFeatures(events).Keys| == DigraphSlots
  {
    IndexedNamesCard("digraph_", "_mean", DigraphSlots);
  }

  /** The chosen digraphs come in order of non-increasing frequency. */
  lemma TopDigraphsByFrequency(t: Table)
    ensures forall i, j :: 0 <= i < j < |TopDigraphs(t)| ==> |TopDigraphs(t)[j].1| <= |TopDigraphs(t)[i].1|
  {
    SortBySorted(t, NegCount);
    var s := SortBy(t, NegCount);
    forall i, j | 0 <= i < j < |TopDigraphs(t)|
      ensures |TopDigraphs(t)[j].1| <= |TopDigraphs(t)[i].1|
    {
      assert TopDigraphs(t)[i] == s[i] && TopDigraphs(t)[j] == s[j];
      assert NegCount(s[i]) <= NegCount(s[j]);
    }
  }

  lemma TopDigraphsWellFormed(t: Table)
    requires WellFormed(t)
    ensures WellFormed(TopDigraphs(t))
  {
    var s := SortBy(t, NegCount);
    var top := TopDigraphs(t);
    forall i | 0 <= i < |top|
      ensures top[i].1 != [] && forall j :: 0 <= j < |top[i].1| ==> 0.0 < top[i].1[j] < FlightLimit
    {
      assert top[i] == s[i];
      assert s[i] in multiset(t);
      var m :| 0 <= m < |t| && t[m] == s[i];
    }
  }

  lemma DigraphValuesBounded(top: Table)
    requires WellFormed(top)
    ensures forall i :: 0 <= i < |DigraphValues(top)| ==>
      DigraphValues(top)[i].Num? && 0.0 <= DigraphValues(top)[i].r <= FlightLimit
  {
    var vals := DigraphValues(top);
    forall i | 0 <= i < |vals| ensures vals[i].Num? && 0.0 <= vals[i].r <= FlightLimit {
      if i < |top| {
        MeanBounds(top[i].1, 0.0, FlightLimit);
      }
    }
  }

  /** Each digraph feature is a mean of times in (0, 2000), or the 0.0 pad. */
  lemma DigraphValuesBounds(events: seq<KeyEvent>)
    ensures forall k :: k in DigraphFeatures(events) ==>
      DigraphFeatures(events)[k].Num? && 0.0 <= DigraphFeatures(events)[k].r <= FlightLimit
  {
    var p := Presses(events);
    if p != [] {
      DigraphTableWellFormed(p, |p| - 1);
    }
    TopDigraphsWellFormed(AllPairs(p));
    var vals := DigraphValues(TopDigraphs(AllPairs(p)));
    DigraphValuesBounded(TopDigraphs(AllPairs(p)));
    forall k | k in DigraphFeatures(events)
      ensures DigraphFeatures(events)[k].Num? && 0.0 <= DigraphFeatures(events)[k].r <= FlightLimit
    {
      assert k in IndexedNames("digraph_", "_mean", |vals|);
      var i :| 0 <= i < |vals| && k == "digraph_" + NatToString(i) + "_mean";
    }
  }

  lemma DigraphTableStep(p: seq<KeyEvent>, i: nat)
    requires i + 1 < |p|
    ensures DigraphTable(p, i + 1)
            == if 0.0 < Gap(p, i) < FlightLimit then AppendAt(DigraphTable(p, i), PairName(p, i), Gap(p, i))
               else DigraphTable(p, i)
  {
  }

  method BuildDigraphTable(p: seq<KeyEvent>) returns (table: Table)
    ensures table == AllPairs(p)
  {
    table := [];
    if p == [] {
      return;
    }
    var i := 0;
    while i < |p| - 1
      invariant 0 <= i <= |p| - 1
      invariant table == DigraphTable(p, i)
    {
      var diff := (p[i + 1].timestamp - p[i].timestamp) * 1000.0;
      var name := p[i].key + "_" + p[i + 1].key;
      assert diff == Gap(p, i) && name == PairName(p, i);
      DigraphTableStep(p, i);
      if 0.0 < diff < FlightLimit {
        table := AppendAt(table, name, diff);
      }
      i := i + 1;
    }
  }

  method CalculateDigraphs(events: seq<KeyEvent>) returns (features: map<string, Value>)
    ensures features == DigraphFeatures(events)
  {
    var table := BuildDigraphTable(Presses(events));
    features := IndexedMap("digraph_", "_mean", DigraphValues(TopDigraphs(table)));
  }

  // ---------------------------------------------------------------------
  // Error patterns

  /** `part / max(whole, 1)`. */
  function ErrorMap(total: nat, bc: nat): map<string, Value>
  {
    map["backspace_frequency" := Num(Fraction(bc, total)),
        "backspace_count" := Num(bc as real),
        "correction_rate" := Num(Fraction(bc, total - bc)),
        "clean_typing_ratio" := Num(Fraction(total - bc, total))]
  }

  function ErrorFeatures(events: seq<KeyEvent>): map<string, Value>
  {
    ErrorMap(|Filter(events, IsPress)|, |Filter(events, IsCorrection)|)
  }

  /** Corrections are presses; with at least one press, the correction
      frequency and the clean ratio are fractions that add up to one, and
      without presses both are zero. */
  lemma ErrorRatios(events: seq<KeyEvent>)
    ensures |Filter(events, IsCorrection)| <= |Filter(events, IsPress)|
    ensures var f := ErrorFeatures(events)["backspace_frequency"].r;
      var c := ErrorFeatures(events)["clean_typing_ratio"].r;
      if |Filter(events, IsPress)| > 0 then 0.0 <= f <= 1.0 && f + c == 1.0 else f == 0.0 && c == 0.0
  {
    FilterMonotone(events, IsCorrection, IsPress);
    var total := |Filter(events, IsPress)|;
    var bc := |Filter(events, IsCorrection)|;
    FractionsComplement(bc, total);
    var m := ErrorMap(total, bc);
    assert m["backspace_frequency"] == Num(Fraction(bc, total));
    assert m["clean_typing_ratio"] == Num(Fraction(total - bc, total));
  }

  // ---------------------------------------------------------------------
  // Rhythm

  function IntervalsUpTo(p: seq<KeyEvent>, n: nat): seq<real>
    requires n < |p| || n == 0
  {
    if n == 0 then []
    else if 0.0 < Gap(p, n - 1) < IntervalLimit then IntervalsUpTo(p, n - 1) + [Gap(p, n - 1)]
    else IntervalsUpTo(p, n - 1)
  }

  /** Gaps between consecutive presses that lie in (0, 5000) ms. */
  function Intervals(p: seq<KeyEvent>): seq<real>
  {
    if p == [] then [] else IntervalsUpTo(p, |p| - 1)
  }

  lemma {:induction false} IntervalsUpToBounds(p: seq<KeyEvent>, n: nat)
    requires n < |p| || n == 0
    ensures |IntervalsUpTo(p, n)| <= n
    ensures forall i :: 0 <= i < |IntervalsUpTo(p, n)| ==> 0.0 < IntervalsUpTo(p, n)[i] < IntervalLimit
  {
    if n > 0 {
      IntervalsUpToBounds(p, n - 1);
    }
  }

  function RhythmKeys(): set<string>
  {
    {"rhythm_consistency", "burst_frequency", "pause_frequency", "avg_burst_speed",
     "avg_pause_duration", "rhythm_variation", "typing_speed_wpm", "rhythm_stability"}
  }

  function Below(t: real): real -> bool { x => x < t }

  function AtLeast(t: real): real -> bool { x => x >= t }

  function RhythmFeatures(n: Numerics, events: seq<KeyEvent>): map<string, Value>
  {
    var p := Presses(events);
    var iv := Intervals(p);
    if |p| < 2 || iv == [] then ConstIndexed("rhythm_", "", 8, Num(0.0)) else RhythmOf(n, iv)
  }

  /** The eight rhythm features of a non-empty list of intervals. */
  function RhythmOf(n: Numerics, iv: seq<real>): map<string, Value>
  {
      var threshold := n.median(iv);
      var bursts := Filter(iv, Below(threshold));
      var pauses := Filter(iv, AtLeast(threshold));
      var mean := Mean(iv);
      var std := n.std(iv);
      map["rhythm_consistency" := Num(1.0 - std / MaxR(mean, 1.0)),
          "burst_frequency" := Num(Fraction(|bursts|, |iv|)),
          "pause_frequency" := Num(Fraction(|pauses|, |iv|)),
          "avg_burst_speed" := Num(if bursts != [] then Mean(bursts) else 0.0),
          "avg_pause_duration" := Num(if pauses != [] then Mean(pauses) else 0.0),
          "rhythm_variation" := Num(std),
          "typing_speed_wpm" := Num(60000.0 / MaxR(mean, 1.0) / 5.0),
          "rhythm_stability" := Num(1.0 / (1.0 + std * std))]
  }

  /** The burst and pause frequencies of a non-empty interval list add up
      to one, and the stability lies in (0, 1]. */
  lemma RhythmOfRatios(n: Numerics, iv: seq<real>)
    requires iv != []
    ensures var r := RhythmOf(n, iv);
      r.Keys == RhythmKeys()
      && r["burst_frequency"].r + r["pause_frequency"].r == 1.0
      && 0.0 <= r["burst_frequency"].r <= 1.0
      && 0.0 < r["rhythm_stability"].r <= 1.0
  {
    var threshold := n.median(iv);
    FilterPartition(iv, Below(threshold), AtLeast(threshold));
    var b := |Filter(iv, Below(threshold))|;
    FractionsComplement(b, |iv|);
    assert |iv| - b == |Filter(iv, AtLeast(threshold))|;
    var std := n.std(iv);
    assert 1.0 + std * std >= 1.0;
  }

  /** Either the eight zero placeholders rhythm_0 .. rhythm_7 (fewer than
      two presses, or no interval in range), or the eight named features. */
  lemma RhythmShape(n: Numerics, events: seq<KeyEvent>)
    ensures var r := RhythmFeatures(n, events);
      var iv := Intervals(Presses(events));
      if |Presses(events)| < 2 || iv == [] then
        r.Keys == IndexedNames("rhythm_", "", 8) && forall k :: k in r ==> r[k] == Num(0.0)
      else r == RhythmOf(n, iv) && r.Keys == RhythmKeys()
  {
    var iv := Intervals(Presses(events));
    if |Presses(events)| >= 2 && iv != [] {
      RhythmOfRatios(n, iv);
    }
  }

  /** The mean interval is positive, so the speed estimate is positive. */
  lemma TypingSpeedPositive(n: Numerics, events: seq<KeyEvent>)
    requires |Presses(events)| >= 2 && Intervals(Presses(events)) != []
    ensures RhythmFeatures(n, events)["typing_speed_wpm"].r > 0.0
  {
    var p := Presses(events);
    IntervalsUpToBounds(p, |p| - 1);
    MeanBounds(Intervals(p), 0.0, IntervalLimit);
  }

  method CalculateIntervals(p: seq<KeyEvent>) returns (intervals: seq<real>)
    ensures intervals == Intervals(p)
  {
    intervals := [];
    if p == [] {
      return;
    }
    var i := 0;
    while i < |p| - 1
      invariant 0 <= i <= |p| - 1
      invariant intervals == IntervalsUpTo(p, i)
    {
      var interval := (p[i + 1].timestamp - p[i].timestamp) * 1000.0;
      if 0.0 < interval < IntervalLimit {
        intervals := intervals + [interval];
      }
      i := i + 1;
    }
  }

  method CalculateRhythm(n: Numerics, events: seq<KeyEvent>) returns (rhythm: map<string, Value>)
    ensures rhythm == RhythmFeatures(n, events)
  {
    var p := Presses(events);
    if |p| < 2 {
      return ConstIndexed("rhythm_", "", 8, Num(0.0));
    }
    var intervals := CalculateIntervals(p);
    if intervals == [] {
      return ConstIndexed("rhythm_", "", 8, Num(0.0));
    }
    rhythm := RhythmOf(n, intervals);
  }

  // ---------------------------------------------------------------------
  // Feature vector

  /** The eight summary statistics of a non-empty sample. */
  datatype Description = Description(mean: real, std: real, min: real, max: real,
                                     median: real, q25: real, q75: real, range: real)

  function Describe(n: Numerics, xs: seq<real>): (d: Description)
    requires xs != []
    ensures d.min <= d.mean <= d.max && d.range == d.max - d.min && 0.0 <= d.range
  {
    var lo := SeqMin(xs);
    var hi := SeqMax(xs);
    MeanBounds(xs, lo, hi);
    Description(Mean(xs), n.std(xs), lo, hi, n.median(xs), n.percentile(xs, 25.0), n.percentile(xs, 75.0), hi - lo)
  }

  function DwellStats(d: Description): map<string, Value>
  {
    map["dwell_mean" := Num(d.mean), "dwell_std" := Num(d.std), "dwell_min" := Num(d.min),
        "dwell_max" := Num(d.max), "dwell_median" := Num(d.median), "dwell_q25" := Num(d.q25),
        "dwell_q75" := Num(d.q75), "dwell_range" := Num(d.range)]
  }

  function FlightStats(d: Description): map<string, Value>
  {
    map["flight_mean" := Num(d.mean), "flight_std" := Num(d.std), "flight_min" := Num(d.min),
        "flight_max" := Num(d.max), "flight_median" := Num(d.median), "flight_q25" := Num(d.q25),
        "flight_q75" := Num(d.q75), "flight_range" := Num(d.range)]
  }

  predicate AnyDevMode(events: seq<KeyEvent>)
  {
    exists i :: 0 <= i < |events| && events[i].devMode
  }

  function DwellPart(n: Numerics, xs: seq<real>): map<string, Value>
  {
    if xs != [] then DwellStats(Describe(n, xs)) else map[]
  }

  function FlightPart(n: Numerics, xs: seq<real>): map<string, Value>
  {
    if xs != [] then FlightStats(Describe(n, xs)) else map[]
  }

  function Summary(recent: seq<KeyEvent>): map<string, Value>
  {
    map["dev_mode" := Flag(AnyDevMode(recent)), "total_keys" := Num((|recent| / 2) as real)]
  }

  /** The dictionary merged in the order the source updates it. */
  function Assemble(n: Numerics, dwell: seq<real>, flight: seq<real>, digraphs: map<string, Value>,
                    errors: map<string, Value>, rhythm: map<string, Value>, recent: seq<KeyEvent>): map<string, Value>
  {
    DwellPart(n, dwell) + FlightPart(n, flight) + digraphs + errors + rhythm + Summary(recent)
  }

  /** The feature dictionary of a window with enough events. */
  function Features(n: Numerics, recent: seq<KeyEvent>): map<string, Value>
  {
    Assemble(n, DwellTimes(recent), FlightTimes(recent), DigraphFeatures(recent),
             ErrorFeatures(recent), RhythmFeatures(n, recent), recent)
  }

  function Extract(n: Numerics, events: seq<KeyEvent>, cutoff: real): Option<map<string, Value>>
  {
    var recent := Recent(events, cutoff);
    if |recent| < MinEvents then None else Some(Features(n, recent))
  }

  function ErrorKeys(): set<string>
  {
    {"backspace_frequency", "backspace_count", "correction_rate", "clean_typing_ratio"}
  }

  lemma ErrorFeatureKeys(recent: seq<KeyEvent>)
    ensures ErrorFeatures(recent).Keys == ErrorKeys()
  {
  }

  lemma DigraphNamesExclude()
    ensures "dwell_mean" !in IndexedNames("digraph_", "_mean", DigraphSlots)
    ensures "flight_mean" !in IndexedNames("digraph_", "_mean", DigraphSlots)
  {
    NotIndexed("dwell_mean", "digraph_", "_mean", DigraphSlots, 1);
    NotIndexed("flight_mean", "digraph_", "_mean", DigraphSlots, 0);
  }

  lemma RhythmNamesExclude()
    ensures "dwell_mean" !in IndexedNames("rhythm_", "", 8) && "flight_mean" !in IndexedNames("rhythm_", "", 8)
  {
    NotIndexed("dwell_mean", "rhythm_", "", 8, 0);
    NotIndexed("flight_mean", "rhythm_", "", 8, 0);
  }

  /** The merge ends with the summary: developer-mode flag and half the
      event count. */
  lemma AssembleSummary(n: Numerics, dwell: seq<real>, flight: seq<real>, digraphs: map<string, Value>,
                        errors: map<string, Value>, rhythm: map<string, Value>, recent: seq<KeyEvent>)
    ensures var f := Assemble(n, dwell, flight, digraphs, errors, rhythm, recent);
      f["total_keys"] == Num((|recent| / 2) as real) && f["dev_mode"] == Flag(AnyDevMode(recent))
  {
    var e := DwellPart(n, dwell) + FlightPart(n, flight) + digraphs + errors + rhythm;
    UpdateWins(e, Summary(recent), "total_keys");
    UpdateWins(e, Summary(recent), "dev_mode");
  }

  /** Later updates only add keys: the digraph slots and error features stay. */
  lemma AssembleKeeps(n: Numerics, dwell: seq<real>, flight: seq<real>, digraphs: map<string, Value>,
                      errors: map<string, Value>, rhythm: map<string, Value>, recent: seq<KeyEvent>)
    ensures var f := Assemble(n, dwell, flight, digraphs, errors, rhythm, recent);
      digraphs.Keys <= f.Keys && errors.Keys <= f.Keys
  {
  }

  /** With a digraph part, error part and rhythm part of the shapes the
      extractor produces, dwell statistics are present exactly when there
      are dwell times. */
  lemma AssembleDwell(n: Numerics, dwell: seq<real>, flight: seq<real>, digraphs: map<string, Value>,
                      errors: map<string, Value>, rhythm: map<string, Value>, recent: seq<KeyEvent>)
    requires digraphs.Keys == IndexedNames("digraph_", "_mean", DigraphSlots)
    requires errors.Keys == ErrorKeys()
    requires rhythm.Keys == IndexedNames("rhythm_", "", 8) || rhythm.Keys == RhythmKeys()
    ensures "dwell_mean" in Assemble(n, dwell, flight, digraphs, errors, rhythm, recent) <==> dwell != []
  {
    var k := "dwell_mean";
    DigraphNamesExclude();
    RhythmNamesExclude();
    var a := DwellPart(n, dwell);
    var b := a + FlightPart(n, flight);
    var d := b + digraphs + errors;
    assert k !in FlightPart(n, flight) && k !in errors && k !in rhythm;
    UpdateKeeps(d + rhythm, Summary(recent), k);
    UpdateKeeps(d, rhythm, k);
    UpdateKeeps(b + digraphs, errors, k);
    UpdateKeeps(b, digraphs, k);
    UpdateKeeps(a, FlightPart(n, flight), k);
  }

  /** Likewise, flight statistics are present exactly when there are
      flight times. */
  lemma AssembleFlight(n: Numerics, dwell: seq<real>, flight: seq<real>, digraphs: map<string, Value>,
                       errors: map<string, Value>, rhythm: map<string, Value>, recent: seq<KeyEvent>)
    requires digraphs.Keys == IndexedNames("digraph_", "_mean", DigraphSlots)
    requires errors.Keys == ErrorKeys()
    requires rhythm.Keys == IndexedNames("rhythm_", "", 8) || rhythm.Keys == RhythmKeys()
    ensures "flight_mean" in Assemble(n, dwell, flight, digraphs, errors, rhythm, recent) <==> flight != []
  {
    var k := "flight_mean";
    DigraphNamesExclude();
    RhythmNamesExclude();
    var b := DwellPart(n, dwell) + FlightPart(n, flight);
    var d := b + digraphs + errors;
    assert k !in DwellPart(n, dwell) && k !in errors && k !in rhythm;
    UpdateKeeps(d + rhythm, Summary(recent), k);
    UpdateKeeps(d, rhythm, k);
    UpdateKeeps(b + digraphs, errors, k);
    UpdateKeeps(b, digraphs, k);
  }

  /** The dictionary always has the digraph slots, the error features, the
      developer-mode flag and half the event count, and dwell (flight)
      statistics exactly when some dwell (flight) time was measured. */
  lemma FeaturesShape(n: Numerics, recent: seq<KeyEvent>)
    ensures var f := Features(n, recent);
      IndexedNames("digraph_", "_mean", DigraphSlots) <= f.Keys
      && ErrorKeys() <= f.Keys
      && f["total_keys"] == Num((|recent| / 2) as real)
      && f["dev_mode"] == Flag(AnyDevMode(recent))
      && ("dwell_mean" in f <==> DwellTimes(recent) != [])
      && ("flight_mean" in f <==> FlightTimes(recent) != [])
  {
    DigraphFeatureKeys(recent);
    ErrorFeatureKeys(recent);
    RhythmShape(n, recent);
    var dwell, flight := DwellTimes(recent), FlightTimes(recent);
    var digraphs, errors, rhythm := DigraphFeatures(recent), ErrorFeatures(recent), RhythmFeatures(n, recent);
    AssembleSummary(n, dwell, flight, digraphs, errors, rhythm, recent);
    AssembleKeeps(n, dwell, flight, digraphs, errors, rhythm, recent);
    AssembleDwell(n, dwell, flight, digraphs, errors, rhythm, recent);
    AssembleFlight(n, dwell, flight, digraphs, errors, rhythm, recent);
  }

  /** No features from fewer than ten recent events. */
  lemma ExtractNeedsTenEvents(n: Numerics, events: seq<KeyEvent>, cutoff: real)
    ensures Extract(n, events, cutoff).None? <==> |Recent(events, cutoff)| < MinEvents
  {
  }

  /** The bounded event buffer and the window it extracts from. */
  class Extractor {
    const windowSeconds: int
    var events: seq<KeyEvent>

    ghost predicate Valid()
      reads this`events
    {
      |events| <= Capacity
    }

    constructor(windowSeconds: int)
      ensures this.windowSeconds == windowSeconds && events == [] && Valid()
    {
      this.windowSeconds := windowSeconds;
      events := [];
    }

    /** `ts` is in microseconds; the buffer keeps the newest 10000 events. */
    method AddEvent(ts: int, key: string, kind: Kind, devModeActive: bool)
      requires Valid()
      modifies this`events
      ensures Valid()
      ensures events == DequeAppend(old(events), KeyEvent(ts as real / 1000000.0, key, kind, devModeActive), Capacity)
    {
      events := DequeAppend(events, KeyEvent(ts as real / 1000000.0, key, kind, devModeActive), Capacity);
    }

    /** `now` is the wall-clock time in seconds. */
    method ExtractFeatures(n: Numerics, now: real) returns (r: Option<map<string, Value>>)
      ensures r == Extract(n, events, now - windowSeconds as real)
    {
      var recent := Recent(events, now - windowSeconds as real);
      if |recent| < MinEvents {
        return None;
      }
      var dwell := CalculateDwellTimes(recent);
      var flight := CalculateFlightTimes(recent);
      var digraphs := CalculateDigraphs(recent);
      var rhythm := CalculateRhythm(n, recent);
      var features := Assemble(n, dwell, flight, digraphs, ErrorFeatures(recent), rhythm, recent);
      return Some(features);
    }
  }
}
