/** The Python mouse feature extractor: a bounded buffer of mouse events and,
    over a sliding window of it, twenty movement, ten click and eight scroll
    features plus the developer-mode flag. */
module MouseExtractorPy {
  import opened Common

  const Capacity: nat := 50000
  const MinEvents: nat := 50
  const MoveSlots: nat := 20
  const ClickSlots: nat := 10
  const ScrollSlots: nat := 8
  const VelocityLimit: real := 10000.0
  const AccelerationLimit: real := 100000.0
  const JerkLimit: real := 1000000.0
  const MinTimeStep: real := 0.001
  const IdleStep: real := 0.1
  const ClickLimit: real := 5000.0
  const DoubleClickGap: real := 0.5

  datatype Kind = Move | Press | Release | Scroll | OtherKind(name: string)

  /** One buffered event; the timestamp is in seconds, absent JSON fields are None. */
  datatype MouseEvent = MouseEvent(timestamp: real, x: Option<int>, y: Option<int>, kind: Kind,
                                   button: Option<string>, scrollDelta: Option<int>, devMode: bool)

  /** What `extract_features` does with a window: too few events, an
      exception (a movement without `y`, a zero window length), or a
      feature dictionary. */
  datatype Outcome = Insufficient | Raised | Extracted(features: map<string, Value>)

  function Time(e: MouseEvent): real { e.timestamp }

  function Coord(c: Option<int>): real { if c.Some? then c.value as real else 0.0 }

  function X(e: MouseEvent): real { Coord(e.x) }

  function Y(e: MouseEvent): real { Coord(e.y) }

  predicate IsMovement(e: MouseEvent) { e.kind == Move && e.x.Some? }

  predicate IsClick(e: MouseEvent) { e.kind == Press || e.kind == Release }

  predicate IsScroll(e: MouseEvent) { e.kind == Scroll }

  predicate IsPress(e: MouseEvent) { e.kind == Press }

  predicate IsRelease(e: MouseEvent) { e.kind == Release }

  function Recent(events: seq<MouseEvent>, cutoff: real): (r: seq<MouseEvent>)
    ensures forall i :: 0 <= i < |r| ==> r[i].timestamp > cutoff
  {
    Filter(events, (e: MouseEvent) => e.timestamp > cutoff)
  }

  predicate AnyDevMode(events: seq<MouseEvent>)
  {
    exists i :: 0 <= i < |events| && events[i].devMode
  }

  function MeanOr0(s: seq<real>): real { if s != [] then Mean(s) else 0.0 }

  function StdOr0(n: Numerics, s: seq<real>): real { if s != [] then n.std(s) else 0.0 }

  // ---------------------------------------------------------------------
  // Movement

  /** Element-wise `num / den[:len(num)]`. */
  function Ratios(num: seq<real>, den: seq<real>): (r: seq<real>)
    requires |num| <= |den|
    requires forall i :: 0 <= i < |den| ==> den[i] != 0.0
    ensures |r| == |num|
    ensures forall i :: 0 <= i < |num| ==> r[i] == num[i] / den[i]
  {
    if num == [] then [] else [num[0] / den[0]] + Ratios(num[1..], den[1..])
  }

  /** `np.sqrt(dx**2 + dy**2)` element-wise. */
  function Distances(n: Numerics, dx: seq<real>, dy: seq<real>): (r: seq<real>)
    requires |dx| == |dy|
    ensures |r| == |dx|
  {
    if dx == [] then [] else [n.sqrt(dx[0] * dx[0] + dy[0] * dy[0])] + Distances(n, dx[1..], dy[1..])
  }

  function Angles(n: Numerics, dx: seq<real>, dy: seq<real>): (r: seq<real>)
    requires |dx| == |dy|
    ensures |r| == |dx|
  {
    if dx == [] then [] else [n.atan2(dy[0], dx[0])] + Angles(n, dx[1..], dy[1..])
  }

  function AtLeastStep(d: real): real { MaxR(d, MinTimeStep) }

  /** `np.maximum(np.diff(t), 0.001)`. */
  function TimeSteps(t: seq<real>): (r: seq<real>)
    ensures |r| == |Diff(t)|
    ensures forall i :: 0 <= i < |r| ==> r[i] >= MinTimeStep
  {
    Map(Diff(t), AtLeastStep)
  }

  predicate SlowVelocity(v: real) { v < VelocityLimit }

  predicate SmallAcceleration(a: real) { AbsR(a) < AccelerationLimit }

  predicate SmallJerk(j: real) { AbsR(j) < JerkLimit }

  predicate Idle(d: real) { d > IdleStep }

  /** The intermediate arrays of the movement computation: distances, time
      steps, velocities, accelerations, direction changes, jerk, path and
      straight-line length. */
  datatype Movement = Movement(
    dist: seq<real>, dt: seq<real>, rawVelocities: seq<real>, velocities: seq<real>,
    rawAccelerations: seq<real>, accelerations: seq<real>, angleChanges: seq<real>,
    jerk: seq<real>, total: real, straight: real)

  /** The outlier cuts hold and every time step is at least 1 ms. */
  ghost predicate CutsHold(m: Movement)
  {
    (forall i :: 0 <= i < |m.velocities| ==> m.velocities[i] < VelocityLimit)
    && (forall i :: 0 <= i < |m.accelerations| ==> AbsR(m.accelerations[i]) < AccelerationLimit)
    && (forall i :: 0 <= i < |m.dt| ==> m.dt[i] >= MinTimeStep)
  }

  function Analyse(n: Numerics, ms: seq<MouseEvent>): (m: Movement)
    requires |ms| > 2
    ensures |m.dt| == |ms| - 1 && |m.rawVelocities| == |ms| - 1
    ensures CutsHold(m)
  {
    var x := Map(ms, X);
    var y := Map(ms, Y);
    var dx := Diff(x);
    var dy := Diff(y);
    var dist := Distances(n, dx, dy);
    var dt := TimeSteps(Map(ms, Time));
    var rawV := Ratios(dist, dt);
    var rawA := if |rawV| > 1 then Ratios(Diff(rawV), dt) else [];
    var acc := if |rawV| > 1 then Filter(rawA, SmallAcceleration) else [];
    var jerk := if |rawA| > 1 then Filter(Ratios(Diff(rawA), dt), SmallJerk) else [0.0];
    var last := |ms| - 1;
    var straight := n.sqrt((x[last] - x[0]) * (x[last] - x[0]) + (y[last] - y[0]) * (y[last] - y[0]));
    Movement(dist, dt, rawV, Filter(rawV, SlowVelocity), rawA, acc,
             Map(Diff(Angles(n, dx, dy)), AbsR), jerk, Sum(dist), straight)
  }

  /** move_0 .. move_19 from the analysed movement of `count` samples. */
  function MovementValues(n: Numerics, m: Movement, count: nat, window: int): (v: seq<real>)
    requires window != 0 && m.dt != []
    ensures |v| == MoveSlots
    ensures forall i :: 0 <= i < MoveSlots ==> v[i] == MovementValue(n, m, count, window, i)
  {
    seq(MoveSlots, i requires 0 <= i < MoveSlots => MovementValue(n, m, count, window, i))
  }

  /** Entry `i` of the movement vector. */
  function MovementValue(n: Numerics, m: Movement, count: nat, window: int, i: nat): real
    requires window != 0 && m.dt != []
  {
    var v := m.velocities;
    var a := m.accelerations;
    match i
    case 0 => MeanOr0(v)
    case 1 => StdOr0(n, v)
    case 2 => if v != [] then SeqMax(v) else 0.0
    case 3 => if v != [] then n.median(v) else 0.0
    case 4 => MeanOr0(Map(a, AbsR))
    case 5 => StdOr0(n, a)
    case 6 => if a != [] then SeqMax(Map(a, AbsR)) else 0.0
    case 7 => 1.0 - m.straight / MaxR(m.total, 1.0)
    case 8 => MeanOr0(m.angleChanges)
    case 9 => StdOr0(n, m.angleChanges)
    case 10 => MeanOr0(Map(m.jerk, AbsR))
    case 11 => StdOr0(n, m.jerk)
    case 12 => m.total
    case 13 => m.straight
    case 14 => m.total / MaxR(count as real, 1.0)
    case 15 => Fraction(Count(m.dt, Idle), |m.dt|)
    case 16 => Mean(m.dt)
    case 17 => n.std(m.dt)
    case 18 => m.straight / MaxR(m.total, 1.0)
    case _ => count as real / window as real
  }

  function Nums(v: seq<real>): (r: seq<Value>)
    ensures |r| == |v|
    ensures forall i :: 0 <= i < |v| ==> r[i] == Num(v[i])
  {
    Map(v, (x: real) => Num(x))
  }

  predicate HasY(e: MouseEvent) { e.y.Some? }

  /** None when numpy raises: a movement without `y`, or a zero window. */
  function MovementFeatures(n: Numerics, ms: seq<MouseEvent>, window: int): (r: Option<map<string, Value>>)
    requires |ms| > 2
    ensures r.Some? ==> r.value.Keys == IndexedNames("move_", "", MoveSlots)
    ensures r.Some? <==> |Filter(ms, HasY)| == |ms| && window != 0
  {
    if |Filter(ms, HasY)| < |ms| || window == 0 then None
    else Some(IndexedMap("move_", "", Nums(MovementValues(n, Analyse(n, ms), |ms|, window))))
  }

  /** Curvature and efficiency add up to one. */
  lemma CurvatureEfficiency(n: Numerics, m: Movement, count: nat, window: int)
    requires window != 0 && m.dt != []
    ensures MovementValues(n, m, count, window)[7] + MovementValues(n, m, count, window)[18] == 1.0
  {
  }

  /** The idle fraction lies in [0, 1]. */
  lemma IdleFraction(n: Numerics, m: Movement, count: nat, window: int)
    requires window != 0 && m.dt != []
    ensures 0.0 <= MovementValues(n, m, count, window)[15] <= 1.0
  {
    assert MovementValues(n, m, count, window)[15] == Fraction(Count(m.dt, Idle), |m.dt|);
    FractionUnit(Count(m.dt, Idle), |m.dt|);
  }

  /** The mean velocity respects the outlier cut at 10000 px/s. */
  lemma VelocityMeanCut(n: Numerics, m: Movement, count: nat, window: int)
    requires window != 0 && m.dt != [] && CutsHold(m)
    ensures MovementValues(n, m, count, window)[0] < VelocityLimit
  {
    var v := m.velocities;
    assert MovementValues(n, m, count, window)[0] == MeanOr0(v);
    if v != [] {
      MeanBounds(v, SeqMin(v), SeqMax(v));
      assert SeqMax(v) in v;
    }
  }

  /** So does the largest velocity. */
  lemma VelocityMaxCut(n: Numerics, m: Movement, count: nat, window: int)
    requires window != 0 && m.dt != [] && CutsHold(m)
    ensures MovementValues(n, m, count, window)[2] < VelocityLimit
  {
    assert MovementValues(n, m, count, window)[2] == if m.velocities != [] then SeqMax(m.velocities) else 0.0;
    if m.velocities != [] {
      assert SeqMax(m.velocities) in m.velocities;
    }
  }

  /** The largest absolute acceleration respects the cut at 100000 px/s². */
  lemma AccelerationCut(n: Numerics, m: Movement, count: nat, window: int)
    requires window != 0 && m.dt != [] && CutsHold(m)
    ensures MovementValues(n, m, count, window)[6] < AccelerationLimit
  {
    assert MovementValues(n, m, count, window)[6] == MovementValue(n, m, count, window, 6);
    if m.accelerations != [] {
      LargestMagnitudeBelow(m.accelerations, AccelerationLimit);
    }
  }

  lemma LargestMagnitudeBelow(a: seq<real>, limit: real)
    requires a != [] && forall i :: 0 <= i < |a| ==> AbsR(a[i]) < limit
    ensures SeqMax(Map(a, AbsR)) < limit
  {
    var absA := Map(a, AbsR);
    assert SeqMax(absA) in absA;
  }

  // ---------------------------------------------------------------------
  // Clicks

  /** `{c['button']: c['timestamp'] for c in presses}`: the last press of
      each button wins. */
  function PressTimes(presses: seq<MouseEvent>): map<Option<string>, real>
  {
    if presses == [] then map[]
    else PressTimes(presses[..|presses| - 1])[presses[|presses| - 1].button := presses[|presses| - 1].timestamp]
  }

  lemma {:induction false} PressTimesSize(presses: seq<MouseEvent>)
    ensures |PressTimes(presses).Keys| <= |presses|
  {
    if presses != [] {
      var init := presses[..|presses| - 1];
      PressTimesSize(init);
      var b := presses[|presses| - 1].button;
      assert PressTimes(presses).Keys == PressTimes(init).Keys + {b};
    }
  }

  datatype ClickState = ClickState(pressTimes: map<Option<string>, real>, durations: seq<real>)

  /** A release consumes the pending press of its button. */
  function ReleaseStep(st: ClickState, r: MouseEvent): ClickState
  {
    if r.button in st.pressTimes then
      var d := (r.timestamp - st.pressTimes[r.button]) * 1000.0;
      ClickState(st.pressTimes - {r.button}, if 0.0 < d < ClickLimit then st.durations + [d] else st.durations)
    else st
  }

  function ReleaseFold(pressTimes: map<Option<string>, real>, releases: seq<MouseEvent>): ClickState
  {
    if releases == [] then ClickState(pressTimes, [])
    else ReleaseStep(ReleaseFold(pressTimes, releases[..|releases| - 1]), releases[|releases| - 1])
  }

  /** Every duration lies in (0, 5000) ms, and as each one deletes its
      button's press, there are no more durations than buttons pressed. */
  lemma {:induction false} ReleaseFoldBounds(pressTimes: map<Option<string>, real>, releases: seq<MouseEvent>)
    ensures var st := ReleaseFold(pressTimes, releases);
      st.pressTimes.Keys <= pressTimes.Keys
      && |st.durations| + |st.pressTimes.Keys| <= |pressTimes.Keys|
      && forall i :: 0 <= i < |st.durations| ==> 0.0 < st.durations[i] < ClickLimit
  {
    if releases != [] {
      ReleaseFoldBounds(pressTimes, releases[..|releases| - 1]);
      var st := ReleaseFold(pressTimes, releases[..|releases| - 1]);
      var r := releases[|releases| - 1];
      if r.button in st.pressTimes {
        assert (st.pressTimes - {r.button}).Keys == st.pressTimes.Keys - {r.button};
      }
    }
  }

  function ClickDurationsOf(clicks: seq<MouseEvent>): seq<real>
  {
    ReleaseFold(PressTimes(Filter(clicks, IsPress)), Filter(clicks, IsRelease)).durations
  }

  lemma ClickDurationBounds(clicks: seq<MouseEvent>)
    ensures |ClickDurationsOf(clicks)| <= |Filter(clicks, IsPress)|
    ensures forall i :: 0 <= i < |ClickDurationsOf(clicks)| ==> 0.0 < ClickDurationsOf(clicks)[i] < ClickLimit
  {
    var presses := Filter(clicks, IsPress);
    ReleaseFoldBounds(PressTimes(presses), Filter(clicks, IsRelease));
    PressTimesSize(presses);
  }

  method MatchReleases(presses: seq<MouseEvent>, releases: seq<MouseEvent>) returns (durations: seq<real>)
    ensures durations == ReleaseFold(PressTimes(presses), releases).durations
  {
    var pressTimes := PressTimes(presses);
    durations := [];
    var i := 0;
    while i < |releases|
      invariant 0 <= i <= |releases|
      invariant ReleaseFold(PressTimes(presses), releases[..i]) == ClickState(pressTimes, durations)
    {
      var button := releases[i].button;
      if button in pressTimes {
        var duration := (releases[i].timestamp - pressTimes[button]) * 1000.0;
        if 0.0 < duration < ClickLimit {
          durations := durations + [duration];
        }
        pressTimes := pressTimes - {button};
      }
      assert releases[..i + 1][..i] == releases[..i];
      i := i + 1;
    }
    assert releases[..i] == releases;
  }

  /** Consecutive presses (in time order) less than half a second apart,
      among the first `k` pairs. */
  function DoubleClicksUpTo(sorted: seq<MouseEvent>, k: nat): nat
    requires k < |sorted| || k == 0
  {
    if k == 0 then 0
    else DoubleClicksUpTo(sorted, k - 1)
         + (if sorted[k].timestamp - sorted[k - 1].timestamp < DoubleClickGap then 1 else 0)
  }

  function DoubleClicks(sorted: seq<MouseEvent>): nat
  {
    if sorted == [] then 0 else DoubleClicksUpTo(sorted, |sorted| - 1)
  }

  lemma {:induction false} DoubleClicksUpToBound(sorted: seq<MouseEvent>, k: nat)
    requires k < |sorted| || k == 0
    ensures DoubleClicksUpTo(sorted, k) <= k
  {
    if k > 0 {
      DoubleClicksUpToBound(sorted, k - 1);
    }
  }

  /** At most one double click per adjacent pair of presses. */
  lemma DoubleClicksBound(sorted: seq<MouseEvent>)
    ensures DoubleClicks(sorted) <= if |sorted| == 0 then 0 else |sorted| - 1
  {
    if sorted != [] {
      DoubleClicksUpToBound(sorted, |sorted| - 1);
    }
  }

  method CountDoubleClicks(sorted: seq<MouseEvent>) returns (count: nat)
    ensures count == DoubleClicks(sorted)
  {
    count := 0;
    if sorted == [] {
      return;
    }
    var i := 0;
    while i < |sorted| - 1
      invariant 0 <= i <= |sorted| - 1
      invariant count == DoubleClicksUpTo(sorted, i)
    {
      if sorted[i + 1].timestamp - sorted[i].timestamp < DoubleClickGap {
        count := count + 1;
      }
      i := i + 1;
    }
  }

  function ButtonCount(presses: seq<MouseEvent>, name: string): nat
  {
    |Filter(presses, (e: MouseEvent) => e.button == Some(name))|
  }

  /** click_0 .. click_9 from the durations, the presses and the double clicks. */
  function ClickValuesOf(n: Numerics, d: seq<real>, presses: seq<MouseEvent>, dc: nat, window: int): (v: seq<real>)
    requires window != 0
    ensures |v| == ClickSlots
  {
    var left := ButtonCount(presses, "Left");
    var right := ButtonCount(presses, "Right");
    var middle := ButtonCount(presses, "Middle");
    [MeanOr0(d), StdOr0(n, d), left as real, right as real, middle as real,
     Fraction(left, left + right + middle), dc as real, Fraction(dc, |presses|),
     |presses| as real / window as real, if d != [] then n.median(d) else 0.0]
  }

  function ClickValues(n: Numerics, clicks: seq<MouseEvent>, window: int): (v: seq<real>)
    requires window != 0
    ensures |v| == ClickSlots
  {
    var presses := Filter(clicks, IsPress);
    ClickValuesOf(n, ClickDurationsOf(clicks), presses, DoubleClicks(SortBy(presses, Time)), window)
  }

  function ClickFeatures(n: Numerics, clicks: seq<MouseEvent>, window: int): (r: Option<map<string, Value>>)
    ensures r.Some? ==> r.value.Keys == IndexedNames("click_", "", ClickSlots)
    ensures r.Some? <==> window != 0
  {
    if window == 0 then None else Some(IndexedMap("click_", "", Nums(ClickValues(n, clicks, window))))
  }

  /** The left-click ratio lies in [0, 1]; with at most one double click
      per press, so does the double-click rate; the mean duration of
      durations in (0, 5000) lies in [0, 5000). */
  lemma ClickValueBounds(n: Numerics, d: seq<real>, presses: seq<MouseEvent>, dc: nat, window: int)
    requires window != 0 && dc <= |presses|
    requires forall i :: 0 <= i < |d| ==> 0.0 < d[i] < ClickLimit
    ensures var v := ClickValuesOf(n, d, presses, dc, window);
      0.0 <= v[5] <= 1.0 && 0.0 <= v[7] <= 1.0 && 0.0 <= v[0] < ClickLimit
  {
    var left := ButtonCount(presses, "Left");
    FractionUnit(left, left + ButtonCount(presses, "Right") + ButtonCount(presses, "Middle"));
    FractionUnit(dc, |presses|);
    if d != [] {
      MeanBounds(d, SeqMin(d), SeqMax(d));
    }
  }

  lemma ClickBounds(n: Numerics, clicks: seq<MouseEvent>, window: int)
    requires window != 0
    ensures var v := ClickValues(n, clicks, window);
      0.0 <= v[5] <= 1.0 && 0.0 <= v[7] <= 1.0 && 0.0 <= v[0] < ClickLimit
  {
    var presses := Filter(clicks, IsPress);
    var sorted := SortBy(presses, Time);
    DoubleClicksBound(sorted);
    ClickDurationBounds(clicks);
    ClickValueBounds(n, ClickDurationsOf(clicks), presses, DoubleClicks(sorted), window);
  }

  method CalculateClickFeatures(n: Numerics, clicks: seq<MouseEvent>, window: int)
    returns (r: Option<map<string, Value>>)
    ensures r == ClickFeatures(n, clicks, window)
  {
    if window == 0 {
      return None;
    }
    var presses := Filter(clicks, IsPress);
    var d := MatchReleases(presses, Filter(clicks, IsRelease));
    var dc := CountDoubleClicks(SortBy(presses, Time));
    r := Some(IndexedMap("click_", "", Nums(ClickValuesOf(n, d, presses, dc, window))));
  }

  // ---------------------------------------------------------------------
  // Scrolls

  /** The scroll deltas that are present. */
  function Deltas(scrolls: seq<MouseEvent>): (r: seq<real>)
    ensures |r| <= |scrolls|
  {
    if scrolls == [] then []
    else (if scrolls[0].scrollDelta.Some? then [scrolls[0].scrollDelta.value as real] else []) + Deltas(scrolls[1..])
  }

  predicate Up(d: real) { d > 0.0 }

  predicate Down(d: real) { d < 0.0 }

  predicate NonZero(d: real) { d != 0.0 }

  predicate Always(d: real) { true }

  /** scroll_0 .. scroll_7 of a non-empty list of deltas. */
  function ScrollValues(n: Numerics, scrolls: seq<MouseEvent>, deltas: seq<real>, window: int): (v: seq<real>)
    requires deltas != [] && window != 0
    ensures |v| == ScrollSlots
    ensures forall i :: 0 <= i < ScrollSlots ==> v[i] == ScrollValue(n, scrolls, deltas, window, i)
  {
    seq(ScrollSlots, i requires 0 <= i < ScrollSlots => ScrollValue(n, scrolls, deltas, window, i))
  }

  /** Entry `i` of the scroll vector. */
  function ScrollValue(n: Numerics, scrolls: seq<MouseEvent>, deltas: seq<real>, window: int, i: nat): real
    requires deltas != [] && window != 0
  {
    match i
    case 0 => Mean(Map(deltas, AbsR))
    case 1 => n.std(deltas)
    case 2 => |Filter(deltas, Up)| as real
    case 3 => |Filter(deltas, Down)| as real
    case 4 => Fraction(|Filter(deltas, Up)|, |deltas|)
    case 5 => |scrolls| as real / window as real
    case 6 => MeanOr0(ScrollIntervals(scrolls))
    case _ => StdOr0(n, ScrollIntervals(scrolls))
  }

  /** The gaps between scroll timestamps, `[0]` for a single scroll. */
  function ScrollIntervals(scrolls: seq<MouseEvent>): seq<real>
  {
    var times := Map(scrolls, Time);
    if |times| > 1 then Diff(times) else [0.0]
  }

  function ScrollFeatures(n: Numerics, scrolls: seq<MouseEvent>, window: int): (r: Option<map<string, Value>>)
    ensures r.Some? ==> r.value.Keys == IndexedNames("scroll_", "", ScrollSlots)
    ensures r.Some? <==> Deltas(scrolls) == [] || window != 0
  {
    var deltas := Deltas(scrolls);
    if deltas == [] then Some(ConstIndexed("scroll_", "", ScrollSlots, Num(0.0)))
    else if window == 0 then None
    else Some(IndexedMap("scroll_", "", Nums(ScrollValues(n, scrolls, deltas, window))))
  }

  /** Up and down scrolls are disjoint, so together no more than the
      deltas; the up ratio lies in [0, 1]. */
  lemma ScrollBounds(n: Numerics, scrolls: seq<MouseEvent>, window: int)
    requires Deltas(scrolls) != [] && window != 0
    ensures var v := ScrollValues(n, scrolls, Deltas(scrolls), window);
      v[2] + v[3] <= |Deltas(scrolls)| as real && 0.0 <= v[4] <= 1.0
  {
    var deltas := Deltas(scrolls);
    ScrollUpEntry(n, scrolls, deltas, window);
    ScrollDownEntry(n, scrolls, deltas, window);
    ScrollRatioEntry(n, scrolls, deltas, window);
    UpDownBound(deltas);
    FractionUnit(|Filter(deltas, Up)|, |deltas|);
  }

  lemma ScrollUpEntry(n: Numerics, scrolls: seq<MouseEvent>, deltas: seq<real>, window: int)
    requires deltas != [] && window != 0
    ensures ScrollValues(n, scrolls, deltas, window)[2] == |Filter(deltas, Up)| as real
  {
  }

  lemma ScrollDownEntry(n: Numerics, scrolls: seq<MouseEvent>, deltas: seq<real>, window: int)
    requires deltas != [] && window != 0
    ensures ScrollValues(n, scrolls, deltas, window)[3] == |Filter(deltas, Down)| as real
  {
  }

  lemma ScrollRatioEntry(n: Numerics, scrolls: seq<MouseEvent>, deltas: seq<real>, window: int)
    requires deltas != [] && window != 0
    ensures ScrollValues(n, scrolls, deltas, window)[4] == Fraction(|Filter(deltas, Up)|, |deltas|)
  {
  }

  lemma UpDownBound(deltas: seq<real>)
    ensures |Filter(deltas, Up)| + |Filter(deltas, Down)| <= |deltas|
  {
    FilterDisjoint(deltas, Up, Down, NonZero);
    FilterMonotone(deltas, NonZero, Always);
    FilterAll(deltas, Always);
  }

  // ---------------------------------------------------------------------
  // Feature vector

  function MovePart(n: Numerics, moves: seq<MouseEvent>, window: int): (r: Option<map<string, Value>>)
    ensures r.Some? ==> r.value.Keys == IndexedNames("move_", "", MoveSlots)
  {
    if |moves| > 2 then MovementFeatures(n, moves, window) else Some(ConstIndexed("move_", "", MoveSlots, Num(0.0)))
  }

  function ClickPart(n: Numerics, clicks: seq<MouseEvent>, window: int): (r: Option<map<string, Value>>)
    ensures r.Some? ==> r.value.Keys == IndexedNames("click_", "", ClickSlots)
  {
    if clicks != [] then ClickFeatures(n, clicks, window) else Some(ConstIndexed("click_", "", ClickSlots, Num(0.0)))
  }

  function ScrollPart(n: Numerics, scrolls: seq<MouseEvent>, window: int): (r: Option<map<string, Value>>)
    ensures r.Some? ==> r.value.Keys == IndexedNames("scroll_", "", ScrollSlots)
  {
    if scrolls != [] then ScrollFeatures(n, scrolls, window) else Some(ConstIndexed("scroll_", "", ScrollSlots, Num(0.0)))
  }

  /** The three groups merged in order, then the developer-mode flag; an
      exception in any group propagates. */
  function Combine(mv: Option<map<string, Value>>, ck: Option<map<string, Value>>,
                   sc: Option<map<string, Value>>, recent: seq<MouseEvent>): Outcome
  {
    if mv.None? || ck.None? || sc.None? then Raised
    else Extracted((mv.value + ck.value + sc.value)["dev_mode" := Flag(AnyDevMode(recent))])
  }

  function Extract(n: Numerics, events: seq<MouseEvent>, cutoff: real, window: int): Outcome
  {
    var recent := Recent(events, cutoff);
    if |recent| < MinEvents then Insufficient
    else Combine(MovePart(n, Filter(recent, IsMovement), window), ClickPart(n, Filter(recent, IsClick), window),
                 ScrollPart(n, Filter(recent, IsScroll), window), recent)
  }

  function AllKeys(): set<string>
  {
    IndexedNames("move_", "", MoveSlots) + IndexedNames("click_", "", ClickSlots)
    + IndexedNames("scroll_", "", ScrollSlots) + {"dev_mode"}
  }

  /** The merge has exactly the three groups of names and the flag. */
  lemma CombineKeys(mv: Option<map<string, Value>>, ck: Option<map<string, Value>>,
                    sc: Option<map<string, Value>>, recent: seq<MouseEvent>)
    requires mv.Some? ==> mv.value.Keys == IndexedNames("move_", "", MoveSlots)
    requires ck.Some? ==> ck.value.Keys == IndexedNames("click_", "", ClickSlots)
    requires sc.Some? ==> sc.value.Keys == IndexedNames("scroll_", "", ScrollSlots)
    ensures Combine(mv, ck, sc, recent).Extracted? ==>
      Combine(mv, ck, sc, recent).features.Keys == AllKeys()
      && Combine(mv, ck, sc, recent).features["dev_mode"] == Flag(AnyDevMode(recent))
  {
  }

  /** Fewer than fifty window events give nothing; otherwise the result,
      unless numpy raises, has exactly move_0..19, click_0..9, scroll_0..7
      and dev_mode, which is set iff some window event was recorded in
      developer mode. */
  lemma ExtractShape(n: Numerics, events: seq<MouseEvent>, cutoff: real, window: int)
    ensures Extract(n, events, cutoff, window).Insufficient? <==> |Recent(events, cutoff)| < MinEvents
    ensures Extract(n, events, cutoff, window).Extracted? ==>
      Extract(n, events, cutoff, window).features.Keys == AllKeys()
      && Extract(n, events, cutoff, window).features["dev_mode"] == Flag(AnyDevMode(Recent(events, cutoff)))
  {
    var recent := Recent(events, cutoff);
    CombineKeys(MovePart(n, Filter(recent, IsMovement), window), ClickPart(n, Filter(recent, IsClick), window),
                ScrollPart(n, Filter(recent, IsScroll), window), recent);
  }

  lemma MovementsHaveY(events: seq<MouseEvent>, cutoff: real)
    requires forall i :: 0 <= i < |events| ==> events[i].y.Some?
    ensures Filter(Filter(Recent(events, cutoff), IsMovement), HasY) == Filter(Recent(events, cutoff), IsMovement)
  {
    var recent := Recent(events, cutoff);
    var moves := Filter(recent, IsMovement);
    forall i | 0 <= i < |moves| ensures HasY(moves[i]) {
      assert moves[i] in recent;
      assert moves[i] in events;
    }
    FilterAll(moves, HasY);
  }

  /** With a non-zero window length and `y` on every event, nothing raises. */
  lemma ExtractRaisesOnlyOnMissingData(n: Numerics, events: seq<MouseEvent>, cutoff: real, window: int)
    requires window != 0
    requires forall i :: 0 <= i < |events| ==> events[i].y.Some?
    ensures !Extract(n, events, cutoff, window).Raised?
  {
    var recent := Recent(events, cutoff);
    var moves := Filter(recent, IsMovement);
    MovementsHaveY(events, cutoff);
    assert MovePart(n, moves, window).Some?;
    assert ClickPart(n, Filter(recent, IsClick), window).Some?;
    assert ScrollPart(n, Filter(recent, IsScroll), window).Some?;
  }

  /** The bounded event buffer and the window it extracts from. */
  class Extractor {
    const windowSeconds: int
    var events: seq<MouseEvent>

    ghost predicate Valid()
      reads this`events
    {
      |events| <= Capacity
    }

    constructor(windowSeconds: int)
      ensures this.windowSeconds == windowSeconds && events == [] && Valid()
    {
      this.windowSeconds := windowSeconds;
      events := [];
    }

    /** `ts` is in microseconds; the buffer keeps the newest 50000 events. */
    method AddEvent(ts: int, x: Option<int>, y: Option<int>, kind: Kind, button: Option<string>,
                    scrollDelta: Option<int>, devModeActive: bool)
      requires Valid()
      modifies this`events
      ensures Valid()
      ensures events == DequeAppend(old(events),
        MouseEvent(ts as real / 1000000.0, x, y, kind, button, scrollDelta, devModeActive), Capacity)
    {
      events := DequeAppend(events, MouseEvent(ts as real / 1000000.0, x, y, kind, button, scrollDelta, devModeActive), Capacity);
    }

    /** `now` is the wall-clock time in seconds. */
    method ExtractFeatures(n: Numerics, now: real) returns (r: Outcome)
      ensures r == Extract(n, events, now - windowSeconds as real, windowSeconds)
    {
      var recent := Recent(events, now - windowSeconds as real);
      if |recent| < MinEvents {
        return Insufficient;
      }
      var mv := MovePart(n, Filter(recent, IsMovement), windowSeconds);
      var clicks := Filter(recent, IsClick);
      var ck := Some(ConstIndexed("click_", "", ClickSlots, Num(0.0)));
      if clicks != [] {
        ck := CalculateClickFeatures(n, clicks, windowSeconds);
      }
      return Combine(mv, ck, ScrollPart(n, Filter(recent, IsScroll), windowSeconds), recent);
    }
  }
}
