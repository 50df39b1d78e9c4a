// The Rust mouse feature calculator: twenty movement, ten click and eight
// scroll features over the events of the window, with the statistics
// helpers behind them and the IEEE special values they can produce.

module MouseFeaturesRs {
  import opened Common

  const MinEvents: nat := 50
  const MoveSlots: nat := 20
  const ClickSlots: nat := 10
  const ScrollSlots: nat := 8
  const VelocityLimit: real := 10000.0
  const AccelerationLimit: real := 100000.0
  const JerkLimit: real := 1000000.0
  const MinTimeStep: real := 0.001
  const IdleStep: real := 0.1
  const ClickLimit: real := 5000.0
  const DoubleClickGap: real := 0.5

  /** A buffered mouse event; `eventType` is `"move"`, `"press"`,
      `"release"` or `"scroll"`. */
  datatype MouseEvent = MouseEvent(timestamp: real, x: Option<real>, y: Option<real>, eventType: string,
                                   button: Option<string>, scrollDelta: Option<real>)

  function Time(e: MouseEvent): real { e.timestamp }

  predicate IsMove(e: MouseEvent) { e.eventType == "move" && e.x.Some? }

  predicate IsClick(e: MouseEvent) { e.eventType == "press" || e.eventType == "release" }

  predicate IsScroll(e: MouseEvent) { e.eventType == "scroll" }

  predicate IsPress(e: MouseEvent) { e.eventType == "press" }

  predicate IsRelease(e: MouseEvent) { e.eventType == "release" }

  function After(cutoff: real): MouseEvent -> bool
  {
    (e: MouseEvent) => e.timestamp > cutoff
  }

  // ---------------------------------------------------------------------
  // Doubles

  /** A double as far as the features need one: a finite value, an
      infinity, or not-a-number. */
  datatype F64 = Finite(r: real) | PosInf | NegInf | NaN

  /** `a / b` on doubles: division by zero gives an infinity with the sign
      of `a`, or NaN for `0 / 0`. */
  function Quotient(a: real, b: real): F64
  {
    if b != 0.0 then Finite(a / b) else if a > 0.0 then PosInf else if a < 0.0 then NegInf else NaN
  }

  /** Converting the feature map to JSON stores a non-finite double as
      null. */
  function Json(f: F64): Value
  {
    if f.Finite? then Num(f.r) else Null
  }

  /** `f64::max` of the accumulator and a finite value. */
  function Larger(acc: F64, x: real): F64
  {
    match acc
    case Finite(a) => Finite(MaxR(a, x))
    case PosInf => PosInf
    case _ => Finite(x)
  }

  /** `f64::min` of the accumulator and a finite value. */
  function Smaller(acc: F64, x: real): F64
  {
    match acc
    case Finite(a) => Finite(MinR(a, x))
    case NegInf => NegInf
    case _ => Finite(x)
  }

  /** The `max` helper: a fold from negative infinity. */
  function FoldMax(s: seq<real>): F64
  {
    if s == [] then NegInf else Larger(FoldMax(s[..|s| - 1]), s[|s| - 1])
  }

  /** The `min` helper: a fold from positive infinity. */
  function FoldMin(s: seq<real>): F64
  {
    if s == [] then PosInf else Smaller(FoldMin(s[..|s| - 1]), s[|s| - 1])
  }

  /** The fold is negative infinity on an empty slice and the largest
      element otherwise. */
  lemma {:induction false} FoldMaxIsMax(s: seq<real>)
    ensures s == [] ==> FoldMax(s) == NegInf
    ensures s != [] ==> FoldMax(s) == Finite(SeqMax(s))
  {
    if |s| > 1 {
      FoldMaxIsMax(s[..|s| - 1]);
    }
  }

  lemma {:induction false} FoldMinIsMin(s: seq<real>)
    ensures s == [] ==> FoldMin(s) == PosInf
    ensures s != [] ==> FoldMin(s) == Finite(SeqMin(s))
  {
    if |s| > 1 {
      FoldMinIsMin(s[..|s| - 1]);
    }
  }

  // ---------------------------------------------------------------------
  // Statistics helpers

  /** `std_dev`: zero for fewer than two values, otherwise the square root
      (not modelled) of the population variance. */
  function StdDev(n: Numerics, s: seq<real>): real
  {
    if |s| < 2 then 0.0 else n.sqrt(Variance(s))
  }

  /** `median`: zero for an empty slice. */
  function MedianOr0(s: seq<real>): real
  {
    if s == [] then 0.0 else Median(s)
  }

  /** The helpers' edge cases: the mean of nothing is 0, the deviation of
      fewer than two values is 0, the median of nothing is 0, and a median
      lies within the sample. */
  lemma HelperEdgeCases(n: Numerics, s: seq<real>)
    ensures s == [] ==> Mean(s) == 0.0 && MedianOr0(s) == 0.0
    ensures |s| < 2 ==> StdDev(n, s) == 0.0
    ensures s != [] ==> SeqMin(s) <= MedianOr0(s) <= SeqMax(s)
  {
    if s != [] {
      MedianWithin(s);
    }
  }

  // ---------------------------------------------------------------------
  // Movement (`calculate_movement_features`)

  function XOf(e: MouseEvent): real { if e.x.Some? then e.x.value else 0.0 }

  function YOf(e: MouseEvent): real { if e.y.Some? then e.y.value else 0.0 }

  predicate HasY(e: MouseEvent) { e.y.Some? }

  /** `filter_map(|e| e.y)`. */
  function Ys(ms: seq<MouseEvent>): seq<real>
  {
    Map(Filter(ms, HasY), YOf)
  }

  /** The length of a step `(dx, dy)`. */
  function Hypot(n: Numerics, dx: real, dy: real): real
  {
    n.sqrt(dx * dx + dy * dy)
  }

  /** The straight-line length of each step. */
  function Distances(n: Numerics, dx: seq<real>, dy: seq<real>): (r: seq<real>)
    requires |dx| == |dy|
    ensures |r| == |dx|
    ensures forall i :: 0 <= i < |r| ==> r[i] == Hypot(n, dx[i], dy[i])
  {
    if dx == [] then [] else Distances(n, dx[..|dx| - 1], dy[..|dy| - 1]) + [Hypot(n, dx[|dx| - 1], dy[|dy| - 1])]
  }

  function AtLeastStep(d: real): real { MaxR(d, MinTimeStep) }

  /** The time between samples, at least 1 ms. */
  function TimeSteps(t: seq<real>): (r: seq<real>)
    ensures |r| == |Diff(t)|
    ensures forall i :: 0 <= i < |r| ==> r[i] >= MinTimeStep
  {
    Map(Diff(t), AtLeastStep)
  }

  /** Element-wise `num[i] / den[i]`. */
  function Ratios(num: seq<real>, den: seq<real>): (r: seq<real>)
    requires |num| <= |den|
    requires forall i :: 0 <= i < |den| ==> den[i] != 0.0
    ensures |r| == |num|
    ensures forall i :: 0 <= i < |r| ==> r[i] == num[i] / den[i]
  {
    if num == [] then [] else Ratios(num[..|num| - 1], den) + [num[|num| - 1] / den[|num| - 1]]
  }

  function Below(limit: real): real -> bool
  {
    (v: real) => v < limit
  }

  function SmallerThan(limit: real): real -> bool
  {
    (v: real) => AbsR(v) < limit
  }

  /** Successive differences over the time steps, keeping those whose
      magnitude is under the limit (accelerations and jerk). */
  function CutRatios(s: seq<real>, dt: seq<real>, limit: real): (r: seq<real>)
    requires |s| <= |dt| + 1
    requires forall i :: 0 <= i < |dt| ==> dt[i] != 0.0
    ensures forall i :: 0 <= i < |r| ==> AbsR(r[i]) < limit
  {
    Filter(Ratios(Diff(s), dt), SmallerThan(limit))
  }

  function Angles(n: Numerics, dx: seq<real>, dy: seq<real>): (r: seq<real>)
    requires |dx| == |dy|
    ensures |r| == |dx|
    ensures forall i :: 0 <= i < |r| ==> r[i] == n.atan2(dy[i], dx[i])
  {
    if dx == [] then [] else Angles(n, dx[..|dx| - 1], dy[..|dy| - 1]) + [n.atan2(dy[|dy| - 1], dx[|dx| - 1])]
  }

  predicate Idle(d: real) { d > IdleStep }

  /** The intermediate vectors of the movement computation. */
  datatype Movement = Movement(dist: seq<real>, dt: seq<real>, velocities: seq<real>,
                               accelerations: seq<real>, angleChanges: seq<real>, jerk: seq<real>,
                               total: real, straight: real)

  /** The outlier cuts hold and every time step is at least 1 ms. */
  ghost predicate CutsHold(m: Movement)
  {
    (forall i :: 0 <= i < |m.velocities| ==> m.velocities[i] < VelocityLimit)
    && (forall i :: 0 <= i < |m.accelerations| ==> AbsR(m.accelerations[i]) < AccelerationLimit)
    && (forall i :: 0 <= i < |m.jerk| ==> AbsR(m.jerk[i]) < JerkLimit)
    && (forall i :: 0 <= i < |m.dt| ==> m.dt[i] >= MinTimeStep)
  }

  /** Step speeds under the outlier cut. */
  function Velocities(dist: seq<real>, dt: seq<real>): (r: seq<real>)
    requires |dist| <= |dt|
    requires forall i :: 0 <= i < |dt| ==> dt[i] != 0.0
    ensures |r| <= |dist|
    ensures forall i :: 0 <= i < |r| ==> r[i] < VelocityLimit
  {
    Filter(Ratios(dist, dt), Below(VelocityLimit))
  }

  /** The absolute change of direction between successive steps. */
  function AngleChanges(n: Numerics, x: seq<real>, y: seq<real>): seq<real>
    requires |x| == |y|
  {
    Map(Diff(Angles(n, Diff(x), Diff(y))), AbsR)
  }

  /** The distance from the first to the last position. */
  function Straight(n: Numerics, x: seq<real>, y: seq<real>): real
    requires |x| == |y| > 0
  {
    n.sqrt(Square(x[|x| - 1] - x[0]) + Square(y[|y| - 1] - y[0]))
  }

  /** Positions `x`, `y` and times `t` of at least three samples. */
  function Analyse(n: Numerics, x: seq<real>, y: seq<real>, t: seq<real>): (m: Movement)
    requires |x| == |y| == |t| > 2
    ensures |m.dt| == |t| - 1 && |m.dist| == |x| - 1
  {
    var dist := Distances(n, Diff(x), Diff(y));
    var dt := TimeSteps(t);
    var v := Velocities(dist, dt);
    var a := CutRatios(v, dt, AccelerationLimit);
    Movement(dist, dt, v, a, AngleChanges(n, x, y), CutRatios(a, dt, JerkLimit), Sum(dist), Straight(n, x, y))
  }

  /** Every velocity, acceleration and jerk kept is under its outlier cut,
      and every time step is at least 1 ms. */
  lemma AnalyseCuts(n: Numerics, x: seq<real>, y: seq<real>, t: seq<real>)
    requires |x| == |y| == |t| > 2
    ensures CutsHold(Analyse(n, x, y, t))
  {
    var dist := Distances(n, Diff(x), Diff(y));
    var dt := TimeSteps(t);
    var v := Velocities(dist, dt);
    var a := CutRatios(v, dt, AccelerationLimit);
    var m := Movement(dist, dt, v, a, AngleChanges(n, x, y), CutRatios(a, dt, JerkLimit), Sum(dist), Straight(n, x, y));
    assert Analyse(n, x, y, t) == m;
    assert CutsHold(m);
  }

  /** `move_0` .. `move_19` of `count` samples. */
  function MovementValues(n: Numerics, m: Movement, count: nat, window: nat): (v: seq<Value>)
    requires m.dt != [] && count > 0
    ensures |v| == MoveSlots
    ensures forall i :: 0 <= i < MoveSlots ==> v[i] == MovementValue(n, m, count, window, i)
  {
    seq(MoveSlots, i requires 0 <= i < MoveSlots => MovementValue(n, m, count, window, i))
  }

  /** Entry `i` of the movement vector. */
  function MovementValue(n: Numerics, m: Movement, count: nat, window: nat, i: nat): Value
    requires m.dt != [] && count > 0
  {
    match i
    case 0 => Num(Mean(m.velocities))
    case 1 => Num(StdDev(n, m.velocities))
    case 2 => Json(FoldMax(m.velocities))
    case 3 => Num(MedianOr0(m.velocities))
    case 4 => Num(Mean(Map(m.accelerations, AbsR)))
    case 5 => Num(StdDev(n, m.accelerations))
    case 6 => Json(FoldMax(Map(m.accelerations, AbsR)))
    case 7 => Num(1.0 - m.straight / MaxR(m.total, 1.0))
    case 8 => Num(Mean(m.angleChanges))
    case 9 => Num(StdDev(n, m.angleChanges))
    case 10 => Num(Mean(Map(m.jerk, AbsR)))
    case 11 => Num(StdDev(n, m.jerk))
    case 12 => Num(m.total)
    case 13 => Num(m.straight)
    case 14 => Num(m.total / count as real)
    case 15 => Num(Fraction(Count(m.dt, Idle), |m.dt|))
    case 16 => Num(Mean(m.dt))
    case 17 => Num(StdDev(n, m.dt))
    case 18 => Num(m.straight / MaxR(m.total, 1.0))
    case _ => Json(Quotient(count as real, window as real))
  }

  /** None where the source panics: a move with `x` but no `y` among at
      least two with `y` makes the distance loop index past the `y`
      values. */
  function MovementFeatures(n: Numerics, ms: seq<MouseEvent>, window: nat): (r: Option<map<string, Value>>)
    requires |ms| > 2 && forall i :: 0 <= i < |ms| ==> IsMove(ms[i])
  {
    var ys := Ys(ms);
    if |ys| < 2 then Some(ConstIndexed("move_", "", MoveSlots, Num(0.0)))
    else if |ys| < |ms| then None
    else Some(IndexedMap("move_", "", MovementValues(n, Analyse(n, Map(ms, XOf), ys, Map(ms, Time)), |ms|, window)))
  }

  /** The movement part panics exactly when some but not all but one of the
      moves lack `y`, and otherwise has the twenty `move_` names. */
  lemma MovementShape(n: Numerics, ms: seq<MouseEvent>, window: nat)
    requires |ms| > 2 && forall i :: 0 <= i < |ms| ==> IsMove(ms[i])
    ensures MovementFeatures(n, ms, window).None? <==> 2 <= Count(ms, HasY) < |ms|
    ensures MovementFeatures(n, ms, window).Some? ==>
              MovementFeatures(n, ms, window).value.Keys == IndexedNames("move_", "", MoveSlots)
  {
  }

  /** Curvature and efficiency add up to one. */
  lemma CurvatureEfficiency(n: Numerics, m: Movement, count: nat, window: nat)
    requires m.dt != [] && count > 0
    ensures MovementValues(n, m, count, window)[7].r + MovementValues(n, m, count, window)[18].r == 1.0
  {
  }

  /** The idle fraction lies in [0, 1]. */
  lemma IdleFraction(n: Numerics, m: Movement, count: nat, window: nat)
    requires m.dt != [] && count > 0
    ensures 0.0 <= MovementValues(n, m, count, window)[15].r <= 1.0
  {
    FractionUnit(Count(m.dt, Idle), |m.dt|);
  }

  lemma MaxSlots(n: Numerics, m: Movement, count: nat, window: nat)
    requires m.dt != [] && count > 0
    ensures MovementValues(n, m, count, window)[2] == Json(FoldMax(m.velocities))
    ensures MovementValues(n, m, count, window)[6] == Json(FoldMax(Map(m.accelerations, AbsR)))
  {
  }

  /** Without velocities the largest one is negative infinity, stored as
      null; otherwise it is the largest velocity, under the outlier cut. */
  lemma VelocityMax(n: Numerics, m: Movement, count: nat, window: nat)
    requires m.dt != [] && count > 0 && CutsHold(m)
    ensures var v := MovementValues(n, m, count, window);
      && (v[2] == Null <==> m.velocities == [])
      && (m.velocities != [] ==> v[2] == Num(SeqMax(m.velocities)) && v[2].r < VelocityLimit)
  {
    MaxSlots(n, m, count, window);
    FoldMaxIsMax(m.velocities);
    if m.velocities != [] {
      var k :| 0 <= k < |m.velocities| && m.velocities[k] == SeqMax(m.velocities);
    }
  }

  /** Likewise for the largest absolute acceleration. */
  lemma AccelerationMax(n: Numerics, m: Movement, count: nat, window: nat)
    requires m.dt != [] && count > 0 && CutsHold(m)
    ensures var v := MovementValues(n, m, count, window);
      && (v[6] == Null <==> m.accelerations == [])
      && (m.accelerations != [] ==> v[6].Num? && v[6].r < AccelerationLimit)
  {
    var absA := Map(m.accelerations, AbsR);
    MaxSlots(n, m, count, window);
    FoldMaxIsMax(absA);
    if absA != [] {
      var k :| 0 <= k < |absA| && absA[k] == SeqMax(absA);
    }
  }

  /** The movement frequency over a zero-length window is an infinity,
      stored as null. */
  lemma MoveFrequency(n: Numerics, m: Movement, count: nat, window: nat)
    requires m.dt != [] && count > 0
    ensures MovementValues(n, m, count, window)[19] ==
              if window == 0 then Null else Num(count as real / window as real)
  {
  }

  // ---------------------------------------------------------------------
  // Clicks (`calculate_click_features`)

  /** The press time of each button: a later press of the same button
      overwrites an earlier one; presses without a button are skipped. */
  function PressTable(presses: seq<MouseEvent>): map<string, real>
  {
    if presses == [] then map[]
    else
      var t, p := PressTable(presses[..|presses| - 1]), presses[|presses| - 1];
      if p.button.Some? then t[p.button.value := p.timestamp] else t
  }

  /** The latest press of `b` is at index `i`. */
  ghost predicate LatestPress(presses: seq<MouseEvent>, b: string, i: int)
  {
    0 <= i < |presses| && presses[i].button == Some(b)
    && forall j :: i < j < |presses| ==> presses[j].button != Some(b)
  }

  /** A button has a press time exactly when some press names it. */
  lemma {:induction false} PressTableHas(presses: seq<MouseEvent>, b: string)
    ensures b in PressTable(presses) <==> exists i :: 0 <= i < |presses| && presses[i].button == Some(b)
  {
    if presses != [] {
      var init, p := presses[..|presses| - 1], presses[|presses| - 1];
      PressTableHas(init, b);
      if exists i :: 0 <= i < |init| && init[i].button == Some(b) {
        var i :| 0 <= i < |init| && init[i].button == Some(b);
        assert presses[i] == init[i];
      }
      if exists i :: 0 <= i < |presses| && presses[i].button == Some(b) {
        var i :| 0 <= i < |presses| && presses[i].button == Some(b);
        if i < |init| {
          assert init[i] == presses[i];
        }
      }
    }
  }

  /** The press time of a button is that of its latest press: presses
      overwrite, and nothing removes them. */
  lemma {:induction false} PressTableLatest(presses: seq<MouseEvent>, b: string)
    requires b in PressTable(presses)
    ensures exists i :: LatestPress(presses, b, i) && PressTable(presses)[b] == presses[i].timestamp
  {
    var init, p := presses[..|presses| - 1], presses[|presses| - 1];
    if p.button == Some(b) {
      assert LatestPress(presses, b, |presses| - 1);
    } else {
      assert b in PressTable(init);
      PressTableLatest(init, b);
      var i :| LatestPress(init, b, i) && PressTable(init)[b] == init[i].timestamp;
      assert presses[i] == init[i];
      assert LatestPress(presses, b, i);
    }
  }

  /** The duration for one release: its time minus the press time of its
      button, in ms, when that lies in (0, 5000). */
  function ReleaseDuration(table: map<string, real>, r: MouseEvent): seq<real>
  {
    if r.button.Some? && r.button.value in table then
      var d := (r.timestamp - table[r.button.value]) * 1000.0;
      if 0.0 < d < ClickLimit then [d] else []
    else []
  }

  function Durations(table: map<string, real>, releases: seq<MouseEvent>): seq<real>
  {
    if releases == [] then []
    else Durations(table, releases[..|releases| - 1]) + ReleaseDuration(table, releases[|releases| - 1])
  }

  /** Releases do not consume press times: the durations of two runs of
      releases are those of each run. */
  lemma {:induction false} DurationsAppend(table: map<string, real>, a: seq<MouseEvent>, b: seq<MouseEvent>)
    ensures Durations(table, a + b) == Durations(table, a) + Durations(table, b)
  {
    if b == [] {
      assert a + b == a;
    } else {
      var init := b[..|b| - 1];
      assert (a + b)[..|a + b| - 1] == a + init;
      assert (a + b)[|a + b| - 1] == b[|b| - 1];
      DurationsAppend(table, a, init);
    }
  }

  /** Every duration lies in (0, 5000) ms, at most one per release. */
  lemma {:induction false} DurationsBounds(table: map<string, real>, releases: seq<MouseEvent>)
    ensures |Durations(table, releases)| <= |releases|
    ensures forall i :: 0 <= i < |Durations(table, releases)| ==> 0.0 < Durations(table, releases)[i] < ClickLimit
  {
    if releases != [] {
      DurationsBounds(table, releases[..|releases| - 1]);
    }
  }

  function ClickDurations(clicks: seq<MouseEvent>): seq<real>
  {
    Durations(PressTable(Filter(clicks, IsPress)), Filter(clicks, IsRelease))
  }

  function HasButton(name: string): MouseEvent -> bool
  {
    (e: MouseEvent) => e.button == Some(name)
  }

  function ButtonCount(presses: seq<MouseEvent>, name: string): nat
  {
    Count(presses, HasButton(name))
  }

  /** Adjacent gaps under half a second among the first `k + 1` times. */
  function DoubleClicksUpTo(ts: seq<real>, k: nat): nat
    requires k < |ts| || k == 0
  {
    if k == 0 then 0
    else DoubleClicksUpTo(ts, k - 1) + (if ts[k] - ts[k - 1] < DoubleClickGap then 1 else 0)
  }

  /** `for i in 0..len.saturating_sub(1)` over the sorted press times. */
  function DoubleClicks(ts: seq<real>): nat
  {
    if |ts| < 2 then 0 else DoubleClicksUpTo(ts, |ts| - 1)
  }

  lemma {:induction false} DoubleClicksUpToBound(ts: seq<real>, k: nat)
    requires k < |ts| || k == 0
    ensures DoubleClicksUpTo(ts, k) <= k
  {
    if k > 0 {
      DoubleClicksUpToBound(ts, k - 1);
    }
  }

  /** At most one double click per adjacent pair of presses. */
  lemma DoubleClicksBound(ts: seq<real>)
    ensures DoubleClicks(ts) <= if |ts| < 2 then 0 else |ts| - 1
  {
    if |ts| >= 2 {
      DoubleClicksUpToBound(ts, |ts| - 1);
    }
  }

  /** Press times in the order of the timestamp sort. */
  function SortedPressTimes(presses: seq<MouseEvent>): seq<real>
  {
    Map(SortBy(presses, Time), Time)
  }

  /** `click_0` .. `click_9` from the durations, the presses and the
      double-click count. */
  function ClickValuesOf(n: Numerics, d: seq<real>, presses: seq<MouseEvent>, dc: nat, window: nat): (v: seq<Value>)
    ensures |v| == ClickSlots
  {
    var left, right, middle := ButtonCount(presses, "Left"), ButtonCount(presses, "Right"), ButtonCount(presses, "Middle");
    [Num(Mean(d)), Num(StdDev(n, d)), Num(left as real), Num(right as real), Num(middle as real),
     Num(Fraction(left, left + right + middle)), Num(dc as real), Num(Fraction(dc, |presses|)),
     Json(Quotient(|presses| as real, window as real)), Num(MedianOr0(d))]
  }

  function ClickValues(n: Numerics, clicks: seq<MouseEvent>, window: nat): (v: seq<Value>)
    ensures |v| == ClickSlots
  {
    var presses := Filter(clicks, IsPress);
    ClickValuesOf(n, ClickDurations(clicks), presses, DoubleClicks(SortedPressTimes(presses)), window)
  }

  /** The left share lies in [0, 1]; with at most one double click per
      adjacent pair of presses, so does the double-click share. */
  lemma ClickShares(n: Numerics, d: seq<real>, presses: seq<MouseEvent>, dc: nat, window: nat)
    requires dc <= if |presses| < 2 then 0 else |presses| - 1
    ensures var v := ClickValuesOf(n, d, presses, dc, window);
      && 0.0 <= v[5].r <= 1.0
      && 0.0 <= v[7].r <= 1.0
  {
    var left, right, middle := ButtonCount(presses, "Left"), ButtonCount(presses, "Right"), ButtonCount(presses, "Middle");
    FractionUnit(left, left + right + middle);
    FractionUnit(dc, |presses|);
  }

  /** The double clicks of a click list are at most its presses less one. */
  lemma ClickBounds(n: Numerics, clicks: seq<MouseEvent>, window: nat)
    ensures var v := ClickValues(n, clicks, window); var presses := |Filter(clicks, IsPress)|;
      && 0.0 <= v[5].r <= 1.0
      && 0.0 <= v[7].r <= 1.0
      && v[6].r <= if presses < 2 then 0.0 else (presses - 1) as real
  {
    var presses := Filter(clicks, IsPress);
    var ts := SortedPressTimes(presses);
    DoubleClicksBound(ts);
    ClickShares(n, ClickDurations(clicks), presses, DoubleClicks(ts), window);
  }

  // ---------------------------------------------------------------------
  // Scrolls (`calculate_scroll_features`)

  predicate HasDelta(e: MouseEvent) { e.scrollDelta.Some? }

  function DeltaOf(e: MouseEvent): real { if e.scrollDelta.Some? then e.scrollDelta.value else 0.0 }

  /** `filter_map(|e| e.scroll_delta)`. */
  function Deltas(scrolls: seq<MouseEvent>): seq<real>
  {
    Map(Filter(scrolls, HasDelta), DeltaOf)
  }

  predicate Up(d: real) { d > 0.0 }

  predicate Down(d: real) { d < 0.0 }

  predicate NonZero(d: real) { d != 0.0 }

  function ScrollValues(n: Numerics, scrolls: seq<MouseEvent>, deltas: seq<real>, window: nat): (v: seq<Value>)
    requires deltas != []
    ensures |v| == ScrollSlots
    ensures forall i :: 0 <= i < ScrollSlots ==> v[i] == ScrollValue(n, scrolls, deltas, window, i)
  {
    seq(ScrollSlots, i requires 0 <= i < ScrollSlots => ScrollValue(n, scrolls, deltas, window, i))
  }

  /** Entry `i` of the scroll vector. */
  function ScrollValue(n: Numerics, scrolls: seq<MouseEvent>, deltas: seq<real>, window: nat, i: nat): Value
    requires deltas != []
  {
    match i
    case 0 => Num(Mean(Map(deltas, AbsR)))
    case 1 => Num(StdDev(n, deltas))
    case 2 => Num(|Filter(deltas, Up)| as real)
    case 3 => Num(|Filter(deltas, Down)| as real)
    case 4 => Num(|Filter(deltas, Up)| as real / |deltas| as real)
    case 5 => Json(Quotient(|scrolls| as real, window as real))
    case 6 => Num(Mean(Diff(Map(scrolls, Time))))
    case _ => Num(StdDev(n, Diff(Map(scrolls, Time))))
  }

  function ScrollFeatures(n: Numerics, scrolls: seq<MouseEvent>, window: nat): (r: map<string, Value>)
    ensures r.Keys == IndexedNames("scroll_", "", ScrollSlots)
  {
    var deltas := Deltas(scrolls);
    if deltas == [] then ConstIndexed("scroll_", "", ScrollSlots, Num(0.0))
    else IndexedMap("scroll_", "", ScrollValues(n, scrolls, deltas, window))
  }

  /** Up and down scrolls together are the non-zero deltas, and the up
      share lies in [0, 1]. */
  lemma ScrollBounds(n: Numerics, scrolls: seq<MouseEvent>, deltas: seq<real>, window: nat)
    requires deltas != []
    ensures var v := ScrollValues(n, scrolls, deltas, window);
      && v[2].r + v[3].r == Count(deltas, NonZero) as real <= |deltas| as real
      && 0.0 <= v[4].r <= 1.0
  {
    var up, down := Filter(deltas, Up), Filter(deltas, Down);
    FilterDisjoint(deltas, Up, Down, NonZero);
    UpShare(|up|, |deltas|);
  }

  lemma UpShare(up: nat, len: nat)
    requires up <= len && len > 0
    ensures 0.0 <= up as real / len as real <= 1.0
  {
    assert up as real / len as real <= len as real / len as real;
  }

  /** Without deltas every scroll feature is zero. */
  lemma ScrollZeros(n: Numerics, scrolls: seq<MouseEvent>, window: nat)
    requires Deltas(scrolls) == []
    ensures forall k :: k in ScrollFeatures(n, scrolls, window) ==> ScrollFeatures(n, scrolls, window)[k] == Num(0.0)
  {
  }

  // ---------------------------------------------------------------------
  // The feature map (`extract_features`)

  /** The result: too few events, a panic of the movement computation, or
      the features. */
  datatype Outcome = Insufficient | Panicked | Extracted(features: map<string, Value>)

  function Moves(recent: seq<MouseEvent>): (r: seq<MouseEvent>)
    ensures forall i :: 0 <= i < |r| ==> IsMove(r[i])
  {
    Filter(recent, IsMove)
  }

  function MovePart(n: Numerics, recent: seq<MouseEvent>, window: nat): Option<map<string, Value>>
  {
    var ms := Moves(recent);
    if |ms| > 2 then MovementFeatures(n, ms, window) else Some(ConstIndexed("move_", "", MoveSlots, Num(0.0)))
  }

  function ClickPart(n: Numerics, recent: seq<MouseEvent>, window: nat): (r: map<string, Value>)
    ensures r.Keys == IndexedNames("click_", "", ClickSlots)
  {
    var clicks := Filter(recent, IsClick);
    if clicks == [] then ConstIndexed("click_", "", ClickSlots, Num(0.0))
    else IndexedMap("click_", "", ClickValues(n, clicks, window))
  }

  function Extract(n: Numerics, events: seq<MouseEvent>, now: real, window: nat): Outcome
  {
    var recent := Filter(events, After(now - window as real));
    if |recent| < MinEvents then Insufficient
    else
      var moves := MovePart(n, recent, window);
      if moves.None? then Panicked
      else Extracted(moves.value + ClickPart(n, recent, window) + ScrollFeatures(n, Filter(recent, IsScroll), window)
                     + map["dev_mode" := Num(0.0)])
  }

  function FeatureNames(): set<string>
  {
    IndexedNames("move_", "", MoveSlots) + IndexedNames("click_", "", ClickSlots)
    + IndexedNames("scroll_", "", ScrollSlots) + {"dev_mode"}
  }

  lemma MovePartKeys(n: Numerics, recent: seq<MouseEvent>, window: nat)
    ensures MovePart(n, recent, window).Some? ==> MovePart(n, recent, window).value.Keys == IndexedNames("move_", "", MoveSlots)
  {
    var ms := Moves(recent);
    if |ms| > 2 {
      MovementShape(n, ms, window);
    }
  }

  /** Fewer than fifty events in the window give no features; otherwise,
      unless the movement computation panics, the map has exactly the
      twenty move, ten click and eight scroll names and `dev_mode`, which
      is zero. */
  lemma ExtractShape(n: Numerics, events: seq<MouseEvent>, now: real, window: nat)
    ensures Extract(n, events, now, window) == Insufficient <==> |Filter(events, After(now - window as real))| < MinEvents
    ensures Extract(n, events, now, window).Extracted? ==>
              Extract(n, events, now, window).features.Keys == FeatureNames()
              && Extract(n, events, now, window).features["dev_mode"] == Num(0.0)
  {
    var recent := Filter(events, After(now - window as real));
    var moves := MovePart(n, recent, window);
    MovePartKeys(n, recent, window);
    if |recent| >= MinEvents && moves.Some? {
      var clicks, scrolls := ClickPart(n, recent, window), ScrollFeatures(n, Filter(recent, IsScroll), window);
      MergeParts(moves.value, clicks, scrolls);
      assert Extract(n, events, now, window) == Extracted(moves.value + clicks + scrolls + map["dev_mode" := Num(0.0)]);
    }
  }

  /** The keys of the merged parts, with `dev_mode` last. */
  lemma MergeParts(moves: map<string, Value>, clicks: map<string, Value>, scrolls: map<string, Value>)
    ensures var all := moves + clicks + scrolls + map["dev_mode" := Num(0.0)];
      all.Keys == moves.Keys + clicks.Keys + scrolls.Keys + {"dev_mode"} && all["dev_mode"] == Num(0.0)
  {
  }

  // ---------------------------------------------------------------------
  // The loops of the source

  /** The release loop over a fixed press table. */
  method MatchReleases(table: map<string, real>, releases: seq<MouseEvent>) returns (durations: seq<real>)
    ensures durations == Durations(table, releases)
  {
    durations := [];
    var i := 0;
    while i < |releases|
      invariant 0 <= i <= |releases|
      invariant durations == Durations(table, releases[..i])
    {
      var r := releases[i];
      assert releases[..i + 1][..i] == releases[..i];
      if r.button.Some? && r.button.value in table {
        var duration := (r.timestamp - table[r.button.value]) * 1000.0;
        if 0.0 < duration < ClickLimit {
          durations := durations + [duration];
        }
      }
      i := i + 1;
    }
    assert releases[..i] == releases;
  }

  /** The press loop filling the press table. */
  method RecordPresses(presses: seq<MouseEvent>) returns (table: map<string, real>)
    ensures table == PressTable(presses)
  {
    table := map[];
    var i := 0;
    while i < |presses|
      invariant 0 <= i <= |presses|
      invariant table == PressTable(presses[..i])
    {
      assert presses[..i + 1][..i] == presses[..i];
      if presses[i].button.Some? {
        table := table[presses[i].button.value := presses[i].timestamp];
      }
      i := i + 1;
    }
    assert presses[..i] == presses;
  }

  method CountDoubleClicks(ts: seq<real>) returns (count: nat)
    ensures count == DoubleClicks(ts)
  {
    count := 0;
    if |ts| < 2 {
      return;
    }
    var i := 0;
    while i < |ts| - 1
      invariant 0 <= i <= |ts| - 1
      invariant count == DoubleClicksUpTo(ts, i)
    {
      if ts[i + 1] - ts[i] < DoubleClickGap {
        count := count + 1;
      }
      i := i + 1;
    }
  }

  lemma RatiosStep(num: seq<real>, den: seq<real>, i: nat)
    requires |num| <= |den| && i < |num|
    requires forall k :: 0 <= k < |den| ==> den[k] != 0.0
    ensures Ratios(num[..i + 1], den) == Ratios(num[..i], den) + [num[i] / den[i]]
  {
    assert num[..i + 1][..i] == num[..i];
  }

  lemma CutStep(d: seq<real>, dt: seq<real>, limit: real, i: nat)
    requires |d| <= |dt| && i < |d|
    requires forall k :: 0 <= k < |dt| ==> dt[k] != 0.0
    ensures Filter(Ratios(d[..i + 1], dt), SmallerThan(limit))
         == Filter(Ratios(d[..i], dt), SmallerThan(limit)) + (if AbsR(d[i] / dt[i]) < limit then [d[i] / dt[i]] else [])
  {
    var q := d[i] / dt[i];
    RatiosStep(d, dt, i);
    FilterAppend(Ratios(d[..i], dt), [q], SmallerThan(limit));
    assert [q][1..] == [];
    assert Filter([q], SmallerThan(limit)) == if AbsR(q) < limit then [q] else [];
  }

  /** The acceleration and jerk loops: differences of successive values
      over the time step at the same index, kept under the limit. */
  method CalculateCutRatios(s: seq<real>, dt: seq<real>, limit: real) returns (r: seq<real>)
    requires |s| <= |dt| + 1
    requires forall i :: 0 <= i < |dt| ==> dt[i] != 0.0
    ensures r == CutRatios(s, dt, limit)
  {
    r := [];
    if |s| <= 1 {
      return;
    }
    var d := Diff(s);
    var i := 0;
    while i < |s| - 1
      invariant 0 <= i <= |s| - 1
      invariant r == Filter(Ratios(d[..i], dt), SmallerThan(limit))
    {
      var ratio := d[i] / dt[i];
      CutStep(d, dt, limit, i);
      if AbsR(ratio) < limit {
        r := r + [ratio];
      }
      i := i + 1;
    }
    assert d[..i] == d;
  }

  lemma DistancesStep(n: Numerics, dx: seq<real>, dy: seq<real>, i: nat)
    requires |dx| == |dy| && i < |dx|
    ensures Distances(n, dx[..i + 1], dy[..i + 1]) == Distances(n, dx[..i], dy[..i]) + [Hypot(n, dx[i], dy[i])]
  {
    assert dx[..i + 1][..i] == dx[..i];
    assert dy[..i + 1][..i] == dy[..i];
  }

  /** The distance loop. */
  method CalculateDistances(n: Numerics, x: seq<real>, y: seq<real>) returns (dist: seq<real>)
    requires |x| == |y| >= 2
    ensures dist == Distances(n, Diff(x), Diff(y))
  {
    var dxs, dys := Diff(x), Diff(y);
    dist := [];
    var i := 0;
    while i < |x| - 1
      invariant 0 <= i <= |x| - 1
      invariant dist == Distances(n, dxs[..i], dys[..i])
    {
      var dx := x[i + 1] - x[i];
      var dy := y[i + 1] - y[i];
      assert dx == dxs[i] && dy == dys[i];
      DistancesStep(n, dxs, dys, i);
      dist := dist + [Hypot(n, dx, dy)];
      i := i + 1;
    }
    assert dxs[..i] == dxs;
    assert dys[..i] == dys;
  }

  /** The vectors of the movement computation, by its loops. */
  method AnalyseMovement(n: Numerics, x: seq<real>, y: seq<real>, t: seq<real>) returns (m: Movement)
    requires |x| == |y| == |t| > 2
    ensures m == Analyse(n, x, y, t)
  {
    var dist := CalculateDistances(n, x, y);
    var dt := TimeSteps(t);
    var v := Velocities(dist, dt);
    var a := CalculateCutRatios(v, dt, AccelerationLimit);
    var j := CalculateCutRatios(a, dt, JerkLimit);
    m := Movement(dist, dt, v, a, AngleChanges(n, x, y), j, Sum(dist), Straight(n, x, y));
  }

  /** `MouseFeatureCalculator`: the window length it was built with. */
  class Calculator {
    const windowSeconds: nat

    constructor(windowSeconds: nat)
      ensures this.windowSeconds == windowSeconds
    {
      this.windowSeconds := windowSeconds;
    }

    /** `calculate_movement_features` with its distance, acceleration and
        jerk loops. */
    method MovementPart(n: Numerics, ms: seq<MouseEvent>) returns (r: Option<map<string, Value>>)
      requires |ms| > 2 && forall i :: 0 <= i < |ms| ==> IsMove(ms[i])
      ensures r == MovementFeatures(n, ms, windowSeconds)
    {
      var ys := Ys(ms);
      if |ys| < 2 {
        return Some(ConstIndexed("move_", "", MoveSlots, Num(0.0)));
      }
      if |ys| < |ms| {
        // the distance loop indexes past the last `y`
        return None;
      }
      var m := AnalyseMovement(n, Map(ms, XOf), ys, Map(ms, Time));
      r := Some(IndexedMap("move_", "", MovementValues(n, m, |ms|, windowSeconds)));
    }

    /** `calculate_click_features`: the press and release loops. */
    method ClickFeatures(n: Numerics, clicks: seq<MouseEvent>) returns (v: seq<Value>)
      ensures v == ClickValues(n, clicks, windowSeconds)
    {
      var presses := Filter(clicks, IsPress);
      var table := RecordPresses(presses);
      var d := MatchReleases(table, Filter(clicks, IsRelease));
      var dc := CountDoubleClicks(SortedPressTimes(presses));
      v := ClickValuesOf(n, d, presses, dc, windowSeconds);
    }

    /** `extract_features(events, current_time)`. */
    method ExtractFeatures(n: Numerics, events: seq<MouseEvent>, now: real) returns (r: Outcome)
      ensures r == Extract(n, events, now, windowSeconds)
    {
      var recent := Filter(events, After(now - windowSeconds as real));
      if |recent| < MinEvents {
        return Insufficient;
      }
      var ms := Moves(recent);
      var moves := Some(ConstIndexed("move_", "", MoveSlots, Num(0.0)));
      if |ms| > 2 {
        moves := MovementPart(n, ms);
      }
      if moves.None? {
        return Panicked;
      }
      var clicks := Filter(recent, IsClick);
      var clickPart: map<string, Value>;
      if clicks == [] {
        clickPart := ConstIndexed("click_", "", ClickSlots, Num(0.0));
      } else {
        var v := ClickFeatures(n, clicks);
        clickPart := IndexedMap("click_", "", v);
      }
      var scrollPart := ScrollFeatures(n, Filter(recent, IsScroll), windowSeconds);
      r := Extracted(moves.value + clickPart + scrollPart + map["dev_mode" := Num(0.0)]);
    }
  }
}
