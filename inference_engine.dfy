/** The inference engine: per-modality confidence scores from trained models,
    three bounded score histories, exponential smoothing and weighted fusion.

    The trained models are opaque: a classifier is a record of the calls the
    engine makes on it, each of which may raise (`None`). */
module InferenceEngine {
  import opened Common

  const HistoryCapacity := 10
  const NeutralScore := 50.0
  const Alpha := 0.3
  const DefaultProbability := 0.01

  /** A loaded scikit-learn estimator, seen through the calls the engine
      makes. `proba` is present when the estimator has `predict_proba` and
      yields the probability of class 1; `decision` is present when it has
      `decision_function`. */
  datatype Classifier = Classifier(
    proba: Option<seq<real> -> Option<real>>,
    decision: Option<seq<real> -> Option<real>>,
    predict: seq<real> -> Option<int>)

  /** The feature scaler stored with the mouse model. */
  type Scaler = seq<real> -> Option<seq<real>>

  /** The app-usage model read from JSON: the probability of each
      "from->to" entry (`None` when the entry has no probability field) and,
      per app, the probability of each hour key. */
  datatype AppModel = AppModel(
    transitions: map<string, Option<real>>,
    hourly: map<string, map<string, Option<real>>>)

  // -----------------------------------------------------------------------
  // Model-file selection

  /** The glob `<prefix>*<suffix>`. */
  predicate Matches(name: string, prefix: string, suffix: string)
  {
    |name| >= |prefix| + |suffix|
    && name[..|prefix|] == prefix
    && name[|name| - |suffix|..] == suffix
  }

  /** `sorted(glob(pattern), reverse=True)[0]` when anything matches: the
      lexically greatest matching file name. */
  function SelectLatest(files: seq<string>, prefix: string, suffix: string): (r: Option<string>)
    ensures r.None? <==> forall i :: 0 <= i < |files| ==> !Matches(files[i], prefix, suffix)
    ensures r.Some? ==> r.value in files && Matches(r.value, prefix, suffix)
    ensures r.Some? ==> forall i :: 0 <= i < |files| && Matches(files[i], prefix, suffix)
                                    ==> !StrLess(r.value, files[i])
    decreases |files|
  {
    if files == [] then None
    else
      var init := files[..|files| - 1];
      var last := files[|files| - 1];
      assert forall i :: 0 <= i < |files| - 1 ==> files[i] == init[i];
      var best := SelectLatest(init, prefix, suffix);
      if !Matches(last, prefix, suffix) then best
      else if best.None? then
        StrLessIrreflexive(last);
        Some(last)
      else if StrLess(best.value, last) then
        assert forall i :: 0 <= i < |files| && Matches(files[i], prefix, suffix)
                 ==> !StrLess(last, files[i]) by {
          forall i | 0 <= i < |files| && Matches(files[i], prefix, suffix)
            ensures !StrLess(last, files[i])
          {
            if i == |files| - 1 {
              StrLessIrreflexive(last);
            } else if StrLess(last, files[i]) {
              StrLessTrans(best.value, last, files[i]);
            }
          }
        }
        Some(last)
      else
        best
  }

  const KeystrokePrefix := "keystroke_rf_"
  const MousePrefix := "mouse_svm_"
  const AppPrefix := "app_markov_"

  // -----------------------------------------------------------------------
  // Feature vectors

  /** `float(value) if value is not None else 0.0`; `toFloat` is Python's
      `float` on a string, which may raise. */
  function NumericValue(v: Value, toFloat: string -> Option<real>): Option<real>
  {
    match v
    case Num(r) => Some(r)
    case Flag(b) => Some(if b then 1.0 else 0.0)
    case Null => Some(0.0)
    case Text(s) => toFloat(s)
  }

  /** One component: `features.get(name, 0.0)` converted. */
  function Component(features: seq<(string, Value)>, name: string, toFloat: string -> Option<real>): Option<real>
  {
    match Lookup(features, name)
    case None => Some(0.0)
    case Some(v) => NumericValue(v, toFloat)
  }

  /** The vector in declared-name order; `None` when some conversion raises. */
  function NamedVector(features: seq<(string, Value)>, names: seq<string>, toFloat: string -> Option<real>)
    : (r: Option<seq<real>>)
    ensures r.Some? <==> forall i :: 0 <= i < |names| ==> Component(features, names[i], toFloat).Some?
    ensures r.Some? ==> |r.value| == |names|
    ensures r.Some? ==> forall i :: 0 <= i < |names| ==> r.value[i] == Component(features, names[i], toFloat).value
    decreases |names|
  {
    if names == [] then Some([])
    else
      var init := names[..|names| - 1];
      assert forall i :: 0 <= i < |names| - 1 ==> names[i] == init[i];
      match NamedVector(features, init, toFloat)
      case None => None
      case Some(v) =>
        match Component(features, names[|names| - 1], toFloat)
        case None => None
        case Some(x) => Some(v + [x])
  }

  /** The append loop that builds the vector from the declared names. */
  method BuildNamedVector(features: seq<(string, Value)>, names: seq<string>, toFloat: string -> Option<real>)
    returns (r: Option<seq<real>>)
    ensures r == NamedVector(features, names, toFloat)
  {
    var v: seq<real> := [];
    var i := 0;
    while i < |names|
      invariant 0 <= i <= |names|
      invariant NamedVector(features, names[..i], toFloat) == Some(v)
    {
      var c := Component(features, names[i], toFloat);
      if c.None? {
        assert NamedVector(features, names[..i + 1], toFloat).None? by {
          assert names[..i + 1][i] == names[i];
        }
        NamedVectorNonePropagates(features, names, i + 1, toFloat);
        return None;
      }
      assert names[..i + 1][..i] == names[..i];
      v := v + [c.value];
      i := i + 1;
    }
    assert names[..i] == names;
    r := Some(v);
  }

  /** Once a prefix fails to convert, the whole vector does. */
  lemma NamedVectorNonePropagates(features: seq<(string, Value)>, names: seq<string>, k: nat,
                                  toFloat: string -> Option<real>)
    requires k <= |names|
    requires NamedVector(features, names[..k], toFloat).None?
    ensures NamedVector(features, names, toFloat).None?
  {
    var i :| 0 <= i < k && Component(features, names[..k][i], toFloat).None?;
    assert names[..k][i] == names[i];
  }

  /** Keys the fallback vector leaves out. */
  predicate Excluded(k: string)
  {
    k == "dev_mode" || k == "timestamp" || k == "type"
  }

  /** `isinstance(v, (int, float))`, which holds for booleans too. */
  predicate IsNumeric(v: Value)
  {
    v.Num? || v.Flag?
  }

  function NumberOf(v: Value): real
  {
    match v
    case Num(r) => r
    case Flag(b) => if b then 1.0 else 0.0
    case _ => 0.0
  }

  /** Without declared names: every numeric feature in dictionary order,
      except the excluded keys. */
  function FallbackVector(features: seq<(string, Value)>): (r: seq<real>)
    ensures |r| == |Filter(features, (e: (string, Value)) => IsNumeric(e.1) && !Excluded(e.0))|
  {
    Map(Filter(features, (e: (string, Value)) => IsNumeric(e.1) && !Excluded(e.0)),
        (e: (string, Value)) => NumberOf(e.1))
  }

  /** The fallback vector is empty exactly when no feature qualifies. */
  lemma FallbackVectorEmpty(features: seq<(string, Value)>)
    ensures FallbackVector(features) == []
            <==> forall i :: 0 <= i < |features| ==> !(IsNumeric(features[i].1) && !Excluded(features[i].0))
  {
    var p := (e: (string, Value)) => IsNumeric(e.1) && !Excluded(e.0);
    var q := (e: (string, Value)) => !p(e);
    if FallbackVector(features) == [] {
      FilterPartition(features, p, q);
      FilterFull(features, q);
    } else {
      var f := Filter(features, p);
      assert f[0] in features;
    }
  }

  // -----------------------------------------------------------------------
  // Scores

  /** The score the keystroke model yields, or `None` when the call returns
      the neutral score without touching history (no model, empty vector,
      or an exception anywhere). */
  function KeystrokeOutcome(model: Option<Classifier>, names: seq<string>, features: seq<(string, Value)>,
                            toFloat: string -> Option<real>): Option<real>
  {
    if model.None? then None
    else
      var vec := if names != [] then NamedVector(features, names, toFloat) else Some(FallbackVector(features));
      if vec.None? || vec.value == [] then None
      else
        match model.value.proba
        case Some(proba) =>
          (match proba(vec.value) case None => None case Some(p) => Some(p * 100.0))
        case None =>
          (match model.value.predict(vec.value) case None => None case Some(c) => Some(if c == 1 then 100.0 else 0.0))
  }

  /** A probability in [0,1] gives a score in [0,100]; a bare prediction
      gives 100 for class 1 and 0 otherwise; no model gives no score. */
  lemma KeystrokeOutcomeRange(model: Option<Classifier>, names: seq<string>, features: seq<(string, Value)>,
                              toFloat: string -> Option<real>)
    requires model.Some? && model.value.proba.Some?
             ==> forall x :: model.value.proba.value(x).Some? ==> 0.0 <= model.value.proba.value(x).value <= 1.0
    ensures model.None? ==> KeystrokeOutcome(model, names, features, toFloat).None?
    ensures KeystrokeOutcome(model, names, features, toFloat).Some?
            ==> 0.0 <= KeystrokeOutcome(model, names, features, toFloat).value <= 100.0
    ensures model.Some? && model.value.proba.None? && KeystrokeOutcome(model, names, features, toFloat).Some?
            ==> KeystrokeOutcome(model, names, features, toFloat).value in {0.0, 100.0}
  {
  }

  /** With declared names, the model sees exactly one value per name, in
      order, missing names as 0.0. */
  lemma KeystrokeSeesNamedVector(c: Classifier, names: seq<string>, features: seq<(string, Value)>,
                                 toFloat: string -> Option<real>, p: real)
    requires names != [] && c.proba.Some?
    requires forall x :: c.proba.value(x) == Some(p)
    requires forall i :: 0 <= i < |names| ==> Lookup(features, names[i]).None?
    ensures KeystrokeOutcome(Some(c), names, features, toFloat) == Some(p * 100.0)
    ensures NamedVector(features, names, toFloat).Some?
    ensures forall i :: 0 <= i < |names| ==> NamedVector(features, names, toFloat).value[i] == 0.0
  {
  }

  ghost predicate ExpPositive(n: Numerics)
  {
    forall x :: n.exp(x) > 0.0
  }

  /** `100 / (1 + exp(-decision))`. */
  function Sigmoid100(n: Numerics, d: real): (r: real)
    requires ExpPositive(n)
    ensures 0.0 < r < 100.0
  {
    var den := 1.0 + n.exp(-d);
    assert den > 1.0;
    100.0 / den
  }

  /** Mouse scoring: scaling (when a scaler was stored), `predict` (always
      called), then the decision value through a sigmoid when available,
      else 100 or 0 from the prediction. */
  function MouseOutcome(n: Numerics, model: Option<Classifier>, scaler: Option<Scaler>, names: seq<string>,
                        features: seq<(string, Value)>, toFloat: string -> Option<real>): Option<real>
    requires ExpPositive(n)
  {
    if model.None? then None
    else
      var vec := if names != [] then NamedVector(features, names, toFloat) else Some(FallbackVector(features));
      if vec.None? || vec.value == [] then None
      else
        var x := if scaler.None? then Some(vec.value) else scaler.value(vec.value);
        if x.None? then None
        else
          match model.value.predict(x.value)
          case None => None
          case Some(c) =>
            match model.value.decision
            case Some(decision) =>
              (match decision(x.value) case None => None case Some(d) => Some(Sigmoid100(n, d)))
            case None => Some(if c == 1 then 100.0 else 0.0)
  }

  /** Every mouse score lies in [0,100], strictly inside when it comes from
      a decision value; no model gives no score. */
  lemma MouseOutcomeRange(n: Numerics, model: Option<Classifier>, scaler: Option<Scaler>, names: seq<string>,
                          features: seq<(string, Value)>, toFloat: string -> Option<real>)
    requires ExpPositive(n)
    ensures model.None? ==> MouseOutcome(n, model, scaler, names, features, toFloat).None?
    ensures MouseOutcome(n, model, scaler, names, features, toFloat).Some?
            ==> 0.0 <= MouseOutcome(n, model, scaler, names, features, toFloat).value <= 100.0
    ensures model.Some? && model.value.decision.Some? && MouseOutcome(n, model, scaler, names, features, toFloat).Some?
            ==> 0.0 < MouseOutcome(n, model, scaler, names, features, toFloat).value < 100.0
  {
  }

  /** `transitions.get("from->to", {}).get("probability", 0.01)`. */
  function TransitionProbability(m: AppModel, fromApp: string, toApp: string): real
  {
    var key := fromApp + "->" + toApp;
    if key in m.transitions && m.transitions[key].Some? then m.transitions[key].value else DefaultProbability
  }

  /** `hourly_distribution.get(str(hour), {}).get("probability", 0.01)` for the target app. */
  function TimeProbability(m: AppModel, toApp: string, hour: int): real
  {
    var key := IntToString(hour);
    if toApp in m.hourly && key in m.hourly[toApp] && m.hourly[toApp][key].Some?
    then m.hourly[toApp][key].value
    else DefaultProbability
  }

  /** `min(100, max(0, 50 + 50 * log10(sqrt(tp * hp) + 0.001) / 2))`. */
  function CombineProbabilities(n: Numerics, tp: real, hp: real): (r: real)
    ensures 0.0 <= r <= 100.0
  {
    var raw := 50.0 + 50.0 * n.log10(n.sqrt(tp * hp) + 0.001) / 2.0;
    var lower := if 0.0 < raw then raw else 0.0;
    if lower < 100.0 then lower else 100.0
  }

  function AppScore(n: Numerics, m: AppModel, fromApp: string, toApp: string, hour: int): real
  {
    CombineProbabilities(n, TransitionProbability(m, fromApp, toApp), TimeProbability(m, toApp, hour))
  }

  /** An unseen transition and hour both fall back to probability 0.01. */
  lemma AppScoreUnseen(n: Numerics, m: AppModel, fromApp: string, toApp: string, hour: int)
    requires fromApp + "->" + toApp !in m.transitions
    requires toApp !in m.hourly
    ensures AppScore(n, m, fromApp, toApp, hour) == CombineProbabilities(n, 0.01, 0.01)
  {
  }

  /** Probabilities at most 1 cap the app score near 50: with a square root
      at most 1 on [0,1] and a monotone logarithm, the score never exceeds
      50 + 25·log10(1.001). */
  lemma AppScoreCeiling(n: Numerics, tp: real, hp: real)
    requires 0.0 <= tp <= 1.0 && 0.0 <= hp <= 1.0
    requires forall x :: 0.0 <= x <= 1.0 ==> n.sqrt(x) <= 1.0
    requires forall x, y :: x <= y ==> n.log10(x) <= n.log10(y)
    requires n.log10(1.001) >= 0.0
    ensures CombineProbabilities(n, tp, hp) <= 50.0 + 25.0 * n.log10(1.001)
  {
    assert 0.0 <= tp * hp <= 1.0 by {
      assert tp * hp <= 1.0 * hp;
    }
    assert n.log10(n.sqrt(tp * hp) + 0.001) <= n.log10(1.001);
  }

  // -----------------------------------------------------------------------
  // Smoothing and fusion

  /** The exponential moving average seeded with the oldest score. */
  function Ema(s: seq<real>): real
    requires s != []
    decreases |s|
  {
    if |s| == 1 then s[0] else Alpha * s[|s| - 1] + (1.0 - Alpha) * Ema(s[..|s| - 1])
  }

  /** `smooth`: the neutral score for an empty history. */
  function Smoothed(s: seq<real>): real
  {
    if s == [] then NeutralScore else Ema(s)
  }

  lemma {:induction false} EmaBounds(s: seq<real>, lo: real, hi: real)
    requires s != []
    requires forall i :: 0 <= i < |s| ==> lo <= s[i] <= hi
    ensures lo <= Ema(s) <= hi
    decreases |s|
  {
    if |s| > 1 {
      EmaBounds(s[..|s| - 1], lo, hi);
    }
  }

  /** A smoothed score lies within any bounds of its history. */
  lemma SmoothedBounds(s: seq<real>, lo: real, hi: real)
    requires lo <= NeutralScore <= hi
    requires forall i :: 0 <= i < |s| ==> lo <= s[i] <= hi
    ensures lo <= Smoothed(s) <= hi
  {
    if s != [] {
      EmaBounds(s, lo, hi);
    }
  }

  /** The fold in `smooth`. */
  method Smooth(scores: seq<real>) returns (r: real)
    ensures r == Smoothed(scores)
  {
    if scores == [] {
      return NeutralScore;
    }
    r := scores[0];
    var i := 1;
    while i < |scores|
      invariant 1 <= i <= |scores|
      invariant r == Ema(scores[..i])
    {
      assert scores[..i + 1][..i] == scores[..i];
      r := Alpha * scores[i] + (1.0 - Alpha) * r;
      i := i + 1;
    }
    assert scores[..i] == scores;
  }

  /** Normalised weighted fusion; `None` when the weights sum to zero
      (division by zero raises). */
  function Fuse(k: real, m: real, a: real, wk: real, wm: real, wa: real): Option<real>
  {
    var total := wk + wm + wa;
    if total == 0.0 then None else Some(Weighted(k, m, a, wk, wm, wa, total))
  }

  /** Each score times its weight divided by the total weight. */
  function Weighted(k: real, m: real, a: real, wk: real, wm: real, wa: real, total: real): real
    requires total != 0.0
  {
    k * (wk / total) + m * (wm / total) + a * (wa / total)
  }

  /** Non-negative weights with a positive sum keep the fused score between
      the smallest and the largest input; a unit weight selects its input. */
  lemma FuseBounds(k: real, m: real, a: real, wk: real, wm: real, wa: real, lo: real, hi: real)
    requires wk >= 0.0 && wm >= 0.0 && wa >= 0.0 && wk + wm + wa > 0.0
    requires lo <= k <= hi && lo <= m <= hi && lo <= a <= hi
    ensures Fuse(k, m, a, wk, wm, wa).Some?
    ensures lo <= Fuse(k, m, a, wk, wm, wa).value <= hi
  {
    var t := wk + wm + wa;
    var f := Weighted(k, m, a, wk, wm, wa, t);
    WeightedSumBounds(k, m, a, wk, wm, wa, lo, hi);
    assert f * t == k * wk + m * wm + a * wa;
    if f < lo {
      ScaledStrict(f, lo, t);
      assert false;
    }
    if f > hi {
      ScaledStrict(hi, f, t);
      assert false;
    }
    assert lo <= f <= hi;
    assert Fuse(k, m, a, wk, wm, wa) == Some(f);
  }

  lemma ScaledStrict(x: real, y: real, w: real)
    requires w > 0.0 && x < y
    ensures x * w < y * w
  {
  }

  lemma WeightedSumBounds(k: real, m: real, a: real, wk: real, wm: real, wa: real, lo: real, hi: real)
    requires wk >= 0.0 && wm >= 0.0 && wa >= 0.0
    requires lo <= k <= hi && lo <= m <= hi && lo <= a <= hi
    ensures lo * (wk + wm + wa) <= k * wk + m * wm + a * wa <= hi * (wk + wm + wa)
  {
    ScaledBounds(k, wk, lo, hi);
    ScaledBounds(m, wm, lo, hi);
    ScaledBounds(a, wa, lo, hi);
    assert lo * wk + lo * wm + lo * wa <= k * wk + m * wm + a * wa;
    assert k * wk + m * wm + a * wa <= hi * wk + hi * wm + hi * wa;
    assert lo * (wk + wm + wa) == lo * wk + lo * wm + lo * wa;
    assert hi * (wk + wm + wa) == hi * wk + hi * wm + hi * wa;
  }

  lemma ScaledBounds(x: real, w: real, lo: real, hi: real)
    requires w >= 0.0 && lo <= x <= hi
    ensures lo * w <= x * w <= hi * w
  {
  }

  lemma FuseUnitWeight(k: real, m: real, a: real)
    ensures Fuse(k, m, a, 1.0, 0.0, 0.0) == Some(k)
    ensures Fuse(k, m, a, 0.0, 0.0, 0.0) == None
  {
  }

  // -----------------------------------------------------------------------
  // The engine object

  class Engine {
    var keystrokeModel: Option<Classifier>
    var keystrokeFeatureNames: seq<string>
    var mouseModel: Option<Classifier>
    var mouseScaler: Option<Scaler>
    var mouseFeatureNames: seq<string>
    var appModel: Option<AppModel>

    var keystrokeScores: seq<real>
    var mouseScores: seq<real>
    var appScores: seq<real>

    ghost predicate Valid()
      reads this
    {
      |keystrokeScores| <= HistoryCapacity && |mouseScores| <= HistoryCapacity && |appScores| <= HistoryCapacity
    }

    /** Construction loads, per modality, the lexically greatest matching
        file from `files`; a loader returning `None` (the load raised) or no
        matching file leaves that modality without a model. */
    constructor (files: seq<string>,
                 loadKeystroke: string -> Option<(Classifier, seq<string>)>,
                 loadMouse: string -> Option<(Classifier, Option<Scaler>, seq<string>)>,
                 loadApp: string -> Option<AppModel>)
      ensures Valid()
      ensures keystrokeScores == [] && mouseScores == [] && appScores == []
      ensures var f := SelectLatest(files, KeystrokePrefix, ".pkl");
              (f.None? || loadKeystroke(f.value).None?) <==> keystrokeModel.None?
      ensures var f := SelectLatest(files, KeystrokePrefix, ".pkl");
              f.Some? && loadKeystroke(f.value).Some?
              ==> keystrokeModel == Some(loadKeystroke(f.value).value.0)
                  && keystrokeFeatureNames == loadKeystroke(f.value).value.1
      ensures var f := SelectLatest(files, MousePrefix, ".pkl");
              (f.None? || loadMouse(f.value).None?) <==> mouseModel.None?
      ensures var f := SelectLatest(files, MousePrefix, ".pkl");
              f.Some? && loadMouse(f.value).Some?
              ==> mouseModel == Some(loadMouse(f.value).value.0)
                  && mouseScaler == loadMouse(f.value).value.1
                  && mouseFeatureNames == loadMouse(f.value).value.2
      ensures var f := SelectLatest(files, AppPrefix, ".json");
              appModel == if f.None? then None else loadApp(f.value)
    {
      keystrokeScores, mouseScores, appScores := [], [], [];
      keystrokeModel, keystrokeFeatureNames := None, [];
      mouseModel, mouseScaler, mouseFeatureNames := None, None, [];
      appModel := None;
      var kf := SelectLatest(files, KeystrokePrefix, ".pkl");
      if kf.Some? {
        var loaded := loadKeystroke(kf.value);
        if loaded.Some? {
          keystrokeModel, keystrokeFeatureNames := Some(loaded.value.0), loaded.value.1;
        }
      }
      var mf := SelectLatest(files, MousePrefix, ".pkl");
      if mf.Some? {
        var loaded := loadMouse(mf.value);
        if loaded.Some? {
          mouseModel, mouseScaler, mouseFeatureNames := Some(loaded.value.0), loaded.value.1, loaded.value.2;
        }
      }
      var af := SelectLatest(files, AppPrefix, ".json");
      if af.Some? {
        appModel := loadApp(af.value);
      }
    }

    /** `score_keystroke_features`. */
    method ScoreKeystroke(features: seq<(string, Value)>, toFloat: string -> Option<real>) returns (score: real)
      requires Valid()
      modifies this`keystrokeScores
      ensures Valid()
      ensures var o := KeystrokeOutcome(keystrokeModel, keystrokeFeatureNames, features, toFloat);
              && score == (if o.Some? then o.value else NeutralScore)
              && keystrokeScores == (if o.Some? then DequeAppend(old(keystrokeScores), o.value, HistoryCapacity)
                                     else old(keystrokeScores))
    {
      if keystrokeModel.None? {
        return NeutralScore;
      }
      var vec: Option<seq<real>>;
      if keystrokeFeatureNames != [] {
        vec := BuildNamedVector(features, keystrokeFeatureNames, toFloat);
      } else {
        vec := Some(FallbackVector(features));
      }
      if vec.None? || vec.value == [] {
        return NeutralScore;
      }
      var s: real;
      match keystrokeModel.value.proba {
        case Some(proba) =>
          var p := proba(vec.value);
          if p.None? {
            return NeutralScore;
          }
          s := p.value * 100.0;
        case None =>
          var c := keystrokeModel.value.predict(vec.value);
          if c.None? {
            return NeutralScore;
          }
          s := if c.value == 1 then 100.0 else 0.0;
      }
      keystrokeScores := DequeAppend(keystrokeScores, s, HistoryCapacity);
      score := s;
    }

    /** `score_mouse_features`. */
    method ScoreMouse(n: Numerics, features: seq<(string, Value)>, toFloat: string -> Option<real>)
      returns (score: real)
      requires Valid() && ExpPositive(n)
      modifies this`mouseScores
      ensures Valid()
      ensures var o := MouseOutcome(n, mouseModel, mouseScaler, mouseFeatureNames, features, toFloat);
              && score == (if o.Some? then o.value else NeutralScore)
              && mouseScores == (if o.Some? then DequeAppend(old(mouseScores), o.value, HistoryCapacity)
                                 else old(mouseScores))
    {
      if mouseModel.None? {
        return NeutralScore;
      }
      var vec: Option<seq<real>>;
      if mouseFeatureNames != [] {
        vec := BuildNamedVector(features, mouseFeatureNames, toFloat);
      } else {
        vec := Some(FallbackVector(features));
      }
      if vec.None? || vec.value == [] {
        return NeutralScore;
      }
      var x := vec.value;
      if mouseScaler.Some? {
        var scaled := mouseScaler.value(x);
        if scaled.None? {
          return NeutralScore;
        }
        x := scaled.value;
      }
      var prediction := mouseModel.value.predict(x);
      if prediction.None? {
        return NeutralScore;
      }
      var s: real;
      match mouseModel.value.decision {
        case Some(decision) =>
          var d := decision(x);
          if d.None? {
            return NeutralScore;
          }
          s := Sigmoid100(n, d.value);
        case None =>
          s := if prediction.value == 1 then 100.0 else 0.0;
      }
      mouseScores := DequeAppend(mouseScores, s, HistoryCapacity);
      score := s;
    }

    /** `score_app_transition`. */
    method ScoreAppTransition(n: Numerics, fromApp: string, toApp: string, hour: int) returns (score: real)
      requires Valid()
      modifies this`appScores
      ensures Valid()
      ensures 0.0 <= score <= 100.0
      ensures appModel.None? ==> score == NeutralScore && appScores == old(appScores)
      ensures appModel.Some? ==> score == AppScore(n, appModel.value, fromApp, toApp, hour)
                                 && appScores == DequeAppend(old(appScores), score, HistoryCapacity)
    {
      if appModel.None? {
        return NeutralScore;
      }
      score := AppScore(n, appModel.value, fromApp, toApp, hour);
      appScores := DequeAppend(appScores, score, HistoryCapacity);
    }

    /** `get_smoothed_scores`. */
    method GetSmoothedScores() returns (k: real, m: real, a: real)
      ensures k == Smoothed(keystrokeScores) && m == Smoothed(mouseScores) && a == Smoothed(appScores)
    {
      k := Smooth(keystrokeScores);
      m := Smooth(mouseScores);
      a := Smooth(appScores);
    }

    /** `get_fused_score`; `None` when the weights sum to zero. */
    method GetFusedScore(wk: real, wm: real, wa: real) returns (r: Option<real>)
      ensures r == Fuse(Smoothed(keystrokeScores), Smoothed(mouseScores), Smoothed(appScores), wk, wm, wa)
    {
      var k, m, a := GetSmoothedScores();
      var total := wk + wm + wa;
      if total == 0.0 {
        return None;
      }
      var fused := k * (wk / total) + m * (wm / total) + a * (wa / total);
      assert fused == Weighted(k, m, a, wk, wm, wa, total);
      r := Some(fused);
    }

    /** With scores in [0,100] and the default weights, the fused score is in
        [0,100]. */
    lemma FusedScoreInRange()
      requires forall i :: 0 <= i < |keystrokeScores| ==> 0.0 <= keystrokeScores[i] <= 100.0
      requires forall i :: 0 <= i < |mouseScores| ==> 0.0 <= mouseScores[i] <= 100.0
      requires forall i :: 0 <= i < |appScores| ==> 0.0 <= appScores[i] <= 100.0
      ensures var f := Fuse(Smoothed(keystrokeScores), Smoothed(mouseScores), Smoothed(appScores), 0.4, 0.35, 0.25);
              f.Some? && 0.0 <= f.value <= 100.0
    {
      SmoothedBounds(keystrokeScores, 0.0, 100.0);
      SmoothedBounds(mouseScores, 0.0, 100.0);
      SmoothedBounds(appScores, 0.0, 100.0);
      FuseBounds(Smoothed(keystrokeScores), Smoothed(mouseScores), Smoothed(appScores), 0.4, 0.35, 0.25, 0.0, 100.0);
    }
  }
}
