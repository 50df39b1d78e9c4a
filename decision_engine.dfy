/** The decision engine: a threshold ladder from the fused confidence score to
    a target trust state, and a hysteretic state machine that decides whether
    the authoritative state follows the target.

    The source compares states through their string values
    ("lockdown" < "monitoring" < "normal" < "restricted"), not through trust
    level; the model keeps that order (ValueRank) and proves what follows
    from it. */
module DecisionEngine {
  import opened Common

  datatype AuthState = Normal | Monitoring | Restricted | Lockdown

  /** `AuthState.value`. */
  function StateValue(s: AuthState): string
  {
    match s
    case Normal => "normal"
    case Monitoring => "monitoring"
    case Restricted => "restricted"
    case Lockdown => "lockdown"
  }

  /** Position of a state in the order of its string value. */
  function ValueRank(s: AuthState): nat
  {
    match s
    case Lockdown => 0
    case Monitoring => 1
    case Normal => 2
    case Restricted => 3
  }

  /** Comparing ranks is comparing the string values, as the source does. */
  lemma ValueRankIsStringOrder(a: AuthState, b: AuthState)
    ensures ValueRank(a) < ValueRank(b) <==> StrLess(StateValue(a), StateValue(b))
  {
    if a == b {
      StrLessIrreflexive(StateValue(a));
    } else {
      assert StateValue(a)[0] != StateValue(b)[0];
    }
  }

  /** Trust level, ranked by the confidence each state's declaration describes
      (decision_engine.py:30-33: full, medium, low, very low), so NORMAL is highest. */
  function TrustRank(s: AuthState): nat
  {
    match s
    case Lockdown => 0
    case Restricted => 1
    case Monitoring => 2
    case Normal => 3
  }

  datatype Thresholds = Thresholds(normal: real, monitoring: real, restricted: real, lockdown: real)

  const DefaultThresholds := Thresholds(70.0, 50.0, 35.0, 20.0)
  const DefaultConfirmationCount := 3

  /** `determine_state`: the first threshold the score reaches, from the top. */
  function DetermineState(t: Thresholds, score: real): AuthState
  {
    if score >= t.normal then Normal
    else if score >= t.monitoring then Monitoring
    else if score >= t.restricted then Restricted
    else Lockdown
  }

  /** With ordered thresholds each state owns one half-open score interval;
      `lockdown` plays no part. */
  lemma DetermineStateIntervals(t: Thresholds, score: real)
    requires t.normal > t.monitoring > t.restricted
    ensures DetermineState(t, score) == Normal <==> score >= t.normal
    ensures DetermineState(t, score) == Monitoring <==> t.monitoring <= score < t.normal
    ensures DetermineState(t, score) == Restricted <==> t.restricted <= score < t.monitoring
    ensures DetermineState(t, score) == Lockdown <==> score < t.restricted
    ensures forall x :: DetermineState(t.(lockdown := x), score) == DetermineState(t, score)
  {
  }

  /** A higher score never yields a state of lower trust. */
  lemma DetermineStateMonotone(t: Thresholds, s1: real, s2: real)
    requires t.normal >= t.monitoring >= t.restricted
    requires s1 <= s2
    ensures TrustRank(DetermineState(t, s1)) <= TrustRank(DetermineState(t, s2))
  {
  }

  /** `_get_action_for_state`. */
  function ActionFor(s: AuthState): (a: string)
    ensures a in {"allow", "allow_log", "restrict", "lockdown"}
  {
    match s
    case Normal => "allow"
    case Monitoring => "allow_log"
    case Restricted => "restrict"
    case Lockdown => "lockdown"
  }

  /** Every state has its own action. */
  lemma ActionForInjective(a: AuthState, b: AuthState)
    requires ActionFor(a) == ActionFor(b)
    ensures a == b
  {
  }

  /** `_get_reason`; `scoreText` is the score rendered with one decimal. */
  function Reason(s: AuthState, scoreText: string): string
  {
    match s
    case Normal => "High confidence (" + scoreText + "%) - normal operation"
    case Monitoring => "Medium confidence (" + scoreText + "%) - monitoring active"
    case Restricted => "Low confidence (" + scoreText + "%) - restricted access"
    case Lockdown => "Very low confidence (" + scoreText + "%) - lockdown initiated"
  }

  const BypassReason := "Developer mode active (BYPASS)"

  // -----------------------------------------------------------------------
  // The hysteresis rule as a function of the old state

  datatype Hysteresis = Hysteresis(current: AuthState, previous: AuthState, lowCount: nat)

  predicate IsLow(target: AuthState)
  {
    target == Restricted || target == Lockdown
  }

  function NextLowCount(target: AuthState, lowCount: nat): nat
  {
    if IsLow(target) then lowCount + 1 else 0
  }

  /** `should_change`, with states compared by their string values. */
  predicate ShouldChange(cc: nat, current: AuthState, target: AuthState, newLow: nat)
  {
    if ValueRank(target) < ValueRank(current) then newLow >= cc
    else ValueRank(target) > ValueRank(current)
  }

  /** One non-bypassed call of `process_score` on the hysteresis state. */
  function Step(t: Thresholds, cc: nat, h: Hysteresis, score: real): Hysteresis
  {
    var target := DetermineState(t, score);
    var low := NextLowCount(target, h.lowCount);
    if ShouldChange(cc, h.current, target, low) && target != h.current
    then Hysteresis(target, h.current, low)
    else h.(lowCount := low)
  }

  /** The counter after a call, and that the state either stays or becomes
      the target, remembering the old one. */
  lemma StepShape(t: Thresholds, cc: nat, h: Hysteresis, score: real)
    ensures Step(t, cc, h, score).lowCount
            == if IsLow(DetermineState(t, score)) then h.lowCount + 1 else 0
    ensures var h' := Step(t, cc, h, score);
            (h'.current == h.current && h'.previous == h.previous)
            || (h'.current == DetermineState(t, score) && h'.current != h.current && h'.previous == h.current)
  {
  }

  /** From LOCKDOWN, any score whose target is not LOCKDOWN changes the
      state on that very call. */
  lemma LockdownLeftImmediately(t: Thresholds, cc: nat, h: Hysteresis, score: real)
    requires h.current == Lockdown
    requires DetermineState(t, score) != Lockdown
    ensures Step(t, cc, h, score).current == DetermineState(t, score)
    ensures Step(t, cc, h, score).previous == Lockdown
  {
  }

  /** From NORMAL, a score in [restricted, monitoring) switches to
      RESTRICTED at once, without confirmation. */
  lemma NormalToRestrictedImmediately(t: Thresholds, cc: nat, h: Hysteresis, score: real)
    requires h.current == Normal
    requires t.restricted <= score < t.monitoring && score < t.normal
    ensures Step(t, cc, h, score).current == Restricted
  {
  }

  /** From NORMAL, a MONITORING target is never applied. */
  lemma NormalNeverMonitoring(t: Thresholds, cc: nat, h: Hysteresis, score: real)
    requires cc >= 1
    requires h.current == Normal
    ensures Step(t, cc, h, score).current != Monitoring
  {
  }

  /** From RESTRICTED the state only changes to a LOCKDOWN target, and only
      once the low-score counter has reached the confirmation count. */
  lemma RestrictedOnlyLeftForConfirmedLockdown(t: Thresholds, cc: nat, h: Hysteresis, score: real)
    requires cc >= 1
    requires h.current == Restricted
    ensures Step(t, cc, h, score).current != Restricted
            ==> Step(t, cc, h, score).current == Lockdown && Step(t, cc, h, score).lowCount >= cc
  {
  }

  /** A sequence of calls, none bypassed. */
  function Run(t: Thresholds, cc: nat, h: Hysteresis, scores: seq<real>): Hysteresis
    decreases |scores|
  {
    if scores == [] then h else Run(t, cc, Step(t, cc, h, scores[0]), scores[1..])
  }

  /** From NORMAL with a zero counter, scores below the restricted threshold
      leave NORMAL for the first `cc - 1` calls; the `cc`-th consecutive one
      switches to LOCKDOWN. */
  lemma {:induction false} ConfirmedDegradation(t: Thresholds, cc: nat, k: nat, scores: seq<real>)
    requires t.normal >= t.monitoring >= t.restricted
    requires forall i :: 0 <= i < |scores| ==> scores[i] < t.restricted
    requires k + |scores| <= cc
    decreases |scores|
    ensures Run(t, cc, Hysteresis(Normal, Normal, k), scores)
            == if k + |scores| < cc then Hysteresis(Normal, Normal, k + |scores|)
               else if |scores| == 0 then Hysteresis(Normal, Normal, k)
               else Hysteresis(Lockdown, Normal, cc)
  {
    if scores != [] {
      var h' := Step(t, cc, Hysteresis(Normal, Normal, k), scores[0]);
      if k + 1 < cc {
        assert h' == Hysteresis(Normal, Normal, k + 1);
        ConfirmedDegradation(t, cc, k + 1, scores[1..]);
      } else {
        assert h' == Hysteresis(Lockdown, Normal, cc);
        assert |scores| == 1;
      }
    }
  }

  /** The default engine fed 30.0 three times from its initial state ends in
      LOCKDOWN with a counter of 3; then 90.0 restores NORMAL with a counter
      of 0. */
  lemma DefaultScenario()
    ensures Run(DefaultThresholds, 3, Hysteresis(Normal, Normal, 0), [30.0, 30.0, 30.0])
            == Hysteresis(Lockdown, Normal, 3)
    ensures Step(DefaultThresholds, 3, Hysteresis(Lockdown, Normal, 3), 90.0)
            == Hysteresis(Normal, Lockdown, 0)
  {
    ConfirmedDegradation(DefaultThresholds, 3, 0, [30.0, 30.0, 30.0]);
  }

  // -----------------------------------------------------------------------
  // Finding: "Degrading - require confirmation" and "Improving - change
  // immediately" (decision_engine.py:164-173), with states compared by trust level

  /** As written, a RESTRICTED engine ignores a score of 90: the NORMAL
      target has a smaller string value, so it counts as a degradation that
      the reset counter never confirms. */
  lemma RestrictedIgnoresRecovery()
    ensures Step(DefaultThresholds, 3, Hysteresis(Restricted, Normal, 5), 90.0)
            == Hysteresis(Restricted, Normal, 0)
  {
  }

  /** `should_change` with states compared by trust level. */
  predicate TrustShouldChange(cc: nat, current: AuthState, target: AuthState, newLow: nat)
  {
    if TrustRank(target) < TrustRank(current) then newLow >= cc
    else TrustRank(target) > TrustRank(current)
  }

  function TrustStep(t: Thresholds, cc: nat, h: Hysteresis, score: real): Hysteresis
  {
    var target := DetermineState(t, score);
    var low := NextLowCount(target, h.lowCount);
    if TrustShouldChange(cc, h.current, target, low) && target != h.current
    then Hysteresis(target, h.current, low)
    else h.(lowCount := low)
  }

  /** The intended rule: a target of higher trust is applied on the call
      that observes it; a target of lower trust only once confirmed. */
  lemma TrustStepHysteresis(t: Thresholds, cc: nat, h: Hysteresis, score: real)
    ensures var target := DetermineState(t, score);
            TrustRank(target) > TrustRank(h.current) ==> TrustStep(t, cc, h, score).current == target
    ensures var target := DetermineState(t, score);
            TrustRank(target) < TrustRank(h.current)
            ==> (TrustStep(t, cc, h, score).current == target <==> NextLowCount(target, h.lowCount) >= cc)
    ensures TrustRank(TrustStep(t, cc, h, score).current) < TrustRank(h.current)
            ==> TrustStep(t, cc, h, score).lowCount >= cc
  {
  }

  // -----------------------------------------------------------------------
  // The engine object

  datatype Decision = Decision(
    action: string,
    state: AuthState,
    score: real,
    reason: string,
    devMode: bool,
    lowScoreCount: Option<nat>,
    confirmationNeeded: Option<nat>)

  datatype AuditRecord = AuditRecord(eventType: string, score: Option<real>, state: AuthState, details: string)

  datatype StateChange = StateChange(oldState: AuthState, newState: AuthState, score: real)

  /** `max(confirmation_count - low_score_count, 0)` as the source writes it. */
  function ConfirmationNeeded(cc: nat, low: nat): (r: nat)
    ensures r == 0 <==> low >= cc
    ensures low < cc ==> low + r == cc
  {
    if low < cc then cc - low else 0
  }

  class Engine {
    const thresholds: Thresholds
    const confirmationCount: nat
    /** Whether an audit database was reachable at construction. */
    const hasDatabase: bool

    var currentState: AuthState
    var previousState: AuthState
    var scoreHistory: seq<real>
    var lowScoreCount: nat

    /** Records written to the audit database. */
    var audit: seq<AuditRecord>
    /** State changes delivered to callbacks and published on `state_change`. */
    var stateChanges: seq<StateChange>

    ghost predicate Valid()
      reads this
    {
      |scoreHistory| <= 2 * confirmationCount
    }

    function State(): Hysteresis
      reads this
    {
      Hysteresis(currentState, previousState, lowScoreCount)
    }

    constructor (t: Thresholds, cc: nat, hasDatabase: bool)
      ensures Valid()
      ensures thresholds == t && confirmationCount == cc && this.hasDatabase == hasDatabase
      ensures State() == Hysteresis(Normal, Normal, 0)
      ensures scoreHistory == [] && audit == [] && stateChanges == []
    {
      thresholds := t;
      confirmationCount := cc;
      this.hasDatabase := hasDatabase;
      currentState, previousState := Normal, Normal;
      scoreHistory := [];
      lowScoreCount := 0;
      audit, stateChanges := [], [];
    }

    /** `process_score`. `devModeActive` is what the developer-mode object
        reports, `scoreText` the score rendered with one decimal,
        `auditWriteOk` whether the database write succeeds (a failure is
        swallowed) and `publishOk` whether publishing a state change
        succeeds (a failure propagates: no decision is returned and nothing
        is audited, but the state change has already happened). */
    method ProcessScore(score: real, devMode: bool, devModeActive: bool, scoreText: string,
                        auditWriteOk: bool, publishOk: bool)
      returns (r: Option<Decision>)
      requires Valid()
      modifies this
      ensures Valid()
      ensures scoreHistory == DequeAppend(old(scoreHistory), score, 2 * confirmationCount)
      ensures devMode || devModeActive ==>
        && r == Some(Decision("allow", Normal, 100.0, BypassReason, true, None, None))
        && State() == old(State())
        && audit == old(audit) && stateChanges == old(stateChanges)
      ensures !(devMode || devModeActive) ==>
        && State() == Step(thresholds, confirmationCount, old(State()), score)
        && stateChanges == old(stateChanges)
             + (if currentState != old(currentState)
                then [StateChange(old(currentState), currentState, score)] else [])
        && (currentState != old(currentState) && !publishOk ==> r == None && audit == old(audit))
        && (currentState == old(currentState) || publishOk ==>
              && r == Some(Decision(ActionFor(currentState), currentState, score,
                                    Reason(currentState, scoreText), false,
                                    Some(lowScoreCount),
                                    Some(ConfirmationNeeded(confirmationCount, lowScoreCount))))
              && audit == old(audit)
                   + (if hasDatabase && auditWriteOk
                      then [AuditRecord("DECISION", Some(score), currentState, ActionFor(currentState))]
                      else []))
    {
      scoreHistory := DequeAppend(scoreHistory, score, 2 * confirmationCount);

      if devMode || devModeActive {
        return Some(Decision("allow", Normal, 100.0, BypassReason, true, None, None));
      }

      var changed := UpdateState(score);
      if changed && !publishOk {
        return None;
      }

      var action := ActionFor(currentState);
      r := Some(Decision(action, currentState, score, Reason(currentState, scoreText), false,
                         Some(lowScoreCount), Some(ConfirmationNeeded(confirmationCount, lowScoreCount))));
      if hasDatabase && auditWriteOk {
        audit := audit + [AuditRecord("DECISION", Some(score), currentState, action)];
      }
    }

    /** The hysteresis part of `process_score`: the low-score counter, the
        confirmation rule, and `_on_state_change` when the state moves. */
    method UpdateState(score: real) returns (changed: bool)
      modifies this`currentState, this`previousState, this`lowScoreCount, this`stateChanges
      ensures State() == Step(thresholds, confirmationCount, old(State()), score)
      ensures changed <==> currentState != old(currentState)
      ensures stateChanges == old(stateChanges)
                + (if changed then [StateChange(old(currentState), currentState, score)] else [])
    {
      var target := DetermineState(thresholds, score);
      if target == Restricted || target == Lockdown {
        lowScoreCount := lowScoreCount + 1;
      } else {
        lowScoreCount := 0;
      }

      var shouldChange := false;
      if ValueRank(target) < ValueRank(currentState) {
        if lowScoreCount >= confirmationCount {
          shouldChange := true;
        }
      } else if ValueRank(target) > ValueRank(currentState) {
        shouldChange := true;
      }

      changed := shouldChange && target != currentState;
      if changed {
        previousState := currentState;
        currentState := target;
        stateChanges := stateChanges + [StateChange(previousState, currentState, score)];
      }
    }

    /** `force_state`: the new state applies at once, the counter is
        untouched. `auditWriteOk` false means the database write raised,
        which propagates to the caller after the state has changed. */
    method ForceState(s: AuthState, reason: string, auditWriteOk: bool) returns (raised: bool)
      requires Valid()
      modifies this
      ensures Valid()
      ensures currentState == s && previousState == old(currentState)
      ensures lowScoreCount == old(lowScoreCount) && scoreHistory == old(scoreHistory)
      ensures stateChanges == old(stateChanges)
      ensures raised <==> hasDatabase && !auditWriteOk
      ensures audit == old(audit)
                + (if hasDatabase && auditWriteOk then [AuditRecord("STATE_OVERRIDE", None, s, reason)] else [])
    {
      var oldState := currentState;
      currentState := s;
      previousState := oldState;
      raised := false;
      if hasDatabase {
        if auditWriteOk {
          audit := audit + [AuditRecord("STATE_OVERRIDE", None, s, reason)];
        } else {
          raised := true;
        }
      }
    }

    /** `get_status`: the average of the recent scores, 50 when there are none. */
    function AverageScore(): (avg: real)
      reads this
      ensures scoreHistory == [] ==> avg == 50.0
    {
      if scoreHistory == [] then 50.0 else Mean(scoreHistory)
    }

    /** The reported average lies within any bounds of the recent scores. */
    lemma AverageScoreBounds(lo: real, hi: real)
      requires scoreHistory != []
      requires forall i :: 0 <= i < |scoreHistory| ==> lo <= scoreHistory[i] <= hi
      ensures lo <= AverageScore() <= hi
    {
      MeanBounds(scoreHistory, lo, hi);
    }
  }

  /** A client: three low scores then a high one, on a fresh default engine. */
  method DefaultEngineScenario() returns (e: Engine)
    ensures e.currentState == Normal && e.lowScoreCount == 0
    ensures |e.stateChanges| == 2
    ensures e.stateChanges[0] == StateChange(Normal, Lockdown, 30.0)
  {
    e := new Engine(DefaultThresholds, 3, false);
    var d := e.ProcessScore(30.0, false, false, "30.0", true, true);
    assert e.State() == Hysteresis(Normal, Normal, 1);
    d := e.ProcessScore(30.0, false, false, "30.0", true, true);
    assert e.State() == Hysteresis(Normal, Normal, 2);
    d := e.ProcessScore(30.0, false, false, "30.0", true, true);
    assert e.State() == Hysteresis(Lockdown, Normal, 3);
    d := e.ProcessScore(90.0, false, false, "90.0", true, true);
    assert e.State() == Hysteresis(Normal, Lockdown, 0);
  }
}
