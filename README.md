# SecLyzer behavioural pipeline — a Dafny model

SecLyzer authenticates the user of a Linux desktop continuously, from how they type, move the mouse and switch applications. This project models the logic of its real-time pipeline and proves properties of that model:

- **Feature extractors.** The Python extractors and their Rust twins keep a bounded buffer of keystroke, mouse or application-switch events. Over a sliding window they compute feature vectors:
  - keystrokes: dwell and flight times, digraphs, error ratios and typing rhythm;
  - mouse: movement ratios, click pairing and double clicks, scroll shares;
  - applications: transition and hour-of-day count tables, row-normalised into probabilities.
  The Rust extractors also drop events older than two windows. The InfluxDB line-protocol serialiser of the Rust extractors is modelled too.
- **Inference engine.** It turns the feature vectors into per-modality scores from 0 to 100, keeps three histories of ten scores, smooths them (exponential moving average, α = 0.3) and fuses them with normalised weights.
- **Decision engine.** It maps the fused score to a trust state (normal, monitoring, restricted, lockdown) through a threshold ladder. A hysteretic state machine decides when the authoritative state follows.
- **Locking engine.** It turns state changes into screen locks and desktop notifications.
- **Offline trainer.** It builds the application-usage model: the Markov chain, hour-of-day patterns, rankings, the density metric and the model file name.
- **Common services.** Developer mode (an authentication bypass with a timeout), the retry decorator with exponential backoff, the event validators, the dotted-key configuration lookup and the directory resolution.

Each source file becomes one module in one `.dfy` file. Code that computes values becomes functions and lemmas. Objects whose fields change become classes whose methods are proved against those functions. Floating point is modelled as `real`. Library numerics (square root, arc tangent, numpy statistics, exponential, logarithms) are the fields of the `Common.Numerics` record, and every property holds for any choice of them. The Rust mouse features model IEEE infinities and NaN explicitly (`MouseFeaturesRs.F64`), because the source produces them.

The decision engine compares states through their string values, as the source does (`"lockdown" < "monitoring" < "normal" < "restricted"`), not through trust level. The model keeps that order and proves what follows from it; the order by trust level appears only in the corrected definition under Findings.

## Model

| member | source | states |
|---|---|---|
| DecisionEngine.ValueRankIsStringOrder | processing/decision/decision_engine.py:27-33 | the rank used for state comparison orders states exactly as their string values compare (lockdown < monitoring < normal < restricted), in both directions |
| DecisionEngine.DetermineStateIntervals | processing/decision/decision_engine.py:113-130 | with ordered thresholds, each state is returned exactly on its half-open score interval (both directions), and the lockdown threshold never affects the result |
| DecisionEngine.DetermineStateMonotone | processing/decision/decision_engine.py:113-130 | a higher score never yields a state of lower trust |
| DecisionEngine.ActionFor | processing/decision/decision_engine.py:204-212 | the action is one of allow, allow_log, restrict, lockdown |
| DecisionEngine.ActionForInjective | processing/decision/decision_engine.py:204-212 | distinct states map to distinct actions |
| DecisionEngine.StepShape | processing/decision/decision_engine.py:156-179 | the low-score counter becomes old + 1 for a RESTRICTED or LOCKDOWN target and 0 otherwise; the state either stays put or becomes the target, with the old state remembered as previous |
| DecisionEngine.LockdownLeftImmediately | processing/decision/decision_engine.py:166-179 | from LOCKDOWN, any score whose target is not LOCKDOWN changes the state on that call, with previous = LOCKDOWN |
| DecisionEngine.NormalToRestrictedImmediately | processing/decision/decision_engine.py:166-173 | from NORMAL, a score in [restricted, monitoring) switches to RESTRICTED at once, without confirmation |
| DecisionEngine.NormalNeverMonitoring | processing/decision/decision_engine.py:166-173 | from NORMAL, a MONITORING target is never applied |
| DecisionEngine.RestrictedOnlyLeftForConfirmedLockdown | processing/decision/decision_engine.py:166-173 | from RESTRICTED, the state changes only to LOCKDOWN and only once the counter has reached the confirmation count |
| DecisionEngine.ConfirmedDegradation | processing/decision/decision_engine.py:156-179 | from NORMAL, scores below the restricted threshold leave NORMAL for the first cc − 1 calls, and the cc-th consecutive one switches to LOCKDOWN |
| DecisionEngine.DefaultScenario | processing/decision/decision_engine.py:44-74 | the default engine ends in LOCKDOWN with counter 3 after three scores of 30, and a score of 90 then restores NORMAL with counter 0 |
| DecisionEngine.RestrictedIgnoresRecovery | processing/decision/decision_engine.py:166-173 | as written, a RESTRICTED engine ignores a score of 90 (the finding below) |
| DecisionEngine.TrustStepHysteresis | processing/decision/decision_engine.py:164-179 | with states compared by trust: a higher-trust target applies on the call that observes it, a lower-trust target applies exactly when confirmed, and every move down has a confirmed counter |
| DecisionEngine.ConfirmationNeeded | processing/decision/decision_engine.py:192-196 | confirmation_needed is 0 exactly when the counter has reached the confirmation count, and otherwise adds up with the counter to the confirmation count |
| DecisionEngine.Engine.constructor | processing/decision/decision_engine.py:44-74 | a new engine is NORMAL/NORMAL with counter 0 and empty history, audit and state-change logs |
| DecisionEngine.Engine.ProcessScore | processing/decision/decision_engine.py:132-202 | history gets the score (bounded by 2·cc); the dev-mode bypass returns allow/NORMAL/100.0 and changes no state, audit or state change; otherwise the state follows Step, a state change is logged exactly when the state moved, a failed publish propagates, and the decision and audit record match the new state |
| DecisionEngine.Engine.UpdateState | processing/decision/decision_engine.py:156-179 | the counter, state and previous state follow Step, and one state change is logged exactly when the state moved |
| DecisionEngine.Engine.ForceState | processing/decision/decision_engine.py:352-373 | current := s and previous := old current; counter and history untouched; one STATE_OVERRIDE audit record when the database write succeeds, which raises otherwise |
| DecisionEngine.Engine.AverageScore | processing/decision/decision_engine.py:332-335 | the average of recent scores is 50.0 when there are none |
| DecisionEngine.Engine.AverageScoreBounds | processing/decision/decision_engine.py:332-335 | the average lies within any bounds of the recent scores |
| DecisionEngine.DefaultEngineScenario | processing/decision/decision_engine.py:132-202 | driving a fresh default engine with 30, 30, 30, 90 leaves it NORMAL with counter 0 after exactly two state changes, the first NORMAL→LOCKDOWN |
| InferenceEngine.SelectLatest | processing/inference/inference_engine.py:97-108 | no model file exactly when nothing matches the pattern; otherwise the chosen file matches and no matching file sorts after it |
| InferenceEngine.NamedVector | processing/inference/inference_engine.py:186-190 | with declared feature names the vector has one component per name, in name order, each the feature's value as a float (0.0 when missing or None); it is absent exactly when some conversion raises |
| InferenceEngine.BuildNamedVector | processing/inference/inference_engine.py:186-190 | the loop builds exactly NamedVector |
| InferenceEngine.NamedVectorNonePropagates | processing/inference/inference_engine.py:186-190 | once a prefix of the names fails to convert, the whole vector fails |
| InferenceEngine.FallbackVector | processing/inference/inference_engine.py:191-198 | without declared names the vector has one component per numeric feature whose key is not dev_mode, timestamp or type |
| InferenceEngine.FallbackVectorEmpty | processing/inference/inference_engine.py:191-201 | the fallback vector is empty (and the neutral score returned) exactly when no feature is numeric and non-excluded |
| InferenceEngine.KeystrokeOutcomeRange | processing/inference/inference_engine.py:171-222 | no model gives no score; a probability model gives a score in [0,100]; a predict-only model gives exactly 0.0 or 100.0 |
| InferenceEngine.KeystrokeSeesNamedVector | processing/inference/inference_engine.py:186-211 | with declared names and none present in the features, the model is given an all-zero vector of one entry per name and the score is 100 · P(class 1) |
| InferenceEngine.Sigmoid100 | processing/inference/inference_engine.py:266-271 | 100 / (1 + e^(−d)) lies strictly between 0 and 100 |
| InferenceEngine.MouseOutcomeRange | processing/inference/inference_engine.py:224-282 | no model gives no score; any score is in [0,100], strictly inside it when the model has a decision function |
| InferenceEngine.CombineProbabilities | processing/inference/inference_engine.py:315-321 | the app score is clamped to [0,100] |
| InferenceEngine.AppScoreUnseen | processing/inference/inference_engine.py:305-321 | an unseen transition and an unseen app both fall back to probability 0.01 |
| InferenceEngine.AppScoreCeiling | processing/inference/inference_engine.py:315-321 | probabilities in [0,1] give a score at most 50 + 25·log10(1.001), so a perfect transition never reaches 100 |
| InferenceEngine.EmaBounds | processing/inference/inference_engine.py:340-347 | the exponential moving average with alpha 0.3 stays within any bounds of its inputs |
| InferenceEngine.SmoothedBounds | processing/inference/inference_engine.py:340-347 | the smoothed score (50.0 for no scores) stays within any bounds containing the scores and 50 |
| InferenceEngine.Smooth | processing/inference/inference_engine.py:340-347 | the loop computes Smoothed: 50.0 for no scores, else the EMA starting at the first score |
| InferenceEngine.FuseBounds | processing/inference/inference_engine.py:374-386 | with non-negative weights of positive sum, the fused score exists and lies within any bounds of the three smoothed scores |
| InferenceEngine.FuseUnitWeight | processing/inference/inference_engine.py:374-386 | weights (1,0,0) give the keystroke score; all-zero weights give no score (the division raises) |
| InferenceEngine.Engine.constructor | processing/inference/inference_engine.py:34-169 | each modality gets the model from the lexically greatest matching file, none when no file matches or the load fails; histories start empty |
| InferenceEngine.Engine.ScoreKeystroke | processing/inference/inference_engine.py:171-222 | the returned score is the model's outcome or 50.0 on any failure; the history gets the score (last 10 kept) exactly when one was computed |
| InferenceEngine.Engine.ScoreMouse | processing/inference/inference_engine.py:224-282 | as above for the mouse model, with the optional scaler applied before predict and the decision function |
| InferenceEngine.Engine.ScoreAppTransition | processing/inference/inference_engine.py:284-330 | without a model: 50.0 and no history change; with one: the score is AppScore, in [0,100], and joins the last-10 history |
| InferenceEngine.Engine.GetSmoothedScores | processing/inference/inference_engine.py:332-353 | the three smoothed scores of the current histories |
| InferenceEngine.Engine.GetFusedScore | processing/inference/inference_engine.py:355-386 | the weight-normalised sum of the smoothed scores, none when the weights sum to zero |
| InferenceEngine.Engine.FusedScoreInRange | processing/inference/inference_engine.py:355-386 | with histories in [0,100] and the default weights 0.4/0.35/0.25, the fused score exists and is in [0,100] |
| LockingEngine.DetectLockCommand | processing/actions/locking_engine.py:76-98 | the command is one of the five candidates: the first whose `which` lookup exits 0, or loginctl lock-session when none does |
| LockingEngine.Notifications | processing/actions/locking_engine.py:225-262 | the notification sub-list of a dispatch holds only notifications |
| LockingEngine.DispatchSilenced | processing/actions/locking_engine.py:205-212 | disabled, or in developer mode, a state change asks for no action |
| LockingEngine.DispatchLowStates | processing/actions/locking_engine.py:216-245 | for lockdown (restricted): a lock exactly when lock_on_lockdown (lock_on_restricted), before exactly one notification of critical (normal) urgency, which comes last |
| LockingEngine.DispatchOtherStates | processing/actions/locking_engine.py:220-262 | never a lock; monitoring gives one low-urgency notification; normal gives one low-urgency notification exactly when the old state was not normal; any other state gives nothing |
| LockingEngine.DefaultIcon | processing/actions/locking_engine.py:176-177 | the default icon is dialog-warning exactly for critical urgency |
| LockingEngine.CallbackEffects | processing/actions/locking_engine.py:264-270 | one callback effect per registered callback |
| LockingEngine.CallbackEffectsInOrder | processing/actions/locking_engine.py:264-270 | callback i hears the same action and success flag, in registration order |
| LockingEngine.Engine.constructor | processing/actions/locking_engine.py:30-74 | settings as given, enabled, no callbacks, and the lock command is the first candidate whose program `which` finds, or the fallback when none is found |
| LockingEngine.Engine.AddActionCallback | processing/actions/locking_engine.py:100-102 | the callback joins the end of the list |
| LockingEngine.Engine.Enable | processing/actions/locking_engine.py:104-107 | only the enabled flag changes, to true |
| LockingEngine.Engine.Disable | processing/actions/locking_engine.py:109-112 | only the enabled flag changes, to false |
| LockingEngine.Engine.IsEnabled | processing/actions/locking_engine.py:114-116 | returns the enabled flag |
| LockingEngine.Engine.NotifyCallbacks | processing/actions/locking_engine.py:264-270 | every callback is notified once, in order, even when one raises |
| LockingEngine.Engine.LockScreen | processing/actions/locking_engine.py:118-151 | true exactly when locking and the engine are enabled, dev mode is off and the command raises nothing (the exit status is ignored); when the command runs, callbacks hear ("lock", success); otherwise nothing runs |
| LockingEngine.Engine.SendNotification | processing/actions/locking_engine.py:153-194 | true exactly when notifications and the engine are enabled; then notify-send runs once with the given urgency and the icon given or defaulted |
| LockingEngine.Engine.PerformActions | processing/actions/locking_engine.py:216-262 | the dispatched actions run in order through lock_screen and send_notification |
| LockingEngine.Engine.HandleStateChange | processing/actions/locking_engine.py:196-223 | the effects are exactly those of carrying out Dispatch for the change |
| LockingEngine.Engine.HandleStateChangeSilenced | processing/actions/locking_engine.py:205-212 | a disabled engine, or one in developer mode, runs nothing whatever the change |
| LockingEngine.Engine.LockdownRunsLockThenAlert | processing/actions/locking_engine.py:225-234 | with everything enabled, a change to lockdown runs the lock command, notifies callbacks of its outcome, then runs one critical alert with the warning icon |
| KeystrokeExtractorPy.Recent | processing/extractors/keystroke_extractor.py:108-110 | every event of the window is strictly newer than the cutoff |
| KeystrokeExtractorPy.DwellFoldBounds | processing/extractors/keystroke_extractor.py:195-203 | every dwell time of one key's events lies in (0, 1000) ms |
| KeystrokeExtractorPy.DwellFoldCount | processing/extractors/keystroke_extractor.py:195-203 | a release closes at most one pending press: dwell times plus a still-pending press never outnumber the presses |
| KeystrokeExtractorPy.DistinctKeys | processing/extractors/keystroke_extractor.py:187-188 | the key groups: each key of the window exactly once |
| KeystrokeExtractorPy.DwellTimesBounds | processing/extractors/keystroke_extractor.py:183-205 | every dwell time of the window lies in (0, 1000) ms |
| KeystrokeExtractorPy.MatchPresses | processing/extractors/keystroke_extractor.py:195-203 | the pairing loop over one key's events computes DwellFold |
| KeystrokeExtractorPy.CalculateDwellTimes | processing/extractors/keystroke_extractor.py:183-205 | the loop over key groups computes DwellTimes |
| KeystrokeExtractorPy.FlightFoldBounds | processing/extractors/keystroke_extractor.py:214-222 | every flight time lies in (0, 2000) ms |
| KeystrokeExtractorPy.FlightFoldCount | processing/extractors/keystroke_extractor.py:214-222 | at most one flight time per press, since releases are not consumed |
| KeystrokeExtractorPy.FlightTimesBounds | processing/extractors/keystroke_extractor.py:207-224 | every flight time of the window, measured in time order, lies in (0, 2000) ms |
| KeystrokeExtractorPy.CalculateFlightTimes | processing/extractors/keystroke_extractor.py:207-224 | the loop computes FlightTimes |
| KeystrokeExtractorPy.AppendAtWellFormed | processing/extractors/keystroke_extractor.py:243-244 | adding a time in (0, 2000) to a pair's list keeps every list non-empty and in range |
| KeystrokeExtractorPy.DigraphTableWellFormed | processing/extractors/keystroke_extractor.py:236-244 | the digraph table after any number of press pairs is well formed |
| KeystrokeExtractorPy.TopDigraphs | processing/extractors/keystroke_extractor.py:246-249 | at most 20 digraphs are kept |
| KeystrokeExtractorPy.TopDigraphsByFrequency | processing/extractors/keystroke_extractor.py:246-249 | the kept digraphs come in order of non-increasing frequency |
| KeystrokeExtractorPy.TopDigraphsWellFormed | processing/extractors/keystroke_extractor.py:246-249 | the kept digraphs keep their non-empty, in-range time lists |
| KeystrokeExtractorPy.DigraphValuesBounded | processing/extractors/keystroke_extractor.py:251-257 | each slot value is a mean of times in (0, 2000) or the 0.0 pad |
| KeystrokeExtractorPy.DigraphFeatureKeys | processing/extractors/keystroke_extractor.py:251-259 | the digraph part has exactly the 20 keys digraph_0_mean … digraph_19_mean |
| KeystrokeExtractorPy.DigraphValuesBounds | processing/extractors/keystroke_extractor.py:226-259 | every digraph feature is a number in [0, 2000] |
| KeystrokeExtractorPy.BuildDigraphTable | processing/extractors/keystroke_extractor.py:236-244 | the loop over consecutive presses builds the table of all pairs |
| KeystrokeExtractorPy.CalculateDigraphs | processing/extractors/keystroke_extractor.py:226-259 | the method computes DigraphFeatures |
| KeystrokeExtractorPy.ErrorRatios | processing/extractors/keystroke_extractor.py:261-278 | corrections never outnumber presses; with a press, backspace_frequency is in [0, 1] and adds up to 1 with clean_typing_ratio; without one both are 0 |
| KeystrokeExtractorPy.ErrorFeatureKeys | processing/extractors/keystroke_extractor.py:273-278 | the error part has exactly its four keys |
| KeystrokeExtractorPy.IntervalsUpToBounds | processing/extractors/keystroke_extractor.py:291-297 | there is at most one interval per press pair, and each lies in (0, 5000) ms |
| KeystrokeExtractorPy.RhythmOfRatios | processing/extractors/keystroke_extractor.py:302-319 | with intervals, the eight named keys; burst and pause frequencies in [0, 1] add up to 1; stability lies in (0, 1] |
| KeystrokeExtractorPy.RhythmShape | processing/extractors/keystroke_extractor.py:280-319 | with fewer than two presses or no interval in range, the eight zero placeholders rhythm_0 … rhythm_7; otherwise the eight named features |
| KeystrokeExtractorPy.TypingSpeedPositive | processing/extractors/keystroke_extractor.py:315-317 | the words-per-minute estimate is positive |
| KeystrokeExtractorPy.CalculateIntervals | processing/extractors/keystroke_extractor.py:291-297 | the loop computes Intervals |
| KeystrokeExtractorPy.CalculateRhythm | processing/extractors/keystroke_extractor.py:280-319 | the method computes RhythmFeatures |
| KeystrokeExtractorPy.Describe | processing/extractors/keystroke_extractor.py:136-162 | min ≤ mean ≤ max and range = max − min ≥ 0 |
| KeystrokeExtractorPy.AssembleSummary | processing/extractors/keystroke_extractor.py:175-179 | the merged dictionary ends with dev_mode = any event in dev mode and total_keys = ⌊events / 2⌋ |
| KeystrokeExtractorPy.AssembleKeeps | processing/extractors/keystroke_extractor.py:166-173 | later updates keep the digraph slots and the error features |
| KeystrokeExtractorPy.AssembleDwell | processing/extractors/keystroke_extractor.py:136-149 | dwell statistics are present exactly when some dwell time was measured |
| KeystrokeExtractorPy.AssembleFlight | processing/extractors/keystroke_extractor.py:151-164 | flight statistics are present exactly when some flight time was measured |
| KeystrokeExtractorPy.FeaturesShape | processing/extractors/keystroke_extractor.py:133-181 | the dictionary always has the 20 digraph slots, the error features, dev_mode and total_keys; dwell and flight keys exactly when those times exist |
| KeystrokeExtractorPy.ExtractNeedsTenEvents | processing/extractors/keystroke_extractor.py:108-113 | no features exactly when fewer than 10 events are newer than now − window |
| KeystrokeExtractorPy.Extractor.constructor | processing/extractors/keystroke_extractor.py:27-39 | the window as given and an empty buffer |
| KeystrokeExtractorPy.Extractor.AddEvent | processing/extractors/keystroke_extractor.py:90-99 | the event, with its timestamp converted to seconds, joins the back of the buffer, which keeps its newest 10000 entries |
| KeystrokeExtractorPy.Extractor.ExtractFeatures | processing/extractors/keystroke_extractor.py:101-181 | the result is Extract of the buffer with cutoff now − window, and the buffer is not changed |
| MouseExtractorPy.Recent | processing/extractors/mouse_extractor.py:100-101 | every event of the window is strictly newer than the cutoff |
| MouseExtractorPy.Ratios | processing/extractors/mouse_extractor.py:154-161 | element-wise quotients, one per numerator |
| MouseExtractorPy.TimeSteps | processing/extractors/mouse_extractor.py:150-151 | one time step per pair of samples, each at least 1 ms |
| MouseExtractorPy.Analyse | processing/extractors/mouse_extractor.py:140-181 | one time step and one raw velocity per sample pair, and the outlier cuts hold: kept velocities below 10000, kept accelerations and jerks below their limits in magnitude |
| MouseExtractorPy.MovementValues | processing/extractors/mouse_extractor.py:183-217 | exactly 20 values, entry i being move_i |
| MouseExtractorPy.MovementFeatures | processing/extractors/mouse_extractor.py:137-217 | the result has exactly move_0 … move_19, and exists exactly when every movement has a y and the window is non-zero (numpy raises otherwise) |
| MouseExtractorPy.CurvatureEfficiency | processing/extractors/mouse_extractor.py:172-174 | move_7 + move_18 = 1 |
| MouseExtractorPy.IdleFraction | processing/extractors/mouse_extractor.py:210 | move_15 lies in [0, 1] |
| MouseExtractorPy.VelocityMeanCut | processing/extractors/mouse_extractor.py:155 | move_0 is below 10000 px/s |
| MouseExtractorPy.VelocityMaxCut | processing/extractors/mouse_extractor.py:155 | move_2 is below 10000 px/s |
| MouseExtractorPy.AccelerationCut | processing/extractors/mouse_extractor.py:162 | move_6 is below 100000 px/s² |
| MouseExtractorPy.PressTimesSize | processing/extractors/mouse_extractor.py:227 | the press table has at most one entry per press |
| MouseExtractorPy.ReleaseFoldBounds | processing/extractors/mouse_extractor.py:229-235 | every duration lies in (0, 5000) ms, and each deletes its button's press, so durations plus remaining presses never exceed the buttons pressed |
| MouseExtractorPy.ClickDurationBounds | processing/extractors/mouse_extractor.py:222-235 | no more durations than presses, each in (0, 5000) ms |
| MouseExtractorPy.MatchReleases | processing/extractors/mouse_extractor.py:229-235 | the release loop computes ReleaseFold |
| MouseExtractorPy.DoubleClicksUpToBound | processing/extractors/mouse_extractor.py:243-247 | at most one double click per adjacent pair examined |
| MouseExtractorPy.DoubleClicksBound | processing/extractors/mouse_extractor.py:242-247 | double clicks ≤ max(presses − 1, 0) |
| MouseExtractorPy.CountDoubleClicks | processing/extractors/mouse_extractor.py:243-247 | the loop computes DoubleClicks |
| MouseExtractorPy.ClickValuesOf | processing/extractors/mouse_extractor.py:249-260 | exactly 10 values |
| MouseExtractorPy.ClickFeatures | processing/extractors/mouse_extractor.py:219-260 | exactly click_0 … click_9, present exactly when the window is non-zero |
| MouseExtractorPy.ClickValueBounds | processing/extractors/mouse_extractor.py:250-257 | click_5 and click_7 lie in [0, 1] and click_0 in [0, 5000) |
| MouseExtractorPy.ClickBounds | processing/extractors/mouse_extractor.py:219-260 | the same bounds for the features of any click list |
| MouseExtractorPy.CalculateClickFeatures | processing/extractors/mouse_extractor.py:219-260 | the method computes ClickFeatures |
| MouseExtractorPy.Deltas | processing/extractors/mouse_extractor.py:265 | no more deltas than scroll events |
| MouseExtractorPy.ScrollValues | processing/extractors/mouse_extractor.py:278-287 | exactly 8 values, entry i being scroll_i |
| MouseExtractorPy.ScrollFeatures | processing/extractors/mouse_extractor.py:262-287 | exactly scroll_0 … scroll_7, present unless there are deltas and the window is zero |
| MouseExtractorPy.ScrollBounds | processing/extractors/mouse_extractor.py:271-283 | scroll_2 + scroll_3 ≤ number of deltas and scroll_4 lies in [0, 1] |
| MouseExtractorPy.ScrollUpEntry | processing/extractors/mouse_extractor.py:271-281 | scroll_2 counts the positive deltas |
| MouseExtractorPy.ScrollDownEntry | processing/extractors/mouse_extractor.py:272-282 | scroll_3 counts the negative deltas |
| MouseExtractorPy.ScrollRatioEntry | processing/extractors/mouse_extractor.py:283 | scroll_4 is the fraction of positive deltas |
| MouseExtractorPy.UpDownBound | processing/extractors/mouse_extractor.py:271-272 | up and down deltas together are no more than all deltas |
| MouseExtractorPy.MovePart | processing/extractors/mouse_extractor.py:113-118 | exactly move_0 … move_19, zero-filled with two or fewer movements |
| MouseExtractorPy.ClickPart | processing/extractors/mouse_extractor.py:120-124 | exactly click_0 … click_9, zero-filled without clicks |
| MouseExtractorPy.ScrollPart | processing/extractors/mouse_extractor.py:126-130 | exactly scroll_0 … scroll_7, zero-filled without scrolls |
| MouseExtractorPy.CombineKeys | processing/extractors/mouse_extractor.py:111-135 | the merged result has exactly the three groups and dev_mode, set exactly when some window event was in dev mode |
| MouseExtractorPy.ExtractShape | processing/extractors/mouse_extractor.py:92-135 | nothing exactly when fewer than 50 events are in the window; otherwise exactly move_0..19, click_0..9, scroll_0..7 and dev_mode |
| MouseExtractorPy.MovementsHaveY | processing/extractors/mouse_extractor.py:107 | when every event has a y, every movement does |
| MouseExtractorPy.ExtractRaisesOnlyOnMissingData | processing/extractors/mouse_extractor.py:92-135 | with a non-zero window and a y on every event, extraction never raises |
| MouseExtractorPy.Extractor.constructor | processing/extractors/mouse_extractor.py:23-35 | the window as given and an empty buffer |
| MouseExtractorPy.Extractor.AddEvent | processing/extractors/mouse_extractor.py:80-90 | the event, timestamp in seconds, joins the back of the buffer, which keeps its newest 50000 entries |
| MouseExtractorPy.Extractor.ExtractFeatures | processing/extractors/mouse_extractor.py:92-135 | the result is Extract of the buffer with cutoff now − window |
| AppTrackerPy.HourOfMicros | processing/extractors.backup/app_tracker.py:88-131 | the hour of day is in [0, 24) |
| AppTrackerPy.SequenceProbabilityBounds | processing/extractors.backup/app_tracker.py:268-276 | the floored product over adjacent pairs lies in (0, 1] |
| AppTrackerPy.AnomalyScoreBounds | processing/extractors.backup/app_tracker.py:254-287 | the anomaly score is at most 1, is 0 for fewer than two applications, and is non-negative when the power routine maps (0, 1] into [0, 1] |
| AppTrackerPy.Tracker.constructor | processing/extractors.backup/app_tracker.py:22-41 | empty tables, no current application, no recent events, nothing stored or published |
| AppTrackerPy.Tracker.HandleAppSwitch | processing/extractors.backup/app_tracker.py:85-142 | the new app becomes current with the event time; its hour count goes up by one; the event joins the 1000-entry recent deque; on a switch to a different app, the transition count goes up by one, one duration is appended for the old app, and the record is stored unless the write raises and published unless either raises; otherwise those four are unchanged |
| AppTrackerPy.Tracker.EnterApp | processing/extractors.backup/app_tracker.py:126-140 | the part run on every event: current app and start, the hour count and the recent deque |
| AppTrackerPy.Tracker.RecordTransition | processing/extractors.backup/app_tracker.py:92-124 | the part run on a real switch: transition count, duration, store then publish, each failure caught |
| AppTrackerPy.Tracker.CalculateTransitionMatrix | processing/extractors.backup/app_tracker.py:166-180 | the method computes the transition matrix Matrix(transitions) |
| AppTrackerPy.Tracker.RowTotals | processing/extractors.backup/app_tracker.py:169-171 | after the first loop each application's total is the sum of the counts leaving it |
| AppTrackerPy.Tracker.DivideByTotals | processing/extractors.backup/app_tracker.py:174-178 | the second loop yields each count over its row total, keyed "from->to" |
| AppTrackerPy.Tracker.CalculateTimePreferences | processing/extractors.backup/app_tracker.py:182-194 | the method computes TimePreferences(time_patterns) |
| AppTrackerPy.Tracker.TimeProbability | processing/extractors.backup/app_tracker.py:238-252 | the result is the hour's share of the app's row, in [0, 1]; reading the defaultdict adds an empty row for an unknown app |
| AppTrackerPy.Tracker.CalculateSequenceProbability | processing/extractors.backup/app_tracker.py:268-276 | the loop computes SequenceProbability |
| AppTrackerPy.Tracker.CalculateAnomalyScore | processing/extractors.backup/app_tracker.py:254-287 | the result is AnomalyScore for the wall-clock hour, and only the last app's row may be created |
| CountTables.LookupIndex | processing/extractors.backup/app_tracker.py:231 | a key that can be looked up sits at some index with that value |
| CountTables.IncrementKeepsCounts | processing/extractors.backup/app_tracker.py:99 | `d[k] += 1` keeps the keys distinct and every count positive |
| CountTables.AppendAtKeepsKeys | processing/extractors.backup/app_tracker.py:95 | `d[k].append(v)` keeps the keys distinct |
| CountTables.RowTotalIncrement | processing/extractors.backup/app_tracker.py:99 | recording one transition adds one to its source row's total and leaves other rows alone |
| CountTables.CountWithinRow | processing/extractors.backup/app_tracker.py:231-234 | a pair's count never exceeds its source row's total |
| CountTables.ProbabilityBounds | processing/extractors.backup/app_tracker.py:177 | count / total lies in [0, 1] when the count is within the total, is positive for a positive count, and is 0 for a zero total |
| CountTables.Keyed | processing/extractors.backup/app_tracker.py:174-178 | a dictionary built by assignments has exactly the assigned keys |
| CountTables.KeyedLastWins | processing/extractors.backup/app_tracker.py:174-178 | the last assignment to a key wins |
| CountTables.Shares | processing/extractors.backup/app_tracker.py:174-178 | one probability per transition, its count over its row total |
| CountTables.NamedEntries | processing/extractors.backup/app_tracker.py:178 | each transition's probability under its "from->to" name |
| CountTables.RowMassOfShares | processing/extractors.backup/app_tracker.py:166-178 | the probabilities of part of a row add up to that part's total over the row total |
| CountTables.MatrixRowSumsToOne | processing/extractors.backup/app_tracker.py:166-180 | every row of the transition matrix with a transition sums to 1 |
| CountTables.MatrixEntryBounds | processing/extractors.backup/app_tracker.py:166-180 | every recorded transition's probability lies in (0, 1] |
| CountTables.MatrixHoldsEntries | processing/extractors.backup/app_tracker.py:174-180 | with distinct "from->to" names the dictionary holds each transition's probability |
| CountTables.TransitionProbabilityBounds | processing/extractors.backup/app_tracker.py:220-236 | the probability is in [0, 1], and 0 for a never-seen pair |
| CountTables.TransitionProbabilityInMatrix | processing/extractors.backup/app_tracker.py:220-236 | the getter and the matrix agree on every recorded transition |
| CountTables.SharesOf | processing/extractors.backup/app_tracker.py:188-191 | one share per hour, its count over the total |
| CountTables.MassOfShares | processing/extractors.backup/app_tracker.py:186-191 | the shares of part of a row add up to its total over the row total |
| CountTables.HourSharesSumToOne | processing/extractors.backup/app_tracker.py:182-194 | the hour probabilities of a non-empty row sum to 1, each in (0, 1] |
| CountTables.HourMapHoldsShares | processing/extractors.backup/app_tracker.py:188-191 | the hour dictionary holds each hour's share |
| CountTables.IncrementIn | processing/extractors.backup/app_tracker.py:132 | `table[app][hour] += 1`: the app's row gains one count at the hour, other rows are unchanged, a new app goes to the end |
| CountTables.Touch | processing/extractors.backup/app_tracker.py:249 | reading `table[app]` creates an empty row for a missing app and changes nothing else |
| CountTables.IncrementInKeepsRows | processing/extractors.backup/app_tracker.py:132 | the nested table stays well formed after a count |
| CountTables.TouchKeepsRows | processing/extractors.backup/app_tracker.py:249 | the nested table stays well formed after a read |
| CountTables.HourProbabilityBounds | processing/extractors.backup/app_tracker.py:249-252 | the hour probability is in [0, 1], and 0 for an unseen hour |
| CountTables.TimePreferencesAgree | processing/extractors.backup/app_tracker.py:182-194 | the time preferences hold, for every recorded (app, hour), the same probability as get_time_probability |
| CountTables.RecordKeepsTables | processing/extractors.backup/app_tracker.py:92-99 | recording a switch keeps one duration per transition out of each app, adds one to the pair's count and appends the duration |
| CountTables.PatternCountsOneMore | processing/extractors.backup/app_tracker.py:131-132 | a switch counts its (app, hour) once more and no other |
| AppTrackerRs.StatsOfMeaning | test_environment/extractors_rs/app_tracker/src/tracker.rs:122-129 | session_count is the number of durations, total_time_seconds their sum, and the average times the count is the sum |
| AppTrackerRs.UsageAt | test_environment/extractors_rs/app_tracker/src/tracker.rs:117-130 | an application is in the statistics exactly when it has a non-empty duration list, with that list's statistics |
| AppTrackerRs.UsageAgree | test_environment/extractors_rs/app_tracker/src/tracker.rs:114-133 | the statistics hold an application exactly when it has sessions, with their count, total and mean |
| AppTrackerRs.SessionsAreTransitions | test_environment/extractors_rs/app_tracker/src/tracker.rs:114-133 | an application has statistics exactly when transitions left it, and its session count equals that row total |
| AppTrackerRs.PushBounded | test_environment/extractors_rs/app_tracker/src/tracker.rs:67-74 | pop the front at 1000, then push back: the newest 1000 events |
| AppTrackerRs.Tracker.constructor | test_environment/extractors_rs/app_tracker/src/tracker.rs:20-29 | empty tables, no current application, no recent events |
| AppTrackerRs.Tracker.HandleAppSwitch | test_environment/extractors_rs/app_tracker/src/tracker.rs:32-75 | the new app becomes current with the given time; its wall-clock hour count goes up by one; the event joins the 1000-entry deque; a transition and a duration are recorded exactly when a different app with a start time was current |
| AppTrackerRs.Tracker.LeaveApp | test_environment/extractors_rs/app_tracker/src/tracker.rs:36-53 | `take()` clears the current app, and a switch from a different app with a start time is recorded |
| AppTrackerRs.Tracker.RecordTransition | test_environment/extractors_rs/app_tracker/src/tracker.rs:43-50 | the pair's count goes up by one and one duration is appended for the old app |
| AppTrackerRs.Tracker.EnterApp | test_environment/extractors_rs/app_tracker/src/tracker.rs:55-74 | current app and start, the hour count and the bounded deque |
| AppTrackerRs.Tracker.CalculateTransitionMatrix | test_environment/extractors_rs/app_tracker/src/tracker.rs:78-93 | the method computes the same transition matrix as the Python tracker, so every row sums to 1 |
| AppTrackerRs.Tracker.FromTotals | test_environment/extractors_rs/app_tracker/src/tracker.rs:79-83 | each application's total is the sum of its row, and every source app has a total (the `unwrap_or(1)` default is never used) |
| AppTrackerRs.Tracker.Divide | test_environment/extractors_rs/app_tracker/src/tracker.rs:85-90 | each count over its row total, keyed "from->to" |
| AppTrackerRs.Tracker.CalculateTimePreferences | test_environment/extractors_rs/app_tracker/src/tracker.rs:96-111 | the method computes TimePreferences of the hour table |
| AppTrackerRs.Tracker.HourProbabilities | test_environment/extractors_rs/app_tracker/src/tracker.rs:100-105 | one application's hour dictionary, each count over the row total |
| AppTrackerRs.Tracker.SumCounts | test_environment/extractors_rs/app_tracker/src/tracker.rs:100 | the row total |
| AppTrackerRs.Tracker.DivideCounts | test_environment/extractors_rs/app_tracker/src/tracker.rs:103-105 | each hour's count over the total |
| AppTrackerRs.Tracker.CalculateUsageStats | test_environment/extractors_rs/app_tracker/src/tracker.rs:114-133 | the method computes Usage of the duration table |
| TrainAppUsage.EndpointsIncrement | processing/models/train_app_usage.py:159-162 | counting a pair adds exactly its two ends to the set of apps seen |
| TrainAppUsage.TallyKeeps | processing/models/train_app_usage.py:134-153 | counting one record keeps the tables consistent: one duration per transition out of each app, and app_counts keyed by exactly the apps seen |
| TrainAppUsage.TallyAllKeeps | processing/models/train_app_usage.py:134-153 | the same after any number of records |
| TrainAppUsage.TallyCounts | processing/models/train_app_usage.py:140-153 | a record adds one to its pair's count, one duration and one hour count to its source app, and one occurrence to each end (two when both ends are the same app) |
| TrainAppUsage.StoredProbabilityBounds | processing/models/train_app_usage.py:178-189 | every stored probability lies in (0, 1] |
| TrainAppUsage.StoredAreMatrixEntries | processing/models/train_app_usage.py:168-189 | each recorded transition is stored under its "from->to" name with its count and the transition-matrix probability, whose rows sum to 1 |
| TrainAppUsage.AllApps | processing/models/train_app_usage.py:158-162 | the loop collects exactly the apps at either end of a transition |
| TrainAppUsage.TransitionProbabilities | processing/models/train_app_usage.py:168-189 | every recorded pair is stored, each entry under its own name with its positive count and count / source total |
| TrainAppUsage.ProbabilitiesFrom | processing/models/train_app_usage.py:171-189 | one source app's pairs are added and earlier entries kept |
| TrainAppUsage.NamesCard | processing/models/train_app_usage.py:339-342 | there are at most n_apps · n_apps names of pairs of seen apps |
| TrainAppUsage.DensityBounds | processing/models/train_app_usage.py:338-342 | at most n_apps² transitions are stored, so the density lies in [0, 1] |
| TrainAppUsage.PeakIndex | processing/models/train_app_usage.py:226-228 | the peak is an hour of maximal count, the first such in insertion order |
| TrainAppUsage.HourlyAt | processing/models/train_app_usage.py:213-221 | an hour is in hourly_distribution exactly when it was counted, with its count and its share |
| TrainAppUsage.HourlyKeys | processing/models/train_app_usage.py:214-221 | the distribution's keys are among str(0) … str(23) |
| TrainAppUsage.HourCountSumIsTotal | processing/models/train_app_usage.py:207-215 | the counts of hours 0..23 add up to the row total |
| TrainAppUsage.HourMassOfCounts | processing/models/train_app_usage.py:214-221 | the stored probabilities add up to the counted hours over the total |
| TrainAppUsage.PatternMass | processing/models/train_app_usage.py:206-229 | total_occurrences is the sum over the 24 hours, positive, and the hour probabilities sum to 1 |
| TrainAppUsage.PatternPeak | processing/models/train_app_usage.py:226-228 | no hour has a larger count than peak_hour |
| TrainAppUsage.PatternsAt | processing/models/train_app_usage.py:206-229 | every application with counts gets its pattern |
| TrainAppUsage.RankedCountsOrdered | processing/models/train_app_usage.py:274 | the sort is a permutation of the counts, in non-increasing order |
| TrainAppUsage.RankingIsTop | processing/models/train_app_usage.py:274-277 | an entry left out of the top 20 outranks none of the kept ones |
| TrainAppUsage.Rankings | processing/models/train_app_usage.py:276-284 | min(n, 20) entries |
| TrainAppUsage.RankingsSpec | processing/models/train_app_usage.py:267-284 | ranks 1, 2, …, each an (app, count) of app_counts, in non-increasing order, and no left-out count exceeds a kept one |
| TrainAppUsage.CheckTrainingData | processing/models/train_app_usage.py:111-119 | the records pass exactly when there are at least min_transitions; then with their count; otherwise the "Insufficient data: …" error |
| TrainAppUsage.DigitsOrder | processing/models/train_app_usage.py:391 | zero-padded numbers of equal width compare as strings as they compare as numbers |
| TrainAppUsage.StampOrder | processing/models/train_app_usage.py:391 | the %Y%m%d_%H%M%S stamps compare as strings in chronological order |
| TrainAppUsage.FileNameOrder | processing/models/train_app_usage.py:391-392 | model file names compare as strings exactly as their save times compare chronologically |
| TrainAppUsage.FileNameMatchesGlob | processing/models/train_app_usage.py:392 | every saved name matches the app_markov_*.json pattern the inference engine loads |
| TrainAppUsage.LatestSaveIsLoaded | processing/models/train_app_usage.py:391-392 | among models saved at several times, the inference engine loads the one saved last |
| TrainAppUsage.Trainer.constructor | processing/models/train_app_usage.py:56-61 | four empty tables |
| TrainAppUsage.Trainer.BuildMarkovChain | processing/models/train_app_usage.py:121-193 | the tables become the old ones with every record counted; every recorded pair is stored with its count and probability |
| TrainAppUsage.Trainer.CountRecords | processing/models/train_app_usage.py:134-153 | the counting loop counts every record, in order |
| TrainAppUsage.Trainer.CountRecord | processing/models/train_app_usage.py:140-153 | the body for one record |
| TrainAppUsage.Trainer.BuildTimePatterns | processing/models/train_app_usage.py:195-234 | one pattern per application with a positive total |
| TrainAppUsage.Trainer.HourlyDistribution | processing/models/train_app_usage.py:213-221 | the hour loop computes Hourly over hours 0..23 |
| TrainAppUsage.Trainer.BuildAppRankings | processing/models/train_app_usage.py:267-292 | the method computes Rankings of app_counts |
| KeystrokeFeaturesRs.PercentileIndex | test_environment/extractors_rs/keystroke_extractor/src/features.rs:249 | the clamped percentile position always falls inside the sorted sample |
| KeystrokeFeaturesRs.PercentileIndexMonotone | test_environment/extractors_rs/keystroke_extractor/src/features.rs:249 | a larger percentile never selects an earlier position |
| KeystrokeFeaturesRs.PercentileOrder | test_environment/extractors_rs/keystroke_extractor/src/features.rs:246-251 | every percentile lies between the sample's minimum and maximum, and percentiles grow with p |
| KeystrokeFeaturesRs.DescribeOrder | test_environment/extractors_rs/keystroke_extractor/src/features.rs:41-48 | the eight statistics are ordered as their names say: min ≤ q25 ≤ q75 ≤ max, median and mean within [min, max], range = max − min ≥ 0 |
| KeystrokeFeaturesRs.DwellTimesBounds | test_environment/extractors_rs/keystroke_extractor/src/features.rs:90-108 | every dwell time lies in (0, 1000) ms and there are no more dwell times than releases |
| KeystrokeFeaturesRs.PendingIsLatestPress | test_environment/extractors_rs/keystroke_extractor/src/features.rs:94-105 | a key's pending press time is that of its latest press with no later press or release of the key, so a release pairs with the latest press |
| KeystrokeFeaturesRs.ReleaseClears | test_environment/extractors_rs/keystroke_extractor/src/features.rs:97-104 | after a release the key has no pending press |
| KeystrokeFeaturesRs.CalculateDwellTimes | test_environment/extractors_rs/keystroke_extractor/src/features.rs:90-108 | the loop over the events with its map of pending presses yields exactly the dwell-time fold of the events |
| KeystrokeFeaturesRs.GapsBounds | test_environment/extractors_rs/keystroke_extractor/src/features.rs:118-123 | press-to-press gaps lie in (0, limit) and there is at most one per adjacent pair of presses |
| KeystrokeFeaturesRs.FlightsAreShortIntervals | test_environment/extractors_rs/keystroke_extractor/src/features.rs:110-125 | the flight times are exactly the rhythm intervals under 2000 ms, in the same order |
| KeystrokeFeaturesRs.CalculateGaps | test_environment/extractors_rs/keystroke_extractor/src/features.rs:118-123 | the saturating loop over adjacent presses yields exactly the in-range gaps, none for fewer than two presses |
| KeystrokeFeaturesRs.DigraphsShortest | test_environment/extractors_rs/keystroke_extractor/src/features.rs:127-144 | the digraphs are min(20, #flights) flight times in ascending order, none larger than any flight time left out, drawn from the flight times |
| KeystrokeFeaturesRs.DigraphsAreFlights | test_environment/extractors_rs/keystroke_extractor/src/features.rs:135-142 | each digraph is one of the flight times, hence in (0, 2000) ms |
| KeystrokeFeaturesRs.DigraphFeaturesShape | test_environment/extractors_rs/keystroke_extractor/src/features.rs:64-72 | the names are exactly digraph_0_mean .. digraph_19_mean; slot i holds the i-th digraph or 0 beyond them |
| KeystrokeFeaturesRs.CalculateDigraphs | test_environment/extractors_rs/keystroke_extractor/src/features.rs:127-144 | sorting the gaps and truncating to twenty yields the digraph specification |
| KeystrokeFeaturesRs.CorrectionsArePresses | test_environment/extractors_rs/keystroke_extractor/src/features.rs:148-152 | the corrections never outnumber the presses, so the usize subtraction does not underflow |
| KeystrokeFeaturesRs.ErrorRatios | test_environment/extractors_rs/keystroke_extractor/src/features.rs:146-168 | the four error names; correction frequency and clean-typing ratio lie in [0, 1], sum to one with at least one press and are both 0 without presses |
| KeystrokeFeaturesRs.BurstsAndPauses | test_environment/extractors_rs/keystroke_extractor/src/features.rs:193-195 | bursts and pauses split the intervals, and there is always a pause since the largest interval is not below the median |
| KeystrokeFeaturesRs.RhythmOfRatios | test_environment/extractors_rs/keystroke_extractor/src/features.rs:193-207 | the eight rhythm names; burst and pause frequencies sum to one with burst < 1 and pause > 0; stability lies in (0, 1] |
| KeystrokeFeaturesRs.RhythmShape | test_environment/extractors_rs/keystroke_extractor/src/features.rs:186-208 | without an interval in range, the eight zero placeholders rhythm_0 .. rhythm_7; otherwise the eight named rhythm features |
| KeystrokeFeaturesRs.CalculateRhythm | test_environment/extractors_rs/keystroke_extractor/src/features.rs:170-209 | the interval loop and branch yield exactly the rhythm specification |
| KeystrokeFeaturesRs.ExtractNeedsTenEvents | test_environment/extractors_rs/keystroke_extractor/src/features.rs:26-34 | no features exactly when fewer than ten events are newer than now − window |
| KeystrokeFeaturesRs.AssembleSummary | test_environment/extractors_rs/keystroke_extractor/src/features.rs:64-85 | the merged map holds the twenty digraph slots and the error names, total_keys is the number of presses and dev_mode is 0 |
| KeystrokeFeaturesRs.AssembleStats | test_environment/extractors_rs/keystroke_extractor/src/features.rs:38-62 | dwell (flight) statistics are present exactly when dwell (flight) times exist; no later insert overwrites or adds them |
| KeystrokeFeaturesRs.FeaturesShape | test_environment/extractors_rs/keystroke_extractor/src/features.rs:36-87 | the feature map of the window: digraph slots, error names, press count, zero dev_mode, and statistics exactly when times exist |
| KeystrokeFeaturesRs.Calculator.constructor | test_environment/extractors_rs/keystroke_extractor/src/features.rs:16-18 | the calculator keeps its window length |
| KeystrokeFeaturesRs.Calculator.ExtractFeatures | test_environment/extractors_rs/keystroke_extractor/src/features.rs:21-88 | the sub-methods combine into exactly the extraction specification: None below ten recent events, the assembled map otherwise |
| KeystrokeExtractorRs.CleanupKeepsWindow | test_environment/extractors_rs/keystroke_extractor/src/extractor.rs:50-65 | cleanup at a cutoff of two windows never drops an event of the extraction window, so the features after cleanup equal those before |
| KeystrokeExtractorRs.CleanupLeavesSuffix | test_environment/extractors_rs/keystroke_extractor/src/extractor.rs:56-64 | cleanup removes exactly the leading run of events older than now − 2·window; what remains is a suffix that starts at or after the cutoff |
| KeystrokeExtractorRs.Extractor.constructor | test_environment/extractors_rs/keystroke_extractor/src/extractor.rs:15-22 | an empty queue, the window and interval kept, a calculator with the same window |
| KeystrokeExtractorRs.Extractor.AddEvent | test_environment/extractors_rs/keystroke_extractor/src/extractor.rs:25-36 | the queue becomes the old queue with the event appended and the oldest dropped when it held 10000; never more than 10000 events |
| KeystrokeExtractorRs.Extractor.ExtractFeatures | test_environment/extractors_rs/keystroke_extractor/src/extractor.rs:39-47 | the features of the queue at the given time, as the calculator defines them |
| KeystrokeExtractorRs.Extractor.CleanupOldEvents | test_environment/extractors_rs/keystroke_extractor/src/extractor.rs:50-65 | the queue loses exactly its leading events older than now − 2·window |
| MouseExtractorRs.CleanupKeepsWindow | test_environment/extractors_rs/mouse_extractor/src/extractor.rs:55-70 | cleanup at a cutoff of two windows keeps every event of the extraction window |
| MouseExtractorRs.Extractor.constructor | test_environment/extractors_rs/mouse_extractor/src/extractor.rs:11-17 | an empty queue, the window kept, a calculator with the same window |
| MouseExtractorRs.Extractor.AddEvent | test_environment/extractors_rs/mouse_extractor/src/extractor.rs:20-41 | the queue becomes the old queue with the event appended and the oldest dropped when it held 50000; never more than 50000 events |
| MouseExtractorRs.Extractor.ExtractFeatures | test_environment/extractors_rs/mouse_extractor/src/extractor.rs:44-52 | the features of the queue at the given time, as the calculator defines them |
| MouseExtractorRs.Extractor.CleanupOldEvents | test_environment/extractors_rs/mouse_extractor/src/extractor.rs:55-70 | the queue loses exactly its leading events older than now − 2·window |
| MouseFeaturesRs.FoldMaxIsMax | test_environment/extractors_rs/mouse_extractor/src/features.rs:328-330 | the fold from negative infinity is negative infinity on an empty slice and the largest element otherwise |
| MouseFeaturesRs.FoldMinIsMin | test_environment/extractors_rs/mouse_extractor/src/features.rs:324-326 | the fold from positive infinity is positive infinity on an empty slice and the smallest element otherwise |
| MouseFeaturesRs.HelperEdgeCases | test_environment/extractors_rs/mouse_extractor/src/features.rs:313-342 | the mean and median of nothing are 0, the deviation of fewer than two values is 0, and a median lies within the sample |
| MouseFeaturesRs.Distances | test_environment/extractors_rs/mouse_extractor/src/features.rs:110-116 | one straight-line step length per pair of adjacent positions, in order |
| MouseFeaturesRs.TimeSteps | test_environment/extractors_rs/mouse_extractor/src/features.rs:119-123 | one time step per pair of adjacent samples, each at least 1 ms |
| MouseFeaturesRs.Ratios | test_environment/extractors_rs/mouse_extractor/src/features.rs:126-129 | element i is the i-th numerator over the i-th denominator |
| MouseFeaturesRs.CutRatios | test_environment/extractors_rs/mouse_extractor/src/features.rs:134-143 | every kept acceleration (or jerk) has magnitude under its outlier cut |
| MouseFeaturesRs.Angles | test_environment/extractors_rs/mouse_extractor/src/features.rs:146-158 | element i is the direction atan2(dy, dx) of step i |
| MouseFeaturesRs.Velocities | test_environment/extractors_rs/mouse_extractor/src/features.rs:126-131 | at most one velocity per step, every one under 10000 px/s |
| MouseFeaturesRs.Analyse | test_environment/extractors_rs/mouse_extractor/src/features.rs:109-175 | one distance per step and one time step per pair of samples |
| MouseFeaturesRs.AnalyseCuts | test_environment/extractors_rs/mouse_extractor/src/features.rs:119-175 | every velocity, acceleration and jerk kept is under its outlier cut and every time step is at least 1 ms |
| MouseFeaturesRs.MovementValues | test_environment/extractors_rs/mouse_extractor/src/features.rs:178-204 | twenty movement entries, entry i as the source's move_i |
| MouseFeaturesRs.MovementShape | test_environment/extractors_rs/mouse_extractor/src/features.rs:95-107 | the movement part fails (index past the y values) exactly when at least two but not all moves carry y; otherwise its names are move_0 .. move_19 |
| MouseFeaturesRs.CurvatureEfficiency | test_environment/extractors_rs/mouse_extractor/src/features.rs:163-203 | curvature (move_7) and efficiency (move_18) add up to one |
| MouseFeaturesRs.IdleFraction | test_environment/extractors_rs/mouse_extractor/src/features.rs:198-199 | the idle fraction (move_15) lies in [0, 1] |
| MouseFeaturesRs.VelocityMax | test_environment/extractors_rs/mouse_extractor/src/features.rs:180 | move_2 is null (negative infinity) exactly without velocities, otherwise the largest velocity, under 10000 |
| MouseFeaturesRs.AccelerationMax | test_environment/extractors_rs/mouse_extractor/src/features.rs:185 | move_6 is null exactly without accelerations, otherwise a number under 100000 |
| MouseFeaturesRs.MoveFrequency | test_environment/extractors_rs/mouse_extractor/src/features.rs:204 | move_19 is moves per window second, and null (an infinity) for a zero-length window |
| MouseFeaturesRs.PressTableHas | test_environment/extractors_rs/mouse_extractor/src/features.rs:228-232 | a button has a press time exactly when some press names it |
| MouseFeaturesRs.PressTableLatest | test_environment/extractors_rs/mouse_extractor/src/features.rs:228-232 | a button's press time is that of its latest press |
| MouseFeaturesRs.DurationsAppend | test_environment/extractors_rs/mouse_extractor/src/features.rs:234-243 | releases do not consume press times: durations of two runs of releases concatenate |
| MouseFeaturesRs.DurationsBounds | test_environment/extractors_rs/mouse_extractor/src/features.rs:234-243 | every click duration lies in (0, 5000) ms, at most one per release |
| MouseFeaturesRs.DoubleClicksBound | test_environment/extractors_rs/mouse_extractor/src/features.rs:251-258 | at most one double click per adjacent pair of sorted presses |
| MouseFeaturesRs.ClickValuesOf | test_environment/extractors_rs/mouse_extractor/src/features.rs:260-271 | ten click entries in the source's click_0 .. click_9 order |
| MouseFeaturesRs.ClickValues | test_environment/extractors_rs/mouse_extractor/src/features.rs:209-274 | ten click entries |
| MouseFeaturesRs.ClickShares | test_environment/extractors_rs/mouse_extractor/src/features.rs:266-269 | the left-click share and the double-click share lie in [0, 1] |
| MouseFeaturesRs.ClickBounds | test_environment/extractors_rs/mouse_extractor/src/features.rs:209-274 | both shares lie in [0, 1] and the double-click count is at most the presses less one |
| MouseFeaturesRs.ScrollValues | test_environment/extractors_rs/mouse_extractor/src/features.rs:300-307 | eight scroll entries, entry i as the source's scroll_i |
| MouseFeaturesRs.ScrollFeatures | test_environment/extractors_rs/mouse_extractor/src/features.rs:276-310 | the names are exactly scroll_0 .. scroll_7 |
| MouseFeaturesRs.ScrollBounds | test_environment/extractors_rs/mouse_extractor/src/features.rs:291-304 | up plus down scrolls are the non-zero deltas, at most all deltas; the up share lies in [0, 1] |
| MouseFeaturesRs.ScrollZeros | test_environment/extractors_rs/mouse_extractor/src/features.rs:284-289 | without deltas every scroll feature is 0 |
| MouseFeaturesRs.Moves | test_environment/extractors_rs/mouse_extractor/src/features.rs:42-46 | every selected event is a move with an x position |
| MouseFeaturesRs.ClickPart | test_environment/extractors_rs/mouse_extractor/src/features.rs:70-78 | the names are exactly click_0 .. click_9 |
| MouseFeaturesRs.MovePartKeys | test_environment/extractors_rs/mouse_extractor/src/features.rs:60-68 | when the movement part succeeds its names are exactly move_0 .. move_19 |
| MouseFeaturesRs.ExtractShape | test_environment/extractors_rs/mouse_extractor/src/features.rs:24-93 | no features exactly below fifty recent events; otherwise, unless the movement part fails, exactly the 38 move, click and scroll names plus dev_mode = 0 |
| MouseFeaturesRs.MatchReleases | test_environment/extractors_rs/mouse_extractor/src/features.rs:234-243 | the release loop yields exactly the duration specification |
| MouseFeaturesRs.RecordPresses | test_environment/extractors_rs/mouse_extractor/src/features.rs:228-232 | the press loop yields exactly the press table |
| MouseFeaturesRs.CountDoubleClicks | test_environment/extractors_rs/mouse_extractor/src/features.rs:251-258 | the saturating loop over sorted presses counts exactly the double clicks |
| MouseFeaturesRs.CalculateCutRatios | test_environment/extractors_rs/mouse_extractor/src/features.rs:134-143 | the acceleration and jerk loops yield exactly the cut ratios |
| MouseFeaturesRs.CalculateDistances | test_environment/extractors_rs/mouse_extractor/src/features.rs:110-116 | the distance loop yields exactly the step lengths |
| MouseFeaturesRs.AnalyseMovement | test_environment/extractors_rs/mouse_extractor/src/features.rs:109-175 | the movement loops yield exactly the movement analysis |
| MouseFeaturesRs.Calculator.constructor | test_environment/extractors_rs/mouse_extractor/src/features.rs:19-21 | the calculator keeps its window length |
| MouseFeaturesRs.Calculator.MovementPart | test_environment/extractors_rs/mouse_extractor/src/features.rs:95-207 | the movement computation, failing where the source indexes out of bounds |
| MouseFeaturesRs.Calculator.ClickFeatures | test_environment/extractors_rs/mouse_extractor/src/features.rs:209-274 | the press, release and double-click loops yield exactly the click entries |
| MouseFeaturesRs.Calculator.ExtractFeatures | test_environment/extractors_rs/mouse_extractor/src/features.rs:24-93 | exactly the extraction specification: too few events, a failing movement part, or the merged features |
| Config.LookupNest | common/config.py:97-108 | a value stored under nested keys is read back by the dotted key made of them |
| Config.LookupIsPath | common/config.py:97-108 | get returns the value reached by descending one dictionary level per segment, and the default exactly when some segment is missing or a level is not a dictionary |
| Config.PathExtend | common/config.py:102-106 | one more segment descends one level further into the dictionary reached, or misses |
| Config.PathMissingStays | common/config.py:102-106 | once a segment is missing, every longer key is missing too |
| Config.GetValue | common/config.py:97-108 | the loop of get returns exactly the lookup of the dot-split key, stopping at the first miss |
| Config.GetTwoLevels | common/config.py:97-108 | a two-segment key reads the nested entry |
| Config.GetThreeLevels | common/config.py:97-108 | a three-segment key reads the doubly nested entry |
| Config.DefaultUserId | common/config.py:53-56 | with the defaults the user id is "primary" |
| Config.DefaultDatabase | common/config.py:57-70 | every databases.section.key of the defaults reads its default entry |
| Config.DefaultSqlitePath | common/config.py:63-65 | the default SQLite path is /var/lib/seclyzer/databases/seclyzer.db |
| Config.DefaultRedisHost | common/config.py:66-69 | the default Redis host is localhost |
| Config.DefaultRedisPort | common/config.py:66-69 | the default Redis port is the integer 6379 |
| Config.RedisPrefersEnvironment | common/config.py:114-120 | REDIS_HOST overrides the configured host; REDIS_PORT, when set, must parse as an integer and becomes the port; otherwise an integer configured port is used |
| Config.RedisPortSource | common/config.py:118 | the Redis settings fail exactly when int() of the chosen port raises, and otherwise carry that integer |
| Config.RedisDefaults | common/config.py:114-120 | with the defaults and an empty environment Redis is localhost:6379 without password |
| Config.InfluxPrefersEnvironment | common/config.py:122-129 | INFLUX_URL, INFLUX_ORG and INFLUX_BUCKET override the configuration; without INFLUX_URL the configured or default URL is used |
| Config.ConfigManager.constructor | common/config.py:25-51 | the configuration is the parsed file when one was found, otherwise the defaults |
| Config.ConfigManager.Load | common/config.py:29-51 | the configuration becomes the parsed file when one was found, otherwise the defaults |
| Config.ConfigManager.GetKey | common/config.py:97-108 | the value of a dotted key, or the default |
| Config.ConfigManager.GetUserId | common/config.py:110-112 | the configured user id, "primary" when absent or with the defaults |
| Config.ConfigManager.GetRedisConfig | common/config.py:114-120 | exactly the Redis settings with their environment overrides, failing where int() raises |
| DeveloperMode.BypassScore | common/developer_mode.py:197-205 | the bypass score is full trust: the top of the 0..100 confidence scale |
| DeveloperMode.DisabledIsInactive | common/developer_mode.py:35-38 | with the master switch off, is_active answers false and changes nothing |
| DeveloperMode.MissingConfigIsInactive | common/developer_mode.py:26-38 | without a configuration file developer mode is never reported active |
| DeveloperMode.TriggerActivates | common/developer_mode.py:49-59 | when enabled and no timeout is due, a magic file or the environment variable makes the mode active; it re-activates with a fresh time only when it was inactive |
| DeveloperMode.EnvVarMustBeOne | common/developer_mode.py:80-86 | the environment variable triggers exactly when its value is "1" |
| DeveloperMode.AutoDisableDeactivates | common/developer_mode.py:40-47 | once the auto-disable timeout is due the mode deactivates and logs the reason, whatever triggers remain |
| DeveloperMode.ActiveIsSticky | common/developer_mode.py:35-70 | an activation survives the disappearance of its trigger until the auto-disable timeout |
| DeveloperMode.AnswerIsNewState | common/developer_mode.py:35-70 | when enabled, the answer of is_active is whether the mode is active afterwards |
| DeveloperMode.DisabledButActivated | common/developer_mode.py:35-38 | a key sequence activates even with the master switch off, while is_active still answers false |
| DeveloperMode.CoherentPreserved | common/developer_mode.py:135-156 | active holds exactly when an activation time and method are recorded, after every operation |
| DeveloperMode.KeySequenceMatch | common/developer_mode.py:88-110 | a sequence matches exactly when enabled and the recent keys end with it (the empty sequence, via s[-0:], only an empty key list); a match activates with the current time, a miss changes nothing |
| DeveloperMode.StoredMethodPreserved | common/developer_mode.py:51-107 | the recorded method is always one of the three strings the code stores |
| DeveloperMode.KeySequenceNeverExpires | common/developer_mode.py:62-68 | as written, an activation by key sequence is still active after its duration has passed, since the stored method is never "key_sequence" |
| DeveloperMode.TaggedSequenceExpires | common/developer_mode.py:62-68 | with the activation tagged "key_sequence", it is active exactly until its duration has passed |
| DeveloperMode.MetadataTagMatches | common/developer_mode.py:216-231 | the dev_mode tag is the answer of is_active; the method is tagged exactly when active; an inactive tag has no other key |
| DeveloperMode.DeveloperModeHandler.constructor | common/developer_mode.py:18-24 | the handler starts inactive with no activation time or method |
| DeveloperMode.DeveloperModeHandler.ActivateNow | common/developer_mode.py:135-147 | active with the given time and method; an ACTIVATED entry is logged when auditing is on |
| DeveloperMode.DeveloperModeHandler.DeactivateNow | common/developer_mode.py:149-156 | inactive with no time or method; a DEACTIVATED entry is logged only when it was active |
| DeveloperMode.DeveloperModeHandler.IsActiveNow | common/developer_mode.py:35-70 | the answer and the new state are exactly those of the is_active specification, and the activation fields stay together |
| DeveloperMode.DeveloperModeHandler.CheckKeySequenceNow | common/developer_mode.py:88-110 | the answer and new state are exactly those of the key-sequence specification |
| DeveloperMode.DeveloperModeHandler.ShouldBypassLockdown | common/developer_mode.py:207-214 | bypass exactly when is_active answers true, with its state change |
| DeveloperMode.DeveloperModeHandler.ShouldIncludeInTraining | common/developer_mode.py:233-240 | include exactly when is_active answers false, with its state change |
| DeveloperMode.DeveloperModeHandler.GetMetadataTag | common/developer_mode.py:216-231 | the tag of the is_active outcome, with its state change |
| InfluxClient.BuildLineProtocol | test_environment/extractors_rs/common/src/influx_client.rs:63-90 | the loop produces the measurement, one ",key=value" per tag in iteration order, a space, the fields joined by ",", a space and the timestamp |
| InfluxClient.HeadJoin | test_environment/extractors_rs/common/src/influx_client.rs:69-75 | the measurement with its tags is the measurement and the tag items joined by "," |
| InfluxClient.LineSections | test_environment/extractors_rs/common/src/influx_client.rs:77-89 | the line is its three sections joined by single spaces |
| InfluxClient.TimestampPlain | test_environment/extractors_rs/common/src/influx_client.rs:87 | a printed i64 timestamp holds no separator characters |
| InfluxClient.TagSeparators | test_environment/extractors_rs/common/src/influx_client.rs:72-75 | with plain names the measurement-and-tags section has exactly one "," per tag |
| InfluxClient.TwoSpaces | test_environment/extractors_rs/common/src/influx_client.rs:77-87 | with plain names the line has exactly two spaces |
| InfluxClient.LineEnds | test_environment/extractors_rs/common/src/influx_client.rs:69-89 | whatever the names, the line starts with the measurement and ends with a space and the timestamp |
| InfluxClient.SectionsSplit | test_environment/extractors_rs/common/src/influx_client.rs:69-89 | with plain names, splitting the line at spaces gives back exactly the three sections |
| InfluxClient.PairRoundTrip | test_environment/extractors_rs/common/src/influx_client.rs:74-81 | a key=value item reads back as its key and value when neither contains "=" |
| InfluxClient.PairsRoundTrip | test_environment/extractors_rs/common/src/influx_client.rs:72-82 | a list of plain items reads back as its pairs, in order |
| InfluxClient.PairsSound | test_environment/extractors_rs/common/src/influx_client.rs:72-82 | what a successful read of items returns are pairs whose items are exactly what was read |
| InfluxClient.FieldSectionNotEmpty | test_environment/extractors_rs/common/src/influx_client.rs:79-83 | at least one field gives a non-empty field section |
| InfluxClient.RoundTrip | test_environment/extractors_rs/common/src/influx_client.rs:63-90 | reading a built line gives back its measurement, tags, fields and timestamp exactly when no key or value contains ",", " " or "=" and the measurement contains neither "," nor " " |
| InfluxClient.PlainRoundTrip | test_environment/extractors_rs/common/src/influx_client.rs:63-90 | with plain names, the built line reads back as the point it was built from |
| InfluxClient.ReadBackIsPlain | test_environment/extractors_rs/common/src/influx_client.rs:63-90 | a line that reads back as its own point must have had plain names |
| InfluxClient.BuiltLineReadsBack | test_environment/extractors_rs/common/src/influx_client.rs:63-90 | the serialiser on plain names produces a line that reads back with every field value as printed |
| Paths.Segments | common/paths.py:26-33 | a path string parses into components that are non-empty, slash-free and not "." |
| Paths.FromString | common/paths.py:26-33 | Path(s) is a well-formed path of such components |
| Paths.Slash | common/paths.py:26-33 | joining keeps a path well formed; an absolute right-hand side replaces the left |
| Paths.SlashComponent | common/paths.py:26-33 | joining a single component appends exactly that component |
| Paths.XdgDir | common/paths.py:22-33 | the three-way rule yields a well-formed path |
| Paths.DataDir | common/paths.py:10-33 | the data directory is a well-formed path |
| Paths.ConfigDir | common/paths.py:36-57 | the configuration directory is a well-formed path |
| Paths.CacheDir | common/paths.py:60-81 | the cache directory is a well-formed path |
| Paths.LogDir | common/paths.py:84-99 | the log directory is a well-formed path |
| Paths.DatabasePath | common/paths.py:127-129 | the database path is a well-formed path |
| Paths.ModelsDir | common/paths.py:132-134 | the models directory is a well-formed path |
| Paths.BackupsDir | common/paths.py:137-139 | the backups directory is a well-formed path |
| Paths.XdgFromEnv | common/paths.py:29-31 | for a non-root user with the variable set and non-empty, the directory is the variable's path plus the application name |
| Paths.XdgFallback | common/paths.py:33 | for a non-root user without the variable, the directory is the home path, the fallback components and the application name |
| Paths.DataDirForRoot | common/paths.py:23-26 | for root the data directory is /var/lib/<app>, whatever the environment says |
| Paths.DataDirForUser | common/paths.py:28-33 | otherwise it is XDG_DATA_HOME/<app> when that is set and non-empty, else ~/.local/share/<app> |
| Paths.ConfigDirRule | common/paths.py:48-57 | /etc/<app> for root, else XDG_CONFIG_HOME/<app> when set and non-empty, else ~/.config/<app> |
| Paths.CacheDirRule | common/paths.py:72-81 | /var/cache/<app> for root, else XDG_CACHE_HOME/<app> when set and non-empty, else ~/.cache/<app> |
| Paths.LogDirRule | common/paths.py:94-99 | /var/log/<app> for root, else the logs directory inside the cache directory |
| Paths.DataSubdirectories | common/paths.py:127-139 | the database, models and backups locations are the databases/<name>, models and backups sub-directories of the data directory |
| Paths.SubdirectoriesUnder | common/paths.py:119-122 | every sub-directory lies below the data directory |
| Paths.RootDatabasePath | common/paths.py:127-129 | for root the default database is /var/lib/seclyzer/databases/seclyzer.db |
| Paths.RelativeXdgAccepted | common/paths.py:29-31 | as written, a relative XDG_DATA_HOME yields a relative data directory |
| Paths.XdgDirChecked | common/paths.py:22-33 | the rule with the variable used only when absolute yields a well-formed path |
| Paths.DataDirChecked | common/paths.py:10-33 | the checked data directory is a well-formed path |
| Paths.CheckedXdgDirAbsolute | common/paths.py:10-81 | for any XDG variable, with an absolute system directory and an absolute home, the checked directory is always absolute and agrees with the rule as written whenever the variable is absolute or unset |
| Paths.ConfigDirChecked | common/paths.py:36-57 | the checked configuration directory is a well-formed path |
| Paths.CacheDirChecked | common/paths.py:60-81 | the checked cache directory is a well-formed path |
| Paths.CheckedDataDirAbsolute | common/paths.py:10-81 | with an absolute home, the checked data, configuration and cache directories are always absolute and each agrees with the rule as written whenever its variable is absolute or unset |
| Retry.Delays | common/retry.py:39-67 | the reference list of sleeps has exactly the requested number of delays |
| Retry.RetryFromShape | common/retry.py:42-67 | from attempt k on: calls are made exactly when k ≤ max_attempts, never past the last attempt, with one geometric sleep between consecutive calls, and None only when no call is made |
| Retry.RetryShape | common/retry.py:39-71 | the wrapper calls at least once exactly when max_attempts ≥ 1, at most max_attempts times, sleeps initial_delay·factor^i between calls, none after the last, and returns None exactly when max_attempts < 1 |
| Retry.DelaysAt | common/retry.py:66-67 | the i-th sleep is initial_delay · backoff_factor^i |
| Retry.SucceedsFrom | common/retry.py:42-46 | when the attempts before k fail with listed exceptions and attempt k returns, that value is returned after the attempts from j to k |
| Retry.SucceedsAtAttempt | common/retry.py:42-46 | the first value returned, after k calls, is the result of the wrapper |
| Retry.ExhaustsFrom | common/retry.py:42-55 | when every remaining attempt fails with a listed exception, the last exception is raised after all of them |
| Retry.AllAttemptsFail | common/retry.py:42-55 | when every attempt fails with a listed exception, the last one is re-raised after exactly max_attempts calls and max_attempts − 1 sleeps |
| Retry.UnlistedPropagates | common/retry.py:43-45 | an exception outside the listed classes propagates from the first attempt without retry or sleep |
| Retry.NoAttempts | common/retry.py:42-71 | with max_attempts < 1 the function is never called and the wrapper returns None |
| Retry.RetryWithBackoff | common/retry.py:38-71 | the wrapper's loop produces exactly the outcome, call count and sleep list of the retry specification |
| Validators.TimestampWindow | common/validators.py:18-26 | a timestamp passes exactly when it lies within one hour (3 600 000 000 µs) of now, in either direction |
| Validators.Failing | common/validators.py:10-16 | the reported set of failing fields is empty exactly when every field check passes |
| Validators.FailingNames | common/validators.py:10-16 | every field whose check fails is reported |
| Validators.RenderedCoerces | common/validators.py:15 | an `int` field given as the decimal rendering of an integer, in string form, is coerced to that integer |
| Validators.KeystrokeValidation | common/validators.py:10-26 | an accepted keystroke satisfies every declared constraint and keeps the input's key, ts and scan code (after integer coercion); a keystroke satisfying the constraints is accepted unchanged from any raw event that carries it, integers given as numbers or numeric strings |
| Validators.KeystrokeStringTimestamp | common/validators.py:15-26 | a keystroke whose ts arrives as a numeric string within the hour is accepted with that ts |
| Validators.KeystrokeInvalidNamesField | common/validators.py:10-26 | a keystroke is rejected exactly when some check fails (integers checked after coercion from numeric strings), and a rejection names at least one field |
| Validators.KeystrokeFarTimestamp | common/validators.py:18-26 | a keystroke timed more than an hour from now is rejected with ts among the failing fields |
| Validators.MouseValidationSound | common/validators.py:29-45 | an accepted mouse event satisfies every declared constraint and keeps the input's event, ts, x, y and scroll delta (after integer coercion); x is absent exactly when the input has no x or a null one |
| Validators.MouseValidationComplete | common/validators.py:29-45 | a mouse event satisfying the constraints is accepted unchanged from its own fields and from any raw event that carries it, integers given as numbers or numeric strings |
| Validators.StripLeft | common/validators.py:61 | the leading-whitespace strip returns a suffix of its input that does not start with whitespace |
| Validators.StripRight | common/validators.py:61 | the trailing-whitespace strip returns a prefix of its input that does not end with whitespace |
| Validators.SanitizeAppName | common/validators.py:54-61 | the replace loop over the dangerous characters followed by strip yields exactly the sanitised name |
| Validators.SanitizeRound | common/validators.py:59-60 | each round of the loop removes one more dangerous character and nothing else |
| Validators.SanitizeRounds | common/validators.py:58-60 | after all rounds exactly the dangerous characters are gone |
| Validators.StripKeepsChars | common/validators.py:61 | stripping introduces no character |
| Validators.SanitizedClean | common/validators.py:54-61 | a sanitised name has no dangerous character, no whitespace at either end, and is no longer than the input |
| Validators.StripIdempotent | common/validators.py:61 | stripping twice is stripping once |
| Validators.SanitizeIdempotent | common/validators.py:54-61 | sanitising twice is sanitising once |
| Validators.AppValidation | common/validators.py:48-69 | an app event is accepted exactly when type, name length and timestamp (an integer or numeric string) pass; the stored name is the sanitised input, at most 500 characters and free of dangerous characters, and the stored ts is the coerced input |
| Validators.EmptyNameAccepted | common/validators.py:51-61 | as written, the name "<>" passes the length check and is stored empty |
| Validators.AppCheckedNonEmpty | common/validators.py:51-61 | with the length bound applied to the stored name, an accepted name has 1 to 500 characters; it accepts exactly what the source accepts with a non-empty name |
| Validators.DispatchByType | common/validators.py:72-96 | each known type is validated by its own schema, with integer coercion, and yields a model of that kind; any other type is an error |
| Common.DequeAppend | processing/extractors/keystroke_extractor.py:39 | appending to a bounded deque keeps at most `maxlen` elements: the newest ones, in order, dropping from the left only when full |
| Common.DequeAppendLast | processing/extractors/keystroke_extractor.py:39 | the element just appended to a bounded deque is always its last element |
| Common.DropOlderKeeps | test_environment/extractors_rs/keystroke_extractor/src/extractor.rs:50-65 | popping stale events from the front never loses an event that a later window filter would keep |
| Common.DropOlderSuffix | test_environment/extractors_rs/keystroke_extractor/src/extractor.rs:56-64 | what remains after popping is a suffix; everything popped is older than the cutoff and the new front is not |
| Common.Increment | processing/models/train_app_usage.py:142 | `d[k] += 1` on a counting dictionary: the key's count goes up by one (or starts at one) and every other key's count is unchanged |
| Common.AppendAt | processing/extractors/keystroke_extractor.py:231 | `d[k].append(v)` on a list-valued dictionary: the key's list gains `v` at its end and every other key's list is unchanged |
| Common.StrLessTotal | processing/inference/inference_engine.py:102 | string order used to sort model files is total and asymmetric: two different names are ordered exactly one way |
| Common.StrLessTrans | processing/inference/inference_engine.py:102 | string order used to sort model files is transitive |
| Common.ParseRendered | common/config.py:118 | `int()` reads a decimal rendering of any integer back to that integer |
| Common.SortBySorted | test_environment/extractors_rs/mouse_extractor/src/features.rs:252-253 | sorting by a key yields a sequence ordered by that key (and `SortBy` keeps the multiset of elements) |
| Common.SortRealsSorted | test_environment/extractors_rs/keystroke_extractor/src/features.rs:141 | the sorted copy of a list of reals is in ascending order |
| Common.Variance | test_environment/extractors_rs/keystroke_extractor/src/features.rs:222-225 | the population variance is never negative |
| Common.MedianWithin | test_environment/extractors_rs/keystroke_extractor/src/features.rs:235-244 | the median of a non-empty list lies between its minimum and its maximum |

## Left out

- I/O is outside the model: Redis subscribe and publish, the time-series store's HTTP client, file reading and writing, logging, `notify-send` and the lock commands. Where an operation's outcome depends on such a call, the outcome is a parameter: a "raises" oracle, or a record of what was written.
- The wall clock, the process environment, the effective user id and the existence of files are parameters, never read.
- The trained scikit-learn models are records of the calls the engine makes on them. Each call may raise.
- Library numerics are abstract (`Common.Numerics`): numpy `std`/`median`/`percentile`, `sqrt`, `atan2`, `exp`, `log10`, `pow`. So is the Rust `f64::sqrt`. Rounding of IEEE doubles is not modelled; sums and ratios are exact reals.
- The entropy metrics of the trainer (`calculate_entropy`, base-2 logarithms) and `build_duration_stats` are not modelled, because they are pure numpy statistics.
- The JSON writer and reader of the model file, and the time-series query of the trainer, are not modelled. Records and the time are given to the trainer.
- Dictionary and hash-map iteration order: Python dictionaries are association lists in insertion order, and polars `group_by` without `maintain_order` gives the groups in no fixed order; the model takes first appearance, which only changes the order of the dwell list, and no statistic computed from it depends on that order. Rust `HashMap` iteration order is unspecified in the source; the model takes the order as given (a list of pairs).
- Integer widths: `u32`, `usize` and `i64` counters and timestamps are unbounded integers, because the source overflows them only after billions of events.
- Common.SortBy: a stable insertion sort by key. Rust `sort_by` with `partial_cmp` on NaN is not modelled, because the sorted values are finite durations.
- KeystrokeExtractorPy: the polars `sort("timestamp")` calls do not promise an order for equal timestamps; the model uses the stable `Common.SortBy`, which is one of the orders the library may produce (for a press and a release with the same timestamp, the other order is not modelled).
- Validators.AsInt: the lax integer coercion accepts an integer or a string that is an optional sign and decimal digits with whitespace at its ends. Other lax forms the schema library accepts for an `int` field (an integral float, a boolean, digit groups separated by underscores) are not modelled: the raw values here are integers, strings and null only.
- Common.ParseInt: accepts an optional sign and decimal digits. Python's `int()` also strips surrounding whitespace and accepts underscores between digits; those inputs are not modelled.
- Config.ConfigManager.Load: receives the parsed YAML document. Finding the file and parsing YAML are not modelled, nor is the process-wide singleton.
- DecisionEngine.Engine.ProcessScore: the score as text (`f"{score:.1f}"`) is a parameter. The audit record keeps the event type, score, state and a details string, not the full JSON.
- DecisionEngine.Engine.ForceState: the audit write is an oracle that may raise; the file path and the fallback logging are not modelled.
- DeveloperMode: a section that is enabled but lacks its key (`magic_file.path`, `env_var.name`, `key_sequence.sequence`) makes the source raise `KeyError`; the configuration record cannot express that case, so it is not modelled. `check_password` (a SHA-256 comparison) and the warning pop-up are not modelled. The same holds for the search for the configuration file in `init_developer_mode` and the audit file's location and permissions.
- Paths: a path from the environment is split on `/`, dropping empty and `.` components as `pathlib` does. The special leading `//` of POSIX paths is not modelled. `ensure_directories` creates directories and is not modelled.
- InfluxClient: `InfluxClient::new` and `write_line_protocol` (HTTP) are not modelled. Rust's `Display` for `f64` is the parameter `show`.
- KeystrokeFeaturesRs: the median of an empty list would panic on an index out of range; the calculator never calls it with an empty list, so the model requires a non-empty one.
- MouseFeaturesRs: serde's rendering of non-finite values as JSON `null` is modelled as `Null`. The textual JSON is not modelled.
- LockingEngine: callbacks run in registration order, and an exception from one is caught and logged. Only the order of effects is modelled.
- Retry.RetryWithBackoff: the sleeps are recorded, not performed. A negative delay, which `time.sleep` rejects, is not modelled. Log messages are not modelled.
- The live `processing/extractors/app_tracker.py` is not part of this model. The Python tracker modelled is `processing/extractors.backup/app_tracker.py`.
- Concurrency (asyncio tasks, Tokio runtimes, background threads) is not modelled; each operation runs to completion.

## Findings

| source | as written | input that shows it | evidently intended | confidence | as-written member | corrected member |
|---|---|---|---|---|---|---|
| processing/decision/decision_engine.py:166-173 | states are compared by their string values, so `normal` ranks below `restricted` and a recovery from RESTRICTED counts as a degradation that the reset low-score counter never confirms | current state RESTRICTED, default thresholds, score 90 | compare by trust level: a target of higher trust applies at once and one of lower trust only after confirmation | not executed | DecisionEngine.RestrictedIgnoresRecovery | DecisionEngine.TrustStepHysteresis |
| common/developer_mode.py:62-68 | the expiry branch checks the method `"key_sequence"`, but line 107 stores `"Key sequence detected"`, so a key-sequence activation never expires after its duration | key sequence matched at time t, no auto-disable, `is_active` called later than t plus the duration | the activation is tagged `"key_sequence"` and ends once its duration has passed | not executed | DeveloperMode.KeySequenceNeverExpires | DeveloperMode.TaggedSequenceExpires |
| common/validators.py:51-61 | `min_length=1` is checked before the sanitiser removes characters, so a name made only of removed characters is accepted as the empty name | `app_name = "<>"` with a valid timestamp | the stored name is non-empty | not executed | Validators.EmptyNameAccepted | Validators.AppCheckedNonEmpty |
| common/paths.py:29-31 | any non-empty `XDG_DATA_HOME` is used, including a relative path, so the data directory can be relative; `XDG_CONFIG_HOME` and `XDG_CACHE_HOME` are used the same way at lines 53-55 and 77-79 | non-root user, `XDG_DATA_HOME=data` | a relative value is ignored, as the XDG Base Directory Specification requires, and the directory is always absolute | not executed | Paths.RelativeXdgAccepted | Paths.CheckedDataDirAbsolute |
