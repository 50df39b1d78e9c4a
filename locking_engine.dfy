/** The locking engine: turns state changes announced by the decision engine
    into screen locks and desktop notifications, unless it is disabled or
    developer mode is active.

    Running an external command (`which`, the lock command, `notify-send`)
    is an oracle `raises`: whether `subprocess.run` on that argument list
    raises. The exit status of the command is never consulted, except by
    `which` during lock-command detection. */
module LockingEngine {
  import opened Common

  const LockCandidates: seq<seq<string>> := [
    ["loginctl", "lock-session"],
    ["gnome-screensaver-command", "-l"],
    ["xdg-screensaver", "lock"],
    ["dm-tool", "lock"],
    ["xscreensaver-command", "-lock"]
  ]

  const FallbackLockCommand: seq<string> := ["loginctl", "lock-session"]

  /** `_detect_lock_command`: the first candidate for which `which` exits
      with status 0; a `which` that raises skips its candidate. `which`
      maps a program name to its exit status, `None` when running it raises. */
  method DetectLockCommand(which: string -> Option<int>) returns (cmd: seq<string>)
    ensures cmd in LockCandidates
    ensures forall i :: 0 <= i < |LockCandidates| && LockCandidates[i] == cmd && which(cmd[0]) == Some(0)
              ==> forall j :: 0 <= j < i ==> which(LockCandidates[j][0]) != Some(0)
    ensures (exists i :: 0 <= i < |LockCandidates| && which(LockCandidates[i][0]) == Some(0))
            ==> which(cmd[0]) == Some(0)
    ensures (forall i :: 0 <= i < |LockCandidates| ==> which(LockCandidates[i][0]) != Some(0))
            ==> cmd == FallbackLockCommand
  {
    var i := 0;
    while i < |LockCandidates|
      invariant 0 <= i <= |LockCandidates|
      invariant forall j :: 0 <= j < i ==> which(LockCandidates[j][0]) != Some(0)
    {
      var candidate := LockCandidates[i];
      if which(candidate[0]) == Some(0) {
        assert forall k :: 0 <= k < |LockCandidates| && k != i ==> LockCandidates[k] != candidate;
        return candidate;
      }
      i := i + 1;
    }
    return FallbackLockCommand;
  }

  /** Configuration fixed at construction. */
  datatype Settings = Settings(
    enableLock: bool,
    enableNotifications: bool,
    lockOnRestricted: bool,
    lockOnLockdown: bool)

  const DefaultSettings := Settings(true, true, false, true)

  /** An abstract action the dispatcher asks for. */
  datatype Action =
    | Lock
    | Notify(title: string, message: string, urgency: string, icon: Option<string>)

  /** `handle_state_change` with the `_handle_*` branches: the actions asked
      for on a change from `oldState` to `newState`. `scoreText` is the
      score rendered without decimals. */
  function Dispatch(s: Settings, enabled: bool, devModeActive: bool, oldState: string, newState: string,
                    scoreText: string): seq<Action>
  {
    if !enabled || devModeActive then []
    else if newState == "lockdown" then
      (if s.lockOnLockdown then [Lock] else [])
      + [Notify("SecLyzer Security Alert",
                "Unusual behavior detected (confidence: " + scoreText + "%). Screen locked for security.",
                "critical", None)]
    else if newState == "restricted" then
      (if s.lockOnRestricted then [Lock] else [])
      + [Notify("SecLyzer Warning",
                "Unusual behavior detected (confidence: " + scoreText + "%). Some features may be restricted.",
                "normal", None)]
    else if newState == "monitoring" then
      [Notify("SecLyzer Notice",
              "Behavior confidence dropped to " + scoreText + "%. Monitoring active.",
              "low", None)]
    else if newState == "normal" && oldState != "normal" then
      [Notify("SecLyzer",
              "Normal behavior confirmed (confidence: " + scoreText + "%). Full access restored.",
              "low", Some("dialog-information"))]
    else []
  }

  function Notifications(actions: seq<Action>): (r: seq<Action>)
    ensures forall i :: 0 <= i < |r| ==> r[i].Notify?
  {
    Filter(actions, (a: Action) => a.Notify?)
  }

  /** Disabled, or in developer mode, the dispatcher asks for nothing. */
  lemma DispatchSilenced(s: Settings, enabled: bool, devModeActive: bool, oldState: string, newState: string,
                         scoreText: string)
    requires !enabled || devModeActive
    ensures Dispatch(s, enabled, devModeActive, oldState, newState, scoreText) == []
  {
  }

  /** LOCKDOWN: a lock iff `lock_on_lockdown`, first, then exactly one
      critical notification. RESTRICTED: the same with `lock_on_restricted`
      and normal urgency. */
  lemma DispatchLowStates(s: Settings, oldState: string, newState: string, scoreText: string)
    requires newState == "lockdown" || newState == "restricted"
    ensures var acts := Dispatch(s, true, false, oldState, newState, scoreText);
            && (Lock in acts <==> (if newState == "lockdown" then s.lockOnLockdown else s.lockOnRestricted))
            && (Lock in acts ==> acts[0] == Lock)
            && |Notifications(acts)| == 1
            && Notifications(acts)[0].urgency == (if newState == "lockdown" then "critical" else "normal")
            && acts[|acts| - 1] == Notifications(acts)[0]
  {
    var acts := Dispatch(s, true, false, oldState, newState, scoreText);
    assert acts[|acts| - 1].Notify?;
    if |acts| == 2 {
      assert acts == [Lock, acts[1]];
      assert Notifications(acts) == Notifications([acts[1]]);
    }
  }

  /** MONITORING: exactly one low-urgency notification and no lock.
      NORMAL: one low-urgency notification iff the old state was not NORMAL.
      Any other new state: nothing. */
  lemma DispatchOtherStates(s: Settings, oldState: string, newState: string, scoreText: string)
    requires newState != "lockdown" && newState != "restricted"
    ensures var acts := Dispatch(s, true, false, oldState, newState, scoreText);
            && Lock !in acts
            && (newState == "monitoring" ==> |acts| == 1 && acts[0].Notify? && acts[0].urgency == "low")
            && (newState == "normal" ==> (|acts| == 1 <==> oldState != "normal"))
            && (newState == "normal" && oldState != "normal" ==> acts[0].Notify? && acts[0].urgency == "low")
            && (newState != "monitoring" && newState != "normal" ==> acts == [])
  {
  }

  /** `notify-send`'s icon when none is given. */
  function DefaultIcon(urgency: string): (icon: string)
    ensures icon == "dialog-warning" <==> urgency == "critical"
  {
    if urgency == "critical" then "dialog-warning" else "dialog-information"
  }

  function NotifyCommand(title: string, message: string, urgency: string, icon: string): seq<string>
  {
    ["notify-send", title, message, "--urgency=" + urgency, "--icon=" + icon]
  }

  /** An externally visible effect. */
  datatype Effect =
    | Run(argv: seq<string>)
    | Callback(id: nat, action: string, success: bool)

  /** `_notify_callbacks` for every registered callback, in order. */
  function CallbackEffects(callbacks: seq<nat>, action: string, success: bool): (r: seq<Effect>)
    ensures |r| == |callbacks|
  {
    if callbacks == [] then []
    else CallbackEffects(callbacks[..|callbacks| - 1], action, success)
         + [Callback(callbacks[|callbacks| - 1], action, success)]
  }

  /** Every registered callback hears the same action and outcome, in
      registration order. */
  lemma {:induction false} CallbackEffectsInOrder(callbacks: seq<nat>, action: string, success: bool)
    ensures forall i :: 0 <= i < |callbacks|
              ==> CallbackEffects(callbacks, action, success)[i] == Callback(callbacks[i], action, success)
  {
    if callbacks != [] {
      var init := callbacks[..|callbacks| - 1];
      CallbackEffectsInOrder(init, action, success);
      assert forall i :: 0 <= i < |init| ==> init[i] == callbacks[i];
    }
  }

  class Engine {
    const settings: Settings
    const lockCommand: seq<string>
    var enabled: bool
    var callbacks: seq<nat>
    /** Commands run and callbacks notified, oldest first. */
    var effects: seq<Effect>

    constructor (s: Settings, which: string -> Option<int>)
      ensures settings == s && enabled && callbacks == [] && effects == []
      ensures lockCommand in LockCandidates
      ensures forall i :: 0 <= i < |LockCandidates| && LockCandidates[i] == lockCommand && which(lockCommand[0]) == Some(0)
                ==> forall j :: 0 <= j < i ==> which(LockCandidates[j][0]) != Some(0)
      ensures (exists i :: 0 <= i < |LockCandidates| && which(LockCandidates[i][0]) == Some(0))
              ==> which(lockCommand[0]) == Some(0)
      ensures (forall i :: 0 <= i < |LockCandidates| ==> which(LockCandidates[i][0]) != Some(0))
              ==> lockCommand == FallbackLockCommand
    {
      settings := s;
      var cmd := DetectLockCommand(which);
      lockCommand := cmd;
      enabled := true;
      callbacks := [];
      effects := [];
    }

    method AddActionCallback(id: nat)
      modifies this`callbacks
      ensures callbacks == old(callbacks) + [id]
    {
      callbacks := callbacks + [id];
    }

    method Enable()
      modifies this`enabled
      ensures enabled
    {
      enabled := true;
    }

    method Disable()
      modifies this`enabled
      ensures !enabled
    {
      enabled := false;
    }

    method IsEnabled() returns (r: bool)
      ensures r == enabled
    {
      r := enabled;
    }

    /** `_notify_callbacks`: every callback in turn; one that raises does
        not stop the others. */
    method NotifyCallbacks(action: string, success: bool)
      modifies this`effects
      ensures effects == old(effects) + CallbackEffects(callbacks, action, success)
    {
      var i := 0;
      while i < |callbacks|
        invariant 0 <= i <= |callbacks|
        invariant effects == old(effects) + CallbackEffects(callbacks[..i], action, success)
      {
        assert callbacks[..i + 1][..i] == callbacks[..i];
        effects := effects + [Callback(callbacks[i], action, success)];
        i := i + 1;
      }
      assert callbacks[..i] == callbacks;
    }

    /** The effects of `lock_screen`. */
    function LockEffects(on: bool, callbacks: seq<nat>, devModeActive: bool, raises: seq<string> -> bool): seq<Effect>
    {
      if !settings.enableLock || !on || devModeActive then []
      else [Run(lockCommand)] + CallbackEffects(callbacks, "lock", !raises(lockCommand))
    }

    /** `lock_screen`: skipped (False, nothing run) when locking or the
        engine is disabled or developer mode is active; otherwise True
        exactly when running the lock command raises nothing, and callbacks
        hear ("lock", success) either way. */
    method LockScreen(devModeActive: bool, raises: seq<string> -> bool) returns (ok: bool)
      modifies this`effects
      ensures ok <==> settings.enableLock && enabled && !devModeActive && !raises(lockCommand)
      ensures effects == old(effects) + LockEffects(enabled, callbacks, devModeActive, raises)
    {
      if !settings.enableLock || !enabled {
        return false;
      }
      if devModeActive {
        return false;
      }
      ghost var before := effects;
      effects := effects + [Run(lockCommand)];
      ok := !raises(lockCommand);
      NotifyCallbacks("lock", ok);
      assert LockEffects(enabled, callbacks, devModeActive, raises)
          == [Run(lockCommand)] + CallbackEffects(callbacks, "lock", ok);
      AppendTwice(before, [Run(lockCommand)], CallbackEffects(callbacks, "lock", ok));
    }

    /** The effects of `send_notification`. */
    function NotifyEffects(on: bool, title: string, message: string, urgency: string, icon: Option<string>): seq<Effect>
    {
      if !settings.enableNotifications || !on then []
      else [Run(NotifyCommand(title, message, urgency, if icon.None? then DefaultIcon(urgency) else icon.value))]
    }

    /** `send_notification`: False without running anything when
        notifications or the engine are disabled; otherwise True unless
        running `notify-send` raises. */
    method SendNotification(title: string, message: string, urgency: string, icon: Option<string>,
                            raises: seq<string> -> bool)
      returns (ok: bool)
      modifies this`effects
      ensures effects == old(effects) + NotifyEffects(enabled, title, message, urgency, icon)
      ensures ok <==> settings.enableNotifications && enabled
                      && !raises(NotifyCommand(title, message, urgency,
                                               if icon.None? then DefaultIcon(urgency) else icon.value))
    {
      if !settings.enableNotifications || !enabled {
        return false;
      }
      var iconName := if icon.None? then DefaultIcon(urgency) else icon.value;
      var argv := NotifyCommand(title, message, urgency, iconName);
      effects := effects + [Run(argv)];
      ok := !raises(argv);
    }

    /** The effects of carrying out a list of dispatched actions. */
    function ActionEffects(on: bool, callbacks: seq<nat>, actions: seq<Action>, devModeActive: bool,
                           raises: seq<string> -> bool): seq<Effect>
      decreases |actions|
    {
      if actions == [] then []
      else ActionEffects(on, callbacks, actions[..|actions| - 1], devModeActive, raises)
           + ActionEffect(on, callbacks, actions[|actions| - 1], devModeActive, raises)
    }

    function ActionEffect(on: bool, callbacks: seq<nat>, a: Action, devModeActive: bool,
                          raises: seq<string> -> bool): seq<Effect>
    {
      match a
      case Lock => LockEffects(on, callbacks, devModeActive, raises)
      case Notify(t, m, u, i) => NotifyEffects(on, t, m, u, i)
    }

    /** Carries out dispatched actions in order through `lock_screen` and
        `send_notification`. */
    method PerformActions(actions: seq<Action>, devModeActive: bool, raises: seq<string> -> bool)
      modifies this`effects
      ensures effects == old(effects) + ActionEffects(enabled, callbacks, actions, devModeActive, raises)
    {
      ghost var start := effects;
      var i := 0;
      while i < |actions|
        invariant 0 <= i <= |actions|
        invariant effects == start + ActionEffects(enabled, callbacks, actions[..i], devModeActive, raises)
      {
        PerformNext(actions, i, devModeActive, raises, start);
        i := i + 1;
      }
      assert actions[..i] == actions;
    }

    /** One turn of the loop above: the effects of the first `i + 1` actions
        follow those of the first `i`. */
    method PerformNext(actions: seq<Action>, i: nat, devModeActive: bool, raises: seq<string> -> bool,
                       ghost start: seq<Effect>)
      requires i < |actions| && effects == start + ActionEffects(enabled, callbacks, actions[..i], devModeActive, raises)
      modifies this`effects
      ensures effects == start + ActionEffects(enabled, callbacks, actions[..i + 1], devModeActive, raises)
    {
      PerformAction(actions[i], devModeActive, raises);
      assert actions[..i + 1][..i] == actions[..i];
    }

    /** One dispatched action. */
    method PerformAction(a: Action, devModeActive: bool, raises: seq<string> -> bool)
      modifies this`effects
      ensures effects == old(effects) + ActionEffect(enabled, callbacks, a, devModeActive, raises)
    {
      if a.Lock? {
        var _ := LockScreen(devModeActive, raises);
      } else {
        var _ := SendNotification(a.title, a.message, a.urgency, a.icon, raises);
      }
    }

    /** `handle_state_change`: carries out what the dispatcher asks for. */
    method HandleStateChange(oldState: string, newState: string, scoreText: string, devModeActive: bool,
                             raises: seq<string> -> bool)
      modifies this`effects
      ensures effects == old(effects)
                + ActionEffects(enabled, callbacks, Dispatch(settings, enabled, devModeActive, oldState, newState, scoreText),
                                devModeActive, raises)
    {
      if !enabled || devModeActive {
        return;
      }
      var actions := Dispatch(settings, enabled, devModeActive, oldState, newState, scoreText);
      PerformActions(actions, devModeActive, raises);
    }

    /** A disabled engine, or one in developer mode, runs nothing on a state
        change, whatever the change. */
    lemma HandleStateChangeSilenced(oldState: string, newState: string, scoreText: string, devModeActive: bool,
                                    raises: seq<string> -> bool)
      requires !enabled || devModeActive
      ensures ActionEffects(enabled, callbacks, Dispatch(settings, enabled, devModeActive, oldState, newState, scoreText),
                            devModeActive, raises) == []
    {
    }

    /** With locking and notifications on, a change to LOCKDOWN runs the
        lock command, tells the callbacks how it went, then runs one
        critical notification with the warning icon. */
    lemma LockdownRunsLockThenAlert(oldState: string, scoreText: string, raises: seq<string> -> bool)
      requires enabled && settings.enableLock && settings.enableNotifications && settings.lockOnLockdown
      ensures ActionEffects(enabled, callbacks, Dispatch(settings, enabled, false, oldState, "lockdown", scoreText), false, raises)
              == [Run(lockCommand)] + CallbackEffects(callbacks, "lock", !raises(lockCommand))
                 + [Run(NotifyCommand("SecLyzer Security Alert",
                                      "Unusual behavior detected (confidence: " + scoreText
                                      + "%). Screen locked for security.",
                                      "critical", "dialog-warning"))]
    {
      var acts := Dispatch(settings, enabled, false, oldState, "lockdown", scoreText);
      assert acts == [Lock, acts[1]];
      assert acts[1..] == [acts[1]];
      assert acts[1..][1..] == [];
      assert acts[..1] == [Lock] && [Lock][..0] == [];
      assert ActionEffects(enabled, callbacks, acts, false, raises)
             == ActionEffects(enabled, callbacks, [Lock], false, raises) + ActionEffect(enabled, callbacks, acts[1], false, raises);
      assert ActionEffects(enabled, callbacks, [Lock], false, raises) == LockEffects(enabled, callbacks, false, raises);
    }
  }
}
