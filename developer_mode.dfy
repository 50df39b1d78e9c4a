/** Developer mode: an authentication bypass switched on by a magic file, an
    environment variable or a key sequence, and switched off again by an
    optional timeout.

    The host is a parameter: the wall clock (`now`, in seconds), the files
    that exist and the process environment. The three fields `active`,
    `activation_time` and `activation_method` always change together; the
    audit log is kept as the list of entries written to it. */
module DeveloperMode {
  import opened Common

  /** The YAML configuration with the source's defaults filled in. A switch
      that is disabled has no path, name or sequence. */
  datatype DevConfig = DevConfig(
    enabled: bool,
    /** `security.auto_disable_hours`, 0 when absent. */
    autoDisableHours: real,
    /** `magic_file.path` when `magic_file.enabled`. */
    magicFile: Option<string>,
    /** `env_var.name` when `env_var.enabled`. */
    envVar: Option<string>,
    /** `key_sequence.sequence` when `key_sequence.enabled`. */
    keySequence: Option<seq<string>>,
    /** `key_sequence.duration_minutes`, 5 when absent. */
    durationMinutes: real,
    /** `security.audit_log`, true when absent. */
    auditLog: bool)

  /** The configuration used when no configuration file exists. */
  const Missing := DevConfig(false, 0.0, None, None, None, 5.0, true)

  datatype Host = Host(now: real, files: set<string>, vars: map<string, string>)

  datatype AuditEntry = AuditEntry(eventType: string, details: string)

  datatype DevState = DevState(
    active: bool,
    activationTime: Option<real>,
    activationMethod: Option<string>,
    log: seq<AuditEntry>)

  /** A result of a query together with the state it leaves behind. */
  datatype Checked = Checked(result: bool, state: DevState)

  const Inactive := DevState(false, None, None, [])

  /** Activation sets the time and method; deactivation clears both. */
  predicate Coherent(st: DevState)
  {
    st.active <==> (st.activationTime.Some? && st.activationMethod.Some?)
  }

  function Hours(h: real): real { h * 3600.0 }

  function Minutes(m: real): real { m * 60.0 }

  predicate MagicFileFound(cfg: DevConfig, host: Host)
  {
    cfg.magicFile.Some? && cfg.magicFile.value in host.files
  }

  predicate EnvVarSet(cfg: DevConfig, host: Host)
  {
    cfg.envVar.Some? && cfg.envVar.value in host.vars && host.vars[cfg.envVar.value] == "1"
  }

  /** `_activate`: the audit entry is written only when auditing is on. */
  function Activate(cfg: DevConfig, st: DevState, how: string, now: real): DevState
  {
    DevState(true, Some(now), Some(how),
             if cfg.auditLog then st.log + [AuditEntry("ACTIVATED", how)] else st.log)
  }

  /** `_deactivate`: logs only when it was active, whatever the audit switch. */
  function Deactivate(st: DevState, reason: string): DevState
  {
    DevState(false, None, None,
             if st.active then st.log + [AuditEntry("DEACTIVATED", reason)] else st.log)
  }

  predicate AutoDisableDue(cfg: DevConfig, st: DevState, now: real)
  {
    st.active && st.activationTime.Some? && cfg.autoDisableHours > 0.0
    && now > st.activationTime.value + Hours(cfg.autoDisableHours)
  }

  /** `is_active`, as written. */
  function IsActive(cfg: DevConfig, st: DevState, host: Host): Checked
    requires Coherent(st)
  {
    if !cfg.enabled then Checked(false, st)
    else if AutoDisableDue(cfg, st, host.now) then
      Checked(false, Deactivate(st, "Auto-disabled after timeout"))
    else if MagicFileFound(cfg, host) then
      Checked(true, if st.active then st else Activate(cfg, st, "Magic file detected", host.now))
    else if EnvVarSet(cfg, host) then
      Checked(true, if st.active then st else Activate(cfg, st, "Environment variable set", host.now))
    else if st.active && st.activationMethod == Some("key_sequence") then
      if host.now > st.activationTime.value + Minutes(cfg.durationMinutes)
      then Checked(false, Deactivate(st, "Key sequence timeout expired"))
      else Checked(true, st)
    else Checked(st.active, st)
  }

  /** Python's `s[-n:]`: the last `n` items, except that `s[-0:]` is all of `s`. */
  function PySuffix<T>(s: seq<T>, n: nat): seq<T>
    requires n <= |s|
  {
    if n == 0 then s else s[|s| - n..]
  }

  /** `check_key_sequence`, storing `how` as the activation method; the
      source stores "Key sequence detected". */
  function CheckKeySequenceAs(cfg: DevConfig, st: DevState, recentKeys: seq<string>, now: real, how: string): Checked
  {
    if cfg.keySequence.None? then Checked(false, st)
    else
      var expected := cfg.keySequence.value;
      if |recentKeys| >= |expected| && PySuffix(recentKeys, |expected|) == expected
      then Checked(true, Activate(cfg, st, how, now))
      else Checked(false, st)
  }

  function CheckKeySequence(cfg: DevConfig, st: DevState, recentKeys: seq<string>, now: real): Checked
  {
    CheckKeySequenceAs(cfg, st, recentKeys, now, "Key sequence detected")
  }

  /** `get_bypass_score`: full trust, the top of the 0..100 confidence scale. */
  function BypassScore(): (r: real)
    ensures r == 100.0
  {
    100.0
  }

  /** `get_metadata_tag` from the outcome of `is_active`; the activation time
      stands for its ISO rendering. */
  function MetadataTag(c: Checked): map<string, Value>
  {
    if c.result then
      map["dev_mode" := Flag(true),
          "dev_mode_method" := (if c.state.activationMethod.Some? then Text(c.state.activationMethod.value) else Null),
          "dev_mode_activated_at" := (if c.state.activationTime.Some? then Num(c.state.activationTime.value) else Null)]
    else map["dev_mode" := Flag(false)]
  }

  // -----------------------------------------------------------------------
  // Properties of is_active

  /** With developer mode disabled in the configuration nothing is active and
      nothing changes. */
  lemma DisabledIsInactive(cfg: DevConfig, st: DevState, host: Host)
    requires Coherent(st) && !cfg.enabled
    ensures IsActive(cfg, st, host) == Checked(false, st)
  {
  }

  /** A missing configuration file disables developer mode. */
  lemma MissingConfigIsInactive(st: DevState, host: Host)
    requires Coherent(st)
    ensures !IsActive(Missing, st, host).result
  {
    DisabledIsInactive(Missing, st, host);
  }

  /** When enabled and no timeout is due, a magic file or an environment
      variable set to exactly "1" makes the mode active; it activates (with a
      fresh time) only when it was not active yet. */
  lemma TriggerActivates(cfg: DevConfig, st: DevState, host: Host)
    requires Coherent(st) && cfg.enabled && !AutoDisableDue(cfg, st, host.now)
    requires MagicFileFound(cfg, host) || EnvVarSet(cfg, host)
    ensures IsActive(cfg, st, host).result
    ensures IsActive(cfg, st, host).state.active
    ensures st.active ==> IsActive(cfg, st, host).state == st
    ensures !st.active ==> IsActive(cfg, st, host).state.activationTime == Some(host.now)
  {
  }

  /** An environment variable set to anything but "1" is no trigger. */
  lemma EnvVarMustBeOne(cfg: DevConfig, host: Host)
    requires cfg.envVar.Some? && cfg.envVar.value in host.vars
    ensures EnvVarSet(cfg, host) <==> host.vars[cfg.envVar.value] == "1"
  {
  }

  /** Once due, the auto-disable timeout deactivates, whatever triggers remain. */
  lemma AutoDisableDeactivates(cfg: DevConfig, st: DevState, host: Host)
    requires Coherent(st) && cfg.enabled && AutoDisableDue(cfg, st, host.now)
    ensures IsActive(cfg, st, host) == Checked(false, Deactivate(st, "Auto-disabled after timeout"))
    ensures !IsActive(cfg, st, host).state.active
    ensures IsActive(cfg, st, host).state.log == st.log + [AuditEntry("DEACTIVATED", "Auto-disabled after timeout")]
  {
  }

  /** Activation is sticky: after the trigger disappears the mode stays active
      until an auto-disable timeout is due (key-sequence activations aside). */
  lemma ActiveIsSticky(cfg: DevConfig, st: DevState, host: Host)
    requires Coherent(st) && cfg.enabled && st.active && !AutoDisableDue(cfg, st, host.now)
    requires st.activationMethod != Some("key_sequence")
    ensures IsActive(cfg, st, host) == Checked(true, st)
  {
  }

  /** When enabled, the answer is whether the new state is active; when
      disabled the state may be active (a key sequence does not look at the
      master switch) while the answer is false. */
  lemma AnswerIsNewState(cfg: DevConfig, st: DevState, host: Host)
    requires Coherent(st) && cfg.enabled
    ensures IsActive(cfg, st, host).result == IsActive(cfg, st, host).state.active
  {
  }

  lemma DisabledButActivated(st: DevState, now: real)
    requires Coherent(st)
    ensures var cfg := Missing.(keySequence := Some(["F12"]));
            var after := CheckKeySequence(cfg, st, ["F12"], now);
            after.result && after.state.active && !IsActive(cfg, after.state, Host(now, {}, map[])).result
  {
  }

  /** Every operation keeps the activation fields together. */
  lemma CoherentPreserved(cfg: DevConfig, st: DevState, host: Host, keys: seq<string>, how: string)
    requires Coherent(st)
    ensures Coherent(IsActive(cfg, st, host).state)
    ensures Coherent(CheckKeySequenceAs(cfg, st, keys, host.now, how).state)
    ensures Coherent(Deactivate(st, how))
  {
  }

  // -----------------------------------------------------------------------
  // Properties of check_key_sequence

  /** A sequence matches exactly when it is enabled and the recent keys end
      with it; the empty sequence, through `s[-0:]`, matches only an empty
      key list. A match activates, even when already active. */
  lemma KeySequenceMatch(cfg: DevConfig, st: DevState, keys: seq<string>, now: real, how: string)
    ensures var c := CheckKeySequenceAs(cfg, st, keys, now, how);
            c.result <==> cfg.keySequence.Some?
                          && |keys| >= |cfg.keySequence.value|
                          && (if cfg.keySequence.value == [] then keys == []
                              else keys[|keys| - |cfg.keySequence.value|..] == cfg.keySequence.value)
    ensures var c := CheckKeySequenceAs(cfg, st, keys, now, how);
            c.result ==> c.state.active && c.state.activationMethod == Some(how) && c.state.activationTime == Some(now)
    ensures var c := CheckKeySequenceAs(cfg, st, keys, now, how);
            !c.result ==> c.state == st
  {
  }

  /** The methods the source ever stores. */
  predicate StoredMethod(st: DevState)
  {
    st.activationMethod.Some? ==>
      st.activationMethod.value in {"Magic file detected", "Environment variable set", "Key sequence detected"}
  }

  lemma StoredMethodPreserved(cfg: DevConfig, st: DevState, host: Host, keys: seq<string>)
    requires Coherent(st) && StoredMethod(st)
    ensures StoredMethod(IsActive(cfg, st, host).state)
    ensures StoredMethod(CheckKeySequence(cfg, st, keys, host.now).state)
  {
  }

  /** As written, the key-sequence expiry never fires: a reachable state never
      carries the method "key_sequence", so an activation by key sequence lasts
      until the auto-disable timeout, however many minutes pass. */
  lemma {:induction false} KeySequenceNeverExpires(cfg: DevConfig, st: DevState, keys: seq<string>, now: real, later: Host)
    requires Coherent(st) && cfg.enabled && cfg.autoDisableHours <= 0.0
    requires CheckKeySequence(cfg, st, keys, now).result
    requires later.now > now + Minutes(cfg.durationMinutes)
    ensures var after := CheckKeySequence(cfg, st, keys, now).state;
            IsActive(cfg, after, later) == Checked(true, after)
  {
    var after := CheckKeySequence(cfg, st, keys, now).state;
    assert after.activationMethod == Some("Key sequence detected");
  }

  /** The intended behaviour: the key-sequence activation is tagged with the
      method name that `is_active` checks, and then it expires once its
      duration has passed. */
  function CheckKeySequenceTagged(cfg: DevConfig, st: DevState, recentKeys: seq<string>, now: real): Checked
  {
    CheckKeySequenceAs(cfg, st, recentKeys, now, "key_sequence")
  }

  lemma {:induction false} TaggedSequenceExpires(cfg: DevConfig, st: DevState, keys: seq<string>, now: real, later: Host)
    requires Coherent(st) && cfg.enabled && cfg.autoDisableHours <= 0.0
    requires CheckKeySequenceTagged(cfg, st, keys, now).result
    requires !MagicFileFound(cfg, later) && !EnvVarSet(cfg, later)
    ensures var after := CheckKeySequenceTagged(cfg, st, keys, now).state;
            IsActive(cfg, after, later).result <==> later.now <= now + Minutes(cfg.durationMinutes)
    ensures var after := CheckKeySequenceTagged(cfg, st, keys, now).state;
            !IsActive(cfg, after, later).state.active <==> later.now > now + Minutes(cfg.durationMinutes)
  {
    var after := CheckKeySequenceTagged(cfg, st, keys, now).state;
    assert after.activationMethod == Some("key_sequence") && after.activationTime == Some(now);
  }

  // -----------------------------------------------------------------------
  // Tags and training

  /** The `dev_mode` tag is the answer of `is_active`, and an active tag
      names its method. */
  lemma MetadataTagMatches(c: Checked)
    ensures "dev_mode" in MetadataTag(c) && MetadataTag(c)["dev_mode"] == Flag(c.result)
    ensures c.result <==> "dev_mode_method" in MetadataTag(c)
    ensures !c.result ==> MetadataTag(c).Keys == {"dev_mode"}
  {
  }

  // -----------------------------------------------------------------------
  // The handler object

  class DeveloperModeHandler {
    const config: DevConfig
    var active: bool
    var activationTime: Option<real>
    var activationMethod: Option<string>
    /** Entries appended to the audit file. */
    var auditLog: seq<AuditEntry>

    function State(): DevState
      reads this
    {
      DevState(active, activationTime, activationMethod, auditLog)
    }

    constructor(config: DevConfig)
      ensures this.config == config && State() == Inactive
    {
      this.config := config;
      active, activationTime, activationMethod, auditLog := false, None, None, [];
    }

    /** `_activate`. */
    method ActivateNow(how: string, now: real)
      modifies this
      ensures State() == Activate(config, old(State()), how, now)
    {
      active := true;
      activationTime := Some(now);
      activationMethod := Some(how);
      if config.auditLog {
        auditLog := auditLog + [AuditEntry("ACTIVATED", how)];
      }
    }

    /** `_deactivate`. */
    method DeactivateNow(reason: string)
      modifies this
      ensures State() == Deactivate(old(State()), reason)
    {
      if active {
        auditLog := auditLog + [AuditEntry("DEACTIVATED", reason)];
      }
      active := false;
      activationTime := None;
      activationMethod := None;
    }

    /** `is_active`. */
    method IsActiveNow(host: Host) returns (r: bool)
      requires Coherent(State())
      modifies this
      ensures Checked(r, State()) == IsActive(config, old(State()), host)
      ensures Coherent(State())
    {
      if !config.enabled {
        return false;
      }
      if AutoDisableDue(config, State(), host.now) {
        DeactivateNow("Auto-disabled after timeout");
        return false;
      }
      if MagicFileFound(config, host) {
        if !active {
          ActivateNow("Magic file detected", host.now);
        }
        return true;
      }
      if EnvVarSet(config, host) {
        if !active {
          ActivateNow("Environment variable set", host.now);
        }
        return true;
      }
      if active && activationMethod == Some("key_sequence") {
        if host.now > activationTime.value + Minutes(config.durationMinutes) {
          DeactivateNow("Key sequence timeout expired");
          return false;
        }
        return true;
      }
      r := active;
    }

    /** `check_key_sequence`. */
    method CheckKeySequenceNow(recentKeys: seq<string>, now: real) returns (r: bool)
      requires Coherent(State())
      modifies this
      ensures Checked(r, State()) == CheckKeySequence(config, old(State()), recentKeys, now)
      ensures Coherent(State())
    {
      if config.keySequence.None? {
        return false;
      }
      var expected := config.keySequence.value;
      if |recentKeys| >= |expected| {
        var actual := PySuffix(recentKeys, |expected|);
        if actual == expected {
          ActivateNow("Key sequence detected", now);
          return true;
        }
      }
      r := false;
    }

    /** `should_bypass_lockdown`. */
    method ShouldBypassLockdown(host: Host) returns (r: bool)
      requires Coherent(State())
      modifies this
      ensures Checked(r, State()) == IsActive(config, old(State()), host)
      ensures Coherent(State())
    {
      r := IsActiveNow(host);
    }

    /** `should_include_in_training`: exactly when `is_active` says no. */
    method ShouldIncludeInTraining(host: Host) returns (r: bool)
      requires Coherent(State())
      modifies this
      ensures Checked(!r, State()) == IsActive(config, old(State()), host)
      ensures Coherent(State())
    {
      var a := IsActiveNow(host);
      r := !a;
    }

    method GetMetadataTag(host: Host) returns (tag: map<string, Value>)
      requires Coherent(State())
      modifies this
      ensures State() == IsActive(config, old(State()), host).state
      ensures tag == MetadataTag(IsActive(config, old(State()), host))
      ensures Coherent(State())
    {
      var a := IsActiveNow(host);
      tag := MetadataTag(Checked(a, State()));
    }
  }
}
