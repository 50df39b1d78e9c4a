/** Input validation of the three event kinds (keystroke, mouse, application
    switch) and the dispatch by event type.

    The raw event is a map from field names to typed values; a model is built
    only when every field passes. Each field is checked in the order the
    schema library applies it: presence and type, then the declared bounds,
    then the field's own validator (which runs after the bounds). The result
    reports the set of fields that failed. The current time in microseconds
    is a parameter. */
module Validators {
  import opened Common

  datatype Raw = RInt(i: int) | RStr(s: string) | RNull

  type Data = map<string, Raw>

  /** The allowed distance between an event time and now: one hour. */
  const MaxSkewUs := 3_600_000_000

  datatype KeystrokeEvent = KeystrokeEvent(event: string, key: string, ts: int, scanCode: Option<int>)

  datatype MouseEvent = MouseEvent(
    event: string, ts: int, x: Option<int>, y: Option<int>,
    button: Option<string>, scrollDelta: Option<int>)

  datatype AppEvent = AppEvent(appName: string, ts: int)

  datatype Event = Keystroke(k: KeystrokeEvent) | Mouse(m: MouseEvent) | App(a: AppEvent)

  /** A validation error names the failing fields; an unknown event type is
      reported on its own. Both are raised as `ValueError`. */
  datatype Validation<T> = Valid(value: T) | Invalid(fields: set<string>) | UnknownType(eventType: string)

  // -----------------------------------------------------------------------
  // Field checks

  /** `validate_timestamp`: within an hour of now, in either direction. */
  predicate TimestampOk(ts: int, nowUs: int)
  {
    (if ts >= nowUs then ts - nowUs else nowUs - ts) <= MaxSkewUs
  }

  lemma TimestampWindow(ts: int, nowUs: int)
    ensures TimestampOk(ts, nowUs) <==> nowUs - MaxSkewUs <= ts <= nowUs + MaxSkewUs
  {
  }

  /** An `int` field in the schema library's lax mode: an integer, or a
      string that reads as a decimal integer once the whitespace at its ends
      is stripped. */
  function AsInt(r: Raw): Option<int>
  {
    match r
    case RInt(i) => Some(i)
    case RStr(s) => ParseInt(Strip(s))
    case RNull => None
  }

  /** The integer a field holds, after coercion; `None` when it is absent,
      null or not an integer. */
  function IntField(d: Data, field: string): Option<int>
  {
    if field in d then AsInt(d[field]) else None
  }

  /** The decimal rendering of an integer, as a string, coerces to that
      integer. */
  lemma RenderedCoerces(i: int)
    ensures AsInt(RStr(IntToString(i))) == Some(i)
  {
    var s := IntToString(i);
    assert !IsSpace(s[0]) by {
      if i < 0 {
        assert s[0] == '-';
      } else {
        assert s == NatToString(i);
      }
    }
    assert !IsSpace(s[|s| - 1]) by {
      if i < 0 {
        assert s[|s| - 1] == NatToString(-i)[|NatToString(-i)| - 1];
      } else {
        assert s == NatToString(i);
      }
    }
    assert StripLeft(s) == s;
    ParseRendered(i);
  }

  /** The raw field carries the optional integer: absent or null for
      `None`, otherwise a value that coerces to it. */
  predicate CarriesInt(d: Data, field: string, o: Option<int>)
  {
    if o.None? then field !in d || d[field] == RNull else IntField(d, field) == o
  }

  /** `ts: int = Field(gt=0)` followed by `validate_timestamp`. */
  predicate TsOk(d: Data, nowUs: int)
  {
    IntField(d, "ts").Some? && IntField(d, "ts").value > 0 && TimestampOk(IntField(d, "ts").value, nowUs)
  }

  /** A `Literal` type field with a default: absent, or exactly the literal. */
  predicate TypeOk(d: Data, literal: string)
  {
    "type" !in d || d["type"] == RStr(literal)
  }

  /** A required string field whose value is one of `allowed`. */
  predicate ChoiceOk(d: Data, field: string, allowed: set<string>)
  {
    field in d && d[field].RStr? && d[field].s in allowed
  }

  /** A required string field with a length between `lo` and `hi`. */
  predicate LengthOk(d: Data, field: string, lo: nat, hi: nat)
  {
    field in d && d[field].RStr? && lo <= |d[field].s| <= hi
  }

  /** An `Optional[int]` field with bounds: absent, null, or an int (after
      coercion) within them. */
  predicate OptionalIntOk(d: Data, field: string, lo: int, hi: int)
  {
    field !in d || d[field] == RNull || (IntField(d, field).Some? && lo <= IntField(d, field).value <= hi)
  }

  /** An `Optional[str]` field with a full-match pattern given as its set of
      matching strings. */
  predicate OptionalChoiceOk(d: Data, field: string, allowed: set<string>)
  {
    field !in d || d[field] == RNull || (d[field].RStr? && d[field].s in allowed)
  }

  function OptionalStr(d: Data, field: string): Option<string>
  {
    if field in d && d[field].RStr? then Some(d[field].s) else None
  }

  /** Every check passes. */
  predicate AllPass(checks: seq<(string, bool)>)
  {
    forall i :: 0 <= i < |checks| ==> checks[i].1
  }

  /** The names of the failing checks: empty exactly when every check passes. */
  function Failing(checks: seq<(string, bool)>): (r: set<string>)
    ensures r == {} <==> AllPass(checks)
  {
    if checks == [] then {}
    else
      var rest := Failing(checks[1..]);
      assert AllPass(checks) <==> checks[0].1 && AllPass(checks[1..]);
      (if checks[0].1 then {} else {checks[0].0}) + rest
  }

  lemma {:induction false} FailingNames(checks: seq<(string, bool)>, i: nat)
    requires i < |checks| && !checks[i].1
    ensures checks[i].0 in Failing(checks)
  {
    if i > 0 {
      FailingNames(checks[1..], i - 1);
    }
  }

  // -----------------------------------------------------------------------
  // KeystrokeEvent

  const KeyEvents: set<string> := {"press", "release"}

  function KeystrokeChecks(d: Data, nowUs: int): seq<(string, bool)>
  {
    [("type", TypeOk(d, "keystroke")),
     ("event", ChoiceOk(d, "event", KeyEvents)),
     ("key", LengthOk(d, "key", 1, 100)),
     ("ts", TsOk(d, nowUs)),
     ("scan_code", OptionalIntOk(d, "scan_code", 0, 65535))]
  }

  predicate KeystrokeOk(d: Data, nowUs: int)
  {
    TypeOk(d, "keystroke") && ChoiceOk(d, "event", KeyEvents) && LengthOk(d, "key", 1, 100)
    && TsOk(d, nowUs) && OptionalIntOk(d, "scan_code", 0, 65535)
  }

  function ValidateKeystroke(d: Data, nowUs: int): Validation<KeystrokeEvent>
  {
    if !KeystrokeOk(d, nowUs) then Invalid(Failing(KeystrokeChecks(d, nowUs)))
    else Valid(KeystrokeEvent(d["event"].s, d["key"].s, IntField(d, "ts").value, IntField(d, "scan_code")))
  }

  /** The constraints a keystroke model satisfies. */
  predicate KeystrokeConstraints(k: KeystrokeEvent, nowUs: int)
  {
    k.event in KeyEvents && 1 <= |k.key| <= 100 && k.ts > 0 && TimestampOk(k.ts, nowUs)
    && (k.scanCode.Some? ==> 0 <= k.scanCode.value <= 65535)
  }

  /** The raw fields of a keystroke model. */
  function KeystrokeData(k: KeystrokeEvent): Data
  {
    map["event" := RStr(k.event), "key" := RStr(k.key), "ts" := RInt(k.ts),
        "scan_code" := if k.scanCode.Some? then RInt(k.scanCode.value) else RNull]
  }

  /** The raw event carries the fields of a keystroke model, integers in
      any form that coerces to them. */
  predicate CarriesKeystroke(d: Data, k: KeystrokeEvent)
  {
    TypeOk(d, "keystroke") && "event" in d && d["event"] == RStr(k.event) && "key" in d && d["key"] == RStr(k.key)
    && IntField(d, "ts") == Some(k.ts) && CarriesInt(d, "scan_code", k.scanCode)
  }

  /** A validated keystroke satisfies the constraints and keeps the input's
      fields; a model satisfying them is accepted back unchanged, from any
      raw event that carries it. */
  lemma KeystrokeValidation(d: Data, k: KeystrokeEvent, nowUs: int)
    ensures ValidateKeystroke(d, nowUs).Valid? ==>
              var v := ValidateKeystroke(d, nowUs).value;
              KeystrokeConstraints(v, nowUs) && d["key"] == RStr(v.key) && IntField(d, "ts") == Some(v.ts)
              && v.scanCode == IntField(d, "scan_code")
    ensures KeystrokeConstraints(k, nowUs) ==> ValidateKeystroke(KeystrokeData(k), nowUs) == Valid(k)
    ensures KeystrokeConstraints(k, nowUs) && CarriesKeystroke(d, k) ==> ValidateKeystroke(d, nowUs) == Valid(k)
  {
  }

  /** A press of "a" whose ts arrives as a string that coerces to it. */
  lemma KeystrokeCoercedTimestamp(ts: string, nowUs: int)
    requires nowUs > 0 && AsInt(RStr(ts)) == Some(nowUs)
    ensures ValidateKeystroke(map["event" := RStr("press"), "key" := RStr("a"), "ts" := RStr(ts)], nowUs)
            == Valid(KeystrokeEvent("press", "a", nowUs, None))
  {
    var d := map["event" := RStr("press"), "key" := RStr("a"), "ts" := RStr(ts)];
    var k := KeystrokeEvent("press", "a", nowUs, None);
    assert IntField(d, "ts") == Some(nowUs);
    assert KeyEvents == {"press", "release"};
    assert CarriesKeystroke(d, k) && KeystrokeConstraints(k, nowUs);
    KeystrokeValidation(d, k, nowUs);
  }

  /** A timestamp sent as a numeric string is coerced and accepted. */
  lemma KeystrokeStringTimestamp(nowUs: int)
    requires nowUs > 0
    ensures ValidateKeystroke(map["event" := RStr("press"), "key" := RStr("a"), "ts" := RStr(IntToString(nowUs))], nowUs)
            == Valid(KeystrokeEvent("press", "a", nowUs, None))
  {
    RenderedCoerces(nowUs);
    KeystrokeCoercedTimestamp(IntToString(nowUs), nowUs);
  }

  /** A rejected keystroke names at least one failing field. */
  lemma KeystrokeInvalidNamesField(d: Data, nowUs: int)
    ensures ValidateKeystroke(d, nowUs).Invalid? <==> !KeystrokeOk(d, nowUs)
    ensures ValidateKeystroke(d, nowUs).Invalid? ==> ValidateKeystroke(d, nowUs).fields != {}
  {
    var c := KeystrokeChecks(d, nowUs);
    assert KeystrokeOk(d, nowUs) <==> c[0].1 && c[1].1 && c[2].1 && c[3].1 && c[4].1;
  }

  /** A timestamp more than an hour away is reported on `ts`. */
  lemma KeystrokeFarTimestamp(d: Data, nowUs: int)
    requires IntField(d, "ts").Some? && !TimestampOk(IntField(d, "ts").value, nowUs)
    ensures ValidateKeystroke(d, nowUs).Invalid? && "ts" in ValidateKeystroke(d, nowUs).fields
  {
    FailingNames(KeystrokeChecks(d, nowUs), 3);
  }

  // -----------------------------------------------------------------------
  // MouseEvent

  const MouseEvents: set<string> := {"move", "press", "release", "scroll"}

  /** The strings matching `^(Left|Right|Middle)$` in full. */
  const Buttons: set<string> := {"Left", "Right", "Middle"}

  function MouseChecks(d: Data, nowUs: int): seq<(string, bool)>
  {
    [("type", TypeOk(d, "mouse")),
     ("event", ChoiceOk(d, "event", MouseEvents)),
     ("ts", TsOk(d, nowUs)),
     ("x", OptionalIntOk(d, "x", 0, 10000)),
     ("y", OptionalIntOk(d, "y", 0, 10000)),
     ("button", OptionalChoiceOk(d, "button", Buttons)),
     ("scroll_delta", OptionalIntOk(d, "scroll_delta", -1000, 1000))]
  }

  predicate MouseOk(d: Data, nowUs: int)
  {
    TypeOk(d, "mouse") && ChoiceOk(d, "event", MouseEvents) && TsOk(d, nowUs)
    && OptionalIntOk(d, "x", 0, 10000) && OptionalIntOk(d, "y", 0, 10000)
    && OptionalChoiceOk(d, "button", Buttons) && OptionalIntOk(d, "scroll_delta", -1000, 1000)
  }

  function ValidateMouse(d: Data, nowUs: int): Validation<MouseEvent>
  {
    if !MouseOk(d, nowUs) then Invalid(Failing(MouseChecks(d, nowUs)))
    else Valid(MouseEvent(d["event"].s, IntField(d, "ts").value, IntField(d, "x"), IntField(d, "y"),
                          OptionalStr(d, "button"), IntField(d, "scroll_delta")))
  }

  predicate MouseConstraints(m: MouseEvent, nowUs: int)
  {
    m.event in MouseEvents && m.ts > 0 && TimestampOk(m.ts, nowUs)
    && (m.x.Some? ==> 0 <= m.x.value <= 10000)
    && (m.y.Some? ==> 0 <= m.y.value <= 10000)
    && (m.button.Some? ==> m.button.value in Buttons)
    && (m.scrollDelta.Some? ==> -1000 <= m.scrollDelta.value <= 1000)
  }

  function OptionalIntRaw(o: Option<int>): Raw
  {
    if o.Some? then RInt(o.value) else RNull
  }

  function MouseData(m: MouseEvent): Data
  {
    map["event" := RStr(m.event), "ts" := RInt(m.ts),
        "x" := OptionalIntRaw(m.x), "y" := OptionalIntRaw(m.y),
        "button" := (if m.button.Some? then RStr(m.button.value) else RNull),
        "scroll_delta" := OptionalIntRaw(m.scrollDelta)]
  }

  /** A validated mouse event satisfies the constraints and keeps the
      input's fields. */
  lemma MouseValidationSound(d: Data, nowUs: int)
    ensures ValidateMouse(d, nowUs).Valid? ==>
              var v := ValidateMouse(d, nowUs).value;
              MouseConstraints(v, nowUs) && d["event"] == RStr(v.event) && IntField(d, "ts") == Some(v.ts)
              && v.x == IntField(d, "x") && v.y == IntField(d, "y") && v.scrollDelta == IntField(d, "scroll_delta")
              && (v.x.None? <==> "x" !in d || d["x"] == RNull)
              && (v.button.Some? <==> "button" in d && d["button"].RStr?)
  {
  }

  /** The raw event carries the fields of a mouse model, integers in any
      form that coerces to them. */
  predicate CarriesMouse(d: Data, m: MouseEvent)
  {
    TypeOk(d, "mouse") && "event" in d && d["event"] == RStr(m.event) && IntField(d, "ts") == Some(m.ts)
    && CarriesInt(d, "x", m.x) && CarriesInt(d, "y", m.y) && CarriesInt(d, "scroll_delta", m.scrollDelta)
    && (if m.button.None? then "button" !in d || d["button"] == RNull
        else "button" in d && d["button"] == RStr(m.button.value))
  }

  /** A mouse event satisfying the constraints is accepted back unchanged,
      from its own fields and from any raw event that carries it. */
  lemma MouseValidationComplete(d: Data, m: MouseEvent, nowUs: int)
    requires MouseConstraints(m, nowUs) && CarriesMouse(d, m)
    ensures ValidateMouse(d, nowUs) == Valid(m)
    ensures ValidateMouse(MouseData(m), nowUs) == Valid(m)
  {
    MouseCarriedAccepted(d, m, nowUs);
    MouseDataCarries(m);
    MouseCarriedAccepted(MouseData(m), m, nowUs);
  }

  /** A bounded optional integer that the field carries passes its check and
      is what the field reads as. */
  lemma CarriedIntOk(d: Data, field: string, o: Option<int>, lo: int, hi: int)
    requires CarriesInt(d, field, o) && (o.Some? ==> lo <= o.value <= hi)
    ensures OptionalIntOk(d, field, lo, hi) && IntField(d, field) == o
  {
  }

  lemma MouseCarriedAccepted(d: Data, m: MouseEvent, nowUs: int)
    requires MouseConstraints(m, nowUs) && CarriesMouse(d, m)
    ensures ValidateMouse(d, nowUs) == Valid(m)
  {
    CarriedIntOk(d, "x", m.x, 0, 10000);
    CarriedIntOk(d, "y", m.y, 0, 10000);
    CarriedIntOk(d, "scroll_delta", m.scrollDelta, -1000, 1000);
    assert OptionalStr(d, "button") == m.button;
    assert MouseOk(d, nowUs);
  }

  lemma MouseDataCarries(m: MouseEvent)
    ensures CarriesMouse(MouseData(m), m)
  {
    var d := MouseData(m);
    assert IntField(d, "ts") == Some(m.ts);
  }

  // -----------------------------------------------------------------------
  // AppEvent and sanitize_app_name

  /** The characters `sanitize_app_name` removes, in the order it removes them. */
  const Dangerous: seq<char> := ['<', '>', '&', '"', '\'', '\\', '/', '\0']

  /** The characters Python's `str.strip()` removes: the Unicode whitespace. */
  predicate IsSpace(c: char)
  {
    ('\t' <= c <= '\r') || ('\U{1C}' <= c <= ' ') || c == '\U{85}' || c == '\U{A0}'
    || c == '\U{1680}' || ('\U{2000}' <= c <= '\U{200A}') || c == '\U{2028}' || c == '\U{2029}'
    || c == '\U{202F}' || c == '\U{205F}' || c == '\U{3000}'
  }

  function StripLeft(s: string): (r: string)
    ensures |r| <= |s| && r == s[|s| - |r|..]
    ensures r != [] ==> !IsSpace(r[0])
  {
    if s != [] && IsSpace(s[0]) then StripLeft(s[1..]) else s
  }

  function StripRight(s: string): (r: string)
    ensures |r| <= |s| && r == s[..|r|]
    ensures r != [] ==> !IsSpace(r[|r| - 1])
  {
    if s != [] && IsSpace(s[|s| - 1]) then StripRight(s[..|s| - 1]) else s
  }

  /** `str.strip()`. */
  function Strip(s: string): string
  {
    StripRight(StripLeft(s))
  }

  /** Kept by `sanitize_app_name`. */
  predicate Safe(c: char)
  {
    c !in Dangerous
  }

  /** Kept by `v.replace(c, '')`. */
  function Unlike(c: char): char -> bool
  {
    (x: char) => x != c
  }

  /** Kept by the first `k` rounds of the loop. */
  function SafeUpTo(k: nat): char -> bool
    requires k <= |Dangerous|
  {
    (x: char) => x !in Dangerous[..k]
  }

  function Both(p: char -> bool, q: char -> bool): char -> bool
  {
    (x: char) => p(x) && q(x)
  }

  /** What `sanitize_app_name` computes: every dangerous character removed,
      then the whitespace at both ends. */
  function Sanitized(s: string): string
  {
    Strip(Filter(s, Safe))
  }

  lemma {:induction false} FilterBoth(s: string, p: char -> bool, q: char -> bool)
    ensures Filter(Filter(s, p), q) == Filter(s, Both(p, q))
  {
    if s != [] {
      FilterBoth(s[1..], p, q);
      assert s == [s[0]] + s[1..];
      FilterAppend([s[0]], s[1..], p);
      FilterAppend([s[0]], s[1..], Both(p, q));
      FilterAppend(Filter([s[0]], p), Filter(s[1..], p), q);
    }
  }

  lemma {:induction false} FilterSame(s: string, p: char -> bool, q: char -> bool)
    requires forall x :: p(x) == q(x)
    ensures Filter(s, p) == Filter(s, q)
  {
    if s != [] {
      FilterSame(s[1..], p, q);
      assert s == [s[0]] + s[1..];
      FilterAppend([s[0]], s[1..], p);
      FilterAppend([s[0]], s[1..], q);
    }
  }

  /** The loop of `sanitize_app_name` over the dangerous characters. */
  method SanitizeAppName(name: string) returns (v: string)
    ensures v == Sanitized(name)
  {
    v := name;
    FilterAll(name, SafeUpTo(0));
    for i := 0 to |Dangerous|
      invariant v == Filter(name, SafeUpTo(i))
    {
      SanitizeRound(name, i);
      v := Filter(v, Unlike(Dangerous[i]));
    }
    SanitizeRounds(name);
    v := Strip(v);
  }

  /** One more round of the loop removes one more dangerous character. */
  lemma SanitizeRound(name: string, i: nat)
    requires i < |Dangerous|
    ensures Filter(Filter(name, SafeUpTo(i)), Unlike(Dangerous[i])) == Filter(name, SafeUpTo(i + 1))
  {
    FilterBoth(name, SafeUpTo(i), Unlike(Dangerous[i]));
    assert Dangerous[..i + 1] == Dangerous[..i] + [Dangerous[i]];
    FilterSame(name, Both(SafeUpTo(i), Unlike(Dangerous[i])), SafeUpTo(i + 1));
  }

  /** After every round, all dangerous characters are gone. */
  lemma SanitizeRounds(name: string)
    ensures Filter(name, SafeUpTo(|Dangerous|)) == Filter(name, Safe)
  {
    assert Dangerous[..|Dangerous|] == Dangerous;
    FilterSame(name, SafeUpTo(|Dangerous|), Safe);
  }

  lemma StripKeepsChars(s: string)
    ensures forall c :: c in Strip(s) ==> c in s
  {
    var l := StripLeft(s);
    assert forall c :: c in StripRight(l) ==> c in l;
    assert forall c :: c in l ==> c in s;
  }

  /** A sanitised name contains no dangerous character, has no whitespace at
      either end and is no longer than the input. */
  lemma SanitizedClean(s: string)
    ensures forall c :: c in Dangerous ==> c !in Sanitized(s)
    ensures Sanitized(s) != [] ==> !IsSpace(Sanitized(s)[0]) && !IsSpace(Sanitized(s)[|Sanitized(s)| - 1])
    ensures |Sanitized(s)| <= |s|
  {
    StripKeepsChars(Filter(s, Safe));
    var l := StripLeft(Filter(s, Safe));
    var r := StripRight(l);
    if r != [] {
      assert r[0] == l[0];
    }
  }

  lemma StripIdempotent(s: string)
    ensures Strip(Strip(s)) == Strip(s)
  {
    var l := StripLeft(s);
    var r := StripRight(l);
    if r != [] {
      assert r[0] == l[0];
      assert StripLeft(r) == r;
    }
  }

  /** Sanitising twice is sanitising once. */
  lemma SanitizeIdempotent(s: string)
    ensures Sanitized(Sanitized(s)) == Sanitized(s)
  {
    var once := Sanitized(s);
    SanitizedClean(s);
    FilterAll(once, Safe);
    StripIdempotent(Filter(s, Safe));
  }

  function AppChecks(d: Data, nowUs: int): seq<(string, bool)>
  {
    [("type", TypeOk(d, "app")),
     ("app_name", LengthOk(d, "app_name", 1, 500)),
     ("ts", TsOk(d, nowUs))]
  }

  /** As written: the length bounds apply to the raw name, and the name is
      sanitised afterwards. */
  predicate AppOk(d: Data, nowUs: int)
  {
    TypeOk(d, "app") && LengthOk(d, "app_name", 1, 500) && TsOk(d, nowUs)
  }

  function ValidateApp(d: Data, nowUs: int): Validation<AppEvent>
  {
    if !AppOk(d, nowUs) then Invalid(Failing(AppChecks(d, nowUs)))
    else Valid(AppEvent(Sanitized(d["app_name"].s), IntField(d, "ts").value))
  }

  /** A validated application name is the sanitised input: clean, at most 500
      characters, and timed within the hour. */
  lemma AppValidation(d: Data, nowUs: int)
    ensures ValidateApp(d, nowUs).Valid? <==>
              TypeOk(d, "app") && LengthOk(d, "app_name", 1, 500) && TsOk(d, nowUs)
    ensures ValidateApp(d, nowUs).Valid? ==>
              var a := ValidateApp(d, nowUs).value;
              a.appName == Sanitized(d["app_name"].s) && |a.appName| <= 500
              && (forall c :: c in Dangerous ==> c !in a.appName)
              && TimestampOk(a.ts, nowUs) && a.ts > 0 && IntField(d, "ts") == Some(a.ts)
  {
    if ValidateApp(d, nowUs).Valid? {
      SanitizedClean(d["app_name"].s);
    }
  }

  /** As written, a name made only of removed characters passes the length
      check and comes out empty. */
  lemma EmptyNameAccepted(nowUs: int)
    requires nowUs > 0
    ensures ValidateApp(map["app_name" := RStr("<>"), "ts" := RInt(nowUs)], nowUs)
            == Valid(AppEvent("", nowUs))
  {
    var d := map["app_name" := RStr("<>"), "ts" := RInt(nowUs)];
    assert AppOk(d, nowUs);
    assert "<>" == ['<'] + ['>'];
    FilterAppend(['<'], ['>'], Safe);
  }

  /** The evidently intended schema: the length bounds hold of the name that
      is stored. */
  function ValidateAppChecked(d: Data, nowUs: int): Validation<AppEvent>
  {
    if !AppOk(d, nowUs) then Invalid(Failing(AppChecks(d, nowUs)))
    else if |Sanitized(d["app_name"].s)| == 0 then Invalid({"app_name"})
    else Valid(AppEvent(Sanitized(d["app_name"].s), IntField(d, "ts").value))
  }

  lemma AppCheckedNonEmpty(d: Data, nowUs: int)
    ensures ValidateAppChecked(d, nowUs).Valid? ==>
              var a := ValidateAppChecked(d, nowUs).value;
              1 <= |a.appName| <= 500 && (forall c :: c in Dangerous ==> c !in a.appName)
    ensures ValidateAppChecked(d, nowUs).Valid? <==>
              ValidateApp(d, nowUs).Valid? && ValidateApp(d, nowUs).value.appName != []
  {
    if ValidateAppChecked(d, nowUs).Valid? {
      SanitizedClean(d["app_name"].s);
    }
  }

  // -----------------------------------------------------------------------
  // validate_event

  function ValidateEvent(eventType: string, d: Data, nowUs: int): Validation<Event>
  {
    if eventType == "keystroke" then
      match ValidateKeystroke(d, nowUs)
      case Valid(k) => Valid(Keystroke(k))
      case Invalid(f) => Invalid(f)
      case UnknownType(t) => UnknownType(t)
    else if eventType == "mouse" then
      match ValidateMouse(d, nowUs)
      case Valid(m) => Valid(Mouse(m))
      case Invalid(f) => Invalid(f)
      case UnknownType(t) => UnknownType(t)
    else if eventType == "app" then
      match ValidateApp(d, nowUs)
      case Valid(a) => Valid(App(a))
      case Invalid(f) => Invalid(f)
      case UnknownType(t) => UnknownType(t)
    else UnknownType(eventType)
  }

  /** Each known type goes to its own schema, and the kind of the model
      matches the type; any other type is an error. */
  lemma DispatchByType(eventType: string, d: Data, nowUs: int)
    ensures ValidateEvent(eventType, d, nowUs).UnknownType? <==> eventType !in {"keystroke", "mouse", "app"}
    ensures eventType == "keystroke" ==>
              (ValidateEvent(eventType, d, nowUs).Valid? <==> ValidateKeystroke(d, nowUs).Valid?)
    ensures eventType == "mouse" ==>
              (ValidateEvent(eventType, d, nowUs).Valid? <==> ValidateMouse(d, nowUs).Valid?)
    ensures eventType == "app" ==>
              (ValidateEvent(eventType, d, nowUs).Valid? <==> ValidateApp(d, nowUs).Valid?)
    ensures ValidateEvent(eventType, d, nowUs).Valid? ==>
              match ValidateEvent(eventType, d, nowUs).value
              case Keystroke(_) => eventType == "keystroke"
              case Mouse(_) => eventType == "mouse"
              case App(_) => eventType == "app"
  {
    assert ValidateKeystroke(d, nowUs).UnknownType? == false;
    assert ValidateMouse(d, nowUs).UnknownType? == false;
    assert ValidateApp(d, nowUs).UnknownType? == false;
  }
}
