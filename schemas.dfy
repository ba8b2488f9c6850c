/**
 * agents/utils/schemas.py: the records every agent of the `agents` package exchanges. Each record
 * is built from keyword arguments by Pydantic: required fields must be present with their type,
 * optional ones fall back to their defaults, undeclared keys are dropped.
 */
module AgentSchemas {
  import opened Wrappers
  import opened JsonValues
  import opened PydanticFields

  /** `AgentEvent`: the envelope of every agent result, error and state change. */
  datatype AgentEvent = AgentEvent(
    eventType: string,
    agentName: string,
    agentVersion: string,
    timestamp: string,
    stepId: Option<string>,
    promptVersion: Option<string>,
    meta: Option<seq<(string, Json)>>,
    payload: seq<(string, Json)>)

  /** `AgentEvent(**f)`; `now` is what `datetime.now().isoformat()` gives at construction. */
  function NewAgentEvent(f: Fields, now: string): (r: Result<AgentEvent>)
    ensures !("event_type" in f && "agent_name" in f && "agent_version" in f) ==> r.Err?
    ensures r.Ok? ==>
      && f["event_type"] == JStr(r.value.eventType) && f["agent_name"] == JStr(r.value.agentName)
      && f["agent_version"] == JStr(r.value.agentVersion)
    ensures r.Ok? ==>
      && ("timestamp" !in f ==> r.value.timestamp == now)
      && ("step_id" !in f ==> r.value.stepId == None) && ("prompt_version" !in f ==> r.value.promptVersion == None)
      && ("meta" !in f ==> r.value.meta == Some([])) && ("payload" !in f ==> r.value.payload == [])
  {
    var eventType :- Str(f, "event_type");
    var agentName :- Str(f, "agent_name");
    var agentVersion :- Str(f, "agent_version");
    var timestamp :- StrOr(f, "timestamp", now);
    var stepId :- OptStr(f, "step_id");
    var promptVersion :- OptStr(f, "prompt_version");
    var meta :- OptDictOr(f, "meta");
    var payload :- DictOr(f, "payload");
    Ok(AgentEvent(eventType, agentName, agentVersion, timestamp, stepId, promptVersion, meta, payload))
  }

  /** The keyword arguments that describe an event completely. */
  function AgentEventFields(e: AgentEvent): Fields {
    map[
      "event_type" := JStr(e.eventType), "agent_name" := JStr(e.agentName),
      "agent_version" := JStr(e.agentVersion), "timestamp" := JStr(e.timestamp),
      "step_id" := OptJson(e.stepId), "prompt_version" := OptJson(e.promptVersion),
      "meta" := OptObject(e.meta), "payload" := JObject(e.payload)]
  }

  /** Every event can be rebuilt from its own fields, whatever the clock says. */
  lemma AgentEventRoundTrip(e: AgentEvent, now: string)
    ensures NewAgentEvent(AgentEventFields(e), now) == Ok(e)
  {
    var f := AgentEventFields(e);
    assert Str(f, "event_type") == Ok(e.eventType) && Str(f, "agent_name") == Ok(e.agentName);
    assert Str(f, "agent_version") == Ok(e.agentVersion) && StrOr(f, "timestamp", now) == Ok(e.timestamp);
    assert DictOr(f, "payload") == Ok(e.payload);
    assert OptStr(f, "step_id") == Ok(e.stepId) by {
      FieldRoundTrips(f, "step_id");
    }
    assert OptStr(f, "prompt_version") == Ok(e.promptVersion) by {
      FieldRoundTrips(f, "prompt_version");
    }
    assert OptDictOr(f, "meta") == Ok(e.meta) by {
      FieldRoundTrips(f, "meta");
    }
  }

  const AgentEventKeys: set<string> :=
    {"event_type", "agent_name", "agent_version", "timestamp", "step_id", "prompt_version", "meta", "payload"}

  /** Keys the record does not declare change nothing. */
  lemma AgentEventIgnoresExtra(f: Fields, k: string, v: Json, now: string)
    requires k !in AgentEventKeys
    ensures NewAgentEvent(f[k := v], now) == NewAgentEvent(f, now)
  {
  }

  /** `PromptQualityResult`; the score is documented as lying in 0..1 but not checked. */
  datatype PromptQualityResult = PromptQualityResult(
    score: real,
    matrix: seq<(string, real)>,
    feedback: string,
    passThreshold: bool,
    issues: Option<seq<string>>,
    promptVersion: Option<string>)

  function NewPromptQualityResult(f: Fields): (r: Result<PromptQualityResult>)
    ensures !("score" in f && "matrix" in f && "feedback" in f && "pass_threshold" in f) ==> r.Err?
    ensures r.Ok? ==> f["score"] == JNum(r.value.score) && f["pass_threshold"] == JBool(r.value.passThreshold)
    ensures r.Ok? ==> ("issues" !in f ==> r.value.issues == Some([])) && ("prompt_version" !in f ==> r.value.promptVersion == None)
  {
    var score :- Num(f, "score");
    var matrix :- NumDict(f, "matrix");
    var feedback :- Str(f, "feedback");
    var passThreshold :- Bool(f, "pass_threshold");
    var issues :- OptStrListOr(f, "issues");
    var promptVersion :- OptStr(f, "prompt_version");
    Ok(PromptQualityResult(score, matrix, feedback, passThreshold, issues, promptVersion))
  }

  /** A score outside 0..1 is accepted: this record does not constrain it. */
  lemma PromptQualityScoreUnchecked(score: real, matrix: seq<(string, real)>)
    ensures var f := map["score" := JNum(score), "matrix" := NumObject(matrix), "feedback" := JStr(""), "pass_threshold" := JBool(false)];
      NewPromptQualityResult(f) == Ok(PromptQualityResult(score, matrix, "", false, Some([]), None))
  {
    var f := map["score" := JNum(score), "matrix" := NumObject(matrix), "feedback" := JStr(""), "pass_threshold" := JBool(false)];
    FieldRoundTrips(f, "matrix");
  }

  /** `ImprovementResult`. */
  datatype ImprovementResult = ImprovementResult(
    improvedPrompt: string,
    rationale: string,
    changes: Option<seq<string>>,
    promptVersion: Option<string>)

  function NewImprovementResult(f: Fields): (r: Result<ImprovementResult>)
    ensures r.Ok? <==>
      && HasStr(f, "improved_prompt") && HasStr(f, "rationale")
      && ("changes" !in f || f["changes"].JNull? || IsStringList(f["changes"]))
      && ("prompt_version" !in f || f["prompt_version"].JNull? || f["prompt_version"].JStr?)
    ensures r.Ok? ==> ("changes" !in f ==> r.value.changes == Some([])) && ("prompt_version" !in f ==> r.value.promptVersion == None)
  {
    var improvedPrompt :- Str(f, "improved_prompt");
    var rationale :- Str(f, "rationale");
    var changes :- OptStrListOr(f, "changes");
    var promptVersion :- OptStr(f, "prompt_version");
    Ok(ImprovementResult(improvedPrompt, rationale, changes, promptVersion))
  }

  /** `ControllerResult`; `action` is documented as one of pass, retry, abort but not checked. */
  datatype ControllerResult = ControllerResult(
    action: string,
    alignmentScore: real,
    rationale: string,
    details: Option<seq<(string, Json)>>)

  function NewControllerResult(f: Fields): (r: Result<ControllerResult>)
    ensures r.Ok? <==>
      && HasStr(f, "action") && "alignment_score" in f && f["alignment_score"].JNum? && HasStr(f, "rationale")
      && ("details" !in f || f["details"].JNull? || f["details"].JObject?)
    ensures r.Ok? ==> "details" !in f ==> r.value.details == Some([])
  {
    var action :- Str(f, "action");
    var alignmentScore :- Num(f, "alignment_score");
    var rationale :- Str(f, "rationale");
    var details :- OptDictOr(f, "details");
    Ok(ControllerResult(action, alignmentScore, rationale, details))
  }

  /** `result.dict()`: the record's fields as a dict, in declaration order. */
  function ControllerResultDict(c: ControllerResult): seq<(string, Json)> {
    [("action", JStr(c.action)), ("alignment_score", JNum(c.alignmentScore)),
     ("rationale", JStr(c.rationale)), ("details", OptObject(c.details))]
  }
}

/** utils/schema.py: the stricter records of the `utils` package. */
module Schema {
  import opened Wrappers
  import opened JsonValues
  import opened PydanticFields
  import Text

  /** `PromptQualityResult`: here the score is constrained to 0 <= score <= 1. */
  datatype PromptQualityResult = PromptQualityResult(
    score: real,
    matrix: seq<(string, real)>,
    feedback: string,
    passThreshold: bool,
    issues: seq<string>,
    promptVersion: Option<string>)

  function NewPromptQualityResult(f: Fields): (r: Result<PromptQualityResult>)
    ensures !("score" in f && "matrix" in f && "feedback" in f && "pass_threshold" in f) ==> r.Err?
    ensures r.Ok? ==> 0.0 <= r.value.score <= 1.0 && f["score"] == JNum(r.value.score)
    ensures "score" in f && f["score"].JNum? && !(0.0 <= f["score"].n <= 1.0) ==> r == Err(ValidationError("score"))
    ensures r.Ok? ==> ("issues" !in f ==> r.value.issues == []) && ("prompt_version" !in f ==> r.value.promptVersion == None)
  {
    var score :- Num(f, "score");
    if !(0.0 <= score <= 1.0) then Err(ValidationError("score"))
    else
      var matrix :- NumDict(f, "matrix");
      var feedback :- Str(f, "feedback");
      var passThreshold :- Bool(f, "pass_threshold");
      var issues :- StrListOr(f, "issues");
      var promptVersion :- OptStr(f, "prompt_version");
      Ok(PromptQualityResult(score, matrix, feedback, passThreshold, issues, promptVersion))
  }

  /** Every score in range, with the other fields given, is accepted as it is. */
  lemma ScoreInRangeAccepted(score: real, matrix: seq<(string, real)>, feedback: string, passThreshold: bool)
    requires 0.0 <= score <= 1.0
    ensures var f := map["score" := JNum(score), "matrix" := NumObject(matrix), "feedback" := JStr(feedback), "pass_threshold" := JBool(passThreshold)];
      NewPromptQualityResult(f) == Ok(PromptQualityResult(score, matrix, feedback, passThreshold, [], None))
  {
    var f := map["score" := JNum(score), "matrix" := NumObject(matrix), "feedback" := JStr(feedback), "pass_threshold" := JBool(passThreshold)];
    FieldRoundTrips(f, "matrix");
  }

  /** Two ASCII digits at `i`, and their value. */
  predicate TwoDigitsAt(t: string, i: nat) {
    i + 2 <= |t| && Text.IsDigit(t[i]) && Text.IsDigit(t[i + 1])
  }

  function TwoDigitValue(t: string, i: nat): nat
    requires TwoDigitsAt(t, i)
  {
    ((t[i] as int - '0' as int) * 10 + (t[i + 1] as int - '0' as int)) as nat
  }

  /** A UTC designator `Z`, an offset `+HH:MM` or `-HH:MM`, or nothing. */
  predicate Zone(z: string) {
    || z == [] || z == "Z"
    || (|z| == 6 && (z[0] == '+' || z[0] == '-') && TwoDigitsAt(z, 1) && z[3] == ':' && TwoDigitsAt(z, 4))
  }

  /** After the seconds: an optional fraction `.` and digits, then the zone. */
  predicate AfterSeconds(s: string) {
    || Zone(s)
    || (s != [] && s[0] == '.' && |Text.TrimLeft(s[1..], Text.IsDigit)| < |s| - 1 && Zone(Text.TrimLeft(s[1..], Text.IsDigit)))
  }

  /**
   * The ISO 8601 text a `datetime` field accepts: `YYYY-MM-DD`, `T` or a space, `HH:MM:SS` with a
   * month from 1 to 12, a day from 1 to 31, an hour below 24 and minutes and seconds below 60.
   */
  predicate DateTimeText(t: string) {
    && |t| >= 19
    && TwoDigitsAt(t, 0) && TwoDigitsAt(t, 2) && t[4] == '-' && TwoDigitsAt(t, 5) && t[7] == '-' && TwoDigitsAt(t, 8)
    && (t[10] == 'T' || t[10] == ' ')
    && TwoDigitsAt(t, 11) && t[13] == ':' && TwoDigitsAt(t, 14) && t[16] == ':' && TwoDigitsAt(t, 17)
    && 1 <= TwoDigitValue(t, 5) <= 12 && 1 <= TwoDigitValue(t, 8) <= 31
    && TwoDigitValue(t, 11) < 24 && TwoDigitValue(t, 14) < 60 && TwoDigitValue(t, 17) < 60
    && AfterSeconds(t[19..])
  }

  /** A `datetime` field with a default: absent gives `default`, and a given value must be date text. */
  function DateTimeOr(f: Fields, k: string, default: string): (r: Result<string>)
    ensures k !in f ==> r == Ok(default)
    ensures k in f ==> (r.Ok? <==> f[k].JStr? && DateTimeText(f[k].s))
    ensures k in f && r.Ok? ==> f[k] == JStr(r.value)
    ensures r.Err? ==> r.error == ValidationError(k)
  {
    if k !in f then Ok(default)
    else if f[k].JStr? && DateTimeText(f[k].s) then Ok(f[k].s)
    else Err(ValidationError(k))
  }

  /** The date and time of a text are its first 19 characters; what follows them is checked apart. */
  lemma DateTimeJoin(d: string, rest: string)
    requires |d| == 19 && DateTimeText(d) && AfterSeconds(rest)
    ensures DateTimeText(d + rest)
  {
    var t := d + rest;
    assert t[..19] == d && t[19..] == rest;
    assert forall i :: 0 <= i < 19 ==> t[i] == d[i];
  }

  /** Trimming the digits off `d + z` leaves `z` when `d` is all digits and `z` starts with none. */
  lemma {:induction false} TrimDigits(d: string, z: string)
    requires forall i :: 0 <= i < |d| ==> Text.IsDigit(d[i])
    requires z != [] && !Text.IsDigit(z[0])
    ensures Text.TrimLeft(d + z, Text.IsDigit) == z
    decreases |d|
  {
    var s := d + z;
    if d != [] {
      assert s[0] == d[0] && Text.IsDigit(s[0]);
      assert s[1..] == d[1..] + z;
      TrimDigits(d[1..], z);
      assert Text.TrimLeft(s, Text.IsDigit) == Text.TrimLeft(s[1..], Text.IsDigit);
    } else {
      assert s == z && !Text.IsDigit(s[0]);
    }
  }

  /** Six fraction digits followed by an offset. */
  lemma FractionAndOffset()
    ensures AfterSeconds("." + "123456" + "+02:00")
  {
    var s := "." + "123456" + "+02:00";
    assert s[1..] == "123456" + "+02:00";
    TrimDigits("123456", "+02:00");
    assert Zone("+02:00");
  }

  /** A date and time to the second, with no zone, is accepted. */
  lemma SecondsTextAccepted()
    ensures DateTimeText("2025-06-01T12:30:05")
  {
  }

  /** The text `cet_now()` gives, such as `2025-06-01T12:30:05.123456+02:00`, is accepted. */
  lemma CetNowTextAccepted()
    ensures DateTimeText("2025-06-01T12:30:05" + ("." + "123456" + "+02:00"))
  {
    SecondsTextAccepted();
    FractionAndOffset();
    DateTimeJoin("2025-06-01T12:30:05", "." + "123456" + "+02:00");
  }

  /** A time without its date, or a date written with slashes, is not date text. */
  lemma NonDatesRejected()
    ensures !DateTimeText("12:30:05")
    ensures !DateTimeText("2025/06/01T12:30:05")
  {
  }

  /** `AgentEvent`: `step_id` and `payload` are required here; `timestamp` defaults to `datetime.utcnow()`. */
  datatype AgentEvent = AgentEvent(
    eventType: string,
    agentName: string,
    agentVersion: string,
    timestamp: string,
    stepId: string,
    promptVersion: Option<string>,
    meta: seq<(string, Json)>,
    payload: seq<(string, Json)>)

  function NewAgentEvent(f: Fields, now: string): (r: Result<AgentEvent>)
    ensures !("event_type" in f && "agent_name" in f && "agent_version" in f && "step_id" in f && "payload" in f) ==> r.Err?
    ensures r.Ok? ==> f["step_id"] == JStr(r.value.stepId) && f["payload"] == JObject(r.value.payload)
    ensures r.Ok? ==>
      && ("timestamp" !in f ==> r.value.timestamp == now) && ("meta" !in f ==> r.value.meta == [])
      && ("prompt_version" !in f ==> r.value.promptVersion == None)
    ensures "timestamp" in f && !(f["timestamp"].JStr? && DateTimeText(f["timestamp"].s)) ==> r.Err?
    ensures r.Ok? && "timestamp" in f ==> f["timestamp"] == JStr(r.value.timestamp) && DateTimeText(r.value.timestamp)
    ensures r.Ok? ==>
      && f["event_type"] == JStr(r.value.eventType) && f["agent_name"] == JStr(r.value.agentName)
      && f["agent_version"] == JStr(r.value.agentVersion)
      && r.value.promptVersion == (if "prompt_version" in f && f["prompt_version"].JStr? then Some(f["prompt_version"].s) else None)
      && ("meta" in f ==> f["meta"] == JObject(r.value.meta))
    ensures r.Ok? <==>
      && HasStr(f, "event_type") && HasStr(f, "agent_name") && HasStr(f, "agent_version")
      && ("timestamp" !in f || (f["timestamp"].JStr? && DateTimeText(f["timestamp"].s)))
      && HasStr(f, "step_id")
      && ("prompt_version" !in f || f["prompt_version"].JNull? || f["prompt_version"].JStr?)
      && ("meta" !in f || f["meta"].JObject?)
      && "payload" in f && f["payload"].JObject?
  {
    var eventType :- Str(f, "event_type");
    var agentName :- Str(f, "agent_name");
    var agentVersion :- Str(f, "agent_version");
    var timestamp :- DateTimeOr(f, "timestamp", now);
    var stepId :- Str(f, "step_id");
    var promptVersion :- OptStr(f, "prompt_version");
    var meta :- DictOr(f, "meta");
    var payload :- Dict(f, "payload");
    Ok(AgentEvent(eventType, agentName, agentVersion, timestamp, stepId, promptVersion, meta, payload))
  }

  /** The keyword arguments that describe an event completely, its timestamp as text. */
  function AgentEventFields(e: AgentEvent): Fields {
    map[
      "event_type" := JStr(e.eventType), "agent_name" := JStr(e.agentName),
      "agent_version" := JStr(e.agentVersion), "timestamp" := JStr(e.timestamp),
      "step_id" := JStr(e.stepId), "prompt_version" := OptJson(e.promptVersion),
      "meta" := JObject(e.meta), "payload" := JObject(e.payload)]
  }

  /** Every event whose timestamp is date-time text is rebuilt from its own fields, whatever the clock says. */
  lemma AgentEventRoundTrip(e: AgentEvent, now: string)
    requires DateTimeText(e.timestamp)
    ensures NewAgentEvent(AgentEventFields(e), now) == Ok(e)
  {
    var f := AgentEventFields(e);
    assert HasStr(f, "event_type") && HasStr(f, "agent_name") && HasStr(f, "agent_version") && HasStr(f, "step_id");
    assert f["timestamp"] == JStr(e.timestamp) && f["prompt_version"] == OptJson(e.promptVersion);
    assert f["meta"] == JObject(e.meta) && f["payload"] == JObject(e.payload);
    var r := NewAgentEvent(f, now);
    assert r.Ok?;
    assert r.value.promptVersion == e.promptVersion;
  }

}

/** utils/schemas.py: the event status enumeration and the seven-field event of the logging helpers. */
module EventSchemas {
  import opened Wrappers
  import opened JsonValues
  import opened PydanticFields

  datatype AgentEventStatus = Success | Error | Failed | Warning | Skipped

  /** The enum member's string value. */
  function StatusValue(s: AgentEventStatus): string {
    match s
    case Success => "success"
    case Error => "error"
    case Failed => "failed"
    case Warning => "warning"
    case Skipped => "skipped"
  }

  /** `AgentEventStatus(text)`: the member with that value, if any. */
  function ParseStatus(text: string): (r: Option<AgentEventStatus>)
    ensures r.Some? ==> StatusValue(r.value) == text
  {
    if text == "success" then Some(Success)
    else if text == "error" then Some(Error)
    else if text == "failed" then Some(Failed)
    else if text == "warning" then Some(Warning)
    else if text == "skipped" then Some(Skipped)
    else None
  }

  /** The five members have five distinct values, and each value names its member. */
  lemma StatusValuesDistinct(s: AgentEventStatus, t: AgentEventStatus)
    ensures StatusValue(s) == StatusValue(t) <==> s == t
    ensures ParseStatus(StatusValue(s)) == Some(s)
  {
  }

  /** `AgentEvent`: all seven fields are required; `status` may be a member or any string. */
  datatype AgentEvent = AgentEvent(
    eventId: string,
    agentName: string,
    agentVersion: string,
    eventType: string,
    status: string,
    timestamp: string,
    payload: seq<(string, Json)>)

  const AgentEventKeys: set<string> :=
    {"event_id", "agent_name", "agent_version", "event_type", "status", "timestamp", "payload"}

  function NewAgentEvent(f: Fields): (r: Result<AgentEvent>)
    ensures r.Ok? <==>
      && HasStr(f, "event_id") && HasStr(f, "agent_name") && HasStr(f, "agent_version")
      && HasStr(f, "event_type") && HasStr(f, "status") && HasStr(f, "timestamp")
      && "payload" in f && f["payload"].JObject?
    ensures r.Err? ==> r.error.ValidationError? && r.error.field in AgentEventKeys
  {
    var eventId :- Str(f, "event_id");
    var agentName :- Str(f, "agent_name");
    var agentVersion :- Str(f, "agent_version");
    var eventType :- Str(f, "event_type");
    var status :- Str(f, "status");
    var timestamp :- Str(f, "timestamp");
    var payload :- Dict(f, "payload");
    Ok(AgentEvent(eventId, agentName, agentVersion, eventType, status, timestamp, payload))
  }

  /** An event without `event_id` is rejected, whatever else it carries. */
  lemma EventIdRequired(f: Fields)
    requires "event_id" !in f
    ensures NewAgentEvent(f) == Err(ValidationError("event_id"))
  {
  }
}
