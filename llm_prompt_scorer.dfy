/**
 * agents/llm_prompt_scorer.py: scores a prompt against a matrix of weighted criteria. Each
 * criterion passes when its required snippet occurs in the prompt (ignoring case); the score is the
 * passed weight over the total weight, the prompt passes at 0.9, and the feedback of every failed
 * criterion is collected. The outcome is logged as an event of utils/schemas.py.
 */
module LlmPromptScorer {
  import opened Wrappers
  import opened Text
  import opened JsonValues
  import opened PydanticFields
  import EventSchemas

  /** A criterion of the matrix: its weight, its `required_snippet` and its `feedback`. */
  datatype Rule = Rule(weight: real, snippet: Option<string>, feedback: Option<string>)

  /** The scoring matrix, in dict order; a dict never holds a key twice. */
  type Matrix = seq<(string, Rule)>

  predicate DistinctKeys(m: Matrix) {
    forall i, j :: 0 <= i < j < |m| ==> m[i].0 != m[j].0
  }

  /** One criterion's check: a non-empty snippet must occur in the content, ignoring case. */
  predicate Passes(rule: Rule, content: string) {
    rule.snippet.None? || rule.snippet.value == [] || Contains(Lower(content), Lower(rule.snippet.value))
  }

  /** The results `_evaluate_criteria` is to produce: one boolean per criterion, in matrix order. */
  function Evaluations(m: Matrix, content: string): (results: seq<(string, bool)>)
    ensures |results| == |m|
  {
    seq(|m|, i requires 0 <= i < |m| => (m[i].0, Passes(m[i].1, content)))
  }

  /** `_evaluate_criteria(prompt_content)`. */
  method EvaluateCriteria(m: Matrix, content: string) returns (results: seq<(string, bool)>)
    requires DistinctKeys(m)
    ensures results == Evaluations(m, content)
  {
    results := [];
    var lowered := Lower(content);
    for k := 0 to |m|
      invariant results == Evaluations(m[..k], content)
    {
      var (key, rule) := m[k];
      var passed;
      if rule.snippet.Some? && rule.snippet.value != [] {
        passed := Contains(lowered, Lower(rule.snippet.value));
      } else {
        passed := true;
      }
      results := results + [(key, passed)];
    }
    assert m[..|m|] == m;
  }

  /** Results that belong to the matrix: the same keys in the same order. */
  predicate Aligned(m: Matrix, results: seq<(string, bool)>) {
    |results| == |m| && forall i :: 0 <= i < |m| ==> results[i].0 == m[i].0
  }

  predicate NonNegativeWeights(m: Matrix) {
    forall i :: 0 <= i < |m| ==> m[i].1.weight >= 0.0
  }

  predicate AllPassed(results: seq<(string, bool)>) {
    forall i :: 0 <= i < |results| ==> results[i].1
  }

  /** Σ of all weights. */
  function TotalWeight(m: Matrix): real {
    if m == [] then 0.0 else TotalWeight(m[..|m| - 1]) + m[|m| - 1].1.weight
  }

  /** Σ of the weights of the passed criteria. */
  function PassedWeight(m: Matrix, results: seq<(string, bool)>): real
    requires Aligned(m, results)
  {
    if m == [] then 0.0
    else
      PassedWeight(m[..|m| - 1], results[..|m| - 1])
      + (if results[|m| - 1].1 then m[|m| - 1].1.weight else 0.0)
  }

  /** With non-negative weights the passed weight lies between 0 and the total, and is the total when all pass. */
  lemma {:induction false} PassedWeightBounds(m: Matrix, results: seq<(string, bool)>)
    requires Aligned(m, results)
    ensures NonNegativeWeights(m) ==> 0.0 <= PassedWeight(m, results) <= TotalWeight(m)
    ensures AllPassed(results) ==> PassedWeight(m, results) == TotalWeight(m)
    decreases |m|
  {
    if m != [] {
      PassedWeightBounds(m[..|m| - 1], results[..|m| - 1]);
    }
  }

  /** `_weighted_score(results)`. */
  function WeightedScore(m: Matrix, results: seq<(string, bool)>): (score: real)
    requires Aligned(m, results)
    ensures TotalWeight(m) <= 0.0 ==> score == 0.0
    ensures NonNegativeWeights(m) ==> 0.0 <= score <= 1.0
    ensures TotalWeight(m) > 0.0 && AllPassed(results) ==> score == 1.0
  {
    PassedWeightBounds(m, results);
    var total := TotalWeight(m);
    if total > 0.0 then
      var passed := PassedWeight(m, results);
      RatioBounds(passed, total);
      passed / total
    else 0.0
  }

  /** A part of a positive whole, divided by the whole, lies between 0 and 1 and is 1 for the whole. */
  lemma RatioBounds(part: real, whole: real)
    requires whole > 0.0
    ensures 0.0 <= part <= whole ==> 0.0 <= part / whole <= 1.0
    ensures part == whole ==> part / whole == 1.0
  {
    assert part / whole * whole == part;
  }

  /** The pass threshold written into the scorer. */
  const Threshold: real := 0.9

  /**
   * The feedback list: `self.scoring_matrix[k]["feedback"]` for each failed criterion, in order;
   * a failed criterion without feedback raises KeyError.
   */
  function Feedback(m: Matrix, results: seq<(string, bool)>): (r: Result<seq<string>>)
    requires Aligned(m, results)
    ensures r.Ok? <==> forall i :: 0 <= i < |m| && !results[i].1 ==> m[i].1.feedback.Some?
    ensures r.Err? ==> r.error == KeyError("feedback")
    ensures r.Ok? ==> |r.value| == Failures(results)
    ensures r.Ok? ==> forall i :: 0 <= i < |m| && !results[i].1 ==> m[i].1.feedback.value in r.value
    ensures r.Ok? ==> forall s :: s in r.value ==> exists i :: 0 <= i < |m| && !results[i].1 && m[i].1.feedback == Some(s)
    decreases |m|
  {
    if m == [] then Ok([])
    else
      var rest := Feedback(m[1..], results[1..]);
      assert forall i :: 1 <= i < |m| ==> m[i] == m[1..][i - 1] && results[i] == results[1..][i - 1];
      if results[0].1 then rest
      else if m[0].1.feedback.None? then Err(KeyError("feedback"))
      else if rest.Err? then rest
      else Ok([m[0].1.feedback.value] + rest.value)
  }

  /** The number of failed criteria. */
  /** One criterion: nothing when it is met, its feedback when it is not, KeyError when it has none. */
  lemma FeedbackOne(c: (string, Rule), res: (string, bool))
    requires res.0 == c.0
    ensures Feedback([c], [res]) ==
      if res.1 then Ok([]) else if c.1.feedback.None? then Err(KeyError("feedback")) else Ok([c.1.feedback.value])
  {
    assert [c][1..] == [] && [res][1..] == [];
    assert Feedback([c][1..], [res][1..]) == Ok([]);
    if c.1.feedback.Some? {
      assert [c.1.feedback.value] + [] == [c.1.feedback.value];
    }
  }

  /**
   * The feedback follows the matrix order: the feedback of a matrix split in two is that of the
   * first part followed by that of the second, and a KeyError in either part is the error.
   */
  lemma {:induction false} FeedbackConcat(m1: Matrix, r1: seq<(string, bool)>, m2: Matrix, r2: seq<(string, bool)>)
    requires Aligned(m1, r1) && Aligned(m2, r2)
    ensures Aligned(m1 + m2, r1 + r2)
    ensures Feedback(m1 + m2, r1 + r2) ==
      if Feedback(m1, r1).Err? || Feedback(m2, r2).Err? then Err(KeyError("feedback"))
      else Ok(Feedback(m1, r1).value + Feedback(m2, r2).value)
    decreases |m1|
  {
    var m, r := m1 + m2, r1 + r2;
    assert forall i :: 0 <= i < |m| ==> r[i].0 == m[i].0 by {
      forall i | 0 <= i < |m| ensures r[i].0 == m[i].0 {
        if i < |m1| { assert m[i] == m1[i] && r[i] == r1[i]; }
        else { assert m[i] == m2[i - |m1|] && r[i] == r2[i - |r1|]; }
      }
    }
    if m1 == [] {
      assert m == m2 && r == r2 && Feedback(m1, r1) == Ok([]);
      if Feedback(m2, r2).Ok? {
        assert [] + Feedback(m2, r2).value == Feedback(m2, r2).value;
      }
    } else {
      assert m[1..] == m1[1..] + m2 && r[1..] == r1[1..] + r2;
      assert Aligned(m1[1..], r1[1..]) by {
        assert forall i :: 0 <= i < |m1| - 1 ==> m1[1..][i] == m1[i + 1] && r1[1..][i] == r1[i + 1];
      }
      FeedbackConcat(m1[1..], r1[1..], m2, r2);
      assert m[0] == m1[0] && r[0] == r1[0];
      if !r1[0].1 && m1[0].1.feedback.Some? && Feedback(m1[1..], r1[1..]).Ok? && Feedback(m2, r2).Ok? {
        assert [m1[0].1.feedback.value] + (Feedback(m1[1..], r1[1..]).value + Feedback(m2, r2).value)
            == ([m1[0].1.feedback.value] + Feedback(m1[1..], r1[1..]).value) + Feedback(m2, r2).value;
      }
    }
  }

  function Failures(results: seq<(string, bool)>): nat {
    if results == [] then 0 else (if results[0].1 then 0 else 1) + Failures(results[1..])
  }

  /** A prompt that meets every criterion gets no feedback. */
  lemma {:induction false} NoFailuresNoFeedback(results: seq<(string, bool)>)
    requires AllPassed(results)
    ensures Failures(results) == 0
    decreases |results|
  {
    if results != [] {
      NoFailuresNoFeedback(results[1..]);
    }
  }

  /** What scoring a prompt yields: the per-criterion results, the score, the decision and the feedback. */
  datatype Scoring = Scoring(results: seq<(string, bool)>, score: real, passed: bool, feedback: seq<string>)

  /** The computation inside `run`'s `try`, on the prompt file's content. */
  function Score(m: Matrix, content: string): (r: Result<Scoring>)
    ensures r.Ok? ==> r.value.results == Evaluations(m, content)
    ensures r.Ok? ==> r.value.score == WeightedScore(m, Evaluations(m, content))
    ensures r.Ok? ==> (r.value.passed <==> r.value.score >= Threshold)
    ensures r.Ok? <==> Feedback(m, Evaluations(m, content)).Ok?
    ensures r.Ok? ==> r.value.feedback == Feedback(m, Evaluations(m, content)).value
  {
    var results := Evaluations(m, content);
    var score := WeightedScore(m, results);
    match Feedback(m, results)
    case Err(e) => Err(e)
    case Ok(feedback) => Ok(Scoring(results, score, score >= Threshold, feedback))
  }

  /** A prompt meeting every criterion of a matrix with positive total weight passes with no feedback. */
  lemma FullMarks(m: Matrix, content: string)
    requires TotalWeight(m) > 0.0
    requires forall i :: 0 <= i < |m| ==> Passes(m[i].1, content)
    ensures Score(m, content).Ok?
    ensures Score(m, content).value.score == 1.0 && Score(m, content).value.passed
    ensures Score(m, content).value.feedback == []
  {
    var results := Evaluations(m, content);
    assert AllPassed(results);
    NoFailuresNoFeedback(results);
  }

  /** The `payload` dict of the success event. */
  function Payload(s: Scoring): seq<(string, Json)> {
    [("criteria_results", JObject(seq(|s.results|, i requires 0 <= i < |s.results| => (s.results[i].0, JBool(s.results[i].1))))),
     ("score", JNum(s.score)), ("pass_threshold", JNum(Threshold)), ("passed", JBool(s.passed)),
     ("feedback", StringList(s.feedback))]
  }

  /** The keyword arguments `run` gives the event of utils/schemas.py; `eventId` None where it gives none. */
  function EventFields(eventId: Option<string>, eventType: string, status: string, now: string, baseName: string,
                       payload: seq<(string, Json)>, meta: seq<(string, Json)>): Fields
  {
    var f := map[
      "event_type" := JStr(eventType), "agent_name" := JStr("LLMPromptScorer"), "agent_version" := JStr("2.1.0"),
      "timestamp" := JStr(now), "step_id" := JStr("scoring"), "prompt_version" := JStr(baseName),
      "status" := JStr(status), "payload" := JObject(payload), "meta" := JObject(meta)];
    if eventId.Some? then f["event_id" := JStr(eventId.value)] else f
  }

  /** The `meta` dict of both events. */
  function Meta(m: Matrix, iteration: int): seq<(string, Json)> {
    [("iteration", JNum(iteration as real)),
     ("scoring_matrix_keys", StringList(seq(|m|, i requires 0 <= i < |m| => m[i].0)))]
  }

  /** The name of an exception's class, which the error event carries. */
  function ErrorName(e: Error): string {
    match e
    case ValueError(_) => "ValueError"
    case TypeError(_) => "TypeError"
    case AttributeError(_) => "AttributeError"
    case IndexError => "IndexError"
    case KeyError(_) => "KeyError"
    case FileNotFound(_) => "FileNotFoundError"
    case SameFileError => "SameFileError"
    case AssertionError(_) => "AssertionError"
    case ValidationError(_) => "ValidationError"
    case ImportFailure(_) => "ImportError"
    case AgentFailure(_) => "Exception"
  }

  /** What `run` does: the events appended to the workflow log, and the event returned or the exception raised. */
  datatype RunOutcome = RunOutcome(logged: seq<EventSchemas.AgentEvent>, result: Result<EventSchemas.AgentEvent>)

  /** What `.isoformat` raises on the `str` that `cet_now()` returns. */
  const StrHasNoIsoformat: Error := AttributeError("'str' object has no attribute 'isoformat'")

  /**
   * `run(prompt_path, base_name, iteration, workflow_id)` on the file's content (None when it
   * cannot be read), as written: without a workflow id, the default id is built by calling
   * `.isoformat` on `cet_now()`, a `str`, which raises before the logger exists; with one, the events
   * are built as the source builds them, without an `event_id`.
   */
  function RunAsWritten(m: Matrix, content: Option<string>, baseName: string, iteration: int,
                        workflowId: Option<string>, now: string): RunOutcome
  {
    if workflowId.None? then RunOutcome([], Err(StrHasNoIsoformat))
    else RunWith(None, m, content, baseName, iteration, now)
  }

  /**
   * The default workflow id as intended: the time stamp in seconds with every `:` made a `-`, then
   * `_workflow_` and the first six hex digits of a fresh uuid.
   */
  function DefaultWorkflowId(stamp: string, hex: string): string {
    ReplaceAll(stamp, ":", "-") + "_workflow_" + hex[..if |hex| < 6 then |hex| else 6]
  }

  /** The intended default id keeps the stamp's length, holds no `:`, and ends with the uuid's digits. */
  lemma DefaultWorkflowIdShape(stamp: string, hex: string)
    requires |hex| >= 6
    ensures var id := DefaultWorkflowId(stamp, hex);
      && |id| == |stamp| + 16 && ':' !in id[..|stamp|]
      && (forall i :: 0 <= i < |stamp| && stamp[i] != ':' ==> id[i] == stamp[i])
      && EndsWith(id, "_workflow_" + hex[..6])
  {
    ReplaceCharPointwise(stamp, ':', '-');
    var r := ReplaceAll(stamp, ":", "-");
    var id := DefaultWorkflowId(stamp, hex);
    assert id == r + ("_workflow_" + hex[..6]);
    assert id[..|stamp|] == r;
  }

  /** `run` with the events given an identifier, as utils/schemas.py requires. */
  function Run(eventId: string, m: Matrix, content: Option<string>, baseName: string, iteration: int, now: string): RunOutcome {
    RunWith(Some(eventId), m, content, baseName, iteration, now)
  }

  /** The shared body: build the event inside `try`; on any exception log an error event and re-raise. */
  function RunWith(eventId: Option<string>, m: Matrix, content: Option<string>, baseName: string, iteration: int,
                   now: string): RunOutcome
  {
    var attempt :=
      match content
      case None => Err(FileNotFound(baseName))
      case Some(text) =>
        match Score(m, text)
        case Err(e) => Err(e)
        case Ok(s) => EventSchemas.NewAgentEvent(EventFields(eventId, "llm_prompt_score", "success", now, baseName, Payload(s), Meta(m, iteration)));
    match attempt
    case Ok(event) => RunOutcome([event], Ok(event))
    case Err(e) =>
      var errorEvent := EventSchemas.NewAgentEvent(
        EventFields(eventId, "error", "error", now, baseName, [("exception", JStr(ErrorName(e)))], Meta(m, iteration)));
      match errorEvent
      case Ok(ev) => RunOutcome([ev], Err(e))
      case Err(e2) => RunOutcome([], Err(e2))
  }

  /**
   * As written, no run logs anything: without a workflow id the default id raises AttributeError,
   * and with one no event can be built, so the missing-`event_id` error escapes.
   */
  lemma RunAsWrittenAlwaysFails(m: Matrix, content: Option<string>, baseName: string, iteration: int,
                                workflowId: Option<string>, now: string)
    ensures var out := RunAsWritten(m, content, baseName, iteration, workflowId, now);
      && (workflowId.None? ==> out == RunOutcome([], Err(StrHasNoIsoformat)))
      && (workflowId.Some? ==> out == RunOutcome([], Err(ValidationError("event_id"))))
  {
    if workflowId.Some? {
      RunWithoutEventId(m, content, baseName, iteration, now);
    }
  }

  /** Built without an event identifier, neither the score event nor the error event validates. */
  lemma RunWithoutEventId(m: Matrix, content: Option<string>, baseName: string, iteration: int, now: string)
    ensures RunWith(None, m, content, baseName, iteration, now) == RunOutcome([], Err(ValidationError("event_id")))
  {
    var meta := Meta(m, iteration);
    var e: Error := FileNotFound(baseName);
    if content.Some? {
      match Score(m, content.value)
      case Err(err) => e := err;
      case Ok(sc) =>
        MissingEventId(EventFields(None, "llm_prompt_score", "success", now, baseName, Payload(sc), meta));
        e := ValidationError("event_id");
    }
    MissingEventId(EventFields(None, "error", "error", now, baseName, [("exception", JStr(ErrorName(e)))], meta));
  }

  /** Without `event_id` no event validates, and the missing field is the error. */
  lemma MissingEventId(f: Fields)
    requires "event_id" !in f
    ensures EventSchemas.NewAgentEvent(f) == Err(ValidationError("event_id"))
  {
  }

  /**
   * With an event identifier, a readable prompt whose failed criteria all have feedback is logged
   * once and returned: a success event whose payload carries the score and `passed` iff score >= 0.9.
   */
  lemma RunLogsScore(eventId: string, m: Matrix, text: string, baseName: string, iteration: int, now: string)
    requires Score(m, text).Ok?
    ensures var out := Run(eventId, m, Some(text), baseName, iteration, now);
      && out.result.Ok? && out.logged == [out.result.value]
      && out.result.value.eventId == eventId && out.result.value.status == "success"
      && out.result.value.payload == Payload(Score(m, text).value)
      && (Score(m, text).value.passed <==> Score(m, text).value.score >= Threshold)
  {
    var s := Score(m, text).value;
    var f := EventFields(Some(eventId), "llm_prompt_score", "success", now, baseName, Payload(s), Meta(m, iteration));
    assert HasStr(f, "event_id") && HasStr(f, "agent_name") && HasStr(f, "agent_version");
    assert HasStr(f, "event_type") && HasStr(f, "status") && HasStr(f, "timestamp");
  }

  /** With an event identifier, an unreadable prompt is logged as one error event and the exception re-raised. */
  lemma RunLogsError(eventId: string, m: Matrix, baseName: string, iteration: int, now: string)
    ensures var out := Run(eventId, m, None, baseName, iteration, now);
      && out.result == Err(FileNotFound(baseName)) && |out.logged| == 1
      && out.logged[0].status == "error" && out.logged[0].eventType == "error"
  {
    var f := EventFields(Some(eventId), "error", "error", now, baseName, [("exception", JStr("FileNotFoundError"))], Meta(m, iteration));
    assert HasStr(f, "event_id") && HasStr(f, "agent_name") && HasStr(f, "agent_version");
    assert HasStr(f, "event_type") && HasStr(f, "status") && HasStr(f, "timestamp");
  }
}
