/**
 * agents/controller_agent.py: the controller that decides, from how well an improved prompt takes
 * up the previous feedback, whether the improvement loop passes, retries or aborts.
 */
module ControllerAgent {
  import opened Wrappers
  import opened Text
  import opened JsonValues
  import opened PydanticFields
  import AgentSchemas

  /** How many of the words occur in the prompt as substrings; repeated words count each time. */
  function Present(words: seq<string>, prompt: string): (n: nat)
    ensures n <= |words|
    ensures n == |words| <==> AllPresent(words, prompt)
    ensures n == 0 <==> forall i :: 0 <= i < |words| ==> !Contains(prompt, words[i])
    decreases |words|
  {
    if words == [] then 0
    else
      var rest := Present(words[1..], prompt);
      assert forall i :: 1 <= i < |words| ==> words[i] == words[1..][i - 1];
      (if Contains(prompt, words[0]) then 1 else 0) + rest
  }

  /** Every word occurs in the prompt. */
  predicate AllPresent(words: seq<string>, prompt: string) {
    forall i :: 0 <= i < |words| ==> Contains(prompt, words[i])
  }

  /** A count out of a positive total is a ratio in [0, 1]; all of the total is exactly 1, none is 0. */
  lemma Ratio(present: nat, total: nat)
    requires 0 < total && present <= total
    ensures 0.0 <= present as real / total as real <= 1.0
    ensures present == total ==> present as real / total as real == 1.0
    ensures present == 0 ==> present as real / total as real == 0.0
  {
    var t := total as real;
    assert (present as real / t) * t == present as real;
  }

  const NoFeedbackRationale := "No feedback given; prompt passes by default."
  const NoWordsRationale := "No feedback to align with."

  /**
   * `_alignment_check(improved_prompt, previous_feedback)`, given the value stored under
   * "feedback" (None when the key is missing or holds None).
   */
  function AlignmentCheck(prompt: string, feedback: Option<string>): (r: (real, string))
    ensures feedback.None? || feedback.value == [] ==> r == (1.0, NoFeedbackRationale)
    ensures feedback.Some? && feedback.value != [] && Words(feedback.value) == [] ==> r == (1.0, NoWordsRationale)
    ensures feedback.Some? && Words(feedback.value) != [] ==>
      r.0 == Present(Words(feedback.value), prompt) as real / |Words(feedback.value)| as real
    ensures 0.0 <= r.0 <= 1.0
  {
    if feedback.None? || feedback.value == [] then (1.0, NoFeedbackRationale)
    else
      var words := Words(feedback.value);
      if |words| == 0 then (1.0, NoWordsRationale)
      else
        var present := Present(words, prompt);
        var total := |words|;
        Ratio(present, total);
        (present as real / total as real,
         "Alignment based on feedback keyword presence (" + NatToDecimal(present) + "/" + NatToDecimal(total) + ").")
  }

  /** The action for an alignment score. */
  function Action(score: real): (action: string)
    ensures action == "pass" <==> score >= 0.85
    ensures action == "retry" <==> 0.4 <= score < 0.85
    ensures action == "abort" <==> score < 0.4
  {
    if score >= 0.85 then "pass" else if score >= 0.4 then "retry" else "abort"
  }

  /** Alignment is 1.0, so the decision is to pass, when no feedback words exist or all occur. */
  lemma FullAlignmentPasses(prompt: string, feedback: Option<string>)
    requires feedback.Some? ==> AllPresent(Words(feedback.value), prompt)
    ensures AlignmentCheck(prompt, feedback).0 == 1.0
    ensures Action(AlignmentCheck(prompt, feedback).0) == "pass"
  {
    if feedback.Some? && Words(feedback.value) != [] {
      var words := Words(feedback.value);
      assert Present(words, prompt) == |words|;
      Ratio(|words|, |words|);
    }
  }

  /** Alignment is 0.0, so the decision is to abort, when no feedback word occurs. */
  lemma NoAlignmentAborts(prompt: string, feedback: string)
    requires Words(feedback) != []
    requires forall i :: 0 <= i < |Words(feedback)| ==> !Contains(prompt, Words(feedback)[i])
    ensures Action(AlignmentCheck(prompt, Some(feedback)).0) == "abort"
  {
    assert feedback != [];
    Ratio(0, |Words(feedback)|);
  }

  /** `meta.get("step_id", "")` as the `Optional[str]` field it is given to. */
  function StepId(meta: seq<(string, Json)>): Result<Option<string>> {
    match Lookup(meta, "step_id")
    case None => Ok(Some(""))
    case Some(JNull) => Ok(None)
    case Some(JStr(s)) => Ok(Some(s))
    case Some(_) => Err(ValidationError("step_id"))
  }

  /**
   * `ControllerAgent(agent_name, agent_version).run(improved_prompt, previous_feedback,
   * prompt_version, meta)`; `meta` None stands for a falsy `meta`, `now` for the event clock.
   */
  function Run(name: string, version: string, prompt: string, feedback: Option<string>,
               promptVersion: Option<string>, meta: Option<seq<(string, Json)>>, now: string)
    : (r: Result<AgentSchemas.AgentEvent>)
    ensures r.Ok? <==> StepId(if meta.None? then [] else meta.value).Ok?
    ensures r.Ok? ==>
      && r.value.eventType == "controller_decision" && r.value.agentName == name && r.value.agentVersion == version
      && r.value.promptVersion == promptVersion && r.value.meta == Some(if meta.None? then [] else meta.value)
      && r.value.stepId == StepId(if meta.None? then [] else meta.value).value
    ensures r.Ok? ==> var (score, rationale) := AlignmentCheck(prompt, feedback);
      r.value.payload == AgentSchemas.ControllerResultDict(AgentSchemas.ControllerResult(Action(score), score, rationale,
        Some([("meta", JObject(if meta.None? then [] else meta.value)), ("prompt_version", OptJson(promptVersion))])))
  {
    var m := if meta.None? then [] else meta.value;
    var (score, rationale) := AlignmentCheck(prompt, feedback);
    var result := AgentSchemas.ControllerResult(Action(score), score, rationale,
      Some([("meta", JObject(m)), ("prompt_version", OptJson(promptVersion))]));
    match StepId(m)
    case Err(e) => Err(e)
    case Ok(stepId) =>
      Ok(AgentSchemas.AgentEvent("controller_decision", name, version, now, stepId, promptVersion, Some(m),
        AgentSchemas.ControllerResultDict(result)))
  }

  /** Without a `step_id` in meta the event's step is "". */
  lemma RunDefaultStep(name: string, version: string, prompt: string, feedback: Option<string>,
                       promptVersion: Option<string>, now: string)
    ensures Run(name, version, prompt, feedback, promptVersion, None, now).Ok?
    ensures Run(name, version, prompt, feedback, promptVersion, None, now).value.stepId == Some("")
  {
  }
}
