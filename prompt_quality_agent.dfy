/**
 * agents/prompt_quality_agent.py: a quality agent that picks its scoring matrix from a registry by
 * name, scores a prompt, and reports the pass decision as an `AgentEvent` of the `agents` package.
 */
module PromptQualityAgent {
  import opened Wrappers
  import opened Text
  import opened JsonValues
  import opened PydanticFields
  import AgentSchemas

  /** The dotted name of a module of the `config.scoring` package. */
  function ScoringModule(moduleName: string): (r: string)
    ensures StartsWith(r, "config.scoring.")
  {
    PrefixOfConcat("config.scoring.", moduleName);
    "config.scoring." + moduleName
  }

  /** The dotted path of a matrix attribute inside a module of the `config.scoring` package. */
  function MatrixPath(moduleName: string, attribute: string): string {
    ScoringModule(moduleName) + "." + attribute
  }

  /** `SCORING_MATRICES`: matrix name to the dotted path of the module attribute holding it. */
  const ScoringMatrices: map<string, string> := map[
    "raw" := MatrixPath("raw_scoring_matrix", "RAW_SCORING_MATRIX"),
    "template" := MatrixPath("template_scoring_matrix", "TEMPLATE_SCORING_MATRIX"),
    "feature" := MatrixPath("feature_scoring_matrix", "FEATURE_SCORING_MATRIX"),
    "usecase" := MatrixPath("usecase_scoring_matrix", "USECASE_SCORING_MATRIX"),
    "industry" := MatrixPath("industry_scoring_matrix", "INDUSTRY_SCORING_MATRIX"),
    "contact" := MatrixPath("contact_scoring_matrix", "CONTACT_SCORING_MATRIX")]

  /** `mod_path, var_name = s.rsplit(".", 1)`: the unpacking fails when `s` holds no dot. */
  function RSplitDot(s: string): (r: Result<(string, string)>)
    ensures r.Ok? <==> '.' in s
    ensures r.Ok? ==> r.value.0 + "." + r.value.1 == s && '.' !in r.value.1
    ensures r.Err? ==> r.error.ValueError?
  {
    var i := RFindChar(s, '.');
    if i == -1 then Err(ValueError("not enough values to unpack (expected 2, got 1)"))
    else
      assert s == s[..i] + "." + s[i + 1..];
      Ok((s[..i], s[i + 1..]))
  }

  /** Splitting at the last dot undoes `MatrixPath` when the attribute name holds no dot. */
  lemma SplitMatrixPath(moduleName: string, attribute: string)
    requires '.' !in attribute
    ensures RSplitDot(MatrixPath(moduleName, attribute)) == Ok((ScoringModule(moduleName), attribute))
  {
    var s := MatrixPath(moduleName, attribute);
    var prefix := ScoringModule(moduleName);
    var j := |prefix|;
    assert s == prefix + "." + attribute;
    assert s[j] == '.' && s[j + 1..] == attribute;
    var i := RFindChar(s, '.');
    assert i == j;
    assert s[..j] == prefix;
  }

  /** Every registry entry splits into a module of `config.scoring` and a `*_SCORING_MATRIX` name. */
  lemma RegistrySplits(name: string)
    requires name in ScoringMatrices
    ensures RSplitDot(ScoringMatrices[name]).Ok?
    ensures StartsWith(RSplitDot(ScoringMatrices[name]).value.0, "config.scoring.")
  {
    var (moduleName, attribute) :=
      if name == "raw" then ("raw_scoring_matrix", "RAW_SCORING_MATRIX")
      else if name == "template" then ("template_scoring_matrix", "TEMPLATE_SCORING_MATRIX")
      else if name == "feature" then ("feature_scoring_matrix", "FEATURE_SCORING_MATRIX")
      else if name == "usecase" then ("usecase_scoring_matrix", "USECASE_SCORING_MATRIX")
      else if name == "industry" then ("industry_scoring_matrix", "INDUSTRY_SCORING_MATRIX")
      else ("contact_scoring_matrix", "CONTACT_SCORING_MATRIX");
    assert ScoringMatrices[name] == MatrixPath(moduleName, attribute);
    SplitKeepsPackage(moduleName, attribute);
  }

  /** Whatever the attribute, the last dot of a matrix path comes after the package prefix. */
  lemma SplitKeepsPackage(moduleName: string, attribute: string)
    ensures RSplitDot(MatrixPath(moduleName, attribute)).Ok?
    ensures StartsWith(RSplitDot(MatrixPath(moduleName, attribute)).value.0, "config.scoring.")
  {
    var s := MatrixPath(moduleName, attribute);
    var prefix := ScoringModule(moduleName);
    var j := |prefix|;
    assert s == prefix + "." + attribute;
    assert s[j] == '.';
    var i := RFindChar(s, '.');
    assert i >= j;
    assert s[..i][..15] == prefix[..15];
  }

  /**
   * The "raw" entry asks for `RAW_SCORING_MATRIX`, while config/scoring/raw_scoring_matrix.py
   * defines `SCORING_MATRIX`: the import succeeds only if the loader finds that other name.
   */
  lemma RawEntryNamesOtherAttribute()
    ensures RSplitDot(ScoringMatrices["raw"]) == Ok((ScoringModule("raw_scoring_matrix"), "RAW_SCORING_MATRIX"))
    ensures RSplitDot(ScoringMatrices["raw"]).value.1 != "SCORING_MATRIX"
  {
    SplitMatrixPath("raw_scoring_matrix", "RAW_SCORING_MATRIX");
  }

  /** The agent once constructed: the matrix name it was given and the matrix it imported. */
  datatype Agent = Agent(scoringMatrixName: string, scoringMatrix: Json)

  /**
   * `PromptQualityAgent(scoring_matrix_name=name)`; `load(module, attribute)` stands for
   * importing the module and reading the attribute, which may fail.
   */
  function NewAgent(name: string, load: (string, string) -> Result<Json>): (r: Result<Agent>)
    ensures name !in ScoringMatrices ==> r == Err(ValueError("Unknown scoring matrix: " + name))
    ensures name in ScoringMatrices ==>
      exists modPath, varName :: modPath + "." + varName == ScoringMatrices[name] && '.' !in varName
        && (r.Ok? <==> load(modPath, varName).Ok?)
        && (r.Ok? ==> r.value == Agent(name, load(modPath, varName).value))
  {
    if name !in ScoringMatrices then Err(ValueError("Unknown scoring matrix: " + name))
    else
      RegistrySplits(name);
      var (modPath, varName) := RSplitDot(ScoringMatrices[name]).value;
      match load(modPath, varName)
      case Err(e) => Err(e)
      case Ok(matrix) => Ok(Agent(name, matrix))
  }

  /** An unknown name is refused before anything is imported: the loader is never consulted. */
  lemma UnknownNameNeverLoads(name: string, load1: (string, string) -> Result<Json>,
                              load2: (string, string) -> Result<Json>)
    requires name !in ScoringMatrices
    ensures NewAgent(name, load1) == NewAgent(name, load2)
    ensures NewAgent(name, load1).Err? && NewAgent(name, load1).error.ValueError?
  {
  }

  /** `_score_prompt`: a placeholder that finds no issue in any prompt. */
  function ScorePrompt(agent: Agent, promptText: string): (r: (real, seq<string>))
    ensures r.0 == 1.0 && r.1 == []
  {
    (1.0, [])
  }

  /** A list of strings as Python prints it (`str(issues)`), quoting each item. */
  function ListText(items: seq<string>): string {
    "[" + ItemsText(items) + "]"
  }

  function ItemsText(items: seq<string>): string
    decreases |items|
  {
    if items == [] then ""
    else if |items| == 1 then "'" + items[0] + "'"
    else "'" + items[0] + "', " + ItemsText(items[1..])
  }

  /** The pass decision of `run` for a score and its issues. */
  datatype Decision = Decision(passed: bool, feedback: string, status: string)

  function Decide(score: real, issues: seq<string>): (d: Decision)
    ensures d.passed <==> score >= 0.9
    ensures d.feedback == "" <==> d.passed
    ensures !d.passed ==> d.feedback == "Issues: " + ListText(issues)
    ensures d.status == "pass" <==> d.passed
    ensures d.status == "fail" <==> !d.passed
  {
    var passed := score >= 0.9;
    Decision(passed, if passed then "" else "Issues: " + ListText(issues), if passed then "pass" else "fail")
  }

  /** The payload `run` assembles. */
  function Payload(agent: Agent, score: real, issues: seq<string>): seq<(string, Json)> {
    var d := Decide(score, issues);
    [("score", JNum(score)), ("matrix", agent.scoringMatrix), ("feedback", JStr(d.feedback)),
     ("pass_threshold", JBool(d.passed)), ("issues", StringList(issues))]
  }

  /** The keyword arguments `run` passes to `AgentEvent`, as written. */
  function EventArguments(agent: Agent, promptText: string, promptVersion: string, meta: seq<(string, Json)>): Fields {
    var (score, issues) := ScorePrompt(agent, promptText);
    map[
      "name" := JStr("PromptQualityAgent"), "version" := JStr("1.1.0"), "timestamp" := JNull,
      "step" := JStr("quality_evaluation"), "prompt_version" := JStr(promptVersion),
      "status" := JStr(Decide(score, issues).status), "payload" := JObject(Payload(agent, score, issues)),
      "meta" := JObject(meta)]
  }

  /**
   * `run(prompt_text, base_name, iteration, prompt_version, meta)` as written; `base_name` and
   * `iteration` are unused, `now` is the event clock.
   */
  function RunAsWritten(agent: Agent, promptText: string, promptVersion: string, meta: seq<(string, Json)>,
                        now: string): Result<AgentSchemas.AgentEvent>
  {
    AgentSchemas.NewAgentEvent(EventArguments(agent, promptText, promptVersion, meta), now)
  }

  /**
   * As written, `run` never returns: the event record declares none of `name`, `version`, `step`
   * and `status`, and lacks the required `event_type`, so validation always fails.
   */
  lemma RunAsWrittenAlwaysFails(agent: Agent, promptText: string, promptVersion: string,
                                meta: seq<(string, Json)>, now: string)
    ensures RunAsWritten(agent, promptText, promptVersion, meta, now) == Err(ValidationError("event_type"))
  {
  }

  /**
   * `run` with the record's own field names: the step becomes the event type, the name and version
   * those of the agent, and the status travels in the payload; the timestamp is left to its default.
   */
  function Run(agent: Agent, promptText: string, promptVersion: string, meta: seq<(string, Json)>,
               now: string): (r: Result<AgentSchemas.AgentEvent>)
  {
    var (score, issues) := ScorePrompt(agent, promptText);
    var payload := Payload(agent, score, issues) + [("status", JStr(Decide(score, issues).status))];
    AgentSchemas.NewAgentEvent(map[
      "event_type" := JStr("quality_evaluation"), "agent_name" := JStr("PromptQualityAgent"),
      "agent_version" := JStr("1.1.0"), "prompt_version" := JStr(promptVersion),
      "payload" := JObject(payload), "meta" := JObject(meta)], now)
  }

  /** The corrected `run` always yields an event, and every prompt passes with no feedback. */
  lemma RunReportsPass(agent: Agent, promptText: string, promptVersion: string, meta: seq<(string, Json)>,
                       now: string)
    ensures Run(agent, promptText, promptVersion, meta, now) == Ok(AgentSchemas.AgentEvent(
      "quality_evaluation", "PromptQualityAgent", "1.1.0", now, None, Some(promptVersion), Some(meta),
      [("score", JNum(1.0)), ("matrix", agent.scoringMatrix), ("feedback", JStr("")),
       ("pass_threshold", JBool(true)), ("issues", JList([])), ("status", JStr("pass"))]))
  {
    assert StringList([]) == JList([]);
    var payload := Payload(agent, 1.0, []) + [("status", JStr("pass"))];
    assert payload == [("score", JNum(1.0)), ("matrix", agent.scoringMatrix), ("feedback", JStr("")),
       ("pass_threshold", JBool(true)), ("issues", JList([])), ("status", JStr("pass"))];
    var f: Fields := map[
      "event_type" := JStr("quality_evaluation"), "agent_name" := JStr("PromptQualityAgent"),
      "agent_version" := JStr("1.1.0"), "prompt_version" := JStr(promptVersion),
      "payload" := JObject(payload), "meta" := JObject(meta)];
    assert "timestamp" !in f && "step_id" !in f;
    assert AgentSchemas.NewAgentEvent(f, now).Ok?;
  }
}
