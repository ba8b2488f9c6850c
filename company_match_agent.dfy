/**
 * agents/matchmaking/company_match_agent.py: the company stage of the pipeline. It hands the
 * industries it is given to the language model, accepts only a JSON array of company names, and
 * logs a success event, or error events followed by the exception, to the workflow's JSONL log.
 */
module CompanyMatch {
  import opened Wrappers
  import opened Text
  import opened Paths
  import opened JsonValues
  import opened JsonSafety
  import opened EventSchemas
  import ListExtractor

  /** The keys `flatten_for_llm` looks under, in order. */
  const FlattenKeys: seq<string> := ["industries", "industry_classes", "sectors"]

  /** `flatten_for_llm`: the list under the first of the keys that holds one, else the input itself. */
  function FlattenForLlm(input: Json): (r: Json)
    ensures !input.JObject? ==> r == input
    ensures r == input || r.JList?
  {
    if !input.JObject? then input
    else
      match ListExtractor.CandidateList(input.entries, FlattenKeys)
      case Some(l) => l
      case None => input
  }

  /** A dict gives the list under the first key, in the order `industries`, `industry_classes`, `sectors`, that holds one. */
  lemma FlattenPicksFirstListKey(entries: seq<(string, Json)>, i: nat)
    requires i < |FlattenKeys| && Lookup(entries, FlattenKeys[i]).Some? && Lookup(entries, FlattenKeys[i]).value.JList?
    requires ListExtractor.NoListBefore(entries, FlattenKeys, i)
    ensures FlattenForLlm(JObject(entries)) == Lookup(entries, FlattenKeys[i]).value
  {
    ListExtractor.CandidateAt(entries, FlattenKeys, i);
  }

  /** A dict with none of the keys holding a list is passed on unchanged. */
  lemma FlattenKeepsOtherDicts(entries: seq<(string, Json)>)
    requires ListExtractor.NoListBefore(entries, FlattenKeys, |FlattenKeys|)
    ensures FlattenForLlm(JObject(entries)) == JObject(entries)
  {
    ListExtractor.NoCandidate(entries, FlattenKeys);
  }

  /** The text `match_companies` puts before the industries' JSON text. */
  const PromptLead: string :=
    "Given the following JSON array of industry classes, suggest 3 to 7 example companies "
    + "(real or plausible for the market) as a JSON array of company names. "
    + "Return only the JSON array, no explanations.\n\n"

  /** The prompt `match_companies` builds around the industries' JSON text. */
  function DefaultPrompt(industriesJson: string): string {
    PromptLead + industriesJson + "\n"
  }

  /** `if prompt_override: prompt = prompt_override`: an empty override is ignored. */
  function ChosenPrompt(industriesJson: string, promptOverride: Option<string>): (p: string)
    ensures promptOverride.Some? && promptOverride.value != [] ==> p == promptOverride.value
    ensures promptOverride.None? || promptOverride.value == [] ==> p == DefaultPrompt(industriesJson)
  {
    if promptOverride.Some? && promptOverride.value != [] then promptOverride.value else DefaultPrompt(industriesJson)
  }

  /**
   * The language model and the codecs the agent relies on: `chat` answers a prompt or raises,
   * `loads` is `json.loads`, `dumps` is `json.dumps(..., indent=2)`, and `repr` is Python's `str()` of
   * a decoded value, which for a list is its repr and not JSON.
   */
  datatype Llm = Llm(chat: string -> Result<string>, loads: string -> Decoded, dumps: Json -> string,
                     repr: Json -> string)

  /** Python `str(ex)` for the exceptions that reach the agent. */
  function ExceptionText(e: Error): string {
    match e
    case ValueError(m) => m
    case TypeError(m) => m
    case AttributeError(m) => m
    case AssertionError(m) => m
    case AgentFailure(m) => m
    case KeyError(k) => "'" + k + "'"
    case FileNotFound(p) => "[Errno 2] No such file or directory: '" + p + "'"
    case ImportFailure(m) => "No module named '" + m + "'"
    case ValidationError(f) => f
    case IndexError => ""
    case SameFileError => ""
  }

  /** The JSON strings of a list of names. */
  function StrList(names: seq<string>): (r: seq<Json>)
    ensures |r| == |names| && forall i :: 0 <= i < |r| ==> r[i] == JStr(names[i])
  {
    seq(|names|, i requires 0 <= i < |names| => JStr(names[i]))
  }

  /** The names of a list of JSON strings. */
  function Names(items: seq<Json>): (r: seq<string>)
    requires forall i :: 0 <= i < |items| ==> items[i].JStr?
    ensures StrList(r) == items
  {
    seq(|items|, i requires 0 <= i < |items| => items[i].s)
  }

  /** The text that made `match_companies` reject a reply as natural language: its first 80 characters. */
  function NotJsonError(response: string): Error {
    ValueError("LLM response is not JSON but natural language: " + Take(LStrip(response), 80))
  }

  /**
   * What `match_companies` returns or raises for a prompt: the model's reply must, once
   * left-stripped, start with `[` or `{`; the array cut out of it must hold only strings, which
   * are the company names returned.
   */
  function Matching(prompt: string, llm: Llm): (r: Result<seq<string>>)
    ensures r.Ok? <==>
      && llm.chat(prompt).Ok?
      && (StartsWith(LStrip(llm.chat(prompt).value), "[") || StartsWith(LStrip(llm.chat(prompt).value), "{"))
      && ExtractJsonArray(JStr(llm.chat(prompt).value), llm.loads).Ok?
      && IsStringList(JList(ExtractJsonArray(JStr(llm.chat(prompt).value), llm.loads).value))
    ensures r.Ok? ==> ExtractJsonArray(JStr(llm.chat(prompt).value), llm.loads) == Ok(StrList(r.value))
    ensures llm.chat(prompt).Err? ==> r == Err(llm.chat(prompt).error)
    ensures (llm.chat(prompt).Ok? && !StartsWith(LStrip(llm.chat(prompt).value), "[")
             && !StartsWith(LStrip(llm.chat(prompt).value), "{")) ==> r == Err(NotJsonError(llm.chat(prompt).value))
  {
    match llm.chat(prompt)
    case Err(e) => Err(e)
    case Ok(response) =>
      var first := LStrip(response);
      if !StartsWith(first, "[") && !StartsWith(first, "{") then Err(NotJsonError(response))
      else
        match ExtractJsonArray(JStr(response), llm.loads)
        case Err(e) => Err(e)
        case Ok(items) =>
          if forall i :: 0 <= i < |items| ==> items[i].JStr? then Ok(Names(items))
          else Err(ValueError("Expected list of strings (company names). Got: " + llm.repr(JList(items))))
  }

  /** A reply that is prose is rejected, even when it holds a valid array further on. */
  lemma ProseRejected(prompt: string, llm: Llm, lead: string, rest: string)
    requires lead != [] && !IsSpace(lead[0]) && lead[0] != '[' && lead[0] != '{'
    requires llm.chat(prompt) == Ok(lead + rest)
    ensures Matching(prompt, llm) == Err(NotJsonError(lead + rest))
  {
    var s := lead + rest;
    assert s[0] == lead[0];
    ProseStart(s);
  }

  /** Text that starts with neither whitespace nor a bracket keeps its start when left-stripped. */
  lemma ProseStart(s: string)
    requires s != [] && !IsSpace(s[0]) && s[0] != '[' && s[0] != '{'
    ensures LStrip(s) == s && !StartsWith(LStrip(s), "[") && !StartsWith(LStrip(s), "{")
  {
  }

  /** The uuid, `cet_now()` text and traceback text in force when an event is written. */
  datatype Stamp = Stamp(eventId: string, timestamp: string, traceback: string)

  /** The document a Pydantic `AgentEvent` is logged as: its seven fields. */
  function EventDocument(e: AgentEvent): Json {
    JObject([("event_id", JStr(e.eventId)), ("agent_name", JStr(e.agentName)), ("agent_version", JStr(e.agentVersion)),
             ("event_type", JStr(e.eventType)), ("status", JStr(e.status)), ("timestamp", JStr(e.timestamp)),
             ("payload", JObject(e.payload))])
  }

  /** `workflow_id` as written into a file name or a document: `None` when unset. */
  function WorkflowText(workflowId: Option<string>): string {
    if workflowId.Some? then workflowId.value else "None"
  }

  /** `JsonlEventLogger(workflow_id, log_dir).log_path`. */
  function LogFile(logDir: FilePath, workflowId: Option<string>): FilePath {
    Join(logDir, WorkflowText(workflowId) + ".jsonl")
  }

  /** The plain dict `match_companies` logs when it fails. */
  function MatchErrorDocument(workflowId: Option<string>, e: Error, prompt: string, response: string, s: Stamp): Json {
    JObject([("event_id", JStr(s.eventId)), ("event_type", JStr("error")), ("agent_name", JStr("CompanyMatchAgent")),
             ("agent_version", JStr("2.1.4")), ("timestamp", JStr(s.timestamp)), ("step_id", JStr("match_companies")),
             ("prompt_version", JStr("enhanced_validation")), ("status", JStr("error")),
             ("payload", JObject([("exception", JStr(ExceptionText(e))), ("traceback", JStr(s.traceback)),
                                  ("prompt", JStr(prompt)),
                                  ("response", JStr(if response == [] then "<no response>" else response))])),
             ("meta", JObject([("context", JStr("JSON parsing and validation"))])),
             ("workflow_id", if workflowId.Some? then JStr(workflowId.value) else JNull),
             ("source_event_id", JNull)])
  }

  /**
   * The `AgentEvent` `run` returns on success. `AgentEvent` ignores the fields it does not declare,
   * so the step id, prompt version, meta data, workflow id and parent event id passed to it are
   * dropped.
   */
  function SuccessEvent(input: Json, companies: seq<string>, s: Stamp): (e: AgentEvent)
    ensures e.status == "success" && e.eventType == "company_match" && e.eventId == s.eventId
    ensures Lookup(e.payload, "input") == Some(input)
    ensures Lookup(e.payload, "companies") == Some(JList(StrList(companies)))
  {
    AgentEvent(s.eventId, "CompanyMatchAgent", "2.1.4", "company_match", "success", s.timestamp,
               [("input", input), ("companies", JList(StrList(companies))), ("feedback", JStr(""))])
  }

  /** The error `AgentEvent` `run` logs before re-raising. */
  function RunErrorEvent(e: Error, s: Stamp): (r: AgentEvent)
    ensures r.status == "error" && r.eventType == "error"
    ensures Lookup(r.payload, "exception") == Some(JStr(ExceptionText(e)))
  {
    AgentEvent(s.eventId, "CompanyMatchAgent", "2.1.4", "error", "error", s.timestamp,
               [("exception", JStr(ExceptionText(e))), ("traceback", JStr(s.traceback))])
  }

  /** `workflow_id`, or `company_` and the first six hex digits of a fresh uuid when none is given. */
  function RunId(workflowId: Option<string>, uuidHex: string): (id: string)
    ensures workflowId.None? ==> StartsWith(id, "company_") && |id| <= |"company_"| + 6
    ensures workflowId.Some? ==> id == workflowId.value
  {
    if workflowId.Some? then workflowId.value else "company_" + Take(uuidHex, 6)
  }

  /** The log map after appending `docs` to the file at `path`. */
  function Appended(logs: map<FilePath, seq<Json>>, path: FilePath, docs: seq<Json>): (r: map<FilePath, seq<Json>>)
    ensures path in r && r[path] == (if path in logs then logs[path] else []) + docs
    ensures forall q :: q in logs && q != path ==> q in r && r[q] == logs[q]
    ensures r.Keys == logs.Keys + {path}
  {
    logs[path := (if path in logs then logs[path] else []) + docs]
  }

  /** Two appends to the same file leave what one append of both lists leaves. */
  lemma AppendedTwice(logs: map<FilePath, seq<Json>>, path: FilePath, a: seq<Json>, b: seq<Json>)
    ensures Appended(Appended(logs, path, a), path, b) == Appended(logs, path, a + b)
  {
    var old' := if path in logs then logs[path] else [];
    assert old' + a + b == old' + (a + b);
  }

  /** The stamps of one `run`: the uuid behind a generated workflow id and the three events it may write. */
  datatype RunStamps = RunStamps(uuidHex: string, matchError: Stamp, success: Stamp, runError: Stamp)

  class CompanyMatchAgent {
    const logDir: FilePath
    /** `self.workflow_id`: None until `run` sets it. */
    var workflowId: Option<string>
    /** The documents this agent appended to each JSONL log file, in order. */
    var logs: map<FilePath, seq<Json>>

    constructor(logDir: FilePath)
      ensures this.logDir == logDir && workflowId == None && logs == map[]
    {
      this.logDir := logDir;
      workflowId := None;
      logs := map[];
    }

    /**
     * `match_companies`: the company names for the industries' JSON text, or the exception, raised
     * after an error document naming the prompt and the reply went to the current workflow's log.
     */
    method MatchCompanies(industriesJson: string, promptOverride: Option<string>, llm: Llm, stamp: Stamp)
      returns (r: Result<seq<string>>)
      modifies this
      ensures workflowId == old(workflowId)
      ensures r == Matching(ChosenPrompt(industriesJson, promptOverride), llm)
      ensures r.Ok? ==> logs == old(logs)
      ensures r.Err? ==>
        var prompt := ChosenPrompt(industriesJson, promptOverride);
        var response := if llm.chat(prompt).Ok? then llm.chat(prompt).value else "";
        logs == Appended(old(logs), LogFile(logDir, workflowId),
                         [MatchErrorDocument(workflowId, r.error, prompt, response, stamp)])
    {
      var prompt := DefaultPrompt(industriesJson);
      if promptOverride.Some? && promptOverride.value != [] {
        prompt := promptOverride.value;
      }
      assert prompt == ChosenPrompt(industriesJson, promptOverride);
      var response := "";
      var reply := llm.chat(prompt);
      if reply.Ok? {
        response := reply.value;
      }
      r := Matching(prompt, llm);
      if r.Err? {
        logs := Appended(logs, LogFile(logDir, workflowId), [MatchErrorDocument(workflowId, r.error, prompt, response, stamp)]);
      }
    }

    /**
     * `run`: sets `self.workflow_id`, asks for the companies of the flattened input, and either logs
     * and returns the success event or logs an error event and re-raises; a failure thus leaves two
     * error documents in the workflow's log, the one from `match_companies` and then its own.
     */
    method Run(input: Json, baseName: string, iteration: int, workflowId': Option<string>, parent: Option<string>,
               promptOverride: Option<string>, llm: Llm, stamps: RunStamps) returns (r: Result<AgentEvent>)
      modifies this
      ensures workflowId == Some(RunId(workflowId', stamps.uuidHex))
      ensures var prompt := ChosenPrompt(llm.dumps(FlattenForLlm(input)), promptOverride);
        var m := Matching(prompt, llm);
        var path := LogFile(logDir, workflowId);
        && (m.Ok? ==> r == Ok(SuccessEvent(input, m.value, stamps.success))
                      && logs == Appended(old(logs), path, [EventDocument(r.value)]))
        && (m.Err? ==> r == Err(m.error)
                       && var response := if llm.chat(prompt).Ok? then llm.chat(prompt).value else "";
                          logs == Appended(old(logs), path,
                                           [MatchErrorDocument(workflowId, m.error, prompt, response, stamps.matchError),
                                            EventDocument(RunErrorEvent(m.error, stamps.runError))]))
    {
      var id := RunId(workflowId', stamps.uuidHex);
      workflowId := Some(id);
      var path := LogFile(logDir, workflowId);
      var industriesJson := llm.dumps(FlattenForLlm(input));
      ghost var before := logs;
      var companies := MatchCompanies(industriesJson, promptOverride, llm, stamps.matchError);
      if companies.Err? {
        ghost var prompt := ChosenPrompt(industriesJson, promptOverride);
        ghost var response := if llm.chat(prompt).Ok? then llm.chat(prompt).value else "";
        ghost var first := MatchErrorDocument(workflowId, companies.error, prompt, response, stamps.matchError);
        var failure := RunErrorEvent(companies.error, stamps.runError);
        logs := Appended(logs, path, [EventDocument(failure)]);
        AppendedTwice(before, path, [first], [EventDocument(failure)]);
        assert [first] + [EventDocument(failure)] == [first, EventDocument(failure)];
        return Err(companies.error);
      }
      var event := SuccessEvent(input, companies.value, stamps.success);
      logs := Appended(logs, path, [EventDocument(event)]);
      return Ok(event);
    }
  }
}
