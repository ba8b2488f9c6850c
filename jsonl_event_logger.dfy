/**
 * utils/jsonl_event_logger.py: a workflow's event log, one JSON document per line, appended to
 * `<log_dir>/<workflow_id>.jsonl`. The JSON text of a document is left abstract (`dumps`); what
 * is modelled is which Python values can be written, and the line discipline of the file.
 */
module JsonlEventLogger {
  import opened Wrappers
  import opened Text
  import opened Paths
  import opened JsonValues

  /** The Python values an event dict can hold. */
  datatype PyValue =
    | PNull
    | PBool(b: bool)
    | PNum(n: real)
    | PStr(s: string)
    | PList(items: seq<PyValue>)
    | PDict(entries: seq<(string, PyValue)>)
      /** An `Enum` member; `strValued` for an enum that also derives from `str`. */
    | PEnum(name: string, value: string, strValued: bool)
      /** An object with an `isoformat()` method (a date or time), with its ISO text. */
    | PDateTime(iso: string)
      /** Any other object, with its type name. */
    | PObject(typeName: string)

  /** The values `json.dumps` with the logger's `default` hook can write. */
  predicate Serializable(v: PyValue)
    decreases v
  {
    match v
    case PObject(_) => false
    case PList(items) => forall i :: 0 <= i < |items| ==> Serializable(items[i])
    case PDict(entries) => forall i :: 0 <= i < |entries| ==> Serializable(entries[i].1)
    case _ => true
  }

  /**
   * The JSON value `json.dumps(v, default=default)` writes: a `str` enum is a string and is
   * written as its value; other enums go through the hook and become their name, dates their
   * ISO text; any other object makes the hook raise TypeError.
   */
  function Encode(v: PyValue): (r: Result<Json>)
    decreases v, 1
  {
    match v
    case PNull => Ok(JNull)
    case PBool(b) => Ok(JBool(b))
    case PNum(n) => Ok(JNum(n))
    case PStr(s) => Ok(JStr(s))
    case PEnum(name, value, strValued) => Ok(JStr(if strValued then value else name))
    case PDateTime(iso) => Ok(JStr(iso))
    case PObject(t) => Err(TypeError("Object of type " + t + " is not JSON serializable"))
    case PList(items) =>
      var js :- EncodeList(items, v);
      Ok(JList(js))
    case PDict(entries) =>
      var es :- EncodeEntries(entries, v);
      Ok(JObject(es))
  }

  function EncodeList(items: seq<PyValue>, ghost parent: PyValue): (r: Result<seq<Json>>)
    requires forall i :: 0 <= i < |items| ==> items[i] < parent
    ensures r.Ok? ==> |r.value| == |items|
    decreases parent, 0, |items|
  {
    if items == [] then Ok([])
    else
      var j :- Encode(items[0]);
      var js :- EncodeList(items[1..], parent);
      Ok([j] + js)
  }

  function EncodeEntries(entries: seq<(string, PyValue)>, ghost parent: PyValue): (r: Result<seq<(string, Json)>>)
    requires forall i :: 0 <= i < |entries| ==> entries[i].1 < parent
    ensures r.Ok? ==> |r.value| == |entries|
    ensures r.Ok? ==> forall i :: 0 <= i < |entries| ==> r.value[i].0 == entries[i].0
    decreases parent, 0, |entries|
  {
    if entries == [] then Ok([])
    else
      var j :- Encode(entries[0].1);
      var es :- EncodeEntries(entries[1..], parent);
      Ok([(entries[0].0, j)] + es)
  }

  /** Encoding succeeds exactly on the serializable values. */
  lemma {:induction false} EncodeSucceeds(v: PyValue)
    ensures Encode(v).Ok? <==> Serializable(v)
    decreases v, 1
  {
    match v
    case PList(items) => EncodeListSucceeds(items, v);
    case PDict(entries) => EncodeEntriesSucceeds(entries, v);
    case _ =>
  }

  lemma {:induction false} EncodeListSucceeds(items: seq<PyValue>, parent: PyValue)
    requires forall i :: 0 <= i < |items| ==> items[i] < parent
    ensures EncodeList(items, parent).Ok? <==> forall i :: 0 <= i < |items| ==> Serializable(items[i])
    decreases parent, 0, |items|
  {
    if items != [] {
      EncodeSucceeds(items[0]);
      EncodeListSucceeds(items[1..], parent);
      assert forall i :: 1 <= i < |items| ==> items[i] == items[1..][i - 1];
    }
  }

  lemma {:induction false} EncodeEntriesSucceeds(entries: seq<(string, PyValue)>, parent: PyValue)
    requires forall i :: 0 <= i < |entries| ==> entries[i].1 < parent
    ensures EncodeEntries(entries, parent).Ok? <==> forall i :: 0 <= i < |entries| ==> Serializable(entries[i].1)
    decreases parent, 0, |entries|
  {
    if entries != [] {
      EncodeSucceeds(entries[0].1);
      EncodeEntriesSucceeds(entries[1..], parent);
      assert forall i :: 1 <= i < |entries| ==> entries[i] == entries[1..][i - 1];
    }
  }

  /** What `log_event` is given: a Pydantic model (its `model_dump()` or `dict()`), a mapping, or anything else. */
  datatype EventInput =
    | Model(dump: seq<(string, PyValue)>)
    | Mapping(items: seq<(string, PyValue)>)
    | NotAMapping(typeName: string)

  /** The dict `log_event` writes for an input. */
  function EventDict(event: EventInput): Result<seq<(string, PyValue)>> {
    match event
    case Model(dump) => Ok(dump)
    case Mapping(items) => Ok(items)
    case NotAMapping(t) => Err(TypeError("'" + t + "' object is not iterable"))
  }

  /**
   * The line `log_event` appends, without its final "\n": the JSON text with every newline
   * removed. `dumps` is the text `json.dumps` gives for a JSON value.
   */
  function EventLine(event: EventInput, dumps: Json -> string): (r: Result<string>)
    ensures r.Ok? <==> !event.NotAMapping? && Serializable(PDict(EventDict(event).value))
    ensures r.Ok? ==> '\n' !in r.value
  {
    match EventDict(event)
    case Err(e) => Err(e)
    case Ok(d) =>
      EncodeSucceeds(PDict(d));
      match Encode(PDict(d))
      case Err(e) => Err(e)
      case Ok(j) =>
        ReplaceCharRemoved(dumps(j), '\n');
        Ok(ReplaceAll(dumps(j), "\n", ""))
  }

  /** Pydantic models and plain mappings with the same fields are written identically. */
  lemma ModelsAndMappingsAgree(d: seq<(string, PyValue)>, dumps: Json -> string)
    ensures EventLine(Model(d), dumps) == EventLine(Mapping(d), dumps)
  {
  }

  /** The text of a log made of the given lines: each line followed by "\n". */
  function LogText(lines: seq<string>): (t: string)
    ensures |lines| > 0 ==> t != [] && t[|t| - 1] == '\n'
  {
    if lines == [] then [] else LogText(lines[..|lines| - 1]) + lines[|lines| - 1] + "\n"
  }

  class JsonlEventLogger {
    /** `log_dir / f"{workflow_id}.jsonl"`. */
    const logPath: FilePath
    /** The lines of the log file, without their "\n". */
    var lines: seq<string>

    /** Every line is a single line. */
    ghost predicate Valid()
      reads this
    {
      forall i :: 0 <= i < |lines| ==> '\n' !in lines[i]
    }

    /** `JsonlEventLogger(workflow_id, log_dir)` over a file that already holds `existing` lines. */
    constructor(workflowId: string, logDir: FilePath, existing: seq<string>)
      requires forall i :: 0 <= i < |existing| ==> '\n' !in existing[i]
      ensures logPath == Join(logDir, workflowId + ".jsonl")
      ensures lines == existing && Valid()
    {
      logPath := Join(logDir, workflowId + ".jsonl");
      lines := existing;
    }

    /** The file's text. */
    function Text(): string
      reads this
    {
      LogText(lines)
    }

    /** `log_event(event)`: appends one line, or raises TypeError and appends nothing. */
    method LogEvent(event: EventInput, dumps: Json -> string) returns (r: Result<()>)
      requires Valid()
      modifies this
      ensures Valid()
      ensures r.Ok? <==> EventLine(event, dumps).Ok?
      ensures r.Ok? ==> lines == old(lines) + [EventLine(event, dumps).value]
      ensures r.Ok? ==> Text() == old(Text()) + EventLine(event, dumps).value + "\n"
      ensures r.Err? ==> lines == old(lines) && r.error == EventLine(event, dumps).error
    {
      var line := EventLine(event, dumps);
      if line.Err? {
        return Err(line.error);
      }
      lines := lines + [line.value];
      assert lines[..|lines| - 1] == old(lines);
      return Ok(());
    }
  }

  /** Lines already written stay as they were: appending keeps the old text as a prefix. */
  lemma AppendKeepsPrefix(lines: seq<string>, line: string)
    ensures StartsWith(LogText(lines + [line]), LogText(lines))
  {
    assert (lines + [line])[..|lines|] == lines;
    PrefixOfConcat(LogText(lines), line + "\n");
    Assoc(LogText(lines), line, "\n");
  }
}
