/**
 * agents/utils/event_logger.py: `write_event_log` writes one `AgentEvent` as a JSON file named
 * after the event, `<log_dir>/<event_type>/<agent_name>_<timestamp>.json`, where the timestamp
 * part has its `:` and `.` turned into `-` and is cut to 19 characters. The file is opened in
 * mode `w`, so an event whose name collides with an earlier one replaces that file.
 */
module AgentEventLog {
  import opened Wrappers
  import opened Text
  import opened Paths
  import opened JsonValues
  import opened PydanticFields
  import AgentSchemas

  /** What `.replace(":", "-").replace(".", "-")` does to one character. */
  function Dashed(c: char): char {
    if c == ':' || c == '.' then '-' else c
  }

  /**
   * The timestamp part of the file name: the first 19 characters of the timestamp, each `:` and
   * `.` among them written as `-`.
   */
  function TimestampPart(ts: string): (r: string)
    ensures |r| == if |ts| < 19 then |ts| else 19
    ensures forall i :: 0 <= i < |r| ==> r[i] == Dashed(ts[i])
    ensures ':' !in r && '.' !in r
  {
    var colons := ReplaceAll(ts, ":", "-");
    ReplaceCharPointwise(ts, ':', '-');
    var dots := ReplaceAll(colons, ".", "-");
    ReplaceCharPointwise(colons, '.', '-');
    Take(dots, 19)
  }

  /** Only the first 19 characters of the timestamp reach the file name. */
  lemma TimestampPartOfPrefix(ts1: string, ts2: string)
    requires Take(ts1, 19) == Take(ts2, 19)
    ensures TimestampPart(ts1) == TimestampPart(ts2)
  {
    var r1, r2 := TimestampPart(ts1), TimestampPart(ts2);
    assert |ts1| < 19 <==> |ts2| < 19;
    forall i | 0 <= i < |r1|
      ensures r1[i] == r2[i]
    {
      assert ts1[i] == Take(ts1, 19)[i] == Take(ts2, 19)[i] == ts2[i];
    }
  }

  /** `log_dir / event_type / f"{agent_name}_{timestamp}.json"`. */
  function LogPath(logDir: FilePath, eventType: string, agentName: string, ts: string): (p: FilePath)
    ensures Parent(Parent(p)) == logDir && Name(Parent(p)) == eventType
    ensures Name(p) == agentName + "_" + TimestampPart(ts) + ".json"
  {
    Join(Join(logDir, eventType), agentName + "_" + TimestampPart(ts) + ".json")
  }

  /**
   * Events of the same type and agent whose timestamps agree on their first 19 characters are
   * written to the same file.
   */
  lemma SamePathForSameSecond(logDir: FilePath, eventType: string, agentName: string, ts1: string, ts2: string)
    requires Take(ts1, 19) == Take(ts2, 19)
    ensures LogPath(logDir, eventType, agentName, ts1) == LogPath(logDir, eventType, agentName, ts2)
  {
    TimestampPartOfPrefix(ts1, ts2);
  }

  /** Events of different types never share a file: the type is the directory. */
  lemma PathKeepsEventType(logDir: FilePath, t1: string, a1: string, ts1: string, t2: string, a2: string, ts2: string)
    requires LogPath(logDir, t1, a1, ts1) == LogPath(logDir, t2, a2, ts2)
    ensures t1 == t2
  {
    assert Name(Parent(LogPath(logDir, t1, a1, ts1))) == Name(Parent(LogPath(logDir, t2, a2, ts2)));
  }

  /** The argument `write_event_log` receives: an `AgentEvent`, or anything else. */
  datatype EventArg = AnEvent(event: AgentSchemas.AgentEvent) | NotAnEvent

  /** `event.model_dump()`: every field under its name, in declaration order. */
  function Document(e: AgentSchemas.AgentEvent): Json {
    JObject([("event_type", JStr(e.eventType)), ("agent_name", JStr(e.agentName)),
              ("agent_version", JStr(e.agentVersion)), ("timestamp", JStr(e.timestamp)),
              ("step_id", OptJson(e.stepId)), ("prompt_version", OptJson(e.promptVersion)),
              ("meta", OptObject(e.meta)), ("payload", JObject(e.payload))])
  }

  /** Where an event is written. */
  function EventPath(logDir: FilePath, e: AgentSchemas.AgentEvent): FilePath {
    LogPath(logDir, e.eventType, e.agentName, e.timestamp)
  }

  /**
   * `write_event_log(log_dir, event)` on the files `store`: anything but an `AgentEvent` fails the
   * assertion and nothing is written; an event replaces whatever its file held by its JSON text
   * (`dumps` is `json.dumps(..., indent=2)`), and no other file changes.
   */
  function WriteEventLog(store: Store, logDir: FilePath, arg: EventArg, dumps: Json -> string): (r: Result<Store>)
    ensures arg.NotAnEvent? ==> r == Err(AssertionError("Event must be an AgentEvent instance."))
    ensures arg.AnEvent? ==> r.Ok?
    ensures r.Ok? ==> var path := EventPath(logDir, arg.event);
      && path in r.value && r.value[path] == dumps(Document(arg.event))
      && r.value.Keys == store.Keys + {path}
      && forall q :: q in store && q != path ==> r.value[q] == store[q]
  {
    match arg
    case NotAnEvent => Err(AssertionError("Event must be an AgentEvent instance."))
    case AnEvent(e) => Ok(store[EventPath(logDir, e) := dumps(Document(e))])
  }

  /**
   * Mode `w`: a second event of the same type and agent in the same second leaves only its own
   * text behind, as if the first had never been written.
   */
  lemma LaterEventOverwrites(store: Store, logDir: FilePath, e1: AgentSchemas.AgentEvent, e2: AgentSchemas.AgentEvent,
                             dumps: Json -> string)
    requires e1.eventType == e2.eventType && e1.agentName == e2.agentName
    requires Take(e1.timestamp, 19) == Take(e2.timestamp, 19)
    ensures WriteEventLog(store, logDir, AnEvent(e1), dumps).Ok?
    ensures WriteEventLog(WriteEventLog(store, logDir, AnEvent(e1), dumps).value, logDir, AnEvent(e2), dumps)
            == WriteEventLog(store, logDir, AnEvent(e2), dumps)
  {
    SamePathForSameSecond(logDir, e1.eventType, e1.agentName, e1.timestamp, e2.timestamp);
    var path := EventPath(logDir, e2);
    Overwrite(store, path, dumps(Document(e1)), dumps(Document(e2)));
  }

  /** Writing a file twice leaves the second text. */
  lemma Overwrite(store: Store, path: FilePath, first: string, second: string)
    ensures store[path := first][path := second] == store[path := second]
  {
    assert store[path := first][path := second].Keys == store[path := second].Keys;
  }
}

/**
 * utils/event_logger.py: the same file naming for any Pydantic model, whose `timestamp` must be a
 * date (it is turned into text with `isoformat()`).
 */
module ModelEventLog {
  import opened Wrappers
  import opened Paths
  import opened JsonValues
  import opened PydanticFields
  import Schema
  import AgentEventLog

  /** The `timestamp` attribute: a date with its ISO text, or a plain string. */
  datatype TimeValue = Iso(text: string) | PlainText(text: string)

  /**
   * The argument `write_event_log` receives: a Pydantic model (it has a `json` attribute) with its
   * type, agent, timestamp and `model_dump()`, or anything else.
   */
  datatype EventArg = Model(eventType: string, agentName: string, timestamp: TimeValue, dump: Json) | NotAModel

  /**
   * `write_event_log(log_dir, event)`: anything but a model fails the assertion, a model whose
   * timestamp is a plain string fails on `isoformat`; otherwise the model's JSON text replaces
   * whatever its file held, at the path the `agents` logger would use for the ISO text.
   */
  function WriteEventLog(store: Store, logDir: FilePath, arg: EventArg, dumps: Json -> string): (r: Result<Store>)
    ensures arg.NotAModel? ==> r == Err(AssertionError("Event must be a Pydantic model instance."))
    ensures arg.Model? && arg.timestamp.PlainText? ==> r == Err(AttributeError("'str' object has no attribute 'isoformat'"))
    ensures r.Ok? <==> arg.Model? && arg.timestamp.Iso?
    ensures r.Ok? ==> var path := AgentEventLog.LogPath(logDir, arg.eventType, arg.agentName, arg.timestamp.text);
      && path in r.value && r.value[path] == dumps(arg.dump)
      && r.value.Keys == store.Keys + {path}
      && forall q :: q in store && q != path ==> r.value[q] == store[q]
  {
    match arg
    case NotAModel => Err(AssertionError("Event must be a Pydantic model instance."))
    case Model(eventType, agentName, timestamp, dump) =>
      if timestamp.PlainText? then Err(AttributeError("'str' object has no attribute 'isoformat'"))
      else Ok(store[AgentEventLog.LogPath(logDir, eventType, agentName, timestamp.text) := dumps(dump)])
  }

  /** An `AgentEvent` of utils/schema.py (timestamp a date) as the argument, with its `model_dump()`. */
  function SchemaEventArg(e: Schema.AgentEvent): EventArg {
    Model(e.eventType, e.agentName, Iso(e.timestamp),
          JObject([("event_type", JStr(e.eventType)), ("agent_name", JStr(e.agentName)),
                   ("agent_version", JStr(e.agentVersion)), ("timestamp", JStr(e.timestamp)),
                   ("step_id", JStr(e.stepId)), ("prompt_version", OptJson(e.promptVersion)),
                   ("meta", JObject(e.meta)), ("payload", JObject(e.payload))]))
  }

  /** Every event of utils/schema.py is written; a later one in the same second replaces it. */
  lemma SchemaEventsOverwrite(store: Store, logDir: FilePath, e1: Schema.AgentEvent, e2: Schema.AgentEvent, dumps: Json -> string)
    requires e1.eventType == e2.eventType && e1.agentName == e2.agentName
    requires Text.Take(e1.timestamp, 19) == Text.Take(e2.timestamp, 19)
    ensures WriteEventLog(store, logDir, SchemaEventArg(e1), dumps).Ok?
    ensures WriteEventLog(WriteEventLog(store, logDir, SchemaEventArg(e1), dumps).value, logDir, SchemaEventArg(e2), dumps)
            == WriteEventLog(store, logDir, SchemaEventArg(e2), dumps)
  {
    AgentEventLog.SamePathForSameSecond(logDir, e1.eventType, e1.agentName, e1.timestamp, e2.timestamp);
    var path := AgentEventLog.LogPath(logDir, e2.eventType, e2.agentName, e2.timestamp);
    AgentEventLog.Overwrite(store, path, dumps(SchemaEventArg(e1).dump), dumps(SchemaEventArg(e2).dump));
  }
}
