/**
 * The loop test `retries < self.max_retries` of controller/agent_orchestrator.py, where `max_retries`
 * is whatever value the configuration file holds, turned into an integer bound.
 */
module RetryBound {
  import opened Wrappers
  import opened JsonValues

  /** Python `k < limit` for a retry count `k` and a numeric (or boolean) limit. */
  predicate PyLess(k: nat, limit: Json)
    requires limit.JNum? || limit.JBool?
  {
    if limit.JNum? then k as real < limit.n else k < (if limit.b then 1 else 0)
  }

  /**
   * The integer bound that `retries < self.max_retries` amounts to: the ceiling of a number, 0 or 1 for
   * a boolean; any other value makes the comparison raise.
   */
  function RetryLimit(limit: Json): (r: Result<int>)
    ensures r.Ok? <==> limit.JNum? || limit.JBool?
    ensures r.Err? ==> r.error.TypeError?
  {
    match limit
    case JNum(n) => Ok(-((-n).Floor))
    case JBool(b) => Ok(if b then 1 else 0)
    case _ => Err(TypeError("'<' not supported between instances of 'int' and '" + TypeName(limit) + "'"))
  }

  /** The bound decides the loop test exactly as Python's comparison would. */
  lemma RetryLimitMeansLess(limit: Json, k: nat)
    requires limit.JNum? || limit.JBool?
    ensures RetryLimit(limit).Ok? && (k < RetryLimit(limit).value <==> PyLess(k, limit))
  {
    if limit.JNum? {
      var n := limit.n;
      var f := (-n).Floor;
      assert f as real <= -n < f as real + 1.0;
    }
  }

}

/**
 * controller/agent_orchestrator.py: the four-stage agent pipeline. Each stage agent runs once; while
 * retries remain, its output is checked by the quality agent, and a failing output is sent to the
 * improvement agent, whose improved prompt is handed back to the stage agent as `prompt_override`.
 * Every call is tied to the event before it by `parent_event_id`.
 */
module AgentOrchestrator {
  import opened Wrappers
  import opened Text
  import opened Paths
  import opened JsonValues
  import opened RetryBound

  /** The keyword arguments of an agent's `run`. */
  datatype Call = Call(input: Json, baseName: string, iteration: int, workflowId: string,
                       parent: Option<string>, promptOverride: Option<Json>)

  /** The part of an `AgentEvent` the orchestrator reads. */
  datatype Event = Event(eventId: string, payload: Json)

  /** An agent's `run`, as an oracle: the event it returns, or the exception it raises. */
  type AgentRun = Call -> Result<Event>

  /** The four pipeline stages, in the order `run` calls them. */
  datatype Stage = Feature | Usecase | Industry | Company

  datatype Agents = Agents(feature: AgentRun, usecase: AgentRun, industry: AgentRun, company: AgentRun,
                           quality: AgentRun, improvement: AgentRun)

  /**
   * The orchestrator's settings. `maxRetries` is whatever the configuration file holds and
   * `retryLimit` the integer bound the loop test `retries < self.max_retries` amounts to (or the
   * error that test raises), which the constructor derives from it.
   */
  datatype Orchestrator = Orchestrator(workflowId: string, sampleFile: FilePath, logDir: FilePath,
                                       maxRetries: Json, retryLimit: Result<int>, agents: Agents)

  function AgentFor(o: Orchestrator, stage: Stage): AgentRun {
    match stage
    case Feature => o.agents.feature
    case Usecase => o.agents.usecase
    case Industry => o.agents.industry
    case Company => o.agents.company
  }

  /**
   * The constructor, given the parsed `config/max_retries.yaml`: `cfg.get("max_retries", 1)` needs a
   * dict (an empty file loads as None, which has no `get`).
   */
  function Construct(workflowId: string, sampleFile: FilePath, logDir: FilePath, cfg: Json, agents: Agents)
    : (r: Result<Orchestrator>)
    ensures r.Ok? <==> cfg.JObject?
    ensures r.Ok? ==> r.value.workflowId == workflowId && r.value.agents == agents
    ensures r.Ok? && Lookup(cfg.entries, "max_retries").Some? ==>
      r.value.maxRetries == Lookup(cfg.entries, "max_retries").value
    ensures r.Ok? ==> r.value.retryLimit == RetryLimit(r.value.maxRetries)
  {
    if !cfg.JObject? then Err(AttributeError("'" + TypeName(cfg) + "' object has no attribute 'get'"))
    else
      var limit := match Lookup(cfg.entries, "max_retries") case Some(v) => v case None => JNum(1.0);
      Ok(Orchestrator(workflowId, sampleFile, logDir, limit, RetryLimit(limit), agents))
  }

  /** Without a `max_retries` entry, one quality check is allowed. */
  lemma DefaultOneRetry(workflowId: string, sampleFile: FilePath, logDir: FilePath, cfg: Json, agents: Agents)
    requires cfg.JObject? && Lookup(cfg.entries, "max_retries").None?
    ensures var r := Construct(workflowId, sampleFile, logDir, cfg, agents);
      r.Ok? && r.value.retryLimit == Ok(1)
  {
  }

  /** Which agent a logged call went to. */
  datatype Kind = StageRun(stage: Stage) | QualityCheck | Improvement

  /** One call made by the orchestrator, and what it returned. */
  datatype Step = Step(kind: Kind, call: Call, reply: Result<Event>)

  /** The result of a stage with its quality loop, and every call made on the way. */
  datatype Attempt = Attempt(result: Result<Event>, steps: seq<Step>)

  function Prefix(steps: seq<Step>, a: Attempt): Attempt {
    Attempt(a.result, steps + a.steps)
  }

  lemma PrefixTwice(first: seq<Step>, second: seq<Step>, a: Attempt)
    ensures Prefix(first, Prefix(second, a)) == Prefix(first + second, a)
  {
    assert first + (second + a.steps) == (first + second) + a.steps;
  }

  /** How one round of the quality loop ends. */
  datatype RoundEnd =
    | Passed(steps: seq<Step>)
    | Failed(error: Error, steps: seq<Step>)
    | Rerun(steps: seq<Step>, next: Event)

  /** The improvement agent's input: the template name, the stage output and the evaluation. */
  function ImprovementRequest(baseName: string, output: Json, evaluation: Json): Json {
    JObject([("original_prompt", JStr(baseName)), ("output", output), ("feedback", evaluation)])
  }

  /**
   * One round of the loop body: check `current`; stop if `payload["evaluation"]["passed"]` is truthy;
   * otherwise ask for an improved prompt and run the stage agent again with it.
   */
  function Round(o: Orchestrator, stage: Stage, input: Json, baseName: string, iteration: int, current: Event)
    : RoundEnd
  {
    var qcall := Call(current.payload, baseName, iteration, o.workflowId, Some(current.eventId), None);
    var q := o.agents.quality(qcall);
    var checked := [Step(QualityCheck, qcall, q)];
    if q.Err? then Failed(q.error, checked)
    else
      var evaluation := Subscript(q.value.payload, "evaluation");
      var passed := if evaluation.Ok? then Subscript(evaluation.value, "passed") else evaluation;
      if passed.Err? then Failed(passed.error, checked)
      else if Truthy(passed.value) then Passed(checked)
      else
        var icall := Call(ImprovementRequest(baseName, current.payload, evaluation.value), baseName, iteration,
                          o.workflowId, Some(q.value.eventId), None);
        var i := o.agents.improvement(icall);
        var improved := checked + [Step(Improvement, icall, i)];
        if i.Err? then Failed(i.error, improved)
        else
          var prompt := Subscript(i.value.payload, "improved_prompt");
          if prompt.Err? then Failed(prompt.error, improved)
          else
            var rcall := Call(input, baseName, iteration, o.workflowId, Some(i.value.eventId), Some(prompt.value));
            var r := AgentFor(o, stage)(rcall);
            var rerun := improved + [Step(StageRun(stage), rcall, r)];
            if r.Err? then Failed(r.error, rerun) else Rerun(rerun, r.value)
  }

  /** The loop body for one stage, as a function of the event being checked. */
  function RoundOf(o: Orchestrator, stage: Stage, input: Json, baseName: string, iteration: int): Event -> RoundEnd {
    (current: Event) => Round(o, stage, input, baseName, iteration, current)
  }

  /** The quality loop from `current` after `retries` improvements, with the loop bound `limit`. */
  function Retries(round: Event -> RoundEnd, limit: int, current: Event, retries: nat): Attempt
    decreases limit - retries
  {
    if retries >= limit then Attempt(Ok(current), [])
    else
      match round(current)
      case Passed(steps) => Attempt(Ok(current), steps)
      case Failed(e, steps) => Attempt(Err(e), steps)
      case Rerun(steps, next) => Prefix(steps, Retries(round, limit, next, retries + 1))
  }

  /** `_run_with_quality`: the first run of the stage agent, then the quality loop. */
  function WithQuality(o: Orchestrator, stage: Stage, input: Json, baseName: string, iteration: int,
                       parent: Option<string>): Attempt
  {
    var call := Call(input, baseName, iteration, o.workflowId, parent, None);
    var reply := AgentFor(o, stage)(call);
    var first := [Step(StageRun(stage), call, reply)];
    if reply.Err? then Attempt(Err(reply.error), first)
    else
      match o.retryLimit
      case Err(e) => Attempt(Err(e), first)
      case Ok(limit) => Prefix(first, Retries(RoundOf(o, stage, input, baseName, iteration), limit, reply.value, 0))
  }

  /** The `while retries < self.max_retries` loop, from the first event on. */
  method QualityLoop(round: Event -> RoundEnd, limit: int, first: Event) returns (result: Result<Event>, steps: seq<Step>)
    ensures Attempt(result, steps) == Retries(round, limit, first, 0)
  {
    var current := first;
    var retries: nat := 0;
    steps := [];
    while retries < limit
      invariant Retries(round, limit, first, 0) == Prefix(steps, Retries(round, limit, current, retries))
      decreases limit - retries
    {
      var end := round(current);
      if end.Passed? {
        return Ok(current), steps + end.steps;
      }
      if end.Failed? {
        return Err(end.error), steps + end.steps;
      }
      PrefixTwice(steps, end.steps, Retries(round, limit, end.next, retries + 1));
      steps := steps + end.steps;
      current, retries := end.next, retries + 1;
    }
    assert steps + [] == steps;
    return Ok(current), steps;
  }

  /** `_run_with_quality`: the first run of the stage agent, then the quality loop. */
  method RunWithQuality(o: Orchestrator, stage: Stage, input: Json, baseName: string, iteration: int,
                        parent: Option<string>) returns (result: Result<Event>, steps: seq<Step>)
    ensures Attempt(result, steps) == WithQuality(o, stage, input, baseName, iteration, parent)
  {
    var call := Call(input, baseName, iteration, o.workflowId, parent, None);
    var reply := AgentFor(o, stage)(call);
    var first := [Step(StageRun(stage), call, reply)];
    if reply.Err? {
      return Err(reply.error), first;
    }
    var limit := o.retryLimit;
    if limit.Err? {
      return Err(limit.error), first;
    }
    var rest;
    result, rest := QualityLoop(RoundOf(o, stage, input, baseName, iteration), limit.value, reply.value);
    steps := first + rest;
  }

  /** `next` names the event `prev` returned as its parent. */
  predicate Linked(prev: Step, next: Step) {
    prev.reply.Ok? && next.call.parent == Some(prev.reply.value.eventId)
  }

  /** Every call after the first names the event returned just before it as its parent. */
  predicate Chained(steps: seq<Step>) {
    forall i, j :: 0 <= i < |steps| && j == i + 1 && j < |steps| ==> Linked(steps[i], steps[j])
  }

  /** Every call carries the orchestrator's workflow id and the same template name and iteration. */
  predicate SameRun(workflowId: string, baseName: string, iteration: int, steps: seq<Step>) {
    forall i :: 0 <= i < |steps| ==>
      steps[i].call.workflowId == workflowId && steps[i].call.baseName == baseName && steps[i].call.iteration == iteration
  }

  /**
   * A run of the stage agent right after an improvement: it gets the stage's original input and the
   * improvement's `improved_prompt` as `prompt_override`.
   */
  predicate Feeds(stage: Stage, input: Json, prev: Step, next: Step) {
    && next.kind == StageRun(stage) && prev.kind == Improvement && prev.reply.Ok?
    && next.call.input == input && next.call.promptOverride.Some?
    && Subscript(prev.reply.value.payload, "improved_prompt") == Ok(next.call.promptOverride.value)
  }

  /** Every run of the stage agent in `steps` comes right after an improvement that it is fed by. */
  predicate Overridden(stage: Stage, input: Json, steps: seq<Step>) {
    && (steps != [] ==> !steps[0].kind.StageRun?)
    && forall i, j :: 0 <= i < |steps| && j == i + 1 && j < |steps| && steps[j].kind.StageRun? ==>
         Feeds(stage, input, steps[i], steps[j])
  }

  /** A quality reply whose `payload["evaluation"]["passed"]` is truthy. */
  predicate Passes(reply: Result<Event>) {
    && reply.Ok?
    && var evaluation := Subscript(reply.value.payload, "evaluation");
    && evaluation.Ok?
    && var passed := Subscript(evaluation.value, "passed");
    && passed.Ok? && Truthy(passed.value)
  }

  /** The number of calls of one kind. */
  function CountKind(steps: seq<Step>, k: Kind): nat
    decreases |steps|
  {
    if steps == [] then 0 else CountKind(steps[..|steps| - 1], k) + (if steps[|steps| - 1].kind == k then 1 else 0)
  }

  lemma {:induction false} CountAppend(a: seq<Step>, b: seq<Step>, k: Kind)
    ensures CountKind(a + b, k) == CountKind(a, k) + CountKind(b, k)
    decreases |b|
  {
    if b != [] {
      assert (a + b)[..|a + b| - 1] == a + b[..|b| - 1];
      CountAppend(a, b[..|b| - 1], k);
    } else {
      assert a + b == a;
    }
  }

  lemma ChainedAppend(a: seq<Step>, b: seq<Step>)
    requires Chained(a) && Chained(b)
    requires a != [] && b != [] ==> Linked(a[|a| - 1], b[0])
    ensures Chained(a + b)
  {
    forall i, j | 0 <= i && j == i + 1 && j < |a + b|
      ensures Linked((a + b)[i], (a + b)[j])
    {
      if i >= |a| {
        assert (a + b)[i] == b[i - |a|] && (a + b)[j] == b[j - |a|];
      } else if j == |a| {
        assert (a + b)[j] == b[0];
      }
    }
  }

  lemma OverriddenAppend(stage: Stage, input: Json, a: seq<Step>, b: seq<Step>)
    requires Overridden(stage, input, a) && Overridden(stage, input, b)
    ensures Overridden(stage, input, a + b)
  {
    if b != [] {
      assert (a + b)[|a|] == b[0];
    }
    forall i, j | 0 <= i && j == i + 1 && j < |a + b| && (a + b)[j].kind.StageRun?
      ensures Feeds(stage, input, (a + b)[i], (a + b)[j])
    {
      if i >= |a| {
        assert (a + b)[i] == b[i - |a|] && (a + b)[j] == b[j - |a|];
      }
    }
  }

  /** What one round promises, whatever the agents answer. */
  predicate RoundSpec(o: Orchestrator, stage: Stage, input: Json, baseName: string, iteration: int, current: Event,
                      end: RoundEnd) {
    var s := end.steps;
    && 1 <= |s| <= 3
    && s[0].kind == QualityCheck
    && s[0].call == Call(current.payload, baseName, iteration, o.workflowId, Some(current.eventId), None)
    && (|s| >= 2 ==> && s[1].kind == Improvement && Linked(s[0], s[1])
                     && s[1].call.workflowId == o.workflowId && s[1].call.baseName == baseName
                     && s[1].call.iteration == iteration)
    && (|s| == 3 ==> && Feeds(stage, input, s[1], s[2]) && Linked(s[1], s[2])
                     && s[2].call.workflowId == o.workflowId && s[2].call.baseName == baseName
                     && s[2].call.iteration == iteration)
    && (end.Passed? ==> |s| == 1 && Passes(s[0].reply))
    && (end.Rerun? ==> |s| == 3 && s[2].reply == Ok(end.next))
  }

  lemma RoundMeetsSpec(o: Orchestrator, stage: Stage, input: Json, baseName: string, iteration: int, current: Event)
    ensures RoundSpec(o, stage, input, baseName, iteration, current, Round(o, stage, input, baseName, iteration, current))
  {
    var qcall := Call(current.payload, baseName, iteration, o.workflowId, Some(current.eventId), None);
    var q := o.agents.quality(qcall);
    if q.Ok? {
      var evaluation := Subscript(q.value.payload, "evaluation");
      var passed := if evaluation.Ok? then Subscript(evaluation.value, "passed") else evaluation;
      if passed.Ok? && !Truthy(passed.value) {
        var icall := Call(ImprovementRequest(baseName, current.payload, evaluation.value), baseName, iteration,
                          o.workflowId, Some(q.value.eventId), None);
        var i := o.agents.improvement(icall);
        if i.Ok? {
          var prompt := Subscript(i.value.payload, "improved_prompt");
          if prompt.Ok? {
            var rcall := Call(input, baseName, iteration, o.workflowId, Some(i.value.eventId), Some(prompt.value));
            var r := AgentFor(o, stage)(rcall);
            var steps := [Step(QualityCheck, qcall, q), Step(Improvement, icall, i), Step(StageRun(stage), rcall, r)];
            assert Round(o, stage, input, baseName, iteration, current)
                == if r.Err? then Failed(r.error, steps) else Rerun(steps, r.value);
          }
        }
      }
    }
  }

  /** The calls of one round are chained, belong to the run, and feed the stage agent properly. */
  lemma RoundSteps(o: Orchestrator, stage: Stage, input: Json, baseName: string, iteration: int, current: Event,
                   end: RoundEnd)
    requires RoundSpec(o, stage, input, baseName, iteration, current, end)
    ensures Chained(end.steps) && SameRun(o.workflowId, baseName, iteration, end.steps)
    ensures Overridden(stage, input, end.steps)
  {
  }

  ghost predicate RoundsMeetSpec(round: Event -> RoundEnd, o: Orchestrator, stage: Stage, input: Json, baseName: string,
                                 iteration: int) {
    forall e: Event :: RoundSpec(o, stage, input, baseName, iteration, e, round(e))
  }

  lemma RoundOfMeetsSpec(o: Orchestrator, stage: Stage, input: Json, baseName: string, iteration: int)
    ensures RoundsMeetSpec(RoundOf(o, stage, input, baseName, iteration), o, stage, input, baseName, iteration)
  {
    forall e: Event
      ensures RoundSpec(o, stage, input, baseName, iteration, e, RoundOf(o, stage, input, baseName, iteration)(e))
    {
      RoundMeetsSpec(o, stage, input, baseName, iteration, e);
    }
  }

  /** The quality checks left to the loop after `retries` improvements. */
  function Remaining(limit: int, retries: nat): nat {
    if limit > retries then limit - retries else 0
  }

  /** A round checks once, improves at most once, and re-runs the stage agent at most once. */
  lemma RoundCounts(o: Orchestrator, stage: Stage, input: Json, baseName: string, iteration: int, current: Event,
                    end: RoundEnd)
    requires RoundSpec(o, stage, input, baseName, iteration, current, end)
    ensures CountKind(end.steps, QualityCheck) == 1
    ensures CountKind(end.steps, Improvement) == if |end.steps| >= 2 then 1 else 0
    ensures CountKind(end.steps, StageRun(stage)) == if |end.steps| == 3 then 1 else 0
  {
    var e := end.steps;
    assert e[..1][..0] == [];
    assert CountKind(e[..1], QualityCheck) == 1 && CountKind(e[..1], Improvement) == 0;
    assert CountKind(e[..1], StageRun(stage)) == 0;
    if |e| >= 2 {
      assert e[..2][..1] == e[..1];
      assert CountKind(e[..2], QualityCheck) == 1 && CountKind(e[..2], Improvement) == 1;
      assert CountKind(e[..2], StageRun(stage)) == 0;
    }
    if |e| == 3 {
      assert e[..3] == e && e[..3][..2] == e[..2];
    } else if |e| == 2 {
      assert e[..2] == e;
    } else {
      assert e[..1] == e;
    }
  }

  /**
   * The quality loop's calls: the first checks `current`, each later one names the event before it,
   * all belong to the run, and every re-run is fed by the improvement before it.
   */
  lemma {:induction false} RetriesLinks(round: Event -> RoundEnd, o: Orchestrator, stage: Stage, input: Json,
                                        baseName: string, iteration: int, limit: int, current: Event, retries: nat)
    requires RoundsMeetSpec(round, o, stage, input, baseName, iteration)
    ensures var a := Retries(round, limit, current, retries);
      var s := a.steps;
      && (retries >= limit ==> a == Attempt(Ok(current), []))
      && (retries < limit ==> s != [] && s[0].kind == QualityCheck && s[0].call.input == current.payload
                              && s[0].call.parent == Some(current.eventId))
      && Chained(s) && SameRun(o.workflowId, baseName, iteration, s) && Overridden(stage, input, s)
    decreases limit - retries
  {
    if retries < limit {
      var end := round(current);
      assert RoundSpec(o, stage, input, baseName, iteration, current, end);
      RoundSteps(o, stage, input, baseName, iteration, current, end);
      if end.Rerun? {
        var rest := Retries(round, limit, end.next, retries + 1);
        RetriesLinks(round, o, stage, input, baseName, iteration, limit, end.next, retries + 1);
        ChainedAppend(end.steps, rest.steps);
        OverriddenAppend(stage, input, end.steps, rest.steps);
        assert (end.steps + rest.steps)[0] == end.steps[0];
      }
    }
  }

  /**
   * What a run of the quality loop from `current` leaves, with `left` retries to go: at most one
   * check per retry; when it succeeds, one re-run per improvement, and either the event a check
   * passed or, with the retries used up, the last re-run's event (`current` if there was none),
   * unchecked.
   */
  predicate LoopOutcome(a: Attempt, stage: Stage, left: nat, current: Event) {
    var s := a.steps;
    && CountKind(s, QualityCheck) <= left
    && (a.result.Ok? ==> CountKind(s, StageRun(stage)) == CountKind(s, Improvement))
    && (a.result.Ok? && s != [] && s[|s| - 1].kind == QualityCheck ==>
          Passes(s[|s| - 1].reply) && s[|s| - 1].call.input == a.result.value.payload
          && s[|s| - 1].call.parent == Some(a.result.value.eventId))
    && (a.result.Ok? && (s == [] || s[|s| - 1].kind != QualityCheck) ==>
          CountKind(s, QualityCheck) == left
          && (s == [] ==> a.result.value == current)
          && (s != [] ==> s[|s| - 1].kind == StageRun(stage) && s[|s| - 1].reply == a.result))
  }

  /**
   * What a stage with its quality loop leaves, with `left` retries allowed: at least the first
   * run; at most one check per retry; when it succeeds, the stage agent is called once plus once per
   * improvement, and the result is either the event a check passed or, with the retries used up,
   * the last re-run's event, unchecked.
   */
  predicate StageOutcome(a: Attempt, stage: Stage, left: nat) {
    var s := a.steps;
    && s != []
    && CountKind(s, QualityCheck) <= left
    && (a.result.Ok? ==> CountKind(s, StageRun(stage)) == 1 + CountKind(s, Improvement))
    && (a.result.Ok? && s[|s| - 1].kind == QualityCheck ==>
          Passes(s[|s| - 1].reply) && s[|s| - 1].call.input == a.result.value.payload
          && s[|s| - 1].call.parent == Some(a.result.value.eventId))
    && (a.result.Ok? && s[|s| - 1].kind != QualityCheck ==>
          s[|s| - 1].kind == StageRun(stage) && s[|s| - 1].reply == a.result
          && CountKind(s, QualityCheck) == left)
  }

  /**
   * The quality loop's counts and result: at most one check per remaining retry; when it succeeds,
   * one re-run per improvement, and either the event a check passed or, with the retries used up,
   * the last re-run's event, unchecked.
   */
  lemma {:induction false} RetriesResult(round: Event -> RoundEnd, o: Orchestrator, stage: Stage, input: Json,
                                         baseName: string, iteration: int, limit: int, current: Event, retries: nat)
    requires RoundsMeetSpec(round, o, stage, input, baseName, iteration)
    ensures LoopOutcome(Retries(round, limit, current, retries), stage, Remaining(limit, retries), current)
    decreases limit - retries
  {
    if retries < limit {
      var end := round(current);
      assert RoundSpec(o, stage, input, baseName, iteration, current, end);
      RoundCounts(o, stage, input, baseName, iteration, current, end);
      if end.Rerun? {
        var rest := Retries(round, limit, end.next, retries + 1);
        RetriesResult(round, o, stage, input, baseName, iteration, limit, end.next, retries + 1);
        CountAppend(end.steps, rest.steps, QualityCheck);
        CountAppend(end.steps, rest.steps, StageRun(stage));
        CountAppend(end.steps, rest.steps, Improvement);
        var s := end.steps + rest.steps;
        if rest.steps != [] {
          assert s[|s| - 1] == rest.steps[|rest.steps| - 1];
        } else {
          assert s[|s| - 1] == end.steps[2];
        }
      }
    }
  }

  /**
   * `_run_with_quality`'s calls: the stage agent runs first with the given input and parent, every
   * later call names the event before it, all belong to the run, and every re-run is fed by the
   * improvement before it; a bound of zero or less returns the first event unchecked, and a bound the
   * comparison rejects raises right after the first run.
   */
  lemma WithQualityLinks(o: Orchestrator, stage: Stage, input: Json, baseName: string, iteration: int,
                         parent: Option<string>)
    ensures var a := WithQuality(o, stage, input, baseName, iteration, parent);
      var s := a.steps;
      && s != [] && s[0] == Step(StageRun(stage), Call(input, baseName, iteration, o.workflowId, parent, None), s[0].reply)
      && Chained(s) && SameRun(o.workflowId, baseName, iteration, s) && Overridden(stage, input, s[1..])
      && (o.retryLimit.Err? ==> a.result.Err? && |s| == 1)
      && (o.retryLimit.Ok? && o.retryLimit.value <= 0 ==> a == Attempt(s[0].reply, [s[0]]))
  {
    var call := Call(input, baseName, iteration, o.workflowId, parent, None);
    var reply := AgentFor(o, stage)(call);
    var first := [Step(StageRun(stage), call, reply)];
    if reply.Ok? && o.retryLimit.Ok? {
      var limit := o.retryLimit.value;
      var round := RoundOf(o, stage, input, baseName, iteration);
      RoundOfMeetsSpec(o, stage, input, baseName, iteration);
      var rest := Retries(round, limit, reply.value, 0);
      RetriesLinks(round, o, stage, input, baseName, iteration, limit, reply.value, 0);
      ChainedAppend(first, rest.steps);
      assert (first + rest.steps)[1..] == rest.steps;
      if limit <= 0 {
        assert first + rest.steps == first;
      }
    }
  }

  /**
   * `_run_with_quality`'s counts and result: no more checks than the bound allows; when it succeeds,
   * the stage agent is called once plus once per improvement, and it returns either the event a check
   * passed or, with the retries used up, the last re-run's event, unchecked.
   */
  lemma WithQualityResult(o: Orchestrator, stage: Stage, input: Json, baseName: string, iteration: int,
                          parent: Option<string>)
    ensures WithQuality(o, stage, input, baseName, iteration, parent).steps != []
    ensures o.retryLimit.Ok? ==>
      StageOutcome(WithQuality(o, stage, input, baseName, iteration, parent), stage, Remaining(o.retryLimit.value, 0))
  {
    var call := Call(input, baseName, iteration, o.workflowId, parent, None);
    var reply := AgentFor(o, stage)(call);
    var first := [Step(StageRun(stage), call, reply)];
    assert CountKind(first[..0], QualityCheck) == 0;
    if reply.Ok? && o.retryLimit.Ok? {
      var limit := o.retryLimit.value;
      var round := RoundOf(o, stage, input, baseName, iteration);
      RoundOfMeetsSpec(o, stage, input, baseName, iteration);
      var rest := Retries(round, limit, reply.value, 0);
      assert WithQuality(o, stage, input, baseName, iteration, parent) == Prefix(first, rest);
      RetriesResult(round, o, stage, input, baseName, iteration, limit, reply.value, 0);
      AfterFirstRun(stage, call, reply.value, Remaining(limit, 0), rest);
    } else {
      assert WithQuality(o, stage, input, baseName, iteration, parent).steps == first;
    }
  }

  /** The stage's first run in front of the quality loop's calls, counted and checked as one. */
  lemma AfterFirstRun(stage: Stage, call: Call, current: Event, left: nat, rest: Attempt)
    requires LoopOutcome(rest, stage, left, current)
    ensures StageOutcome(Prefix([Step(StageRun(stage), call, Ok(current))], rest), stage, left)
  {
    var first := [Step(StageRun(stage), call, Ok(current))];
    var s := first + rest.steps;
    assert CountKind(first[..0], QualityCheck) == 0;
    PrefixCounts(first, rest.steps, stage);
    if rest.steps != [] {
      LastOfAppend(first, rest.steps);
    }
  }

  lemma LastOfAppend(a: seq<Step>, b: seq<Step>)
    requires b != []
    ensures (a + b)[|a + b| - 1] == b[|b| - 1]
  {
  }

  lemma PrefixCounts(a: seq<Step>, b: seq<Step>, stage: Stage)
    ensures CountKind(a + b, QualityCheck) == CountKind(a, QualityCheck) + CountKind(b, QualityCheck)
    ensures CountKind(a + b, StageRun(stage)) == CountKind(a, StageRun(stage)) + CountKind(b, StageRun(stage))
    ensures CountKind(a + b, Improvement) == CountKind(a, Improvement) + CountKind(b, Improvement)
  {
    CountAppend(a, b, QualityCheck);
    CountAppend(a, b, StageRun(stage));
    CountAppend(a, b, Improvement);
  }

  /** The template names the stages of `run` are told about. */
  const FeatureTemplate: string := "feature_setup_template"
  const UsecaseTemplate: string := "usecase_detect_template"
  const IndustryTemplate: string := "industry_class_template"
  const CompanyTemplate: string := "company_assign_template"

  function TemplateOf(stage: Stage): string {
    match stage
    case Feature => FeatureTemplate
    case Usecase => UsecaseTemplate
    case Industry => IndustryTemplate
    case Company => CompanyTemplate
  }

  /**
   * The template name each stage is given, as `run` writes it: every stage rewrites the ORIGINAL
   * `base_name`, the company stage by turning the industry template's name into its own.
   */
  function StageBaseNameAsWritten(stage: Stage, baseName: string): string {
    match stage
    case Feature => ReplaceAll(baseName, UsecaseTemplate, FeatureTemplate)
    case Usecase => ReplaceAll(baseName, FeatureTemplate, UsecaseTemplate)
    case Industry => ReplaceAll(baseName, UsecaseTemplate, IndustryTemplate)
    case Company => ReplaceAll(baseName, IndustryTemplate, CompanyTemplate)
  }

  /**
   * The template name each stage is given, with the company stage's name derived from the industry
   * stage's name, the only name that holds the industry template's name it rewrites.
   */
  function StageBaseName(stage: Stage, baseName: string): string {
    if stage == Company then ReplaceAll(StageBaseNameAsWritten(Industry, baseName), IndustryTemplate, CompanyTemplate)
    else StageBaseNameAsWritten(stage, baseName)
  }

  /** A name that starts with the pattern has it replaced at the front. */
  lemma ReplaceLeading(p: string, t: string, q: string)
    requires p != []
    ensures ReplaceAll(p + t, p, q) == q + ReplaceAll(t, p, q)
  {
    var s := p + t;
    assert s[..|p|] == p && s[|p|..] == t;
  }

  /** A suffix free of the pattern's first character is left alone. */
  lemma ReplaceSkipsAll(t: string, p: string, q: string)
    requires p != [] && p[0] !in t
    ensures ReplaceAll(t, p, q) == t
  {
    ReplaceSkipsPrefix(t, [], p, q);
    assert t + [] == t;
  }

  /**
   * As written, a run started on the use case template (the name the pipeline's templates share,
   * such as `usecase_detect_template_v1`) tells the company stage the use case template's name:
   * that base name holds no industry template name to rewrite.
   */
  lemma CompanyGetsUsecaseNameAsWritten(t: string)
    requires 'i' !in t
    ensures StageBaseNameAsWritten(Company, UsecaseTemplate + t) == UsecaseTemplate + t
  {
    assert 'i' !in UsecaseTemplate;
    ReplaceSkipsAll(UsecaseTemplate + t, IndustryTemplate, CompanyTemplate);
  }

  /**
   * On a base name made of the use case template and a suffix such as a version tag, every stage is
   * told its own template's name with the same suffix.
   */
  lemma StageNamesFollowTemplates(t: string)
    requires 'u' !in t && 'f' !in t && 'i' !in t
    ensures forall stage :: StageBaseName(stage, UsecaseTemplate + t) == TemplateOf(stage) + t
  {
    var base := UsecaseTemplate + t;
    ReplaceLeading(UsecaseTemplate, t, FeatureTemplate);
    ReplaceSkipsAll(t, UsecaseTemplate, FeatureTemplate);
    assert StageBaseName(Feature, base) == FeatureTemplate + t;
    ReplaceSkipsAll(base, FeatureTemplate, UsecaseTemplate);
    assert StageBaseName(Usecase, base) == UsecaseTemplate + t;
    ReplaceLeading(UsecaseTemplate, t, IndustryTemplate);
    ReplaceSkipsAll(t, UsecaseTemplate, IndustryTemplate);
    assert StageBaseName(Industry, base) == IndustryTemplate + t;
    ReplaceLeading(IndustryTemplate, t, CompanyTemplate);
    ReplaceSkipsAll(t, IndustryTemplate, CompanyTemplate);
    assert StageBaseName(Company, base) == CompanyTemplate + t;
  }

  /** The stages `run` goes through, in order. */
  const Pipeline: seq<Stage> := [Feature, Usecase, Industry, Company]

  /** The template name of each stage, for a run on `baseName`, as `run` derives them. */
  function StageNamesAsWritten(baseName: string): Stage -> string {
    (stage: Stage) => StageBaseNameAsWritten(stage, baseName)
  }

  /** The template name of each stage, for a run on `baseName`, with the company stage's name corrected. */
  function StageNames(baseName: string): Stage -> string {
    (stage: Stage) => StageBaseName(stage, baseName)
  }

  /**
   * The four stages of `run` after loading, with the template names `names`: each stage that
   * returns an event hands its payload and event id to the next; the first exception ends the run.
   */
  function Stages(o: Orchestrator, names: Stage -> string, iteration: int, input: Json): seq<Attempt> {
    var feature := WithQuality(o, Feature, input, names(Feature), iteration, None);
    if feature.result.Err? then [feature]
    else
      var f := feature.result.value;
      var usecase := WithQuality(o, Usecase, f.payload, names(Usecase), iteration, Some(f.eventId));
      if usecase.result.Err? then [feature, usecase]
      else
        var u := usecase.result.value;
        var industry := WithQuality(o, Industry, u.payload, names(Industry), iteration, Some(u.eventId));
        if industry.result.Err? then [feature, usecase, industry]
        else
          var i := industry.result.value;
          [feature, usecase, industry, WithQuality(o, Company, i.payload, names(Company), iteration, Some(i.eventId))]
  }

  /** The first call of an attempt runs `stage` on `input` under `parent`, with its own template name. */
  predicate StartsStage(a: Attempt, o: Orchestrator, stage: Stage, name: string, iteration: int, input: Json,
                        parent: Option<string>)
  {
    a.steps != [] && a.steps[0] == Step(StageRun(stage), Call(input, name, iteration, o.workflowId, parent, None), a.steps[0].reply)
  }

  /** The facts `WithQualityLinks` gives about one stage, gathered for `StagesFeedForward`. */
  lemma StageStarts(o: Orchestrator, stage: Stage, input: Json, name: string, iteration: int, parent: Option<string>)
    ensures var a := WithQuality(o, stage, input, name, iteration, parent);
      StartsStage(a, o, stage, name, iteration, input, parent) && Chained(a.steps)
      && SameRun(o.workflowId, name, iteration, a.steps)
  {
    WithQualityLinks(o, stage, input, name, iteration, parent);
  }

  /**
   * `run` chains the stages in order: it makes one to four attempts, stops only at an exception,
   * and starts each stage on the previous stage's payload with the previous event as its parent;
   * every call of a stage carries the workflow id and the stage's template name.
   */
  lemma StagesFeedForward(o: Orchestrator, names: Stage -> string, iteration: int, input: Json)
    ensures var c := Stages(o, names, iteration, input);
      && 1 <= |c| <= |Pipeline|
      && (forall k :: 0 <= k < |c| - 1 ==> c[k].result.Ok?)
      && (|c| < |Pipeline| ==> c[|c| - 1].result.Err?)
      && StartsStage(c[0], o, Feature, names(Feature), iteration, input, None)
      && (forall k, m :: 0 <= k < |c| && m == k + 1 && m < |c| ==>
            c[k].result.Ok?
            && StartsStage(c[m], o, Pipeline[m], names(Pipeline[m]), iteration, c[k].result.value.payload,
                           Some(c[k].result.value.eventId)))
      && (forall k :: 0 <= k < |c| ==>
            Chained(c[k].steps) && SameRun(o.workflowId, names(Pipeline[k]), iteration, c[k].steps))
  {
    var c := Stages(o, names, iteration, input);
    StageStarts(o, Feature, input, names(Feature), iteration, None);
    if |c| > 1 {
      var f := c[0].result.value;
      StageStarts(o, Usecase, f.payload, names(Usecase), iteration, Some(f.eventId));
      if |c| > 2 {
        var u := c[1].result.value;
        StageStarts(o, Industry, u.payload, names(Industry), iteration, Some(u.eventId));
        if |c| > 3 {
          var i := c[2].result.value;
          StageStarts(o, Company, i.payload, names(Company), iteration, Some(i.eventId));
        }
      }
    }
  }

  /** The body of `run` after loading the sample data. */
  method RunStages(o: Orchestrator, names: Stage -> string, iteration: int, input: Json)
    returns (result: Result<Event>, attempts: seq<Attempt>)
    ensures attempts == Stages(o, names, iteration, input)
    ensures attempts != [] && result == attempts[|attempts| - 1].result
  {
    var feature, featureSteps := RunWithQuality(o, Feature, input, names(Feature), iteration, None);
    attempts := [Attempt(feature, featureSteps)];
    if feature.Err? {
      return feature, attempts;
    }
    var usecase, usecaseSteps := RunWithQuality(o, Usecase, feature.value.payload, names(Usecase), iteration,
                                                Some(feature.value.eventId));
    attempts := attempts + [Attempt(usecase, usecaseSteps)];
    if usecase.Err? {
      return usecase, attempts;
    }
    var industry, industrySteps := RunWithQuality(o, Industry, usecase.value.payload, names(Industry), iteration,
                                                  Some(usecase.value.eventId));
    attempts := attempts + [Attempt(industry, industrySteps)];
    if industry.Err? {
      return industry, attempts;
    }
    var company, companySteps := RunWithQuality(o, Company, industry.value.payload, names(Company), iteration,
                                                Some(industry.value.eventId));
    attempts := attempts + [Attempt(company, companySteps)];
    result := company;
  }

  /** Load the sample file once (`load` stands for `json.load`), then run the stages under `names`. */
  method LoadAndRun(o: Orchestrator, store: Store, load: string -> Result<Json>, names: Stage -> string, iteration: int)
    returns (result: Result<Event>, attempts: seq<Attempt>)
    ensures o.sampleFile !in store ==> result == Err(FileNotFound(Name(o.sampleFile))) && attempts == []
    ensures o.sampleFile in store && load(store[o.sampleFile]).Err? ==>
      result == Err(load(store[o.sampleFile]).error) && attempts == []
    ensures o.sampleFile in store && load(store[o.sampleFile]).Ok? ==>
      attempts == Stages(o, names, iteration, load(store[o.sampleFile]).value)
      && attempts != [] && result == attempts[|attempts| - 1].result
  {
    if o.sampleFile !in store {
      return Err(FileNotFound(Name(o.sampleFile))), [];
    }
    var sample := load(store[o.sampleFile]);
    if sample.Err? {
      return Err(sample.error), [];
    }
    result, attempts := RunStages(o, names, iteration, sample.value);
  }

  /**
   * `run`: load the sample file, then run the stages with the template names `run` derives from
   * `base_name`, each from the original name; the company stage's event is the result.
   */
  method Run(o: Orchestrator, store: Store, load: string -> Result<Json>, baseName: string, iteration: int)
    returns (result: Result<Event>, attempts: seq<Attempt>)
    ensures o.sampleFile !in store ==> result == Err(FileNotFound(Name(o.sampleFile))) && attempts == []
    ensures o.sampleFile in store && load(store[o.sampleFile]).Err? ==>
      result == Err(load(store[o.sampleFile]).error) && attempts == []
    ensures o.sampleFile in store && load(store[o.sampleFile]).Ok? ==>
      attempts == Stages(o, StageNamesAsWritten(baseName), iteration, load(store[o.sampleFile]).value)
      && attempts != [] && result == attempts[|attempts| - 1].result
  {
    result, attempts := LoadAndRun(o, store, load, StageNamesAsWritten(baseName), iteration);
  }

  /** `run` as intended: the company stage is told the name derived from the industry stage's name. */
  method RunIntended(o: Orchestrator, store: Store, load: string -> Result<Json>, baseName: string, iteration: int)
    returns (result: Result<Event>, attempts: seq<Attempt>)
    ensures o.sampleFile !in store ==> result == Err(FileNotFound(Name(o.sampleFile))) && attempts == []
    ensures o.sampleFile in store && load(store[o.sampleFile]).Err? ==>
      result == Err(load(store[o.sampleFile]).error) && attempts == []
    ensures o.sampleFile in store && load(store[o.sampleFile]).Ok? ==>
      attempts == Stages(o, StageNames(baseName), iteration, load(store[o.sampleFile]).value)
      && attempts != [] && result == attempts[|attempts| - 1].result
  {
    result, attempts := LoadAndRun(o, store, load, StageNames(baseName), iteration);
  }
}
