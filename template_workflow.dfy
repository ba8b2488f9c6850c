/**
 * The `run_template_workflow` loop that cli/run_template_batch_v1.py and cli/run_template_batch.py
 * share: versions are plain counters from 1; each round scores the current file, logs the
 * evaluation, and unless it stops, writes an improved `<base>_v<n+1>.yaml`, logs the change and asks
 * a fresh controller whether the improvement is aligned. An aligned improvement becomes the current
 * file; a misaligned one is retried from the same file if the controller grants it, and ends the run
 * otherwise.
 */
module TemplateWorkflow {
  import opened Wrappers
  import opened Text
  import opened Paths

  /** What differs between the two runners. */
  datatype Config = Config(
    threshold: real,               // THRESHOLD
    maxIterations: nat,            // MAX_ITERATIONS
    improvedPath: nat -> FilePath, // where the improvement to a version goes
    target: FilePath,              // where a passing file is copied
    base: string,                  // the process name
    logsPrompts: bool)             // whether prompt texts are logged too

  /**
   * The agents, as oracles. Each call also receives the number of the round it is made in, so that
   * repeated calls on the same input may answer differently.
   */
  datatype Agents = Agents(
    quality: (string, string, nat, nat) -> (real, string),   // (text, base, version, round) to (score, feedback)
    improve: (string, string, nat) -> (string, string),      // (text, feedback, round) to (improved, rationale)
    aligned: (string, string, nat) -> bool,                  // (improved, feedback, round): check_alignment
    retry: nat -> bool)                                       // (round): request_retry

  /** The improvement of a round: the file written, its text, and the controller's answers. */
  datatype Attempt = Attempt(path: FilePath, text: string, rationale: string, aligned: bool, retryGranted: bool)

  /** One pass of the loop body. */
  datatype Round = Round(round: nat, version: nat, path: FilePath, text: string, score: real, feedback: string,
                         attempt: Option<Attempt>)

  /** How the loop ended; `OutOfFuel` is the model's bound on retries granted without end. */
  datatype Ending = Copied | CopyOntoItself | MaxIterationsReached | RetryRefused | NotRun | OutOfFuel

  /** The files afterwards, the rounds in order, and how the loop ended. */
  datatype Run = Run(files: Store, rounds: seq<Round>, ending: Ending)

  /** `f"{base_name}_v{version}"`. */
  function VersionName(base: string, version: nat): string {
    base + "_v" + NatToDecimal(version)
  }

  /** `TEMPLATE_DIR / f"{base_name}_v{next_version}.yaml"`: the runners' `improvedPath`. */
  function ImprovedPath(dir: FilePath, base: string, version: nat): FilePath {
    Join(dir, VersionName(base, version) + ".yaml")
  }

  /** Distinct versions have distinct names. */
  lemma VersionNameInjective(base: string, v: nat, w: nat, suffix: string)
    requires VersionName(base, v) + suffix == VersionName(base, w) + suffix
    ensures v == w
  {
    var a, b := NatToDecimal(v), NatToDecimal(w);
    assert |a| == |b|;
    assert a == (VersionName(base, v) + suffix)[|base| + 2..|base| + 2 + |a|];
    assert b == (VersionName(base, w) + suffix)[|base| + 2..|base| + 2 + |b|];
    DecimalRoundTrip(v);
    DecimalRoundTrip(w);
  }

  /** Distinct versions name distinct files. */
  lemma ImprovedPathInjective(dir: FilePath, base: string, v: nat, w: nat)
    requires ImprovedPath(dir, base, v) == ImprovedPath(dir, base, w)
    ensures v == w
  {
    assert Name(ImprovedPath(dir, base, v)) == VersionName(base, v) + ".yaml";
    VersionNameInjective(base, v, w, ".yaml");
  }

  function Prepend(r: Round, run: Run): Run {
    Run(run.files, [r] + run.rounds, run.ending)
  }

  /** What one pass of the loop body leads to: the run stops, or goes on from a new state. */
  datatype Pass =
    | Stop(files: Store, r: Round, ending: Ending)
    | Continue(files: Store, path: FilePath, version: nat, r: Round)

  /**
   * One pass of the loop body: score; copy and stop at the threshold; stop at the last version;
   * otherwise improve, write the improvement, and ask the controller.
   */
  function Body(c: Config, a: Agents, files: Store, path: FilePath, version: nat, round: nat): (p: Pass)
    requires path in files && version <= c.maxIterations
    ensures p.r.round == round && p.r.version == version && p.r.path == path && p.r.text == files[path]
    ensures p.Continue? ==> && p.path in p.files && version < c.maxIterations
                            && p.r.score < c.threshold && p.r.attempt.Some?
                            && (if p.r.attempt.value.aligned then p.version == version + 1 && p.path == p.r.attempt.value.path
                                else p.r.attempt.value.retryGranted && p.version == version && p.path == path)
    ensures p.r.attempt.Some? ==> var t := p.r.attempt.value;
      t.path == c.improvedPath(version + 1) && p.files == files[t.path := t.text]
  {
    var text := files[path];
    var evaluation := a.quality(text, c.base, version, round);
    var score := evaluation.0;
    if score >= c.threshold then
      var r := Round(round, version, path, text, score, evaluation.1, None);
      if path == c.target then Stop(files, r, CopyOntoItself) else Stop(files[c.target := text], r, Copied)
    else if version == c.maxIterations then
      Stop(files, Round(round, version, path, text, score, evaluation.1, None), MaxIterationsReached)
    else
      var improvement := a.improve(text, evaluation.1, round);
      var next := c.improvedPath(version + 1);
      var ok := a.aligned(improvement.0, evaluation.1, round);
      var granted := !ok && a.retry(round);
      var r := Round(round, version, path, text, score, evaluation.1,
                     Some(Attempt(next, improvement.0, improvement.1, ok, granted)));
      if ok then Continue(files[next := improvement.0], next, version + 1, r)
      else if granted then Continue(files[next := improvement.0], path, version, r)
      else Stop(files[next := improvement.0], r, RetryRefused)
  }

  /**
   * The loop from a state: the current file and version, the round number, and the fuel left;
   * `while version <= MAX_ITERATIONS`.
   */
  function Go(c: Config, a: Agents, files: Store, path: FilePath, version: nat, round: nat, fuel: nat): Run
    requires path in files
    decreases fuel, 1
  {
    if version > c.maxIterations then Run(files, [], NotRun)
    else if fuel == 0 then Run(files, [], OutOfFuel)
    else Step(c, a, files, path, version, round, fuel)
  }

  /** A round of the loop, then the loop from where it leads. */
  function Step(c: Config, a: Agents, files: Store, path: FilePath, version: nat, round: nat, fuel: nat): Run
    requires path in files && version <= c.maxIterations && fuel > 0
    decreases fuel, 0
  {
    match Body(c, a, files, path, version, round)
    case Stop(f, r, e) => Run(f, [r], e)
    case Continue(f, p, v, r) => Prepend(r, Go(c, a, f, p, v, round + 1, fuel - 1))
  }

  function Last(rounds: seq<Round>): Round
    requires rounds != []
  {
    rounds[|rounds| - 1]
  }

  /**
   * Round `s` is the pass after round `r`: `r` fell short of the threshold and made an improvement;
   * an aligned one is the file `s` scores, at the next version; a misaligned one had its retry
   * granted, and `s` scores the same file at the same version again.
   */
  predicate Follows(c: Config, r: Round, s: Round) {
    && r.score < c.threshold
    && r.attempt.Some?
    && s.round == r.round + 1
    && (if r.attempt.value.aligned then s.version == r.version + 1 && s.path == r.attempt.value.path
        else r.attempt.value.retryGranted && s.version == r.version && s.path == r.path)
  }

  predicate Chained(c: Config, rounds: seq<Round>) {
    forall k :: 0 <= k < |rounds| - 1 ==> Follows(c, rounds[k], rounds[k + 1])
  }

  /**
   * A run is `NotRun` exactly when it starts past `MAX_ITERATIONS`, and makes at most one round per
   * unit of fuel, all of them when it runs out.
   */
  lemma {:induction false} GoCounts(c: Config, a: Agents, files: Store, path: FilePath, version: nat, round: nat, fuel: nat)
    requires path in files
    ensures var g := Go(c, a, files, path, version, round, fuel);
      && (g.ending == NotRun <==> version > c.maxIterations)
      && |g.rounds| <= fuel
      && (g.ending == OutOfFuel ==> |g.rounds| == fuel)
    decreases fuel
  {
    if version <= c.maxIterations && fuel > 0 {
      assert Go(c, a, files, path, version, round, fuel) == Step(c, a, files, path, version, round, fuel);
      match Body(c, a, files, path, version, round)
      case Stop(f, r, e) =>
      case Continue(f, p, v, r) =>
        GoCounts(c, a, f, p, v, round + 1, fuel - 1);
    }
  }

  /**
   * The rounds of a run: the first scores the start file at the start version; each follows the one
   * before; they are numbered on from the start; and versions stay between the start version and
   * `MAX_ITERATIONS`.
   */
  lemma {:induction false} GoTrace(c: Config, a: Agents, files: Store, path: FilePath, version: nat, round: nat, fuel: nat)
    requires path in files
    ensures var g := Go(c, a, files, path, version, round, fuel);
      && (g.rounds != [] ==> g.rounds[0].path == path && g.rounds[0].text == files[path] && g.rounds[0].version == version)
      && Chained(c, g.rounds)
      && (forall k :: 0 <= k < |g.rounds| ==> g.rounds[k].round == round + k)
      && (forall k :: 0 <= k < |g.rounds| ==> version <= g.rounds[k].version <= c.maxIterations)
    decreases fuel
  {
    if version <= c.maxIterations && fuel > 0 {
      assert Go(c, a, files, path, version, round, fuel) == Step(c, a, files, path, version, round, fuel);
      match Body(c, a, files, path, version, round)
      case Stop(f, r, e) =>
      case Continue(f, p, v, r) =>
        GoTrace(c, a, f, p, v, round + 1, fuel - 1);
        var rest := Go(c, a, f, p, v, round + 1, fuel - 1);
        assert rest.rounds != [] ==> Follows(c, r, rest.rounds[0]);
        ChainedCons(c, r, rest.rounds);
    }
  }

  lemma ChainedCons(c: Config, r: Round, rest: seq<Round>)
    requires Chained(c, rest) && (rest != [] ==> Follows(c, r, rest[0]))
    ensures Chained(c, [r] + rest)
  {
    var s := [r] + rest;
    forall k | 0 <= k < |s| - 1
      ensures Follows(c, s[k], s[k + 1])
    {
      if k > 0 {
        assert s[k] == rest[k - 1] && s[k + 1] == rest[k];
      }
    }
  }

  /**
   * How a run that made its rounds ended says what its last round saw: a pass copies the scored text
   * to the target (or stops with the copy onto itself); the last version stops short of the
   * threshold without improving; a refused retry follows a misaligned improvement.
   */
  predicate Closes(c: Config, g: Run) {
    match g.ending
    case Copied =>
      g.rounds != [] && Last(g.rounds).score >= c.threshold && Last(g.rounds).attempt.None?
      && Last(g.rounds).path != c.target && c.target in g.files && g.files[c.target] == Last(g.rounds).text
    case CopyOntoItself =>
      g.rounds != [] && Last(g.rounds).score >= c.threshold && Last(g.rounds).attempt.None?
      && Last(g.rounds).path == c.target
    case MaxIterationsReached =>
      g.rounds != [] && Last(g.rounds).score < c.threshold && Last(g.rounds).attempt.None?
      && Last(g.rounds).version == c.maxIterations
    case RetryRefused =>
      g.rounds != [] && Last(g.rounds).score < c.threshold && Last(g.rounds).attempt.Some?
      && !Last(g.rounds).attempt.value.aligned && !Last(g.rounds).attempt.value.retryGranted
    case NotRun => g.rounds == []
    case OutOfFuel => true
  }

  lemma {:induction false} GoCloses(c: Config, a: Agents, files: Store, path: FilePath, version: nat, round: nat, fuel: nat)
    requires path in files
    ensures Closes(c, Go(c, a, files, path, version, round, fuel))
    decreases fuel
  {
    if version <= c.maxIterations && fuel > 0 {
      assert Go(c, a, files, path, version, round, fuel) == Step(c, a, files, path, version, round, fuel);
      match Body(c, a, files, path, version, round)
      case Stop(f, r, e) =>
      case Continue(f, p, v, r) =>
        GoCloses(c, a, f, p, v, round + 1, fuel - 1);
        GoCounts(c, a, f, p, v, round + 1, fuel - 1);
        var rest := Go(c, a, f, p, v, round + 1, fuel - 1);
        var g := Go(c, a, files, path, version, round, fuel);
        assert g.rounds == [r] + rest.rounds;
        if rest.rounds != [] {
          assert Last(g.rounds) == Last(rest.rounds);
        }
    }
  }

  /**
   * Without granted retries every round moves to the next version, so the loop makes at most one
   * round per version left and never needs more fuel than that.
   */
  lemma {:induction false} GoWithoutRetries(c: Config, a: Agents, files: Store, path: FilePath, version: nat, round: nat, fuel: nat)
    requires path in files && version <= c.maxIterations
    requires forall n :: !a.retry(n)
    ensures var g := Go(c, a, files, path, version, round, fuel);
      |g.rounds| <= c.maxIterations + 1 - version && (fuel > c.maxIterations - version ==> g.ending != OutOfFuel)
    decreases fuel
  {
    if fuel > 0 {
      assert Go(c, a, files, path, version, round, fuel) == Step(c, a, files, path, version, round, fuel);
      match Body(c, a, files, path, version, round)
      case Stop(f, r, e) =>
      case Continue(f, p, v, r) =>
        GoWithoutRetries(c, a, f, p, v, round + 1, fuel - 1);
    }
  }

  /** No two versions share an improvement file, and none is the target. */
  ghost predicate Separate(c: Config) {
    && (forall v, w :: c.improvedPath(v) == c.improvedPath(w) ==> v == w)
    && (forall v :: c.improvedPath(v) != c.target)
  }

  /**
   * A loop at `version` writes only the target and the improvements to later versions: any other
   * file is left as it was.
   */
  lemma {:induction false} GoLeavesOthers(c: Config, a: Agents, files: Store, path: FilePath, version: nat, round: nat, fuel: nat,
                                          q: FilePath)
    requires path in files
    requires q != c.target && forall w :: w > version ==> c.improvedPath(w) != q
    ensures var g := Go(c, a, files, path, version, round, fuel);
      (q in g.files <==> q in files) && (q in files ==> g.files[q] == files[q])
    decreases fuel
  {
    if version <= c.maxIterations && fuel > 0 {
      assert Go(c, a, files, path, version, round, fuel) == Step(c, a, files, path, version, round, fuel);
      match Body(c, a, files, path, version, round)
      case Stop(f, r, e) =>
      case Continue(f, p, v, r) =>
        GoLeavesOthers(c, a, f, p, v, round + 1, fuel - 1, q);
    }
  }

  /**
   * An aligned improvement is never overwritten: once the loop moves on to it, later rounds write
   * only the improvements to later versions (and the target, which is none of them).
   */
  lemma {:induction false} GoKeepsAligned(c: Config, a: Agents, files: Store, path: FilePath, version: nat, round: nat, fuel: nat,
                                          k: nat)
    requires path in files && Separate(c)
    requires var g := Go(c, a, files, path, version, round, fuel);
      k < |g.rounds| && g.rounds[k].attempt.Some? && g.rounds[k].attempt.value.aligned
    ensures var g := Go(c, a, files, path, version, round, fuel); var t := g.rounds[k].attempt.value;
      t.path in g.files && g.files[t.path] == t.text
    decreases fuel
  {
    assert Go(c, a, files, path, version, round, fuel) == Step(c, a, files, path, version, round, fuel);
    match Body(c, a, files, path, version, round)
    case Stop(f, r, e) =>
    case Continue(f, p, v, r) =>
      var rest := Go(c, a, f, p, v, round + 1, fuel - 1);
      assert Go(c, a, files, path, version, round, fuel).rounds == [r] + rest.rounds;
      if k == 0 {
        var t := r.attempt.value;
        assert t.path == c.improvedPath(v);
        GoLeavesOthers(c, a, f, p, v, round + 1, fuel - 1, t.path);
      } else {
        assert rest.rounds[k - 1] == Go(c, a, files, path, version, round, fuel).rounds[k];
        GoKeepsAligned(c, a, f, p, v, round + 1, fuel - 1, k - 1);
      }
  }

  /**
   * Consecutive rounds are logged under the same version name exactly when the improvement between
   * them was misaligned and retried.
   */
  lemma RetryKeepsVersionName(c: Config, r: Round, s: Round)
    requires Follows(c, r, s)
    ensures VersionName(c.base, s.version) == VersionName(c.base, r.version) <==> !r.attempt.value.aligned
  {
    if VersionName(c.base, s.version) == VersionName(c.base, r.version) {
      assert VersionName(c.base, s.version) + "" == VersionName(c.base, r.version) + "";
      VersionNameInjective(c.base, s.version, r.version, "");
    }
  }

  /** What `write_log` is given: the category, the name, and the data (JSON encoding not modelled). */
  datatype LogData =
    | PromptContent(content: string)
    | FeedbackData(feedback: string)
    | ScoreData(score: real)
    | Change(versionFrom: nat, versionTo: nat, before: string, after: string, rationale: string)

  datatype LogEntry = LogEntry(category: string, name: string, data: LogData)

  /** The logs of a round: its evaluation, then its improvement if it made one. */
  function RoundLogs(c: Config, r: Round): seq<LogEntry> {
    var name := VersionName(c.base, r.version);
    var evaluation :=
      (if c.logsPrompts then [LogEntry("prompt_log", name, PromptContent(r.text))] else [])
      + [LogEntry("quality_log", name, FeedbackData(r.feedback)), LogEntry("weighted_score", name, ScoreData(r.score))];
    match r.attempt
    case None => evaluation
    case Some(t) =>
      var next := VersionName(c.base, r.version + 1);
      evaluation
      + (if c.logsPrompts then [LogEntry("prompt_log", next, PromptContent(t.text))] else [])
      + [LogEntry("feedback_log", next, FeedbackData(r.feedback)),
         LogEntry("change_log", name + "_to_v" + NatToDecimal(r.version + 1),
                  Change(r.version, r.version + 1, r.text, t.text, t.rationale))]
  }

  /** The logs of the rounds, in order. */
  function Logs(c: Config, rounds: seq<Round>): seq<LogEntry>
    decreases |rounds|
  {
    if rounds == [] then [] else Logs(c, rounds[..|rounds| - 1]) + RoundLogs(c, rounds[|rounds| - 1])
  }

  /** One more round on the trace. */
  function Extend(rounds: seq<Round>, r: Round): (s: seq<Round>)
    ensures s == rounds + [r] && s[..|rounds|] == rounds
  {
    var s := rounds + [r];
    assert s[..|rounds|] == rounds;
    s
  }

  lemma Regroup(a: seq<Round>, r: Round, b: seq<Round>)
    ensures a + ([r] + b) == (a + [r]) + b
  {
  }

  /** Writes the logs of one more round. */
  method Record(c: Config, rounds: seq<Round>, logs: seq<LogEntry>, r: Round)
    returns (rounds': seq<Round>, logs': seq<LogEntry>)
    requires logs == Logs(c, rounds)
    ensures rounds' == rounds + [r] && logs' == Logs(c, rounds') && logs' == logs + RoundLogs(c, r)
  {
    rounds' := Extend(rounds, r);
    logs' := logs + RoundLogs(c, r);
  }

  /**
   * One pass of the loop body, with its logs: the run from the current state is this round followed
   * by the run from the state the pass leads to, unless the pass stops.
   */
  method Advance(c: Config, a: Agents, files: Store, path: FilePath, version: nat, round: nat, fuel: nat,
                 rounds: seq<Round>, logs: seq<LogEntry>)
    returns (pass: Pass, rounds': seq<Round>, logs': seq<LogEntry>)
    requires path in files && version <= c.maxIterations && fuel > 0 && logs == Logs(c, rounds)
    ensures pass == Body(c, a, files, path, version, round)
    ensures rounds' == rounds + [pass.r] && logs' == Logs(c, rounds')
    ensures pass.Stop? ==> Go(c, a, files, path, version, round, fuel) == Run(pass.files, [pass.r], pass.ending)
    ensures pass.Continue? ==> pass.path in pass.files
    ensures pass.Continue? ==>
      Go(c, a, files, path, version, round, fuel) == Prepend(pass.r, Go(c, a, pass.files, pass.path, pass.version, round + 1, fuel - 1))
  {
    pass := Body(c, a, files, path, version, round);
    rounds', logs' := Record(c, rounds, logs, pass.r);
    assert Go(c, a, files, path, version, round, fuel) == Step(c, a, files, path, version, round, fuel);
  }

  /**
   * `run_template_workflow`'s loop from the prompt file at version 1, with `fuel` bounding the number
   * of rounds.
   */
  method Workflow(c: Config, a: Agents, store: Store, promptPath: FilePath, fuel: nat)
    returns (files: Store, rounds: seq<Round>, logs: seq<LogEntry>, ending: Ending)
    requires promptPath in store
    ensures Run(files, rounds, ending) == Go(c, a, store, promptPath, 1, 1, fuel)
    ensures logs == Logs(c, rounds)
  {
    ghost var whole := Go(c, a, store, promptPath, 1, 1, fuel);
    files, rounds, logs := store, [], [];
    var path: FilePath, version: nat, round: nat, fuelLeft: nat := promptPath, 1, 1, fuel;
    while version <= c.maxIterations
      invariant path in files
      invariant var g := Go(c, a, files, path, version, round, fuelLeft);
        whole.files == g.files && whole.rounds == rounds + g.rounds && whole.ending == g.ending
      invariant logs == Logs(c, rounds)
      decreases fuelLeft
    {
      if fuelLeft == 0 {
        ending := OutOfFuel;
        assert rounds + [] == rounds;
        return;
      }
      ghost var before := rounds;
      var pass;
      pass, rounds, logs := Advance(c, a, files, path, version, round, fuelLeft, rounds, logs);
      files := pass.files;
      if pass.Stop? {
        ending := pass.ending;
        return;
      }
      path, version, round, fuelLeft := pass.path, pass.version, round + 1, fuelLeft - 1;
      Regroup(before, pass.r, Go(c, a, files, path, version, round, fuelLeft).rounds);
    }
    ending := NotRun;
    assert rounds + [] == rounds;
  }
}
