/**
 * cli/run_template_batch.py: the first template runner. It names the process after the template file
 * with `_v1` removed and runs the shared template loop with THRESHOLD 0.85 and MAX_ITERATIONS 5 in
 * the relative folder `prompts/templates`, copying a passing file to `<base>_template1.yaml` there.
 * Prompt texts are not logged, and logs are named without a timestamp, so a later log of the same
 * category and name overwrites the earlier one.
 */
module TemplateBatch {
  import opened Wrappers
  import opened Text
  import opened Paths
  import opened TemplateWorkflow
  import TemplateBatchLatest

  const Threshold: real := 0.85
  const MaxIterations: nat := 5

  /** `TEMPLATE_DIR = Path("prompts/templates")`, relative to the working directory. */
  const TemplateDir: FilePath := FilePath(false, ["prompts", "templates"])

  /** `LOG_DIR / category / f"{name}.json"` with `LOG_DIR = Path("logs")`. */
  function LogPath(category: string, name: string): FilePath {
    Join(Join(FilePath(false, ["logs"]), category), name + ".json")
  }

  /** `TEMPLATE_DIR / f"{base_name}_template1.yaml"`. */
  function FinalPath(base: string): FilePath {
    Join(TemplateDir, base + "_template1.yaml")
  }

  /** The loop's settings for the template at `promptPath`. */
  function Settings(promptPath: FilePath): (c: Config)
    ensures Separate(c)
  {
    var base := TemplateBatchLatest.BaseName(promptPath);
    var c := Config(Threshold, MaxIterations, (v: nat) => ImprovedPath(TemplateDir, base, v), FinalPath(base), base, false);
    forall v: nat, w: nat | c.improvedPath(v) == c.improvedPath(w)
      ensures v == w
    {
      ImprovedPathInjective(TemplateDir, base, v, w);
    }
    forall v: nat
      ensures c.improvedPath(v) != c.target
    {
      FinalNotImproved(base, v);
    }
    c
  }

  /** The final template is never one of the improved versions. */
  lemma FinalNotImproved(base: string, v: nat)
    ensures ImprovedPath(TemplateDir, base, v) != FinalPath(base)
  {
    assert Name(ImprovedPath(TemplateDir, base, v))[|base| + 1] == 'v';
    assert Name(FinalPath(base))[|base| + 1] == 't';
  }

  /**
   * `run_template_workflow(prompt_path)`: the first read of the template fails on a missing file;
   * otherwise the loop runs from version 1 (with `fuel` bounding the rounds that retries can add).
   */
  method RunTemplateWorkflow(store: Store, promptPath: FilePath, a: Agents, fuel: nat)
    returns (outcome: Result<Run>, logs: seq<LogEntry>)
    ensures promptPath !in store ==> outcome == Err(FileNotFound(Name(promptPath))) && logs == []
    ensures promptPath in store ==>
      outcome == Ok(Go(Settings(promptPath), a, store, promptPath, 1, 1, fuel))
      && logs == Logs(Settings(promptPath), outcome.value.rounds)
  {
    if promptPath !in store {
      return Err(FileNotFound(Name(promptPath))), [];
    }
    var files, rounds, ending;
    files, rounds, logs, ending := Workflow(Settings(promptPath), a, store, promptPath, fuel);
    outcome := Ok(Run(files, rounds, ending));
  }

  /**
   * Two consecutive rounds write their quality and score logs to the same files, the later
   * overwriting the earlier, exactly when the improvement between them was misaligned and retried.
   */
  lemma RetryOverwritesLogs(store: Store, promptPath: FilePath, a: Agents, fuel: nat, k: nat, category: string)
    requires promptPath in store
    requires k + 1 < |Go(Settings(promptPath), a, store, promptPath, 1, 1, fuel).rounds|
    ensures var c := Settings(promptPath); var g := Go(c, a, store, promptPath, 1, 1, fuel);
      && g.rounds[k].attempt.Some?
      && (LogPath(category, VersionName(c.base, g.rounds[k + 1].version)) == LogPath(category, VersionName(c.base, g.rounds[k].version))
          <==> !g.rounds[k].attempt.value.aligned)
  {
    var c := Settings(promptPath);
    var g := Go(c, a, store, promptPath, 1, 1, fuel);
    GoTrace(c, a, store, promptPath, 1, 1, fuel);
    assert Follows(c, g.rounds[k], g.rounds[k + 1]);
    RetryKeepsVersionName(c, g.rounds[k], g.rounds[k + 1]);
    var n, m := VersionName(c.base, g.rounds[k + 1].version), VersionName(c.base, g.rounds[k].version);
    if LogPath(category, n) == LogPath(category, m) {
      assert Name(LogPath(category, n)) == n + ".json";
      assert n == (n + ".json")[..|n + ".json"| - 5];
      assert m == (m + ".json")[..|m + ".json"| - 5];
    }
  }

  /**
   * Without granted retries at most five evaluations happen and fuel 5 is enough; a passing template
   * is copied to `<base>_template1.yaml`.
   */
  lemma AtMostFiveEvaluations(store: Store, promptPath: FilePath, a: Agents, fuel: nat)
    requires promptPath in store && fuel >= 5
    requires forall n :: !a.retry(n)
    ensures var g := Go(Settings(promptPath), a, store, promptPath, 1, 1, fuel);
      && 1 <= |g.rounds| <= 5 && g.ending in {Copied, CopyOntoItself, MaxIterationsReached, RetryRefused}
      && (g.ending == Copied ==> FinalPath(TemplateBatchLatest.BaseName(promptPath)) in g.files)
  {
    var c := Settings(promptPath);
    GoWithoutRetries(c, a, store, promptPath, 1, 1, fuel);
    GoCounts(c, a, store, promptPath, 1, 1, fuel);
    GoCloses(c, a, store, promptPath, 1, 1, fuel);
  }
}
