/**
 * cli/run_template_batch_v1.py: the template runner with counted versions. It names the process after
 * the template file with `_v1` removed, reads the declared version once (quotes kept), and runs the
 * shared template loop with THRESHOLD 0.90 and MAX_ITERATIONS 3, writing improvements to the
 * templates folder, copying a passing file to the examples folder, and logging prompts too, under
 * `logs/<category>/<name>_<minute>.json`.
 */
module TemplateBatchV1 {
  import opened Wrappers
  import opened Text
  import opened Paths
  import opened YamlVersion
  import opened TemplateWorkflow
  import TemplateBatchLatest

  const Threshold: real := 0.90
  const MaxIterations: nat := 3

  /** `LOG_DIR / category / f"{name}_{timestamp}.json"`, the timestamp being `%y%m%d_%H%M`. */
  function LogPath(root: FilePath, category: string, name: string, timestamp: string): FilePath {
    Join(Join(Join(root, "logs"), category), name + "_" + timestamp + ".json")
  }

  /** Each category has its own folder: logs of different categories never share a file. */
  lemma CategoriesApart(root: FilePath, c1: string, n1: string, t1: string, c2: string, n2: string, t2: string)
    requires c1 != c2
    ensures LogPath(root, c1, n1, t1) != LogPath(root, c2, n2, t2)
  {
    assert Parent(LogPath(root, c1, n1, t1)) == Join(Join(root, "logs"), c1);
    assert Name(Join(Join(root, "logs"), c1)) == c1;
  }

  /**
   * The loop's settings for a template at `promptPath` whose text is `text`: the copy of a passing
   * file is named after the version declared in the first file, which the loop never updates.
   */
  function Settings(root: FilePath, promptPath: FilePath, text: string): (c: Config)
    ensures Separate(c)
  {
    var base := TemplateBatchLatest.BaseName(promptPath);
    var dir := TemplateBatchLatest.TemplateDir(root);
    var c := Config(Threshold, MaxIterations, (v: nat) => ImprovedPath(dir, base, v),
                    TemplateBatchLatest.ExamplePath(root, base, ParseVersionFromYamlKeepQuotes(text)), base, true);
    forall v: nat, w: nat | c.improvedPath(v) == c.improvedPath(w)
      ensures v == w
    {
      ImprovedPathInjective(dir, base, v, w);
    }
    forall v: nat
      ensures c.improvedPath(v) != c.target
    {
      TemplateBatchLatest.TemplateNotExample(root, VersionName(base, v) + ".yaml",
                                             base + "_example_v" + ParseVersionFromYamlKeepQuotes(text) + ".yaml");
    }
    c
  }

  /**
   * `run_template_workflow(prompt_path)`: reading the declared version fails on a missing file
   * before the loop starts; otherwise the loop runs from version 1 (with `fuel` bounding the rounds
   * that retries can add).
   */
  method RunTemplateWorkflow(store: Store, root: FilePath, promptPath: FilePath, a: Agents, fuel: nat)
    returns (outcome: Result<Run>, logs: seq<LogEntry>)
    ensures promptPath !in store ==> outcome == Err(FileNotFound(Name(promptPath))) && logs == []
    ensures promptPath in store ==>
      outcome == Ok(Go(Settings(root, promptPath, store[promptPath]), a, store, promptPath, 1, 1, fuel))
      && logs == Logs(Settings(root, promptPath, store[promptPath]), outcome.value.rounds)
  {
    if promptPath !in store {
      return Err(FileNotFound(Name(promptPath))), [];
    }
    var c := Settings(root, promptPath, store[promptPath]);
    var files, rounds, ending;
    files, rounds, logs, ending := Workflow(c, a, store, promptPath, fuel);
    outcome := Ok(Run(files, rounds, ending));
  }

  /**
   * A template that passes is copied under the version declared in the first file, whichever
   * version of the file passed: `semantic_version` is read once and never updated.
   */
  lemma PassingCopyKeepsFirstVersion(store: Store, root: FilePath, promptPath: FilePath, a: Agents, fuel: nat)
    requires promptPath in store
    requires Go(Settings(root, promptPath, store[promptPath]), a, store, promptPath, 1, 1, fuel).ending == Copied
    ensures var g := Go(Settings(root, promptPath, store[promptPath]), a, store, promptPath, 1, 1, fuel);
      var copy := TemplateBatchLatest.ExamplePath(root, TemplateBatchLatest.BaseName(promptPath),
                                                  ParseVersionFromYamlKeepQuotes(store[promptPath]));
      g.rounds != [] && copy in g.files && g.files[copy] == Last(g.rounds).text && Last(g.rounds).score >= 0.90
  {
    GoCloses(Settings(root, promptPath, store[promptPath]), a, store, promptPath, 1, 1, fuel);
  }

  /**
   * Unless the controller grants a retry, at most three evaluations happen and fuel 3 is enough:
   * the loop ends by passing, at the last version, or on a refused retry.
   */
  lemma AtMostThreeEvaluations(store: Store, root: FilePath, promptPath: FilePath, a: Agents, fuel: nat)
    requires promptPath in store && fuel >= 3
    requires forall n :: !a.retry(n)
    ensures var g := Go(Settings(root, promptPath, store[promptPath]), a, store, promptPath, 1, 1, fuel);
      1 <= |g.rounds| <= 3 && g.ending in {Copied, CopyOntoItself, MaxIterationsReached, RetryRefused}
  {
    var c := Settings(root, promptPath, store[promptPath]);
    GoWithoutRetries(c, a, store, promptPath, 1, 1, fuel);
    GoCounts(c, a, store, promptPath, 1, 1, fuel);
    GoCloses(c, a, store, promptPath, 1, 1, fuel);
  }
}
