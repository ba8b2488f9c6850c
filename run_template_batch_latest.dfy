/**
 * cli/run_template_batch_latest.py: the template runner. It names the process after the template
 * file with `_v1` removed, reads the file's declared version, and loops evaluate → improve →
 * controller with the improved versions written to the templates folder, until the template passes
 * (and is copied to the examples folder under its version), the controller aborts, or the
 * iterations run out.
 */
module TemplateBatchLatest {
  import opened Wrappers
  import opened Text
  import opened Paths
  import opened YamlVersion
  import opened PatchLoop

  /** `TEMPLATE_DIR`: where the improved templates go. */
  function TemplateDir(root: FilePath): FilePath { Join(Join(root, "prompts"), "00-templates") }

  /** `EXAMPLE_DIR`: where a passing template is copied. */
  function ExampleDir(root: FilePath): FilePath { Join(Join(root, "prompts"), "01-examples") }

  /** `current_path.stem.replace("_v1", "")`. */
  function BaseName(promptPath: FilePath): string {
    ReplaceAll(Stem(Name(promptPath)), "_v1", "")
  }

  /** A template named `<name>_v1.yaml` runs under `<name>`. */
  lemma BaseNameOfFirstTemplate(dir: FilePath, n: string)
    requires n != [] && '_' !in n
    ensures BaseName(Join(dir, n + "_v1.yaml")) == n
  {
    assert n + "_v1.yaml" == (n + "_v1") + ".yaml";
    StemOfYaml(n + "_v1");
    ReplaceSkipsPrefix(n, "_v1", "_v1", "");
    assert ReplaceAll("_v1", "_v1", "") == "";
  }

  /**
   * The replacement also strikes a `_v1` inside a longer version: the improved file
   * `<name>_v1.0.0.yaml` runs under `<name>.0.0`, not `<name>`.
   */
  lemma BaseNameOfVersionedTemplate(dir: FilePath, n: string)
    requires n != [] && '_' !in n
    ensures BaseName(Join(dir, n + "_v1.0.0.yaml")) == n + ".0.0"
  {
    assert n + "_v1.0.0.yaml" == (n + "_v1.0.0") + ".yaml";
    StemOfYaml(n + "_v1.0.0");
    assert n + "_v1.0.0" == n + ("_v1" + ".0.0");
    ReplaceSkipsPrefix(n, "_v1" + ".0.0", "_v1", "");
    assert ReplaceAll("_v1" + ".0.0", "_v1", "") == ReplaceAll(".0.0", "_v1", "") by {
      assert ("_v1" + ".0.0")[3..] == ".0.0";
    }
    ReplaceSkipsPrefix(".0.0", [], "_v1", "");
    assert ".0.0" + [] == ".0.0";
  }

  /** `EXAMPLE_DIR / f"{base_name}_example_v{semantic_version}.yaml"`. */
  function ExamplePath(root: FilePath, base: string, version: string): FilePath {
    Join(ExampleDir(root), base + "_example_v" + version + ".yaml")
  }

  /** No file of the template directory is a file of the example directory. */
  lemma TemplateNotExample(root: FilePath, n: string, m: string)
    ensures Join(TemplateDir(root), n) != Join(ExampleDir(root), m)
  {
    assert Name(TemplateDir(root))[1] != Name(ExampleDir(root))[1];
  }

  /** The example copy never bears the name of an improved version. */
  lemma ExampleNameDiffers(root: FilePath, base: string, v: string, w: string)
    ensures Name(ExamplePath(root, base, v)) != VersionedName(base, w)
  {
    assert VersionedName(base, w)[|base| + 1] == 'v';
    assert Name(ExamplePath(root, base, v))[|base| + 1] == 'e';
  }

  /**
   * `evaluate_and_improve_prompt(prompt_path)` with THRESHOLD, MAX_ITERATIONS and the repository
   * root as parameters, and the three agents (the quality agent on the "template" matrix) as oracles.
   * Returns the files afterwards, the trace, and how the run ended.
   */
  method EvaluateAndImprovePrompt(store: Store, root: FilePath, promptPath: FilePath, threshold: real,
                                  maxIterations: int, quality: Quality, improve: Improver, controller: Controller)
    returns (files: Store, steps: seq<Step>, outcome: Outcome)
    ensures promptPath !in store ==> steps == [] && files == store && outcome == Raised(FileNotFound(Name(promptPath)))
    ensures promptPath in store ==> LoopRun(store, promptPath, TemplateDir(root), BaseName(promptPath),
      ParseVersionFromYaml(store[promptPath]), threshold, maxIterations, quality, improve, controller,
      store + Writes(steps), steps, AtBreak(outcome))
    ensures outcome != Passed
    ensures outcome == Promoted ==>
      (&& steps != [] && Last(steps).path != ExamplePath(root, BaseName(promptPath), Last(steps).version)
       && files == (store + Writes(steps))[ExamplePath(root, BaseName(promptPath), Last(steps).version) := Last(steps).text])
    ensures outcome == Raised(SameFileError) ==>
      steps != [] && Last(steps).path == ExamplePath(root, BaseName(promptPath), Last(steps).version)
    ensures outcome != Promoted ==> files == store + Writes(steps)
  {
    if promptPath !in store {
      files, steps, outcome := store, [], Raised(FileNotFound(Name(promptPath)));
      return;
    }
    var base := ReplaceAll(Stem(Name(promptPath)), "_v1", "");
    var version := ParseVersionFromYaml(store[promptPath]);
    files, steps, outcome := ImproveLoop(store, promptPath, TemplateDir(root), base, version, threshold,
                                         maxIterations, quality, improve, controller);
    LoopWritesImprovements(store, promptPath, TemplateDir(root), base, version, threshold, maxIterations,
                           quality, improve, controller, files, steps, outcome);
    ghost var atBreak := outcome;
    if outcome == Passed {
      var last := Last(steps);
      var finalPath := ExamplePath(root, base, last.version);
      if last.path == finalPath {
        outcome := Raised(SameFileError);
      } else {
        files := files[finalPath := last.text];
        outcome := Promoted;
      }
    }
    assert AtBreak(outcome) == atBreak;
  }

  /** The example copy leaves an improved version's file alone. */
  lemma CopySparesImprovement(w: Store, root: FilePath, base: string, version: string, text: string, n: Improvement)
    requires n.path in w && w[n.path] == n.text && Name(n.path) == VersionedName(base, n.version)
    ensures n.path in w[ExamplePath(root, base, version) := text] && w[ExamplePath(root, base, version) := text][n.path] == n.text
  {
    ExampleNameDiffers(root, base, version, n.version);
  }

  /** After the copy, every improved version written along the way is still on disk as written. */
  lemma CopyKeepsImprovements(store: Store, steps: seq<Step>, root: FilePath, base: string,
                              threshold: real, quality: Quality, improve: Improver, controller: Controller,
                              text: string, version: string)
    requires Linked(steps) && AllFollow(steps, TemplateDir(root), base, threshold, quality, improve, controller)
    ensures forall k :: 0 <= k < |steps| && steps[k].next.Some? ==>
      var n := steps[k].next.value;
      var files := (store + Writes(steps))[ExamplePath(root, base, version) := text];
      n.path in files && files[n.path] == n.text
  {
    var w := store + Writes(steps);
    TraceFilesHold(store, steps, TemplateDir(root), base, threshold, quality, improve, controller);
    forall k | 0 <= k < |steps| && steps[k].next.Some?
      ensures var n := steps[k].next.value;
        n.path in w[ExamplePath(root, base, version) := text] && w[ExamplePath(root, base, version) := text][n.path] == n.text
    {
      assert Follows(steps[k], TemplateDir(root), base, threshold, quality, improve, controller);
      CopySparesImprovement(w, root, base, version, text, steps[k].next.value);
    }
  }
}
