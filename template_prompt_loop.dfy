/**
 * workflows/template_prompt_loop.py: the plain template loop. Each version of the prompt is scored,
 * its feedback saved next to it under a minute timestamp; a passing version is copied to
 * `<base>_final.yaml`, the last allowed version stops the loop, and otherwise the improved text is
 * written as the next version, which the next pass reads. There is no controller.
 */
module TemplatePromptLoop {
  import opened Wrappers
  import opened Text
  import opened Paths
  import opened JsonValues
  import TemplateWorkflow
  import TemplateBatchLatest

  /** The agents, as oracles: the quality agent and the improvement agent, told the version too. */
  datatype Agents = Agents(
    quality: (string, nat) -> (real, Json),   // (text, version) to (score, feedback)
    improve: (string, Json, nat) -> string)   // (text, feedback, version) to the improved text

  /**
   * The parameters, with `json.dumps(feedback, indent=2, ensure_ascii=False)` as `dump` and, for the
   * loop as intended, the minute stamp `%y%m%d_%H%M` taken when each version is scored as `clock`.
   */
  datatype Setup = Setup(threshold: real, maxIterations: int, dump: Json -> string, clock: nat -> string)

  /** One pass: the version scored, its file and text, the verdict, and the improvement if one was made. */
  datatype Evaluation = Evaluation(version: nat, path: FilePath, text: string, score: real, feedback: Json,
                                   improved: Option<string>)

  /** How the loop ended; copying a file onto itself raises `shutil.SameFileError`. */
  datatype Ending = Final | CopyOntoItself | MaxIterationsReached | NoIterations

  datatype Outcome = Outcome(files: Store, evaluations: seq<Evaluation>, ending: Ending)

  /** `parent_dir / f"{base_name}_v{version}_feedback_{timestamp}.json"`. */
  function FeedbackPath(dir: FilePath, base: string, version: nat, timestamp: string): FilePath {
    Join(dir, base + "_v" + NatToDecimal(version) + "_feedback_" + timestamp + ".json")
  }

  /** `parent_dir / f"{base_name}_final.yaml"`. */
  function FinalPath(dir: FilePath, base: string): FilePath {
    Join(dir, base + "_final.yaml")
  }

  /** `parent_dir / f"{base_name}_v{version}.yaml"`. */
  function VersionPath(dir: FilePath, base: string, version: nat): FilePath {
    TemplateWorkflow.ImprovedPath(dir, base, version)
  }

  /** The loop from the file at `path` and `version`, which runs while `version` is within the limit. */
  function Loop(s: Setup, a: Agents, dir: FilePath, base: string, files: Store, path: FilePath, version: nat): Outcome
    requires path in files
    decreases s.maxIterations - version, 1
  {
    if version > s.maxIterations then Outcome(files, [], NoIterations) else Pass(s, a, dir, base, files, path, version)
  }

  /**
   * One pass and what follows it: score and save the feedback; copy and stop on a pass; stop at the
   * last version; otherwise write the improvement as the next version and go on from it.
   */
  function Pass(s: Setup, a: Agents, dir: FilePath, base: string, files: Store, path: FilePath, version: nat): Outcome
    requires path in files && version <= s.maxIterations
    decreases s.maxIterations - version, 0
  {
    var text := files[path];
    var verdict := a.quality(text, version);
    var written := files[FeedbackPath(dir, base, version, s.clock(version)) := s.dump(verdict.1)];
    if verdict.0 >= s.threshold then
      var e := Evaluation(version, path, text, verdict.0, verdict.1, None);
      var final := FinalPath(dir, base);
      if final == path then Outcome(written, [e], CopyOntoItself)
      else Outcome(written[final := written[path]], [e], Final)
    else if version == s.maxIterations then
      Outcome(written, [Evaluation(version, path, text, verdict.0, verdict.1, None)], MaxIterationsReached)
    else
      var improved := a.improve(text, verdict.1, version);
      var next := VersionPath(dir, base, version + 1);
      var rest := Loop(s, a, dir, base, written[next := improved], next, version + 1);
      Outcome(rest.files, [Evaluation(version, path, text, verdict.0, verdict.1, Some(improved))] + rest.evaluations,
              rest.ending)
  }

  /** What `.strftime` raises on the `str` that `cet_now()` returns. */
  const StrHasNoStrftime: Error := AttributeError("'str' object has no attribute 'strftime'")

  /**
   * `run_template_loop(prompt_path, score_threshold, max_iterations)` as written. `construction` is
   * the exception building the two agents raised, if any, and `quality` the quality agent's
   * `run(prompt_text)`, which may raise. The first pass reads and scores the prompt and then asks
   * the `str` that `cet_now()` returns for `strftime`, which raises: the loop never writes a file.
   */
  method RunTemplateLoop(store: Store, promptPath: FilePath, s: Setup, construction: Option<Error>,
                         quality: string -> Result<(real, Json)>)
    returns (outcome: Result<Outcome>)
    ensures construction.Some? ==> outcome == Err(construction.value)
    ensures construction.None? && s.maxIterations < 1 ==> outcome == Ok(Outcome(store, [], NoIterations))
    ensures construction.None? && 1 <= s.maxIterations && promptPath !in store ==>
      outcome == Err(FileNotFound(Name(promptPath)))
    ensures construction.None? && 1 <= s.maxIterations && promptPath in store ==>
      outcome == Err(if quality(store[promptPath]).Err? then quality(store[promptPath]).error else StrHasNoStrftime)
    ensures outcome.Ok? ==> outcome.value.files == store && outcome.value.evaluations == []
  {
    if construction.Some? {
      return Err(construction.value);
    }
    var version: nat := 1;
    if version <= s.maxIterations {
      if promptPath !in store {
        return Err(FileNotFound(Name(promptPath)));
      }
      var text := store[promptPath];
      var verdict := quality(text);
      if verdict.Err? {
        return Err(verdict.error);
      }
      return Err(StrHasNoStrftime);
    }
    return Ok(Outcome(store, [], NoIterations));
  }

  /**
   * The loop as intended, the minute stamp taken from a clock that has `strftime`: a missing prompt
   * file raises on the first read; with no iterations allowed nothing is read.
   */
  method RunTemplateLoopIntended(store: Store, promptPath: FilePath, s: Setup, a: Agents) returns (outcome: Result<Outcome>)
    ensures s.maxIterations < 1 ==> outcome == Ok(Outcome(store, [], NoIterations))
    ensures 1 <= s.maxIterations && promptPath !in store ==> outcome == Err(FileNotFound(Name(promptPath)))
    ensures 1 <= s.maxIterations && promptPath in store ==>
      outcome == Ok(Loop(s, a, Parent(promptPath), TemplateBatchLatest.BaseName(promptPath), store, promptPath, 1))
  {
    var version: nat := 1;
    var base := TemplateBatchLatest.BaseName(promptPath);
    var dir := Parent(promptPath);
    var current := promptPath;
    if s.maxIterations < 1 {
      return Ok(Outcome(store, [], NoIterations));
    }
    if promptPath !in store {
      return Err(FileNotFound(Name(promptPath)));
    }
    ghost var whole := Loop(s, a, dir, base, store, promptPath, 1);
    var files := store;
    var evaluations: seq<Evaluation> := [];
    while version <= s.maxIterations
      invariant current in files
      invariant var rest := Loop(s, a, dir, base, files, current, version);
        whole == Outcome(rest.files, evaluations + rest.evaluations, rest.ending)
      decreases s.maxIterations - version
    {
      ghost var rest := Loop(s, a, dir, base, files, current, version);
      assert rest == Pass(s, a, dir, base, files, current, version);
      var text := files[current];
      var verdict := a.quality(text, version);
      files := files[FeedbackPath(dir, base, version, s.clock(version)) := s.dump(verdict.1)];
      if verdict.0 >= s.threshold {
        var final := FinalPath(dir, base);
        evaluations := evaluations + [Evaluation(version, current, text, verdict.0, verdict.1, None)];
        if final == current {
          return Ok(Outcome(files, evaluations, CopyOntoItself));
        }
        files := files[final := files[current]];
        return Ok(Outcome(files, evaluations, Final));
      }
      if version == s.maxIterations {
        evaluations := evaluations + [Evaluation(version, current, text, verdict.0, verdict.1, None)];
        return Ok(Outcome(files, evaluations, MaxIterationsReached));
      }
      var next := VersionPath(dir, base, version + 1);
      var improved := a.improve(text, verdict.1, version);
      files := files[next := improved];
      var e := Evaluation(version, current, text, verdict.0, verdict.1, Some(improved));
      ghost var before := evaluations;
      evaluations := evaluations + [e];
      current, version := next, version + 1;
      ghost var later := Loop(s, a, dir, base, files, current, version);
      assert rest == Outcome(later.files, [e] + later.evaluations, later.ending);
      assert before + ([e] + later.evaluations) == evaluations + later.evaluations;
    }
    assert evaluations + [] == evaluations;
    return Ok(Outcome(files, evaluations, NoIterations));
  }

  /** The last evaluation of a non-empty run. */
  function LastOf(e: seq<Evaluation>): Evaluation
    requires e != []
  {
    e[|e| - 1]
  }

  /** A failing version `e` was improved, and the improvement is what the next pass `f` reads. */
  predicate Improves(s: Setup, a: Agents, dir: FilePath, base: string, e: Evaluation, f: Evaluation) {
    && e.score < s.threshold
    && e.improved == Some(a.improve(e.text, e.feedback, e.version))
    && f.path == VersionPath(dir, base, e.version + 1)
    && f.text == e.improved.value
  }

  /** Feedback files of different versions never share a name, whatever their timestamps. */
  lemma FeedbackPathInjective(dir: FilePath, base: string, v: nat, w: nat, t1: string, t2: string)
    requires FeedbackPath(dir, base, v, t1) == FeedbackPath(dir, base, w, t2)
    ensures v == w
  {
    var a, b := NatToDecimal(v), NatToDecimal(w);
    var x, y := "feedback_" + t1 + ".json", "feedback_" + t2 + ".json";
    FeedbackNameSplit(base, a, t1);
    FeedbackNameSplit(base, b, t2);
    CancelPrefix(base + "_v", a + ['_'] + x, b + ['_'] + y);
    DigitsBeforeSeparator(a, b, '_', x, y);
    DecimalRoundTrip(v);
    DecimalRoundTrip(w);
  }

  /** The feedback file's name, cut after the `_v` and after the version. */
  lemma FeedbackNameSplit(base: string, v: string, t: string)
    ensures base + "_v" + v + "_feedback_" + t + ".json" == (base + "_v") + (v + ['_'] + ("feedback_" + t + ".json"))
  {
    assert "_feedback_" == ['_'] + "feedback_";
  }

  /** A feedback file is JSON: it is neither a version of the template nor its final copy. */
  lemma FeedbackIsNotYaml(dir: FilePath, base: string, v: nat, t: string, w: nat)
    ensures FeedbackPath(dir, base, v, t) != VersionPath(dir, base, w)
    ensures FeedbackPath(dir, base, v, t) != FinalPath(dir, base)
  {
    var n := Name(FeedbackPath(dir, base, v, t));
    assert n[|n| - 1] == 'n';
    var m := Name(VersionPath(dir, base, w));
    assert m == TemplateWorkflow.VersionName(base, w) + ".yaml";
    assert m[|m| - 1] == 'l';
    var f := Name(FinalPath(dir, base));
    assert f[|f| - 1] == 'l';
  }

  /** The final copy is never a numbered version. */
  lemma FinalIsNotAVersion(dir: FilePath, base: string, w: nat)
    ensures FinalPath(dir, base) != VersionPath(dir, base, w)
  {
    var f := Name(FinalPath(dir, base));
    var m := Name(VersionPath(dir, base, w));
    assert f[|base| + 1] == 'f';
    assert m == TemplateWorkflow.VersionName(base, w) + ".yaml";
    assert m[|base| + 1] == 'v';
  }

  /** Whether the loop, from `version` on, never writes the file `q`. */
  ghost predicate UntouchedFrom(s: Setup, dir: FilePath, base: string, q: FilePath, version: nat) {
    && q != FinalPath(dir, base)
    && (forall v: nat :: v >= version ==> q != FeedbackPath(dir, base, v, s.clock(v)))
    && (forall v: nat :: v > version ==> q != VersionPath(dir, base, v))
  }

  /** A file the loop never writes keeps its content. */
  lemma {:induction false} LoopKeeps(s: Setup, a: Agents, dir: FilePath, base: string, files: Store, path: FilePath,
                                     version: nat, q: FilePath)
    requires path in files && q in files && UntouchedFrom(s, dir, base, q, version)
    ensures var o := Loop(s, a, dir, base, files, path, version); q in o.files && o.files[q] == files[q]
    decreases s.maxIterations - version
  {
    if version <= s.maxIterations {
      assert Loop(s, a, dir, base, files, path, version) == Pass(s, a, dir, base, files, path, version);
      var verdict := a.quality(files[path], version);
      var written := files[FeedbackPath(dir, base, version, s.clock(version)) := s.dump(verdict.1)];
      if verdict.0 < s.threshold && version < s.maxIterations {
        var next := VersionPath(dir, base, version + 1);
        LoopKeeps(s, a, dir, base, written[next := a.improve(files[path], verdict.1, version)], next, version + 1, q);
      }
    }
  }

  /**
   * The shape of a run: it is empty exactly when no iteration is allowed; versions are scored in
   * order, one pass each, starting with the given file; every pass but the last failed and fed its
   * improvement to the next; the last pass improves nothing.
   */
  lemma {:induction false} LoopShape(s: Setup, a: Agents, dir: FilePath, base: string, files: Store, path: FilePath,
                                     version: nat)
    requires path in files
    ensures var o := Loop(s, a, dir, base, files, path, version);
      var e := o.evaluations;
      && (o.ending == NoIterations <==> version > s.maxIterations)
      && (e == [] <==> version > s.maxIterations)
      && (version <= s.maxIterations ==> |e| <= s.maxIterations - version + 1)
      && (e != [] ==> e[0].path == path && e[0].text == files[path] && LastOf(e).improved == None)
      && (forall k :: 0 <= k < |e| ==>
            e[k].version == version + k && (e[k].score, e[k].feedback) == a.quality(e[k].text, e[k].version))
      && (forall k :: 0 <= k < |e| - 1 ==> Improves(s, a, dir, base, e[k], e[k + 1]))
    decreases s.maxIterations - version
  {
    if version <= s.maxIterations {
      assert Loop(s, a, dir, base, files, path, version) == Pass(s, a, dir, base, files, path, version);
      var text := files[path];
      var verdict := a.quality(text, version);
      var written := files[FeedbackPath(dir, base, version, s.clock(version)) := s.dump(verdict.1)];
      if verdict.0 < s.threshold && version < s.maxIterations {
        var improved := a.improve(text, verdict.1, version);
        var next := VersionPath(dir, base, version + 1);
        var rest := Loop(s, a, dir, base, written[next := improved], next, version + 1);
        LoopShape(s, a, dir, base, written[next := improved], next, version + 1);
        var head := Evaluation(version, path, text, verdict.0, verdict.1, Some(improved));
        var e := Loop(s, a, dir, base, files, path, version).evaluations;
        assert e == [head] + rest.evaluations;
        assert Improves(s, a, dir, base, head, rest.evaluations[0]);
        assert forall k :: 1 <= k < |e| ==> e[k] == rest.evaluations[k - 1];
      }
    }
  }

  /**
   * How a run ends: with a copy exactly when the last version scored passed (onto itself when that
   * version was already the final file, which raises); at the limit with every allowed version
   * scored and the last one failing. The copy holds the passing text when the template is YAML.
   */
  lemma {:induction false} LoopEnds(s: Setup, a: Agents, dir: FilePath, base: string, files: Store, path: FilePath,
                                    version: nat)
    requires path in files && EndsWith(Name(path), ".yaml")
    ensures var o := Loop(s, a, dir, base, files, path, version);
      var e := o.evaluations;
      && (o.ending in {Final, CopyOntoItself} <==> e != [] && LastOf(e).score >= s.threshold)
      && (o.ending == CopyOntoItself ==> e != [] && LastOf(e).path == FinalPath(dir, base))
      && (o.ending == Final ==> e != [] && LastOf(e).path != FinalPath(dir, base)
                                && FinalPath(dir, base) in o.files && o.files[FinalPath(dir, base)] == LastOf(e).text)
      && (o.ending == MaxIterationsReached ==>
            e != [] && LastOf(e).score < s.threshold && LastOf(e).version == s.maxIterations
            && |e| == s.maxIterations - version + 1)
    decreases s.maxIterations - version
  {
    LoopShape(s, a, dir, base, files, path, version);
    if version <= s.maxIterations {
      assert Loop(s, a, dir, base, files, path, version) == Pass(s, a, dir, base, files, path, version);
      var text := files[path];
      var verdict := a.quality(text, version);
      var fb := FeedbackPath(dir, base, version, s.clock(version));
      var written := files[fb := s.dump(verdict.1)];
      if verdict.0 < s.threshold && version < s.maxIterations {
        var improved := a.improve(text, verdict.1, version);
        var next := VersionPath(dir, base, version + 1);
        assert Name(next) == TemplateWorkflow.VersionName(base, version + 1) + ".yaml";
        LoopEnds(s, a, dir, base, written[next := improved], next, version + 1);
        var rest := Loop(s, a, dir, base, written[next := improved], next, version + 1);
        LoopShape(s, a, dir, base, written[next := improved], next, version + 1);
        assert LastOf(Loop(s, a, dir, base, files, path, version).evaluations) == LastOf(rest.evaluations);
      } else if verdict.0 >= s.threshold {
        var n := Name(fb);
        assert n[|n| - 1] == 'n';
        assert path != fb;
      }
    }
  }

  /** The feedback file of `version` is not touched by any later step of the loop. */
  lemma FeedbackUntouched(s: Setup, dir: FilePath, base: string, version: nat)
    ensures UntouchedFrom(s, dir, base, FeedbackPath(dir, base, version, s.clock(version)), version + 1)
  {
    var fb := FeedbackPath(dir, base, version, s.clock(version));
    FeedbackIsNotYaml(dir, base, version, s.clock(version), 0);
    forall v: nat | v >= version + 1
      ensures fb != FeedbackPath(dir, base, v, s.clock(v))
    {
      if fb == FeedbackPath(dir, base, v, s.clock(v)) {
        FeedbackPathInjective(dir, base, version, v, s.clock(version), s.clock(v));
      }
    }
    forall v: nat | v > version + 1
      ensures fb != VersionPath(dir, base, v)
    {
      FeedbackIsNotYaml(dir, base, version, s.clock(version), v);
    }
  }

  /** The numbered file `version` is not touched once the loop has moved on to it. */
  lemma VersionUntouched(s: Setup, dir: FilePath, base: string, version: nat)
    ensures UntouchedFrom(s, dir, base, VersionPath(dir, base, version), version)
  {
    var q := VersionPath(dir, base, version);
    FinalIsNotAVersion(dir, base, version);
    forall v: nat | v >= version
      ensures q != FeedbackPath(dir, base, v, s.clock(v))
    {
      FeedbackIsNotYaml(dir, base, v, s.clock(v), version);
    }
    forall v: nat | v > version
      ensures q != VersionPath(dir, base, v)
    {
      if q == VersionPath(dir, base, v) {
        TemplateWorkflow.ImprovedPathInjective(dir, base, version, v);
      }
    }
  }

  /** Every version scored leaves its feedback file, under its own name, to the end of the run. */
  lemma {:induction false} FeedbackKept(s: Setup, a: Agents, dir: FilePath, base: string, files: Store,
                                        path: FilePath, version: nat, k: nat)
    requires path in files && k < |Loop(s, a, dir, base, files, path, version).evaluations|
    ensures var o := Loop(s, a, dir, base, files, path, version);
      var e := o.evaluations[k];
      var q := FeedbackPath(dir, base, e.version, s.clock(e.version));
      q in o.files && o.files[q] == s.dump(e.feedback)
    decreases s.maxIterations - version
  {
    assert Loop(s, a, dir, base, files, path, version) == Pass(s, a, dir, base, files, path, version);
    var text := files[path];
    var verdict := a.quality(text, version);
    var fb := FeedbackPath(dir, base, version, s.clock(version));
    var written := files[fb := s.dump(verdict.1)];
    FeedbackIsNotYaml(dir, base, version, s.clock(version), version + 1);
    if verdict.0 < s.threshold && version < s.maxIterations {
      var improved := a.improve(text, verdict.1, version);
      var next := VersionPath(dir, base, version + 1);
      if k == 0 {
        FeedbackUntouched(s, dir, base, version);
        LoopKeeps(s, a, dir, base, written[next := improved], next, version + 1, fb);
      } else {
        FeedbackKept(s, a, dir, base, written[next := improved], next, version + 1, k - 1);
      }
    }
  }

  /** Every improvement is written as its numbered version, which no later step overwrites. */
  lemma {:induction false} ImprovementKept(s: Setup, a: Agents, dir: FilePath, base: string, files: Store,
                                           path: FilePath, version: nat, k: nat)
    requires path in files && k < |Loop(s, a, dir, base, files, path, version).evaluations|
    requires Loop(s, a, dir, base, files, path, version).evaluations[k].improved.Some?
    ensures var o := Loop(s, a, dir, base, files, path, version);
      var e := o.evaluations[k];
      var q := VersionPath(dir, base, e.version + 1);
      q in o.files && o.files[q] == e.improved.value
    decreases s.maxIterations - version
  {
    assert Loop(s, a, dir, base, files, path, version) == Pass(s, a, dir, base, files, path, version);
    var text := files[path];
    var verdict := a.quality(text, version);
    var written := files[FeedbackPath(dir, base, version, s.clock(version)) := s.dump(verdict.1)];
    if verdict.0 < s.threshold && version < s.maxIterations {
      var improved := a.improve(text, verdict.1, version);
      var next := VersionPath(dir, base, version + 1);
      var rest := Loop(s, a, dir, base, written[next := improved], next, version + 1);
      var head := Evaluation(version, path, text, verdict.0, verdict.1, Some(improved));
      assert Loop(s, a, dir, base, files, path, version).evaluations == [head] + rest.evaluations;
      if k == 0 {
        VersionUntouched(s, dir, base, version + 1);
        LoopKeeps(s, a, dir, base, written[next := improved], next, version + 1, next);
      } else {
        ImprovementKept(s, a, dir, base, written[next := improved], next, version + 1, k - 1);
      }
    }
  }
}
