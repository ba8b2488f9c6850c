/**
 * What the evaluate → improve → controller loops of cli/run_prompt_lifecycle.py and
 * cli/run_template_batch_latest.py have in common: each iteration scores the current file, and
 * unless it stops, asks for an improved prompt, gives it the patch-bumped version, writes it next
 * to the others and asks the controller what to do. A run is recorded as a trace of steps.
 */
module PatchLoop {
  import opened Wrappers
  import opened Paths
  import opened SemanticVersioning
  import opened YamlVersion

  /** The file an iteration wrote, its version and text, and the controller's answer about it. */
  datatype Improvement = Improvement(path: FilePath, version: string, text: string, action: string)

  /** One iteration: the file read, its version and text, the quality verdict, and the improvement made. */
  datatype Step = Step(iteration: nat, path: FilePath, version: string, text: string, score: real,
                       feedback: string, next: Option<Improvement>)

  /**
   * How a run ended: which `break` left the loop, or the exception that escaped it. The loop itself
   * ends a passing run with `Passed`; the runner's copy of the passing file then makes it `Promoted`.
   */
  datatype Outcome = Passed | Promoted | MaxIterationsReached | Aborted | NoIterations | Raised(error: Error)

  /** The quality agent: (prompt text, version, iteration) to the payload's score and feedback. */
  type Quality = (string, string, nat) -> (real, string)

  /** The improvement agent: (prompt text, feedback, iteration) to the improved prompt. */
  type Improver = (string, string, nat) -> string

  /** The controller agent: (improved prompt, feedback, iteration, new version) to its action. */
  type Controller = (string, string, nat, string) -> string

  /** `f"{base_name}_v{version}.yaml"`. */
  function VersionedName(base: string, version: string): string {
    base + "_v" + version + ".yaml"
  }

  /** Different versions give different file names. */
  lemma VersionedNameInjective(base: string, v: string, w: string)
    requires VersionedName(base, v) == VersionedName(base, w)
    ensures v == w
  {
    var a, b := VersionedName(base, v), VersionedName(base, w);
    assert |v| == |w|;
    assert v == a[|base| + 2..|base| + 2 + |v|];
    assert w == b[|base| + 2..|base| + 2 + |w|];
  }

  /**
   * A step as the agents and the loop make it: the score and feedback are the quality agent's,
   * and an improvement happens only below the threshold, bumps the patch number, rewrites the
   * `version:` line of the improved prompt, is stored in `dir` under the new version's name, and
   * is judged by the controller.
   */
  predicate Follows(s: Step, dir: FilePath, base: string, threshold: real,
                    quality: Quality, improve: Improver, controller: Controller)
  {
    && (s.score, s.feedback) == quality(s.text, s.version, s.iteration)
    && (s.next.Some? ==>
          var n := s.next.value;
          && s.score < threshold
          && Bump(s.version, "patch") == Ok(n.version)
          && n.path == Join(dir, VersionedName(base, n.version))
          && n.text == ReplaceVersionInYaml(improve(s.text, s.feedback, s.iteration), s.version, n.version)
          && n.action == controller(n.text, s.feedback, s.iteration, n.version))
  }

  /** The loop went on from `s` to `t`: the controller did not abort, and `t` reads what `s` wrote. */
  predicate Continues(s: Step, t: Step) {
    && s.next.Some? && s.next.value.action != "abort"
    && t.path == s.next.value.path && t.version == s.next.value.version && t.text == s.next.value.text
  }

  /** The iterations are numbered from 1, and every step but the last continues into the next. */
  predicate Linked(steps: seq<Step>) {
    && (forall k :: 0 <= k < |steps| ==> steps[k].iteration == k + 1)
    && (forall k :: 0 <= k < |steps| - 1 ==> Continues(steps[k], steps[k + 1]))
  }

  /** Every step of the trace follows the agents. */
  predicate AllFollow(steps: seq<Step>, dir: FilePath, base: string, threshold: real,
                      quality: Quality, improve: Improver, controller: Controller)
  {
    forall k :: 0 <= k < |steps| ==> Follows(steps[k], dir, base, threshold, quality, improve, controller)
  }

  /** Appending a step that follows the agents and continues the last one keeps a trace linked. */
  lemma ExtendTrace(steps: seq<Step>, s: Step, dir: FilePath, base: string, threshold: real,
                    quality: Quality, improve: Improver, controller: Controller)
    requires Linked(steps) && AllFollow(steps, dir, base, threshold, quality, improve, controller)
    requires Follows(s, dir, base, threshold, quality, improve, controller) && s.iteration == |steps| + 1
    requires steps != [] ==> Continues(steps[|steps| - 1], s)
    ensures Linked(steps + [s]) && AllFollow(steps + [s], dir, base, threshold, quality, improve, controller)
  {
    var r := steps + [s];
    forall k | 0 <= k < |r|
      ensures r[k].iteration == k + 1 && Follows(r[k], dir, base, threshold, quality, improve, controller)
    {
      if k < |steps| {
        assert r[k] == steps[k];
      }
    }
    forall k | 0 <= k < |r| - 1
      ensures Continues(r[k], r[k + 1])
    {
      if k + 1 < |steps| {
        assert r[k] == steps[k] && r[k + 1] == steps[k + 1];
      } else {
        assert r[k] == steps[|steps| - 1] && r[k + 1] == s;
      }
    }
  }

  /** One step to the next: the version parses and strictly grows. */
  lemma StepIncreases(steps: seq<Step>, k: nat, dir: FilePath, base: string, threshold: real,
                      quality: Quality, improve: Improver, controller: Controller)
    requires Linked(steps) && AllFollow(steps, dir, base, threshold, quality, improve, controller)
    requires k + 1 < |steps|
    ensures ParseVersion(steps[k].version).Some? && ParseVersion(steps[k + 1].version).Some?
    ensures Less(ParseVersion(steps[k].version).value, ParseVersion(steps[k + 1].version).value)
  {
    assert Continues(steps[k], steps[k + 1]);
    assert Follows(steps[k], dir, base, threshold, quality, improve, controller);
  }

  /** Along a trace the versions strictly increase, from any step to any later one. */
  lemma {:induction false} VersionsIncrease(steps: seq<Step>, k: nat, l: nat, dir: FilePath, base: string,
                                            threshold: real, quality: Quality, improve: Improver,
                                            controller: Controller)
    requires Linked(steps) && AllFollow(steps, dir, base, threshold, quality, improve, controller)
    requires k < l < |steps|
    ensures ParseVersion(steps[k].version).Some? && ParseVersion(steps[l].version).Some?
    ensures Less(ParseVersion(steps[k].version).value, ParseVersion(steps[l].version).value)
    decreases l - k
  {
    StepIncreases(steps, l - 1, dir, base, threshold, quality, improve, controller);
    if k < l - 1 {
      VersionsIncrease(steps, k, l - 1, dir, base, threshold, quality, improve, controller);
      LessTransitive(ParseVersion(steps[k].version).value, ParseVersion(steps[l - 1].version).value,
                     ParseVersion(steps[l].version).value);
    }
  }

  /** One more step on the trace. */
  function Extend(steps: seq<Step>, s: Step): (r: seq<Step>)
    ensures r == steps + [s] && r[..|steps|] == steps
    ensures Writes(r) == if s.next.Some? then Writes(steps)[s.next.value.path := s.next.value.text] else Writes(steps)
  {
    var r := steps + [s];
    assert r[..|steps|] == steps;
    r
  }

  /** Writing a file over the store and the earlier writes is one more write. */
  lemma WriteOver(store: Store, w: map<FilePath, string>, p: FilePath, t: string)
    ensures (store + w)[p := t] == store + w[p := t]
  {
  }

  /** Before any step nothing has been written. */
  lemma NothingWritten(store: Store)
    ensures store + Writes([]) == store
  {
  }

  /** No two improvements of a trace write the same file. */
  predicate DistinctWrites(steps: seq<Step>) {
    forall k, l :: 0 <= k < l < |steps| && steps[k].next.Some? && steps[l].next.Some? ==>
      steps[k].next.value.path != steps[l].next.value.path
  }

  /** The improvement of step `k` carries a smaller version than that of a later step `l`. */
  lemma LaterImprovementIsNewer(steps: seq<Step>, k: nat, l: nat, dir: FilePath, base: string,
                                threshold: real, quality: Quality, improve: Improver, controller: Controller)
    requires Linked(steps) && AllFollow(steps, dir, base, threshold, quality, improve, controller)
    requires k < l < |steps| && steps[l].next.Some?
    ensures steps[k].next.Some? && steps[k].next.value.version != steps[l].next.value.version
  {
    assert Continues(steps[k], steps[k + 1]);
    var a := steps[k].next.value.version;
    var b := steps[l].next.value.version;
    assert Follows(steps[l], dir, base, threshold, quality, improve, controller);
    assert Less(ParseVersion(steps[l].version).value, ParseVersion(b).value);
    if k + 1 < l {
      VersionsIncrease(steps, k + 1, l, dir, base, threshold, quality, improve, controller);
      LessTransitive(ParseVersion(a).value, ParseVersion(steps[l].version).value, ParseVersion(b).value);
    }
  }

  /** Because the versions grow, every improvement of a trace writes a file of its own. */
  lemma WritesAreDistinct(steps: seq<Step>, dir: FilePath, base: string, threshold: real,
                          quality: Quality, improve: Improver, controller: Controller)
    requires Linked(steps) && AllFollow(steps, dir, base, threshold, quality, improve, controller)
    ensures DistinctWrites(steps)
  {
    forall k, l | 0 <= k < l < |steps| && steps[k].next.Some? && steps[l].next.Some?
      ensures steps[k].next.value.path != steps[l].next.value.path
    {
      LaterImprovementIsNewer(steps, k, l, dir, base, threshold, quality, improve, controller);
      assert Follows(steps[k], dir, base, threshold, quality, improve, controller);
      assert Follows(steps[l], dir, base, threshold, quality, improve, controller);
      var a, b := steps[k].next.value, steps[l].next.value;
      if a.path == b.path {
        assert Name(a.path) == Name(b.path);
        VersionedNameInjective(base, a.version, b.version);
      }
    }
  }

  /** The files the improvements of a trace wrote, in the order they were written. */
  function Writes(steps: seq<Step>): map<FilePath, string>
    decreases |steps|
  {
    if steps == [] then map[]
    else
      var s := steps[|steps| - 1];
      var earlier := Writes(steps[..|steps| - 1]);
      if s.next.Some? then earlier[s.next.value.path := s.next.value.text] else earlier
  }

  /** When no two improvements share a file, each written file holds its improvement's text. */
  lemma {:induction false} WritesHold(steps: seq<Step>)
    requires DistinctWrites(steps)
    ensures forall k :: 0 <= k < |steps| && steps[k].next.Some? ==>
      steps[k].next.value.path in Writes(steps) && Writes(steps)[steps[k].next.value.path] == steps[k].next.value.text
    ensures forall p :: p in Writes(steps) ==> exists k :: 0 <= k < |steps| && steps[k].next.Some? && steps[k].next.value.path == p
    decreases |steps|
  {
    if steps != [] {
      var init := steps[..|steps| - 1];
      assert DistinctWrites(init);
      WritesHold(init);
      forall p | p in Writes(steps)
        ensures exists k :: 0 <= k < |steps| && steps[k].next.Some? && steps[k].next.value.path == p
      {
        if p !in Writes(init) {
          assert steps[|steps| - 1].next.value.path == p;
        } else {
          var k :| 0 <= k < |init| && init[k].next.Some? && init[k].next.value.path == p;
          assert steps[k] == init[k];
        }
      }
    }
  }

  /** No improvement of the trace wrote `p`. */
  predicate Untouched(steps: seq<Step>, p: FilePath) {
    forall k :: 0 <= k < |steps| && steps[k].next.Some? ==> steps[k].next.value.path != p
  }

  /**
   * After a run, every file an improvement wrote still holds the improved prompt, and every other
   * file of the store is as it was.
   */
  lemma TraceFilesHold(store: Store, steps: seq<Step>, dir: FilePath, base: string, threshold: real,
                       quality: Quality, improve: Improver, controller: Controller)
    requires Linked(steps) && AllFollow(steps, dir, base, threshold, quality, improve, controller)
    ensures forall k :: 0 <= k < |steps| && steps[k].next.Some? ==>
      var n := steps[k].next.value; n.path in store + Writes(steps) && (store + Writes(steps))[n.path] == n.text
    ensures forall p :: p in store && Untouched(steps, p) ==> p in store + Writes(steps) && (store + Writes(steps))[p] == store[p]
  {
    WritesAreDistinct(steps, dir, base, threshold, quality, improve, controller);
    WritesHold(steps);
  }

  /** The loop's own outcome, before the runner copied a passing file (which may fail on itself). */
  function AtBreak(outcome: Outcome): Outcome {
    if outcome == Promoted || outcome == Raised(SameFileError) then Passed else outcome
  }

  /** The last step of a trace. */
  function Last(steps: seq<Step>): Step
    requires steps != []
  {
    steps[|steps| - 1]
  }

  /**
   * How the run that left `steps` ended: the `break` or the exception. The loop itself writes only
   * the improvements.
   */
  predicate Ended(store: Store, threshold: real, maxIterations: int, files: Store, steps: seq<Step>, outcome: Outcome) {
    && files == store + Writes(steps)
    && (steps == [] <==> outcome == NoIterations)
    && (outcome == NoIterations <==> maxIterations < 1)
    && match outcome
       case NoIterations => true
       case Passed => Last(steps).score >= threshold && Last(steps).next.None?
       case MaxIterationsReached =>
         |steps| == maxIterations && Last(steps).score < threshold && Last(steps).next.None?
       case Aborted => Last(steps).next.Some? && Last(steps).next.value.action == "abort"
       case Promoted => false
       case Raised(e) =>
         && Last(steps).next.None? && Last(steps).score < threshold && |steps| == 1
         && ParseVersion(Last(steps).version).None? && e == InvalidVersion(Last(steps).version)
  }

  /**
   * What a run of the loop on an existing file amounts to: at most `maxIterations` steps, each made
   * by the agents and linked to the one before, starting from the file and its version, and ended
   * as `Ended` says.
   */
  predicate LoopRun(store: Store, promptPath: FilePath, dir: FilePath, base: string, initial: string,
                    threshold: real, maxIterations: int, quality: Quality, improve: Improver,
                    controller: Controller, files: Store, steps: seq<Step>, outcome: Outcome)
    requires promptPath in store
  {
    && (steps == [] || |steps| <= maxIterations)
    && Linked(steps) && AllFollow(steps, dir, base, threshold, quality, improve, controller)
    && (steps != [] ==> steps[0].path == promptPath && steps[0].text == store[promptPath] && steps[0].version == initial)
    && Ended(store, threshold, maxIterations, files, steps, outcome)
  }

  /** The loop writes only the improvements, and never ends in a promotion or a copy onto itself. */
  lemma LoopWritesImprovements(store: Store, promptPath: FilePath, dir: FilePath, base: string, initial: string,
                               threshold: real, maxIterations: int, quality: Quality, improve: Improver,
                               controller: Controller, files: Store, steps: seq<Step>, outcome: Outcome)
    requires promptPath in store
    requires LoopRun(store, promptPath, dir, base, initial, threshold, maxIterations, quality, improve,
                     controller, files, steps, outcome)
    ensures files == store + Writes(steps) && AtBreak(outcome) == outcome
    ensures outcome == Passed ==> steps != []
  {
    assert Ended(store, threshold, maxIterations, files, steps, outcome);
    if outcome.Raised? {
      assert outcome.error.ValueError?;
    }
  }

  /**
   * The state of the loop before iteration `iteration`: the steps so far, linked and made by the
   * agents, the files they wrote, and the file and version the last improvement handed on.
   */
  predicate Progress(store: Store, promptPath: FilePath, dir: FilePath, base: string, initial: string, threshold: real,
                     maxIterations: int, quality: Quality, improve: Improver, controller: Controller,
                     files: Store, steps: seq<Step>, currentPath: FilePath, version: string, iteration: int)
    requires promptPath in store
  {
    && 1 <= iteration && |steps| == iteration - 1
    && (steps != [] ==> iteration <= maxIterations)
    && Linked(steps) && AllFollow(steps, dir, base, threshold, quality, improve, controller)
    && files == store + Writes(steps) && currentPath in files
    && (steps == [] ==> currentPath == promptPath && version == initial)
    && (steps != [] ==> steps[0].path == promptPath && steps[0].text == store[promptPath] && steps[0].version == initial)
    && (steps != [] ==>
          var n := steps[|steps| - 1].next;
          && n.Some? && n.value.action != "abort" && currentPath == n.value.path && version == n.value.version
          && files[currentPath] == n.value.text)
  }

  /** The last iteration: the current file passed, or the iterations are used up. */
  method Finish(store: Store, promptPath: FilePath, dir: FilePath, base: string, initial: string,
                threshold: real, maxIterations: int, quality: Quality, improve: Improver,
                controller: Controller, files0: Store, steps0: seq<Step>, step: Step)
    returns (files: Store, steps: seq<Step>, outcome: Outcome)
    requires promptPath in store && step.next.None? && step.iteration <= maxIterations
    requires step.score >= threshold || step.iteration == maxIterations
    requires Follows(step, dir, base, threshold, quality, improve, controller)
    requires Progress(store, promptPath, dir, base, initial, threshold, maxIterations, quality, improve, controller,
                      files0, steps0, step.path, step.version, step.iteration)
    requires step.text == files0[step.path]
    ensures LoopRun(store, promptPath, dir, base, initial, threshold, maxIterations, quality,
                    improve, controller, files, steps, outcome)
  {
    ExtendTrace(steps0, step, dir, base, threshold, quality, improve, controller);
    steps := Extend(steps0, step);
    files := files0;
    outcome := if step.score >= threshold then Passed else MaxIterationsReached;
  }

  /**
   * One pass of the loop body: score the current file; stop when it passes or the iterations are
   * used up; otherwise improve it, bump the version, write the new file into `dir` and ask the
   * controller. Either the run ends here, or the loop goes on to the next iteration.
   */
  method Iteration(store: Store, promptPath: FilePath, dir: FilePath, base: string, initial: string,
                   threshold: real, maxIterations: int, quality: Quality, improve: Improver,
                   controller: Controller, files0: Store, steps0: seq<Step>,
                   currentPath0: FilePath, version0: string, iteration: int)
    returns (files: Store, steps: seq<Step>, currentPath: FilePath, version: string, done: Option<Outcome>)
    requires promptPath in store && iteration <= maxIterations
    requires Progress(store, promptPath, dir, base, initial, threshold, maxIterations, quality, improve, controller,
                      files0, steps0, currentPath0, version0, iteration)
    ensures done.Some? ==> LoopRun(store, promptPath, dir, base, initial, threshold, maxIterations, quality,
                                   improve, controller, files, steps, done.value)
    ensures done.None? ==> iteration < maxIterations && Progress(store, promptPath, dir, base, initial, threshold,
      maxIterations, quality, improve, controller, files, steps, currentPath, version, iteration + 1)
  {
    files, steps, currentPath, version := files0, steps0, currentPath0, version0;
    var text := files[currentPath];
    var (score, feedback) := quality(text, version, iteration);
    var step := Step(iteration, currentPath, version, text, score, feedback, None);
    if score >= threshold || iteration == maxIterations {
      var outcome;
      files, steps, outcome := Finish(store, promptPath, dir, base, initial, threshold, maxIterations, quality,
                                      improve, controller, files, steps, step);
      done := Some(outcome);
      return;
    }
    var improved := improve(text, feedback, iteration);
    var bumped := Bump(version, "patch");
    if bumped.Err? {
      ExtendTrace(steps, step, dir, base, threshold, quality, improve, controller);
      steps := Extend(steps, step);
      done := Some(Raised(bumped.error));
      return;
    }
    var nextVersion := bumped.value;
    improved := ReplaceVersionInYaml(improved, version, nextVersion);
    var nextPath := Join(dir, VersionedName(base, nextVersion));
    var action := controller(improved, feedback, iteration, nextVersion);
    step := step.(next := Some(Improvement(nextPath, nextVersion, improved, action)));
    ExtendTrace(steps, step, dir, base, threshold, quality, improve, controller);
    WriteOver(store, Writes(steps), nextPath, improved);
    steps := Extend(steps, step);
    files := files[nextPath := improved];
    if action == "abort" {
      done := Some(Aborted);
      return;
    }
    currentPath, version := nextPath, nextVersion;
    done := None;
  }

  /**
   * The `for iteration in range(1, MAX_ITERATIONS + 1)` loop, from the file and its version,
   * writing the improvements into `dir`.
   */
  method ImproveLoop(store: Store, promptPath: FilePath, dir: FilePath, base: string, initial: string,
                     threshold: real, maxIterations: int, quality: Quality, improve: Improver,
                     controller: Controller)
    returns (files: Store, steps: seq<Step>, outcome: Outcome)
    requires promptPath in store
    ensures LoopRun(store, promptPath, dir, base, initial, threshold, maxIterations, quality, improve,
                    controller, files, steps, outcome)
  {
    files, steps := store, [];
    NothingWritten(store);
    var currentPath := promptPath;
    var version := initial;
    var iteration := 1;
    while iteration <= maxIterations
      invariant Progress(store, promptPath, dir, base, initial, threshold, maxIterations, quality, improve, controller,
                         files, steps, currentPath, version, iteration)
      decreases maxIterations - iteration
    {
      var done;
      files, steps, currentPath, version, done := Iteration(store, promptPath, dir, base, initial, threshold,
        maxIterations, quality, improve, controller, files, steps, currentPath, version, iteration);
      if done.Some? {
        outcome := done.value;
        return;
      }
      iteration := iteration + 1;
    }
    outcome := NoIterations;
  }
}
