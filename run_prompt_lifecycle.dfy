/**
 * cli/run_prompt_lifecycle.py: the lifecycle runner. It names the process after the prompt file
 * with stage markers and version suffix removed, reads the file's declared version, and loops
 * evaluate → improve → controller until the prompt passes (and is promoted to a config example and
 * a 1.0.0 template), the controller aborts, or the iterations run out.
 */
module PromptLifecycle {
  import opened Wrappers
  import opened Text
  import opened Paths
  import opened SemanticVersioning
  import opened YamlVersion
  import opened PatchLoop

  /** The stage markers `clean_base_name` removes, in the order it tries them. */
  const Markers: seq<string> := ["_raw", "_templ", "_config", "_active"]

  /** `if marker in name: name = name.replace(marker, "")`. */
  function DropMarker(name: string, marker: string): (r: string)
    requires marker != []
    ensures !Contains(name, marker) ==> r == name
  {
    if Contains(name, marker) then ReplaceAll(name, marker, "")
    else name
  }

  /** The markers removed one after the other, in list order. */
  function DropMarkers(name: string, markers: seq<string>): string
    requires forall i :: 0 <= i < |markers| ==> markers[i] != []
    decreases |markers|
  {
    if markers == [] then name else DropMarkers(DropMarker(name, markers[0]), markers[1..])
  }

  /** `\d+(\.\d+)*` with ASCII digits: runs of digits joined by single dots. */
  predicate DottedDigits(t: string) {
    && t != [] && IsDigit(t[0]) && IsDigit(t[|t| - 1])
    && (forall i :: 0 <= i < |t| ==> IsDigit(t[i]) || t[i] == '.')
    && (forall i :: 0 <= i < |t| - 1 ==> IsDigit(t[i]) || IsDigit(t[i + 1]))
  }

  /** Where `$` lets a match end: before a final line feed, else at the end of the name. */
  function MatchEnd(s: string): (e: nat)
    ensures e <= |s|
  {
    if s != [] && s[|s| - 1] == '\n' then |s| - 1 else |s|
  }

  /** `_v\d+(\.\d+)*$` matches `s` from index `i`. */
  predicate SuffixAt(s: string, i: int) {
    0 <= i && i + 2 <= MatchEnd(s) && s[i..i + 2] == "_v" && DottedDigits(s[i + 2..MatchEnd(s)])
  }

  predicate HasVersionSuffix(s: string) {
    exists i :: 0 <= i < |s| && SuffixAt(s, i)
  }

  /** A version suffix has no underscore after its own, so its underscore is the last one before the match end. */
  lemma SuffixHasOneUnderscore(s: string, i: int)
    requires SuffixAt(s, i)
    ensures RFindChar(s[..MatchEnd(s)], '_') == i
  {
    var e := MatchEnd(s);
    var t := s[i + 2..e];
    var u := s[..e];
    forall k | i + 1 <= k < e ensures u[k] != '_' {
      if k == i + 1 {
        assert u[k] == s[i..i + 2][1];
      } else {
        assert u[k] == t[k - i - 2];
      }
    }
    assert u[i] == s[i..i + 2][0];
  }

  /** The only place the pattern can match: the last underscore before the match end. */
  function SuffixStart(s: string): (j: int)
    ensures j == -1 <==> !HasVersionSuffix(s)
    ensures j != -1 ==> SuffixAt(s, j)
  {
    var e := MatchEnd(s);
    var j := RFindChar(s[..e], '_');
    if j != -1 && j + 2 <= e && s[j + 1] == 'v' && DottedDigits(s[j + 2..e]) then
      assert s[j..j + 2] == "_v";
      assert SuffixAt(s, j);
      j
    else
      assert !HasVersionSuffix(s) by {
        forall i | 0 <= i < |s| && SuffixAt(s, i) ensures false {
          SuffixHasOneUnderscore(s, i);
        }
      }
      -1
  }

  /** `re.sub(r"_v\d+(\.\d+)*$", "", name)`: the version suffix cut out, a final line feed kept. */
  function DropVersionSuffix(s: string): (r: string)
    ensures !HasVersionSuffix(s) ==> r == s
    ensures HasVersionSuffix(s) ==> SuffixAt(s, SuffixStart(s)) && r == s[..SuffixStart(s)] + s[MatchEnd(s)..]
  {
    var j := SuffixStart(s);
    if j == -1 then s else s[..j] + s[MatchEnd(s)..]
  }

  /** What `clean_base_name` computes. */
  function CleanedBaseName(name: string): string {
    DropVersionSuffix(DropMarkers(name, Markers))
  }

  /** `clean_base_name(name)`: the loop over the markers, then the suffix substitution. */
  method CleanBaseName(name: string) returns (r: string)
    ensures r == CleanedBaseName(name)
  {
    r := name;
    for i := 0 to |Markers|
      invariant DropMarkers(r, Markers[i..]) == DropMarkers(name, Markers)
    {
      assert Markers[i..][1..] == Markers[i + 1..];
      var marker := Markers[i];
      if Contains(r, marker) {
        r := ReplaceAll(r, marker, "");
      }
    }
    assert Markers[|Markers|..] == [];
    r := DropVersionSuffix(r);
  }

  /** A name holding none of the markers passes the marker loop unchanged. */
  lemma {:induction false} NoMarkersKept(name: string, markers: seq<string>)
    requires forall i :: 0 <= i < |markers| ==> markers[i] != [] && !Contains(name, markers[i])
    ensures DropMarkers(name, markers) == name
    decreases |markers|
  {
    if markers != [] {
      NoMarkersKept(name, markers[1..]);
    }
  }

  /** A name with no stage marker and no version suffix is returned unchanged. */
  lemma CleanNameUnchanged(name: string)
    requires forall i :: 0 <= i < |Markers| ==> !Contains(name, Markers[i])
    requires !HasVersionSuffix(name)
    ensures CleanedBaseName(name) == name
  {
    NoMarkersKept(name, Markers);
  }

  /** A version written `N.N.N` is the kind of suffix the pattern removes. */
  lemma FormatIsDotted(v: Version)
    ensures DottedDigits(Format(v))
  {
    var a, b, c := NatToDecimal(v.major), NatToDecimal(v.minor), NatToDecimal(v.patch);
    var t := Format(v);
    assert t == a + "." + b + "." + c;
    forall i | 0 <= i < |t| - 1 ensures IsDigit(t[i]) || IsDigit(t[i + 1]) {
      if i < |a| - 1 {
        assert t[i] == a[i];
      } else if i == |a| - 1 {
        assert t[i] == a[|a| - 1];
      } else if i == |a| {
        assert t[i + 1] == b[0];
      } else if i < |a| + |b| {
        assert t[i] == b[i - |a| - 1];
      } else if i == |a| + |b| {
        assert t[i] == b[|b| - 1];
      } else if i == |a| + |b| + 1 {
        assert t[i + 1] == c[0];
      } else {
        assert t[i] == c[i - |a| - |b| - 2];
      }
    }
  }

  /** The suffix `_v<digits>(.<digits>)*` is cut off whatever comes before it. */
  lemma DropsVersionSuffix(base: string, t: string)
    requires DottedDigits(t)
    ensures DropVersionSuffix(base + "_v" + t) == base
  {
    var s := base + "_v" + t;
    assert MatchEnd(s) == |s| by { assert s[|s| - 1] == t[|t| - 1]; }
    assert s[|base|..|base| + 2] == "_v" && s[|base| + 2..] == t;
    assert SuffixAt(s, |base|);
    SuffixHasOneUnderscore(s, |base|);
    assert s[..|base|] == base;
  }

  /** A process name that ends in a semantic version loses just that version. */
  lemma DropsSemanticVersion(base: string, v: Version)
    ensures DropVersionSuffix(base + "_v" + Format(v)) == base
  {
    FormatIsDotted(v);
    DropsVersionSuffix(base, Format(v));
  }

  /** Only the last suffix goes: `a_v1_v2` becomes `a_v1`. */
  lemma OnlyLastSuffixDropped()
    ensures DropVersionSuffix("a_v1_v2") == "a_v1"
  {
    assert "a_v1_v2" == "a_v1" + "_v" + "2";
    DropsVersionSuffix("a_v1", "2");
  }

  /** `archive_prompt_file`'s target directory after a promotion from this layer, if any. */
  function ArchiveDir(layer: string): (r: Option<string>)
    ensures r.Some? <==> layer in {"raw", "template"}
  {
    if layer == "raw" then Some("00-raw")
    else if layer == "template" then Some("01-templates")
    else None
  }

  /** The quality agent's matrix: "raw" for the raw layer, the cleaned name of the file otherwise. */
  function QualityMatrixName(layer: string, promptPath: FilePath): string {
    if layer == "raw" then "raw" else CleanedBaseName(Stem(Name(promptPath)))
  }

  /** The process name of a prompt file: its stem, cleaned. */
  function BaseName(promptPath: FilePath): string {
    CleanedBaseName(Stem(Name(promptPath)))
  }

  function ExampleDir(root: FilePath): FilePath { Join(Join(root, "prompts"), "02-examples") }

  function TemplateDir(root: FilePath): FilePath { Join(Join(root, "prompts"), "01-templates") }

  /** `EXAMPLE_DIR / base / f"{base}_config_v0.3.0.yaml"`. */
  function ConfigPath(root: FilePath, base: string): FilePath {
    Join(Join(ExampleDir(root), base), base + "_config_v0.3.0.yaml")
  }

  /** `TEMPLATE_DIR / base / f"{base}_template" / f"{base}_template_v1.0.0.yaml"`. */
  function TemplatePath(root: FilePath, base: string): FilePath {
    Join(Join(Join(TemplateDir(root), base), base + "_template"), base + "_template_v1.0.0.yaml")
  }

  /** The promoted files never bear the name of an improved version. */
  lemma PromotionNamesDiffer(root: FilePath, base: string, v: string)
    ensures ConfigPath(root, base) != Join(Parent(ConfigPath(root, base)), VersionedName(base, v))
    ensures Name(ConfigPath(root, base)) != VersionedName(base, v)
    ensures Name(TemplatePath(root, base)) != VersionedName(base, v)
  {
    var n := VersionedName(base, v);
    assert n[|base| + 1] == 'v';
    assert Name(ConfigPath(root, base))[|base| + 1] == 'c';
    assert Name(TemplatePath(root, base))[|base| + 1] == 't';
  }

  /** The store after a promotion: the current text copied to the config file, the template written. */
  function Promote(files: Store, root: FilePath, base: string, text: string, version: string): Store {
    files[ConfigPath(root, base) := text][TemplatePath(root, base) := ReplaceVersionInYaml(text, version, "1.0.0")]
  }

  /**
   * `evaluate_and_improve_prompt(prompt_path, layer)` with THRESHOLD, MAX_ITERATIONS and the
   * repository root as parameters, and the three agents as oracles (`qualityFor` builds the quality
   * agent for a matrix name). Returns the files afterwards, the trace, how the run ended, and the
   * archive directory the promoted file is handed to.
   */
  method EvaluateAndImprovePrompt(store: Store, root: FilePath, promptPath: FilePath, layer: string,
                                  threshold: real, maxIterations: int, qualityFor: string -> Quality,
                                  improve: Improver, controller: Controller)
    returns (files: Store, steps: seq<Step>, outcome: Outcome, archive: Option<string>)
    ensures promptPath !in store ==> steps == [] && files == store && outcome == Raised(FileNotFound(Name(promptPath)))
    ensures promptPath in store ==> LoopRun(store, promptPath, Parent(promptPath), BaseName(promptPath),
      ParseVersionFromYaml(store[promptPath]), threshold, maxIterations, qualityFor(QualityMatrixName(layer, promptPath)),
      improve, controller, store + Writes(steps), steps, AtBreak(outcome))
    ensures outcome != Passed
    ensures outcome == Promoted ==>
      (&& steps != [] && Last(steps).path != ConfigPath(root, BaseName(promptPath))
       && files == Promote(store + Writes(steps), root, BaseName(promptPath), Last(steps).text, Last(steps).version))
    ensures outcome == Raised(SameFileError) ==> steps != [] && Last(steps).path == ConfigPath(root, BaseName(promptPath))
    ensures outcome != Promoted ==> files == store + Writes(steps)
    ensures archive == if outcome == Promoted then ArchiveDir(layer) else None
  {
    archive := None;
    if promptPath !in store {
      files, steps, outcome := store, [], Raised(FileNotFound(Name(promptPath)));
      return;
    }
    var base := CleanBaseName(Stem(Name(promptPath)));
    var quality := qualityFor(if layer == "raw" then "raw" else base);
    var version := ParseVersionFromYaml(store[promptPath]);
    files, steps, outcome := ImproveLoop(store, promptPath, Parent(promptPath), base, version, threshold,
                                         maxIterations, quality, improve, controller);
    LoopWritesImprovements(store, promptPath, Parent(promptPath), base, version, threshold, maxIterations,
                           quality, improve, controller, files, steps, outcome);
    assert base == BaseName(promptPath) && quality == qualityFor(QualityMatrixName(layer, promptPath));
    ghost var atBreak := outcome;
    if outcome == Passed {
      var last := Last(steps);
      if last.path == ConfigPath(root, base) {
        outcome := Raised(SameFileError);
      } else {
        files := Promote(files, root, base, last.text, last.version);
        outcome := Promoted;
        archive := ArchiveDir(layer);
      }
    }
    assert AtBreak(outcome) == atBreak;
  }

  /** A promotion writes two files and leaves every other file alone. */
  lemma PromoteKeeps(files: Store, root: FilePath, base: string, text: string, version: string, p: FilePath)
    requires p in files && p != ConfigPath(root, base) && p != TemplatePath(root, base)
    ensures p in Promote(files, root, base, text, version) && Promote(files, root, base, text, version)[p] == files[p]
  {
  }

  /** After a promotion, every improved version written along the way is still on disk as written. */
  lemma PromotionKeepsImprovements(store: Store, steps: seq<Step>, root: FilePath, dir: FilePath, base: string,
                                   threshold: real, quality: Quality, improve: Improver, controller: Controller,
                                   text: string, version: string)
    requires Linked(steps) && AllFollow(steps, dir, base, threshold, quality, improve, controller)
    ensures forall k :: 0 <= k < |steps| && steps[k].next.Some? ==>
      var n := steps[k].next.value;
      var files := Promote(store + Writes(steps), root, base, text, version);
      n.path in files && files[n.path] == n.text
  {
    var w := store + Writes(steps);
    TraceFilesHold(store, steps, dir, base, threshold, quality, improve, controller);
    forall k | 0 <= k < |steps| && steps[k].next.Some?
      ensures var n := steps[k].next.value;
        n.path in Promote(w, root, base, text, version) && Promote(w, root, base, text, version)[n.path] == n.text
    {
      var n := steps[k].next.value;
      assert Follows(steps[k], dir, base, threshold, quality, improve, controller);
      PromotionNamesDiffer(root, base, n.version);
      assert Name(n.path) == VersionedName(base, n.version);
      PromoteKeeps(w, root, base, text, version, n.path);
    }
  }

  /** A run that reaches iteration `k` + 1 has improved `k` times, each to a strictly newer version. */
  lemma EveryImprovementIsNewer(steps: seq<Step>, promptPath: FilePath, threshold: real,
                                quality: Quality, improve: Improver, controller: Controller, k: nat)
    requires Linked(steps) && AllFollow(steps, Parent(promptPath), BaseName(promptPath), threshold, quality, improve, controller)
    requires k + 1 < |steps|
    ensures steps[k].score < threshold
    ensures ParseVersion(steps[k].version).Some? && ParseVersion(steps[k + 1].version).Some?
    ensures ParseVersion(steps[k + 1].version).value == BumpPatch(ParseVersion(steps[k].version).value)
  {
    assert Continues(steps[k], steps[k + 1]);
    assert Follows(steps[k], Parent(promptPath), BaseName(promptPath), threshold, quality, improve, controller);
  }
}
