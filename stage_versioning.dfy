/**
 * utils/promt_versioning.py: the stage ladder raw -> templ -> config -> active, the stage and
 * version tags at the end of a prompt file name, and the promotion of a prompt file to the next
 * stage with a version bump.
 */
module StageVersioning {
  import opened Wrappers
  import opened Text
  import opened Paths
  import opened SemanticVersioning

  const Stages: seq<string> := ["raw", "templ", "config", "active"]

  /** Position of a known stage on the ladder. */
  function Rank(stage: string): (k: nat)
    requires stage in Stages
    ensures k < |Stages| && Stages[k] == stage
  {
    if stage == "raw" then 0 else if stage == "templ" then 1 else if stage == "config" then 2 else 3
  }

  lemma RankInjective(s: string, t: string)
    requires s in Stages && t in Stages && Rank(s) == Rank(t)
    ensures s == t
  {
  }

  // ---------------------------------------------------------------------------------------------
  // The `_v<digits>.<digits>.<digits>.yaml` tail of a name

  /** Length of the run of ASCII digits at the end of `s`. */
  function TrailingDigits(s: string): (n: nat)
    ensures n <= |s| && AllDigits(s[|s| - n..])
    ensures n < |s| ==> !IsDigit(s[|s| - n - 1])
    decreases |s|
  {
    if s == [] || !IsDigit(s[|s| - 1]) then 0
    else
      var p := s[..|s| - 1];
      var n := TrailingDigits(p);
      assert AllDigits(s[|s| - (n + 1)..]) by {
        var t := s[|s| - (n + 1)..];
        forall i | 0 <= i < |t|
          ensures IsDigit(t[i])
        {
          if i < n {
            assert t[i] == p[|p| - n..][i];
          }
        }
      }
      n + 1
  }

  lemma {:induction false} TrailingDigitsOf(x: string, d: string)
    requires x != [] && !IsDigit(x[|x| - 1]) && AllDigits(d)
    ensures TrailingDigits(x + d) == |d|
    decreases |d|
  {
    if d == [] {
      assert x + d == x;
    } else {
      TrailingDigitsOf(x, d[..|d| - 1]);
      assert (x + d)[..|x + d| - 1] == x + d[..|d| - 1];
    }
  }

  /** Splits `s` into `head + sep + d` where `d` is the non-empty run of digits ending `s`. */
  function SplitDigitsTail(s: string, sep: string): (r: Option<(string, string)>)
    ensures r.Some? ==> s == r.value.0 + sep + r.value.1 && r.value.1 != [] && AllDigits(r.value.1)
  {
    var n := TrailingDigits(s);
    var h := s[..|s| - n];
    if n > 0 && EndsWith(h, sep) then
      assert s == h[..|h| - |sep|] + sep + s[|s| - n..];
      Some((h[..|h| - |sep|], s[|s| - n..]))
    else None
  }

  lemma SplitDigitsTailOf(h: string, sep: string, d: string)
    requires sep != [] && !IsDigit(sep[|sep| - 1]) && d != [] && AllDigits(d)
    ensures SplitDigitsTail(h + sep + d, sep) == Some((h, d))
  {
    var s := h + sep + d;
    assert (h + sep)[|h + sep| - 1] == sep[|sep| - 1];
    TrailingDigitsOf(h + sep, d);
    assert s[..|s| - |d|] == h + sep;
    assert s[|s| - |d|..] == d;
    assert (h + sep)[..|h + sep| - |sep|] == h;
  }

  /** A name split at its version tail: `head + "_v" + major + "." + minor + "." + patch + ".yaml"`. */
  datatype Tail = Tail(head: string, major: string, minor: string, patch: string)

  predicate DigitRuns(t: Tail) {
    t.major != [] && t.minor != [] && t.patch != []
    && AllDigits(t.major) && AllDigits(t.minor) && AllDigits(t.patch)
  }

  function TailVersion(t: Tail): string {
    t.major + "." + t.minor + "." + t.patch
  }

  function TailText(t: Tail): string {
    t.head + "_v" + TailVersion(t) + ".yaml"
  }

  /** Recognises the shape `_v\d+\.\d+\.\d+\.yaml` at the end of `s`. */
  function ParseTail(s: string): (r: Option<Tail>)
    ensures r.Some? ==> DigitRuns(r.value) && TailText(r.value) == s
  {
    if !EndsWith(s, ".yaml") then None
    else
      var u := s[..|s| - 5];
      assert s == u + ".yaml";
      match SplitDigitsTail(u, ".")
      case None => None
      case Some((u1, c)) =>
        match SplitDigitsTail(u1, ".")
        case None => None
        case Some((u2, b)) =>
          match SplitDigitsTail(u2, "_v")
          case None => None
          case Some((h, a)) =>
            TailTextParts(Tail(h, a, b, c));
            Some(Tail(h, a, b, c))
  }

  /** The text of a tail, grouped the way the parser splits it off from the right. */
  lemma TailTextParts(t: Tail)
    ensures TailText(t) == t.head + "_v" + t.major + "." + t.minor + "." + t.patch + ".yaml"
  {
    Assoc(t.head + "_v", t.major + "." + t.minor + ".", t.patch);
    Assoc(t.head + "_v", t.major + "." + t.minor, ".");
    Assoc(t.head + "_v", t.major + ".", t.minor);
    Assoc(t.head + "_v", t.major, ".");
  }

  /** Every name of that shape is recognised, with its own parts. */
  lemma ParseTailOf(t: Tail)
    requires DigitRuns(t)
    ensures ParseTail(TailText(t)) == Some(t)
  {
    var u2 := t.head + "_v" + t.major;
    var u1 := u2 + "." + t.minor;
    var u := u1 + "." + t.patch;
    TailTextParts(t);
    var s := u + ".yaml";
    assert s[..|s| - 5] == u && s[|s| - 5..] == ".yaml";
    SplitDigitsTailOf(u1, ".", t.patch);
    SplitDigitsTailOf(u2, ".", t.minor);
    SplitDigitsTailOf(t.head, "_v", t.major);
  }

  /**
   * The text a `$`-anchored `re.search` must match at its end: Python's `$` also matches just
   * before a final newline, so a name ending in "\n" is matched without it.
   */
  function Subject(f: string): (t: string)
    ensures StartsWith(f, t) && |f| - 1 <= |t|
  {
    if f != [] && f[|f| - 1] == '\n' then f[..|f| - 1] else f
  }

  /** `extract_version(filename)`. */
  function ExtractVersion(f: string): (r: Result<string>)
    ensures r.Err? <==> ParseTail(Subject(f)).None?
    ensures r.Err? ==> r.error == ValueError("Version not found in filename: " + f)
    ensures r.Ok? ==> r.value == TailVersion(ParseTail(Subject(f)).value) && ParseVersion(r.value).Some?
  {
    match ParseTail(Subject(f))
    case None => Err(ValueError("Version not found in filename: " + f))
    case Some(t) =>
      TripleParses(t.major, t.minor, t.patch);
      Ok(TailVersion(t))
  }

  /** The stage named just before the version tail, if the head ends with `_<stage>`. */
  function StageOfHead(h: string): (r: Option<string>)
    ensures r.Some? ==> r.value in Stages && EndsWith(h, "_" + r.value)
  {
    if EndsWith(h, "_raw") then Some("raw")
    else if EndsWith(h, "_templ") then Some("templ")
    else if EndsWith(h, "_config") then Some("config")
    else if EndsWith(h, "_active") then Some("active")
    else None
  }

  /** The stage alternatives end in different letters, so at most one of them ends a head. */
  lemma StageOfHeadOf(p: string, stage: string)
    requires stage in Stages
    ensures StageOfHead(p + "_" + stage) == Some(stage)
  {
    var h := p + "_" + stage;
    assert EndsWith(h, "_" + stage) by {
      Assoc(p, "_", stage);
      EndsWithConcat(p, "_" + stage);
    }
    if stage == "raw" {
      assert "_" + stage == "_raw";
    } else if stage == "templ" {
      assert "_" + stage == "_templ";
      TemplHead(h);
    } else if stage == "config" {
      assert "_" + stage == "_config";
      ConfigHead(h);
    } else {
      assert "_" + stage == "_active";
      ActiveHead(h);
    }
  }

  lemma TemplHead(h: string)
    requires EndsWith(h, "_templ")
    ensures StageOfHead(h) == Some("templ")
  {
    EndsWithLast(h, "_templ");
    EndsWithLast(h, "_raw");
  }

  lemma ConfigHead(h: string)
    requires EndsWith(h, "_config")
    ensures StageOfHead(h) == Some("config")
  {
    EndsWithLast(h, "_config");
    EndsWithLast(h, "_raw");
    EndsWithLast(h, "_templ");
  }

  lemma ActiveHead(h: string)
    requires EndsWith(h, "_active")
    ensures StageOfHead(h) == Some("active")
  {
    EndsWithLast(h, "_active");
    EndsWithLast(h, "_raw");
    EndsWithLast(h, "_templ");
    EndsWithLast(h, "_config");
  }

  /** `extract_stage(filename)`. */
  function ExtractStage(f: string): (r: Result<string>)
    ensures r.Ok? <==> ParseTail(Subject(f)).Some? && StageOfHead(ParseTail(Subject(f)).value.head).Some?
    ensures r.Err? ==> r.error == ValueError("Stage not found in filename: " + f)
    ensures r.Ok? ==> r.value in Stages && EndsWith(ParseTail(Subject(f)).value.head, "_" + r.value)
  {
    match ParseTail(Subject(f))
    case None => Err(ValueError("Stage not found in filename: " + f))
    case Some(t) =>
      match StageOfHead(t.head)
      case None => Err(ValueError("Stage not found in filename: " + f))
      case Some(s) => Ok(s)
  }

  /** Both extractors recover the stage and the version from `p_<stage>_v<a>.<b>.<c>.yaml`. */
  lemma ExtractFromStagedName(p: string, stage: string, a: string, b: string, c: string)
    requires stage in Stages && DigitRuns(Tail(p + "_" + stage, a, b, c))
    ensures ExtractStage(TailText(Tail(p + "_" + stage, a, b, c))) == Ok(stage)
    ensures ExtractVersion(TailText(Tail(p + "_" + stage, a, b, c))) == Ok(a + "." + b + "." + c)
  {
    var t := Tail(p + "_" + stage, a, b, c);
    var f := TailText(t);
    assert f[|f| - 1] == 'l';
    assert Subject(f) == f;
    ParseTailOf(t);
    StageOfHeadOf(p, stage);
  }

  predicate KnownMode(mode: string) { mode == "patch" || mode == "minor" || mode == "major" }

  /** `bump_version(version_str, mode)` of this module (its messages differ from `bump`'s). */
  function BumpVersion(s: string, mode: string): (r: Result<string>)
    ensures ParseVersion(s).None? ==> r == Err(ValueError("Invalid version string: " + s))
    ensures ParseVersion(s).Some? && !KnownMode(mode) ==> r == Err(ValueError("Unknown bump mode: " + mode))
    ensures r.Ok? <==> ParseVersion(s).Some? && KnownMode(mode)
    ensures r.Ok? ==> ParseVersion(r.value).Some? && Format(ParseVersion(r.value).value) == r.value
    ensures r.Ok? ==> ParseVersion(r.value) == Some(
      var v := ParseVersion(s).value;
      if mode == "patch" then BumpPatch(v) else if mode == "minor" then BumpMinor(v) else BumpMajor(v))
  {
    match ParseVersion(s)
    case None => Err(ValueError("Invalid version string: " + s))
    case Some(v) =>
      if mode == "patch" then ParseFormat(BumpPatch(v)); Ok(Format(BumpPatch(v)))
      else if mode == "minor" then ParseFormat(BumpMinor(v)); Ok(Format(BumpMinor(v)))
      else if mode == "major" then ParseFormat(BumpMajor(v)); Ok(Format(BumpMajor(v)))
      else Err(ValueError("Unknown bump mode: " + mode))
  }

  /** `next_stage(current_stage, allow_skip_config)`. */
  function NextStage(stage: string, skipConfig: bool): (r: Result<string>)
    ensures r.Err? <==> stage !in Stages
    ensures r.Err? ==> r.error == ValueError("Unknown stage: " + stage)
    ensures r.Ok? ==> r.value in Stages && Rank(stage) <= Rank(r.value)
    ensures stage == "active" ==> r == Ok("active")
    ensures r.Ok? && stage != "active" ==> Rank(stage) < Rank(r.value)
    ensures r.Ok? && skipConfig ==> r.value != "config"
    ensures r.Ok? && !skipConfig && stage != "active" ==> Rank(r.value) == Rank(stage) + 1
  {
    if stage !in Stages then Err(ValueError("Unknown stage: " + stage))
    else
      var idx := Rank(stage);
      if idx == |Stages| - 1 then Ok(stage)
      else if skipConfig && Stages[idx + 1] == "config" then
        Ok(if idx + 2 < |Stages| then Stages[idx + 2] else Stages[|Stages| - 1])
      else Ok(Stages[idx + 1])
  }

  /** The two ladders: with the skip, raw -> templ -> active; without it, one rung at a time. */
  lemma Ladders()
    ensures NextStage("raw", true) == Ok("templ") && NextStage("templ", true) == Ok("active")
    ensures NextStage("config", true) == Ok("active")
    ensures NextStage("raw", false) == Ok("templ") && NextStage("templ", false) == Ok("config")
    ensures NextStage("config", false) == Ok("active")
  {
    assert Rank("raw") == 0 && Rank("templ") == 1 && Rank("config") == 2;
  }

  /** `resolve_target_dir(stage, current_path)`; `parents[3]` is taken before the stage is looked at. */
  function ResolveTargetDir(stage: string, p: FilePath): (r: Result<FilePath>)
    ensures ParentAt(p, 3).Err? ==> r == Err(IndexError)
    ensures ParentAt(p, 3).Ok? && stage !in Stages ==> r == Err(ValueError("Unknown stage for target directory: " + stage))
    ensures r.Ok? <==> ParentAt(p, 3).Ok? && stage in Stages
    ensures r.Ok? ==> r.value.anchored == p.anchored && UnderPrompts(ParentAt(p, 3).value, r.value)
  {
    var root :- ParentAt(p, 3);
    var prompts := Join(root, "prompts");
    if stage in ["raw", "templ"] then
      TwoBelowPrompts(root, "00-templates", "00-feature_setup");
      JoinUnderPrompts(root, Join(Join(prompts, "00-templates"), "00-feature_setup"), "feature_setup_" + stage);
      Ok(Join(Join(Join(prompts, "00-templates"), "00-feature_setup"), "feature_setup_" + stage))
    else if stage == "config" then
      TwoBelowPrompts(root, "01-examples", "00-feature_setup");
      Ok(Join(Join(prompts, "01-examples"), "00-feature_setup"))
    else if stage == "active" then
      TwoBelowPrompts(root, "02-production", "00-feature_setup");
      Ok(Join(Join(prompts, "02-production"), "00-feature_setup"))
    else Err(ValueError("Unknown stage for target directory: " + stage))
  }

  /** `d` lies at least two levels below `root / "prompts"`, on the same anchor. */
  predicate UnderPrompts(root: FilePath, d: FilePath) {
    var n := |root.parts|;
    && d.anchored == root.anchored
    && n + 3 <= |d.parts| && d.parts[..n] == root.parts && d.parts[n] == "prompts"
  }

  lemma TwoBelowPrompts(root: FilePath, a: string, b: string)
    ensures UnderPrompts(root, Join(Join(Join(root, "prompts"), a), b))
  {
    var d := Join(Join(Join(root, "prompts"), a), b);
    assert d.parts == root.parts + ["prompts", a, b];
    assert d.parts[..|root.parts|] == root.parts;
  }

  lemma JoinUnderPrompts(root: FilePath, d: FilePath, name: string)
    requires UnderPrompts(root, d)
    ensures UnderPrompts(root, Join(d, name))
  {
    assert Join(d, name).parts[..|d.parts|] == d.parts;
  }

  /** Different stages are filed in different directories. */
  lemma TargetDirsDistinct(s: string, t: string, p: FilePath)
    requires s in Stages && t in Stages && s != t && ParentAt(p, 3).Ok?
    ensures ResolveTargetDir(s, p).value != ResolveTargetDir(t, p).value
  {
    if s in ["raw", "templ"] && t in ["raw", "templ"] {
      FeatureDirName(s, p);
      FeatureDirName(t, p);
      if Name(ResolveTargetDir(s, p).value) == Name(ResolveTargetDir(t, p).value) {
        CancelPrefix("feature_setup_", s, t);
      }
    } else {
      AreaOf(s, p);
      AreaOf(t, p);
      assert Area(s) != Area(t);
    }
  }

  /** The raw and templated stages each have a directory of their own, named after the stage. */
  lemma FeatureDirName(stage: string, p: FilePath)
    requires stage in ["raw", "templ"] && ParentAt(p, 3).Ok?
    ensures ResolveTargetDir(stage, p).Ok? && Name(ResolveTargetDir(stage, p).value) == "feature_setup_" + stage
  {
  }

  /** The directory under `prompts` a stage is filed in. */
  function Area(stage: string): string {
    if stage in ["raw", "templ"] then "00-templates" else if stage == "config" then "01-examples" else "02-production"
  }

  lemma AreaOf(stage: string, p: FilePath)
    requires stage in Stages && ParentAt(p, 3).Ok?
    ensures |ResolveTargetDir(stage, p).value.parts| > |ParentAt(p, 3).value.parts| + 1
    ensures ResolveTargetDir(stage, p).value.parts[|ParentAt(p, 3).value.parts| + 1] == Area(stage)
  {
    var root := ParentAt(p, 3).value;
    var prompts := Join(root, "prompts");
    var d := ResolveTargetDir(stage, p).value;
    if stage in ["raw", "templ"] {
      assert d == Join(Join(Join(prompts, "00-templates"), "00-feature_setup"), "feature_setup_" + stage);
    } else if stage == "config" {
      assert d == Join(Join(prompts, "01-examples"), "00-feature_setup");
    } else {
      assert d == Join(Join(prompts, "02-production"), "00-feature_setup");
    }
  }

  // ---------------------------------------------------------------------------------------------
  // Promotion

  /** What `promote_prompt` decides for a file name before touching the disk. */
  datatype Promotion = Promotion(stage: string, version: string, next: string, newVersion: string)

  /** The bump on promotion: major exactly when entering `active` from another stage. */
  predicate MajorBump(p: Promotion) { p.next == "active" && p.stage != "active" }

  /** The name analysis of `promote_prompt(current_path, allow_skip_config)`. */
  function PlanPromotion(f: string, skipConfig: bool): (r: Result<Promotion>)
    ensures r.Ok? <==> ExtractStage(f).Ok?
    ensures r.Err? ==> r == Err(ExtractStage(f).error)
    ensures r.Ok? ==> && r.value.stage == ExtractStage(f).value
                      && r.value.version == ExtractVersion(f).value
                      && NextStage(r.value.stage, skipConfig) == Ok(r.value.next)
                      && BumpVersion(r.value.version, if MajorBump(r.value) then "major" else "patch") == Ok(r.value.newVersion)
  {
    match ExtractStage(f)
    case Err(e) => Err(e)
    case Ok(stage) =>
      var version := ExtractVersion(f).value;
      var next := NextStage(stage, skipConfig).value;
      var newVersion := BumpVersion(version, if next == "active" && stage != "active" then "major" else "patch").value;
      Ok(Promotion(stage, version, next, newVersion))
  }

  /** The new version of a promotion: a major bump into `active`, a patch bump otherwise. */
  lemma PromotionVersions(f: string, skipConfig: bool)
    requires PlanPromotion(f, skipConfig).Ok?
    ensures var p := PlanPromotion(f, skipConfig).value;
      && ParseVersion(p.version).Some? && ParseVersion(p.newVersion).Some?
      && ParseVersion(p.newVersion).value
         == (if MajorBump(p) then BumpMajor(ParseVersion(p.version).value) else BumpPatch(ParseVersion(p.version).value))
      && Format(ParseVersion(p.newVersion).value) == p.newVersion
  {
  }

  /** Every promotion yields a strictly greater version. */
  lemma PromotionIncreases(f: string, skipConfig: bool)
    requires PlanPromotion(f, skipConfig).Ok?
    ensures var p := PlanPromotion(f, skipConfig).value;
      Less(ParseVersion(p.version).value, ParseVersion(p.newVersion).value)
  {
    PromotionVersions(f, skipConfig);
    BumpRules(ParseVersion(PlanPromotion(f, skipConfig).value.version).value);
  }

  /** `p` matches at `i` when its dots are read as the regex wildcard (any character but "\n"). */
  predicate WildAt(s: string, p: string, i: int) {
    && 0 <= i && i + |p| <= |s|
    && forall k :: 0 <= k < |p| ==> if p[k] == '.' then s[i + k] != '\n' else s[i + k] == p[k]
  }

  /** `re.sub(p, q, s)` for a pattern whose only metacharacter is `.` and a plain replacement. */
  function SubWild(s: string, p: string, q: string): string
    requires p != []
    decreases |s|
  {
    if |s| < |p| then s
    else if WildAt(s, p, 0) then q + SubWild(s[|p|..], p, q)
    else [s[0]] + SubWild(s[1..], p, q)
  }

  lemma WildShift(s: string, p: string, j: nat)
    requires s != []
    ensures WildAt(s[1..], p, j) <==> WildAt(s, p, j + 1)
  {
  }

  lemma {:induction false} SubWildAbsent(s: string, p: string, q: string)
    requires p != []
    requires forall j :: 0 <= j <= |s| ==> !WildAt(s, p, j)
    ensures SubWild(s, p, q) == s
    decreases |s|
  {
    if |s| >= |p| {
      assert !WildAt(s, p, 0);
      forall j | 0 <= j <= |s[1..]| ensures !WildAt(s[1..], p, j) {
        WildShift(s, p, j);
      }
      SubWildAbsent(s[1..], p, q);
    }
  }

  /** A match at the start is replaced and the substitution continues after it. */
  lemma SubWildHead(m: string, y: string, p: string, q: string)
    requires p != [] && |m| == |p| && WildAt(m, p, 0)
    ensures SubWild(m + y, p, q) == q + SubWild(y, p, q)
  {
    assert forall k :: 0 <= k < |p| ==> (m + y)[k] == m[k];
    assert WildAt(m + y, p, 0);
    assert (m + y)[|p|..] == y;
  }

  /** With a single match, after `x`, the substitution replaces exactly that match. */
  lemma {:induction false} SubWildOnce(x: string, m: string, y: string, p: string, q: string)
    requires p != [] && |m| == |p| && WildAt(m, p, 0)
    requires forall j :: 0 <= j < |x| ==> !WildAt(x + m + y, p, j)
    requires forall j :: 0 <= j <= |y| ==> !WildAt(y, p, j)
    ensures SubWild(x + m + y, p, q) == x + q + y
    decreases |x|
  {
    if x == [] {
      assert x + m + y == m + y;
      SubWildHead(m, y, p, q);
      SubWildAbsent(y, p, q);
    } else {
      var s := x + m + y;
      var t := x[1..] + m + y;
      ConsSplit(x, m, y);
      assert s[1..] == t;
      assert !WildAt(s, p, 0);
      forall j | 0 <= j < |x[1..]| ensures !WildAt(t, p, j) {
        WildShift(s, p, j);
      }
      SubWildSkip(s, p, q);
      SubWildOnce(x[1..], m, y, p, q);
      ConsSplit(x, q, y);
    }
  }

  /** A string that does not match at its start keeps its first character. */
  lemma SubWildSkip(s: string, p: string, q: string)
    requires p != [] && s != [] && !WildAt(s, p, 0)
    ensures SubWild(s, p, q) == [s[0]] + SubWild(s[1..], p, q)
  {
    if |s| < |p| {
      assert [s[0]] + s[1..] == s;
    }
  }

  lemma ConsSplit(x: string, a: string, b: string)
    requires x != []
    ensures x + a + b == [x[0]] + (x[1..] + a + b)
  {
  }

  /** The new name exactly as `promote_prompt` computes it: every wildcard match is rewritten. */
  function PromotedNameAsWritten(f: string, p: Promotion): string {
    SubWild(f, "_" + p.stage + "_v" + p.version, "_" + p.next + "_v" + p.newVersion)
  }

  /** The name before its `_<stage>_v<version>.yaml` tags. */
  function Base(f: string, stage: string): string
    requires ParseTail(Subject(f)).Some?
  {
    var h := ParseTail(Subject(f)).value.head;
    if EndsWith(h, "_" + stage) then h[..|h| - |"_" + stage|] else h
  }

  /** What follows the tags: "" or the final newline that `$` lets through. */
  function Rest(f: string): (r: string)
    ensures r == [] || r == "\n"
  {
    f[|Subject(f)|..]
  }

  /** The head of a staged name is its base followed by `_<stage>`. */
  lemma HeadOfStaged(f: string)
    requires ExtractStage(f).Ok?
    ensures ParseTail(Subject(f)).value.head == Base(f, ExtractStage(f).value) + ("_" + ExtractStage(f).value)
  {
    EndsWithSplit(ParseTail(Subject(f)).value.head, "_" + ExtractStage(f).value);
  }

  /** A name with a stage is its base, its tags and its rest. */
  lemma StagedShape(f: string)
    requires ExtractStage(f).Ok?
    ensures f == Base(f, ExtractStage(f).value) + ("_" + ExtractStage(f).value + "_v" + ExtractVersion(f).value) + (".yaml" + Rest(f))
  {
    SubjectOfVersioned(f);
    HeadOfStaged(f);
    Regroup(f, ParseTail(Subject(f)).value.head, Base(f, ExtractStage(f).value), "_" + ExtractStage(f).value,
            ExtractVersion(f).value, Rest(f));
  }

  /** A name with a version is its head, its version tag and its rest. */
  lemma SubjectOfVersioned(f: string)
    requires ExtractVersion(f).Ok?
    ensures f == (ParseTail(Subject(f)).value.head + "_v" + ExtractVersion(f).value + ".yaml") + Rest(f)
  {
    var t := ParseTail(Subject(f)).value;
    assert ExtractVersion(f).value == TailVersion(t) && Subject(f) == TailText(t);
    assert f == Subject(f) + Rest(f);
  }

  /** The grouping of a staged name's parts that `StagedShape` states. */
  lemma Regroup(f: string, head: string, base: string, st: string, v: string, r: string)
    requires f == (head + "_v" + v + ".yaml") + r && head == base + st
    ensures f == base + (st + "_v" + v) + (".yaml" + r)
  {
    calc {
      f;
      (base + st + "_v" + v + ".yaml") + r;
      { Assoc(base + st + "_v" + v, ".yaml", r); }
      (base + st + "_v" + v) + (".yaml" + r);
      { Assoc(base, st, "_v"); Assoc(base, st + "_v", v); }
      base + (st + "_v" + v) + (".yaml" + r);
    }
  }

  /** The stage and version tags that end a prompt file name. */
  function Tags(stage: string, version: string): string {
    "_" + stage + "_v" + version + ".yaml"
  }

  /**
   * The new name that promotion is for: the stage and version tags at the end of the name are
   * replaced and the rest of the name is kept.
   */
  function PromotedName(f: string, p: Promotion): string
    requires ParseTail(Subject(f)).Some?
  {
    Base(f, p.stage) + Tags(p.next, p.newVersion) + Rest(f)
  }

  /** The extractors read a name and the same name followed by a newline alike. */
  lemma ExtractIgnoresFinalNewline(g: string, rest: string)
    requires g != [] && g[|g| - 1] == 'l' && (rest == [] || rest == "\n")
    ensures ExtractStage(g + rest).Ok? <==> ExtractStage(g).Ok?
    ensures ExtractStage(g).Ok? ==> ExtractStage(g + rest) == ExtractStage(g)
    ensures ExtractVersion(g).Ok? ==> ExtractVersion(g + rest) == ExtractVersion(g)
  {
    assert Subject(g) == g;
    if rest == [] {
      assert g + rest == g;
    } else {
      assert (g + rest)[..|g + rest| - 1] == g;
    }
  }

  /** The version tail of `head` followed by a version in canonical form. */
  function CanonicalTail(head: string, version: string): Tail
    requires ParseVersion(version).Some?
  {
    var v := ParseVersion(version).value;
    Tail(head, NatToDecimal(v.major), NatToDecimal(v.minor), NatToDecimal(v.patch))
  }

  /** A name built from a base, a stage, a canonical version and a rest, as the extractors see it. */
  lemma BuiltName(base: string, stage: string, version: string, rest: string)
    requires ParseVersion(version).Some? && Format(ParseVersion(version).value) == version
    requires rest == [] || rest == "\n"
    ensures var g := base + Tags(stage, version);
      && Subject(g + rest) == g && Rest(g + rest) == rest
      && ParseTail(g) == Some(CanonicalTail(base + "_" + stage, version))
  {
    var t := CanonicalTail(base + "_" + stage, version);
    assert TailText(t) == base + "_" + stage + "_v" + version + ".yaml";
    TagsRegroup(base, stage, version);
    SubjectOfFinal(base + Tags(stage, version), rest);
    ParseTailOf(t);
  }

  /** The tags of a name, grouped as `Tags` builds them. */
  lemma TagsRegroup(base: string, stage: string, version: string)
    ensures base + "_" + stage + "_v" + version + ".yaml" == base + Tags(stage, version)
  {
    Assoc(base, "_", stage);
    Assoc(base, "_" + stage, "_v");
    Assoc(base, "_" + stage + "_v", version);
    Assoc(base, "_" + stage + "_v" + version, ".yaml");
  }

  /** A name ending in `l`, with or without a final newline, is read without the newline. */
  lemma SubjectOfFinal(g: string, rest: string)
    requires g != [] && g[|g| - 1] == 'l' && (rest == [] || rest == "\n")
    ensures Subject(g + rest) == g && Rest(g + rest) == rest
  {
    if rest == [] {
      assert g + rest == g;
    } else {
      assert (g + rest)[..|g + rest| - 1] == g;
    }
    assert (g + rest)[|g|..] == rest;
  }

  /** Both extractors recover the stage and version of a built name. */
  lemma ExtractFromBuiltName(base: string, stage: string, version: string, rest: string)
    requires stage in Stages && ParseVersion(version).Some? && Format(ParseVersion(version).value) == version
    requires rest == [] || rest == "\n"
    ensures ExtractStage(base + Tags(stage, version) + rest) == Ok(stage)
    ensures ExtractVersion(base + Tags(stage, version) + rest) == Ok(version)
  {
    BuiltName(base, stage, version, rest);
    StageOfHeadOf(base, stage);
  }

  /** The base of a built name is the base it was built from. */
  lemma BaseOfBuiltName(base: string, stage: string, version: string, rest: string)
    requires ParseVersion(version).Some? && Format(ParseVersion(version).value) == version
    requires rest == [] || rest == "\n"
    ensures ParseTail(Subject(base + Tags(stage, version) + rest)).Some?
    ensures Base(base + Tags(stage, version) + rest, stage) == base
    ensures Rest(base + Tags(stage, version) + rest) == rest
  {
    BuiltName(base, stage, version, rest);
    var h, st := base + "_" + stage, "_" + stage;
    Assoc(base, "_", stage);
    assert h == base + st;
    assert h[|base|..] == st && h[..|base|] == base;
  }

  /** The promoted name carries the new stage and version and keeps the base of the old name. */
  lemma PromotedNameRoundTrip(f: string, skipConfig: bool)
    requires PlanPromotion(f, skipConfig).Ok?
    ensures var p := PlanPromotion(f, skipConfig).value;
      var g := PromotedName(f, p);
      && StartsWith(f, Base(f, p.stage)) && StartsWith(g, Base(f, p.stage))
      && ExtractStage(g) == Ok(p.next) && ExtractVersion(g) == Ok(p.newVersion)
  {
    var p := PlanPromotion(f, skipConfig).value;
    var base := Base(f, p.stage);
    var pat := "_" + p.stage + "_v" + p.version;
    PromotionVersions(f, skipConfig);
    StagedShape(f);
    PrefixOfConcat(base + pat, ".yaml" + Rest(f));
    PrefixOfConcat(base, pat);
    StartsWithTrans(f, base + pat, base);
    PrefixOfConcat(base + Tags(p.next, p.newVersion), Rest(f));
    PrefixOfConcat(base, Tags(p.next, p.newVersion));
    StartsWithTrans(PromotedName(f, p), base + Tags(p.next, p.newVersion), base);
    ExtractFromBuiltName(base, p.next, p.newVersion, Rest(f));
  }

  /** The as-written rewrite agrees with the intended one when the tag pattern matches only once. */
  lemma AsWrittenAgrees(f: string, skipConfig: bool)
    requires PlanPromotion(f, skipConfig).Ok?
    requires TagsOnlyAtEnd(f, PlanPromotion(f, skipConfig).value)
    ensures var p := PlanPromotion(f, skipConfig).value;
      PromotedNameAsWritten(f, p) == PromotedName(f, p)
  {
    var p := PlanPromotion(f, skipConfig).value;
    var pat := "_" + p.stage + "_v" + p.version;
    var q := "_" + p.next + "_v" + p.newVersion;
    var base := Base(f, p.stage);
    var y := ".yaml" + Rest(f);
    StagedShape(f);
    assert |pat| > |y|;
    assert WildAt(pat, pat, 0);
    SubWildOnce(base, pat, y, pat, q);
    Assoc(base, q, ".yaml");
    Assoc(base + q, ".yaml", Rest(f));
  }

  /** No wildcard match of the old tags begins inside the base of the name. */
  predicate TagsOnlyAtEnd(f: string, p: Promotion)
    requires ParseTail(Subject(f)).Some?
  {
    forall j :: 0 <= j < |Base(f, p.stage)| ==> !WildAt(f, "_" + p.stage + "_v" + p.version, j)
  }

  /** Moving the file at `path` into `dir` under `name`: the text goes with it. */
  function MoveTo(store: Store, path: FilePath, dir: FilePath, name: string): (r: Result<(FilePath, Store)>)
    ensures path !in store ==> r == Err(FileNotFound(Name(path)))
    ensures path in store ==> r == Ok((Join(dir, name), store - {path} + map[Join(dir, name) := store[path]]))
  {
    if path !in store then Err(FileNotFound(Name(path)))
    else Ok((Join(dir, name), store - {path} + map[Join(dir, name) := store[path]]))
  }

  /**
   * `promote_prompt(current_path, allow_skip_config)`: the name of the promoted file and the new
   * state of the disk, with the new name computed by the `re.sub` of the source.
   */
  function Promote(store: Store, path: FilePath, skipConfig: bool): (r: Result<(FilePath, Store)>)
    ensures r.Ok? ==> && PlanPromotion(Name(path), skipConfig).Ok?
                      && path in store
                      && r.value.1 == store - {path} + map[r.value.0 := store[path]]
    ensures r.Ok? ==> var p := PlanPromotion(Name(path), skipConfig).value;
      && ResolveTargetDir(p.next, path) == Ok(Parent(r.value.0))
      && Name(r.value.0) == PromotedNameAsWritten(Name(path), p)
    ensures PlanPromotion(Name(path), skipConfig).Err? ==> r == Err(ExtractStage(Name(path)).error)
    ensures PlanPromotion(Name(path), skipConfig).Ok? && ParentAt(path, 3).Err? ==> r == Err(IndexError)
    ensures PlanPromotion(Name(path), skipConfig).Ok? && ParentAt(path, 3).Ok? && path !in store
      ==> r == Err(FileNotFound(Name(path)))
    ensures PlanPromotion(Name(path), skipConfig).Ok? && ParentAt(path, 3).Ok? && path in store ==> r.Ok?
  {
    var p :- PlanPromotion(Name(path), skipConfig);
    var dir :- ResolveTargetDir(p.next, path);
    MoveTo(store, path, dir, PromotedNameAsWritten(Name(path), p))
  }

  /** Promotion as intended: only the stage and version tags at the end of the name are rewritten. */
  function PromoteIntended(store: Store, path: FilePath, skipConfig: bool): (r: Result<(FilePath, Store)>)
    ensures r.Ok? ==> && PlanPromotion(Name(path), skipConfig).Ok?
                      && path in store
                      && r.value.1 == store - {path} + map[r.value.0 := store[path]]
    ensures r.Ok? ==> var p := PlanPromotion(Name(path), skipConfig).value;
      && ResolveTargetDir(p.next, path) == Ok(Parent(r.value.0))
      && Name(r.value.0) == PromotedName(Name(path), p)
    ensures PlanPromotion(Name(path), skipConfig).Err? ==> r == Err(ExtractStage(Name(path)).error)
    ensures PlanPromotion(Name(path), skipConfig).Ok? && ParentAt(path, 3).Err? ==> r == Err(IndexError)
    ensures PlanPromotion(Name(path), skipConfig).Ok? && ParentAt(path, 3).Ok? && path !in store
      ==> r == Err(FileNotFound(Name(path)))
    ensures PlanPromotion(Name(path), skipConfig).Ok? && ParentAt(path, 3).Ok? && path in store ==> r.Ok?
  {
    var p :- PlanPromotion(Name(path), skipConfig);
    var dir :- ResolveTargetDir(p.next, path);
    MoveTo(store, path, dir, PromotedName(Name(path), p))
  }

  /**
   * When no match of the old tags begins inside the base, `promote_prompt` does what was intended:
   * the file keeps its text, is tagged with the next stage and the new version, and moves up the ladder.
   */
  lemma PromoteMovesUp(store: Store, path: FilePath, skipConfig: bool)
    requires Promote(store, path, skipConfig).Ok?
    requires TagsOnlyAtEnd(Name(path), PlanPromotion(Name(path), skipConfig).value)
    ensures Promote(store, path, skipConfig) == PromoteIntended(store, path, skipConfig)
    ensures var (target, after) := Promote(store, path, skipConfig).value;
      var p := PlanPromotion(Name(path), skipConfig).value;
      && target in after && after[target] == store[path]
      && ExtractStage(Name(target)) == Ok(p.next) && ExtractVersion(Name(target)) == Ok(p.newVersion)
      && Rank(ExtractStage(Name(path)).value) <= Rank(ExtractStage(Name(target)).value)
  {
    AsWrittenAgrees(Name(path), skipConfig);
    PromoteIntendedMovesUp(store, path, skipConfig);
  }

  /** An intended promotion keeps the text, tags the file with the next stage and version, and moves it up. */
  lemma PromoteIntendedMovesUp(store: Store, path: FilePath, skipConfig: bool)
    requires PromoteIntended(store, path, skipConfig).Ok?
    ensures var (target, after) := PromoteIntended(store, path, skipConfig).value;
      var p := PlanPromotion(Name(path), skipConfig).value;
      && target in after && after[target] == store[path]
      && ExtractStage(Name(target)) == Ok(p.next) && ExtractVersion(Name(target)) == Ok(p.newVersion)
      && Rank(ExtractStage(Name(path)).value) <= Rank(ExtractStage(Name(target)).value)
  {
    PromotedNameRoundTrip(Name(path), skipConfig);
  }

  /** When the base of a name is itself a wildcard match of the tag pattern, `promote_prompt` rewrites it too. */
  lemma AsWrittenRewritesBase(m: string, stage: string, v: Version, skipConfig: bool)
    requires stage in Stages
    requires |m| == |"_" + stage + "_v" + Format(v)| && WildAt(m, "_" + stage + "_v" + Format(v), 0)
    ensures var f := m + Tags(stage, Format(v));
      && PlanPromotion(f, skipConfig).Ok?
      && var p := PlanPromotion(f, skipConfig).value;
         var q := "_" + p.next + "_v" + p.newVersion;
         && PromotedNameAsWritten(f, p) == q + q + ".yaml"
         && PromotedName(f, p) == m + q + ".yaml"
  {
    var f := m + Tags(stage, Format(v));
    var pat := "_" + stage + "_v" + Format(v);
    AsWrittenPlan(m, stage, v, skipConfig);
    var p := PlanPromotion(f, skipConfig).value;
    var q := "_" + p.next + "_v" + p.newVersion;
    assert f == m + (pat + ".yaml") by { Assoc(m, pat, ".yaml"); }
    SubWildTwice(m, pat, q);
    TagsSplit(m, p.next, p.newVersion);
    assert PromotedName(f, p) == m + Tags(p.next, p.newVersion) + [];
  }

  /** The plan for `m` followed by its tags reads the stage, the version, the base `m` and no rest. */
  lemma AsWrittenPlan(m: string, stage: string, v: Version, skipConfig: bool)
    requires stage in Stages
    requires |m| == |"_" + stage + "_v" + Format(v)|
    ensures var f := m + Tags(stage, Format(v));
      && PlanPromotion(f, skipConfig).Ok? && PlanPromotion(f, skipConfig).value.stage == stage
      && PlanPromotion(f, skipConfig).value.version == Format(v)
      && ParseTail(Subject(f)).Some? && Base(f, stage) == m && Rest(f) == []
  {
    var f := m + Tags(stage, Format(v));
    ParseFormat(v);
    assert f + [] == f;
    ExtractFromBuiltName(m, stage, Format(v), []);
    BaseOfBuiltName(m, stage, Format(v), []);
  }

  /** A match followed by the pattern itself and `.yaml`: both are rewritten. */
  lemma SubWildTwice(m: string, pat: string, q: string)
    requires |pat| > 5 && |m| == |pat| && WildAt(m, pat, 0)
    ensures SubWild(m + (pat + ".yaml"), pat, q) == q + q + ".yaml"
  {
    assert WildAt(pat, pat, 0);
    SubWildHead(m, pat + ".yaml", pat, q);
    SubWildHead(pat, ".yaml", pat, q);
    assert SubWild(".yaml", pat, q) == ".yaml";
    Assoc(q, q, ".yaml");
  }

  lemma TagsSplit(m: string, stage: string, version: string)
    ensures m + Tags(stage, version) == m + ("_" + stage + "_v" + version) + ".yaml"
  {
    Assoc(m, "_" + stage + "_v" + version, ".yaml");
  }

  /** `_raw_v1x2x3` matches the tag pattern of version 1.2.3 once the dots are wildcards. */
  lemma SampleMatches()
    ensures |"_raw_v1x2x3"| == |"_" + "raw" + "_v" + Format(Version(1, 2, 3))|
    ensures WildAt("_raw_v1x2x3", "_" + "raw" + "_v" + Format(Version(1, 2, 3)), 0)
    ensures |Format(Version(1, 2, 3))| == |Format(Version(1, 2, 4))| == 5
  {
    assert Format(Version(1, 2, 3)) == "1.2.3";
    assert Format(Version(1, 2, 4)) == "1.2.4";
  }

  /**
   * The rewrite of `_raw_v1x2x3_raw_v1.2.3.yaml` on promotion to templ: the source produces
   * `_templ_v1.2.4_templ_v1.2.4.yaml`, where `_raw_v1x2x3_templ_v1.2.4.yaml` was meant.
   */
  lemma SampleRewrite()
    ensures var f := "_raw_v1x2x3" + Tags("raw", Format(Version(1, 2, 3)));
      && PlanPromotion(f, true) == Ok(Promotion("raw", Format(Version(1, 2, 3)), "templ", Format(Version(1, 2, 4))))
      && PromotedNameAsWritten(f, PlanPromotion(f, true).value) != PromotedName(f, PlanPromotion(f, true).value)
  {
    var v := Version(1, 2, 3);
    var m := "_raw_v1x2x3";
    SampleMatches();
    AsWrittenRewritesBase(m, "raw", v, true);
    var f := m + Tags("raw", Format(v));
    ExtractFromBuiltName(m, "raw", Format(v), []) by { ParseFormat(v); }
    assert f + [] == f;
    PromotionVersions(f, true);
    ParseFormat(v);
    Ladders();
    var p := PlanPromotion(f, true).value;
    assert p.next == "templ";
    assert p.newVersion == Format(Version(1, 2, 4));
    var q := "_" + p.next + "_v" + p.newVersion;
    assert |q + q + ".yaml"| != |m + q + ".yaml"|;
  }
}
