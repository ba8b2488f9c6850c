/**
 * utils/prompt_versioning.py: the `_v<major>.<minor>.<patch>` tag anywhere in a prompt file name,
 * the base name without tags and `.yaml`, and the path of the next patch version of a prompt.
 */
module PromptVersioning {
  import opened Wrappers
  import opened Text
  import opened Paths
  import opened SemanticVersioning
  import StageVersioning

  /** Length of the run of ASCII digits at the start of `s`. */
  function LeadingDigits(s: string): (n: nat)
    ensures n <= |s| && AllDigits(s[..n])
    ensures n < |s| ==> !IsDigit(s[n])
    decreases |s|
  {
    if s == [] || !IsDigit(s[0]) then 0
    else
      var n := LeadingDigits(s[1..]);
      assert s[..n + 1] == [s[0]] + s[1..][..n];
      n + 1
  }

  lemma {:induction false} LeadingDigitsOf(d: string, t: string)
    requires AllDigits(d) && (t == [] || !IsDigit(t[0]))
    ensures LeadingDigits(d + t) == |d|
    decreases |d|
  {
    if d == [] {
      assert d + t == t;
    } else {
      LeadingDigitsOf(d[1..], t);
      assert (d + t)[1..] == d[1..] + t;
    }
  }

  lemma {:induction false} LeadingDigitsAppend(y: string, t: string)
    requires t != [] && !IsDigit(t[0])
    ensures LeadingDigits(y + t) == LeadingDigits(y)
    decreases |y|
  {
    if y == [] {
      assert y + t == t;
    } else {
      LeadingDigitsAppend(y[1..], t);
      assert (y + t)[1..] == y[1..] + t;
    }
  }

  /** A non-empty run of digits followed by a dot at the start of `u`: the run and what follows the dot. */
  function RunThenDot(u: string): (r: Option<(string, string)>)
    ensures r.Some? ==> r.value.0 != [] && AllDigits(r.value.0) && u == r.value.0 + "." + r.value.1
  {
    var a := LeadingDigits(u);
    if 0 < a < |u| && u[a] == '.' then
      assert u == u[..a] + "." + u[a + 1..];
      Some((u[..a], u[a + 1..]))
    else None
  }

  lemma RunThenDotOf(d: string, w: string)
    requires d != [] && AllDigits(d)
    ensures RunThenDot(d + "." + w) == Some((d, w))
  {
    var u := d + "." + w;
    assert u == d + ("." + w);
    LeadingDigitsOf(d, "." + w);
    assert u[|d|] == '.' && u[..|d|] == d && u[|d| + 1..] == w;
  }

  /** Appending text that starts with `_` never completes or extends a run followed by a dot. */
  lemma RunThenDotAppend(u: string, t: string)
    requires t != [] && t[0] == '_'
    ensures RunThenDot(u + t) == match RunThenDot(u) case None => None case Some((d, w)) => Some((d, w + t))
  {
    LeadingDigitsAppend(u, t);
    var a := LeadingDigits(u);
    if a < |u| {
      assert (u + t)[a] == u[a];
      assert (u + t)[..a] == u[..a] && (u + t)[a + 1..] == u[a + 1..] + t;
    } else {
      assert (u + t)[a] == '_';
    }
  }

  /** The three digit runs of a version tag `_v<major>.<minor>.<patch>`. */
  datatype Tag = Tag(major: string, minor: string, patch: string)

  predicate TagRuns(g: Tag) {
    g.major != [] && g.minor != [] && g.patch != []
    && AllDigits(g.major) && AllDigits(g.minor) && AllDigits(g.patch)
  }

  /** The text `_v<a>.<b>.<c>` of a version tag. */
  function TagText(g: Tag): string {
    "_v" + g.major + "." + g.minor + "." + g.patch
  }

  function TagLength(g: Tag): nat {
    |g.major| + |g.minor| + |g.patch| + 4
  }

  /** `\d+\.\d+\.\d+` (greedy digit runs) matched at the start of `u`. */
  function TagBody(u: string): (r: Option<Tag>)
    ensures r.Some? ==> TagRuns(r.value) && TagLength(r.value) <= |u| + 2
  {
    match RunThenDot(u)
    case None => None
    case Some((a, w)) =>
      match RunThenDot(w)
      case None => None
      case Some((b, z)) =>
        var n := LeadingDigits(z);
        if n == 0 then None else Some(Tag(a, b, z[..n]))
  }

  /** The version tag `_v\d+\.\d+\.\d+` matched at the start of `s`. */
  function TagAt(s: string): (r: Option<Tag>)
    ensures r.Some? ==> TagRuns(r.value) && TagLength(r.value) <= |s|
  {
    if |s| < 2 || s[0] != '_' || s[1] != 'v' then None else TagBody(s[2..])
  }

  lemma RegroupVersion(g: Tag, rest: string)
    ensures g.major + "." + (g.minor + "." + (g.patch + rest)) == TagVersion(g) + rest
  {
    Assoc(g.minor, ".", g.patch + rest);
    Assoc(g.minor + ".", g.patch, rest);
    Assoc(g.major, ".", g.minor + "." + g.patch + rest);
    Assoc(g.major + ".", g.minor + "." + g.patch, rest);
  }

  /** A match after `_v` is the tag's own version text. */
  lemma TagBodyShape(u: string)
    requires TagBody(u).Some?
    ensures var g := TagBody(u).value; |TagVersion(g)| <= |u| && u[..|TagVersion(g)|] == TagVersion(g)
  {
    var aw := RunThenDot(u).value;
    var bz := RunThenDot(aw.1).value;
    var z := bz.1;
    var c := z[..LeadingDigits(z)];
    var g := Tag(aw.0, bz.0, c);
    assert TagBody(u).value == g;
    assert z == c + z[|c|..];
    assert u == g.major + "." + (g.minor + "." + (c + z[|c|..]));
    RegroupVersion(g, z[|c|..]);
    PrefixOfConcat(TagVersion(g), z[|c|..]);
  }

  /** A match is the tag's own text at the start of `s`. */
  lemma TagAtShape(s: string)
    requires TagAt(s).Some?
    ensures var g := TagAt(s).value; |TagText(g)| <= |s| && s[..|TagText(g)|] == TagText(g)
  {
    var g := TagAt(s).value;
    assert s[..2] == "_v" && TagBody(s[2..]) == Some(g);
    TagBodyShape(s[2..]);
    TagTextVersion(g);
    PrefixThenPrefix(s, "_v", TagVersion(g));
  }

  lemma TagTextVersion(g: Tag)
    ensures TagText(g) == "_v" + TagVersion(g)
  {
    Assoc("_v", g.major, ".");
    Assoc("_v", g.major + ".", g.minor);
    Assoc("_v", g.major + "." + g.minor, ".");
    Assoc("_v", g.major + "." + g.minor + ".", g.patch);
  }

  lemma TagBodyOf(g: Tag, t: string)
    requires TagRuns(g) && (t == [] || !IsDigit(t[0]))
    ensures TagBody(g.major + "." + (g.minor + "." + (g.patch + t))) == Some(g)
  {
    RunThenDotOf(g.major, g.minor + "." + (g.patch + t));
    RunThenDotOf(g.minor, g.patch + t);
    LeadingDigitsOf(g.patch, t);
    assert (g.patch + t)[..|g.patch|] == g.patch;
  }

  /** A tag followed by a non-digit (or nothing) is matched with its own runs. */
  lemma TagAtOf(g: Tag, t: string)
    requires TagRuns(g) && (t == [] || !IsDigit(t[0]))
    ensures TagAt(TagText(g) + t) == Some(g)
  {
    var s := TagText(g) + t;
    var u := g.major + "." + (g.minor + "." + (g.patch + t));
    assert s == "_v" + u;
    assert s[2..] == u;
    TagBodyOf(g, t);
  }

  lemma TagBodyAppend(u: string, t: string)
    requires t != [] && t[0] == '_'
    ensures TagBody(u + t) == TagBody(u)
  {
    RunThenDotAppend(u, t);
    match RunThenDot(u)
    case None =>
    case Some((a, w)) =>
      RunThenDotAppend(w, t);
      match RunThenDot(w)
      case None =>
      case Some((b, z)) =>
        LeadingDigitsAppend(z, t);
        var n := LeadingDigits(z);
        assert (z + t)[..n] == z[..n];
  }

  /** Text starting with `_` does not change which tag, if any, starts a non-empty text. */
  lemma TagAtAppend(x: string, t: string)
    requires x != [] && t != [] && t[0] == '_'
    ensures TagAt(x + t) == TagAt(x)
  {
    var s := x + t;
    if |x| < 2 {
      assert s[1] == '_';
    } else {
      assert s[0] == x[0] && s[1] == x[1];
      assert s[2..] == x[2..] + t;
      TagBodyAppend(x[2..], t);
    }
  }

  /** How far the scan of `re.sub` moves from the start of `s`: past a tag, or one character. */
  function Skip(s: string): (n: nat)
    requires s != []
    ensures 1 <= n <= |s|
  {
    match TagAt(s)
    case Some(g) => TagLength(g)
    case None => 1
  }

  /** What the scan keeps from the start of `s`: nothing of a tag, else the first character. */
  function Keep(s: string): string
    requires s != []
  {
    if TagAt(s).Some? then [] else [s[0]]
  }

  /** `re.sub(r"_v\d+\.\d+\.\d+", "", s)`: every tag a left-to-right scan meets is removed. */
  function RemoveTags(s: string): (r: string)
    ensures |r| <= |s|
    decreases |s|
  {
    if s == [] then [] else Keep(s) + RemoveTags(s[Skip(s)..])
  }

  /** No tag starts anywhere in `s`. */
  predicate NoTags(s: string) {
    forall j :: 0 <= j < |s| ==> !TagStarts(s, j)
  }

  /** A text without tags is left unchanged. */
  lemma {:induction false} RemoveTagsAbsent(s: string)
    requires NoTags(s)
    ensures RemoveTags(s) == s
    decreases |s|
  {
    if s != [] {
      assert !TagStarts(s, 0) && s[0..] == s;
      forall j | 0 <= j < |s[1..]| ensures !TagStarts(s[1..], j) {
        assert s[1..][j..] == s[j + 1..];
        assert !TagStarts(s, j + 1);
      }
      RemoveTagsAbsent(s[1..]);
      assert s == [s[0]] + s[1..];
    }
  }

  /** The scan never carries a tag across a boundary before `_`: the two parts are cleaned separately. */
  lemma {:induction false} RemoveTagsAppend(x: string, t: string)
    requires t != [] && t[0] == '_'
    ensures RemoveTags(x + t) == RemoveTags(x) + RemoveTags(t)
    decreases |x|
  {
    if x == [] {
      assert x + t == t;
    } else {
      var s := x + t;
      var n := Skip(x);
      assert Skip(s) == n && Keep(s) == Keep(x) by {
        TagAtAppend(x, t);
        assert s[0] == x[0];
      }
      assert s[n..] == x[n..] + t;
      assert RemoveTags(s[n..]) == RemoveTags(x[n..]) + RemoveTags(t) by {
        RemoveTagsAppend(x[n..], t);
      }
      Assoc(Keep(x), RemoveTags(x[n..]), RemoveTags(t));
    }
  }

  /** A tag starts at index `j` of `s`. */
  predicate TagStarts(s: string, j: int) {
    0 <= j <= |s| && TagAt(s[j..]).Some?
  }

  /** Index of the first tag at or after `i`, or -1: where `re.search` finds its match. */
  function FirstTag(s: string, i: nat): (r: int)
    requires i <= |s|
    ensures r == -1 ==> forall j :: i <= j < |s| ==> !TagStarts(s, j)
    ensures r != -1 ==> i <= r < |s| && TagStarts(s, r)
    ensures r != -1 ==> forall j :: i <= j < r ==> !TagStarts(s, j)
    decreases |s| - i
  {
    if i == |s| then -1
    else if TagStarts(s, i) then i
    else FirstTag(s, i + 1)
  }

  /** The first tag at or after `i` is the one at `k` when none starts between. */
  lemma {:induction false} FirstTagAt(s: string, i: nat, k: nat)
    requires i <= k < |s| && TagStarts(s, k)
    requires forall j :: i <= j < k ==> !TagStarts(s, j)
    ensures FirstTag(s, i) == k
    decreases k - i
  {
    if i < k {
      FirstTagAt(s, i + 1, k);
    }
  }

  /** The version `<major>.<minor>.<patch>` a tag carries. */
  function TagVersion(g: Tag): string {
    g.major + "." + g.minor + "." + g.patch
  }

  /** What `extract_version` answers for a name without a tag. */
  const NoVersion: string := "0.0.0"

  lemma NoVersionParses()
    ensures ParseVersion(NoVersion) == Some(Version(0, 0, 0))
  {
    assert NatToDecimal(0) == "0";
    assert Format(Version(0, 0, 0)) == NoVersion;
    ParseFormat(Version(0, 0, 0));
  }

  /** `extract_version(filename)`: the version of the first tag, or "0.0.0" when there is none. */
  function ExtractVersion(f: string): (r: string)
    ensures FirstTag(f, 0) == -1 ==> r == NoVersion
    ensures FirstTag(f, 0) != -1 ==> r == TagVersion(TagAt(f[FirstTag(f, 0)..]).value)
    ensures ParseVersion(r).Some?
  {
    var k := FirstTag(f, 0);
    if k == -1 then
      NoVersionParses();
      NoVersion
    else
      var g := TagAt(f[k..]).value;
      TripleParses(g.major, g.minor, g.patch);
      TagVersion(g)
  }

  /** `re.sub(r"\.yaml$", "", s)`; `$` also matches before a final newline. */
  function DropYaml(s: string): (r: string)
    ensures EndsWith(s, ".yaml") ==> s == r + ".yaml"
    ensures !EndsWith(s, ".yaml") && EndsWith(s, ".yaml\n") ==> EndsWith(r, "\n") && s == r[..|r| - 1] + ".yaml\n"
    ensures !EndsWith(s, ".yaml") && !EndsWith(s, ".yaml\n") ==> r == s
  {
    if EndsWith(s, ".yaml") then s[..|s| - 5]
    else if EndsWith(s, ".yaml\n") then s[..|s| - 6] + "\n"
    else s
  }

  /** `clean_base_name(filename)`. */
  function CleanBaseName(f: string): string {
    DropYaml(RemoveTags(f))
  }

  /** A name with neither tags nor `.yaml` ending is its own base. */
  lemma CleanPlainName(f: string)
    requires NoTags(f) && !EndsWith(f, ".yaml") && !EndsWith(f, ".yaml\n")
    ensures CleanBaseName(f) == f
  {
    RemoveTagsAbsent(f);
  }

  /** The tag of a version. */
  function TagOf(v: Version): Tag {
    Tag(NatToDecimal(v.major), NatToDecimal(v.minor), NatToDecimal(v.patch))
  }

  /** The name `bump_version` writes: the base, the tag of the new version, and `.yaml`. */
  function VersionedName(base: string, v: Version): string {
    base + "_v" + Format(v) + ".yaml"
  }

  lemma VersionedNameParts(base: string, v: Version)
    ensures VersionedName(base, v) == base + (TagText(TagOf(v)) + ".yaml")
    ensures TagAt(TagText(TagOf(v)) + ".yaml") == Some(TagOf(v))
    ensures TagRuns(TagOf(v)) && TagVersion(TagOf(v)) == Format(v)
  {
    var g := TagOf(v);
    assert "_v" + Format(v) == TagText(g);
    Assoc(base, "_v", Format(v));
    Assoc(base, "_v" + Format(v), ".yaml");
    TagAtOf(g, ".yaml");
  }

  /** Cleaning a versioned name gives back its base, cleaned. */
  lemma CleanVersionedName(base: string, v: Version)
    ensures CleanBaseName(VersionedName(base, v)) == RemoveTags(base)
  {
    var g := TagOf(v);
    VersionedNameParts(base, v);
    RemoveTagsAppend(base, TagText(g) + ".yaml");
    RemoveTagThenYaml(g);
    DropYamlOf(RemoveTags(base));
  }

  /** A tag followed by `.yaml` is cleaned down to `.yaml`. */
  lemma RemoveTagThenYaml(g: Tag)
    requires TagAt(TagText(g) + ".yaml") == Some(g)
    ensures RemoveTags(TagText(g) + ".yaml") == ".yaml"
  {
    var t := TagText(g) + ".yaml";
    assert |TagText(g)| == TagLength(g);
    assert t[TagLength(g)..] == ".yaml";
    assert NoTags(".yaml");
    RemoveTagsAbsent(".yaml");
  }

  /** The `.yaml` ending is dropped from a name that has it. */
  lemma DropYamlOf(r: string)
    ensures DropYaml(r + ".yaml") == r
  {
    assert EndsWith(r + ".yaml", ".yaml");
  }

  /** The version of a versioned name whose base has no tag is the version it was built with. */
  lemma ExtractVersionedName(base: string, v: Version)
    requires NoTags(base)
    ensures ExtractVersion(VersionedName(base, v)) == Format(v)
  {
    var g := TagOf(v);
    VersionedNameParts(base, v);
    var t := TagText(g) + ".yaml";
    var s := base + t;
    forall j | 0 <= j < |base| ensures !TagStarts(s, j) {
      DropConcat(base, t, j);
      assert !TagStarts(base, j);
      TagAtAppend(base[j..], t);
    }
    assert s[|base|..] == t;
    FirstTagAt(s, 0, |base|);
  }

  /** The new path of `bump_version(original_path, target_layer)`; an empty layer counts as none. */
  function BumpVersion(path: FilePath, targetLayer: string): (r: Result<FilePath>)
    ensures targetLayer != [] && ParentAt(path, 1).Err? ==> r == Err(IndexError)
    ensures targetLayer == [] || ParentAt(path, 1).Ok? ==> r.Ok?
    ensures r.Ok? ==> Name(r.value) == VersionedName(CleanBaseName(Name(path)), NextPatch(Name(path)))
    ensures r.Ok? ==> Parent(r.value) == if targetLayer != [] then Join(ParentAt(path, 1).value, targetLayer) else Parent(path)
  {
    var newName := VersionedName(CleanBaseName(Name(path)), NextPatch(Name(path)));
    if targetLayer != [] then
      var up :- ParentAt(path, 1);
      Ok(Join(Join(up, targetLayer), newName))
    else Ok(Join(Parent(path), newName))
  }

  /** The version `bump_version` gives a file name: its own, patch number plus one. */
  function NextPatch(name: string): Version {
    BumpPatch(ParseVersion(ExtractVersion(name)).value)
  }

  /** Only the patch number moves; a name without a tag starts from 0.0.0 and becomes 0.0.1. */
  lemma NextPatchNumbers(name: string)
    ensures var prev := ParseVersion(ExtractVersion(name)).value;
      && NextPatch(name).major == prev.major && NextPatch(name).minor == prev.minor
      && NextPatch(name).patch == prev.patch + 1 && Less(prev, NextPatch(name))
    ensures FirstTag(name, 0) == -1 ==> NextPatch(name) == Version(0, 0, 1)
  {
    if FirstTag(name, 0) == -1 {
      NoVersionParses();
    }
  }

  /**
   * The new name carries the new version: the `$`-anchored extractor of utils/promt_versioning.py
   * reads it back whatever the base, and this module's extractor does when the base has no tag.
   */
  lemma BumpVersionRoundTrip(path: FilePath, targetLayer: string)
    requires BumpVersion(path, targetLayer).Ok?
    ensures var name := Name(BumpVersion(path, targetLayer).value);
      && StageVersioning.ExtractVersion(name) == Ok(Format(NextPatch(Name(path))))
      && CleanBaseName(name) == RemoveTags(CleanBaseName(Name(path)))
      && (NoTags(CleanBaseName(Name(path))) ==> ExtractVersion(name) == Format(NextPatch(Name(path))))
  {
    var newer := NextPatch(Name(path));
    var base := CleanBaseName(Name(path));
    var name := VersionedName(base, newer);
    VersionedNameShape(base, newer);
    CleanVersionedName(base, newer);
    if NoTags(base) {
      ExtractVersionedName(base, newer);
    }
  }

  /** The `$`-anchored extractor reads the version back from every versioned name. */
  lemma VersionedNameShape(base: string, v: Version)
    ensures StageVersioning.ExtractVersion(VersionedName(base, v)) == Ok(Format(v))
  {
    var t := StageVersioning.Tail(base, NatToDecimal(v.major), NatToDecimal(v.minor), NatToDecimal(v.patch));
    var name := VersionedName(base, v);
    assert StageVersioning.TailText(t) == name;
    assert name[|name| - 1] == 'l';
    assert StageVersioning.Subject(name) == name;
    StageVersioning.ParseTailOf(t);
  }
}
