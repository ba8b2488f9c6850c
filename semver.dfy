/**
 * utils/semantic_versioning_utils.py: patch, minor and major bumps of a version string, following
 * items 6 to 8 of Semantic Versioning 2.0.0. The string is parsed the way `packaging.Version`
 * parses it, restricted to the three-number form `N.N.N`.
 */
module SemanticVersioning {
  import opened Wrappers
  import opened Text

  datatype Version = Version(major: nat, minor: nat, patch: nat)

  /** Three non-empty runs of ASCII digits separated by dots. */
  predicate IsVersionText(s: string) {
    var ps := SplitOn(s, '.');
    |ps| == 3 && ps[0] != [] && ps[1] != [] && ps[2] != []
    && AllDigits(ps[0]) && AllDigits(ps[1]) && AllDigits(ps[2])
  }

  /** `packaging.Version(s)` on the `N.N.N` form; None stands for InvalidVersion. */
  function ParseVersion(s: string): (r: Option<Version>)
    ensures r.Some? <==> IsVersionText(s)
  {
    if IsVersionText(s) then
      var ps := SplitOn(s, '.');
      Some(Version(DecimalValue(ps[0]), DecimalValue(ps[1]), DecimalValue(ps[2])))
    else None
  }

  /** `str(version)` and the f-string `f"{major}.{minor}.{micro}"`. */
  function Format(v: Version): string {
    NatToDecimal(v.major) + "." + NatToDecimal(v.minor) + "." + NatToDecimal(v.patch)
  }

  /** The text `a.b.c` of three digit runs is the dot-join of the runs. */
  lemma TripleText(a: string, b: string, c: string)
    requires AllDigits(a) && AllDigits(b) && AllDigits(c)
    ensures SplitOn(a + "." + b + "." + c, '.') == [a, b, c]
  {
    DigitsExclude(a, '.');
    DigitsExclude(b, '.');
    DigitsExclude(c, '.');
    assert [a, b, c][1..] == [b, c] && [b, c][1..] == [c];
    assert JoinWith([b, c], '.') == b + "." + c;
    assert a + "." + b + "." + c == JoinWith([a, b, c], '.');
    SplitJoinRoundTrip([a, b, c], '.');
  }

  /** Three non-empty digit runs joined by dots parse as the version of their decimal values. */
  lemma TripleParses(a: string, b: string, c: string)
    requires a != [] && b != [] && c != [] && AllDigits(a) && AllDigits(b) && AllDigits(c)
    ensures ParseVersion(a + "." + b + "." + c) == Some(Version(DecimalValue(a), DecimalValue(b), DecimalValue(c)))
  {
    var s := a + "." + b + "." + c;
    TripleText(a, b, c);
    var ps := SplitOn(s, '.');
    assert ps[0] == a && ps[1] == b && ps[2] == c;
    assert IsVersionText(s);
  }

  /** Formatting a version and parsing the text gives the version back. */
  lemma ParseFormat(v: Version)
    ensures ParseVersion(Format(v)) == Some(v)
  {
    var a, b, c := NatToDecimal(v.major), NatToDecimal(v.minor), NatToDecimal(v.patch);
    TripleText(a, b, c);
    DecimalRoundTrip(v.major);
    DecimalRoundTrip(v.minor);
    DecimalRoundTrip(v.patch);
  }

  /** Version precedence on `N.N.N` (item 11 of Semantic Versioning 2.0.0). */
  predicate Less(a: Version, b: Version) {
    || a.major < b.major
    || (a.major == b.major && a.minor < b.minor)
    || (a.major == b.major && a.minor == b.minor && a.patch < b.patch)
  }

  lemma LessTransitive(a: Version, b: Version, c: Version)
    requires Less(a, b) && Less(b, c)
    ensures Less(a, c)
  {
  }

  function BumpPatch(v: Version): Version { Version(v.major, v.minor, v.patch + 1) }

  function BumpMinor(v: Version): Version { Version(v.major, v.minor + 1, 0) }

  function BumpMajor(v: Version): Version { Version(v.major + 1, 0, 0) }

  /** Each bump follows its Semantic Versioning rule and yields a greater version. */
  lemma BumpRules(v: Version)
    ensures BumpPatch(v).major == v.major && BumpPatch(v).minor == v.minor && BumpPatch(v).patch == v.patch + 1
    ensures BumpMinor(v).major == v.major && BumpMinor(v).minor == v.minor + 1 && BumpMinor(v).patch == 0
    ensures BumpMajor(v) == Version(v.major + 1, 0, 0)
    ensures Less(v, BumpPatch(v)) && Less(v, BumpMinor(v)) && Less(v, BumpMajor(v))
  {
  }

  function InvalidVersion(s: string): Error {
    ValueError("Invalid version: '" + s + "'")
  }

  /** `bump_patch(version_str)`. */
  function BumpPatchText(s: string): (r: Result<string>)
    ensures r.Ok? <==> ParseVersion(s).Some?
    ensures r.Err? ==> r == Err(InvalidVersion(s))
    ensures r.Ok? ==> ParseVersion(r.value) == Some(BumpPatch(ParseVersion(s).value))
  {
    match ParseVersion(s)
    case None => Err(InvalidVersion(s))
    case Some(v) => ParseFormat(BumpPatch(v)); Ok(Format(BumpPatch(v)))
  }

  /** `bump_minor(version_str)`. */
  function BumpMinorText(s: string): (r: Result<string>)
    ensures r.Ok? <==> ParseVersion(s).Some?
    ensures r.Err? ==> r == Err(InvalidVersion(s))
    ensures r.Ok? ==> ParseVersion(r.value) == Some(BumpMinor(ParseVersion(s).value))
  {
    match ParseVersion(s)
    case None => Err(InvalidVersion(s))
    case Some(v) => ParseFormat(BumpMinor(v)); Ok(Format(BumpMinor(v)))
  }

  /** `bump_major(version_str)`. */
  function BumpMajorText(s: string): (r: Result<string>)
    ensures r.Ok? <==> ParseVersion(s).Some?
    ensures r.Err? ==> r == Err(InvalidVersion(s))
    ensures r.Ok? ==> ParseVersion(r.value) == Some(BumpMajor(ParseVersion(s).value))
  {
    match ParseVersion(s)
    case None => Err(InvalidVersion(s))
    case Some(v) => ParseFormat(BumpMajor(v)); Ok(Format(BumpMajor(v)))
  }

  /** `bump(version_str, mode)`; the source's default mode is "patch". */
  function Bump(s: string, mode: string): (r: Result<string>)
    ensures mode !in {"patch", "minor", "major"} ==> r == Err(ValueError("Unknown bump mode: " + mode))
    ensures mode in {"patch", "minor", "major"} ==> (r.Ok? <==> ParseVersion(s).Some?)
    ensures r.Ok? ==> ParseVersion(r.value).Some? && Less(ParseVersion(s).value, ParseVersion(r.value).value)
    ensures mode == "patch" && r.Ok? ==> ParseVersion(r.value) == Some(BumpPatch(ParseVersion(s).value))
    ensures mode == "minor" && r.Ok? ==> ParseVersion(r.value) == Some(BumpMinor(ParseVersion(s).value))
    ensures mode == "major" && r.Ok? ==> ParseVersion(r.value) == Some(BumpMajor(ParseVersion(s).value))
  {
    if mode == "patch" then BumpPatchText(s)
    else if mode == "minor" then BumpMinorText(s)
    else if mode == "major" then BumpMajorText(s)
    else Err(ValueError("Unknown bump mode: " + mode))
  }
}
