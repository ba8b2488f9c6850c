/**
 * The `version:` line of a YAML prompt file, read and rewritten as plain text the way
 * `parse_version_from_yaml` and `replace_version_in_yaml` of the command-line runners do it
 * (no YAML parser is involved).
 */
module YamlVersion {
  import opened Wrappers
  import opened Text
  import SemanticVersioning

  /** A line whose trimmed text starts with `version:`. */
  predicate IsVersionLine(line: string) {
    StartsWith(Strip(line), "version:")
  }

  /** The stripped text is a slice of the original one. */
  lemma StripIsSlice(s: string) returns (a: nat)
    ensures a + |Strip(s)| <= |s| && Strip(s) == s[a..a + |Strip(s)|]
  {
    var t := TrimLeft(s, IsSpace);
    a := |s| - |t|;
    assert Strip(s) == t[..|Strip(s)|];
  }

  /** A version line holds a colon. */
  lemma ColonInVersionLine(line: string)
    requires IsVersionLine(line)
    ensures ':' in line
  {
    var a := StripIsSlice(line);
    assert Strip(line)[7] == ':';
    assert line[a + 7] == ':';
  }

  /** `line.split(":", 1)[1].strip()`: the trimmed text after the first colon. */
  function ValueAfterColon(line: string): string
    requires ':' in line
  {
    Strip(line[FindChar(line, ':') + 1..])
  }

  /** The index of the first line at or after `i` that `p` accepts, or the number of lines when there is none. */
  function FirstMatchFrom(p: string -> bool, lines: seq<string>, i: nat): (k: nat)
    requires i <= |lines|
    ensures i <= k <= |lines|
    ensures k < |lines| ==> p(lines[k])
    ensures forall j :: i <= j < k ==> !p(lines[j])
    decreases |lines| - i
  {
    if i == |lines| then i
    else if p(lines[i]) then i
    else FirstMatchFrom(p, lines, i + 1)
  }

  /** The index of the first version line, or the number of lines when there is none. */
  function FirstVersionLine(lines: seq<string>): (k: nat)
    ensures k <= |lines|
    ensures k < |lines| ==> IsVersionLine(lines[k])
    ensures forall j :: 0 <= j < k ==> !IsVersionLine(lines[j])
  {
    FirstMatchFrom(IsVersionLine, lines, 0)
  }

  /** The trimmed value of the first version line of `text`, if it has one. */
  function VersionField(text: string): (r: Option<string>)
    ensures r.None? <==> forall j :: 0 <= j < |SplitLines(text)| ==> !IsVersionLine(SplitLines(text)[j])
  {
    var lines := SplitLines(text);
    var k := FirstVersionLine(lines);
    if k == |lines| then None
    else
      ColonInVersionLine(lines[k]);
      Some(ValueAfterColon(lines[k]))
  }

  /**
   * `parse_version_from_yaml` of cli/run_prompt_lifecycle.py and cli/run_template_batch_latest.py:
   * the value of the first version line with surrounding quotes stripped, or "0.1.0".
   */
  function ParseVersionFromYaml(text: string): (r: string)
    ensures VersionField(text).None? ==> r == "0.1.0"
    ensures VersionField(text).Some? ==> r == StripQuotes(VersionField(text).value)
  {
    match VersionField(text)
    case None => "0.1.0"
    case Some(v) => StripQuotes(v)
  }

  /** `parse_version_from_yaml` of cli/run_template_batch_v1.py: the same value, quotes kept. */
  function ParseVersionFromYamlKeepQuotes(text: string): (r: string)
    ensures VersionField(text).None? ==> r == "0.1.0"
    ensures VersionField(text).Some? ==> r == VersionField(text).value
  {
    match VersionField(text)
    case None => "0.1.0"
    case Some(v) => v
  }

  /** The text `version: v` that the rewrite looks for and writes. */
  function VersionTag(v: string): (r: string)
    ensures r != [] && r[0] == 'v'
  {
    "version: " + v
  }

  /** `replace_version_in_yaml(text, old, new)`: every `version: old` becomes `version: new`. */
  function ReplaceVersionInYaml(text: string, prev: string, next: string): string {
    ReplaceAll(text, VersionTag(prev), VersionTag(next))
  }

  /** A text without `version: prev` is left as it is. */
  lemma ReplaceWithoutTag(text: string, prev: string, next: string)
    requires !Contains(text, VersionTag(prev))
    ensures ReplaceVersionInYaml(text, prev, next) == text
  {
    ReplaceAbsent(text, VersionTag(prev), VersionTag(next));
  }

  /** Rewriting a version to itself changes nothing. */
  lemma ReplaceSameVersion(text: string, v: string)
    ensures ReplaceVersionInYaml(text, v, v) == text
  {
    ReplaceSelf(text, VersionTag(v));
  }

  /** A YAML text whose first line declares version `v`. */
  function Header(v: string, rest: string): string {
    VersionTag(v) + "\n" + rest
  }

  /** Trimming leaves a string alone when its first character is not dropped. */
  lemma TrimLeftKeeps(s: string, drop: char -> bool)
    requires s != [] && !drop(s[0])
    ensures TrimLeft(s, drop) == s
  {
  }

  /** Trimming leaves a string alone when its last character is not dropped. */
  lemma TrimRightKeeps(s: string, drop: char -> bool)
    requires s != [] && !drop(s[|s| - 1])
    ensures TrimRight(s, drop) == s
  {
  }

  /** A version number in `N.N.N` form has no space, quote or line break. */
  lemma FormatPlain(v: SemanticVersioning.Version)
    ensures var t := SemanticVersioning.Format(v);
      t != [] && IsDigit(t[0]) && IsDigit(t[|t| - 1]) && forall i :: 0 <= i < |t| ==> IsDigit(t[i]) || t[i] == '.'
  {
  }

  /** `version: t` is a version line for any `t`. */
  lemma TagIsVersionLine(t: string)
    requires t != [] && !IsSpace(t[|t| - 1])
    ensures IsVersionLine(VersionTag(t))
  {
    var line := VersionTag(t);
    assert line[0] == 'v' && line[|line| - 1] == t[|t| - 1];
    TrimLeftKeeps(line, IsSpace);
    TrimRightKeeps(line, IsSpace);
    PrefixOfConcat("version:", " " + t);
    assert line == "version:" + " " + t;
  }

  /** The value of the line `version: t` is `t` when `t` has no surrounding whitespace. */
  lemma TagValue(t: string)
    requires ':' !in t
    requires t != [] && !IsSpace(t[0]) && !IsSpace(t[|t| - 1])
    ensures ':' in VersionTag(t) && ValueAfterColon(VersionTag(t)) == t
  {
    var line := VersionTag(t);
    assert line[7] == ':' && ':' !in line[..7];
    assert FindChar(line, ':') == 7;
    assert line[8..] == " " + t;
    assert TrimLeft(" " + t, IsSpace) == TrimLeft(t, IsSpace);
    TrimLeftKeeps(t, IsSpace);
    TrimRightKeeps(t, IsSpace);
  }

  /** A nonempty run of digits and dots, starting and ending with a digit. */
  predicate Plain(t: string) {
    t != [] && IsDigit(t[0]) && IsDigit(t[|t| - 1]) && forall i :: 0 <= i < |t| ==> IsDigit(t[i]) || t[i] == '.'
  }

  /** The line `version: t` reads back as `t` when `t` is plain. */
  lemma PlainLineValue(t: string)
    requires Plain(t)
    ensures IsVersionLine(VersionTag(t)) && ValueAfterColon(VersionTag(t)) == t
  {
    TagIsVersionLine(t);
    TagValue(t);
  }

  /** A plain value has no quotes to strip. */
  lemma PlainUnquoted(t: string)
    requires Plain(t)
    ensures StripQuotes(t) == t
  {
    TrimLeftKeeps(t, IsQuote);
    TrimRightKeeps(t, IsQuote);
  }

  /** The line `version: N.N.N` reads back as `N.N.N`, with or without quote stripping. */
  lemma VersionLineValue(v: SemanticVersioning.Version)
    ensures IsVersionLine(VersionTag(SemanticVersioning.Format(v)))
    ensures ValueAfterColon(VersionTag(SemanticVersioning.Format(v))) == SemanticVersioning.Format(v)
    ensures StripQuotes(SemanticVersioning.Format(v)) == SemanticVersioning.Format(v)
  {
    FormatPlain(v);
    PlainLineValue(SemanticVersioning.Format(v));
    PlainUnquoted(SemanticVersioning.Format(v));
  }

  /** The first line of `line + "\n" + rest` is `line` when `line` holds no line break. */
  lemma FirstLine(line: string, rest: string)
    requires forall i :: 0 <= i < |line| ==> !IsLineBreak(line[i])
    ensures SplitLines(line + "\n" + rest) != [] && SplitLines(line + "\n" + rest)[0] == line
  {
    var s := line + "\n" + rest;
    assert s[|line|] == '\n';
    assert forall j :: 0 <= j < |line| ==> s[j] == line[j];
    assert BreakIndex(s) == |line|;
    assert s[..|line|] == line;
  }

  /** A file headed `version: N.N.N` declares that version, whatever follows. */
  lemma {:induction false} ParseHeader(v: SemanticVersioning.Version, rest: string)
    ensures ParseVersionFromYaml(Header(SemanticVersioning.Format(v), rest)) == SemanticVersioning.Format(v)
    ensures ParseVersionFromYamlKeepQuotes(Header(SemanticVersioning.Format(v), rest)) == SemanticVersioning.Format(v)
  {
    var t := SemanticVersioning.Format(v);
    var line := VersionTag(t);
    FormatPlain(v);
    assert forall i :: 0 <= i < |line| ==> !IsLineBreak(line[i]) by {
      assert line == "version: " + t;
      forall i | 0 <= i < |line| ensures !IsLineBreak(line[i]) {
        if i >= 9 {
          assert line[i] == t[i - 9];
        }
      }
    }
    FirstLine(line, rest);
    VersionLineValue(v);
    var lines := SplitLines(Header(t, rest));
    assert FirstVersionLine(lines) == 0;
  }

  /**
   * Rewriting the declared version of a file headed `version: a` to `b` gives a file headed
   * `version: b` (the rest is rewritten on its own).
   */
  lemma ReplaceHeader(prev: string, next: string, rest: string)
    ensures ReplaceVersionInYaml(Header(prev, rest), prev, next)
      == Header(next, ReplaceVersionInYaml(rest, prev, next))
  {
    var p, q := VersionTag(prev), VersionTag(next);
    Assoc(p, "\n", rest);
    ReplaceAtStart(p, q, "\n" + rest);
    ReplaceSkipsPrefix("\n", rest, p, q);
    Assoc(q, "\n", ReplaceAll(rest, p, q));
  }

  /** An occurrence at the very start is replaced, and the scan goes on after it. */
  lemma ReplaceAtStart(p: string, q: string, x: string)
    requires p != []
    ensures ReplaceAll(p + x, p, q) == q + ReplaceAll(x, p, q)
  {
    assert (p + x)[..|p|] == p && (p + x)[|p|..] == x;
  }

  /** The rewrite the loops perform, read back: the file then declares the new version. */
  lemma RewrittenHeaderParses(v: SemanticVersioning.Version, w: SemanticVersioning.Version, rest: string)
    ensures ParseVersionFromYaml(ReplaceVersionInYaml(
      Header(SemanticVersioning.Format(v), rest), SemanticVersioning.Format(v), SemanticVersioning.Format(w)))
      == SemanticVersioning.Format(w)
  {
    var a, b := SemanticVersioning.Format(v), SemanticVersioning.Format(w);
    ReplaceHeader(a, b, rest);
    ParseHeader(w, ReplaceVersionInYaml(rest, a, b));
  }
}
