/** The part of Python's `pathlib` the modelled code uses. */
module Paths {
  import opened Wrappers
  import opened Text

  /**
   * A path: whether it starts at a root (or drive), and its components after that.
   * Components are single names; a component holding a separator is not modelled.
   */
  datatype FilePath = FilePath(anchored: bool, parts: seq<string>)

  /** The files on disk, as far as the modelled code reads and writes them: path to text. */
  type Store = map<FilePath, string>

  /** `path.name`: the last component, or "" for a root or the current directory. */
  function Name(p: FilePath): string {
    if p.parts == [] then "" else p.parts[|p.parts| - 1]
  }

  /** `path.parent`: the path without its last component (a root is its own parent). */
  function Parent(p: FilePath): (r: FilePath)
    ensures r.anchored == p.anchored
    ensures p.parts != [] ==> r.parts + [Name(p)] == p.parts
  {
    if p.parts == [] then p else FilePath(p.anchored, p.parts[..|p.parts| - 1])
  }

  /** `path / name`. */
  function Join(p: FilePath, name: string): (r: FilePath)
    ensures Name(r) == name && Parent(r) == p
  {
    FilePath(p.anchored, p.parts + [name])
  }

  /** `path.parents[k]`: the k-th ancestor, or IndexError when there are not that many. */
  function ParentAt(p: FilePath, k: nat): (r: Result<FilePath>)
    ensures r.Ok? <==> k < |p.parts|
    ensures r.Ok? ==> r.value.anchored == p.anchored && r.value.parts + p.parts[|p.parts| - 1 - k..] == p.parts
  {
    if k < |p.parts| then Ok(FilePath(p.anchored, p.parts[..|p.parts| - 1 - k])) else Err(IndexError)
  }

  /** `path.stem` of a file name: the name without its last suffix (a leading dot is no suffix). */
  function Stem(name: string): (r: string)
    ensures StartsWith(name, r)
  {
    var i := RFindChar(name, '.');
    if 0 < i < |name| - 1 then name[..i] else name
  }

  /** The stem of `s + ".yaml"` is `s` for every non-empty `s`. */
  lemma StemOfYaml(s: string)
    requires s != []
    ensures Stem(s + ".yaml") == s
  {
    var name := s + ".yaml";
    assert name[|s|] == '.' && name[|s| + 1..] == "yaml";
    assert RFindChar(name, '.') == |s|;
    assert name[..|s|] == s;
  }
}
