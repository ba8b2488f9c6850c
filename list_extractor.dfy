/**
 * utils/list_extractor.py: `extract_list_anywhere` looks for a list in an arbitrarily nested value.
 * A list is its own answer; a dict is searched first under the candidate keys, in the order given,
 * then value by value; anything else has no list.
 */
module ListExtractor {
  import opened Wrappers
  import opened JsonValues

  /** The first list found in `obj`, or None. */
  function ExtractListAnywhere(obj: Json, keys: seq<string>): (r: Option<Json>)
    ensures r.Some? ==> r.value.JList?
    ensures obj.JList? ==> r == Some(obj)
    ensures !obj.JList? && !obj.JObject? ==> r == None
    decreases obj, 1, 0
  {
    match obj
    case JList(_) => Some(obj)
    case JObject(entries) =>
      (match CandidateList(entries, keys)
       case Some(l) => Some(l)
       case None => SearchValues(obj, keys, 0))
    case _ => None
  }

  /** The list under the first candidate key that holds one (`k in obj and isinstance(obj[k], list)`). */
  function CandidateList(entries: seq<(string, Json)>, keys: seq<string>): (r: Option<Json>)
    ensures r.Some? ==> r.value.JList?
    decreases keys
  {
    if keys == [] then None
    else
      match Lookup(entries, keys[0])
      case Some(v) => if v.JList? then Some(v) else CandidateList(entries, keys[1..])
      case None => CandidateList(entries, keys[1..])
  }

  /** `for v in obj.values()`, from the `i`-th value on: the first value in which a list is found. */
  function SearchValues(obj: Json, keys: seq<string>, i: nat): (r: Option<Json>)
    requires obj.JObject?
    ensures r.Some? ==> r.value.JList?
    decreases obj, 0, |obj.entries| - i
  {
    if i >= |obj.entries| then None
    else
      assert obj.entries[i] in obj.entries;
      match ExtractListAnywhere(obj.entries[i].1, keys)
      case Some(l) => Some(l)
      case None => SearchValues(obj, keys, i + 1)
  }

  /** `v` is `obj` itself or sits, at any depth, under a value of a dict along the way. */
  predicate Within(v: Json, obj: Json)
    decreases obj, 1, 0
  {
    v == obj || (obj.JObject? && WithinValues(v, obj, 0))
  }

  /** `v` sits within one of the values of the dict `obj` from the `i`-th on. */
  predicate WithinValues(v: Json, obj: Json, i: nat)
    requires obj.JObject?
    decreases obj, 0, |obj.entries| - i
  {
    i < |obj.entries| && (assert obj.entries[i] in obj.entries; Within(v, obj.entries[i].1) || WithinValues(v, obj, i + 1))
  }

  /** A list can be reached from `obj` by descending through dict values only. */
  predicate HasList(obj: Json)
    decreases obj, 1, 0
  {
    obj.JList? || (obj.JObject? && AnyHasList(obj, 0))
  }

  /** A list can be reached from one of the values of the dict `obj` from the `i`-th on. */
  predicate AnyHasList(obj: Json, i: nat)
    requires obj.JObject?
    decreases obj, 0, |obj.entries| - i
  {
    i < |obj.entries| && (assert obj.entries[i] in obj.entries; HasList(obj.entries[i].1) || AnyHasList(obj, i + 1))
  }

  /** Whatever holds for the value at `j` holds for the values from any `i <= j` on. */
  lemma {:induction false} WithinFrom(v: Json, obj: Json, i: nat, j: nat)
    requires obj.JObject? && i <= j < |obj.entries|
    ensures Within(v, obj.entries[j].1) ==> WithinValues(v, obj, i)
    ensures HasList(obj.entries[j].1) ==> AnyHasList(obj, i)
    decreases j - i
  {
    if i < j {
      WithinFrom(v, obj, i + 1, j);
    }
  }

  /** A value found under a key is one of the dict's values. */
  lemma {:induction false} LookupAt(entries: seq<(string, Json)>, key: string) returns (j: nat)
    requires Lookup(entries, key).Some?
    ensures j < |entries| && entries[j].1 == Lookup(entries, key).value
    decreases entries
  {
    if entries[0].0 == key {
      j := 0;
    } else {
      var k := LookupAt(entries[1..], key);
      j := k + 1;
    }
  }

  /** What a candidate key yields is a list held by one of the dict's values. */
  lemma {:induction false} CandidateWithin(obj: Json, keys: seq<string>)
    requires obj.JObject? && CandidateList(obj.entries, keys).Some?
    ensures WithinValues(CandidateList(obj.entries, keys).value, obj, 0) && AnyHasList(obj, 0)
    decreases keys
  {
    match Lookup(obj.entries, keys[0])
    case Some(v) =>
      if v.JList? {
        var j := LookupAt(obj.entries, keys[0]);
        WithinFrom(v, obj, 0, j);
      } else {
        CandidateWithin(obj, keys[1..]);
      }
    case None =>
      CandidateWithin(obj, keys[1..]);
  }

  /**
   * Any list found occurs inside the input, and one is found exactly when a list can be reached
   * through dict values: no list, no result.
   */
  lemma {:induction false} FoundIffReachable(obj: Json, keys: seq<string>)
    ensures var r := ExtractListAnywhere(obj, keys);
      (r.Some? <==> HasList(obj)) && (r.Some? ==> Within(r.value, obj))
    decreases obj, 1, 0
  {
    if obj.JObject? {
      if CandidateList(obj.entries, keys).Some? {
        CandidateWithin(obj, keys);
      } else {
        ValuesFoundIffReachable(obj, keys, 0);
      }
    }
  }

  lemma {:induction false} ValuesFoundIffReachable(obj: Json, keys: seq<string>, i: nat)
    requires obj.JObject?
    ensures var r := SearchValues(obj, keys, i);
      (r.Some? <==> AnyHasList(obj, i)) && (r.Some? ==> WithinValues(r.value, obj, i))
    decreases obj, 0, |obj.entries| - i
  {
    if i < |obj.entries| {
      assert obj.entries[i] in obj.entries;
      FoundIffReachable(obj.entries[i].1, keys);
      ValuesFoundIffReachable(obj, keys, i + 1);
    }
  }

  /** No candidate before the `i`-th holds a list. */
  predicate NoListBefore(entries: seq<(string, Json)>, keys: seq<string>, i: int) {
    forall j :: 0 <= j < i && j < |keys| ==> Lookup(entries, keys[j]).None? || !Lookup(entries, keys[j]).value.JList?
  }

  /**
   * In a dict, the first candidate key (in the candidates' order) that holds a list decides the
   * result, whatever lists other keys or nested values hold.
   */
  lemma FirstCandidateWins(entries: seq<(string, Json)>, keys: seq<string>, i: nat)
    requires i < |keys| && Lookup(entries, keys[i]).Some? && Lookup(entries, keys[i]).value.JList?
    requires NoListBefore(entries, keys, i)
    ensures ExtractListAnywhere(JObject(entries), keys) == Lookup(entries, keys[i])
  {
    CandidateAt(entries, keys, i);
  }

  lemma {:induction false} CandidateAt(entries: seq<(string, Json)>, keys: seq<string>, i: nat)
    requires i < |keys| && Lookup(entries, keys[i]).Some? && Lookup(entries, keys[i]).value.JList?
    requires NoListBefore(entries, keys, i)
    ensures CandidateList(entries, keys) == Lookup(entries, keys[i])
    decreases i
  {
    if i > 0 {
      assert Lookup(entries, keys[0]).None? || !Lookup(entries, keys[0]).value.JList?;
      assert forall j :: 0 <= j < i - 1 ==> keys[1..][j] == keys[j + 1];
      CandidateAt(entries, keys[1..], i - 1);
    }
  }

  lemma {:induction false} NoCandidate(entries: seq<(string, Json)>, keys: seq<string>)
    requires NoListBefore(entries, keys, |keys|)
    ensures CandidateList(entries, keys).None?
    decreases keys
  {
    if keys != [] {
      assert Lookup(entries, keys[0]).None? || !Lookup(entries, keys[0]).value.JList?;
      assert forall j :: 0 <= j < |keys| - 1 ==> keys[1..][j] == keys[j + 1];
      NoCandidate(entries, keys[1..]);
    }
  }

  /**
   * With no candidate key holding a list, a dict's values are searched in order: the first value
   * in which a list is found gives the result.
   */
  lemma FirstValueWins(entries: seq<(string, Json)>, keys: seq<string>, i: nat)
    requires NoListBefore(entries, keys, |keys|)
    requires i < |entries| && ExtractListAnywhere(entries[i].1, keys).Some?
    requires forall j :: 0 <= j < i ==> ExtractListAnywhere(entries[j].1, keys).None?
    ensures ExtractListAnywhere(JObject(entries), keys) == ExtractListAnywhere(entries[i].1, keys)
  {
    NoCandidate(entries, keys);
    ValueAt(JObject(entries), keys, 0, i);
  }

  lemma {:induction false} ValueAt(obj: Json, keys: seq<string>, k: nat, i: nat)
    requires obj.JObject? && k <= i < |obj.entries| && ExtractListAnywhere(obj.entries[i].1, keys).Some?
    requires forall j :: k <= j < i ==> ExtractListAnywhere(obj.entries[j].1, keys).None?
    ensures SearchValues(obj, keys, k) == ExtractListAnywhere(obj.entries[i].1, keys)
    decreases i - k
  {
    if k < i {
      ValueAt(obj, keys, k + 1, i);
    }
  }
}
