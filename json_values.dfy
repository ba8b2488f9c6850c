/** The decoded JSON/YAML values the modelled code inspects (Python lists, dicts and scalars). */
module JsonValues {
  import opened Wrappers

  /**
   * A JSON value. A Python dict is an ordered sequence of entries; a dict built by Python never
   * holds a key twice, so the first entry for a key is its entry.
   */
  datatype Json =
    | JNull
    | JBool(b: bool)
    | JNum(n: real)
    | JStr(s: string)
    | JList(items: seq<Json>)
    | JObject(entries: seq<(string, Json)>)

  /** `key in d` followed by `d[key]`, for a dict given as its entries. */
  function Lookup(entries: seq<(string, Json)>, key: string): (r: Option<Json>)
    ensures r.None? <==> forall i :: 0 <= i < |entries| ==> entries[i].0 != key
    ensures r.Some? ==> exists i :: 0 <= i < |entries| && entries[i] == (key, r.value)
    decreases |entries|
  {
    if entries == [] then None
    else if entries[0].0 == key then Some(entries[0].1)
    else
      var r := Lookup(entries[1..], key);
      assert forall i :: 1 <= i < |entries| ==> entries[i] == entries[1..][i - 1];
      r
  }

  /** A list all of whose items are strings. */
  predicate IsStringList(j: Json) {
    j.JList? && forall i :: 0 <= i < |j.items| ==> j.items[i].JStr?
  }

  /** Python's `type(v).__name__` for a decoded value. */
  function TypeName(j: Json): string {
    match j
    case JNull => "NoneType"
    case JBool(_) => "bool"
    case JNum(_) => "float"
    case JStr(_) => "str"
    case JList(_) => "list"
    case JObject(_) => "dict"
  }

  /** Python `v[key]` with a string key: a dict lookup, which raises on a missing key or a non-dict. */
  function Subscript(j: Json, key: string): (r: Result<Json>)
    ensures r.Ok? <==> j.JObject? && Lookup(j.entries, key).Some?
    ensures r.Ok? ==> r.value == Lookup(j.entries, key).value
    ensures j.JObject? && r.Err? ==> r.error == KeyError(key)
    ensures !j.JObject? ==> r.error.TypeError?
  {
    match j
    case JObject(entries) =>
      (match Lookup(entries, key)
       case Some(v) => Ok(v)
       case None => Err(KeyError(key)))
    case JList(_) => Err(TypeError("list indices must be integers or slices, not str"))
    case JStr(_) => Err(TypeError("string indices must be integers"))
    case _ => Err(TypeError("'" + TypeName(j) + "' object is not subscriptable"))
  }

  /** Python truthiness (`if v:`): false for None, False, zero and empty strings, lists and dicts. */
  predicate Truthy(j: Json) {
    match j
    case JNull => false
    case JBool(b) => b
    case JNum(n) => n != 0.0
    case JStr(s) => s != []
    case JList(items) => items != []
    case JObject(entries) => entries != []
  }
}
