/**
 * Field validation of Pydantic models, as far as the modelled records use it: each declared field
 * is looked up among the keyword arguments, checked against its type, and replaced by its default
 * when absent. Keys that the model does not declare are ignored (Pydantic's default).
 */
module PydanticFields {
  import opened Wrappers
  import opened JsonValues

  /** The keyword arguments given to a model's constructor. */
  type Fields = map<string, Json>

  /** The argument `k` is given, as a string. */
  predicate HasStr(f: Fields, k: string) { k in f && f[k].JStr? }

  /** A required `str` field. */
  function Str(f: Fields, k: string): (r: Result<string>)
    ensures r.Ok? <==> HasStr(f, k)
    ensures r.Ok? ==> f[k] == JStr(r.value)
    ensures r.Err? ==> r.error == ValidationError(k)
  {
    if k in f && f[k].JStr? then Ok(f[k].s) else Err(ValidationError(k))
  }

  /** A `str` field with a default. */
  function StrOr(f: Fields, k: string, default: string): (r: Result<string>)
    ensures r.Ok? <==> k !in f || f[k].JStr?
    ensures r.Ok? ==> r.value == if k in f then f[k].s else default
    ensures r.Err? ==> r.error == ValidationError(k)
  {
    if k !in f then Ok(default) else Str(f, k)
  }

  /** An `Optional[str]` field whose default is None. */
  function OptStr(f: Fields, k: string): (r: Result<Option<string>>)
    ensures r.Ok? <==> k !in f || f[k].JNull? || f[k].JStr?
    ensures r.Ok? ==> r.value == if k in f && f[k].JStr? then Some(f[k].s) else None
    ensures r.Err? ==> r.error == ValidationError(k)
  {
    if k !in f || f[k].JNull? then Ok(None) else if f[k].JStr? then Ok(Some(f[k].s)) else Err(ValidationError(k))
  }

  /** A required `float` field (an int is accepted as well). */
  function Num(f: Fields, k: string): (r: Result<real>)
    ensures r.Ok? <==> k in f && f[k].JNum?
    ensures r.Ok? ==> f[k] == JNum(r.value)
    ensures r.Err? ==> r.error == ValidationError(k)
  {
    if k in f && f[k].JNum? then Ok(f[k].n) else Err(ValidationError(k))
  }

  /** A required `bool` field. */
  function Bool(f: Fields, k: string): (r: Result<bool>)
    ensures r.Ok? <==> k in f && f[k].JBool?
    ensures r.Ok? ==> f[k] == JBool(r.value)
    ensures r.Err? ==> r.error == ValidationError(k)
  {
    if k in f && f[k].JBool? then Ok(f[k].b) else Err(ValidationError(k))
  }

  /** A required `Dict[str, Any]` field. */
  function Dict(f: Fields, k: string): (r: Result<seq<(string, Json)>>)
    ensures r.Ok? <==> k in f && f[k].JObject?
    ensures r.Ok? ==> f[k] == JObject(r.value)
    ensures r.Err? ==> r.error == ValidationError(k)
  {
    if k in f && f[k].JObject? then Ok(f[k].entries) else Err(ValidationError(k))
  }

  /** A `Dict[str, Any]` field whose default is `{}`. */
  function DictOr(f: Fields, k: string): (r: Result<seq<(string, Json)>>)
    ensures r.Ok? <==> k !in f || f[k].JObject?
    ensures r.Ok? ==> r.value == if k in f then f[k].entries else []
    ensures r.Err? ==> r.error == ValidationError(k)
  {
    if k !in f then Ok([]) else Dict(f, k)
  }

  /** An `Optional[Dict[str, Any]]` field whose default is `{}`: an explicit None stays None. */
  function OptDictOr(f: Fields, k: string): (r: Result<Option<seq<(string, Json)>>>)
    ensures r.Ok? <==> k !in f || f[k].JNull? || f[k].JObject?
    ensures r.Ok? ==> r.value == if k !in f then Some([]) else if f[k].JNull? then None else Some(f[k].entries)
    ensures r.Err? ==> r.error == ValidationError(k)
  {
    if k !in f then Ok(Some([]))
    else if f[k].JNull? then Ok(None)
    else if f[k].JObject? then Ok(Some(f[k].entries))
    else Err(ValidationError(k))
  }

  /** The strings of a list of strings. */
  function Strings(j: Json): (ss: seq<string>)
    requires IsStringList(j)
    ensures |ss| == |j.items| && forall i :: 0 <= i < |ss| ==> j.items[i] == JStr(ss[i])
  {
    seq(|j.items|, i requires 0 <= i < |j.items| => j.items[i].s)
  }

  /** A list of strings as a JSON value. */
  function StringList(ss: seq<string>): (j: Json)
    ensures IsStringList(j) && Strings(j) == ss
  {
    JList(seq(|ss|, i requires 0 <= i < |ss| => JStr(ss[i])))
  }

  /** A `List[str]` field whose default is `[]`. */
  function StrListOr(f: Fields, k: string): (r: Result<seq<string>>)
    ensures r.Ok? <==> k !in f || IsStringList(f[k])
    ensures r.Ok? ==> r.value == if k in f then Strings(f[k]) else []
    ensures r.Err? ==> r.error == ValidationError(k)
  {
    if k !in f then Ok([]) else if IsStringList(f[k]) then Ok(Strings(f[k])) else Err(ValidationError(k))
  }

  /** An `Optional[List[str]]` field whose default is `[]`: an explicit None stays None. */
  function OptStrListOr(f: Fields, k: string): (r: Result<Option<seq<string>>>)
    ensures r.Ok? <==> k !in f || f[k].JNull? || IsStringList(f[k])
    ensures r.Ok? ==> r.value == if k !in f then Some([]) else if f[k].JNull? then None else Some(Strings(f[k]))
    ensures r.Err? ==> r.error == ValidationError(k)
  {
    if k !in f then Ok(Some([]))
    else if f[k].JNull? then Ok(None)
    else if IsStringList(f[k]) then Ok(Some(Strings(f[k])))
    else Err(ValidationError(k))
  }

  /** Entries whose values are all numbers. */
  predicate NumEntries(entries: seq<(string, Json)>) {
    forall i :: 0 <= i < |entries| ==> entries[i].1.JNum?
  }

  /** A required `Dict[str, float]` field. */
  function NumDict(f: Fields, k: string): (r: Result<seq<(string, real)>>)
    ensures r.Ok? <==> k in f && f[k].JObject? && NumEntries(f[k].entries)
    ensures r.Ok? ==> |r.value| == |f[k].entries|
    ensures r.Ok? ==> forall i :: 0 <= i < |r.value| ==> f[k].entries[i] == (r.value[i].0, JNum(r.value[i].1))
    ensures r.Err? ==> r.error == ValidationError(k)
  {
    if k in f && f[k].JObject? && NumEntries(f[k].entries) then
      var es := f[k].entries;
      Ok(seq(|es|, i requires 0 <= i < |es| => (es[i].0, es[i].1.n)))
    else Err(ValidationError(k))
  }

  /** A `Dict[str, float]` as a JSON value. */
  function NumObject(m: seq<(string, real)>): Json {
    JObject(seq(|m|, i requires 0 <= i < |m| => (m[i].0, JNum(m[i].1))))
  }

  /** An optional string as a JSON value. */
  function OptJson(o: Option<string>): Json {
    match o
    case None => JNull
    case Some(s) => JStr(s)
  }

  /** An optional dict as a JSON value. */
  function OptObject(o: Option<seq<(string, Json)>>): Json {
    match o
    case None => JNull
    case Some(es) => JObject(es)
  }

  /** An optional list of strings as a JSON value. */
  function OptStringList(o: Option<seq<string>>): Json {
    match o
    case None => JNull
    case Some(ss) => StringList(ss)
  }

  /** Reading back what the encoders wrote gives the value that was written. */
  lemma FieldRoundTrips(f: Fields, k: string)
    requires k in f
    ensures forall o: Option<string> :: f[k] == OptJson(o) ==> OptStr(f, k) == Ok(o)
    ensures forall o: Option<seq<(string, Json)>> :: f[k] == OptObject(o) ==> OptDictOr(f, k) == Ok(o)
    ensures forall o: Option<seq<string>> :: f[k] == OptStringList(o) ==> OptStrListOr(f, k) == Ok(o)
    ensures forall m: seq<(string, real)> :: f[k] == NumObject(m) ==> NumDict(f, k) == Ok(m)
  {
    forall m: seq<(string, real)> | f[k] == NumObject(m) ensures NumDict(f, k) == Ok(m) {
      assert NumDict(f, k).value == m;
    }
  }
}
