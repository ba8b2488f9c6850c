/**
 * agents/prompt_quality_agent_vs1.py: an earlier quality agent that reads dimension weights from a
 * JSON file, asks an LLM for one score per dimension, and averages the scores by weight.
 */
module PromptQualityAgentVs1 {
  import opened Wrappers
  import opened JsonValues
  import RawScoringMatrix

  /** The loaded scoring matrix: dimension name to weight. */
  type Matrix = map<string, real>

  /** A `dimensions` entry with a string `dimension` and a numeric `weight`, as a pair. */
  function DimensionEntry(j: Json): Option<(string, real)> {
    if !j.JObject? then None
    else
      match (Lookup(j.entries, "dimension"), Lookup(j.entries, "weight"))
      case (Some(JStr(d)), Some(JNum(w))) => Some((d, w))
      case _ => None
  }

  /** The entries of the `dimensions` list as pairs, None as soon as one is not of that shape. */
  function DimensionEntries(dims: seq<Json>): (r: Option<seq<(string, real)>>)
    ensures r.Some? ==> |r.value| == |dims|
    ensures r.Some? ==> forall i :: 0 <= i < |dims| ==> DimensionEntry(dims[i]) == Some(r.value[i])
    decreases |dims|
  {
    if dims == [] then Some([])
    else
      match (DimensionEntries(dims[..|dims| - 1]), DimensionEntry(dims[|dims| - 1]))
      case (Some(init), Some(e)) => Some(init + [e])
      case _ => None
  }

  /** The dict comprehension over the pairs: every listed dimension is a key, a later pair wins. */
  function MatrixOf(pairs: seq<(string, real)>): (m: Matrix)
    ensures forall i :: 0 <= i < |pairs| ==> pairs[i].0 in m
    ensures forall k :: k in m ==> exists i :: 0 <= i < |pairs| && pairs[i].0 == k
    ensures pairs != [] ==> m[pairs[|pairs| - 1].0] == pairs[|pairs| - 1].1
    decreases |pairs|
  {
    if pairs == [] then map[]
    else
      var init, last := pairs[..|pairs| - 1], pairs[|pairs| - 1];
      var m := MatrixOf(init)[last.0 := last.1];
      assert forall i :: 0 <= i < |init| ==> pairs[i] == init[i];
      m
  }

  /**
   * `_load_scoring_matrix`, given the decoded file, or None when it cannot be opened or decoded;
   * every failure yields the empty matrix.
   */
  function LoadScoringMatrix(data: Option<Json>): (m: Matrix)
    ensures data.None? ==> m == map[]
    ensures m != map[] ==>
      && data.Some? && data.value.JObject?
      && Lookup(data.value.entries, "dimensions").Some?
      && Lookup(data.value.entries, "dimensions").value.JList?
  {
    match data
    case Some(JObject(entries)) =>
      (match Lookup(entries, "dimensions")
       case None => map[]
       case Some(JList(dims)) =>
         (match DimensionEntries(dims)
          case Some(pairs) => MatrixOf(pairs)
          case None => map[])
       case Some(_) => map[])
    case _ => map[]
  }

  /** What `for item in value` walks over: a list's items, a dict's keys, a string's characters. */
  function Iterated(j: Json): Result<seq<Json>> {
    match j
    case JList(items) => Ok(items)
    case JObject(es) => Ok(seq(|es|, i requires 0 <= i < |es| => JStr(es[i].0)))
    case JStr(s) => Ok(seq(|s|, i requires 0 <= i < |s| => JStr([s[i]])))
    case _ => Err(TypeError("object is not iterable"))
  }

  /** `matrix.get(item.get("dimension"), 1.0)`: a list or dict as the key cannot be hashed. */
  function ItemWeight(m: Matrix, item: seq<(string, Json)>): Result<real> {
    match Lookup(item, "dimension")
    case Some(JStr(d)) => Ok(if d in m then m[d] else 1.0)
    case Some(JList(_)) => Err(TypeError("unhashable type: 'list'"))
    case Some(JObject(_)) => Err(TypeError("unhashable type: 'dict'"))
    case _ => Ok(1.0)
  }

  /** `item.get("score", 0.0)` as a number that multiplies a float (a bool counts as 0 or 1). */
  function ItemScore(item: seq<(string, Json)>): Result<real> {
    match Lookup(item, "score")
    case None => Ok(0.0)
    case Some(JNum(n)) => Ok(n)
    case Some(JBool(b)) => Ok(if b then 1.0 else 0.0)
    case Some(_) => Err(TypeError("unsupported operand type(s) for *"))
  }

  /** One item's contribution to the weighted sum and to the total weight. */
  function ItemTerms(m: Matrix, item: Json): Result<(real, real)> {
    if !item.JObject? then Err(AttributeError("object has no attribute 'get'"))
    else
      match (ItemWeight(m, item.entries), ItemScore(item.entries))
      case (Err(e), _) => Err(e)
      case (Ok(_), Err(e)) => Err(e)
      case (Ok(w), Ok(s)) => Ok((s * w, w))
  }

  /** An item naming a dimension the matrix lacks weighs 1.0. */
  lemma UnknownDimensionWeighsOne(m: Matrix, item: seq<(string, Json)>, d: string, s: real)
    requires Lookup(item, "dimension") == Some(JStr(d)) && d !in m
    requires Lookup(item, "score") == Some(JNum(s))
    ensures ItemTerms(m, JObject(item)) == Ok((s, 1.0))
  {
  }

  /** An item without a score adds 0.0 to the weighted sum and its full weight to the total. */
  lemma MissingScoreContributesZero(m: Matrix, item: seq<(string, Json)>, d: string)
    requires Lookup(item, "dimension") == Some(JStr(d)) && Lookup(item, "score").None?
    ensures ItemTerms(m, JObject(item)) == Ok((0.0, if d in m then m[d] else 1.0))
  {
  }

  /** `ItemTerms` for the matrix, as the function the aggregation applies to each item. */
  function TermsOf(m: Matrix): Json -> Result<(real, real)> {
    item => ItemTerms(m, item)
  }

  /** The running sums of the items' terms, or the exception of the first item that raises. */
  function Totals(terms: Json -> Result<(real, real)>, items: seq<Json>): Result<(real, real)>
    decreases |items|
  {
    if items == [] then Ok((0.0, 0.0))
    else
      var prev :- Totals(terms, items[..|items| - 1]);
      Extend(prev, terms(items[|items| - 1]))
  }

  /** The sums after one more item: its terms added, or its exception raised. */
  function Extend(sums: (real, real), terms: Result<(real, real)>): Result<(real, real)> {
    match terms
    case Err(e) => Err(e)
    case Ok((c, w)) => Ok((sums.0 + c, sums.1 + w))
  }

  /** Extending the items by one extends the sums by that item. */
  lemma TotalsStep(terms: Json -> Result<(real, real)>, items: seq<Json>, i: nat)
    requires i < |items| && Totals(terms, items[..i]).Ok?
    ensures Totals(terms, items[..i + 1]) == Extend(Totals(terms, items[..i]).value, terms(items[i]))
  {
    var t := items[..i + 1];
    assert t[..|t| - 1] == items[..i] && t[|t| - 1] == items[i];
  }

  /** Once a prefix raises, the whole list raises the same exception. */
  lemma {:induction false} TotalsFailurePersists(terms: Json -> Result<(real, real)>, items: seq<Json>, i: nat)
    requires i <= |items| && Totals(terms, items[..i]).Err?
    ensures Totals(terms, items) == Totals(terms, items[..i])
    decreases |items| - i
  {
    if i < |items| {
      assert items[..i + 1][..i] == items[..i];
      TotalsFailurePersists(terms, items, i + 1);
    } else {
      assert items[..i] == items;
    }
  }

  /** The summary `run` returns beside the score. */
  datatype Summary = Summary(error: Option<Error>, promptScoreWeighted: real, details: Json)

  function Failure(e: Error): Summary {
    Summary(Some(e), 0.0, JList([]))
  }

  /**
   * The score and summary of `run` for the LLM's reply: the decoded JSON, or the exception the
   * chat call, the debug write or the decoding raised.
   */
  function Evaluate(m: Matrix, response: Result<Json>): (r: (real, Summary))
    ensures r.1.promptScoreWeighted == r.0
    ensures r.1.error.Some? ==> r.0 == 0.0 && r.1.details == JList([])
    ensures r.1.error.None? ==> response.Ok? && r.1.details == response.value
    ensures response.Err? ==> r.1.error == Some(response.error)
  {
    match response
    case Err(e) => (0.0, Failure(e))
    case Ok(feedback) =>
      match Iterated(feedback)
      case Err(e) => (0.0, Failure(e))
      case Ok(items) =>
        match Totals(TermsOf(m), items)
        case Err(e) => (0.0, Failure(e))
        case Ok((ws, tw)) =>
          (Quotient(ws, tw), Summary(None, Quotient(ws, tw), feedback))
  }

  /** The score for the final sums: their quotient, 0.0 when the total weight is 0. */
  function Quotient(ws: real, tw: real): real {
    if tw != 0.0 then ws / tw else 0.0
  }

  /** `Evaluate` once the walk and the sums are known. */
  lemma EvaluateOf(m: Matrix, feedback: Json, items: seq<Json>)
    requires Iterated(feedback) == Ok(items)
    ensures Totals(TermsOf(m), items).Err? ==> Evaluate(m, Ok(feedback)) == (0.0, Failure(Totals(TermsOf(m), items).error))
    ensures Totals(TermsOf(m), items).Ok? ==> var (ws, tw) := Totals(TermsOf(m), items).value;
      Evaluate(m, Ok(feedback)) == (Quotient(ws, tw), Summary(None, Quotient(ws, tw), feedback))
  {
  }

  /**
   * The aggregation loop of `run`: the running sums, or the first exception an item raises;
   * `terms` computes one item's weighted score and weight (`TermsOf(matrix)` in `run`).
   */
  method SumItems(terms: Json -> Result<(real, real)>, items: seq<Json>) returns (r: Result<(real, real)>)
    ensures r == Totals(terms, items)
  {
    var weightedSum, totalWeight := 0.0, 0.0;
    for i := 0 to |items|
      invariant Totals(terms, items[..i]) == Ok((weightedSum, totalWeight))
    {
      var t := terms(items[i]);
      TotalsStep(terms, items, i);
      if t.Err? {
        TotalsFailurePersists(terms, items, i + 1);
        return Err(t.error);
      }
      weightedSum := weightedSum + t.value.0;
      totalWeight := totalWeight + t.value.1;
    }
    assert items[..|items|] == items;
    return Ok((weightedSum, totalWeight));
  }

  /** `run(prompt_text, base_name, version)` after the chat call. */
  method Run(matrix: Matrix, response: Result<Json>) returns (score: real, summary: Summary)
    ensures (score, summary) == Evaluate(matrix, response)
  {
    if response.Err? {
      return 0.0, Failure(response.error);
    }
    var feedback := response.value;
    var walk := Iterated(feedback);
    if walk.Err? {
      return 0.0, Failure(walk.error);
    }
    EvaluateOf(matrix, feedback, walk.value);
    var sums := SumItems(TermsOf(matrix), walk.value);
    if sums.Err? {
      return 0.0, Failure(sums.error);
    }
    var (weightedSum, totalWeight) := sums.value;
    score := Quotient(weightedSum, totalWeight);
    summary := Summary(None, score, feedback);
  }

  /** An empty reply list has total weight 0 and scores 0.0 without error. */
  lemma EmptyFeedbackScoresZero(m: Matrix)
    ensures Evaluate(m, Ok(JList([]))) == (0.0, Summary(None, 0.0, JList([])))
  {
  }

  /** An item whose dimension is a string and whose score is a number or absent. */
  predicate WellFormedItem(j: Json) {
    && j.JObject?
    && Lookup(j.entries, "dimension").Some? && Lookup(j.entries, "dimension").value.JStr?
    && (Lookup(j.entries, "score").None? || Lookup(j.entries, "score").value.JNum?)
  }

  /** A well-formed item as the (dimension, score) pair the raw matrix's aggregation takes. */
  function Pair(j: Json): (string, real)
    requires WellFormedItem(j)
  {
    (Lookup(j.entries, "dimension").value.s,
     if Lookup(j.entries, "score").None? then 0.0 else Lookup(j.entries, "score").value.n)
  }

  function Pairs(items: seq<Json>): (ps: seq<(string, real)>)
    requires forall i :: 0 <= i < |items| ==> WellFormedItem(items[i])
    ensures |ps| == |items| && forall i :: 0 <= i < |items| ==> ps[i] == Pair(items[i])
  {
    seq(|items|, i requires 0 <= i < |items| => Pair(items[i]))
  }

  /** The matrix weight of a dimension, 1.0 when the matrix lacks it. */
  function WeightOrOne(m: Matrix, d: string): real {
    if d in m then m[d] else 1.0
  }

  /** `m` with every dimension of the pairs that it lacks added at weight 1.0. */
  function WithDefaults(m: Matrix, ps: seq<(string, real)>): (w: RawScoringMatrix.Weights)
    ensures forall i :: 0 <= i < |ps| ==> ps[i].0 in w && w[ps[i].0] == WeightOrOne(m, ps[i].0)
  {
    map k | k in (set i | 0 <= i < |ps| :: ps[i].0) :: WeightOrOne(m, k)
  }

  /** A well-formed item's terms are the raw aggregation's contribution and weight for its pair. */
  lemma ItemTermsOfPair(m: Matrix, item: Json, w: RawScoringMatrix.Weights)
    requires WellFormedItem(item) && Pair(item).0 in w && w[Pair(item).0] == WeightOrOne(m, Pair(item).0)
    ensures ItemTerms(m, item) == Ok((RawScoringMatrix.Contribution(Pair(item), w), RawScoringMatrix.WeightOf(Pair(item), w)))
  {
    var (d, s) := Pair(item);
    assert ItemWeight(m, item.entries) == Ok(WeightOrOne(m, d));
    assert ItemScore(item.entries) == Ok(s);
    assert item.JObject?;
    assert ItemTerms(m, item).Ok?;
    assert ItemTerms(m, item).value.1 == WeightOrOne(m, d);
    assert ItemTerms(m, item).value.0 == s * WeightOrOne(m, d);
    assert RawScoringMatrix.Contribution(Pair(item), w) == s * WeightOrOne(m, d);
  }

  /**
   * When each item's terms are those config/scoring/raw_scoring_matrix.py's aggregation gives its
   * pair, the sums over the items are that aggregation's sums over the pairs.
   */
  lemma {:induction false} TotalsAgree(terms: Json -> Result<(real, real)>, items: seq<Json>, ps: seq<(string, real)>,
                                       w: RawScoringMatrix.Weights)
    requires |ps| == |items|
    requires forall i :: 0 <= i < |items| ==>
      terms(items[i]) == Ok((RawScoringMatrix.Contribution(ps[i], w), RawScoringMatrix.WeightOf(ps[i], w)))
    ensures Totals(terms, items) == Ok((RawScoringMatrix.WeightedSum(ps, w), RawScoringMatrix.TotalWeight(ps, w)))
    decreases |items|
  {
    if items != [] {
      var n := |items| - 1;
      TotalsAgree(terms, items[..n], ps[..n], w);
      TotalsStep(terms, items, n);
      assert items[..n + 1] == items;
      assert ps[..n] == ps[..|ps| - 1];
    }
  }

  /** The weighted score is the raw matrix's weighted average with unknown dimensions at weight 1.0. */
  lemma AgreesWithRawAverage(m: Matrix, items: seq<Json>)
    requires forall i :: 0 <= i < |items| ==> WellFormedItem(items[i])
    ensures Evaluate(m, Ok(JList(items))).0 == RawScoringMatrix.WeightedAverage(Pairs(items), WithDefaults(m, Pairs(items)))
    ensures Evaluate(m, Ok(JList(items))).1.error.None?
  {
    var ps := Pairs(items);
    var w := WithDefaults(m, ps);
    forall i | 0 <= i < |items|
      ensures TermsOf(m)(items[i]) == Ok((RawScoringMatrix.Contribution(ps[i], w), RawScoringMatrix.WeightOf(ps[i], w)))
    {
      ItemTermsOfPair(m, items[i], w);
    }
    TotalsAgree(TermsOf(m), items, ps, w);
  }

  /** With scores in [0, 1] and positive weights the weighted score lies in [0, 1]. */
  lemma ScoreInUnitRange(m: Matrix, items: seq<Json>)
    requires forall i :: 0 <= i < |items| ==> WellFormedItem(items[i])
    requires RawScoringMatrix.PositiveWeights(m) && forall i :: 0 <= i < |items| ==> 0.0 <= Pair(items[i]).1 <= 1.0
    ensures 0.0 <= Evaluate(m, Ok(JList(items))).0 <= 1.0
  {
    var ps := Pairs(items);
    var w := WithDefaults(m, ps);
    AgreesWithRawAverage(m, items);
    assert RawScoringMatrix.PositiveWeights(w);
    RawScoringMatrix.AverageInUnitRange(ps, w);
  }
}
