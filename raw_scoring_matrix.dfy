/**
 * config/scoring/raw_scoring_matrix.py: the criteria a raw prompt is judged by, each with its
 * weight, and the weighted average of the per-criterion scores an LLM hands back.
 */
module RawScoringMatrix {
  /** A scoring matrix as far as aggregation reads it: the weight of each criterion. */
  type Weights = map<string, real>

  /** The criteria of the raw-prompt matrix, in the order the matrix lists them. */
  const CriterionNames: seq<string> := [
    "goal_clarity", "role_specification", "structure_completeness", "constraint_enforcement",
    "evalability", "ambiguity_avoidance", "error_handling_readiness"]

  /** `SCORING_MATRIX`, reduced to the weights. */
  const ScoringMatrix: Weights := map[
    "goal_clarity" := 1.2,
    "role_specification" := 1.0,
    "structure_completeness" := 1.1,
    "constraint_enforcement" := 1.1,
    "evalability" := 1.1,
    "ambiguity_avoidance" := 1.0,
    "error_handling_readiness" := 0.8]

  /** Every weight of a matrix is positive. */
  predicate PositiveWeights(m: Weights) {
    forall k :: k in m ==> m[k] > 0.0
  }

  /** The default matrix has exactly the seven listed criteria, all with positive weights. */
  lemma ScoringMatrixShape()
    ensures ScoringMatrix.Keys == set i | 0 <= i < |CriterionNames| :: CriterionNames[i]
    ensures |CriterionNames| == 7
    ensures PositiveWeights(ScoringMatrix)
  {
    var names := set i | 0 <= i < |CriterionNames| :: CriterionNames[i];
    assert names == {
      "goal_clarity", "role_specification", "structure_completeness", "constraint_enforcement",
      "evalability", "ambiguity_avoidance", "error_handling_readiness"} by {
      forall k | k in names
        ensures k in {"goal_clarity", "role_specification", "structure_completeness",
          "constraint_enforcement", "evalability", "ambiguity_avoidance", "error_handling_readiness"}
      {
      }
      assert CriterionNames[0] in names && CriterionNames[1] in names && CriterionNames[2] in names;
      assert CriterionNames[3] in names && CriterionNames[4] in names && CriterionNames[5] in names;
      assert CriterionNames[6] in names;
    }
  }

  /** What one supplied (criterion, score) pair adds to the weighted sum. */
  function Contribution(entry: (string, real), m: Weights): real {
    if entry.0 in m then entry.1 * m[entry.0] else 0.0
  }

  /** What one supplied pair adds to the total weight. */
  function WeightOf(entry: (string, real), m: Weights): real {
    if entry.0 in m then m[entry.0] else 0.0
  }

  /** Σ score·weight over the supplied criteria the matrix knows. */
  function WeightedSum(scores: seq<(string, real)>, m: Weights): real
    decreases |scores|
  {
    if scores == [] then 0.0
    else WeightedSum(scores[..|scores| - 1], m) + Contribution(scores[|scores| - 1], m)
  }

  /** Σ weight over the supplied criteria the matrix knows. */
  function TotalWeight(scores: seq<(string, real)>, m: Weights): real
    decreases |scores|
  {
    if scores == [] then 0.0
    else TotalWeight(scores[..|scores| - 1], m) + WeightOf(scores[|scores| - 1], m)
  }

  /** The weighted average of the supplied known criteria; 0.0 when their total weight is 0. */
  function WeightedAverage(scores: seq<(string, real)>, m: Weights): real {
    if TotalWeight(scores, m) == 0.0 then 0.0 else WeightedSum(scores, m) / TotalWeight(scores, m)
  }

  /**
   * `compute_weighted_score(prompt_scores, matrix)`: the LLM's scores in the dict's order, folded
   * into a weighted sum and a total weight by one pass.
   */
  method ComputeWeightedScore(promptScores: seq<(string, real)>, matrix: Weights) returns (score: real)
    ensures score == WeightedAverage(promptScores, matrix)
  {
    var weightedSum := 0.0;
    var totalWeight := 0.0;
    for i := 0 to |promptScores|
      invariant weightedSum == WeightedSum(promptScores[..i], matrix)
      invariant totalWeight == TotalWeight(promptScores[..i], matrix)
    {
      var (criterion, s) := promptScores[i];
      assert promptScores[..i + 1][..i] == promptScores[..i];
      if criterion in matrix {
        var weight := matrix[criterion];
        weightedSum := weightedSum + s * weight;
        totalWeight := totalWeight + weight;
      }
    }
    assert promptScores[..|promptScores|] == promptScores;
    if totalWeight == 0.0 {
      return 0.0;
    }
    score := weightedSum / totalWeight;
  }

  /** The supplied pairs whose criterion the matrix knows, in their order. */
  function Known(scores: seq<(string, real)>, m: Weights): (r: seq<(string, real)>)
    ensures forall i :: 0 <= i < |r| ==> r[i].0 in m
    decreases |scores|
  {
    if scores == [] then []
    else
      var e := scores[|scores| - 1];
      Known(scores[..|scores| - 1], m) + (if e.0 in m then [e] else [])
  }

  /** Appending one pair adds its contribution and its weight. */
  lemma AppendOne(scores: seq<(string, real)>, e: (string, real), m: Weights)
    ensures WeightedSum(scores + [e], m) == WeightedSum(scores, m) + Contribution(e, m)
    ensures TotalWeight(scores + [e], m) == TotalWeight(scores, m) + WeightOf(e, m)
  {
    assert (scores + [e])[..|scores|] == scores;
  }

  /** Unknown criteria are ignored: the known pairs alone give the same sums. */
  lemma {:induction false} KnownSums(scores: seq<(string, real)>, m: Weights)
    ensures WeightedSum(Known(scores, m), m) == WeightedSum(scores, m)
    ensures TotalWeight(Known(scores, m), m) == TotalWeight(scores, m)
    decreases |scores|
  {
    if scores != [] {
      var init, e := scores[..|scores| - 1], scores[|scores| - 1];
      assert scores == init + [e];
      KnownSums(init, m);
      if e.0 in m {
        assert Known(scores, m) == Known(init, m) + [e];
        AppendOne(Known(init, m), e, m);
      } else {
        assert Known(scores, m) == Known(init, m);
      }
    }
  }

  /** Only criteria present in the matrix contribute: dropping the unknown ones changes nothing. */
  lemma UnknownCriteriaIgnored(scores: seq<(string, real)>, m: Weights)
    ensures WeightedAverage(Known(scores, m), m) == WeightedAverage(scores, m)
  {
    KnownSums(scores, m);
  }

  /** With no supplied criterion in the matrix the total weight is 0 and the result 0.0. */
  lemma NoKnownCriteriaScoresZero(scores: seq<(string, real)>, m: Weights)
    requires forall i :: 0 <= i < |scores| ==> scores[i].0 !in m
    ensures WeightedAverage(scores, m) == 0.0
  {
    KnownSums(scores, m);
    NoneKnown(scores, m);
  }

  lemma {:induction false} NoneKnown(scores: seq<(string, real)>, m: Weights)
    requires forall i :: 0 <= i < |scores| ==> scores[i].0 !in m
    ensures Known(scores, m) == []
    decreases |scores|
  {
    if scores != [] {
      NoneKnown(scores[..|scores| - 1], m);
    }
  }

  /**
   * Matrix criteria that were not supplied do not lower (or otherwise move) the result: their
   * weight may be anything, or they may be absent.
   */
  lemma {:induction false} MissingCriteriaIrrelevant(scores: seq<(string, real)>, m: Weights, c: string, w: real)
    requires forall i :: 0 <= i < |scores| ==> scores[i].0 != c
    ensures WeightedSum(scores, m[c := w]) == WeightedSum(scores, m - {c})
    ensures TotalWeight(scores, m[c := w]) == TotalWeight(scores, m - {c})
    ensures WeightedAverage(scores, m[c := w]) == WeightedAverage(scores, m - {c})
    decreases |scores|
  {
    if scores != [] {
      MissingCriteriaIrrelevant(scores[..|scores| - 1], m, c, w);
    }
  }

  /** With scores in [0, 1] and positive weights, 0 <= Σ score·w <= Σ w. */
  lemma {:induction false} SumBounds(scores: seq<(string, real)>, m: Weights)
    requires forall i :: 0 <= i < |scores| ==> 0.0 <= scores[i].1 <= 1.0
    requires PositiveWeights(m)
    ensures 0.0 <= WeightedSum(scores, m) <= TotalWeight(scores, m)
    decreases |scores|
  {
    if scores != [] {
      var e := scores[|scores| - 1];
      SumBounds(scores[..|scores| - 1], m);
      assert WeightedSum(scores, m) == WeightedSum(scores[..|scores| - 1], m) + Contribution(e, m);
      assert TotalWeight(scores, m) == TotalWeight(scores[..|scores| - 1], m) + WeightOf(e, m);
      if e.0 in m {
        ScaleBound(e, m);
      }
    }
  }

  /** A score in [0, 1] scales a positive weight to at most that weight. */
  lemma ScaleBound(e: (string, real), m: Weights)
    requires e.0 in m && 0.0 <= e.1 <= 1.0 && 0.0 < m[e.0]
    ensures 0.0 <= Contribution(e, m) <= WeightOf(e, m)
  {
    var x, w := e.1, m[e.0];
    var d := 1.0 - x;
    assert d * w >= 0.0;
    assert w - x * w == d * w;
  }

  /** With supplied scores in [0, 1] and positive weights, the result lies in [0, 1]. */
  lemma AverageInUnitRange(scores: seq<(string, real)>, m: Weights)
    requires forall i :: 0 <= i < |scores| ==> 0.0 <= scores[i].1 <= 1.0
    requires PositiveWeights(m)
    ensures 0.0 <= WeightedAverage(scores, m) <= 1.0
  {
    SumBounds(scores, m);
    var ws, tw := WeightedSum(scores, m), TotalWeight(scores, m);
    if tw != 0.0 {
      assert (ws / tw) * tw == ws;
    }
  }

  /** `(s·t) / t == s` for a non-zero t. */
  lemma Cancel(x: real, s: real, t: real)
    requires t != 0.0 && x == s * t
    ensures x / t == s
  {
    assert (x / t) * t == x;
    assert (x / t - s) * t == 0.0;
  }

  /** A known criterion scored `s` adds `s` times its weight; an unknown one adds nothing to either. */
  lemma UniformEntry(entry: (string, real), m: Weights, s: real)
    requires entry.0 in m ==> entry.1 == s
    ensures Contribution(entry, m) == s * WeightOf(entry, m)
  {
  }

  lemma Distribute(a: real, b: real, c: real, d: real, s: real)
    requires a == s * c && b == s * d
    ensures a + b == s * (c + d)
  {
  }

  /** When every supplied known criterion has the same score, the weighted sum is that score times the weight. */
  lemma {:induction false} UniformSum(scores: seq<(string, real)>, m: Weights, s: real)
    requires forall i :: 0 <= i < |scores| ==> scores[i].0 in m ==> scores[i].1 == s
    ensures WeightedSum(scores, m) == s * TotalWeight(scores, m)
    decreases |scores|
  {
    if scores != [] {
      var init, last := scores[..|scores| - 1], scores[|scores| - 1];
      UniformSum(init, m, s);
      UniformEntry(last, m, s);
      assert WeightedSum(scores, m) == WeightedSum(init, m) + Contribution(last, m);
      assert TotalWeight(scores, m) == TotalWeight(init, m) + WeightOf(last, m);
      Distribute(WeightedSum(init, m), Contribution(last, m), TotalWeight(init, m), WeightOf(last, m), s);
    }
  }

  /** When every supplied known criterion has the same score, the average is that score. */
  lemma UniformScores(scores: seq<(string, real)>, m: Weights, s: real)
    requires forall i :: 0 <= i < |scores| ==> scores[i].0 in m ==> scores[i].1 == s
    ensures TotalWeight(scores, m) != 0.0 ==> WeightedAverage(scores, m) == s
  {
    UniformSum(scores, m, s);
    var tw := TotalWeight(scores, m);
    if tw != 0.0 {
      Cancel(WeightedSum(scores, m), s, tw);
    }
  }
}
