/**
  Ranking of candidate cases as likely work of the same suspect as a base case.

  Each candidate gets the fixed-weight score
    0.5 * text similarity + 0.2 * area match + 0.1 * weapon match + 0.2 * time decay,
  then the pool is sorted by score, highest first, and cut to `top_k` rows. The exponential
  time decay `exp(-days / 365)` is a parameter of the ranker: any function of the day gap
  that is 1 at 0, lies in (0,1] and never increases with the gap.
*/
module Ranking {
  import opened Wrappers
  import opened Cases
  import opened Sorting
  import Similarity

  /** A row of the candidate pool. `similarity` is None when the pool carries no similarity column. */
  datatype Candidate = Candidate(row: Case, similarity: Option<real>)

  /** A pool row with its score attached. */
  datatype Ranked = Ranked(cand: Candidate, score: real)

  function ScoreOf(x: Ranked): real
  {
    x.score
  }

  /** The properties of `exp(-days / 365)` the ranking relies on. */
  ghost predicate IsDecay(decay: nat -> real)
  {
    decay(0) == 1.0 &&
    (forall d: nat :: 0.0 < decay(d) <= 1.0) &&
    (forall d1: nat, d2: nat :: d1 <= d2 ==> decay(d2) <= decay(d1))
  }

  /** `row.get("similarity", 0.0)`. */
  function TextScore(c: Candidate): real
  {
    match c.similarity
    case Some(s) => s
    case None => 0.0
  }

  /** 1.0 for a match, 0.0 otherwise. */
  function Indicator(b: bool): real
  {
    if b then 1.0 else 0.0
  }

  /** `_score`: the weighted sum of the four signals against the base row. */
  function Score(base: Case, c: Candidate, decay: nat -> real): (r: real)
    ensures 0.0 <= TextScore(c) <= 1.0 && 0.0 <= decay(DayGap(c.row.day, base.day)) <= 1.0 ==> 0.0 <= r <= 1.0
  {
    0.5 * TextScore(c)
    + 0.2 * Indicator(CellEquals(c.row.areaName, base.areaName))
    + 0.1 * Indicator(CellEquals(c.row.weaponDesc, base.weaponDesc))
    + 0.2 * decay(DayGap(c.row.day, base.day))
  }

  /** A candidate with similarity 1.0, the base's area and weapon, on the base's day, scores exactly 1.0. */
  lemma PerfectScore(base: Case, c: Candidate, decay: nat -> real)
    requires IsDecay(decay)
    requires c.similarity == Some(1.0) && c.row.day == base.day
    requires base.areaName.Some? && c.row.areaName == base.areaName
    requires base.weaponDesc.Some? && c.row.weaponDesc == base.weaponDesc
    ensures Score(base, c, decay) == 1.0
  {
    assert DayGap(c.row.day, base.day) == 0;
  }

  /**
    With area and weapon fixed, a higher similarity or a smaller day gap never lowers the score.
  */
  lemma ScoreMonotone(base: Case, c1: Candidate, c2: Candidate, decay: nat -> real)
    requires IsDecay(decay)
    requires c1.row.areaName == c2.row.areaName && c1.row.weaponDesc == c2.row.weaponDesc
    requires TextScore(c1) <= TextScore(c2)
    requires DayGap(c2.row.day, base.day) <= DayGap(c1.row.day, base.day)
    ensures Score(base, c1, decay) <= Score(base, c2, decay)
  {
  }

  /**
    Missing values never match: when the candidate's and the base's area and weapon are all
    missing, only text and time contribute.
  */
  lemma MissingFieldsScore(base: Case, c: Candidate, decay: nat -> real)
    requires base.areaName.None? && base.weaponDesc.None?
    requires c.row.areaName.None? && c.row.weaponDesc.None?
    ensures Score(base, c, decay) == 0.5 * TextScore(c) + 0.2 * decay(DayGap(c.row.day, base.day))
  {
  }

  /**
    A candidate with no similarity, another area and another weapon scores only its time
    decay share, which is at most 0.2 and shrinks as the gap grows.
  */
  lemma UnrelatedScore(base: Case, c: Candidate, decay: nat -> real)
    requires IsDecay(decay)
    requires TextScore(c) == 0.0
    requires !CellEquals(c.row.areaName, base.areaName) && !CellEquals(c.row.weaponDesc, base.weaponDesc)
    ensures Score(base, c, decay) == 0.2 * decay(DayGap(c.row.day, base.day))
    ensures 0.0 < Score(base, c, decay) <= 0.2
  {
  }

  /** The pool with each row's score attached, in pool order. */
  function ScoreAll(base: Case, pool: seq<Candidate>, decay: nat -> real): (r: seq<Ranked>)
    ensures |r| == |pool|
    ensures forall i :: 0 <= i < |r| ==> r[i] == Ranked(pool[i], Score(base, pool[i], decay))
  {
    seq(|pool|, i requires 0 <= i < |pool| => Ranked(pool[i], Score(base, pool[i], decay)))
  }

  /** Every row kept from the scored pool is a pool row with its own score. */
  lemma TopScoredRows(base: Case, pool: seq<Candidate>, decay: nat -> real, topK: int)
    ensures var r := TopK(ScoreAll(base, pool, decay), ScoreOf, topK);
      forall k :: 0 <= k < |r| ==> r[k].cand in pool && r[k].score == Score(base, r[k].cand, decay)
  {
    var scored := ScoreAll(base, pool, decay);
    var r := TopK(scored, ScoreOf, topK);
    forall k | 0 <= k < |r|
      ensures r[k].cand in pool && r[k].score == Score(base, r[k].cand, decay)
    {
      assert r[k] in multiset(r);
      assert r[k] in scored;
      var i :| 0 <= i < |scored| && scored[i] == r[k];
      assert pool[i] == r[k].cand;
    }
  }

  /** The ranker keeps its own copy of the case table and the decay of the day gap. */
  datatype SuspectRanker = SuspectRanker(table: seq<Case>, decay: nat -> real)
  {
    /**
      `rank_suspects`: empty when the pool is empty or the base id is not in the table;
      otherwise pool rows each with their score against the first table row carrying the id,
      highest score first, and as many as `head(topK)` keeps of the pool: min(topK, pool size)
      for a non-negative `topK`.
    */
    function RankSuspects(baseId: int, candidates: seq<Candidate>, topK: int): (r: seq<Ranked>)
      ensures |candidates| == 0 ==> r == []
      ensures FirstIndexOf(table, baseId).None? ==> r == []
      ensures FirstIndexOf(table, baseId).Some? ==>
        forall k :: 0 <= k < |r| ==> r[k].score == Score(table[FirstIndexOf(table, baseId).value], r[k].cand, decay)
      ensures forall k :: 0 <= k < |r| ==> r[k].cand in candidates
      ensures NonIncreasing(r, ScoreOf)
      ensures |r| <= |candidates| && (topK >= 0 ==> |r| <= topK)
      ensures |candidates| > 0 && FirstIndexOf(table, baseId).Some? ==>
        |r| == if topK >= 0 then (if topK < |candidates| then topK else |candidates|)
               else (if |candidates| + topK > 0 then |candidates| + topK else 0)
    {
      if |candidates| == 0 then []
      else match FirstIndexOf(table, baseId)
        case None => []
        case Some(b) =>
          TopScoredRows(table[b], candidates, decay, topK);
          TopK(ScoreAll(table[b], candidates, decay), ScoreOf, topK)
    }

    /**
      What the ranking keeps of the scored pool: each scored row at most as often as the pool
      holds it, all of them when `topK` covers the pool, and no scored row left out has a higher
      score than a row kept.
    */
    lemma RankSuspectsSelection(baseId: int, candidates: seq<Candidate>, topK: int)
      requires |candidates| > 0 && FirstIndexOf(table, baseId).Some?
      ensures var scored := ScoreAll(table[FirstIndexOf(table, baseId).value], candidates, decay);
        var r := RankSuspects(baseId, candidates, topK);
        multiset(r) <= multiset(scored) &&
        (topK >= |candidates| ==> multiset(r) == multiset(scored)) &&
        forall x, y :: x in multiset(scored) - multiset(r) && y in r ==> x.score <= y.score
    {
    }

    /** With similarities in [0,1] and a proper decay, every ranked score lies in [0,1]. */
    lemma RankedScoresBounded(baseId: int, candidates: seq<Candidate>, topK: int)
      requires IsDecay(decay)
      requires forall i :: 0 <= i < |candidates| ==> 0.0 <= TextScore(candidates[i]) <= 1.0
      ensures forall k :: 0 <= k < |RankSuspects(baseId, candidates, topK)| ==>
        0.0 <= RankSuspects(baseId, candidates, topK)[k].score <= 1.0
    {
      var r := RankSuspects(baseId, candidates, topK);
      forall k | 0 <= k < |r|
        ensures 0.0 <= r[k].score <= 1.0
      {
        var b := FirstIndexOf(table, baseId).value;
        var c := r[k].cand;
        var i :| 0 <= i < |candidates| && candidates[i] == c;
        assert 0.0 <= decay(DayGap(c.row.day, table[b].day)) <= 1.0;
      }
    }
  }

  /** The output of the similarity search used as a candidate pool: every row carries its similarity. */
  function ToPool(results: seq<Similarity.Scored>): (r: seq<Candidate>)
    ensures |r| == |results|
    ensures forall i :: 0 <= i < |r| ==> r[i].row == results[i].row && TextScore(r[i]) == results[i].similarity
  {
    seq(|results|, i requires 0 <= i < |results| => Candidate(results[i].row, Some(results[i].similarity)))
  }

  /**
    Ranking the result of a similarity search (as the dashboard does) gives scores in [0,1]
    whenever the decay is proper.
  */
  lemma PipelineScoresBounded(engine: Similarity.SimilarityEngine, ranker: SuspectRanker,
                              caseId: int, simTopK: int, city: Option<string>, weapon: Option<string>, topK: int)
    requires engine.Valid() && IsDecay(ranker.decay)
    ensures var pool := ToPool(engine.GetSimilarCases(caseId, simTopK, city, weapon));
      forall k :: 0 <= k < |ranker.RankSuspects(caseId, pool, topK)| ==>
        0.0 <= ranker.RankSuspects(caseId, pool, topK)[k].score <= 1.0
  {
    var pool := ToPool(engine.GetSimilarCases(caseId, simTopK, city, weapon));
    ranker.RankedScoresBounded(caseId, pool, topK);
  }
}
