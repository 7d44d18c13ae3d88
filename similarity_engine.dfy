/**
  Text-similarity search over the case table with optional area and weapon filters.

  The TF-IDF index and the cosine similarities are not modelled: the engine is built from a
  function `cosine` that takes the corpus of narratives and yields the square matrix of
  pairwise similarities, each in [0,1]. Row `b` of that matrix is the similarity vector of
  the base case at position `b`, aligned with the table.
*/
module Similarity {
  import opened Wrappers
  import opened Cases
  import opened Sorting

  /** A result row: its position in the engine's table (the frame's index label), the row itself, and its similarity to the base case. */
  datatype Scored = Scored(pos: nat, row: Case, similarity: real)

  function SimilarityOf(x: Scored): real
  {
    x.similarity
  }

  /** An `n` by `n` matrix of similarities, each in [0,1]. */
  ghost predicate IsSimilarityMatrix(m: seq<seq<real>>, n: nat)
  {
    |m| == n &&
    forall i :: 0 <= i < n ==> |m[i]| == n && forall j :: 0 <= j < n ==> 0.0 <= m[i][j] <= 1.0
  }

  /** `mo_text.fillna("")`: a missing narrative becomes the empty string; nothing else changes. */
  function FillMoText(df: seq<Case>): (r: seq<Case>)
    ensures |r| == |df|
    ensures forall i :: 0 <= i < |r| ==> r[i].moText.Some? && r[i].(moText := df[i].moText) == df[i]
    ensures forall i :: 0 <= i < |r| ==> df[i].moText.Some? ==> r[i] == df[i]
    ensures forall i :: 0 <= i < |r| ==> df[i].moText.None? ==> r[i].moText == Some("")
  {
    seq(|df|, i requires 0 <= i < |df| => if df[i].moText.None? then df[i].(moText := Some("")) else df[i])
  }

  /** The `mo_text` column as the corpus handed to the vectoriser. */
  function Narratives(rows: seq<Case>): (r: seq<string>)
    ensures |r| == |rows|
  {
    seq(|rows|, i requires 0 <= i < |rows| => if rows[i].moText.Some? then rows[i].moText.value else "")
  }

  /** A `city` or `weapon` argument filters only when it is a non-empty string other than "All". */
  predicate Filters(arg: Option<string>)
  {
    arg.Some? && arg.value != "" && arg.value != "All"
  }

  /** The row mask of one filter: `frame[column] == arg` when the argument filters, everything otherwise. */
  predicate Admits(arg: Option<string>, cell: Cell)
  {
    !Filters(arg) || CellEquals(cell, Some(arg.value))
  }

  /** The row survives the removal of the query id and both filters. */
  predicate Passes(c: Case, caseId: int, city: Option<string>, weapon: Option<string>)
  {
    c.drNo != caseId && Admits(city, c.areaName) && Admits(weapon, c.weaponDesc)
  }

  class SimilarityEngine {
    const rows: seq<Case>
    const sims: seq<seq<real>>

    ghost predicate Valid()
    {
      IsSimilarityMatrix(sims, |rows|) &&
      forall i :: 0 <= i < |rows| ==> rows[i].moText.Some?
    }

    /** Keeps a copy of the table with missing narratives filled in, and indexes those narratives. */
    constructor (df: seq<Case>, cosine: seq<string> -> seq<seq<real>>)
      requires IsSimilarityMatrix(cosine(Narratives(FillMoText(df))), |df|)
      ensures rows == FillMoText(df)
      ensures sims == cosine(Narratives(rows))
      ensures Valid()
    {
      rows := FillMoText(df);
      sims := cosine(Narratives(FillMoText(df)));
    }

    /** `_idx_for_case`: the first position whose `dr_no` is the id. */
    function IdxForCase(caseId: int): Option<nat>
    {
      FirstIndexOf(rows, caseId)
    }

    /** The table with the base case's similarity vector attached as a column. */
    function Annotated(base: nat): (r: seq<Scored>)
      requires Valid() && base < |rows|
      ensures |r| == |rows|
      ensures forall i :: 0 <= i < |r| ==> r[i] == Scored(i, rows[i], sims[base][i])
    {
      seq(|rows|, i requires 0 <= i < |rows| => Scored(i, rows[i], sims[base][i]))
    }

    /** The rows left after removing the query id and applying the filters, before sorting. */
    function Candidates(base: nat, caseId: int, city: Option<string>, weapon: Option<string>): seq<Scored>
      requires Valid() && base < |rows|
    {
      Filter(Annotated(base), (x: Scored) => Passes(x.row, caseId, city, weapon))
    }

    /** Every element of a candidate list is an annotated row that passes, and no element repeats. */
    lemma CandidateRows(base: nat, caseId: int, city: Option<string>, weapon: Option<string>, x: Scored)
      requires Valid() && base < |rows|
      requires x in multiset(Candidates(base, caseId, city, weapon))
      ensures x.pos < |rows| && x == Scored(x.pos, rows[x.pos], sims[base][x.pos])
      ensures Passes(x.row, caseId, city, weapon)
      ensures multiset(Candidates(base, caseId, city, weapon))[x] == 1
    {
      var a := Annotated(base);
      DistinctCount(a);
      assert x in a;
    }

    /** A row that passes exclusion and filters is among the candidates, with its similarity. */
    lemma PassingIsCandidate(base: nat, caseId: int, city: Option<string>, weapon: Option<string>, p: nat)
      requires Valid() && base < |rows| && p < |rows| && Passes(rows[p], caseId, city, weapon)
      ensures Scored(p, rows[p], sims[base][p]) in multiset(Candidates(base, caseId, city, weapon))
    {
      var x := Scored(p, rows[p], sims[base][p]);
      assert Annotated(base)[p] == x;
      assert x in multiset(Annotated(base));
    }

    /** A passing row lacks the query id and holds the value of every active filter. */
    static lemma PassesMeans(c: Case, caseId: int, city: Option<string>, weapon: Option<string>)
      requires Passes(c, caseId, city, weapon)
      ensures c.drNo != caseId
      ensures Filters(city) ==> c.areaName == Some(city.value)
      ensures Filters(weapon) ==> c.weaponDesc == Some(weapon.value)
    {
    }

    /** Every row drawn from the candidates is a table row with its own similarity, and it passes exclusion and filters. */
    lemma DrawnRows(base: nat, caseId: int, city: Option<string>, weapon: Option<string>, r: seq<Scored>)
      requires Valid() && base < |rows|
      requires multiset(r) <= multiset(Candidates(base, caseId, city, weapon))
      ensures forall k :: 0 <= k < |r| ==> r[k].pos < |rows| && r[k].row == rows[r[k].pos]
      ensures forall k :: 0 <= k < |r| ==> r[k].row.drNo != caseId
      ensures Filters(city) ==> forall k :: 0 <= k < |r| ==> r[k].row.areaName == Some(city.value)
      ensures Filters(weapon) ==> forall k :: 0 <= k < |r| ==> r[k].row.weaponDesc == Some(weapon.value)
      ensures forall k :: 0 <= k < |r| ==> r[k].similarity == sims[base][r[k].pos]
      ensures forall k :: 0 <= k < |r| ==> 0.0 <= r[k].similarity <= 1.0
    {
      forall k | 0 <= k < |r|
        ensures r[k].pos < |rows| && r[k].row == rows[r[k].pos] && r[k].similarity == sims[base][r[k].pos]
        ensures 0.0 <= r[k].similarity <= 1.0
        ensures r[k].row.drNo != caseId
        ensures Filters(city) ==> r[k].row.areaName == Some(city.value)
        ensures Filters(weapon) ==> r[k].row.weaponDesc == Some(weapon.value)
      {
        assert r[k] in multiset(r);
        CandidateRows(base, caseId, city, weapon, r[k]);
        PassesMeans(r[k].row, caseId, city, weapon);
      }
    }

    /** No table position occurs twice among rows drawn from the candidates. */
    lemma DrawnPositionsDistinct(base: nat, caseId: int, city: Option<string>, weapon: Option<string>, r: seq<Scored>)
      requires Valid() && base < |rows|
      requires multiset(r) <= multiset(Candidates(base, caseId, city, weapon))
      ensures forall i, j :: 0 <= i < j < |r| ==> r[i].pos != r[j].pos
    {
      forall i, j | 0 <= i < j < |r|
        ensures r[i].pos != r[j].pos
      {
        if r[i].pos == r[j].pos {
          assert r[i] in multiset(r) && r[j] in multiset(r);
          CandidateRows(base, caseId, city, weapon, r[i]);
          CandidateRows(base, caseId, city, weapon, r[j]);
          RepeatCount(r, i, j);
          assert false;
        }
      }
    }

    /**
      `get_similar_cases`: empty when the id is unknown; otherwise rows of the table, each at most
      once, none carrying the query id, each matching every active filter, each with the base
      case's similarity to it, in non-increasing similarity, and as many of them as `head(topK)`
      keeps of the surviving rows: min(topK, survivors) for a non-negative `topK`.
    */
    function GetSimilarCases(caseId: int, topK: int, city: Option<string>, weapon: Option<string>): (r: seq<Scored>)
      requires Valid()
      ensures IdxForCase(caseId).None? ==> r == []
      ensures forall k :: 0 <= k < |r| ==> r[k].pos < |rows| && r[k].row == rows[r[k].pos]
      ensures forall k :: 0 <= k < |r| ==> r[k].row.drNo != caseId
      ensures Filters(city) ==> forall k :: 0 <= k < |r| ==> r[k].row.areaName == Some(city.value)
      ensures Filters(weapon) ==> forall k :: 0 <= k < |r| ==> r[k].row.weaponDesc == Some(weapon.value)
      ensures IdxForCase(caseId).Some? ==>
        forall k :: 0 <= k < |r| ==> r[k].similarity == sims[IdxForCase(caseId).value][r[k].pos]
      ensures forall k :: 0 <= k < |r| ==> 0.0 <= r[k].similarity <= 1.0
      ensures forall i, j :: 0 <= i < j < |r| ==> r[i].pos != r[j].pos
      ensures NonIncreasing(r, SimilarityOf)
      ensures topK >= 0 ==> |r| <= topK
      ensures IdxForCase(caseId).Some? ==>
        var n := |Candidates(IdxForCase(caseId).value, caseId, city, weapon)|;
        |r| == if topK >= 0 then (if topK < n then topK else n) else (if n + topK > 0 then n + topK else 0)
    {
      match IdxForCase(caseId)
      case None => []
      case Some(b) =>
        var c := Candidates(b, caseId, city, weapon);
        var r := TopK(c, SimilarityOf, topK);
        DrawnRows(b, caseId, city, weapon, r);
        DrawnPositionsDistinct(b, caseId, city, weapon, r);
        assert b == IdxForCase(caseId).value;
        r
    }

    /**
      Top-k maximality: a row that survives exclusion and filters but is not returned is no more
      similar to the base case than any returned row.
    */
    lemma GetSimilarCasesMaximal(caseId: int, topK: int, city: Option<string>, weapon: Option<string>, p: nat)
      requires Valid() && IdxForCase(caseId).Some?
      requires p < |rows| && Passes(rows[p], caseId, city, weapon)
      requires forall k :: 0 <= k < |GetSimilarCases(caseId, topK, city, weapon)| ==>
        GetSimilarCases(caseId, topK, city, weapon)[k].pos != p
      ensures forall k :: 0 <= k < |GetSimilarCases(caseId, topK, city, weapon)| ==>
        sims[IdxForCase(caseId).value][p] <= GetSimilarCases(caseId, topK, city, weapon)[k].similarity
    {
      var b := IdxForCase(caseId).value;
      var c := Candidates(b, caseId, city, weapon);
      var r := GetSimilarCases(caseId, topK, city, weapon);
      var x := Scored(p, rows[p], sims[b][p]);
      PassingIsCandidate(b, caseId, city, weapon, p);
      assert x !in r;
      assert x in multiset(c) - multiset(r);
      forall k | 0 <= k < |r|
        ensures sims[b][p] <= r[k].similarity
      {
        assert r[k] in r;
      }
    }

    /**
      When no more than `topK` rows survive exclusion and filters, every one of them is returned:
      a position is in the result exactly when its row does not carry the query id and matches
      every active filter.
    */
    lemma GetSimilarCasesComplete(caseId: int, topK: int, city: Option<string>, weapon: Option<string>, p: nat)
      requires Valid() && IdxForCase(caseId).Some?
      requires |Candidates(IdxForCase(caseId).value, caseId, city, weapon)| <= topK
      requires p < |rows|
      ensures (exists k :: 0 <= k < |GetSimilarCases(caseId, topK, city, weapon)| &&
                 GetSimilarCases(caseId, topK, city, weapon)[k].pos == p)
        <==>
        rows[p].drNo != caseId &&
        (Filters(city) ==> rows[p].areaName == Some(city.value)) &&
        (Filters(weapon) ==> rows[p].weaponDesc == Some(weapon.value))
    {
      var r := GetSimilarCases(caseId, topK, city, weapon);
      if k :| 0 <= k < |r| && r[k].pos == p {
        ReturnedPasses(caseId, topK, city, weapon, k);
      }
      if rows[p].drNo != caseId &&
         (Filters(city) ==> rows[p].areaName == Some(city.value)) &&
         (Filters(weapon) ==> rows[p].weaponDesc == Some(weapon.value)) {
        var k := ReturnedAt(caseId, topK, city, weapon, p);
      }
    }

    /** The table row at a returned position lacks the query id and matches every active filter. */
    lemma ReturnedPasses(caseId: int, topK: int, city: Option<string>, weapon: Option<string>, k: nat)
      requires Valid() && k < |GetSimilarCases(caseId, topK, city, weapon)|
      ensures var p := GetSimilarCases(caseId, topK, city, weapon)[k].pos;
        p < |rows| && rows[p].drNo != caseId &&
        (Filters(city) ==> rows[p].areaName == Some(city.value)) &&
        (Filters(weapon) ==> rows[p].weaponDesc == Some(weapon.value))
    {
      var r := GetSimilarCases(caseId, topK, city, weapon);
      assert r[k].row == rows[r[k].pos];
    }

    /** Under the hypothesis of `GetSimilarCasesComplete`, the position of a passing row in the result. */
    lemma ReturnedAt(caseId: int, topK: int, city: Option<string>, weapon: Option<string>, p: nat) returns (k: nat)
      requires Valid() && IdxForCase(caseId).Some?
      requires |Candidates(IdxForCase(caseId).value, caseId, city, weapon)| <= topK
      requires p < |rows| && rows[p].drNo != caseId
      requires Filters(city) ==> rows[p].areaName == Some(city.value)
      requires Filters(weapon) ==> rows[p].weaponDesc == Some(weapon.value)
      ensures k < |GetSimilarCases(caseId, topK, city, weapon)| && GetSimilarCases(caseId, topK, city, weapon)[k].pos == p
    {
      assert Passes(rows[p], caseId, city, weapon);
      var b := IdxForCase(caseId).value;
      var c := Candidates(b, caseId, city, weapon);
      var r := TopK(c, SimilarityOf, topK);
      var x := Scored(p, rows[p], sims[b][p]);
      PassingIsCandidate(b, caseId, city, weapon, p);
      assert x in multiset(r);
      k :| 0 <= k < |r| && r[k] == x;
      assert GetSimilarCases(caseId, topK, city, weapon) == r;
    }
  }
}
