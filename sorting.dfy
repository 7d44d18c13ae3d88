/**
  The three data-frame steps that both queries end with: a boolean-mask row filter,
  `sort_values(..., ascending=False)` and `head(n)`.
  pandas sorts with an unstable quicksort by default, so nothing here promises an order
  among rows with equal keys: the model sorts by stable insertion, but every contract
  speaks only of non-increasing keys and of the multiset of rows.
*/
module Sorting {

  /** Keys never increase from left to right. */
  predicate NonIncreasing<T>(s: seq<T>, key: T -> real)
  {
    forall i, j :: 0 <= i < j < |s| ==> key(s[j]) <= key(s[i])
  }

  /** The rows of `s` that satisfy `keep`, in their original order (a boolean mask). */
  function Filter<T(!new)>(s: seq<T>, keep: T -> bool): (r: seq<T>)
    ensures |r| <= |s|
    ensures forall x :: multiset(r)[x] == if keep(x) then multiset(s)[x] else 0
  {
    if s == [] then []
    else
      assert s == [s[0]] + s[1..];
      (if keep(s[0]) then [s[0]] else []) + Filter(s[1..], keep)
  }

  /** Filtering commutes with concatenation, so the kept rows keep their relative order. */
  lemma {:induction false} FilterConcat<T(!new)>(a: seq<T>, b: seq<T>, keep: T -> bool)
    ensures Filter(a + b, keep) == Filter(a, keep) + Filter(b, keep)
  {
    if a == [] {
      assert a + b == b;
    } else {
      assert (a + b)[1..] == a[1..] + b;
      FilterConcat(a[1..], b, keep);
    }
  }

  /** Places `x` into a non-increasing sequence, before the first element whose key is not larger. */
  function Insert<T>(x: T, s: seq<T>, key: T -> real): (r: seq<T>)
    requires NonIncreasing(s, key)
    ensures NonIncreasing(r, key)
    ensures multiset(r) == multiset(s) + multiset{x}
    ensures r[0] == x || r[0] == s[0]
  {
    if s == [] || key(s[0]) <= key(x) then
      PrependSorted(x, s, key);
      [x] + s
    else
      var rest := Insert(x, s[1..], key);
      assert s == [s[0]] + s[1..];
      PrependSorted(s[0], rest, key);
      [s[0]] + rest
  }

  /** Putting an element with a key at least the first one's in front keeps a sequence non-increasing. */
  lemma PrependSorted<T>(h: T, t: seq<T>, key: T -> real)
    requires NonIncreasing(t, key) && (t == [] || key(t[0]) <= key(h))
    ensures NonIncreasing([h] + t, key)
  {
    var r := [h] + t;
    forall i, j | 0 <= i < j < |r|
      ensures key(r[j]) <= key(r[i])
    {
      if i == 0 {
        assert r[j] == t[j - 1];
      } else {
        assert r[i] == t[i - 1] && r[j] == t[j - 1];
      }
    }
  }

  /** `sort_values(key, ascending=False)`: a permutation of `s` in non-increasing key order. */
  function SortDesc<T>(s: seq<T>, key: T -> real): (r: seq<T>)
    ensures NonIncreasing(r, key)
    ensures multiset(r) == multiset(s)
  {
    if s == [] then []
    else
      assert s == [s[0]] + s[1..];
      Insert(s[0], SortDesc(s[1..], key), key)
  }

  /** pandas `head(n)`: the first `n` rows; a negative `n` drops the last `-n` rows instead. */
  function Head<T>(s: seq<T>, n: int): (r: seq<T>)
    ensures n >= 0 ==> |r| == if n < |s| then n else |s|
    ensures n < 0 ==> |r| == if |s| + n > 0 then |s| + n else 0
    ensures r == s[..|r|]
  {
    if n >= 0 then (if n < |s| then s[..n] else s)
    else if |s| + n > 0 then s[..|s| + n]
    else []
  }

  /** Every element after a cut of a non-increasing sequence has a key no larger than any element before it. */
  lemma {:induction false} CutBelowPrefix<T>(t: seq<T>, m: nat, key: T -> real)
    requires m <= |t| && NonIncreasing(t, key)
    ensures multiset(t) - multiset(t[..m]) == multiset(t[m..])
    ensures forall x, y :: x in multiset(t[m..]) && y in t[..m] ==> key(x) <= key(y)
  {
    assert t == t[..m] + t[m..];
    forall x, y | x in multiset(t[m..]) && y in t[..m]
      ensures key(x) <= key(y)
    {
      var j :| 0 <= j < |t[m..]| && t[m..][j] == x;
      var i :| 0 <= i < m && t[..m][i] == y;
      assert t[i] == y && t[m + j] == x;
    }
  }

  /** A prefix of a non-increasing sequence is non-increasing, and its multiset is part of the whole. */
  lemma PrefixOfSorted<T>(t: seq<T>, m: nat, key: T -> real)
    requires m <= |t| && NonIncreasing(t, key)
    ensures NonIncreasing(t[..m], key)
    ensures multiset(t[..m]) <= multiset(t)
  {
    assert t == t[..m] + t[m..];
  }

  /**
    `sort_values(ascending=False).head(n)`: the result is in non-increasing key order, is drawn
    from `s`, keeps exactly as many rows as `head(n)` keeps of `s` (min(n, |s|) for `n >= 0`),
    keeps every row when `s` has at most `n`, and no row left out has a larger key than a row kept.
  */
  function TopK<T(!new)>(s: seq<T>, key: T -> real, n: int): (r: seq<T>)
    ensures NonIncreasing(r, key)
    ensures multiset(r) <= multiset(s)
    ensures |r| <= |s| && (n >= 0 ==> |r| <= n)
    ensures n >= 0 ==> |r| == if n < |s| then n else |s|
    ensures n < 0 ==> |r| == if |s| + n > 0 then |s| + n else 0
    ensures n >= |s| ==> multiset(r) == multiset(s)
    ensures forall x, y :: x in multiset(s) - multiset(r) && y in r ==> key(x) <= key(y)
  {
    var t := SortDesc(s, key);
    assert |t| == |s| by { assert |multiset(t)| == |multiset(s)|; }
    var r := Head(t, n);
    assert r == t[..|r|];
    PrefixOfSorted(t, |r|, key);
    CutBelowPrefix(t, |r|, key);
    r
  }

  /** A sequence without repeated elements holds each value at most once. */
  lemma {:induction false} DistinctCount<T(!new)>(s: seq<T>)
    requires forall i, j :: 0 <= i < j < |s| ==> s[i] != s[j]
    ensures forall x :: multiset(s)[x] <= 1
  {
    if s != [] {
      DistinctCount(s[1..]);
      assert s == [s[0]] + s[1..];
      assert s[0] !in s[1..];
    }
  }

  /** A value found at two positions is held at least twice. */
  lemma RepeatCount<T>(s: seq<T>, i: nat, j: nat)
    requires i < j < |s| && s[i] == s[j]
    ensures multiset(s)[s[i]] >= 2
  {
    assert s == s[..j] + [s[j]] + s[j + 1..];
    assert s[i] in s[..j];
  }
}
