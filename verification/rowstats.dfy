/** Reductions of one row of per-frame values to a single number, as numpy
    computes them along the frame axis. Numbers are modelled as exact reals. */
module RowStatistics {

  type Row = seq<real>

  function Sum(xs: Row): real
  {
    if |xs| == 0 then 0.0 else xs[0] + Sum(xs[1..])
  }

  /** Whether every frame of a non-empty row holds the same value. */
  predicate Constant(xs: Row)
  {
    forall i :: 0 <= i < |xs| ==> xs[i] == xs[0]
  }

  /** Smallest value of a row; numpy refuses an empty row. */
  function Min(xs: Row): (m: real)
    requires |xs| > 0
    ensures m in xs
    ensures forall i :: 0 <= i < |xs| ==> m <= xs[i]
  {
    if |xs| == 1 then xs[0]
    else
      var t := Min(xs[1..]);
      assert forall i :: 1 <= i < |xs| ==> xs[i] == xs[1..][i - 1];
      if xs[0] <= t then xs[0] else t
  }

  /** Largest value of a row; numpy refuses an empty row. */
  function Max(xs: Row): (m: real)
    requires |xs| > 0
    ensures m in xs
    ensures forall i :: 0 <= i < |xs| ==> xs[i] <= m
  {
    if |xs| == 1 then xs[0]
    else
      var t := Max(xs[1..]);
      assert forall i :: 1 <= i < |xs| ==> xs[i] == xs[1..][i - 1];
      if xs[0] >= t then xs[0] else t
  }

  /** A row of values all between `lo` and `hi` sums to between `n * lo` and `n * hi`. */
  lemma {:induction false} SumBounds(xs: Row, lo: real, hi: real)
    requires forall i :: 0 <= i < |xs| ==> lo <= xs[i] <= hi
    ensures (|xs| as real) * lo <= Sum(xs) <= (|xs| as real) * hi
    decreases |xs|
  {
    if |xs| > 0 {
      assert forall i :: 0 <= i < |xs| - 1 ==> xs[1..][i] == xs[i + 1];
      SumBounds(xs[1..], lo, hi);
      assert (|xs| as real) * lo == ((|xs| - 1) as real) * lo + lo;
      assert (|xs| as real) * hi == ((|xs| - 1) as real) * hi + hi;
    }
  }

  lemma SumOfConstant(xs: Row)
    requires |xs| > 0
    ensures Constant(xs) ==> Sum(xs) == (|xs| as real) * xs[0]
  {
    if Constant(xs) {
      SumBounds(xs, xs[0], xs[0]);
    }
  }

  lemma QuotientBounds(s: real, n: real, lo: real, hi: real)
    requires 0.0 < n
    requires n * lo <= s <= n * hi
    ensures lo <= s / n <= hi
    ensures s == n * lo ==> s / n == lo
  {
  }

  /** The average of values between `lo` and `hi` is between `lo` and `hi`. */
  lemma BoundedAverage(xs: Row, lo: real, hi: real)
    requires |xs| > 0
    requires forall i :: 0 <= i < |xs| ==> lo <= xs[i] <= hi
    ensures lo <= Sum(xs) / (|xs| as real) <= hi
  {
    SumBounds(xs, lo, hi);
    QuotientBounds(Sum(xs), |xs| as real, lo, hi);
  }

  /** A constant row averages to its value. */
  lemma AverageOfConstant(xs: Row)
    requires |xs| > 0
    ensures Constant(xs) ==> Sum(xs) / (|xs| as real) == xs[0]
  {
    if Constant(xs) {
      var n, s := |xs| as real, Sum(xs);
      SumOfConstant(xs);
      QuotientBounds(s, n, xs[0], xs[0]);
    }
  }

  /** Arithmetic mean of a row. */
  function Mean(xs: Row): (r: real)
    requires |xs| > 0
    ensures Min(xs) <= r <= Max(xs)
    ensures Constant(xs) ==> r == xs[0]
  {
    BoundedAverage(xs, Min(xs), Max(xs));
    AverageOfConstant(xs);
    Sum(xs) / (|xs| as real)
  }

  predicate Sorted(xs: Row)
  {
    forall i, j :: 0 <= i < j < |xs| ==> xs[i] <= xs[j]
  }

  /** A value below every element of a row and below `x` stays below the row
      with `x` inserted. */
  lemma InsertKeepsLowerBound(lo: real, x: real, xs: Row, r: Row)
    requires lo <= x
    requires forall i :: 0 <= i < |xs| ==> lo <= xs[i]
    requires multiset(r) == multiset(xs) + multiset{x}
    ensures forall k :: 0 <= k < |r| ==> lo <= r[k]
  {
    forall k | 0 <= k < |r|
      ensures lo <= r[k]
    {
      assert r[k] in multiset(r);
      if r[k] != x {
        assert r[k] in multiset(xs);
        var j :| 0 <= j < |xs| && xs[j] == r[k];
      }
    }
  }

  /** Inserts `x` into a sorted row. */
  function Insert(x: real, xs: Row): (r: Row)
    requires Sorted(xs)
    ensures Sorted(r)
    ensures multiset(r) == multiset(xs) + multiset{x}
  {
    if |xs| == 0 then [x]
    else if x <= xs[0] then [x] + xs
    else
      assert xs == [xs[0]] + xs[1..];
      var rest := Insert(x, xs[1..]);
      InsertKeepsLowerBound(xs[0], x, xs[1..], rest);
      [xs[0]] + rest
  }

  /** The row in ascending order: a sorted permutation of it. */
  function SortAscending(xs: Row): (r: Row)
    ensures Sorted(r)
    ensures multiset(r) == multiset(xs)
  {
    if |xs| == 0 then []
    else
      assert xs == [xs[0]] + xs[1..];
      Insert(xs[0], SortAscending(xs[1..]))
  }

  /** Every value of a permutation of a row lies between the row's extremes. */
  lemma PermutationWithinExtremes(xs: Row, s: Row, k: int)
    requires |xs| > 0
    requires multiset(s) == multiset(xs)
    requires 0 <= k < |s|
    ensures Min(xs) <= s[k] <= Max(xs)
    ensures Constant(xs) ==> s[k] == xs[0]
  {
    assert s[k] in multiset(xs);
    var j :| 0 <= j < |xs| && xs[j] == s[k];
  }

  /** Median of a row: the middle value in ascending order, or the average of
      the two middle values when the row has even length. */
  function Median(xs: Row): (r: real)
    requires |xs| > 0
    ensures Min(xs) <= r <= Max(xs)
    ensures Constant(xs) ==> r == xs[0]
  {
    var s := SortAscending(xs);
    var n := |s|;
    assert |s| == |multiset(s)| == |xs|;
    PermutationWithinExtremes(xs, s, n / 2);
    if n % 2 == 1 then s[n / 2]
    else
      PermutationWithinExtremes(xs, s, n / 2 - 1);
      (s[n / 2 - 1] + s[n / 2]) / 2.0
  }

  /** Sum of squared deviations of a row from `mu`. */
  function SquaredDeviations(xs: Row, mu: real): (r: real)
    ensures 0.0 <= r
    ensures (forall i :: 0 <= i < |xs| ==> xs[i] == mu) ==> r == 0.0
  {
    if |xs| == 0 then 0.0
    else
      assert forall i :: 0 <= i < |xs| - 1 ==> xs[1..][i] == xs[i + 1];
      var d := xs[0] - mu;
      assert 0.0 <= d * d;
      d * d + SquaredDeviations(xs[1..], mu)
  }

  /** Population variance (numpy's default, `ddof=0`). */
  function Variance(xs: Row): (r: real)
    requires |xs| > 0
    ensures 0.0 <= r
    ensures Constant(xs) ==> r == 0.0
  {
    SquaredDeviations(xs, Mean(xs)) / (|xs| as real)
  }
}
