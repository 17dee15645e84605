/** Finite samples of reals and the statistics the pipeline takes of them:
    sums, means, extremes, sorting, and pandas' NaN-skipping mean. */
module Samples {

  /** A float as pandas reports it: a real number, or NaN (the mean or
      quantile of an empty row). */
  datatype Float = Num(value: real) | NaN

  lemma MulPositive(a: real, b: real)
    requires a > 0.0 && b > 0.0
    ensures a * b > 0.0
  {
  }

  lemma MulNonNegative(a: real, b: real)
    requires a >= 0.0 && b >= 0.0
    ensures a * b >= 0.0
  {
  }

  /** Multiplying an inequality by a non-negative factor keeps it. */
  lemma MulMonotone(a: real, b: real, c: real)
    requires a >= 0.0 && b <= c
    ensures a * b <= a * c
  {
  }

  /** Multiplying an inequality between naturals by a natural keeps it. */
  lemma MulMonotoneNat(n: nat, a: nat, b: nat)
    requires a <= b
    ensures a * n <= b * n
  {
  }

  function Sum(s: seq<real>): real
  {
    if |s| == 0 then 0.0 else Sum(s[..|s| - 1]) + s[|s| - 1]
  }

  /** The arithmetic mean: the value whose |s|-fold multiple is the sum. */
  function Mean(s: seq<real>): (m: real)
    requires |s| > 0
    ensures m * (|s| as real) == Sum(s)
  {
    Sum(s) / (|s| as real)
  }

  function Min(s: seq<real>): (m: real)
    requires |s| > 0
    ensures m in s
    ensures forall i :: 0 <= i < |s| ==> m <= s[i]
  {
    if |s| == 1 then s[0]
    else
      var rest := Min(s[..|s| - 1]);
      if s[|s| - 1] < rest then s[|s| - 1] else rest
  }

  function Max(s: seq<real>): (m: real)
    requires |s| > 0
    ensures m in s
    ensures forall i :: 0 <= i < |s| ==> s[i] <= m
  {
    if |s| == 1 then s[0]
    else
      var rest := Max(s[..|s| - 1]);
      if s[|s| - 1] > rest then s[|s| - 1] else rest
  }

  /** Dropping the last element of a prefix gives the shorter prefix. */
  lemma SumOfPrefix(s: seq<real>, k: nat)
    requires k < |s|
    ensures Sum(s[..k + 1]) == Sum(s[..k]) + s[k]
  {
    assert s[..k + 1][..k] == s[..k];
  }

  /** A sample inside [lo, hi] sums to between |s|·lo and |s|·hi. */
  lemma {:induction false} SumBetween(s: seq<real>, lo: real, hi: real)
    requires forall i :: 0 <= i < |s| ==> lo <= s[i] <= hi
    ensures (|s| as real) * lo <= Sum(s) <= (|s| as real) * hi
  {
    if |s| > 0 {
      var init := s[..|s| - 1];
      var n := |init| as real;
      SumBetween(init, lo, hi);
      assert (|s| as real) * lo == n * lo + lo;
      assert (|s| as real) * hi == n * hi + hi;
    }
  }

  /** A sum of non-negative terms is non-negative. */
  lemma SumNonNegative(s: seq<real>)
    requires forall i :: 0 <= i < |s| ==> s[i] >= 0.0
    ensures Sum(s) >= 0.0
  {
    var hi := if |s| == 0 then 0.0 else Max(s);
    SumBetween(s, 0.0, hi);
  }

  /** A sum of zeros is zero. */
  lemma SumZero(s: seq<real>)
    requires forall i :: 0 <= i < |s| ==> s[i] == 0.0
    ensures Sum(s) == 0.0
  {
    SumBetween(s, 0.0, 0.0);
  }

  /** Termwise domination carries over to the sums. */
  lemma {:induction false} SumMonotone(a: seq<real>, b: seq<real>)
    requires |a| == |b|
    requires forall i :: 0 <= i < |a| ==> a[i] <= b[i]
    ensures Sum(a) <= Sum(b)
  {
    if |a| > 0 {
      SumMonotone(a[..|a| - 1], b[..|b| - 1]);
    }
  }

  /** The mean of a sample inside [lo, hi] lies inside [lo, hi]. */
  lemma MeanBetween(s: seq<real>, lo: real, hi: real)
    requires |s| > 0
    requires forall i :: 0 <= i < |s| ==> lo <= s[i] <= hi
    ensures lo <= Mean(s) <= hi
  {
    var n := |s| as real;
    var m := Mean(s);
    SumBetween(s, lo, hi);
    assert n * (m - lo) >= 0.0;
    assert n * (hi - m) >= 0.0;
  }

  /** The mean lies between the sample's minimum and maximum. */
  lemma MeanWithinRange(s: seq<real>)
    requires |s| > 0
    ensures Min(s) <= Mean(s) <= Max(s)
  {
    MeanBetween(s, Min(s), Max(s));
  }

  ghost predicate Sorted(s: seq<real>) {
    forall i, j :: 0 <= i <= j < |s| ==> s[i] <= s[j]
  }

  /** A lower bound of every element of s and of x bounds every element of a
      sequence holding exactly s's elements and x. */
  lemma LowerBoundOfPermutation(t: seq<real>, s: seq<real>, x: real, lo: real)
    requires multiset(t) == multiset(s) + multiset{x}
    requires lo <= x
    requires forall k :: 0 <= k < |s| ==> lo <= s[k]
    ensures forall k :: 0 <= k < |t| ==> lo <= t[k]
  {
    forall k | 0 <= k < |t|
      ensures lo <= t[k]
    {
      assert t[k] in multiset(t);
      if t[k] != x {
        assert t[k] in multiset(s);
        var j :| 0 <= j < |s| && s[j] == t[k];
      }
    }
  }

  /** A sorted sequence stays sorted under a head no larger than its
      elements. */
  lemma ConsSorted(h: real, t: seq<real>)
    requires Sorted(t)
    requires forall k :: 0 <= k < |t| ==> h <= t[k]
    ensures Sorted([h] + t)
  {
    var r := [h] + t;
    forall i, j | 0 <= i <= j < |r|
      ensures r[i] <= r[j]
    {
      if i > 0 {
        assert r[i] == t[i - 1] && r[j] == t[j - 1];
      } else if j > 0 {
        assert r[j] == t[j - 1];
      }
    }
  }

  function Insert(x: real, s: seq<real>): (r: seq<real>)
    requires Sorted(s)
    ensures Sorted(r)
    ensures multiset(r) == multiset(s) + multiset{x}
  {
    if |s| == 0 then [x]
    else if x <= s[0] then ConsSorted(x, s); [x] + s
    else
      var tail := Insert(x, s[1..]);
      assert s == [s[0]] + s[1..];
      LowerBoundOfPermutation(tail, s[1..], x, s[0]);
      ConsSorted(s[0], tail);
      [s[0]] + tail
  }

  /** Insertion sort: an ascending permutation of the sample. */
  function Sort(s: seq<real>): (r: seq<real>)
    ensures Sorted(r)
    ensures multiset(r) == multiset(s)
  {
    if |s| == 0 then []
    else
      assert s == s[..|s| - 1] + [s[|s| - 1]];
      Insert(s[|s| - 1], Sort(s[..|s| - 1]))
  }

  /** The first and last order statistics are the sample's minimum and
      maximum. */
  lemma {:induction false} SortedEnds(s: seq<real>)
    requires |s| > 0
    ensures |Sort(s)| == |s|
    ensures Sort(s)[0] == Min(s)
    ensures Sort(s)[|s| - 1] == Max(s)
  {
    var r := Sort(s);
    assert |r| == |multiset(r)| == |multiset(s)| == |s|;
    forall x | x in r
      ensures x in s
    {
      assert x in multiset(r);
    }
    forall x | x in s
      ensures x in r
    {
      assert x in multiset(s);
    }
    var lo := Min(s);
    var hi := Max(s);
    assert lo in r;
    assert hi in r;
    var i :| 0 <= i < |r| && r[i] == lo;
    var j :| 0 <= j < |r| && r[j] == hi;
    assert r[0] in s;
    assert r[|r| - 1] in s;
    assert r[0] <= r[i];
    assert r[j] <= r[|r| - 1];
  }

  /** The real values of a float sample, NaNs skipped, order kept. */
  function Present(s: seq<Float>): (r: seq<real>)
    ensures |r| <= |s|
    ensures forall j :: 0 <= j < |r| ==> Num(r[j]) in s
    ensures |r| == 0 <==> forall i :: 0 <= i < |s| ==> s[i].NaN?
  {
    if |s| == 0 then []
    else
      var init := Present(s[..|s| - 1]);
      assert forall i :: 0 <= i < |s| - 1 ==> s[..|s| - 1][i] == s[i];
      if s[|s| - 1].Num? then init + [s[|s| - 1].value] else init
  }

  /** Skipping NaNs keeps every number: v occurs among the present values
      exactly as often as Num(v) occurs in the sample. */
  lemma {:induction false} PresentCounts(s: seq<Float>, v: real)
    ensures multiset(Present(s))[v] == multiset(s)[Num(v)]
  {
    if |s| > 0 {
      var init := s[..|s| - 1];
      var last := s[|s| - 1];
      PresentCounts(init, v);
      assert s == init + [last];
      assert multiset(s) == multiset(init) + multiset{last};
      if last.Num? {
        assert Present(s) == Present(init) + [last.value];
        assert multiset(Present(s)) == multiset(Present(init)) + multiset{last.value};
      }
    }
  }

  /** A sample of plain numbers, as floats. */
  function Numbers(ee: seq<real>): (r: seq<Float>)
    ensures |r| == |ee|
    ensures forall i :: 0 <= i < |ee| ==> r[i] == Num(ee[i])
  {
    seq(|ee|, i requires 0 <= i < |ee| => Num(ee[i]))
  }

  /** Without NaNs, skipping NaNs keeps every value. */
  lemma {:induction false} PresentOfNumbers(s: seq<Float>)
    requires forall i :: 0 <= i < |s| ==> s[i].Num?
    ensures |Present(s)| == |s|
    ensures forall i :: 0 <= i < |s| ==> Present(s)[i] == s[i].value
  {
    if |s| > 0 {
      PresentOfNumbers(s[..|s| - 1]);
    }
  }

  /** Skipping NaNs in a sample of plain numbers gives the numbers back. */
  lemma PresentOfPlainNumbers(ee: seq<real>)
    ensures Present(Numbers(ee)) == ee
  {
    PresentOfNumbers(Numbers(ee));
  }

  /** pandas' `mean` with `skipna`: the mean of the non-NaN entries, and
      NaN when there are none. */
  function NanMean(s: seq<Float>): (m: Float)
    ensures m.NaN? <==> forall i :: 0 <= i < |s| ==> s[i].NaN?
  {
    var r := Present(s);
    if |r| == 0 then NaN else Num(Mean(r))
  }

  /** When every entry that is a number lies in [lo, hi], so does the
      NaN-skipping mean. */
  lemma NanMeanBetween(s: seq<Float>, lo: real, hi: real)
    requires forall i :: 0 <= i < |s| && s[i].Num? ==> lo <= s[i].value <= hi
    ensures NanMean(s).Num? ==> lo <= NanMean(s).value <= hi
  {
    var r := Present(s);
    if |r| > 0 {
      forall j | 0 <= j < |r|
        ensures lo <= r[j] <= hi
      {
        assert Num(r[j]) in s;
      }
      MeanBetween(r, lo, hi);
    }
  }
}
