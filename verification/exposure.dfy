/** The exposure engine: flooring a portfolio-value surface at zero and
    reducing it, row by row, to expected exposure (EE), its time average
    (EPE) and a quantile profile (PFE). A surface is a DataFrame with one
    row per time point and one column per simulated path. */
module Exposure {
  import opened Samples
  import opened Results

  type Surface = seq<seq<real>>

  /** Every row has the same number of columns, as in any DataFrame. */
  ghost predicate Rectangular(x: Surface) {
    forall t, u :: 0 <= t < |x| && 0 <= u < |x| ==> |x[t]| == |x[u]|
  }

  ghost predicate NonNegative(x: Surface) {
    forall t, p :: 0 <= t < |x| && 0 <= p < |x[t]| ==> x[t][p] >= 0.0
  }

  /** Two surfaces with the same rows and columns. */
  ghost predicate SameShape(x: Surface, y: Surface) {
    |x| == |y| && forall t :: 0 <= t < |x| ==> |x[t]| == |y[t]|
  }

  function ClipAtZero(v: real): real {
    if v >= 0.0 then v else 0.0
  }

  /** `compute_exposure`: `clip(lower=0)`, entry by entry. */
  function ComputeExposure(values: Surface): (e: Surface)
    ensures SameShape(e, values)
    ensures forall t, p :: 0 <= t < |e| && 0 <= p < |e[t]| ==>
      e[t][p] == (if values[t][p] >= 0.0 then values[t][p] else 0.0)
  {
    seq(|values|, t requires 0 <= t < |values| =>
      seq(|values[t]|, p requires 0 <= p < |values[t]| => ClipAtZero(values[t][p])))
  }

  /** Every exposure is non-negative. */
  lemma ExposureNonNegative(values: Surface)
    ensures NonNegative(ComputeExposure(values))
  {
  }

  /** Flooring an already floored surface changes nothing. */
  lemma ExposureIdempotent(values: Surface)
    ensures ComputeExposure(ComputeExposure(values)) == ComputeExposure(values)
  {
    var e := ComputeExposure(values);
    var ee := ComputeExposure(e);
    forall t | 0 <= t < |e|
      ensures ee[t] == e[t]
    {
    }
  }

  /** Flooring leaves a surface alone exactly when it is non-negative. */
  lemma ExposureFixesNonNegative(values: Surface)
    ensures ComputeExposure(values) == values <==> NonNegative(values)
  {
    var e := ComputeExposure(values);
    if NonNegative(values) {
      forall t | 0 <= t < |e|
        ensures e[t] == values[t]
      {
      }
    }
  }

  /** The mean over the paths of one time row, NaN for a row with no paths. */
  function RowMean(row: seq<real>): (m: Float)
    ensures m.Num? <==> |row| > 0
    ensures |row| > 0 ==> m == Num(Mean(row)) && Min(row) <= m.value <= Max(row)
  {
    if |row| == 0 then NaN
    else
      MeanWithinRange(row);
      Num(Mean(row))
  }

  /** `expected_exposure`: one entry per time row, the row's arithmetic mean
      over paths, lying between the row's smallest and largest entry. */
  function ExpectedExposure(x: Surface): (ee: seq<Float>)
    ensures |ee| == |x|
    ensures forall t :: 0 <= t < |x| ==> (ee[t].Num? <==> |x[t]| > 0)
    ensures forall t :: 0 <= t < |x| && |x[t]| > 0 ==>
      ee[t] == Num(Mean(x[t])) && Min(x[t]) <= ee[t].value <= Max(x[t])
  {
    seq(|x|, t requires 0 <= t < |x| => RowMean(x[t]))
  }

  /** On a non-negative surface every EE entry lies in [0, max over paths]. */
  lemma ExpectedExposureBounds(x: Surface)
    requires NonNegative(x)
    ensures forall t :: 0 <= t < |x| && |x[t]| > 0 ==>
      0.0 <= ExpectedExposure(x)[t].value <= Max(x[t])
  {
    var ee := ExpectedExposure(x);
    forall t | 0 <= t < |x| && |x[t]| > 0
      ensures 0.0 <= ee[t].value
    {
      assert Min(x[t]) in x[t];
    }
  }

  /** `expected_positive_exposure`: the NaN-skipping mean of the EE profile,
      NaN only when no row has a path, and never negative on a non-negative
      surface. */
  function ExpectedPositiveExposure(x: Surface): (epe: Float)
    ensures epe.NaN? <==> forall t :: 0 <= t < |x| ==> |x[t]| == 0
    ensures NonNegative(x) && epe.Num? ==> epe.value >= 0.0
  {
    var ee := ExpectedExposure(x);
    assert NonNegative(x) && NanMean(ee).Num? ==> NanMean(ee).value >= 0.0 by {
      if NonNegative(x) {
        ExpectedExposureBounds(x);
        NanMeanBetween(ee, 0.0, MaxEntry(x));
      }
    }
    NanMean(ee)
  }

  /** The largest entry of a surface (0 for an empty one). */
  function MaxEntry(x: Surface): (m: real)
    ensures forall t, p :: 0 <= t < |x| && 0 <= p < |x[t]| ==> x[t][p] <= m
  {
    if |x| == 0 then 0.0
    else
      var rest := MaxEntry(x[..|x| - 1]);
      var last := x[|x| - 1];
      var top := if |last| == 0 then rest else Max(last);
      if top > rest then top else rest
  }

  /** When every time row has at least one path, EPE is the unweighted
      arithmetic mean of the EE profile, each time point weighing the same. */
  lemma EpeIsMeanOfEe(x: Surface)
    requires |x| > 0
    requires forall t :: 0 <= t < |x| ==> |x[t]| > 0
    ensures ExpectedPositiveExposure(x) ==
      Num(Mean(seq(|x|, t requires 0 <= t < |x| => ExpectedExposure(x)[t].value)))
  {
    var ee := ExpectedExposure(x);
    PresentOfNumbers(ee);
    assert Present(ee) == seq(|x|, t requires 0 <= t < |x| => ee[t].value);
  }

  /** For m >= 0 and q in [0, 1], m·q lies in [0, m]. */
  lemma ScaleWithin(m: real, q: real)
    requires m >= 0.0
    requires 0.0 <= q <= 1.0
    ensures 0.0 <= m * q <= m
  {
    MulMonotone(m, q, 1.0);
    MulNonNegative(m, q);
  }

  /** Linear interpolation from a towards b at fraction g. */
  function Lerp(a: real, b: real, g: real): real {
    a + g * (b - a)
  }

  /** Interpolating between a <= b at a fraction g in [0, 1] stays in [a, b]. */
  lemma LerpWithin(a: real, b: real, g: real)
    requires a <= b
    requires 0.0 <= g <= 1.0
    ensures a <= Lerp(a, b, g) <= b
  {
    LerpMonotone(a, b, 0.0, g);
    LerpMonotone(a, b, g, 1.0);
  }

  /** Interpolating towards a higher end point at a larger fraction gives a
      larger value. */
  lemma LerpMonotone(a: real, b: real, g1: real, g2: real)
    requires a <= b
    requires g1 <= g2
    ensures Lerp(a, b, g1) <= Lerp(a, b, g2)
  {
    MulMonotone(b - a, g1, g2);
  }

  /** The virtual index of the linear estimator: level q sits at position
      (n-1)·q of the n order statistics. */
  function VirtualIndex(n: nat, q: real): (h: real)
    requires n > 0
    requires 0.0 <= q <= 1.0
    ensures 0.0 <= h <= (n - 1) as real
  {
    ScaleWithin((n - 1) as real, q);
    (n - 1) as real * q
  }

  /** The order statistic just below the virtual index. */
  function LowerRank(n: nat, q: real): (lo: nat)
    requires n > 0
    requires 0.0 <= q <= 1.0
    ensures lo <= n - 1
    ensures lo as real <= VirtualIndex(n, q) < lo as real + 1.0
  {
    VirtualIndex(n, q).Floor
  }

  /** The order statistic just above the virtual index, clipped to the last. */
  function UpperRank(n: nat, q: real): (hi: nat)
    requires n > 0
    requires 0.0 <= q <= 1.0
    ensures LowerRank(n, q) <= hi <= n - 1
  {
    if LowerRank(n, q) + 1 < n then LowerRank(n, q) + 1 else n - 1
  }

  /** How far the virtual index lies past the lower order statistic. */
  function Fraction(n: nat, q: real): (g: real)
    requires n > 0
    requires 0.0 <= q <= 1.0
    ensures 0.0 <= g < 1.0
  {
    VirtualIndex(n, q) - LowerRank(n, q) as real
  }

  /** The "linear" quantile of sorted order statistics `v` at level `q`
      (numpy/pandas' default): interpolate between the order statistics just
      below and just above the virtual index (n-1)·q. */
  function LinearQuantile(v: seq<real>, q: real): (r: real)
    requires |v| > 0
    requires Sorted(v)
    requires 0.0 <= q <= 1.0
    ensures v[LowerRank(|v|, q)] <= r <= v[UpperRank(|v|, q)]
    ensures v[0] <= r <= v[|v| - 1]
  {
    var lo := LowerRank(|v|, q);
    var hi := UpperRank(|v|, q);
    LerpWithin(v[lo], v[hi], Fraction(|v|, q));
    Lerp(v[lo], v[hi], Fraction(|v|, q))
  }

  /** Level 0 gives the first order statistic and level 1 the last. */
  lemma QuantileEndpoints(v: seq<real>)
    requires |v| > 0
    requires Sorted(v)
    ensures LinearQuantile(v, 0.0) == v[0]
    ensures LinearQuantile(v, 1.0) == v[|v| - 1]
  {
  }

  /** A higher level never has a lower virtual index. */
  lemma VirtualIndexMonotone(n: nat, q1: real, q2: real)
    requires n > 0
    requires 0.0 <= q1 <= q2 <= 1.0
    ensures VirtualIndex(n, q1) <= VirtualIndex(n, q2)
    ensures LowerRank(n, q1) <= LowerRank(n, q2)
  {
    MulMonotone((n - 1) as real, q1, q2);
  }

  /** The linear quantile never decreases as the level rises. */
  lemma QuantileMonotone(v: seq<real>, q1: real, q2: real)
    requires |v| > 0
    requires Sorted(v)
    requires 0.0 <= q1 <= q2 <= 1.0
    ensures LinearQuantile(v, q1) <= LinearQuantile(v, q2)
  {
    var n := |v|;
    VirtualIndexMonotone(n, q1, q2);
    var lo1, lo2 := LowerRank(n, q1), LowerRank(n, q2);
    if lo1 == lo2 {
      LerpMonotone(v[lo1], v[UpperRank(n, q1)], Fraction(n, q1), Fraction(n, q2));
    } else {
      assert UpperRank(n, q1) <= lo2;
    }
  }

  /** The quantile across the paths of one time row, NaN for a row with no
      paths. */
  function RowQuantile(row: seq<real>, q: real): (r: Float)
    requires 0.0 <= q <= 1.0
    ensures r.Num? <==> |row| > 0
    ensures |row| > 0 ==> Min(row) <= r.value <= Max(row)
  {
    if |row| == 0 then NaN
    else
      SortedEnds(row);
      Num(LinearQuantile(Sort(row), q))
  }

  /** `potential_future_exposure`: a level outside [0, 1] is refused;
      otherwise one entry per time row, lying between the row's minimum and
      maximum. */
  function PotentialFutureExposure(x: Surface, q: real): (pfe: Result<seq<Float>>)
    ensures pfe.Ok? <==> 0.0 <= q <= 1.0
    ensures pfe.Err? ==> pfe.fault == QuantileOutOfRange
    ensures pfe.Ok? ==> |pfe.value| == |x|
    ensures pfe.Ok? ==> forall t :: 0 <= t < |x| ==>
      (pfe.value[t].Num? <==> |x[t]| > 0)
    ensures pfe.Ok? ==> forall t :: 0 <= t < |x| && |x[t]| > 0 ==>
      Min(x[t]) <= pfe.value[t].value <= Max(x[t])
  {
    if !(0.0 <= q <= 1.0) then Err(QuantileOutOfRange)
    else Ok(seq(|x|, t requires 0 <= t < |x| => RowQuantile(x[t], q)))
  }

  /** PFE at level 0 is each row's minimum and at level 1 its maximum. */
  lemma PfeEndpoints(x: Surface)
    ensures forall t :: 0 <= t < |x| && |x[t]| > 0 ==>
      PotentialFutureExposure(x, 0.0).value[t] == Num(Min(x[t])) &&
      PotentialFutureExposure(x, 1.0).value[t] == Num(Max(x[t]))
  {
    forall t | 0 <= t < |x| && |x[t]| > 0
      ensures PotentialFutureExposure(x, 0.0).value[t] == Num(Min(x[t]))
      ensures PotentialFutureExposure(x, 1.0).value[t] == Num(Max(x[t]))
    {
      SortedEnds(x[t]);
      QuantileEndpoints(Sort(x[t]));
    }
  }

  /** For every time row, PFE never decreases as the level rises; in
      particular PFE at 0.99 is at least PFE at 0.95. */
  lemma PfeMonotone(x: Surface, q1: real, q2: real)
    requires 0.0 <= q1 <= q2 <= 1.0
    ensures forall t :: 0 <= t < |x| && |x[t]| > 0 ==>
      PotentialFutureExposure(x, q1).value[t].value <= PotentialFutureExposure(x, q2).value[t].value
  {
    forall t | 0 <= t < |x| && |x[t]| > 0
      ensures PotentialFutureExposure(x, q1).value[t].value <= PotentialFutureExposure(x, q2).value[t].value
    {
      SortedEnds(x[t]);
      QuantileMonotone(Sort(x[t]), q1, q2);
    }
  }

  /** On a non-negative surface every PFE entry is non-negative. */
  lemma PfeNonNegative(x: Surface, q: real)
    requires NonNegative(x)
    requires 0.0 <= q <= 1.0
    ensures forall t :: 0 <= t < |x| && |x[t]| > 0 ==>
      PotentialFutureExposure(x, q).value[t].value >= 0.0
  {
    forall t | 0 <= t < |x| && |x[t]| > 0
      ensures PotentialFutureExposure(x, q).value[t].value >= 0.0
    {
      assert Min(x[t]) in x[t];
    }
  }
}
