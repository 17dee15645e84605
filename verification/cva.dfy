/** The credit valuation engine: flat discounting, per-interval default
    probabilities from a flat hazard rate, and the CVA sum
    (1 - R) · Σ EE(t_i) · PD(t_i) · DF(t_i). */
module Cva {
  import opened Elementary
  import opened Samples
  import opened Results

  /** Probability of surviving to time t under the flat hazard rate h. */
  function Survival(f: Functions, h: real, t: real): real {
    f.exp(-h * t)
  }

  /** Probability of defaulting in the i-th interval of the grid: survival
      to its start (certain survival before the first grid point) less
      survival to its end. */
  function IntervalDefault(f: Functions, h: real, times: seq<real>, i: nat): real
    requires i < |times|
  {
    (if i == 0 then 1.0 else Survival(f, h, times[i - 1])) - Survival(f, h, times[i])
  }

  /** Discount factor to time t at the flat continuously compounded rate. */
  function Discount(f: Functions, rate: real, t: real): real {
    f.exp(-rate * t)
  }

  ghost predicate NonDecreasing(times: seq<real>) {
    forall i, j :: 0 <= i <= j < |times| ==> times[i] <= times[j]
  }

  /** A time grid as the pipeline builds it: non-empty, starting at or after
      time 0, and non-decreasing. */
  ghost predicate Grid(times: seq<real>) {
    |times| > 0 && times[0] >= 0.0 && NonDecreasing(times)
  }

  /** `discount_factors`: one factor exp(-rate · t) per time point, each
      positive. */
  function DiscountFactors(f: Functions, times: seq<real>, rate: real): (df: seq<real>)
    ensures |df| == |times|
    ensures forall i :: 0 <= i < |times| ==> df[i] == f.exp(-rate * times[i])
    ensures Lawful(f) ==> forall i :: 0 <= i < |times| ==> df[i] > 0.0
  {
    var df := seq(|times|, i requires 0 <= i < |times| => Discount(f, rate, times[i]));
    assert Lawful(f) ==> forall i :: 0 <= i < |times| ==> df[i] > 0.0 by {
      if Lawful(f) {
        forall i | 0 <= i < |times|
          ensures df[i] > 0.0
        {
          ExpPositive(f, -rate * times[i]);
          assert df[i] == Discount(f, rate, times[i]);
        }
      }
    }
    df
  }

  /** With a zero rate nothing is discounted. */
  lemma DiscountAtZeroRate(f: Functions, times: seq<real>)
    requires Lawful(f)
    ensures forall i :: 0 <= i < |times| ==> DiscountFactors(f, times, 0.0)[i] == 1.0
  {
    var df := DiscountFactors(f, times, 0.0);
    forall i | 0 <= i < |times|
      ensures df[i] == 1.0
    {
      assert -0.0 * times[i] == 0.0;
    }
  }

  /** With a non-negative rate, factors at non-negative times lie in (0, 1]. */
  lemma DiscountWithinUnit(f: Functions, times: seq<real>, rate: real)
    requires Lawful(f)
    requires rate >= 0.0
    requires forall i :: 0 <= i < |times| ==> times[i] >= 0.0
    ensures forall i :: 0 <= i < |times| ==> 0.0 < DiscountFactors(f, times, rate)[i] <= 1.0
  {
    forall i | 0 <= i < |times|
      ensures DiscountFactors(f, times, rate)[i] <= 1.0
    {
      MulNonNegative(rate, times[i]);
      ExpOfNonPositive(f, -rate * times[i]);
    }
  }

  /** `default_probabilities`: the survival curve shifted down one place
      with 1 filled in at the front, minus the survival curve. An empty time
      index is refused (the fill writes position 0). */
  function DefaultProbabilities(f: Functions, times: seq<real>, h: real): (pd: Result<seq<real>>)
    ensures pd.Ok? <==> |times| > 0
    ensures pd.Err? ==> pd.fault == IndexOutOfRange
    ensures pd.Ok? ==> |pd.value| == |times|
    ensures pd.Ok? ==> pd.value[0] == 1.0 - Survival(f, h, times[0])
    ensures pd.Ok? ==> forall i :: 1 <= i < |times| ==>
      pd.value[i] == Survival(f, h, times[i - 1]) - Survival(f, h, times[i])
  {
    if |times| == 0 then Err(IndexOutOfRange)
    else
      var survival := seq(|times|, i requires 0 <= i < |times| => Survival(f, h, times[i]));
      var shifted := [1.0] + survival[..|survival| - 1];
      Ok(seq(|times|, i requires 0 <= i < |times| => shifted[i] - survival[i]))
  }

  /** At a grid starting at time 0 the first interval carries no default
      mass. */
  lemma FirstDefaultMassAtTimeZero(f: Functions, times: seq<real>, h: real)
    requires Lawful(f)
    requires |times| > 0 && times[0] == 0.0
    ensures DefaultProbabilities(f, times, h).value[0] == 0.0
  {
    assert -h * 0.0 == 0.0;
  }

  lemma {:induction false} PrefixTelescopes(f: Functions, times: seq<real>, h: real, pd: seq<real>, k: nat)
    requires |times| > 0
    requires pd == DefaultProbabilities(f, times, h).value
    requires 1 <= k <= |times|
    ensures Sum(pd[..k]) == 1.0 - Survival(f, h, times[k - 1])
  {
    SumOfPrefix(pd, k - 1);
    if k == 1 {
      assert pd[..0] == [];
    } else {
      PrefixTelescopes(f, times, h, pd, k - 1);
    }
  }

  /** The default masses telescope: together they are the probability of
      defaulting by the last grid point, 1 - S(t_last), not 1. */
  lemma DefaultMassTelescopes(f: Functions, times: seq<real>, h: real)
    requires |times| > 0
    ensures Sum(DefaultProbabilities(f, times, h).value) == 1.0 - Survival(f, h, times[|times| - 1])
  {
    var pd := DefaultProbabilities(f, times, h).value;
    PrefixTelescopes(f, times, h, pd, |times|);
    assert pd[..|pd|] == pd;
  }

  /** Under h >= 0 survival is a probability, and it does not rise between
      ordered non-negative times. */
  lemma SurvivalFalls(f: Functions, h: real, s: real, t: real)
    requires Lawful(f)
    requires h >= 0.0 && 0.0 <= s <= t
    ensures 0.0 < Survival(f, h, t) <= Survival(f, h, s) <= 1.0
  {
    MulNonNegative(h, s);
    MulMonotone(h, s, t);
    ExpOfNonPositive(f, -h * s);
    ExpOfNonPositive(f, -h * t);
    ExpMonotone(f, -h * t, -h * s);
  }

  /** With h >= 0 on a grid, every default mass is a probability below 1. */
  lemma DefaultMassBounded(f: Functions, times: seq<real>, h: real, i: nat)
    requires Lawful(f)
    requires Grid(times) && i < |times|
    requires h >= 0.0
    ensures 0.0 <= DefaultProbabilities(f, times, h).value[i] < 1.0
  {
    if i == 0 {
      SurvivalFalls(f, h, times[0], times[0]);
    } else {
      SurvivalFalls(f, h, times[i - 1], times[i]);
    }
  }

  /** With h >= 0 on a grid, every default mass is a probability below 1. */
  lemma DefaultProbabilitiesBounded(f: Functions, times: seq<real>, h: real)
    requires Lawful(f)
    requires Grid(times)
    requires h >= 0.0
    ensures forall i :: 0 <= i < |times| ==> 0.0 <= DefaultProbabilities(f, times, h).value[i] < 1.0
  {
    forall i | 0 <= i < |times|
      ensures 0.0 <= DefaultProbabilities(f, times, h).value[i] < 1.0
    {
      DefaultMassBounded(f, times, h, i);
    }
  }

  /** One term of the CVA sum. pandas propagates a NaN exposure into the
      product and its sum skips NaN, so a NaN exposure contributes nothing. */
  function Weighted(e: Float, pd: real, df: real): real {
    match e
    case Num(v) => Contribution(v, pd, df)
    case NaN => 0.0
  }

  /** Exposure × default mass × discount factor. */
  function Contribution(e: real, mass: real, discount: real): real {
    e * mass * discount
  }

  /** `compute_cva`: (1 - recovery) times the sum over the grid of exposure
      × default mass × discount factor, the three sequences aligned index by
      index. Fails exactly when the time index is empty. */
  function ComputeCva(f: Functions, ee: seq<Float>, times: seq<real>, h: real, recovery: real, rate: real): (cva: Result<real>)
    requires |ee| == |times|
    ensures cva.Ok? <==> |times| > 0
    ensures cva.Err? ==> cva.fault == IndexOutOfRange
    ensures cva.Ok? && recovery == 1.0 ==> cva.value == 0.0
  {
    match DefaultProbabilities(f, times, h)
    case Err(e) => Err(e)
    case Ok(pd) =>
      Ok(LossCharge(recovery, Terms(ee, pd, DiscountFactors(f, times, rate))))
  }

  /** Loss given default, 1 - recovery, times the summed expected loss. */
  function LossCharge(recovery: real, w: seq<real>): real {
    (1.0 - recovery) * Sum(w)
  }

  /** The terms of the CVA sum, one per grid point. */
  function Terms(ee: seq<Float>, pd: seq<real>, df: seq<real>): (w: seq<real>)
    requires |ee| == |pd| == |df|
    ensures |w| == |ee|
  {
    seq(|ee|, i requires 0 <= i < |ee| => Weighted(ee[i], pd[i], df[i]))
  }

  /** On a non-empty grid CVA is the loss charge of the terms. */
  lemma CvaIsChargeOfTerms(f: Functions, ee: seq<Float>, times: seq<real>, h: real, recovery: real, rate: real)
    requires |ee| == |times| > 0
    ensures ComputeCva(f, ee, times, h, recovery, rate)
      == Ok(LossCharge(recovery, Terms(ee, DefaultProbabilities(f, times, h).value, DiscountFactors(f, times, rate))))
  {
  }

  /** The terms of the CVA integral written out from the hazard and discount
      model directly: e_i · (S(t_{i-1}) - S(t_i)) · exp(-rate · t_i), with S
      before the grid equal to 1. */
  function IntegralTerms(f: Functions, ee: seq<real>, times: seq<real>, h: real, rate: real): (w: seq<real>)
    requires |ee| == |times|
    ensures |w| == |times|
  {
    seq(|times|, i requires 0 <= i < |times| =>
      Contribution(ee[i], IntervalDefault(f, h, times, i), Discount(f, rate, times[i])))
  }

  /** The CVA integral: loss given default times the sum of its terms. */
  function CvaIntegral(f: Functions, ee: seq<real>, times: seq<real>, h: real, recovery: real, rate: real): real
    requires |ee| == |times|
  {
    LossCharge(recovery, IntegralTerms(f, ee, times, h, rate))
  }

  /** At each grid point the pipeline's product is the integral's term. */
  lemma TermMatchesIntegral(f: Functions, ee: seq<real>, times: seq<real>, h: real, rate: real, i: nat)
    requires |ee| == |times| > 0
    requires i < |times|
    ensures Terms(Numbers(ee), DefaultProbabilities(f, times, h).value, DiscountFactors(f, times, rate))[i]
      == IntegralTerms(f, ee, times, h, rate)[i]
  {
    var pd := DefaultProbabilities(f, times, h).value[i];
    var df := DiscountFactors(f, times, rate)[i];
    var p := IntervalDefault(f, h, times, i);
    var d := Discount(f, rate, times[i]);
    assert pd == p;
    assert df == d;
  }

  /** Term by term, the pipeline's products are the integral's terms. */
  lemma TermsMatchIntegral(f: Functions, ee: seq<real>, times: seq<real>, h: real, rate: real)
    requires |ee| == |times| > 0
    ensures Terms(Numbers(ee), DefaultProbabilities(f, times, h).value, DiscountFactors(f, times, rate))
      == IntegralTerms(f, ee, times, h, rate)
  {
    var a := Terms(Numbers(ee), DefaultProbabilities(f, times, h).value, DiscountFactors(f, times, rate));
    var b := IntegralTerms(f, ee, times, h, rate);
    forall i | 0 <= i < |times|
      ensures a[i] == b[i]
    {
      TermMatchesIntegral(f, ee, times, h, rate, i);
    }
    assert a == b;
  }

  /** On a NaN-free exposure profile the pipeline's CVA is the integral. */
  lemma CvaMatchesIntegral(f: Functions, ee: seq<real>, times: seq<real>, h: real, recovery: real, rate: real)
    requires |ee| == |times| > 0
    ensures ComputeCva(f, Numbers(ee), times, h, recovery, rate) == Ok(CvaIntegral(f, ee, times, h, recovery, rate))
  {
    TermsMatchIntegral(f, ee, times, h, rate);
    CvaIsChargeOfTerms(f, Numbers(ee), times, h, recovery, rate);
    assert ComputeCva(f, Numbers(ee), times, h, recovery, rate).Ok?;
  }

  /** No exposure (every entry zero or NaN) means no CVA, whatever the
      hazard, recovery and discount rates. */
  lemma CvaVanishesWithoutExposure(f: Functions, ee: seq<Float>, times: seq<real>, h: real, recovery: real, rate: real)
    requires |ee| == |times| > 0
    requires forall i :: 0 <= i < |ee| ==> ee[i] == Num(0.0) || ee[i] == NaN
    ensures ComputeCva(f, ee, times, h, recovery, rate) == Ok(0.0)
  {
    var pd := DefaultProbabilities(f, times, h).value;
    var df := DiscountFactors(f, times, rate);
    SumZero(Terms(ee, pd, df));
  }

  lemma WeightedNonNegative(e: Float, pd: real, df: real)
    requires e.Num? ==> e.value >= 0.0
    requires pd >= 0.0 && df >= 0.0
    ensures Weighted(e, pd, df) >= 0.0
  {
    if e.Num? {
      MulNonNegative(e.value, pd);
      MulNonNegative(e.value * pd, df);
    }
  }

  ghost predicate ExposureProfile(ee: seq<Float>) {
    forall i :: 0 <= i < |ee| && ee[i].Num? ==> ee[i].value >= 0.0
  }

  /** Non-negative exposures, default masses and discount factors give a
      non-negative sum of terms. */
  lemma WeightedSumNonNegative(ee: seq<Float>, pd: seq<real>, df: seq<real>)
    requires |ee| == |pd| == |df|
    requires ExposureProfile(ee)
    requires forall i :: 0 <= i < |pd| ==> pd[i] >= 0.0 && df[i] >= 0.0
    ensures Sum(Terms(ee, pd, df)) >= 0.0
  {
    var w := Terms(ee, pd, df);
    forall i | 0 <= i < |w|
      ensures w[i] >= 0.0
    {
      WeightedNonNegative(ee[i], pd[i], df[i]);
    }
    SumNonNegative(w);
  }

  /** Under a non-negative hazard rate on a non-decreasing grid from time 0,
      the sum of terms of a non-negative exposure profile is non-negative. */
  lemma TermSumNonNegative(f: Functions, ee: seq<Float>, times: seq<real>, h: real, rate: real)
    requires Lawful(f)
    requires Grid(times) && |ee| == |times|
    requires ExposureProfile(ee)
    requires h >= 0.0
    ensures Sum(Terms(ee, DefaultProbabilities(f, times, h).value, DiscountFactors(f, times, rate))) >= 0.0
  {
    DefaultProbabilitiesBounded(f, times, h);
    WeightedSumNonNegative(ee, DefaultProbabilities(f, times, h).value, DiscountFactors(f, times, rate));
  }

  /** A non-negative expected loss charged at a recovery rate at most 1 is
      non-negative. */
  lemma ChargeNonNegative(recovery: real, w: seq<real>)
    requires recovery <= 1.0 && Sum(w) >= 0.0
    ensures LossCharge(recovery, w) >= 0.0
  {
    MulNonNegative(1.0 - recovery, Sum(w));
  }

  /** CVA is never negative for a non-negative exposure profile, a recovery
      rate at most 1, a non-negative hazard rate and a non-decreasing grid
      starting at or after time 0. */
  lemma CvaNonNegative(f: Functions, ee: seq<Float>, times: seq<real>, h: real, recovery: real, rate: real)
    requires Lawful(f)
    requires Grid(times) && |ee| == |times|
    requires ExposureProfile(ee)
    requires h >= 0.0 && recovery <= 1.0
    ensures ComputeCva(f, ee, times, h, recovery, rate).value >= 0.0
  {
    TermSumNonNegative(f, ee, times, h, rate);
    CvaIsChargeOfTerms(f, ee, times, h, recovery, rate);
    ChargeNonNegative(recovery, Terms(ee, DefaultProbabilities(f, times, h).value, DiscountFactors(f, times, rate)));
  }

  /** Charging a non-negative expected loss at a higher recovery rate gives
      a smaller charge. */
  lemma ChargeFallsWithRecovery(r1: real, r2: real, w: seq<real>)
    requires Sum(w) >= 0.0 && r1 <= r2
    ensures LossCharge(r2, w) <= LossCharge(r1, w)
  {
    var s := Sum(w);
    MulMonotone(s, 1.0 - r2, 1.0 - r1);
    assert (1.0 - r2) * s == s * (1.0 - r2);
    assert (1.0 - r1) * s == s * (1.0 - r1);
  }

  /** Raising the recovery rate never raises CVA (when the summed expected
      loss is non-negative, as under the conditions of CvaNonNegative). */
  lemma CvaFallsWithRecovery(f: Functions, ee: seq<Float>, times: seq<real>, h: real, r1: real, r2: real, rate: real)
    requires Lawful(f)
    requires Grid(times) && |ee| == |times|
    requires ExposureProfile(ee)
    requires h >= 0.0
    requires r1 <= r2
    ensures ComputeCva(f, ee, times, h, r2, rate).value <= ComputeCva(f, ee, times, h, r1, rate).value
  {
    TermSumNonNegative(f, ee, times, h, rate);
    CvaIsChargeOfTerms(f, ee, times, h, r1, rate);
    CvaIsChargeOfTerms(f, ee, times, h, r2, rate);
    ChargeFallsWithRecovery(r1, r2, Terms(ee, DefaultProbabilities(f, times, h).value, DiscountFactors(f, times, rate)));
  }
}
