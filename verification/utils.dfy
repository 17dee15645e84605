/** Input checks shared by the pipeline: positivity, probability range,
    non-emptiness of a series or a frame, and the series "annualisation"
    (which is its NaN-skipping mean). */
module Utils {
  import opened Results
  import opened Samples
  import opened Exposure
  import opened Elementary
  import opened Cva

  /** `check_positive`: passes exactly for values above 0. */
  function CheckPositive(value: real, name: string): (o: Outcome)
    ensures o.Pass? <==> value > 0.0
    ensures o.Fail? ==> o.fault == NotPositive(name)
  {
    if value <= 0.0 then Fail(NotPositive(name)) else Pass
  }

  /** `check_probability`: passes exactly for values in [0, 1]. */
  function CheckProbability(value: real, name: string): (o: Outcome)
    ensures o.Pass? <==> 0.0 <= value <= 1.0
    ensures o.Fail? ==> o.fault == NotProbability(name)
  {
    if !(0.0 <= value <= 1.0) then Fail(NotProbability(name)) else Pass
  }

  /** Inputs that pass the checks (a positive hazard rate and a recovery
      rate that is a probability) give a non-negative CVA for any
      non-negative exposure profile on a grid. */
  lemma CheckedInputsChargeNonNegative(f: Functions, ee: seq<Float>, times: seq<real>, h: real, recovery: real, rate: real)
    requires Lawful(f)
    requires Grid(times) && |ee| == |times|
    requires ExposureProfile(ee)
    requires CheckPositive(h, "hazard_rate").Pass?
    requires CheckProbability(recovery, "recovery_rate").Pass?
    ensures ComputeCva(f, ee, times, h, recovery, rate).Ok?
    ensures ComputeCva(f, ee, times, h, recovery, rate).value >= 0.0
  {
    CvaNonNegative(f, ee, times, h, recovery, rate);
  }

  const SeriesName: string := "Series"
  const FrameName: string := "DataFrame"

  /** `validate_series`: a series is empty when it has no entries (NaN
      entries count). */
  function ValidateSeries(series: seq<Float>, name: string): (o: Outcome)
    ensures o.Pass? <==> |series| > 0
    ensures o.Fail? ==> o.fault == EmptyInput(name)
  {
    if |series| == 0 then Fail(EmptyInput(name)) else Pass
  }

  /** The number of columns of a frame (that of its first row). */
  function Columns(frame: Surface): nat {
    if |frame| == 0 then 0 else |frame[0]|
  }

  /** `validate_dataframe`: a frame is empty when either axis has length
      0, so a frame with rows but no columns fails too. */
  function ValidateDataFrame(frame: Surface, name: string): (o: Outcome)
    ensures o.Pass? <==> |frame| > 0 && Columns(frame) > 0
    ensures o.Fail? ==> o.fault == EmptyInput(name)
  {
    if |frame| == 0 || Columns(frame) == 0 then Fail(EmptyInput(name)) else Pass
  }

  /** A rectangular frame passes exactly when it has an entry, that is,
      when every row has at least one. */
  lemma FramePassesWithEntries(frame: Surface, name: string)
    requires Rectangular(frame)
    ensures ValidateDataFrame(frame, name).Pass? <==>
      |frame| > 0 && forall t :: 0 <= t < |frame| ==> |frame[t]| > 0
  {
  }

  /** `annualize_series`: the series check with its default name, then the
      NaN-skipping mean, NaN when every entry is NaN. */
  function AnnualizeSeries(series: seq<Float>): (r: Result<Float>)
    ensures r.Ok? <==> |series| > 0
    ensures r.Err? ==> r.fault == EmptyInput(SeriesName)
    ensures r.Ok? ==> (r.value.NaN? <==> forall i :: 0 <= i < |series| ==> series[i].NaN?)
    ensures r.Ok? && r.value.Num? ==> r.value.value == Mean(Present(series))
  {
    match ValidateSeries(series, SeriesName)
    case Fail(e) => Err(e)
    case Pass => Ok(NanMean(series))
  }

  /** The annualised value of a non-empty series of numbers is their
      arithmetic mean. */
  lemma AnnualizeNumbers(series: seq<real>)
    requires |series| > 0
    ensures AnnualizeSeries(Numbers(series)) == Ok(Num(Mean(series)))
  {
    PresentOfPlainNumbers(series);
  }

  /** A series mixing NaNs and numbers annualises to the mean of its
      numbers: [1, NaN, 3] gives 2. */
  lemma AnnualizeMixed()
    ensures AnnualizeSeries([Num(1.0), NaN, Num(3.0)]) == Ok(Num(2.0))
  {
    var s1, s2, s3 := [Num(1.0)], [Num(1.0), NaN], [Num(1.0), NaN, Num(3.0)];
    assert s1[..0] == [] && s2[..1] == s1 && s3[..2] == s2;
    assert Present(s1) == [1.0];
    assert Present(s2) == [1.0];
    assert Present(s3) == [1.0, 3.0];
    assert Sum([1.0, 3.0]) == 4.0 by {
      assert [1.0, 3.0][..1] == [1.0];
      assert [1.0][..0] == [];
    }
  }

  /** A constant series annualises to its constant. */
  lemma AnnualizeConstant(series: seq<Float>, c: real)
    requires |series| > 0
    requires forall i :: 0 <= i < |series| ==> series[i] == Num(c)
    ensures AnnualizeSeries(series) == Ok(Num(c))
  {
    NanMeanBetween(series, c, c);
  }
}
