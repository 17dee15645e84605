/** Stress scenarios: the full pipeline (simulate, value the position
    against its strike, floor to exposure, reduce to EE and EPE, charge
    CVA) run once with volatility and hazard rate optionally overridden,
    and the unstressed run of the driver script it is compared with. */
module StressTesting {
  import opened Elementary
  import opened Results
  import opened Samples
  import opened Exposure
  import opened Cva
  import opened MarketSimulation

  /** The base parameter dictionary. Every key is present; the integer
      entries keep Python's `int` so that invalid counts can be passed. */
  datatype Parameters = Parameters(
    s0: real, mu: real, sigma: real, horizon: real,
    nSteps: int, nPaths: int, strike: real,
    hazardRate: real, recoveryRate: real, discountRate: real)

  /** A stress dictionary: only "sigma" and "hazard_rate" are read. */
  type Overrides = map<string, real>

  /** The two numbers a scenario reports. */
  datatype ScenarioResult = ScenarioResult(epe: Float, cva: real)

  /** The unstressed run's results. */
  datatype Report = Report(ee: seq<Float>, epe: Float, pfe: seq<Float>, cva: real)

  /** The quantile level the driver asks PFE for. */
  const PfeLevel: real := 0.95

  /** `dict.get(key, default)`. */
  function Lookup(stress: Overrides, key: string, default: real): (v: real)
    ensures key in stress ==> v == stress[key]
    ensures key !in stress ==> v == default
  {
    if key in stress then stress[key] else default
  }

  /** The volatility a scenario simulates with. */
  function StressedSigma(base: Parameters, stress: Overrides): real {
    Lookup(stress, "sigma", base.sigma)
  }

  /** The hazard rate a scenario charges CVA with. */
  function StressedHazard(base: Parameters, stress: Overrides): real {
    Lookup(stress, "hazard_rate", base.hazardRate)
  }

  /** The parameter set a scenario effectively runs with: the override
      wins for the volatility and the hazard rate, and every other field is
      the base value. */
  function Effective(base: Parameters, stress: Overrides): (e: Parameters)
    ensures e.sigma == (if "sigma" in stress then stress["sigma"] else base.sigma)
    ensures e.hazardRate == (if "hazard_rate" in stress then stress["hazard_rate"] else base.hazardRate)
    ensures e.(sigma := base.sigma, hazardRate := base.hazardRate) == base
  {
    base.(sigma := StressedSigma(base, stress), hazardRate := StressedHazard(base, stress))
  }

  /** `paths - strike`: the value of the position on every path at every
      time point. */
  function Portfolio(paths: Surface, strike: real): (v: Surface)
    ensures SameShape(v, paths)
    ensures forall t, p :: 0 <= t < |v| && 0 <= p < |v[t]| ==> v[t][p] == paths[t][p] - strike
  {
    seq(|paths|, t requires 0 <= t < |paths| =>
      seq(|paths[t]|, p requires 0 <= p < |paths[t]| => paths[t][p] - strike))
  }

  /** The simulation a scenario runs: the base parameters with the
      volatility overridden, always at the default seed. */
  function ScenarioPaths(f: Functions, gen: Generator, base: Parameters, stress: Overrides): Result<Ensemble> {
    SimulateGbm(f, gen, base.s0, base.mu, StressedSigma(base, stress), base.horizon,
                base.nSteps, base.nPaths, DefaultSeed)
  }

  /** `run_stress_scenario`. It fails exactly when the simulation does
      (the step count is not positive or the path count is negative), with
      the simulation's fault; otherwise EPE is NaN exactly when there are
      no paths, and never negative. */
  function RunStressScenario(f: Functions, gen: Generator, base: Parameters, stress: Overrides): (r: Result<ScenarioResult>)
    ensures r.Ok? <==> base.nSteps >= 1 && base.nPaths >= 0
    ensures r.Err? ==> r == Err(ScenarioPaths(f, gen, base, stress).fault)
    ensures r.Ok? ==> (r.value.epe.NaN? <==> base.nPaths == 0)
    ensures r.Ok? && r.value.epe.Num? ==> r.value.epe.value >= 0.0
  {
    match ScenarioPaths(f, gen, base, stress)
    case Err(e) => Err(e)
    case Ok(sim) =>
      var exposure := ComputeExposure(Portfolio(sim.paths, base.strike));
      var ee := ExpectedExposure(exposure);
      var epe := ExpectedPositiveExposure(exposure);
      var cva := ComputeCva(f, ee, sim.times, StressedHazard(base, stress), base.recoveryRate, base.discountRate);
      ExposureNonNegative(Portfolio(sim.paths, base.strike));
      Ok(ScenarioResult(epe, cva.value))
  }

  /** The driver's unstressed run: simulate with the base parameters,
      compute exposure, EE, EPE, PFE at 95% and CVA. It fails exactly when
      the simulation does. */
  function MainRun(f: Functions, gen: Generator, base: Parameters): (r: Result<Report>)
    ensures r.Ok? <==> base.nSteps >= 1 && base.nPaths >= 0
    ensures r.Ok? ==> |r.value.ee| == |r.value.pfe| == base.nSteps + 1
  {
    match SimulateGbm(f, gen, base.s0, base.mu, base.sigma, base.horizon, base.nSteps, base.nPaths, DefaultSeed)
    case Err(e) => Err(e)
    case Ok(sim) =>
      var exposure := ComputeExposure(Portfolio(sim.paths, base.strike));
      var ee := ExpectedExposure(exposure);
      var epe := ExpectedPositiveExposure(exposure);
      var pfe := PotentialFutureExposure(exposure, PfeLevel);
      var cva := ComputeCva(f, ee, sim.times, base.hazardRate, base.recoveryRate, base.discountRate);
      Ok(Report(ee, epe, pfe.value, cva.value))
  }

  /** The exposure surface a scenario reduces. */
  function ScenarioExposure(f: Functions, gen: Generator, base: Parameters, stress: Overrides): (x: Surface)
    requires ScenarioPaths(f, gen, base, stress).Ok?
  {
    ComputeExposure(Portfolio(ScenarioPaths(f, gen, base, stress).value.paths, base.strike))
  }

  /** A successful scenario's results are EPE and CVA of its exposure. */
  lemma ScenarioUnfolds(f: Functions, gen: Generator, base: Parameters, stress: Overrides)
    requires base.nSteps >= 1 && base.nPaths >= 0
    ensures ScenarioPaths(f, gen, base, stress).Ok?
    ensures |ExpectedExposure(ScenarioExposure(f, gen, base, stress))| == |ScenarioPaths(f, gen, base, stress).value.times|
    ensures RunStressScenario(f, gen, base, stress) == Ok(ScenarioResult(
      ExpectedPositiveExposure(ScenarioExposure(f, gen, base, stress)),
      ComputeCva(f, ExpectedExposure(ScenarioExposure(f, gen, base, stress)),
                 ScenarioPaths(f, gen, base, stress).value.times,
                 StressedHazard(base, stress), base.recoveryRate, base.discountRate).value))
  {
  }

  /** A stressed scenario is the unstressed scenario run on the effective
      parameter set. */
  lemma ScenarioRunsOnEffectiveParameters(f: Functions, gen: Generator, base: Parameters, stress: Overrides)
    ensures RunStressScenario(f, gen, base, stress) == RunStressScenario(f, gen, Effective(base, stress), map[])
  {
    var e := Effective(base, stress);
    assert StressedSigma(e, map[]) == StressedSigma(base, stress);
    assert StressedHazard(e, map[]) == StressedHazard(base, stress);
  }

  /** Keys other than "sigma" and "hazard_rate" have no effect: two stress
      dictionaries that agree on those two (present in both with the same
      value, or absent from both) give the same result. */
  lemma OnlyRecognisedOverridesMatter(f: Functions, gen: Generator, base: Parameters, s1: Overrides, s2: Overrides)
    requires ("sigma" in s1 <==> "sigma" in s2) && ("sigma" in s1 ==> s1["sigma"] == s2["sigma"])
    requires ("hazard_rate" in s1 <==> "hazard_rate" in s2) && ("hazard_rate" in s1 ==> s1["hazard_rate"] == s2["hazard_rate"])
    ensures RunStressScenario(f, gen, base, s1) == RunStressScenario(f, gen, base, s2)
  {
    assert StressedSigma(base, s1) == StressedSigma(base, s2);
    assert StressedHazard(base, s1) == StressedHazard(base, s2);
  }

  /** The hazard rate does not enter EPE: scenarios simulated with the same
      volatility report the same EPE, whatever hazard rate they charge. */
  lemma HazardOverrideKeepsEpe(f: Functions, gen: Generator, base: Parameters, s1: Overrides, s2: Overrides)
    requires StressedSigma(base, s1) == StressedSigma(base, s2)
    requires base.nSteps >= 1 && base.nPaths >= 0
    ensures RunStressScenario(f, gen, base, s1).value.epe == RunStressScenario(f, gen, base, s2).value.epe
  {
    ScenarioUnfolds(f, gen, base, s1);
    ScenarioUnfolds(f, gen, base, s2);
  }

  /** A credit-only stress (no "sigma" key) reports the base scenario's
      EPE. */
  lemma CreditStressKeepsEpe(f: Functions, gen: Generator, base: Parameters, stress: Overrides)
    requires "sigma" !in stress
    requires base.nSteps >= 1 && base.nPaths >= 0
    ensures RunStressScenario(f, gen, base, stress).value.epe == RunStressScenario(f, gen, base, map[]).value.epe
  {
    HazardOverrideKeepsEpe(f, gen, base, stress, map[]);
  }

  /** The "Base" scenario with an empty stress dictionary reproduces the
      driver's unstressed EPE and CVA. */
  lemma BaseScenarioReproducesMainRun(f: Functions, gen: Generator, base: Parameters)
    ensures RunStressScenario(f, gen, base, map[]).Ok? <==> MainRun(f, gen, base).Ok?
    ensures MainRun(f, gen, base).Ok? ==>
      RunStressScenario(f, gen, base, map[]).value == ScenarioResult(MainRun(f, gen, base).value.epe, MainRun(f, gen, base).value.cva)
  {
    assert StressedSigma(base, map[]) == base.sigma;
    assert StressedHazard(base, map[]) == base.hazardRate;
  }

  /** On a non-negative surface the EE profile is a non-negative exposure
      profile (NaN rows aside). */
  lemma EeIsExposureProfile(x: Surface)
    requires NonNegative(x)
    ensures ExposureProfile(ExpectedExposure(x))
  {
    ExpectedExposureBounds(x);
  }

  /** A scenario's CVA is non-negative over a non-negative horizon, with a
      non-negative effective hazard rate and a recovery rate at most 1. */
  lemma ScenarioCvaNonNegative(f: Functions, gen: Generator, base: Parameters, stress: Overrides)
    requires Lawful(f)
    requires base.nSteps >= 1 && base.nPaths >= 0
    requires base.horizon >= 0.0
    requires StressedHazard(base, stress) >= 0.0
    requires base.recoveryRate <= 1.0
    ensures RunStressScenario(f, gen, base, stress).value.cva >= 0.0
  {
    ScenarioUnfolds(f, gen, base, stress);
    var sim := ScenarioPaths(f, gen, base, stress).value;
    var x := ScenarioExposure(f, gen, base, stress);
    TimeGridIsGrid(base.horizon, base.nSteps);
    ExposureNonNegative(Portfolio(sim.paths, base.strike));
    EeIsExposureProfile(x);
    CvaNonNegative(f, ExpectedExposure(x), sim.times, StressedHazard(base, stress), base.recoveryRate, base.discountRate);
  }

  /** A scenario without paths has no exposure: EPE is NaN and CVA is 0. */
  lemma ScenarioWithoutPaths(f: Functions, gen: Generator, base: Parameters, stress: Overrides)
    requires base.nSteps >= 1 && base.nPaths == 0
    ensures RunStressScenario(f, gen, base, stress) == Ok(ScenarioResult(NaN, 0.0))
  {
    ScenarioUnfolds(f, gen, base, stress);
    var sim := ScenarioPaths(f, gen, base, stress).value;
    var ee := ExpectedExposure(ScenarioExposure(f, gen, base, stress));
    CvaVanishesWithoutExposure(f, ee, sim.times, StressedHazard(base, stress), base.recoveryRate, base.discountRate);
  }

  /** A row of zeros has EE exactly 0. */
  lemma ZeroRowMean(x: Surface, t: nat)
    requires t < |x| && |x[t]| > 0
    requires forall p :: 0 <= p < |x[t]| ==> x[t][p] == 0.0
    ensures ExpectedExposure(x)[t] == Num(0.0)
  {
    assert Min(x[t]) in x[t];
    assert Max(x[t]) in x[t];
  }

  /** A surface of zeros whose rows all have paths has EE 0 throughout. */
  lemma ZeroSurfaceExposure(x: Surface)
    requires forall t :: 0 <= t < |x| ==> |x[t]| > 0
    requires forall t, p :: 0 <= t < |x| && 0 <= p < |x[t]| ==> x[t][p] == 0.0
    ensures forall t :: 0 <= t < |x| ==> ExpectedExposure(x)[t] == Num(0.0)
  {
    forall t | 0 <= t < |x|
      ensures ExpectedExposure(x)[t] == Num(0.0)
    {
      ZeroRowMean(x, t);
    }
  }

  /** In a still market starting at or below the strike, every exposure of
      a scenario is 0 and every row keeps its paths. */
  lemma StillExposure(f: Functions, gen: Generator, base: Parameters, stress: Overrides)
    requires Lawful(f)
    requires base.nSteps >= 1 && base.nPaths > 0 && base.horizon >= 0.0
    requires base.mu == 0.0 && StressedSigma(base, stress) == 0.0
    requires base.s0 <= base.strike
    ensures ScenarioPaths(f, gen, base, stress).Ok?
    ensures forall t :: 0 <= t < |ScenarioExposure(f, gen, base, stress)| ==>
      |ScenarioExposure(f, gen, base, stress)[t]| > 0
    ensures forall t, p ::
      (0 <= t < |ScenarioExposure(f, gen, base, stress)| && 0 <= p < |ScenarioExposure(f, gen, base, stress)[t]|)
      ==> ScenarioExposure(f, gen, base, stress)[t][p] == 0.0
  {
    StillMarket(f, gen, base.s0, base.horizon, base.nSteps, base.nPaths, DefaultSeed);
  }

  /** A surface of zeros whose rows all have paths has EPE 0 and CVA 0. */
  lemma ZeroSurfaceCharges(f: Functions, x: Surface, times: seq<real>, h: real, recovery: real, rate: real)
    requires |x| == |times| > 0
    requires forall t :: 0 <= t < |x| ==> |x[t]| > 0
    requires forall t, p :: 0 <= t < |x| && 0 <= p < |x[t]| ==> x[t][p] == 0.0
    ensures ExpectedPositiveExposure(x) == Num(0.0)
    ensures ComputeCva(f, ExpectedExposure(x), times, h, recovery, rate) == Ok(0.0)
  {
    ZeroSurfaceExposure(x);
    var ee := ExpectedExposure(x);
    CvaVanishesWithoutExposure(f, ee, times, h, recovery, rate);
    NanMeanBetween(ee, 0.0, 0.0);
  }

  /** In a still market (no drift, no volatility) starting at or below the
      strike the position is never in the money: EPE and CVA are both 0
      when there is at least one path. */
  lemma StillMarketOutOfTheMoney(f: Functions, gen: Generator, base: Parameters, stress: Overrides)
    requires Lawful(f)
    requires base.nSteps >= 1 && base.nPaths > 0 && base.horizon >= 0.0
    requires base.mu == 0.0 && StressedSigma(base, stress) == 0.0
    requires base.s0 <= base.strike
    ensures RunStressScenario(f, gen, base, stress) == Ok(ScenarioResult(Num(0.0), 0.0))
  {
    ScenarioUnfolds(f, gen, base, stress);
    StillExposure(f, gen, base, stress);
    ZeroSurfaceCharges(f, ScenarioExposure(f, gen, base, stress), ScenarioPaths(f, gen, base, stress).value.times,
                       StressedHazard(base, stress), base.recoveryRate, base.discountRate);
  }

  /** The driver's base parameters. */
  const BaseParameters: Parameters := Parameters(
    s0 := 100.0, mu := 0.02, sigma := 0.15, horizon := 1.0,
    nSteps := 252, nPaths := 5000, strike := 100.0,
    hazardRate := 0.02, recoveryRate := 0.40, discountRate := 0.01)

  /** The driver's four stress scenarios. */
  const BaseScenario: Overrides := map[]
  const HighVolatility: Overrides := map["sigma" := 0.225]
  const CreditStress: Overrides := map["hazard_rate" := 0.04]
  const SevereStress: Overrides := map["sigma" := 0.30, "hazard_rate" := 0.05]

  /** Every driver scenario runs, with a non-negative CVA; the credit
      stress reports the base EPE. */
  lemma DriverScenarios(f: Functions, gen: Generator)
    requires Lawful(f)
    ensures forall s :: s in [BaseScenario, HighVolatility, CreditStress, SevereStress] ==>
      RunStressScenario(f, gen, BaseParameters, s).Ok? && RunStressScenario(f, gen, BaseParameters, s).value.cva >= 0.0
    ensures RunStressScenario(f, gen, BaseParameters, CreditStress).value.epe
         == RunStressScenario(f, gen, BaseParameters, BaseScenario).value.epe
  {
    forall s | s in [BaseScenario, HighVolatility, CreditStress, SevereStress]
      ensures RunStressScenario(f, gen, BaseParameters, s).value.cva >= 0.0
    {
      ScenarioCvaNonNegative(f, gen, BaseParameters, s);
    }
    CreditStressKeepsEpe(f, gen, BaseParameters, CreditStress);
  }
}
