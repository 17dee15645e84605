# Counterparty credit risk pipeline — a Dafny model

This project models the computational core of a Monte Carlo counterparty
credit risk pipeline. It covers five steps, and then runs them end to end
under stress:

- it simulates geometric Brownian motion paths of one risk factor on a
  uniform time grid;
- it values a forward-style position as path minus strike;
- it floors the position at zero to get exposure;
- it reduces the exposure surface to a profile per time point: expected
  exposure (EE) and potential future exposure (PFE, a quantile);
- it reduces the EE profile to one number, expected positive exposure (EPE);
- it charges credit valuation adjustment (CVA) from EE, a flat hazard rate,
  a recovery rate and flat discounting;
- it runs the whole chain under stress scenarios that override the
  volatility and/or the hazard rate.

One module per source file, plus three shared modules:

- `Results` holds the outcome types. A Python exception becomes a `Fault`
  value in a `Result`.
- `Elementary` holds `exp` and `sqrt`. They are parameters (a `Functions`
  record), constrained only by the laws in `Lawful`:
  - exp(0) = 1;
  - exp is positive;
  - exp is strictly increasing;
  - sqrt is non-negative on [0, ∞).

  `LawsAreSatisfiable` exhibits a pair meeting the laws, so no proof under
  them is vacuous.
- `Samples` holds the pandas statistics the pipeline uses:
  - sum and mean;
  - minimum and maximum;
  - sorting;
  - the NaN-skipping mean.

  A float is `Num(real)` or `NaN`. pandas yields NaN for the mean or
  quantile of an empty row.
- `Exposure` models `src/exposure.py`.
- `Cva` models `src/cva.py`.
- `MarketSimulation` models `src/market_simulation.py`. The random normal
  draws come from a `Generator` parameter: `gen(seed, k)` is the k-th
  standard normal after seeding with `seed`.
- `StressTesting` models `src/stress_testing.py` and the unstressed run of
  `main.py`.
- `Utils` models `src/utils.py`.

Two behaviours of the code worth knowing, which the model keeps:

- A simulation with `n_paths == 0` succeeds. It builds an empty frame, so
  EE and EPE are NaN and CVA is 0 (see `StressTesting.ScenarioWithoutPaths`).
  Only a negative count fails.
- EPE is documented as a time-weighted average (src/exposure.py:21), but
  the code takes the unweighted mean of the EE profile (see
  `Exposure.EpeIsMeanOfEe`). The model keeps the unweighted mean.

## Model

| member | source | states |
|---|---|---|
| `Exposure.ComputeExposure` | src/exposure.py:4-8 | Exposure has the shape of the valuation surface. Each entry is the value when it is non-negative and 0 otherwise. |
| `Exposure.ExposureNonNegative` | src/exposure.py:4-8 | Every exposure is non-negative. |
| `Exposure.ExposureIdempotent` | src/exposure.py:4-8 | Flooring an exposure surface again changes nothing. |
| `Exposure.ExposureFixesNonNegative` | src/exposure.py:4-8 | Flooring leaves a surface unchanged exactly when it has no negative entry. |
| `Exposure.ExpectedExposure` | src/exposure.py:11-15 | EE has one entry per time row. An entry is NaN exactly for a row with no paths. Otherwise it is the row's mean, which lies between the row's minimum and maximum. |
| `Exposure.ExpectedExposureBounds` | src/exposure.py:11-15 | On a non-negative surface every EE entry lies in [0, row maximum]. |
| `Exposure.ExpectedPositiveExposure` | src/exposure.py:18-24 | EPE is NaN exactly when no time row has a path. It is never negative on a non-negative surface. |
| `Exposure.EpeIsMeanOfEe` | src/exposure.py:18-24 | When every row has paths, EPE is the unweighted arithmetic mean of the EE profile. |
| `Exposure.LinearQuantile` | src/exposure.py:34 | The linear quantile of sorted order statistics lies between the two statistics around the virtual index (n-1)·q. So it lies between the smallest and the largest. |
| `Exposure.QuantileEndpoints` | src/exposure.py:34 | Level 0 gives the smallest order statistic. Level 1 gives the largest. |
| `Exposure.QuantileMonotone` | src/exposure.py:34 | The linear quantile never decreases as the level rises. |
| `Exposure.PotentialFutureExposure` | src/exposure.py:27-34 | A level outside [0, 1] is refused with a quantile fault. Otherwise PFE has one entry per row. An entry is NaN exactly for a row with no paths, and otherwise lies between the row's minimum and maximum. |
| `Exposure.PfeEndpoints` | src/exposure.py:27-34 | PFE at level 0 is each row's minimum. At level 1 it is each row's maximum. |
| `Exposure.PfeMonotone` | src/exposure.py:27-34 | Each row's PFE never decreases as the level rises. |
| `Exposure.PfeNonNegative` | src/exposure.py:27-34 | On a non-negative surface every PFE entry is non-negative. |
| `Samples.MeanWithinRange` | src/exposure.py:15 | A row mean lies between the row's minimum and maximum. |
| `Samples.Sort` | src/exposure.py:34 | The order statistics the quantile reads are an ascending permutation of the row. |
| `Samples.SortedEnds` | src/exposure.py:34 | The first order statistic is the row minimum. The last is the row maximum. |
| `Samples.PresentCounts` | src/exposure.py:24 | Skipping NaNs keeps every number: each value occurs among the kept values exactly as often as it occurs in the sample. |
| `Samples.NanMean` | src/exposure.py:24 | The NaN-skipping mean is NaN exactly when every entry is NaN. |
| `Samples.NanMeanBetween` | src/exposure.py:24 | If every numeric entry lies in [lo, hi], the NaN-skipping mean does too. |
| `Cva.DiscountFactors` | src/cva.py:5-12 | There is one factor per time point, exp(-rate·t). Every factor is positive. |
| `Cva.DiscountAtZeroRate` | src/cva.py:5-12 | At rate 0 every discount factor is 1. |
| `Cva.DiscountWithinUnit` | src/cva.py:5-12 | With rate ≥ 0 and times ≥ 0, every factor lies in (0, 1]. |
| `Cva.DefaultProbabilities` | src/cva.py:15-29 | An empty time index is refused, because the fill writes position 0. Otherwise PD[0] = 1 - S(t_0) and PD[i] = S(t_{i-1}) - S(t_i), where S(t) = exp(-h·t). |
| `Cva.FirstDefaultMassAtTimeZero` | src/cva.py:15-29 | On a grid starting at time 0, the first default mass is 0. |
| `Cva.PrefixTelescopes` | src/cva.py:15-29 | The first k default masses sum to 1 - S(t_{k-1}). |
| `Cva.DefaultMassTelescopes` | src/cva.py:15-29 | All default masses sum to 1 - S(t_last), the probability of default by the horizon. |
| `Cva.SurvivalFalls` | src/cva.py:22-23 | With h ≥ 0, survival lies in (0, 1] and does not rise between ordered non-negative times. |
| `Cva.DefaultProbabilitiesBounded` | src/cva.py:15-29 | With h ≥ 0 on a non-decreasing grid from time ≥ 0, every default mass lies in [0, 1). |
| `Cva.ComputeCva` | src/cva.py:33-47 | CVA fails exactly on an empty time index, with an index fault. It is 0 when recovery is 1. |
| `Cva.CvaMatchesIntegral` | src/cva.py:33-47 | For a NaN-free EE profile, CVA equals (1 - R)·Σ e_i·(S(t_{i-1}) - S(t_i))·exp(-r·t_i), with S = 1 before the grid. |
| `Cva.CvaVanishesWithoutExposure` | src/cva.py:33-47 | An EE profile of zeros and NaNs gives CVA 0. |
| `Cva.CvaNonNegative` | src/cva.py:33-47 | CVA ≥ 0 under four conditions: a non-negative EE profile, recovery ≤ 1, h ≥ 0, and a non-decreasing grid from time ≥ 0. |
| `Cva.CvaFallsWithRecovery` | src/cva.py:33-47 | Under the same conditions, a higher recovery rate never gives a higher CVA. |
| `MarketSimulation.SimulateGbm` | src/market_simulation.py:40-55 | Failures come in the code's order: a seed outside [0, 2^32), then n_steps = 0 (division), then a negative dimension, then n_steps = -1 (writing row 0 of an empty axis). Otherwise the result is the linspace time grid and an (n_steps + 1) × n_paths matrix built with dt = T / n_steps. |
| `MarketSimulation.SimulatePaths` | src/market_simulation.py:43-52 | The row-by-row loop builds exactly the matrix of path values. Row 0 is s0. Each later entry is the previous one times exp((mu - sigma²/2)·dt + sigma·sqrt(dt)·z), where z is that entry's own draw. |
| `MarketSimulation.PathRecursion` | src/market_simulation.py:44-52 | Row 0 of the matrix is s0 in every column. Each later entry is the entry above it times the growth factor of the draw at its own (step, path) position. |
| `MarketSimulation.TimeGrid` | src/market_simulation.py:54 | The grid has n_steps + 1 points, from 0 to exactly T. |
| `MarketSimulation.GridPointExact` | src/market_simulation.py:54 | Grid point i is i·T/n_steps, the last point included. |
| `MarketSimulation.TimeGridUniform` | src/market_simulation.py:54 | Neighbouring grid points are T/n_steps apart. |
| `MarketSimulation.TimeGridIsGrid` | src/market_simulation.py:54 | For T ≥ 0 the grid starts at 0 and never decreases. |
| `MarketSimulation.PathPositive` | src/market_simulation.py:45-52 | A path started at a positive s0 stays positive. |
| `MarketSimulation.GbmPositive` | src/market_simulation.py:40-55 | With s0 > 0 and T ≥ 0, every simulated value is positive. |
| `MarketSimulation.StillMarket` | src/market_simulation.py:40-55 | With mu = sigma = 0 and T ≥ 0, every simulated value is s0. |
| `MarketSimulation.CalmPath` | src/market_simulation.py:48-52 | With sigma = 0, the paths do not depend on the draws. |
| `MarketSimulation.PathUsesPrefix` | src/market_simulation.py:48-52 | Up to step t, a path reads only the first t·n_paths draws of the stream. |
| `MarketSimulation.SeededRunsAgree` | src/market_simulation.py:40-55 | Two generators that agree on the first n_steps·n_paths draws after seeding give the same simulation, for every input, including those the simulation refuses. This is reproducibility under a fixed seed. |
| `StressTesting.RunStressScenario` | src/stress_testing.py:12-48 | A scenario fails exactly when its simulation does, with the same fault: n_steps < 1 or n_paths < 0. Otherwise EPE is NaN exactly when there are no paths, and is never negative. |
| `StressTesting.Effective` | src/stress_testing.py:21-42 | The effective volatility and hazard rate are the override when present and the base value otherwise. Every other field is the base value. |
| `StressTesting.ScenarioRunsOnEffectiveParameters` | src/stress_testing.py:21-43 | A stressed scenario gives the same result as the empty-override scenario run on the effective parameter set. |
| `StressTesting.Portfolio` | src/stress_testing.py:30 | The position surface has the shape of the path surface. Each entry is the path value minus the strike, taken before flooring. |
| `StressTesting.OnlyRecognisedOverridesMatter` | src/stress_testing.py:21-43 | Two stress dictionaries that agree on "sigma" and "hazard_rate" (same value or both absent) give the same result. Every other key is ignored. |
| `StressTesting.HazardOverrideKeepsEpe` | src/stress_testing.py:21-43 | Scenarios simulated with the same volatility report the same EPE, whatever hazard rate they charge. |
| `StressTesting.CreditStressKeepsEpe` | src/stress_testing.py:21-43 | A stress without a "sigma" key reports the base scenario's EPE. |
| `StressTesting.ScenarioCvaNonNegative` | src/stress_testing.py:35-43 | A scenario's CVA is non-negative under three conditions: T ≥ 0, an effective hazard rate ≥ 0, and recovery ≤ 1. |
| `StressTesting.ScenarioWithoutPaths` | src/stress_testing.py:12-48 | With n_paths = 0, a scenario reports EPE NaN and CVA 0. |
| `StressTesting.StillMarketOutOfTheMoney` | src/stress_testing.py:12-48 | With no drift, no volatility, T ≥ 0 and s0 ≤ strike, the position is never in the money. EPE and CVA are both 0. |
| `StressTesting.MainRun` | main.py:35-68 | The driver's unstressed run fails exactly when its simulation does. Otherwise EE and PFE have n_steps + 1 entries. |
| `StressTesting.BaseScenarioReproducesMainRun` | main.py:35-68 | The empty-override "Base" scenario reports exactly the unstressed run's EPE and CVA. |
| `StressTesting.DriverScenarios` | main.py:19-84 | Each of the driver's four scenarios runs on its base parameters with a non-negative CVA. The credit stress reports the base EPE. |
| `Utils.CheckPositive` | src/utils.py:27-32 | The check passes exactly for values above 0. Otherwise it fails, naming the parameter. |
| `Utils.CheckProbability` | src/utils.py:35-40 | The check passes exactly for values in [0, 1]. Otherwise it fails, naming the parameter. |
| `Utils.CheckedInputsChargeNonNegative` | src/utils.py:27-40 | A hazard rate passing the positivity check and a recovery rate passing the probability check give a non-negative CVA. |
| `Utils.ValidateSeries` | src/utils.py:16-24 | A series passes exactly when it has an entry; NaN entries count. |
| `Utils.ValidateDataFrame` | src/utils.py:5-13 | A frame passes exactly when it has at least one row and one column. |
| `Utils.FramePassesWithEntries` | src/utils.py:5-13 | A rectangular frame passes exactly when it has rows and every row has an entry. |
| `Utils.AnnualizeSeries` | src/utils.py:43-48 | An empty series fails with the default series name. Otherwise the result is NaN exactly when every entry is NaN. A numeric result is the arithmetic mean of the series' numbers, which `Samples.PresentCounts` shows are all kept. |
| `Utils.AnnualizeMixed` | src/utils.py:43-48 | NaNs among the numbers are skipped: [1, NaN, 3] annualises to 2. |
| `Utils.AnnualizeNumbers` | src/utils.py:43-48 | A non-empty series of numbers annualises to its arithmetic mean. |
| `Utils.AnnualizeConstant` | src/utils.py:43-48 | A constant series annualises to its constant. |

## Left out

- Floating point: all arithmetic is on unbounded reals. There is no rounding, overflow or IEEE special value other than the NaN of an empty mean or quantile.
- `exp` and `sqrt` are parameters constrained only by the laws in `Elementary.Lawful`; their values are never computed.
- The random generator: normal draws are an arbitrary function of (seed, index). Their Gaussian distribution and the Monte Carlo convergence of EE to the analytic GBM mean are outside what a deductive model can state.
- A negative horizon T makes `sqrt(dt)` NaN in numpy. In the model, `sqrt` of a negative number is unconstrained. For this reason `MarketSimulation.GbmPositive`, `MarketSimulation.StillMarket`, `StressTesting.StillMarketOutOfTheMoney` and `StressTesting.ScenarioCvaNonNegative` require T ≥ 0.
- `Cva.ComputeCva`: pandas aligns `ee`, the default masses and the discount factors by index label. The model aligns them by position and requires `ee` to have one entry per time point. In the pipeline, `ee.index` is always the time grid.
- Python type checks are not modelled, because the model's inputs are typed:
  - the `isinstance` checks in `validate_dataframe` and `validate_series`;
  - non-integer `n_steps` and `n_paths`;
  - seeds that are not integers (such as `None`).
- `KeyError` for a base parameter missing from the dictionary: base parameters are a record with every field present.
- `check_positive` and `check_probability` on NaN: their inputs are reals.
- Plotting, printing, the scenario loop and the results table of `main.py` (lines 82-102) are presentation, not computation.
- DataFrame labels: columns are path positions, and the index is the time grid held beside the matrix.
- Monotonicity of CVA in the hazard rate is not claimed. A higher hazard rate moves default mass toward earlier grid points: each interval's mass exp(-h·t_{i-1})·(1 - exp(-h·Δt)) eventually falls as h grows. So an exposure profile concentrated late in the grid can see its CVA fall.
