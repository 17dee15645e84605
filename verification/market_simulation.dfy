/** The market simulator: geometric Brownian motion paths of one risk
    factor on a uniform time grid. The standard normal draws come from a
    seeded generator, taken as a parameter of the model: `gen(seed, k)` is
    the k-th normal the generator produces after being seeded with `seed`. */
module MarketSimulation {
  import opened Elementary
  import opened Results
  import opened Samples
  import opened Exposure
  import opened Cva

  /** A seeded stream of standard normal draws. */
  type Generator = (int, nat) -> real

  /** The seed the pipeline always uses. */
  const DefaultSeed: int := 42

  /** Seeds must lie in [0, 2^32): the legacy generator refuses the rest. */
  const SeedBound: int := 0x1_0000_0000

  /** The inputs of one simulation once the step length is known. */
  datatype Setting = Setting(s0: real, mu: real, sigma: real, dt: real, nPaths: nat, seed: int)

  /** A simulated DataFrame: the time index and one row of path values per
      time point. */
  datatype Ensemble = Ensemble(times: seq<real>, paths: Surface)

  /** The deterministic part of a log-step, (mu - sigma²/2) · dt. */
  function Drift(g: Setting): real {
    (g.mu - 0.5 * (g.sigma * g.sigma)) * g.dt
  }

  /** The random part of a log-step, sigma · sqrt(dt) · z. */
  function Shock(f: Functions, g: Setting, z: real): real {
    g.sigma * f.sqrt(g.dt) * z
  }

  /** The factor one step multiplies a path by, given its draw z. */
  function GrowthFactor(f: Functions, g: Setting, z: real): real {
    f.exp(Drift(g) + Shock(f, g, z))
  }

  /** Step t (from 1) draws one normal per path in column order, so path p
      at step t reads the ((t - 1) · nPaths + p)-th draw of the stream. */
  function DrawIndex(nPaths: nat, t: nat, p: nat): nat
    requires t >= 1
  {
    (t - 1) * nPaths + p
  }

  function Draw(gen: Generator, g: Setting, t: nat, p: nat): real
    requires t >= 1
  {
    gen(g.seed, DrawIndex(g.nPaths, t, p))
  }

  /** The value of path p at step t: s0 at step 0, and each later step the
      previous value times its growth factor. */
  function PathValue(f: Functions, gen: Generator, g: Setting, t: nat, p: nat): real
  {
    if t == 0 then g.s0
    else PathValue(f, gen, g, t - 1, p) * GrowthFactor(f, g, Draw(gen, g, t, p))
  }

  /** The row of the path matrix at step t. */
  function Row(f: Functions, gen: Generator, g: Setting, t: nat): (row: seq<real>)
    ensures |row| == g.nPaths
  {
    seq(g.nPaths, p requires 0 <= p < g.nPaths => PathValue(f, gen, g, t, p))
  }

  /** The (nSteps + 1) × nPaths matrix of path values. */
  function GbmPaths(f: Functions, gen: Generator, g: Setting, nSteps: nat): (x: Surface)
    ensures |x| == nSteps + 1
    ensures forall t :: 0 <= t <= nSteps ==> x[t] == Row(f, gen, g, t)
  {
    seq(nSteps + 1, t requires 0 <= t <= nSteps => Row(f, gen, g, t))
  }

  /** The spacing of the time grid, and the step length dt. */
  function Step(horizon: real, nSteps: nat): real
    requires nSteps >= 1
  {
    horizon / (nSteps as real)
  }

  /** `linspace(0, horizon, nSteps + 1)`: point i at i · step, the last
      point set to the horizon itself. */
  function TimeGrid(horizon: real, nSteps: nat): (grid: seq<real>)
    requires nSteps >= 1
    ensures |grid| == nSteps + 1
    ensures grid[0] == 0.0 && grid[nSteps] == horizon
  {
    seq(nSteps + 1, i requires 0 <= i <= nSteps =>
      if i == nSteps then horizon else (i as real) * Step(horizon, nSteps))
  }

  /** Every grid point, the last one included, is its index times the
      step. */
  lemma GridPointExact(horizon: real, nSteps: nat, i: nat)
    requires nSteps >= 1 && i <= nSteps
    ensures TimeGrid(horizon, nSteps)[i] == (i as real) * Step(horizon, nSteps)
  {
    if i == nSteps {
      assert (nSteps as real) * (horizon / (nSteps as real)) == horizon;
    }
  }

  /** The grid is uniform: neighbouring points lie one step apart. */
  lemma TimeGridUniform(horizon: real, nSteps: nat, i: nat)
    requires nSteps >= 1 && i < nSteps
    ensures TimeGrid(horizon, nSteps)[i + 1] - TimeGrid(horizon, nSteps)[i] == Step(horizon, nSteps)
  {
    var s := Step(horizon, nSteps);
    GridPointExact(horizon, nSteps, i);
    GridPointExact(horizon, nSteps, i + 1);
    assert ((i + 1) as real) * s == (i as real) * s + s;
  }

  /** Over a non-negative horizon the grid starts at 0 and never decreases,
      as the CVA engine requires of its time index. */
  lemma TimeGridIsGrid(horizon: real, nSteps: nat)
    requires nSteps >= 1 && horizon >= 0.0
    ensures Grid(TimeGrid(horizon, nSteps))
  {
    var grid := TimeGrid(horizon, nSteps);
    var s := Step(horizon, nSteps);
    assert s >= 0.0;
    forall i, j | 0 <= i <= j < |grid|
      ensures grid[i] <= grid[j]
    {
      GridPointExact(horizon, nSteps, i);
      GridPointExact(horizon, nSteps, j);
      MulMonotone(s, i as real, j as real);
      assert (i as real) * s == s * (i as real);
      assert (j as real) * s == s * (j as real);
    }
  }

  /** The matrix satisfies the simulation's recursion: row 0 is s0 in
      every column, and each later entry is the entry above it times the
      growth factor of its own draw. */
  lemma PathRecursion(f: Functions, gen: Generator, g: Setting, nSteps: nat)
    ensures forall p :: 0 <= p < g.nPaths ==> GbmPaths(f, gen, g, nSteps)[0][p] == g.s0
    ensures forall t, p :: 1 <= t <= nSteps && 0 <= p < g.nPaths ==>
      GbmPaths(f, gen, g, nSteps)[t][p] ==
        GbmPaths(f, gen, g, nSteps)[t - 1][p] * GrowthFactor(f, g, Draw(gen, g, t, p))
  {
  }

  /** `simulate_gbm`. The failures come in the order the code meets them:
      seeding, then `T / n_steps`, then allocating the matrix, then writing
      its first row. On success the result is the time grid and the path
      matrix built with dt = T / n_steps. */
  function SimulateGbm(f: Functions, gen: Generator, s0: real, mu: real, sigma: real,
                       horizon: real, nSteps: int, nPaths: int, seed: int): (r: Result<Ensemble>)
    ensures r.Ok? <==> 0 <= seed < SeedBound && nSteps >= 1 && nPaths >= 0
    ensures !(0 <= seed < SeedBound) ==> r == Err(InvalidSeed)
    ensures 0 <= seed < SeedBound && nSteps == 0 ==> r == Err(ZeroDivision)
    ensures 0 <= seed < SeedBound && nSteps != 0 && (nSteps < -1 || nPaths < 0) ==>
      r == Err(NegativeDimension)
    ensures 0 <= seed < SeedBound && nSteps == -1 && nPaths >= 0 ==> r == Err(IndexOutOfRange)
    ensures r.Ok? ==> r.value.times == TimeGrid(horizon, nSteps)
    ensures r.Ok? ==>
      r.value.paths == GbmPaths(f, gen, Setting(s0, mu, sigma, Step(horizon, nSteps), nPaths, seed), nSteps)
    ensures r.Ok? ==> |r.value.paths| == |r.value.times| == nSteps + 1
    ensures r.Ok? ==> forall t :: 0 <= t < |r.value.paths| ==> |r.value.paths[t]| == nPaths
  {
    if !(0 <= seed < SeedBound) then Err(InvalidSeed)
    else if nSteps == 0 then Err(ZeroDivision)
    else if nSteps < -1 || nPaths < 0 then Err(NegativeDimension)
    else if nSteps == -1 then Err(IndexOutOfRange)
    else
      var g := Setting(s0, mu, sigma, Step(horizon, nSteps), nPaths, seed);
      Ok(Ensemble(TimeGrid(horizon, nSteps), GbmPaths(f, gen, g, nSteps)))
  }

  /** The simulation loop as written: the first row filled with s0, then
      each row computed from the one before with one fresh draw per path.
      It builds exactly the matrix of path values. */
  method SimulatePaths(f: Functions, gen: Generator, g: Setting, nSteps: nat) returns (paths: Surface)
    ensures paths == GbmPaths(f, gen, g, nSteps)
  {
    var first := seq(g.nPaths, p requires 0 <= p < g.nPaths => g.s0);
    assert first == Row(f, gen, g, 0);
    paths := [first];
    var t := 1;
    while t <= nSteps
      invariant 1 <= t <= nSteps + 1
      invariant |paths| == t
      invariant forall u :: 0 <= u < t ==> paths[u] == Row(f, gen, g, u)
    {
      var previous := paths[t - 1];
      var next: seq<real> := [];
      var p := 0;
      while p < g.nPaths
        invariant 0 <= p <= g.nPaths
        invariant |next| == p
        invariant forall q :: 0 <= q < p ==> next[q] == PathValue(f, gen, g, t, q)
      {
        var z := Draw(gen, g, t, p);
        next := next + [previous[p] * GrowthFactor(f, g, z)];
        p := p + 1;
      }
      assert next == Row(f, gen, g, t);
      paths := paths + [next];
      t := t + 1;
    }
    assert paths == GbmPaths(f, gen, g, nSteps);
  }

  /** Each growth factor is positive. */
  lemma GrowthPositive(f: Functions, g: Setting, z: real)
    requires Lawful(f)
    ensures GrowthFactor(f, g, z) > 0.0
  {
    ExpPositive(f, Drift(g) + Shock(f, g, z));
  }

  /** A path started at a positive value stays positive. */
  lemma {:induction false} PathPositive(f: Functions, gen: Generator, g: Setting, t: nat, p: nat)
    requires Lawful(f)
    requires g.s0 > 0.0
    ensures PathValue(f, gen, g, t, p) > 0.0
  {
    if t > 0 {
      PathPositive(f, gen, g, t - 1, p);
      GrowthPositive(f, g, Draw(gen, g, t, p));
      MulPositive(PathValue(f, gen, g, t - 1, p), GrowthFactor(f, g, Draw(gen, g, t, p)));
    }
  }

  /** Every simulated value is positive when s0 is, over a non-negative
      horizon. */
  lemma GbmPositive(f: Functions, gen: Generator, s0: real, mu: real, sigma: real,
                    horizon: real, nSteps: int, nPaths: int, seed: int)
    requires Lawful(f)
    requires s0 > 0.0 && horizon >= 0.0
    requires SimulateGbm(f, gen, s0, mu, sigma, horizon, nSteps, nPaths, seed).Ok?
    ensures NonNegative(SimulateGbm(f, gen, s0, mu, sigma, horizon, nSteps, nPaths, seed).value.paths)
    ensures forall t, p :: 0 <= t <= nSteps && 0 <= p < nPaths ==>
      SimulateGbm(f, gen, s0, mu, sigma, horizon, nSteps, nPaths, seed).value.paths[t][p] > 0.0
  {
    var g := Setting(s0, mu, sigma, Step(horizon, nSteps), nPaths, seed);
    var x := GbmPaths(f, gen, g, nSteps);
    forall t, p | 0 <= t <= nSteps && 0 <= p < nPaths
      ensures x[t][p] > 0.0
    {
      PathPositive(f, gen, g, t, p);
    }
  }

  /** Without drift and volatility a step multiplies by exp(0) = 1. */
  lemma StillStep(f: Functions, g: Setting, z: real)
    requires Lawful(f)
    requires g.mu == 0.0 && g.sigma == 0.0
    ensures GrowthFactor(f, g, z) == 1.0
  {
    assert Drift(g) + Shock(f, g, z) == 0.0;
  }

  /** Without drift and volatility every path stays at s0. */
  lemma {:induction false} StillPath(f: Functions, gen: Generator, g: Setting, t: nat, p: nat)
    requires Lawful(f)
    requires g.mu == 0.0 && g.sigma == 0.0
    ensures PathValue(f, gen, g, t, p) == g.s0
  {
    if t > 0 {
      StillPath(f, gen, g, t - 1, p);
      StillStep(f, g, Draw(gen, g, t, p));
    }
  }

  /** With mu = sigma = 0 every entry of the simulated matrix is s0, over
      a non-negative horizon (a negative one makes numpy's `sqrt(dt)` NaN,
      and NaN times a zero volatility is still NaN). */
  lemma StillMarket(f: Functions, gen: Generator, s0: real, horizon: real, nSteps: int, nPaths: int, seed: int)
    requires Lawful(f)
    requires horizon >= 0.0
    requires SimulateGbm(f, gen, s0, 0.0, 0.0, horizon, nSteps, nPaths, seed).Ok?
    ensures forall t, p :: 0 <= t <= nSteps && 0 <= p < nPaths ==>
      SimulateGbm(f, gen, s0, 0.0, 0.0, horizon, nSteps, nPaths, seed).value.paths[t][p] == s0
  {
    var g := Setting(s0, 0.0, 0.0, Step(horizon, nSteps), nPaths, seed);
    forall t, p | 0 <= t <= nSteps && 0 <= p < nPaths
      ensures GbmPaths(f, gen, g, nSteps)[t][p] == s0
    {
      StillPath(f, gen, g, t, p);
    }
  }

  /** With zero volatility a step does not depend on its draw. */
  lemma CalmStep(f: Functions, g: Setting, z1: real, z2: real)
    requires g.sigma == 0.0
    ensures GrowthFactor(f, g, z1) == GrowthFactor(f, g, z2)
  {
    assert Shock(f, g, z1) == 0.0 == Shock(f, g, z2);
  }

  /** With zero volatility the paths do not depend on the draws at all. */
  lemma {:induction false} CalmPath(f: Functions, gen1: Generator, gen2: Generator, g: Setting, t: nat, p: nat)
    requires g.sigma == 0.0
    ensures PathValue(f, gen1, g, t, p) == PathValue(f, gen2, g, t, p)
  {
    if t > 0 {
      CalmPath(f, gen1, gen2, g, t - 1, p);
      CalmStep(f, g, Draw(gen1, g, t, p), Draw(gen2, g, t, p));
    }
  }

  /** Up to step t a path reads only draws below t · nPaths. */
  lemma DrawIndexBelow(nPaths: nat, t: nat, p: nat)
    requires t >= 1 && p < nPaths
    ensures DrawIndex(nPaths, t, p) < t * nPaths
  {
    assert t * nPaths == (t - 1) * nPaths + nPaths;
  }

  /** Two streams that agree on the first t · nPaths draws give the same
      path values up to step t. */
  lemma {:induction false} PathUsesPrefix(f: Functions, gen1: Generator, gen2: Generator, g: Setting, t: nat, p: nat)
    requires p < g.nPaths
    requires forall k: nat :: k < t * g.nPaths ==> gen1(g.seed, k) == gen2(g.seed, k)
    ensures PathValue(f, gen1, g, t, p) == PathValue(f, gen2, g, t, p)
  {
    if t > 0 {
      assert (t - 1) * g.nPaths <= t * g.nPaths by {
        assert t * g.nPaths == (t - 1) * g.nPaths + g.nPaths;
      }
      PathUsesPrefix(f, gen1, gen2, g, t - 1, p);
      DrawIndexBelow(g.nPaths, t, p);
      assert Draw(gen1, g, t, p) == Draw(gen2, g, t, p);
    }
  }

  /** Reproducibility: a run reads exactly the first nSteps · nPaths draws
      of the seeded stream, so two generators that agree on them (in
      particular, one generator seeded twice with the same seed) give the
      same result. */
  lemma SeededRunsAgree(f: Functions, gen1: Generator, gen2: Generator, s0: real, mu: real, sigma: real,
                        horizon: real, nSteps: int, nPaths: int, seed: int)
    requires forall k: nat :: k < nSteps * nPaths ==> gen1(seed, k) == gen2(seed, k)
    ensures SimulateGbm(f, gen1, s0, mu, sigma, horizon, nSteps, nPaths, seed)
         == SimulateGbm(f, gen2, s0, mu, sigma, horizon, nSteps, nPaths, seed)
  {
    if 0 <= seed < SeedBound && nSteps >= 1 && nPaths >= 0 {
      var g := Setting(s0, mu, sigma, Step(horizon, nSteps), nPaths, seed);
      forall t | 0 <= t <= nSteps
        ensures Row(f, gen1, g, t) == Row(f, gen2, g, t)
      {
        forall p | 0 <= p < nPaths
          ensures PathValue(f, gen1, g, t, p) == PathValue(f, gen2, g, t, p)
        {
          PrefixOfPrefix(gen1, gen2, seed, t, nSteps, nPaths);
          PathUsesPrefix(f, gen1, gen2, g, t, p);
        }
      }
      assert GbmPaths(f, gen1, g, nSteps) == GbmPaths(f, gen2, g, nSteps);
    }
  }

  /** Agreement on the first nSteps · nPaths draws includes agreement on
      the first t · nPaths for t <= nSteps. */
  lemma PrefixOfPrefix(gen1: Generator, gen2: Generator, seed: int, t: nat, nSteps: nat, nPaths: nat)
    requires t <= nSteps
    requires forall k: nat :: k < nSteps * nPaths ==> gen1(seed, k) == gen2(seed, k)
    ensures forall k: nat :: k < t * nPaths ==> gen1(seed, k) == gen2(seed, k)
  {
    MulMonotoneNat(nPaths, t, nSteps);
  }
}
