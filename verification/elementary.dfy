/** The transcendental functions the pipeline calls (numpy's `exp` and
    `sqrt`), taken as parameters of the model and constrained only by the
    laws below. No concrete value of either is ever used. */
module Elementary {

  datatype Functions = Functions(exp: real -> real, sqrt: real -> real)

  /** A point at which a law is wanted. The laws below are stated for
      named points only, so that a proof instantiates them where it asks
      for them (through the lemmas that follow) and nowhere else. */
  ghost predicate Point(x: real) {
    true
  }

  /** `x < y`, likewise as a function naming the pair a proof needs. */
  ghost predicate Ordered(x: real, y: real) {
    x < y
  }

  /** The laws of `exp` and `sqrt` that the proofs rely on. */
  ghost predicate Lawful(f: Functions) {
    && f.exp(0.0) == 1.0
    && (forall x {:trigger Point(x)} :: Point(x) ==> f.exp(x) > 0.0)
    && (forall x, y {:trigger Ordered(x, y)} :: Ordered(x, y) ==> f.exp(x) < f.exp(y))
    && (forall x {:trigger Point(x)} :: Point(x) && 0.0 <= x ==> f.sqrt(x) >= 0.0)
  }

  lemma ExpPositive(f: Functions, x: real)
    requires Lawful(f)
    ensures f.exp(x) > 0.0
  {
    assert Point(x);
  }

  lemma SqrtNonNegative(f: Functions, x: real)
    requires Lawful(f)
    requires x >= 0.0
    ensures f.sqrt(x) >= 0.0
  {
    assert Point(x);
  }

  lemma ExpMonotone(f: Functions, x: real, y: real)
    requires Lawful(f)
    requires x <= y
    ensures f.exp(x) <= f.exp(y)
  {
    if x < y {
      assert Ordered(x, y);
    }
  }

  /** exp maps the non-positive reals into (0, 1]. */
  lemma ExpOfNonPositive(f: Functions, x: real)
    requires Lawful(f)
    requires x <= 0.0
    ensures 0.0 < f.exp(x) <= 1.0
  {
    ExpPositive(f, x);
    ExpMonotone(f, x, 0.0);
  }

  /** A stand-in for exp that meets the laws; it only shows that `Lawful`
      is satisfiable, so no proof under it is vacuous. */
  function StandInExp(x: real): real {
    if x >= 0.0 then 1.0 + x else 1.0 / (1.0 - x)
  }

  function StandInSqrt(x: real): real {
    if x >= 0.0 then x else 0.0
  }

  lemma StandInIncreasing(x: real, y: real)
    requires x < y
    ensures StandInExp(x) < StandInExp(y)
  {
    if y < 0.0 {
      assert 1.0 - x > 1.0 - y > 1.0;
      assert (1.0 - x) * StandInExp(x) == 1.0;
      assert (1.0 - y) * StandInExp(y) == 1.0;
    } else if x < 0.0 {
      assert (1.0 - x) * StandInExp(x) == 1.0;
    }
  }

  lemma LawsAreSatisfiable()
    ensures Lawful(Functions(StandInExp, StandInSqrt))
  {
    var f := Functions(StandInExp, StandInSqrt);
    forall x: real | Point(x)
      ensures f.exp(x) > 0.0
    {
      if x < 0.0 {
        assert (1.0 - x) * StandInExp(x) == 1.0;
      }
    }
    forall x: real, y: real | Ordered(x, y)
      ensures f.exp(x) < f.exp(y)
    {
      StandInIncreasing(x, y);
    }
  }
}
