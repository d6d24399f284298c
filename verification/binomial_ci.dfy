/** The binomial confidence interval that four analysis scripts each define as
    `wilson_ci(k, n, alpha=0.05)`. All four copies have the same code: despite
    the name it is the Clopper-Pearson exact interval (beta-distribution
    quantiles) in the interior and closed forms at the edges, reported in percent. */
module BinomialCi {

  /** The floating-point routines the interval needs, taken as given functions:
      `ppf(q, a, b)` is scipy's `beta.ppf(q, a, b)`, the q-quantile of the
      Beta(a, b) distribution, and `root(alpha, n)` is `alpha ** (1 / n)`. */
  datatype Numerics = Numerics(ppf: (real, int, int) -> real, root: (real, nat) -> real)

  /** `wilson_ci(k, n, alpha)`: `k` successes out of `n` trials, bounds in percent. */
  function WilsonCi(k: nat, n: nat, alpha: real, num: Numerics): (ci: (real, real))
  {
    if n == 0 then (0.0, 0.0)
    else
      var lower :=
        if k == 0 then 0.0
        else if k == n then num.root(alpha, n)
        else if k > 0 then num.ppf(alpha / 2.0, k, n - k + 1) else 0.0;
      var upper :=
        if k == 0 then 1.0 - num.root(alpha, n)
        else if k == n then 1.0
        else if k < n then num.ppf(1.0 - alpha / 2.0, k + 1, n - k) else 1.0;
      (lower * 100.0, upper * 100.0)
  }

  /** No trials: the interval is (0, 0), whatever `k` is; this test comes
      before the tests on `k`, so (k, n) = (0, 0) does not take the k == 0 branch. */
  lemma WilsonCiNoTrials(k: nat, alpha: real, num: Numerics)
    ensures WilsonCi(k, 0, alpha, num) == (0.0, 0.0)
  {
  }

  /** No successes out of n > 0: lower bound 0, upper bound (1 - alpha^(1/n)) * 100. */
  lemma WilsonCiNoSuccesses(n: nat, alpha: real, num: Numerics)
    requires n > 0
    ensures WilsonCi(0, n, alpha, num).0 == 0.0
    ensures WilsonCi(0, n, alpha, num).1 == (1.0 - num.root(alpha, n)) * 100.0
  {
  }

  /** All successes (k == n > 0): lower bound alpha^(1/n) * 100, upper bound 100. */
  lemma WilsonCiAllSuccesses(n: nat, alpha: real, num: Numerics)
    requires n > 0
    ensures WilsonCi(n, n, alpha, num).0 == num.root(alpha, n) * 100.0
    ensures WilsonCi(n, n, alpha, num).1 == 100.0
  {
  }

  /** Strictly between the edges the interval is the Clopper-Pearson one, the
      alpha/2 quantile of Beta(k, n-k+1) and the 1-alpha/2 quantile of
      Beta(k+1, n-k); the fallbacks `if k > 0 else 0.0` and `if k < n else 1.0`
      are never taken. */
  lemma WilsonCiInterior(k: nat, n: nat, alpha: real, num: Numerics)
    requires 0 < k < n
    ensures WilsonCi(k, n, alpha, num).0 == num.ppf(alpha / 2.0, k, n - k + 1) * 100.0
    ensures WilsonCi(k, n, alpha, num).1 == num.ppf(1.0 - alpha / 2.0, k + 1, n - k) * 100.0
  {
  }

  /** What the interval relies on from the numerical routines: quantiles are
      probabilities in [0, 1], grow with the probability level, and grow when a
      failure is traded for a success; the root of a level in [0, 1] is in [0, 1]. */
  ghost predicate SaneNumerics(num: Numerics)
  {
    && (forall q, a, b :: 0.0 <= num.ppf(q, a, b) <= 1.0)
    && (forall q1, q2, a, b :: q1 <= q2 ==> num.ppf(q1, a, b) <= num.ppf(q2, a, b))
    && (forall q, a, b :: num.ppf(q, a, b) <= num.ppf(q, a + 1, b - 1))
    && (forall x, n :: 0.0 <= x <= 1.0 ==> 0.0 <= num.root(x, n) <= 1.0)
  }

  /** With sane numerics and a level in [0, 1], both bounds are percentages and
      the lower bound never exceeds the upper one. */
  lemma WilsonCiOrdered(k: nat, n: nat, alpha: real, num: Numerics)
    requires SaneNumerics(num)
    requires 0.0 <= alpha <= 1.0
    requires k <= n
    ensures 0.0 <= WilsonCi(k, n, alpha, num).0 <= WilsonCi(k, n, alpha, num).1 <= 100.0
  {
    if 0 < k < n {
      var lo := num.ppf(alpha / 2.0, k, n - k + 1);
      var mid := num.ppf(1.0 - alpha / 2.0, k, n - k + 1);
      var hi := num.ppf(1.0 - alpha / 2.0, k + 1, n - k);
      assert lo <= mid;
      assert mid <= hi by {
        assert (n - k + 1) - 1 == n - k;
      }
    } else if n > 0 {
      assert 0.0 <= num.root(alpha, n) <= 1.0;
    }
  }
}
