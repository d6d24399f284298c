/** scripts/bootstrap_analysis.py: bootstrap estimates of a rate, of a mean
    and of the survival rate in lambda bins. The random numbers are inputs: a
    draw is the sequence of indices that `np.random.choice` (or
    `DataFrame.sample`) picks, with replacement. `np.percentile` is an input
    as well. */
module Bootstrap {
  import opened Common
  import opened Records
  import opened Physics
  import opened Mechanisms

  /** `np.percentile(a, q)`, q in percent. */
  type Percentile = (seq<real>, real) -> real

  /** What is assumed of the percentile routine: on a non-empty array and a q
      in [0, 100] it lies between the smallest and the largest value, and it
      grows with q. */
  ghost predicate SanePercentile(pct: Percentile)
  {
    && (forall xs: seq<real>, q: real :: |xs| > 0 && 0.0 <= q <= 100.0 ==> Min(xs) <= pct(xs, q) <= Max(xs))
    && (forall xs: seq<real>, q1: real, q2: real ::
          |xs| > 0 && 0.0 <= q1 <= q2 <= 100.0 ==> pct(xs, q1) <= pct(xs, q2))
  }

  /** Every draw picks `n` indices, each below `n`. */
  predicate ValidDraws(draws: seq<seq<nat>>, n: nat)
  {
    forall k :: 0 <= k < |draws| ==> |draws[k]| == n && forall i :: 0 <= i < n ==> draws[k][i] < n
  }

  /** The resample a draw picks from `data`. */
  function Resample<T>(data: seq<T>, draw: seq<nat>): (sample: seq<T>)
    requires forall i :: 0 <= i < |draw| ==> draw[i] < |data|
    ensures |sample| == |draw|
    ensures forall i :: 0 <= i < |draw| ==> sample[i] == data[draw[i]]
    ensures forall x :: x in sample ==> x in data
  {
    seq(|draw|, i requires 0 <= i < |draw| => data[draw[i]])
  }

  /** Number of true outcomes. */
  function CountTrue(bs: seq<bool>): (n: nat)
    ensures n <= |bs|
    ensures n == 0 <==> true !in bs
    ensures n == |bs| <==> false !in bs
  {
    if bs == [] then 0
    else
      assert forall b :: b in bs <==> b in bs[..|bs| - 1] || b == bs[|bs| - 1];
      CountTrue(bs[..|bs| - 1]) + (if bs[|bs| - 1] then 1 else 0)
  }

  /** The statistics of a non-empty bootstrap distribution. `variance` is the
      square of the `.std()` numpy reports (population form). */
  datatype Estimate = Estimate(mean: real, variance: real, ciLow: real, ciHigh: real, distribution: seq<real>)

  /** What a bootstrap function returns: the same value for all four
      statistics and no distribution, the statistics of a distribution, or
      the exception `np.percentile` raises on an empty one. */
  datatype Outcome = Constant(value: Option<real>) | Resampled(est: Estimate) | Raises

  /** The statistics computed from `dist`, with the CI bounds at percentiles
      `qLow` and `qHigh`. */
  function Summarize(dist: seq<real>, qLow: real, qHigh: real, pct: Percentile): (out: Outcome)
    ensures out.Raises? <==> |dist| == 0
    ensures out.Resampled? ==> out.est.distribution == dist && out.est.variance >= 0.0
  {
    if |dist| == 0 then Raises
    else Resampled(Estimate(Mean(dist), PopulationVariance(dist), pct(dist, qLow), pct(dist, qHigh), dist))
  }

  /** A distribution within [lo, hi] has its mean and both CI bounds there,
      and the CI bounds in order. */
  lemma SummaryWithin(dist: seq<real>, lo: real, hi: real, qLow: real, qHigh: real, pct: Percentile)
    requires SanePercentile(pct)
    requires |dist| > 0 && forall k :: 0 <= k < |dist| ==> lo <= dist[k] <= hi
    requires 0.0 <= qLow <= qHigh <= 100.0
    ensures Summarize(dist, qLow, qHigh, pct).Resampled?
    ensures var e := Summarize(dist, qLow, qHigh, pct).est;
            lo <= e.mean <= hi && lo <= e.ciLow <= e.ciHigh <= hi
  {
    MeanWithin(dist, lo, hi);
    var i :| 0 <= i < |dist| && dist[i] == Min(dist);
    var j :| 0 <= j < |dist| && dist[j] == Max(dist);
  }

  // ---------------------------------------------------------------------------
  // bootstrap_rate
  // ---------------------------------------------------------------------------

  /** `sample.mean() * 100` for a boolean resample: its percentage of true outcomes. */
  function SampleRate(data: seq<bool>, draw: seq<nat>): (r: real)
    requires |data| > 0 && |draw| == |data| && forall i :: 0 <= i < |draw| ==> draw[i] < |data|
    ensures 0.0 <= r <= 100.0
  {
    Percent(CountTrue(Resample(data, draw)), |data|)
  }

  /** The bootstrap distribution of the rate, one entry per draw. */
  function ResampledRates(data: seq<bool>, draws: seq<seq<nat>>): (rates: seq<real>)
    requires |data| > 0 && ValidDraws(draws, |data|)
    ensures |rates| == |draws|
    ensures forall k :: 0 <= k < |draws| ==> 0.0 <= rates[k] <= 100.0
  {
    seq(|draws|, k requires 0 <= k < |draws| => SampleRate(data, draws[k]))
  }

  /** `bootstrap_rate(data, n_iterations, alpha)` with `draws` the resamples:
      all zeros for empty data, otherwise the statistics of the resampled
      rates with the CI at the alpha/2 and 1 - alpha/2 percentiles. */
  function RateOutcome(data: seq<bool>, alpha: real, draws: seq<seq<nat>>, pct: Percentile): (out: Outcome)
    requires |data| > 0 ==> ValidDraws(draws, |data|)
    ensures out.Constant? <==> |data| == 0
    ensures out.Constant? ==> out.value == Some(0.0)
    ensures out.Raises? <==> |data| > 0 && |draws| == 0
    ensures out.Resampled? ==> |out.est.distribution| == |draws|
                               && forall k :: 0 <= k < |draws| ==> 0.0 <= out.est.distribution[k] <= 100.0
  {
    if |data| == 0 then Constant(Some(0.0))
    else Summarize(ResampledRates(data, draws), alpha / 2.0 * 100.0, (1.0 - alpha / 2.0) * 100.0, pct)
  }

  /** The resampling loop: one rate per draw, in draw order. */
  method ResampleRates(data: seq<bool>, draws: seq<seq<nat>>) returns (rates: seq<real>)
    requires |data| > 0 && ValidDraws(draws, |data|)
    ensures rates == ResampledRates(data, draws)
  {
    rates := [];
    for k := 0 to |draws|
      invariant |rates| == k
      invariant forall j :: 0 <= j < k ==> rates[j] == SampleRate(data, draws[j])
    {
      var sample := Resample(data, draws[k]);
      rates := rates + [Percent(CountTrue(sample), |data|)];
    }
  }

  method BootstrapRate(data: seq<bool>, nIterations: nat, alpha: real, draws: seq<seq<nat>>, pct: Percentile)
    returns (out: Outcome)
    requires |data| > 0 ==> |draws| == nIterations && ValidDraws(draws, |data|)
    ensures out == RateOutcome(data, alpha, draws, pct)
  {
    var n := |data|;
    if n == 0 {
      return Constant(Some(0.0));
    }
    var rates := ResampleRates(data, draws);
    out := Summarize(rates, alpha / 2.0 * 100.0, (1.0 - alpha / 2.0) * 100.0, pct);
  }

  /** On non-empty data with at least one iteration, the bootstrap mean and
      both CI bounds are percentages and the CI bounds are in order when
      alpha <= 1. */
  lemma BootstrapRateBounds(data: seq<bool>, alpha: real, draws: seq<seq<nat>>, pct: Percentile)
    requires SanePercentile(pct) && 0.0 <= alpha <= 1.0
    requires |data| > 0 && |draws| > 0 && ValidDraws(draws, |data|)
    ensures RateOutcome(data, alpha, draws, pct).Resampled?
    ensures var e := RateOutcome(data, alpha, draws, pct).est;
            0.0 <= e.mean <= 100.0 && 0.0 <= e.ciLow <= e.ciHigh <= 100.0
  {
    SummaryWithin(ResampledRates(data, draws), 0.0, 100.0, alpha / 2.0 * 100.0, (1.0 - alpha / 2.0) * 100.0, pct);
  }

  /** Data without a single success resamples to a rate of 0 every time, so
      the mean and both CI bounds are 0. */
  lemma NoSuccessesGiveZero(data: seq<bool>, alpha: real, draws: seq<seq<nat>>, pct: Percentile)
    requires SanePercentile(pct) && 0.0 <= alpha <= 1.0
    requires |data| > 0 && |draws| > 0 && ValidDraws(draws, |data|)
    requires true !in data
    ensures RateOutcome(data, alpha, draws, pct).Resampled?
    ensures var e := RateOutcome(data, alpha, draws, pct).est;
            e.mean == 0.0 && e.ciLow == 0.0 && e.ciHigh == 0.0
            && forall k :: 0 <= k < |draws| ==> e.distribution[k] == 0.0
  {
    var rates := ResampledRates(data, draws);
    forall k | 0 <= k < |draws|
      ensures rates[k] == 0.0
    {
      var sample := Resample(data, draws[k]);
      assert true !in sample;
    }
    SummaryWithin(rates, 0.0, 0.0, alpha / 2.0 * 100.0, (1.0 - alpha / 2.0) * 100.0, pct);
  }

  /** Data of successes only resamples to 100 every time. */
  lemma AllSuccessesGiveHundred(data: seq<bool>, alpha: real, draws: seq<seq<nat>>, pct: Percentile)
    requires SanePercentile(pct) && 0.0 <= alpha <= 1.0
    requires |data| > 0 && |draws| > 0 && ValidDraws(draws, |data|)
    requires false !in data
    ensures RateOutcome(data, alpha, draws, pct).Resampled?
    ensures var e := RateOutcome(data, alpha, draws, pct).est;
            e.mean == 100.0 && e.ciLow == 100.0 && e.ciHigh == 100.0
            && forall k :: 0 <= k < |draws| ==> e.distribution[k] == 100.0
  {
    var rates := ResampledRates(data, draws);
    forall k | 0 <= k < |draws|
      ensures rates[k] == 100.0
    {
      var sample := Resample(data, draws[k]);
      assert false !in sample;
    }
    SummaryWithin(rates, 100.0, 100.0, alpha / 2.0 * 100.0, (1.0 - alpha / 2.0) * 100.0, pct);
  }

  // ---------------------------------------------------------------------------
  // bootstrap_mean
  // ---------------------------------------------------------------------------

  /** `data[~np.isnan(data)]` */
  function Present(xs: seq<Option<real>>): (ys: seq<real>)
    ensures |ys| <= |xs|
    ensures forall y :: y in ys <==> Some(y) in xs
  {
    if xs == [] then []
    else
      var init := Present(xs[..|xs| - 1]);
      assert forall x :: x in xs <==> x in xs[..|xs| - 1] || x == xs[|xs| - 1];
      if xs[|xs| - 1].Some? then init + [xs[|xs| - 1].value] else init
  }

  /** Removing NaNs keeps every value as many times as the data holds it. */
  lemma {:induction false} PresentMultiplicity(xs: seq<Option<real>>)
    ensures forall y :: multiset(Present(xs))[y] == multiset(xs)[Some(y)]
  {
    if xs != [] {
      var init := xs[..|xs| - 1];
      PresentMultiplicity(init);
      assert xs == init + [xs[|xs| - 1]];
    }
  }

  /** Removing NaNs keeps the data's order. */
  lemma {:induction false} PresentConcat(a: seq<Option<real>>, b: seq<Option<real>>)
    ensures Present(a + b) == Present(a) + Present(b)
    decreases |b|
  {
    if b == [] {
      assert a + b == a;
    } else {
      var init := b[..|b| - 1];
      PresentConcat(a, init);
      ConcatInit(a, b);
    }
  }

  /** `sample.mean()` of a resample: between the smallest and largest value. */
  function SampleMean(data: seq<real>, draw: seq<nat>): (m: real)
    requires |data| > 0 && |draw| == |data| && forall i :: 0 <= i < |draw| ==> draw[i] < |data|
    ensures Min(data) <= m <= Max(data)
  {
    var sample := Resample(data, draw);
    MeanWithin(sample, Min(data), Max(data));
    Mean(sample)
  }

  function ResampledMeans(data: seq<real>, draws: seq<seq<nat>>): (means: seq<real>)
    requires |data| > 0 && ValidDraws(draws, |data|)
    ensures |means| == |draws|
    ensures forall k :: 0 <= k < |draws| ==> Min(data) <= means[k] <= Max(data)
  {
    seq(|draws|, k requires 0 <= k < |draws| => SampleMean(data, draws[k]))
  }

  /** `bootstrap_mean(data, n_iterations, alpha)`: NaN for every statistic
      when no value is present, otherwise the statistics of the resampled
      means of the present values. */
  function MeanOutcome(data: seq<Option<real>>, alpha: real, draws: seq<seq<nat>>, pct: Percentile): (out: Outcome)
    requires |Present(data)| > 0 ==> ValidDraws(draws, |Present(data)|)
    ensures out.Constant? <==> |Present(data)| == 0
    ensures out.Constant? ==> out.value.None?
    ensures out.Raises? <==> |Present(data)| > 0 && |draws| == 0
    ensures |Present(data)| > 0 ==>
              out.Raises? || (out.Resampled? && |out.est.distribution| == |draws|
                              && forall k :: 0 <= k < |draws| ==>
                                   Min(Present(data)) <= out.est.distribution[k] <= Max(Present(data)))
  {
    var clean := Present(data);
    if |clean| == 0 then Constant(None)
    else Summarize(ResampledMeans(clean, draws), alpha / 2.0 * 100.0, (1.0 - alpha / 2.0) * 100.0, pct)
  }

  /** The resampling loop of `bootstrap_mean`: one mean per draw. */
  method ResampleMeans(data: seq<real>, draws: seq<seq<nat>>) returns (means: seq<real>)
    requires |data| > 0 && ValidDraws(draws, |data|)
    ensures means == ResampledMeans(data, draws)
  {
    means := [];
    for k := 0 to |draws|
      invariant |means| == k
      invariant forall j :: 0 <= j < k ==> means[j] == SampleMean(data, draws[j])
    {
      var sample := Resample(data, draws[k]);
      means := means + [Mean(sample)];
    }
  }

  method BootstrapMean(data: seq<Option<real>>, nIterations: nat, alpha: real, draws: seq<seq<nat>>, pct: Percentile)
    returns (out: Outcome)
    requires |Present(data)| > 0 ==> |draws| == nIterations && ValidDraws(draws, |Present(data)|)
    ensures out == MeanOutcome(data, alpha, draws, pct)
  {
    var clean := Present(data);
    var n := |clean|;
    if n == 0 {
      return Constant(None);
    }
    var means := ResampleMeans(clean, draws);
    out := Summarize(means, alpha / 2.0 * 100.0, (1.0 - alpha / 2.0) * 100.0, pct);
  }

  /** With values present and at least one iteration, the bootstrap mean and
      both CI bounds lie between the smallest and largest present value, and
      the CI bounds are in order when alpha <= 1. */
  lemma BootstrapMeanBounds(data: seq<Option<real>>, alpha: real, draws: seq<seq<nat>>, pct: Percentile)
    requires SanePercentile(pct) && 0.0 <= alpha <= 1.0
    requires |Present(data)| > 0 && |draws| > 0 && ValidDraws(draws, |Present(data)|)
    ensures MeanOutcome(data, alpha, draws, pct).Resampled?
    ensures var e := MeanOutcome(data, alpha, draws, pct).est;
            Min(Present(data)) <= e.mean <= Max(Present(data))
            && Min(Present(data)) <= e.ciLow <= e.ciHigh <= Max(Present(data))
  {
    var clean := Present(data);
    SummaryWithin(ResampledMeans(clean, draws), Min(clean), Max(clean),
                  alpha / 2.0 * 100.0, (1.0 - alpha / 2.0) * 100.0, pct);
  }

  // ---------------------------------------------------------------------------
  // The NaN -> False handling of `main`
  // ---------------------------------------------------------------------------

  /** `.fillna(False).values` of a boolean column. */
  function FillFalse(col: seq<Option<bool>>): (bs: seq<bool>)
    ensures |bs| == |col|
    ensures forall i :: 0 <= i < |col| ==> bs[i] == IsTrue(col[i])
  {
    seq(|col|, i requires 0 <= i < |col| => IsTrue(col[i]))
  }

  /** `df['CE_occurred'].fillna(False).values` */
  function CeFlags(rows: seq<Row>): (flags: seq<bool>)
    ensures |flags| == |rows|
    ensures forall i :: 0 <= i < |rows| ==> flags[i] == IsTrue(rows[i].ce)
  {
    FillFalse(seq(|rows|, i requires 0 <= i < |rows| => rows[i].ce))
  }

  /** `ce_events['survived_CE'].fillna(False).values` */
  function SurvivedFlags(rows: seq<Row>): (flags: seq<bool>)
    ensures |flags| == |rows|
    ensures forall i :: 0 <= i < |rows| ==> flags[i] == IsTrue(rows[i].survived)
  {
    FillFalse(seq(|rows|, i requires 0 <= i < |rows| => rows[i].survived))
  }

  /** The flags bootstrapped for the CE rate hold exactly the CE events: a
      missing cell counts as no CE. */
  lemma {:induction false} CeFlagsCountCe(rows: seq<Row>)
    ensures CountTrue(CeFlags(rows)) == CountCe(rows)
  {
    if rows != [] {
      var init := rows[..|rows| - 1];
      CeFlagsCountCe(init);
      var flags := CeFlags(rows);
      assert flags[..|rows| - 1] == CeFlags(init) by {
        assert forall i :: 0 <= i < |init| ==> init[i] == rows[i];
      }
    }
  }

  /** The flags bootstrapped for the survival rate hold exactly the
      survivors: a missing cell counts as not surviving. */
  lemma {:induction false} SurvivedFlagsCountSurvived(rows: seq<Row>)
    ensures CountTrue(SurvivedFlags(rows)) == CountSurvived(rows)
  {
    if rows != [] {
      var init := rows[..|rows| - 1];
      SurvivedFlagsCountSurvived(init);
      var flags := SurvivedFlags(rows);
      assert flags[..|rows| - 1] == SurvivedFlags(init) by {
        assert forall i :: 0 <= i < |init| ==> init[i] == rows[i];
      }
    }
  }

  // ---------------------------------------------------------------------------
  // bootstrap_survival_by_lambda
  // ---------------------------------------------------------------------------

  /** `(lambda_CE >= bin_min) & (lambda_CE < bin_max)` */
  function InBootBin(lo: real, hi: real): Row -> bool
  {
    (r: Row) => InHalfOpen(r.lambda, lo, hi)
  }

  /** `range(len(lambda_bins) - 1)` is empty for fewer than two edges. */
  function NBins(edges: seq<real>): nat
  {
    if |edges| == 0 then 0 else |edges| - 1
  }

  function BinOf(ceData: seq<Row>, edges: seq<real>, i: nat): seq<Row>
    requires i + 1 < |edges|
  {
    Where(ceData, InBootBin(edges[i], edges[i + 1]))
  }

  /** One draw sequence per bin; a non-empty bin's holds `nIterations`
      resamples of its rows. */
  predicate BinDraws(ceData: seq<Row>, edges: seq<real>, nIterations: nat, draws: seq<seq<seq<nat>>>)
  {
    && |draws| == NBins(edges)
    && forall i :: 0 <= i < NBins(edges) ==>
         |BinOf(ceData, edges, i)| > 0 ==> |draws[i]| == nIterations && ValidDraws(draws[i], |BinOf(ceData, edges, i)|)
  }

  /** A non-empty bin [lo, hi) with its row count and `bootstrap_rates`. */
  datatype BinSample = BinSample(lo: real, hi: real, nSystems: nat, rates: seq<real>)

  /** The non-empty bins among the first `n`, in order, each with the
      survival percentages of its `nIterations` resamples. */
  function BinSamples(ceData: seq<Row>, edges: seq<real>, nIterations: nat, draws: seq<seq<seq<nat>>>,
                      n: nat): (samples: seq<BinSample>)
    requires n <= NBins(edges) && BinDraws(ceData, edges, nIterations, draws)
    ensures |samples| <= n
    ensures forall j :: 0 <= j < |samples| ==>
              samples[j].nSystems > 0 && |samples[j].rates| == nIterations
              && forall k :: 0 <= k < nIterations ==> 0.0 <= samples[j].rates[k] <= 100.0
  {
    if n == 0 then []
    else
      var prev := BinSamples(ceData, edges, nIterations, draws, n - 1);
      var bin := BinOf(ceData, edges, n - 1);
      if |bin| == 0 then prev
      else prev + [BinSample(edges[n - 1], edges[n], |bin|, ResampledRates(SurvivedFlags(bin), draws[n - 1]))]
  }

  /** One row of `survival_vs_lambda_bootstrap.csv`. */
  datatype BinEstimate = BinEstimate(lo: real, hi: real, nSystems: nat, survival: Estimate)

  /** The row of a bin whose distribution is not empty: its mean, spread and
      CI at the 2.5 and 97.5 percentiles. */
  function EstimateOf(s: BinSample, pct: Percentile): BinEstimate
    requires |s.rates| > 0
  {
    BinEstimate(s.lo, s.hi, s.nSystems, Summarize(s.rates, 2.5, 97.5, pct).est)
  }

  /** The rows of bins whose distributions are all non-empty, in order. */
  function EstimatesOf(samples: seq<BinSample>, pct: Percentile): (rows: seq<BinEstimate>)
    requires forall j :: 0 <= j < |samples| ==> |samples[j].rates| > 0
    ensures |rows| == |samples|
    ensures forall j :: 0 <= j < |samples| ==> rows[j] == EstimateOf(samples[j], pct)
  {
    seq(|samples|, j requires 0 <= j < |samples| => EstimateOf(samples[j], pct))
  }

  lemma AppendEstimate(prev: seq<BinSample>, s: BinSample, pct: Percentile)
    requires forall j :: 0 <= j < |prev| ==> |prev[j].rates| > 0
    requires |s.rates| > 0
    ensures EstimatesOf(prev + [s], pct) == EstimatesOf(prev, pct) + [EstimateOf(s, pct)]
  {
    var all := prev + [s];
    assert forall j :: 0 <= j < |prev| ==> all[j] == prev[j];
  }

  /** The rows, or None when `np.percentile` raises on a non-empty bin with an
      empty distribution. */
  function BinEstimates(ceData: seq<Row>, edges: seq<real>, nIterations: nat, draws: seq<seq<seq<nat>>>,
                        pct: Percentile): Option<seq<BinEstimate>>
    requires BinDraws(ceData, edges, nIterations, draws)
  {
    var samples := BinSamples(ceData, edges, nIterations, draws, NBins(edges));
    if exists j :: 0 <= j < |samples| && samples[j].rates == [] then None
    else Some(EstimatesOf(samples, pct))
  }

  /** Looking at more bins only adds samples at the end. */
  lemma {:induction false} SamplesPrefix(ceData: seq<Row>, edges: seq<real>, nIterations: nat,
                                         draws: seq<seq<seq<nat>>>, m: nat, n: nat)
    requires m <= n <= NBins(edges) && BinDraws(ceData, edges, nIterations, draws)
    ensures |BinSamples(ceData, edges, nIterations, draws, m)| <= |BinSamples(ceData, edges, nIterations, draws, n)|
    ensures BinSamples(ceData, edges, nIterations, draws, m)
              == BinSamples(ceData, edges, nIterations, draws, n)[..|BinSamples(ceData, edges, nIterations, draws, m)|]
    decreases n
  {
    if m < n {
      SamplesPrefix(ceData, edges, nIterations, draws, m, n - 1);
      var prev := BinSamples(ceData, edges, nIterations, draws, n - 1);
      var samples := BinSamples(ceData, edges, nIterations, draws, n);
      assert samples[..|prev|] == prev;
      var k := |BinSamples(ceData, edges, nIterations, draws, m)|;
      assert samples[..k] == prev[..k];
    } else {
      var samples := BinSamples(ceData, edges, nIterations, draws, n);
      assert samples[..|samples|] == samples;
    }
  }

  method BootstrapSurvivalByLambda(ceData: seq<Row>, edges: seq<real>, nIterations: nat,
                                   draws: seq<seq<seq<nat>>>, pct: Percentile)
    returns (rows: Option<seq<BinEstimate>>)
    requires BinDraws(ceData, edges, nIterations, draws)
    ensures rows == BinEstimates(ceData, edges, nIterations, draws, pct)
  {
    var binResults: seq<BinEstimate> := [];
    for i := 0 to NBins(edges)
      invariant forall j :: 0 <= j < |BinSamples(ceData, edges, nIterations, draws, i)| ==>
                  |BinSamples(ceData, edges, nIterations, draws, i)[j].rates| > 0
      invariant binResults == EstimatesOf(BinSamples(ceData, edges, nIterations, draws, i), pct)
    {
      var binData := Where(ceData, InBootBin(edges[i], edges[i + 1]));
      assert binData == BinOf(ceData, edges, i);
      if |binData| > 0 {
        var rates := ResampleRates(SurvivedFlags(binData), draws[i]);
        var stats := Summarize(rates, 2.5, 97.5, pct);
        if !stats.Resampled? {
          ghost var samples := BinSamples(ceData, edges, nIterations, draws, i + 1);
          SamplesPrefix(ceData, edges, nIterations, draws, i + 1, NBins(edges));
          assert samples[|samples| - 1].rates == [];
          return None;
        }
        ghost var prev := BinSamples(ceData, edges, nIterations, draws, i);
        ghost var sample := BinSample(edges[i], edges[i + 1], |binData|, rates);
        assert BinSamples(ceData, edges, nIterations, draws, i + 1) == prev + [sample];
        assert BinEstimate(edges[i], edges[i + 1], |binData|, stats.est) == EstimateOf(sample, pct);
        AppendEstimate(prev, sample, pct);
        binResults := binResults + [BinEstimate(edges[i], edges[i + 1], |binData|, stats.est)];
      }
    }
    rows := Some(binResults);
  }

  /** There is a sample iff some bin among the first `n` is non-empty. */
  lemma {:induction false} SamplesNonEmpty(ceData: seq<Row>, edges: seq<real>, nIterations: nat,
                                           draws: seq<seq<seq<nat>>>, n: nat)
    requires n <= NBins(edges) && BinDraws(ceData, edges, nIterations, draws)
    ensures BinSamples(ceData, edges, nIterations, draws, n) != [] <==>
              exists i :: 0 <= i < n && |BinOf(ceData, edges, i)| > 0
  {
    if n > 0 {
      SamplesNonEmpty(ceData, edges, nIterations, draws, n - 1);
      if |BinOf(ceData, edges, n - 1)| > 0 {
        assert exists i :: 0 <= i < n && |BinOf(ceData, edges, i)| > 0;
      }
      if exists i :: 0 <= i < n - 1 && |BinOf(ceData, edges, i)| > 0 {
        var i :| 0 <= i < n - 1 && |BinOf(ceData, edges, i)| > 0;
        assert 0 <= i < n && |BinOf(ceData, edges, i)| > 0;
      }
    }
  }

  /** The call raises iff there are no iterations and some bin is non-empty. */
  lemma BinEstimatesRaise(ceData: seq<Row>, edges: seq<real>, nIterations: nat,
                          draws: seq<seq<seq<nat>>>, pct: Percentile)
    requires BinDraws(ceData, edges, nIterations, draws)
    ensures BinEstimates(ceData, edges, nIterations, draws, pct).None? <==>
              nIterations == 0 && exists i :: 0 <= i < NBins(edges) && |BinOf(ceData, edges, i)| > 0
  {
    SamplesNonEmpty(ceData, edges, nIterations, draws, NBins(edges));
    var samples := BinSamples(ceData, edges, nIterations, draws, NBins(edges));
    if nIterations == 0 && samples != [] {
      assert samples[0].rates == [];
    }
  }

  /** Every sample comes from a non-empty bin [edges[i], edges[i+1]) among the
      first `n` and counts its rows. */
  lemma {:induction false} SamplesSound(ceData: seq<Row>, edges: seq<real>, nIterations: nat,
                                        draws: seq<seq<seq<nat>>>, n: nat)
    requires n <= NBins(edges) && BinDraws(ceData, edges, nIterations, draws)
    ensures forall s :: s in BinSamples(ceData, edges, nIterations, draws, n) ==>
              exists i :: 0 <= i < n && s.lo == edges[i] && s.hi == edges[i + 1]
                          && s.nSystems == |BinOf(ceData, edges, i)|
  {
    if n > 0 {
      SamplesSound(ceData, edges, nIterations, draws, n - 1);
      var prev := BinSamples(ceData, edges, nIterations, draws, n - 1);
      var samples := BinSamples(ceData, edges, nIterations, draws, n);
      forall s | s in samples
        ensures exists i :: 0 <= i < n && s.lo == edges[i] && s.hi == edges[i + 1]
                            && s.nSystems == |BinOf(ceData, edges, i)|
      {
        if s in prev {
          var i :| 0 <= i < n - 1 && s.lo == edges[i] && s.hi == edges[i + 1]
                   && s.nSystems == |BinOf(ceData, edges, i)|;
          assert 0 <= i < n;
        } else {
          assert s.lo == edges[n - 1];
        }
      }
    }
  }

  /** Every non-empty bin among the first `n` has its sample. */
  lemma {:induction false} SamplesComplete(ceData: seq<Row>, edges: seq<real>, nIterations: nat,
                                           draws: seq<seq<seq<nat>>>, n: nat, i: nat)
    requires n <= NBins(edges) && BinDraws(ceData, edges, nIterations, draws)
    requires i < n && |BinOf(ceData, edges, i)| > 0
    ensures exists s :: s in BinSamples(ceData, edges, nIterations, draws, n)
                        && s.lo == edges[i] && s.hi == edges[i + 1] && s.nSystems == |BinOf(ceData, edges, i)|
  {
    var samples := BinSamples(ceData, edges, nIterations, draws, n);
    if i < n - 1 {
      SamplesComplete(ceData, edges, nIterations, draws, n - 1, i);
      var prev := BinSamples(ceData, edges, nIterations, draws, n - 1);
      var s :| s in prev && s.lo == edges[i] && s.hi == edges[i + 1] && s.nSystems == |BinOf(ceData, edges, i)|;
      assert s in samples;
    } else {
      assert samples[|samples| - 1].lo == edges[i];
    }
  }

  /** With strictly increasing edges the samples come in edge order, each at
      or below the lower edge of the last bin looked at. */
  lemma {:induction false} SamplesOrdered(ceData: seq<Row>, edges: seq<real>, nIterations: nat,
                                          draws: seq<seq<seq<nat>>>, n: nat)
    requires StrictlyIncreasing(edges)
    requires n <= NBins(edges) && BinDraws(ceData, edges, nIterations, draws)
    ensures forall j, k :: 0 <= j < k < |BinSamples(ceData, edges, nIterations, draws, n)| ==>
              BinSamples(ceData, edges, nIterations, draws, n)[j].lo < BinSamples(ceData, edges, nIterations, draws, n)[k].lo
    ensures n > 0 ==> forall s :: s in BinSamples(ceData, edges, nIterations, draws, n) ==> s.lo <= edges[n - 1]
  {
    if n > 0 {
      SamplesOrdered(ceData, edges, nIterations, draws, n - 1);
      var prev := BinSamples(ceData, edges, nIterations, draws, n - 1);
      if n > 1 {
        assert edges[n - 2] < edges[n - 1];
      }
      var samples := BinSamples(ceData, edges, nIterations, draws, n);
      forall j | 0 <= j < |prev|
        ensures prev[j].lo < edges[n - 1]
      {
        assert prev[j] in prev;
      }
      forall j, k | 0 <= j < k < |samples|
        ensures samples[j].lo < samples[k].lo
      {
        assert samples[j] == prev[j];
        if k < |prev| {
          assert samples[k] == prev[k];
          assert prev[j].lo < prev[k].lo;
        } else {
          assert samples[k].lo == edges[n - 1];
        }
      }
    }
  }

  /** Each row comes from a non-empty bin [edges[i], edges[i+1]), counts its
      rows, holds `nIterations` resampled survival percentages with their mean
      in [0, 100], and takes its CI at the fixed 2.5 and 97.5 percentiles. */
  ghost predicate SoundBinEstimate(row: BinEstimate, ceData: seq<Row>, edges: seq<real>, nIterations: nat,
                                   pct: Percentile)
  {
    && (exists i :: 0 <= i < NBins(edges) && row.lo == edges[i] && row.hi == edges[i + 1]
                    && row.nSystems == |BinOf(ceData, edges, i)|)
    && row.nSystems > 0
    && |row.survival.distribution| == nIterations > 0
    && (forall k :: 0 <= k < nIterations ==> 0.0 <= row.survival.distribution[k] <= 100.0)
    && 0.0 <= row.survival.mean <= 100.0
    && row.survival.ciLow == pct(row.survival.distribution, 2.5)
    && row.survival.ciHigh == pct(row.survival.distribution, 97.5)
  }

  lemma BinEstimatesSound(ceData: seq<Row>, edges: seq<real>, nIterations: nat,
                          draws: seq<seq<seq<nat>>>, pct: Percentile)
    requires BinDraws(ceData, edges, nIterations, draws)
    ensures BinEstimates(ceData, edges, nIterations, draws, pct).Some? ==>
              forall row :: row in BinEstimates(ceData, edges, nIterations, draws, pct).value ==>
                SoundBinEstimate(row, ceData, edges, nIterations, pct)
  {
    var rows := BinEstimates(ceData, edges, nIterations, draws, pct);
    var samples := BinSamples(ceData, edges, nIterations, draws, NBins(edges));
    if rows.Some? {
      SamplesSound(ceData, edges, nIterations, draws, NBins(edges));
      forall row | row in rows.value
        ensures SoundBinEstimate(row, ceData, edges, nIterations, pct)
      {
        var j :| 0 <= j < |rows.value| && rows.value[j] == row;
        var s := samples[j];
        assert s in samples;
        assert row == EstimateOf(s, pct);
        MeanWithin(s.rates, 0.0, 100.0);
      }
    }
  }

  /** With a sane percentile routine every row's CI lies in [0, 100], low
      bound first. */
  lemma BinEstimatesCi(ceData: seq<Row>, edges: seq<real>, nIterations: nat,
                       draws: seq<seq<seq<nat>>>, pct: Percentile)
    requires SanePercentile(pct)
    requires BinDraws(ceData, edges, nIterations, draws)
    ensures BinEstimates(ceData, edges, nIterations, draws, pct).Some? ==>
              forall row :: row in BinEstimates(ceData, edges, nIterations, draws, pct).value ==>
                0.0 <= row.survival.ciLow <= row.survival.ciHigh <= 100.0
  {
    BinEstimatesSound(ceData, edges, nIterations, draws, pct);
    var rows := BinEstimates(ceData, edges, nIterations, draws, pct);
    if rows.Some? {
      forall row | row in rows.value
        ensures 0.0 <= row.survival.ciLow <= row.survival.ciHigh <= 100.0
      {
        assert SoundBinEstimate(row, ceData, edges, nIterations, pct);
        SummaryWithin(row.survival.distribution, 0.0, 100.0, 2.5, 97.5, pct);
      }
    }
  }

  /** Every non-empty bin gets its row. */
  lemma BinEstimatesComplete(ceData: seq<Row>, edges: seq<real>, nIterations: nat,
                             draws: seq<seq<seq<nat>>>, pct: Percentile, i: nat)
    requires BinDraws(ceData, edges, nIterations, draws)
    requires i < NBins(edges) && |BinOf(ceData, edges, i)| > 0
    ensures BinEstimates(ceData, edges, nIterations, draws, pct).Some? ==>
              exists row :: row in BinEstimates(ceData, edges, nIterations, draws, pct).value
                            && row.lo == edges[i] && row.hi == edges[i + 1]
                            && row.nSystems == |BinOf(ceData, edges, i)|
  {
    var rows := BinEstimates(ceData, edges, nIterations, draws, pct);
    var samples := BinSamples(ceData, edges, nIterations, draws, NBins(edges));
    if rows.Some? {
      SamplesComplete(ceData, edges, nIterations, draws, NBins(edges), i);
      var s :| s in samples && s.lo == edges[i] && s.hi == edges[i + 1] && s.nSystems == |BinOf(ceData, edges, i)|;
      var j :| 0 <= j < |samples| && samples[j] == s;
      assert rows.value[j] == EstimateOf(s, pct);
      assert rows.value[j] in rows.value;
    }
  }

  /** With strictly increasing edges the rows come in edge order. */
  lemma BinEstimatesOrdered(ceData: seq<Row>, edges: seq<real>, nIterations: nat,
                            draws: seq<seq<seq<nat>>>, pct: Percentile)
    requires StrictlyIncreasing(edges)
    requires BinDraws(ceData, edges, nIterations, draws)
    ensures var rows := BinEstimates(ceData, edges, nIterations, draws, pct);
            rows.Some? ==> forall j, k :: 0 <= j < k < |rows.value| ==> rows.value[j].lo < rows.value[k].lo
  {
    SamplesOrdered(ceData, edges, nIterations, draws, NBins(edges));
    var samples := BinSamples(ceData, edges, nIterations, draws, NBins(edges));
    var rows := BinEstimates(ceData, edges, nIterations, draws, pct);
    if rows.Some? {
      assert rows.value == EstimatesOf(samples, pct);
      forall j, k | 0 <= j < k < |rows.value|
        ensures rows.value[j].lo < rows.value[k].lo
      {
        assert rows.value[j] == EstimateOf(samples[j], pct);
        assert rows.value[k] == EstimateOf(samples[k], pct);
        assert samples[j].lo < samples[k].lo;
      }
    }
  }
}
