/** The statistics of one results table that scripts/analyze_alpha_sweep.py
    (one row per loaded dataset) and final_analysis.py (one row per
    metallicity) both compute, with the same code: CE count and rate, the
    survivor count and the survival rate among CE events, their binomial
    intervals, and the lambda statistics of the CE events that have a lambda. */
module DatasetStats {
  import opened Common
  import opened Records
  import opened BinomialCi

  datatype Stats = Stats(total: nat, ceEvents: nat, ceRate: Option<real>, ceCi: (real, real),
                         survivors: nat, survivalRate: real, survivalCi: (real, real),
                         lambdaMean: Option<real>, lambdaVariance: Option<real>)

  /** Rows that all carry a lambda contribute one value each. */
  lemma {:induction false} AllLambdasPresent(rows: seq<Row>)
    requires forall r :: r in rows ==> r.lambda.Some?
    ensures |Lambdas(rows)| == |rows|
  {
    if rows != [] {
      assert forall r :: r in rows[..|rows| - 1] ==> r in rows;
      AllLambdasPresent(rows[..|rows| - 1]);
      assert rows[|rows| - 1] in rows;
    }
  }

  /** Every CE-with-lambda row has a lambda. */
  lemma CeWithLambdaHasLambdas(df: seq<Row>)
    ensures |Lambdas(CeWithLambda(df))| == |CeWithLambda(df)|
  {
    AllLambdasPresent(CeWithLambda(df));
  }

  /** The statistics of table `df`:
      - `ce_count / total * 100` is NaN (None) for an empty table, as numpy
        divides 0 by 0;
      - the survival rate and its interval are 0 and (0, 0) without CE events;
      - the lambda mean and spread are NaN without a CE event that has a
        lambda, and the spread also with only one. */
  function StatsOf(df: seq<Row>, num: Numerics): (s: Stats)
    ensures s.total == |df|
    ensures s.ceEvents == |CeEvents(df)| <= s.total
    ensures s.survivors == CountSurvived(df)
    ensures s.ceRate.None? <==> |df| == 0
    ensures s.ceRate.Some? ==> 0.0 <= s.ceRate.value <= 100.0
    ensures s.ceEvents == 0 ==> s.survivalRate == 0.0 && s.survivalCi == (0.0, 0.0)
    ensures s.lambdaMean.None? <==> |CeWithLambda(df)| == 0
    ensures s.lambdaVariance.Some? <==> |CeWithLambda(df)| >= 2
  {
    var total := |df|;
    var ceCount := CountCe(df);
    var survivalCount := CountSurvived(df);
    CountCeIsCeEvents(df);
    var ceDf := CeWithLambda(df);
    CeWithLambdaHasLambdas(df);
    Stats(total, ceCount,
          if total > 0 then Some(Percent(ceCount, total)) else None,
          WilsonCi(ceCount, total, 0.05, num),
          survivalCount,
          if ceCount > 0 then Percent(survivalCount, ceCount) else 0.0,
          if ceCount > 0 then WilsonCi(survivalCount, ceCount, 0.05, num) else (0.0, 0.0),
          if |ceDf| > 0 then Some(Mean(Lambdas(ceDf))) else None,
          SampleVariance(Lambdas(ceDf)))
  }

  /** In a consistent table (every survivor had a CE) the survivor count is
      at most the CE count, so the survival rate is a percentage; it is 0
      exactly when nobody survived. */
  lemma StatsSurvival(df: seq<Row>, num: Numerics)
    requires Consistent(df)
    ensures StatsOf(df, num).survivors <= StatsOf(df, num).ceEvents
    ensures 0.0 <= StatsOf(df, num).survivalRate <= 100.0
    ensures StatsOf(df, num).survivalRate == 0.0 <==> StatsOf(df, num).survivors == 0
  {
    SurvivorsAtMostCe(df);
    CountCeIsCeEvents(df);
  }

  /** With sane numerics both intervals are percentages with the lower bound
      first (the survival one in a consistent table). */
  lemma StatsIntervals(df: seq<Row>, num: Numerics)
    requires SaneNumerics(num)
    ensures 0.0 <= StatsOf(df, num).ceCi.0 <= StatsOf(df, num).ceCi.1 <= 100.0
    ensures Consistent(df) ==> 0.0 <= StatsOf(df, num).survivalCi.0 <= StatsOf(df, num).survivalCi.1 <= 100.0
  {
    CountCeIsCeEvents(df);
    WilsonCiOrdered(CountCe(df), |df|, 0.05, num);
    if Consistent(df) {
      SurvivorsAtMostCe(df);
      WilsonCiOrdered(CountSurvived(df), CountCe(df), 0.05, num);
    }
  }
}
