/** The summary table of final_analysis.py: one row per metallicity, with
    the statistics of its results table and the range of its lambdas. */
module FinalSummary {
  import opened Common
  import opened Records
  import opened BinomialCi
  import opened DatasetStats

  /** One row of `summary_statistics.csv`. */
  datatype SummaryRow = SummaryRow(name: string, z: real, stats: Stats,
                                   lambdaMin: Option<real>, lambdaMax: Option<real>, systemsWithLambda: nat)

  /** The row for the table `df` of metallicity `z`; `ce_df` is its CE events
      that have a lambda. */
  function SummaryOf(name: string, df: seq<Row>, z: real, num: Numerics): (row: SummaryRow)
    ensures row.stats == StatsOf(df, num)
    ensures row.systemsWithLambda == |CeWithLambda(df)|
    ensures row.lambdaMin.None? <==> row.stats.lambdaMean.None?
    ensures row.lambdaMax.None? <==> row.stats.lambdaMean.None?
  {
    var ceDf := CeWithLambda(df);
    CeWithLambdaHasLambdas(df);
    if |ceDf| > 0 then
      SummaryRow(name, z, StatsOf(df, num), Some(Min(Lambdas(ceDf))), Some(Max(Lambdas(ceDf))), |ceDf|)
    else
      SummaryRow(name, z, StatsOf(df, num), None, None, |ceDf|)
  }

  /** When there are lambdas, min <= mean <= max, and every lambda of a CE
      event lies within [min, max]. */
  lemma SummaryLambdaRange(name: string, df: seq<Row>, z: real, num: Numerics)
    ensures var row := SummaryOf(name, df, z, num);
            row.stats.lambdaMean.Some? ==>
              row.lambdaMin.value <= row.stats.lambdaMean.value <= row.lambdaMax.value
              && forall r :: r in CeWithLambda(df) ==> row.lambdaMin.value <= r.lambda.value <= row.lambdaMax.value
  {
    var ceDf := CeWithLambda(df);
    CeWithLambdaHasLambdas(df);
    if |ceDf| > 0 {
      var ls := Lambdas(ceDf);
      MeanBetweenMinMax(ls);
      forall r | r in ceDf
        ensures Min(ls) <= r.lambda.value <= Max(ls)
      {
        assert r.lambda.value in ls;
      }
    }
  }

  /** The loop over `[('Solar', solar_Z, solar_ce, 0.014), ('Mid', ...),
      ('Low', ...)]`: one row per metallicity, in that order. */
  method Summarize(solar: seq<Row>, mid: seq<Row>, low: seq<Row>, num: Numerics) returns (rows: seq<SummaryRow>)
    ensures |rows| == 3
    ensures rows[0] == SummaryOf("Solar", solar, 0.014, num)
    ensures rows[1] == SummaryOf("Mid", mid, 0.006, num)
    ensures rows[2] == SummaryOf("Low", low, 0.001, num)
  {
    var datasets := [("Solar", solar, 0.014), ("Mid", mid, 0.006), ("Low", low, 0.001)];
    rows := [];
    for i := 0 to |datasets|
      invariant |rows| == i
      invariant forall j :: 0 <= j < i ==> rows[j] == SummaryOf(datasets[j].0, datasets[j].1, datasets[j].2, num)
    {
      var (name, df, z) := datasets[i];
      rows := rows + [SummaryOf(name, df, z, num)];
    }
  }
}
