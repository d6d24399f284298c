/** The survival tables of scripts/physics_analysis.py: survival by donor type
    (`analyze_shell_vs_core`), by mass-ratio bin (`analyze_mass_ratio`) and by
    orbital-period bin (`analyze_orbital_period`), each split by metallicity. */
module Physics {
  import opened Common
  import opened Records
  import opened BinomialCi
  import opened DonorType

  /** The metallicities every table is split by, in output order. */
  const Metallicities: seq<real> := [0.014, 0.006, 0.001]

  /** `df['Z_val'] == Z` */
  function AtZ(z: real): Row -> bool
  {
    (r: Row) => r.z == z
  }

  /** Survivors of a non-empty group, as a percentage of the group. */
  function SurvivalRate(group: seq<Row>): (rate: real)
    requires |group| > 0
    ensures 0.0 <= rate <= 100.0
    ensures rate == 0.0 <==> CountSurvived(group) == 0
    ensures rate == 100.0 <==> CountSurvived(group) == |group|
  {
    Percent(CountSurvived(group), |group|)
  }

  // ---------------------------------------------------------------------------
  // Half-open bins
  // ---------------------------------------------------------------------------

  /** `(col >= lo) & (col < hi)`: a missing (NaN) cell compares false. */
  predicate InHalfOpen(x: Option<real>, lo: real, hi: real)
  {
    x.Some? && lo <= x.value < hi
  }

  ghost predicate Sorted(edges: seq<real>)
  {
    forall i, j :: 0 <= i < j < |edges| ==> edges[i] <= edges[j]
  }

  /** With sorted edges a value lies in at most one half-open bin. */
  lemma AtMostOneBin(x: Option<real>, edges: seq<real>, i: nat, j: nat)
    requires Sorted(edges)
    requires i + 1 < |edges| && j + 1 < |edges|
    requires InHalfOpen(x, edges[i], edges[i + 1]) && InHalfOpen(x, edges[j], edges[j + 1])
    ensures i == j
  {
  }

  /** A value equal to the top edge (q = 1.0, an equal-mass binary, for the
      mass-ratio bins) lies in no bin. */
  lemma TopEdgeInNoBin(x: real, edges: seq<real>)
    requires Sorted(edges) && |edges| > 0
    requires x == edges[|edges| - 1]
    ensures forall i :: 0 <= i < |edges| - 1 ==> !InHalfOpen(Some(x), edges[i], edges[i + 1])
  {
    forall i | 0 <= i < |edges| - 1
      ensures !InHalfOpen(Some(x), edges[i], edges[i + 1])
    {
      assert edges[i + 1] <= edges[|edges| - 1];
    }
  }

  // ---------------------------------------------------------------------------
  // Survival by mass ratio and by orbital period
  // ---------------------------------------------------------------------------

  /** The column a binned table bins on: `q_initial` or `P_initial`. */
  datatype Axis = MassRatio | Period

  function Coordinate(r: Row, axis: Axis): Option<real>
  {
    match axis
    case MassRatio => r.q
    case Period => Some(r.period)
  }

  function InAxisBin(axis: Axis, lo: real, hi: real): Row -> bool
  {
    (r: Row) => InHalfOpen(Coordinate(r, axis), lo, hi)
  }

  /** One row of `survival_vs_mass_ratio.csv` / `survival_vs_period.csv`. */
  datatype BinRow = BinRow(lo: real, hi: real, z: real, nSystems: nat, nSurvived: nat, rate: real, ci: (real, real))

  /** The row written for the records `group` of bin [lo, hi) at metallicity `z`. */
  function GroupRow(group: seq<Row>, lo: real, hi: real, z: real, num: Numerics): BinRow
    requires |group| > 0
  {
    BinRow(lo, hi, z, |group|, CountSurvived(group), SurvivalRate(group),
           WilsonCi(CountSurvived(group), |group|, 0.05, num))
  }

  /** The rows of one bin: one per metallicity in `zs` with records in the bin. */
  function ZRows(binData: seq<Row>, lo: real, hi: real, zs: seq<real>, num: Numerics): seq<BinRow>
  {
    if zs == [] then []
    else
      var z := zs[|zs| - 1];
      var group := Where(binData, AtZ(z));
      ZRows(binData, lo, hi, zs[..|zs| - 1], num)
      + (if |group| == 0 then [] else [GroupRow(group, lo, hi, z, num)])
  }

  /** The rows of bin [lo, hi): none when it is empty (`continue`). */
  function RowsInBin(allCe: seq<Row>, axis: Axis, lo: real, hi: real, num: Numerics): seq<BinRow>
  {
    var binData := Where(allCe, InAxisBin(axis, lo, hi));
    if |binData| == 0 then [] else ZRows(binData, lo, hi, Metallicities, num)
  }

  /** The rows `rowsOf` gives the first `n` bins of `edges`, bin after bin. */
  function Blocks<T>(edges: seq<real>, n: nat, rowsOf: (real, real) -> seq<T>): seq<T>
    requires n < |edges|
  {
    if n == 0 then [] else Blocks(edges, n - 1, rowsOf) + rowsOf(edges[n - 1], edges[n])
  }

  /** Every row `rowsOf` gives bin `i` is among those of the first `n` bins. */
  lemma {:induction false} BlocksInclude<T>(edges: seq<real>, n: nat, rowsOf: (real, real) -> seq<T>, i: nat, row: T)
    requires i < n < |edges|
    requires row in rowsOf(edges[i], edges[i + 1])
    ensures row in Blocks(edges, n, rowsOf)
    decreases n
  {
    if n != i + 1 {
      BlocksInclude(edges, n - 1, rowsOf, i, row);
    }
  }

  /** Every row `rowsOf` gives bin `k` satisfies `p`. */
  ghost predicate BlockHolds<T>(edges: seq<real>, rowsOf: (real, real) -> seq<T>, p: T -> bool, k: nat)
    requires k + 1 < |edges|
  {
    forall row :: row in rowsOf(edges[k], edges[k + 1]) ==> p(row)
  }

  /** When every bin's rows satisfy `p`, so do all rows of the first `n` bins. */
  lemma {:induction false} BlocksAll<T>(edges: seq<real>, n: nat, rowsOf: (real, real) -> seq<T>, p: T -> bool)
    requires n < |edges|
    requires forall k :: 0 <= k < n ==> BlockHolds(edges, rowsOf, p, k)
    ensures forall row :: row in Blocks(edges, n, rowsOf) ==> p(row)
  {
    if n > 0 {
      BlocksAll(edges, n - 1, rowsOf, p);
      assert BlockHolds(edges, rowsOf, p, n - 1);
    }
  }

  function PerBin(allCe: seq<Row>, axis: Axis, num: Numerics): (real, real) -> seq<BinRow>
  {
    (lo: real, hi: real) => RowsInBin(allCe, axis, lo, hi, num)
  }

  /** The whole table for bin edges `edges`. */
  function SurvivalTable(allCe: seq<Row>, axis: Axis, edges: seq<real>, num: Numerics): seq<BinRow>
  {
    if |edges| == 0 then [] else Blocks(edges, |edges| - 1, PerBin(allCe, axis, num))
  }

  /** The inner `for Z_val in [0.014, 0.006, 0.001]` loop for one bin. */
  method SplitByMetallicity(binData: seq<Row>, lo: real, hi: real, num: Numerics) returns (rows: seq<BinRow>)
    ensures rows == ZRows(binData, lo, hi, Metallicities, num)
  {
    rows := [];
    for k := 0 to |Metallicities|
      invariant rows == ZRows(binData, lo, hi, Metallicities[..k], num)
    {
      var z := Metallicities[k];
      var zData := Where(binData, AtZ(z));
      assert Metallicities[..k + 1][..k] == Metallicities[..k];
      if |zData| == 0 {
        continue;
      }
      var survived := CountSurvived(zData);
      rows := rows + [BinRow(lo, hi, z, |zData|, survived, SurvivalRate(zData),
                             WilsonCi(survived, |zData|, 0.05, num))];
    }
    assert Metallicities[..|Metallicities|] == Metallicities;
  }

  /** `analyze_mass_ratio(all_ce)` (axis `MassRatio`) and
      `analyze_orbital_period(all_ce)` (axis `Period`) for the given edges. */
  method AnalyzeBinned(allCe: seq<Row>, axis: Axis, edges: seq<real>, num: Numerics) returns (rows: seq<BinRow>)
    ensures rows == SurvivalTable(allCe, axis, edges, num)
  {
    rows := [];
    if |edges| == 0 {
      return;
    }
    for i := 0 to |edges| - 1
      invariant rows == Blocks(edges, i, PerBin(allCe, axis, num))
    {
      var binData := Where(allCe, InAxisBin(axis, edges[i], edges[i + 1]));
      var zRows: seq<BinRow> := [];
      if |binData| > 0 {
        zRows := SplitByMetallicity(binData, edges[i], edges[i + 1], num);
      }
      assert zRows == RowsInBin(allCe, axis, edges[i], edges[i + 1], num);
      rows := rows + zRows;
    }
  }

  /** What every row of a binned table satisfies: it describes the non-empty
      group of records in one bin at one of the three metallicities, with
      N_Survived <= N_Systems, the survival rate as a percentage, and a
      confidence interval ordered within [0, 100] when the numerics are sane. */
  ghost predicate SoundBinRow(row: BinRow, allCe: seq<Row>, axis: Axis, edges: seq<real>, num: Numerics)
  {
    var group := Where(Where(allCe, InAxisBin(axis, row.lo, row.hi)), AtZ(row.z));
    && (exists i :: 0 <= i < |edges| - 1 && row.lo == edges[i] && row.hi == edges[i + 1])
    && row.z in Metallicities
    && row.nSystems == |group| > 0
    && row.nSurvived == CountSurvived(group) <= row.nSystems
    && 0.0 <= row.rate <= 100.0 && row.rate == Percent(row.nSurvived, row.nSystems)
    && (SaneNumerics(num) ==> 0.0 <= row.ci.0 <= row.ci.1 <= 100.0)
  }

  /** The row of a non-empty group of bin `i` at one of the three metallicities is sound. */
  lemma GroupRowSound(allCe: seq<Row>, axis: Axis, edges: seq<real>, i: nat, z: real, num: Numerics)
    requires i + 1 < |edges|
    requires z in Metallicities
    requires |Where(Where(allCe, InAxisBin(axis, edges[i], edges[i + 1])), AtZ(z))| > 0
    ensures SoundBinRow(GroupRow(Where(Where(allCe, InAxisBin(axis, edges[i], edges[i + 1])), AtZ(z)),
                                 edges[i], edges[i + 1], z, num), allCe, axis, edges, num)
  {
    var group := Where(Where(allCe, InAxisBin(axis, edges[i], edges[i + 1])), AtZ(z));
    if SaneNumerics(num) {
      WilsonCiOrdered(CountSurvived(group), |group|, 0.05, num);
    }
  }

  lemma {:induction false} ZRowsSound(allCe: seq<Row>, axis: Axis, edges: seq<real>, i: nat, lo: real, hi: real,
                                      zs: seq<real>, num: Numerics)
    requires i + 1 < |edges| && lo == edges[i] && hi == edges[i + 1]
    requires forall z :: z in zs ==> z in Metallicities
    ensures forall row :: row in ZRows(Where(allCe, InAxisBin(axis, lo, hi)), lo, hi, zs, num)
                         ==> SoundBinRow(row, allCe, axis, edges, num)
  {
    if zs != [] {
      ZRowsSound(allCe, axis, edges, i, lo, hi, zs[..|zs| - 1], num);
      var z := zs[|zs| - 1];
      if |Where(Where(allCe, InAxisBin(axis, lo, hi)), AtZ(z))| > 0 {
        GroupRowSound(allCe, axis, edges, i, z, num);
      }
    }
  }

  /** Every row of bin `k` is sound. */
  lemma BinSound(allCe: seq<Row>, axis: Axis, edges: seq<real>, num: Numerics, k: nat)
    requires k + 1 < |edges|
    ensures forall row :: row in PerBin(allCe, axis, num)(edges[k], edges[k + 1]) ==> SoundBinRow(row, allCe, axis, edges, num)
  {
    ZRowsSound(allCe, axis, edges, k, edges[k], edges[k + 1], Metallicities, num);
  }

  ghost function IsSoundIn(allCe: seq<Row>, axis: Axis, edges: seq<real>, num: Numerics): BinRow -> bool
  {
    (row: BinRow) => SoundBinRow(row, allCe, axis, edges, num)
  }

  lemma BinsSound(allCe: seq<Row>, axis: Axis, edges: seq<real>, num: Numerics)
    ensures forall k :: 0 <= k < |edges| - 1 ==> BlockHolds(edges, PerBin(allCe, axis, num), IsSoundIn(allCe, axis, edges, num), k)
  {
    forall k | 0 <= k < |edges| - 1
      ensures BlockHolds(edges, PerBin(allCe, axis, num), IsSoundIn(allCe, axis, edges, num), k)
    {
      BinSound(allCe, axis, edges, num, k);
    }
  }

  /** Every row of a binned survival table is sound. */
  lemma SurvivalTableSound(allCe: seq<Row>, axis: Axis, edges: seq<real>, num: Numerics)
    ensures forall row :: row in SurvivalTable(allCe, axis, edges, num) ==> SoundBinRow(row, allCe, axis, edges, num)
  {
    if |edges| > 0 {
      BinsSound(allCe, axis, edges, num);
      BlocksAll(edges, |edges| - 1, PerBin(allCe, axis, num), IsSoundIn(allCe, axis, edges, num));
    }
  }

  lemma {:induction false} ZRowsComplete(binData: seq<Row>, lo: real, hi: real, zs: seq<real>, num: Numerics, z: real)
    requires z in zs && |Where(binData, AtZ(z))| > 0
    ensures GroupRow(Where(binData, AtZ(z)), lo, hi, z, num) in ZRows(binData, lo, hi, zs, num)
  {
    if z != zs[|zs| - 1] {
      assert z in zs[..|zs| - 1];
      ZRowsComplete(binData, lo, hi, zs[..|zs| - 1], num, z);
    }
  }

  lemma RowsInBinComplete(allCe: seq<Row>, axis: Axis, lo: real, hi: real, num: Numerics, z: real)
    requires z in Metallicities
    requires |Where(Where(allCe, InAxisBin(axis, lo, hi)), AtZ(z))| > 0
    ensures GroupRow(Where(Where(allCe, InAxisBin(axis, lo, hi)), AtZ(z)), lo, hi, z, num)
              in RowsInBin(allCe, axis, lo, hi, num)
  {
    ZRowsComplete(Where(allCe, InAxisBin(axis, lo, hi)), lo, hi, Metallicities, num, z);
  }

  /** Every non-empty (bin, Z) group gets its row: the one that counts that
      group's systems and survivors. */
  lemma SurvivalTableComplete(allCe: seq<Row>, axis: Axis, edges: seq<real>, num: Numerics, i: nat, z: real)
    requires i + 1 < |edges|
    requires z in Metallicities
    requires |Where(Where(allCe, InAxisBin(axis, edges[i], edges[i + 1])), AtZ(z))| > 0
    ensures GroupRow(Where(Where(allCe, InAxisBin(axis, edges[i], edges[i + 1])), AtZ(z)), edges[i], edges[i + 1], z, num)
              in SurvivalTable(allCe, axis, edges, num)
  {
    RowsInBinComplete(allCe, axis, edges[i], edges[i + 1], num, z);
    TableIncludesBin(allCe, axis, edges, num, i,
                     GroupRow(Where(Where(allCe, InAxisBin(axis, edges[i], edges[i + 1])), AtZ(z)), edges[i], edges[i + 1], z, num));
  }

  lemma TableIncludesBin(allCe: seq<Row>, axis: Axis, edges: seq<real>, num: Numerics, i: nat, row: BinRow)
    requires i + 1 < |edges|
    requires row in RowsInBin(allCe, axis, edges[i], edges[i + 1], num)
    ensures row in SurvivalTable(allCe, axis, edges, num)
  {
    assert row in PerBin(allCe, axis, num)(edges[i], edges[i + 1]);
    BlocksInclude(edges, |edges| - 1, PerBin(allCe, axis, num), i, row);
    assert SurvivalTable(allCe, axis, edges, num) == Blocks(edges, |edges| - 1, PerBin(allCe, axis, num));
  }

  // ---------------------------------------------------------------------------
  // Survival by donor type
  // ---------------------------------------------------------------------------

  /** `pd.concat` of every dataset's CE events. */
  function AllCe(datasets: seq<seq<Row>>): (all: seq<Row>)
    ensures forall r :: r in all ==> IsTrue(r.ce)
  {
    if datasets == [] then []
    else AllCe(datasets[..|datasets| - 1]) + CeEvents(datasets[|datasets| - 1])
  }

  /** Concatenating the per-dataset CE selections is selecting the CE events
      of the concatenated datasets: every CE event of every dataset, as often
      as it occurs, in dataset order. */
  lemma {:induction false} AllCeIsCeEventsOfConcat(datasets: seq<seq<Row>>)
    ensures AllCe(datasets) == CeEvents(Concat(datasets))
  {
    if datasets != [] {
      var init := datasets[..|datasets| - 1];
      AllCeIsCeEventsOfConcat(init);
      CeEventsConcat(Concat(init), datasets[|datasets| - 1]);
    }
  }

  /** Every CE event of every dataset is in the concatenation. */
  lemma {:induction false} AllCeComplete(datasets: seq<seq<Row>>)
    ensures forall d, r :: 0 <= d < |datasets| && r in datasets[d] && IsTrue(r.ce) ==> r in AllCe(datasets)
  {
    if datasets != [] {
      var init := datasets[..|datasets| - 1];
      AllCeComplete(init);
      forall d, r | 0 <= d < |datasets| && r in datasets[d] && IsTrue(r.ce)
        ensures r in AllCe(datasets)
      {
        if d < |init| {
          assert datasets[d] == init[d];
        } else {
          assert r in CeEvents(datasets[|datasets| - 1]);
        }
      }
    }
  }

  function OfType(t: DonorType): Row -> bool
  {
    (r: Row) => Classify(r.donorState) == t
  }

  /** `all_ce['donor_type'].unique()` */
  function DonorTypes(allCe: seq<Row>): seq<DonorType>
  {
    Unique(seq(|allCe|, i requires 0 <= i < |allCe| => Classify(allCe[i].donorState)))
  }

  /** Mean of the non-missing lambdas; NaN (None) when there are none. */
  function LambdaMean(group: seq<Row>): (m: Option<real>)
    ensures m.None? <==> Lambdas(group) == []
  {
    var ls := Lambdas(group);
    if |ls| > 0 then Some(Mean(ls)) else None
  }

  /** The square of their `std()`; NaN (None) with fewer than two lambdas. */
  function LambdaVariance(group: seq<Row>): (v: Option<real>)
    ensures v.Some? <==> |Lambdas(group)| >= 2
  {
    SampleVariance(Lambdas(group))
  }

  /** One row of `shell_vs_core_analysis.csv`. */
  datatype DonorRow = DonorRow(donorType: DonorType, z: real, nEvents: nat, nSurvived: nat, rate: real,
                               ci: (real, real), lambdaMean: Option<real>, lambdaVariance: Option<real>)

  /** The row written for the CE events `group` of donor type `t` at metallicity `z`. */
  function DonorGroupRow(group: seq<Row>, t: DonorType, z: real, num: Numerics): DonorRow
    requires |group| > 0
  {
    DonorRow(t, z, |group|, CountSurvived(group), SurvivalRate(group),
             WilsonCi(CountSurvived(group), |group|, 0.05, num),
             LambdaMean(group), LambdaVariance(group))
  }

  function DonorZRows(typeData: seq<Row>, t: DonorType, zs: seq<real>, num: Numerics): seq<DonorRow>
  {
    if zs == [] then []
    else
      var z := zs[|zs| - 1];
      var group := Where(typeData, AtZ(z));
      DonorZRows(typeData, t, zs[..|zs| - 1], num)
      + (if |group| == 0 then [] else [DonorGroupRow(group, t, z, num)])
  }

  function DonorRows(allCe: seq<Row>, types: seq<DonorType>, num: Numerics): seq<DonorRow>
  {
    if types == [] then []
    else
      var t := types[|types| - 1];
      DonorRows(allCe, types[..|types| - 1], num)
      + DonorZRows(Where(allCe, OfType(t)), t, Metallicities, num)
  }

  /** The whole shell-vs-core table. */
  function ShellVsCoreTable(allCe: seq<Row>, num: Numerics): seq<DonorRow>
  {
    DonorRows(allCe, DonorTypes(allCe), num)
  }

  /** `for name, df in datasets.items(): all_ce.append(df[df['CE_occurred'] == True])`. */
  method CombineCeEvents(datasets: seq<seq<Row>>) returns (allCe: seq<Row>)
    ensures allCe == AllCe(datasets)
  {
    allCe := [];
    for d := 0 to |datasets|
      invariant allCe == AllCe(datasets[..d])
    {
      assert datasets[..d + 1][..d] == datasets[..d];
      allCe := allCe + CeEvents(datasets[d]);
    }
    assert datasets[..|datasets|] == datasets;
  }

  /** The inner metallicity loop for one donor type. */
  method DonorTypeByMetallicity(typeData: seq<Row>, t: DonorType, num: Numerics) returns (rows: seq<DonorRow>)
    ensures rows == DonorZRows(typeData, t, Metallicities, num)
  {
    rows := [];
    for k := 0 to |Metallicities|
      invariant rows == DonorZRows(typeData, t, Metallicities[..k], num)
    {
      var z := Metallicities[k];
      var zData := Where(typeData, AtZ(z));
      assert Metallicities[..k + 1][..k] == Metallicities[..k];
      if |zData| == 0 {
        continue;
      }
      rows := rows + [DonorGroupRow(zData, t, z, num)];
    }
    assert Metallicities[..|Metallicities|] == Metallicities;
  }

  /** `analyze_shell_vs_core(datasets)`: the combined CE events and the table. */
  method AnalyzeShellVsCore(datasets: seq<seq<Row>>, num: Numerics) returns (allCe: seq<Row>, rows: seq<DonorRow>)
    ensures allCe == AllCe(datasets)
    ensures rows == ShellVsCoreTable(allCe, num)
  {
    allCe := CombineCeEvents(datasets);
    var types := DonorTypes(allCe);
    rows := [];
    for i := 0 to |types|
      invariant rows == DonorRows(allCe, types[..i], num)
    {
      assert types[..i + 1][..i] == types[..i];
      var typeRows := DonorTypeByMetallicity(Where(allCe, OfType(types[i])), types[i], num);
      rows := rows + typeRows;
    }
    assert types[..|types|] == types;
  }

  /** What every row of the donor-type table satisfies: it describes the
      non-empty group of CE events of one donor type at one metallicity; the
      lambda mean is missing exactly when no event of the group has a lambda
      and otherwise lies between the group's smallest and largest lambda. */
  ghost predicate SoundDonorRow(row: DonorRow, allCe: seq<Row>, num: Numerics)
  {
    var group := Where(Where(allCe, OfType(row.donorType)), AtZ(row.z));
    && row.z in Metallicities
    && row.nEvents == |group| > 0
    && row.nSurvived == CountSurvived(group) <= row.nEvents
    && row.rate == Percent(row.nSurvived, row.nEvents) && 0.0 <= row.rate <= 100.0
    && (SaneNumerics(num) ==> 0.0 <= row.ci.0 <= row.ci.1 <= 100.0)
    && (row.lambdaMean.None? <==> Lambdas(group) == [])
    && (row.lambdaMean.Some? ==> Min(Lambdas(group)) <= row.lambdaMean.value <= Max(Lambdas(group)))
    && (row.lambdaVariance.Some? ==> row.lambdaVariance.value >= 0.0)
  }

  /** The row of a non-empty group at one of the three metallicities is sound. */
  lemma DonorGroupRowSound(allCe: seq<Row>, t: DonorType, z: real, num: Numerics)
    requires z in Metallicities
    requires |Where(Where(allCe, OfType(t)), AtZ(z))| > 0
    ensures SoundDonorRow(DonorGroupRow(Where(Where(allCe, OfType(t)), AtZ(z)), t, z, num), allCe, num)
  {
    var group := Where(Where(allCe, OfType(t)), AtZ(z));
    if SaneNumerics(num) {
      WilsonCiOrdered(CountSurvived(group), |group|, 0.05, num);
    }
    if |Lambdas(group)| > 0 {
      MeanBetweenMinMax(Lambdas(group));
    }
  }

  lemma {:induction false} DonorZRowsSound(allCe: seq<Row>, t: DonorType, zs: seq<real>, num: Numerics)
    requires forall z :: z in zs ==> z in Metallicities
    ensures forall row :: row in DonorZRows(Where(allCe, OfType(t)), t, zs, num) ==> SoundDonorRow(row, allCe, num)
  {
    if zs != [] {
      DonorZRowsSound(allCe, t, zs[..|zs| - 1], num);
      var z := zs[|zs| - 1];
      if |Where(Where(allCe, OfType(t)), AtZ(z))| > 0 {
        DonorGroupRowSound(allCe, t, z, num);
      }
    }
  }

  lemma {:induction false} DonorRowsSound(allCe: seq<Row>, types: seq<DonorType>, num: Numerics)
    ensures forall row :: row in DonorRows(allCe, types, num) ==> SoundDonorRow(row, allCe, num)
  {
    if types != [] {
      DonorRowsSound(allCe, types[..|types| - 1], num);
      DonorZRowsSound(allCe, types[|types| - 1], Metallicities, num);
    }
  }

  /** Every row of the donor-type table is sound. */
  lemma ShellVsCoreSound(allCe: seq<Row>, num: Numerics)
    ensures forall row :: row in ShellVsCoreTable(allCe, num) ==> SoundDonorRow(row, allCe, num)
  {
    DonorRowsSound(allCe, DonorTypes(allCe), num);
  }

  lemma {:induction false} DonorZRowsComplete(typeData: seq<Row>, t: DonorType, zs: seq<real>, num: Numerics, z: real)
    requires z in zs && |Where(typeData, AtZ(z))| > 0
    ensures DonorGroupRow(Where(typeData, AtZ(z)), t, z, num) in DonorZRows(typeData, t, zs, num)
  {
    if z != zs[|zs| - 1] {
      assert z in zs[..|zs| - 1];
      DonorZRowsComplete(typeData, t, zs[..|zs| - 1], num, z);
    }
  }

  lemma {:induction false} DonorRowsComplete(allCe: seq<Row>, types: seq<DonorType>, num: Numerics, t: DonorType, z: real)
    requires t in types && z in Metallicities
    requires |Where(Where(allCe, OfType(t)), AtZ(z))| > 0
    ensures DonorGroupRow(Where(Where(allCe, OfType(t)), AtZ(z)), t, z, num) in DonorRows(allCe, types, num)
  {
    var prev := DonorRows(allCe, types[..|types| - 1], num);
    var last := DonorZRows(Where(allCe, OfType(types[|types| - 1])), types[|types| - 1], Metallicities, num);
    assert DonorRows(allCe, types, num) == prev + last;
    if t == types[|types| - 1] {
      DonorZRowsComplete(Where(allCe, OfType(t)), t, Metallicities, num, z);
    } else {
      assert t in types[..|types| - 1];
      DonorRowsComplete(allCe, types[..|types| - 1], num, t, z);
    }
  }

  /** Every (donor type, Z) pair with CE events gets its row: the one that
      counts that group's events and survivors. */
  lemma ShellVsCoreComplete(allCe: seq<Row>, num: Numerics, t: DonorType, z: real)
    requires z in Metallicities
    requires |Where(Where(allCe, OfType(t)), AtZ(z))| > 0
    ensures DonorGroupRow(Where(Where(allCe, OfType(t)), AtZ(z)), t, z, num) in ShellVsCoreTable(allCe, num)
  {
    var group := Where(Where(allCe, OfType(t)), AtZ(z));
    var r := group[0];
    assert r in Where(allCe, OfType(t));
    var i :| 0 <= i < |allCe| && allCe[i] == r;
    var labels := seq(|allCe|, i requires 0 <= i < |allCe| => Classify(allCe[i].donorState));
    assert labels[i] == t;
    assert t in DonorTypes(allCe);
    DonorRowsComplete(allCe, DonorTypes(allCe), num, t, z);
  }
}
