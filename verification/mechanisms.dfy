/** analyze_mechanisms.py: survival of CE events with a known lambda, by
    lambda bin (`pd.cut` bins) and by donor evolutionary state and
    metallicity, and the per-state survival over all metallicities. */
module Mechanisms {
  import opened Common
  import opened Records
  import opened BinomialCi
  import opened Physics

  /** `lambda_bins` and `lambda_labels`. */
  const LambdaEdges: seq<real> := [0.0, 0.03, 0.06, 0.10, 0.15, 0.25, 1.0]
  const LambdaLabels: seq<string> := ["0-0.03", "0.03-0.06", "0.06-0.10", "0.10-0.15", "0.15-0.25", ">0.25"]

  /** `df.assign(Z_val=z)` */
  function Assign(rows: seq<Row>, z: real): (t: seq<Row>)
    ensures |t| == |rows|
    ensures forall i :: 0 <= i < |rows| ==> t[i] == rows[i].(z := z)
  {
    seq(|rows|, i requires 0 <= i < |rows| => rows[i].(z := z))
  }

  /** `all_ce`: the CE events with a lambda of the three datasets, tagged
      with their metallicities. */
  function MechanismEvents(solar: seq<Row>, mid: seq<Row>, low: seq<Row>): (all: seq<Row>)
    ensures forall r :: r in all ==> IsTrue(r.ce) && r.lambda.Some? && r.z in Metallicities
  {
    AssignCeWithLambda(solar, 0.014);
    AssignCeWithLambda(mid, 0.006);
    AssignCeWithLambda(low, 0.001);
    Assign(CeWithLambda(solar), 0.014) + Assign(CeWithLambda(mid), 0.006) + Assign(CeWithLambda(low), 0.001)
  }

  lemma AssignCeWithLambda(rows: seq<Row>, z: real)
    ensures forall r :: r in Assign(CeWithLambda(rows), z) ==> IsTrue(r.ce) && r.lambda.Some? && r.z == z
  {
    var sel := CeWithLambda(rows);
    forall r | r in Assign(sel, z)
      ensures IsTrue(r.ce) && r.lambda.Some? && r.z == z
    {
      var i :| 0 <= i < |sel| && Assign(sel, z)[i] == r;
      assert sel[i] in sel;
    }
  }

  /** Every CE event with a lambda of each dataset is in `all_ce`, tagged with
      its dataset's metallicity, and `all_ce` holds exactly as many rows as
      the three selections. */
  lemma MechanismEventsComplete(solar: seq<Row>, mid: seq<Row>, low: seq<Row>)
    ensures forall r :: r in solar && IsTrue(r.ce) && r.lambda.Some? ==> r.(z := 0.014) in MechanismEvents(solar, mid, low)
    ensures forall r :: r in mid && IsTrue(r.ce) && r.lambda.Some? ==> r.(z := 0.006) in MechanismEvents(solar, mid, low)
    ensures forall r :: r in low && IsTrue(r.ce) && r.lambda.Some? ==> r.(z := 0.001) in MechanismEvents(solar, mid, low)
    ensures |MechanismEvents(solar, mid, low)| == |CeWithLambda(solar)| + |CeWithLambda(mid)| + |CeWithLambda(low)|
  {
    TaggedComplete(solar, 0.014);
    TaggedComplete(mid, 0.006);
    TaggedComplete(low, 0.001);
  }

  lemma TaggedComplete(rows: seq<Row>, z: real)
    ensures forall r :: r in rows && IsTrue(r.ce) && r.lambda.Some? ==> r.(z := z) in Assign(CeWithLambda(rows), z)
  {
    var sel := CeWithLambda(rows);
    forall r | r in rows && IsTrue(r.ce) && r.lambda.Some?
      ensures r.(z := z) in Assign(sel, z)
    {
      var i :| 0 <= i < |sel| && sel[i] == r;
      assert Assign(sel, z)[i] == r.(z := z);
    }
  }

  // ---------------------------------------------------------------------------
  // pd.cut
  // ---------------------------------------------------------------------------

  ghost predicate StrictlyIncreasing(edges: seq<real>)
  {
    forall i, j :: 0 <= i < j < |edges| ==> edges[i] < edges[j]
  }

  /** Bin `i` of `pd.cut(..., include_lowest=True)`: (edges[i], edges[i+1]],
      except that the first bin also holds its lower edge. */
  predicate InCutBin(x: real, edges: seq<real>, i: nat)
    requires i + 1 < |edges|
  {
    (if i == 0 then edges[0] <= x else edges[i] < x) && x <= edges[i + 1]
  }

  /** The first bin from `i` on holding `x`. */
  function CutFrom(x: real, edges: seq<real>, i: nat): (b: Option<nat>)
    requires i < |edges|
    ensures b.Some? ==> i <= b.value && b.value + 1 < |edges| && InCutBin(x, edges, b.value)
    ensures b.None? ==> forall k :: i <= k < |edges| - 1 ==> !InCutBin(x, edges, k)
    decreases |edges| - i
  {
    if i + 1 >= |edges| then None
    else if InCutBin(x, edges, i) then Some(i)
    else CutFrom(x, edges, i + 1)
  }

  /** `pd.cut(x, bins=edges, include_lowest=True)` as a bin index; NaN (None)
      for a value outside every bin. */
  function Cut(x: real, edges: seq<real>): (b: Option<nat>)
    requires |edges| > 0
    ensures b.Some? ==> b.value + 1 < |edges| && InCutBin(x, edges, b.value)
    ensures b.None? <==> forall k :: 0 <= k < |edges| - 1 ==> !InCutBin(x, edges, k)
  {
    CutFrom(x, edges, 0)
  }

  /** With strictly increasing edges, a value lies in exactly one bin when it
      is within [first edge, last edge], and in none otherwise. */
  lemma {:induction false} CutCovers(x: real, edges: seq<real>)
    requires StrictlyIncreasing(edges) && |edges| >= 2
    ensures Cut(x, edges).Some? <==> edges[0] <= x <= edges[|edges| - 1]
    ensures forall i, j :: 0 <= i < j < |edges| - 1 ==> !(InCutBin(x, edges, i) && InCutBin(x, edges, j))
  {
    if edges[0] <= x <= edges[|edges| - 1] {
      CutFindsBin(x, edges, 0);
    }
    forall i, j | 0 <= i < j < |edges| - 1
      ensures !(InCutBin(x, edges, i) && InCutBin(x, edges, j))
    {
      assert edges[i + 1] <= edges[j];
    }
  }

  lemma {:induction false} CutFindsBin(x: real, edges: seq<real>, i: nat)
    requires StrictlyIncreasing(edges) && i + 1 < |edges|
    requires (if i == 0 then edges[0] <= x else edges[i] < x) && x <= edges[|edges| - 1]
    ensures CutFrom(x, edges, i).Some?
    decreases |edges| - i
  {
    if !InCutBin(x, edges, i) {
      assert edges[i + 1] < x;
      CutFindsBin(x, edges, i + 1);
    }
  }

  /** `all_ce['lambda_bin']` of one event. */
  function LambdaBin(r: Row): Option<nat>
  {
    if r.lambda.Some? then Cut(r.lambda.value, LambdaEdges) else None
  }

  /** The lambda bins: the first is [0, 0.03], the others (a, b]; a lambda
      outside [0, 1] falls in no bin. */
  lemma LambdaBins(x: real)
    ensures Cut(x, LambdaEdges).Some? <==> 0.0 <= x <= 1.0
    ensures Cut(x, LambdaEdges) == Some(0) <==> 0.0 <= x <= 0.03
    ensures Cut(x, LambdaEdges) == Some(5) <==> 0.25 < x <= 1.0
  {
    assert StrictlyIncreasing(LambdaEdges);
    CutCovers(x, LambdaEdges);
  }

  // ---------------------------------------------------------------------------
  // Survival by lambda bin
  // ---------------------------------------------------------------------------

  function InLambdaBin(b: nat): Row -> bool
  {
    (r: Row) => LambdaBin(r) == Some(b)
  }

  /** One row of `lambda_binned_survival.csv`. */
  datatype LambdaRow = LambdaRow(binLabel: string, nSystems: nat, nSurvived: nat, rate: real,
                                 ci: (real, real), meanLambda: Option<real>)

  function LambdaRowOf(b: nat, group: seq<Row>, num: Numerics): LambdaRow
    requires b < |LambdaLabels| && |group| > 0
  {
    LambdaRow(LambdaLabels[b], |group|, CountSurvived(group), SurvivalRate(group),
              WilsonCi(CountSurvived(group), |group|, 0.05, num), LambdaMean(group))
  }

  /** The row of bin `b`, or nothing when the bin is empty. */
  function LambdaRowAt(allCe: seq<Row>, num: Numerics, b: nat): Option<LambdaRow>
  {
    var group := Where(allCe, InLambdaBin(b));
    if b < |LambdaLabels| && |group| > 0 then Some(LambdaRowOf(b, group, num)) else None
  }

  /** The rows of the first `n` labels, in label order, non-empty bins only. */
  function LambdaRows(allCe: seq<Row>, num: Numerics, n: nat): seq<LambdaRow>
    requires n <= |LambdaLabels|
  {
    Gather(n, (i: nat) => LambdaRowAt(allCe, num, i))
  }

  /** Scanning one more label appends that bin's row when it is non-empty. */
  lemma LambdaRowsSnoc(allCe: seq<Row>, num: Numerics, b: nat)
    requires b < |LambdaLabels|
    ensures var group := Where(allCe, InLambdaBin(b));
            LambdaRows(allCe, num, b + 1)
            == LambdaRows(allCe, num, b) + (if |group| > 0 then [LambdaRowOf(b, group, num)] else [])
  {
    var pick := (i: nat) => LambdaRowAt(allCe, num, i);
    assert Gather(b + 1, pick) == Gather(b, pick) + (if pick(b).Some? then [pick(b).value] else []);
  }

  /** `for bin_label in lambda_labels: ...` */
  method BinnedSurvival(allCe: seq<Row>, num: Numerics) returns (rows: seq<LambdaRow>)
    ensures rows == LambdaRows(allCe, num, |LambdaLabels|)
  {
    rows := [];
    for b := 0 to |LambdaLabels|
      invariant rows == LambdaRows(allCe, num, b)
    {
      var binData := Where(allCe, InLambdaBin(b));
      LambdaRowsSnoc(allCe, num, b);
      if |binData| > 0 {
        rows := rows + [LambdaRowOf(b, binData, num)];
      }
    }
  }

  /** What every row of the lambda table satisfies: it describes the
      non-empty group of events of one bin, and the group's mean lambda lies
      within that bin's edges. */
  ghost predicate SoundLambdaRow(row: LambdaRow, allCe: seq<Row>, num: Numerics)
  {
    exists b :: 0 <= b < |LambdaLabels| && row.binLabel == LambdaLabels[b]
      && var group := Where(allCe, InLambdaBin(b));
      && row.nSystems == |group| > 0
      && row.nSurvived == CountSurvived(group) <= row.nSystems
      && row.rate == Percent(row.nSurvived, row.nSystems) && 0.0 <= row.rate <= 100.0
      && (SaneNumerics(num) ==> 0.0 <= row.ci.0 <= row.ci.1 <= 100.0)
      && row.meanLambda.Some? && LambdaEdges[b] <= row.meanLambda.value <= LambdaEdges[b + 1]
  }

  lemma LambdaRowSound(allCe: seq<Row>, num: Numerics, b: nat)
    requires b < |LambdaLabels| && |Where(allCe, InLambdaBin(b))| > 0
    ensures SoundLambdaRow(LambdaRowOf(b, Where(allCe, InLambdaBin(b)), num), allCe, num)
  {
    var group := Where(allCe, InLambdaBin(b));
    var ls := Lambdas(group);
    assert group[0] in group;
    assert group[0].lambda.value in ls;
    forall i | 0 <= i < |ls|
      ensures LambdaEdges[b] <= ls[i] <= LambdaEdges[b + 1]
    {
      assert ls[i] in ls;
      var r :| r in group && r.lambda == Some(ls[i]);
      assert InCutBin(ls[i], LambdaEdges, b);
    }
    MeanWithin(ls, LambdaEdges[b], LambdaEdges[b + 1]);
    if SaneNumerics(num) {
      WilsonCiOrdered(CountSurvived(group), |group|, 0.05, num);
    }
  }

  /** Every row of the lambda table is sound. */
  lemma LambdaRowsSound(allCe: seq<Row>, num: Numerics, n: nat)
    requires n <= |LambdaLabels|
    ensures forall row :: row in LambdaRows(allCe, num, n) ==> SoundLambdaRow(row, allCe, num)
  {
    var pick := (i: nat) => LambdaRowAt(allCe, num, i);
    var rows := LambdaRows(allCe, num, n);
    var bins := GatherIndices(n, pick);
    GatherIndexed(n, pick);
    forall row | row in rows
      ensures SoundLambdaRow(row, allCe, num)
    {
      var k :| 0 <= k < |rows| && rows[k] == row;
      assert LambdaRowAt(allCe, num, bins[k]) == Some(row);
      LambdaRowSound(allCe, num, bins[k]);
    }
  }

  /** Every non-empty bin among the first `n` gets exactly its row. */
  lemma LambdaRowsComplete(allCe: seq<Row>, num: Numerics, n: nat, b: nat)
    requires b < n <= |LambdaLabels| && |Where(allCe, InLambdaBin(b))| > 0
    ensures LambdaRowOf(b, Where(allCe, InLambdaBin(b)), num) in LambdaRows(allCe, num, n)
  {
    var pick := (i: nat) => LambdaRowAt(allCe, num, i);
    assert pick(b) == Some(LambdaRowOf(b, Where(allCe, InLambdaBin(b)), num));
    GatherComplete(n, pick, b);
  }

  /** The non-empty bins among the first `n`, in label order. */
  ghost function NonEmptyLambdaBins(allCe: seq<Row>, num: Numerics, n: nat): seq<nat>
  {
    GatherIndices(n, (i: nat) => LambdaRowAt(allCe, num, i))
  }

  /** The k-th row of the lambda table is the row of the k-th non-empty bin,
      and those bins come in increasing label order. */
  lemma LambdaRowsOrdered(allCe: seq<Row>, num: Numerics, n: nat)
    requires n <= |LambdaLabels|
    ensures var rows := LambdaRows(allCe, num, n);
            var bins := NonEmptyLambdaBins(allCe, num, n);
            && |rows| == |bins|
            && (forall k :: 0 <= k < |bins| ==>
                  && bins[k] < n && |Where(allCe, InLambdaBin(bins[k]))| > 0
                  && rows[k] == LambdaRowOf(bins[k], Where(allCe, InLambdaBin(bins[k])), num))
            && (forall j, k :: 0 <= j < k < |bins| ==> bins[j] < bins[k])
  {
    var pick := (i: nat) => LambdaRowAt(allCe, num, i);
    var rows := LambdaRows(allCe, num, n);
    var bins := NonEmptyLambdaBins(allCe, num, n);
    GatherIndexed(n, pick);
    forall k | 0 <= k < |bins|
      ensures |Where(allCe, InLambdaBin(bins[k]))| > 0
      ensures rows[k] == LambdaRowOf(bins[k], Where(allCe, InLambdaBin(bins[k])), num)
    {
      assert LambdaRowAt(allCe, num, bins[k]) == Some(rows[k]);
    }
  }

  // ---------------------------------------------------------------------------
  // Survival by donor state
  // ---------------------------------------------------------------------------

  /** `Z_data['donor_state'].dropna()` */
  function DonorStates(rows: seq<Row>): (states: seq<string>)
    ensures forall s :: s in states <==> exists r :: r in rows && r.donorState == Some(s)
  {
    if rows == [] then []
    else
      var init := DonorStates(rows[..|rows| - 1]);
      var last := rows[|rows| - 1];
      assert forall r :: r in rows <==> r in rows[..|rows| - 1] || r == last;
      if last.donorState.Some? then init + [last.donorState.value] else init
  }

  /** The `donor_state` column, missing cells included. */
  function StateColumn(rows: seq<Row>): seq<Option<string>>
  {
    seq(|rows|, i requires 0 <= i < |rows| => rows[i].donorState)
  }

  /** `dropna()` keeps every state as many times as the column holds it. */
  lemma {:induction false} DonorStatesMultiplicity(rows: seq<Row>)
    ensures forall s :: multiset(DonorStates(rows))[s] == multiset(StateColumn(rows))[Some(s)]
  {
    if rows != [] {
      var init := rows[..|rows| - 1];
      DonorStatesMultiplicity(init);
      assert StateColumn(rows) == StateColumn(init) + [rows[|rows| - 1].donorState];
    }
  }

  /** `dropna()` keeps column order. */
  lemma {:induction false} DonorStatesConcat(a: seq<Row>, b: seq<Row>)
    ensures DonorStates(a + b) == DonorStates(a) + DonorStates(b)
    decreases |b|
  {
    if b == [] {
      assert a + b == a;
    } else {
      var init := b[..|b| - 1];
      DonorStatesConcat(a, init);
      ConcatInit(a, b);
    }
  }

  function HasState(s: string): Row -> bool
  {
    (r: Row) => r.donorState == Some(s)
  }

  /** `n_survived / n_total * 100 if n_total > 0 else 0` */
  function GuardedRate(group: seq<Row>): real
  {
    if |group| > 0 then SurvivalRate(group) else 0.0
  }

  /** One row of `donor_state_stratified.csv`. */
  datatype StateRow = StateRow(z: real, state: string, nEvents: nat, nSurvived: nat, rate: real,
                               ci: (real, real), lambdaMean: Option<real>, lambdaVariance: Option<real>)

  function StateRowOf(z: real, s: string, group: seq<Row>, num: Numerics): StateRow
  {
    StateRow(z, s, |group|, CountSurvived(group), GuardedRate(group),
             WilsonCi(CountSurvived(group), |group|, 0.05, num), LambdaMean(group), LambdaVariance(group))
  }

  /** The rows of one metallicity for the states in `states`. */
  function StateRowsAt(zData: seq<Row>, z: real, states: seq<string>, num: Numerics): seq<StateRow>
  {
    if states == [] then []
    else
      var s := states[|states| - 1];
      StateRowsAt(zData, z, states[..|states| - 1], num) + [StateRowOf(z, s, Where(zData, HasState(s)), num)]
  }

  /** The rows of the metallicities in `zs`. */
  function StateTable(allCe: seq<Row>, zs: seq<real>, num: Numerics): seq<StateRow>
  {
    if zs == [] then []
    else
      var z := zs[|zs| - 1];
      var zData := Where(allCe, AtZ(z));
      StateTable(allCe, zs[..|zs| - 1], num) + StateRowsAt(zData, z, Unique(DonorStates(zData)), num)
  }

  /** The inner loop over the donor states of one metallicity. */
  method StateRowsLoop(zData: seq<Row>, z: real, states: seq<string>, num: Numerics) returns (rows: seq<StateRow>)
    ensures rows == StateRowsAt(zData, z, states, num)
  {
    rows := [];
    for k := 0 to |states|
      invariant rows == StateRowsAt(zData, z, states[..k], num)
    {
      assert states[..k + 1][..k] == states[..k];
      var stateData := Where(zData, HasState(states[k]));
      var row := StateRowOf(z, states[k], stateData, num);
      assert StateRowsAt(zData, z, states[..k + 1], num) == rows + [row];
      rows := rows + [row];
    }
    assert states[..|states|] == states;
  }

  /** The rows of metallicity `z`: its CE events, then one row per distinct
      donor state in order of first appearance. */
  method StatesAtMetallicity(allCe: seq<Row>, z: real, num: Numerics) returns (rows: seq<StateRow>)
    ensures rows == StateRowsAt(Where(allCe, AtZ(z)), z, Unique(DonorStates(Where(allCe, AtZ(z)))), num)
  {
    var zData := Where(allCe, AtZ(z));
    var states := Unique(DonorStates(zData));
    rows := StateRowsLoop(zData, z, states, num);
  }

  /** `for Z_val, Z_label in [...]: for state in Z_data['donor_state'].dropna().unique(): ...` */
  method StateAnalysis(allCe: seq<Row>, num: Numerics) returns (rows: seq<StateRow>)
    ensures rows == StateTable(allCe, Metallicities, num)
  {
    rows := [];
    for k := 0 to |Metallicities|
      invariant rows == StateTable(allCe, Metallicities[..k], num)
    {
      StateTableSnoc(allCe, Metallicities, k, num);
      var zRows := StatesAtMetallicity(allCe, Metallicities[k], num);
      rows := rows + zRows;
    }
    assert Metallicities[..|Metallicities|] == Metallicities;
  }

  lemma StateTableSnoc(allCe: seq<Row>, zs: seq<real>, k: nat, num: Numerics)
    requires k < |zs|
    ensures StateTable(allCe, zs[..k + 1], num)
              == StateTable(allCe, zs[..k], num)
                 + StateRowsAt(Where(allCe, AtZ(zs[k])), zs[k], Unique(DonorStates(Where(allCe, AtZ(zs[k])))), num)
  {
    assert zs[..k + 1][..k] == zs[..k];
  }

  /** Each state row describes a non-empty group, so the `n_total > 0` guard
      never fires and N_Survived <= N_CE_Events. */
  lemma {:induction false} StateRowsAtNonEmpty(zData: seq<Row>, z: real, states: seq<string>, num: Numerics)
    requires forall s :: s in states ==> s in DonorStates(zData)
    ensures forall row :: row in StateRowsAt(zData, z, states, num) ==>
              row.nEvents > 0 && row.nSurvived <= row.nEvents && row.rate == Percent(row.nSurvived, row.nEvents)
  {
    if states != [] {
      StateRowsAtNonEmpty(zData, z, states[..|states| - 1], num);
      var s := states[|states| - 1];
      assert s in states;
      var r :| r in zData && r.donorState == Some(s);
      assert r in Where(zData, HasState(s));
    }
  }

  lemma {:induction false} StateTableNonEmpty(allCe: seq<Row>, zs: seq<real>, num: Numerics)
    ensures forall row :: row in StateTable(allCe, zs, num) ==>
              row.nEvents > 0 && row.nSurvived <= row.nEvents && row.rate == Percent(row.nSurvived, row.nEvents)
  {
    if zs != [] {
      StateTableNonEmpty(allCe, zs[..|zs| - 1], num);
      var zData := Where(allCe, AtZ(zs[|zs| - 1]));
      StateRowsAtNonEmpty(zData, zs[|zs| - 1], Unique(DonorStates(zData)), num);
    }
  }

  // ---------------------------------------------------------------------------
  // Overall survival per state
  // ---------------------------------------------------------------------------

  /** `state_df.groupby('Donor_State')['N_CE_Events'].sum()` for state `s`. */
  function EventsOf(rows: seq<StateRow>, s: string): nat
  {
    if rows == [] then 0
    else EventsOf(rows[..|rows| - 1], s) + (if rows[|rows| - 1].state == s then rows[|rows| - 1].nEvents else 0)
  }

  /** `state_df.groupby('Donor_State')['N_Survived'].sum()` for state `s`. */
  function SurvivorsOf(rows: seq<StateRow>, s: string): nat
  {
    if rows == [] then 0
    else SurvivorsOf(rows[..|rows| - 1], s) + (if rows[|rows| - 1].state == s then rows[|rows| - 1].nSurvived else 0)
  }

  /** `Overall_Survival_%` of state `s`; None for a state with no row. */
  function OverallSurvival(rows: seq<StateRow>, s: string): Option<real>
  {
    if EventsOf(rows, s) == 0 then None else Some(Percent(SurvivorsOf(rows, s), EventsOf(rows, s)))
  }

  /** The events and survivors of state `s`, counted per metallicity in `zs` and added up. */
  function PerZEvents(allCe: seq<Row>, zs: seq<real>, s: string): nat
  {
    if zs == [] then 0
    else PerZEvents(allCe, zs[..|zs| - 1], s) + |Where(Where(allCe, AtZ(zs[|zs| - 1])), HasState(s))|
  }

  function PerZSurvivors(allCe: seq<Row>, zs: seq<real>, s: string): nat
  {
    if zs == [] then 0
    else PerZSurvivors(allCe, zs[..|zs| - 1], s) + CountSurvived(Where(Where(allCe, AtZ(zs[|zs| - 1])), HasState(s)))
  }

  lemma {:induction false} SumsOfConcat(a: seq<StateRow>, b: seq<StateRow>, s: string)
    ensures EventsOf(a + b, s) == EventsOf(a, s) + EventsOf(b, s)
    ensures SurvivorsOf(a + b, s) == SurvivorsOf(a, s) + SurvivorsOf(b, s)
  {
    if b == [] {
      assert a + b == a;
    } else {
      assert (a + b)[..|a + b| - 1] == a + b[..|b| - 1];
      assert (a + b)[|a + b| - 1] == b[|b| - 1];
      SumsOfConcat(a, b[..|b| - 1], s);
    }
  }

  /** Within one metallicity the listed states are distinct, so state `s`
      contributes its own group once, or nothing. */
  lemma {:induction false} SumsAtMetallicity(zData: seq<Row>, z: real, states: seq<string>, num: Numerics, s: string)
    requires forall i, j :: 0 <= i < j < |states| ==> states[i] != states[j]
    ensures EventsOf(StateRowsAt(zData, z, states, num), s) == (if s in states then |Where(zData, HasState(s))| else 0)
    ensures SurvivorsOf(StateRowsAt(zData, z, states, num), s)
            == (if s in states then CountSurvived(Where(zData, HasState(s))) else 0)
  {
    if states != [] {
      var init := states[..|states| - 1];
      var last := states[|states| - 1];
      assert forall x :: x in states <==> x in init || x == last;
      assert last !in init by {
        forall i | 0 <= i < |init|
          ensures init[i] != last
        {
          assert init[i] == states[i];
        }
      }
      SumsAtMetallicity(zData, z, init, num, s);
    }
  }

  /** A state absent from a metallicity's donor states has no events there. */
  lemma AbsentStateHasNoEvents(zData: seq<Row>, s: string)
    requires s !in DonorStates(zData)
    ensures |Where(zData, HasState(s))| == 0
  {
  }

  /** A state's overall counts are its CE events and survivors at each
      metallicity, added up. */
  lemma {:induction false} StateTotals(allCe: seq<Row>, zs: seq<real>, num: Numerics, s: string)
    ensures EventsOf(StateTable(allCe, zs, num), s) == PerZEvents(allCe, zs, s)
    ensures SurvivorsOf(StateTable(allCe, zs, num), s) == PerZSurvivors(allCe, zs, s)
  {
    if zs != [] {
      var z := zs[|zs| - 1];
      var zData := Where(allCe, AtZ(z));
      var states := Unique(DonorStates(zData));
      StateTotals(allCe, zs[..|zs| - 1], num, s);
      SumsOfConcat(StateTable(allCe, zs[..|zs| - 1], num), StateRowsAt(zData, z, states, num), s);
      SumsAtMetallicity(zData, z, states, num, s);
      if s !in states {
        AbsentStateHasNoEvents(zData, s);
      }
    }
  }

  /** The overall survival of a state with events is its survivors over its
      events, each summed over the three metallicities, as a percentage. */
  lemma OverallSurvivalIsPooled(allCe: seq<Row>, num: Numerics, s: string)
    requires PerZEvents(allCe, Metallicities, s) > 0
    ensures OverallSurvival(StateTable(allCe, Metallicities, num), s)
            == Some(Percent(PerZSurvivors(allCe, Metallicities, s), PerZEvents(allCe, Metallicities, s)))
  {
    StateTotals(allCe, Metallicities, num, s);
  }
}
