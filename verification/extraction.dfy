/** `extract_CE_data` and the result loop of `run_population` in
    run_population.py. The evolved binary comes from the POSYDON library and
    is an input here: its final state, final masses and period, and the
    history table its `to_df()` returns. */
module Extraction {
  import opened Common
  import opened BinaryGrid

  /** One row of the evolution history, restricted to the three columns read. */
  datatype HistoryRow = HistoryRow(event: Option<string>, lambda: Option<real>, star1State: Option<string>)

  /** `binary.to_df()`: which of the columns `event`, `lambda_CE_1Msun` and
      `star_1_state` it has, and its rows. */
  datatype History = History(hasEvent: bool, hasLambda: bool, hasStar1State: bool, rows: seq<HistoryRow>)

  /** An evolved binary. `state` is None when the object has no `state`
      attribute, `history` is None when it has no `to_df` or that call
      raises, and each final quantity is None when it cannot be read. */
  datatype Binary = Binary(state: Option<string>, history: Option<History>,
                           mass1: Option<real>, mass2: Option<real>, orbitalPeriod: Option<real>)

  /** The `ce_data` record. */
  datatype CeRecord = CeRecord(
    m1Initial: real, m2Initial: real, pInitial: real, z: real, qInitial: Option<real>,
    ceOccurred: bool, lambda: Option<real>, donorState: Option<string>, survived: bool,
    finalState: Option<string>, finalM1: Option<real>, finalM2: Option<real>, finalP: Option<real>)

  /** The final states after which a binary did not survive its common envelope. */
  const FailedStates: seq<string> := ["merged", "initial_RLOF", "disrupted"]

  /** `history_df['event'].str.contains('CE', na=False)` for one row. */
  predicate IsCeEvent(row: HistoryRow)
  {
    row.event.Some? && Contains(row.event.value, "CE")
  }

  /** The position of the first CE row (`ce_events.iloc[0]`), if any. */
  function FirstCe(rows: seq<HistoryRow>): (i: Option<nat>)
    ensures i.None? <==> forall j :: 0 <= j < |rows| ==> !IsCeEvent(rows[j])
    ensures i.Some? ==> i.value < |rows| && IsCeEvent(rows[i.value])
                        && forall j :: 0 <= j < i.value ==> !IsCeEvent(rows[j])
  {
    if rows == [] then None
    else if IsCeEvent(rows[0]) then Some(0)
    else
      var rest := FirstCe(rows[1..]);
      assert forall j :: 1 <= j < |rows| ==> rows[1..][j - 1] == rows[j];
      if rest.None? then None else Some(rest.value + 1)
  }

  /** `str(x)` of a `star_1_state` cell: a missing (None) cell prints as "None". */
  function StateText(s: Option<string>): string
  {
    if s.None? then "None" else s.value
  }

  /** The CE row a binary's history selects, when its `event` column exists. */
  function CeRow(binary: Binary): Option<HistoryRow>
  {
    if binary.history.None? || !binary.history.value.hasEvent then None
    else
      var i := FirstCe(binary.history.value.rows);
      if i.None? then None else Some(binary.history.value.rows[i.value])
  }

  /** The record `extract_CE_data` produces for `binary` and `init`:
      - the initial conditions and the readable final quantities are copied;
      - a CE occurred iff the history selects a CE row;
      - without a CE, lambda and donor state keep their defaults (NaN, None);
      - with one, each is read from the first CE row if its column exists;
      - the binary survived iff a CE occurred and its final state is known
        and is not one of the failed states. */
  ghost predicate Extracted(rec: CeRecord, binary: Binary, init: GridRow)
  {
    && rec.m1Initial == init.m1 && rec.m2Initial == init.m2 && rec.pInitial == init.period
    && rec.z == init.z && rec.qInitial == init.q
    && rec.finalState == binary.state
    && rec.finalM1 == binary.mass1 && rec.finalM2 == binary.mass2 && rec.finalP == binary.orbitalPeriod
    && rec.ceOccurred == CeRow(binary).Some?
    && (!rec.ceOccurred ==> rec.lambda.None? && rec.donorState.None?)
    && (rec.ceOccurred ==>
          rec.lambda == (if binary.history.value.hasLambda then CeRow(binary).value.lambda else None)
          && rec.donorState == (if binary.history.value.hasStar1State
                                then Some(StateText(CeRow(binary).value.star1State)) else None))
    && (rec.survived <==> rec.ceOccurred && binary.state.Some? && binary.state.value !in FailedStates)
  }

  /** `extract_CE_data(binary, initial_conditions)`, filling the record one
      field at a time as the script does. */
  method ExtractCeData(binary: Binary, init: GridRow) returns (rec: CeRecord)
    ensures Extracted(rec, binary, init)
  {
    rec := CeRecord(init.m1, init.m2, init.period, init.z, init.q,
                    false, None, None, false,
                    binary.state, None, None, None);
    rec := rec.(finalM1 := binary.mass1);
    rec := rec.(finalM2 := binary.mass2);
    rec := rec.(finalP := binary.orbitalPeriod);
    if binary.history.Some? {
      var history := binary.history.value;
      if history.hasEvent {
        var first := FirstCe(history.rows);
        if first.Some? {
          rec := rec.(ceOccurred := true);
          var row := history.rows[first.value];
          if history.hasLambda {
            rec := rec.(lambda := row.lambda);
          }
          if history.hasStar1State {
            rec := rec.(donorState := Some(StateText(row.star1State)));
          }
          // reading a missing `state` raises, which the script swallows
          if binary.state.Some? {
            rec := rec.(survived := binary.state.value !in FailedStates);
          }
        }
      }
    }
  }

  /** A CE is recorded iff the history has an `event` column and some row's
      event mentions "CE"; the row read is the first such row. */
  lemma CeRowIsFirstCeEvent(binary: Binary)
    ensures CeRow(binary).Some? <==>
              binary.history.Some? && binary.history.value.hasEvent
              && exists j :: 0 <= j < |binary.history.value.rows| && IsCeEvent(binary.history.value.rows[j])
    ensures CeRow(binary).Some? ==>
              exists i :: 0 <= i < |binary.history.value.rows| && CeRow(binary).value == binary.history.value.rows[i]
                          && IsCeEvent(binary.history.value.rows[i])
                          && forall j :: 0 <= j < i ==> !IsCeEvent(binary.history.value.rows[j])
  {
    if CeRow(binary).Some? {
      var i := FirstCe(binary.history.value.rows).value;
      assert CeRow(binary).value == binary.history.value.rows[i];
    }
  }

  /** A surviving record always had a common envelope. */
  lemma SurvivedImpliesCe(rec: CeRecord, binary: Binary, init: GridRow)
    requires Extracted(rec, binary, init)
    ensures rec.survived ==> rec.ceOccurred
  {
  }

  // ---------------------------------------------------------------------------
  // The population loop
  // ---------------------------------------------------------------------------

  /** What `evolve_binary` produced: an evolved binary, or the text of the
      exception raised while evolving or extracting. */
  datatype Evolution = Evolved(binary: Binary) | Raised(error: string)

  /** One entry of `results`: a full CE record, or the four initial fields
      plus `error` for a row whose evolution raised. */
  datatype PopulationResult =
    | Full(record: CeRecord)
    | Failed(m1Initial: real, m2Initial: real, pInitial: real, z: real, error: string)

  /** The entry `run_population` appends for grid row `row`. */
  ghost predicate ResultFor(res: PopulationResult, row: GridRow, evolve: (real, real, real) -> Evolution)
  {
    match evolve(row.m1, row.m2, row.period)
    case Evolved(b) => res.Full? && Extracted(res.record, b, row)
    case Raised(e) => res == Failed(row.m1, row.m2, row.period, row.z, e)
  }

  /** `run_population(binary_grid, ...)`. `evolve(M1, M2, P)` is the POSYDON
      evolution; the script never passes it the metallicity or alpha_CE, so it
      sees neither. One entry per grid row, in grid order. */
  method RunPopulation(grid: seq<GridRow>, evolve: (real, real, real) -> Evolution)
    returns (results: seq<PopulationResult>)
    ensures |results| == |grid|
    ensures forall i :: 0 <= i < |grid| ==> ResultFor(results[i], grid[i], evolve)
  {
    results := [];
    var i := 0;
    while i < |grid|
      invariant 0 <= i <= |grid|
      invariant |results| == i
      invariant forall j :: 0 <= j < i ==> ResultFor(results[j], grid[j], evolve)
    {
      var row := grid[i];
      match evolve(row.m1, row.m2, row.period) {
        case Evolved(binary) =>
          var record := ExtractCeData(binary, row);
          results := results + [Full(record)];
        case Raised(e) =>
          results := results + [Failed(row.m1, row.m2, row.period, row.z, e)];
      }
      i := i + 1;
    }
  }

  /** Two grid rows with the same masses and period get the same outcome,
      whatever their metallicities: the same failure, or records with the
      same CE fields. */
  lemma {:induction false} OutcomeIgnoresMetallicity(r1: PopulationResult, r2: PopulationResult,
                                                     g1: GridRow, g2: GridRow,
                                                     evolve: (real, real, real) -> Evolution)
    requires ResultFor(r1, g1, evolve) && ResultFor(r2, g2, evolve)
    requires g1.m1 == g2.m1 && g1.m2 == g2.m2 && g1.period == g2.period
    ensures r1.Full? <==> r2.Full?
    ensures r1.Failed? ==> r1.error == r2.error
    ensures r1.Full? ==> r1.record.ceOccurred == r2.record.ceOccurred && r1.record.lambda == r2.record.lambda
                         && r1.record.donorState == r2.record.donorState
                         && r1.record.survived == r2.record.survived
  {
    match evolve(g1.m1, g1.m2, g1.period)
    case Evolved(b) =>
      assert Extracted(r1.record, b, g1) && Extracted(r2.record, b, g2);
    case Raised(e) =>
  }
}
