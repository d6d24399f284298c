/** The results table as the analysis scripts read it back from HDF5, and
    the selections and counts they all make on it. */
module Records {
  import opened Common
  import opened Extraction
  import opened BinaryGrid

  /** One row of a results table, with the metallicity of its dataset
      attached (`Z_val`). Rows whose evolution failed have no CE columns;
      their cells read as missing (NaN). */
  datatype Row = Row(ce: Option<bool>, survived: Option<bool>, lambda: Option<real>,
                     donorState: Option<string>, q: Option<real>, period: real, z: real)

  /** `cell == True`; also what `.sum()` counts in a boolean column with NaNs. */
  predicate IsTrue(b: Option<bool>)
  {
    b == Some(true)
  }

  /** The table row `pd.DataFrame(results)` holds for one population entry. */
  function ResultRow(res: PopulationResult, zVal: real): (r: Row)
    ensures res.Failed? ==> r.ce.None? && r.survived.None? && r.lambda.None? && r.q.None?
  {
    match res
    case Full(rec) => Row(Some(rec.ceOccurred), Some(rec.survived), rec.lambda, rec.donorState,
                          rec.qInitial, rec.pInitial, zVal)
    case Failed(_, _, p, _, _) => Row(None, None, None, None, None, p, zVal)
  }

  function ResultTable(results: seq<PopulationResult>, zVal: real): (t: seq<Row>)
    ensures |t| == |results|
    ensures forall i :: 0 <= i < |results| ==> t[i] == ResultRow(results[i], zVal)
  {
    seq(|results|, i requires 0 <= i < |results| => ResultRow(results[i], zVal))
  }

  /** `df[mask]`: the rows that satisfy `keep`, in table order. */
  function Where(rows: seq<Row>, keep: Row -> bool): (r: seq<Row>)
    ensures |r| <= |rows|
    ensures forall x :: x in r <==> x in rows && keep(x)
  {
    if rows == [] then []
    else
      var init := Where(rows[..|rows| - 1], keep);
      assert forall x :: x in rows <==> x in rows[..|rows| - 1] || x == rows[|rows| - 1];
      if keep(rows[|rows| - 1]) then init + [rows[|rows| - 1]] else init
  }

  /** `df[df['CE_occurred'] == True]` */
  function CeEvents(rows: seq<Row>): seq<Row>
  {
    Where(rows, (r: Row) => IsTrue(r.ce))
  }

  /** `df[(df['CE_occurred'] == True) & (df['lambda_CE'].notna())]` */
  function CeWithLambda(rows: seq<Row>): seq<Row>
  {
    Where(rows, (r: Row) => IsTrue(r.ce) && r.lambda.Some?)
  }

  /** `(df['CE_occurred'] == True).sum()` */
  function CountCe(rows: seq<Row>): (n: nat)
    ensures n <= |rows|
  {
    if rows == [] then 0 else CountCe(rows[..|rows| - 1]) + (if IsTrue(rows[|rows| - 1].ce) then 1 else 0)
  }

  /** `df['survived_CE'].sum()`, missing cells skipped. */
  function CountSurvived(rows: seq<Row>): (n: nat)
    ensures n <= |rows|
  {
    if rows == [] then 0
    else CountSurvived(rows[..|rows| - 1]) + (if IsTrue(rows[|rows| - 1].survived) then 1 else 0)
  }

  /** `df['lambda_CE'].dropna()` */
  function Lambdas(rows: seq<Row>): (ls: seq<real>)
    ensures |ls| <= |rows|
    ensures forall x :: x in ls <==> exists r :: r in rows && r.lambda == Some(x)
  {
    if rows == [] then []
    else
      var init := Lambdas(rows[..|rows| - 1]);
      var last := rows[|rows| - 1];
      assert forall r :: r in rows <==> r in rows[..|rows| - 1] || r == last;
      if last.lambda.Some? then init + [last.lambda.value] else init
  }

  /** `df[mask]` keeps table order: selecting over two tables stacked is
      selecting over each and stacking the results. */
  lemma {:induction false} WhereConcat(a: seq<Row>, b: seq<Row>, keep: Row -> bool)
    ensures Where(a + b, keep) == Where(a, keep) + Where(b, keep)
    decreases |b|
  {
    if b == [] {
      assert a + b == a;
    } else {
      var init := b[..|b| - 1];
      WhereConcat(a, init, keep);
      ConcatInit(a, b);
    }
  }

  /** `df[mask]` holds every row satisfying the mask as many times as the
      table does, and no other row. */
  lemma {:induction false} WhereMultiplicity(rows: seq<Row>, keep: Row -> bool)
    ensures forall x :: multiset(Where(rows, keep))[x] == if keep(x) then multiset(rows)[x] else 0
  {
    if rows != [] {
      var init := rows[..|rows| - 1];
      WhereMultiplicity(init, keep);
      assert rows == init + [rows[|rows| - 1]];
    }
  }

  /** The same facts for the CE selection, whose mask is fixed. */
  lemma {:induction false} CeEventsConcat(a: seq<Row>, b: seq<Row>)
    ensures CeEvents(a + b) == CeEvents(a) + CeEvents(b)
    decreases |b|
  {
    WhereConcat(a, b, (r: Row) => IsTrue(r.ce));
  }

  /** The `lambda_CE` column, NaN cells included. */
  function LambdaColumn(rows: seq<Row>): seq<Option<real>>
  {
    seq(|rows|, i requires 0 <= i < |rows| => rows[i].lambda)
  }

  /** `dropna()` keeps every lambda value as many times as the column holds it. */
  lemma {:induction false} LambdasMultiplicity(rows: seq<Row>)
    ensures forall x :: multiset(Lambdas(rows))[x] == multiset(LambdaColumn(rows))[Some(x)]
  {
    if rows != [] {
      var init := rows[..|rows| - 1];
      LambdasMultiplicity(init);
      assert LambdaColumn(rows) == LambdaColumn(init) + [rows[|rows| - 1].lambda];
    }
  }

  /** `dropna()` keeps column order. */
  lemma {:induction false} LambdasConcat(a: seq<Row>, b: seq<Row>)
    ensures Lambdas(a + b) == Lambdas(a) + Lambdas(b)
    decreases |b|
  {
    if b == [] {
      assert a + b == a;
    } else {
      var init := b[..|b| - 1];
      LambdasConcat(a, init);
      ConcatInit(a, b);
    }
  }

  /** `pd.concat` of several tables. */
  function Concat(tables: seq<seq<Row>>): seq<Row>
  {
    if tables == [] then [] else Concat(tables[..|tables| - 1]) + tables[|tables| - 1]
  }

  /** Every surviving row is a CE row, as extraction guarantees. */
  ghost predicate Consistent(rows: seq<Row>)
  {
    forall r :: r in rows ==> IsTrue(r.survived) ==> IsTrue(r.ce)
  }

  /** `CountCe` counts exactly the rows `CeEvents` selects. */
  lemma {:induction false} CountCeIsCeEvents(rows: seq<Row>)
    ensures CountCe(rows) == |CeEvents(rows)|
  {
    if rows != [] {
      CountCeIsCeEvents(rows[..|rows| - 1]);
    }
  }

  /** In a consistent table there are never more survivors than CE events. */
  lemma {:induction false} SurvivorsAtMostCe(rows: seq<Row>)
    requires Consistent(rows)
    ensures CountSurvived(rows) <= CountCe(rows)
  {
    if rows != [] {
      assert forall r :: r in rows[..|rows| - 1] ==> r in rows;
      SurvivorsAtMostCe(rows[..|rows| - 1]);
    }
  }

  /** On the CE events of a consistent table, survivors are the survivors of
      the whole table: every survivor is a CE event. */
  lemma {:induction false} SurvivorsAreCeEvents(rows: seq<Row>)
    requires Consistent(rows)
    ensures CountSurvived(CeEvents(rows)) == CountSurvived(rows)
  {
    if rows != [] {
      assert forall r :: r in rows[..|rows| - 1] ==> r in rows;
      SurvivorsAreCeEvents(rows[..|rows| - 1]);
    }
  }

  /** A table written by `run_population` is consistent. */
  lemma PopulationTableConsistent(grid: seq<GridRow>, evolve: (real, real, real) -> Evolution,
                                  results: seq<PopulationResult>, zVal: real)
    requires |results| == |grid|
    requires forall i :: 0 <= i < |grid| ==> ResultFor(results[i], grid[i], evolve)
    ensures Consistent(ResultTable(results, zVal))
  {
    var t := ResultTable(results, zVal);
    forall r | r in t
      ensures IsTrue(r.survived) ==> IsTrue(r.ce)
    {
      var i :| 0 <= i < |t| && t[i] == r;
      assert ResultFor(results[i], grid[i], evolve);
    }
  }
}
