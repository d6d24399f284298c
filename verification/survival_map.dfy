/** `create_2d_survival_maps` of scripts/physics_analysis.py: for one
    metallicity, the number of CE events and the survival percentage in each
    cell of a (mass ratio, period) grid of half-open bins. */
module SurvivalMap {
  import opened Common
  import opened Records
  import opened Physics

  /** Cell (i, j): q in the i-th mass-ratio bin and P in the j-th period bin. */
  function InCell(qEdges: seq<real>, pEdges: seq<real>, i: nat, j: nat): Row -> bool
    requires i + 1 < |qEdges| && j + 1 < |pEdges|
  {
    (r: Row) => InHalfOpen(r.q, qEdges[i], qEdges[i + 1]) && InHalfOpen(Some(r.period), pEdges[j], pEdges[j + 1])
  }

  function Cell(zData: seq<Row>, qEdges: seq<real>, pEdges: seq<real>, i: nat, j: nat): seq<Row>
    requires i + 1 < |qEdges| && j + 1 < |pEdges|
  {
    Where(zData, InCell(qEdges, pEdges, i, j))
  }

  /** The survival-map entry for a cell: NaN (None) exactly for an empty cell. */
  function CellRate(cell: seq<Row>): (rate: Option<real>)
    ensures rate.None? <==> |cell| == 0
    ensures rate.Some? ==> 0.0 <= rate.value <= 100.0
  {
    if |cell| > 0 then Some(SurvivalRate(cell)) else None
  }

  /** The count and survival maps for metallicity `z`. The script's edge
      arrays always hold at least one edge; `np.zeros` rejects the negative
      shape fewer edges would give. */
  method SurvivalMaps(allCe: seq<Row>, z: real, qEdges: seq<real>, pEdges: seq<real>)
    returns (counts: array2<nat>, rates: array2<Option<real>>)
    requires |qEdges| > 0 && |pEdges| > 0
    ensures fresh(counts) && fresh(rates)
    ensures counts.Length0 == rates.Length0 == |qEdges| - 1
    ensures counts.Length1 == rates.Length1 == |pEdges| - 1
    ensures forall i, j :: 0 <= i < counts.Length0 && 0 <= j < counts.Length1 ==>
              counts[i, j] == |Cell(Where(allCe, AtZ(z)), qEdges, pEdges, i, j)|
              && rates[i, j] == CellRate(Cell(Where(allCe, AtZ(z)), qEdges, pEdges, i, j))
  {
    var zData := Where(allCe, AtZ(z));
    counts := new nat[|qEdges| - 1, |pEdges| - 1];
    rates := new Option<real>[|qEdges| - 1, |pEdges| - 1];
    for i := 0 to |qEdges| - 1
      invariant forall i', j :: 0 <= i' < i && 0 <= j < |pEdges| - 1 ==>
                  counts[i', j] == |Cell(zData, qEdges, pEdges, i', j)|
                  && rates[i', j] == CellRate(Cell(zData, qEdges, pEdges, i', j))
    {
      for j := 0 to |pEdges| - 1
        invariant forall i', j' :: 0 <= i' < i && 0 <= j' < |pEdges| - 1 ==>
                    counts[i', j'] == |Cell(zData, qEdges, pEdges, i', j')|
                    && rates[i', j'] == CellRate(Cell(zData, qEdges, pEdges, i', j'))
        invariant forall j' :: 0 <= j' < j ==>
                    counts[i, j'] == |Cell(zData, qEdges, pEdges, i, j')|
                    && rates[i, j'] == CellRate(Cell(zData, qEdges, pEdges, i, j'))
      {
        var binData := Where(zData, InCell(qEdges, pEdges, i, j));
        counts[i, j] := |binData|;
        if |binData| > 0 {
          rates[i, j] := Some(SurvivalRate(binData));
        } else {
          rates[i, j] := None;
        }
      }
    }
  }

  // ---------------------------------------------------------------------------
  // The counts add up to at most the number of events
  // ---------------------------------------------------------------------------

  /** How many of the first `n` half-open bins hold `x`. */
  function BinHits(x: Option<real>, edges: seq<real>, n: nat): nat
    requires n < |edges|
  {
    if n == 0 then 0 else BinHits(x, edges, n - 1) + (if InHalfOpen(x, edges[n - 1], edges[n]) then 1 else 0)
  }

  lemma {:induction false} NoHitsBelow(x: Option<real>, edges: seq<real>, n: nat)
    requires Sorted(edges) && n < |edges|
    requires x.Some? && x.value >= edges[n]
    ensures BinHits(x, edges, n) == 0
  {
    if n > 0 {
      assert edges[n - 1] <= edges[n];
      NoHitsBelow(x, edges, n - 1);
    }
  }

  /** With sorted edges a value is in at most one bin. */
  lemma {:induction false} AtMostOneHit(x: Option<real>, edges: seq<real>, n: nat)
    requires Sorted(edges) && n < |edges|
    ensures BinHits(x, edges, n) <= 1
  {
    if n > 0 {
      if InHalfOpen(x, edges[n - 1], edges[n]) {
        NoHitsBelow(x, edges, n - 1);
      } else {
        AtMostOneHit(x, edges, n - 1);
      }
    }
  }

  /** Number of cells (i, j') with j' < m holding `r`. */
  function RowHits(r: Row, qEdges: seq<real>, pEdges: seq<real>, i: nat, m: nat): nat
    requires i + 1 < |qEdges| && m < |pEdges|
  {
    if m == 0 then 0
    else RowHits(r, qEdges, pEdges, i, m - 1) + (if InCell(qEdges, pEdges, i, m - 1)(r) then 1 else 0)
  }

  /** Number of cells (i', j) with i' < n holding `r`. */
  function GridHits(r: Row, qEdges: seq<real>, pEdges: seq<real>, n: nat): nat
    requires n < |qEdges| && |pEdges| > 0
  {
    if n == 0 then 0 else GridHits(r, qEdges, pEdges, n - 1) + RowHits(r, qEdges, pEdges, n - 1, |pEdges| - 1)
  }

  lemma {:induction false} RowHitsAtMostOne(r: Row, qEdges: seq<real>, pEdges: seq<real>, i: nat, m: nat)
    requires Sorted(pEdges)
    requires i + 1 < |qEdges| && m < |pEdges|
    ensures RowHits(r, qEdges, pEdges, i, m) <= (if InHalfOpen(r.q, qEdges[i], qEdges[i + 1]) then BinHits(Some(r.period), pEdges, m) else 0)
  {
    if m > 0 {
      RowHitsAtMostOne(r, qEdges, pEdges, i, m - 1);
    }
  }

  lemma {:induction false} GridHitsAtMostBinHits(r: Row, qEdges: seq<real>, pEdges: seq<real>, n: nat)
    requires Sorted(pEdges) && n < |qEdges| && |pEdges| > 0
    ensures GridHits(r, qEdges, pEdges, n) <= BinHits(r.q, qEdges, n)
  {
    if n > 0 {
      GridHitsAtMostBinHits(r, qEdges, pEdges, n - 1);
      RowHitsAtMostOne(r, qEdges, pEdges, n - 1, |pEdges| - 1);
      AtMostOneHit(Some(r.period), pEdges, |pEdges| - 1);
    }
  }

  /** An event lies in at most one cell of the map. */
  lemma EventInAtMostOneCell(r: Row, qEdges: seq<real>, pEdges: seq<real>)
    requires Sorted(qEdges) && Sorted(pEdges) && |qEdges| > 0 && |pEdges| > 0
    ensures GridHits(r, qEdges, pEdges, |qEdges| - 1) <= 1
  {
    GridHitsAtMostBinHits(r, qEdges, pEdges, |qEdges| - 1);
    AtMostOneHit(r.q, qEdges, |qEdges| - 1);
  }

  /** Sum of the counts of cells (i, j') with j' < m. */
  function RowCount(zData: seq<Row>, qEdges: seq<real>, pEdges: seq<real>, i: nat, m: nat): nat
    requires i + 1 < |qEdges| && m < |pEdges|
  {
    if m == 0 then 0 else RowCount(zData, qEdges, pEdges, i, m - 1) + |Cell(zData, qEdges, pEdges, i, m - 1)|
  }

  /** Sum of the counts of rows i' < n of the map. */
  function MapCount(zData: seq<Row>, qEdges: seq<real>, pEdges: seq<real>, n: nat): nat
    requires n < |qEdges| && |pEdges| > 0
  {
    if n == 0 then 0 else MapCount(zData, qEdges, pEdges, n - 1) + RowCount(zData, qEdges, pEdges, n - 1, |pEdges| - 1)
  }

  lemma WhereSnoc(rows: seq<Row>, r: Row, keep: Row -> bool)
    ensures |Where(rows + [r], keep)| == |Where(rows, keep)| + (if keep(r) then 1 else 0)
  {
    assert (rows + [r])[..|rows + [r]| - 1] == rows;
  }

  lemma {:induction false} RowCountSnoc(rows: seq<Row>, r: Row, qEdges: seq<real>, pEdges: seq<real>, i: nat, m: nat)
    requires i + 1 < |qEdges| && m < |pEdges|
    ensures RowCount(rows + [r], qEdges, pEdges, i, m) == RowCount(rows, qEdges, pEdges, i, m) + RowHits(r, qEdges, pEdges, i, m)
  {
    if m > 0 {
      RowCountSnoc(rows, r, qEdges, pEdges, i, m - 1);
      WhereSnoc(rows, r, InCell(qEdges, pEdges, i, m - 1));
    }
  }

  lemma {:induction false} MapCountSnoc(rows: seq<Row>, r: Row, qEdges: seq<real>, pEdges: seq<real>, n: nat)
    requires n < |qEdges| && |pEdges| > 0
    ensures MapCount(rows + [r], qEdges, pEdges, n) == MapCount(rows, qEdges, pEdges, n) + GridHits(r, qEdges, pEdges, n)
  {
    if n > 0 {
      MapCountSnoc(rows, r, qEdges, pEdges, n - 1);
      RowCountSnoc(rows, r, qEdges, pEdges, n - 1, |pEdges| - 1);
    }
  }

  /** With sorted edges the cells are disjoint, so the counts of a map add up
      to at most the number of CE events at that metallicity. */
  lemma {:induction false} CountsAtMostEvents(zData: seq<Row>, qEdges: seq<real>, pEdges: seq<real>)
    requires Sorted(qEdges) && Sorted(pEdges) && |qEdges| > 0 && |pEdges| > 0
    ensures MapCount(zData, qEdges, pEdges, |qEdges| - 1) <= |zData|
  {
    if zData != [] {
      var init := zData[..|zData| - 1];
      var last := zData[|zData| - 1];
      assert zData == init + [last];
      CountsAtMostEvents(init, qEdges, pEdges);
      MapCountSnoc(init, last, qEdges, pEdges, |qEdges| - 1);
      EventInAtMostOneCell(last, qEdges, pEdges);
    } else {
      EmptyMapCount(zData, qEdges, pEdges, |qEdges| - 1);
    }
  }

  lemma {:induction false} EmptyMapCount(zData: seq<Row>, qEdges: seq<real>, pEdges: seq<real>, n: nat)
    requires zData == [] && n < |qEdges| && |pEdges| > 0
    ensures MapCount(zData, qEdges, pEdges, n) == 0
  {
    if n > 0 {
      EmptyMapCount(zData, qEdges, pEdges, n - 1);
      EmptyRowCount(zData, qEdges, pEdges, n - 1, |pEdges| - 1);
    }
  }

  lemma {:induction false} EmptyRowCount(zData: seq<Row>, qEdges: seq<real>, pEdges: seq<real>, i: nat, m: nat)
    requires zData == [] && i + 1 < |qEdges| && m < |pEdges|
    ensures RowCount(zData, qEdges, pEdges, i, m) == 0
  {
    if m > 0 {
      EmptyRowCount(zData, qEdges, pEdges, i, m - 1);
    }
  }
}
