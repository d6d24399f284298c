/** `create_binary_grid` of run_population.py: the initial conditions of the
    population, the nested product of metallicities, primary masses,
    secondary masses and periods, keeping only pairs whose primary is at least
    as massive as the secondary, optionally cut down to a random sample.

    The mass and period grids (`np.linspace` / `np.logspace`) are inputs, as
    is the order in which `DataFrame.sample` draws rows. */
module BinaryGrid {
  import opened Common

  /** One row of the initial-conditions table. */
  datatype GridRow = GridRow(m1: real, m2: real, period: real, z: real, q: Option<real>)

  /** `M2/M1` as numpy computes it; a zero primary mass gives inf or nan,
      modelled as `None`. */
  function MassRatio(m1: real, m2: real): (q: Option<real>)
    ensures m1 != 0.0 <==> q.Some?
    ensures q.Some? ==> q.value * m1 == m2
    ensures 0.0 < m2 <= m1 ==> q.Some? && 0.0 < q.value <= 1.0
  {
    if m1 == 0.0 then None else Some(m2 / m1)
  }

  function MakeRow(z: real, m1: real, m2: real, p: real): GridRow
  {
    GridRow(m1, m2, p, z, MassRatio(m1, m2))
  }

  // The grid, loop level by loop level; each function gives the rows produced
  // by the first `n` iterations of its loop.

  /** Innermost loop: one row per period. */
  function PeriodRows(z: real, m1: real, m2: real, ps: seq<real>, n: nat): seq<GridRow>
    requires n <= |ps|
  {
    if n == 0 then [] else PeriodRows(z, m1, m2, ps, n - 1) + [MakeRow(z, m1, m2, ps[n - 1])]
  }

  /** Secondary-mass loop: the periods of every secondary no heavier than `m1`. */
  function SecondaryRows(z: real, m1: real, m2s: seq<real>, ps: seq<real>, n: nat): seq<GridRow>
    requires n <= |m2s|
  {
    if n == 0 then []
    else SecondaryRows(z, m1, m2s, ps, n - 1)
         + (if m1 >= m2s[n - 1] then PeriodRows(z, m1, m2s[n - 1], ps, |ps|) else [])
  }

  /** Primary-mass loop. */
  function PrimaryRows(z: real, m1s: seq<real>, m2s: seq<real>, ps: seq<real>, n: nat): seq<GridRow>
    requires n <= |m1s|
  {
    if n == 0 then [] else PrimaryRows(z, m1s, m2s, ps, n - 1) + SecondaryRows(z, m1s[n - 1], m2s, ps, |m2s|)
  }

  /** Metallicity loop. */
  function MetallicityRows(zs: seq<real>, m1s: seq<real>, m2s: seq<real>, ps: seq<real>, n: nat): seq<GridRow>
    requires n <= |zs|
  {
    if n == 0 then [] else MetallicityRows(zs, m1s, m2s, ps, n - 1) + PrimaryRows(zs[n - 1], m1s, m2s, ps, |m1s|)
  }

  /** The full grid, ordered Z, M1, M2, P from the outermost loop inwards. */
  function Grid(zs: seq<real>, m1s: seq<real>, m2s: seq<real>, ps: seq<real>): seq<GridRow>
  {
    MetallicityRows(zs, m1s, m2s, ps, |zs|)
  }

  // ---------------------------------------------------------------------------
  // Contents of the grid
  // ---------------------------------------------------------------------------

  /** A row every field of which comes from the inputs, with M1 >= M2 and q = M2/M1. */
  ghost predicate FromInputs(r: GridRow, zs: seq<real>, m1s: seq<real>, m2s: seq<real>, ps: seq<real>)
  {
    r.z in zs && r.m1 in m1s && r.m2 in m2s && r.period in ps
    && r.m1 >= r.m2 && r.q == MassRatio(r.m1, r.m2)
  }

  /** Every row of `rows` comes from the inputs. */
  ghost predicate AllFromInputs(rows: seq<GridRow>, zs: seq<real>, m1s: seq<real>, m2s: seq<real>, ps: seq<real>)
  {
    forall r :: r in rows ==> FromInputs(r, zs, m1s, m2s, ps)
  }

  lemma AppendFromInputs(a: seq<GridRow>, b: seq<GridRow>, zs: seq<real>, m1s: seq<real>, m2s: seq<real>, ps: seq<real>)
    requires AllFromInputs(a, zs, m1s, m2s, ps) && AllFromInputs(b, zs, m1s, m2s, ps)
    ensures AllFromInputs(a + b, zs, m1s, m2s, ps)
  {
  }

  lemma {:induction false} PeriodRowsFromInputs(z: real, m1: real, m2: real, zs: seq<real>, m1s: seq<real>, m2s: seq<real>, ps: seq<real>, n: nat)
    requires n <= |ps|
    requires z in zs && m1 in m1s && m2 in m2s && m1 >= m2
    ensures AllFromInputs(PeriodRows(z, m1, m2, ps, n), zs, m1s, m2s, ps)
  {
    if n > 0 {
      PeriodRowsFromInputs(z, m1, m2, zs, m1s, m2s, ps, n - 1);
      assert FromInputs(MakeRow(z, m1, m2, ps[n - 1]), zs, m1s, m2s, ps);
      AppendFromInputs(PeriodRows(z, m1, m2, ps, n - 1), [MakeRow(z, m1, m2, ps[n - 1])], zs, m1s, m2s, ps);
    }
  }

  lemma {:induction false} SecondaryRowsFromInputs(z: real, m1: real, zs: seq<real>, m1s: seq<real>, m2s: seq<real>, ps: seq<real>, n: nat)
    requires n <= |m2s|
    requires z in zs && m1 in m1s
    ensures AllFromInputs(SecondaryRows(z, m1, m2s, ps, n), zs, m1s, m2s, ps)
  {
    if n > 0 {
      var prev := SecondaryRows(z, m1, m2s, ps, n - 1);
      SecondaryRowsFromInputs(z, m1, zs, m1s, m2s, ps, n - 1);
      if m1 >= m2s[n - 1] {
        var last := PeriodRows(z, m1, m2s[n - 1], ps, |ps|);
        PeriodRowsFromInputs(z, m1, m2s[n - 1], zs, m1s, m2s, ps, |ps|);
        AppendFromInputs(prev, last, zs, m1s, m2s, ps);
        assert SecondaryRows(z, m1, m2s, ps, n) == prev + last;
      } else {
        assert SecondaryRows(z, m1, m2s, ps, n) == prev + [];
      }
    }
  }

  lemma {:induction false} PrimaryRowsFromInputs(z: real, zs: seq<real>, m1s: seq<real>, m2s: seq<real>, ps: seq<real>, n: nat)
    requires n <= |m1s|
    requires z in zs
    ensures AllFromInputs(PrimaryRows(z, m1s, m2s, ps, n), zs, m1s, m2s, ps)
  {
    if n > 0 {
      var prev := PrimaryRows(z, m1s, m2s, ps, n - 1);
      var last := SecondaryRows(z, m1s[n - 1], m2s, ps, |m2s|);
      PrimaryRowsFromInputs(z, zs, m1s, m2s, ps, n - 1);
      SecondaryRowsFromInputs(z, m1s[n - 1], zs, m1s, m2s, ps, |m2s|);
      AppendFromInputs(prev, last, zs, m1s, m2s, ps);
      assert PrimaryRows(z, m1s, m2s, ps, n) == prev + last;
    }
  }

  lemma {:induction false} MetallicityRowsFromInputs(zs: seq<real>, m1s: seq<real>, m2s: seq<real>, ps: seq<real>, n: nat)
    requires n <= |zs|
    ensures AllFromInputs(MetallicityRows(zs, m1s, m2s, ps, n), zs, m1s, m2s, ps)
  {
    if n > 0 {
      var prev := MetallicityRows(zs, m1s, m2s, ps, n - 1);
      var last := PrimaryRows(zs[n - 1], m1s, m2s, ps, |m1s|);
      MetallicityRowsFromInputs(zs, m1s, m2s, ps, n - 1);
      PrimaryRowsFromInputs(zs[n - 1], zs, m1s, m2s, ps, |m1s|);
      assert AllFromInputs(prev, zs, m1s, m2s, ps);
      assert AllFromInputs(last, zs, m1s, m2s, ps);
      AppendFromInputs(prev, last, zs, m1s, m2s, ps);
      assert MetallicityRows(zs, m1s, m2s, ps, n) == prev + last;
    }
  }

  /** Every grid row has M1 >= M2 and q = M2/M1, and draws each value from
      its own input grid; with positive masses, 0 < q <= 1. */
  lemma GridRowsWellFormed(zs: seq<real>, m1s: seq<real>, m2s: seq<real>, ps: seq<real>)
    ensures forall r :: r in Grid(zs, m1s, m2s, ps) ==>
              FromInputs(r, zs, m1s, m2s, ps)
              && (r.m2 > 0.0 ==> r.q.Some? && 0.0 < r.q.value <= 1.0)
  {
    MetallicityRowsFromInputs(zs, m1s, m2s, ps, |zs|);
  }

  // ---------------------------------------------------------------------------
  // Size of the grid
  // ---------------------------------------------------------------------------

  /** How many of the first `n` secondaries are no heavier than `m1`. */
  function LighterCount(m1: real, m2s: seq<real>, n: nat): (c: nat)
    requires n <= |m2s|
    ensures c <= n
  {
    if n == 0 then 0 else LighterCount(m1, m2s, n - 1) + (if m1 >= m2s[n - 1] then 1 else 0)
  }

  /** |{(M1, M2) : M1 >= M2}| over the first `n` primaries. */
  function PairCount(m1s: seq<real>, m2s: seq<real>, n: nat): nat
    requires n <= |m1s|
  {
    if n == 0 then 0 else PairCount(m1s, m2s, n - 1) + LighterCount(m1s[n - 1], m2s, |m2s|)
  }

  lemma Distribute(a: nat, b: nat, c: nat)
    ensures (a + b) * c == a * c + b * c
  {
  }

  lemma Associate(a: nat, b: nat, c: nat)
    ensures a * (b * c) == a * b * c
  {
  }

  lemma {:induction false} SecondaryRowsSize(z: real, m1: real, m2s: seq<real>, ps: seq<real>, n: nat)
    requires n <= |m2s|
    ensures |SecondaryRows(z, m1, m2s, ps, n)| == LighterCount(m1, m2s, n) * |ps|
  {
    if n > 0 {
      SecondaryRowsSize(z, m1, m2s, ps, n - 1);
      PeriodRowsSize(z, m1, m2s[n - 1], ps, |ps|);
      Distribute(LighterCount(m1, m2s, n - 1), if m1 >= m2s[n - 1] then 1 else 0, |ps|);
    }
  }

  lemma {:induction false} PeriodRowsSize(z: real, m1: real, m2: real, ps: seq<real>, n: nat)
    requires n <= |ps|
    ensures |PeriodRows(z, m1, m2, ps, n)| == n
  {
    if n > 0 {
      PeriodRowsSize(z, m1, m2, ps, n - 1);
    }
  }

  lemma {:induction false} PrimaryRowsSize(z: real, m1s: seq<real>, m2s: seq<real>, ps: seq<real>, n: nat)
    requires n <= |m1s|
    ensures |PrimaryRows(z, m1s, m2s, ps, n)| == PairCount(m1s, m2s, n) * |ps|
  {
    if n > 0 {
      var prev := PrimaryRows(z, m1s, m2s, ps, n - 1);
      var last := SecondaryRows(z, m1s[n - 1], m2s, ps, |m2s|);
      assert PrimaryRows(z, m1s, m2s, ps, n) == prev + last;
      PrimaryRowsSize(z, m1s, m2s, ps, n - 1);
      SecondaryRowsSize(z, m1s[n - 1], m2s, ps, |m2s|);
      var a := PairCount(m1s, m2s, n - 1);
      var b := LighterCount(m1s[n - 1], m2s, |m2s|);
      assert PairCount(m1s, m2s, n) == a + b;
      Distribute(a, b, |ps|);
    }
  }

  lemma {:induction false} MetallicityRowsSize(zs: seq<real>, m1s: seq<real>, m2s: seq<real>, ps: seq<real>, n: nat)
    requires n <= |zs|
    ensures |MetallicityRows(zs, m1s, m2s, ps, n)| == n * (PairCount(m1s, m2s, |m1s|) * |ps|)
  {
    if n > 0 {
      var prev := MetallicityRows(zs, m1s, m2s, ps, n - 1);
      var last := PrimaryRows(zs[n - 1], m1s, m2s, ps, |m1s|);
      assert MetallicityRows(zs, m1s, m2s, ps, n) == prev + last;
      MetallicityRowsSize(zs, m1s, m2s, ps, n - 1);
      PrimaryRowsSize(zs[n - 1], m1s, m2s, ps, |m1s|);
      Distribute(n - 1, 1, PairCount(m1s, m2s, |m1s|) * |ps|);
    }
  }

  /** The full grid has |Z| x |{(M1, M2) : M1 >= M2}| x |P| rows. */
  lemma GridSize(zs: seq<real>, m1s: seq<real>, m2s: seq<real>, ps: seq<real>)
    ensures |Grid(zs, m1s, m2s, ps)| == |zs| * PairCount(m1s, m2s, |m1s|) * |ps|
  {
    MetallicityRowsSize(zs, m1s, m2s, ps, |zs|);
    Associate(|zs|, PairCount(m1s, m2s, |m1s|), |ps|);
  }

  // ---------------------------------------------------------------------------
  // Sampling
  // ---------------------------------------------------------------------------

  /** The row order `DataFrame.sample(random_state=42)` draws in: a permutation
      of the row positions. */
  ghost predicate IsPermutation(order: seq<nat>, n: nat)
  {
    |order| == n
    && (forall i :: 0 <= i < n ==> order[i] < n)
    && (forall i, j :: 0 <= i < j < n ==> order[i] != order[j])
  }

  /** The rows of `s` at positions `idx`, in that order. */
  function Pick<T>(s: seq<T>, idx: seq<nat>): seq<T>
    requires forall i :: 0 <= i < |idx| ==> idx[i] < |s|
  {
    seq(|idx|, i requires 0 <= i < |idx| => s[idx[i]])
  }

  /** Picking at distinct positions draws without replacement: no row comes
      out more often than `s` holds it. */
  lemma {:induction false} PickSubMultiset<T>(s: seq<T>, idx: seq<nat>)
    requires forall i :: 0 <= i < |idx| ==> idx[i] < |s|
    requires forall i, j :: 0 <= i < j < |idx| ==> idx[i] != idx[j]
    ensures multiset(Pick(s, idx)) <= multiset(s)
    decreases |idx|
  {
    if idx != [] {
      var n := |idx| - 1;
      var p := idx[n];
      var rest := s[..p] + s[p + 1..];
      var idx' := seq(n, i requires 0 <= i < n => if idx[i] < p then idx[i] else idx[i] - 1);
      forall i | 0 <= i < n
        ensures idx'[i] < |rest| && rest[idx'[i]] == s[idx[i]]
      {
        assert idx[i] != p;
      }
      PickSubMultiset(rest, idx');
      assert Pick(s, idx) == Pick(rest, idx') + [s[p]];
      assert s == s[..p] + [s[p]] + s[p + 1..];
    }
  }

  /** `if n_samples and n_samples < len(df): df = df.sample(n=n_samples)`.
      `nSamples` is None when no sample size was given; pandas refuses a
      negative sample size, which gives None. */
  function SampleGrid(grid: seq<GridRow>, nSamples: Option<int>, order: seq<nat>): (r: Option<seq<GridRow>>)
    requires IsPermutation(order, |grid|)
    ensures (nSamples.None? || nSamples.value == 0 || nSamples.value >= |grid|) ==> r == Some(grid)
    ensures nSamples.Some? && nSamples.value < 0 ==> r.None?
    ensures nSamples.Some? && 0 < nSamples.value < |grid| ==>
              r.Some? && |r.value| == nSamples.value
              && (forall i :: 0 <= i < |r.value| ==> r.value[i] in grid)
              && multiset(r.value) <= multiset(grid)
  {
    match nSamples
    case None => Some(grid)
    case Some(n) =>
      if n != 0 && n < |grid| then
        if n < 0 then None
        else
          PickSubMultiset(grid, order[..n]);
          Some(Pick(grid, order[..n]))
      else Some(grid)
  }

  // The four nested loops of `create_binary_grid`, innermost first; each
  // method runs one loop and returns the rows it appends.

  /** `for P in P_range`: one row per period. */
  method AppendPeriods(z: real, m1: real, m2: real, ps: seq<real>) returns (rows: seq<GridRow>)
    ensures rows == PeriodRows(z, m1, m2, ps, |ps|)
  {
    rows := [];
    var d := 0;
    while d < |ps|
      invariant 0 <= d <= |ps|
      invariant rows == PeriodRows(z, m1, m2, ps, d)
    {
      rows := rows + [GridRow(m1, m2, ps[d], z, MassRatio(m1, m2))];
      d := d + 1;
    }
  }

  /** `for M2 in M2_range: if M1 >= M2: ...`. */
  method AppendSecondaries(z: real, m1: real, m2s: seq<real>, ps: seq<real>) returns (rows: seq<GridRow>)
    ensures rows == SecondaryRows(z, m1, m2s, ps, |m2s|)
  {
    rows := [];
    var c := 0;
    while c < |m2s|
      invariant 0 <= c <= |m2s|
      invariant rows == SecondaryRows(z, m1, m2s, ps, c)
    {
      var m2 := m2s[c];
      if m1 >= m2 {
        var periods := AppendPeriods(z, m1, m2, ps);
        rows := rows + periods;
      }
      c := c + 1;
    }
  }

  /** `for M1 in M1_range`. */
  method AppendPrimaries(z: real, m1s: seq<real>, m2s: seq<real>, ps: seq<real>) returns (rows: seq<GridRow>)
    ensures rows == PrimaryRows(z, m1s, m2s, ps, |m1s|)
  {
    rows := [];
    var b := 0;
    while b < |m1s|
      invariant 0 <= b <= |m1s|
      invariant rows == PrimaryRows(z, m1s, m2s, ps, b)
    {
      var pairs := AppendSecondaries(z, m1s[b], m2s, ps);
      rows := rows + pairs;
      b := b + 1;
    }
  }

  /** `for Z in metallicities`: the whole grid, before sampling. */
  method AppendMetallicities(zs: seq<real>, m1s: seq<real>, m2s: seq<real>, ps: seq<real>) returns (rows: seq<GridRow>)
    ensures rows == Grid(zs, m1s, m2s, ps)
  {
    rows := [];
    var a := 0;
    while a < |zs|
      invariant 0 <= a <= |zs|
      invariant rows == MetallicityRows(zs, m1s, m2s, ps, a)
    {
      var block := AppendPrimaries(zs[a], m1s, m2s, ps);
      rows := rows + block;
      a := a + 1;
    }
  }

  /** `create_binary_grid(M1_range, M2_range, P_range, metallicities, n_samples)`:
      the grid, then the optional sampling. */
  method CreateBinaryGrid(zs: seq<real>, m1s: seq<real>, m2s: seq<real>, ps: seq<real>,
                          nSamples: Option<int>, order: seq<nat>)
    returns (df: Option<seq<GridRow>>)
    requires IsPermutation(order, |Grid(zs, m1s, m2s, ps)|)
    ensures df == SampleGrid(Grid(zs, m1s, m2s, ps), nSamples, order)
  {
    var rows := AppendMetallicities(zs, m1s, m2s, ps);
    df := SampleGrid(rows, nSamples, order);
  }
}
