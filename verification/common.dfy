/** Shared vocabulary: optional values (a missing or NaN cell), Python string
    operations used by the scripts, and small statistics over sequences of reals. */
module Common {

  /** A cell that may be missing: `None` stands for pandas' NaN / Python's None. */
  datatype Option<+T> = None | Some(value: T)

  // ---------------------------------------------------------------------------
  // Strings
  // ---------------------------------------------------------------------------

  /** Python's `pat in s` for strings: `pat` occurs contiguously in `s`. */
  predicate Contains(s: string, pat: string)
    decreases |s|
  {
    |pat| <= |s| && (s[..|pat|] == pat || Contains(s[1..], pat))
  }

  /** `pat` occurs at position `i` of `s`. */
  ghost predicate OccursAt(s: string, pat: string, i: int)
  {
    0 <= i && i + |pat| <= |s| && s[i..i + |pat|] == pat
  }

  lemma {:induction false} ContainsIffOccurs(s: string, pat: string)
    ensures Contains(s, pat) <==> exists i :: OccursAt(s, pat, i)
    decreases |s|
  {
    if |pat| <= |s| {
      if s[..|pat|] == pat {
        assert OccursAt(s, pat, 0);
      } else {
        ContainsIffOccurs(s[1..], pat);
        if Contains(s[1..], pat) {
          var i :| OccursAt(s[1..], pat, i);
          assert s[i + 1..i + 1 + |pat|] == s[1..][i..i + |pat|];
          assert OccursAt(s, pat, i + 1);
        }
        if exists i :: OccursAt(s, pat, i) {
          var i :| OccursAt(s, pat, i);
          assert i != 0;
          assert s[1..][i - 1..i - 1 + |pat|] == s[i..i + |pat|];
          assert OccursAt(s[1..], pat, i - 1);
        }
      }
    }
  }

  /** Whenever `s` contains `pat`, it contains every piece `pat[a..b]` of it:
      for instance every string containing "he" contains "h". */
  lemma ContainsPiece(s: string, pat: string, a: nat, b: nat)
    requires a <= b <= |pat|
    requires Contains(s, pat)
    ensures Contains(s, pat[a..b])
  {
    ContainsIffOccurs(s, pat);
    var i :| OccursAt(s, pat, i);
    var window := s[i..i + |pat|];
    assert window == pat;
    assert forall k {:trigger window[a..b][k]} :: 0 <= k < b - a ==> window[a..b][k] == s[i + a + k];
    assert s[i + a..i + b] == window[a..b];
    assert OccursAt(s, pat[a..b], i + a);
    ContainsIffOccurs(s, pat[a..b]);
  }

  /** Python's `str.lower()` on ASCII letters. */
  function LowerChar(c: char): (d: char)
    ensures 'A' <= c <= 'Z' ==> d == c - 'A' + 'a'
    ensures !('A' <= c <= 'Z') ==> d == c
  {
    if 'A' <= c <= 'Z' then (c as int - 'A' as int + 'a' as int) as char else c
  }

  function Lower(s: string): (t: string)
    ensures |t| == |s|
    ensures forall i :: 0 <= i < |s| ==> t[i] == LowerChar(s[i])
  {
    seq(|s|, i requires 0 <= i < |s| => LowerChar(s[i]))
  }

  // ---------------------------------------------------------------------------
  // Sequences
  // ---------------------------------------------------------------------------

  /** pandas' `Series.unique()`: the distinct values in order of first appearance. */
  function Unique<T(==,!new)>(xs: seq<T>): (u: seq<T>)
    ensures forall x :: x in u <==> x in xs
    ensures forall i, j :: 0 <= i < j < |u| ==> u[i] != u[j]
  {
    if xs == [] then []
    else
      var u := Unique(xs[..|xs| - 1]);
      assert forall x :: x in xs <==> x in xs[..|xs| - 1] || x == xs[|xs| - 1];
      if xs[|xs| - 1] in u then u else u + [xs[|xs| - 1]]
  }

  /** Dropping the last element of `a + b` drops the last element of `b`. */
  lemma ConcatInit<T>(a: seq<T>, b: seq<T>)
    requires b != []
    ensures (a + b)[..|a + b| - 1] == a + b[..|b| - 1]
    ensures (a + b)[|a + b| - 1] == b[|b| - 1]
  {
  }

  /** The position of the first occurrence of `x` in `xs`. */
  function FirstIndex<T(==)>(xs: seq<T>, x: T): (i: nat)
    requires x in xs
    ensures i < |xs| && xs[i] == x
    ensures forall j :: 0 <= j < i ==> xs[j] != x
  {
    if xs[0] == x then 0 else 1 + FirstIndex(xs[1..], x)
  }

  /** Appending a value does not move the first occurrence of earlier ones. */
  lemma FirstIndexSnoc<T>(xs: seq<T>, y: T, x: T)
    requires x in xs
    ensures FirstIndex(xs + [y], x) == FirstIndex(xs, x)
  {
    var a := FirstIndex(xs + [y], x);
    var b := FirstIndex(xs, x);
    assert (xs + [y])[b] == x;
  }

  /** `unique()` lists the values in order of first appearance. */
  lemma {:induction false} UniqueFirstAppearance<T(!new)>(xs: seq<T>)
    ensures forall i, j :: 0 <= i < j < |Unique(xs)| ==>
              FirstIndex(xs, Unique(xs)[i]) < FirstIndex(xs, Unique(xs)[j])
  {
    if xs != [] {
      var init := xs[..|xs| - 1];
      var last := xs[|xs| - 1];
      assert xs == init + [last];
      UniqueFirstAppearance(init);
      var u := Unique(init);
      forall y | y in u
        ensures FirstIndex(xs, y) == FirstIndex(init, y) < |init|
      {
        FirstIndexSnoc(init, last, y);
      }
      if last !in u {
        assert last !in init;
        assert forall j :: 0 <= j < |init| ==> xs[j] == init[j];
      }
    }
  }

  /** The values `pick` yields for the indices below `n`, in index order;
      an index where it yields nothing contributes nothing. */
  function Gather<T>(n: nat, pick: nat -> Option<T>): seq<T>
  {
    if n == 0 then []
    else Gather(n - 1, pick) + (if pick(n - 1).Some? then [pick(n - 1).value] else [])
  }

  /** The indices below `n` where `pick` yields a value. */
  ghost function GatherIndices<T>(n: nat, pick: nat -> Option<T>): seq<nat>
  {
    if n == 0 then []
    else GatherIndices(n - 1, pick) + (if pick(n - 1).Some? then [n - 1] else [])
  }

  /** Every value yielded below `n` is gathered. */
  lemma {:induction false} GatherComplete<T>(n: nat, pick: nat -> Option<T>, i: nat)
    requires i < n && pick(i).Some?
    ensures pick(i).value in Gather(n, pick)
  {
    if i < n - 1 {
      GatherComplete(n - 1, pick, i);
    }
  }

  /** The k-th gathered value is what `pick` yields at the k-th yielding
      index, and those indices increase. */
  lemma {:induction false} GatherIndexed<T>(n: nat, pick: nat -> Option<T>)
    ensures |Gather(n, pick)| == |GatherIndices(n, pick)|
    ensures forall k :: 0 <= k < |GatherIndices(n, pick)| ==>
              GatherIndices(n, pick)[k] < n && pick(GatherIndices(n, pick)[k]) == Some(Gather(n, pick)[k])
    ensures forall j, k :: 0 <= j < k < |GatherIndices(n, pick)| ==>
              GatherIndices(n, pick)[j] < GatherIndices(n, pick)[k]
  {
    if n > 0 {
      GatherIndexed(n - 1, pick);
    }
  }

  // ---------------------------------------------------------------------------
  // Statistics over reals
  // ---------------------------------------------------------------------------

  function Sum(xs: seq<real>): real
  {
    if xs == [] then 0.0 else Sum(xs[..|xs| - 1]) + xs[|xs| - 1]
  }

  function Min(xs: seq<real>): (m: real)
    requires |xs| > 0
    ensures m in xs
    ensures forall i :: 0 <= i < |xs| ==> m <= xs[i]
  {
    if |xs| == 1 then xs[0]
    else
      var m := Min(xs[..|xs| - 1]);
      assert forall i :: 0 <= i < |xs| - 1 ==> xs[..|xs| - 1][i] == xs[i];
      if xs[|xs| - 1] < m then xs[|xs| - 1] else m
  }

  function Max(xs: seq<real>): (m: real)
    requires |xs| > 0
    ensures m in xs
    ensures forall i :: 0 <= i < |xs| ==> xs[i] <= m
  {
    if |xs| == 1 then xs[0]
    else
      var m := Max(xs[..|xs| - 1]);
      assert forall i :: 0 <= i < |xs| - 1 ==> xs[..|xs| - 1][i] == xs[i];
      if xs[|xs| - 1] > m then xs[|xs| - 1] else m
  }

  /** numpy / pandas `mean()` of a non-empty column. */
  function Mean(xs: seq<real>): real
    requires |xs| > 0
  {
    Sum(xs) / (|xs| as real)
  }

  /** A sum of values that all lie in [lo, hi] lies in [n*lo, n*hi]. */
  lemma {:induction false} SumBounds(xs: seq<real>, lo: real, hi: real)
    requires forall i :: 0 <= i < |xs| ==> lo <= xs[i] <= hi
    ensures (|xs| as real) * lo <= Sum(xs) <= (|xs| as real) * hi
  {
    if xs == [] {
      assert (|xs| as real) * lo == 0.0 == (|xs| as real) * hi;
    } else {
      var init := xs[..|xs| - 1];
      assert forall i :: 0 <= i < |init| ==> init[i] == xs[i];
      SumBounds(init, lo, hi);
      assert Sum(xs) == Sum(init) + xs[|xs| - 1];
      assert lo <= xs[|xs| - 1] <= hi;
      var n := |init| as real;
      assert |xs| as real == n + 1.0;
      assert (|xs| as real) * lo == n * lo + lo;
      assert (|xs| as real) * hi == n * hi + hi;
    }
  }

  /** The mean of values that all lie in [lo, hi] lies in [lo, hi]. */
  lemma MeanWithin(xs: seq<real>, lo: real, hi: real)
    requires |xs| > 0
    requires forall i :: 0 <= i < |xs| ==> lo <= xs[i] <= hi
    ensures lo <= Mean(xs) <= hi
  {
    SumBounds(xs, lo, hi);
    var n := |xs| as real;
    assert n * lo <= Sum(xs) <= n * hi;
    assert Sum(xs) / n >= lo by {
      assert Sum(xs) >= n * lo;
    }
    assert Sum(xs) / n <= hi by {
      assert Sum(xs) <= n * hi;
    }
  }

  /** The mean of a non-empty column lies between its minimum and maximum. */
  lemma MeanBetweenMinMax(xs: seq<real>)
    requires |xs| > 0
    ensures Min(xs) <= Mean(xs) <= Max(xs)
  {
    MeanWithin(xs, Min(xs), Max(xs));
  }

  function Square(d: real): (r: real)
    ensures r >= 0.0
  {
    if d >= 0.0 then d * d else (-d) * (-d)
  }

  function SumSquaredDeviations(xs: seq<real>, m: real): (s: real)
    ensures s >= 0.0
  {
    if xs == [] then 0.0
    else SumSquaredDeviations(xs[..|xs| - 1], m) + Square(xs[|xs| - 1] - m)
  }

  /** pandas' `Series.std()` squared: the sample variance (ddof = 1), which
      pandas reports as NaN for fewer than two values. */
  function SampleVariance(xs: seq<real>): (v: Option<real>)
    ensures v.Some? <==> |xs| >= 2
    ensures v.Some? ==> v.value >= 0.0
  {
    if |xs| < 2 then None
    else Some(SumSquaredDeviations(xs, Mean(xs)) / ((|xs| - 1) as real))
  }

  /** numpy's `std()` squared: the population variance (ddof = 0). */
  function PopulationVariance(xs: seq<real>): (v: real)
    requires |xs| > 0
    ensures v >= 0.0
  {
    SumSquaredDeviations(xs, Mean(xs)) / (|xs| as real)
  }

  /** `k / n * 100` for a count `k` out of `n`. */
  function Percent(k: nat, n: nat): (r: real)
    requires n > 0
    ensures k <= n ==> 0.0 <= r <= 100.0
    ensures r == 0.0 <==> k == 0
    ensures r == 100.0 <==> k == n
  {
    (k as real) / (n as real) * 100.0
  }
}
