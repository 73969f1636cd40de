/** Drawdown of an equity curve (backtesting/metrics.py): the running-peak scan against the
    definition over all pairs of points. */
module Metrics {
  import opened Prelude

  ghost predicate Curve(equity: seq<real>) {
    equity != [] && forall i :: 0 <= i < |equity| ==> equity[i] > 0.0
  }

  /** np.maximum.accumulate at one index. */
  function Peak(equity: seq<real>, i: nat): real
    requires i < |equity|
  {
    if i == 0 then equity[0] else Max(Peak(equity, i - 1), equity[i])
  }

  /** The running peak is the largest point so far, and it is one of them. */
  lemma {:induction false} PeakIsMaximum(equity: seq<real>, i: nat)
    requires i < |equity|
    ensures forall j :: 0 <= j <= i ==> equity[j] <= Peak(equity, i)
    ensures exists j :: 0 <= j <= i && equity[j] == Peak(equity, i)
  {
    if i == 0 {
      assert equity[0] == Peak(equity, 0);
    } else {
      PeakIsMaximum(equity, i - 1);
      var j :| 0 <= j <= i - 1 && equity[j] == Peak(equity, i - 1);
      assert equity[if equity[i] > equity[j] then i else j] == Peak(equity, i);
    }
  }

  function Drop(from: real, to: real): real
    requires from != 0.0
  {
    (from - to) / from
  }

  lemma DropGrows(low: real, high: real, to: real)
    requires 0.0 < low <= high && 0.0 < to
    ensures Drop(low, to) <= Drop(high, to)
  {
    QuotientFalls(to, low, high);
    DropIs(low, to);
    DropIs(high, to);
  }

  lemma DropIs(from: real, to: real)
    requires from > 0.0
    ensures Drop(from, to) == 1.0 - to / from
  {
    MulDiv(from - to, from);
    MulDiv(to, from);
    SameFactor(Drop(from, to), 1.0 - to / from, from);
  }

  lemma SameFactor(a: real, b: real, c: real)
    requires c > 0.0 && a * c == b * c
    ensures a == b
  {
    if a != b {
      PositiveProduct(if a > b then a - b else b - a, c);
    }
  }

  lemma QuotientFalls(to: real, low: real, high: real)
    requires 0.0 < low <= high && 0.0 < to
    ensures to / high <= to / low
  {
    var x, y := to / low, to / high;
    MulDiv(to, low);
    MulDiv(to, high);
    MulMonotone(low, high, x);
    assert (y - x) * high == y * high - x * high;
    if x < y {
      PositiveProduct(y - x, high);
    }
  }

  lemma PositiveProduct(a: real, b: real)
    requires a > 0.0 && b > 0.0
    ensures a * b > 0.0
  {
  }

  predicate Underwater(equity: seq<real>, i: nat)
    requires i < |equity|
  {
    equity[i] < Peak(equity, i)
  }

  // ---------------------------------------------------------------- underwater runs

  /** [s, e) is a maximal stretch of true values. */
  ghost predicate IsRun(u: seq<bool>, s: int, e: int) {
    && 0 <= s < e <= |u|
    && (forall k :: s <= k < e ==> u[k])
    && (s > 0 ==> !u[s - 1]) && (e < |u| ==> !u[e])
  }

  /** The flags, false before the first and after the last. */
  predicate Flag(u: seq<bool>, k: int) {
    0 <= k < |u| && u[k]
  }

  /** `edges` lists the places in [0, n) where the flag differs from the one before: flags are
      false up to the first edge, true after each even one and false after each odd one. */
  ghost predicate Alternates(u: seq<bool>, edges: seq<int>, n: int) {
    && (forall i :: 0 <= i < |edges| ==> 0 <= edges[i] < n)
    && (forall i, j :: 0 <= i < j < |edges| ==> edges[i] < edges[j])
    && (forall m :: m < n && (edges == [] || m < edges[0]) ==> !Flag(u, m))
    && (forall i, m :: 0 <= i < |edges| && m < n ==> SegmentOk(u, edges, i, m))
  }

  /** From edge `i` to the next one the flag is the parity of `i`. */
  predicate SegmentOk(u: seq<bool>, edges: seq<int>, i: int, m: int)
    requires 0 <= i < |edges|
  {
    edges[i] <= m && (i + 1 < |edges| ==> m < edges[i + 1]) ==> (Flag(u, m) <==> i % 2 == 0)
  }

  ghost predicate EdgesTo(u: seq<bool>, edges: seq<int>, k: int) {
    Alternates(u, edges, k) && (Flag(u, k - 1) <==> |edges| % 2 == 1)
  }

  lemma EdgeStep(u: seq<bool>, edges: seq<int>, k: nat)
    requires EdgesTo(u, edges, k)
    ensures EdgesTo(u, if Flag(u, k - 1) != Flag(u, k) then edges + [k] else edges, k + 1)
  {
    if Flag(u, k - 1) != Flag(u, k) {
      EdgeAdded(u, edges, k);
    } else {
      NoEdge(u, edges, k);
    }
  }

  lemma EdgeAdded(u: seq<bool>, edges: seq<int>, k: nat)
    requires EdgesTo(u, edges, k) && Flag(u, k - 1) != Flag(u, k)
    ensures EdgesTo(u, edges + [k], k + 1)
  {
    var n, grown := |edges|, edges + [k];
    assert (n + 1) % 2 != n % 2;
    forall i, m | 0 <= i <= n && m < k + 1 ensures SegmentOk(u, grown, i, m) {
      if i < n {
        assert grown[i] == edges[i] && grown[i + 1] == if i + 1 < n then edges[i + 1] else k;
        if m < k { assert SegmentOk(u, edges, i, m); }
      }
    }
  }

  lemma Parity(i: nat)
    ensures (i + 1) % 2 == 1 <==> i % 2 == 0
  {
  }

  lemma NoEdge(u: seq<bool>, edges: seq<int>, k: nat)
    requires EdgesTo(u, edges, k) && Flag(u, k - 1) == Flag(u, k)
    ensures EdgesTo(u, edges, k + 1)
  {
    var n := |edges|;
    forall i, m | 0 <= i < n && m < k + 1 ensures SegmentOk(u, edges, i, m) {
      if m < k {
        assert SegmentOk(u, edges, i, m);
      } else {
        Parity(i);
      }
    }
  }

  /** flatnonzero(diff(padded)): where the padded flags change. */
  method Edges(u: seq<bool>) returns (edges: seq<int>)
    ensures Alternates(u, edges, |u| + 1) && |edges| % 2 == 0
  {
    edges := [];
    for k := 0 to |u| + 1
      invariant EdgesTo(u, edges, k)
    {
      EdgeStep(u, edges, k);
      if Flag(u, k - 1) != Flag(u, k) {
        edges := edges + [k];
      }
    }
  }

  lemma PairIsRun(u: seq<bool>, edges: seq<int>, j: nat)
    requires Alternates(u, edges, |u| + 1) && 2 * j + 1 < |edges|
    ensures IsRun(u, edges[2 * j], edges[2 * j + 1])
  {
    var s, e := edges[2 * j], edges[2 * j + 1];
    assert s < e;
    forall k | s <= k < e ensures 0 <= k < |u| && u[k] {
      assert SegmentOk(u, edges, 2 * j, k);
      assert Flag(u, k);
    }
    assert SegmentOk(u, edges, 2 * j + 1, e);
    assert !Flag(u, e);
    if j > 0 {
      assert SegmentOk(u, edges, 2 * j - 1, s - 1);
    }
    assert !Flag(u, s - 1);
  }

  lemma {:induction false} FindEdge(u: seq<bool>, edges: seq<int>, m: int, n: nat) returns (i: nat)
    requires Alternates(u, edges, |u| + 1) && 0 < n <= |edges| && edges[0] <= m
    requires n < |edges| ==> m < edges[n]
    ensures i < n && edges[i] <= m && (i + 1 < |edges| ==> m < edges[i + 1])
  {
    if edges[n - 1] <= m {
      i := n - 1;
    } else {
      i := FindEdge(u, edges, m, n - 1);
    }
  }

  lemma RunIsPair(u: seq<bool>, edges: seq<int>, s: int, e: int) returns (j: nat)
    requires Alternates(u, edges, |u| + 1) && |edges| % 2 == 0 && IsRun(u, s, e)
    ensures 2 * j + 1 < |edges| && edges[2 * j] == s && edges[2 * j + 1] == e
  {
    assert Flag(u, s) && !Flag(u, s - 1) && !Flag(u, e);
    var i := FindEdge(u, edges, s, |edges|);
    assert SegmentOk(u, edges, i, s);
    assert i % 2 == 0 && i + 1 < |edges|;
    assert SegmentOk(u, edges, i, s - 1) && SegmentOk(u, edges, i, e);
    j := i / 2;
    assert 2 * j == i && (i + 1) % 2 == 1;
    var end := edges[i + 1];
    assert SegmentOk(u, edges, i + 1, end);
    assert !Flag(u, end);
    assert forall k :: s <= k < e ==> Flag(u, k);
    assert end >= e;
  }

  // ---------------------------------------------------------------- max_drawdown

  /** Duration of a run: from the peak just before it to the recovery, or to the last point. */
  function Recovery(n: nat, e: int): int {
    if e < n - 1 then e else n - 1
  }

  function Duration(n: nat, s: int, e: int): int {
    Recovery(n, e) - (s - 1)
  }

  /** A run ends at the first point above water after it, if there is one, and else at the last point; its
      duration counts the periods from the point before it. */
  lemma DurationIs(u: seq<bool>, s: int, e: int)
    requires IsRun(u, s, e)
    ensures Recovery(|u|, e) == if e < |u| then e else |u| - 1
    ensures e < |u| ==> !u[e]
    ensures Duration(|u|, s, e) == Recovery(|u|, e) - s + 1
  {
  }

  /** [s, e) is the run to report: no run is longer and every earlier one is shorter. */
  ghost predicate Longest(u: seq<bool>, s: int, e: int) {
    && IsRun(u, s, e)
    && (forall a, b :: IsRun(u, a, b) ==> Duration(|u|, a, b) <= Duration(|u|, s, e))
    && (forall a, b :: IsRun(u, a, b) && a < s ==> Duration(|u|, a, b) < Duration(|u|, s, e))
  }

  ghost predicate Reported(u: seq<bool>, tsNs: seq<int>, s: int, e: int, periods: int, ns: int)
    requires |tsNs| == |u|
  {
    && Longest(u, s, e) && s > 0
    && periods == Duration(|u|, s, e) > 0 && ns == tsNs[Recovery(|u|, e)] - tsNs[s - 1]
  }

  ghost function Flags(equity: seq<real>): seq<bool> {
    seq(|equity|, i requires 0 <= i < |equity| => Underwater(equity, i))
  }

  method Peaks(equity: seq<real>) returns (peak: seq<real>)
    requires equity != []
    ensures |peak| == |equity| && forall i :: 0 <= i < |equity| ==> peak[i] == Peak(equity, i)
  {
    peak := [equity[0]];
    for i := 1 to |equity|
      invariant |peak| == i && forall k :: 0 <= k < i ==> peak[k] == Peak(equity, k)
    {
      peak := peak + [Max(peak[i - 1], equity[i])];
    }
  }

  method LargestDrop(equity: seq<real>, peak: seq<real>) returns (dd: real)
    requires Curve(equity) && |peak| == |equity|
    requires forall i :: 0 <= i < |equity| ==> peak[i] == Peak(equity, i)
    ensures forall i, j :: 0 <= i <= j < |equity| ==> Drop(equity[i], equity[j]) <= dd
    ensures exists i, j :: 0 <= i <= j < |equity| && Drop(equity[i], equity[j]) == dd
  {
    dd := 0.0;
    assert Drop(equity[0], equity[0]) == 0.0;
    ghost var x, y := 0, 0;
    for k := 0 to |equity|
      invariant forall i, j :: 0 <= i <= j < k ==> Drop(equity[i], equity[j]) <= dd
      invariant 0 <= x <= y < |equity| && Drop(equity[x], equity[y]) == dd
    {
      PeakIsMaximum(equity, k);
      ghost var top :| 0 <= top <= k && equity[top] == peak[k];
      forall i | 0 <= i <= k ensures Drop(equity[i], equity[k]) <= Drop(peak[k], equity[k]) {
        DropGrows(equity[i], peak[k], equity[k]);
      }
      if Drop(peak[k], equity[k]) > dd {
        dd, x, y := Drop(peak[k], equity[k]), top, k;
      }
    }
  }

  /** max_drawdown: the fraction is the largest drop between any two points in order, and the
      duration is that of the longest maximal underwater run (the earliest among equals), measured
      from its peak to its recovery or the last point. */
  method MaxDrawdown(equity: seq<real>, tsNs: seq<int>) returns (dd: real, periods: int, ns: int)
    requires Curve(equity) && |tsNs| == |equity|
    ensures forall i, j :: 0 <= i <= j < |equity| ==> Drop(equity[i], equity[j]) <= dd
    ensures exists i, j :: 0 <= i <= j < |equity| && Drop(equity[i], equity[j]) == dd
    ensures (forall i :: 0 <= i < |equity| ==> !Underwater(equity, i)) ==> periods == 0 && ns == 0
    ensures (exists i :: 0 <= i < |equity| && Underwater(equity, i)) ==>
      exists s, e :: Reported(Flags(equity), tsNs, s, e, periods, ns)
  {
    var peak := Peaks(equity);
    dd := LargestDrop(equity, peak);
    var u := seq(|equity|, i requires 0 <= i < |equity| => equity[i] < peak[i]);
    assert u == Flags(equity);
    assert !u[0];
    assert forall i :: 0 <= i < |equity| ==> u[i] == Underwater(equity, i);
    periods, ns := LongestRun(u, tsNs);
  }

  /** The loop over the runs. */
  method LongestRun(u: seq<bool>, tsNs: seq<int>) returns (periods: int, ns: int)
    requires |tsNs| == |u| > 0 && !u[0]
    ensures true !in u ==> periods == 0 && ns == 0
    ensures true in u ==> exists s, e :: Reported(u, tsNs, s, e, periods, ns)
  {
    var edges := Edges(u);
    periods, ns := 0, 0;
    ghost var best := 0;
    var j := 0;
    while 2 * j + 1 < |edges|
      invariant 0 <= 2 * j <= |edges|
      invariant if j == 0 then periods == 0 && ns == 0 else Best(u, tsNs, edges, j, best, periods, ns)
    {
      PairIsRun(u, edges, j);
      var s, e := edges[2 * j], edges[2 * j + 1];
      var recover := Recovery(|u|, e);
      BestStep(u, tsNs, edges, j, best, periods, ns);
      if recover - (s - 1) > periods {
        periods, ns := recover - (s - 1), tsNs[recover] - tsNs[s - 1];
        best := j;
      }
      j := j + 1;
    }
    if true in u {
      RunExists(u, edges);
      BestIsLongest(u, tsNs, edges, j, best, periods, ns);
    } else {
      NoRun(u, edges);
    }
  }

  /** Pair `best` is the longest among the first `j` pairs, the earliest among equals. */
  ghost predicate Best(u: seq<bool>, tsNs: seq<int>, edges: seq<int>, j: int, best: int, periods: int, ns: int) {
    && |tsNs| == |u| && 0 <= best < j && 2 * j <= |edges|
    && 0 < edges[2 * best] < edges[2 * best + 1] <= |u|
    && periods == Duration(|u|, edges[2 * best], edges[2 * best + 1])
    && ns == tsNs[Recovery(|u|, edges[2 * best + 1])] - tsNs[edges[2 * best] - 1]
    && (forall i :: 0 <= i < j ==> Duration(|u|, edges[2 * i], edges[2 * i + 1]) <= periods)
    && (forall i :: 0 <= i < best ==> Duration(|u|, edges[2 * i], edges[2 * i + 1]) < periods)
  }

  lemma BestStep(u: seq<bool>, tsNs: seq<int>, edges: seq<int>, j: int, best: int, periods: int, ns: int)
    requires |tsNs| == |u| && 0 <= j && 2 * j + 1 < |edges| && |u| > 0 && !u[0]
    requires if j == 0 then periods == 0 && ns == 0 else Best(u, tsNs, edges, j, best, periods, ns)
    requires IsRun(u, edges[2 * j], edges[2 * j + 1])
    ensures 0 < edges[2 * j]
    ensures var (s, e) := (edges[2 * j], edges[2 * j + 1]);
      if Duration(|u|, s, e) > periods
      then Best(u, tsNs, edges, j + 1, j, Duration(|u|, s, e), tsNs[Recovery(|u|, e)] - tsNs[s - 1])
      else Best(u, tsNs, edges, j + 1, best, periods, ns)
  {
    var s := edges[2 * j];
    assert u[s] && s != 0;
  }

  lemma RunExists(u: seq<bool>, edges: seq<int>)
    requires Alternates(u, edges, |u| + 1) && |edges| % 2 == 0 && true in u
    ensures |edges| >= 2
  {
    var k :| 0 <= k < |u| && u[k];
    assert Flag(u, k);
  }

  lemma NoRun(u: seq<bool>, edges: seq<int>)
    requires Alternates(u, edges, |u| + 1) && true !in u
    ensures |edges| < 2
  {
    if |edges| >= 2 {
      PairIsRun(u, edges, 0);
      RunIsTrue(u, edges[0], edges[1]);
    }
  }

  lemma RunIsTrue(u: seq<bool>, s: int, e: int)
    requires IsRun(u, s, e)
    ensures true in u
  {
    assert u[s];
  }

  lemma BestIsLongest(u: seq<bool>, tsNs: seq<int>, edges: seq<int>, j: int, best: int, periods: int, ns: int)
    requires Alternates(u, edges, |u| + 1) && |edges| % 2 == 0 && 2 * j == |edges|
    requires Best(u, tsNs, edges, j, best, periods, ns)
    ensures Reported(u, tsNs, edges[2 * best], edges[2 * best + 1], periods, ns)
  {
    PairIsRun(u, edges, best);
    forall a, b | IsRun(u, a, b)
      ensures Duration(|u|, a, b) <= periods
      ensures a < edges[2 * best] ==> Duration(|u|, a, b) < periods
    {
      var i := RunIsPair(u, edges, a, b);
    }
  }
}
