/** Per-symbol series, the merged timeline, time slices and the as-of regime join
    (backtesting/data.py). */
module MarketData {
  import opened Prelude
  import opened Execution

  const REGIME_UNKNOWN := 0
  const REGIME_MAX := 5

  ghost predicate Increasing(ts: seq<int>) {
    forall i, j :: 0 <= i < j < |ts| ==> ts[i] < ts[j]
  }

  ghost predicate InOrder(bars: seq<Bar>) {
    forall i, j :: 0 <= i < j < |bars| ==> bars[i].timestampNs < bars[j].timestampNs
  }

  /** One symbol's history. The source keeps it column by column. */
  datatype Series = Series(symbol: string, bars: seq<Bar>)
  {
    ghost predicate Valid() {
      && bars != [] && InOrder(bars)
      && (forall i :: 0 <= i < |bars| ==> bars[i].symbol == symbol && BarOk(bars[i]))
    }
  }

  predicate BarOk(b: Bar) {
    && b.open > 0.0 && b.high > 0.0 && b.low > 0.0 && b.close > 0.0 && b.volume >= 0.0
    && b.high >= Max(b.open, b.close) && b.low <= Min(b.open, b.close)
    && IsRegime(b.regime)
  }

  /** Positive prices with open and close between low and high, a volume, and one of the six regimes. */
  predicate IsBar(b: Bar) {
    && 0.0 < b.low <= b.open <= b.high && b.low <= b.close <= b.high
    && b.volume >= 0.0 && 0 <= b.regime <= 5
  }

  /** SymbolSeries.create with its validation. */
  method CreateSeries(symbol: string, bars: seq<Bar>) returns (r: Result<Series, string>)
    requires forall i :: 0 <= i < |bars| ==> bars[i].symbol == symbol
    ensures r.Ok? <==> bars != [] && InOrder(bars) && forall i :: 0 <= i < |bars| ==> IsBar(bars[i])
    ensures r.Ok? <==> Series(symbol, bars).Valid()
    ensures r.Ok? ==> r.value == Series(symbol, bars)
  {
    if bars == [] {
      return Err("empty series");
    }
    for i := 0 to |bars|
      invariant forall k :: 0 <= k < i ==> BarOk(bars[k])
      invariant forall j, k :: 0 <= j < k < i ==> bars[j].timestampNs < bars[k].timestampNs
    {
      if !BarOk(bars[i]) {
        return Err("invalid bar");
      }
      if i > 0 && bars[i].timestampNs <= bars[i - 1].timestampNs {
        return Err("timestamps must be strictly increasing");
      }
    }
    return Ok(Series(symbol, bars));
  }

  /** searchsorted(side="right"): how many bars are stamped at or before `t`. */
  function UpTo(bars: seq<Bar>, t: int): (n: nat)
    ensures n <= |bars|
  {
    if bars == [] || bars[|bars| - 1].timestampNs <= t then |bars| else UpTo(bars[..|bars| - 1], t)
  }

  /** UpTo splits an ordered series exactly at `t`. */
  lemma {:induction false} UpToSplits(bars: seq<Bar>, t: int)
    requires InOrder(bars)
    ensures forall i :: 0 <= i < UpTo(bars, t) ==> bars[i].timestampNs <= t
    ensures forall i :: UpTo(bars, t) <= i < |bars| ==> t < bars[i].timestampNs
  {
    if bars != [] && t < bars[|bars| - 1].timestampNs {
      UpToSplits(bars[..|bars| - 1], t);
    }
  }

  lemma UpToIs(bars: seq<Bar>, t: int, n: nat)
    requires InOrder(bars) && n <= |bars|
    requires n > 0 ==> bars[n - 1].timestampNs <= t
    requires n < |bars| ==> t < bars[n].timestampNs
    ensures UpTo(bars, t) == n
  {
    UpToSplits(bars, t);
  }

  lemma UpToMonotone(bars: seq<Bar>, t: int, u: int)
    requires InOrder(bars) && t <= u
    ensures UpTo(bars, t) <= UpTo(bars, u)
  {
    UpToSplits(bars, t);
    UpToSplits(bars, u);
  }

  /** Bar `i` is the newest one stamped at or before `t`. */
  predicate Newest(bars: seq<Bar>, t: int, i: nat) {
    i < |bars| && bars[i].timestampNs <= t && (i + 1 < |bars| ==> t < bars[i + 1].timestampNs)
  }

  lemma NewestIsLastOf(bars: seq<Bar>, t: int, i: nat)
    requires InOrder(bars)
    ensures Newest(bars, t, i) <==> UpTo(bars, t) == i + 1
  {
    UpToSplits(bars, t);
    if Newest(bars, t, i) {
      UpToIs(bars, t, i + 1);
    }
  }

  function Visible(bars: seq<Bar>, t: int): seq<Bar> {
    bars[..UpTo(bars, t)]
  }

  /** slice_time: the bars with start <= ts <= end. */
  function SliceBars(bars: seq<Bar>, startNs: int, endNs: int): seq<Bar> {
    var lo, hi := UpTo(bars, startNs - 1), UpTo(bars, endNs);
    if hi <= lo then [] else bars[lo..hi]
  }

  lemma SliceIsExact(bars: seq<Bar>, startNs: int, endNs: int)
    requires InOrder(bars)
    ensures InOrder(SliceBars(bars, startNs, endNs))
    ensures forall b :: b in SliceBars(bars, startNs, endNs) <==> b in bars && startNs <= b.timestampNs <= endNs
  {
    UpToSplits(bars, startNs - 1);
    UpToSplits(bars, endNs);
    var lo, hi := UpTo(bars, startNs - 1), UpTo(bars, endNs);
    forall b | b in bars && startNs <= b.timestampNs <= endNs
      ensures b in SliceBars(bars, startNs, endNs)
    {
      var i :| 0 <= i < |bars| && bars[i] == b;
      assert lo <= i < hi;
      assert bars[lo..hi][i - lo] == b;
    }
  }

  // ---------------------------------------------------------------- the market

  datatype Market = Market(series: map<string, Series>, timeline: seq<int>)
  {
    ghost predicate Valid() {
      && series != map[]
      && (forall s :: s in series ==> series[s].Valid() && series[s].symbol == s)
      && IsTimeline(series, timeline)
    }
  }

  /** Every stamp of every series, once, in order. */
  ghost predicate IsTimeline(series: map<string, Series>, timeline: seq<int>) {
    Increasing(timeline) && forall t :: t in timeline <==> Stamped(series, t)
  }

  /** Some bar of some series is stamped `t`. */
  ghost predicate Stamped(series: map<string, Series>, t: int) {
    exists s, i :: s in series && 0 <= i < |series[s].bars| && series[s].bars[i].timestampNs == t
  }

  /** np.unique over a growing list: insert one stamp, keep the list sorted and free of repeats. */
  method InsertStamp(ts: seq<int>, t: int) returns (r: seq<int>)
    requires Increasing(ts)
    ensures Increasing(r) && forall x :: x in r <==> x in ts || x == t
  {
    var i := 0;
    while i < |ts| && ts[i] < t
      invariant 0 <= i <= |ts| && forall k :: 0 <= k < i ==> ts[k] < t
    {
      i := i + 1;
    }
    if i < |ts| && ts[i] == t {
      return ts;
    }
    r := ts[..i] + [t] + ts[i..];
    assert forall x :: x in ts ==> x in ts[..i] || x in ts[i..];
  }

  method MergeStamps(ts: seq<int>, bars: seq<Bar>) returns (r: seq<int>)
    requires Increasing(ts)
    ensures Increasing(r)
    ensures forall x :: x in r <==> x in ts || exists i :: 0 <= i < |bars| && bars[i].timestampNs == x
  {
    r := ts;
    for k := 0 to |bars|
      invariant Increasing(r)
      invariant forall x :: x in r <==> x in ts || exists i :: 0 <= i < k && bars[i].timestampNs == x
    {
      r := InsertStamp(r, bars[k].timestampNs);
    }
  }

  ghost predicate Distinct(parts: seq<Series>) {
    forall i, j :: 0 <= i < j < |parts| ==> parts[i].symbol != parts[j].symbol
  }

  /** MarketData.__init__: refuses duplicates and an empty set, merges the timeline. */
  method CreateMarket(parts: seq<Series>) returns (r: Result<Market, string>)
    requires forall i :: 0 <= i < |parts| ==> parts[i].Valid()
    ensures r.Ok? <==> parts != [] && Distinct(parts)
    ensures r.Ok? ==> r.value.Valid() && Collected(parts, |parts|, r.value.series)
  {
    var series: map<string, Series> := map[];
    var timeline: seq<int> := [];
    assert IsTimeline(series, timeline);
    for k := 0 to |parts|
      invariant Collected(parts, k, series)
      invariant IsTimeline(series, timeline)
    {
      var p := parts[k];
      if p.symbol in series {
        return Err("duplicate symbol");
      }
      timeline := GrowTimeline(series, timeline, p);
      CollectOne(parts, k, series);
      series := series[p.symbol := p];
    }
    if parts == [] {
      return Err("market data has no symbols");
    }
    CollectedIsMarket(parts, series, timeline);
    return Ok(Market(series, timeline));
  }

  lemma CollectedIsMarket(parts: seq<Series>, series: map<string, Series>, timeline: seq<int>)
    requires parts != [] && Collected(parts, |parts|, series)
    requires forall i :: 0 <= i < |parts| ==> parts[i].Valid()
    requires IsTimeline(series, timeline)
    ensures Market(series, timeline).Valid()
  {
    assert parts[0].symbol in series;
  }

  /** `series` holds exactly the first `k` parts, all with different symbols. */
  ghost predicate Collected(parts: seq<Series>, k: nat, series: map<string, Series>)
    requires k <= |parts|
  {
    && (forall i, j :: 0 <= i < j < k ==> parts[i].symbol != parts[j].symbol)
    && (forall i :: 0 <= i < k ==> parts[i].symbol in series && series[parts[i].symbol] == parts[i])
    && (forall s :: s in series ==> exists i :: 0 <= i < k && parts[i] == series[s] && parts[i].symbol == s)
  }

  lemma CollectOne(parts: seq<Series>, k: nat, series: map<string, Series>)
    requires k < |parts| && Collected(parts, k, series) && parts[k].symbol !in series
    ensures Collected(parts, k + 1, series[parts[k].symbol := parts[k]])
  {
  }

  method GrowTimeline(series: map<string, Series>, timeline: seq<int>, p: Series) returns (merged: seq<int>)
    requires p.symbol !in series && IsTimeline(series, timeline)
    ensures IsTimeline(series[p.symbol := p], merged)
  {
    merged := MergeStamps(timeline, p.bars);
    forall t ensures t in merged <==> Stamped(series[p.symbol := p], t) {
      StampedGrows(series, p, t);
    }
  }

  lemma StampedGrows(series: map<string, Series>, p: Series, t: int)
    requires p.symbol !in series
    ensures Stamped(series[p.symbol := p], t)
        <==> Stamped(series, t) || exists i :: 0 <= i < |p.bars| && p.bars[i].timestampNs == t
  {
    var grown := series[p.symbol := p];
    if Stamped(series, t) {
      var s, i :| s in series && 0 <= i < |series[s].bars| && series[s].bars[i].timestampNs == t;
      assert s in grown && grown[s].bars[i].timestampNs == t;
    }
    if i :| 0 <= i < |p.bars| && p.bars[i].timestampNs == t {
      assert p.symbol in grown && grown[p.symbol].bars[i].timestampNs == t;
    }
  }

  /** With the first k - 1 members in common, the next one of `a` is found at the same place in `b`. */
  lemma NoneBetween(a: seq<int>, b: seq<int>, t: int, k: nat, j: nat)
    requires Increasing(a) && Increasing(b) && 0 < k <= |a| && a[k - 1] <= t
    requires forall x :: x <= t ==> (x in a <==> x in b)
    requires k - 1 <= |b| && forall m :: 0 <= m < k - 1 ==> a[m] == b[m]
    requires j < |b| && b[j] == a[k - 1]
    ensures j == k - 1
  {
    forall m | 0 <= m < |b| && b[m] < a[k - 1] ensures m < k - 1 {
      assert b[m] in b && b[m] in a;
      var i :| 0 <= i < |a| && a[i] == b[m];
      assert i < k - 1 && b[i] == b[m];
    }
    assert j >= k - 1;
    assert b[k - 1] >= a[k - 1];
  }

  /** Two increasing lists with the same members up to `t` start with the same members. */
  lemma {:induction false} SamePrefix(a: seq<int>, b: seq<int>, t: int, k: nat)
    requires Increasing(a) && Increasing(b)
    requires forall x :: x <= t ==> (x in a <==> x in b)
    requires k <= |a| && (k > 0 ==> a[k - 1] <= t)
    ensures k <= |b| && a[..k] == b[..k]
  {
    if k > 0 {
      SamePrefix(a, b, t, k - 1);
      assert forall m :: 0 <= m < k - 1 ==> a[m] == a[..k - 1][m] == b[..k - 1][m] == b[m];
      assert a[k - 1] in b;
      var j :| 0 <= j < |b| && b[j] == a[k - 1];
      NoneBetween(a, b, t, k, j);
      assert a[..k] == a[..k - 1] + [a[k - 1]];
      assert b[..k] == b[..k - 1] + [b[k - 1]];
    }
  }

  /** The two markets list the same symbols and hold the same bars up to `t`. */
  ghost predicate AgreeUpTo(a: Market, b: Market, t: int) {
    && a.series.Keys == b.series.Keys
    && forall s :: s in a.series ==> Visible(a.series[s].bars, t) == Visible(b.series[s].bars, t)
  }

  lemma VisibleEarlier(a: seq<Bar>, b: seq<Bar>, t: int, u: int)
    requires InOrder(a) && InOrder(b) && Visible(a, t) == Visible(b, t) && u <= t
    ensures UpTo(a, u) == UpTo(b, u) <= UpTo(a, t)
    ensures Visible(a, u) == Visible(b, u)
  {
    UpToSplits(a, t);
    UpToSplits(b, t);
    UpToSplits(a, u);
    UpToSplits(b, u);
    var n := UpTo(a, u);
    assert |Visible(a, t)| == UpTo(a, t) == UpTo(b, t);
    assert n <= UpTo(a, t);
    assert forall i :: 0 <= i < UpTo(a, t) ==> a[i] == Visible(a, t)[i] == b[i];
    UpToIs(b, u, n);
  }

  lemma AgreeEarlier(a: Market, b: Market, t: int, u: int)
    requires a.Valid() && b.Valid() && AgreeUpTo(a, b, t) && u <= t
    ensures AgreeUpTo(a, b, u)
  {
    forall s | s in a.series ensures Visible(a.series[s].bars, u) == Visible(b.series[s].bars, u) {
      VisibleEarlier(a.series[s].bars, b.series[s].bars, t, u);
    }
  }

  /** Markets that agree up to `t` have the same timeline up to `t`. */
  lemma AgreeTimeline(a: Market, b: Market, t: int, k: nat)
    requires a.Valid() && b.Valid() && AgreeUpTo(a, b, t)
    requires k <= |a.timeline| && (k > 0 ==> a.timeline[k - 1] <= t)
    ensures k <= |b.timeline| && a.timeline[..k] == b.timeline[..k]
  {
    forall x | x <= t ensures x in a.timeline <==> x in b.timeline {
      StampedAgrees(a, b, t, x);
      StampedAgrees(b, a, t, x);
    }
    SamePrefix(a.timeline, b.timeline, t, k);
  }

  lemma StampedAgrees(a: Market, b: Market, t: int, x: int)
    requires a.Valid() && b.Valid() && AgreeUpTo(a, b, t) && x <= t
    ensures Stamped(a.series, x) ==> Stamped(b.series, x)
  {
    if s, i :| s in a.series && 0 <= i < |a.series[s].bars| && a.series[s].bars[i].timestampNs == x {
      UpToSplits(a.series[s].bars, t);
      assert a.series[s].bars[i] == Visible(a.series[s].bars, t)[i] == b.series[s].bars[i];
      assert s in b.series && b.series[s].bars[i].timestampNs == x;
    }
  }

  /** The training slice of two markets that agree up to its end is the same, series by series. */
  lemma AgreeSlices(a: Market, b: Market, startNs: int, endNs: int, s: string)
    requires a.Valid() && b.Valid() && AgreeUpTo(a, b, endNs) && s in a.series
    ensures SliceBars(a.series[s].bars, startNs, endNs) == SliceBars(b.series[s].bars, startNs, endNs)
  {
    SameSlice(a.series[s].bars, b.series[s].bars, startNs, endNs);
  }

  lemma SameSlice(x: seq<Bar>, y: seq<Bar>, startNs: int, endNs: int)
    requires InOrder(x) && InOrder(y) && Visible(x, endNs) == Visible(y, endNs)
    ensures SliceBars(x, startNs, endNs) == SliceBars(y, startNs, endNs)
  {
    VisibleEarlier(x, y, endNs, endNs);
    if startNs - 1 <= endNs {
      VisibleEarlier(x, y, endNs, startNs - 1);
      var lo, hi := UpTo(x, startNs - 1), UpTo(x, endNs);
      assert x[lo..hi] == Visible(x, endNs)[lo..] == Visible(y, endNs)[lo..] == y[lo..hi];
    } else {
      UpToMonotone(x, endNs, startNs - 1);
      UpToMonotone(y, endNs, startNs - 1);
    }
  }

  // ---------------------------------------------------------------- as-of regime join

  /** Position `i` sorts before `j`: by stamp, then by original position (a stable argsort). */
  predicate Before(stamps: seq<int>, i: nat, j: nat)
    requires i < |stamps| && j < |stamps|
  {
    stamps[i] < stamps[j] || (stamps[i] == stamps[j] && i < j)
  }

  ghost predicate IsStableOrder(stamps: seq<int>, order: seq<nat>, n: nat)
    requires n <= |stamps|
  {
    && (forall k :: 0 <= k < |order| ==> order[k] < n)
    && (forall i :: 0 <= i < n ==> i in order)
    && (forall j, k :: 0 <= j < k < |order| ==> Before(stamps, order[j], order[k]))
  }

  method StableArgsort(stamps: seq<int>) returns (order: seq<nat>)
    ensures IsStableOrder(stamps, order, |stamps|)
  {
    order := [];
    for n := 0 to |stamps|
      invariant IsStableOrder(stamps, order, n)
    {
      var k := |order|;
      while k > 0 && stamps[order[k - 1]] > stamps[n]
        invariant 0 <= k <= |order|
        invariant forall j :: k <= j < |order| ==> stamps[order[j]] > stamps[n]
      {
        k := k - 1;
      }
      var grown := order[..k] + [n] + order[k..];
      assert forall i :: i in order ==> i in order[..k] || i in order[k..];
      order := grown;
    }
  }

  /** `i` is the label in force at `t`: the latest one stamped at or before `t`, the last listed
      among equals. */
  ghost predicate InForce(stamps: seq<int>, t: int, i: nat) {
    && i < |stamps| && stamps[i] <= t
    && forall j :: 0 <= j < |stamps| && stamps[j] <= t ==> j == i || Before(stamps, j, i)
  }

  ghost predicate Unlabelled(stamps: seq<int>, t: int) {
    forall i :: 0 <= i < |stamps| ==> t < stamps[i]
  }

  /** with_regimes for one bar time: the label found through the sorted order is the label in
      force, and there is none exactly when no label is stamped at or before the bar. */
  method AsOf(stamps: seq<int>, labels: seq<int>, order: seq<nat>, t: int) returns (regime: int, ghost at: int)
    requires |stamps| == |labels| && IsStableOrder(stamps, order, |stamps|)
    ensures -1 <= at
    ensures at >= 0 ==> InForce(stamps, t, at) && regime == labels[at]
    ensures at == -1 ==> Unlabelled(stamps, t) && regime == 0
    ensures if Unlabelled(stamps, t) then regime == 0
            else exists i: nat :: InForce(stamps, t, i) && regime == labels[i]
  {
    var pos := 0;
    while pos < |order| && stamps[order[pos]] <= t
      invariant 0 <= pos <= |order|
      invariant forall k :: 0 <= k < pos ==> stamps[order[k]] <= t
    {
      pos := pos + 1;
    }
    assert forall k :: pos <= k < |order| ==> t < stamps[order[k]] by {
      if pos < |order| {
        assert forall k :: pos < k < |order| ==> Before(stamps, order[pos], order[k]);
      }
    }
    forall i | 0 <= i < |stamps| && stamps[i] <= t
      ensures exists k :: 0 <= k < pos && order[k] == i
    {
      assert i in order;
      var k :| 0 <= k < |order| && order[k] == i;
    }
    if pos == 0 {
      return REGIME_UNKNOWN, -1;
    }
    at := order[pos - 1];
    return labels[order[pos - 1]], at;
  }

  /** Same bars, each with the label in force at its own time. */
  ghost predicate Joined(bars: seq<Bar>, stamps: seq<int>, labels: seq<int>, out: seq<Bar>, n: nat)
    requires |stamps| == |labels| && n <= |bars|
  {
    && |out| == n
    && (forall k :: 0 <= k < n ==> out[k] == bars[k].(regime := out[k].regime))
    && (forall k, i: nat :: 0 <= k < n && InForce(stamps, bars[k].timestampNs, i) ==> out[k].regime == labels[i])
    && (forall k :: 0 <= k < n && Unlabelled(stamps, bars[k].timestampNs) ==> out[k].regime == 0)
  }

  /** A label number that parse_regime accepts. */
  predicate IsRegime(number: int) {
    REGIME_UNKNOWN <= number <= REGIME_MAX
  }

  /** with_regimes, for labels given as numbers. */
  method WithRegimes(bars: seq<Bar>, stamps: seq<int>, labels: seq<int>) returns (r: Result<seq<Bar>, string>)
    ensures r.Ok? <==> |stamps| == |labels| && labels != [] && forall i :: 0 <= i < |labels| ==> 0 <= labels[i] <= 5
    ensures r.Ok? ==> Joined(bars, stamps, labels, r.value, |bars|)
  {
    if |stamps| != |labels| {
      return Err("regime timestamps and labels differ in length");
    }
    if labels == [] {
      return Err("empty regime series");
    }
    var order := StableArgsort(stamps);
    for k := 0 to |order|
      invariant forall j :: 0 <= j < k ==> IsRegime(labels[order[j]])
    {
      if !IsRegime(labels[order[k]]) {
        return Err("invalid regime number");
      }
    }
    forall i | 0 <= i < |labels| ensures IsRegime(labels[i]) {
      assert i in order;
    }
    var out := [];
    for k := 0 to |bars|
      invariant Joined(bars, stamps, labels, out, k)
    {
      var regime, at := AsOf(stamps, labels, order, bars[k].timestampNs);
      out := out + [bars[k].(regime := regime)];
    }
    return Ok(out);
  }

  /** No look-ahead through the join: labels stamped after a bar never reach it. */
  lemma JoinIgnoresLaterLabels(
    bars: seq<Bar>, stamps: seq<int>, labels: seq<int>, more: seq<int>, moreLabels: seq<int>,
    a: seq<Bar>, b: seq<Bar>, k: nat)
    requires |stamps| == |labels| && |more| == |moreLabels| && k < |bars|
    requires Joined(bars, stamps, labels, a, |bars|)
    requires Joined(bars, stamps + more, labels + moreLabels, b, |bars|)
    requires forall i :: 0 <= i < |more| ==> bars[k].timestampNs < more[i]
    ensures a[k] == b[k]
  {
    var t, all := bars[k].timestampNs, stamps + more;
    if Unlabelled(stamps, t) {
      assert Unlabelled(all, t);
    } else {
      var i := LatestLabel(stamps, t);
      assert InForce(all, t, i);
      assert (labels + moreLabels)[i] == labels[i];
    }
  }

  lemma {:induction false} LatestLabel(stamps: seq<int>, t: int) returns (i: nat)
    requires !Unlabelled(stamps, t)
    ensures InForce(stamps, t, i)
  {
    var n := |stamps| - 1;
    if Unlabelled(stamps[..n], t) {
      i := n;
      assert forall j :: 0 <= j < n ==> stamps[j] == stamps[..n][j];
    } else {
      i := LatestLabel(stamps[..n], t);
      assert forall j :: 0 <= j < n ==> stamps[j] == stamps[..n][j];
      if stamps[n] <= t && stamps[i] <= stamps[n] {
        i := n;
      }
    }
  }
}
