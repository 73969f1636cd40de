/** The point-in-time feed (backtesting/feed.py): a strategy sees a history only through
    accessors that stop at a cursor. */
module Feed {
  import opened Prelude
  import opened Execution
  import opened MarketData

  datatype AccessError = Lookahead | ValueError | UnknownSymbol

  type Access<+T> = Result<T, AccessError>

  /** Read-only view of one symbol's bars up to the cursor `end`. The whole series is inside. */
  datatype SymbolHistory = SymbolHistory(series: Series, end: nat, nowNs: int)
  {
    ghost predicate Valid() {
      && series.Valid() && end == UpTo(series.bars, nowNs)
    }

    function Len(): nat { end }

    function Bar(i: nat): Bar
      requires i < |series.bars|
    {
      series.bars[i]
    }

    function GetItem(index: int): Access<Bar>
      requires end <= |series.bars|
    {
      if index >= end || index < -(end as int) then Err(Lookahead)
      else Ok(Bar(if index >= 0 then index else end + index))
    }

    /** Where one bound of a slice lands once a negative or oversized value is adjusted. */
    function Bound(value: Option<int>, missing: int, lower: int, upper: int): int {
      match value
      case None => missing
      case Some(v) =>
        if v < 0 then (if v + end < lower then lower else v + end)
        else if v > upper then upper else v
    }

    function Slice(start: Option<int>, stop: Option<int>, step: Option<int>): Access<seq<Bar>>
      requires end <= |series.bars|
    {
      if stop.Some? && stop.value > end then Err(Lookahead)
      else
        var stride := if step.Some? then step.value else 1;
        if stride == 0 then Err(ValueError)
        else if stride > 0 then
          var (lo, hi) := (Bound(start, 0, 0, end), Bound(stop, end, 0, end));
          Ok(Walk(lo, hi, stride))
        else
          var (hi, lo) := (Bound(start, end - 1, -1, end - 1), Bound(stop, -1, -1, end - 1));
          Ok(Walk(hi, lo, stride))
    }

    /** The bars at range(from, to, stride). */
    function Walk(from: int, to: int, stride: int): seq<Bar>
      requires end <= |series.bars| && stride != 0
      requires stride > 0 ==> 0 <= from && to <= end
      requires stride < 0 ==> from < end && -1 <= to
      decreases if stride > 0 then to - from else from - to
    {
      if (stride > 0 && from < to) || (stride < 0 && from > to) then
        [Bar(from)] + Walk(from + stride, to, stride)
      else
        []
    }

    function Latest(): Option<Bar>
      requires end <= |series.bars|
    {
      if end == 0 then None else Some(Bar(end - 1))
    }

    function At(timestampNs: int): Access<Option<Bar>>
      requires end <= |series.bars|
    {
      if timestampNs > nowNs then Err(Lookahead)
      else
        var idx := UpTo(series.bars[..end], timestampNs - 1);
        if idx < end && Bar(idx).timestampNs == timestampNs then Ok(Some(Bar(idx))) else Ok(None)
    }

    /** closes, opens, highs, lows and volumes are the columns of these rows. */
    function Tail(n: Option<int>): Access<seq<Bar>>
      requires end <= |series.bars|
    {
      if n.Some? && n.value < 0 then Err(ValueError)
      else
        var start := if n.None? || end - n.value < 0 then 0 else end - n.value;
        Ok(series.bars[start..end])
    }

    /** timestamps does not refuse a negative count: it answers with nothing. */
    function Timestamps(n: Option<int>): seq<int>
      requires end <= |series.bars|
    {
      var start := if n.None? || end - n.value < 0 then 0 else end - n.value;
      if start > end then [] else Stamps(series.bars[start..end])
    }
  }

  function Stamps(bars: seq<Bar>): seq<int> {
    seq(|bars|, i requires 0 <= i < |bars| => bars[i].timestampNs)
  }

  function Closes(bars: seq<Bar>): seq<real> {
    seq(|bars|, i requires 0 <= i < |bars| => bars[i].close)
  }

  datatype MarketView = MarketView(nowNs: int, histories: map<string, SymbolHistory>)
  {
    ghost predicate Valid() {
      forall s :: s in histories ==>
        histories[s].Valid() && histories[s].nowNs == nowNs && histories[s].series.symbol == s
    }

    function History(symbol: string): Access<SymbolHistory> {
      if symbol in histories then Ok(histories[symbol]) else Err(UnknownSymbol)
    }
  }

  datatype FeedEvent = FeedEvent(tsNs: int, newBars: map<string, Bar>, view: MarketView)

  // ---------------------------------------------------------------- what the accessors reveal

  /** Every question the accessors can be asked has the same answer. */
  ghost predicate SameAnswers(a: SymbolHistory, b: SymbolHistory)
    requires a.Valid() && b.Valid()
  {
    && a.series.symbol == b.series.symbol && a.nowNs == b.nowNs
    && a.Len() == b.Len()
    && (forall i :: a.GetItem(i) == b.GetItem(i))
    && (forall x, y, z :: a.Slice(x, y, z) == b.Slice(x, y, z))
    && a.Latest() == b.Latest()
    && (forall t :: a.At(t) == b.At(t))
    && (forall n :: a.Tail(n) == b.Tail(n))
    && (forall n :: a.Timestamps(n) == b.Timestamps(n))
  }

  ghost predicate SameVisible(a: SymbolHistory, b: SymbolHistory) {
    && a.series.symbol == b.series.symbol && a.nowNs == b.nowNs
    && Visible(a.series.bars, a.nowNs) == Visible(b.series.bars, b.nowNs)
  }

  /** The accessors reveal exactly the bars stamped at or before now: two histories answer every
      question alike if and only if those bars are the same. */
  lemma AccessorsRevealThePast(a: SymbolHistory, b: SymbolHistory)
    requires a.Valid() && b.Valid()
    ensures SameAnswers(a, b) <==> SameVisible(a, b)
  {
    if SameAnswers(a, b) {
      forall i | 0 <= i < a.end ensures a.series.bars[i] == b.series.bars[i] {
        assert a.GetItem(i) == b.GetItem(i);
      }
      assert Visible(a.series.bars, a.nowNs) == Visible(b.series.bars, b.nowNs);
    }
    if SameVisible(a, b) {
      SameVisibleSameAnswers(a, b);
    }
  }

  lemma SameVisibleSameAnswers(a: SymbolHistory, b: SymbolHistory)
    requires a.Valid() && b.Valid() && SameVisible(a, b)
    ensures SameAnswers(a, b)
  {
    var end := a.end;
    assert a.series.bars[..end] == b.series.bars[..end];
    assert forall i :: 0 <= i < end ==> a.Bar(i) == a.series.bars[..end][i] == b.series.bars[..end][i] == b.Bar(i);
    forall x, y, z ensures a.Slice(x, y, z) == b.Slice(x, y, z) {
      SliceSame(a, b, x, y, z);
    }
    forall n ensures a.Tail(n) == b.Tail(n) && a.Timestamps(n) == b.Timestamps(n) {
      TailSame(a, b, n);
    }
  }

  lemma TailSame(a: SymbolHistory, b: SymbolHistory, n: Option<int>)
    requires a.Valid() && b.Valid() && a.end == b.end && a.series.bars[..a.end] == b.series.bars[..b.end]
    ensures a.Tail(n) == b.Tail(n) && a.Timestamps(n) == b.Timestamps(n)
  {
    var end := a.end;
    var start: int := if n.None? || a.end - n.value < 0 then 0 else a.end - n.value;
    if start <= end {
      assert a.series.bars[start..end] == a.series.bars[..end][start..];
      assert b.series.bars[start..end] == b.series.bars[..end][start..];
    }
  }

  lemma {:induction false} SliceSame(a: SymbolHistory, b: SymbolHistory, x: Option<int>, y: Option<int>, z: Option<int>)
    requires a.Valid() && b.Valid() && a.end == b.end
    requires forall i :: 0 <= i < a.end ==> a.Bar(i) == b.Bar(i)
    ensures a.Slice(x, y, z) == b.Slice(x, y, z)
  {
    if !(y.Some? && y.value > a.end) {
      var stride := if z.Some? then z.value else 1;
      if stride > 0 {
        SliceForward(a, x, y, z);
        SliceForward(b, x, y, z);
        ForwardSame(a, b, x, y, stride);
      } else if stride < 0 {
        SliceBackward(a, x, y, z);
        SliceBackward(b, x, y, z);
        BackwardSame(a, b, x, y, stride);
      }
    }
  }

  lemma {:induction false} SliceForward(h: SymbolHistory, x: Option<int>, y: Option<int>, z: Option<int>)
    requires h.end <= |h.series.bars| && !(y.Some? && y.value > h.end) && (z.Some? ==> z.value > 0)
    ensures h.Slice(x, y, z)
         == Ok(h.Walk(h.Bound(x, 0, 0, h.end), h.Bound(y, h.end, 0, h.end), if z.Some? then z.value else 1))
  {
  }

  lemma {:induction false} SliceBackward(h: SymbolHistory, x: Option<int>, y: Option<int>, z: Option<int>)
    requires h.end <= |h.series.bars| && !(y.Some? && y.value > h.end) && z.Some? && z.value < 0
    ensures h.Slice(x, y, z)
         == Ok(h.Walk(h.Bound(x, h.end - 1, -1, h.end - 1), h.Bound(y, -1, -1, h.end - 1), z.value))
  {
  }

  /** A bound of a slice: counted from the end when negative, then kept within the limits. */
  function Clip(value: Option<int>, missing: int, least: int, most: int, end: nat): int {
    if value.None? then missing
    else
      var at := if value.value < 0 then end + value.value else value.value;
      if at < least then least else if at > most then most else at
  }

  /** The bars a slice yields: none stamped later than now is asked for, and every stride-th one from its first
      bound up to, or down to, its second. */
  lemma SliceIs(h: SymbolHistory, x: Option<int>, y: Option<int>, z: Option<int>)
    requires h.end <= |h.series.bars|
    ensures var stride := if z.Some? then z.value else 1;
      && (h.Slice(x, y, z) == Err(Lookahead) <==> y.Some? && y.value > h.end)
      && (h.Slice(x, y, z) == Err(ValueError) <==> stride == 0 && !(y.Some? && y.value > h.end))
      && (h.Slice(x, y, z).Ok? && stride > 0 ==>
            Every(h, Clip(x, 0, 0, h.end, h.end), Clip(y, h.end, 0, h.end, h.end), stride, h.Slice(x, y, z).value))
      && (h.Slice(x, y, z).Ok? && stride < 0 ==>
            Every(h, Clip(x, h.end - 1, -1, h.end - 1, h.end), Clip(y, -1, -1, h.end - 1, h.end), stride,
                  h.Slice(x, y, z).value))
  {
    var stride := if z.Some? then z.value else 1;
    if !(y.Some? && y.value > h.end) {
      if stride > 0 {
        SliceForward(h, x, y, z);
        BoundIsClip(h, x, 0, 0, h.end);
        BoundIsClip(h, y, h.end, 0, h.end);
        WalkIsEvery(h, h.Bound(x, 0, 0, h.end), h.Bound(y, h.end, 0, h.end), stride);
      } else if stride < 0 {
        SliceBackward(h, x, y, z);
        BoundIsClip(h, x, h.end - 1, -1, h.end - 1);
        BoundIsClip(h, y, -1, -1, h.end - 1);
        WalkIsEvery(h, h.Bound(x, h.end - 1, -1, h.end - 1), h.Bound(y, -1, -1, h.end - 1), stride);
      }
    }
  }

  lemma BoundIsClip(h: SymbolHistory, value: Option<int>, missing: int, least: int, most: int)
    requires least <= 0 && h.end - 1 <= most
    ensures h.Bound(value, missing, least, most) == Clip(value, missing, least, most, h.end)
  {
  }

  /** `bars` are those at first, first + stride, and so on, as long as `last` is not reached. */
  ghost predicate Every(h: SymbolHistory, first: int, last: int, stride: int, bars: seq<Bar>) {
    AllAt(h, first, stride, bars) && Reaches(first, last, stride, |bars|)
  }

  ghost predicate AllAt(h: SymbolHistory, first: int, stride: int, bars: seq<Bar>) {
    forall k :: 0 <= k < |bars| ==> IsAt(h, Nth(first, stride, k), bars[k])
  }

  /** `n` strides get to `last` and one fewer does not. */
  predicate Reaches(first: int, last: int, stride: int, n: nat) {
    (n > 0 ==> Short(Nth(first, stride, n - 1), last, stride)) && !Short(Nth(first, stride, n), last, stride)
  }

  /** `first` moved on `k` times. */
  function Nth(first: int, stride: int, k: nat): int {
    if k == 0 then first else Nth(first, stride, k - 1) + stride
  }

  lemma {:induction false} NthNext(first: int, stride: int, k: nat)
    ensures Nth(first + stride, stride, k) == Nth(first, stride, k + 1)
  {
    if k > 0 {
      NthNext(first, stride, k - 1);
    }
  }

  predicate IsAt(h: SymbolHistory, i: int, b: Bar) {
    0 <= i < h.end <= |h.series.bars| && b == h.series.bars[i]
  }

  predicate Short(at: int, last: int, stride: int) {
    if stride > 0 then at < last else at > last
  }

  lemma {:induction false} WalkIsEvery(h: SymbolHistory, from: int, to: int, stride: int)
    requires h.end <= |h.series.bars| && stride != 0
    requires stride > 0 ==> 0 <= from && to <= h.end
    requires stride < 0 ==> from < h.end && -1 <= to
    ensures Every(h, from, to, stride, h.Walk(from, to, stride))
    decreases if stride > 0 then to - from else from - to
  {
    if Short(from, to, stride) {
      var rest := h.Walk(from + stride, to, stride);
      WalkIsEvery(h, from + stride, to, stride);
      EveryOneMore(h, from, to, stride, rest);
    }
  }

  lemma EveryOneMore(h: SymbolHistory, first: int, last: int, stride: int, rest: seq<Bar>)
    requires 0 <= first < h.end <= |h.series.bars| && Short(first, last, stride)
    requires Every(h, first + stride, last, stride, rest)
    ensures Every(h, first, last, stride, [h.Bar(first)] + rest)
  {
    AllAtOneMore(h, first, stride, rest);
    ReachesOneMore(first, last, stride, |rest|);
  }

  lemma AllAtOneMore(h: SymbolHistory, first: int, stride: int, rest: seq<Bar>)
    requires 0 <= first < h.end <= |h.series.bars| && AllAt(h, first + stride, stride, rest)
    ensures AllAt(h, first, stride, [h.Bar(first)] + rest)
  {
    var bars := [h.Bar(first)] + rest;
    forall k | 0 <= k < |bars| ensures IsAt(h, Nth(first, stride, k), bars[k]) {
      OneMoreAt(h, first, stride, rest, k);
    }
  }

  lemma ReachesOneMore(first: int, last: int, stride: int, n: nat)
    requires Short(first, last, stride) && Reaches(first + stride, last, stride, n)
    ensures Reaches(first, last, stride, n + 1)
  {
    NthNext(first, stride, n);
    if n > 0 {
      NthNext(first, stride, n - 1);
    }
  }

  lemma OneMoreAt(h: SymbolHistory, first: int, stride: int, rest: seq<Bar>, k: nat)
    requires 0 <= first < h.end <= |h.series.bars| && k <= |rest|
    requires k > 0 ==> IsAt(h, Nth(first + stride, stride, k - 1), rest[k - 1])
    ensures IsAt(h, Nth(first, stride, k), ([h.Bar(first)] + rest)[k])
  {
    if k > 0 {
      NthNext(first, stride, k - 1);
    }
  }

  /** An index from the front or the back, and nothing beyond the visible bars. */
  lemma GetItemIs(h: SymbolHistory, index: int)
    requires h.end <= |h.series.bars|
    ensures 0 <= index < h.end ==> h.GetItem(index) == Ok(h.series.bars[index])
    ensures -(h.end as int) <= index < 0 ==> h.GetItem(index) == Ok(h.series.bars[h.end + index])
    ensures index < -(h.end as int) || index >= h.end ==> h.GetItem(index) == Err(Lookahead)
  {
  }

  lemma {:induction false} ForwardSame(a: SymbolHistory, b: SymbolHistory, x: Option<int>, y: Option<int>, stride: int)
    requires a.Valid() && b.Valid() && a.end == b.end && stride > 0
    requires forall i :: 0 <= i < a.end ==> a.Bar(i) == b.Bar(i)
    ensures a.Walk(a.Bound(x, 0, 0, a.end), a.Bound(y, a.end, 0, a.end), stride)
         == b.Walk(b.Bound(x, 0, 0, b.end), b.Bound(y, b.end, 0, b.end), stride)
  {
    WalkSame(a, b, a.Bound(x, 0, 0, a.end), a.Bound(y, a.end, 0, a.end), stride);
  }

  lemma {:induction false} BackwardSame(a: SymbolHistory, b: SymbolHistory, x: Option<int>, y: Option<int>, stride: int)
    requires a.Valid() && b.Valid() && a.end == b.end && stride < 0
    requires forall i :: 0 <= i < a.end ==> a.Bar(i) == b.Bar(i)
    ensures a.Walk(a.Bound(x, a.end - 1, -1, a.end - 1), a.Bound(y, -1, -1, a.end - 1), stride)
         == b.Walk(b.Bound(x, b.end - 1, -1, b.end - 1), b.Bound(y, -1, -1, b.end - 1), stride)
  {
    WalkSame(a, b, a.Bound(x, a.end - 1, -1, a.end - 1), a.Bound(y, -1, -1, a.end - 1), stride);
  }

  lemma {:induction false} WalkSame(a: SymbolHistory, b: SymbolHistory, from: int, to: int, stride: int)
    requires a.end == b.end && a.end <= |a.series.bars| && b.end <= |b.series.bars| && stride != 0
    requires stride > 0 ==> 0 <= from && to <= a.end
    requires stride < 0 ==> from < a.end && -1 <= to
    requires forall i :: 0 <= i < a.end ==> a.Bar(i) == b.Bar(i)
    ensures a.Walk(from, to, stride) == b.Walk(from, to, stride)
    decreases if stride > 0 then to - from else from - to
  {
    if (stride > 0 && from < to) || (stride < 0 && from > to) {
      WalkSame(a, b, from + stride, to, stride);
    }
  }

  /** No accessor hands out a bar stamped after now. */
  lemma AccessorsStayInThePast(h: SymbolHistory)
    requires h.Valid()
    ensures forall i :: h.GetItem(i).Ok? ==> h.GetItem(i).value.timestampNs <= h.nowNs
    ensures forall x, y, z, b :: h.Slice(x, y, z).Ok? && b in h.Slice(x, y, z).value ==> b.timestampNs <= h.nowNs
    ensures h.Latest().Some? ==> h.Latest().value.timestampNs <= h.nowNs
    ensures forall n, b :: h.Tail(n).Ok? && b in h.Tail(n).value ==> b.timestampNs <= h.nowNs
    ensures forall n, t :: t in h.Timestamps(n) ==> t <= h.nowNs
  {
    UpToSplits(h.series.bars, h.nowNs);
    forall x, y, z, b | h.Slice(x, y, z).Ok? && b in h.Slice(x, y, z).value ensures b.timestampNs <= h.nowNs {
      var stride := if z.Some? then z.value else 1;
      if stride > 0 {
        WalkPast(h, h.Bound(x, 0, 0, h.end), h.Bound(y, h.end, 0, h.end), stride);
      } else {
        WalkPast(h, h.Bound(x, h.end - 1, -1, h.end - 1), h.Bound(y, -1, -1, h.end - 1), stride);
      }
    }
  }

  lemma {:induction false} WalkPast(h: SymbolHistory, from: int, to: int, stride: int)
    requires h.end <= |h.series.bars| && stride != 0
    requires stride > 0 ==> 0 <= from && to <= h.end
    requires stride < 0 ==> from < h.end && -1 <= to
    requires forall i :: 0 <= i < h.end ==> h.Bar(i).timestampNs <= h.nowNs
    ensures forall b :: b in h.Walk(from, to, stride) ==> b.timestampNs <= h.nowNs
    decreases if stride > 0 then to - from else from - to
  {
    if (stride > 0 && from < to) || (stride < 0 && from > to) {
      WalkPast(h, from + stride, to, stride);
    }
  }

  /** The latest bar is the newest one stamped at or before now, and there is one exactly when any is. */
  lemma LatestIsNewest(h: SymbolHistory)
    requires h.Valid()
    ensures h.Latest().None? <==> forall i :: 0 <= i < |h.series.bars| ==> h.nowNs < h.series.bars[i].timestampNs
    ensures h.Latest().Some? ==>
      exists i: nat :: Newest(h.series.bars, h.nowNs, i) && h.Latest().value == h.series.bars[i]
  {
    UpToSplits(h.series.bars, h.nowNs);
    if h.end > 0 {
      NewestIsLastOf(h.series.bars, h.nowNs, h.end - 1);
    }
  }

  /** The last bars are the newest ones, oldest first, as many as asked for if there are so many. */
  lemma TailIsNewest(h: SymbolHistory, n: nat)
    requires h.Valid()
    ensures h.Tail(Some(n)).Ok?
    ensures var bars := h.Tail(Some(n)).value;
      && |bars| == (if n < h.Len() then n else h.Len())
      && (forall i :: 0 <= i < |bars| ==> bars[i] == h.series.bars[h.Len() - |bars| + i])
      && (bars != [] ==> Newest(h.series.bars, h.nowNs, h.Len() - 1))
  {
    if h.end > 0 {
      NewestIsLastOf(h.series.bars, h.nowNs, h.end - 1);
    }
  }

  /** The last stamps likewise; all of them without a count, and none for a negative one. */
  lemma TimestampsAre(h: SymbolHistory, n: Option<int>)
    requires h.end <= |h.series.bars|
    ensures var stamps := h.Timestamps(n);
      && |stamps| == (if n.None? || n.value >= h.end then h.end else if n.value < 0 then 0 else n.value)
      && (forall i :: 0 <= i < |stamps| ==> stamps[i] == h.series.bars[h.end - |stamps| + i].timestampNs)
  {
  }

  lemma ClosesAre(bars: seq<Bar>)
    ensures |Closes(bars)| == |bars| && forall i :: 0 <= i < |bars| ==> Closes(bars)[i] == bars[i].close
  {
  }

  /** `at` finds a past bar exactly when there is one, and only refuses the future. */
  lemma AtFindsExactly(h: SymbolHistory, t: int)
    requires h.Valid()
    ensures h.At(t).Err? <==> t > h.nowNs
    ensures t <= h.nowNs ==>
      forall i :: 0 <= i < |h.series.bars| && h.series.bars[i].timestampNs == t ==>
        h.At(t) == Ok(Some(h.series.bars[i]))
    ensures h.At(t).Ok? && h.At(t).value.Some? ==>
      h.At(t).value.value in h.series.bars && h.At(t).value.value.timestampNs == t
  {
    var seen := h.series.bars[..h.end];
    UpToSplits(h.series.bars, h.nowNs);
    UpToSplits(seen, t - 1);
    if t <= h.nowNs {
      forall i | 0 <= i < |h.series.bars| && h.series.bars[i].timestampNs == t
        ensures h.At(t) == Ok(Some(h.series.bars[i]))
      {
        assert i < h.end && seen[i] == h.series.bars[i];
        UpToIs(seen, t - 1, i);
      }
    }
  }

  // ---------------------------------------------------------------- events

  ghost predicate HasBarAt(bars: seq<Bar>, t: int) {
    UpTo(bars, t) > 0 && bars[UpTo(bars, t) - 1].timestampNs == t
  }

  /** What the feed must yield at `t`: every cursor counts the bars stamped at or before `t`, and
      the new bars are those stamped exactly `t`. */
  ghost predicate IsEvent(m: Market, t: int, ev: FeedEvent) {
    && ev.tsNs == t && IsView(m, t, ev.view) && IsNewBars(m, t, ev.newBars)
  }

  ghost predicate IsView(m: Market, t: int, view: MarketView) {
    && view.nowNs == t && view.histories.Keys == m.series.Keys
    && forall s :: s in m.series ==>
         view.histories[s] == SymbolHistory(m.series[s], UpTo(m.series[s].bars, t), t)
  }

  ghost predicate IsNewBars(m: Market, t: int, newBars: map<string, Bar>) {
    forall s :: IsNewBar(m, t, newBars, s)
  }

  ghost predicate IsNewBar(m: Market, t: int, newBars: map<string, Bar>, s: string) {
    if s in m.series && HasBarAt(m.series[s].bars, t)
    then s in newBars && newBars[s] == m.series[s].bars[UpTo(m.series[s].bars, t) - 1]
    else s !in newBars
  }

  /** One event per stamp of the timeline, in order. */
  ghost predicate IsFeed(m: Market, events: seq<FeedEvent>) {
    |events| == |m.timeline| && forall k :: 0 <= k < |events| ==> IsEvent(m, m.timeline[k], events[k])
  }

  /** Between two consecutive stamps of the timeline no bar is stamped, so a cursor that moves at
      most one step per event keeps counting exactly. */
  lemma CursorStep(m: Market, k: nat, s: string, cursor: nat)
    requires m.Valid() && k < |m.timeline| && s in m.series
    requires cursor == if k == 0 then 0 else UpTo(m.series[s].bars, m.timeline[k - 1])
    ensures var bars := m.series[s].bars;
      if cursor < |bars| && bars[cursor].timestampNs == m.timeline[k]
      then UpTo(bars, m.timeline[k]) == cursor + 1 && HasBarAt(bars, m.timeline[k])
      else UpTo(bars, m.timeline[k]) == cursor && !HasBarAt(bars, m.timeline[k])
  {
    var bars, t := m.series[s].bars, m.timeline[k];
    if k > 0 {
      UpToSplits(bars, m.timeline[k - 1]);
    }
    if cursor < |bars| {
      assert Stamped(m.series, bars[cursor].timestampNs);
      var j :| 0 <= j < |m.timeline| && m.timeline[j] == bars[cursor].timestampNs;
      assert j >= k;
      assert t <= bars[cursor].timestampNs;
      if bars[cursor].timestampNs == t {
        UpToIs(bars, t, cursor + 1);
      } else {
        UpToIs(bars, t, cursor);
      }
    } else {
      UpToIs(bars, t, cursor);
    }
  }

  /** The cursor of `s` before event `k`: the number of its bars in the events already yielded. */
  ghost function CursorAt(m: Market, k: nat, s: string): nat
    requires k <= |m.timeline| && s in m.series
  {
    if k == 0 then 0 else UpTo(m.series[s].bars, m.timeline[k - 1])
  }

  ghost predicate CursorsAt(m: Market, k: nat, cursor: map<string, nat>)
    requires k <= |m.timeline|
  {
    cursor.Keys == m.series.Keys && forall s :: s in m.series ==> cursor[s] == CursorAt(m, k, s)
  }

  /** The symbols in `left` are still to be advanced, all others are. */
  ghost predicate HalfAdvanced(
    m: Market, k: nat, cursor: map<string, nat>, newBars: map<string, Bar>, left: set<string>)
    requires k < |m.timeline|
  {
    left <= m.series.Keys == cursor.Keys && forall s :: Progress(m, k, cursor, newBars, s in left, s)
  }

  ghost predicate Progress(
    m: Market, k: nat, cursor: map<string, nat>, newBars: map<string, Bar>, waiting: bool, s: string)
    requires k < |m.timeline| && cursor.Keys == m.series.Keys
  {
    && (s in m.series ==> cursor[s] == CursorAt(m, if waiting then k else k + 1, s))
    && if waiting then s !in newBars else IsNewBar(m, m.timeline[k], newBars, s)
  }

  lemma AdvanceOne(m: Market, k: nat, cursor: map<string, nat>, newBars: map<string, Bar>, s: string)
    requires m.Valid() && k < |m.timeline| && cursor.Keys == m.series.Keys && s in m.series
    requires Progress(m, k, cursor, newBars, true, s)
    ensures var (bars, i) := (m.series[s].bars, cursor[s]);
      if i < |bars| && bars[i].timestampNs == m.timeline[k]
      then Progress(m, k, cursor[s := i + 1], newBars[s := bars[i]], false, s)
      else Progress(m, k, cursor, newBars, false, s)
  {
    CursorStep(m, k, s, cursor[s]);
  }

  /** One step of one cursor: it moves when its next bar is stamped now. */
  method AdvanceSymbol(
    m: Market, k: nat, s: string, cursor: map<string, nat>, newBars: map<string, Bar>, ghost left: set<string>)
    returns (cursor': map<string, nat>, newBars': map<string, Bar>)
    requires m.Valid() && k < |m.timeline| && HalfAdvanced(m, k, cursor, newBars, left) && s in left
    ensures HalfAdvanced(m, k, cursor', newBars', left - {s})
  {
    cursor', newBars' := cursor, newBars;
    var i := cursor[s];
    assert Progress(m, k, cursor, newBars, s in left, s);
    AdvanceOne(m, k, cursor, newBars, s);
    if i < |m.series[s].bars| && m.series[s].bars[i].timestampNs == m.timeline[k] {
      newBars' := newBars[s := m.series[s].bars[i]];
      cursor' := cursor[s := i + 1];
    }
    OthersKeepProgress(m, k, cursor, newBars, cursor', newBars', left, s);
  }

  lemma NoneAdvanced(m: Market, k: nat, before: map<string, nat>)
    requires m.Valid() && k < |m.timeline| && CursorsAt(m, k, before)
    ensures HalfAdvanced(m, k, before, map[], m.series.Keys)
  {
    forall s ensures Progress(m, k, before, map[], s in m.series.Keys, s) {
    }
  }

  /** The inner loop of events(): one step of every cursor. */
  method Advance(m: Market, k: nat, before: map<string, nat>)
    returns (cursor: map<string, nat>, newBars: map<string, Bar>)
    requires m.Valid() && k < |m.timeline| && CursorsAt(m, k, before)
    ensures CursorsAt(m, k + 1, cursor)
    ensures IsNewBars(m, m.timeline[k], newBars)
  {
    cursor, newBars := before, map[];
    var left := m.series.Keys;
    NoneAdvanced(m, k, before);
    while left != {}
      invariant HalfAdvanced(m, k, cursor, newBars, left)
      decreases |left|
    {
      var s :| s in left;
      cursor, newBars := AdvanceSymbol(m, k, s, cursor, newBars, left);
      left := left - {s};
    }
    AllAdvanced(m, k, cursor, newBars);
  }

  /** Advancing one symbol leaves the others where they were. */
  lemma OthersKeepProgress(
    m: Market, k: nat, was: map<string, nat>, had: map<string, Bar>, cursor: map<string, nat>,
    newBars: map<string, Bar>, left: set<string>, s: string)
    requires k < |m.timeline| && HalfAdvanced(m, k, was, had, left) && s in left
    requires cursor.Keys == was.Keys && (forall z :: z in was && z != s ==> cursor[z] == was[z])
    requires forall z :: z != s ==> (z in newBars <==> z in had) && (z in had ==> newBars[z] == had[z])
    requires Progress(m, k, cursor, newBars, false, s)
    ensures HalfAdvanced(m, k, cursor, newBars, left - {s})
  {
    forall z ensures Progress(m, k, cursor, newBars, z in left - {s}, z) {
      assert Progress(m, k, was, had, z in left, z);
    }
  }

  lemma AllAdvanced(m: Market, k: nat, cursor: map<string, nat>, newBars: map<string, Bar>)
    requires k < |m.timeline| && HalfAdvanced(m, k, cursor, newBars, {})
    ensures CursorsAt(m, k + 1, cursor) && IsNewBars(m, m.timeline[k], newBars)
  {
    var left: set<string> := {};
    forall s ensures IsNewBar(m, m.timeline[k], newBars, s) {
      assert Progress(m, k, cursor, newBars, s in left, s);
    }
    forall s | s in m.series ensures cursor[s] == CursorAt(m, k + 1, s) {
      assert Progress(m, k, cursor, newBars, s in left, s);
    }
  }

  method ViewAt(m: Market, k: nat, cursor: map<string, nat>) returns (view: MarketView)
    requires m.Valid() && k < |m.timeline| && CursorsAt(m, k + 1, cursor)
    ensures IsView(m, m.timeline[k], view)
  {
    var histories := map s | s in m.series :: SymbolHistory(m.series[s], cursor[s], m.timeline[k]);
    return MarketView(m.timeline[k], histories);
  }

  /** PointInTimeFeed.events: one event per stamp, every cursor moving at most one step. */
  method Events(m: Market) returns (events: seq<FeedEvent>)
    requires m.Valid()
    ensures IsFeed(m, events)
  {
    events := [];
    var cursor := map s | s in m.series :: 0;
    for k := 0 to |m.timeline|
      invariant |events| == k
      invariant forall j :: 0 <= j < k ==> IsEvent(m, m.timeline[j], events[j])
      invariant CursorsAt(m, k, cursor)
    {
      var ts := m.timeline[k];
      var newBars;
      cursor, newBars := Advance(m, k, cursor);
      var view := ViewAt(m, k, cursor);
      events := events + [FeedEvent(ts, newBars, view)];
    }
  }

  lemma ViewIsValid(m: Market, t: int, view: MarketView)
    requires m.Valid() && IsView(m, t, view)
    ensures view.Valid()
  {
  }

  /** Every bar is delivered, at its own time and at no other. */
  lemma DeliveredOnce(m: Market, events: seq<FeedEvent>, s: string, i: nat)
    requires m.Valid() && IsFeed(m, events) && s in m.series && i < |m.series[s].bars|
    ensures exists k :: 0 <= k < |events| && s in events[k].newBars && events[k].newBars[s] == m.series[s].bars[i]
    ensures forall k :: 0 <= k < |events| && s in events[k].newBars && events[k].newBars[s] == m.series[s].bars[i] ==>
      events[k].tsNs == m.series[s].bars[i].timestampNs
  {
    var bars := m.series[s].bars;
    var t := bars[i].timestampNs;
    assert Stamped(m.series, t);
    var k :| 0 <= k < |m.timeline| && m.timeline[k] == t;
    UpToIs(bars, t, i + 1);
    assert IsNewBar(m, t, events[k].newBars, s);
    forall j | 0 <= j < |events| && s in events[j].newBars && events[j].newBars[s] == bars[i]
      ensures events[j].tsNs == t
    {
      assert IsNewBar(m, m.timeline[j], events[j].newBars, s);
    }
  }

  /** Events that differ at most in what lies after their own time. */
  ghost predicate SameEvent(a: FeedEvent, b: FeedEvent) {
    a.tsNs == b.tsNs && a.newBars == b.newBars && SameView(a.view, b.view)
  }

  ghost predicate SameView(a: MarketView, b: MarketView) {
    && a.nowNs == b.nowNs && a.histories.Keys == b.histories.Keys
    && forall s :: s in a.histories ==> SameVisible(a.histories[s], b.histories[s])
  }

  /** Markets that agree up to `t` yield the same bars and equally informative views at `t`. */
  lemma AgreeEvents(a: Market, b: Market, t: int, x: FeedEvent, y: FeedEvent)
    requires a.Valid() && b.Valid() && AgreeUpTo(a, b, t)
    requires IsEvent(a, t, x) && IsEvent(b, t, y)
    ensures SameEvent(x, y)
  {
    forall s
      ensures s in x.newBars <==> s in y.newBars
      ensures s in x.newBars ==> x.newBars[s] == y.newBars[s]
    {
      assert IsNewBar(a, t, x.newBars, s) && IsNewBar(b, t, y.newBars, s);
      AgreeNewBar(a, b, t, x.newBars, y.newBars, s);
    }
    assert x.newBars == y.newBars;
    AgreeViews(a, b, t, x.view, y.view);
  }

  lemma AgreeNewBar(a: Market, b: Market, t: int, x: map<string, Bar>, y: map<string, Bar>, s: string)
    requires AgreeUpTo(a, b, t) && IsNewBar(a, t, x, s) && IsNewBar(b, t, y, s)
    ensures s in x <==> s in y
    ensures s in x ==> x[s] == y[s]
  {
    if s in a.series {
      AgreeLastBar(a.series[s].bars, b.series[s].bars, t);
    }
  }

  lemma AgreeViews(a: Market, b: Market, t: int, x: MarketView, y: MarketView)
    requires a.Valid() && b.Valid() && AgreeUpTo(a, b, t) && IsView(a, t, x) && IsView(b, t, y)
    ensures SameView(x, y)
  {
  }

  lemma AgreeLastBar(x: seq<Bar>, y: seq<Bar>, t: int)
    requires Visible(x, t) == Visible(y, t)
    ensures UpTo(x, t) == UpTo(y, t)
    ensures UpTo(x, t) > 0 ==> x[UpTo(x, t) - 1] == y[UpTo(y, t) - 1]
  {
    var p, q := Visible(x, t), Visible(y, t);
    assert |p| == UpTo(x, t) && |q| == UpTo(y, t);
    if |p| > 0 {
      assert x[|p| - 1] == p[|p| - 1] == q[|p| - 1];
    }
  }
}
