/** What a run is worth at every event (backtesting/engine.py, portfolio.py): which price each symbol is
    marked at, and what the equity curve and the strategy's snapshot say, in terms of the market's bars. */
module Marking {
  import opened Prelude
  import opened Sums
  import opened Models
  import opened Portfolios
  import opened Execution
  import opened MarketData
  import opened Feed
  import opened Engine

  // ---------------------------------------------------------------- the closes as of a time

  /** One price for each symbol that has had a bar: the close of its newest bar, at six places. */
  ghost predicate ClosesAt(m: Market, t: int, closes: map<string, real>) {
    && (forall s :: s in closes ==> s in m.series && exists i: nat :: Newest(m.series[s].bars, t, i))
    && (forall s, i: nat :: s in m.series && Newest(m.series[s].bars, t, i) ==>
          s in closes && closes[s] == ToDecimal(m.series[s].bars[i].close))
  }

  /** The same, by the number of bars there have been. */
  ghost predicate MarkedUpTo(m: Market, marks: map<string, real>, s: string, n: nat)
    requires s in m.series && n <= |m.series[s].bars|
  {
    (s in marks <==> n > 0) && (n > 0 ==> marks[s] == ToDecimal(m.series[s].bars[n - 1].close))
  }

  /** The marks before event `k`. */
  ghost predicate MarkedBefore(m: Market, k: nat, marks: map<string, real>)
    requires k <= |m.timeline|
  {
    marks.Keys <= m.series.Keys && forall s :: s in m.series ==> MarkedUpTo(m, marks, s, CursorAt(m, k, s))
  }

  lemma MarkOne(m: Market, k: nat, marks: map<string, real>, ev: FeedEvent, s: string)
    requires m.Valid() && k < |m.timeline| && IsEvent(m, m.timeline[k], ev) && s in m.series
    requires MarkedUpTo(m, marks, s, CursorAt(m, k, s))
    ensures MarkedUpTo(m, UpdateMarks(marks, ev.newBars), s, CursorAt(m, k + 1, s))
  {
    CursorStep(m, k, s, CursorAt(m, k, s));
    assert IsNewBar(m, m.timeline[k], ev.newBars, s);
  }

  lemma MarksFollow(m: Market, k: nat, marks: map<string, real>, ev: FeedEvent)
    requires m.Valid() && k < |m.timeline| && IsEvent(m, m.timeline[k], ev) && MarkedBefore(m, k, marks)
    ensures MarkedBefore(m, k + 1, UpdateMarks(marks, ev.newBars))
  {
    forall s | s in ev.newBars ensures s in m.series {
      assert IsNewBar(m, m.timeline[k], ev.newBars, s);
    }
    forall s | s in m.series ensures MarkedUpTo(m, UpdateMarks(marks, ev.newBars), s, CursorAt(m, k + 1, s)) {
      MarkOne(m, k, marks, ev, s);
    }
  }

  lemma MarkedIsClosesAt(m: Market, k: nat, marks: map<string, real>)
    requires m.Valid() && 0 < k <= |m.timeline| && MarkedBefore(m, k, marks)
    ensures ClosesAt(m, m.timeline[k - 1], marks)
  {
    var t := m.timeline[k - 1];
    forall s | s in marks ensures exists i: nat :: Newest(m.series[s].bars, t, i) {
      assert MarkedUpTo(m, marks, s, CursorAt(m, k, s));
      NewestIsLastOf(m.series[s].bars, t, CursorAt(m, k, s) - 1);
    }
    forall s, i: nat | s in m.series && Newest(m.series[s].bars, t, i)
      ensures s in marks && marks[s] == ToDecimal(m.series[s].bars[i].close)
    {
      assert MarkedUpTo(m, marks, s, CursorAt(m, k, s));
      NewestIsLastOf(m.series[s].bars, t, i);
    }
  }

  // ---------------------------------------------------------------- what an event leaves alone

  lemma {:induction false} EnqueueMarksNothing(r: Run, intents: seq<OrderIntent>, ev: FeedEvent, cfg: BacktestConfig)
    requires EventOk(ev)
    ensures Enqueued(r, intents, ev, cfg).Ok? ==>
      var n := Enqueued(r, intents, ev, cfg).value;
      n.marks == r.marks && n.curve == r.curve && n.portfolio == r.portfolio
    decreases |intents|
  {
    if intents != [] {
      EnqueueMarksNothing(r, intents[..|intents| - 1], ev, cfg);
    }
  }

  /** A position is only ever opened in a symbol that has a bar at the event. */
  lemma {:induction false} PassHolds(
    p: Pass, orders: seq<PendingOrder>, ev: FeedEvent, cfg: BacktestConfig, symbols: set<string>)
    requires p.portfolio.Ok() && OrdersOk(orders) && EventOk(ev)
    requires p.portfolio.positions.Keys <= symbols && ev.newBars.Keys <= symbols
    ensures ProcessOrders(p, orders, ev, cfg).portfolio.positions.Keys <= symbols
    decreases |orders|
  {
    if orders != [] {
      var front, o := orders[..|orders| - 1], orders[|orders| - 1];
      PassHolds(p, front, ev, cfg, symbols);
      OrderHolds(ProcessOrders(p, front, ev, cfg), o, ev, cfg, symbols);
    }
  }

  lemma OrderHolds(p: Pass, o: PendingOrder, ev: FeedEvent, cfg: BacktestConfig, symbols: set<string>)
    requires p.portfolio.Ok() && OrderOk(o) && EventOk(ev)
    requires p.portfolio.positions.Keys <= symbols && ev.newBars.Keys <= symbols
    ensures ProcessOrder(p, o, ev, cfg).portfolio.positions.Keys <= symbols
  {
    if !Expired(o, ev) && !Waits(o, ev) {
      var a := Attempt(p, o, ev, cfg);
      if a.fill.Some? {
        AttemptShapeOf(p, o, ev, cfg);
        EffectBalances(p.portfolio, a.fill.value);
      }
    }
  }

  lemma AttemptShapeOf(p: Pass, o: PendingOrder, ev: FeedEvent, cfg: BacktestConfig)
    requires OrderOk(o) && EventOk(ev) && o.intent.symbol in ev.newBars && Attempt(p, o, ev, cfg).fill.Some?
    ensures Attempt(p, o, ev, cfg).fill.value.symbol == o.intent.symbol
  {
  }

  // ---------------------------------------------------------------- what a portfolio is worth

  function WorthAt(closes: map<string, real>): Weight {
    (s: string, pos: Position) => if s in closes then pos.quantity * closes[s] else 0.0
  }

  function SizeAt(closes: map<string, real>): Weight {
    (s: string, pos: Position) =>
      if s !in closes then 0.0 else if pos.quantity < 0.0 then -pos.quantity * closes[s] else pos.quantity * closes[s]
  }

  function ProfitAt(closes: map<string, real>): Weight {
    (s: string, pos: Position) => if s in closes then pos.quantity * (closes[s] - pos.avgCost) else 0.0
  }

  lemma SumSame(positions: map<string, Position>, a: Weight, b: Weight)
    requires forall s :: s in positions ==> a(s, positions[s]) == b(s, positions[s])
    ensures Sum(positions, a) == Sum(positions, b)
  {
    SumBelow(positions, a, b);
    SumBelow(positions, b, a);
  }

  lemma WorthIs(p: Portfolio, closes: map<string, real>)
    requires p.positions.Keys <= closes.Keys
    ensures Equity(p, closes) == p.cash + Sum(p.positions, WorthAt(closes))
    ensures GrossExposure(p, closes) == Sum(p.positions, SizeAt(closes))
    ensures UnrealisedPnl(p, closes) == Sum(p.positions, ProfitAt(closes))
  {
    SumSame(p.positions, ValueOf(closes), WorthAt(closes));
    SumSame(p.positions, GainOf(closes), ProfitAt(closes));
    forall s | s in p.positions ensures GrossOf(closes)(s, p.positions[s]) == SizeAt(closes)(s, p.positions[s]) {
      var quantity := p.positions[s].quantity;
      assert Abs(quantity) == if quantity < 0.0 then -quantity else quantity;
    }
    SumSame(p.positions, GrossOf(closes), SizeAt(closes));
  }

  // ---------------------------------------------------------------- every reachable state

  /** Every position has a mark, and every mark a close before event `k`. */
  ghost predicate Covered(m: Market, k: nat, r: Run)
    requires k <= |m.timeline|
  {
    MarkedBefore(m, k, r.marks) && r.portfolio.positions.Keys <= r.marks.Keys
  }

  lemma EventCovers(
    m: Market, k: nat, l: Loop, ev: FeedEvent, strategy: Strategy, cfg: BacktestConfig, n: Loop)
    requires m.Valid() && 0 < k <= |m.timeline| && IsEvent(m, m.timeline[k - 1], ev) && EventOk(ev) && LoopOk(l)
    requires Covered(m, k - 1, l.run) && OnEvent(l, ev, strategy, cfg) == Ok(n)
    ensures Covered(m, k, n.run)
  {
    MarksFollow(m, k - 1, l.run.marks, ev);
    if !WarmingUp(ev, cfg) {
      var marked := l.run.(marks := UpdateMarks(l.run.marks, ev.newBars));
      PassHolds(Opening(marked), marked.pending, ev, cfg, marked.marks.Keys);
      var f := AfterFills(l.run, ev, cfg);
      var seen := l.seen + [Observation(ev.view, TakeSnapshot(f.portfolio, ev.tsNs, f.marks))];
      EnqueueMarksNothing(f, strategy(seen), ev, cfg);
    }
  }

  lemma StartIsCovered(m: Market, events: seq<FeedEvent>, strategy: Strategy, cfg: BacktestConfig)
    requires EventsOk(events) && RunTo(events, 0, strategy, cfg).Ok?
    ensures Covered(m, 0, RunTo(events, 0, strategy, cfg).value.run)
  {
  }

  /** In every reachable state the marks are the closes as of the last event. */
  lemma {:induction false} EveryRunIsCovered(
    m: Market, events: seq<FeedEvent>, k: nat, strategy: Strategy, cfg: BacktestConfig)
    requires m.Valid() && IsFeed(m, events) && EventsOk(events) && k <= |events|
    requires RunTo(events, k, strategy, cfg).Ok?
    ensures Covered(m, k, RunTo(events, k, strategy, cfg).value.run)
    decreases k
  {
    if k == 0 {
      StartIsCovered(m, events, strategy, cfg);
    } else {
      var l, n := StepBefore(events, k, strategy, cfg);
      var ev := EventBefore(m, events, k);
      EveryRunIsCovered(m, events, k - 1, strategy, cfg);
      EventCovers(m, k, l, ev, strategy, cfg, n);
    }
  }

  /** What the curve and the strategy are told at `t`: cash and positions at these closes. */
  ghost predicate Reports(run: Run, shown: Snapshot, t: int, closes: map<string, real>) {
    && run.curve != []
    && var p := run.portfolio;
    var worth, size := p.cash + Sum(p.positions, WorthAt(closes)), Sum(p.positions, SizeAt(closes));
    && run.curve[|run.curve| - 1] == CurvePoint(t, worth, size)
    && shown == Snapshot(
         t, p.cash, worth, p.realisedPnl, Sum(p.positions, ProfitAt(closes)), p.feesPaid, size, p.positions)
  }

  /** From `l` to `n`: during the warm-up nothing is reported; past it the event adds one point to the
      curve and shows the strategy its view and one snapshot. */
  ghost predicate ReportsAt(l: Loop, n: Loop, ev: FeedEvent, cfg: BacktestConfig) {
    if cfg.tradingStartTsNs.Some? && ev.tsNs < cfg.tradingStartTsNs.value
    then n.run.curve == l.run.curve && n.seen == l.seen
    else
      && |n.seen| == |l.seen| + 1 && n.seen[..|l.seen|] == l.seen && n.seen[|l.seen|].view == ev.view
      && |n.run.curve| == |l.run.curve| + 1 && n.run.curve[..|l.run.curve|] == l.run.curve
      && Reports(n.run, n.seen[|l.seen|].snapshot, ev.tsNs, n.run.marks)
  }

  lemma FillsReport(r: Run, ev: FeedEvent, cfg: BacktestConfig)
    requires r.portfolio.Ok() && OrdersOk(r.pending) && EventOk(ev)
    requires AfterFills(r, ev, cfg).portfolio.positions.Keys <= AfterFills(r, ev, cfg).marks.Keys
    ensures var f := AfterFills(r, ev, cfg);
      && |f.curve| == |r.curve| + 1 && f.curve[..|r.curve|] == r.curve
      && Reports(f, TakeSnapshot(f.portfolio, ev.tsNs, f.marks), ev.tsNs, f.marks)
  {
    var f := AfterFills(r, ev, cfg);
    WorthIs(f.portfolio, f.marks);
    var point := CurvePoint(ev.tsNs, Equity(f.portfolio, f.marks), GrossExposure(f.portfolio, f.marks));
    assert f.curve == r.curve + [point];
  }

  lemma EventReports(l: Loop, ev: FeedEvent, strategy: Strategy, cfg: BacktestConfig)
    requires EventOk(ev) && LoopOk(l) && OnEvent(l, ev, strategy, cfg).Ok?
    requires var r := OnEvent(l, ev, strategy, cfg).value.run; r.portfolio.positions.Keys <= r.marks.Keys
    ensures ReportsAt(l, OnEvent(l, ev, strategy, cfg).value, ev, cfg)
  {
    if !WarmingUp(ev, cfg) {
      var f := AfterFills(l.run, ev, cfg);
      var seen := l.seen + [Observation(ev.view, TakeSnapshot(f.portfolio, ev.tsNs, f.marks))];
      EnqueueMarksNothing(f, strategy(seen), ev, cfg);
      FillsReport(l.run, ev, cfg);
    }
  }

  /** In every run over the feed of a market, after every event: each symbol that has had a bar is marked
      at the close of its newest one, no other symbol is, and every position has a mark. Past the warm-up
      the event adds one point to the equity curve and one snapshot for the strategy, stamped at the event,
      and both say cash plus the positions at those closes. */
  lemma EveryRunIsMarked(m: Market, events: seq<FeedEvent>, k: nat, strategy: Strategy, cfg: BacktestConfig)
    requires m.Valid() && IsFeed(m, events) && EventsOk(events) && 0 < k <= |events|
    requires RunTo(events, k, strategy, cfg).Ok?
    ensures RunTo(events, k - 1, strategy, cfg).Ok? && events[k - 1].tsNs == m.timeline[k - 1]
    ensures var (l, n) := (RunTo(events, k - 1, strategy, cfg).value, RunTo(events, k, strategy, cfg).value);
      && ClosesAt(m, m.timeline[k - 1], n.run.marks) && n.run.portfolio.positions.Keys <= n.run.marks.Keys
      && ReportsAt(l, n, events[k - 1], cfg)
  {
    EveryRunIsCovered(m, events, k, strategy, cfg);
    MarkedIsClosesAt(m, k, RunTo(events, k, strategy, cfg).value.run.marks);
    var l, n := StepBefore(events, k, strategy, cfg);
    EventReports(l, events[k - 1], strategy, cfg);
    assert IsEvent(m, m.timeline[k - 1], events[k - 1]);
  }
}
