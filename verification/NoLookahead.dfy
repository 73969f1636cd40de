/** No look-ahead, as a relation between two runs: what lies after an event cannot influence the
    state the run has reached by then. */
module NoLookahead {
  import opened Prelude
  import opened Models
  import opened Portfolios
  import opened Execution
  import opened MarketData
  import opened Feed
  import opened Engine

  /** Two observations a strategy cannot tell apart through the accessors it is given. */
  ghost predicate SameObservation(a: Observation, b: Observation) {
    && a.snapshot == b.snapshot && a.view.nowNs == b.view.nowNs
    && a.view.histories.Keys == b.view.histories.Keys && a.view.Valid() && b.view.Valid()
    && forall s :: s in a.view.histories ==> SameAnswers(a.view.histories[s], b.view.histories[s])
  }

  ghost predicate SameSeen(a: seq<Observation>, b: seq<Observation>) {
    |a| == |b| && forall i :: 0 <= i < |a| ==> SameObservation(a[i], b[i])
  }

  /** The strategy looks at the market through the accessors only. */
  ghost predicate UsesAccessorsOnly(strategy: Strategy) {
    forall a, b :: SameSeen(a, b) ==> strategy(a) == strategy(b)
  }

  lemma SameCloses(a: FeedEvent, b: FeedEvent, s: string, n: nat)
    requires EventOk(a) && EventOk(b) && SameEvent(a, b) && s in a.view.histories
    ensures RecentCloses(a, s, n) == RecentCloses(b, s, n)
    ensures a.view.histories[s].Latest() == b.view.histories[s].Latest()
  {
    AccessorsRevealThePast(a.view.histories[s], b.view.histories[s]);
    assert a.view.histories[s].Tail(Some(n)) == b.view.histories[s].Tail(Some(n));
  }

  lemma SameOrder(p: Pass, o: PendingOrder, a: FeedEvent, b: FeedEvent, cfg: BacktestConfig)
    requires p.portfolio.Ok() && OrderOk(o) && EventOk(a) && EventOk(b) && SameEvent(a, b)
    ensures ProcessOrder(p, o, a, cfg) == ProcessOrder(p, o, b, cfg)
  {
    if !Expired(o, a) && !Waits(o, a) {
      SameCloses(a, b, o.intent.symbol, cfg.cost.volLookback + 1);
      assert Attempt(p, o, a, cfg) == Attempt(p, o, b, cfg);
    }
  }

  lemma {:induction false} SamePending(
    p: Pass, orders: seq<PendingOrder>, a: FeedEvent, b: FeedEvent, cfg: BacktestConfig)
    requires p.portfolio.Ok() && OrdersOk(orders) && EventOk(a) && EventOk(b) && SameEvent(a, b)
    ensures ProcessOrders(p, orders, a, cfg) == ProcessOrders(p, orders, b, cfg)
    decreases |orders|
  {
    if orders != [] {
      var init := orders[..|orders| - 1];
      SamePending(p, init, a, b, cfg);
      SameOrder(ProcessOrders(p, init, a, cfg), orders[|orders| - 1], a, b, cfg);
    }
  }

  lemma {:induction false} SameEnqueued(
    r: Run, intents: seq<OrderIntent>, a: FeedEvent, b: FeedEvent, cfg: BacktestConfig)
    requires EventOk(a) && EventOk(b) && SameEvent(a, b)
    ensures Enqueued(r, intents, a, cfg) == Enqueued(r, intents, b, cfg)
    decreases |intents|
  {
    if intents != [] {
      var front := intents[..|intents| - 1];
      SameEnqueued(r, front, a, b, cfg);
      if Enqueued(r, front, a, cfg).Ok? {
        SameEnqueuedOne(Enqueued(r, front, a, cfg).value, intents[|intents| - 1], a, b, cfg);
      }
    }
  }

  lemma SameEnqueuedOne(r: Run, intent: OrderIntent, a: FeedEvent, b: FeedEvent, cfg: BacktestConfig)
    requires EventOk(a) && EventOk(b) && SameEvent(a, b)
    ensures EnqueueOne(r, intent, a, cfg) == EnqueueOne(r, intent, b, cfg)
  {
    if intent.symbol in a.view.histories {
      SameCloses(a, b, intent.symbol, 0);
    }
  }

  lemma SameSettled(r: Run, a: FeedEvent, b: FeedEvent, cfg: BacktestConfig)
    requires r.portfolio.Ok() && OrdersOk(r.pending) && EventOk(a) && EventOk(b) && SameEvent(a, b)
    ensures AfterFills(r, a, cfg) == AfterFills(r, b, cfg)
  {
    var marked := r.(marks := UpdateMarks(r.marks, a.newBars));
    SamePending(Opening(marked), r.pending, a, b, cfg);
  }

  /** Two loops in the same state, whose strategies have been shown the same past. */
  ghost predicate SameLoop(a: Loop, b: Loop) {
    a.run == b.run && SameSeen(a.seen, b.seen)
  }

  ghost predicate SameResult(a: Result<Loop, RunError>, b: Result<Loop, RunError>) {
    match (a, b)
    case (Err(x), Err(y)) => x == y
    case (Ok(x), Ok(y)) => SameLoop(x, y)
    case _ => false
  }

  lemma SameObserved(x: Loop, y: Loop, snapshot: Snapshot, a: FeedEvent, b: FeedEvent)
    requires SameLoop(x, y) && EventOk(a) && EventOk(b) && SameEvent(a, b)
    ensures SameSeen(x.seen + [Observation(a.view, snapshot)], y.seen + [Observation(b.view, snapshot)])
  {
    forall s | s in a.view.histories ensures SameAnswers(a.view.histories[s], b.view.histories[s]) {
      AccessorsRevealThePast(a.view.histories[s], b.view.histories[s]);
    }
    assert SameObservation(Observation(a.view, snapshot), Observation(b.view, snapshot));
  }

  lemma SameStep(x: Loop, y: Loop, a: FeedEvent, b: FeedEvent, strategy: Strategy, cfg: BacktestConfig)
    requires LoopOk(x) && LoopOk(y) && SameLoop(x, y) && UsesAccessorsOnly(strategy)
    requires EventOk(a) && EventOk(b) && SameEvent(a, b)
    ensures SameResult(OnEvent(x, a, strategy, cfg), OnEvent(y, b, strategy, cfg))
  {
    if !WarmingUp(a, cfg) {
      SameSettled(x.run, a, b, cfg);
      var f := AfterFills(x.run, a, cfg);
      var snapshot := TakeSnapshot(f.portfolio, a.tsNs, f.marks);
      SameObserved(x, y, snapshot, a, b);
      var seen := x.seen + [Observation(a.view, snapshot)];
      assert strategy(seen) == strategy(y.seen + [Observation(b.view, snapshot)]);
      SameEnqueued(f, strategy(seen), a, b, cfg);
    }
  }

  lemma {:induction false} SameRuns(
    a: seq<FeedEvent>, b: seq<FeedEvent>, k: nat, strategy: Strategy, cfg: BacktestConfig)
    requires EventsOk(a) && EventsOk(b) && k <= |a| && k <= |b| && UsesAccessorsOnly(strategy)
    requires forall i :: 0 <= i < k ==> SameEvent(a[i], b[i])
    ensures SameResult(RunTo(a, k, strategy, cfg), RunTo(b, k, strategy, cfg))
    decreases k
  {
    if k > 0 {
      SameRuns(a, b, k - 1, strategy, cfg);
      var x, y := RunTo(a, k - 1, strategy, cfg), RunTo(b, k - 1, strategy, cfg);
      if x.Ok? {
        SameStep(x.value, y.value, a[k - 1], b[k - 1], strategy, cfg);
      }
    }
  }

  /** The two-run theorem. Take two markets with the same symbols and the same bars up to `t`, and
      the same strategy, seed and configuration. After every event up to `t` the two runs are in
      the same state: portfolio, marks, queue, fills, trades, refusals, abstentions, equity curve,
      position in the random stream; or both have stopped with the same error. */
  lemma NothingAfterMatters(
    m: Market, n: Market, t: int, a: seq<FeedEvent>, b: seq<FeedEvent>, k: nat,
    strategy: Strategy, cfg: BacktestConfig)
    requires m.Valid() && n.Valid() && AgreeUpTo(m, n, t)
    requires IsFeed(m, a) && IsFeed(n, b) && EventsOk(a) && EventsOk(b)
    requires k <= |m.timeline| && (k > 0 ==> m.timeline[k - 1] <= t)
    requires UsesAccessorsOnly(strategy)
    ensures k <= |n.timeline|
    ensures SameResult(RunTo(a, k, strategy, cfg), RunTo(b, k, strategy, cfg))
  {
    AgreeTimeline(m, n, t, k);
    FeedsAgree(m, n, t, a, b, k);
    SameRuns(a, b, k, strategy, cfg);
  }

  lemma FeedsAgree(m: Market, n: Market, t: int, a: seq<FeedEvent>, b: seq<FeedEvent>, k: nat)
    requires m.Valid() && n.Valid() && AgreeUpTo(m, n, t) && IsFeed(m, a) && IsFeed(n, b)
    requires k <= |m.timeline| && k <= |n.timeline| && (k > 0 ==> m.timeline[k - 1] <= t)
    requires m.timeline[..k] == n.timeline[..k]
    ensures forall i :: 0 <= i < k ==> SameEvent(a[i], b[i])
  {
    forall i | 0 <= i < k ensures SameEvent(a[i], b[i]) {
      assert m.timeline[..k][i] == n.timeline[..k][i];
      EarlierStamp(m, k, i);
      EventsAgree(m, n, t, m.timeline[i], a[i], b[i]);
    }
  }

  lemma EarlierStamp(m: Market, k: nat, i: nat)
    requires m.Valid() && i < k <= |m.timeline|
    ensures m.timeline[i] <= m.timeline[k - 1]
  {
  }

  lemma EventsAgree(m: Market, n: Market, t: int, u: int, x: FeedEvent, y: FeedEvent)
    requires m.Valid() && n.Valid() && AgreeUpTo(m, n, t) && u <= t
    requires IsEvent(m, u, x) && IsEvent(n, u, y)
    ensures SameEvent(x, y)
  {
    AgreeEarlier(m, n, t, u);
    AgreeEvents(m, n, u, x, y);
  }
}
