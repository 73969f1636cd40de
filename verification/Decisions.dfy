/** When an order fills, waits or expires, and what it is decided on (backtesting/engine.py,
    execution.py), in the fields of orders, bars and the configuration. */
module Decisions {
  import opened Prelude
  import opened Models
  import opened Portfolios
  import opened Execution
  import opened MarketData
  import opened Feed
  import opened Engine

  // ---------------------------------------------------------------- one order at one event

  /** int(volume * cap): the largest whole number within the capped volume. */
  lemma CapacityIsWhole(bar: Bar, cfg: BacktestConfig) returns (shares: int)
    ensures Capacity(bar, cfg) == shares as real
    ensures shares as real <= bar.volume * cfg.execution.participationCap < shares as real + 1.0
  {
    shares := SharesAreWhole(bar.volume, cfg.execution.participationCap);
  }

  lemma SharesAreWhole(volume: real, cap: real) returns (shares: int)
    ensures WholeShares(volume, cap) == shares as real
    ensures shares as real <= volume * cap < shares as real + 1.0
  {
    shares := (volume * cap).Floor;
  }

  /** What is left of the bar of `s` for the rest of a pass. */
  function LeftOf(p: Pass, ev: FeedEvent, s: string, cfg: BacktestConfig): real
    requires s in ev.newBars
  {
    if s in p.capacity then p.capacity[s] else Capacity(ev.newBars[s], cfg)
  }

  /** Past its expiry. */
  predicate IsPast(o: PendingOrder, ev: FeedEvent) {
    o.expiresTsNs.Some? && o.expiresTsNs.value < ev.tsNs
  }

  /** Its symbol has a bar, which comes after the decision and not before the order is eligible. */
  predicate IsDue(o: PendingOrder, ev: FeedEvent) {
    o.intent.symbol in ev.newBars && o.createdTsNs < ev.tsNs && o.eligibleTsNs <= ev.tsNs
  }

  /** The order can be filled at the event with that quantity and price. */
  ghost predicate CanFill(p: Pass, o: PendingOrder, ev: FeedEvent, cfg: BacktestConfig, qty: real, price: real)
    requires OrderOk(o) && o.intent.symbol in ev.newBars
  {
    && Admissible(o, ev.newBars[o.intent.symbol], p.portfolio.Quantity(o.intent.symbol), cfg.execution)
    && qty > 0.0 && KeepsLimit(o.intent, price)
    && (o.intent.side == BUY && cfg.execution.enforceCash && p.portfolio.Quantity(o.intent.symbol) >= 0.0 ==>
          Bill(cfg.cost, qty, price) <= p.portfolio.cash)
  }

  lemma DueOrderFillsIff(p: Pass, o: PendingOrder, ev: FeedEvent, cfg: BacktestConfig) returns (qty: real, price: real)
    requires p.portfolio.Ok() && OrderOk(o) && EventOk(ev) && !IsPast(o, ev) && IsDue(o, ev)
    ensures qty == Tradable(o, p.portfolio.Quantity(o.intent.symbol), LeftOf(p, ev, o.intent.symbol, cfg))
    ensures price == ExecutablePrice(o, ev.newBars[o.intent.symbol],
                                     RecentCloses(ev, o.intent.symbol, cfg.cost.volLookback + 1), qty,
                                     cfg.cost, cfg.execution, cfg.maths)
    ensures var n := ProcessOrder(p, o, ev, cfg);
      && (|n.fills| == |p.fills| + 1 <==> CanFill(p, o, ev, cfg, qty, price))
      && (|n.fills| == |p.fills| + 1 ==> n.fills[|p.fills|].quantity == qty && n.fills[|p.fills|].price == price)
      && (|n.fills| == |p.fills| || |n.fills| == |p.fills| + 1)
  {
    var s := o.intent.symbol;
    var bar, position := ev.newBars[s], p.portfolio.Quantity(s);
    var closes := RecentCloses(ev, s, cfg.cost.volLookback + 1);
    qty := Tradable(o, position, LeftOf(p, ev, s, cfg));
    price := ExecutablePrice(o, bar, closes, qty, cfg.cost, cfg.execution, cfg.maths);
    AttemptFillsIff(o, bar, closes, LeftOf(p, ev, s, cfg), position, p.portfolio.cash,
                    cfg.cost, cfg.execution, cfg.maths, qty, price);
  }

  /** An order past its expiry is refused, and one that is not due waits as it is. */
  lemma OtherOrdersWait(p: Pass, o: PendingOrder, ev: FeedEvent, cfg: BacktestConfig)
    requires p.portfolio.Ok() && OrderOk(o) && EventOk(ev)
    ensures var n := ProcessOrder(p, o, ev, cfg);
      && (IsPast(o, ev) ==>
            n == p.(rejections := p.rejections
                      + [Rejection(o.orderId, o.intent.symbol, ev.tsNs, "expired", o.remaining)]))
      && (!IsPast(o, ev) && !IsDue(o, ev) ==> n == p.(stillOpen := p.stillOpen + [o]))
  {
  }

  /** What becomes of an intent for a known symbol: withheld for too low an omega, refused while the symbol
      has no bar, or queued whole under the next id. */
  lemma IntentBecomes(r: Run, intent: OrderIntent, ev: FeedEvent, cfg: BacktestConfig)
    requires EventOk(ev) && intent.symbol in ev.view.histories
    ensures EnqueueOne(r, intent, ev, cfg).Ok?
    ensures var n, h := EnqueueOne(r, intent, ev, cfg).value, ev.view.histories[intent.symbol];
      if intent.omega.Some? && cfg.execution.omegaThreshold.Some?
         && intent.omega.value < cfg.execution.omegaThreshold.value
      then n == r.(abstained := r.abstained + [intent])
      else if h.Len() == 0 then
        n == r.(nextOrderId := r.nextOrderId + 1, tickets := r.tickets + [Ticket(intent, None)],
                rejections := r.rejections
                  + [Rejection(r.nextOrderId, intent.symbol, ev.tsNs, "no_market_data", intent.quantity)])
      else
        && |n.pending| == |r.pending| + 1
        && var o := n.pending[|r.pending|];
        && o.orderId == r.nextOrderId && o.intent == intent && o.remaining == intent.quantity
        && n == r.(nextOrderId := r.nextOrderId + 1, tickets := r.tickets + [Ticket(intent, Some(o))],
                   pending := r.pending + [o], drawn := n.drawn)
  {
  }

  // ---------------------------------------------------------------- what an order is decided on

  /** How many of the tickets became orders. */
  function Placed(tickets: seq<Ticket>): nat {
    if tickets == [] then 0
    else Placed(tickets[..|tickets| - 1]) + if tickets[|tickets| - 1].order.Some? then 1 else 0
  }

  /** The order was made at an event, on the close and regime of the newest bar of its symbol; it may
      execute after the latency and the draw, and lapses after its own lifetime or the default one. */
  ghost predicate Decided(m: Market, o: PendingOrder, cfg: BacktestConfig, draws: nat) {
    && o.createdTsNs in m.timeline && o.intent.symbol in m.series
    && (exists i: nat :: Newest(m.series[o.intent.symbol].bars, o.createdTsNs, i)
          && o.decisionPrice == m.series[o.intent.symbol].bars[i].close
          && o.regime == m.series[o.intent.symbol].bars[i].regime)
    && o.eligibleTsNs == o.createdTsNs + cfg.execution.latencyNs
                         + (if cfg.execution.latencyJitterNs == 0 then 0 else cfg.draw(draws))
    && (o.intent.validForNs.Some? ==> o.expiresTsNs == Some(o.createdTsNs + o.intent.validForNs.value))
    && (o.intent.validForNs.None? ==>
          if cfg.execution.defaultTtlNs.None? then o.expiresTsNs.None?
          else o.expiresTsNs == Some(o.createdTsNs + cfg.execution.defaultTtlNs.value))
  }

  /** Every ticket's order is decided so, with one draw for each order before it. */
  ghost predicate AllDecided(m: Market, r: Run, cfg: BacktestConfig) {
    && r.drawn == (if cfg.execution.latencyJitterNs == 0 then 0 else Placed(r.tickets))
    && forall k :: 0 <= k < |r.tickets| && r.tickets[k].order.Some? ==>
         Decided(m, r.tickets[k].order.value, cfg, Placed(r.tickets[..k]))
  }

  lemma ShownIsNewest(m: Market, ev: FeedEvent, s: string, latest: Bar)
    requires m.Valid() && IsEvent(m, ev.tsNs, ev) && s in m.series && ev.view.histories[s].Latest() == Some(latest)
    ensures exists i: nat :: Newest(m.series[s].bars, ev.tsNs, i) && latest == m.series[s].bars[i]
  {
    LatestIsNewest(ev.view.histories[s]);
  }

  lemma AcceptIsDecided(m: Market, r: Run, intent: OrderIntent, latest: Bar, ev: FeedEvent, cfg: BacktestConfig)
    requires m.Valid() && IsEvent(m, ev.tsNs, ev) && ev.tsNs in m.timeline && intent.symbol in m.series
    requires ev.view.histories[intent.symbol].Latest() == Some(latest)
    requires r.drawn == (if cfg.execution.latencyJitterNs == 0 then 0 else Placed(r.tickets))
    ensures Decided(m, Accept(r, intent, latest, ev, cfg), cfg, Placed(r.tickets))
  {
    ShownIsNewest(m, ev, intent.symbol, latest);
  }

  lemma OneMoreTicket(m: Market, r: Run, n: Run, t: Ticket, cfg: BacktestConfig)
    requires AllDecided(m, r, cfg) && n.tickets == r.tickets + [t]
    requires n.drawn == r.drawn + (if t.order.Some? && cfg.execution.latencyJitterNs != 0 then 1 else 0)
    requires t.order.Some? ==> Decided(m, t.order.value, cfg, Placed(r.tickets))
    ensures AllDecided(m, n, cfg)
  {
    assert n.tickets[..|r.tickets|] == r.tickets;
    forall k | 0 <= k < |n.tickets| && n.tickets[k].order.Some?
      ensures Decided(m, n.tickets[k].order.value, cfg, Placed(n.tickets[..k]))
    {
      if k < |r.tickets| {
        assert n.tickets[..k] == r.tickets[..k];
      }
    }
  }

  lemma EnqueueOneDecides(m: Market, r: Run, intent: OrderIntent, ev: FeedEvent, cfg: BacktestConfig)
    requires m.Valid() && EventOk(ev) && IsEvent(m, ev.tsNs, ev) && ev.tsNs in m.timeline && AllDecided(m, r, cfg)
    requires EnqueueOne(r, intent, ev, cfg).Ok?
    ensures AllDecided(m, EnqueueOne(r, intent, ev, cfg).value, cfg)
  {
    if !Abstains(intent, cfg) {
      match ev.view.histories[intent.symbol].Latest()
      case None => OneMoreTicket(m, r, WithoutData(r, intent, ev), Ticket(intent, None), cfg);
      case Some(latest) =>
        AcceptIsDecided(m, r, intent, latest, ev, cfg);
        var o := Accept(r, intent, latest, ev, cfg);
        OneMoreTicket(m, r, WithOrder(r, intent, latest, ev, cfg), Ticket(intent, Some(o)), cfg);
    }
  }

  lemma {:induction false} EnqueueDecides(
    m: Market, r: Run, intents: seq<OrderIntent>, ev: FeedEvent, cfg: BacktestConfig)
    requires m.Valid() && EventOk(ev) && IsEvent(m, ev.tsNs, ev) && ev.tsNs in m.timeline && AllDecided(m, r, cfg)
    requires Enqueued(r, intents, ev, cfg).Ok?
    ensures AllDecided(m, Enqueued(r, intents, ev, cfg).value, cfg)
    decreases |intents|
  {
    if intents != [] {
      var front := intents[..|intents| - 1];
      EnqueueDecides(m, r, front, ev, cfg);
      EnqueueOneDecides(m, Enqueued(r, front, ev, cfg).value, intents[|intents| - 1], ev, cfg);
    }
  }

  lemma EventDecides(m: Market, l: Loop, ev: FeedEvent, strategy: Strategy, cfg: BacktestConfig, n: Loop)
    requires m.Valid() && EventOk(ev) && IsEvent(m, ev.tsNs, ev) && ev.tsNs in m.timeline && LoopOk(l)
    requires AllDecided(m, l.run, cfg) && OnEvent(l, ev, strategy, cfg) == Ok(n)
    ensures AllDecided(m, n.run, cfg)
  {
    if !WarmingUp(ev, cfg) {
      var f := AfterFills(l.run, ev, cfg);
      var seen := l.seen + [Observation(ev.view, TakeSnapshot(f.portfolio, ev.tsNs, f.marks))];
      EnqueueDecides(m, f, strategy(seen), ev, cfg);
    }
  }

  lemma NothingDecidedYet(m: Market, events: seq<FeedEvent>, strategy: Strategy, cfg: BacktestConfig)
    requires EventsOk(events) && RunTo(events, 0, strategy, cfg).Ok?
    ensures AllDecided(m, RunTo(events, 0, strategy, cfg).value.run, cfg)
  {
  }

  /** In every run over the feed of a market every order ever handed out was decided on the newest bar of
      its symbol at the event that made it, becomes eligible after exactly the configured latency and its own
      draw, and expires after its own lifetime or the default one. */
  lemma {:induction false} EveryOrderIsDecided(
    m: Market, events: seq<FeedEvent>, k: nat, strategy: Strategy, cfg: BacktestConfig)
    requires m.Valid() && IsFeed(m, events) && EventsOk(events) && k <= |events|
    requires RunTo(events, k, strategy, cfg).Ok?
    ensures AllDecided(m, RunTo(events, k, strategy, cfg).value.run, cfg)
    decreases k
  {
    if k == 0 {
      NothingDecidedYet(m, events, strategy, cfg);
    } else {
      var l, n := StepBefore(events, k, strategy, cfg);
      var ev := EventBefore(m, events, k);
      EveryOrderIsDecided(m, events, k - 1, strategy, cfg);
      EventDecides(m, l, ev, strategy, cfg, n);
    }
  }
}
