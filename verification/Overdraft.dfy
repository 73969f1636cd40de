/** A run that overdraws whenever the commission allows it (backtesting/engine.py, execution.py):
    three flat bars, a buy that spends everything, and a sale too small for its commission. */
module Overdraft {
  import opened Prelude
  import opened Models
  import opened Portfolios
  import opened Execution
  import opened MarketData
  import opened Feed
  import opened Engine
  import opened Orders
  import opened Runs
  import opened Solvency

  const SYMBOL := "A"

  /** Three bars at one micro, `step` apart, of equal volume, and the two quantities traded. */
  datatype Scene = Scene(start: int, step: int, volume: real, bought: real, sold: real)
  {
    predicate Valid() {
      step > 0 && volume > 0.0 && 0.0 < sold <= bought
    }

    function Stamp(k: nat): int {
      if k == 0 then start else Stamp(k - 1) + step
    }

    function At(k: nat): Bar {
      Bar(SYMBOL, Stamp(k), MICRO, MICRO, MICRO, MICRO, volume, REGIME_UNKNOWN)
    }

    function History(): Series {
      Series(SYMBOL, [At(0), At(1), At(2)])
    }

    function Market(): MarketData.Market {
      MarketData.Market(map[SYMBOL := History()], [Stamp(0), Stamp(1), Stamp(2)])
    }

    function Event(k: nat): FeedEvent
      requires k < 3
    {
      var view := MarketView(Stamp(k), map[SYMBOL := SymbolHistory(History(), k + 1, Stamp(k))]);
      FeedEvent(Stamp(k), map[SYMBOL := At(k)], view)
    }

    function Events(): seq<FeedEvent> {
      [Event(0), Event(1), Event(2)]
    }

    function Intent(side: Side, quantity: real): OrderIntent
      requires Valid() && quantity > 0.0
    {
      OrderIntent(SYMBOL, side, quantity, None, None, Some(step), "")
    }

    /** Buy at the first event, sell at the second. */
    function Trader(): Strategy
      requires Valid()
    {
      seen => if |seen| == 1 then [Intent(BUY, bought)] else if |seen| == 2 then [Intent(SELL, sold)] else []
    }
  }

  // ---------------------------------------------------------------- the market and its feed

  lemma StampsIncrease(sc: Scene)
    requires sc.Valid()
    ensures sc.Stamp(0) == sc.start && sc.Stamp(1) == sc.start + sc.step && sc.Stamp(2) == sc.start + sc.step + sc.step
  {
  }

  lemma SceneIsMarket(sc: Scene)
    requires sc.Valid()
    ensures sc.Market().Valid()
  {
    StampsIncrease(sc);
    var m := sc.Market();
    var bars := m.series[SYMBOL].bars;
    assert InOrder(bars);
    forall t ensures t in m.timeline <==> Stamped(m.series, t) {
      if t in m.timeline {
        var i :| 0 <= i < 3 && m.timeline[i] == t;
        assert SYMBOL in m.series && bars[i].timestampNs == t;
      }
      if Stamped(m.series, t) {
        var s, i :| s in m.series && 0 <= i < |m.series[s].bars| && m.series[s].bars[i].timestampNs == t;
        assert m.timeline[i] == t;
      }
    }
    assert SYMBOL in m.series;
  }

  lemma SceneIsFeed(sc: Scene)
    requires sc.Valid()
    ensures sc.Market().Valid() && IsFeed(sc.Market(), sc.Events()) && EventsOk(sc.Events())
  {
    SceneIsMarket(sc);
    var m := sc.Market();
    forall k | 0 <= k < 3 ensures IsEvent(m, m.timeline[k], sc.Events()[k]) {
      SceneEventIs(sc, k);
    }
    FeedIsOk(m, sc.Events());
  }

  lemma SceneEventIs(sc: Scene, k: nat)
    requires sc.Valid() && k < 3
    ensures IsEvent(sc.Market(), sc.Stamp(k), sc.Event(k)) && sc.Market().timeline[k] == sc.Stamp(k)
  {
    StampsIncrease(sc);
    var m := sc.Market();
    var bars := m.series[SYMBOL].bars;
    assert InOrder(bars);
    assert bars[k].timestampNs == sc.Stamp(k);
    UpToIs(bars, sc.Stamp(k), k + 1);
    forall s ensures IsNewBar(m, sc.Stamp(k), sc.Event(k).newBars, s) {
    }
  }

  lemma QuietCloses(sc: Scene, k: nat, n: nat)
    requires sc.Valid() && k < 3 && EventOk(sc.Event(k))
    ensures Flat(RecentCloses(sc.Event(k), SYMBOL, n))
  {
    var bars := sc.Event(k).view.histories[SYMBOL].Tail(Some(n)).value;
    forall i | 0 <= i < |bars| ensures bars[i].close == MICRO {
      assert bars[i] in sc.History().bars;
    }
  }

  // ---------------------------------------------------------------- one fill

  /** An order that is filled whole: the bar offers enough and the side rules let it through. */
  predicate FillsWhole(
    o: PendingOrder, bar: Bar, left: real, position: real, cash: real, price: real, cost: CostModel) {
    && o.decisionPrice == MICRO && bar.open == MICRO && bar.close == MICRO && o.intent.priceLimit.None?
    && 0.0 < o.remaining <= left
    && (|| (o.intent.side == BUY && o.remaining * price + Commission(cost, o.remaining, o.remaining * price) <= cash)
        || (o.intent.side == SELL && o.remaining <= position))
  }

  lemma AttemptWhole(
    o: PendingOrder, bar: Bar, closes: seq<real>, left: real, position: real, cash: real, cost: CostModel,
    cfg: ExecutionConfig, maths: Maths, price: real)
    requires price == ExecutablePrice(o, bar, closes, o.remaining, cost, cfg, maths)
    requires FillsWhole(o, bar, left, position, cash, price, cost)
    ensures AttemptFill(o, bar, closes, left, position, cash, cost, cfg, maths)
         == Settle(o, bar, o.remaining, price, position, cash, cost, cfg)
  {
    assert ReferencePrice(bar, cfg.fillPrice) / o.decisionPrice == 1.0;
    if cfg.collarBps.Some? {
      MulNonNegative(cfg.collarBps.value, BPS);
    }
  }

  lemma SettleWhole(
    o: PendingOrder, bar: Bar, left: real, position: real, cash: real, cost: CostModel, cfg: ExecutionConfig,
    price: real)
    requires FillsWhole(o, bar, left, position, cash, price, cost)
    ensures var a := Settle(o, bar, o.remaining, price, position, cash, cost, cfg);
      && a.fill.Some? && a.order.None? && a.rejection.None?
      && var f := a.fill.value;
         f.quantity == o.remaining && f.price == price && f.side == o.intent.side && f.symbol == o.intent.symbol
         && f.fee == Commission(cost, o.remaining, o.remaining * price)
  {
  }

  /** A fill of the whole order is booked, and nothing stays open. */
  lemma BookWhole(p: Pass, bar: Bar, f: Fill, cfg: BacktestConfig)
    requires p.portfolio.Ok() && f.quantity > 0.0
    ensures var n := Book(p, bar, FillAttempt(Some(f), None, None), cfg);
      n.stillOpen == p.stillOpen && Moved(p.portfolio, n.portfolio, f)
  {
    PostedCash(p.portfolio, f);
    EffectBalances(p.portfolio, f);
  }

  /** The commission on that many shares at that price. */
  function FeeAt(cost: CostModel, quantity: real, price: real): real {
    Commission(cost, quantity, quantity * price)
  }

  /** Cash and holding after a fill. */
  predicate Moved(p: Portfolio, n: Portfolio, f: Fill) {
    && n.cash == p.cash - f.fee + (if f.side == BUY then -f.Notional() else f.Notional())
    && n.Quantity(f.symbol) == p.Quantity(f.symbol) + f.SignedQuantity()
  }

  /** What the one pending order of a scene does at an event. */
  lemma ProcessWhole(p: Pass, o: PendingOrder, ev: FeedEvent, cfg: BacktestConfig, price: real) returns (f: Fill)
    requires p.portfolio.Ok() && OrderOk(o) && EventOk(ev) && !Expired(o, ev) && !Waits(o, ev) && p.capacity == map[]
    requires price == PriceAt(o, ev, cfg)
    requires FillsWhole(o, ev.newBars[o.intent.symbol], Capacity(ev.newBars[o.intent.symbol], cfg),
                        p.portfolio.Quantity(o.intent.symbol), p.portfolio.cash, price, cfg.cost)
    ensures f.quantity == o.remaining && f.price == price && f.side == o.intent.side && f.symbol == o.intent.symbol
    ensures f.fee == FeeAt(cfg.cost, o.remaining, price)
    ensures var n := ProcessOrder(p, o, ev, cfg); n.stillOpen == p.stillOpen && Moved(p.portfolio, n.portfolio, f)
  {
    var bar := ev.newBars[o.intent.symbol];
    var position, cash := p.portfolio.Quantity(o.intent.symbol), p.portfolio.cash;
    AttemptWhole(o, bar, RecentCloses(ev, o.intent.symbol, cfg.cost.volLookback + 1), Capacity(bar, cfg),
                 position, cash, cfg.cost, cfg.execution, cfg.maths, price);
    SettleWhole(o, bar, Capacity(bar, cfg), position, cash, cfg.cost, cfg.execution, price);
    var a := Settle(o, bar, o.remaining, price, position, cash, cfg.cost, cfg.execution);
    f := a.fill.value;
    TriesOnce(p, o, ev, cfg, a);
    assert a == FillAttempt(Some(f), None, None);
    BookWhole(p, bar, f, cfg);
  }

  /** The price a whole fill of the order would get at the event. */
  function PriceAt(o: PendingOrder, ev: FeedEvent, cfg: BacktestConfig): real
    requires EventOk(ev) && o.intent.symbol in ev.newBars
  {
    ExecutablePrice(o, ev.newBars[o.intent.symbol], RecentCloses(ev, o.intent.symbol, cfg.cost.volLookback + 1),
                    o.remaining, cfg.cost, cfg.execution, cfg.maths)
  }

  /** The first attempt of a pass has all of the bar's capacity before it. */
  lemma TriesOnce(p: Pass, o: PendingOrder, ev: FeedEvent, cfg: BacktestConfig, a: FillAttempt)
    requires p.portfolio.Ok() && OrderOk(o) && EventOk(ev) && !Expired(o, ev) && !Waits(o, ev) && p.capacity == map[]
    requires a.fill.Some? ==> a.fill.value.quantity > 0.0
    requires var bar := ev.newBars[o.intent.symbol];
      a == AttemptFill(o, bar, RecentCloses(ev, o.intent.symbol, cfg.cost.volLookback + 1), Capacity(bar, cfg),
                       p.portfolio.Quantity(o.intent.symbol), p.portfolio.cash, cfg.cost, cfg.execution, cfg.maths)
    ensures ProcessOrder(p, o, ev, cfg) == Book(p, ev.newBars[o.intent.symbol], a, cfg)
  {
    assert Attempt(p, o, ev, cfg) == a;
  }

  // ---------------------------------------------------------------- one event

  /** The scene leaves time for each order to become eligible before the next bar. */
  predicate Paced(sc: Scene, cfg: BacktestConfig) {
    && sc.step > cfg.execution.latencyNs + cfg.draw(0) + cfg.draw(1)
    && (cfg.tradingStartTsNs.Some? ==> cfg.tradingStartTsNs.value <= sc.start)
  }

  function Intents(sc: Scene, k: nat): seq<OrderIntent>
    requires sc.Valid()
  {
    if k == 0 then [sc.Intent(BUY, sc.bought)] else if k == 1 then [sc.Intent(SELL, sc.sold)] else []
  }

  /** A run of the scene after `k` events: one draw for each order placed. */
  ghost predicate Reached(sc: Scene, k: nat, l: Loop, cfg: BacktestConfig) {
    && sc.Valid() && EventsOk(sc.Events()) && k <= 3
    && RunTo(sc.Events(), k, sc.Trader(), cfg) == Ok(l) && |l.seen| == k
    && (cfg.execution.latencyJitterNs != 0 && k < 2 ==> l.run.drawn == k)
  }

  /** The order placed at event `k`, as it waits for the next one. */
  predicate Queued(o: PendingOrder, sc: Scene, k: nat, side: Side, quantity: real) {
    && o.intent.side == side && o.intent.symbol == SYMBOL && o.intent.priceLimit.None?
    && o.remaining == quantity && o.decisionPrice == MICRO
    && o.createdTsNs == sc.Stamp(k) && o.eligibleTsNs <= sc.Stamp(k) + sc.step
    && o.expiresTsNs == Some(sc.Stamp(k) + sc.step)
  }

  lemma EnqueueOneIntent(r: Run, sc: Scene, k: nat, intent: OrderIntent, cfg: BacktestConfig)
    requires k < 3 && EventOk(sc.Event(k)) && intent.symbol == SYMBOL && intent.omega.None?
    ensures Enqueued(r, [intent], sc.Event(k), cfg) == Ok(WithOrder(r, intent, sc.At(k), sc.Event(k), cfg))
  {
    var ev := sc.Event(k);
    assert [intent][..0] == [];
    assert Enqueued(r, [], ev, cfg) == Ok(r);
    assert ev.view.histories[SYMBOL].Latest() == Some(sc.At(k));
  }

  /** The state when the strategy is asked at event `k`. */
  ghost function Asked(sc: Scene, k: nat, l: Loop, cfg: BacktestConfig): Run
    requires k < 3 && EventOk(sc.Event(k)) && LoopOk(l)
  {
    AfterFills(l.run, sc.Event(k), cfg)
  }

  /** The event is processed and the strategy's intents are queued: no accounting error can occur. */
  lemma Continue(sc: Scene, k: nat, l: Loop, cfg: BacktestConfig, next: Run)
    requires k < 3 && EventOk(sc.Event(k)) && LoopOk(l) && Reached(sc, k, l, cfg) && Paced(sc, cfg)
    requires Enqueued(Asked(sc, k, l, cfg), Intents(sc, k), sc.Event(k), cfg) == Ok(next)
    ensures RunTo(sc.Events(), k + 1, sc.Trader(), cfg).Ok?
    ensures var n := RunTo(sc.Events(), k + 1, sc.Trader(), cfg).value; |n.seen| == k + 1 && n.run == next
  {
    var ev := sc.Event(k);
    EventIsLate(sc, k, cfg);
    EveryRunBalances(sc.Events(), k + 1, sc.Trader(), cfg);
    EventsAre(sc, k);
    RunToNext(sc.Events(), k, l, sc.Trader(), cfg);
    StrategyAnswers(sc, k, l, ev, cfg, Asked(sc, k, l, cfg));
  }

  lemma EventsAre(sc: Scene, k: nat)
    requires k < 3
    ensures |sc.Events()| == 3 && sc.Events()[k] == sc.Event(k)
  {
  }

  lemma StrategyAnswers(sc: Scene, k: nat, l: Loop, ev: FeedEvent, cfg: BacktestConfig, f: Run)
    requires sc.Valid() && |l.seen| == k && EventOk(ev) && LoopOk(l) && !WarmingUp(ev, cfg)
    requires f == AfterFills(l.run, ev, cfg) && Enqueued(f, Intents(sc, k), ev, cfg).Ok?
    ensures var r := OnEvent(l, ev, sc.Trader(), cfg);
      r != Err(AccountingInvariantError) ==>
        r.Ok? && |r.value.seen| == k + 1 && Ok(r.value.run) == Enqueued(f, Intents(sc, k), ev, cfg)
  {
    var seen := l.seen + [Observation(ev.view, TakeSnapshot(f.portfolio, ev.tsNs, f.marks))];
    assert |seen| == k + 1 && sc.Trader()(seen) == Intents(sc, k);
  }

  lemma EventIsLate(sc: Scene, k: nat, cfg: BacktestConfig)
    requires sc.Valid() && Paced(sc, cfg) && k < 3
    ensures !WarmingUp(sc.Event(k), cfg)
  {
    StampsIncrease(sc);
  }

  /** At an event with nothing pending the books do not move; with one order they move by its pass. */
  lemma AfterOne(r: Run, ev: FeedEvent, cfg: BacktestConfig)
    requires r.portfolio.Ok() && OrdersOk(r.pending) && EventOk(ev) && |r.pending| <= 1
    ensures var f := AfterFills(r, ev, cfg);
      && f.drawn == r.drawn
      && if r.pending == [] then f.portfolio == r.portfolio && f.pending == []
         else var n := ProcessOrder(Opening(r.(marks := UpdateMarks(r.marks, ev.newBars))), r.pending[0], ev, cfg);
              f.portfolio == n.portfolio && f.pending == n.stillOpen
  {
    var p := Opening(r.(marks := UpdateMarks(r.marks, ev.newBars)));
    if r.pending != [] {
      assert r.pending[..0] == [];
      assert ProcessOrders(p, [], ev, cfg) == p;
    }
  }

  /** One more event of a scene with nothing left pending: the intent is queued. */
  lemma PlaceOrder(sc: Scene, k: nat, l: Loop, cfg: BacktestConfig) returns (n: Loop)
    requires k < 2 && EventOk(sc.Event(k)) && LoopOk(l) && Reached(sc, k, l, cfg) && Paced(sc, cfg)
    requires Asked(sc, k, l, cfg).pending == [] && Asked(sc, k, l, cfg).drawn == l.run.drawn
    ensures Reached(sc, k + 1, n, cfg) && LoopOk(n) && |n.run.pending| == 1
    ensures n.run.portfolio == Asked(sc, k, l, cfg).portfolio
    ensures if k == 0 then Queued(n.run.pending[0], sc, k, BUY, sc.bought)
            else Queued(n.run.pending[0], sc, k, SELL, sc.sold)
  {
    var f, intent := Asked(sc, k, l, cfg), Intents(sc, k)[0];
    assert Intents(sc, k) == [intent];
    EnqueueOneIntent(f, sc, k, intent, cfg);
    Continue(sc, k, l, cfg, WithOrder(f, intent, sc.At(k), sc.Event(k), cfg));
    n := RunTo(sc.Events(), k + 1, sc.Trader(), cfg).value;
    QueuedIs(f, sc, k, intent, cfg);
  }

  lemma QueuedIs(f: Run, sc: Scene, k: nat, intent: OrderIntent, cfg: BacktestConfig)
    requires sc.Valid() && Paced(sc, cfg) && k < 2 && Intents(sc, k) == [intent]
    requires cfg.execution.latencyJitterNs != 0 ==> f.drawn == k
    ensures var o := Accept(f, intent, sc.At(k), sc.Event(k), cfg);
      Queued(o, sc, k, if k == 0 then BUY else SELL, if k == 0 then sc.bought else sc.sold)
  {
  }

  /** The price of trading that quantity of a flat bar at one micro. */
  function QuietPrice(cfg: BacktestConfig, quantity: real, volume: real, side: Side): real {
    QuotedPrice(MICRO, QuietSlip(cfg.cost, quantity, volume, cfg.maths), side == BUY)
  }

  lemma QuietPriceAt(sc: Scene, k: nat, o: PendingOrder, cfg: BacktestConfig)
    requires k < 3 && EventOk(sc.Event(k)) && sc.Valid() && FlatIsQuiet(cfg.maths) && o.intent.symbol == SYMBOL
    ensures PriceAt(o, sc.Event(k), cfg) == QuietPrice(cfg, o.remaining, sc.volume, o.intent.side)
  {
    QuietCloses(sc, k, cfg.cost.volLookback + 1);
    var closes := RecentCloses(sc.Event(k), SYMBOL, cfg.cost.volLookback + 1);
    assert cfg.maths.sigma(closes, sc.At(k)) == 0.0;
    assert ReferencePrice(sc.At(k), cfg.execution.fillPrice) == MICRO;
  }

  lemma QueuedIsDue(o: PendingOrder, sc: Scene, k: nat, side: Side, quantity: real)
    requires sc.Valid() && 0 < k < 3 && Queued(o, sc, k - 1, side, quantity)
    ensures !Expired(o, sc.Event(k)) && !Waits(o, sc.Event(k))
  {
  }

  /** The order queued at the event before can be filled whole at that price. */
  predicate Ready(o: PendingOrder, sc: Scene, k: nat, held: real, cash: real, price: real, cfg: BacktestConfig) {
    && 0 < k < 3 && Queued(o, sc, k - 1, o.intent.side, o.remaining)
    && price == QuietPrice(cfg, o.remaining, sc.volume, o.intent.side)
    && FillsWhole(o, sc.At(k), Capacity(sc.At(k), cfg), held, cash, price, cfg.cost)
  }

  /** The order queued at one event is filled whole at the next. */
  lemma FillAt(sc: Scene, k: nat, l: Loop, o: PendingOrder, price: real, cfg: BacktestConfig) returns (f: Fill)
    requires 0 < k < 3 && EventOk(sc.Event(k)) && LoopOk(l) && sc.Valid() && FlatIsQuiet(cfg.maths)
    requires l.run.pending == [o]
    requires Ready(o, sc, k, l.run.portfolio.Quantity(SYMBOL), l.run.portfolio.cash, price, cfg)
    ensures f.quantity == o.remaining && f.price == price && f.side == o.intent.side && f.symbol == SYMBOL
    ensures f.fee == FeeAt(cfg.cost, o.remaining, price)
    ensures var n := Asked(sc, k, l, cfg);
      n.pending == [] && n.drawn == l.run.drawn && Moved(l.run.portfolio, n.portfolio, f)
  {
    var ev := sc.Event(k);
    QuietPriceAt(sc, k, o, cfg);
    QueuedIsDue(o, sc, k, o.intent.side, o.remaining);
    assert l.run.pending[0] == o;
    var p := Opening(l.run.(marks := UpdateMarks(l.run.marks, ev.newBars)));
    f := ProcessWhole(p, o, ev, cfg, price);
    AfterOne(l.run, ev, cfg);
  }

  // ---------------------------------------------------------------- the run

  /** A scene in which the buy spends everything and the sale brings in less than it costs. */
  ghost predicate Overdraws(sc: Scene, cfg: BacktestConfig) {
    && sc.Valid() && Paced(sc, cfg) && Drains(cfg, sc.bought, sc.volume)
    && CostsMore(cfg.cost, sc.sold) && cfg.initialCash > 0.0
  }

  /** Selling so many shares at one micro brings in less than its commission. */
  predicate CostsMore(cost: CostModel, quantity: real) {
    quantity * MICRO < FeeAt(cost, quantity, MICRO)
  }

  lemma FirstEvent(sc: Scene, cfg: BacktestConfig) returns (l: Loop)
    requires Overdraws(sc, cfg) && EventsOk(sc.Events()) && EventOk(sc.Event(0))
    ensures Reached(sc, 1, l, cfg) && LoopOk(l) && |l.run.pending| == 1
    ensures Queued(l.run.pending[0], sc, 0, BUY, sc.bought)
    ensures l.run.portfolio.cash == cfg.initialCash && l.run.portfolio.Quantity(SYMBOL) == 0.0
  {
    var start := Loop(Start(cfg.initialCash), []);
    assert Reached(sc, 0, start, cfg);
    AfterOne(start.run, sc.Event(0), cfg);
    l := PlaceOrder(sc, 0, start, cfg);
  }

  lemma BuyFills(sc: Scene, o: PendingOrder, held: real, cash: real, cfg: BacktestConfig) returns (price: real)
    requires sc.Valid() && Queued(o, sc, 0, BUY, sc.bought) && Drains(cfg, sc.bought, sc.volume)
    requires cash == cfg.initialCash
    ensures Spends(cfg.initialCash, cfg.cost, sc.bought, price)
    ensures Ready(o, sc, 1, held, cash, price, cfg)
  {
    FitsWhole(sc, 1, sc.bought, cfg);
    price := BuyPrice(cfg, sc.bought, sc.volume);
    assert Spends(cash, cfg.cost, sc.bought, price);
  }

  lemma FitsWhole(sc: Scene, k: nat, quantity: real, cfg: BacktestConfig)
    requires CapacityFits(sc.volume, cfg.execution.participationCap, sc.bought) && quantity <= sc.bought
    ensures quantity <= Capacity(sc.At(k), cfg)
  {
    assert sc.At(k).volume == sc.volume;
  }

  lemma BuyDrains(sc: Scene, p: Portfolio, n: Portfolio, f: Fill, price: real, cfg: BacktestConfig)
    requires Spends(cfg.initialCash, cfg.cost, sc.bought, price) && Moved(p, n, f) && p.cash == cfg.initialCash
    requires f.side == BUY && f.quantity == sc.bought && f.price == price && f.fee == FeeAt(cfg.cost, sc.bought, price)
    ensures n.cash == 0.0 && n.Quantity(f.symbol) == p.Quantity(f.symbol) + sc.bought
  {
  }

  /** At the second event the buy takes all the cash. */
  lemma BuyAt(sc: Scene, l: Loop, cfg: BacktestConfig)
    requires sc.Valid() && Drains(cfg, sc.bought, sc.volume) && FlatIsQuiet(cfg.maths) && EventOk(sc.Event(1))
    requires LoopOk(l)
    requires |l.run.pending| == 1 && Queued(l.run.pending[0], sc, 0, BUY, sc.bought)
    requires l.run.portfolio.cash == cfg.initialCash && l.run.portfolio.Quantity(SYMBOL) == 0.0
    ensures var n := Asked(sc, 1, l, cfg);
      n.pending == [] && n.drawn == l.run.drawn && n.portfolio.cash == 0.0 && n.portfolio.Quantity(SYMBOL) == sc.bought
  {
    var o := l.run.pending[0];
    assert l.run.pending == [o];
    var price := BuyFills(sc, o, l.run.portfolio.Quantity(SYMBOL), l.run.portfolio.cash, cfg);
    var f := FillAt(sc, 1, l, o, price, cfg);
    BuyDrains(sc, l.run.portfolio, Asked(sc, 1, l, cfg).portfolio, f, price, cfg);
  }

  lemma SecondEvent(sc: Scene, cfg: BacktestConfig) returns (l: Loop)
    requires Overdraws(sc, cfg) && FlatIsQuiet(cfg.maths) && EventsOk(sc.Events())
    requires EventOk(sc.Event(0)) && EventOk(sc.Event(1))
    ensures Reached(sc, 2, l, cfg) && LoopOk(l) && |l.run.pending| == 1
    ensures Queued(l.run.pending[0], sc, 1, SELL, sc.sold)
    ensures l.run.portfolio.cash == 0.0 && l.run.portfolio.Quantity(SYMBOL) == sc.bought
  {
    var before := FirstEvent(sc, cfg);
    BuyAt(sc, before, cfg);
    l := PlaceOrder(sc, 1, before, cfg);
  }

  lemma SaleFills(sc: Scene, o: PendingOrder, held: real, cash: real, price: real, cfg: BacktestConfig)
    requires sc.Valid() && Queued(o, sc, 1, SELL, sc.sold) && Drains(cfg, sc.bought, sc.volume) && held == sc.bought
    requires price == MICRO
    ensures Ready(o, sc, 2, held, cash, price, cfg)
  {
    QuietSlipIs(cfg.cost, sc.sold, sc.volume, cfg.maths);
    SalePriceIsMicro(QuietSlip(cfg.cost, sc.sold, sc.volume, cfg.maths));
    FitsWhole(sc, 2, sc.sold, cfg);
  }

  lemma SaleLoses(sc: Scene, p: Portfolio, n: Portfolio, f: Fill, cfg: BacktestConfig)
    requires CostsMore(cfg.cost, sc.sold) && Moved(p, n, f) && p.cash == 0.0
    requires f.side == SELL && f.quantity == sc.sold && f.price == MICRO && f.fee == FeeAt(cfg.cost, sc.sold, MICRO)
    ensures n.cash < 0.0
  {
  }

  /** At the third event the sale costs more than it brings. */
  lemma SellAt(sc: Scene, l: Loop, cfg: BacktestConfig)
    requires sc.Valid() && Drains(cfg, sc.bought, sc.volume) && FlatIsQuiet(cfg.maths) && EventOk(sc.Event(2))
    requires LoopOk(l)
    requires CostsMore(cfg.cost, sc.sold)
    requires |l.run.pending| == 1 && Queued(l.run.pending[0], sc, 1, SELL, sc.sold)
    requires l.run.portfolio.cash == 0.0 && l.run.portfolio.Quantity(SYMBOL) == sc.bought
    ensures Asked(sc, 2, l, cfg).portfolio.cash < 0.0
  {
    var o := l.run.pending[0];
    assert l.run.pending == [o];
    SaleFills(sc, o, l.run.portfolio.Quantity(SYMBOL), l.run.portfolio.cash, MICRO, cfg);
    var f := FillAt(sc, 2, l, o, MICRO, cfg);
    SaleLoses(sc, l.run.portfolio, Asked(sc, 2, l, cfg).portfolio, f, cfg);
  }

  lemma ThirdEvent(sc: Scene, cfg: BacktestConfig)
    requires Overdraws(sc, cfg) && FlatIsQuiet(cfg.maths) && EventsOk(sc.Events())
    requires EventOk(sc.Event(0)) && EventOk(sc.Event(1)) && EventOk(sc.Event(2))
    ensures var r := RunTo(sc.Events(), 3, sc.Trader(), cfg); r.Ok? && r.value.run.portfolio.cash < 0.0
  {
    var before := SecondEvent(sc, cfg);
    SellAt(sc, before, cfg);
    var asked := Asked(sc, 2, before, cfg);
    assert Enqueued(asked, [], sc.Event(2), cfg) == Ok(asked);
    Continue(sc, 2, before, cfg, asked);
  }

  /** The feed of a valid market on which a strategy's third event leaves cash below zero. */
  lemma OverdrawingRun(sc: Scene, cfg: BacktestConfig)
    requires Overdraws(sc, cfg) && FlatIsQuiet(cfg.maths)
    ensures sc.Market().Valid() && IsFeed(sc.Market(), sc.Events()) && EventsOk(sc.Events())
    ensures !SolventRun(sc.Events(), 3, sc.Trader(), cfg)
  {
    SceneIsFeed(sc);
    EventsAre(sc, 0);
    EventsAre(sc, 1);
    EventsAre(sc, 2);
    ThirdEvent(sc, cfg);
    CashIsReplayed(sc.Events(), 3, sc.Trader(), cfg);
  }

  /** A run that ends with negative cash was not solvent. */
  lemma CashIsReplayed(events: seq<FeedEvent>, k: nat, strategy: Strategy, cfg: BacktestConfig)
    requires EventsOk(events) && k <= |events| && RunTo(events, k, strategy, cfg).Ok?
    requires RunTo(events, k, strategy, cfg).value.run.portfolio.cash < 0.0
    ensures !SolventRun(events, k, strategy, cfg)
  {
    EveryRunBalances(events, k, strategy, cfg);
    var r := RunTo(events, k, strategy, cfg).value.run;
    assert r.fills[..|r.fills|] == r.fills;
    assert CashBefore(cfg.initialCash, r.fills, |r.fills|) == r.portfolio.cash;
  }

  lemma SceneExists(cfg: BacktestConfig) returns (sc: Scene)
    requires !FeesNeverOverdraw(cfg)
    ensures Overdraws(sc, cfg)
  {
    var quantity, volume := DrainExists(cfg);
    TooFewOverdraws(quantity, cfg.cost);
    var start := if cfg.tradingStartTsNs.Some? then cfg.tradingStartTsNs.value else 0;
    sc := Scene(start, cfg.execution.latencyNs + cfg.draw(0) + cfg.draw(1) + 1,
            volume, quantity, TooFew(quantity, cfg.cost));
  }

  /** With shorting off and the cash check on, cash stays non-negative in every run of every strategy
      on every market if and only if the commission allows it: no buy is ever affordable, or no sale
      can cost more than it brings. The slippage, the impact model, the latency, the collar, the cap
      and the other settings make no difference. */
  lemma EveryRunIsSolventIff(cfg: BacktestConfig)
    requires !cfg.execution.allowShort && cfg.execution.enforceCash && FlatIsQuiet(cfg.maths)
    ensures AlwaysSolvent(cfg) <==> FeesNeverOverdraw(cfg)
  {
    if FeesNeverOverdraw(cfg) {
      forall m: Market, events, k: nat, strategy | m.Valid() && IsFeed(m, events) && EventsOk(events) && k <= |events|
        ensures SolventRun(events, k, strategy, cfg)
      {
        if RunTo(events, k, strategy, cfg).Ok? {
          EveryRunIsSolvent(events, k, strategy, cfg);
        }
      }
    } else {
      var sc := SceneExists(cfg);
      OverdrawingRun(sc, cfg);
    }
  }

  // ---------------------------------------------------------------- an instance

  /** Cash of two, a minimum commission of one, everything else at rest. */
  function SmallAccount(): BacktestConfig {
    BacktestConfig(
      2.0, CostModel(0.0, 0.0, 1.0, 0.0, NONE, 0.0, 20),
      ExecutionConfig(0, 0, 1.0, None, CLOSE, None, false, true, None),
      Maths((closes, bar) => 0.0, x => 0.0), k => 0, None, true)
  }

  /** A million shares at one micro and the commission of one take the whole account; the sale of one
      share then costs one more. */
  lemma SmallSaleOverdraws()
    ensures var sc := Scene(0, 1, 1000000.0, 1000000.0, 1.0);
      && sc.Market().Valid() && IsFeed(sc.Market(), sc.Events()) && EventsOk(sc.Events())
      && !SolventRun(sc.Events(), 3, sc.Trader(), SmallAccount())
  {
    var sc, cfg := Scene(0, 1, 1000000.0, 1000000.0, 1.0), SmallAccount();
    MicroIsExact();
    assert BuyPrice(cfg, sc.bought, sc.volume) == MICRO;
    assert Overdraws(sc, cfg);
    OverdrawingRun(sc, cfg);
  }
}
