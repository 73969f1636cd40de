/** The event loop of the backtester (backtesting/engine.py): what one event does to the state of
    a run, and the mutable loop state that does it. */
module Engine {
  import opened Prelude
  import opened Models
  import opened Portfolios
  import opened Execution
  import opened MarketData
  import opened Feed

  datatype RunError = ConfigError | DataValidationError | AccountingInvariantError

  /** Everything that defines a run besides the data and the strategy. `draw(k)` is the k-th
      integer of the seeded generator. */
  datatype BacktestConfig = BacktestConfig(
    initialCash: real, cost: CostModel, execution: ExecutionConfig, maths: Maths,
    draw: nat -> nat, tradingStartTsNs: Option<int>, checkInvariants: bool)

  /** What a strategy is shown at one event. */
  datatype Observation = Observation(view: MarketView, snapshot: Snapshot)

  /** A deterministic strategy. It may keep state between calls, so its answer is a function of
      everything it has been shown so far. */
  type Strategy = seq<Observation> -> seq<OrderIntent>

  datatype CurvePoint = CurvePoint(tsNs: int, equity: real, grossExposure: real)

  /** What became of an order id when it was handed out: the intent, and the order it turned into
      unless there was no market data yet. */
  datatype Ticket = Ticket(intent: OrderIntent, order: Option<PendingOrder>)

  /** The state of a run as a value. `tickets` is history: ticket k belongs to order id k + 1. */
  datatype Run = Run(
    portfolio: Portfolio, marks: map<string, real>, pending: seq<PendingOrder>, fills: seq<Fill>,
    trades: seq<ClosedTrade>, rejections: seq<Rejection>, abstained: seq<OrderIntent>,
    nextOrderId: nat, drawn: nat, tickets: seq<Ticket>, curve: seq<CurvePoint>)

  function Start(initialCash: real): Run {
    Run(New(initialCash), map[], [], [], [], [], [], 1, 0, [], [])
  }

  predicate OrderOk(o: PendingOrder) {
    o.remaining > 0.0 && o.decisionPrice > 0.0
  }

  predicate OrdersOk(orders: seq<PendingOrder>) {
    forall i :: 0 <= i < |orders| ==> OrderOk(orders[i])
  }

  /** An event as the feed yields it. */
  ghost predicate EventOk(ev: FeedEvent) {
    && ev.view.Valid() && ev.view.nowNs == ev.tsNs
    && (forall s :: s in ev.newBars ==>
          && s in ev.view.histories && ev.newBars[s].symbol == s && ev.newBars[s].timestampNs == ev.tsNs
          && BarOk(ev.newBars[s]))
  }

  // ---------------------------------------------------------------- pending orders

  /** The pass over the pending orders, part way through. */
  datatype Pass = Pass(
    portfolio: Portfolio, capacity: map<string, real>, stillOpen: seq<PendingOrder>,
    fills: seq<Fill>, trades: seq<ClosedTrade>, rejections: seq<Rejection>)

  function Waits(o: PendingOrder, ev: FeedEvent): bool {
    o.intent.symbol !in ev.newBars || ev.tsNs <= o.createdTsNs || ev.tsNs < o.eligibleTsNs
  }

  function Expired(o: PendingOrder, ev: FeedEvent): bool {
    o.expiresTsNs.Some? && ev.tsNs > o.expiresTsNs.value
  }

  /** int(volume * participation_cap) of a symbol at an event. */
  function Capacity(bar: Bar, cfg: BacktestConfig): real {
    WholeShares(bar.volume, cfg.execution.participationCap)
  }

  function WholeShares(volume: real, cap: real): real {
    (volume * cap).Floor as real
  }

  function CapacityLeft(p: Pass, bar: Bar, cfg: BacktestConfig): real {
    if bar.symbol in p.capacity then p.capacity[bar.symbol] else Capacity(bar, cfg)
  }

  function RecentCloses(ev: FeedEvent, s: string, n: nat): seq<real>
    requires EventOk(ev) && s in ev.view.histories
  {
    Closes(ev.view.histories[s].Tail(Some(n)).value)
  }

  function Attempt(p: Pass, o: PendingOrder, ev: FeedEvent, cfg: BacktestConfig): FillAttempt
    requires OrderOk(o) && EventOk(ev) && o.intent.symbol in ev.newBars
  {
    var bar := ev.newBars[o.intent.symbol];
    AttemptFill(o, bar, RecentCloses(ev, o.intent.symbol, cfg.cost.volLookback + 1),
                CapacityLeft(p, bar, cfg), p.portfolio.Quantity(o.intent.symbol), p.portfolio.cash,
                cfg.cost, cfg.execution, cfg.maths)
  }

  /** Book the outcome of an attempt. */
  function Book(p: Pass, bar: Bar, a: FillAttempt, cfg: BacktestConfig): Pass
    requires p.portfolio.Ok() && (a.fill.Some? ==> a.fill.value.quantity > 0.0)
  {
    var left := CapacityLeft(p, bar, cfg);
    var q := if a.fill.Some? then BookFill(p, bar.symbol, left, a.fill.value)
             else p.(capacity := p.capacity[bar.symbol := left]);
    q.(rejections := if a.rejection.Some? then p.rejections + [a.rejection.value] else p.rejections,
       stillOpen := if a.order.Some? then p.stillOpen + [a.order.value] else p.stillOpen)
  }

  function BookFill(p: Pass, sym: string, left: real, fill: Fill): Pass
    requires p.portfolio.Ok() && fill.quantity > 0.0
  {
    var (next, closed) := ApplyFill(p.portfolio, fill);
    p.(portfolio := next, capacity := p.capacity[sym := left - fill.quantity],
       fills := p.fills + [fill], trades := p.trades + closed)
  }

  lemma AttemptQuantity(p: Pass, o: PendingOrder, ev: FeedEvent, cfg: BacktestConfig)
    requires OrderOk(o) && EventOk(ev) && o.intent.symbol in ev.newBars
    ensures var a := Attempt(p, o, ev, cfg); a.fill.Some? ==> a.fill.value.quantity > 0.0
  {
  }

  lemma ApplyFillOk(p: Portfolio, fill: Fill)
    requires p.Ok() && fill.quantity > 0.0
    ensures ApplyFill(p, fill).0.Ok()
  {
    EffectBalances(p, fill);
  }

  /** One order at one event: expire it, leave it waiting, or try to fill it. */
  function ProcessOrder(p: Pass, o: PendingOrder, ev: FeedEvent, cfg: BacktestConfig): (r: Pass)
    requires p.portfolio.Ok() && OrderOk(o) && EventOk(ev)
    ensures r.portfolio.Ok()
  {
    if Expired(o, ev) then
      p.(rejections := p.rejections + [Rejection(o.orderId, o.intent.symbol, ev.tsNs, "expired", o.remaining)])
    else if Waits(o, ev) then
      p.(stillOpen := p.stillOpen + [o])
    else
      AttemptQuantity(p, o, ev, cfg);
      var a := Attempt(p, o, ev, cfg);
      assert a.fill.Some? ==> ApplyFill(p.portfolio, a.fill.value).0.Ok() by {
        if a.fill.Some? { ApplyFillOk(p.portfolio, a.fill.value); }
      }
      Book(p, ev.newBars[o.intent.symbol], a, cfg)
  }

  function ProcessOrders(p: Pass, orders: seq<PendingOrder>, ev: FeedEvent, cfg: BacktestConfig): (r: Pass)
    requires p.portfolio.Ok() && OrdersOk(orders) && EventOk(ev)
    ensures r.portfolio.Ok()
    decreases |orders|
  {
    if orders == [] then p else
      ProcessOrder(ProcessOrders(p, orders[..|orders| - 1], ev, cfg), orders[|orders| - 1], ev, cfg)
  }

  function Opening(r: Run): Pass {
    Pass(r.portfolio, map[], [], r.fills, r.trades, r.rejections)
  }

  /** _process_pending. */
  function PendingProcessed(r: Run, ev: FeedEvent, cfg: BacktestConfig): Run
    requires r.portfolio.Ok() && OrdersOk(r.pending) && EventOk(ev)
  {
    var p := ProcessOrders(Opening(r), r.pending, ev, cfg);
    r.(portfolio := p.portfolio, pending := p.stillOpen, fills := p.fills, trades := p.trades,
       rejections := p.rejections)
  }

  // ---------------------------------------------------------------- new orders

  function Abstains(intent: OrderIntent, cfg: BacktestConfig): bool {
    && cfg.execution.omegaThreshold.Some? && intent.omega.Some?
    && intent.omega.value < cfg.execution.omegaThreshold.value
  }

  function Jitter(r: Run, cfg: BacktestConfig): nat {
    if cfg.execution.latencyJitterNs != 0 then cfg.draw(r.drawn) else 0
  }

  function Lifetime(intent: OrderIntent, cfg: BacktestConfig): Option<int> {
    if intent.validForNs.Some? then intent.validForNs else cfg.execution.defaultTtlNs
  }

  function Accept(r: Run, intent: OrderIntent, latest: Bar, ev: FeedEvent, cfg: BacktestConfig): PendingOrder {
    PendingOrder(
      r.nextOrderId, intent, ev.tsNs, ev.tsNs + cfg.execution.latencyNs + Jitter(r, cfg),
      match Lifetime(intent, cfg) case None => None case Some(ttl) => Some(ev.tsNs + ttl),
      latest.close, intent.quantity, latest.regime)
  }

  function EnqueueOne(r: Run, intent: OrderIntent, ev: FeedEvent, cfg: BacktestConfig): Result<Run, RunError>
    requires EventOk(ev)
  {
    if intent.symbol !in ev.view.histories then Err(DataValidationError)
    else if Abstains(intent, cfg) then Ok(r.(abstained := r.abstained + [intent]))
    else
      match ev.view.histories[intent.symbol].Latest()
      case None => Ok(WithoutData(r, intent, ev))
      case Some(latest) => Ok(WithOrder(r, intent, latest, ev, cfg))
  }

  /** The intent uses up an order id and is refused: its symbol has no bar yet. */
  function WithoutData(r: Run, intent: OrderIntent, ev: FeedEvent): Run {
    r.(nextOrderId := r.nextOrderId + 1,
       rejections := r.rejections
         + [Rejection(r.nextOrderId, intent.symbol, ev.tsNs, "no_market_data", intent.quantity)],
       tickets := r.tickets + [Ticket(intent, None)])
  }

  function WithOrder(r: Run, intent: OrderIntent, latest: Bar, ev: FeedEvent, cfg: BacktestConfig): Run {
    var order := Accept(r, intent, latest, ev, cfg);
    r.(nextOrderId := r.nextOrderId + 1,
       pending := r.pending + [order],
       drawn := if cfg.execution.latencyJitterNs != 0 then r.drawn + 1 else r.drawn,
       tickets := r.tickets + [Ticket(intent, Some(order))])
  }

  /** _enqueue. An unknown symbol ends the run. */
  function Enqueued(r: Run, intents: seq<OrderIntent>, ev: FeedEvent, cfg: BacktestConfig): Result<Run, RunError>
    requires EventOk(ev)
    decreases |intents|
  {
    if intents == [] then Ok(r) else
      match Enqueued(r, intents[..|intents| - 1], ev, cfg)
      case Err(e) => Err(e)
      case Ok(next) => EnqueueOne(next, intents[|intents| - 1], ev, cfg)
  }

  // ---------------------------------------------------------------- one event, whole runs

  function UpdateMarks(marks: map<string, real>, newBars: map<string, Bar>): map<string, real> {
    marks + map s | s in newBars :: ToDecimal(newBars[s].close)
  }

  /** A run together with what the strategy has been shown. */
  datatype Loop = Loop(run: Run, seen: seq<Observation>)

  function WarmingUp(ev: FeedEvent, cfg: BacktestConfig): bool {
    cfg.tradingStartTsNs.Some? && ev.tsNs < cfg.tradingStartTsNs.value
  }

  /** Marks updated at the new closes, then pending orders processed. */
  function Settled(r: Run, ev: FeedEvent, cfg: BacktestConfig): Run
    requires r.portfolio.Ok() && OrdersOk(r.pending) && EventOk(ev)
  {
    PendingProcessed(r.(marks := UpdateMarks(r.marks, ev.newBars)), ev, cfg)
  }

  ghost function WithPoint(r: Run, tsNs: int): Run {
    r.(curve := r.curve + [CurvePoint(tsNs, Equity(r.portfolio, r.marks), GrossExposure(r.portfolio, r.marks))])
  }

  /** The state when the strategy is asked: settled, and the equity point recorded. */
  ghost function AfterFills(r: Run, ev: FeedEvent, cfg: BacktestConfig): Run
    requires r.portfolio.Ok() && OrdersOk(r.pending) && EventOk(ev)
  {
    WithPoint(Settled(r, ev, cfg), ev.tsNs)
  }

  ghost function OnEvent(l: Loop, ev: FeedEvent, strategy: Strategy, cfg: BacktestConfig): Result<Loop, RunError>
    requires l.run.portfolio.Ok() && OrdersOk(l.run.pending) && EventOk(ev)
  {
    if WarmingUp(ev, cfg) then
      Ok(l.(run := l.run.(marks := UpdateMarks(l.run.marks, ev.newBars))))
    else
      var f := AfterFills(l.run, ev, cfg);
      if cfg.checkInvariants && !Reconciles(f.portfolio, f.marks) then Err(AccountingInvariantError)
      else
        var seen := l.seen + [Observation(ev.view, TakeSnapshot(f.portfolio, ev.tsNs, f.marks))];
        match Enqueued(f, strategy(seen), ev, cfg)
        case Err(e) => Err(e)
        case Ok(run) => Ok(Loop(run, seen))
  }

  ghost predicate EventsOk(events: seq<FeedEvent>) {
    && (forall k :: 0 <= k < |events| ==> EventOk(events[k]))
    && (forall j, k :: 0 <= j < k < |events| ==> events[j].tsNs < events[k].tsNs)
  }

  ghost predicate LoopOk(l: Loop) {
    l.run.portfolio.Ok() && OrdersOk(l.run.pending)
  }

  /** The loop after the first `k` events. */
  ghost function RunTo(
    events: seq<FeedEvent>, k: nat, strategy: Strategy, cfg: BacktestConfig): (l: Result<Loop, RunError>)
    requires EventsOk(events) && k <= |events|
    ensures l.Ok? ==> LoopOk(l.value)
  {
    if k == 0 then
      if cfg.initialCash <= 0.0 then Err(ConfigError) else Ok(Loop(Start(cfg.initialCash), []))
    else
      match RunTo(events, k - 1, strategy, cfg)
      case Err(e) => Err(e)
      case Ok(l) =>
        OnEventOk(l, events[k - 1], strategy, cfg);
        OnEvent(l, events[k - 1], strategy, cfg)
  }

  lemma {:induction false} ProcessOrdersOk(p: Pass, orders: seq<PendingOrder>, ev: FeedEvent, cfg: BacktestConfig)
    requires p.portfolio.Ok() && OrdersOk(orders) && EventOk(ev) && OrdersOk(p.stillOpen)
    ensures OrdersOk(ProcessOrders(p, orders, ev, cfg).stillOpen)
    decreases |orders|
  {
    if orders != [] {
      var o := orders[|orders| - 1];
      var before := ProcessOrders(p, orders[..|orders| - 1], ev, cfg);
      ProcessOrdersOk(p, orders[..|orders| - 1], ev, cfg);
      if !Expired(o, ev) && !Waits(o, ev) {
        AttemptShape(before, o, ev, cfg);
      }
    }
  }

  lemma AttemptShape(p: Pass, o: PendingOrder, ev: FeedEvent, cfg: BacktestConfig)
    requires OrderOk(o) && EventOk(ev) && o.intent.symbol in ev.newBars
    ensures var a := Attempt(p, o, ev, cfg);
      && Filled(a) + Open(a) + Refused(a) == o.remaining
      && !(a.order.Some? && a.rejection.Some?)
      && (a.order.Some? ==> 0.0 < Open(a) && a.order.value == o.(remaining := Open(a)))
      && (a.rejection.Some? ==>
            && a.rejection.value.orderId == o.orderId && a.rejection.value.timestampNs == ev.tsNs
            && a.rejection.value.reason != "expired")
  {
    var bar := ev.newBars[o.intent.symbol];
    AttemptConserves(
      o, bar, RecentCloses(ev, o.intent.symbol, cfg.cost.volLookback + 1), CapacityLeft(p, bar, cfg),
      p.portfolio.Quantity(o.intent.symbol), p.portfolio.cash, cfg.cost, cfg.execution, cfg.maths);
  }

  lemma {:induction false} EnqueueOk(r: Run, intents: seq<OrderIntent>, ev: FeedEvent, cfg: BacktestConfig)
    requires EventOk(ev)
    ensures Enqueued(r, intents, ev, cfg).Ok? ==>
      var n := Enqueued(r, intents, ev, cfg).value;
      && n.portfolio == r.portfolio && n.fills == r.fills && n.trades == r.trades
      && (OrdersOk(r.pending) ==> OrdersOk(n.pending))
    decreases |intents|
  {
    if intents != [] {
      EnqueueOk(r, intents[..|intents| - 1], ev, cfg);
    }
  }

  lemma OnEventOk(l: Loop, ev: FeedEvent, strategy: Strategy, cfg: BacktestConfig)
    requires LoopOk(l) && EventOk(ev)
    ensures OnEvent(l, ev, strategy, cfg).Ok? ==> LoopOk(OnEvent(l, ev, strategy, cfg).value)
  {
    var r := l.run.(marks := UpdateMarks(l.run.marks, ev.newBars));
    ProcessOrdersOk(Opening(r), r.pending, ev, cfg);
    var f := AfterFills(l.run, ev, cfg);
    var seen := l.seen + [Observation(ev.view, TakeSnapshot(f.portfolio, ev.tsNs, f.marks))];
    EnqueueOk(f, strategy(seen), ev, cfg);
  }

  /** The feed of a valid market yields events the loop can process. */
  lemma FeedIsOk(m: Market, events: seq<FeedEvent>)
    requires m.Valid() && IsFeed(m, events)
    ensures EventsOk(events)
  {
    forall k | 0 <= k < |events| ensures EventOk(events[k]) {
      ViewIsValid(m, m.timeline[k], events[k].view);
      forall s | s in events[k].newBars
        ensures s in events[k].view.histories && events[k].newBars[s].symbol == s
        ensures events[k].newBars[s].timestampNs == events[k].tsNs && BarOk(events[k].newBars[s])
      {
        assert IsNewBar(m, m.timeline[k], events[k].newBars, s);
      }
    }
  }

  // ---------------------------------------------------------------- the mutable loop state

  /** _RunState: fields updated in place by the loop. `tickets` is kept for the proofs only. */
  class RunState {
    var portfolio: Portfolio
    var marks: map<string, real>
    var pending: seq<PendingOrder>
    var fills: seq<Fill>
    var trades: seq<ClosedTrade>
    var rejections: seq<Rejection>
    var abstained: seq<OrderIntent>
    var nextOrderId: nat
    var drawn: nat
    var curve: seq<CurvePoint>
    ghost var tickets: seq<Ticket>

    ghost function Value(): Run
      reads this
    {
      Run(portfolio, marks, pending, fills, trades, rejections, abstained, nextOrderId, drawn, tickets, curve)
    }

    constructor (initialCash: real)
      ensures Value() == Start(initialCash)
    {
      portfolio, marks, pending, fills := New(initialCash), map[], [], [];
      trades, rejections, abstained := [], [], [];
      nextOrderId, drawn, curve, tickets := 1, 0, [], [];
    }

    /** The fields a pass over the pending orders does not touch. */
    ghost function Untouched(
      ): (map<string, real>, seq<PendingOrder>, seq<OrderIntent>, nat, nat, seq<Ticket>, seq<CurvePoint>)
      reads this
    {
      (marks, pending, abstained, nextOrderId, drawn, tickets, curve)
    }

    ghost function PassWith(capacity: map<string, real>, stillOpen: seq<PendingOrder>): Pass
      reads this
    {
      Pass(portfolio, capacity, stillOpen, fills, trades, rejections)
    }

    method PostFill(
      fill: Fill, sym: string, capacity: map<string, real>, left: real, ghost stillOpen: seq<PendingOrder>)
      returns (capacityAfter: map<string, real>)
      requires portfolio.Ok() && fill.quantity > 0.0
      modifies this
      ensures PassWith(capacityAfter, stillOpen) == BookFill(old(PassWith(capacity, stillOpen)), sym, left, fill)
      ensures Untouched() == old(Untouched())
    {
      capacityAfter := capacity[sym := left - fill.quantity];
      var (next, closed) := ApplyFill(portfolio, fill);
      portfolio := next;
      fills := fills + [fill];
      trades := trades + closed;
    }

    method BookAttempt(
      bar: Bar, attempt: FillAttempt, capacity: map<string, real>, stillOpen: seq<PendingOrder>, cfg: BacktestConfig)
      returns (capacityAfter: map<string, real>, stillOpenAfter: seq<PendingOrder>)
      requires portfolio.Ok() && (attempt.fill.Some? ==> attempt.fill.value.quantity > 0.0)
      modifies this
      ensures PassWith(capacityAfter, stillOpenAfter) == Book(old(PassWith(capacity, stillOpen)), bar, attempt, cfg)
      ensures Untouched() == old(Untouched())
    {
      var left := if bar.symbol in capacity then capacity[bar.symbol] else Capacity(bar, cfg);
      capacityAfter, stillOpenAfter := capacity[bar.symbol := left], stillOpen;
      if attempt.fill.Some? {
        capacityAfter := PostFill(attempt.fill.value, bar.symbol, capacity, left, stillOpen);
      }
      if attempt.rejection.Some? {
        rejections := rejections + [attempt.rejection.value];
      }
      if attempt.order.Some? {
        stillOpenAfter := stillOpen + [attempt.order.value];
      }
    }

    method ProcessOne(
      order: PendingOrder, ev: FeedEvent, capacity: map<string, real>, stillOpen: seq<PendingOrder>,
      cfg: BacktestConfig)
      returns (capacityAfter: map<string, real>, stillOpenAfter: seq<PendingOrder>)
      requires portfolio.Ok() && OrderOk(order) && EventOk(ev)
      modifies this
      ensures PassWith(capacityAfter, stillOpenAfter)
           == ProcessOrder(old(PassWith(capacity, stillOpen)), order, ev, cfg)
      ensures Untouched() == old(Untouched())
    {
      var sym := order.intent.symbol;
      if Expired(order, ev) {
        rejections := rejections + [Rejection(order.orderId, sym, ev.tsNs, "expired", order.remaining)];
        return capacity, stillOpen;
      }
      if Waits(order, ev) {
        return capacity, stillOpen + [order];
      }
      AttemptQuantity(PassWith(capacity, stillOpen), order, ev, cfg);
      var bar := ev.newBars[sym];
      var left := if sym in capacity then capacity[sym] else Capacity(bar, cfg);
      var attempt := AttemptFill(
        order, bar, RecentCloses(ev, sym, cfg.cost.volLookback + 1), left,
        portfolio.Quantity(sym), portfolio.cash, cfg.cost, cfg.execution, cfg.maths);
      capacityAfter, stillOpenAfter := BookAttempt(bar, attempt, capacity, stillOpen, cfg);
    }

    method ProcessPending(ev: FeedEvent, cfg: BacktestConfig)
      requires portfolio.Ok() && OrdersOk(pending) && EventOk(ev)
      modifies this
      ensures Value() == PendingProcessed(old(Value()), ev, cfg)
    {
      var capacity: map<string, real> := map[];
      var stillOpen: seq<PendingOrder> := [];
      for i := 0 to |pending|
        invariant Untouched() == old(Untouched())
        invariant PassWith(capacity, stillOpen) == ProcessOrders(Opening(old(Value())), pending[..i], ev, cfg)
      {
        assert pending[..i + 1][..i] == pending[..i];
        capacity, stillOpen := ProcessOne(pending[i], ev, capacity, stillOpen, cfg);
      }
      assert pending[..|pending|] == pending;
      pending := stillOpen;
    }

    method AcceptIntent(intent: OrderIntent, latest: Bar, ev: FeedEvent, cfg: BacktestConfig)
      modifies this
      ensures Value() == WithOrder(old(Value()), intent, latest, ev, cfg)
    {
      var oid := nextOrderId;
      nextOrderId := nextOrderId + 1;
      var jitter: nat := 0;
      if cfg.execution.latencyJitterNs != 0 {
        jitter := cfg.draw(drawn);
        drawn := drawn + 1;
      }
      var ttl := Lifetime(intent, cfg);
      var order := PendingOrder(
        oid, intent, ev.tsNs, ev.tsNs + cfg.execution.latencyNs + jitter,
        if ttl.None? then None else Some(ev.tsNs + ttl.value),
        latest.close, intent.quantity, latest.regime);
      pending := pending + [order];
      tickets := tickets + [Ticket(intent, Some(order))];
    }

    method EnqueueIntent(intent: OrderIntent, ev: FeedEvent, cfg: BacktestConfig) returns (error: Option<RunError>)
      requires EventOk(ev)
      modifies this
      ensures match EnqueueOne(old(Value()), intent, ev, cfg)
              case Err(e) => error == Some(e)
              case Ok(next) => error == None && Value() == next
    {
      if intent.symbol !in ev.view.histories {
        return Some(DataValidationError);
      }
      var latest := ev.view.histories[intent.symbol].Latest();
      if Abstains(intent, cfg) {
        abstained := abstained + [intent];
        return None;
      }
      if latest.None? {
        rejections := rejections
          + [Rejection(nextOrderId, intent.symbol, ev.tsNs, "no_market_data", intent.quantity)];
        nextOrderId := nextOrderId + 1;
        tickets := tickets + [Ticket(intent, None)];
        return None;
      }
      AcceptIntent(intent, latest.value, ev, cfg);
      return None;
    }

    method Enqueue(intents: seq<OrderIntent>, ev: FeedEvent, cfg: BacktestConfig) returns (error: Option<RunError>)
      requires EventOk(ev)
      modifies this
      ensures match Enqueued(old(Value()), intents, ev, cfg)
              case Err(e) => error == Some(e)
              case Ok(next) => error == None && Value() == next
    {
      for i := 0 to |intents|
        invariant Enqueued(old(Value()), intents[..i], ev, cfg) == Ok(Value())
      {
        assert intents[..i + 1][..i] == intents[..i];
        error := EnqueueIntent(intents[i], ev, cfg);
        if error.Some? {
          ErrorPersists(old(Value()), intents, i + 1, ev, cfg);
          return;
        }
      }
      assert intents[..|intents|] == intents;
      return None;
    }

    method Settle(ev: FeedEvent, cfg: BacktestConfig)
      requires portfolio.Ok() && OrdersOk(pending) && EventOk(ev)
      modifies this
      ensures Value() == Settled(old(Value()), ev, cfg)
    {
      marks := UpdateMarks(marks, ev.newBars);
      ProcessPending(ev, cfg);
    }

    /** Record the equity point and take the snapshot shown to the strategy. */
    method Record(tsNs: int) returns (snapshot: Snapshot)
      modifies this
      ensures Value() == WithPoint(old(Value()), tsNs)
      ensures snapshot == TakeSnapshot(portfolio, tsNs, marks)
    {
      var value := SumPositions(portfolio.positions, ValueOf(marks));
      var gross := SumPositions(portfolio.positions, GrossOf(marks));
      var gain := SumPositions(portfolio.positions, GainOf(marks));
      curve := curve + [CurvePoint(tsNs, portfolio.cash + value, gross)];
      snapshot := Snapshot(
        tsNs, portfolio.cash, portfolio.cash + value, portfolio.realisedPnl, gain,
        portfolio.feesPaid, gross, portfolio.positions);
    }

    ghost function Outcome(error: Option<RunError>, seen: seq<Observation>): Result<Loop, RunError>
      reads this
    {
      if error.Some? then Err(error.value) else Ok(Loop(Value(), seen))
    }

    /** The body of the run loop. */
    method HandleEvent(ev: FeedEvent, seen: seq<Observation>, strategy: Strategy, cfg: BacktestConfig)
      returns (error: Option<RunError>, seenAfter: seq<Observation>)
      requires portfolio.Ok() && OrdersOk(pending) && EventOk(ev)
      modifies this
      ensures Outcome(error, seenAfter) == OnEvent(Loop(old(Value()), seen), ev, strategy, cfg)
    {
      if WarmingUp(ev, cfg) {
        marks := UpdateMarks(marks, ev.newBars);
        return None, seen;
      }
      Settle(ev, cfg);
      if cfg.checkInvariants {
        var ok := CheckInvariants(portfolio, marks);
        if !ok {
          return Some(AccountingInvariantError), seen;
        }
      }
      var snapshot := Record(ev.tsNs);
      seenAfter := seen + [Observation(ev.view, snapshot)];
      error := Enqueue(strategy(seenAfter), ev, cfg);
    }
  }

  lemma {:induction false} ErrorPersists(r: Run, intents: seq<OrderIntent>, n: nat, ev: FeedEvent, cfg: BacktestConfig)
    requires EventOk(ev) && n <= |intents| && Enqueued(r, intents[..n], ev, cfg).Err?
    ensures Enqueued(r, intents, ev, cfg) == Enqueued(r, intents[..n], ev, cfg)
    decreases |intents|
  {
    if n == |intents| {
      assert intents[..n] == intents;
    } else {
      var init := intents[..|intents| - 1];
      assert init[..n] == intents[..n];
      ErrorPersists(r, init, n, ev, cfg);
    }
  }

  /** The loop of run_backtest over the events of the feed; it stops `at` the first error. */
  method RunEvents(events: seq<FeedEvent>, strategy: Strategy, cfg: BacktestConfig, state: RunState)
    returns (error: Option<RunError>, seen: seq<Observation>, at: nat)
    requires EventsOk(events) && cfg.initialCash > 0.0 && state.Value() == Start(cfg.initialCash)
    modifies state
    ensures at <= |events| && (error.None? ==> at == |events|)
    ensures RunTo(events, at, strategy, cfg) == state.Outcome(error, seen)
  {
    error, seen, at := None, [], 0;
    while at < |events|
      invariant at <= |events| && error.None?
      invariant RunTo(events, at, strategy, cfg) == state.Outcome(error, seen)
    {
      ghost var l := Loop(state.Value(), seen);
      error, seen := state.HandleEvent(events[at], seen, strategy, cfg);
      RunToNext(events, at, l, strategy, cfg);
      at := at + 1;
      if error.Some? {
        return;
      }
    }
  }

  lemma RunToNext(events: seq<FeedEvent>, k: nat, l: Loop, strategy: Strategy, cfg: BacktestConfig)
    requires EventsOk(events) && k < |events| && LoopOk(l) && RunTo(events, k, strategy, cfg) == Ok(l)
    ensures RunTo(events, k + 1, strategy, cfg) == OnEvent(l, events[k], strategy, cfg)
  {
  }

  /** The states around the last of `k` events. */
  lemma StepBefore(events: seq<FeedEvent>, k: nat, strategy: Strategy, cfg: BacktestConfig)
    returns (l: Loop, n: Loop)
    requires EventsOk(events) && 0 < k <= |events| && RunTo(events, k, strategy, cfg).Ok?
    ensures RunTo(events, k - 1, strategy, cfg) == Ok(l) && LoopOk(l) && RunTo(events, k, strategy, cfg) == Ok(n)
    ensures OnEvent(l, events[k - 1], strategy, cfg) == Ok(n)
  {
    l, n := RunTo(events, k - 1, strategy, cfg).value, RunTo(events, k, strategy, cfg).value;
  }

  lemma EventBefore(m: Market, events: seq<FeedEvent>, k: nat) returns (ev: FeedEvent)
    requires IsFeed(m, events) && EventsOk(events) && 0 < k <= |events|
    ensures ev == events[k - 1] && EventOk(ev)
    ensures IsEvent(m, m.timeline[k - 1], ev) && ev.tsNs in m.timeline
  {
    ev := events[k - 1];
  }

  /** run_backtest computes exactly RunTo over all events of the feed. */
  method RunBacktest(m: Market, strategy: Strategy, cfg: BacktestConfig)
    returns (r: Result<RunState, RunError>, ghost events: seq<FeedEvent>)
    requires m.Valid()
    ensures IsFeed(m, events) && EventsOk(events)
    ensures match RunTo(events, |events|, strategy, cfg)
            case Err(e) => r == Err(e)
            case Ok(l) => r.Ok? && fresh(r.value) && r.value.Value() == l.run
  {
    var feed := Events(m);
    events := feed;
    FeedIsOk(m, events);
    var at := 0;
    var error := Some(ConfigError);
    var state := new RunState(cfg.initialCash);
    if cfg.initialCash > 0.0 {
      var seen;
      error, seen, at := RunEvents(feed, strategy, cfg, state);
    }
    if error.Some? {
      ErrorEndsRun(feed, at, |feed|, strategy, cfg);
    }
    r := if error.Some? then Err(error.value) else Ok(state);
  }

  lemma {:induction false} ErrorEndsRun(events: seq<FeedEvent>, j: nat, k: nat, strategy: Strategy, cfg: BacktestConfig)
    requires EventsOk(events) && j <= k <= |events| && RunTo(events, j, strategy, cfg).Err?
    ensures RunTo(events, k, strategy, cfg) == RunTo(events, j, strategy, cfg)
    decreases k
  {
    if j < k {
      ErrorEndsRun(events, j, k - 1, strategy, cfg);
    }
  }
}
