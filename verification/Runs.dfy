/** What every reachable state of a backtest keeps true of its money: the books replay the fills,
    the participation cap holds over all orders, and what long-only and cash checks guarantee. */
module Runs {
  import opened Prelude
  import opened Models
  import opened Portfolios
  import opened Execution
  import opened MarketData
  import opened Feed
  import opened Engine
  import opened Orders

  // ---------------------------------------------------------------- the books replay the fills

  ghost predicate Replays(cash: real, p: Portfolio, trades: seq<ClosedTrade>, fills: seq<Fill>) {
    Positive(fills) && Books(p, trades) == PostAll(cash, fills)
  }

  lemma ReplayOneMore(cash: real, p: Portfolio, trades: seq<ClosedTrade>, fills: seq<Fill>, f: Fill, next: Books)
    requires Replays(cash, p, trades, fills) && f.quantity > 0.0 && p.Ok()
    requires next == Post(Books(p, trades), f)
    ensures Replays(cash, next.portfolio, next.trades, fills + [f])
  {
    assert (fills + [f])[..|fills|] == fills;
  }

  lemma {:induction false} PassReplays(
    cash: real, p: Pass, orders: seq<PendingOrder>, ev: FeedEvent, cfg: BacktestConfig)
    requires p.portfolio.Ok() && OrdersOk(orders) && EventOk(ev) && Replays(cash, p.portfolio, p.trades, p.fills)
    ensures var q := ProcessOrders(p, orders, ev, cfg); Replays(cash, q.portfolio, q.trades, q.fills)
    decreases |orders|
  {
    if orders != [] {
      var init, last := orders[..|orders| - 1], orders[|orders| - 1];
      PassReplays(cash, p, init, ev, cfg);
      var q := ProcessOrders(p, init, ev, cfg);
      var f, s, r := OneOrder(q, last, ev, cfg);
      var n := ProcessOrder(q, last, ev, cfg);
      if f.Some? {
        ReplayOneMore(cash, q.portfolio, q.trades, q.fills, f.value, Books(n.portfolio, n.trades));
      } else {
        assert q.fills + Opt(f) == q.fills;
      }
    }
  }

  ghost predicate RunReplays(cash: real, r: Run) {
    Replays(cash, r.portfolio, r.trades, r.fills)
  }

  lemma SettledReplays(cash: real, r: Run, ev: FeedEvent, cfg: BacktestConfig)
    requires r.portfolio.Ok() && OrdersOk(r.pending) && EventOk(ev) && RunReplays(cash, r)
    ensures RunReplays(cash, AfterFills(r, ev, cfg))
    ensures Reconciles(AfterFills(r, ev, cfg).portfolio, AfterFills(r, ev, cfg).marks)
  {
    var marked := r.(marks := UpdateMarks(r.marks, ev.newBars));
    PassReplays(cash, Opening(marked), r.pending, ev, cfg);
    var f := AfterFills(r, ev, cfg);
    assert f.portfolio == PostAll(cash, f.fills).portfolio;
    EquityIdentity(cash, f.fills, f.marks);
    FillsConserve(cash, f.fills);
  }

  lemma EventReplays(cash: real, l: Loop, ev: FeedEvent, strategy: Strategy, cfg: BacktestConfig)
    requires LoopOk(l) && EventOk(ev) && RunReplays(cash, l.run)
    ensures OnEvent(l, ev, strategy, cfg) != Err(AccountingInvariantError)
    ensures OnEvent(l, ev, strategy, cfg).Ok? ==> RunReplays(cash, OnEvent(l, ev, strategy, cfg).value.run)
  {
    if !WarmingUp(ev, cfg) {
      SettledReplays(cash, l.run, ev, cfg);
      var f := AfterFills(l.run, ev, cfg);
      var seen := l.seen + [Observation(ev.view, TakeSnapshot(f.portfolio, ev.tsNs, f.marks))];
      EnqueueOk(f, strategy(seen), ev, cfg);
      OnlyUnknownSymbolsFail(f, strategy(seen), ev, cfg);
    }
  }

  lemma {:induction false} OnlyUnknownSymbolsFail(r: Run, intents: seq<OrderIntent>, ev: FeedEvent, cfg: BacktestConfig)
    requires EventOk(ev)
    ensures Enqueued(r, intents, ev, cfg).Err? <==>
              exists i :: 0 <= i < |intents| && intents[i].symbol !in ev.view.histories
    ensures Enqueued(r, intents, ev, cfg).Err? ==> Enqueued(r, intents, ev, cfg).error == DataValidationError
    decreases |intents|
  {
    if intents != [] {
      OnlyUnknownSymbolsFail(r, intents[..|intents| - 1], ev, cfg);
    }
  }

  /** In every reachable state the portfolio and the trade ledger are exactly the replay of the
      fills, and no run ever stops on an accounting error: the books balance, and the equity
      identity holds at any marks. */
  lemma {:induction false} EveryRunBalances(events: seq<FeedEvent>, k: nat, strategy: Strategy, cfg: BacktestConfig)
    requires EventsOk(events) && k <= |events|
    ensures RunTo(events, k, strategy, cfg) != Err(AccountingInvariantError)
    ensures RunTo(events, k, strategy, cfg).Ok? ==>
      var r := RunTo(events, k, strategy, cfg).value.run;
      RunReplays(cfg.initialCash, r) && Balanced(Books(r.portfolio, r.trades))
    decreases k
  {
    if k > 0 {
      EveryRunBalances(events, k - 1, strategy, cfg);
      var l := RunTo(events, k - 1, strategy, cfg);
      if l.Ok? {
        EventReplays(cfg.initialCash, l.value, events[k - 1], strategy, cfg);
      }
    } else {
      assert Start(cfg.initialCash).fills == [];
    }
    if RunTo(events, k, strategy, cfg).Ok? {
      var r := RunTo(events, k, strategy, cfg).value.run;
      FillsConserve(cfg.initialCash, r.fills);
      assert Books(r.portfolio, r.trades) == PostAll(cfg.initialCash, r.fills);
    }
  }

  // ---------------------------------------------------------------- participation cap

  /** Quantity of `s` filled at time `t`, over all orders. */
  function FilledAt(fills: seq<Fill>, s: string, t: int): real {
    if fills == [] then 0.0 else
      var f := fills[|fills| - 1];
      FilledAt(fills[..|fills| - 1], s, t) + if f.symbol == s && f.timestampNs == t then f.quantity else 0.0
  }

  lemma FilledAtAppend(fills: seq<Fill>, f: Option<Fill>, s: string, t: int)
    ensures FilledAt(fills + Opt(f), s, t)
         == FilledAt(fills, s, t)
            + if f.Some? && f.value.symbol == s && f.value.timestampNs == t then f.value.quantity else 0.0
  {
    if f.Some? { assert (fills + Opt(f))[..|fills|] == fills; } else { assert fills + Opt(f) == fills; }
  }

  /** int(volume * cap) of the bar of `s` at the event; nothing can fill without a bar. */
  function Allowed(ev: FeedEvent, s: string, cfg: BacktestConfig): real {
    if s in ev.newBars then Capacity(ev.newBars[s], cfg) else 0.0
  }

  /** What the capacity map of a pass means: what was filled plus what is left is what the bar
      allows, and an untouched symbol has had no fill. */
  ghost predicate CapacityOk(p: Pass, ev: FeedEvent, cfg: BacktestConfig, s: string) {
    if s in p.capacity
    then s in ev.newBars && p.capacity[s] >= 0.0 && FilledAt(p.fills, s, ev.tsNs) + p.capacity[s] == Allowed(ev, s, cfg)
    else FilledAt(p.fills, s, ev.tsNs) == 0.0
  }

  lemma AllowedNonNegative(ev: FeedEvent, s: string, cfg: BacktestConfig)
    requires EventOk(ev)
    ensures Allowed(ev, s, cfg) >= 0.0
  {
    if s in ev.newBars {
      MulNonNegative(ev.newBars[s].volume, cfg.execution.participationCap);
    }
  }

  lemma OrderCapacity(p: Pass, o: PendingOrder, ev: FeedEvent, cfg: BacktestConfig, s: string)
    requires p.portfolio.Ok() && OrderOk(o) && EventOk(ev) && CapacityOk(p, ev, cfg, s)
    ensures CapacityOk(ProcessOrder(p, o, ev, cfg), ev, cfg, s)
  {
    AllowedNonNegative(ev, s, cfg);
    if !Expired(o, ev) && !Waits(o, ev) {
      var a := Attempt(p, o, ev, cfg);
      FilledAtAppend(p.fills, a.fill, s, ev.tsNs);
      if a.fill.Some? {
        AttemptRules(p, o, ev, cfg);
        assert p.fills + Opt(a.fill) == p.fills + [a.fill.value];
      }
    }
  }

  lemma {:induction false} PassCapacity(
    p: Pass, orders: seq<PendingOrder>, ev: FeedEvent, cfg: BacktestConfig, s: string)
    requires p.portfolio.Ok() && OrdersOk(orders) && EventOk(ev) && CapacityOk(p, ev, cfg, s)
    ensures CapacityOk(ProcessOrders(p, orders, ev, cfg), ev, cfg, s)
    decreases |orders|
  {
    if orders != [] {
      PassCapacity(p, orders[..|orders| - 1], ev, cfg, s);
      OrderCapacity(ProcessOrders(p, orders[..|orders| - 1], ev, cfg), orders[|orders| - 1], ev, cfg, s);
    }
  }

  /** Fills of other times are not touched by a pass, and its own are stamped at the event. */
  lemma {:induction false} PassStamps(
    p: Pass, orders: seq<PendingOrder>, ev: FeedEvent, cfg: BacktestConfig, s: string, t: int)
    requires p.portfolio.Ok() && OrdersOk(orders) && EventOk(ev) && t != ev.tsNs
    ensures FilledAt(ProcessOrders(p, orders, ev, cfg).fills, s, t) == FilledAt(p.fills, s, t)
    decreases |orders|
  {
    if orders != [] {
      PassStamps(p, orders[..|orders| - 1], ev, cfg, s, t);
      var q := ProcessOrders(p, orders[..|orders| - 1], ev, cfg);
      var f, o, r := OneOrder(q, orders[|orders| - 1], ev, cfg);
      FilledAtAppend(q.fills, f, s, t);
    }
  }

  lemma EventCapacity(l: Loop, ev: FeedEvent, strategy: Strategy, cfg: BacktestConfig, s: string, t: int)
    requires LoopOk(l) && EventOk(ev) && FilledAt(l.run.fills, s, ev.tsNs) == 0.0
    ensures OnEvent(l, ev, strategy, cfg).Ok? ==>
      var n := OnEvent(l, ev, strategy, cfg).value.run;
      && FilledAt(n.fills, s, ev.tsNs) <= Allowed(ev, s, cfg)
      && (t != ev.tsNs ==> FilledAt(n.fills, s, t) == FilledAt(l.run.fills, s, t))
  {
    AllowedNonNegative(ev, s, cfg);
    if !WarmingUp(ev, cfg) {
      var marked := l.run.(marks := UpdateMarks(l.run.marks, ev.newBars));
      PassCapacity(Opening(marked), marked.pending, ev, cfg, s);
      if t != ev.tsNs {
        PassStamps(Opening(marked), marked.pending, ev, cfg, s, t);
      }
      var f := AfterFills(l.run, ev, cfg);
      var seen := l.seen + [Observation(ev.view, TakeSnapshot(f.portfolio, ev.tsNs, f.marks))];
      EnqueueOk(f, strategy(seen), ev, cfg);
    }
  }

  /** After `k` events, event `j` has filled no more of `s` than its bar allows, and nothing if it is
      still to come. */
  ghost predicate CapAt(fills: seq<Fill>, events: seq<FeedEvent>, k: nat, cfg: BacktestConfig, s: string, j: nat)
    requires j < |events|
  {
    var filled := FilledAt(fills, s, events[j].tsNs);
    if j < k then filled <= Allowed(events[j], s, cfg) else filled == 0.0
  }

  ghost predicate CapKept(fills: seq<Fill>, events: seq<FeedEvent>, k: nat, cfg: BacktestConfig, s: string) {
    forall j :: 0 <= j < |events| ==> CapAt(fills, events, k, cfg, s, j)
  }

  /** Over all orders of a run, the fills of one symbol at one event total at most the integer part
      of the bar's volume times the participation cap; without a bar there are none. */
  lemma {:induction false} EveryRunRespectsTheCap(
    events: seq<FeedEvent>, k: nat, strategy: Strategy, cfg: BacktestConfig, s: string)
    requires EventsOk(events) && k <= |events| && RunTo(events, k, strategy, cfg).Ok?
    ensures CapKept(RunTo(events, k, strategy, cfg).value.run.fills, events, k, cfg, s)
    decreases k
  {
    if k > 0 {
      var l, n := StepBefore(events, k, strategy, cfg);
      EveryRunRespectsTheCap(events, k - 1, strategy, cfg, s);
      CapOneMore(events, k, l, strategy, cfg, s);
    }
  }

  lemma CapOneMore(events: seq<FeedEvent>, k: nat, l: Loop, strategy: Strategy, cfg: BacktestConfig, s: string)
    requires EventsOk(events) && 0 < k <= |events| && LoopOk(l) && CapKept(l.run.fills, events, k - 1, cfg, s)
    requires OnEvent(l, events[k - 1], strategy, cfg).Ok?
    ensures CapKept(OnEvent(l, events[k - 1], strategy, cfg).value.run.fills, events, k, cfg, s)
  {
    var fills := OnEvent(l, events[k - 1], strategy, cfg).value.run.fills;
    forall j | 0 <= j < |events| ensures CapAt(fills, events, k, cfg, s, j) {
      assert CapAt(l.run.fills, events, k - 1, cfg, s, j) && CapAt(l.run.fills, events, k - 1, cfg, s, k - 1);
      EventCapacity(l, events[k - 1], strategy, cfg, s, events[j].tsNs);
    }
  }

  // ---------------------------------------------------------------- long-only and solvency

  ghost predicate LongOnly(p: Portfolio) {
    forall s :: s in p.positions ==> p.positions[s].quantity > 0.0
  }

  /** A fill that long-only rules with the cash check let through. */
  ghost predicate Checked(p: Portfolio, f: Fill, cfg: BacktestConfig) {
    && f.side != SELL_SHORT && f.price >= MICRO && f.fee == Commission(cfg.cost, f.quantity, f.Notional())
    && (f.side == SELL ==> f.quantity <= p.Quantity(f.symbol))
    && (f.side == BUY && cfg.execution.enforceCash ==> p.cash - f.Notional() - f.fee >= 0.0)
  }

  lemma CheckedStaysLong(p: Portfolio, f: Fill, cfg: BacktestConfig)
    requires p.Ok() && f.quantity > 0.0 && LongOnly(p) && Checked(p, f, cfg)
    ensures LongOnly(ApplyFill(p, f).0)
    ensures ApplyFill(p, f).0.cash == p.cash - f.SignedQuantity() * f.price - f.fee
  {
    EffectBalances(p, f);
    var e := Effect(p, f).position;
    assert e.Some? ==> e.value.quantity != 0.0 && e.value.quantity >= 0.0;
  }

  /** Cash before fill `i`. */
  ghost function CashBefore(cash: real, fills: seq<Fill>, i: nat): real
    requires Positive(fills) && i <= |fills|
  {
    PostAll(cash, fills[..i]).portfolio.cash
  }

  /** Each buy was paid from cash that was there; nothing was sold short. */
  ghost predicate BuysCovered(cash: real, fills: seq<Fill>, n: nat)
    requires Positive(fills) && n <= |fills|
  {
    forall i :: 0 <= i < n ==>
      && fills[i].side != SELL_SHORT
      && (fills[i].side == BUY ==> CashBefore(cash, fills, i) - fills[i].Notional() - fills[i].fee >= 0.0)
  }

  /** Each fill was charged the configured commission, at a price of at least one micro. */
  predicate FeesCharged(fills: seq<Fill>, cfg: BacktestConfig) {
    forall i :: 0 <= i < |fills| ==>
      fills[i].price >= MICRO && fills[i].fee == Commission(cfg.cost, fills[i].quantity, fills[i].Notional())
  }

  /** Whatever was sold was held. */
  ghost predicate SalesHeld(cash: real, fills: seq<Fill>)
    requires Positive(fills)
  {
    forall i :: 0 <= i < |fills| && fills[i].side == SELL ==>
      fills[i].quantity <= PostAll(cash, fills[..i]).portfolio.Quantity(fills[i].symbol)
  }

  ghost predicate Guarded(cash: real, p: Portfolio, trades: seq<ClosedTrade>, fills: seq<Fill>, cfg: BacktestConfig) {
    && Replays(cash, p, trades, fills) && LongOnly(p) && FeesCharged(fills, cfg) && SalesHeld(cash, fills)
    && (cfg.execution.enforceCash ==> BuysCovered(cash, fills, |fills|))
  }

  lemma GuardedOneMore(
    cash: real, p: Portfolio, trades: seq<ClosedTrade>, fills: seq<Fill>, f: Fill, next: Books, cfg: BacktestConfig)
    requires Guarded(cash, p, trades, fills, cfg) && p.Ok() && f.quantity > 0.0 && Checked(p, f, cfg)
    requires next == Post(Books(p, trades), f)
    ensures Guarded(cash, next.portfolio, next.trades, fills + [f], cfg)
  {
    ReplayOneMore(cash, p, trades, fills, f, next);
    CheckedStaysLong(p, f, cfg);
    SalesOneMore(cash, p, fills, f);
    if cfg.execution.enforceCash {
      BuysOneMore(cash, p, fills, f);
    }
  }

  lemma SalesOneMore(cash: real, p: Portfolio, fills: seq<Fill>, f: Fill)
    requires Positive(fills) && PostAll(cash, fills).portfolio == p && SalesHeld(cash, fills) && f.quantity > 0.0
    requires f.side == SELL ==> f.quantity <= p.Quantity(f.symbol)
    ensures SalesHeld(cash, fills + [f])
  {
    var all := fills + [f];
    forall i | 0 <= i < |all| && all[i].side == SELL
      ensures all[i].quantity <= PostAll(cash, all[..i]).portfolio.Quantity(all[i].symbol)
    {
      assert all[..i] == fills[..i];
      assert fills[..|fills|] == fills;
    }
  }

  lemma BuysOneMore(cash: real, p: Portfolio, fills: seq<Fill>, f: Fill)
    requires Positive(fills) && PostAll(cash, fills).portfolio == p && BuysCovered(cash, fills, |fills|)
    requires f.quantity > 0.0
    requires f.side != SELL_SHORT && (f.side == BUY ==> p.cash - f.Notional() - f.fee >= 0.0)
    ensures BuysCovered(cash, fills + [f], |fills| + 1)
  {
    var all := fills + [f];
    forall i | 0 <= i < |all|
      ensures all[i].side != SELL_SHORT
      ensures all[i].side == BUY ==> CashBefore(cash, all, i) - all[i].Notional() - all[i].fee >= 0.0
    {
      assert all[..i] == fills[..i];
      assert fills[..|fills|] == fills;
    }
  }

  lemma {:induction false} PassGuarded(
    cash: real, p: Pass, orders: seq<PendingOrder>, ev: FeedEvent, cfg: BacktestConfig)
    requires p.portfolio.Ok() && OrdersOk(orders) && EventOk(ev) && !cfg.execution.allowShort
    requires Guarded(cash, p.portfolio, p.trades, p.fills, cfg)
    ensures var q := ProcessOrders(p, orders, ev, cfg); Guarded(cash, q.portfolio, q.trades, q.fills, cfg)
    decreases |orders|
  {
    if orders != [] {
      var init, last := orders[..|orders| - 1], orders[|orders| - 1];
      PassGuarded(cash, p, init, ev, cfg);
      OrderGuarded(cash, ProcessOrders(p, init, ev, cfg), last, ev, cfg);
    }
  }

  lemma OrderGuarded(cash: real, q: Pass, o: PendingOrder, ev: FeedEvent, cfg: BacktestConfig)
    requires q.portfolio.Ok() && OrderOk(o) && EventOk(ev) && !cfg.execution.allowShort
    requires Guarded(cash, q.portfolio, q.trades, q.fills, cfg)
    ensures var n := ProcessOrder(q, o, ev, cfg); Guarded(cash, n.portfolio, n.trades, n.fills, cfg)
  {
    var n := ProcessOrder(q, o, ev, cfg);
    var f, s, r := OneOrder(q, o, ev, cfg);
    if f.Some? {
      assert n.fills[|q.fills|] == f.value;
      TheFill(q, o, ev, cfg, f.value);
      AttemptRules(q, o, ev, cfg);
      GuardedOneMore(cash, q.portfolio, q.trades, q.fills, f.value, Books(n.portfolio, n.trades), cfg);
    } else {
      assert q.fills + Opt(f) == q.fills;
    }
  }

  lemma TheFill(q: Pass, o: PendingOrder, ev: FeedEvent, cfg: BacktestConfig, f: Fill)
    requires q.portfolio.Ok() && OrderOk(o) && EventOk(ev)
    requires ProcessOrder(q, o, ev, cfg).fills == q.fills + [f]
    ensures !Expired(o, ev) && !Waits(o, ev) && Attempt(q, o, ev, cfg).fill == Some(f)
  {
    var n := ProcessOrder(q, o, ev, cfg).fills;
    assert n[|q.fills|] == f && |n| == |q.fills| + 1;
  }

  lemma EventGuarded(cash: real, l: Loop, ev: FeedEvent, strategy: Strategy, cfg: BacktestConfig)
    requires LoopOk(l) && EventOk(ev) && !cfg.execution.allowShort
    requires Guarded(cash, l.run.portfolio, l.run.trades, l.run.fills, cfg)
    ensures OnEvent(l, ev, strategy, cfg).Ok? ==>
      var n := OnEvent(l, ev, strategy, cfg).value.run; Guarded(cash, n.portfolio, n.trades, n.fills, cfg)
  {
    if !WarmingUp(ev, cfg) {
      var marked := l.run.(marks := UpdateMarks(l.run.marks, ev.newBars));
      PassGuarded(cash, Opening(marked), marked.pending, ev, cfg);
      var f := AfterFills(l.run, ev, cfg);
      var seen := l.seen + [Observation(ev.view, TakeSnapshot(f.portfolio, ev.tsNs, f.marks))];
      EnqueueOk(f, strategy(seen), ev, cfg);
    }
  }

  /** With shorting disabled no reachable portfolio holds a non-positive position, whatever the
      strategy does; with the cash check on, every buy was covered by the cash at its moment. */
  lemma {:induction false} EveryRunIsLongOnly(events: seq<FeedEvent>, k: nat, strategy: Strategy, cfg: BacktestConfig)
    requires EventsOk(events) && k <= |events| && !cfg.execution.allowShort
    requires RunTo(events, k, strategy, cfg).Ok?
    ensures var r := RunTo(events, k, strategy, cfg).value.run;
      Guarded(cfg.initialCash, r.portfolio, r.trades, r.fills, cfg)
    decreases k
  {
    if k > 0 {
      EveryRunIsLongOnly(events, k - 1, strategy, cfg);
      EventGuarded(cfg.initialCash, RunTo(events, k - 1, strategy, cfg).value, events[k - 1], strategy, cfg);
    }
  }

  /** Cash never went below zero through fill `n`. */
  ghost predicate Solvent(cash: real, fills: seq<Fill>, n: nat)
    requires Positive(fills) && n <= |fills|
  {
    forall i :: 0 <= i <= n ==> CashBefore(cash, fills, i) >= 0.0
  }

  lemma CashStep(cash: real, fills: seq<Fill>, i: nat)
    requires Positive(fills) && i < |fills|
    ensures CashBefore(cash, fills, i + 1)
         == CashBefore(cash, fills, i) - fills[i].fee
            + if fills[i].side == BUY then -fills[i].Notional() else fills[i].Notional()
  {
    var f, b := fills[i], PostAll(cash, fills[..i]);
    assert fills[..i + 1][..i] == fills[..i];
    assert PostAll(cash, fills[..i + 1]) == Post(b, f);
    PostedCash(b.portfolio, f);
  }

  lemma PostedCash(p: Portfolio, f: Fill)
    requires p.Ok() && f.quantity > 0.0
    ensures ApplyFill(p, f).0.cash == p.cash - f.fee + if f.side == BUY then -f.Notional() else f.Notional()
  {
  }

  /** Every sale pays for itself: its fee is at most its notional. */
  predicate SalesPay(fills: seq<Fill>) {
    forall i :: 0 <= i < |fills| && fills[i].side == SELL ==> fills[i].fee <= fills[i].Notional()
  }

  lemma {:induction false} PayingSalesStaySolvent(cash: real, fills: seq<Fill>, n: nat)
    requires Positive(fills) && n <= |fills| && cash >= 0.0 && BuysCovered(cash, fills, n) && SalesPay(fills)
    ensures Solvent(cash, fills, n)
  {
    if n == 0 {
      assert fills[..0] == [];
    } else {
      PayingSalesStaySolvent(cash, fills, n - 1);
      CashStep(cash, fills, n - 1);
    }
  }

  lemma {:induction false} CapitalIsPositive(events: seq<FeedEvent>, k: nat, strategy: Strategy, cfg: BacktestConfig)
    requires EventsOk(events) && k <= |events| && RunTo(events, k, strategy, cfg).Ok?
    ensures cfg.initialCash > 0.0
    decreases k
  {
    if k > 0 {
      CapitalIsPositive(events, k - 1, strategy, cfg);
    }
  }
}
