/** What every reachable state of a backtest keeps true of its orders, fills and refusals. */
module Orders {
  import opened Prelude
  import opened Models
  import opened Portfolios
  import opened Execution
  import opened MarketData
  import opened Feed
  import opened Engine

  function Opt<T>(x: Option<T>): seq<T> {
    if x.Some? then [x.value] else []
  }

  // ---------------------------------------------------------------- one order at one event

  /** A fill of order `o` at event `ev` that keeps to the order's own terms. */
  ghost predicate Executes(f: Fill, o: PendingOrder, ev: FeedEvent) {
    && f.orderId == o.orderId && f.symbol == o.intent.symbol && f.side == o.intent.side
    && f.signalTsNs == o.createdTsNs && f.timestampNs == ev.tsNs
    && 0.0 < f.quantity <= o.remaining && MICRO <= f.price && f.fee >= 0.0
    && KeepsLimit(o.intent, f.price)
    && !Expired(o, ev) && !Waits(o, ev)
  }

  ghost predicate Refuses(r: Rejection, o: PendingOrder, ev: FeedEvent) {
    && r.orderId == o.orderId && r.timestampNs == ev.tsNs && r.quantity == o.remaining
    && (r.reason == "expired" <==> Expired(o, ev)) && r.reason != "no_market_data"
  }

  function Quantity(f: Option<Fill>): real { if f.Some? then f.value.quantity else 0.0 }
  function Rest(o: Option<PendingOrder>): real { if o.Some? then o.value.remaining else 0.0 }
  function Given(r: Option<Rejection>): real { if r.Some? then r.value.quantity else 0.0 }

  /** Everything one order can do to a pass: at most one fill, one order left open, one refusal,
      sharing the order's quantity between them. */
  ghost predicate Effects(
    p: Pass, o: PendingOrder, ev: FeedEvent, cfg: BacktestConfig, q: Pass,
    f: Option<Fill>, s: Option<PendingOrder>, r: Option<Rejection>)
    requires p.portfolio.Ok()
  {
    && q.fills == p.fills + Opt(f) && q.stillOpen == p.stillOpen + Opt(s) && q.rejections == p.rejections + Opt(r)
    && Quantity(f) + Rest(s) + Given(r) == o.remaining
    && !(s.Some? && r.Some?)
    && (s.Some? ==> s.value == o.(remaining := s.value.remaining) && s.value.remaining > 0.0)
    && (r.Some? ==> Refuses(r.value, o, ev))
    && (f.None? ==> q.portfolio == p.portfolio && q.trades == p.trades)
    && (f.Some? ==> Executes(f.value, o, ev)
                    && Books(q.portfolio, q.trades) == Post(Books(p.portfolio, p.trades), f.value))
  }

  lemma OneOrder(p: Pass, o: PendingOrder, ev: FeedEvent, cfg: BacktestConfig)
    returns (f: Option<Fill>, s: Option<PendingOrder>, r: Option<Rejection>)
    requires p.portfolio.Ok() && OrderOk(o) && EventOk(ev)
    ensures Effects(p, o, ev, cfg, ProcessOrder(p, o, ev, cfg), f, s, r)
  {
    f, s, r := None, None, None;
    if Expired(o, ev) {
      r := Some(Rejection(o.orderId, o.intent.symbol, ev.tsNs, "expired", o.remaining));
    } else if Waits(o, ev) {
      s := Some(o);
    } else {
      var a := Attempt(p, o, ev, cfg);
      f, s, r := a.fill, a.order, a.rejection;
      AttemptShape(p, o, ev, cfg);
      if r.Some? {
        AttemptReason(p, o, ev, cfg);
      }
      if f.Some? {
        AttemptRules(p, o, ev, cfg);
      }
    }
  }

  lemma AttemptRules(p: Pass, o: PendingOrder, ev: FeedEvent, cfg: BacktestConfig)
    requires OrderOk(o) && EventOk(ev) && !Waits(o, ev) && !Expired(o, ev)
    requires Attempt(p, o, ev, cfg).fill.Some?
    ensures var f := Attempt(p, o, ev, cfg).fill.value;
      && Executes(f, o, ev)
      && f.quantity <= CapacityLeft(p, ev.newBars[o.intent.symbol], cfg)
      && f.fee == Commission(cfg.cost, f.quantity, f.Notional())
      && (f.side == SELL ==> f.quantity <= p.portfolio.Quantity(f.symbol))
      && (f.side == SELL_SHORT ==> cfg.execution.allowShort && p.portfolio.Quantity(f.symbol) <= 0.0)
      && (f.side == BUY && cfg.execution.enforceCash && p.portfolio.Quantity(f.symbol) >= 0.0
          ==> p.portfolio.cash - f.Notional() - f.fee >= 0.0)
  {
    var bar := ev.newBars[o.intent.symbol];
    FillObeysRules(
      o, bar, RecentCloses(ev, o.intent.symbol, cfg.cost.volLookback + 1), CapacityLeft(p, bar, cfg),
      p.portfolio.Quantity(o.intent.symbol), p.portfolio.cash, cfg.cost, cfg.execution, cfg.maths);
  }

  lemma AttemptReason(p: Pass, o: PendingOrder, ev: FeedEvent, cfg: BacktestConfig)
    requires OrderOk(o) && EventOk(ev) && o.intent.symbol in ev.newBars
    requires Attempt(p, o, ev, cfg).rejection.Some?
    ensures Attempt(p, o, ev, cfg).rejection.value.reason in
      {"no_long_position", "shorting_disabled", "short_while_long", "price_collar", "insufficient_cash"}
  {
  }

  // ---------------------------------------------------------------- conservation

  function FilledOf(fills: seq<Fill>, id: nat): real {
    if fills == [] then 0.0 else
      FilledOf(fills[..|fills| - 1], id)
      + if fills[|fills| - 1].orderId == id then fills[|fills| - 1].quantity else 0.0
  }

  function OpenOf(orders: seq<PendingOrder>, id: nat): real {
    if orders == [] then 0.0 else
      OpenOf(orders[..|orders| - 1], id)
      + if orders[|orders| - 1].orderId == id then orders[|orders| - 1].remaining else 0.0
  }

  function RefusedOf(rejections: seq<Rejection>, id: nat): real {
    if rejections == [] then 0.0 else
      RefusedOf(rejections[..|rejections| - 1], id)
      + if rejections[|rejections| - 1].orderId == id then rejections[|rejections| - 1].quantity else 0.0
  }

  lemma FilledAppend(fills: seq<Fill>, f: Option<Fill>, id: nat)
    ensures FilledOf(fills + Opt(f), id)
         == FilledOf(fills, id) + if f.Some? && f.value.orderId == id then f.value.quantity else 0.0
  {
    if f.Some? { assert (fills + Opt(f))[..|fills|] == fills; } else { assert fills + Opt(f) == fills; }
  }

  lemma OpenAppend(orders: seq<PendingOrder>, o: Option<PendingOrder>, id: nat)
    ensures OpenOf(orders + Opt(o), id)
         == OpenOf(orders, id) + if o.Some? && o.value.orderId == id then o.value.remaining else 0.0
  {
    if o.Some? { assert (orders + Opt(o))[..|orders|] == orders; } else { assert orders + Opt(o) == orders; }
  }

  lemma RefusedAppend(rejections: seq<Rejection>, r: Option<Rejection>, id: nat)
    ensures RefusedOf(rejections + Opt(r), id)
         == RefusedOf(rejections, id) + if r.Some? && r.value.orderId == id then r.value.quantity else 0.0
  {
    if r.Some? {
      assert (rejections + Opt(r))[..|rejections|] == rejections;
    } else {
      assert rejections + Opt(r) == rejections;
    }
  }

  /** The quantity of order `id` that a pass has placed somewhere. */
  function Placed(p: Pass, id: nat): real {
    FilledOf(p.fills, id) + OpenOf(p.stillOpen, id) + RefusedOf(p.rejections, id)
  }

  lemma {:induction false} PassConserves(
    p: Pass, orders: seq<PendingOrder>, ev: FeedEvent, cfg: BacktestConfig, id: nat)
    requires p.portfolio.Ok() && OrdersOk(orders) && EventOk(ev)
    ensures Placed(ProcessOrders(p, orders, ev, cfg), id) == Placed(p, id) + OpenOf(orders, id)
    decreases |orders|
  {
    if orders != [] {
      var init, last := orders[..|orders| - 1], orders[|orders| - 1];
      PassConserves(p, init, ev, cfg, id);
      var q := ProcessOrders(p, init, ev, cfg);
      var f, s, r := OneOrder(q, last, ev, cfg);
      FilledAppend(q.fills, f, id);
      OpenAppend(q.stillOpen, s, id);
      RefusedAppend(q.rejections, r, id);
    }
  }

  /** Quantity of order id `id` as it was intended when the id was handed out. */
  function Intended(r: Run, id: nat): real {
    if 1 <= id <= |r.tickets| then r.tickets[id - 1].intent.quantity else 0.0
  }

  /** Filled + still pending + refused is the intended quantity, for every order id. */
  ghost predicate Conserved(r: Run) {
    forall id: nat :: FilledOf(r.fills, id) + OpenOf(r.pending, id) + RefusedOf(r.rejections, id) == Intended(r, id)
  }

  lemma PendingConserves(r: Run, ev: FeedEvent, cfg: BacktestConfig)
    requires r.portfolio.Ok() && OrdersOk(r.pending) && EventOk(ev) && Conserved(r)
    ensures Conserved(PendingProcessed(r, ev, cfg))
  {
    var n := PendingProcessed(r, ev, cfg);
    forall id: nat
      ensures FilledOf(n.fills, id) + OpenOf(n.pending, id) + RefusedOf(n.rejections, id) == Intended(n, id)
    {
      PassConserves(Opening(r), r.pending, ev, cfg, id);
    }
  }

  // ---------------------------------------------------------------- ids, timing, refusals

  /** Ticket k carries order id k + 1, dated by the event that made it. */
  ghost predicate TicketOk(t: Ticket, k: nat) {
    t.order.Some? ==>
      var o := t.order.value;
      && o.orderId == k + 1 && o.intent == t.intent && o.remaining == t.intent.quantity
      && o.createdTsNs <= o.eligibleTsNs
      && (o.expiresTsNs.Some? ==> o.createdTsNs < o.expiresTsNs.value)
  }

  /** The order that id `id` stands for. */
  ghost predicate Issued(r: Run, id: nat) {
    1 <= id <= |r.tickets| && r.tickets[id - 1].order.Some?
  }

  ghost predicate FillOk(r: Run, f: Fill) {
    Issued(r, f.orderId) &&
    var o := r.tickets[f.orderId - 1].order.value;
    && f.symbol == o.intent.symbol && f.side == o.intent.side && f.signalTsNs == o.createdTsNs
    && o.createdTsNs < f.timestampNs && o.eligibleTsNs <= f.timestampNs
    && (o.expiresTsNs.Some? ==> f.timestampNs <= o.expiresTsNs.value)
    && 0.0 < f.quantity <= o.intent.quantity && MICRO <= f.price && f.fee >= 0.0
    && KeepsLimit(o.intent, f.price)
  }

  ghost predicate RefusalOk(r: Run, x: Rejection) {
    && 1 <= x.orderId <= |r.tickets| && x.quantity > 0.0
    && (r.tickets[x.orderId - 1].order.None? <==> x.reason == "no_market_data")
    && (x.reason == "expired" ==>
          var o := r.tickets[x.orderId - 1].order.value;
          o.expiresTsNs.Some? && o.expiresTsNs.value < x.timestampNs)
  }

  ghost predicate PendingOk(r: Run, o: PendingOrder) {
    && Issued(r, o.orderId) && 0.0 < o.remaining <= o.intent.quantity
    && o == r.tickets[o.orderId - 1].order.value.(remaining := o.remaining)
  }

  ghost predicate Ascending(orders: seq<PendingOrder>) {
    forall i, j :: 0 <= i < j < |orders| ==> orders[i].orderId < orders[j].orderId
  }

  /** No order is both refused and open, and none is refused twice. */
  ghost predicate RefusedFinally(rejections: seq<Rejection>, open: seq<PendingOrder>) {
    && (forall i, j :: 0 <= i < |rejections| && 0 <= j < |open| ==> rejections[i].orderId != open[j].orderId)
    && (forall i, j :: 0 <= i < j < |rejections| ==> rejections[i].orderId != rejections[j].orderId)
  }

  ghost predicate Tidy(r: Run) {
    && r.nextOrderId == |r.tickets| + 1
    && (forall k :: 0 <= k < |r.tickets| ==> TicketOk(r.tickets[k], k))
    && (forall i :: 0 <= i < |r.pending| ==> PendingOk(r, r.pending[i]))
    && (forall i :: 0 <= i < |r.fills| ==> FillOk(r, r.fills[i]))
    && (forall i :: 0 <= i < |r.rejections| ==> RefusalOk(r, r.rejections[i]))
    && Ascending(r.pending)
    && RefusedFinally(r.rejections, r.pending)
  }

  /** A pass that has dealt with the orders before `rest`. `r` only supplies the tickets. */
  ghost predicate TidyPass(r: Run, p: Pass, rest: seq<PendingOrder>) {
    && (forall i :: 0 <= i < |p.stillOpen| ==> PendingOk(r, p.stillOpen[i]))
    && (forall i :: 0 <= i < |p.fills| ==> FillOk(r, p.fills[i]))
    && (forall i :: 0 <= i < |p.rejections| ==> RefusalOk(r, p.rejections[i]))
    && Ascending(p.stillOpen + rest)
    && RefusedFinally(p.rejections, p.stillOpen + rest)
  }

  lemma OneOrderTidy(r: Run, p: Pass, o: PendingOrder, rest: seq<PendingOrder>, ev: FeedEvent, cfg: BacktestConfig)
    requires p.portfolio.Ok() && OrderOk(o) && EventOk(ev) && PendingOk(r, o)
    requires forall k :: 0 <= k < |r.tickets| ==> TicketOk(r.tickets[k], k)
    requires TidyPass(r, p, [o] + rest)
    ensures TidyPass(r, ProcessOrder(p, o, ev, cfg), rest)
  {
    var f, s, x := OneOrder(p, o, ev, cfg);
    EffectsTidy(r, p, o, rest, ev, cfg, ProcessOrder(p, o, ev, cfg), f, s, x);
  }

  lemma EffectsTidy(
    r: Run, p: Pass, o: PendingOrder, rest: seq<PendingOrder>, ev: FeedEvent, cfg: BacktestConfig,
    q: Pass, f: Option<Fill>, s: Option<PendingOrder>, x: Option<Rejection>)
    requires p.portfolio.Ok() && PendingOk(r, o) && TicketOk(r.tickets[o.orderId - 1], o.orderId - 1)
    requires Effects(p, o, ev, cfg, q, f, s, x)
    requires TidyPass(r, p, [o] + rest)
    ensures TidyPass(r, q, rest)
  {
    var was, now := p.stillOpen + ([o] + rest), q.stillOpen + rest;
    assert was[|p.stillOpen|] == o;
    OpenIsPart(p.stillOpen, o, rest, s, now);
    FinalAfter(p.rejections, x, was, now, o.orderId, |p.stillOpen|);
    EffectsOk(r, p, o, ev, cfg, q, f, s, x);
  }

  lemma EffectsOk(
    r: Run, p: Pass, o: PendingOrder, ev: FeedEvent, cfg: BacktestConfig,
    q: Pass, f: Option<Fill>, s: Option<PendingOrder>, x: Option<Rejection>)
    requires p.portfolio.Ok() && PendingOk(r, o) && TicketOk(r.tickets[o.orderId - 1], o.orderId - 1)
    requires Effects(p, o, ev, cfg, q, f, s, x)
    requires forall i :: 0 <= i < |p.stillOpen| ==> PendingOk(r, p.stillOpen[i])
    requires forall i :: 0 <= i < |p.fills| ==> FillOk(r, p.fills[i])
    requires forall i :: 0 <= i < |p.rejections| ==> RefusalOk(r, p.rejections[i])
    ensures forall i :: 0 <= i < |q.stillOpen| ==> PendingOk(r, q.stillOpen[i])
    ensures forall i :: 0 <= i < |q.fills| ==> FillOk(r, q.fills[i])
    ensures forall i :: 0 <= i < |q.rejections| ==> RefusalOk(r, q.rejections[i])
  {
    assert f.Some? ==> FillOk(r, f.value);
    assert x.Some? ==> RefusalOk(r, x.value);
    assert s.Some? ==> PendingOk(r, s.value);
  }

  /** The open list after an order is the open list before it, with the order kept or dropped. */
  lemma OpenIsPart(
    before: seq<PendingOrder>, o: PendingOrder, rest: seq<PendingOrder>, s: Option<PendingOrder>,
    now: seq<PendingOrder>)
    requires Ascending(before + ([o] + rest)) && now == before + Opt(s) + rest
    requires s.Some? ==> s.value.orderId == o.orderId
    ensures Ascending(now)
    ensures s.Some? ==> |now| == |before + ([o] + rest)|
    ensures s.Some? ==> forall i :: 0 <= i < |now| ==> now[i].orderId == (before + ([o] + rest))[i].orderId
    ensures s.None? ==> forall i :: 0 <= i < |now| ==>
      now[i] == (before + ([o] + rest))[if i < |before| then i else i + 1]
  {
    var was := before + ([o] + rest);
    if s.None? {
      assert forall i :: 0 <= i < |now| ==> now[i] == was[if i < |before| then i else i + 1];
    } else {
      assert forall i :: 0 <= i < |now| ==> now[i].orderId == was[i].orderId;
    }
  }

  lemma FinalAfter(
    rejections: seq<Rejection>, x: Option<Rejection>, was: seq<PendingOrder>, now: seq<PendingOrder>,
    id: nat, at: nat)
    requires RefusedFinally(rejections, was) && Ascending(was) && at < |was| && was[at].orderId == id
    requires x.Some? ==> x.value.orderId == id && |now| == |was| - 1
    requires x.Some? ==> forall i :: 0 <= i < |now| ==> now[i] == was[if i < at then i else i + 1]
    requires forall i :: 0 <= i < |now| ==> exists j :: 0 <= j < |was| && was[j].orderId == now[i].orderId
    ensures RefusedFinally(rejections + Opt(x), now)
  {
    var all := rejections + Opt(x);
    forall i, j | 0 <= i < |all| && 0 <= j < |now| ensures all[i].orderId != now[j].orderId {
      if i < |rejections| {
        var k :| 0 <= k < |was| && was[k].orderId == now[j].orderId;
      }
    }
  }

  lemma {:induction false} PassTidy(
    r: Run, p: Pass, orders: seq<PendingOrder>, n: nat, ev: FeedEvent, cfg: BacktestConfig)
    requires p.portfolio.Ok() && OrdersOk(orders) && EventOk(ev) && n <= |orders|
    requires forall k :: 0 <= k < |r.tickets| ==> TicketOk(r.tickets[k], k)
    requires forall i :: 0 <= i < |orders| ==> PendingOk(r, orders[i])
    requires TidyPass(r, p, orders)
    ensures TidyPass(r, ProcessOrders(p, orders[..n], ev, cfg), orders[n..])
    decreases n
  {
    if n == 0 {
      assert orders[0..] == orders;
    } else {
      PassTidy(r, p, orders, n - 1, ev, cfg);
      assert orders[..n][..n - 1] == orders[..n - 1];
      assert orders[n - 1..] == [orders[n - 1]] + orders[n..];
      OneOrderTidy(r, ProcessOrders(p, orders[..n - 1], ev, cfg), orders[n - 1], orders[n..], ev, cfg);
    }
  }

  lemma WholePassTidy(r: Run, p: Pass, orders: seq<PendingOrder>, ev: FeedEvent, cfg: BacktestConfig)
    requires p.portfolio.Ok() && OrdersOk(orders) && EventOk(ev)
    requires forall k :: 0 <= k < |r.tickets| ==> TicketOk(r.tickets[k], k)
    requires forall i :: 0 <= i < |orders| ==> PendingOk(r, orders[i])
    requires TidyPass(r, p, orders)
    ensures TidyPass(r, ProcessOrders(p, orders, ev, cfg), [])
  {
    PassTidy(r, p, orders, |orders|, ev, cfg);
    assert orders[..|orders|] == orders && orders[|orders|..] == [];
  }

  lemma PendingTidy(r: Run, ev: FeedEvent, cfg: BacktestConfig)
    requires r.portfolio.Ok() && OrdersOk(r.pending) && EventOk(ev) && Tidy(r)
    ensures Tidy(PendingProcessed(r, ev, cfg))
  {
    var p := Opening(r);
    assert p.stillOpen + r.pending == r.pending;
    WholePassTidy(r, p, r.pending, ev, cfg);
    var q := ProcessOrders(p, r.pending, ev, cfg);
    assert q.stillOpen + [] == q.stillOpen;
    SameTickets(r, PendingProcessed(r, ev, cfg));
  }

  lemma SameTickets(r: Run, n: Run)
    requires r.tickets == n.tickets
    ensures forall o :: PendingOk(r, o) <==> PendingOk(n, o)
    ensures forall f :: FillOk(r, f) <==> FillOk(n, f)
    ensures forall x :: RefusalOk(r, x) <==> RefusalOk(n, x)
  {
  }

  // ---------------------------------------------------------------- new orders

  /** Handing out one more id changes nothing about the ids already out. */
  lemma MoreTickets(r: Run, n: Run, t: Ticket)
    requires n.tickets == r.tickets + [t]
    ensures forall o :: PendingOk(r, o) ==> PendingOk(n, o)
    ensures forall f :: FillOk(r, f) ==> FillOk(n, f)
    ensures forall x :: RefusalOk(r, x) ==> RefusalOk(n, x)
  {
  }

  lemma WithOrderKeeps(r: Run, intent: OrderIntent, latest: Bar, ev: FeedEvent, cfg: BacktestConfig)
    requires Tidy(r) && Conserved(r)
    ensures Tidy(WithOrder(r, intent, latest, ev, cfg)) && Conserved(WithOrder(r, intent, latest, ev, cfg))
  {
    var o := Accept(r, intent, latest, ev, cfg);
    var n := WithOrder(r, intent, latest, ev, cfg);
    MoreTickets(r, n, Ticket(intent, Some(o)));
    assert TicketOk(Ticket(intent, Some(o)), |r.tickets|);
    assert PendingOk(n, o);
    forall id: nat
      ensures FilledOf(n.fills, id) + OpenOf(n.pending, id) + RefusedOf(n.rejections, id) == Intended(n, id)
    {
      OpenAppend(r.pending, Some(o), id);
    }
  }

  lemma WithoutDataKeeps(r: Run, intent: OrderIntent, ev: FeedEvent)
    requires Tidy(r) && Conserved(r)
    ensures Tidy(WithoutData(r, intent, ev)) && Conserved(WithoutData(r, intent, ev))
  {
    var x := Rejection(r.nextOrderId, intent.symbol, ev.tsNs, "no_market_data", intent.quantity);
    var n := WithoutData(r, intent, ev);
    MoreTickets(r, n, Ticket(intent, None));
    assert RefusalOk(n, x);
    forall id: nat
      ensures FilledOf(n.fills, id) + OpenOf(n.pending, id) + RefusedOf(n.rejections, id) == Intended(n, id)
    {
      RefusedAppend(r.rejections, Some(x), id);
    }
  }

  lemma {:induction false} EnqueueKeeps(r: Run, intents: seq<OrderIntent>, ev: FeedEvent, cfg: BacktestConfig)
    requires EventOk(ev) && Tidy(r) && Conserved(r)
    ensures Enqueued(r, intents, ev, cfg).Ok? ==>
      Tidy(Enqueued(r, intents, ev, cfg).value) && Conserved(Enqueued(r, intents, ev, cfg).value)
    decreases |intents|
  {
    if intents != [] {
      var init, intent := intents[..|intents| - 1], intents[|intents| - 1];
      EnqueueKeeps(r, init, ev, cfg);
      if Enqueued(r, init, ev, cfg).Ok? && intent.symbol in ev.view.histories {
        EnqueueOneKeeps(Enqueued(r, init, ev, cfg).value, intent, ev, cfg);
      }
    }
  }

  lemma EnqueueOneKeeps(n: Run, intent: OrderIntent, ev: FeedEvent, cfg: BacktestConfig)
    requires EventOk(ev) && Tidy(n) && Conserved(n) && intent.symbol in ev.view.histories
    ensures EnqueueOne(n, intent, ev, cfg).Ok?
    ensures Tidy(EnqueueOne(n, intent, ev, cfg).value) && Conserved(EnqueueOne(n, intent, ev, cfg).value)
  {
    if Abstains(intent, cfg) {
      OnlyOrderFieldsMatter(n, n.(abstained := n.abstained + [intent]));
    } else {
      match ev.view.histories[intent.symbol].Latest()
      case None => WithoutDataKeeps(n, intent, ev);
      case Some(latest) => WithOrderKeeps(n, intent, latest, ev, cfg);
    }
  }

  lemma OnlyOrderFieldsMatter(r: Run, n: Run)
    requires n.pending == r.pending && n.fills == r.fills && n.rejections == r.rejections
    requires n.tickets == r.tickets && n.nextOrderId == r.nextOrderId
    ensures Tidy(r) ==> Tidy(n)
    ensures Conserved(r) ==> Conserved(n)
  {
    SameTickets(r, n);
    if Conserved(r) {
      forall id: nat
        ensures FilledOf(n.fills, id) + OpenOf(n.pending, id) + RefusedOf(n.rejections, id) == Intended(n, id)
      {
        assert Intended(r, id) == Intended(n, id);
      }
    }
  }

  // ---------------------------------------------------------------- every reachable state

  lemma EventKeeps(l: Loop, ev: FeedEvent, strategy: Strategy, cfg: BacktestConfig)
    requires LoopOk(l) && EventOk(ev) && Tidy(l.run) && Conserved(l.run)
    ensures OnEvent(l, ev, strategy, cfg).Ok? ==>
      Tidy(OnEvent(l, ev, strategy, cfg).value.run) && Conserved(OnEvent(l, ev, strategy, cfg).value.run)
  {
    var marked := l.run.(marks := UpdateMarks(l.run.marks, ev.newBars));
    OnlyOrderFieldsMatter(l.run, marked);
    if !WarmingUp(ev, cfg) {
      PendingConserves(marked, ev, cfg);
      PendingTidy(marked, ev, cfg);
      var f := AfterFills(l.run, ev, cfg);
      OnlyOrderFieldsMatter(Settled(l.run, ev, cfg), f);
      var seen := l.seen + [Observation(ev.view, TakeSnapshot(f.portfolio, ev.tsNs, f.marks))];
      EnqueueKeeps(f, strategy(seen), ev, cfg);
    }
  }

  /** The main theorem about orders. For any market, strategy, seed and configuration, in every
      reachable state: each order id handed out has filled + pending + refused = intended; ids
      are unique in the queue and a refused order is neither open nor refused again; every fill is
      strictly after the decision, at or after eligibility, not after expiry, within its limit;
      and only orders past their expiry are refused as expired. */
  lemma {:induction false} EveryRunKeepsItsOrders(
    events: seq<FeedEvent>, k: nat, strategy: Strategy, cfg: BacktestConfig)
    requires EventsOk(events) && k <= |events| && RunTo(events, k, strategy, cfg).Ok?
    ensures var r := RunTo(events, k, strategy, cfg).value.run; Tidy(r) && Conserved(r)
    decreases k
  {
    if k > 0 {
      EveryRunKeepsItsOrders(events, k - 1, strategy, cfg);
      EventKeeps(RunTo(events, k - 1, strategy, cfg).value, events[k - 1], strategy, cfg);
    }
  }
}
