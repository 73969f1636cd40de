/** Costs, slippage, participation-capped partial fills and the price collar
    (backtesting/execution.py), over exact arithmetic. */
module Execution {
  import opened Prelude
  import opened Models

  datatype Bar = Bar(
    symbol: string, timestampNs: int, open: real, high: real, low: real, close: real,
    volume: real, regime: int)

  datatype IntentFields = OrderIntent(
    symbol: string, side: Side, quantity: real, omega: Option<real>, priceLimit: Option<real>,
    validForNs: Option<int>, tag: string)
  {
    predicate Valid() {
      && quantity > 0.0
      && (omega.Some? ==> 0.0 <= omega.value <= 1.0)
      && (priceLimit.Some? ==> priceLimit.value > 0.0)
      && (validForNs.Some? ==> validForNs.value > 0)
    }
  }

  /** An intent whose construction did not raise. */
  type OrderIntent = i: IntentFields | i.Valid()
    witness OrderIntent("", BUY, 1.0, None, None, None, "")

  datatype ImpactModel = NONE | LINEAR | SQRT

  datatype FillPrice = OPEN | CLOSE

  datatype CostFields = CostModel(
    commissionPerShare: real, commissionRate: real, minCommission: real, halfSpreadBps: real,
    impactModel: ImpactModel, impactCoefficient: real, volLookback: nat)
  {
    predicate Valid() {
      && commissionPerShare >= 0.0 && commissionRate >= 0.0 && minCommission >= 0.0
      && halfSpreadBps >= 0.0 && impactCoefficient >= 0.0 && volLookback >= 2
    }
  }

  type CostModel = c: CostFields | c.Valid()
    witness CostModel(0.0, 0.0, 0.0, 0.0, NONE, 0.0, 20)

  datatype ExecutionFields = ExecutionConfig(
    latencyNs: int, latencyJitterNs: int, participationCap: real, collarBps: Option<real>,
    fillPrice: FillPrice, defaultTtlNs: Option<int>, allowShort: bool, enforceCash: bool,
    omegaThreshold: Option<real>)
  {
    predicate Valid() {
      && latencyNs >= 0 && latencyJitterNs >= 0 && 0.0 < participationCap <= 1.0
      && (collarBps.Some? ==> collarBps.value > 0.0)
      && (defaultTtlNs.Some? ==> defaultTtlNs.value > 0)
      && (omegaThreshold.Some? ==> 0.0 <= omegaThreshold.value <= 1.0)
    }
  }

  type ExecutionConfig = c: ExecutionFields | c.Valid()
    witness ExecutionConfig(0, 0, 1.0, None, CLOSE, None, false, true, None)

  datatype PendingOrder = PendingOrder(
    orderId: nat, intent: OrderIntent, createdTsNs: int, eligibleTsNs: int,
    expiresTsNs: Option<int>, decisionPrice: real, remaining: real, regime: int)

  datatype FillAttempt = FillAttempt(
    fill: Option<Fill>, order: Option<PendingOrder>, rejection: Option<Rejection>)

  /** The irrational functions the cost model calls: the volatility proxy of a bar, which takes
      logarithms and a root, and the square root of the impact model. */
  datatype Maths = Maths(sigma: (seq<real>, Bar) -> real, sqrt: real -> real)
  {
    ghost predicate NonNegative() {
      && (forall closes, bar :: sigma(closes, bar) >= 0.0)
      && (forall x :: sqrt(x) >= 0.0)
    }
  }

  // ---------------------------------------------------------------- operations

  const BPS: real := 0.0001
  const MICRO: real := 0.000001

  function RoundHalfEven(x: real): int {
    var f := x.Floor;
    var d := x - f as real;
    if d < 0.5 then f else if d > 0.5 then f + 1 else if f % 2 == 0 then f else f + 1
  }

  /** A price formatted with six decimals. */
  function ToDecimal(value: real): real {
    RoundHalfEven(value * 1000000.0) as real * MICRO
  }

  function ReferencePrice(bar: Bar, mode: FillPrice): real {
    if mode == OPEN then bar.open else bar.close
  }

  function SlippageFraction(cost: CostModel, quantity: real, volume: real, sigma: real, maths: Maths): real {
    var frac := cost.halfSpreadBps * BPS;
    var participation := if volume > 0.0 then quantity / volume else 0.0;
    match cost.impactModel
    case NONE => frac
    case LINEAR => frac + cost.impactCoefficient * participation
    case SQRT => frac + cost.impactCoefficient * sigma * maths.sqrt(participation)
  }

  function Commission(cost: CostModel, quantity: real, notional: real): real {
    Max(quantity * cost.commissionPerShare + notional * cost.commissionRate, cost.minCommission)
  }

  function Reject(order: PendingOrder, ts: int, reason: string): FillAttempt {
    FillAttempt(None, None,
                Some(Rejection(order.orderId, order.intent.symbol, ts, reason, order.remaining)))
  }

  /** The most the inventory rules allow, or the reason of a terminal rejection. */
  function ValidateSide(order: PendingOrder, position: real, cfg: ExecutionConfig): Result<real, string> {
    match order.intent.side
    case SELL =>
      if position <= 0.0 then Err("no_long_position") else Ok(Min(order.remaining, position))
    case SELL_SHORT =>
      if !cfg.allowShort then Err("shorting_disabled")
      else if position > 0.0 then Err("short_while_long")
      else Ok(order.remaining)
    case BUY => Ok(order.remaining)
  }

  function LimitOk(intent: OrderIntent, price: real): bool {
    match intent.priceLimit
    case None => true
    case Some(limit) => if intent.side == BUY then price <= limit else price >= limit
  }

  function ExecutablePrice(
    order: PendingOrder, bar: Bar, closes: seq<real>, qty: real, cost: CostModel,
    cfg: ExecutionConfig, maths: Maths): real
  {
    var ref := ReferencePrice(bar, cfg.fillPrice);
    var slip := SlippageFraction(cost, qty, bar.volume, maths.sigma(closes, bar), maths);
    QuotedPrice(ref, slip, order.intent.side == BUY)
  }

  function QuotedPrice(ref: real, slip: real, buy: bool): real {
    var sign := if buy then 1.0 else -1.0;
    ToDecimal(Max(ref * (1.0 + sign * slip), MICRO))
  }

  function SlippageCost(price: real, ref: real, qty: real, buy: bool): real {
    (price - ToDecimal(ref)) * if buy then qty else -qty
  }

  function AttemptFill(
    order: PendingOrder, bar: Bar, closes: seq<real>, capacityLeft: real, position: real,
    cash: real, cost: CostModel, cfg: ExecutionConfig, maths: Maths): FillAttempt
    requires order.decisionPrice != 0.0
  {
    match ValidateSide(order, position, cfg)
    case Err(reason) => Reject(order, bar.timestampNs, reason)
    case Ok(maxQty) =>
      var ref := ReferencePrice(bar, cfg.fillPrice);
      if cfg.collarBps.Some? && Abs(ref / order.decisionPrice - 1.0) > cfg.collarBps.value * BPS then
        Reject(order, bar.timestampNs, "price_collar")
      else
        var qty := Min(maxQty, capacityLeft);
        if qty <= 0.0 then
          FillAttempt(None, Some(order), None)
        else
          Settle(order, bar, qty, ExecutablePrice(order, bar, closes, qty, cost, cfg, maths), position, cash, cost, cfg)
  }

  /** The end of attempt_fill, once the quantity and its price are known. */
  function Settle(
    order: PendingOrder, bar: Bar, qty: real, price: real, position: real, cash: real, cost: CostModel,
    cfg: ExecutionConfig): FillAttempt
  {
    if !LimitOk(order.intent, price) then
      FillAttempt(None, Some(order), None)
    else
      var fee := Commission(cost, qty, qty * price);
      if cfg.enforceCash && order.intent.side == BUY && position >= 0.0 && cash < qty * price + fee then
        Reject(order, bar.timestampNs, "insufficient_cash")
      else
        var fill := Fill(order.orderId, order.intent.symbol, order.intent.side, qty, price,
                         ToDecimal(ReferencePrice(bar, cfg.fillPrice)), fee, bar.timestampNs, order.createdTsNs,
                         order.regime, order.intent.tag);
        var left := order.remaining - qty;
        FillAttempt(Some(fill), if left > 0.0 then Some(order.(remaining := left)) else None, None)
  }

  // ---------------------------------------------------------------- what an attempt means

  function Filled(a: FillAttempt): real {
    if a.fill.Some? then a.fill.value.quantity else 0.0
  }

  function Open(a: FillAttempt): real {
    if a.order.Some? then a.order.value.remaining else 0.0
  }

  function Refused(a: FillAttempt): real {
    if a.rejection.Some? then a.rejection.value.quantity else 0.0
  }

  /** Conservation of one attempt: the order's quantity is split between what was filled, what
      stays open and what was refused; never two of "open" and "refused", and whatever stays open
      is the same order. */
  lemma AttemptConserves(
    order: PendingOrder, bar: Bar, closes: seq<real>, capacityLeft: real, position: real,
    cash: real, cost: CostModel, cfg: ExecutionConfig, maths: Maths)
    requires order.decisionPrice != 0.0 && order.remaining > 0.0
    ensures var a := AttemptFill(order, bar, closes, capacityLeft, position, cash, cost, cfg, maths);
      && Filled(a) + Open(a) + Refused(a) == order.remaining
      && !(a.order.Some? && a.rejection.Some?)
      && !(a.fill.Some? && a.rejection.Some?)
      && (a.order.Some? ==> 0.0 < Open(a) && a.order.value == order.(remaining := Open(a)))
      && (a.rejection.Some? ==>
            && a.rejection.value.orderId == order.orderId
            && a.rejection.value.timestampNs == bar.timestampNs
            && a.rejection.value.reason != "expired")
  {
  }

  /** The fee of a fill is the larger of the minimum and what shares and notional cost. */
  lemma FeeIsMaximum(cost: CostModel, quantity: real, notional: real)
    ensures var fee, asked := Commission(cost, quantity, notional),
          quantity * cost.commissionPerShare + notional * cost.commissionRate;
      && fee >= cost.minCommission && fee >= asked && (fee == cost.minCommission || fee == asked)
  {
  }

  /** No minimum, and the cheapest possible share pays its own commission: a price is never below one
      micro, so no fill's fee exceeds its notional. */
  predicate SharesPayForThemselves(cost: CostModel) {
    && cost.minCommission == 0.0 && cost.commissionRate <= 1.0
    && cost.commissionPerShare <= MICRO * (1.0 - cost.commissionRate)
  }

  lemma FeeWithinNotional(cost: CostModel, quantity: real, price: real)
    requires SharesPayForThemselves(cost) && quantity > 0.0 && price >= MICRO
    ensures Commission(cost, quantity, quantity * price) <= quantity * price
  {
    var keep := 1.0 - cost.commissionRate;
    MulMonotone(MICRO, price, keep);
    MulMonotone(cost.commissionPerShare, price * keep, quantity);
    MulNonNegative(quantity, price);
    assert price * keep * quantity == quantity * price - quantity * price * cost.commissionRate;
  }

  /** A fill comes from settling the most that inventory and capacity allow. */
  lemma FillIsSettled(
    order: PendingOrder, bar: Bar, closes: seq<real>, capacityLeft: real, position: real,
    cash: real, cost: CostModel, cfg: ExecutionConfig, maths: Maths)
    requires order.decisionPrice != 0.0
    requires AttemptFill(order, bar, closes, capacityLeft, position, cash, cost, cfg, maths).fill.Some?
    ensures ValidateSide(order, position, cfg).Ok?
    ensures cfg.collarBps.Some? ==>
      Abs(ReferencePrice(bar, cfg.fillPrice) / order.decisionPrice - 1.0) <= cfg.collarBps.value * BPS
    ensures var qty := Min(ValidateSide(order, position, cfg).value, capacityLeft);
      && qty > 0.0
      && AttemptFill(order, bar, closes, capacityLeft, position, cash, cost, cfg, maths)
         == Settle(order, bar, qty, ExecutablePrice(order, bar, closes, qty, cost, cfg, maths),
                    position, cash, cost, cfg)
  {
  }

  /** What a settled fill says: the order's own terms, the price it was given and the commission on it. */
  lemma SettledShape(
    order: PendingOrder, bar: Bar, qty: real, price: real, position: real, cash: real, cost: CostModel,
    cfg: ExecutionConfig)
    requires Settle(order, bar, qty, price, position, cash, cost, cfg).fill.Some?
    ensures var f := Settle(order, bar, qty, price, position, cash, cost, cfg).fill.value;
      && f.orderId == order.orderId && f.symbol == order.intent.symbol && f.side == order.intent.side
      && f.timestampNs == bar.timestampNs && f.signalTsNs == order.createdTsNs
      && f.quantity == qty && f.price == price && f.fee == Commission(cost, qty, f.Notional())
      && LimitOk(order.intent, price)
      && (cfg.enforceCash && f.side == BUY && position >= 0.0 ==> cash - f.Notional() - f.fee >= 0.0)
  {
  }

  lemma PriceIsPositive(
    order: PendingOrder, bar: Bar, closes: seq<real>, qty: real, cost: CostModel, cfg: ExecutionConfig, maths: Maths)
    ensures ExecutablePrice(order, bar, closes, qty, cost, cfg, maths) >= MICRO
  {
    var ref := ReferencePrice(bar, cfg.fillPrice);
    var sign := if order.intent.side == BUY then 1.0 else -1.0;
    var slip := SlippageFraction(cost, qty, bar.volume, maths.sigma(closes, bar), maths);
    RoundMonotone(MICRO, Max(ref * (1.0 + sign * slip), MICRO));
    MicroIsExact();
  }

  /** Every fill keeps to the rules: quantity within the bar's capacity and the inventory, price
      within the limit and the collar, and a cash-checked buy leaves no negative cash. */
  lemma FillObeysRules(
    order: PendingOrder, bar: Bar, closes: seq<real>, capacityLeft: real, position: real,
    cash: real, cost: CostModel, cfg: ExecutionConfig, maths: Maths)
    requires order.decisionPrice != 0.0 && order.remaining > 0.0
    requires AttemptFill(order, bar, closes, capacityLeft, position, cash, cost, cfg, maths).fill.Some?
    ensures var f := AttemptFill(order, bar, closes, capacityLeft, position, cash, cost, cfg, maths).fill.value;
      && f.orderId == order.orderId && f.symbol == order.intent.symbol && f.side == order.intent.side
      && f.timestampNs == bar.timestampNs && f.signalTsNs == order.createdTsNs
      && 0.0 < f.quantity <= capacityLeft && f.quantity <= order.remaining
      && MICRO <= f.price && f.fee >= 0.0 && f.fee == Commission(cost, f.quantity, f.Notional())
      && f.price == ExecutablePrice(order, bar, closes, f.quantity, cost, cfg, maths)
      && (f.side == SELL ==> f.quantity <= position)
      && (f.side == SELL_SHORT ==> cfg.allowShort && position <= 0.0)
      && (order.intent.priceLimit.Some? ==>
            if f.side == BUY then f.price <= order.intent.priceLimit.value
            else order.intent.priceLimit.value <= f.price)
      && (cfg.collarBps.Some? ==>
            Abs((if cfg.fillPrice == OPEN then bar.open else bar.close) / order.decisionPrice - 1.0)
            <= cfg.collarBps.value * 0.0001)
      && (f.side == BUY && cfg.enforceCash && position >= 0.0 ==> cash - f.Notional() - f.fee >= 0.0)
  {
    FillIsSettled(order, bar, closes, capacityLeft, position, cash, cost, cfg, maths);
    var qty := Min(ValidateSide(order, position, cfg).value, capacityLeft);
    var price := ExecutablePrice(order, bar, closes, qty, cost, cfg, maths);
    SettledShape(order, bar, qty, price, position, cash, cost, cfg);
    PriceIsPositive(order, bar, closes, qty, cost, cfg, maths);
    FeeIsMaximum(cost, qty, Settle(order, bar, qty, price, position, cash, cost, cfg).fill.value.Notional());
  }

  /** The most an order can trade now: what it still wants, at most what is held for a sale, at most what
      the bar has left. */
  function Tradable(order: PendingOrder, position: real, capacityLeft: real): real {
    Min(if order.intent.side == SELL then Min(order.remaining, position) else order.remaining, capacityLeft)
  }

  /** The inventory and collar rules, in the fields of the order, the bar and the configuration. */
  predicate Admissible(order: PendingOrder, bar: Bar, position: real, cfg: ExecutionConfig)
    requires order.decisionPrice != 0.0
  {
    var reference := if cfg.fillPrice == OPEN then bar.open else bar.close;
    && (order.intent.side == SELL ==> position > 0.0)
    && (order.intent.side == SELL_SHORT ==> cfg.allowShort && position <= 0.0)
    && (cfg.collarBps.Some? ==> Abs(reference / order.decisionPrice - 1.0) <= cfg.collarBps.value * 0.0001)
  }

  /** A buy at or below its limit, a sale or short sale at or above it. */
  predicate KeepsLimit(intent: OrderIntent, price: real) {
    intent.priceLimit.Some? ==>
      if intent.side == BUY then price <= intent.priceLimit.value else intent.priceLimit.value <= price
  }

  /** Price and commission together. */
  function Bill(cost: CostModel, qty: real, price: real): real {
    qty * price + Max(qty * cost.commissionPerShare + qty * price * cost.commissionRate, cost.minCommission)
  }

  lemma SettleFillsIff(
    order: PendingOrder, bar: Bar, qty: real, price: real, position: real, cash: real, cost: CostModel,
    cfg: ExecutionConfig)
    requires qty > 0.0
    ensures var a := Settle(order, bar, qty, price, position, cash, cost, cfg);
      && (a.fill.Some? <==>
            && KeepsLimit(order.intent, price)
            && (order.intent.side == BUY && cfg.enforceCash && position >= 0.0 ==> Bill(cost, qty, price) <= cash))
      && (a.fill.Some? ==> a.fill.value.quantity == qty && a.fill.value.price == price)
      && (a.order == Some(order) <==> !KeepsLimit(order.intent, price))
  {
  }

  lemma AttemptSettles(
    order: PendingOrder, bar: Bar, closes: seq<real>, capacityLeft: real, position: real,
    cash: real, cost: CostModel, cfg: ExecutionConfig, maths: Maths, qty: real)
    requires order.decisionPrice != 0.0 && qty == Tradable(order, position, capacityLeft)
    ensures var a := AttemptFill(order, bar, closes, capacityLeft, position, cash, cost, cfg, maths);
      if !Admissible(order, bar, position, cfg) then a.rejection.Some? && a.order.None? && a.fill.None?
      else if qty <= 0.0 then a == FillAttempt(None, Some(order), None)
      else a == Settle(order, bar, qty, ExecutablePrice(order, bar, closes, qty, cost, cfg, maths),
                       position, cash, cost, cfg)
  {
  }

  /** When an attempt fills, and how much: exactly when the side may trade, the reference is inside the
      collar, something can be traded, the executable price keeps the limit, and a checked buy can be paid.
      It waits whole exactly when nothing can be traded or the price is on the wrong side of the limit. */
  lemma AttemptFillsIff(
    order: PendingOrder, bar: Bar, closes: seq<real>, capacityLeft: real, position: real,
    cash: real, cost: CostModel, cfg: ExecutionConfig, maths: Maths, qty: real, price: real)
    requires order.decisionPrice != 0.0 && qty == Tradable(order, position, capacityLeft)
    requires price == ExecutablePrice(order, bar, closes, qty, cost, cfg, maths)
    ensures var a := AttemptFill(order, bar, closes, capacityLeft, position, cash, cost, cfg, maths);
      && (a.fill.Some? <==>
            && Admissible(order, bar, position, cfg) && qty > 0.0 && KeepsLimit(order.intent, price)
            && (order.intent.side == BUY && cfg.enforceCash && position >= 0.0 ==> Bill(cost, qty, price) <= cash))
      && (a.fill.Some? ==> a.fill.value.quantity == qty && a.fill.value.price == price)
      && (a.order == Some(order) <==>
            Admissible(order, bar, position, cfg) && (qty <= 0.0 || !KeepsLimit(order.intent, price)))
  {
    AttemptSettles(order, bar, closes, capacityLeft, position, cash, cost, cfg, maths, qty);
    if qty > 0.0 {
      SettleFillsIff(order, bar, qty, price, position, cash, cost, cfg);
    }
  }

  /** The reason of a refusal: the first rule that fails. */
  lemma RefusalReason(
    order: PendingOrder, bar: Bar, closes: seq<real>, capacityLeft: real, position: real,
    cash: real, cost: CostModel, cfg: ExecutionConfig, maths: Maths)
    requires order.decisionPrice != 0.0 && order.remaining > 0.0
    ensures var a := AttemptFill(order, bar, closes, capacityLeft, position, cash, cost, cfg, maths);
      var reason := if a.rejection.Some? then a.rejection.value.reason else "";
      && (reason == "no_long_position" <==> order.intent.side == SELL && position <= 0.0)
      && (reason == "shorting_disabled" <==> order.intent.side == SELL_SHORT && !cfg.allowShort)
      && (reason == "short_while_long" <==> order.intent.side == SELL_SHORT && cfg.allowShort && position > 0.0)
      && (reason == "insufficient_cash" ==> order.intent.side == BUY && cfg.enforceCash && position >= 0.0)
      && (reason in {"", "price_collar", "insufficient_cash"} ==>
            (order.intent.side == SELL ==> position > 0.0)
            && (order.intent.side == SELL_SHORT ==> cfg.allowShort && position <= 0.0))
      && (reason in {"", "insufficient_cash"} ==> Admissible(order, bar, position, cfg))
      && (reason == "price_collar" ==> !Admissible(order, bar, position, cfg))
  {
  }

  /** The fraction a trade moves the price by: half the spread, and the impact of its share of the bar. */
  lemma SlippageIs(cost: CostModel, qty: real, volume: real, sigma: real, maths: Maths, share: real)
    requires share == if volume > 0.0 then qty / volume else 0.0
    ensures var (slip, spread) := (SlippageFraction(cost, qty, volume, sigma, maths), cost.halfSpreadBps / 10000.0);
      && (cost.impactModel == NONE ==> slip == spread)
      && (cost.impactModel == LINEAR ==> slip - spread == cost.impactCoefficient * share)
      && (cost.impactModel == SQRT ==> slip - spread == cost.impactCoefficient * sigma * maths.sqrt(share))
  {
  }

  /** The executable price is quoted from the open or the close of the bar. */
  lemma ExecutablePriceIs(
    order: PendingOrder, bar: Bar, closes: seq<real>, qty: real, cost: CostModel, cfg: ExecutionConfig, maths: Maths)
    ensures var slip := SlippageFraction(cost, qty, bar.volume, maths.sigma(closes, bar), maths);
      ExecutablePrice(order, bar, closes, qty, cost, cfg, maths)
        == QuotedPrice(if cfg.fillPrice == OPEN then bar.open else bar.close, slip, order.intent.side == BUY)
  {
  }

  /** A quoted price is the reference moved against the trader, at least one micro, at six places. */
  lemma QuotedPriceIs(ref: real, slip: real, buy: bool)
    ensures var moved := if buy then ref * (1.0 + slip) else ref * (1.0 - slip);
      QuotedPrice(ref, slip, buy) == ToDecimal(if moved < 0.000001 then 0.000001 else moved)
  {
    if buy {
      assert ref * (1.0 + 1.0 * slip) == ref * (1.0 + slip);
    } else {
      assert ref * (1.0 + -1.0 * slip) == ref * (1.0 - slip);
    }
  }

  /** Six places: the nearest whole number of micros, the even one of two that are equally near. */
  lemma SixPlaces(value: real) returns (micros: int)
    ensures ToDecimal(value) == micros as real * 0.000001
    ensures var off := value * 1000000.0 - micros as real;
      -0.5 <= off <= 0.5 && (off == 0.5 || off == -0.5 ==> micros % 2 == 0)
  {
    micros := RoundHalfEven(value * 1000000.0);
  }

  lemma MicroIsExact()
    ensures ToDecimal(MICRO) == MICRO
  {
    assert MICRO * 1000000.0 == 1.0;
    assert RoundHalfEven(1.0) == 1;
  }

  /** Rounding to six decimals never reverses the order of two prices and moves a price by at
      most half a unit of the last place. */
  lemma RoundMonotone(a: real, b: real)
    requires a <= b
    ensures ToDecimal(a) <= ToDecimal(b)
    ensures -0.5 * MICRO <= ToDecimal(a) - a <= 0.5 * MICRO
  {
    var x, y := a * 1000000.0, b * 1000000.0;
    assert x.Floor <= y.Floor;
    assert RoundHalfEven(x) <= RoundHalfEven(y);
  }

  lemma SlippageNonNegative(cost: CostModel, quantity: real, volume: real, sigma: real, maths: Maths)
    requires maths.NonNegative() && sigma >= 0.0 && quantity >= 0.0
    ensures SlippageFraction(cost, quantity, volume, sigma, maths) >= 0.0
  {
    var participation := if volume > 0.0 then quantity / volume else 0.0;
    assert participation >= 0.0;
    MulNonNegative(cost.impactCoefficient, participation);
    MulNonNegative(cost.impactCoefficient, sigma);
    MulNonNegative(cost.impactCoefficient * sigma, maths.sqrt(participation));
  }

  /** The slippage of a fill is adverse (a non-negative cost) exactly when the fill is a buy or
      the reference price is above half a micro: the floor of one micro lifts the price of a sell
      over a reference that rounds to zero. */
  lemma AdverseSlippage(
    order: PendingOrder, bar: Bar, closes: seq<real>, qty: real, cost: CostModel,
    cfg: ExecutionConfig, maths: Maths)
    requires maths.NonNegative() && qty > 0.0 && ReferencePrice(bar, cfg.fillPrice) > 0.0
    ensures var (ref, buy) := (ReferencePrice(bar, cfg.fillPrice), order.intent.side == BUY);
      SlippageCost(ExecutablePrice(order, bar, closes, qty, cost, cfg, maths), ref, qty, buy) >= 0.0
      <==> buy || ref > 0.5 * MICRO
  {
    SlippageNonNegative(cost, qty, bar.volume, maths.sigma(closes, bar), maths);
    var slip := SlippageFraction(cost, qty, bar.volume, maths.sigma(closes, bar), maths);
    AdverseAt(ReferencePrice(bar, cfg.fillPrice), slip, order.intent.side == BUY, qty);
  }

  /** A sale at a reference of a tenth of a micro: the price is lifted to one micro over a reference
      that rounds to zero, so the cost of slippage comes out negative. */
  lemma TinySaleGains()
    ensures SlippageCost(QuotedPrice(0.0000001, 0.0, false), 0.0000001, 1.0, false) == -MICRO
  {
    MicroIsExact();
    TinyReference(0.0000001);
    assert QuotedPrice(0.0000001, 0.0, false) == MICRO;
  }

  lemma AdverseAt(ref: real, slip: real, buy: bool, qty: real)
    requires ref > 0.0 && slip >= 0.0 && qty > 0.0
    ensures SlippageCost(QuotedPrice(ref, slip, buy), ref, qty, buy) >= 0.0
        <==> buy || ref > 0.5 * MICRO
  {
    QuotedAgainstReference(ref, slip, buy);
    var price, rounded := QuotedPrice(ref, slip, buy), ToDecimal(ref);
    SignOfProduct(if buy then price - rounded else rounded - price, qty);
    CostSign(price, rounded, qty);
  }

  lemma CostSign(price: real, rounded: real, qty: real)
    ensures (price - rounded) * -qty == (rounded - price) * qty
  {
  }

  lemma QuotedAgainstReference(ref: real, slip: real, buy: bool)
    requires ref > 0.0 && slip >= 0.0
    ensures buy ==> QuotedPrice(ref, slip, buy) >= ToDecimal(ref)
    ensures !buy ==> (QuotedPrice(ref, slip, buy) <= ToDecimal(ref) <==> ref > 0.5 * MICRO)
  {
    MulNonNegative(ref, slip);
    if buy {
      assert ref * (1.0 + 1.0 * slip) == ref + ref * slip;
      BuyAtOrAbove(ref, ref * (1.0 + 1.0 * slip));
    } else {
      assert ref * (1.0 + -1.0 * slip) == ref - ref * slip;
      SellAtOrBelow(ref, ref * (1.0 + -1.0 * slip));
    }
  }

  lemma SignOfProduct(d: real, qty: real)
    requires qty > 0.0
    ensures d * qty >= 0.0 <==> d >= 0.0
  {
  }

  lemma BuyAtOrAbove(ref: real, quoted: real)
    requires ref <= quoted
    ensures ToDecimal(Max(quoted, MICRO)) >= ToDecimal(ref)
  {
    RoundMonotone(ref, Max(quoted, MICRO));
  }

  lemma SellAtOrBelow(ref: real, quoted: real)
    requires 0.0 < ref && quoted <= ref
    ensures ToDecimal(Max(quoted, MICRO)) <= ToDecimal(ref) <==> ref > 0.5 * MICRO
  {
    MicroIsExact();
    if ref >= MICRO {
      RoundMonotone(Max(quoted, MICRO), ref);
    } else {
      TinyReference(ref);
    }
  }

  lemma TinyReference(ref: real)
    requires 0.0 < ref < MICRO
    ensures ToDecimal(ref) == if ref > 0.5 * MICRO then MICRO else 0.0
  {
    var x := ref * 1000000.0;
    assert x.Floor == 0;
  }
}
