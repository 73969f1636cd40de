/** When a long-only backtest with the cash check can overdraw: the check guards buys only, so it
    depends on the commission, and on nothing else (backtesting/engine.py, execution.py). */
module Solvency {
  import opened Prelude
  import opened Models
  import opened Portfolios
  import opened Execution
  import opened MarketData
  import opened Feed
  import opened Engine
  import opened Orders
  import opened Runs

  // ---------------------------------------------------------------- the condition

  /** No buy is ever affordable, or no sale costs more than it brings in. */
  predicate FeesNeverOverdraw(cfg: BacktestConfig) {
    cfg.initialCash <= cfg.cost.minCommission || SharesPayForThemselves(cfg.cost)
  }

  ghost predicate SolventRun(events: seq<FeedEvent>, k: nat, strategy: Strategy, cfg: BacktestConfig)
    requires EventsOk(events) && k <= |events|
  {
    RunTo(events, k, strategy, cfg).Ok? ==>
      var fills := RunTo(events, k, strategy, cfg).value.run.fills;
      Positive(fills) && Solvent(cfg.initialCash, fills, |fills|)
  }

  /** Cash is never negative, in any run of any strategy on any market. */
  ghost predicate AlwaysSolvent(cfg: BacktestConfig) {
    forall m: Market, events, k: nat, strategy ::
      m.Valid() && IsFeed(m, events) && EventsOk(events) && k <= |events| ==> SolventRun(events, k, strategy, cfg)
  }

  // ---------------------------------------------------------------- it is sufficient

  lemma CheapSalesPay(fills: seq<Fill>, cfg: BacktestConfig)
    requires Positive(fills) && FeesCharged(fills, cfg) && SharesPayForThemselves(cfg.cost)
    ensures SalesPay(fills)
  {
    forall i | 0 <= i < |fills| ensures fills[i].fee <= fills[i].Notional() {
      FeeWithinNotional(cfg.cost, fills[i].quantity, fills[i].price);
    }
  }

  /** With no more cash than the minimum commission nothing can be bought, hence nothing sold. */
  lemma NothingAffordable(cash: real, p: Portfolio, trades: seq<ClosedTrade>, fills: seq<Fill>, cfg: BacktestConfig)
    requires Guarded(cash, p, trades, fills, cfg) && cfg.execution.enforceCash && cash <= cfg.cost.minCommission
    ensures fills == []
  {
    if fills != [] {
      FirstFill(cash, p, trades, fills, cfg);
    }
  }

  /** The first fill cannot be a sale, nothing being held, so it is a buy paid from the cash. */
  lemma FirstFill(cash: real, p: Portfolio, trades: seq<ClosedTrade>, fills: seq<Fill>, cfg: BacktestConfig)
    requires Guarded(cash, p, trades, fills, cfg) && cfg.execution.enforceCash && fills != []
    ensures cash > cfg.cost.minCommission
  {
    var f := fills[0];
    assert fills[..0] == [];
    assert PostAll(cash, fills[..0]).portfolio.Quantity(f.symbol) == 0.0;
    assert CashBefore(cash, fills, 0) == cash;
    FeeIsMaximum(cfg.cost, f.quantity, f.Notional());
    PositiveValue(f.quantity, f.price);
  }

  lemma PositiveValue(quantity: real, price: real)
    requires quantity > 0.0 && price > 0.0
    ensures quantity * price > 0.0
  {
  }

  /** Every run with shorting off and the cash check on stays solvent when its sales pay for
      themselves, and the condition sees to that, or to there being no fill at all. */
  lemma EveryRunIsSolvent(events: seq<FeedEvent>, k: nat, strategy: Strategy, cfg: BacktestConfig)
    requires EventsOk(events) && k <= |events| && !cfg.execution.allowShort && cfg.execution.enforceCash
    requires RunTo(events, k, strategy, cfg).Ok?
    ensures var fills := RunTo(events, k, strategy, cfg).value.run.fills;
      && Positive(fills)
      && (SalesPay(fills) ==> Solvent(cfg.initialCash, fills, |fills|))
      && (FeesNeverOverdraw(cfg) ==> SalesPay(fills))
  {
    EveryRunIsLongOnly(events, k, strategy, cfg);
    CapitalIsPositive(events, k, strategy, cfg);
    var r := RunTo(events, k, strategy, cfg).value.run;
    if SalesPay(r.fills) {
      PayingSalesStaySolvent(cfg.initialCash, r.fills, |r.fills|);
    }
    if SharesPayForThemselves(cfg.cost) {
      CheapSalesPay(r.fills, cfg);
    } else if cfg.initialCash <= cfg.cost.minCommission {
      NothingAffordable(cfg.initialCash, r.portfolio, r.trades, r.fills, cfg);
    }
  }

  // ---------------------------------------------------------------- amounts that overdraw

  /** What one more share costs, price and commission, when the minimum does not bind. */
  function UnitCost(cost: CostModel, price: real): real {
    price + cost.commissionPerShare + price * cost.commissionRate
  }

  lemma UnitCostRises(cost: CostModel, low: real, high: real)
    requires 0.0 < low <= high
    ensures 0.0 < UnitCost(cost, low) <= UnitCost(cost, high)
  {
    MulNonNegative(low, cost.commissionRate);
    MulMonotone(low, high, cost.commissionRate);
  }

  /** The most shares whose price and commission together come to exactly `cash`. */
  function Drain(cash: real, cost: CostModel, price: real): real
    requires price > 0.0
  {
    UnitCostRises(cost, price, price);
    Min((cash - cost.minCommission) / price, cash / UnitCost(cost, price))
  }

  lemma DrainSpendsAll(cash: real, cost: CostModel, price: real)
    requires price > 0.0 && cash > cost.minCommission
    ensures var q := Drain(cash, cost, price); q > 0.0 && Spends(cash, cost, q, price)
  {
    UnitCostRises(cost, price, price);
    SpendsAll(cash - cost.minCommission, price, cash, UnitCost(cost, price));
    var q := Drain(cash, cost, price);
    assert q * UnitCost(cost, price) == q * price + (q * cost.commissionPerShare + q * price * cost.commissionRate);
  }

  /** The larger of two growing costs reaches its amount first. */
  lemma SpendsAll(a: real, p: real, b: real, u: real)
    requires a > 0.0 && p > 0.0 && b > 0.0 && u > 0.0
    ensures var q := Min(a / p, b / u);
      q > 0.0 && q * p <= a && q * u <= b && (q * p == a || q * u == b)
  {
    var q := Min(a / p, b / u);
    PositiveQuotient(a, p);
    PositiveQuotient(b, u);
    MulDiv(a, p);
    MulDiv(b, u);
    MulMonotone(q, a / p, p);
    MulMonotone(q, b / u, u);
  }

  lemma PositiveQuotient(a: real, b: real)
    requires a > 0.0 && b > 0.0
    ensures a / b > 0.0
  {
  }

  /** Of `held` shares, so few that their sale at one micro brings in less than its commission. */
  function TooFew(held: real, cost: CostModel): real {
    if cost.minCommission > 0.0 then Min(held, cost.minCommission / (2.0 * MICRO)) else held
  }

  lemma TooFewOverdraws(held: real, cost: CostModel)
    requires held > 0.0 && !SharesPayForThemselves(cost)
    ensures var q := TooFew(held, cost); 0.0 < q <= held && q * MICRO < Commission(cost, q, q * MICRO)
  {
    var q := TooFew(held, cost);
    if cost.minCommission > 0.0 {
      assert q * MICRO <= cost.minCommission / (2.0 * MICRO) * MICRO;
    } else {
      var excess := cost.commissionPerShare - MICRO * (1.0 - cost.commissionRate);
      MulNonNegative(MICRO, cost.commissionRate);
      assert excess > 0.0;
      PositiveValue(q, excess);
      assert q * excess == q * cost.commissionPerShare + q * MICRO * cost.commissionRate - q * MICRO;
    }
  }

  // ---------------------------------------------------------------- prices on a flat market

  predicate Flat(closes: seq<real>) {
    forall i :: 0 <= i < |closes| ==> closes[i] == closes[0]
  }

  /** The volatility proxy of a market that does not move is zero (bar_sigma). */
  ghost predicate FlatIsQuiet(maths: Maths) {
    forall closes, bar: Bar :: Flat(closes) && bar.high == bar.low ==> maths.sigma(closes, bar) == 0.0
  }

  /** The slippage fraction at zero volatility. */
  function QuietSlip(cost: CostModel, quantity: real, volume: real, maths: Maths): real {
    SlippageFraction(cost, quantity, volume, 0.0, maths)
  }

  lemma QuietSlipIs(cost: CostModel, quantity: real, volume: real, maths: Maths)
    requires quantity >= 0.0 && volume > 0.0
    ensures QuietSlip(cost, quantity, volume, maths) == cost.halfSpreadBps * BPS
            + if cost.impactModel == LINEAR then cost.impactCoefficient * (quantity / volume) else 0.0
    ensures QuietSlip(cost, quantity, volume, maths) >= 0.0
  {
    var share := quantity / volume;
    MulDiv(quantity, volume);
    assert share >= 0.0;
    MulNonNegative(cost.impactCoefficient, share);
    MulNonNegative(cost.halfSpreadBps, BPS);
    assert cost.impactCoefficient * 0.0 * maths.sqrt(share) == 0.0;
  }

  /** A sale at one micro stays at one micro, whatever the slippage. */
  lemma SalePriceIsMicro(slip: real)
    requires slip >= 0.0
    ensures QuotedPrice(MICRO, slip, false) == MICRO
  {
    MicroIsExact();
    MulNonNegative(MICRO, slip);
    assert MICRO * (1.0 + -1.0 * slip) == MICRO - MICRO * slip;
  }

  lemma BuyPriceIsPositive(slip: real)
    ensures QuotedPrice(MICRO, slip, true) >= MICRO
  {
    MicroIsExact();
    RoundMonotone(MICRO, Max(MICRO * (1.0 + 1.0 * slip), MICRO));
  }

  lemma BuyPriceRises(a: real, b: real)
    requires 0.0 <= a <= b
    ensures QuotedPrice(MICRO, a, true) <= QuotedPrice(MICRO, b, true)
  {
    MulMonotone(a, b, MICRO);
    assert MICRO * (1.0 + 1.0 * a) == MICRO + a * MICRO && MICRO * (1.0 + 1.0 * b) == MICRO + b * MICRO;
    RoundMonotone(Max(MICRO * (1.0 + 1.0 * a), MICRO), Max(MICRO * (1.0 + 1.0 * b), MICRO));
  }

  // ---------------------------------------------------------------- a buy that drains the account

  /** The whole shares a bar offers under the cap are at least `quantity`. */
  predicate CapacityFits(volume: real, cap: real, quantity: real) {
    WholeShares(volume, cap) >= quantity
  }

  /** Buying `quantity` out of a bar of `volume` at one micro spends everything and fits the bar. */
  ghost predicate Drains(cfg: BacktestConfig, quantity: real, volume: real) {
    && quantity > 0.0 && volume > 0.0
    && CapacityFits(volume, cfg.execution.participationCap, quantity)
    && Spends(cfg.initialCash, cfg.cost, quantity, BuyPrice(cfg, quantity, volume))
  }

  predicate Spends(cash: real, cost: CostModel, quantity: real, price: real) {
    quantity * price + Commission(cost, quantity, quantity * price) == cash
  }

  function BuyPrice(cfg: BacktestConfig, quantity: real, volume: real): real {
    QuotedPrice(MICRO, QuietSlip(cfg.cost, quantity, volume, cfg.maths), true)
  }

  lemma DrainsAt(cfg: BacktestConfig, quantity: real, volume: real, slip: real)
    requires quantity > 0.0 && volume > 0.0 && CapacityFits(volume, cfg.execution.participationCap, quantity)
    requires slip == QuietSlip(cfg.cost, quantity, volume, cfg.maths)
    requires Spends(cfg.initialCash, cfg.cost, quantity, QuotedPrice(MICRO, slip, true))
    ensures Drains(cfg, quantity, volume)
  {
  }

  lemma BigEnough(quantity: real, cap: real)
    requires quantity > 0.0 && cap > 0.0
    ensures (quantity + 1.0) / cap > 0.0
    ensures CapacityFits((quantity + 1.0) / cap, cap, quantity)
  {
    PositiveQuotient(quantity + 1.0, cap);
    MulDiv(quantity + 1.0, cap);
  }

  lemma DrainWithoutImpact(cfg: BacktestConfig) returns (quantity: real, volume: real)
    requires cfg.initialCash > cfg.cost.minCommission && cfg.cost.impactModel != LINEAR
    ensures Drains(cfg, quantity, volume)
  {
    var slip := cfg.cost.halfSpreadBps * BPS;
    var price := QuotedPrice(MICRO, slip, true);
    BuyPriceIsPositive(slip);
    DrainSpendsAll(cfg.initialCash, cfg.cost, price);
    quantity := Drain(cfg.initialCash, cfg.cost, price);
    volume := (quantity + 1.0) / cfg.execution.participationCap;
    BigEnough(quantity, cfg.execution.participationCap);
    QuietSlipIs(cfg.cost, quantity, volume, cfg.maths);
    DrainsAt(cfg, quantity, volume, slip);
  }

  lemma DrainFalls(cash: real, cost: CostModel, low: real, high: real)
    requires 0.0 < low <= high && cash > cost.minCommission
    ensures Drain(cash, cost, high) <= Drain(cash, cost, low)
  {
    UnitCostRises(cost, low, high);
    QuotientFalls(cash - cost.minCommission, low, high);
    QuotientFalls(cash, UnitCost(cost, low), UnitCost(cost, high));
  }

  lemma QuotientFalls(a: real, low: real, high: real)
    requires a >= 0.0 && 0.0 < low <= high
    ensures a / high <= a / low
  {
    var q := a / high;
    MulDiv(a, high);
    MulMonotone(low, high, q);
    MulDiv(a, low);
    assert (a / low - q) * low == a - q * low;
    NonNegativeFactor(a / low - q, low);
  }

  lemma NonNegativeFactor(a: real, b: real)
    requires b > 0.0 && a * b >= 0.0
    ensures a >= 0.0
  {
  }

  /** The linear slip of buying that share of a bar. */
  function LinearSlip(cost: CostModel, share: real): real {
    cost.halfSpreadBps * BPS + cost.impactCoefficient * share
  }

  lemma LinearPrices(cost: CostModel, share: real, cap: real)
    requires 0.0 < share <= cap
    ensures 0.0 < QuotedPrice(MICRO, LinearSlip(cost, share), true) <= QuotedPrice(MICRO, LinearSlip(cost, cap), true)
  {
    MulNonNegative(cost.halfSpreadBps, BPS);
    MulNonNegative(cost.impactCoefficient, share);
    MulMonotone(share, cap, cost.impactCoefficient);
    BuyPriceIsPositive(LinearSlip(cost, share));
    BuyPriceRises(LinearSlip(cost, share), LinearSlip(cost, cap));
  }

  /** With linear impact the price depends on the share of the bar that is bought, so the share is
      fixed first, small enough for the whole shares of the bar. */
  lemma LinearChoice(cfg: BacktestConfig) returns (quantity: real, share: real)
    requires cfg.initialCash > cfg.cost.minCommission
    ensures quantity > 0.0 && share > 0.0
    ensures Spends(cfg.initialCash, cfg.cost, quantity, QuotedPrice(MICRO, LinearSlip(cfg.cost, share), true))
    ensures FitsBar(quantity, share, cfg.execution.participationCap)
  {
    var cost, cap := cfg.cost, cfg.execution.participationCap;
    LinearPrices(cost, cap, cap);
    var highest := QuotedPrice(MICRO, LinearSlip(cost, cap), true);
    DrainSpendsAll(cfg.initialCash, cost, highest);
    var least := Drain(cfg.initialCash, cost, highest);
    share := cap * least / (1.0 + least);
    ShareIsSmall(cap, least);
    LinearPrices(cost, share, cap);
    var price := QuotedPrice(MICRO, LinearSlip(cost, share), true);
    DrainSpendsAll(cfg.initialCash, cost, price);
    DrainFalls(cfg.initialCash, cost, price, highest);
    quantity := Drain(cfg.initialCash, cost, price);
    VolumeFits(cap, least, share, quantity);
  }

  /** A bar of which `quantity` is that share holds at least `quantity` under the cap. */
  predicate FitsBar(quantity: real, share: real, cap: real)
    requires share > 0.0
  {
    var volume := quantity / share;
    volume > 0.0 && quantity / volume == share && CapacityFits(volume, cap, quantity)
  }

  lemma DrainWithLinearImpact(cfg: BacktestConfig) returns (quantity: real, volume: real)
    requires cfg.initialCash > cfg.cost.minCommission && cfg.cost.impactModel == LINEAR
    ensures Drains(cfg, quantity, volume)
  {
    var share;
    quantity, share := LinearChoice(cfg);
    volume := quantity / share;
    LinearQuietSlip(cfg, quantity, volume, share);
    DrainsAt(cfg, quantity, volume, LinearSlip(cfg.cost, share));
  }

  lemma LinearQuietSlip(cfg: BacktestConfig, quantity: real, volume: real, share: real)
    requires cfg.cost.impactModel == LINEAR && quantity >= 0.0 && volume > 0.0 && quantity / volume == share
    ensures QuietSlip(cfg.cost, quantity, volume, cfg.maths) == LinearSlip(cfg.cost, share)
  {
    QuietSlipIs(cfg.cost, quantity, volume, cfg.maths);
  }

  lemma ShareIsSmall(cap: real, least: real)
    requires cap > 0.0 && least > 0.0
    ensures 0.0 < cap * least / (1.0 + least) <= cap
  {
    PositiveValue(cap, least);
    PositiveQuotient(cap * least, 1.0 + least);
    MulDiv(cap * least, 1.0 + least);
    assert (cap - cap * least / (1.0 + least)) * (1.0 + least) == cap;
    NonNegativeFactor(cap - cap * least / (1.0 + least), 1.0 + least);
  }

  lemma VolumeFits(cap: real, least: real, share: real, quantity: real)
    requires cap > 0.0 && 0.0 < least <= quantity && share == cap * least / (1.0 + least) && share > 0.0
    ensures FitsBar(quantity, share, cap)
  {
    var volume := quantity / share;
    PositiveQuotient(quantity, share);
    MulDiv(quantity, share);
    MulDiv(quantity, volume);
    assert share * volume == quantity;
    assert quantity / volume == share by {
      MulDiv(share, volume);
    }
    MulDiv(cap * least, 1.0 + least);
    assert volume * cap * least == volume * (share * (1.0 + least)) == quantity * (1.0 + least);
    assert (volume * cap - quantity) * least == quantity;
    AtLeastOne(volume * cap - quantity, least, quantity);
  }

  lemma AtLeastOne(a: real, b: real, c: real)
    requires 0.0 < b <= c && a * b == c
    ensures a >= 1.0
  {
    assert (a - 1.0) * b == c - b;
    NonNegativeFactor(a - 1.0, b);
  }

  lemma DrainExists(cfg: BacktestConfig) returns (quantity: real, volume: real)
    requires cfg.initialCash > cfg.cost.minCommission
    ensures Drains(cfg, quantity, volume)
  {
    if cfg.cost.impactModel == LINEAR {
      quantity, volume := DrainWithLinearImpact(cfg);
    } else {
      quantity, volume := DrainWithoutImpact(cfg);
    }
  }
}
