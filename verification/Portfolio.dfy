/** Value types of the backtester (backtesting/models.py) that accounting needs. */
module Models {
  datatype Side = BUY | SELL | SELL_SHORT

  datatype Direction = LONG | SHORT

  /** A (possibly partial) execution. */
  datatype Fill = Fill(
    orderId: nat, symbol: string, side: Side, quantity: real, price: real, referencePrice: real,
    fee: real, timestampNs: int, signalTsNs: int, regime: int, tag: string)
  {
    function SignedQuantity(): real {
      if side == BUY then quantity else -quantity
    }

    function Notional(): real {
      quantity * price
    }
  }

  /** One completed round trip. */
  datatype ClosedTrade = ClosedTrade(
    symbol: string, direction: Direction, entryTsNs: int, exitTsNs: int, quantity: real,
    avgEntry: real, avgExit: real, grossPnl: real, fees: real, regime: int)
  {
    function Sign(): real {
      if direction == LONG then 1.0 else -1.0
    }
  }

  datatype Rejection = Rejection(
    orderId: nat, symbol: string, timestampNs: int, reason: string, quantity: real)
}

/** Average-cost accounting (backtesting/portfolio.py) over exact arithmetic. */
module Portfolios {
  import opened Prelude
  import opened Sums
  import opened Models

  datatype Position = Position(
    symbol: string, quantity: real, avgCost: real, openedTsNs: int, regime: int,
    entryQty: real, entryNotional: real, exitQty: real, exitNotional: real,
    realisedGross: real, fees: real)
  {
    function Sign(): real {
      if quantity > 0.0 then 1.0 else -1.0
    }

    /** What the accounting keeps true of every open position: what was entered and not yet
        exited is still held, at cost. */
    ghost predicate Ok() {
      && quantity != 0.0
      && exitQty >= 0.0
      && entryQty == exitQty + Abs(quantity)
      && entryNotional - (exitNotional - Sign() * realisedGross) == Abs(quantity) * avgCost
    }
  }

  /** Result of reducing a position: what stays open, what was realised, what was closed. */
  datatype Reduction = Reduction(
    position: Option<Position>, realised: real, closed: seq<ClosedTrade>)

  datatype Portfolio = Portfolio(
    initialCash: real, cash: real, positions: map<string, Position>, realisedPnl: real,
    feesPaid: real, signedNotional: real, tradedNotional: real)
  {
    /** Signed holding in `symbol`, 0 when flat. */
    function Quantity(symbol: string): real {
      if symbol in positions then positions[symbol].quantity else 0.0
    }

    ghost predicate Ok() {
      forall s :: s in positions ==> positions[s].Ok() && positions[s].symbol == s
    }
  }

  datatype Snapshot = Snapshot(
    tsNs: int, cash: real, equity: real, realisedPnl: real, unrealisedPnl: real, feesPaid: real,
    grossExposure: real, positions: map<string, Position>)

  // ---------------------------------------------------------------- operations

  function New(initialCash: real): Portfolio {
    Portfolio(initialCash, initialCash, map[], 0.0, 0.0, 0.0, 0.0)
  }

  function OpenPosition(fill: Fill, qty: real, fee: real): Position {
    var signed := if fill.SignedQuantity() > 0.0 then qty else -qty;
    Position(fill.symbol, signed, fill.price, fill.timestampNs, fill.regime,
             qty, qty * fill.price, 0.0, 0.0, 0.0, fee)
  }

  function TradeFrom(pos: Position, direction: Direction, exitTsNs: int): ClosedTrade
    requires pos.entryQty != 0.0 && pos.exitQty != 0.0
  {
    ClosedTrade(pos.symbol, direction, pos.openedTsNs, exitTsNs, pos.entryQty,
                pos.entryNotional / pos.entryQty, pos.exitNotional / pos.exitQty,
                pos.realisedGross, pos.fees, pos.regime)
  }

  function Increase(pos: Position, fill: Fill): Position
    requires fill.quantity > 0.0
  {
    var newAbs := Abs(pos.quantity) + fill.quantity;
    pos.(quantity := pos.quantity + fill.SignedQuantity(),
         avgCost := (Abs(pos.quantity) * pos.avgCost + fill.quantity * fill.price) / newAbs,
         entryQty := pos.entryQty + fill.quantity,
         entryNotional := pos.entryNotional + fill.quantity * fill.price,
         fees := pos.fees + fill.fee)
  }

  function Reduce(pos: Position, fill: Fill): Reduction
    requires fill.quantity > 0.0 && pos.Ok()
  {
    var closeQty := Min(fill.quantity, Abs(pos.quantity));
    var realised := closeQty * (fill.price - pos.avgCost) * pos.Sign();
    var feeClose := fill.fee * closeQty / fill.quantity;
    var updated := pos.(
      quantity := pos.quantity + fill.SignedQuantity(),
      exitQty := pos.exitQty + closeQty,
      exitNotional := pos.exitNotional + closeQty * fill.price,
      realisedGross := pos.realisedGross + realised,
      fees := pos.fees + feeClose);
    if Abs(pos.quantity) > closeQty then
      Reduction(Some(updated), realised, [])
    else
      var trade := TradeFrom(updated, if pos.quantity > 0.0 then LONG else SHORT, fill.timestampNs);
      var leftover := fill.quantity - closeQty;
      if leftover == 0.0 then
        Reduction(None, realised, [trade])
      else
        Reduction(Some(OpenPosition(fill, leftover, fill.fee - feeClose)), realised, [trade])
  }

  /** What a fill does to the one position it touches. */
  function Effect(p: Portfolio, fill: Fill): Reduction
    requires fill.quantity > 0.0 && p.Ok()
  {
    if fill.symbol !in p.positions then
      Reduction(Some(OpenPosition(fill, fill.quantity, fill.fee)), 0.0, [])
    else
      var pos := p.positions[fill.symbol];
      if (pos.quantity > 0.0) == (fill.SignedQuantity() > 0.0) then
        Reduction(Some(Increase(pos, fill)), 0.0, [])
      else
        Reduce(pos, fill)
  }

  function ApplyFill(p: Portfolio, fill: Fill): (Portfolio, seq<ClosedTrade>)
    requires fill.quantity > 0.0 && p.Ok()
  {
    var q := fill.SignedQuantity();
    var e := Effect(p, fill);
    (p.(cash := p.cash - q * fill.price - fill.fee,
        positions := match e.position
                     case None => p.positions - {fill.symbol}
                     case Some(pos) => p.positions[fill.symbol := pos],
        realisedPnl := p.realisedPnl + e.realised,
        feesPaid := p.feesPaid + fill.fee,
        signedNotional := p.signedNotional + q * fill.price,
        tradedNotional := p.tradedNotional + fill.Notional()),
     e.closed)
  }

  // ---------------------------------------------------------------- sums over positions

  type Weight = (string, Position) -> real

  function FeesOf(s: string, pos: Position): real { pos.fees }

  function RealisedOf(s: string, pos: Position): real { pos.realisedGross }

  function CostOf(s: string, pos: Position): real { pos.quantity * pos.avgCost }

  function Mark(marks: map<string, real>, s: string, pos: Position): real {
    if s in marks then marks[s] else pos.avgCost
  }

  function ValueOf(marks: map<string, real>): Weight {
    (s: string, pos: Position) => pos.quantity * Mark(marks, s, pos)
  }

  function GainOf(marks: map<string, real>): Weight {
    (s: string, pos: Position) => pos.quantity * (Mark(marks, s, pos) - pos.avgCost)
  }

  function GrossOf(marks: map<string, real>): Weight {
    (s: string, pos: Position) => Abs(pos.quantity) * Mark(marks, s, pos)
  }

  ghost function UnrealisedPnl(p: Portfolio, marks: map<string, real>): real {
    Sum(p.positions, GainOf(marks))
  }

  ghost function Equity(p: Portfolio, marks: map<string, real>): real {
    p.cash + Sum(p.positions, ValueOf(marks))
  }

  ghost function GrossExposure(p: Portfolio, marks: map<string, real>): real {
    Sum(p.positions, GrossOf(marks))
  }

  ghost function TakeSnapshot(p: Portfolio, tsNs: int, marks: map<string, real>): Snapshot {
    Snapshot(tsNs, p.cash, Equity(p, marks), p.realisedPnl, UnrealisedPnl(p, marks), p.feesPaid,
             GrossExposure(p, marks), p.positions)
  }

  /** The accumulator loop behind unrealised_pnl, equity and gross_exposure: whatever order the
      positions are visited in, the total is the sum. */
  method SumPositions(positions: map<string, Position>, w: Weight) returns (total: real)
    ensures total == Sum(positions, w)
  {
    total := 0.0;
    var left := positions;
    while left != map[]
      invariant total + Sum(left, w) == Sum(positions, w)
      decreases |left|
    {
      var s :| s in left;
      SumSplit(left, s, w);
      total := total + w(s, left[s]);
      left := left - {s};
    }
  }

  const EQUITY_TOLERANCE: real := 0.000000001

  /** What the books must agree on: cash, and the equity identity up to the tolerance. */
  ghost predicate Reconciles(p: Portfolio, marks: map<string, real>) {
    && p.cash == p.initialCash - p.signedNotional - p.feesPaid
    && Abs(Equity(p, marks) - (p.initialCash + p.realisedPnl + UnrealisedPnl(p, marks) - p.feesPaid))
       <= 0.000000001
  }

  /** check_invariants: true when it returns normally, false when it raises. */
  method CheckInvariants(p: Portfolio, marks: map<string, real>) returns (ok: bool)
    ensures ok == Reconciles(p, marks)
  {
    if p.cash != p.initialCash - p.signedNotional - p.feesPaid {
      return false;
    }
    var unrealised := SumPositions(p.positions, GainOf(marks));
    var value := SumPositions(p.positions, ValueOf(marks));
    var expected := p.initialCash + p.realisedPnl + unrealised - p.feesPaid;
    return Abs(p.cash + value - expected) <= EQUITY_TOLERANCE;
  }

  // ---------------------------------------------------------------- one fill

  /** A position a fill opens, grows or shrinks satisfies the round-trip invariant again. */
  lemma OpenOk(fill: Fill, qty: real, fee: real)
    requires fill.quantity > 0.0 && qty > 0.0
    ensures OpenPosition(fill, qty, fee).Ok()
  {
  }

  lemma IncreaseOk(pos: Position, fill: Fill)
    requires pos.Ok() && fill.quantity > 0.0
    requires (pos.quantity > 0.0) == (fill.SignedQuantity() > 0.0)
    ensures Increase(pos, fill).Ok()
    ensures CostOf(pos.symbol, Increase(pos, fill)) == CostOf(pos.symbol, pos) + fill.SignedQuantity() * fill.price
  {
    var newAbs := Abs(pos.quantity) + fill.quantity;
    MulDiv(Abs(pos.quantity) * pos.avgCost + fill.quantity * fill.price, newAbs);
    assert newAbs == Abs(Increase(pos, fill).quantity);
    assert Increase(pos, fill).avgCost * newAbs
        == Abs(pos.quantity) * pos.avgCost + fill.quantity * fill.price;
  }

  /** Each closed trade is a true round trip: what was entered was exited, and the gross result
      is direction times what came out minus what went in. */
  ghost predicate TradeOk(t: ClosedTrade) {
    t.quantity > 0.0 && t.grossPnl == t.Sign() * (t.quantity * t.avgExit - t.quantity * t.avgEntry)
  }

  /** The position as it stands at the moment the fill has closed its share of it. */
  lemma ReduceTrade(pos: Position, fill: Fill)
    requires pos.Ok() && fill.quantity >= Abs(pos.quantity)
    ensures fill.quantity > 0.0
    ensures |Reduce(pos, fill).closed| == 1 && TradeOk(Reduce(pos, fill).closed[0])
    ensures Reduce(pos, fill).closed[0].grossPnl == pos.realisedGross + Reduce(pos, fill).realised
  {
    var closeQty := Abs(pos.quantity);
    var realised := Reduce(pos, fill).realised;
    var entryQty, exitNotional := pos.entryQty, pos.exitNotional + closeQty * fill.price;
    var t := Reduce(pos, fill).closed[0];
    MulDiv(pos.entryNotional, entryQty);
    MulDiv(exitNotional, entryQty);
    assert t.quantity * t.avgExit == exitNotional;
    assert t.quantity * t.avgEntry == pos.entryNotional;
    assert pos.Sign() * realised == closeQty * (fill.price - pos.avgCost);
    assert closeQty * (fill.price - pos.avgCost) == closeQty * fill.price - closeQty * pos.avgCost;
    assert pos.Sign() * (pos.realisedGross + realised)
        == pos.Sign() * pos.realisedGross + pos.Sign() * realised;
  }

  lemma PartialReduceOk(pos: Position, fill: Fill)
    requires pos.Ok() && 0.0 < fill.quantity < Abs(pos.quantity)
    requires (pos.quantity > 0.0) != (fill.SignedQuantity() > 0.0)
    ensures Reduce(pos, fill).position.Some? && Reduce(pos, fill).position.value.Ok()
  {
    var realised := Reduce(pos, fill).realised;
    var next := Reduce(pos, fill).position.value;
    var qty := fill.quantity;
    assert next.Sign() == pos.Sign();
    assert pos.Sign() * realised == qty * (fill.price - pos.avgCost);
    assert next.Sign() * next.realisedGross == pos.Sign() * pos.realisedGross + pos.Sign() * realised;
    assert Abs(next.quantity) == Abs(pos.quantity) - qty;
    assert Abs(next.quantity) * pos.avgCost == Abs(pos.quantity) * pos.avgCost - qty * pos.avgCost;
    assert qty * (fill.price - pos.avgCost) == qty * fill.price - qty * pos.avgCost;
  }

  /** The accounting of one fill, as changes of totals of the one symbol it touches. */
  ghost predicate EffectOk(p: Portfolio, fill: Fill, e: Reduction) {
    && (e.position.Some? ==> e.position.value.Ok() && e.position.value.symbol == fill.symbol)
    && (forall i :: 0 <= i < |e.closed| ==> TradeOk(e.closed[i]))
    && |e.closed| <= 1
    && Held(e.position) == p.Quantity(fill.symbol) + fill.SignedQuantity()
    && Weigh(e.position, fill.symbol, CostOf)
       == WeighIn(p, fill.symbol, CostOf) + fill.SignedQuantity() * fill.price + e.realised
    && Weigh(e.position, fill.symbol, FeesOf) + Fees(e.closed)
       == WeighIn(p, fill.symbol, FeesOf) + fill.fee
    && Weigh(e.position, fill.symbol, RealisedOf) + Gross(e.closed)
       == WeighIn(p, fill.symbol, RealisedOf) + e.realised
  }

  lemma EffectBalances(p: Portfolio, fill: Fill)
    requires p.Ok() && fill.quantity > 0.0
    ensures EffectOk(p, fill, Effect(p, fill))
  {
    if fill.symbol !in p.positions {
      OpenOk(fill, fill.quantity, fill.fee);
    } else {
      var pos := p.positions[fill.symbol];
      if (pos.quantity > 0.0) == (fill.SignedQuantity() > 0.0) {
        IncreaseOk(pos, fill);
      } else {
        ReduceBalances(pos, fill);
      }
    }
  }

  ghost predicate Balances(pos: Position, fill: Fill, e: Reduction) {
    && (e.position.Some? ==> e.position.value.Ok() && e.position.value.symbol == fill.symbol)
    && (forall i :: 0 <= i < |e.closed| ==> TradeOk(e.closed[i]))
    && |e.closed| <= 1
    && Held(e.position) == pos.quantity + fill.SignedQuantity()
    && Weigh(e.position, fill.symbol, CostOf)
       == CostOf(fill.symbol, pos) + fill.SignedQuantity() * fill.price + e.realised
    && Weigh(e.position, fill.symbol, FeesOf) + Fees(e.closed) == pos.fees + fill.fee
    && Weigh(e.position, fill.symbol, RealisedOf) + Gross(e.closed) == pos.realisedGross + e.realised
  }

  lemma ReduceBalances(pos: Position, fill: Fill)
    requires pos.Ok() && fill.quantity > 0.0 && pos.symbol == fill.symbol
    requires (pos.quantity > 0.0) != (fill.SignedQuantity() > 0.0)
    ensures Balances(pos, fill, Reduce(pos, fill))
  {
    if fill.quantity < Abs(pos.quantity) {
      PartialBalances(pos, fill);
    } else {
      CloseBalances(pos, fill);
    }
  }

  lemma PartialBalances(pos: Position, fill: Fill)
    requires pos.Ok() && 0.0 < fill.quantity < Abs(pos.quantity) && pos.symbol == fill.symbol
    requires (pos.quantity > 0.0) != (fill.SignedQuantity() > 0.0)
    ensures Balances(pos, fill, Reduce(pos, fill))
  {
    MulDiv(fill.fee, fill.quantity);
    PartialReduceOk(pos, fill);
    PartialResult(pos, fill);
    CostAfterPartial(pos.quantity, pos.Sign(), fill.quantity, fill.price, pos.avgCost);
    PartialArithmetic(pos, fill, Reduce(pos, fill));
  }

  lemma PartialResult(pos: Position, fill: Fill)
    requires pos.Ok() && 0.0 < fill.quantity < Abs(pos.quantity)
    requires (pos.quantity > 0.0) != (fill.SignedQuantity() > 0.0)
    ensures Shrunk(pos, fill, Reduce(pos, fill))
  {
    MulDiv(fill.fee, fill.quantity);
  }

  /** What a partial reduction returns. */
  predicate Shrunk(pos: Position, fill: Fill, e: Reduction) {
    && e.closed == [] && e.position.Some?
    && e.realised == fill.quantity * (fill.price - pos.avgCost) * pos.Sign()
    && fill.SignedQuantity() == -(pos.Sign() * fill.quantity)
    && var p := e.position.value;
       p.symbol == pos.symbol && p.quantity == pos.quantity + fill.SignedQuantity() && p.avgCost == pos.avgCost
       && p.fees == pos.fees + fill.fee && p.realisedGross == pos.realisedGross + e.realised
  }

  lemma PartialArithmetic(pos: Position, fill: Fill, e: Reduction)
    requires Shrunk(pos, fill, e) && e.position.value.Ok() && pos.symbol == fill.symbol
    requires var (sign, qty) := (pos.Sign(), fill.quantity);
      (pos.quantity - sign * qty) * pos.avgCost
      == pos.quantity * pos.avgCost + -(sign * qty) * fill.price + qty * (fill.price - pos.avgCost) * sign
    ensures Balances(pos, fill, e)
  {
    assert Fees([]) == 0.0 && Gross([]) == 0.0;
  }

  lemma CloseBalances(pos: Position, fill: Fill)
    requires pos.Ok() && fill.quantity >= Abs(pos.quantity) && pos.symbol == fill.symbol
    requires (pos.quantity > 0.0) != (fill.SignedQuantity() > 0.0)
    ensures Balances(pos, fill, Reduce(pos, fill))
  {
    var e := Reduce(pos, fill);
    var held, feeClose := Abs(pos.quantity), fill.fee * Abs(pos.quantity) / fill.quantity;
    ReduceTrade(pos, fill);
    CloseShape(pos, fill);
    CostAfterClose(pos.Sign(), held, fill.quantity, fill.price, pos.avgCost);
    CloseArithmetic(pos, fill, feeClose, e);
  }

  /** What is left after a close: nothing, or the rest of the fill the other way round. */
  ghost predicate Closed(pos: Position, fill: Fill, feeClose: real, e: Reduction) {
    var held := Abs(pos.quantity);
    && |e.closed| == 1 && e.closed[0].fees == pos.fees + feeClose
    && e.closed[0].grossPnl == pos.realisedGross + e.realised && TradeOk(e.closed[0])
    && e.realised == held * (fill.price - pos.avgCost) * pos.Sign()
    && match e.position
       case None => fill.quantity == held && feeClose == fill.fee
       case Some(p) =>
         && p.Ok() && p.symbol == fill.symbol && p.quantity == -(pos.Sign() * (fill.quantity - held))
         && p.avgCost == fill.price && p.fees == fill.fee - feeClose && p.realisedGross == 0.0
  }

  lemma CloseShape(pos: Position, fill: Fill)
    requires pos.Ok() && fill.quantity >= Abs(pos.quantity) && pos.symbol == fill.symbol
    requires (pos.quantity > 0.0) != (fill.SignedQuantity() > 0.0)
    ensures Closed(pos, fill, fill.fee * Abs(pos.quantity) / fill.quantity, Reduce(pos, fill))
  {
    ReduceTrade(pos, fill);
    CloseResult(pos, fill);
    CloseFromResult(pos, fill, fill.fee * Abs(pos.quantity) / fill.quantity, Reduce(pos, fill));
  }

  /** The dates, direction and size of what a fill closes and opens. A trade closes exactly when the fill goes
      against the position and is at least as large: it runs from the position's opening to the fill, in the
      position's direction, over everything entered. What is open afterwards keeps its opening and regime,
      unless the fill opened it. */
  lemma EffectDates(p: Portfolio, fill: Fill)
    requires p.Ok() && fill.quantity > 0.0
    ensures var e, held := Effect(p, fill), fill.symbol in p.positions;
      var closes := held && (p.positions[fill.symbol].quantity > 0.0) != (fill.side == BUY)
                    && fill.quantity >= Abs(p.positions[fill.symbol].quantity);
      && (e.closed != [] <==> closes)
      && (closes ==>
            var pos, t := p.positions[fill.symbol], e.closed[0];
            && t.symbol == fill.symbol && t.entryTsNs == pos.openedTsNs && t.exitTsNs == fill.timestampNs
            && t.direction == (if pos.quantity > 0.0 then LONG else SHORT)
            && t.quantity == pos.entryQty && t.regime == pos.regime)
      && (e.position.Some? ==>
            var n := e.position.value;
            if held && !closes
            then n.openedTsNs == p.positions[fill.symbol].openedTsNs && n.regime == p.positions[fill.symbol].regime
            else n.openedTsNs == fill.timestampNs && n.regime == fill.regime && n.avgCost == fill.price)
  {
  }

  lemma CloseResult(pos: Position, fill: Fill)
    requires pos.Ok() && fill.quantity >= Abs(pos.quantity)
    ensures var held, feeClose, e := Abs(pos.quantity), fill.fee * Abs(pos.quantity) / fill.quantity, Reduce(pos, fill);
      && |e.closed| == 1 && e.closed[0].fees == pos.fees + feeClose
      && e.realised == held * (fill.price - pos.avgCost) * pos.Sign()
      && e.position ==
         if fill.quantity == held then None else Some(OpenPosition(fill, fill.quantity - held, fill.fee - feeClose))
  {
  }

  lemma CloseFromResult(pos: Position, fill: Fill, feeClose: real, e: Reduction)
    requires pos.quantity != 0.0 && fill.quantity >= Abs(pos.quantity)
    requires (pos.quantity > 0.0) != (fill.SignedQuantity() > 0.0)
    requires feeClose == fill.fee * Abs(pos.quantity) / fill.quantity
    requires |e.closed| == 1 && e.closed[0].fees == pos.fees + feeClose && TradeOk(e.closed[0])
    requires e.closed[0].grossPnl == pos.realisedGross + e.realised
    requires e.realised == Abs(pos.quantity) * (fill.price - pos.avgCost) * pos.Sign()
    requires var held := Abs(pos.quantity);
      e.position ==
        if fill.quantity == held then None else Some(OpenPosition(fill, fill.quantity - held, fill.fee - feeClose))
    ensures Closed(pos, fill, feeClose, e)
  {
    var leftover := fill.quantity - Abs(pos.quantity);
    if leftover == 0.0 {
      MulDiv(fill.fee, fill.quantity);
    } else {
      OpenOk(fill, leftover, fill.fee - feeClose);
      RestShape(pos, fill, leftover, fill.fee - feeClose);
    }
  }

  /** The rest of a fill that flips a position opens the other way round. */
  lemma RestShape(pos: Position, fill: Fill, leftover: real, fee: real)
    requires pos.quantity != 0.0 && leftover == fill.quantity - Abs(pos.quantity) > 0.0
    requires (pos.quantity > 0.0) != (fill.SignedQuantity() > 0.0)
    ensures OpenPosition(fill, leftover, fee).quantity == -(pos.Sign() * leftover)
  {
  }

  lemma CloseArithmetic(pos: Position, fill: Fill, feeClose: real, e: Reduction)
    requires Closed(pos, fill, feeClose, e) && pos.quantity != 0.0
    requires (pos.quantity > 0.0) != (fill.SignedQuantity() > 0.0) && fill.quantity > 0.0
    requires var (sign, held) := (pos.Sign(), Abs(pos.quantity));
      -(sign * (fill.quantity - held)) * fill.price
      == sign * held * pos.avgCost + (-(sign * fill.quantity)) * fill.price
         + held * (fill.price - pos.avgCost) * sign
    ensures Balances(pos, fill, e)
  {
    assert e.closed == [e.closed[0]] && e.closed[..0] == [];
    assert Fees(e.closed) == Fees([]) + e.closed[0].fees;
    assert Gross(e.closed) == Gross([]) + e.closed[0].grossPnl;
    assert fill.SignedQuantity() == -(pos.Sign() * fill.quantity);
    assert pos.quantity == pos.Sign() * Abs(pos.quantity);
  }

  lemma CostAfterPartial(quantity: real, sign: real, qty: real, price: real, avgCost: real)
    requires sign == 1.0 || sign == -1.0
    ensures (quantity - sign * qty) * avgCost
         == quantity * avgCost - sign * qty * price + qty * (price - avgCost) * sign
  {
  }

  lemma CostAfterClose(sign: real, held: real, qty: real, price: real, avgCost: real)
    requires sign == 1.0 || sign == -1.0
    ensures -(sign * (qty - held)) * price
         == sign * held * avgCost + (-(sign * qty)) * price + held * (price - avgCost) * sign
  {
  }

  function Held(pos: Option<Position>): real {
    if pos.Some? then pos.value.quantity else 0.0
  }

  function Weigh(pos: Option<Position>, s: string, w: Weight): real {
    if pos.Some? then w(s, pos.value) else 0.0
  }

  function WeighIn(p: Portfolio, s: string, w: Weight): real {
    if s in p.positions then w(s, p.positions[s]) else 0.0
  }

  function Fees(trades: seq<ClosedTrade>): real {
    if trades == [] then 0.0 else Fees(trades[..|trades| - 1]) + trades[|trades| - 1].fees
  }

  function Gross(trades: seq<ClosedTrade>): real {
    if trades == [] then 0.0 else Gross(trades[..|trades| - 1]) + trades[|trades| - 1].grossPnl
  }

  lemma TradesAppend(trades: seq<ClosedTrade>, more: seq<ClosedTrade>)
    requires |more| <= 1
    ensures Fees(trades + more) == Fees(trades) + Fees(more)
    ensures Gross(trades + more) == Gross(trades) + Gross(more)
  {
    if more == [] {
      assert trades + more == trades;
    } else {
      assert (trades + more)[..|trades|] == trades;
      assert more[..0] == [];
    }
  }

  // ---------------------------------------------------------------- any number of fills

  /** The portfolio and the trade ledger after a sequence of fills. */
  datatype Books = Books(portfolio: Portfolio, trades: seq<ClosedTrade>)

  function Post(b: Books, fill: Fill): Books
    requires fill.quantity > 0.0 && b.portfolio.Ok()
  {
    var (p, closed) := ApplyFill(b.portfolio, fill);
    Books(p, b.trades + closed)
  }

  ghost predicate Positive(fills: seq<Fill>) {
    forall i :: 0 <= i < |fills| ==> fills[i].quantity > 0.0
  }

  ghost function PostAll(initialCash: real, fills: seq<Fill>): (b: Books)
    requires Positive(fills)
    ensures b.portfolio.Ok()
  {
    if fills == [] then
      Books(New(initialCash), [])
    else
      var b := PostAll(initialCash, fills[..|fills| - 1]);
      EffectBalances(b.portfolio, fills[|fills| - 1]);
      Post(b, fills[|fills| - 1])
  }

  /** Net signed quantity traded in `s`: the position an outside observer would compute. */
  function NetQuantity(fills: seq<Fill>, s: string): real {
    if fills == [] then 0.0 else
      var f := fills[|fills| - 1];
      NetQuantity(fills[..|fills| - 1], s) + if f.symbol == s then f.SignedQuantity() else 0.0
  }

  function SignedValue(fills: seq<Fill>): real {
    if fills == [] then 0.0 else
      var f := fills[|fills| - 1];
      SignedValue(fills[..|fills| - 1]) + f.SignedQuantity() * f.price
  }

  function FillFees(fills: seq<Fill>): real {
    if fills == [] then 0.0 else FillFees(fills[..|fills| - 1]) + fills[|fills| - 1].fee
  }

  /** The books balance: every total the portfolio carries is the one recomputed from the open
      positions and the closed trades. */
  ghost predicate Balanced(b: Books) {
    var p := b.portfolio;
    && p.cash == p.initialCash - p.signedNotional - p.feesPaid
    && Sum(p.positions, CostOf) == p.signedNotional + p.realisedPnl
    && p.realisedPnl == Gross(b.trades) + Sum(p.positions, RealisedOf)
    && p.feesPaid == Fees(b.trades) + Sum(p.positions, FeesOf)
    && (forall i :: 0 <= i < |b.trades| ==> TradeOk(b.trades[i]))
  }

  /** `next` records a fill whose effect was `e`: only the totals of one symbol moved. */
  ghost predicate Recorded(b: Books, fill: Fill, e: Reduction, next: Books) {
    var (p, q) := (b.portfolio, next.portfolio);
    && q.initialCash == p.initialCash
    && q.cash == p.cash - fill.SignedQuantity() * fill.price - fill.fee
    && q.realisedPnl == p.realisedPnl + e.realised
    && q.feesPaid == p.feesPaid + fill.fee
    && q.signedNotional == p.signedNotional + fill.SignedQuantity() * fill.price
    && next.trades == b.trades + e.closed
    && SumMoved(p, q, fill.symbol, e, CostOf)
    && SumMoved(p, q, fill.symbol, e, FeesOf)
    && SumMoved(p, q, fill.symbol, e, RealisedOf)
  }

  ghost predicate SumMoved(p: Portfolio, q: Portfolio, s: string, e: Reduction, w: Weight) {
    Sum(q.positions, w) == Sum(p.positions, w) - WeighIn(p, s, w) + Weigh(e.position, s, w)
  }

  lemma RecordedBalances(b: Books, fill: Fill, e: Reduction, next: Books)
    requires Balanced(b) && Recorded(b, fill, e, next) && EffectOk(b.portfolio, fill, e)
    ensures Balanced(next)
  {
    TradesAppend(b.trades, e.closed);
    assert forall i :: 0 <= i < |next.trades| ==>
      next.trades[i] == if i < |b.trades| then b.trades[i] else e.closed[i - |b.trades|];
  }

  lemma PostBalanced(b: Books, fill: Fill)
    requires b.portfolio.Ok() && fill.quantity > 0.0 && Balanced(b)
    ensures Post(b, fill).portfolio.Ok() && Balanced(Post(b, fill))
  {
    EffectBalances(b.portfolio, fill);
    SumAfter(b.portfolio, fill, CostOf);
    SumAfter(b.portfolio, fill, FeesOf);
    SumAfter(b.portfolio, fill, RealisedOf);
    RecordedBalances(b, fill, Effect(b.portfolio, fill), Post(b, fill));
  }

  lemma SumAfter(p: Portfolio, fill: Fill, w: Weight)
    requires p.Ok() && fill.quantity > 0.0
    ensures Sum(ApplyFill(p, fill).0.positions, w)
         == Sum(p.positions, w) - WeighIn(p, fill.symbol, w) + Weigh(Effect(p, fill).position, fill.symbol, w)
  {
    match Effect(p, fill).position
    case None =>
      if fill.symbol in p.positions {
        SumSplit(p.positions, fill.symbol, w);
      }
    case Some(pos) =>
      SumReplace(p.positions, fill.symbol, pos, w);
  }

  /** The main accounting theorem: after ANY sequence of fills the books balance, the holdings
      are the net traded quantities (a symbol is listed exactly when its net is not zero), and
      cash is what the fills alone say it is. */
  lemma {:induction false} FillsConserve(initialCash: real, fills: seq<Fill>)
    requires Positive(fills)
    ensures var b := PostAll(initialCash, fills);
      && Balanced(b)
      && b.portfolio.initialCash == initialCash
      && b.portfolio.feesPaid == FillFees(fills)
      && b.portfolio.signedNotional == SignedValue(fills)
      && (forall s :: b.portfolio.Quantity(s) == NetQuantity(fills, s))
      && (forall s :: s in b.portfolio.positions <==> NetQuantity(fills, s) != 0.0)
  {
    if fills != [] {
      var last := fills[|fills| - 1];
      var before := PostAll(initialCash, fills[..|fills| - 1]);
      FillsConserve(initialCash, fills[..|fills| - 1]);
      PostBalanced(before, last);
      EffectBalances(before.portfolio, last);
      var p := PostAll(initialCash, fills).portfolio;
      forall s
        ensures p.Quantity(s) == NetQuantity(fills, s)
        ensures s in p.positions <==> NetQuantity(fills, s) != 0.0
      {
        assert before.portfolio.Quantity(s) == NetQuantity(fills[..|fills| - 1], s);
        if s == last.symbol {
          var e := Effect(before.portfolio, last).position;
          assert e.Some? ==> e.value.quantity != 0.0;
        }
      }
    } else {
      assert Sum(map[], CostOf) == 0.0;
    }
  }

  /** Quantity times price of every fill, whichever way it went. */
  function TradedValue(fills: seq<Fill>): real {
    if fills == [] then 0.0 else
      TradedValue(fills[..|fills| - 1]) + fills[|fills| - 1].quantity * fills[|fills| - 1].price
  }

  /** The traded notional is what all fills together were worth. */
  lemma {:induction false} TradedIsTotal(initialCash: real, fills: seq<Fill>)
    requires Positive(fills)
    ensures PostAll(initialCash, fills).portfolio.tradedNotional == TradedValue(fills)
    decreases |fills|
  {
    if fills != [] {
      var last, before := fills[|fills| - 1], PostAll(initialCash, fills[..|fills| - 1]);
      TradedIsTotal(initialCash, fills[..|fills| - 1]);
      PostTrades(before, last);
    }
  }

  lemma PostTrades(b: Books, fill: Fill)
    requires b.portfolio.Ok() && fill.quantity > 0.0
    ensures Post(b, fill).portfolio.tradedNotional == b.portfolio.tradedNotional + fill.quantity * fill.price
  {
  }

  /** Equity identity and cash conservation at any marks, so check_invariants never raises. */
  lemma EquityIdentity(initialCash: real, fills: seq<Fill>, marks: map<string, real>)
    requires Positive(fills)
    ensures var p := PostAll(initialCash, fills).portfolio;
      && Equity(p, marks) == initialCash + p.realisedPnl + UnrealisedPnl(p, marks) - p.feesPaid
      && p.cash == initialCash - SignedValue(fills) - FillFees(fills)
  {
    var p := PostAll(initialCash, fills).portfolio;
    FillsConserve(initialCash, fills);
    SumLinear(p.positions, ValueOf(marks), GainOf(marks), CostOf);
  }

  /** A flat book has turned every trade into cash: nothing is hidden in the positions. */
  lemma FlatBook(initialCash: real, fills: seq<Fill>)
    requires Positive(fills) && forall s :: NetQuantity(fills, s) == 0.0
    ensures var b := PostAll(initialCash, fills);
      b.portfolio.cash == initialCash + Gross(b.trades) - Fees(b.trades)
  {
    FillsConserve(initialCash, fills);
    assert PostAll(initialCash, fills).portfolio.positions == map[];
  }
}
