/** Per-symbol rolling state of the sensory array (sensory-array/src/normalizer.rs), over exact reals.
    The state kept step by step is shown to be a plain function of the accepted history. */
module Normalizers {
  import opened Prelude
  import opened Scores

  const MIN_WINDOW := 5
  const MAX_WINDOW := 256
  const MIN_WARMUP_QUOTES := 5
  const MAX_SYMBOLS := 20000
  const MAX_PRICE := 10000000.0
  const MAX_SIZE := 1000000000000.0
  const NS_PER_SEC := 1000000000

  /** Whole seconds of a positive timestamp, by repeated subtraction; SecondIsQuotient says it is the
      quotient the code takes. */
  function SecondOf(ts: int): int {
    if ts < NS_PER_SEC then 0 else 1 + SecondOf(ts - NS_PER_SEC)
  }

  datatype Reject = InvalidPrice | CrossedQuote | InvalidSize | InvalidTimestamp | SymbolLimit | OutOfOrder

  datatype Quote = Quote(bid: real, ask: real, bidSize: real, askSize: real, exchangeTs: int, recvTs: int)
  {
    function Mid(): real { (bid + ask) / 2.0 }

    function Second(): int { SecondOf(exchangeTs) }
  }

  datatype Trade = Trade(price: real, size: real, exchangeTs: int, recvTs: int, day: int)

  predicate IsValidPrice(p: real) {
    0.0 < p <= MAX_PRICE
  }

  predicate IsValidSize(s: real) {
    0.0 <= s <= MAX_SIZE
  }

  function ValidateQuote(q: Quote): Option<Reject> {
    if !IsValidPrice(q.bid) || !IsValidPrice(q.ask) then Some(InvalidPrice)
    else if q.ask < q.bid then Some(CrossedQuote)
    else if !IsValidSize(q.bidSize) || !IsValidSize(q.askSize) then Some(InvalidSize)
    else if q.exchangeTs <= 0 || q.recvTs <= 0 then Some(InvalidTimestamp)
    else None
  }

  function ValidateTrade(t: Trade): Option<Reject> {
    if !IsValidPrice(t.price) then Some(InvalidPrice)
    else if !IsValidSize(t.size) then Some(InvalidSize)
    else if t.exchangeTs <= 0 || t.recvTs <= 0 || t.day <= 0 then Some(InvalidTimestamp)
    else None
  }

  // ---------------------------------------------------------------- what the history means

  datatype Bar = Bar(second: int, mid: real)

  function Mids(quotes: seq<Quote>): (r: seq<real>)
    ensures |r| == |quotes|
  {
    seq(|quotes|, i requires 0 <= i < |quotes| => quotes[i].Mid())
  }

  predicate TimeOrdered(quotes: seq<Quote>) {
    forall i, j :: 0 <= i < j < |quotes| ==> quotes[i].exchangeTs <= quotes[j].exchangeTs
  }

  /** Each quote as the second it fell in and its mid. */
  function Ticks(quotes: seq<Quote>): (r: seq<Bar>)
    ensures |r| == |quotes|
  {
    seq(|quotes|, i requires 0 <= i < |quotes| => Bar(quotes[i].Second(), quotes[i].Mid()))
  }

  /** The last tick of every second, oldest first. */
  function SecondBars(ticks: seq<Bar>): (r: seq<Bar>)
    ensures ticks != [] ==> r != [] && r[|r| - 1] == ticks[|ticks| - 1]
  {
    if ticks == [] then []
    else
      var last, before := ticks[|ticks| - 1], SecondBars(ticks[..|ticks| - 1]);
      if before != [] && before[|before| - 1].second == last.second
      then before[..|before| - 1] + [last] else before + [last]
  }

  /** A trade counts for its day unless a later day was seen before it. */
  predicate Counts(trades: seq<Trade>, i: int) {
    0 <= i < |trades| && forall j :: 0 <= j < i ==> trades[j].day <= trades[i].day
  }

  datatype Day = Day(number: int, volume: real)

  /** The volume of every day that had a counting trade, oldest first. */
  function DayTotals(trades: seq<Trade>): seq<Day> {
    if trades == [] then []
    else
      var n := |trades| - 1;
      AddToDay(DayTotals(trades[..n]), trades[n].day, trades[n].size)
  }

  function AddToDay(totals: seq<Day>, day: int, size: real): seq<Day> {
    if totals == [] || totals[|totals| - 1].number < day then totals + [Day(day, size)]
    else if totals[|totals| - 1].number == day then
      totals[..|totals| - 1] + [Day(day, totals[|totals| - 1].volume + size)]
    else totals
  }

  function Volumes(totals: seq<Day>): (r: seq<real>)
    ensures |r| == |totals|
  {
    seq(|totals|, i requires 0 <= i < |totals| => totals[i].volume)
  }

  /** The completed days, the latest of them last. */
  function Completed(totals: seq<Day>): seq<real> {
    if totals == [] then [] else Volumes(totals[..|totals| - 1])
  }

  /** The latest trade by exchange time, the later print on ties. */
  function LastTrade(trades: seq<Trade>): Option<Trade> {
    if trades == [] then None
    else
      var t, before := trades[|trades| - 1], LastTrade(trades[..|trades| - 1]);
      if before.Some? && t.exchangeTs < before.value.exchangeTs then before else Some(t)
  }

  datatype History = History(quotes: seq<Quote>, trades: seq<Trade>)

  // ---------------------------------------------------------------- state of one symbol

  datatype SymbolState = SymbolState(
    mids: seq<real>, bars: seq<Bar>, dailyVolumes: seq<real>, currentDayVolume: real, currentDay: int,
    lastTradePrice: real, lastTradeSize: real, lastTradeTs: int, tradeRecvTs: int,
    bid: real, ask: real, bidSize: real, askSize: real, exchangeTs: int, recvTs: int,
    zScore: real, madScore: real, hasQuote: bool, scored: bool)

  const DEFAULT := SymbolState([], [], [], 0.0, 0, 0.0, 0.0, 0, 0, 0.0, 0.0, 0.0, 0.0, 0, 0, 0.0, 0.0, false, false)

  /** The prior window that the last quote is scored against. */
  function PriorWindow(quotes: seq<Quote>, window: nat): seq<real>
    requires quotes != []
  {
    LastN(Mids(quotes[..|quotes| - 1]), window)
  }

  ghost predicate QuotesAgree(s: SymbolState, quotes: seq<Quote>, window: nat, sqrt: real -> real) {
    && s.mids == LastN(Mids(quotes), window)
    && s.bars == LastN(SecondBars(Ticks(quotes)), window + 1)
    && s.hasQuote == (quotes != [])
    && (quotes != [] ==>
          var q, prior := quotes[|quotes| - 1], PriorWindow(quotes, window);
          && s.bid == q.bid && s.ask == q.ask && s.bidSize == q.bidSize && s.askSize == q.askSize
          && s.exchangeTs == q.exchangeTs && s.recvTs == q.recvTs
          && s.scored == (|prior| >= MIN_WARMUP_QUOTES)
          && (s.zScore, s.madScore) == if s.scored then ScoresOf(prior, q.Mid(), sqrt) else (0.0, 0.0))
  }

  /** The running day and the completed ones agree with the day totals. */
  predicate DaysAgree(volumes: seq<real>, current: real, day: int, totals: seq<Day>, advDays: nat) {
    && day == (if totals == [] then 0 else totals[|totals| - 1].number)
    && current == (if totals == [] then 0.0 else totals[|totals| - 1].volume)
    && volumes == LastN(Completed(totals), advDays)
  }

  predicate LastTradeAgrees(s: SymbolState, last: Option<Trade>) {
    match last
    case None => s.lastTradeTs == 0
    case Some(t) =>
      s.lastTradePrice == t.price && s.lastTradeSize == t.size
      && s.lastTradeTs == t.exchangeTs && s.tradeRecvTs == t.recvTs
  }

  predicate TradesAgree(s: SymbolState, trades: seq<Trade>, advDays: nat) {
    && DaysAgree(s.dailyVolumes, s.currentDayVolume, s.currentDay, DayTotals(trades), advDays)
    && LastTradeAgrees(s, LastTrade(trades))
  }

  ghost predicate Sound(h: History) {
    && TimeOrdered(h.quotes)
    && (forall q :: q in h.quotes ==> QuoteOk(q))
    && (forall t :: t in h.trades ==> TradeOk(t))
  }

  /** Positive prices of at most ten million, not crossed; sizes of at most a trillion; positive stamps. */
  predicate QuoteOk(q: Quote) {
    && 0.0 < q.bid <= q.ask <= 10000000.0
    && 0.0 <= q.bidSize <= 1000000000000.0 && 0.0 <= q.askSize <= 1000000000000.0
    && q.exchangeTs > 0 && q.recvTs > 0
  }

  predicate TradeOk(t: Trade) {
    && 0.0 < t.price <= 10000000.0 && 0.0 <= t.size <= 1000000000000.0
    && t.exchangeTs > 0 && t.recvTs > 0 && t.day > 0
  }

  // ---------------------------------------------------------------- bars

  function Pushed(bars: seq<Bar>, b: Bar, cap: nat): seq<Bar> {
    if bars == [] || bars[|bars| - 1].second < b.second then LastN(bars + [b], cap)
    else if bars[|bars| - 1].second == b.second then bars[..|bars| - 1] + [b]
    else bars
  }

  /** push_bar: keep at most one bar per second, its last mid, and ignore out-of-order seconds. */
  method PushBar(bars: seq<Bar>, second: int, mid: real, cap: nat) returns (r: seq<Bar>)
    requires cap > 0 && |bars| <= cap
    ensures |r| <= cap
    ensures r == Pushed(bars, Bar(second, mid), cap)
  {
    r := bars;
    if bars != [] && bars[|bars| - 1].second == second {
      return r[..|r| - 1] + [Bar(second, mid)];
    }
    if bars != [] && bars[|bars| - 1].second > second {
      return r;
    }
    r := r + [Bar(second, mid)];
    if |r| > cap {
      r := r[1..];
    }
  }

  predicate SecondsOrdered(ticks: seq<Bar>) {
    forall i, j :: 0 <= i < j < |ticks| ==> ticks[i].second <= ticks[j].second
  }

  lemma {:induction false} SecondIsQuotient(ts: int)
    requires ts >= 0
    ensures SecondOf(ts) == ts / NS_PER_SEC
  {
    if ts >= NS_PER_SEC {
      SecondIsQuotient(ts - NS_PER_SEC);
    }
  }

  lemma {:induction false} SecondsMonotone(a: int, b: int)
    requires 0 <= a <= b
    ensures SecondOf(a) <= SecondOf(b)
  {
    if a >= NS_PER_SEC {
      SecondsMonotone(a - NS_PER_SEC, b - NS_PER_SEC);
    } else {
      SecondNonNegative(b);
    }
  }

  lemma {:induction false} SecondNonNegative(ts: int)
    ensures SecondOf(ts) >= 0
  {
    if ts >= NS_PER_SEC {
      SecondNonNegative(ts - NS_PER_SEC);
    }
  }

  /** Seconds never go back in the accepted history. */
  lemma TicksOrdered(quotes: seq<Quote>)
    requires TimeOrdered(quotes) && forall q :: q in quotes ==> q.exchangeTs > 0
    ensures SecondsOrdered(Ticks(quotes))
  {
    forall i, j | 0 <= i < j < |quotes| ensures quotes[i].Second() <= quotes[j].Second() {
      SecondsMonotone(quotes[i].exchangeTs, quotes[j].exchangeTs);
    }
  }

  lemma BarsPush(ticks: seq<Bar>, t: Bar)
    requires SecondsOrdered(ticks + [t])
    ensures var before := SecondBars(ticks);
      if before == [] || before[|before| - 1].second < t.second then SecondBars(ticks + [t]) == before + [t]
      else before[|before| - 1].second == t.second && SecondBars(ticks + [t]) == before[..|before| - 1] + [t]
  {
    var all := ticks + [t];
    assert all[..|ticks|] == ticks;
    if ticks != [] {
      assert all[|ticks| - 1].second <= all[|ticks|].second;
    }
  }

  lemma LastNReplace<T>(s: seq<T>, x: T, n: nat)
    requires s != [] && n > 0
    ensures LastN(s, n) != [] && LastN(s, n)[|LastN(s, n)| - 1] == s[|s| - 1]
    ensures LastN(s[..|s| - 1] + [x], n) == LastN(s, n)[..|LastN(s, n)| - 1] + [x]
  {
  }

  lemma LastNPushTwice<T>(s: seq<T>, x: T, n: nat)
    requires n > 0
    ensures LastN(LastN(s, n) + [x], n) == LastN(s + [x], n)
  {
  }

  /** Pushing onto the kept end of the bars is keeping the end of the pushed bars. */
  lemma PushedKeepsEnd(all: seq<Bar>, t: Bar, cap: nat)
    requires cap > 0 && (all == [] || all[|all| - 1].second < t.second)
    ensures Pushed(LastN(all, cap), t, cap) == LastN(all + [t], cap)
  {
    LastNPushTwice(all, t, cap);
    if all != [] {
      LastNReplace(all, t, cap);
    }
  }

  lemma ReplacedKeepsEnd(all: seq<Bar>, t: Bar, cap: nat)
    requires cap > 0 && all != [] && all[|all| - 1].second == t.second
    ensures Pushed(LastN(all, cap), t, cap) == LastN(all[..|all| - 1] + [t], cap)
  {
    LastNReplace(all, t, cap);
  }

  lemma LastOfLastN(all: seq<Bar>, cap: nat)
    requires cap > 0
    ensures LastN(all, cap) == [] <==> all == []
    ensures all != [] ==> LastN(all, cap)[|LastN(all, cap)| - 1] == all[|all| - 1]
  {
  }

  /** What push_bar leaves is the history's bars, and its out-of-order branch is unreachable: the
      last bar is never newer than the quote being applied. */
  lemma BarsFollow(ticks: seq<Bar>, t: Bar, cap: nat)
    requires SecondsOrdered(ticks + [t]) && cap > 0
    ensures LastN(SecondBars(ticks + [t]), cap) == Pushed(LastN(SecondBars(ticks), cap), t, cap)
    ensures var bars := LastN(SecondBars(ticks), cap); bars == [] || bars[|bars| - 1].second <= t.second
  {
    var all := SecondBars(ticks);
    BarsPush(ticks, t);
    LastOfLastN(all, cap);
    if all == [] || all[|all| - 1].second < t.second {
      PushedKeepsEnd(all, t, cap);
    } else {
      ReplacedKeepsEnd(all, t, cap);
    }
  }

  predicate BarsAscend(bars: seq<Bar>) {
    forall i, j :: 0 <= i < j < |bars| ==> bars[i].second < bars[j].second
  }

  /** Tick `i` is the last of its second. */
  predicate ClosesSecond(ticks: seq<Bar>, i: nat)
    requires i < |ticks|
  {
    i + 1 < |ticks| ==> ticks[i + 1].second != ticks[i].second
  }

  /** Those of the first `n` ticks that close their second. */
  function Closes(ticks: seq<Bar>, n: nat): seq<Bar>
    requires n <= |ticks|
  {
    if n == 0 then []
    else if ClosesSecond(ticks, n - 1) then Closes(ticks, n - 1) + [ticks[n - 1]]
    else Closes(ticks, n - 1)
  }

  lemma {:induction false} ClosesOfFront(front: seq<Bar>, t: Bar, n: nat)
    requires n < |front|
    ensures Closes(front + [t], n) == Closes(front, n)
    decreases n
  {
    if n > 0 {
      ClosesOfFront(front, t, n - 1);
    }
  }

  lemma ClosesPush(front: seq<Bar>, t: Bar)
    requires front != []
    ensures var n := |front|;
      Closes(front + [t], n + 1)
        == (if front[n - 1].second == t.second then Closes(front, n - 1) else Closes(front, n)) + [t]
    ensures Closes(front, |front|) == Closes(front, |front| - 1) + [front[|front| - 1]]
  {
    var n, all := |front|, front + [t];
    ClosesOfFront(front, t, n - 1);
    assert ClosesSecond(all, n) && ClosesSecond(front, n - 1);
    assert ClosesSecond(all, n - 1) <==> front[n - 1].second != t.second;
    assert all[n] == t && all[n - 1] == front[n - 1];
    assert Closes(all, n + 1) == Closes(all, n) + [t];
  }

  lemma {:induction false} BarsAreCloses(ticks: seq<Bar>)
    requires SecondsOrdered(ticks)
    ensures SecondBars(ticks) == Closes(ticks, |ticks|)
    decreases |ticks|
  {
    if |ticks| == 1 {
      assert ticks[..0] == [];
      assert Closes(ticks, 1) == Closes(ticks, 0) + [ticks[0]];
    } else if ticks != [] {
      var front, t := ticks[..|ticks| - 1], ticks[|ticks| - 1];
      BarsAreCloses(front);
      assert front + [t] == ticks;
      BarsPush(front, t);
      ClosesPush(front, t);
    }
  }

  lemma {:induction false} BarsAreAscending(ticks: seq<Bar>)
    requires SecondsOrdered(ticks)
    ensures BarsAscend(SecondBars(ticks))
    decreases |ticks|
  {
    if ticks != [] {
      var front, t := ticks[..|ticks| - 1], ticks[|ticks| - 1];
      BarsAreAscending(front);
      assert front + [t] == ticks;
      BarsPush(front, t);
    }
  }

  /** The bars are exactly the ticks that close their second, in time order, one per second. */
  lemma BarsAreSecondCloses(quotes: seq<Quote>)
    requires TimeOrdered(quotes) && forall q :: q in quotes ==> q.exchangeTs > 0
    ensures SecondBars(Ticks(quotes)) == Closes(Ticks(quotes), |quotes|)
    ensures BarsAscend(SecondBars(Ticks(quotes)))
  {
    TicksOrdered(quotes);
    BarsAreCloses(Ticks(quotes));
    BarsAreAscending(Ticks(quotes));
  }

  // ---------------------------------------------------------------- days

  predicate DaysAscend(totals: seq<Day>) {
    forall i, j :: 0 <= i < j < |totals| ==> totals[i].number < totals[j].number
  }

  /** The volume that counts for a day. */
  ghost function CountedVolume(trades: seq<Trade>, day: int): real {
    if trades == [] then 0.0
    else
      var n := |trades| - 1;
      CountedVolume(trades[..n], day) + if trades[n].day == day && Counts(trades, n) then trades[n].size else 0.0
  }

  function LatestDay(trades: seq<Trade>): int
    requires trades != []
  {
    var last := trades[|trades| - 1].day;
    if |trades| == 1 then last
    else
      var before := LatestDay(trades[..|trades| - 1]);
      if before > last then before else last
  }

  lemma {:induction false} LatestDayIsMaximum(trades: seq<Trade>, i: nat)
    requires i < |trades|
    ensures trades[i].day <= LatestDay(trades)
    decreases |trades|
  {
    if i < |trades| - 1 {
      LatestDayIsMaximum(trades[..|trades| - 1], i);
    }
  }

  lemma {:induction false} LatestDayOccurs(trades: seq<Trade>) returns (i: nat)
    requires trades != []
    ensures i < |trades| && trades[i].day == LatestDay(trades)
    decreases |trades|
  {
    i := |trades| - 1;
    if |trades| > 1 && LatestDay(trades[..|trades| - 1]) > trades[i].day {
      i := LatestDayOccurs(trades[..|trades| - 1]);
    }
  }

  lemma AddToDayEndsWith(totals: seq<Day>, day: int, size: real)
    ensures var after := AddToDay(totals, day, size);
      after != [] && after[|after| - 1].number
        == if totals != [] && totals[|totals| - 1].number > day then totals[|totals| - 1].number else day
    ensures var after := AddToDay(totals, day, size);
      after[|after| - 1].volume
        == if totals == [] || totals[|totals| - 1].number < day then size
           else if totals[|totals| - 1].number == day then totals[|totals| - 1].volume + size
           else totals[|totals| - 1].volume
  {
  }

  /** The last total is of the latest day seen. */
  lemma {:induction false} LastTotalIsLatest(trades: seq<Trade>)
    requires trades != []
    ensures DayTotals(trades) != []
    ensures var totals := DayTotals(trades); totals[|totals| - 1].number == LatestDay(trades)
    decreases |trades|
  {
    var front, t := trades[..|trades| - 1], trades[|trades| - 1];
    if front != [] {
      LastTotalIsLatest(front);
    }
    AddToDayEndsWith(DayTotals(front), t.day, t.size);
  }

  lemma CountsIffLatest(trades: seq<Trade>)
    requires trades != []
    ensures var n, totals := |trades| - 1, DayTotals(trades[..|trades| - 1]);
      Counts(trades, n) <==> totals == [] || totals[|totals| - 1].number <= trades[n].day
  {
    var n, front := |trades| - 1, trades[..|trades| - 1];
    if front != [] {
      LastTotalIsLatest(front);
      var i := LatestDayOccurs(front);
      assert trades[i] == front[i];
      forall j | 0 <= j < n ensures trades[j].day <= LatestDay(front) {
        LatestDayIsMaximum(front, j);
      }
    }
  }

  /** The volume that the totals give a day. */
  function VolumeOn(totals: seq<Day>, day: int): real {
    if totals == [] then 0.0
    else
      var last := totals[|totals| - 1];
      VolumeOn(totals[..|totals| - 1], day) + if last.number == day then last.volume else 0.0
  }

  lemma AddToDayAdds(totals: seq<Day>, number: int, size: real, day: int)
    ensures var late := totals != [] && totals[|totals| - 1].number > number;
      VolumeOn(AddToDay(totals, number, size), day)
        == VolumeOn(totals, day) + if day == number && !late then size else 0.0
  {
    if totals == [] || totals[|totals| - 1].number < number {
      assert (totals + [Day(number, size)])[..|totals|] == totals;
    } else if totals[|totals| - 1].number == number {
      var front := totals[..|totals| - 1];
      assert AddToDay(totals, number, size)[..|front|] == front;
    }
  }

  /** The totals give each day exactly the volume of the trades that count for it. */
  lemma {:induction false} TotalsAreExact(trades: seq<Trade>, day: int)
    ensures VolumeOn(DayTotals(trades), day) == CountedVolume(trades, day)
    decreases |trades|
  {
    if trades != [] {
      var n := |trades| - 1;
      TotalsAreExact(trades[..n], day);
      AddToDayAdds(DayTotals(trades[..n]), trades[n].day, trades[n].size, day);
      CountsIffLatest(trades);
    }
  }

  lemma {:induction false} TotalsAscend(trades: seq<Trade>)
    ensures DaysAscend(DayTotals(trades))
    decreases |trades|
  {
    if trades != [] {
      TotalsAscend(trades[..|trades| - 1]);
    }
  }

  /** One total per day, in order, each exactly the volume that counts for its day. */
  lemma DayTotalsAreExact(trades: seq<Trade>)
    ensures DaysAscend(DayTotals(trades))
    ensures forall day :: VolumeOn(DayTotals(trades), day) == CountedVolume(trades, day)
  {
    TotalsAscend(trades);
    forall day ensures VolumeOn(DayTotals(trades), day) == CountedVolume(trades, day) {
      TotalsAreExact(trades, day);
    }
  }

  // ---------------------------------------------------------------- one input

  lemma MidsPush(quotes: seq<Quote>, q: Quote)
    ensures Mids(quotes + [q]) == Mids(quotes) + [q.Mid()]
    ensures Ticks(quotes + [q]) == Ticks(quotes) + [Bar(q.Second(), q.Mid())]
  {
    assert (quotes + [q])[..|quotes|] == quotes;
  }

  predicate NotOlder(quotes: seq<Quote>, q: Quote) {
    quotes == [] || quotes[|quotes| - 1].exchangeTs <= q.exchangeTs
  }

  predicate Follows(quotes: seq<Quote>, q: Quote) {
    && TimeOrdered(quotes) && NotOlder(quotes, q)
    && q.exchangeTs > 0 && (forall p :: p in quotes ==> p.exchangeTs > 0)
  }

  lemma OrderedPush(quotes: seq<Quote>, q: Quote)
    requires TimeOrdered(quotes) && NotOlder(quotes, q)
    ensures TimeOrdered(quotes + [q])
  {
    var all := quotes + [q];
    forall i, j | 0 <= i < j < |all| ensures all[i].exchangeTs <= all[j].exchangeTs {
      if j == |quotes| && i < |quotes| - 1 {
        assert quotes[i].exchangeTs <= quotes[|quotes| - 1].exchangeTs;
      }
    }
  }

  /** Pushing a mid and dropping the oldest beyond the window keeps the last mids. */
  lemma MidsRoll(mids: seq<real>, mid: real, window: nat)
    requires 0 < window
    ensures var pushed := LastN(mids, window) + [mid];
      LastN(mids + [mid], window) == if |pushed| > window then pushed[1..] else pushed
  {
  }

  lemma BarsRoll(quotes: seq<Quote>, q: Quote, cap: nat)
    requires 0 < cap && Follows(quotes, q)
    ensures LastN(SecondBars(Ticks(quotes + [q])), cap)
         == Pushed(LastN(SecondBars(Ticks(quotes)), cap), Bar(q.Second(), q.Mid()), cap)
  {
    MidsPush(quotes, q);
    OrderedPush(quotes, q);
    TicksOrdered(quotes + [q]);
    BarsFollow(Ticks(quotes), Bar(q.Second(), q.Mid()), cap);
  }

  lemma PriorIsBefore(quotes: seq<Quote>, q: Quote, window: nat)
    ensures PriorWindow(quotes + [q], window) == LastN(Mids(quotes), window)
  {
    assert (quotes + [q])[..|quotes|] == quotes;
  }

  method RollMids(mids: seq<real>, q: Quote, window: nat, ghost quotes: seq<Quote>) returns (r: seq<real>)
    requires 0 < window && mids == LastN(Mids(quotes), window)
    ensures r == LastN(Mids(quotes + [q]), window)
  {
    MidsPush(quotes, q);
    MidsRoll(Mids(quotes), q.Mid(), window);
    r := mids + [q.Mid()];
    if |r| > window {
      r := r[1..];
    }
  }

  method RollBars(bars: seq<Bar>, q: Quote, cap: nat, ghost quotes: seq<Quote>) returns (r: seq<Bar>)
    requires 0 < cap && Follows(quotes, q) && bars == LastN(SecondBars(Ticks(quotes)), cap)
    ensures r == LastN(SecondBars(Ticks(quotes + [q])), cap)
  {
    BarsRoll(quotes, q, cap);
    r := PushBar(bars, q.Second(), q.Mid(), cap);
  }

  /** The part of update_quote after the guards: the new quote is scored against the window before
      it, then rolled in. */
  method RollQuote(s: SymbolState, q: Quote, window: nat, sqrt: real -> real, ghost quotes: seq<Quote>)
    returns (n: SymbolState)
    requires 0 < window && QuotesAgree(s, quotes, window, sqrt) && Follows(quotes, q)
    ensures QuotesAgree(n, quotes + [q], window, sqrt)
    ensures SameTrades(s, n)
  {
    var scored := |s.mids| >= MIN_WARMUP_QUOTES;
    var score := if scored then ScoresOf(s.mids, q.Mid(), sqrt) else (0.0, 0.0);
    var mids := RollMids(s.mids, q, window, quotes);
    var bars := RollBars(s.bars, q, window + 1, quotes);
    n := s.(scored := scored, zScore := score.0, madScore := score.1, mids := mids, bars := bars,
            bid := q.bid, ask := q.ask, bidSize := q.bidSize, askSize := q.askSize,
            exchangeTs := q.exchangeTs, recvTs := q.recvTs, hasQuote := true);
    PriorIsBefore(quotes, q, window);
  }

  predicate SameTrades(s: SymbolState, n: SymbolState) {
    && n.dailyVolumes == s.dailyVolumes && n.currentDayVolume == s.currentDayVolume && n.currentDay == s.currentDay
    && n.lastTradePrice == s.lastTradePrice && n.lastTradeSize == s.lastTradeSize
    && n.lastTradeTs == s.lastTradeTs && n.tradeRecvTs == s.tradeRecvTs
  }

  predicate SameQuotes(s: SymbolState, n: SymbolState) {
    && n.mids == s.mids && n.bars == s.bars && n.hasQuote == s.hasQuote && n.scored == s.scored
    && n.zScore == s.zScore && n.madScore == s.madScore && n.bid == s.bid && n.ask == s.ask
    && n.bidSize == s.bidSize && n.askSize == s.askSize && n.exchangeTs == s.exchangeTs && n.recvTs == s.recvTs
  }

  lemma VolumesPush(totals: seq<Day>, d: Day)
    ensures Volumes(totals + [d]) == Volumes(totals) + [d.volume]
  {
  }

  lemma CompletedFollows(totals: seq<Day>, day: int, size: real)
    ensures Completed(AddToDay(totals, day, size))
         == if totals != [] && totals[|totals| - 1].number < day then Completed(totals) + [totals[|totals| - 1].volume]
            else Completed(totals)
  {
    var after := AddToDay(totals, day, size);
    if totals == [] {
      assert after[..0] == [];
    } else if totals[|totals| - 1].number < day {
      assert after[..|totals|] == totals;
      assert totals == totals[..|totals| - 1] + [totals[|totals| - 1]];
      VolumesPush(totals[..|totals| - 1], totals[|totals| - 1]);
    } else if totals[|totals| - 1].number == day {
      assert after[..|totals| - 1] == totals[..|totals| - 1];
    }
  }

  /** The daily volumes of update_trade: a later day completes the running one, and the trade adds to
      the running day unless it is older. */
  method RollDay(volumes: seq<real>, current: real, day: int, t: Trade, advDays: nat, ghost totals: seq<Day>)
    returns (volumes': seq<real>, current': real, day': int)
    requires 0 < advDays && DaysAgree(volumes, current, day, totals, advDays)
    requires t.day > 0 && (totals != [] ==> totals[|totals| - 1].number > 0)
    ensures DaysAgree(volumes', current', day', AddToDay(totals, t.day, t.size), advDays)
  {
    volumes', current', day' := volumes, current, day;
    CompletedFollows(totals, t.day, t.size);
    AddToDayEndsWith(totals, t.day, t.size);
    if t.day > day' {
      if day' != 0 {
        volumes' := CompleteDay(volumes', current', advDays, Completed(totals));
      }
      current', day' := 0.0, t.day;
    }
    if t.day == day' {
      current' := current' + t.size;
    }
  }

  method CompleteDay(volumes: seq<real>, current: real, advDays: nat, ghost completed: seq<real>) returns (r: seq<real>)
    requires 0 < advDays && volumes == LastN(completed, advDays)
    ensures r == LastN(completed + [current], advDays)
  {
    MidsRoll(completed, current, advDays);
    r := volumes + [current];
    if |r| > advDays {
      r := r[1..];
    }
  }

  lemma LastTradeFollows(s: SymbolState, trades: seq<Trade>, t: Trade)
    requires LastTradeAgrees(s, LastTrade(trades)) && t.exchangeTs > 0
    ensures LastTrade(trades + [t]) == if t.exchangeTs >= s.lastTradeTs then Some(t) else LastTrade(trades)
    ensures DayTotals(trades + [t]) == AddToDay(DayTotals(trades), t.day, t.size)
  {
    assert (trades + [t])[..|trades|] == trades;
  }

  /** The part of update_trade after the guards. */
  method RollTrade(s: SymbolState, t: Trade, advDays: nat, ghost trades: seq<Trade>) returns (n: SymbolState)
    requires 0 < advDays && TradesAgree(s, trades, advDays) && t.day > 0 && t.exchangeTs > 0
    requires forall p :: p in trades ==> TradeOk(p)
    ensures TradesAgree(n, trades + [t], advDays)
    ensures SameQuotes(s, n)
  {
    n := s;
    LastTradeFollows(s, trades, t);
    TotalsArePositive(trades);
    if t.exchangeTs >= n.lastTradeTs {
      n := n.(lastTradePrice := t.price, lastTradeSize := t.size, lastTradeTs := t.exchangeTs, tradeRecvTs := t.recvTs);
    }
    var volumes, current, day := RollDay(n.dailyVolumes, n.currentDayVolume, n.currentDay,
        t, advDays, DayTotals(trades));
    n := n.(dailyVolumes := volumes, currentDayVolume := current, currentDay := day);
  }

  lemma {:induction false} TotalsArePositive(trades: seq<Trade>)
    requires forall p :: p in trades ==> TradeOk(p)
    ensures var totals := DayTotals(trades); totals != [] ==> totals[|totals| - 1].number > 0
    decreases |trades|
  {
    if trades != [] {
      assert trades[|trades| - 1] in trades;
      TotalsArePositive(trades[..|trades| - 1]);
    }
  }

  // ---------------------------------------------------------------- the normaliser

  /** The guards of update_quote in their order: whether each refuses, and the reason it gives. */
  function QuoteGuards(accepted: map<string, History>, symbol: string, q: Quote): seq<(bool, Reject)> {
    [ (q.bid <= 0.0 || q.bid > 10000000.0 || q.ask <= 0.0 || q.ask > 10000000.0, InvalidPrice),
      (q.bid > q.ask, CrossedQuote),
      (q.bidSize < 0.0 || q.bidSize > 1000000000000.0 || q.askSize < 0.0 || q.askSize > 1000000000000.0, InvalidSize),
      (q.exchangeTs <= 0 || q.recvTs <= 0, InvalidTimestamp),
      (symbol !in accepted && |accepted.Keys| >= 20000, SymbolLimit),
      (!NotOlder(HistoryOf(accepted, symbol).quotes, q), OutOfOrder) ]
  }

  function TradeGuards(accepted: map<string, History>, symbol: string, t: Trade): seq<(bool, Reject)> {
    [ (t.price <= 0.0 || t.price > 10000000.0, InvalidPrice),
      (t.size < 0.0 || t.size > 1000000000000.0, InvalidSize),
      (t.exchangeTs <= 0 || t.recvTs <= 0 || t.day <= 0, InvalidTimestamp),
      (symbol !in accepted && |accepted.Keys| >= 20000, SymbolLimit) ]
  }

  /** Accepted when no guard refuses; otherwise refused for the reason of the first that does. */
  predicate Answers(guards: seq<(bool, Reject)>, refused: Option<Reject>) {
    match refused
    case None => forall k :: 0 <= k < |guards| ==> !guards[k].0
    case Some(reason) =>
      exists k :: 0 <= k < |guards| && guards[k] == (true, reason) && forall j :: 0 <= j < k ==> !guards[j].0
  }

  lemma RefusedAt(guards: seq<(bool, Reject)>, k: nat)
    requires k < |guards| && guards[k].0 && forall j :: 0 <= j < k ==> !guards[j].0
    ensures Answers(guards, Some(guards[k].1))
  {
    assert guards[k] == (true, guards[k].1);
  }

  /** A quote is accepted if and only if it is in order in itself, its symbol is known or there is room for
      one more, and it is not older than the last quote accepted for it. */
  lemma QuoteAcceptedIff(accepted: map<string, History>, symbol: string, q: Quote)
    ensures Answers(QuoteGuards(accepted, symbol, q), None) <==>
            && 0.0 < q.bid <= q.ask <= 10000000.0
            && 0.0 <= q.bidSize <= 1000000000000.0 && 0.0 <= q.askSize <= 1000000000000.0
            && q.exchangeTs > 0 && q.recvTs > 0
            && (symbol in accepted || |accepted.Keys| < 20000)
            && (symbol in accepted && accepted[symbol].quotes != [] ==>
                  accepted[symbol].quotes[|accepted[symbol].quotes| - 1].exchangeTs <= q.exchangeTs)
  {
    var guards := QuoteGuards(accepted, symbol, q);
    assert |guards| == 6;
    assert (forall k :: 0 <= k < 6 ==> !guards[k].0) <==>
      !guards[0].0 && !guards[1].0 && !guards[2].0 && !guards[3].0 && !guards[4].0 && !guards[5].0;
  }

  lemma TradeAcceptedIff(accepted: map<string, History>, symbol: string, t: Trade)
    ensures Answers(TradeGuards(accepted, symbol, t), None) <==>
            && 0.0 < t.price <= 10000000.0 && 0.0 <= t.size <= 1000000000000.0
            && t.exchangeTs > 0 && t.recvTs > 0 && t.day > 0
            && (symbol in accepted || |accepted.Keys| < 20000)
  {
    var guards := TradeGuards(accepted, symbol, t);
    assert |guards| == 4;
    assert (forall k :: 0 <= k < 4 ==> !guards[k].0) <==>
      !guards[0].0 && !guards[1].0 && !guards[2].0 && !guards[3].0;
  }

  function QuoteVerdict(accepted: map<string, History>, symbol: string, q: Quote): Option<Reject> {
    if ValidateQuote(q).Some? then ValidateQuote(q)
    else if symbol !in accepted then (if |accepted.Keys| >= MAX_SYMBOLS then Some(SymbolLimit) else None)
    else if !NotOlder(accepted[symbol].quotes, q) then Some(OutOfOrder)
    else None
  }

  function TradeVerdict(accepted: map<string, History>, symbol: string, t: Trade): Option<Reject> {
    if ValidateTrade(t).Some? then ValidateTrade(t)
    else if symbol !in accepted && |accepted.Keys| >= MAX_SYMBOLS then Some(SymbolLimit)
    else None
  }

  lemma QuoteValidated(q: Quote)
    ensures ValidateQuote(q).None? <==> QuoteOk(q)
  {
  }

  lemma TradeValidated(t: Trade)
    ensures ValidateTrade(t).None? <==> TradeOk(t)
  {
  }

  lemma VerdictAnswersQuote(accepted: map<string, History>, symbol: string, q: Quote)
    ensures Answers(QuoteGuards(accepted, symbol, q), QuoteVerdict(accepted, symbol, q))
  {
    var guards := QuoteGuards(accepted, symbol, q);
    if guards[0].0 {
      RefusedAt(guards, 0);
    } else if guards[1].0 {
      RefusedAt(guards, 1);
    } else if guards[2].0 {
      RefusedAt(guards, 2);
    } else if guards[3].0 {
      RefusedAt(guards, 3);
    } else if guards[4].0 {
      RefusedAt(guards, 4);
    } else if guards[5].0 {
      RefusedAt(guards, 5);
    }
  }

  lemma VerdictAnswersTrade(accepted: map<string, History>, symbol: string, t: Trade)
    ensures Answers(TradeGuards(accepted, symbol, t), TradeVerdict(accepted, symbol, t))
  {
    var guards := TradeGuards(accepted, symbol, t);
    if guards[0].0 {
      RefusedAt(guards, 0);
    } else if guards[1].0 {
      RefusedAt(guards, 1);
    } else if guards[2].0 {
      RefusedAt(guards, 2);
    } else if guards[3].0 {
      RefusedAt(guards, 3);
    }
  }

  function HistoryOf(accepted: map<string, History>, symbol: string): History {
    if symbol in accepted then accepted[symbol] else History([], [])
  }

  function WithQuote(h: History, q: Quote): History {
    h.(quotes := h.quotes + [q])
  }

  function WithTrade(h: History, t: Trade): History {
    h.(trades := h.trades + [t])
  }

  ghost predicate Agrees(s: SymbolState, h: History, window: nat, advDays: nat, sqrt: real -> real) {
    && Sound(h)
    && QuotesAgree(s, h.quotes, window, sqrt)
    && TradesAgree(s, h.trades, advDays)
  }

  lemma QuoteExtends(
    s: SymbolState, n: SymbolState, h: History, q: Quote, window: nat, advDays: nat, sqrt: real -> real)
    requires Agrees(s, h, window, advDays, sqrt) && SameTrades(s, n) && QuoteOk(q) && NotOlder(h.quotes, q)
    requires QuotesAgree(n, h.quotes + [q], window, sqrt)
    ensures Agrees(n, WithQuote(h, q), window, advDays, sqrt)
  {
    OrderedPush(h.quotes, q);
  }

  lemma TradeExtends(
    s: SymbolState, n: SymbolState, h: History, t: Trade, window: nat, advDays: nat, sqrt: real -> real)
    requires Agrees(s, h, window, advDays, sqrt) && SameQuotes(s, n) && TradeOk(t)
    requires TradesAgree(n, h.trades + [t], advDays)
    ensures Agrees(n, WithTrade(h, t), window, advDays, sqrt)
  {
  }

  method QuoteStep(s: SymbolState, q: Quote, window: nat, advDays: nat, sqrt: real -> real, ghost h: History)
    returns (n: SymbolState)
    requires 0 < window && Agrees(s, h, window, advDays, sqrt) && QuoteOk(q) && NotOlder(h.quotes, q)
    ensures Agrees(n, WithQuote(h, q), window, advDays, sqrt)
  {
    n := RollQuote(s, q, window, sqrt, h.quotes);
    QuoteExtends(s, n, h, q, window, advDays, sqrt);
  }

  method TradeStep(s: SymbolState, t: Trade, window: nat, advDays: nat, sqrt: real -> real, ghost h: History)
    returns (n: SymbolState)
    requires 0 < advDays && Agrees(s, h, window, advDays, sqrt) && TradeOk(t)
    ensures Agrees(n, WithTrade(h, t), window, advDays, sqrt)
  {
    n := RollTrade(s, t, advDays, h.trades);
    TradeExtends(s, n, h, t, window, advDays, sqrt);
  }

  lemma DefaultAgrees(window: nat, advDays: nat, sqrt: real -> real)
    ensures Agrees(DEFAULT, History([], []), window, advDays, sqrt)
  {
  }

  /** Normalizer. `accepted` is history: the inputs that were not refused, per symbol. */
  class Normalizer {
    const window: nat
    const advDays: nat
    const sqrt: real -> real
    var states: map<string, SymbolState>
    ghost var accepted: map<string, History>

    /** Every symbol's rolling state is the batch function of its accepted history. */
    ghost predicate Valid()
      reads this
    {
      && MIN_WINDOW <= window <= MAX_WINDOW && 1 <= advDays
      && states.Keys == accepted.Keys && |states.Keys| <= MAX_SYMBOLS
      && (forall s :: s in states ==> Agrees(states[s], accepted[s], window, advDays, sqrt))
    }

    constructor (window: nat, advDays: nat, sqrt: real -> real)
      ensures Valid() && accepted == map[]
      ensures this.window == (if window < 5 then 5 else if window > 256 then 256 else window)
      ensures this.advDays == (if advDays < 1 then 1 else advDays)
    {
      this.window := if window < MIN_WINDOW then MIN_WINDOW else if window > MAX_WINDOW then MAX_WINDOW else window;
      this.advDays := if advDays < 1 then 1 else advDays;
      this.sqrt := sqrt;
      states, accepted := map[], map[];
    }

    /** state_mut: the symbol's state, created if there is room for one more symbol. */
    method StateOf(symbol: string) returns (r: Prelude.Result<SymbolState, Reject>)
      requires Valid()
      ensures r == if symbol in states then Ok(states[symbol])
                   else if |accepted.Keys| >= MAX_SYMBOLS then Err(SymbolLimit) else Ok(DEFAULT)
      ensures r.Ok? ==> Agrees(r.value, HistoryOf(accepted, symbol), window, advDays, sqrt)
    {
      if symbol in states {
        assert Agrees(states[symbol], accepted[symbol], window, advDays, sqrt);
        return Ok(states[symbol]);
      }
      if |states.Keys| >= MAX_SYMBOLS {
        return Err(SymbolLimit);
      }
      DefaultAgrees(window, advDays, sqrt);
      return Ok(DEFAULT);
    }

    method Store(symbol: string, n: SymbolState, ghost h: History)
      requires Valid() && Agrees(n, h, window, advDays, sqrt)
      requires symbol in states || |states.Keys| < MAX_SYMBOLS
      modifies this
      ensures Valid() && accepted == old(accepted)[symbol := h] && states == old(states)[symbol := n]
    {
      assert states[symbol := n].Keys == states.Keys + {symbol};
      states, accepted := states[symbol := n], accepted[symbol := h];
    }

    /** update_quote: a refused quote changes nothing; an accepted one extends the history. */
    method UpdateQuote(symbol: string, q: Quote) returns (refused: Option<Reject>)
      requires Valid()
      modifies this
      ensures Valid()
      ensures Answers(QuoteGuards(old(accepted), symbol, q), refused)
      ensures refused.Some? ==> states == old(states) && accepted == old(accepted)
      ensures refused.None? ==> accepted == old(accepted)[symbol := WithQuote(HistoryOf(old(accepted), symbol), q)]
    {
      VerdictAnswersQuote(accepted, symbol, q);
      QuoteValidated(q);
      if ValidateQuote(q).Some? {
        return ValidateQuote(q);
      }
      var found := StateOf(symbol);
      if found.Err? {
        return Some(found.error);
      }
      var s := found.value;
      if s.hasQuote && q.exchangeTs < s.exchangeTs {
        return Some(OutOfOrder);
      }
      ghost var h := HistoryOf(accepted, symbol);
      var n := QuoteStep(s, q, window, advDays, sqrt, h);
      Store(symbol, n, WithQuote(h, q));
      return None;
    }

    /** update_trade: likewise; a trade is never out of order, but it may not count for its day. */
    method UpdateTrade(symbol: string, t: Trade) returns (refused: Option<Reject>)
      requires Valid()
      modifies this
      ensures Valid()
      ensures Answers(TradeGuards(old(accepted), symbol, t), refused)
      ensures refused.Some? ==> states == old(states) && accepted == old(accepted)
      ensures refused.None? ==> accepted == old(accepted)[symbol := WithTrade(HistoryOf(old(accepted), symbol), t)]
    {
      VerdictAnswersTrade(accepted, symbol, t);
      TradeValidated(t);
      if ValidateTrade(t).Some? {
        return ValidateTrade(t);
      }
      var found := StateOf(symbol);
      if found.Err? {
        return Some(found.error);
      }
      ghost var h := HistoryOf(accepted, symbol);
      var n := TradeStep(found.value, t, window, advDays, sqrt, h);
      Store(symbol, n, WithTrade(h, t));
      return None;
    }
  }

  lemma LastNAscends(bars: seq<Bar>, n: nat)
    requires BarsAscend(bars)
    ensures BarsAscend(LastN(bars, n))
  {
  }

  /** The last mids, and the last tick of each of the latest seconds. */
  predicate KeepsQuotes(s: SymbolState, quotes: seq<Quote>, window: nat) {
    && s.mids == LastN(Mids(quotes), window)
    && s.bars == LastN(Closes(Ticks(quotes), |quotes|), window + 1)
    && BarsAscend(s.bars)
  }

  /** The counted volumes of the latest completed days, each exact. */
  ghost predicate KeepsTrades(s: SymbolState, trades: seq<Trade>, advDays: nat) {
    && s.dailyVolumes == LastN(Completed(DayTotals(trades)), advDays)
    && DaysAscend(DayTotals(trades))
    && (forall day :: VolumeOn(DayTotals(trades), day) == CountedVolume(trades, day))
  }

  lemma QuotesMean(s: SymbolState, h: History, window: nat, sqrt: real -> real)
    requires QuotesAgree(s, h.quotes, window, sqrt) && Sound(h)
    ensures KeepsQuotes(s, h.quotes, window)
  {
    BarsAreSecondCloses(h.quotes);
    LastNAscends(SecondBars(Ticks(h.quotes)), window + 1);
  }

  lemma TradesMean(s: SymbolState, trades: seq<Trade>, advDays: nat)
    requires TradesAgree(s, trades, advDays)
    ensures KeepsTrades(s, trades, advDays)
  {
    DayTotalsAreExact(trades);
  }

  lemma AgreeMeans(s: SymbolState, h: History, window: nat, advDays: nat, sqrt: real -> real)
    requires Agrees(s, h, window, advDays, sqrt)
    ensures KeepsQuotes(s, h.quotes, window) && KeepsTrades(s, h.trades, advDays)
  {
    QuotesMean(s, h, window, sqrt);
    TradesMean(s, h.trades, advDays);
  }

  /** Half way between the two sides of a quote that is not crossed. */
  predicate IsMidOf(mid: real, q: Quote) {
    2.0 * mid == q.bid + q.ask && q.bid <= mid <= q.ask
  }

  lemma MidsAreBetween(mids: seq<real>, quotes: seq<Quote>, window: nat)
    requires mids == LastN(Mids(quotes), window) && forall q :: q in quotes ==> QuoteOk(q)
    ensures |mids| <= |quotes|
    ensures forall i :: 0 <= i < |mids| ==> IsMidOf(mids[i], quotes[|quotes| - |mids| + i])
  {
    forall i | 0 <= i < |mids| ensures IsMidOf(mids[i], quotes[|quotes| - |mids| + i]) {
      var q := quotes[|quotes| - |mids| + i];
      assert q in quotes && mids[i] == q.Mid();
    }
  }

  /** Every input accepted is in order, its quotes uncrossed, and each mid kept lies between the sides of its own. */
  ghost predicate KeepsBetween(s: SymbolState, h: History) {
    && (forall q :: q in h.quotes ==> QuoteOk(q)) && (forall t :: t in h.trades ==> TradeOk(t))
    && |s.mids| <= |h.quotes|
    && (forall i :: 0 <= i < |s.mids| ==> IsMidOf(s.mids[i], h.quotes[|h.quotes| - |s.mids| + i]))
  }

  lemma AgreeKeepsBetween(s: SymbolState, h: History, window: nat, advDays: nat, sqrt: real -> real)
    requires Agrees(s, h, window, advDays, sqrt)
    ensures KeepsBetween(s, h)
  {
    MidsAreBetween(s.mids, h.quotes, window);
  }

  lemma KeptMidsAreBetween(n: Normalizer, symbol: string)
    requires n.Valid() && symbol in n.states
    ensures KeepsBetween(n.states[symbol], n.accepted[symbol])
  {
    AgreeKeepsBetween(n.states[symbol], n.accepted[symbol], n.window, n.advDays, n.sqrt);
  }

  /** What the state shows of the last quote: its own fields, and scores once five quotes came before it. */
  predicate ShowsLast(s: SymbolState, quotes: seq<Quote>) {
    && (s.hasQuote <==> quotes != []) && (quotes != [] ==> (s.scored <==> |quotes| > 5))
    && (quotes != [] ==>
          var q := quotes[|quotes| - 1];
          && s.bid == q.bid && s.ask == q.ask && s.bidSize == q.bidSize && s.askSize == q.askSize
          && s.exchangeTs == q.exchangeTs && s.recvTs == q.recvTs)
    && (quotes != [] && !s.scored ==> s.zScore == 0.0 && s.madScore == 0.0)
  }

  /** What the normaliser keeps for a symbol, said without its algorithms. */
  lemma StateMeansHistory(n: Normalizer, symbol: string)
    requires n.Valid() && symbol in n.states
    ensures KeepsQuotes(n.states[symbol], n.accepted[symbol].quotes, n.window)
    ensures KeepsTrades(n.states[symbol], n.accepted[symbol].trades, n.advDays)
    ensures ShowsLast(n.states[symbol], n.accepted[symbol].quotes)
  {
    AgreeMeans(n.states[symbol], n.accepted[symbol], n.window, n.advDays, n.sqrt);
  }
}
