/** The push loop for regime labels (refdata-bridge/refdata_bridge/batch.py, service.py,
    aegis_client.py): labels are recorded at any time, pushes run one at a time, the answer to a push
    may be lost or disbelieved, and a request that timed out may still be received. */
module RefdataPush {
  import opened Prelude
  import opened RefdataBatch

  datatype Push = Idle | Sent(batch: seq<Item>) | Answered(applied: seq<Item>)

  /** `late` are the requests given up before Aegis received them, which it may still receive.
      `accepted` is history: the stamps Aegis accepted per symbol, in order. `unheard` is history too:
      the symbols whose newest acceptance the bridge has not been told of. */
  datatype State = State(
    latest: map<string, Item>, pushed: map<string, int>, push: Push, late: set<seq<Item>>,
    accepted: map<string, seq<int>>, unheard: set<string>)

  /** `Receive` is Aegis taking the request and refusing what it must and whatever it also will not
      have, and `LateReceive` the same for a request long given up; `Fail` is a failed call, a timeout,
      a lost answer, or counts that disagree. */
  datatype Step =
    | Record(item: Item)
    | Build(batch: seq<Item>, limit: nat)
    | Receive(refused: set<string>)
    | LateReceive(batch: seq<Item>, refused: set<string>)
    | Reply
    | Fail

  function Stamps(s: State, symbol: string): seq<int> {
    if symbol in s.accepted then s.accepted[symbol] else []
  }

  function Newest(stamps: seq<int>): int {
    if stamps == [] then 0 else stamps[|stamps| - 1]
  }

  /** Aegis applies an item only when it is strictly newer than what it has. */
  predicate Takes(s: State, item: Item, refused: set<string>) {
    item.symbol !in refused && item.stamp > Newest(Stamps(s, item.symbol))
  }

  function Applied(s: State, batch: seq<Item>, refused: set<string>): seq<Item> {
    if batch == [] then []
    else
      var item := batch[|batch| - 1];
      Applied(s, batch[..|batch| - 1], refused) + if Takes(s, item, refused) then [item] else []
  }

  function Symbols(items: seq<Item>): set<string> {
    set i | 0 <= i < |items| :: items[i].symbol
  }

  function Accept(accepted: map<string, seq<int>>, items: seq<Item>): map<string, seq<int>> {
    if items == [] then accepted
    else
      var item, before := items[|items| - 1], Accept(accepted, items[..|items| - 1]);
      before[item.symbol := (if item.symbol in before then before[item.symbol] else []) + [item.stamp]]
  }

  predicate Enabled(s: State, step: Step) {
    match step
    case Record(item) => item.stamp > 0
    case Build(batch, limit) => s.push.Idle? && batch != [] && IsBatch(batch, s.latest, s.pushed, limit)
    case Receive(_) => s.push.Sent?
    case LateReceive(batch, _) => batch in s.late
    case Reply => s.push.Answered?
    case Fail => !s.push.Idle?
  }

  function Apply(s: State, step: Step): State
    requires Enabled(s, step)
  {
    match step
    case Record(item) => s.(latest := Recorded(s.latest, item))
    case Build(batch, _) => s.(push := Sent(batch))
    case Receive(refused) =>
      var applied := Applied(s, s.push.batch, refused);
      Received(s, applied).(push := Answered(applied))
    case LateReceive(batch, refused) =>
      Received(s, Applied(s, batch, refused)).(late := s.late - {batch})
    case Reply =>
      s.(push := Idle, pushed := MarkRegimes(s.pushed, s.push.applied), unheard := s.unheard - Symbols(s.push.applied))
    case Fail => s.(push := Idle, late := if s.push.Sent? then s.late + {s.push.batch} else s.late)
  }

  /** Aegis accepts these items, which the bridge has not been told of yet. */
  function Received(s: State, applied: seq<Item>): State {
    s.(accepted := Accept(s.accepted, applied), unheard := s.unheard + Symbols(applied))
  }

  ghost predicate Allowed(s: State, steps: seq<Step>)
    decreases |steps|
  {
    steps == [] || (Enabled(s, steps[0]) && Allowed(Apply(s, steps[0]), steps[1..]))
  }

  ghost function Exec(s: State, steps: seq<Step>): State
    requires Allowed(s, steps)
    decreases |steps|
  {
    if steps == [] then s else Exec(Apply(s, steps[0]), steps[1..])
  }

  const INITIAL := State(map[], map[], Idle, {}, map[], {})

  // ---------------------------------------------------------------- what every step keeps

  predicate Ascending(stamps: seq<int>) {
    forall i, j :: 0 <= i < j < |stamps| ==> stamps[i] < stamps[j]
  }

  /** The bridge's watermark is the newest accepted stamp, or behind it when an answer went unheard. */
  ghost predicate Told(s: State, symbol: string) {
    && Ascending(Stamps(s, symbol))
    && 0 <= Newest(Stamps(s, symbol))
    && 0 <= Watermark(s.pushed, symbol)
    && (symbol !in s.unheard ==> Watermark(s.pushed, symbol) == Newest(Stamps(s, symbol)))
    && (symbol in s.unheard ==> Watermark(s.pushed, symbol) < Newest(Stamps(s, symbol)))
  }

  predicate Pending(s: State, item: Item) {
    item.symbol in s.unheard && item.stamp == Newest(Stamps(s, item.symbol))
  }

  function Flying(push: Push): seq<Item> {
    match push
    case Idle => []
    case Sent(batch) => batch
    case Answered(applied) => applied
  }

  predicate Known(s: State, item: Item) {
    item.symbol in s.latest && item.stamp <= s.latest[item.symbol].stamp
  }

  /** The push under way is of items once recorded; what it applied is not heard of yet. */
  ghost predicate InFlight(s: State) {
    && OnePerSymbol(Flying(s.push))
    && (forall item :: item in Flying(s.push) ==> Known(s, item) && (s.push.Answered? ==> Pending(s, item)))
  }

  /** Nothing under way for the symbol is older. */
  predicate Overtaken(s: State, past: Item) {
    forall item :: item in Flying(s.push) && item.symbol == past.symbol ==> past.stamp <= item.stamp
  }

  /** What was given up before it was received was recorded before what is under way. */
  ghost predicate Late(s: State) {
    forall batch :: batch in s.late ==>
      OnePerSymbol(batch) && forall item :: item in batch ==> Known(s, item) && Overtaken(s, item)
  }

  ghost predicate Kept(s: State) {
    (forall symbol :: Told(s, symbol)) && InFlight(s) && Late(s)
  }

  lemma {:induction false} AppliedAre(s: State, batch: seq<Item>, refused: set<string>)
    requires OnePerSymbol(batch)
    ensures OnePerSymbol(Applied(s, batch, refused))
    ensures forall item :: item in Applied(s, batch, refused) <==> item in batch && Takes(s, item, refused)
    decreases |batch|
  {
    if batch != [] {
      var front, last := batch[..|batch| - 1], batch[|batch| - 1];
      AppliedAre(s, front, refused);
      assert batch == front + [last];
      var rest := Applied(s, front, refused);
      forall i | 0 <= i < |rest| ensures rest[i].symbol != last.symbol {
        assert rest[i] in rest && rest[i] in front;
      }
    }
  }

  lemma {:induction false} AcceptedAre(accepted: map<string, seq<int>>, items: seq<Item>, symbol: string)
    requires OnePerSymbol(items)
    ensures var before, after := (if symbol in accepted then accepted[symbol] else []), Accept(accepted, items);
      && (!Holds(items, symbol) ==> (if symbol in after then after[symbol] else []) == before)
      && (forall i :: 0 <= i < |items| && items[i].symbol == symbol ==>
            symbol in after && after[symbol] == before + [items[i].stamp])
    decreases |items|
  {
    if items != [] {
      var front, last := items[..|items| - 1], items[|items| - 1];
      AcceptedAre(accepted, front, symbol);
      assert Holds(front, symbol) ==> Holds(items, symbol) && last.symbol != symbol by {
        if Holds(front, symbol) {
          var i :| 0 <= i < |front| && front[i].symbol == symbol;
          assert items[i].symbol == symbol;
        }
      }
    }
  }

  lemma HoldsIsIn(items: seq<Item>, symbol: string)
    ensures symbol in Symbols(items) <==> Holds(items, symbol)
  {
  }

  lemma StampsAfter(s: State, applied: seq<Item>, n: State, symbol: string)
    requires OnePerSymbol(applied) && n.accepted == Accept(s.accepted, applied)
    ensures !Holds(applied, symbol) ==> Stamps(n, symbol) == Stamps(s, symbol)
    ensures forall i :: 0 <= i < |applied| && applied[i].symbol == symbol ==>
      Stamps(n, symbol) == Stamps(s, symbol) + [applied[i].stamp]
  {
    AcceptedAre(s.accepted, applied, symbol);
  }

  lemma AscendingPush(stamps: seq<int>, stamp: int)
    requires Ascending(stamps) && (stamps != [] ==> stamps[|stamps| - 1] < stamp)
    ensures Ascending(stamps + [stamp])
  {
  }

  /** A symbol whose newest acceptance is not heard of yet. */
  lemma NewStampIsTold(s: State, n: State, symbol: string, stamp: int)
    requires Told(s, symbol) && stamp > Newest(Stamps(s, symbol)) && Stamps(n, symbol) == Stamps(s, symbol) + [stamp]
    requires n.pushed == s.pushed && symbol in n.unheard
    ensures Told(n, symbol) && Newest(Stamps(n, symbol)) == stamp
  {
    AscendingPush(Stamps(s, symbol), stamp);
  }

  lemma TakenIsPending(s: State, applied: seq<Item>, item: Item)
    requires OnePerSymbol(applied) && item in applied && Told(s, item.symbol)
    requires item.stamp > Newest(Stamps(s, item.symbol))
    ensures Told(Received(s, applied), item.symbol) && Pending(Received(s, applied), item)
  {
    var n := Received(s, applied);
    StampsAfter(s, applied, n, item.symbol);
    assert item.symbol in Symbols(applied);
    NewStampIsTold(s, n, item.symbol, item.stamp);
  }

  lemma UntakenIsTold(s: State, applied: seq<Item>, symbol: string)
    requires OnePerSymbol(applied) && !Holds(applied, symbol) && Told(s, symbol)
    ensures Told(Received(s, applied), symbol) && Stamps(Received(s, applied), symbol) == Stamps(s, symbol)
    ensures symbol in Received(s, applied).unheard <==> symbol in s.unheard
  {
    StampsAfter(s, applied, Received(s, applied), symbol);
    HoldsIsIn(applied, symbol);
  }

  lemma ReceivedIsTold(s: State, batch: seq<Item>, refused: set<string>)
    requires (forall symbol :: Told(s, symbol)) && OnePerSymbol(batch)
    ensures var applied := Applied(s, batch, refused); var n := Received(s, applied);
      && OnePerSymbol(applied) && (forall item :: item in applied ==> item in batch && Pending(n, item))
      && (forall symbol :: Told(n, symbol))
  {
    var applied := Applied(s, batch, refused);
    var n := Received(s, applied);
    AppliedAre(s, batch, refused);
    forall item | item in applied ensures Told(n, item.symbol) && Pending(n, item) {
      TakenIsPending(s, applied, item);
    }
    forall symbol ensures Told(n, symbol) {
      if Holds(applied, symbol) {
        var i :| 0 <= i < |applied| && applied[i].symbol == symbol;
        assert applied[i] in applied;
      } else {
        UntakenIsTold(s, applied, symbol);
      }
    }
  }

  lemma ReceiveKeeps(s: State, refused: set<string>)
    requires Kept(s) && Enabled(s, Receive(refused))
    ensures Kept(Apply(s, Receive(refused)))
  {
    var n := Apply(s, Receive(refused));
    ReceivedIsTold(s, s.push.batch, refused);
    forall symbol ensures Told(n, symbol) {
      assert Told(Received(s, n.push.applied), symbol);
    }
    forall item | item in n.push.applied ensures Known(n, item) && Pending(n, item) {
      assert item in s.push.batch && Pending(Received(s, n.push.applied), item);
    }
    LateAsBefore(s, n);
  }

  lemma LateAsBefore(s: State, n: State)
    requires Late(s) && n.late <= s.late && n.latest == s.latest
    requires forall item :: item in Flying(n.push) ==> item in Flying(s.push)
    ensures Late(n)
  {
    forall batch, item | batch in n.late && item in batch ensures Known(n, item) && Overtaken(n, item) {
      assert Known(s, item) && Overtaken(s, item);
    }
  }

  /** What was applied but is unheard of cannot be overtaken by a request from before it. */
  lemma FlightIsNewer(s: State, batch: seq<Item>, refused: set<string>, item: Item)
    requires Kept(s) && batch in s.late && s.push.Answered? && item in s.push.applied
    ensures !Holds(Applied(s, batch, refused), item.symbol)
  {
    var applied := Applied(s, batch, refused);
    AppliedAre(s, batch, refused);
    forall i | 0 <= i < |applied| ensures applied[i].symbol != item.symbol {
      assert applied[i] in applied && Overtaken(s, applied[i]);
      assert Pending(s, item);
    }
  }

  lemma LateReceiveKeeps(s: State, batch: seq<Item>, refused: set<string>)
    requires Kept(s) && Enabled(s, LateReceive(batch, refused))
    ensures Kept(Apply(s, LateReceive(batch, refused)))
  {
    var n, applied := Apply(s, LateReceive(batch, refused)), Applied(s, batch, refused);
    ReceivedIsTold(s, batch, refused);
    forall symbol ensures Told(n, symbol) {
      assert Told(Received(s, applied), symbol);
    }
    forall item | item in Flying(n.push) ensures Known(n, item) && (n.push.Answered? ==> Pending(n, item)) {
      assert Known(s, item);
      if n.push.Answered? {
        FlightIsNewer(s, batch, refused, item);
        assert Pending(s, item) && Told(s, item.symbol);
        UntakenIsTold(s, applied, item.symbol);
      }
    }
    LateAsBefore(s, n);
  }

  lemma ReplyKeeps(s: State)
    requires Kept(s) && Enabled(s, Reply)
    ensures Kept(Apply(s, Reply))
  {
    var n, applied := Apply(s, Reply), s.push.applied;
    forall symbol ensures Told(n, symbol) {
      assert Told(s, symbol);
      MarkedRegime(s.pushed, applied, symbol);
      HoldsIsIn(applied, symbol);
      if Holds(applied, symbol) {
        var i :| 0 <= i < |applied| && applied[i].symbol == symbol;
        assert applied[i] in applied && Pending(s, applied[i]);
      }
    }
    LateAsBefore(s, n);
  }

  lemma ToldAsBefore(s: State, n: State)
    requires (forall symbol :: Told(s, symbol))
    requires n.accepted == s.accepted && n.pushed == s.pushed && n.unheard == s.unheard
    ensures forall symbol :: Told(n, symbol)
  {
    forall symbol ensures Told(n, symbol) {
      assert Told(s, symbol);
    }
  }

  lemma RecordKeeps(s: State, item: Item)
    requires Kept(s) && Enabled(s, Record(item))
    ensures Kept(Apply(s, Record(item)))
  {
    var n := Apply(s, Record(item));
    ToldAsBefore(s, n);
    forall past | Known(s, past) ensures Known(n, past) { }
    forall flying | flying in Flying(n.push) ensures Known(n, flying) && (n.push.Answered? ==> Pending(n, flying)) {
      assert Known(s, flying) && (s.push.Answered? ==> Pending(s, flying));
    }
    forall batch, past | batch in n.late && past in batch ensures Known(n, past) && Overtaken(n, past) {
      assert Known(s, past) && Overtaken(s, past);
    }
  }

  lemma BuildKeeps(s: State, batch: seq<Item>, limit: nat)
    requires Kept(s) && Enabled(s, Build(batch, limit))
    ensures Kept(Apply(s, Build(batch, limit)))
  {
    var n := Apply(s, Build(batch, limit));
    ToldAsBefore(s, n);
    forall given, past | given in n.late && past in given ensures Known(n, past) && Overtaken(n, past) {
      assert Known(s, past);
    }
  }

  lemma FailKeeps(s: State)
    requires Kept(s) && Enabled(s, Fail)
    ensures Kept(Apply(s, Fail))
  {
    var n := Apply(s, Fail);
    ToldAsBefore(s, n);
    forall batch, item | batch in n.late && item in batch ensures Known(n, item) && Overtaken(n, item) {
      assert Known(s, item);
    }
  }

  lemma StepKeeps(s: State, step: Step)
    requires Kept(s) && Enabled(s, step)
    ensures Kept(Apply(s, step))
  {
    match step
    case Record(item) => RecordKeeps(s, item);
    case Build(batch, limit) => BuildKeeps(s, batch, limit);
    case Receive(refused) => ReceiveKeeps(s, refused);
    case LateReceive(batch, refused) => LateReceiveKeeps(s, batch, refused);
    case Reply => ReplyKeeps(s);
    case Fail => FailKeeps(s);
  }

  lemma {:induction false} RunKeeps(s: State, steps: seq<Step>)
    requires Kept(s) && Allowed(s, steps)
    ensures Kept(Exec(s, steps))
    decreases |steps|
  {
    if steps != [] {
      StepKeeps(s, steps[0]);
      RunKeeps(Apply(s, steps[0]), steps[1..]);
    }
  }

  // ---------------------------------------------------------------- results

  lemma NewestIsLargest(stamps: seq<int>, stamp: int)
    requires Ascending(stamps) && stamp in stamps
    ensures stamp <= Newest(stamps)
  {
  }

  /** In every run, with labels recorded at any moment and answers lost at will: the accepted stamps of
      a symbol strictly increase; its watermark is the largest of them exactly when no answer about it
      is outstanding; and a label newer than everything accepted is due. */
  lemma WatermarkTracksAegis(steps: seq<Step>, symbol: string)
    requires Allowed(INITIAL, steps)
    ensures var n := Exec(INITIAL, steps); var stamps := Stamps(n, symbol);
      && Ascending(stamps)
      && (forall stamp :: stamp in stamps ==> stamp <= Newest(stamps))
      && (Watermark(n.pushed, symbol) == Newest(stamps) <==> symbol !in n.unheard)
      && Watermark(n.pushed, symbol) <= Newest(stamps)
      && (symbol in n.latest && n.latest[symbol].stamp > Newest(stamps) ==> IsDue(n.latest, n.pushed, symbol))
  {
    RunKeeps(INITIAL, steps);
    var n := Exec(INITIAL, steps);
    assert Told(n, symbol);
    forall stamp | stamp in Stamps(n, symbol) ensures stamp <= Newest(Stamps(n, symbol)) {
      NewestIsLargest(Stamps(n, symbol), stamp);
    }
  }

  /** The steps in which every answer is heard. */
  predicate NoFailures(steps: seq<Step>) {
    forall i :: 0 <= i < |steps| ==> !steps[i].Fail?
  }

  /** Symbols are unheard only while the answer that covers them is on its way. */
  predicate OnlyUnderWay(s: State) {
    s.late == {} && s.unheard <= if s.push.Answered? then Symbols(s.push.applied) else {}
  }

  lemma {:induction false} HeardRuns(s: State, steps: seq<Step>)
    requires OnlyUnderWay(s) && Allowed(s, steps) && NoFailures(steps)
    ensures OnlyUnderWay(Exec(s, steps))
    decreases |steps|
  {
    if steps != [] {
      assert !steps[0].Fail?;
      HeardRuns(Apply(s, steps[0]), steps[1..]);
    }
  }

  /** When no push fails, the watermark equals the largest accepted stamp whenever no push is under
      way, and every label in the next batch is one that Aegis has no reason to call out of order. */
  lemma WithoutFailuresWatermarkIsExact(steps: seq<Step>, symbol: string)
    requires Allowed(INITIAL, steps) && NoFailures(steps) && Exec(INITIAL, steps).push.Idle?
    ensures var n := Exec(INITIAL, steps);
      && Watermark(n.pushed, symbol) == Newest(Stamps(n, symbol))
      && (IsDue(n.latest, n.pushed, symbol) <==>
            symbol in n.latest && n.latest[symbol].stamp > Newest(Stamps(n, symbol)))
  {
    HeardRuns(INITIAL, steps);
    WatermarkTracksAegis(steps, symbol);
  }

  lemma RunCons(s: State, step: Step, rest: seq<Step>)
    requires Enabled(s, step) && Allowed(Apply(s, step), rest)
    ensures Allowed(s, [step] + rest) && Exec(s, [step] + rest) == Exec(Apply(s, step), rest)
  {
    assert ([step] + rest)[1..] == rest;
  }

  lemma FirstPush(item: Item)
    requires item.stamp > 0
    ensures var s := Apply(INITIAL, Record(item));
      && s == State(map[item.symbol := item], map[], Idle, {}, map[], {})
      && Enabled(s, Build([item], 1))
  {
    assert [item][0].symbol == item.symbol;
  }

  lemma FirstAcceptance(item: Item)
    requires item.stamp > 0
    ensures var s := State(map[item.symbol := item], map[], Sent([item]), {}, map[], {});
      Apply(s, Receive({})) == s.(push := Answered([item]),
            accepted := map[item.symbol := [item.stamp]], unheard := {item.symbol})
  {
    var s := State(map[item.symbol := item], map[], Sent([item]), {}, map[], {});
    assert [item][..0] == [] && [] + [item] == [item];
    assert Applied(s, [item], {}) == [item];
    assert Accept(s.accepted, [item]) == map[item.symbol := [item.stamp]] by {
      assert Accept(s.accepted, [item][..0]) == s.accepted;
      assert [] + [item.stamp] == [item.stamp];
      assert s.accepted[item.symbol := [] + [item.stamp]] == map[item.symbol := [item.stamp]];
    }
    assert [item][0].symbol == item.symbol;
    assert s.unheard + Symbols([item]) == {item.symbol};
  }

  /** A label is recorded and sent; Aegis accepts it, but the answer is lost. */
  function LostAnswer(item: Item): seq<Step> {
    [Record(item)] + ([Build([item], 1)] + ([Receive({})] + ([Fail] + [])))
  }

  /** One lost answer is enough to leave the watermark behind: the label was accepted, yet it is due
      again and the next push of it will be refused as out of order. */
  lemma LostAnswerLeavesWatermarkBehind(item: Item)
    requires item.stamp > 0
    ensures Allowed(INITIAL, LostAnswer(item))
    ensures var n := Exec(INITIAL, LostAnswer(item));
      && Stamps(n, item.symbol) == [item.stamp] && Watermark(n.pushed, item.symbol) == 0
      && IsDue(n.latest, n.pushed, item.symbol)
  {
    FirstPush(item);
    FirstAcceptance(item);
    var s1 := State(map[item.symbol := item], map[], Idle, {}, map[], {});
    var s2 := s1.(push := Sent([item]));
    var s3 := s2.(push := Answered([item]), accepted := map[item.symbol := [item.stamp]], unheard := {item.symbol});
    RunCons(s3, Fail, []);
    RunCons(s2, Receive({}), [Fail] + []);
    RunCons(s1, Build([item], 1), [Receive({})] + ([Fail] + []));
    RunCons(INITIAL, Record(item), [Build([item], 1)] + ([Receive({})] + ([Fail] + [])));
  }
}
