/** The push loop for snapshots (refdata-bridge/refdata_bridge/batch.py, service.py): what becomes of
    every recorded snapshot when recording goes on while a push is under way. */
module SnapshotPush {
  import opened Prelude
  import opened RefdataBatch

  datatype Push = Idle | Sent(batch: seq<Item>)

  /** The rest is history. `sent` are the snapshots that went out in a request; `arrivals` are the
      symbols whose latest snapshot came in unsent during the push under way; `missed` are the symbols
      whose latest snapshot came in during a push that was then applied for its symbol, or with the
      stamp of a snapshot that had been. */
  datatype State = State(
    latest: map<string, Item>, pushed: map<string, int>, push: Push, sent: set<Item>,
    arrivals: set<string>, missed: set<string>)

  /** `Reply` is an answer that rejects some symbols, so that the others are marked as applied; `Fail`
      is a push that ends in an error. */
  datatype Step =
    | Record(item: Item)
    | Build(batch: seq<Item>, limit: nat)
    | Reply(rejected: set<string>)
    | Fail

  function Applied(batch: seq<Item>, rejected: set<string>): seq<string> {
    if batch == [] then []
    else
      var symbol := batch[|batch| - 1].symbol;
      Applied(batch[..|batch| - 1], rejected) + if symbol in rejected then [] else [symbol]
  }

  predicate Enabled(s: State, step: Step) {
    match step
    case Record(item) => item.stamp > 0
    case Build(batch, limit) => s.push.Idle? && batch != [] && IsBatch(batch, s.latest, s.pushed, limit)
    case Reply(_) => s.push.Sent?
    case Fail => s.push.Sent?
  }

  function With(symbols: set<string>, symbol: string, member: bool): set<string> {
    if member then symbols + {symbol} else symbols - {symbol}
  }

  /** The snapshot becomes the latest of its symbol. */
  function Taken(s: State, item: Item): State {
    s.(latest := Recorded(s.latest, item),
       arrivals := With(s.arrivals, item.symbol, s.push.Sent? && item !in s.sent),
       missed := With(s.missed, item.symbol, item.stamp <= Watermark(s.pushed, item.symbol) && item !in s.sent))
  }

  function Apply(s: State, step: Step): State
    requires Enabled(s, step)
  {
    match step
    case Record(item) =>
      if IsOlder(s.latest, item) then s else Taken(s, item)
    case Build(batch, _) =>
      s.(push := Sent(batch), sent := s.sent + (set i | 0 <= i < |batch| :: batch[i]), arrivals := {})
    case Reply(rejected) =>
      var applied := Applied(s.push.batch, rejected);
      s.(push := Idle, pushed := MarkSnapshots(s.pushed, s.latest, applied), arrivals := {},
         missed := s.missed + (set symbol | symbol in s.arrivals && symbol in applied))
    case Fail => s.(push := Idle, arrivals := {})
  }

  ghost predicate Allowed(s: State, steps: seq<Step>)
    decreases |steps|
  {
    steps == [] || (Enabled(s, steps[0]) && Allowed(Apply(s, steps[0]), steps[1..]))
  }

  ghost function Exec(s: State, steps: seq<Step>): State
    requires Allowed(s, steps)
    decreases |steps|
  {
    if steps == [] then s else Exec(Apply(s, steps[0]), steps[1..])
  }

  const INITIAL := State(map[], map[], Idle, {}, {}, {})

  // ---------------------------------------------------------------- what every step keeps

  /** The latest snapshot of the symbol is still going to be sent, or has been. */
  predicate SeenThrough(s: State, symbol: string)
    requires symbol in s.latest
  {
    IsDue(s.latest, s.pushed, symbol) || s.latest[symbol] in s.sent
  }

  /** What is under way is unmarked, and its symbol's latest snapshot is sent unless it is an arrival. */
  predicate UnderWay(s: State, item: Item) {
    && item.symbol in s.latest && Watermark(s.pushed, item.symbol) < item.stamp <= s.latest[item.symbol].stamp
    && (s.latest[item.symbol] in s.sent <==> item.symbol !in s.arrivals)
  }

  ghost predicate Kept(s: State) {
    && Keyed(s.latest) && s.pushed.Keys <= s.latest.Keys
    && (forall symbol :: symbol in s.latest ==> Watermark(s.pushed, symbol) <= s.latest[symbol].stamp)
    && (forall symbol :: symbol in s.latest ==> (SeenThrough(s, symbol) <==> symbol !in s.missed))
    && (s.push.Sent? ==> forall item :: item in s.push.batch ==> UnderWay(s, item))
  }

  lemma {:induction false} AppliedAre(batch: seq<Item>, rejected: set<string>, symbol: string)
    ensures symbol in Applied(batch, rejected) <==> symbol !in rejected && Holds(batch, symbol)
    decreases |batch|
  {
    if batch != [] {
      var front, last := batch[..|batch| - 1], batch[|batch| - 1];
      AppliedAre(front, rejected, symbol);
      if Holds(batch, symbol) {
        var i :| 0 <= i < |batch| && batch[i].symbol == symbol;
        assert i < |front| ==> front[i].symbol == symbol;
      }
      if Holds(front, symbol) {
        var i :| 0 <= i < |front| && front[i].symbol == symbol;
        assert batch[i].symbol == symbol;
      }
      assert batch[|batch| - 1].symbol == last.symbol;
    }
  }

  lemma TakenKeeps(s: State, item: Item)
    requires Kept(s) && item.stamp > 0 && !IsOlder(s.latest, item)
    ensures Kept(Taken(s, item))
  {
    var n := Taken(s, item);
    if s.push.Sent? {
      forall flying | flying in n.push.batch ensures UnderWay(n, flying) {
        assert UnderWay(s, flying);
      }
    }
    forall symbol | symbol in n.latest
      ensures Watermark(n.pushed, symbol) <= n.latest[symbol].stamp
      ensures SeenThrough(n, symbol) <==> symbol !in n.missed
    {
      if symbol != item.symbol {
        assert SeenThrough(s, symbol) <==> symbol !in s.missed;
      }
    }
  }

  lemma BuildKeeps(s: State, batch: seq<Item>, limit: nat)
    requires Kept(s) && Enabled(s, Build(batch, limit))
    ensures Kept(Apply(s, Build(batch, limit)))
  {
    var n := Apply(s, Build(batch, limit));
    forall item | item in batch ensures UnderWay(n, item) {
      var i :| 0 <= i < |batch| && batch[i] == item;
      assert IsDue(s.latest, s.pushed, item.symbol);
    }
    forall symbol | symbol in n.latest ensures SeenThrough(n, symbol) <==> symbol !in n.missed {
      assert SeenThrough(s, symbol) <==> symbol !in s.missed;
      if s.latest[symbol] in batch {
        var i :| 0 <= i < |batch| && batch[i] == s.latest[symbol];
        assert IsDue(s.latest, s.pushed, symbol);
      }
    }
  }

  lemma {:induction false} MarkedKeys(pushed: map<string, int>, latest: map<string, Item>, applied: seq<string>)
    requires pushed.Keys <= latest.Keys
    ensures MarkSnapshots(pushed, latest, applied).Keys <= latest.Keys
    decreases |applied|
  {
    if applied != [] {
      MarkedKeys(pushed, latest, applied[..|applied| - 1]);
    }
  }

  /** After the answer a symbol it applied is marked: its latest snapshot was sent, or is missed. */
  lemma ReplyAt(s: State, rejected: set<string>, symbol: string)
    requires Kept(s) && s.push.Sent? && symbol in s.latest
    ensures var n := Apply(s, Reply(rejected));
      && Watermark(n.pushed, symbol) <= n.latest[symbol].stamp
      && (SeenThrough(n, symbol) <==> symbol !in n.missed)
  {
    var applied := Applied(s.push.batch, rejected);
    MarkedSnapshot(s.pushed, s.latest, applied, symbol);
    AppliedAre(s.push.batch, rejected, symbol);
    assert SeenThrough(s, symbol) <==> symbol !in s.missed;
    if symbol in applied {
      var i :| 0 <= i < |s.push.batch| && s.push.batch[i].symbol == symbol;
      assert UnderWay(s, s.push.batch[i]);
    }
  }

  lemma ReplyKeeps(s: State, rejected: set<string>)
    requires Kept(s) && s.push.Sent?
    ensures Kept(Apply(s, Reply(rejected)))
  {
    MarkedKeys(s.pushed, s.latest, Applied(s.push.batch, rejected));
    forall symbol | symbol in s.latest
      ensures var n := Apply(s, Reply(rejected));
        Watermark(n.pushed, symbol) <= n.latest[symbol].stamp && (SeenThrough(n, symbol) <==> symbol !in n.missed)
    {
      ReplyAt(s, rejected, symbol);
    }
  }

  lemma StepKeeps(s: State, step: Step)
    requires Kept(s) && Enabled(s, step)
    ensures Kept(Apply(s, step))
  {
    match step
    case Record(item) =>
      if !IsOlder(s.latest, item) {
        TakenKeeps(s, item);
      }
    case Build(batch, limit) => BuildKeeps(s, batch, limit);
    case Reply(rejected) => ReplyKeeps(s, rejected);
    case Fail =>
      forall symbol | symbol in s.latest ensures SeenThrough(Apply(s, Fail), symbol) <==> symbol !in s.missed {
        assert SeenThrough(s, symbol) <==> symbol !in s.missed;
      }
  }

  lemma {:induction false} RunKeeps(s: State, steps: seq<Step>)
    requires Kept(s) && Allowed(s, steps)
    ensures Kept(Exec(s, steps))
    decreases |steps|
  {
    if steps != [] {
      StepKeeps(s, steps[0]);
      RunKeeps(Apply(s, steps[0]), steps[1..]);
    }
  }

  // ---------------------------------------------------------------- results

  /** In every run: the latest snapshot of a symbol is still due or was sent, if and only if it did not
      come in during a push that was then applied for its symbol, nor with the stamp of one that had
      been. */
  lemma SentUnlessMissed(steps: seq<Step>, symbol: string)
    requires Allowed(INITIAL, steps) && symbol in Exec(INITIAL, steps).latest
    ensures var n := Exec(INITIAL, steps); SeenThrough(n, symbol) <==> symbol !in n.missed
  {
    RunKeeps(INITIAL, steps);
  }

  /** Nothing is recorded for the symbol. */
  predicate NoneRecorded(steps: seq<Step>, symbol: string) {
    forall i :: 0 <= i < |steps| ==> !(steps[i].Record? && steps[i].item.symbol == symbol)
  }

  lemma MissedStaysUnsent(s: State, step: Step, symbol: string)
    requires Kept(s) && Enabled(s, step) && symbol in s.latest && symbol in s.missed
    requires !(step.Record? && step.item.symbol == symbol)
    ensures var n := Apply(s, step);
      symbol in n.latest && n.latest[symbol] == s.latest[symbol] && symbol in n.missed
  {
    assert SeenThrough(s, symbol) <==> symbol !in s.missed;
  }

  /** A missed snapshot is lost for good: until another one is recorded for its symbol it is in no
      request, whatever is pushed. */
  lemma {:induction false} MissedIsNeverSent(s: State, steps: seq<Step>, symbol: string)
    requires Kept(s) && Allowed(s, steps) && symbol in s.latest && symbol in s.missed && NoneRecorded(steps, symbol)
    ensures var n := Exec(s, steps);
      symbol in n.latest && n.latest[symbol] == s.latest[symbol] && n.latest[symbol] !in n.sent
    decreases |steps|
  {
    assert SeenThrough(s, symbol) <==> symbol !in s.missed;
    if steps != [] {
      assert !(steps[0].Record? && steps[0].item.symbol == symbol);
      MissedStaysUnsent(s, steps[0], symbol);
      StepKeeps(s, steps[0]);
      MissedIsNeverSent(Apply(s, steps[0]), steps[1..], symbol);
    }
  }

  lemma RunCons(s: State, step: Step, rest: seq<Step>)
    requires Enabled(s, step) && Allowed(Apply(s, step), rest)
    ensures Allowed(s, [step] + rest) && Exec(s, [step] + rest) == Exec(Apply(s, step), rest)
  {
    assert ([step] + rest)[1..] == rest;
  }

  /** A snapshot is sent, a newer one comes in, and then the answer to the first. */
  function Overtaken(first: Item, second: Item): seq<Step> {
    [Record(first)] + ([Build([first], 1)] + ([Record(second)] + ([Reply({})] + [])))
  }

  /** One newer snapshot at the wrong moment: it is the latest, it was never sent, and it is not due. */
  lemma NewerSnapshotIsLost(first: Item, second: Item)
    requires first.symbol == second.symbol && 0 < first.stamp < second.stamp
    ensures Allowed(INITIAL, Overtaken(first, second))
    ensures var n := Exec(INITIAL, Overtaken(first, second));
      && n.latest == map[second.symbol := second] && second !in n.sent
      && !IsDue(n.latest, n.pushed, second.symbol) && second.symbol in n.missed
  {
    var s1 := Apply(INITIAL, Record(first));
    assert [first][0].symbol == first.symbol;
    assert Enabled(s1, Build([first], 1));
    var s2 := Apply(s1, Build([first], 1));
    assert s2.sent == {first};
    var s3 := Apply(s2, Record(second));
    ReplyMarks(s3, first, second);
    RunCons(s3, Reply({}), []);
    RunCons(s2, Record(second), [Reply({})] + []);
    RunCons(s1, Build([first], 1), [Record(second)] + ([Reply({})] + []));
    RunCons(INITIAL, Record(first), [Build([first], 1)] + ([Record(second)] + ([Reply({})] + [])));
  }

  lemma ReplyMarks(s: State, first: Item, second: Item)
    requires s.push == Sent([first]) && s.latest == map[second.symbol := second] && first.symbol == second.symbol
    requires second.symbol in s.arrivals
    ensures var n := Apply(s, Reply({})); !IsDue(n.latest, n.pushed, second.symbol) && second.symbol in n.missed
  {
    AppliedAre([first], {}, first.symbol);
    assert [first][0].symbol == first.symbol;
    MarkedSnapshotIsNotDue(s.pushed, s.latest, Applied([first], {}), first.symbol);
  }
}
