/** Reacting to the kill state (execution_motor/kill_watch.py): the level mirror, the watcher that
    feeds it from the state stream, and the sweep that cancels every open order. */
module KillWatch {
  import opened Prelude
  import opened MotorSystem
  import W = WakeUp
  import C = KillChain

  const CANCEL_THRESHOLD := LEVEL_LOGIC

  // ---------------------------------------------------------------- level mirror

  /** KillLevelMirror: a level that is not known reads as HARD. */
  class KillLevelMirror {
    var level: nat
    var known: bool

    ghost predicate Valid()
      reads this
    {
      level <= LEVEL_MAX && (!known ==> level == LEVEL_HARD)
    }

    constructor ()
      ensures Valid() && !known && level == LEVEL_HARD
    {
      level, known := LEVEL_HARD, false;
    }

    method Apply(reported: int) returns (previous: nat)
      requires Valid()
      modifies this
      ensures Valid() && known && previous == old(level)
      ensures level == if 0 <= reported <= 5 then reported else 4
    {
      previous, level, known := level, SafeLevel(reported), true;
    }

    method MarkUnknown() returns (previous: nat)
      requires Valid()
      modifies this
      ensures Valid() && !known && level == 4 && previous == old(level)
    {
      previous, level, known := level, LEVEL_HARD, false;
    }
  }

  // ---------------------------------------------------------------- what the stream said

  /** One thing the watcher was told. `Down` is a missing, failed or ended stream or a failed probe,
      or the shutdown of the watcher itself. */
  datatype Event = NewStream | Report(seqNo: int, level: int) | Down

  datatype View = View(level: nat, known: bool, lastSeq: Option<int>)

  predicate InOrder(v: View, seqNo: int) {
    v.lastSeq.None? || v.lastSeq.value <= seqNo
  }

  function Seen(v: View, e: Event): View {
    match e
    case NewStream => v.(lastSeq := None)
    case Report(seqNo, level) => if InOrder(v, seqNo) then View(SafeLevel(level), true, Some(seqNo)) else v
    case Down => v.(level := LEVEL_HARD, known := false)
  }

  /** The watcher's view after a history of events. */
  function ViewOf(events: seq<Event>): View {
    if events == [] then View(LEVEL_HARD, false, None)
    else Seen(ViewOf(events[..|events| - 1]), events[|events| - 1])
  }

  /** Report `j` came on the stream that is current at the end of `events`. */
  ghost predicate OnStream(events: seq<Event>, j: int) {
    && 0 <= j < |events| && events[j].Report?
    && (forall k :: j <= k < |events| ==> !events[k].NewStream?)
  }

  /** Event `i` is a report at least as new as everything before it on its stream. */
  ghost predicate IsNewest(events: seq<Event>, i: int) {
    && 0 <= i < |events| && events[i].Report?
    && (forall j :: OnStream(events[..i], j) ==> events[j].seqNo <= events[i].seqNo)
  }

  /** Report `i` is the last word: nothing newer was reported since and no stream has failed since. */
  ghost predicate Governs(events: seq<Event>, i: int) {
    && IsNewest(events, i)
    && (forall j :: i < j < |events| ==> !events[j].Down? && !IsNewest(events, j))
  }

  lemma {:induction false} LastSeqIsHighest(events: seq<Event>)
    ensures var last := ViewOf(events).lastSeq;
      && (last.Some? ==> exists j :: OnStream(events, j) && events[j].seqNo == last.value)
      && (forall j :: OnStream(events, j) ==> last.Some? && events[j].seqNo <= last.value)
    decreases |events|
  {
    if events != [] {
      var n := |events| - 1;
      var before := events[..n];
      LastSeqIsHighest(before);
      forall j | 0 <= j < n ensures OnStream(events, j) <==> OnStream(before, j) && !events[n].NewStream? {
        assert forall k :: j <= k < n ==> events[k] == before[k];
      }
      if events[n].Report? {
        assert OnStream(events, n);
      }
    }
  }

  /** The out-of-order filter keeps exactly the reports that nothing on their stream outdates. */
  lemma FilterKeepsTheNewest(events: seq<Event>, i: nat)
    requires i < |events| && events[i].Report?
    ensures InOrder(ViewOf(events[..i]), events[i].seqNo) <==> IsNewest(events, i)
  {
    LastSeqIsHighest(events[..i]);
    var last := ViewOf(events[..i]).lastSeq;
    if last.Some? && events[i].seqNo < last.value {
      var j :| OnStream(events[..i], j) && events[..i][j].seqNo == last.value;
      assert events[j].seqNo > events[i].seqNo;
    }
  }

  /** The mirror says what the governing report said, and HARD when no report governs. In particular
      it reads NORMAL only if Aegis said NORMAL and nothing newer, or worse, has come since. */
  lemma {:induction false} MirrorTellsTheLastWord(events: seq<Event>)
    ensures ViewOf(events).known <==> exists i :: Governs(events, i)
    ensures forall i :: Governs(events, i) ==> ViewOf(events).level == SafeLevel(events[i].level)
    ensures !ViewOf(events).known ==> ViewOf(events).level == LEVEL_HARD
    decreases |events|
  {
    if events != [] {
      var n := |events| - 1;
      var before := events[..n];
      MirrorTellsTheLastWord(before);
      if events[n].Report? {
        FilterKeepsTheNewest(events, n);
      }
      forall i | 0 <= i < n ensures IsNewest(events, i) <==> IsNewest(before, i) {
        assert events[..i] == before[..i];
      }
      forall i ensures Governs(events, i) <==>
        if IsNewest(events, n) then i == n else Governs(before, i) && !events[n].Down?
      {
        GovernsStep(events, i);
      }
      if IsNewest(events, n) {
        assert Governs(events, n);
      }
    }
  }

  lemma GovernsStep(events: seq<Event>, i: int)
    requires events != []
    ensures var n := |events| - 1;
      Governs(events, i) <==> if IsNewest(events, n) then i == n else Governs(events[..n], i) && !events[n].Down?
  {
    var n := |events| - 1;
    var before := events[..n];
    forall j | 0 <= j < n ensures IsNewest(events, j) <==> IsNewest(before, j) {
      assert events[..j] == before[..j];
    }
  }

  // ---------------------------------------------------------------- the watcher

  /** KillSwitchWatcher. Without a sweeper thread a requested sweep runs inline, which `inlineSweeps`
      counts. History: `events` is what the watcher was told, `accesses` what it did to the mirror and the
      sweeper's request, and `requests` how many requests it has made. */
  class KillSwitchWatcher {
    const mirror: KillLevelMirror
    const sweeperActive: bool
    var lastSeq: Option<int>
    var pending: Option<string>
    var wake: bool
    var inlineSweeps: nat
    ghost var events: seq<Event>
    ghost var accesses: seq<C.Step>
    ghost var requests: nat

    ghost predicate Valid()
      reads this, mirror
    {
      mirror.Valid() && ViewOf(events) == View(mirror.level, mirror.known, lastSeq)
    }

    constructor (sweeperActive: bool)
      ensures Valid() && fresh(mirror) && events == [] && this.sweeperActive == sweeperActive
      ensures pending.None? && !wake && inlineSweeps == 0
    {
      mirror := new KillLevelMirror();
      this.sweeperActive := sweeperActive;
      lastSeq, pending, wake, inlineSweeps, events := None, None, false, 0, [];
      accesses, requests := [], 0;
    }

    /** A sweep was asked for since `inlineBefore`: handed to the sweeper thread or run inline. */
    ghost predicate Asked(inlineBefore: nat)
      reads this
    {
      if sweeperActive then pending.Some? && wake else inlineSweeps == inlineBefore + 1
    }

    method BeginStream()
      requires Valid()
      modifies this
      ensures Valid() && events == old(events) + [NewStream]
      ensures pending == old(pending) && wake == old(wake) && inlineSweeps == old(inlineSweeps)
    {
      lastSeq := None;
      events := events + [NewStream];
    }

    method RequestSweep(reason: string)
      modifies this`pending, this`wake, this`inlineSweeps, this`accesses, this`requests
      ensures Asked(old(inlineSweeps)) && requests == old(requests) + 1
      ensures sweeperActive ==>
        accesses == old(accesses) + [C.Loops(W.Ask(old(requests))), C.Loops(W.SetWake(old(requests)))]
    {
      requests := requests + 1;
      if !sweeperActive {
        inlineSweeps := inlineSweeps + 1;
        return;
      }
      pending := Some(reason);
      accesses := accesses + [C.Loops(W.Ask(requests - 1))];
      wake := true;
      accesses := accesses + [C.Loops(W.SetWake(requests - 1))];
    }

    /** handle_state: an out-of-order message changes nothing; any other is mirrored, and unless its level is
        0 or 1 every open order is to be cancelled. With a sweeper thread the accesses are those of one
        handling in the running system. */
    method HandleState(seqNo: int, level: int)
      requires Valid()
      modifies this, mirror
      ensures Valid() && events == old(events) + [Report(seqNo, level)]
      ensures var newer := old(lastSeq).None? || old(lastSeq).value <= seqNo;
        && (newer && level != 0 && level != 1 ==> Asked(old(inlineSweeps)))
        && (!newer || level == 0 || level == 1 ==>
              pending == old(pending) && wake == old(wake) && inlineSweeps == old(inlineSweeps))
        && (newer ==> lastSeq == Some(seqNo) && mirror.level == if 0 <= level <= 5 then level else 4)
        && (!newer ==>
              lastSeq == old(lastSeq) && mirror.level == old(mirror.level) && mirror.known == old(mirror.known))
        && (sweeperActive ==> accesses == old(accesses) + if newer then C.Handling(level, old(requests)) else [])
    {
      events := events + [Report(seqNo, level)];
      if lastSeq.Some? && seqNo < lastSeq.value {
        return;
      }
      lastSeq := Some(seqNo);
      var _ := mirror.Apply(level);
      accesses := accesses + [C.Works(ApplyLevel(level))];
      if mirror.level >= CANCEL_THRESHOLD {
        RequestSweep("aegis kill level");
      }
    }

    /** handle_stream_down: the level reads HARD from now on and a sweep is asked for, every time. */
    method HandleStreamDown(reason: string)
      requires Valid()
      modifies this, mirror
      ensures Valid() && events == old(events) + [Down] && Asked(old(inlineSweeps)) && mirror.level == 4
    {
      events := events + [Down];
      var _ := mirror.MarkUnknown();
      accesses := accesses + [C.Works(StreamDown)];
      RequestSweep(reason);
    }

    /** consume: every report of the stream in order, until it ends, fails after `failsAfter` of them,
        or the watcher is stopped after `stoppedAfter`. It never returns with a trusted level. */
    method Consume(stream: seq<(int, int)>, failsAfter: nat, stoppedAfter: nat) returns (received: nat)
      requires Valid()
      modifies this, mirror
      ensures Valid() && !mirror.known && mirror.level == LEVEL_HARD
      ensures received <= |stream| && received <= failsAfter && received <= stoppedAfter
      ensures received == |stream| || received == failsAfter || received == stoppedAfter
      ensures events == old(events) + Reports(stream[..received]) + [Down]
      ensures sweeperActive && received < stoppedAfter ==> pending.Some? && wake
    {
      received := 0;
      assert events == events + Reports(stream[..0]);
      while received < |stream| && received < failsAfter && received < stoppedAfter
        invariant Valid() && received <= |stream| && received <= failsAfter && received <= stoppedAfter
        invariant events == old(events) + Reports(stream[..received])
      {
        HandleState(stream[received].0, stream[received].1);
        assert stream[..received + 1] == stream[..received] + [stream[received]];
        ReportsAppend(stream[..received], stream[received]);
        received := received + 1;
      }
      if received == stoppedAfter {
        events := events + [Down];
        var _ := mirror.MarkUnknown();
      } else {
        HandleStreamDown("stream ended");
      }
    }

    /** check_liveness: a failed probe makes the state unknown; without a probe, or with the state
        already unknown, there is nothing to check. */
    method CheckLiveness(hasProbe: bool, answers: bool) returns (ok: bool)
      requires Valid()
      modifies this, mirror
      ensures Valid() && ok == (!hasProbe || !old(mirror.known) || answers)
      ensures ok ==> events == old(events) && pending == old(pending) && wake == old(wake)
      ensures !ok ==> !mirror.known && events == old(events) + [Down] && Asked(old(inlineSweeps))
    {
      if !hasProbe || !mirror.known {
        return true;
      }
      if !answers {
        HandleStreamDown("liveness probe failed");
        return false;
      }
      return true;
    }
  }

  function Reports(stream: seq<(int, int)>): seq<Event> {
    if stream == [] then [] else [Report(stream[0].0, stream[0].1)] + Reports(stream[1..])
  }

  lemma {:induction false} ReportsAppend(stream: seq<(int, int)>, r: (int, int))
    ensures Reports(stream + [r]) == Reports(stream) + [Report(r.0, r.1)]
  {
    if stream == [] {
      assert (stream + [r])[1..] == [];
    } else {
      ReportsAppend(stream[1..], r);
      assert (stream + [r])[1..] == stream[1..] + [r];
    }
  }

  // ---------------------------------------------------------------- the cancel sweep

  /** A venue during one sweep: the ids it lists, None when listing fails, and whether each cancel is
      accepted, in the same order. */
  datatype Venue = Venue(name: string, listing: Option<seq<Order>>)

  datatype Order = Order(id: string, accepts: bool)

  datatype SweepResult = SweepResult(
    listed: nat, cancelled: seq<string>, failed: seq<string>, unreadable: seq<string>)
  {
    predicate Complete() {
      failed == [] && unreadable == []
    }
  }

  function Readable(v: Venue): seq<Order> {
    if v.listing.None? then [] else v.listing.value
  }

  /** Everything the readable venues list, in the order of the sweep. */
  function AllListed(venues: seq<Venue>): seq<Order> {
    if venues == [] then []
    else AllListed(venues[..|venues| - 1]) + Readable(venues[|venues| - 1])
  }

  function Ids(orders: seq<Order>, accepts: bool): seq<string> {
    if orders == [] then []
    else
      var last := orders[|orders| - 1];
      Ids(orders[..|orders| - 1], accepts) + if last.accepts == accepts then [last.id] else []
  }

  lemma IdsAppend(orders: seq<Order>, o: Order, accepts: bool)
    ensures Ids(orders + [o], accepts) == Ids(orders, accepts) + if o.accepts == accepts then [o.id] else []
  {
    assert (orders + [o])[..|orders|] == orders;
  }

  function UnreadableNames(venues: seq<Venue>): seq<string> {
    if venues == [] then []
    else
      var last := venues[|venues| - 1];
      UnreadableNames(venues[..|venues| - 1]) + if last.listing.None? then [last.name] else []
  }

  /** _sweep_venue: one cancel per listed order, whatever the others answered. */
  method SweepVenue(venue: Venue, cancelled: seq<string>, failed: seq<string>)
    returns (count: Option<nat>, cancelled': seq<string>, failed': seq<string>)
    ensures count == if venue.listing.None? then None else Some(|venue.listing.value|)
    ensures cancelled' == cancelled + Ids(Readable(venue), true)
    ensures failed' == failed + Ids(Readable(venue), false)
  {
    cancelled', failed' := cancelled, failed;
    if venue.listing.None? {
      return None, cancelled', failed';
    }
    var orders := venue.listing.value;
    for i := 0 to |orders|
      invariant cancelled' == cancelled + Ids(orders[..i], true)
      invariant failed' == failed + Ids(orders[..i], false)
    {
      assert orders[..i + 1] == orders[..i] + [orders[i]];
      IdsAppend(orders[..i], orders[i], true);
      IdsAppend(orders[..i], orders[i], false);
      if orders[i].accepts {
        cancelled' := cancelled' + [orders[i].id];
      } else {
        failed' := failed' + [orders[i].id];
      }
    }
    assert orders[..|orders|] == orders;
    count := Some(|orders|);
  }

  lemma {:induction false} IdsConcat(a: seq<Order>, b: seq<Order>, accepts: bool)
    ensures Ids(a + b, accepts) == Ids(a, accepts) + Ids(b, accepts)
    decreases |b|
  {
    if b == [] {
      assert a + b == a;
    } else {
      var n := |b| - 1;
      IdsConcat(a, b[..n], accepts);
      IdsAppend(a + b[..n], b[n], accepts);
      assert a + b == a + b[..n] + [b[n]];
    }
  }

  /** OpenOrderCanceller.sweep: one bad venue or order does not stop the rest. */
  method Sweep(venues: seq<Venue>) returns (r: SweepResult)
    ensures r.listed == |AllListed(venues)|
    ensures r.cancelled == Ids(AllListed(venues), true)
    ensures r.failed == Ids(AllListed(venues), false)
    ensures r.unreadable == UnreadableNames(venues)
  {
    var listed, cancelled, failed, unreadable := 0, [], [], [];
    for i := 0 to |venues|
      invariant listed == |AllListed(venues[..i])|
      invariant cancelled == Ids(AllListed(venues[..i]), true)
      invariant failed == Ids(AllListed(venues[..i]), false)
      invariant unreadable == UnreadableNames(venues[..i])
    {
      assert venues[..i + 1][..i] == venues[..i];
      IdsConcat(AllListed(venues[..i]), Readable(venues[i]), true);
      IdsConcat(AllListed(venues[..i]), Readable(venues[i]), false);
      var count;
      count, cancelled, failed := SweepVenue(venues[i], cancelled, failed);
      if count.None? {
        unreadable := unreadable + [venues[i].name];
      } else {
        listed := listed + count.value;
      }
    }
    assert venues[..|venues|] == venues;
    r := SweepResult(listed, cancelled, failed, unreadable);
  }

  lemma {:induction false} IdsAre(orders: seq<Order>, accepts: bool)
    ensures Ids(orders, accepts) == [] <==> forall o :: o in orders ==> o.accepts != accepts
    ensures |Ids(orders, accepts)| + |Ids(orders, !accepts)| == |orders|
    decreases |orders|
  {
    if orders != [] {
      IdsAre(orders[..|orders| - 1], accepts);
      assert orders == orders[..|orders| - 1] + [orders[|orders| - 1]];
    }
  }

  lemma {:induction false} UnreadableAre(venues: seq<Venue>)
    ensures UnreadableNames(venues) == [] <==> forall v :: v in venues ==> v.listing.Some?
    ensures forall o :: o in AllListed(venues) <==> exists v :: v in venues && o in Readable(v)
    decreases |venues|
  {
    if venues != [] {
      UnreadableAre(venues[..|venues| - 1]);
      assert venues == venues[..|venues| - 1] + [venues[|venues| - 1]];
    }
  }

  /** A result is complete exactly when every venue could be read and accepted every cancel, and
      every listed order is either cancelled or reported as failed. */
  lemma CompleteMeansAllCancelled(venues: seq<Venue>, r: SweepResult)
    requires r.cancelled == Ids(AllListed(venues), true) && r.failed == Ids(AllListed(venues), false)
    requires r.unreadable == UnreadableNames(venues) && r.listed == |AllListed(venues)|
    ensures r.Complete() <==>
            forall v :: v in venues ==> v.listing.Some? && forall o :: o in v.listing.value ==> o.accepts
    ensures |r.cancelled| + |r.failed| == r.listed
  {
    IdsAre(AllListed(venues), false);
    UnreadableAre(venues);
    if r.Complete() {
      forall v | v in venues ensures v.listing.Some? && forall o :: o in v.listing.value ==> o.accepts {
        forall o | o in v.listing.value ensures o.accepts {
          assert o in Readable(v) && o in AllListed(venues);
        }
      }
    }
  }
}
