/** Which reference data is sent to Aegis (refdata-bridge/refdata_bridge/batch.py): the latest item per
    symbol, the watermark of what was accepted, and the batches built from both. */
module RefdataBatch {
  import opened Prelude

  /** A snapshot with its as_of_ns, or a regime label with its timestamp_ns. */
  datatype Item = Item(symbol: string, stamp: int, body: string)

  function Watermark(pushed: map<string, int>, symbol: string): int {
    if symbol in pushed then pushed[symbol] else 0
  }

  /** Latest items are stored under their own symbol. */
  predicate Keyed(latest: map<string, Item>) {
    forall s :: s in latest ==> latest[s].symbol == s
  }

  predicate IsDue(latest: map<string, Item>, pushed: map<string, int>, symbol: string) {
    symbol in latest && latest[symbol].stamp > Watermark(pushed, symbol)
  }

  predicate IsOlder(latest: map<string, Item>, item: Item) {
    item.symbol in latest && item.stamp < latest[item.symbol].stamp
  }

  /** Keep the newer of what is known and what arrives; on equal stamps the arrival. */
  function Recorded(latest: map<string, Item>, item: Item): map<string, Item> {
    if IsOlder(latest, item) then latest else latest[item.symbol := item]
  }

  /** What is stored for a symbol never gets older, and is never lost. */
  lemma StampNeverFalls(latest: map<string, Item>, item: Item)
    ensures var after := Recorded(latest, item);
      && item.symbol in after && item.stamp <= after[item.symbol].stamp
      && (forall s :: s in latest ==> s in after && latest[s].stamp <= after[s].stamp)
      && (Keyed(latest) ==> Keyed(after))
  {
  }

  // ---------------------------------------------------------------- batches

  predicate OldestFirst(items: seq<Item>) {
    forall i, j :: 0 <= i < j < |items| ==> items[i].stamp <= items[j].stamp
  }

  predicate OnePerSymbol(items: seq<Item>) {
    forall i, j :: 0 <= i < j < |items| ==> items[i].symbol != items[j].symbol
  }

  predicate Holds(items: seq<Item>, symbol: string) {
    exists i :: 0 <= i < |items| && items[i].symbol == symbol
  }

  predicate AllDue(items: seq<Item>, latest: map<string, Item>, pushed: map<string, int>) {
    forall i :: 0 <= i < |items| ==> IsDue(latest, pushed, items[i].symbol) && items[i] == latest[items[i].symbol]
  }

  /** The due items, oldest first, cut to the limit: what is left out is no older than what is in. */
  predicate IsBatch(items: seq<Item>, latest: map<string, Item>, pushed: map<string, int>, limit: nat) {
    && OldestFirst(items) && OnePerSymbol(items) && AllDue(items, latest, pushed) && |items| <= limit
    && (forall s :: s in latest && IsDue(latest, pushed, s) && !Holds(items, s) ==>
          |items| == limit && forall i :: 0 <= i < |items| ==> items[i].stamp <= latest[s].stamp)
  }

  function Inserted(items: seq<Item>, item: Item, at: nat): seq<Item>
    requires at <= |items|
  {
    items[..at] + [item] + items[at..]
  }

  /** Insert behind everything that is not newer. */
  method InsertByStamp(items: seq<Item>, item: Item) returns (r: seq<Item>, ghost at: nat)
    requires OldestFirst(items)
    ensures OldestFirst(r) && at <= |items| && r == Inserted(items, item, at)
  {
    var k := |items|;
    while k > 0 && items[k - 1].stamp > item.stamp
      invariant 0 <= k <= |items|
      invariant forall i :: k <= i < |items| ==> items[i].stamp > item.stamp
    {
      k := k - 1;
    }
    r, at := items[..k] + [item] + items[k..], k;
  }

  ghost predicate Collected(items: seq<Item>, latest: map<string, Item>, pushed: map<string, int>, keys: set<string>) {
    && OldestFirst(items) && OnePerSymbol(items) && AllDue(items, latest, pushed)
    && (forall s :: Holds(items, s) <==> s in keys && IsDue(latest, pushed, s))
  }

  lemma InsertedHolds(items: seq<Item>, item: Item, at: nat, s: string)
    requires at <= |items|
    ensures Holds(Inserted(items, item, at), s) <==> s == item.symbol || Holds(items, s)
  {
    var r := Inserted(items, item, at);
    assert r[at].symbol == item.symbol;
    if Holds(items, s) {
      var i :| 0 <= i < |items| && items[i].symbol == s;
      assert r[if i < at then i else i + 1].symbol == s;
    }
    if Holds(r, s) && s != item.symbol {
      var i :| 0 <= i < |r| && r[i].symbol == s;
      assert items[if i < at then i else i - 1].symbol == s;
    }
  }

  lemma InsertedDistinct(items: seq<Item>, item: Item, at: nat)
    requires at <= |items| && OnePerSymbol(items) && !Holds(items, item.symbol)
    ensures OnePerSymbol(Inserted(items, item, at))
  {
    var r := Inserted(items, item, at);
    assert forall i :: 0 <= i < |items| ==> items[i].symbol != item.symbol;
    assert forall i :: 0 <= i < at ==> r[i] == items[i];
    assert forall i :: at < i < |r| ==> r[i] == items[i - 1];
  }

  lemma InsertedDue(items: seq<Item>, item: Item, at: nat, latest: map<string, Item>, pushed: map<string, int>)
    requires at <= |items| && AllDue(items, latest, pushed)
    requires IsDue(latest, pushed, item.symbol) && item == latest[item.symbol]
    ensures AllDue(Inserted(items, item, at), latest, pushed)
  {
    var r := Inserted(items, item, at);
    assert forall i :: 0 <= i < at ==> r[i] == items[i];
    assert forall i :: at < i < |r| ==> r[i] == items[i - 1];
  }

  lemma InsertedKeeps(
    items: seq<Item>, item: Item, at: nat, latest: map<string, Item>, pushed: map<string, int>, keys: set<string>)
    requires at <= |items| && OldestFirst(Inserted(items, item, at))
    requires Collected(items, latest, pushed, keys)
    requires item.symbol !in keys && IsDue(latest, pushed, item.symbol) && item == latest[item.symbol]
    ensures Collected(Inserted(items, item, at), latest, pushed, keys + {item.symbol})
  {
    InsertedDistinct(items, item, at);
    InsertedDue(items, item, at, latest, pushed);
    forall s ensures Holds(Inserted(items, item, at), s) <==> s in keys + {item.symbol} && IsDue(latest, pushed, s) {
      InsertedHolds(items, item, at, s);
    }
  }

  /** The due items in order of their stamps. */
  method DueItems(latest: map<string, Item>, pushed: map<string, int>) returns (items: seq<Item>)
    requires Keyed(latest)
    ensures Collected(items, latest, pushed, latest.Keys)
  {
    items := [];
    var todo := latest.Keys;
    while todo != {}
      invariant todo <= latest.Keys && Collected(items, latest, pushed, latest.Keys - todo)
      decreases todo
    {
      var s :| s in todo;
      ghost var keys := latest.Keys - todo;
      todo := todo - {s};
      assert latest.Keys - todo == keys + {s};
      if latest[s].stamp > Watermark(pushed, s) {
        ghost var before := items;
        ghost var at;
        items, at := InsertByStamp(items, latest[s]);
        InsertedKeeps(before, latest[s], at, latest, pushed, keys);
      }
    }
    assert latest.Keys - todo == latest.Keys;
  }

  lemma LeftOutIsNewer(items: seq<Item>, limit: nat, s: string)
    requires OldestFirst(items) && limit < |items| && Holds(items, s) && !Holds(items[..limit], s)
    ensures forall i, k :: 0 <= i < limit && 0 <= k < |items| && items[k].symbol == s ==>
              items[i].stamp <= items[k].stamp
  {
    assert forall i :: 0 <= i < limit ==> items[..limit][i].symbol != s;
    assert forall k :: 0 <= k < |items| && items[k].symbol == s ==> k >= limit;
  }

  lemma CutIsBatch(items: seq<Item>, latest: map<string, Item>, pushed: map<string, int>, limit: nat)
    requires Collected(items, latest, pushed, latest.Keys)
    ensures IsBatch(if |items| <= limit then items else items[..limit], latest, pushed, limit)
  {
    if limit < |items| {
      var cut := items[..limit];
      forall s | s in latest && IsDue(latest, pushed, s) && !Holds(cut, s)
        ensures |cut| == limit && forall i :: 0 <= i < |cut| ==> cut[i].stamp <= latest[s].stamp
      {
        assert Holds(items, s);
        LeftOutIsNewer(items, limit, s);
      }
    }
  }

  // ---------------------------------------------------------------- marking

  /** Regime watermarks advance to the stamp that was sent. */
  function MarkRegimes(pushed: map<string, int>, applied: seq<Item>): map<string, int> {
    if applied == [] then pushed
    else
      var item, before := applied[|applied| - 1], MarkRegimes(pushed, applied[..|applied| - 1]);
      var previous := Watermark(before, item.symbol);
      before[item.symbol := if previous >= item.stamp then previous else item.stamp]
  }

  /** Snapshot watermarks advance to whatever is latest when the answer comes in. */
  function MarkSnapshots(pushed: map<string, int>, latest: map<string, Item>, applied: seq<string>): map<string, int> {
    if applied == [] then pushed
    else
      var s, before := applied[|applied| - 1], MarkSnapshots(pushed, latest, applied[..|applied| - 1]);
      if s in latest then before[s := latest[s].stamp] else before
  }

  /** BatchState. */
  class BatchState {
    var latest: map<string, Item>
    var lastPushedAsOf: map<string, int>
    var latestRegimes: map<string, Item>
    var lastPushedRegimeTs: map<string, int>

    ghost predicate Valid()
      reads this
    {
      Keyed(latest) && Keyed(latestRegimes)
    }

    constructor ()
      ensures Valid() && latest == latestRegimes == map[] && lastPushedAsOf == lastPushedRegimeTs == map[]
    {
      latest, latestRegimes, lastPushedAsOf, lastPushedRegimeTs := map[], map[], map[], map[];
    }

    method RecordSnapshot(data: Item)
      requires Valid()
      modifies this`latest
      ensures Valid() && latest == Recorded(old(latest), data)
    {
      if data.symbol in latest && data.stamp < latest[data.symbol].stamp {
        return;
      }
      latest := latest[data.symbol := data];
    }

    method RecordRegime(data: Item)
      requires Valid()
      modifies this`latestRegimes
      ensures Valid() && latestRegimes == Recorded(old(latestRegimes), data)
    {
      if data.symbol in latestRegimes && data.stamp < latestRegimes[data.symbol].stamp {
        return;
      }
      latestRegimes := latestRegimes[data.symbol := data];
    }

    method BuildBatch(maxSnapshots: nat, maxRegimes: Option<nat>) returns (snapshots: seq<Item>, regimes: seq<Item>)
      requires Valid()
      ensures IsBatch(snapshots, latest, lastPushedAsOf, maxSnapshots)
      ensures IsBatch(regimes, latestRegimes, lastPushedRegimeTs,
                      if maxRegimes.None? then maxSnapshots else maxRegimes.value)
    {
      var limit := if maxRegimes.None? then maxSnapshots else maxRegimes.value;
      snapshots := DueItems(latest, lastPushedAsOf);
      regimes := DueItems(latestRegimes, lastPushedRegimeTs);
      CutIsBatch(snapshots, latest, lastPushedAsOf, maxSnapshots);
      CutIsBatch(regimes, latestRegimes, lastPushedRegimeTs, limit);
      snapshots := if |snapshots| <= maxSnapshots then snapshots else snapshots[..maxSnapshots];
      regimes := if |regimes| <= limit then regimes else regimes[..limit];
    }

    method MarkApplied(appliedSymbols: seq<string>, appliedRegimes: seq<Item>)
      requires Valid()
      modifies this`lastPushedAsOf, this`lastPushedRegimeTs
      ensures Valid()
      ensures lastPushedAsOf == MarkSnapshots(old(lastPushedAsOf), latest, appliedSymbols)
      ensures lastPushedRegimeTs == MarkRegimes(old(lastPushedRegimeTs), appliedRegimes)
    {
      for i := 0 to |appliedSymbols|
        invariant Valid() && lastPushedRegimeTs == old(lastPushedRegimeTs)
        invariant lastPushedAsOf == MarkSnapshots(old(lastPushedAsOf), latest, appliedSymbols[..i])
      {
        assert appliedSymbols[..i + 1][..i] == appliedSymbols[..i];
        var symbol := appliedSymbols[i];
        if symbol in latest {
          lastPushedAsOf := lastPushedAsOf[symbol := latest[symbol].stamp];
        }
      }
      assert appliedSymbols[..|appliedSymbols|] == appliedSymbols;
      for i := 0 to |appliedRegimes|
        invariant Valid() && lastPushedAsOf == MarkSnapshots(old(lastPushedAsOf), latest, appliedSymbols)
        invariant lastPushedRegimeTs == MarkRegimes(old(lastPushedRegimeTs), appliedRegimes[..i])
      {
        assert appliedRegimes[..i + 1][..i] == appliedRegimes[..i];
        var regime := appliedRegimes[i];
        var previous := Watermark(lastPushedRegimeTs, regime.symbol);
        lastPushedRegimeTs := lastPushedRegimeTs[regime.symbol :=
            if previous >= regime.stamp then previous else regime.stamp];
      }
      assert appliedRegimes[..|appliedRegimes|] == appliedRegimes;
    }
  }

  // ---------------------------------------------------------------- what marking means

  /** A symbol's watermark after marking: the stamp sent for it, or what it was. */
  lemma {:induction false} MarkedRegime(pushed: map<string, int>, applied: seq<Item>, symbol: string)
    requires OnePerSymbol(applied)
    ensures !Holds(applied, symbol) ==> Watermark(MarkRegimes(pushed, applied), symbol) == Watermark(pushed, symbol)
    ensures forall i :: 0 <= i < |applied| && applied[i].symbol == symbol ==>
      Watermark(MarkRegimes(pushed, applied), symbol)
        == if Watermark(pushed, symbol) >= applied[i].stamp then Watermark(pushed, symbol) else applied[i].stamp
    decreases |applied|
  {
    if applied != [] {
      var front, last := applied[..|applied| - 1], applied[|applied| - 1];
      MarkedRegime(pushed, front, symbol);
      assert Holds(front, symbol) ==> last.symbol != symbol && Holds(applied, symbol) by {
        if Holds(front, symbol) {
          var i :| 0 <= i < |front| && front[i].symbol == symbol;
          assert applied[i].symbol == symbol;
        }
      }
      assert applied[|applied| - 1].symbol == last.symbol;
    }
  }

  lemma {:induction false} MarkedSnapshot(
    pushed: map<string, int>, latest: map<string, Item>, applied: seq<string>, symbol: string)
    ensures Watermark(MarkSnapshots(pushed, latest, applied), symbol)
         == if symbol in applied && symbol in latest then latest[symbol].stamp else Watermark(pushed, symbol)
    decreases |applied|
  {
    if applied != [] {
      var front := applied[..|applied| - 1];
      MarkedSnapshot(pushed, latest, front, symbol);
      assert applied == front + [applied[|applied| - 1]];
    }
  }

  /** What is newer than the item sent should still be due after marking. The snapshot half forgets what
      was sent: once its symbol is marked the latest snapshot is not due, sent or not. */
  lemma MarkedSnapshotIsNotDue(
    pushed: map<string, int>, latest: map<string, Item>, applied: seq<string>, symbol: string)
    requires symbol in applied
    ensures !IsDue(latest, MarkSnapshots(pushed, latest, applied), symbol)
  {
    MarkedSnapshot(pushed, latest, applied, symbol);
  }

  /** The regime half does not: what is newer stays due. */
  lemma NewerRegimeStaysDue(pushed: map<string, int>, latest: map<string, Item>, applied: seq<Item>, sent: Item)
    requires OnePerSymbol(applied) && sent in applied && sent.stamp > Watermark(pushed, sent.symbol)
    requires sent.symbol in latest
    ensures IsDue(latest, MarkRegimes(pushed, applied), sent.symbol) <==> latest[sent.symbol].stamp > sent.stamp
  {
    MarkedRegime(pushed, applied, sent.symbol);
  }
}
