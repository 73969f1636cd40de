/** Walk-forward windows (backtesting/wfa.py): geometry, the leakage check and the fit on the
    training slice. */
module Wfa {
  import opened Prelude
  import opened Execution
  import opened MarketData

  datatype WindowMode = ROLLING | ANCHORED

  /** One split; ends are exclusive and `trainEnd` is already purged. */
  datatype WindowSpec = WindowSpec(index: int, trainStart: int, trainEnd: int, testStart: int, testEnd: int)

  datatype Geometry = Geometry(trainSize: int, testSize: int, step: int, mode: WindowMode, embargo: int, purge: int)
  {
    /** The parameter checks of generate_splits. */
    predicate Valid() {
      && embargo >= 0 && purge >= 0 && trainSize - purge >= 3 && testSize >= 2 && step >= testSize
    }

    function Window(k: int): WindowSpec {
      var a := if mode == ROLLING then k * step else 0;
      var b := if mode == ROLLING then a + trainSize else trainSize + k * step;
      WindowSpec(k, a, b - purge, b + embargo, b + embargo + testSize)
    }
  }

  /** generate_splits. `step` is None when it defaults to the test size. */
  method GenerateSplits(
    samples: int, trainSize: int, testSize: int, step: Option<int>, mode: WindowMode, embargo: int, purge: int)
    returns (r: Result<seq<WindowSpec>, string>)
    ensures var g := Geometry(trainSize, testSize, if step.Some? then step.value else testSize, mode, embargo, purge);
      && (r.Ok? <==> g.Valid() && g.Window(0).testEnd <= samples)
      && (r.Ok? ==>
            && r.value != []
            && (forall k :: 0 <= k < |r.value| ==> r.value[k] == g.Window(k) && r.value[k].testEnd <= samples)
            && (forall k :: k >= |r.value| ==> g.Window(k).testEnd > samples))
  {
    var by' := if step.None? then testSize else step.value;
    ghost var g := Geometry(trainSize, testSize, by', mode, embargo, purge);
    if embargo < 0 || purge < 0 {
      return Err("embargo and purge must be non-negative");
    }
    if trainSize - purge < 3 || testSize < 2 {
      return Err("need train_size - purge >= 3 and test_size >= 2");
    }
    if by' < testSize {
      return Err("step must be >= test_size");
    }
    var specs: seq<WindowSpec> := [];
    var k := 0;
    while true
      invariant k == |specs|
      invariant forall i :: 0 <= i < k ==> specs[i] == g.Window(i) && specs[i].testEnd <= samples
      decreases samples - trainSize - k * by'
    {
      var a := if mode == ROLLING then k * by' else 0;
      var b := if mode == ROLLING then a + trainSize else trainSize + k * by';
      var testStart := b + embargo;
      if testStart + testSize > samples {
        break;
      }
      specs := specs + [WindowSpec(k, a, b - purge, testStart, testStart + testSize)];
      assert (k + 1) * by' == k * by' + by';
      k := k + 1;
    }
    forall i | i >= k ensures g.Window(i).testEnd > samples {
      WindowsAdvance(g, k, i);
    }
    if specs == [] {
      return Err("too few samples for a single window");
    }
    return Ok(specs);
  }

  lemma StepsAdd(i: int, j: int, step: int)
    requires i <= j && step >= 0
    ensures j * step == i * step + (j - i) * step
    ensures i < j ==> (j - i) * step >= step
  {
    if i < j {
      assert (j - i) * step == step + (j - i - 1) * step;
      assert (j - i - 1) * step >= 0;
    }
  }

  lemma WindowsAdvance(g: Geometry, i: int, j: int)
    requires g.Valid() && i <= j
    ensures g.Window(j).testEnd >= g.Window(i).testEnd + (j - i) * g.step
    ensures i < j ==> g.Window(j).testStart >= g.Window(i).testEnd
  {
    StepsAdd(i, j, g.step);
  }

  ghost predicate NoLeakage(splits: seq<WindowSpec>, purge: int, embargo: int) {
    && (forall i :: 0 <= i < |splits| ==>
          && splits[i].trainStart < splits[i].trainEnd <= splits[i].testStart
          && splits[i].testStart - splits[i].trainEnd >= purge + embargo)
    && (forall i :: 0 < i < |splits| ==> splits[i - 1].testEnd <= splits[i].testStart)
  }

  /** assert_no_leakage: false where the source raises. */
  method AssertNoLeakage(splits: seq<WindowSpec>, purge: int, embargo: int) returns (ok: bool)
    ensures ok <==> NoLeakage(splits, purge, embargo)
  {
    for i := 0 to |splits|
      invariant forall k :: 0 <= k < i ==>
        && splits[k].trainStart < splits[k].trainEnd <= splits[k].testStart
        && splits[k].testStart - splits[k].trainEnd >= purge + embargo
    {
      var s := splits[i];
      if s.trainEnd > s.testStart || s.trainStart >= s.trainEnd {
        return false;
      }
      if s.testStart - s.trainEnd < purge + embargo {
        return false;
      }
    }
    for i := 0 to |splits|
      invariant forall k :: 0 < k < i ==> splits[k - 1].testEnd <= splits[k].testStart
    {
      if i > 0 && splits[i].testStart < splits[i - 1].testEnd {
        return false;
      }
    }
    return true;
  }

  /** Whatever generate_splits returns passes the leakage check, with the gap exactly purge plus
      embargo, and no two test ranges overlap. */
  lemma SplitsNeverLeak(g: Geometry, splits: seq<WindowSpec>)
    requires g.Valid() && forall k :: 0 <= k < |splits| ==> splits[k] == g.Window(k)
    ensures NoLeakage(splits, g.purge, g.embargo)
    ensures forall k :: 0 <= k < |splits| ==> splits[k].testStart - splits[k].trainEnd == g.purge + g.embargo
    ensures forall i, j :: 0 <= i < j < |splits| ==> splits[i].testEnd <= splits[j].testStart
  {
    forall i, j | 0 <= i < j < |splits| ensures splits[i].testEnd <= splits[j].testStart {
      WindowsAdvance(g, i, j);
    }
  }

  // ---------------------------------------------------------------- fitting

  /** The series of slice_time that are not empty. */
  function TrainSlice(m: Market, startNs: int, endNs: int): map<string, Series> {
    map s | s in m.series && SliceBars(m.series[s].bars, startNs, endNs) != []
      :: Series(s, SliceBars(m.series[s].bars, startNs, endNs))
  }

  /** The slice holds, for each symbol that has any, exactly the bars from the first stamp to the last, in order. */
  lemma TrainSliceIs(m: Market, startNs: int, endNs: int)
    requires m.Valid()
    ensures forall s :: s in TrainSlice(m, startNs, endNs) <==>
      s in m.series && exists b :: b in m.series[s].bars && startNs <= b.timestampNs <= endNs
    ensures forall s, b :: s in TrainSlice(m, startNs, endNs) ==>
      (b in TrainSlice(m, startNs, endNs)[s].bars <==> b in m.series[s].bars && startNs <= b.timestampNs <= endNs)
    ensures forall s :: s in TrainSlice(m, startNs, endNs) ==>
      TrainSlice(m, startNs, endNs)[s].symbol == s && InOrder(TrainSlice(m, startNs, endNs)[s].bars)
  {
    forall s | s in m.series
      ensures InOrder(SliceBars(m.series[s].bars, startNs, endNs))
      ensures forall b :: b in SliceBars(m.series[s].bars, startNs, endNs) <==>
                b in m.series[s].bars && startNs <= b.timestampNs <= endNs
      ensures SliceBars(m.series[s].bars, startNs, endNs) != [] <==>
                exists b :: b in m.series[s].bars && startNs <= b.timestampNs <= endNs
    {
      SliceIsExact(m.series[s].bars, startNs, endNs);
      var slice := SliceBars(m.series[s].bars, startNs, endNs);
      if slice != [] {
        assert slice[0] in slice;
      }
    }
  }

  /** None stands for minus infinity: the score of an undefined objective. */
  type Score = Option<real>

  predicate AtLeast(a: Score, b: Score) {
    b.Some? ==> a.Some? && a.value >= b.value
  }

  predicate Better(a: Score, b: Score) {
    a.Some? && (b.None? || a.value > b.value)
  }

  /** A backtest of one parameter set on a training slice, reduced to its objective. */
  type Evaluate<!P> = (map<string, Series>, P) -> Score

  ghost predicate FirstBest<P>(train: map<string, Series>, combos: seq<P>, evaluate: Evaluate<P>, k: int) {
    && 0 <= k < |combos|
    && (forall i :: 0 <= i < |combos| ==> AtLeast(evaluate(train, combos[k]), evaluate(train, combos[i])))
    && (forall i :: 0 <= i < k ==> !AtLeast(evaluate(train, combos[i]), evaluate(train, combos[k])))
  }

  /** _fit_window: the first parameter set no other beats on the training slice. */
  method FitWindow<P>(m: Market, combos: seq<P>, spec: WindowSpec, evaluate: Evaluate<P>)
    returns (chosen: P, ghost k: int)
    requires m.Valid() && combos != [] && 0 <= spec.trainStart < spec.trainEnd <= |m.timeline|
    ensures FirstBest(TrainSlice(m, m.timeline[spec.trainStart], m.timeline[spec.trainEnd - 1]), combos, evaluate, k)
    ensures chosen == combos[k]
    ensures exists i :: FirstBest(TrainSlice(m, m.timeline[spec.trainStart], m.timeline[spec.trainEnd - 1]),
            combos, evaluate, i)
              && chosen == combos[i]
  {
    var train := TrainSlice(m, m.timeline[spec.trainStart], m.timeline[spec.trainEnd - 1]);
    chosen, k := combos[0], 0;
    var best := evaluate(train, combos[0]);
    for i := 1 to |combos|
      invariant 0 <= k < i && chosen == combos[k] && best == evaluate(train, combos[k])
      invariant forall j :: 0 <= j < i ==> !Better(evaluate(train, combos[j]), best)
      invariant forall j :: 0 <= j < k ==> Better(best, evaluate(train, combos[j]))
    {
      var score := evaluate(train, combos[i]);
      if Better(score, best) {
        best, chosen, k := score, combos[i], i;
      }
    }
  }

  lemma FirstBestIsUnique<P>(train: map<string, Series>, combos: seq<P>, evaluate: Evaluate<P>, i: int, j: int)
    requires FirstBest(train, combos, evaluate, i) && FirstBest(train, combos, evaluate, j)
    ensures i == j
  {
    assert AtLeast(evaluate(train, combos[i]), evaluate(train, combos[j]));
    assert AtLeast(evaluate(train, combos[j]), evaluate(train, combos[i]));
  }

  /** The stamps that bound the training slice are the same in both markets. */
  lemma TrainingStampsAgree(m: Market, n: Market, spec: WindowSpec)
    requires m.Valid() && n.Valid() && 0 <= spec.trainStart < spec.trainEnd <= |m.timeline|
    requires AgreeUpTo(m, n, m.timeline[spec.trainEnd - 1])
    ensures spec.trainEnd <= |n.timeline|
    ensures n.timeline[spec.trainStart] == m.timeline[spec.trainStart]
    ensures n.timeline[spec.trainEnd - 1] == m.timeline[spec.trainEnd - 1]
  {
    AgreeTimeline(m, n, m.timeline[spec.trainEnd - 1], spec.trainEnd);
    assert m.timeline[..spec.trainEnd][spec.trainStart] == n.timeline[..spec.trainEnd][spec.trainStart];
    assert m.timeline[..spec.trainEnd][spec.trainEnd - 1] == n.timeline[..spec.trainEnd][spec.trainEnd - 1];
  }

  lemma TrainSlicesAgree(m: Market, n: Market, startNs: int, endNs: int)
    requires m.Valid() && n.Valid() && AgreeUpTo(m, n, endNs)
    ensures TrainSlice(m, startNs, endNs) == TrainSlice(n, startNs, endNs)
  {
    forall s | s in m.series
      ensures SliceBars(m.series[s].bars, startNs, endNs) == SliceBars(n.series[s].bars, startNs, endNs)
    {
      AgreeSlices(m, n, startNs, endNs, s);
    }
  }

  /** No leakage through fitting: two markets that agree up to the last training stamp have the
      same training slice, so the same parameters are chosen whatever the later bars are. */
  lemma FitSeesTheTrainingSliceOnly<P>(
    m: Market, n: Market, combos: seq<P>, spec: WindowSpec, evaluate: Evaluate<P>, i: int, j: int)
    requires m.Valid() && n.Valid() && 0 <= spec.trainStart < spec.trainEnd <= |m.timeline|
    requires AgreeUpTo(m, n, m.timeline[spec.trainEnd - 1])
    requires FirstBest(TrainSlice(m, m.timeline[spec.trainStart], m.timeline[spec.trainEnd - 1]), combos, evaluate, i)
    ensures spec.trainEnd <= |n.timeline|
    ensures FirstBest(TrainSlice(n, n.timeline[spec.trainStart], n.timeline[spec.trainEnd - 1]), combos, evaluate, j)
      ==> i == j
  {
    TrainingStampsAgree(m, n, spec);
    var startNs, endNs := m.timeline[spec.trainStart], m.timeline[spec.trainEnd - 1];
    TrainSlicesAgree(m, n, startNs, endNs);
    if FirstBest(TrainSlice(n, startNs, endNs), combos, evaluate, j) {
      FirstBestIsUnique(TrainSlice(n, startNs, endNs), combos, evaluate, i, j);
    }
  }
}
