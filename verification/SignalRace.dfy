/** Which claimed signals get through to the reservation (execution_motor/motor.py, limits.py): the two
    claims of a call are two separate steps, so calls that carry one signal can share the keys out
    among them. */
module SignalRace {
  import opened Prelude
  import opened Limits
  import opened MotorSystem
  import opened MotorSafety

  // ---------------------------------------------------------------- who won what

  /** The calls whose claim on `key` was granted along a run. */
  ghost function WonBy(s: State, steps: seq<Step>, key: string): set<nat>
    requires Allowed(s, steps)
    decreases |steps|
  {
    if steps == [] then {} else GrantedTo(s, steps[0], key) + WonBy(Apply(s, steps[0]), steps[1..], key)
  }

  function GrantedTo(s: State, step: Step, key: string): set<nat>
    requires Enabled(s, step)
  {
    if ClaimStep(step) && key in GrantedBy(s, step) then {step.id} else {}
  }

  /** A call of the signal has just won both claims. */
  predicate Through(s: State, signal: string) {
    exists id :: id in s.calls && s.calls[id].signal == signal && s.calls[id].phase == BothClaimed
  }

  /** Some call of the signal gets past the claims somewhere along the run. */
  ghost predicate GetsThrough(s: State, steps: seq<Step>, signal: string)
    requires Allowed(s, steps)
    decreases |steps|
  {
    Through(s, signal) || (steps != [] && GetsThrough(Apply(s, steps[0]), steps[1..], signal))
  }

  // ---------------------------------------------------------------- the invariant

  /** Past both claims, and neither ended nor failed. */
  predicate PastClaims(p: Phase) {
    Won(p) && !p.SignalTried?
  }

  /** Where a call stands says which keys of `signal` it has won. */
  predicate Placed(c: Call, signal: string, first: bool, second: bool) {
    if c.signal != signal then !first && !second
    else
      && (c.phase.Received? || c.phase.Checked? ==> !first && !second)
      && (c.phase.SignalTried? ==> first == c.phase.isNew && !second)
      && (PastClaims(c.phase) ==> first && second)
  }

  ghost predicate AtMostOne(ids: set<nat>) {
    forall i, j :: i in ids && j in ids ==> i == j
  }

  /** `first` and `second` won the signal key and the order key so far. */
  ghost predicate History(s: State, signal: string, first: set<nat>, second: set<nat>) {
    && first + second <= s.used && s.calls.Keys <= s.used
    && (first != {} ==> Kept(s, SignalKey(signal))) && (second != {} ==> Kept(s, OrderKey(signal)))
    && AtMostOne(first) && AtMostOne(second)
    && AllPlaced(s.calls, signal, first, second)
  }

  lemma StepKeepsKey(s: State, step: Step, key: string)
    requires Enabled(s, step)
    ensures Kept(s, key) || GrantedTo(s, step, key) != {} ==> Kept(Apply(s, step), key)
    ensures GrantedTo(s, step, key) != {} ==> s.up && key !in s.seen
  {
    StepKeepsGranted(s, step, if Kept(s, key) then {key} else {});
  }

  /** A claim is won by at most one call, ever. */
  lemma WonOnce(s: State, step: Step, key: string, won: set<nat>)
    requires Enabled(s, step) && AtMostOne(won) && (won != {} ==> Kept(s, key))
    ensures var n := won + GrantedTo(s, step, key); AtMostOne(n) && (n != {} ==> Kept(Apply(s, step), key))
  {
    StepKeepsKey(s, step, key);
  }

  /** From one phase to the next without a claim. */
  predicate Further(p: Phase, q: Phase) {
    q == p || (p.Received? && q.Checked?) || q.Done? || q.Errored? || (PastClaims(p) && PastClaims(q))
  }

  /** The step left every call where it was, or moved one on without a claim. */
  ghost predicate Onward(s: State, n: State) {
    && n.used == s.used
    && (forall id :: id in n.calls ==>
          && id in s.calls && n.calls[id].signal == s.calls[id].signal
          && Further(s.calls[id].phase, n.calls[id].phase))
  }

  lemma WorkerGoesFurther(s: State, step: Step)
    requires Enabled(s, step) && WorkerStep(step)
    ensures step.id in s.calls && step.id in Apply(s, step).calls
    ensures Further(s.calls[step.id].phase, Apply(s, step).calls[step.id].phase)
  {
  }

  lemma OnwardWorker(s: State, step: Step)
    requires Enabled(s, step) && WorkerStep(step)
    ensures Onward(s, Apply(s, step))
  {
    WorkerShape(s, step);
    WorkerGoesFurther(s, step);
  }

  lemma OutsideKeepsUsed(s: State, step: Step)
    requires Enabled(s, step) && OutsideStep(step)
    ensures Apply(s, step).used == s.used
  {
  }

  lemma OnwardSteps(s: State, step: Step)
    requires Enabled(s, step) && !ClaimStep(step) && !step.Begin?
    ensures Onward(s, Apply(s, step))
  {
    if OutsideStep(step) {
      OutsideKeepsCalls(s, step);
      OutsideKeepsUsed(s, step);
    } else if WorkerStep(step) {
      OnwardWorker(s, step);
    }
  }

  lemma OnwardKeepsPlaces(s: State, n: State, signal: string, first: set<nat>, second: set<nat>)
    requires Onward(s, n) && AllPlaced(s.calls, signal, first, second)
    ensures AllPlaced(n.calls, signal, first, second)
    ensures s.calls.Keys <= s.used ==> n.calls.Keys <= n.used
  {
  }

  /** What a claim does: one call moves, and wins the key it claimed or nothing. */
  lemma ClaimSignalIs(s: State, id: nat, w: Write, signal: string)
    requires Enabled(s, ClaimSignal(id, w))
    ensures var (n, mine) := (Apply(s, ClaimSignal(id, w)), s.calls[id].signal == signal);
      && n.used == s.used && n.calls == s.calls[id := s.calls[id].(phase := n.calls[id].phase)]
      && GrantedTo(s, ClaimSignal(id, w), OrderKey(signal)) == {}
      && GrantedTo(s, ClaimSignal(id, w), SignalKey(signal))
         == (if mine && n.calls[id].phase == SignalTried(true) then {id} else {})
      && (n.calls[id].phase.SignalTried? || n.calls[id].phase.Errored?)
  {
    KeysDiffer(s.calls[id].signal, signal);
    KeysDiffer(signal, s.calls[id].signal);
  }

  lemma ClaimOrderIs(s: State, id: nat, w: Write, signal: string)
    requires Enabled(s, ClaimOrder(id, w))
    ensures var (n, won) := (Apply(s, ClaimOrder(id, w)), GrantedTo(s, ClaimOrder(id, w), OrderKey(signal)));
      && n.used == s.used && n.calls == s.calls[id := s.calls[id].(phase := n.calls[id].phase)]
      && GrantedTo(s, ClaimOrder(id, w), SignalKey(signal)) == {}
      && (won == {} || (won == {id} && s.calls[id].signal == signal))
      && (n.calls[id].phase == BothClaimed || n.calls[id].phase == Done(false) || n.calls[id].phase.Errored?)
      && (s.calls[id].signal == signal ==>
            (n.calls[id].phase == BothClaimed <==> won == {id} && s.calls[id].phase == SignalTried(true)))
  {
    KeysDiffer(s.calls[id].signal, signal);
    KeysDiffer(signal, s.calls[id].signal);
  }

  ghost predicate AllPlaced(calls: map<nat, Call>, signal: string, first: set<nat>, second: set<nat>) {
    forall id :: id in calls ==> Placed(calls[id], signal, id in first, id in second)
  }

  /** Call `id` moved to `c` and won what is in `a` and `b`; nobody else changed. */
  lemma OnePlaced(
    calls: map<nat, Call>, id: nat, c: Call, signal: string, first: set<nat>, second: set<nat>, a: set<nat>,
    b: set<nat>)
    requires AllPlaced(calls, signal, first, second) && a <= {id} && b <= {id}
    requires Placed(c, signal, id in first + a, id in second + b)
    ensures AllPlaced(calls[id := c], signal, first + a, second + b)
  {
  }

  lemma ClaimKeepsPlaces(s: State, step: Step, signal: string, first: set<nat>, second: set<nat>)
    requires Enabled(s, step) && ClaimStep(step) && AllPlaced(s.calls, signal, first, second)
    ensures AllPlaced(Apply(s, step).calls, signal, first + GrantedTo(s, step, SignalKey(signal)),
                      second + GrantedTo(s, step, OrderKey(signal)))
  {
    var id, n := step.id, Apply(s, step);
    var a, b := GrantedTo(s, step, SignalKey(signal)), GrantedTo(s, step, OrderKey(signal));
    if step.ClaimSignal? {
      ClaimSignalIs(s, id, step.write, signal);
    } else {
      ClaimOrderIs(s, id, step.write, signal);
    }
    assert Placed(s.calls[id], signal, id in first, id in second);
    OnePlaced(s.calls, id, n.calls[id], signal, first, second, a, b);
  }

  /** Two keys with one winner for the first time: that call has just got through. */
  lemma BothWonIsThrough(s: State, step: Step, signal: string, first: set<nat>, second: set<nat>)
    requires Enabled(s, step) && ClaimStep(step) && AllPlaced(s.calls, signal, first, second) && first * second == {}
    requires (first + GrantedTo(s, step, SignalKey(signal))) * (second + GrantedTo(s, step, OrderKey(signal))) != {}
    ensures Through(Apply(s, step), signal)
  {
    var id, n := step.id, Apply(s, step);
    assert Placed(s.calls[id], signal, id in first, id in second);
    if step.ClaimSignal? {
      ClaimSignalIs(s, id, step.write, signal);
    } else {
      ClaimOrderIs(s, id, step.write, signal);
    }
    assert id in n.calls && n.calls[id].signal == signal && n.calls[id].phase == BothClaimed;
  }

  lemma BeginKeepsPlaces(s: State, step: Step, signal: string, first: set<nat>, second: set<nat>)
    requires Enabled(s, step) && step.Begin? && AllPlaced(s.calls, signal, first, second) && first + second <= s.used
    ensures AllPlaced(Apply(s, step).calls, signal, first, second)
  {
  }

  lemma StepKeepsPlaces(s: State, step: Step, signal: string, first: set<nat>, second: set<nat>)
    requires Enabled(s, step) && AllPlaced(s.calls, signal, first, second) && first + second <= s.used
    requires s.calls.Keys <= s.used
    ensures var n, a, b := Apply(s, step), first + GrantedTo(s, step, SignalKey(signal)),
          second + GrantedTo(s, step, OrderKey(signal));
      && AllPlaced(n.calls, signal, a, b) && a + b <= n.used && n.calls.Keys <= n.used
      && (a * b != {} ==> first * second != {} || Through(n, signal))
  {
    var a, b := GrantedTo(s, step, SignalKey(signal)), GrantedTo(s, step, OrderKey(signal));
    if ClaimStep(step) {
      ClaimKeepsPlaces(s, step, signal, first, second);
      if first * second == {} && (first + a) * (second + b) != {} {
        BothWonIsThrough(s, step, signal, first, second);
      }
      UsedByClaim(s, step);
    } else {
      assert first + a == first && second + b == second;
      if step.Begin? {
        BeginKeepsPlaces(s, step, signal, first, second);
      } else {
        OnwardSteps(s, step);
        OnwardKeepsPlaces(s, Apply(s, step), signal, first, second);
      }
    }
  }

  lemma UsedByClaim(s: State, step: Step)
    requires Enabled(s, step) && ClaimStep(step)
    ensures Apply(s, step).used == s.used && Apply(s, step).calls.Keys == s.calls.Keys && step.id in s.calls
  {
  }

  // ---------------------------------------------------------------- whole runs

  lemma StepKeepsHistory(s: State, step: Step, signal: string, first: set<nat>, second: set<nat>)
    requires Enabled(s, step) && History(s, signal, first, second)
    ensures History(Apply(s, step), signal, first + GrantedTo(s, step, SignalKey(signal)),
                    second + GrantedTo(s, step, OrderKey(signal)))
  {
    StepKeepsPlaces(s, step, signal, first, second);
    WonOnce(s, step, SignalKey(signal), first);
    WonOnce(s, step, OrderKey(signal), second);
  }

  lemma ThroughHasBoth(s: State, signal: string, first: set<nat>, second: set<nat>)
    requires History(s, signal, first, second) && Through(s, signal)
    ensures first * second != {}
  {
    var id :| id in s.calls && s.calls[id].signal == signal && s.calls[id].phase == BothClaimed;
    assert Placed(s.calls[id], signal, id in first, id in second);
    assert id in first * second;
  }

  /** Only a call that won both keys is ever submitted. */
  lemma SubmitHasBoth(s: State, step: Step, signal: string, first: set<nat>, second: set<nat>)
    requires Enabled(s, step) && History(s, signal, first, second) && step.Submit? && s.calls[step.id].signal == signal
    ensures first * second != {}
  {
    assert Placed(s.calls[step.id], signal, step.id in first, step.id in second);
    assert step.id in first * second;
  }

  lemma {:induction false} ThroughIffBoth(s: State, steps: seq<Step>, signal: string, first: set<nat>, second: set<nat>)
    requires History(s, signal, first, second) && Allowed(s, steps)
    ensures var a, b := first + WonBy(s, steps, SignalKey(signal)), second + WonBy(s, steps, OrderKey(signal));
      && AtMostOne(a) && AtMostOne(b)
      && (first * second != {} || GetsThrough(s, steps, signal) <==> a * b != {})
      && (signal in Submitted(s, steps) ==> a * b != {})
    decreases |steps|
  {
    if Through(s, signal) {
      ThroughHasBoth(s, signal, first, second);
    }
    if steps == [] {
      assert first + {} == first && second + {} == second;
    } else {
      var step, n, rest := steps[0], Apply(s, steps[0]), steps[1..];
      var a, b := first + GrantedTo(s, step, SignalKey(signal)), second + GrantedTo(s, step, OrderKey(signal));
      StepKeepsHistory(s, step, signal, first, second);
      StepKeepsPlaces(s, step, signal, first, second);
      ThroughIffBoth(n, rest, signal, a, b);
      assert a + WonBy(n, rest, SignalKey(signal)) == first + WonBy(s, steps, SignalKey(signal));
      assert b + WonBy(n, rest, OrderKey(signal)) == second + WonBy(s, steps, OrderKey(signal));
      assert first * second <= a * b;
      if step.Submit? && s.calls[step.id].signal == signal {
        SubmitHasBoth(s, step, signal, first, second);
        assert first * second <= (first + WonBy(s, steps, SignalKey(signal)))
              * (second + WonBy(s, steps, OrderKey(signal)));
      }
    }
  }

  /** In every run each key is won by at most one call, and a claimed signal gets through to the
      reservation if and only if the call that won the signal key is the one that won the order key.
      Nothing else of the signal is ever submitted. */
  lemma ThroughIffBothWon(s: State, steps: seq<Step>, signal: string)
    requires Initial(s) && Allowed(s, steps)
    ensures AtMostOne(WonBy(s, steps, SignalKey(signal))) && AtMostOne(WonBy(s, steps, OrderKey(signal)))
    ensures GetsThrough(s, steps, signal) <==>
            exists id :: id in WonBy(s, steps, SignalKey(signal)) && id in WonBy(s, steps, OrderKey(signal))
    ensures signal in Submitted(s, steps) ==> GetsThrough(s, steps, signal)
  {
    ThroughIffBoth(s, steps, signal, {}, {});
    var a, b := WonBy(s, steps, SignalKey(signal)), WonBy(s, steps, OrderKey(signal));
    assert {} + a == a && {} + b == b;
    assert a * b != {} <==> exists id :: id in a && id in b;
  }

  // ---------------------------------------------------------------- what a caller can see to

  /** Call `id` takes no step, and the process does not crash: other calls, the venues, the stream
      and the sweeper do as they like. */
  predicate LeavesAlone(steps: seq<Step>, id: nat) {
    forall i :: 0 <= i < |steps| ==> !steps[i].Crash? && !StepsCall(steps[i], id)
  }

  predicate StepsCall(step: Step, id: nat) {
    (WorkerStep(step) || ClaimStep(step) || step.Submit? || step.Begin?) && step.id == id
  }

  /** Some call of the signal tries for the order key along the run. */
  ghost predicate Rivalled(s: State, steps: seq<Step>, signal: string)
    requires Allowed(s, steps)
    decreases |steps|
  {
    steps != []
    && ((steps[0].ClaimOrder? && s.calls[steps[0].id].signal == signal)
        || Rivalled(Apply(s, steps[0]), steps[1..], signal))
  }

  /** The order key is taken in one step exactly by a call of that signal that tries for it. */
  lemma KeyTaken(s: State, step: Step, signal: string)
    requires Enabled(s, step) && s.up && !step.Crash?
    ensures Apply(s, step).up
    ensures OrderKey(signal) in Apply(s, step).seen
       <==> OrderKey(signal) in s.seen || (step.ClaimOrder? && s.calls[step.id].signal == signal)
  {
    if OutsideStep(step) {
      OutsideKeepsCalls(s, step);
    } else if ClaimStep(step) {
      KeysDiffer(s.calls[step.id].signal, signal);
      KeysDiffer(signal, s.calls[step.id].signal);
    }
  }

  lemma CallStays(s: State, step: Step, id: nat)
    requires Enabled(s, step) && s.up && !step.Crash? && !StepsCall(step, id) && id in s.calls
    ensures id in Apply(s, step).calls && Apply(s, step).calls[id] == s.calls[id]
  {
    if OutsideStep(step) {
      OutsideKeepsCalls(s, step);
    }
  }

  lemma {:induction false} LeftAlone(s: State, steps: seq<Step>, id: nat, signal: string)
    requires Allowed(s, steps) && LeavesAlone(steps, id) && s.up && id in s.calls
    ensures var n := Exec(s, steps);
      && n.up && id in n.calls && n.calls[id] == s.calls[id]
      && (OrderKey(signal) in n.seen <==> OrderKey(signal) in s.seen || Rivalled(s, steps, signal))
    decreases |steps|
  {
    if steps != [] {
      KeyTaken(s, steps[0], signal);
      CallStays(s, steps[0], id);
      assert !steps[0].Crash? && !StepsCall(steps[0], id);
      LeftAlone(Apply(s, steps[0]), steps[1..], id, signal);
    }
  }

  /** Between the two claims of a call that has won its signal key, whatever else happens: with the
      second write synced the call gets through if and only if its order key was free and no other
      call of the signal tried for it in between. */
  lemma UndisturbedCallGetsThrough(s: State, between: seq<Step>, id: nat, w: Write)
    requires At(s, id, SignalTried(true)) && Allowed(s, between) && LeavesAlone(between, id) && w.Synced?
    ensures var n := Exec(s, between);
      && Enabled(n, ClaimOrder(id, w))
      && (At(Apply(n, ClaimOrder(id, w)), id, BothClaimed) <==>
            OrderKey(s.calls[id].signal) !in s.seen && !Rivalled(s, between, s.calls[id].signal))
  {
    LeftAlone(s, between, id, s.calls[id].signal);
  }

  // ---------------------------------------------------------------- at most, not exactly, once

  /** Two calls that carry the same new signal pass every check before the claims. */
  function LineUp(signal: string, notional: real, venue: string): seq<Step> {
    [Begin(1, signal, notional, venue)] + ([Begin(2, signal, notional, venue)]
    + ([Precheck(1, true)] + ([Precheck(2, true)] + [])))
  }

  /** Call 2 loses the signal to call 1 but wins the order key, so call 1 loses that. */
  function Race(w: Write): seq<Step> {
    [ClaimSignal(1, w)] + ([ClaimSignal(2, w)] + ([ClaimOrder(2, w)] + ([ClaimOrder(1, w)] + [])))
  }

  predicate Racing(s: State, signal: string, first: Phase, second: Phase) {
    && s.up && s.calls.Keys == {1, 2} && {1, 2} <= s.used
    && s.calls[1].signal == s.calls[2].signal == signal
    && s.calls[1].phase == first && s.calls[2].phase == second
  }

  lemma LinedUp(s: State, signal: string, notional: real, venue: string)
    requires Initial(s) && notional > 0.0 && venue in s.venues
    ensures var steps := LineUp(signal, notional, venue);
      && Allowed(s, steps) && Submitted(s, steps) == [] && Racing(Exec(s, steps), signal, Checked, Checked)
      && Exec(s, steps).seen == {}
  {
    var s1 := Apply(s, Begin(1, signal, notional, venue));
    var s2 := Apply(s1, Begin(2, signal, notional, venue));
    var s3 := Apply(s2, Precheck(1, true));
    RunCons(s3, Precheck(2, true), []);
    RunCons(s2, Precheck(1, true), [Precheck(2, true)] + []);
    RunCons(s1, Begin(2, signal, notional, venue), [Precheck(1, true)] + ([Precheck(2, true)] + []));
    RunCons(s, Begin(1, signal, notional, venue),
            [Begin(2, signal, notional, venue)] + ([Precheck(1, true)] + ([Precheck(2, true)] + [])));
  }

  lemma RaceForSignal(s: State, signal: string, w: Write)
    requires Racing(s, signal, Checked, Checked) && s.seen == {} && w.Synced?
    ensures var n := Apply(Apply(s, ClaimSignal(1, w)), ClaimSignal(2, w));
      && Racing(n, signal, SignalTried(true), SignalTried(false))
      && OrderKey(signal) !in n.seen && Kept(n, SignalKey(signal))
  {
    KeysDiffer(signal, signal);
    StepKeepsKey(s, ClaimSignal(1, w), SignalKey(signal));
    StepKeepsKey(Apply(s, ClaimSignal(1, w)), ClaimSignal(2, w), SignalKey(signal));
  }

  lemma RaceForOrder(s: State, signal: string, w: Write)
    requires Racing(s, signal, SignalTried(true), SignalTried(false)) && w.Synced?
    requires OrderKey(signal) !in s.seen && Kept(s, SignalKey(signal))
    ensures var n := Apply(Apply(s, ClaimOrder(2, w)), ClaimOrder(1, w));
      Racing(n, signal, Done(false), Done(false)) && Kept(n, SignalKey(signal)) && Kept(n, OrderKey(signal))
  {
    var n := Apply(s, ClaimOrder(2, w));
    StepKeepsKey(s, ClaimOrder(2, w), SignalKey(signal));
    StepKeepsKey(n, ClaimOrder(1, w), SignalKey(signal));
    StepKeepsKey(s, ClaimOrder(2, w), OrderKey(signal));
    StepKeepsKey(n, ClaimOrder(1, w), OrderKey(signal));
  }

  lemma Raced(s: State, signal: string, w: Write)
    requires Racing(s, signal, Checked, Checked) && s.seen == {} && w.Synced?
    ensures Allowed(s, Race(w)) && Submitted(s, Race(w)) == []
    ensures var n := Exec(s, Race(w));
      Racing(n, signal, Done(false), Done(false)) && Kept(n, SignalKey(signal)) && Kept(n, OrderKey(signal))
  {
    var s1 := Apply(s, ClaimSignal(1, w));
    var s2 := Apply(s1, ClaimSignal(2, w));
    RaceForSignal(s, signal, w);
    RaceForOrder(s2, signal, w);
    var s3 := Apply(s2, ClaimOrder(2, w));
    RunCons(s3, ClaimOrder(1, w), []);
    RunCons(s2, ClaimOrder(2, w), [ClaimOrder(1, w)] + []);
    RunCons(s1, ClaimSignal(2, w), [ClaimOrder(2, w)] + ([ClaimOrder(1, w)] + []));
    RunCons(s, ClaimSignal(1, w), [ClaimSignal(2, w)] + ([ClaimOrder(2, w)] + ([ClaimOrder(1, w)] + [])));
  }

  /** From an empty start two racing calls for one new signal can both be refused as duplicates. The
      signal is then used up although nothing was sent: whatever happens from there on, restarts
      included, nothing is ever submitted for it, so "at most once" cannot be strengthened to "once". */
  lemma RacersCanBothLose(s: State, signal: string, notional: real, venue: string, w: Write)
    requires Initial(s) && notional > 0.0 && venue in s.venues && w.Synced?
    ensures var steps := LineUp(signal, notional, venue) + Race(w);
      && Allowed(s, steps) && Submitted(s, steps) == []
      && Racing(Exec(s, steps), signal, Done(false), Done(false))
      && (forall more :: Allowed(Exec(s, steps), more) ==> signal !in Submitted(Exec(s, steps), more))
  {
    LinedUp(s, signal, notional, venue);
    var ready := Exec(s, LineUp(signal, notional, venue));
    Raced(ready, signal, w);
    RunConcat(s, LineUp(signal, notional, venue), Race(w));
    var n := Exec(ready, Race(w));
    assert History(n, signal, {1}, {2});
    forall more | Allowed(n, more) ensures signal !in Submitted(n, more) {
      ThroughIffBoth(n, more, signal, {1}, {2});
    }
  }
}
