/** From a kill report to cancelled orders (execution_motor/kill_watch.py, motor.py): the sweeper's
    loop and the motor run side by side, and a sweep asked for through the loop is a sweep of the
    venues. */
module KillChain {
  import W = WakeUp
  import M = MotorSystem
  import opened MotorSafety
  import opened KillSweep

  /** A sweep that has ended: the system when it began and when it ended, and whether the level was up
      all the while. */
  datatype Outcome = Outcome(began: M.State, ended: M.State, held: bool)
  {
    /** What a sweep is for: complete under an elevated level, it leaves open only orders that had
        slipped past the level check when it began and arrived after it had listed their venue. */
    ghost predicate Good() {
      held && ended.sweep.Complete() ==>
        forall id :: id in ended.open ==> Slipped(began, id) && id in ended.sweep.late
    }
  }

  /** The loop and the motor. The rest is history: `began` and `held` speak of the sweep under way,
      `lapsed` are the requests since which the level has been NORMAL at some moment, and `done` says
      how the sweep that served a request ended. */
  datatype State = State(
    wake: W.State, motor: M.State, began: M.State, held: bool, lapsed: set<nat>, done: map<nat, Outcome>)

  /** Steps of the loop and its requesters, steps of the motor, and the two they take together. */
  datatype Step = Loops(loop: W.Step) | Works(access: M.Step) | Start | End

  predicate Elevated(m: M.State) {
    m.level != M.LEVEL_NORMAL
  }

  predicate Enabled(s: State, step: Step) {
    match step
    case Loops(w) => W.Enabled(s.wake, w) && !w.StartSweep? && !w.EndSweep?
    case Works(m) => M.Enabled(s.motor, m) && !m.StartSweep? && !m.EndSweep? && !m.Crash? && !m.Restart?
    case Start => W.Enabled(s.wake, W.StartSweep(true)) && M.Enabled(s.motor, M.StartSweep)
    case End => W.Enabled(s.wake, W.EndSweep) && M.Enabled(s.motor, M.EndSweep)
  }

  /** sweep_if_elevated sweeps at LOGIC or above; a requested sweep runs whatever the level is now. */
  function AfterStart(s: State): State
    requires Enabled(s, Start)
  {
    var w := W.Apply(s.wake, W.StartSweep(s.motor.level >= M.LEVEL_LOGIC));
    if w.phase.Sweeping?
    then s.(wake := w, motor := M.Apply(s.motor, M.StartSweep), began := s.motor, held := Elevated(s.motor))
    else s.(wake := w)
  }

  function AfterEnd(s: State): State
    requires Enabled(s, End)
  {
    var m := M.Apply(s.motor, M.EndSweep);
    s.(wake := W.Apply(s.wake, W.EndSweep), motor := m,
       done := s.done + map id | id in s.wake.serving :: Outcome(s.began, m, s.held))
  }

  function Apply(s: State, step: Step): State
    requires Enabled(s, step)
  {
    match step
    case Loops(w) =>
      s.(wake := W.Apply(s.wake, w),
         lapsed := if w.Ask? && !Elevated(s.motor) then s.lapsed + {w.id} else s.lapsed)
    case Works(m) =>
      var n := M.Apply(s.motor, m);
      s.(motor := n, held := s.held && Elevated(n),
         lapsed := if Elevated(n) then s.lapsed else s.lapsed + s.wake.askedAt.Keys)
    case Start => AfterStart(s)
    case End => AfterEnd(s)
  }

  predicate Initial(s: State) {
    W.Initial(s.wake) && M.Initial(s.motor) && s.lapsed == {} && s.done == map[]
  }

  ghost predicate Allowed(s: State, steps: seq<Step>)
    decreases |steps|
  {
    steps == [] || (Enabled(s, steps[0]) && Allowed(Apply(s, steps[0]), steps[1..]))
  }

  ghost function Exec(s: State, steps: seq<Step>): State
    requires Allowed(s, steps)
    decreases |steps|
  {
    if steps == [] then s else Exec(Apply(s, steps[0]), steps[1..])
  }

  // ---------------------------------------------------------------- what every step keeps

  /** The loop sweeps exactly while the motor's sweep is under way, and nothing escapes that sweep. */
  ghost predicate InStep(s: State) {
    && s.motor.up && Routed(s.motor)
    && (s.wake.phase.Sweeping? <==> s.motor.sweep.active)
    && (s.motor.sweep.active && s.held ==> Elevated(s.motor) && Sweeping(s.began, s.motor))
  }

  /** A request that has not lapsed has had the level up ever since, and so has its sweep. */
  ghost predicate Unlapsed(s: State) {
    && s.lapsed <= s.wake.askedAt.Keys
    && (forall id :: id in s.wake.askedAt && id !in s.lapsed ==> Elevated(s.motor))
    && (s.wake.phase.Sweeping? ==> forall id :: id in s.wake.serving && id !in s.lapsed ==> s.held)
  }

  ghost predicate Results(s: State) {
    && s.done.Keys == s.wake.served
    && (forall id :: id in s.done ==> s.done[id].Good() && (id !in s.lapsed ==> s.done[id].held))
  }

  ghost predicate Kept(s: State) {
    W.Announced(s.wake) && W.Kept(s.wake) && InStep(s) && Unlapsed(s) && Results(s)
  }

  lemma LoopKeeps(s: State, w: W.Step)
    requires Kept(s) && Enabled(s, Loops(w))
    ensures Kept(Apply(s, Loops(w)))
  {
    W.StepKeeps(s.wake, w);
  }

  lemma WorkStaysUp(m: M.State, step: M.Step)
    requires M.Enabled(m, step) && m.up && !step.StartSweep? && !step.EndSweep? && !step.Crash? && !step.Restart?
    ensures M.Apply(m, step).up && M.Apply(m, step).sweep.active == m.sweep.active
  {
  }

  lemma WorkInStep(s: State, m: M.Step)
    requires InStep(s) && Enabled(s, Works(m))
    ensures InStep(Apply(s, Works(m)))
  {
    var n := Apply(s, Works(m));
    StepKeepsRouted(s.motor, m);
    WorkStaysUp(s.motor, m);
    if s.motor.sweep.active && n.held {
      StepKeepsSweeping(s.began, s.motor, m);
    }
  }

  lemma WorkKeeps(s: State, m: M.Step)
    requires Kept(s) && Enabled(s, Works(m))
    ensures Kept(Apply(s, Works(m)))
  {
    WorkInStep(s, m);
    assert s.lapsed + s.wake.askedAt.Keys == s.wake.askedAt.Keys;
  }

  lemma SweepBegins(m: M.State)
    requires Routed(m) && M.Enabled(m, M.StartSweep)
    ensures Sweeping(m, M.Apply(m, M.StartSweep))
  {
    var n := M.Apply(m, M.StartSweep);
    forall id | id in n.open ensures Accounted(n, id) { }
  }

  lemma StartInStep(s: State)
    requires InStep(s) && Enabled(s, Start)
    ensures InStep(AfterStart(s))
  {
    SweepBegins(s.motor);
    StepKeepsRouted(s.motor, M.StartSweep);
  }

  lemma LoopStarts(w: W.State, elevated: bool)
    requires W.Enabled(w, W.StartSweep(elevated))
    ensures var n := W.Apply(w, W.StartSweep(elevated));
      n.serving == w.serving && n.served == w.served && n.askedAt == w.askedAt
  {
  }

  lemma SweepStarts(m: M.State)
    requires M.Enabled(m, M.StartSweep)
    ensures M.Apply(m, M.StartSweep).level == m.level
  {
  }

  /** Starting moves nothing among the requests. */
  lemma StartServes(s: State)
    requires Enabled(s, Start)
    ensures var n := AfterStart(s);
      && n.wake.serving == s.wake.serving && n.wake.served == s.wake.served && n.wake.askedAt == s.wake.askedAt
      && n.lapsed == s.lapsed && n.done == s.done && n.motor.level == s.motor.level
      && (n.wake.phase.Sweeping? ==> n.held == Elevated(s.motor))
  {
    LoopStarts(s.wake, s.motor.level >= M.LEVEL_LOGIC);
    SweepStarts(s.motor);
  }

  lemma StartKeeps(s: State)
    requires Kept(s) && Enabled(s, Start)
    ensures Kept(AfterStart(s))
  {
    W.StepKeeps(s.wake, W.StartSweep(s.motor.level >= M.LEVEL_LOGIC));
    StartInStep(s);
    StartServes(s);
    assert forall id :: id in s.wake.serving ==> id in s.wake.askedAt;
  }

  /** A sweep that ends has done what it is for. */
  lemma EndIsGood(s: State)
    requires InStep(s) && Enabled(s, End)
    ensures Outcome(s.began, M.Apply(s.motor, M.EndSweep), s.held).Good()
  {
    if s.held && s.motor.sweep.Complete() {
      forall id | id in s.motor.open ensures Slipped(s.began, id) && id in s.motor.sweep.late {
        assert Accounted(s.motor, id);
      }
    }
  }

  lemma EndKeeps(s: State)
    requires Kept(s) && Enabled(s, End)
    ensures Kept(AfterEnd(s))
  {
    W.StepKeeps(s.wake, W.EndSweep);
    EndIsGood(s);
    assert AfterEnd(s).done.Keys == s.done.Keys + s.wake.serving;
  }

  lemma StepKeeps(s: State, step: Step)
    requires Kept(s) && Enabled(s, step)
    ensures Kept(Apply(s, step))
  {
    match step
    case Loops(w) => LoopKeeps(s, w);
    case Works(m) => WorkKeeps(s, m);
    case Start => StartKeeps(s);
    case End => EndKeeps(s);
  }

  lemma {:induction false} RunKeeps(s: State, steps: seq<Step>)
    requires Kept(s) && Allowed(s, steps)
    ensures Kept(Exec(s, steps))
    decreases |steps|
  {
    if steps != [] {
      StepKeeps(s, steps[0]);
      RunKeeps(Apply(s, steps[0]), steps[1..]);
    }
  }

  lemma InitialIsKept(s: State)
    requires Initial(s)
    ensures Kept(s)
  {
  }

  // ---------------------------------------------------------------- fewer and fewer slip through

  ghost predicate Fewer(a: M.State, b: M.State) {
    forall id :: Slipped(b, id) ==> Slipped(a, id)
  }

  /** At an elevated level no step of the motor lets another call slip past the check. */
  lemma SlippedShrinks(m: M.State, step: M.Step)
    requires M.Enabled(m, step) && m.up && Routed(m) && Elevated(m)
    requires !step.StartSweep? && !step.EndSweep? && !step.Crash? && !step.Restart?
    ensures Fewer(m, M.Apply(m, step))
  {
    var n := M.Apply(m, step);
    if WorkerStep(step) {
      WorkerShape(m, step);
      WorkerSlipsNoMore(m, step);
      MovedIsHarmless(m, n, step.id);
    } else if ClaimStep(step) {
      ClaimShape(m, step);
      ClaimSlipsNoMore(m, step);
      MovedIsHarmless(m, n, step.id);
    } else if step.Arrive? || step.ListVenue? || step.CancelOrder? {
      OutsideKeepsCalls(m, step);
      assert n.wire <= m.wire;
    } else {
      RestIsHarmless(m, step);
    }
  }

  /** Since the state `base`, in which the sweep for `id` had not begun, nothing new has slipped through:
      not by now, and not when that sweep began. */
  ghost predicate Since(base: M.State, s: State, id: nat) {
    && id in s.wake.askedAt
    && (id !in s.lapsed ==>
          && Fewer(base, s.motor)
          && (s.wake.phase.Sweeping? && id in s.wake.serving ==> Fewer(base, s.began))
          && (id in s.done ==> Fewer(base, s.done[id].began)))
  }

  lemma LoopKeepsSince(base: M.State, s: State, w: W.Step, id: nat)
    requires Kept(s) && Enabled(s, Loops(w)) && Since(base, s, id)
    ensures Since(base, Apply(s, Loops(w)), id)
  {
  }

  lemma WorkKeepsSince(base: M.State, s: State, m: M.Step, id: nat)
    requires Kept(s) && Enabled(s, Works(m)) && Since(base, s, id)
    ensures Since(base, Apply(s, Works(m)), id)
  {
    if id !in Apply(s, Works(m)).lapsed {
      SlippedShrinks(s.motor, m);
    }
  }

  lemma StartKeepsSince(base: M.State, s: State, id: nat)
    requires Kept(s) && Enabled(s, Start) && Since(base, s, id)
    ensures Since(base, AfterStart(s), id)
  {
    StartServes(s);
  }

  lemma EndKeepsSince(base: M.State, s: State, id: nat)
    requires Kept(s) && Enabled(s, End) && Since(base, s, id)
    ensures Since(base, AfterEnd(s), id)
  {
  }

  // ---------------------------------------------------------------- from the report to the venues

  /** Steps of the sweeper's loop, not counting the accesses inside a sweep. */
  function LoopSteps(steps: seq<Step>): nat {
    if steps == [] then 0
    else (if steps[0].Start? || steps[0].End? || (steps[0].Loops? && W.OfSweeper(steps[0].loop)) then 1 else 0)
         + LoopSteps(steps[1..])
  }

  lemma StepApproaches(s: State, step: Step, id: nat)
    requires Kept(s) && Enabled(s, step) && id in s.wake.askedAt && !s.wake.stopped
    ensures id in Apply(s, step).wake.askedAt
    ensures W.Distance(Apply(s, step).wake, id) + (if id in s.wake.served then 0 else LoopSteps([step]))
         <= W.Distance(s.wake, id)
  {
    match step
    case Loops(w) => W.StepApproaches(s.wake, w, id);
    case Works(_) =>
    case Start => W.StepApproaches(s.wake, W.StartSweep(s.motor.level >= M.LEVEL_LOGIC), id);
    case End => W.StepApproaches(s.wake, W.EndSweep, id);
  }

  lemma StopSticks(s: State, step: Step)
    requires Enabled(s, step) && s.wake.stopped
    ensures Apply(s, step).wake.stopped
  {
  }

  lemma {:induction false} StoppedForGood(s: State, steps: seq<Step>)
    requires Allowed(s, steps) && s.wake.stopped
    ensures Exec(s, steps).wake.stopped
    decreases |steps|
  {
    if steps != [] {
      StopSticks(s, steps[0]);
      StoppedForGood(Apply(s, steps[0]), steps[1..]);
    }
  }

  lemma StepKeepsSince(base: M.State, s: State, step: Step, id: nat)
    requires Kept(s) && Enabled(s, step) && Since(base, s, id)
    ensures Since(base, Apply(s, step), id)
  {
    match step
    case Loops(w) => LoopKeepsSince(base, s, w, id);
    case Works(m) => WorkKeepsSince(base, s, m, id);
    case Start => StartKeepsSince(base, s, id);
    case End => EndKeepsSince(base, s, id);
  }

  lemma {:induction false} ServedAtDistance(base: M.State, s: State, steps: seq<Step>, id: nat)
    requires Kept(s) && Since(base, s, id) && Allowed(s, steps)
    requires !Exec(s, steps).wake.stopped && LoopSteps(steps) >= W.Distance(s.wake, id)
    ensures Kept(Exec(s, steps)) && Since(base, Exec(s, steps), id) && id in Exec(s, steps).done
    decreases |steps|
  {
    if steps != [] {
      if s.wake.stopped {
        StoppedForGood(s, steps);
      }
      StepKeeps(s, steps[0]);
      StepKeepsSince(base, s, steps[0], id);
      StepApproaches(s, steps[0], id);
      assert LoopSteps([steps[0]]) + LoopSteps(steps[1..]) == LoopSteps(steps);
      ServedAtDistance(base, Apply(s, steps[0]), steps[1..], id);
    }
  }

  /** The level is above NORMAL in every state of the run. */
  ghost predicate StaysUp(s: State, steps: seq<Step>)
    requires Allowed(s, steps)
    decreases |steps|
  {
    Elevated(s.motor) && (steps == [] || StaysUp(Apply(s, steps[0]), steps[1..]))
  }

  lemma UpStepKeeps(s: State, step: Step, id: nat)
    requires Enabled(s, step) && Elevated(s.motor) && Elevated(Apply(s, step).motor)
    requires id in s.wake.askedAt && id !in s.lapsed
    ensures id in Apply(s, step).wake.askedAt && id !in Apply(s, step).lapsed
  {
    if step.Start? {
      StartServes(s);
    }
  }

  /** A request lapses only when the level comes down. */
  lemma {:induction false} UpMeansUnlapsed(s: State, steps: seq<Step>, id: nat)
    requires Allowed(s, steps) && StaysUp(s, steps) && id in s.wake.askedAt && id !in s.lapsed
    ensures id !in Exec(s, steps).lapsed
    decreases |steps|
  {
    if steps != [] {
      UpStepKeeps(s, steps[0], id);
      UpMeansUnlapsed(Apply(s, steps[0]), steps[1..], id);
    }
  }

  /** From a kill report to the venues. A sweep is asked for and the level stays up. Unless the watcher
      is stopped, after nine more steps of the sweeper's loop a sweep that began after the request has
      ended, and if it is complete the only orders it leaves open are of calls that had already slipped
      past the level check when it was asked for, and arrived after it had listed their venue. */
  lemma ReportReachesTheVenues(s: State, before: seq<Step>, after: seq<Step>, id: nat)
    requires Initial(s) && Allowed(s, before) && Allowed(Exec(s, before), after)
    requires id in Exec(s, before).wake.askedAt && id !in Exec(s, before).wake.startedAt
    requires LoopSteps(after) >= 9 && !Exec(Exec(s, before), after).wake.stopped
    ensures var asked := Exec(s, before); var n := Exec(asked, after);
      && id in n.done
      && (id !in n.lapsed && n.done[id].ended.sweep.Complete() ==>
            forall order :: order in n.done[id].ended.open ==>
              Slipped(asked.motor, order) && order in n.done[id].ended.sweep.late)
  {
    InitialIsKept(s);
    RunKeeps(s, before);
    ServedAtDistance(Exec(s, before).motor, Exec(s, before), after, id);
  }

  /** So a second request, made when every call that had slipped has come to an end, clears everything:
      its sweep, when complete, leaves nothing open. */
  lemma SecondSweepClearsEverything(s: State, before: seq<Step>, after: seq<Step>, id: nat)
    requires Initial(s) && Allowed(s, before) && Allowed(Exec(s, before), after)
    requires id in Exec(s, before).wake.askedAt && id !in Exec(s, before).wake.startedAt
    requires LoopSteps(after) >= 9 && !Exec(Exec(s, before), after).wake.stopped
    requires forall call :: !Slipped(Exec(s, before).motor, call)
    ensures var n := Exec(Exec(s, before), after);
      id in n.done && (id !in n.lapsed && n.done[id].ended.sweep.Complete() ==> n.done[id].ended.open == {})
  {
    ReportReachesTheVenues(s, before, after, id);
    var asked, n := Exec(s, before), Exec(Exec(s, before), after);
    if id !in n.lapsed && n.done[id].ended.sweep.Complete() {
      forall order ensures order !in n.done[id].ended.open {
        assert !Slipped(asked.motor, order);
      }
    }
  }

  // ---------------------------------------------------------------- one report, from its level to the sweep

  /** The accesses by which one in-order report of the kill level is handled: the level is mirrored, and
      unless it is 0 or 1 a sweep is asked for. */
  function Handling(level: int, id: nat): seq<Step> {
    [Works(M.ApplyLevel(level))]
    + if level == 0 || level == 1 then [] else [Loops(W.Ask(id)), Loops(W.SetWake(id))]
  }

  lemma StepShrinks(s: State, step: Step)
    requires Kept(s) && Enabled(s, step) && Elevated(s.motor)
    ensures Fewer(s.motor, Apply(s, step).motor)
  {
    if step.Works? {
      SlippedShrinks(s.motor, step.access);
    }
  }

  lemma {:induction false} UpShrinks(s: State, steps: seq<Step>)
    requires Kept(s) && Allowed(s, steps) && StaysUp(s, steps)
    ensures Fewer(s.motor, Exec(s, steps).motor) && Kept(Exec(s, steps)) && Elevated(Exec(s, steps).motor)
    decreases |steps|
  {
    if steps != [] {
      StepKeeps(s, steps[0]);
      StepShrinks(s, steps[0]);
      UpShrinks(Apply(s, steps[0]), steps[1..]);
    }
  }

  /** A report of any level but 0 and 1, those out of range included, ends in the sweep. It is mirrored, and
      later, whatever else happens in between, it asks. While the level stays up from then on and the watcher is
      not stopped, nine steps of the loop after the request a sweep has ended that leaves open, if complete,
      only late orders of calls that had slipped past the level check when the report was mirrored. */
  lemma ReportIsSwept(s: State, before: seq<Step>, level: int, between: seq<Step>, id: nat, after: seq<Step>)
    requires Initial(s) && Allowed(s, before) && level != 0 && level != 1
    requires var mirror, ask := Handling(level, id)[0], Handling(level, id)[1];
      && Enabled(Exec(s, before), mirror)
      && var mirrored := Apply(Exec(s, before), mirror);
      && Allowed(mirrored, between) && StaysUp(mirrored, between) && Enabled(Exec(mirrored, between), ask)
      && var asked := Apply(Exec(mirrored, between), ask);
      && Allowed(asked, after) && StaysUp(asked, after) && LoopSteps(after) >= 9 && !Exec(asked, after).wake.stopped
    ensures var mirrored := Apply(Exec(s, before), Handling(level, id)[0]);
      var n := Exec(Apply(Exec(mirrored, between), Handling(level, id)[1]), after);
      && id in n.done
      && (n.done[id].ended.sweep.Complete() ==>
            forall order :: order in n.done[id].ended.open ==>
              Slipped(mirrored.motor, order) && order in n.done[id].ended.sweep.late)
  {
    var mirrored := Apply(Exec(s, before), Handling(level, id)[0]);
    InitialIsKept(s);
    RunKeeps(s, before);
    StepKeeps(Exec(s, before), Handling(level, id)[0]);
    UpShrinks(mirrored, between);
    AskedNow(Exec(mirrored, between), id);
    var asked := Apply(Exec(mirrored, between), Handling(level, id)[1]);
    UpMeansUnlapsed(asked, after, id);
    ServedAtDistance(mirrored.motor, asked, after, id);
  }

  /** A request made while the level is up has not lapsed, and its sweep has not begun. */
  lemma AskedNow(s: State, id: nat)
    requires Kept(s) && Elevated(s.motor) && Enabled(s, Loops(W.Ask(id)))
    ensures var n := Apply(s, Loops(W.Ask(id)));
      Kept(n) && n.motor == s.motor && id in n.wake.askedAt && id !in n.lapsed && id !in n.done && id !in n.wake.serving
      && W.Distance(n.wake, id) <= 9
  {
    LoopKeeps(s, W.Ask(id));
  }

  /** With nothing asked for, the loop sweeps exactly when the level is 2 or above. */
  lemma ResweepsFromTwo(s: State)
    requires Enabled(s, Start) && s.wake.serving == {}
    ensures AfterStart(s).wake.phase.Sweeping? <==> s.motor.level >= 2
  {
  }
}
