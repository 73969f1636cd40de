/** The kill sweep against racing submits (execution_motor/kill_watch.py, motor.py): what can still
    be open when a sweep that ran under an elevated level reports itself complete. */
module KillSweep {
  import opened Prelude
  import opened Limits
  import opened MotorSystem
  import opened MotorSafety

  /** Calls that have read a NORMAL level in their last halt check but are not at the broker yet. */
  predicate Slipped(s: State, id: nat) {
    || id in s.wire
    || (id in s.calls && (s.calls[id].phase.LevelRead? || s.calls[id].phase.Cleared?))
  }

  /** Every request goes to a venue the sweep visits, and only once. */
  ghost predicate Routed(s: State) {
    && (forall id :: id in s.calls ==> s.calls[id].venue in s.venues)
    && (forall id :: id in s.sent ==> s.sent[id].venue in s.venues)
    && (forall id :: id in s.calls && id in s.sent ==> !BeforeSubmit(s.calls[id].phase))
    && s.wire + s.open <= s.sent.Keys
  }

  /** An open order that the sweep still has to see, has failed on, or could not have seen. */
  predicate Accounted(s: State, id: nat)
    requires id in s.sent
  {
    || s.sent[id].venue in s.sweep.todo
    || s.sent[id].venue in s.sweep.unreadable
    || id in s.sweep.toCancel
    || id in s.sweep.failed
    || id in s.sweep.late
  }

  /** While the sweep runs nothing open escapes it, and what came too late had slipped through the
      halt check in the state `start`. */
  ghost predicate Sweeping(start: State, s: State) {
    && s.up && s.sweep.active && Routed(s)
    && (forall id :: id in s.open ==> Accounted(s, id))
    && (forall id :: Slipped(s, id) || id in s.sweep.late ==> Slipped(start, id))
  }

  // ---------------------------------------------------------------- every step keeps the routing

  lemma OutsideKeepsRouted(s: State, step: Step)
    requires Routed(s) && Enabled(s, step) && OutsideStep(step)
    ensures Routed(Apply(s, step))
  {
    OutsideKeepsCalls(s, step);
    assert Apply(s, step).wire + Apply(s, step).open <= s.wire + s.open;
  }

  lemma MovedKeepsRouted(s: State, n: State, id: nat)
    requires Routed(s) && Moved(s, n, id)
    requires BeforeSubmit(n.calls[id].phase) ==> BeforeSubmit(s.calls[id].phase)
    ensures Routed(n)
  {
  }

  lemma StepKeepsRouted(s: State, step: Step)
    requires Routed(s) && Enabled(s, step)
    ensures Routed(Apply(s, step))
  {
    if OutsideStep(step) {
      OutsideKeepsRouted(s, step);
    } else if WorkerStep(step) {
      WorkerShape(s, step);
      MovedKeepsRouted(s, Apply(s, step), step.id);
    } else if ClaimStep(step) {
      ClaimShape(s, step);
      MovedKeepsRouted(s, Apply(s, step), step.id);
    }
  }

  // ---------------------------------------------------------------- one step of the sweep

  lemma ArriveKeepsSweeping(start: State, s: State, id: nat)
    requires Sweeping(start, s) && Enabled(s, Arrive(id))
    requires Routed(Apply(s, Arrive(id)))
    ensures Sweeping(start, Apply(s, Arrive(id)))
  {
    var n := Apply(s, Arrive(id));
    assert Slipped(s, id);
    forall i | i in n.open ensures Accounted(n, i) {
      if i != id { assert Accounted(s, i); }
    }
    forall i | Slipped(n, i) || i in n.sweep.late ensures Slipped(start, i) {
      assert i == id || Slipped(s, i) || i in s.sweep.late;
    }
  }

  lemma ListKeepsSweeping(start: State, s: State, venue: string, readable: bool)
    requires Sweeping(start, s) && Enabled(s, ListVenue(venue, readable))
    requires Routed(Apply(s, ListVenue(venue, readable)))
    ensures Sweeping(start, Apply(s, ListVenue(venue, readable)))
  {
    var n := Apply(s, ListVenue(venue, readable));
    forall i | i in n.open ensures Accounted(n, i) {
      assert Accounted(s, i);
    }
    forall i | Slipped(n, i) || i in n.sweep.late ensures Slipped(start, i) {
      assert Slipped(s, i) || i in s.sweep.late;
    }
  }

  lemma CancelKeepsSweeping(start: State, s: State, id: nat, accepted: bool)
    requires Sweeping(start, s) && Enabled(s, CancelOrder(id, accepted))
    requires Routed(Apply(s, CancelOrder(id, accepted)))
    ensures Sweeping(start, Apply(s, CancelOrder(id, accepted)))
  {
    var n := Apply(s, CancelOrder(id, accepted));
    forall i | i in n.open ensures Accounted(n, i) {
      assert Accounted(s, i);
    }
    forall i | Slipped(n, i) || i in n.sweep.late ensures Slipped(start, i) {
      assert Slipped(s, i) || i in s.sweep.late;
    }
  }

  /** A step outside the sweep that opens no order and lets no call slip through. */
  ghost predicate Harmless(s: State, n: State) {
    && n.up && n.sweep == s.sweep && n.open <= s.open
    && (forall id :: id in s.sent ==> id in n.sent && n.sent[id].venue == s.sent[id].venue)
    && (forall id :: Slipped(n, id) ==> Slipped(s, id))
  }

  lemma HarmlessKeepsSweeping(start: State, s: State, n: State)
    requires Sweeping(start, s) && Harmless(s, n) && Routed(n)
    ensures Sweeping(start, n)
  {
    forall i | i in n.open ensures Accounted(n, i) {
      assert Accounted(s, i);
    }
    forall i | Slipped(n, i) || i in n.sweep.late ensures Slipped(start, i) {
      assert Slipped(s, i) || i in s.sweep.late;
    }
  }

  /** At an elevated level no worker gets past the halt check any more. */
  lemma WorkerSlipsNoMore(s: State, step: Step)
    requires Enabled(s, step) && WorkerStep(step) && s.level != LEVEL_NORMAL
    ensures step.id in s.calls && step.id in Apply(s, step).calls
    ensures var p := Apply(s, step).calls[step.id].phase; p.LevelRead? || p.Cleared? ==> Slipped(s, step.id)
  {
  }

  lemma ClaimSlipsNoMore(s: State, step: Step)
    requires Enabled(s, step) && ClaimStep(step)
    ensures step.id in s.calls && step.id in Apply(s, step).calls
    ensures var p := Apply(s, step).calls[step.id].phase; !p.LevelRead? && !p.Cleared?
  {
  }

  lemma MovedIsHarmless(s: State, n: State, id: nat)
    requires Moved(s, n, id)
    requires var p := n.calls[id].phase; p.LevelRead? || p.Cleared? ==> Slipped(s, id)
    ensures Harmless(s, n)
  {
  }

  lemma RestIsHarmless(s: State, step: Step)
    requires Enabled(s, step) && Routed(s) && s.up
    requires step.Begin? || step.Submit? || step.Drop? || step.Close? || step.ApplyLevel? || step.StreamDown?
          || step.Latch? || step.Unlatch?
    ensures Harmless(s, Apply(s, step))
  {
  }

  lemma StepIsHarmless(s: State, step: Step)
    requires Enabled(s, step) && Routed(s) && s.up && s.level != LEVEL_NORMAL
    requires s.sweep.active && Apply(s, step).sweep.active
    requires !step.Arrive? && !step.ListVenue? && !step.CancelOrder?
    ensures Harmless(s, Apply(s, step))
  {
    if WorkerStep(step) {
      WorkerShape(s, step);
      WorkerSlipsNoMore(s, step);
      MovedIsHarmless(s, Apply(s, step), step.id);
    } else if ClaimStep(step) {
      ClaimShape(s, step);
      ClaimSlipsNoMore(s, step);
      MovedIsHarmless(s, Apply(s, step), step.id);
    } else {
      RestIsHarmless(s, step);
    }
  }

  lemma StepKeepsSweeping(start: State, s: State, step: Step)
    requires Sweeping(start, s) && Enabled(s, step) && s.level != LEVEL_NORMAL
    requires Apply(s, step).sweep.active
    ensures Sweeping(start, Apply(s, step))
  {
    StepKeepsRouted(s, step);
    if step.Arrive? {
      ArriveKeepsSweeping(start, s, step.id);
    } else if step.ListVenue? {
      ListKeepsSweeping(start, s, step.venue, step.readable);
    } else if step.CancelOrder? {
      CancelKeepsSweeping(start, s, step.id, step.accepted);
    } else {
      StepIsHarmless(s, step);
      HarmlessKeepsSweeping(start, s, Apply(s, step));
    }
  }

  /** A sweep comes to its end: listing takes a venue off the list, readable or not, cancelling takes an order off,
      accepted or not, and what went wrong is kept in the result. */
  lemma SweepProgresses(s: State, step: Step)
    requires Enabled(s, step) && (step.ListVenue? || step.CancelOrder?)
    ensures var r, n := s.sweep, Apply(s, step).sweep;
      && (step.ListVenue? ==>
            && n.todo == r.todo - {step.venue} && n.failed == r.failed
            && n.unreadable == (if step.readable then r.unreadable else r.unreadable + {step.venue})
            && n.toCancel == if step.readable then OpenAt(s, step.venue) else r.toCancel)
      && (step.CancelOrder? ==>
            && n.toCancel == r.toCancel - {step.id} && n.todo == r.todo && n.unreadable == r.unreadable
            && n.failed == (if step.accepted then r.failed else r.failed + {step.id})
            && Apply(s, step).open == if step.accepted then s.open - {step.id} else s.open)
  {
  }

  /** What a venue does to a request: it arrives and is open, late exactly when the sweep under way has already
      been there, or it is lost; an open order may close. */
  lemma VenueSteps(s: State, id: nat)
    ensures Enabled(s, Arrive(id)) ==>
      var n := Apply(s, Arrive(id));
      && n.wire == s.wire - {id} && n.open == s.open + {id}
      && (id in n.sweep.late <==> id in s.sweep.late || (s.sweep.active && s.sent[id].venue !in s.sweep.todo))
    ensures Enabled(s, Drop(id)) ==> id !in Apply(s, Drop(id)).wire && Apply(s, Drop(id)).open == s.open
    ensures Enabled(s, Close(id)) ==> id !in Apply(s, Close(id)).open
  {
  }

  /** Only a report of level 0 lets a call past the level check. */
  lemma OnlyZeroOpens(s: State, reported: int, id: nat)
    requires s.up && At(s, id, Approved)
    ensures var n := Apply(s, ApplyLevel(reported));
      At(Apply(n, ReadLevel(id)), id, LevelRead) <==> reported == 0
  {
  }

  // ---------------------------------------------------------------- a whole sweep

  /** The sweep stays under way and the level above NORMAL in every state of the run. */
  ghost predicate Throughout(s: State, steps: seq<Step>)
    requires Allowed(s, steps)
    decreases |steps|
  {
    && s.sweep.active && s.level != LEVEL_NORMAL
    && (steps == [] || Throughout(Apply(s, steps[0]), steps[1..]))
  }

  lemma {:induction false} RunKeepsSweeping(start: State, s: State, steps: seq<Step>)
    requires Sweeping(start, s) && Allowed(s, steps) && Throughout(s, steps)
    ensures Sweeping(start, Exec(s, steps))
    decreases |steps|
  {
    if steps != [] {
      StepKeepsSweeping(start, s, steps[0]);
      RunKeepsSweeping(start, Apply(s, steps[0]), steps[1..]);
    }
  }

  /** The state when the sweep that starts in `s` and runs through `steps` has ended. */
  ghost predicate Swept(s: State, steps: seq<Step>, end: State) {
    && Enabled(s, StartSweep)
    && Allowed(Apply(s, StartSweep), steps)
    && Throughout(Apply(s, StartSweep), steps)
    && Enabled(Exec(Apply(s, StartSweep), steps), EndSweep)
    && end == Apply(Exec(Apply(s, StartSweep), steps), EndSweep)
  }

  /** If the level stays above NORMAL from the start of a sweep to its end and the sweep is
      complete, the only orders still open are of calls that had passed the final level check when
      the sweep started and reached their venue after it was listed. */
  lemma SweepLeavesOnlyLateOrders(s: State, steps: seq<Step>, end: State)
    requires Routed(s) && Swept(s, steps, end) && end.sweep.Complete()
    ensures forall id :: id in end.open ==> Slipped(s, id) && id in end.sweep.late
  {
    var start := Apply(s, StartSweep);
    forall id | id in start.open ensures Accounted(start, id) { }
    RunKeepsSweeping(start, start, steps);
    var last := Exec(start, steps);
    forall id | id in end.open ensures Slipped(s, id) && id in end.sweep.late {
      assert Accounted(last, id);
      assert Slipped(start, id);
    }
  }

  // ---------------------------------------------------------------- the premise holds in every run

  lemma {:induction false} RunKeepsRouted(s: State, steps: seq<Step>)
    requires Routed(s) && Allowed(s, steps)
    ensures Routed(Exec(s, steps))
    decreases |steps|
  {
    if steps != [] {
      StepKeepsRouted(s, steps[0]);
      RunKeepsRouted(Apply(s, steps[0]), steps[1..]);
    }
  }

  /** The sweep guarantee in every run of the system, from an empty start. */
  lemma KillSweepWorks(s: State, before: seq<Step>, during: seq<Step>, end: State)
    requires Initial(s) && Allowed(s, before)
    requires Swept(Exec(s, before), during, end) && end.sweep.Complete()
    ensures forall id :: id in end.open ==> Slipped(Exec(s, before), id) && id in end.sweep.late
  {
    RunKeepsRouted(s, before);
    SweepLeavesOnlyLateOrders(Exec(s, before), during, end);
  }

  /** A sweep that starts with no submit under way leaves nothing open. */
  lemma QuietSweepClearsEverything(s: State, before: seq<Step>, during: seq<Step>, end: State)
    requires Initial(s) && Allowed(s, before)
    requires Swept(Exec(s, before), during, end) && end.sweep.Complete()
    requires forall id :: !Slipped(Exec(s, before), id)
    ensures end.open == {}
  {
    KillSweepWorks(s, before, during, end);
    forall id ensures id !in end.open {
      assert !Slipped(Exec(s, before), id);
    }
  }

  // ---------------------------------------------------------------- a sweep that finds everything

  /** The sweep made progress and touched nothing but open orders. */
  predicate SweptOnly(s: State, n: State) {
    && n == s.(open := n.open, sweep := s.sweep.(todo := n.sweep.todo, toCancel := n.sweep.toCancel))
  }

  /** A run during a sweep, and where it ends. */
  ghost predicate Leads(s: State, steps: seq<Step>, n: State) {
    Allowed(s, steps) && Throughout(s, steps) && Exec(s, steps) == n
  }

  lemma LeadsNowhere(s: State)
    requires s.sweep.active && s.level != LEVEL_NORMAL
    ensures Leads(s, [], s)
  {
  }

  lemma LeadsCons(s: State, step: Step, rest: seq<Step>, n: State)
    requires Enabled(s, step) && s.sweep.active && s.level != LEVEL_NORMAL && Leads(Apply(s, step), rest, n)
    ensures Leads(s, [step] + rest, n)
  {
    RunCons(s, step, rest);
    ThroughoutCons(s, step, rest);
  }

  lemma {:induction false} LeadsConcat(s: State, steps: seq<Step>, m: State, more: seq<Step>, n: State)
    requires Leads(s, steps, m) && Leads(m, more, n)
    ensures Leads(s, steps + more, n)
    decreases |steps|
  {
    if steps == [] {
      assert steps + more == more;
    } else {
      LeadsConcat(Apply(s, steps[0]), steps[1..], m, more, n);
      LeadsCons(s, steps[0], steps[1..] + more, n);
      assert [steps[0]] + (steps[1..] + more) == steps + more;
    }
  }

  /** Every cancel of the venue at hand is accepted. */
  lemma {:induction false} CancelAll(s: State) returns (steps: seq<Step>, n: State)
    requires s.up && s.sweep.active && s.level != LEVEL_NORMAL
    ensures Leads(s, steps, n) && SweptOnly(s, n) && n.sweep.toCancel == {} && n.sweep.todo == s.sweep.todo
    decreases |s.sweep.toCancel|
  {
    if s.sweep.toCancel == {} {
      LeadsNowhere(s);
      return [], s;
    }
    var id :| id in s.sweep.toCancel;
    var next := Apply(s, CancelOrder(id, true));
    var rest;
    rest, n := CancelAll(next);
    LeadsCons(s, CancelOrder(id, true), rest, n);
    return [CancelOrder(id, true)] + rest, n;
  }

  /** Every venue still to do is readable and accepts every cancel. */
  lemma {:induction false} ListAll(s: State) returns (steps: seq<Step>, n: State)
    requires s.up && s.sweep.active && s.level != LEVEL_NORMAL && s.sweep.toCancel == {}
    ensures Leads(s, steps, n) && SweptOnly(s, n) && n.sweep.toCancel == {} && n.sweep.todo == {}
    decreases |s.sweep.todo|
  {
    if s.sweep.todo == {} {
      LeadsNowhere(s);
      return [], s;
    }
    var venue :| venue in s.sweep.todo;
    var listed := Apply(s, ListVenue(venue, true));
    var cancels, clear := CancelAll(listed);
    var rest;
    rest, n := ListAll(clear);
    LeadsConcat(listed, cancels, clear, rest, n);
    LeadsCons(s, ListVenue(venue, true), cancels + rest, n);
    return [ListVenue(venue, true)] + (cancels + rest), n;
  }

  // ---------------------------------------------------------------- and the order that slips past it

  /** The sweep has visited every venue, and nothing failed. */
  predicate AllVisited(s: State) {
    s.up && s.sweep.active && s.level != LEVEL_NORMAL
    && s.sweep.todo == {} && s.sweep.toCancel == {} && s.sweep.Complete()
  }

  lemma ArrivesLate(s: State, id: nat) returns (steps: seq<Step>, n: State)
    requires AllVisited(s) && id in s.wire && id in s.sent
    ensures Leads(s, steps, n) && AllVisited(n) && id in n.open
  {
    n := Apply(s, Arrive(id));
    LeadsNowhere(n);
    LeadsCons(s, Arrive(id), [], n);
    return [Arrive(id)] + [], n;
  }

  lemma SubmitsLate(s: State, id: nat) returns (steps: seq<Step>, n: State)
    requires AllVisited(s) && At(s, id, Cleared)
    ensures Leads(s, steps, n) && AllVisited(n) && id in n.open
  {
    var rest;
    rest, n := ArrivesLate(Apply(s, Submit(id)), id);
    LeadsCons(s, Submit(id), rest, n);
    return [Submit(id)] + rest, n;
  }

  /** Whatever the latch says, an operator may clear it in time. */
  lemma ClearsLate(s: State, id: nat) returns (steps: seq<Step>, n: State)
    requires AllVisited(s) && At(s, id, LevelRead)
    ensures Leads(s, steps, n) && AllVisited(n) && id in n.open
  {
    var unlatched := Apply(s, Unlatch);
    var rest;
    rest, n := SubmitsLate(Apply(unlatched, ReadLatch(id)), id);
    LeadsCons(unlatched, ReadLatch(id), rest, n);
    LeadsCons(s, Unlatch, [ReadLatch(id)] + rest, n);
    return [Unlatch] + ([ReadLatch(id)] + rest), n;
  }

  lemma ReachesLate(s: State, id: nat) returns (steps: seq<Step>, n: State)
    requires AllVisited(s) && Slipped(s, id) && s.wire <= s.sent.Keys
    ensures Leads(s, steps, n) && AllVisited(n) && id in n.open
  {
    if id in s.wire {
      steps, n := ArrivesLate(s, id);
    } else if At(s, id, Cleared) {
      steps, n := SubmitsLate(s, id);
    } else {
      steps, n := ClearsLate(s, id);
    }
  }

  /** Any slipped call can leave an open order behind a complete sweep: the sweep visits every venue
      and cancels all it finds, and the order arrives before it ends. */
  lemma SlippedCanSurvive(s: State, id: nat) returns (steps: seq<Step>, end: State)
    requires Routed(s) && Enabled(s, StartSweep) && s.level != LEVEL_NORMAL && Slipped(s, id)
    ensures Swept(s, steps, end) && end.sweep.Complete() && id in end.open
  {
    var start := Apply(s, StartSweep);
    var visits, visited := ListAll(start);
    var slip, last := ReachesLate(visited, id);
    LeadsConcat(start, visits, visited, slip, last);
    return visits + slip, Apply(last, EndSweep);
  }

  /** Every complete sweep from here leaves nothing open. */
  ghost predicate AlwaysClears(s: State) {
    forall steps, end :: Swept(s, steps, end) && end.sweep.Complete() ==> end.open == {}
  }

  /** In any reachable state where a sweep can start and the level is up, one complete sweep is sure to
      clear everything if and only if no call has slipped past the level check. */
  lemma OneSweepIsEnoughIff(s: State, before: seq<Step>)
    requires Initial(s) && Allowed(s, before)
    requires Enabled(Exec(s, before), StartSweep) && Exec(s, before).level != LEVEL_NORMAL
    ensures AlwaysClears(Exec(s, before)) <==> forall id :: !Slipped(Exec(s, before), id)
  {
    var m := Exec(s, before);
    RunKeepsRouted(s, before);
    if id :| Slipped(m, id) {
      var steps, end := SlippedCanSurvive(m, id);
    } else {
      forall steps, end | Swept(m, steps, end) && end.sweep.Complete() ensures end.open == {} {
        QuietSweepClearsEverything(s, before, steps, end);
      }
    }
  }

  lemma ThroughoutCons(s: State, step: Step, rest: seq<Step>)
    requires Enabled(s, step) && Allowed(Apply(s, step), rest) && Throughout(Apply(s, step), rest)
    requires s.sweep.active && s.level != LEVEL_NORMAL
    ensures Allowed(s, [step] + rest) && Throughout(s, [step] + rest)
  {
    RunCons(s, step, rest);
    assert ([step] + rest)[1..] == rest;
  }

  // ---------------------------------------------------------------- one run from an empty start

  /** The first steps of the process: the level is let down and a call passes the prechecks. */
  function FirstCall(signal: string, notional: real, venue: string): seq<Step> {
    [Unlatch] + ([ApplyLevel(LEVEL_NORMAL)] + ([Begin(1, signal, notional, venue)] + ([Precheck(1, true)] + [])))
  }

  /** The call wins both its claims. */
  function BothClaims(w: Write): seq<Step> {
    [ClaimSignal(1, w)] + ([ClaimOrder(1, w)] + [])
  }

  /** The call passes the last halt check, and then the level rises. */
  function PassTheCheck(): seq<Step> {
    [Reserve(1)] + ([ReleaseCheck(1, true)] + ([ReadLevel(1)] + ([ReadLatch(1)] + ([ApplyLevel(LEVEL_HARD)] + []))))
  }

  /** Nothing stands in the way of call 1, which has come as far as `p`. */
  predicate OnItsWay(s: State, p: Phase, notional: real) {
    && At(s, 1, p) && s.calls[1].notional == notional && s.level == LEVEL_NORMAL && !s.latched && !s.sweep.active
    && CanReserve(s.reserved, s.cap, notional)
  }

  lemma FirstCallStarts(s: State, signal: string, notional: real, venue: string)
    requires Initial(s) && 0.0 < notional <= s.cap && venue in s.venues
    ensures Allowed(s, FirstCall(signal, notional, venue))
    ensures var n := Exec(s, FirstCall(signal, notional, venue)); OnItsWay(n, Checked, notional) && n.seen == {}
  {
    var s1 := Apply(s, Unlatch);
    var s2 := Apply(s1, ApplyLevel(LEVEL_NORMAL));
    var s3 := Apply(s2, Begin(1, signal, notional, venue));
    RunCons(s3, Precheck(1, true), []);
    RunCons(s2, Begin(1, signal, notional, venue), [Precheck(1, true)] + []);
    RunCons(s1, ApplyLevel(LEVEL_NORMAL), [Begin(1, signal, notional, venue)] + ([Precheck(1, true)] + []));
    RunCons(s, Unlatch,
            [ApplyLevel(LEVEL_NORMAL)] + ([Begin(1, signal, notional, venue)] + ([Precheck(1, true)] + [])));
  }

  lemma FirstCallClaims(s: State, notional: real, w: Write)
    requires OnItsWay(s, Checked, notional) && s.seen == {} && w.Synced?
    ensures Allowed(s, BothClaims(w)) && OnItsWay(Exec(s, BothClaims(w)), BothClaimed, notional)
  {
    var signal := s.calls[1].signal;
    KeysDiffer(signal, signal);
    var s1 := Apply(s, ClaimSignal(1, w));
    assert At(s1, 1, SignalTried(true)) && OrderKey(signal) !in s1.seen;
    RunCons(s1, ClaimOrder(1, w), []);
    RunCons(s, ClaimSignal(1, w), [ClaimOrder(1, w)] + []);
  }

  lemma FirstCallPasses(s: State, notional: real)
    requires OnItsWay(s, BothClaimed, notional)
    ensures Allowed(s, PassTheCheck())
    ensures var n := Exec(s, PassTheCheck());
      At(n, 1, Cleared) && n.level == LEVEL_HARD && !n.sweep.active
  {
    var s1 := Apply(s, Reserve(1));
    var s2 := Apply(s1, ReleaseCheck(1, true));
    var s3 := Apply(s2, ReadLevel(1));
    var s4 := Apply(s3, ReadLatch(1));
    RunCons(s4, ApplyLevel(LEVEL_HARD), []);
    RunCons(s3, ReadLatch(1), [ApplyLevel(LEVEL_HARD)] + []);
    RunCons(s2, ReadLevel(1), [ReadLatch(1)] + ([ApplyLevel(LEVEL_HARD)] + []));
    RunCons(s1, ReleaseCheck(1, true), [ReadLevel(1)] + ([ReadLatch(1)] + ([ApplyLevel(LEVEL_HARD)] + [])));
    RunCons(s, Reserve(1),
            [ReleaseCheck(1, true)] + ([ReadLevel(1)] + ([ReadLatch(1)] + ([ApplyLevel(LEVEL_HARD)] + []))));
  }

  /** From an empty start: a call passes its last check, the level rises, a sweep runs and reports
      itself complete, and the order is open behind it. One sweep after the level rose is not enough. */
  lemma LateOrderCanSurvive(s: State, signal: string, notional: real, venue: string, w: Write)
    returns (before: seq<Step>, during: seq<Step>, end: State)
    requires Initial(s) && 0.0 < notional <= s.cap && venue in s.venues && w.Synced?
    ensures Allowed(s, before) && Swept(Exec(s, before), during, end) && end.sweep.Complete() && 1 in end.open
  {
    FirstCallStarts(s, signal, notional, venue);
    var checked := Exec(s, FirstCall(signal, notional, venue));
    FirstCallClaims(checked, notional, w);
    FirstCallPasses(Exec(checked, BothClaims(w)), notional);
    RunConcat(checked, BothClaims(w), PassTheCheck());
    RunConcat(s, FirstCall(signal, notional, venue), BothClaims(w) + PassTheCheck());
    before := FirstCall(signal, notional, venue) + (BothClaims(w) + PassTheCheck());
    RunKeepsRouted(s, before);
    during, end := SlippedCanSurvive(Exec(s, before), 1);
  }
}
