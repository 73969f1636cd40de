/** Handing a cancel request to the sweeper thread (execution_motor/kill_watch.py): a requester
    stores it under a lock and then sets an event; the sweeper waits, clears the event and takes what
    is stored. Requesters and the sweeper interleave freely between those accesses. */
module WakeUp {
  /** Where the sweeper is in its loop. */
  datatype Phase = Waiting | Woken | Cleared | Checked | Taken | Sweeping | Probing | Exited

  /** `waking` are requesters between storing their request and setting the event. The rest is
      history: every request is unserved, then served by one sweep; `askedAt` and `startedAt` say
      when it was made and when the sweep that serves it began. */
  datatype State = State(
    phase: Phase, wake: bool, pending: bool, stopped: bool, waking: set<nat>,
    clock: nat, unserved: set<nat>, serving: set<nat>, served: set<nat>,
    askedAt: map<nat, nat>, startedAt: map<nat, nat>)

  datatype Step =
    // requesters: the stream thread, or the sweeper's own failed probe
    | Ask(id: nat)
    | SetWake(id: nat)
    // stop()
    | Stop
    | StopWakes
    // the sweeper
    | WaitReturns(timedOut: bool)
    | ClearWake
    | TestStop
    | TakePending
    | StartSweep(elevated: bool)
    | EndSweep
    | EndProbe

  predicate Enabled(s: State, step: Step) {
    match step
    case Ask(id) => id !in s.askedAt
    case SetWake(id) => id in s.waking
    case Stop => true
    case StopWakes => s.stopped
    case WaitReturns(timedOut) => s.phase.Waiting? && (s.wake || timedOut)
    case ClearWake => s.phase.Woken?
    case TestStop => s.phase.Cleared?
    case TakePending => s.phase.Checked?
    case StartSweep(_) => s.phase.Taken?
    case EndSweep => s.phase.Sweeping?
    case EndProbe => s.phase.Probing?
  }

  predicate OfSweeper(step: Step) {
    !step.Ask? && !step.SetWake? && !step.Stop? && !step.StopWakes?
  }

  function Stamp(ids: set<nat>, t: nat): (m: map<nat, nat>)
    ensures m.Keys == ids
    ensures forall id :: id in ids ==> m[id] == t
  {
    map id | id in ids :: t
  }

  /** Whatever was taken is swept for, even if the level has been reset since; with nothing taken
      the sweep happens only at an elevated level. */
  function Next(s: State, step: Step): State
    requires Enabled(s, step)
  {
    match step
    case Ask(id) =>
      s.(pending := true, waking := s.waking + {id}, unserved := s.unserved + {id},
         askedAt := s.askedAt[id := s.clock])
    case SetWake(id) => s.(wake := true, waking := s.waking - {id})
    case Stop => s.(stopped := true)
    case StopWakes => s.(wake := true)
    case WaitReturns(_) => s.(phase := Woken)
    case ClearWake => s.(phase := Cleared, wake := false)
    case TestStop => s.(phase := if s.stopped then Exited else Checked)
    case TakePending => s.(phase := Taken, pending := false, serving := s.unserved, unserved := {})
    case StartSweep(elevated) =>
      if s.serving != {} || elevated
      then s.(phase := Sweeping, startedAt := s.startedAt + Stamp(s.serving, s.clock))
      else s.(phase := Probing)
    case EndSweep => s.(phase := Probing, served := s.served + s.serving, serving := {})
    case EndProbe => s.(phase := Waiting)
  }

  function Apply(s: State, step: Step): State
    requires Enabled(s, step)
  {
    Next(s, step).(clock := s.clock + 1)
  }

  predicate Initial(s: State) {
    && s.phase.Waiting? && !s.wake && !s.pending && !s.stopped && s.waking == {}
    && s.unserved == s.serving == s.served == {} && s.askedAt == map[] && s.startedAt == map[]
  }

  ghost predicate Allowed(s: State, steps: seq<Step>)
    decreases |steps|
  {
    steps == [] || (Enabled(s, steps[0]) && Allowed(Apply(s, steps[0]), steps[1..]))
  }

  ghost function Exec(s: State, steps: seq<Step>): State
    requires Allowed(s, steps)
    decreases |steps|
  {
    if steps == [] then s else Exec(Apply(s, steps[0]), steps[1..])
  }

  // ---------------------------------------------------------------- no request is lost

  /** A stored request is announced, about to be announced, or about to be taken. */
  predicate Announced(s: State) {
    s.pending ==> s.wake || s.waking != {} || s.phase.Cleared? || s.phase.Checked? || s.stopped
  }

  /** Every request ever made is in exactly one place, and what is being or was served is swept for
      by a sweep that began after the request. */
  ghost predicate Kept(s: State) {
    && s.askedAt.Keys == s.unserved + s.serving + s.served
    && s.unserved !! s.serving && s.unserved !! s.served && s.serving !! s.served
    && (s.pending <==> s.unserved != {})
    && (s.phase.Exited? ==> s.stopped)
    && (s.serving != {} ==> s.phase.Taken? || s.phase.Sweeping?)
    && (forall id :: id in s.askedAt ==> s.askedAt[id] < s.clock)
    && (forall id :: id in s.served || (id in s.serving && s.phase.Sweeping?) ==> InTime(s, id))
    && (forall id :: id in s.startedAt ==> id in s.served + s.serving)
  }

  predicate InTime(s: State, id: nat) {
    id in s.askedAt && id in s.startedAt && s.askedAt[id] < s.startedAt[id]
  }

  lemma StepKeepsAnnounced(s: State, step: Step)
    requires Announced(s) && Enabled(s, step)
    ensures Announced(Apply(s, step))
  {
  }

  lemma AskKeeps(s: State, id: nat)
    requires Kept(s) && Enabled(s, Ask(id))
    ensures Kept(Apply(s, Ask(id)))
  {
    var n := Apply(s, Ask(id));
    assert n.askedAt.Keys == s.askedAt.Keys + {id};
    forall i | i in n.served || (i in n.serving && n.phase.Sweeping?) ensures InTime(n, i) {
      assert InTime(s, i) && i != id;
    }
  }

  lemma StartIsInTime(s: State, elevated: bool, id: nat)
    requires Kept(s) && Enabled(s, StartSweep(elevated))
    requires id in s.served || (id in s.serving && Apply(s, StartSweep(elevated)).phase.Sweeping?)
    ensures InTime(Apply(s, StartSweep(elevated)), id)
  {
    if id in s.served { assert InTime(s, id); }
  }

  lemma StartKeeps(s: State, elevated: bool)
    requires Kept(s) && Enabled(s, StartSweep(elevated))
    ensures Kept(Apply(s, StartSweep(elevated)))
  {
    var n := Apply(s, StartSweep(elevated));
    forall i | i in n.served || (i in n.serving && n.phase.Sweeping?) ensures InTime(n, i) {
      StartIsInTime(s, elevated, i);
    }
  }

  lemma EndKeeps(s: State)
    requires Kept(s) && Enabled(s, EndSweep)
    ensures Kept(Apply(s, EndSweep))
  {
    var n := Apply(s, EndSweep);
    assert n.unserved + n.serving + n.served == s.unserved + s.serving + s.served;
    forall i | i in n.served ensures InTime(n, i) {
      assert InTime(s, i);
    }
  }

  lemma OtherKeeps(s: State, step: Step)
    requires Kept(s) && Enabled(s, step) && !step.Ask? && !step.StartSweep? && !step.EndSweep?
    ensures Kept(Apply(s, step))
  {
    var n := Apply(s, step);
    assert n.unserved + n.serving == s.unserved + s.serving;
    forall i | i in n.served || (i in n.serving && n.phase.Sweeping?) ensures InTime(n, i) {
      assert InTime(s, i);
    }
  }

  lemma StepKeeps(s: State, step: Step)
    requires Announced(s) && Kept(s) && Enabled(s, step)
    ensures Announced(Apply(s, step)) && Kept(Apply(s, step))
  {
    StepKeepsAnnounced(s, step);
    if step.Ask? {
      AskKeeps(s, step.id);
    } else if step.StartSweep? {
      StartKeeps(s, step.elevated);
    } else if step.EndSweep? {
      EndKeeps(s);
    } else {
      OtherKeeps(s, step);
    }
  }

  lemma {:induction false} RunKeeps(s: State, steps: seq<Step>)
    requires Announced(s) && Kept(s) && Allowed(s, steps)
    ensures Announced(Exec(s, steps)) && Kept(Exec(s, steps))
    decreases |steps|
  {
    if steps != [] {
      StepKeeps(s, steps[0]);
      RunKeeps(Apply(s, steps[0]), steps[1..]);
    }
  }

  /** In every reachable state no request is lost: it is stored and announced, or a sweep that
      started after it is serving it or has served it. */
  lemma NoRequestIsLost(s: State, steps: seq<Step>, id: nat)
    requires Initial(s) && Allowed(s, steps) && id in Exec(s, steps).askedAt
    ensures var n := Exec(s, steps);
      || (id in n.unserved && n.pending && Announced(n))
      || (id in n.serving && (n.phase.Taken? || InTime(n, id)))
      || (id in n.served && InTime(n, id))
  {
    RunKeeps(s, steps);
  }

  /** The sweeper can always take a step until it has stopped; and once a request is stored and every event has
      been set it need not wait for its timer. */
  lemma SweeperIsNeverStuck(s: State, steps: seq<Step>)
    requires Initial(s) && Allowed(s, steps)
    ensures var n := Exec(s, steps);
      && (!n.phase.Exited? ==> exists step :: OfSweeper(step) && Enabled(n, step))
      && (n.pending && n.waking == {} && n.phase.Waiting? && !n.stopped ==> Enabled(n, WaitReturns(false)))
  {
    RunKeeps(s, steps);
    var n := Exec(s, steps);
    var step := match n.phase
      case Waiting => WaitReturns(true)
      case Woken => ClearWake
      case Cleared => TestStop
      case Checked => TakePending
      case Taken => StartSweep(true)
      case Sweeping => EndSweep
      case _ => EndProbe;
    assert OfSweeper(step) && (!n.phase.Exited? ==> Enabled(n, step));
  }

  /** Setting the event ends the announcement of the request. */
  lemma SetWakeAnnounces(s: State, id: nat)
    requires Enabled(s, SetWake(id))
    ensures var n := Apply(s, SetWake(id)); n.wake && n.waking == s.waking - {id} && id in s.waking
  {
  }

  // ---------------------------------------------------------------- and it is served soon

  /** Sweeper steps until the sweep that serves `id` has ended. */
  function Distance(s: State, id: nat): nat {
    if id in s.served then 0
    else if id in s.serving then (if s.phase.Taken? then 2 else 1)
    else match s.phase
      case Taken => 9
      case Sweeping => 8
      case Probing => 7
      case Waiting => 6
      case Woken => 5
      case Cleared => 4
      case _ => 3
  }

  function SweeperSteps(steps: seq<Step>): nat {
    if steps == [] then 0 else (if OfSweeper(steps[0]) then 1 else 0) + SweeperSteps(steps[1..])
  }

  lemma StepApproaches(s: State, step: Step, id: nat)
    requires Kept(s) && Enabled(s, step) && id in s.askedAt && !s.stopped
    ensures id in Apply(s, step).askedAt
    ensures Distance(Apply(s, step), id) + (if OfSweeper(step) && id !in s.served then 1 else 0) <= Distance(s, id)
  {
  }

  lemma {:induction false} StoppedForGood(s: State, steps: seq<Step>)
    requires Allowed(s, steps)
    ensures s.stopped ==> Exec(s, steps).stopped
    decreases |steps|
  {
    if steps != [] {
      StoppedForGood(Apply(s, steps[0]), steps[1..]);
    }
  }

  lemma {:induction false} ServedAtDistance(s: State, steps: seq<Step>, id: nat)
    requires Announced(s) && Kept(s) && Allowed(s, steps) && id in s.askedAt
    requires !Exec(s, steps).stopped && SweeperSteps(steps) >= Distance(s, id)
    ensures id in Exec(s, steps).served && InTime(Exec(s, steps), id)
    decreases |steps|
  {
    if steps != [] {
      StoppedForGood(s, steps);
      StepKeeps(s, steps[0]);
      StepApproaches(s, steps[0], id);
      ServedAtDistance(Apply(s, steps[0]), steps[1..], id);
    }
  }

  /** A request made in any reachable state is served after at most nine more steps of the sweeper,
      whatever the requesters do, by a sweep that started after it, unless the watcher is stopped. */
  lemma ServedInNineSteps(s: State, before: seq<Step>, after: seq<Step>, id: nat)
    requires Initial(s) && Allowed(s, before) && id in Exec(s, before).askedAt
    requires Allowed(Exec(s, before), after) && SweeperSteps(after) >= 9
    requires !Exec(Exec(s, before), after).stopped
    ensures id in Exec(Exec(s, before), after).served && InTime(Exec(Exec(s, before), after), id)
  {
    RunKeeps(s, before);
    ServedAtDistance(Exec(s, before), after, id);
  }
}
