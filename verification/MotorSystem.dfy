/** The execution motor as a concurrent system (execution_motor/motor.py, limits.py, halt.py,
    kill_watch.py): worker threads, the mirrored kill level, the sweeper, the venues, crashes and
    restarts. One step is one access to shared state; steps of different threads interleave freely. */
module MotorSystem {
  import opened Prelude
  import opened Limits

  const LEVEL_NORMAL := 0
  const LEVEL_LOGIC := 2
  const LEVEL_HARD := 4
  const LEVEL_MAX := 5

  /** How far a call of execute() has come. `Errored` is on its way to the last-resort boundary;
      `Done(holds)` keeps its reservation or not. */
  datatype Phase =
    | Received
    | Checked
    | SignalTried(isNew: bool)
    | BothClaimed
    | Reserved
    | Approved
    | LevelRead
    | Cleared
    | Sent
    | Errored
    | Done(holds: bool)

  /** One call of execute(). order_id equals signal_id: _precheck refuses anything else. */
  datatype Call = Call(signal: string, notional: real, venue: string, phase: Phase)

  /** The sweep in progress, or the result of the last one. `late` is history: orders that reached
      a venue after this sweep had listed it. */
  datatype Sweep = Sweep(
    active: bool, todo: set<string>, toCancel: set<nat>, failed: set<nat>, unreadable: set<string>,
    late: set<nat>)
  {
    /** SweepResult.complete. */
    predicate Complete() {
      failed == {} && unreadable == {}
    }
  }

  /** `calls` are the calls of the running process; `used` are the ids of all calls there ever were, so
      that an id names one call across restarts. The rest of the world: `sent` is every broker
      request ever made, by any process; `wire` are requests on their way; `reached` are the orders
      that came to exist at their venue and `open` those still live there. */
  datatype State = State(
    venues: set<string>, cap: real, up: bool, calls: map<nat, Call>, seen: set<string>, disk: Disk,
    reserved: real, latched: bool, level: nat, sent: map<nat, Call>, wire: set<nat>, reached: set<nat>,
    open: set<nat>, sweep: Sweep, used: set<nat>)

  function SignalKey(signal: string): string { "signal:" + signal }

  function OrderKey(order: string): string { "order:" + order }

  /** KillLevelMirror.apply: anything out of range reads as HARD. */
  function SafeLevel(level: int): nat {
    if LEVEL_NORMAL <= level <= LEVEL_MAX then level else LEVEL_HARD
  }

  datatype Step =
    // a worker thread
    | Begin(id: nat, signal: string, notional: real, venue: string)
    | Precheck(id: nat, pass: bool)
    | ClaimSignal(id: nat, write: Write)
    | ClaimOrder(id: nat, write: Write)
    | Reserve(id: nat)
    | ReleaseCheck(id: nat, pass: bool)
    | ReadLevel(id: nat)
    | ReadLatch(id: nat)
    | Submit(id: nat)
    | BrokerRejects(id: nat)
    | BrokerAnswers(id: nat)
    | OutcomeUnknown(id: nat)
    | InternalError(id: nat)
    // the venues
    | Arrive(id: nat)
    | Drop(id: nat)
    | Close(id: nat)
    // the stream thread and operators
    | ApplyLevel(reported: int)
    | StreamDown
    | Latch
    | Unlatch
    // the sweeper thread
    | StartSweep
    | ListVenue(venue: string, readable: bool)
    | CancelOrder(id: nat, accepted: bool)
    | EndSweep
    // the process
    | Crash(kept: set<string>, residue: bool)
    | Restart(dir: StateDir)

  /** Reservations held by a call. */
  predicate Holds(p: Phase) {
    p.Reserved? || p.Approved? || p.LevelRead? || p.Cleared? || p.Sent? || (p.Done? && p.holds)
  }

  predicate At(s: State, id: nat, p: Phase) {
    s.up && id in s.calls && s.calls[id].phase == p
  }

  predicate Enabled(s: State, step: Step) {
    match step
    case Begin(id, _, notional, venue) =>
      s.up && id !in s.calls && id !in s.sent && id !in s.used && notional > 0.0 && venue in s.venues
    case Precheck(id, _) => At(s, id, Received)
    case ClaimSignal(id, _) => At(s, id, Checked)
    case ClaimOrder(id, _) => At(s, id, SignalTried(true)) || At(s, id, SignalTried(false))
    case Reserve(id) => At(s, id, BothClaimed)
    case ReleaseCheck(id, _) => At(s, id, Reserved)
    case ReadLevel(id) => At(s, id, Approved)
    case ReadLatch(id) => At(s, id, LevelRead)
    case Submit(id) => At(s, id, Cleared)
    case BrokerRejects(id) => At(s, id, Sent) && id in s.wire
    case BrokerAnswers(id) => At(s, id, Sent) && id !in s.wire
    case OutcomeUnknown(id) => At(s, id, Sent)
    case InternalError(id) => s.up && id in s.calls && !s.calls[id].phase.Done?
    case Arrive(id) => id in s.wire && id in s.sent
    case Drop(id) => id in s.wire
    case Close(id) => id in s.open
    case ApplyLevel(_) => s.up
    case StreamDown => s.up
    case Latch => s.up
    case Unlatch => s.up
    case StartSweep => s.up && !s.sweep.active
    case ListVenue(venue, _) => s.up && s.sweep.active && s.sweep.toCancel == {} && venue in s.sweep.todo
    case CancelOrder(id, _) => s.up && s.sweep.active && id in s.sweep.toCancel
    case EndSweep => s.up && s.sweep.active && s.sweep.todo == {} && s.sweep.toCancel == {}
    case Crash(_, _) => s.up
    case Restart(dir) => !s.up && (dir.populated || dir.storeIsFile || !dir.usable)
  }

  function Move(s: State, id: nat, p: Phase): State
    requires id in s.calls
  {
    s.(calls := s.calls[id := s.calls[id].(phase := p)])
  }

  /** End a call and give its reservation back. */
  function Refund(s: State, id: nat): State
    requires id in s.calls
  {
    Move(s, id, Done(false)).(reserved := AfterRelease(s.reserved, s.calls[id].notional))
  }

  /** One claim by call `id`, which goes on to `granted` or `refused`; a claim that cannot be
      persisted raises. */
  function Claim(s: State, id: nat, key: string, w: Write, granted: Phase, refused: Phase): State
    requires id in s.calls
  {
    match ClaimOutcome(s.seen, key, w)
    case Duplicate => Move(s, id, refused)
    case StoreError =>
      Move(s, id, Errored).(seen := s.seen + {key}, disk := Written(s.disk, key, s.seen, w))
    case Claimed =>
      Move(s, id, granted).(seen := s.seen + {key}, disk := Written(s.disk, key, s.seen, w))
  }

  /** The order key is claimed even when the signal was a duplicate. */
  function AfterBoth(p: Phase): Phase
    requires p.SignalTried?
  {
    if p.isNew then BothClaimed else Done(false)
  }

  function OpenAt(s: State, venue: string): set<nat> {
    set id | id in s.open && id in s.sent && s.sent[id].venue == venue
  }

  const IDLE := Sweep(false, {}, {}, {}, {}, {})

  function Apply(s: State, step: Step): State
    requires Enabled(s, step)
  {
    match step
    case Begin(id, signal, notional, venue) =>
      s.(calls := s.calls[id := Call(signal, notional, venue, Received)], used := s.used + {id})
    case Precheck(id, pass) => Move(s, id, if pass then Checked else Done(false))
    case ClaimSignal(id, w) =>
      Claim(s, id, SignalKey(s.calls[id].signal), w, SignalTried(true), SignalTried(false))
    case ClaimOrder(id, w) =>
      Claim(s, id, OrderKey(s.calls[id].signal), w, AfterBoth(s.calls[id].phase), Done(false))
    case Reserve(id) =>
      if CanReserve(s.reserved, s.cap, s.calls[id].notional)
      then Move(s, id, Reserved).(reserved := s.reserved + s.calls[id].notional)
      else Move(s, id, Done(false))
    case ReleaseCheck(id, pass) => if pass then Move(s, id, Approved) else Refund(s, id)
    case ReadLevel(id) => if s.level == LEVEL_NORMAL then Move(s, id, LevelRead) else Refund(s, id)
    case ReadLatch(id) => if s.latched then Refund(s, id) else Move(s, id, Cleared)
    case Submit(id) =>
      Move(s, id, Sent).(sent := s.sent[id := s.calls[id]], wire := s.wire + {id})
    case BrokerRejects(id) => Refund(s, id).(wire := s.wire - {id})
    case BrokerAnswers(id) => Move(s, id, Done(true))
    case OutcomeUnknown(id) => Move(s, id, Done(true)).(latched := true)
    case InternalError(id) => Move(s, id, Done(Holds(s.calls[id].phase))).(latched := true)
    case Arrive(id) =>
      s.(wire := s.wire - {id}, reached := s.reached + {id}, open := s.open + {id},
         sweep := if s.sweep.active && s.sent[id].venue !in s.sweep.todo
                  then s.sweep.(late := s.sweep.late + {id}) else s.sweep)
    case Drop(id) => s.(wire := s.wire - {id})
    case Close(id) => s.(open := s.open - {id})
    case ApplyLevel(reported) => s.(level := SafeLevel(reported))
    case StreamDown => s.(level := LEVEL_HARD)
    case Latch => s.(latched := true)
    case Unlatch => s.(latched := false)
    case StartSweep => s.(sweep := Sweep(true, s.venues, {}, {}, {}, {}))
    case ListVenue(venue, readable) =>
      if readable
      then s.(sweep := s.sweep.(todo := s.sweep.todo - {venue}, toCancel := OpenAt(s, venue)))
      else s.(sweep := s.sweep.(todo := s.sweep.todo - {venue}, unreadable := s.sweep.unreadable + {venue}))
    case CancelOrder(id, accepted) =>
      var rest := s.sweep.(toCancel := s.sweep.toCancel - {id});
      if accepted then s.(open := s.open - {id}, sweep := rest)
      else s.(sweep := rest.(failed := rest.failed + {id}))
    case EndSweep => s.(sweep := s.sweep.(active := false))
    case Crash(kept, residue) =>
      s.(up := false, calls := map[], seen := {}, disk := Crashed(s.disk, kept, residue),
         sweep := IDLE)
    case Restart(dir) =>
      match OpenStore(dir, s.disk)
      case None => s
      case Some(keys) => s.(up := true, seen := keys, reserved := 0.0, latched := false, level := LEVEL_HARD)
  }

  /** A first process on an empty claim file, with nothing at the broker. */
  predicate Initial(s: State) {
    && s.cap > 0.0 && s.up && s.calls == map[] && s.seen == {} && s.disk == Disk({}, {}, false, false)
    && s.reserved == 0.0 && s.sent == map[] && s.wire == {} && s.reached == {} && s.open == {} && s.sweep == IDLE
    && s.level == LEVEL_HARD && s.used == {}
  }

  /** The state after a run of steps; each step must be enabled where it is taken. */
  ghost predicate Allowed(s: State, steps: seq<Step>)
    decreases |steps|
  {
    steps == [] || (Enabled(s, steps[0]) && Allowed(Apply(s, steps[0]), steps[1..]))
  }

  ghost function Exec(s: State, steps: seq<Step>): State
    requires Allowed(s, steps)
    decreases |steps|
  {
    if steps == [] then s else Exec(Apply(s, steps[0]), steps[1..])
  }
}
