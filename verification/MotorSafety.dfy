/** What every run of the motor system keeps, over all interleavings, failed writes, crashes and
    restarts: at most one broker call per signal, and the session cap. */
module MotorSafety {
  import opened Prelude
  import opened Sums
  import opened Limits
  import opened MotorSystem

  // ---------------------------------------------------------------- one broker call per signal

  /** The call has won the claim on its signal and may still submit, or has submitted. */
  predicate Won(p: Phase) {
    !p.Received? && !p.Checked? && !p.Done? && !p.Errored? && p != SignalTried(false)
  }

  /** The signal that call `id` has for itself: it was sent to a broker, by this or an earlier
      process, or holds the claim. */
  function Owner(s: State, id: nat): Option<string> {
    if id in s.sent then Some(s.sent[id].signal)
    else if id in s.calls && Won(s.calls[id].phase) then Some(s.calls[id].signal)
    else None
  }

  /** A claimed key is kept in memory while the process is up, and on disk so that any later process
      loads it or refuses to start. */
  predicate Kept(s: State, key: string) {
    s.disk.Keeps(key) && (s.up ==> key in s.seen)
  }

  predicate Remembered(s: State, signal: string) {
    Kept(s, SignalKey(signal))
  }

  predicate BeforeSubmit(p: Phase) {
    !p.Sent? && !p.Done?
  }

  ghost predicate Claims(s: State) {
    && (!s.up ==> s.calls == map[])
    && (forall id :: id in s.calls && id in s.sent ==> !BeforeSubmit(s.calls[id].phase))
    && (forall id :: Owner(s, id).Some? ==> Remembered(s, Owner(s, id).value))
    && (forall i, j :: i != j && Owner(s, i).Some? ==> Owner(s, i) != Owner(s, j))
  }

  /** A step that gives no call a new signal and forgets nothing. */
  ghost predicate NothingGained(s: State, n: State) {
    && (!n.up ==> n.calls == map[])
    && (forall id :: id in n.calls && id in n.sent ==> !BeforeSubmit(n.calls[id].phase))
    && (forall id :: Owner(n, id).Some? ==> Owner(n, id) == Owner(s, id))
    && (forall k :: s.disk.Keeps(k) ==> n.disk.Keeps(k))
    && (n.up ==> s.up && s.seen <= n.seen)
  }

  lemma NothingGainedKeepsClaims(s: State, n: State)
    requires Claims(s) && NothingGained(s, n)
    ensures Claims(n)
  {
    forall id | Owner(n, id).Some? ensures Remembered(n, Owner(n, id).value) {
      assert Remembered(s, Owner(s, id).value);
    }
  }

  /** The step moved one call, without handing it a signal, and forgot no key. */
  predicate OneMoved(s: State, n: State, id: nat, c: Call) {
    && s.up && n.up && n.calls == s.calls[id := c] && n.sent == s.sent && s.seen <= n.seen
    && (id in s.calls ==> c.signal == s.calls[id].signal)
    && (Won(c.phase) ==> id in s.calls && Won(s.calls[id].phase))
    && (BeforeSubmit(c.phase) ==> id !in s.sent)
  }

  lemma OneMovedGainsNothing(s: State, n: State, id: nat, c: Call)
    requires Claims(s) && OneMoved(s, n, id, c)
    requires forall k :: s.disk.Keeps(k) ==> n.disk.Keeps(k)
    ensures NothingGained(s, n)
  {
  }

  /** The steps of a worker thread that touch neither the claim store nor the broker. */
  predicate WorkerStep(step: Step) {
    || step.Precheck? || step.Reserve? || step.ReleaseCheck? || step.ReadLevel? || step.ReadLatch?
    || step.BrokerRejects? || step.BrokerAnswers? || step.OutcomeUnknown? || step.InternalError?
  }

  lemma WorkerKeepsClaims(s: State, step: Step)
    requires Claims(s) && Enabled(s, step) && WorkerStep(step)
    ensures Claims(Apply(s, step))
  {
    var id, n := step.id, Apply(s, step);
    assert BeforeSubmit(s.calls[id].phase) ==> id !in s.sent;
    OneMovedGainsNothing(s, n, id, n.calls[id]);
    NothingGainedKeepsClaims(s, n);
  }

  /** The steps that leave the calls, the claims and the record of requests alone. */
  predicate OutsideStep(step: Step) {
    || step.Arrive? || step.Drop? || step.Close? || step.ApplyLevel? || step.StreamDown? || step.Latch?
    || step.Unlatch? || step.StartSweep? || step.ListVenue? || step.CancelOrder? || step.EndSweep?
  }

  lemma OutsideKeepsCalls(s: State, step: Step)
    requires Enabled(s, step) && OutsideStep(step)
    ensures var n := Apply(s, step);
      && n.calls == s.calls && n.sent == s.sent && n.seen == s.seen && n.disk == s.disk && n.up == s.up
      && n.reserved == s.reserved && n.cap == s.cap && n.venues == s.venues
  {
  }

  lemma SubmitKeepsClaims(s: State, id: nat)
    requires Claims(s) && Enabled(s, Submit(id))
    ensures Claims(Apply(s, Submit(id)))
  {
    var n := Apply(s, Submit(id));
    forall i ensures Owner(n, i) == Owner(s, i) { }
    NothingGainedKeepsClaims(s, n);
  }

  /** Only the claim on a signal gives a call something new. */
  lemma ClaimSignalKeepsClaims(s: State, id: nat, w: Write)
    requires Claims(s) && Enabled(s, ClaimSignal(id, w))
    ensures Claims(Apply(s, ClaimSignal(id, w)))
  {
    var n := Apply(s, ClaimSignal(id, w));
    var signal := s.calls[id].signal;
    GrantedClaimsAreKept(s.disk, s.seen, SignalKey(signal), w);
    if ClaimOutcome(s.seen, SignalKey(signal), w) == Claimed {
      forall i ensures Owner(n, i) == if i == id then Some(signal) else Owner(s, i) { }
      forall i | Owner(s, i).Some? ensures Owner(s, i) != Some(signal) {
        assert Remembered(s, Owner(s, i).value);
      }
      forall i | Owner(n, i).Some? ensures Remembered(n, Owner(n, i).value) {
        if i != id { assert Remembered(s, Owner(s, i).value); }
      }
    } else {
      OneMovedGainsNothing(s, n, id, n.calls[id]);
      NothingGainedKeepsClaims(s, n);
    }
  }

  lemma ClaimOrderKeepsClaims(s: State, id: nat, w: Write)
    requires Claims(s) && Enabled(s, ClaimOrder(id, w))
    ensures Claims(Apply(s, ClaimOrder(id, w)))
  {
    var n := Apply(s, ClaimOrder(id, w));
    GrantedClaimsAreKept(s.disk, s.seen, OrderKey(s.calls[id].signal), w);
    OneMovedGainsNothing(s, n, id, n.calls[id]);
    NothingGainedKeepsClaims(s, n);
  }

  lemma CrashKeepsClaims(s: State, kept: set<string>, residue: bool)
    requires Claims(s) && Enabled(s, Crash(kept, residue))
    ensures Claims(Apply(s, Crash(kept, residue)))
  {
    NothingGainedKeepsClaims(s, Apply(s, Crash(kept, residue)));
  }

  lemma RestartKeepsClaims(s: State, dir: StateDir)
    requires Claims(s) && Enabled(s, Restart(dir))
    ensures Claims(Apply(s, Restart(dir)))
  {
    var n := Apply(s, Restart(dir));
    forall id | Owner(n, id).Some? ensures Remembered(n, Owner(n, id).value) {
      assert Owner(n, id) == Owner(s, id);
      assert Remembered(s, Owner(s, id).value);
    }
    forall i, j | i != j && Owner(n, i).Some? ensures Owner(n, i) != Owner(n, j) {
      assert Owner(n, i) == Owner(s, i) && Owner(n, j) == Owner(s, j);
    }
  }

  lemma StepKeepsClaims(s: State, step: Step)
    requires Claims(s) && Enabled(s, step)
    ensures Claims(Apply(s, step))
  {
    if OutsideStep(step) {
      OutsideKeepsCalls(s, step);
      NothingGainedKeepsClaims(s, Apply(s, step));
    } else if WorkerStep(step) {
      WorkerKeepsClaims(s, step);
    } else {
      match step
      case Begin(id, signal, notional, venue) =>
        OneMovedGainsNothing(s, Apply(s, step), id, Call(signal, notional, venue, Received));
        NothingGainedKeepsClaims(s, Apply(s, step));
      case ClaimSignal(id, w) => ClaimSignalKeepsClaims(s, id, w);
      case ClaimOrder(id, w) => ClaimOrderKeepsClaims(s, id, w);
      case Submit(id) => SubmitKeepsClaims(s, id);
      case Crash(kept, residue) => CrashKeepsClaims(s, kept, residue);
      case Restart(dir) => RestartKeepsClaims(s, dir);
      case _ => assert false;
    }
  }

  lemma {:induction false} RunKeepsClaims(s: State, steps: seq<Step>)
    requires Claims(s) && Allowed(s, steps)
    ensures Claims(Exec(s, steps))
    decreases |steps|
  {
    if steps != [] {
      StepKeepsClaims(s, steps[0]);
      RunKeepsClaims(Apply(s, steps[0]), steps[1..]);
    }
  }

  /** The signals of the broker calls made along a run, in order. */
  ghost function Submitted(s: State, steps: seq<Step>): seq<string>
    requires Allowed(s, steps)
    decreases |steps|
  {
    if steps == [] then []
    else (if steps[0].Submit? then [s.calls[steps[0].id].signal] else []) + Submitted(Apply(s, steps[0]), steps[1..])
  }

  predicate AlreadySent(s: State, signal: string) {
    exists id :: id in s.sent && s.sent[id].signal == signal
  }

  lemma SentStaysSent(s: State, step: Step, signal: string)
    requires Enabled(s, step) && AlreadySent(s, signal) && Claims(s)
    ensures AlreadySent(Apply(s, step), signal)
  {
    var id :| id in s.sent && s.sent[id].signal == signal;
    if OutsideStep(step) {
      OutsideKeepsCalls(s, step);
    } else if step.Submit? {
      assert step.id !in s.sent;
    }
    assert id in Apply(s, step).sent && Apply(s, step).sent[id].signal == signal;
  }

  lemma SubmitIsNew(s: State, id: nat)
    requires Claims(s) && Enabled(s, Submit(id))
    ensures !AlreadySent(s, s.calls[id].signal)
    ensures AlreadySent(Apply(s, Submit(id)), s.calls[id].signal)
  {
    assert id !in s.sent;
    forall i | i in s.sent ensures s.sent[i].signal != s.calls[id].signal {
      assert Owner(s, i) != Owner(s, id);
    }
    assert id in Apply(s, Submit(id)).sent;
  }

  ghost predicate Distinct(made: seq<string>) {
    forall i, j :: 0 <= i < j < |made| ==> made[i] != made[j]
  }

  ghost predicate NoneSent(s: State, made: seq<string>) {
    forall i :: 0 <= i < |made| ==> !AlreadySent(s, made[i])
  }

  /** submit_order is called at most once for any signal, over every interleaving of the workers,
      failed writes, crashes and restarts. */
  lemma {:induction false} AtMostOneSubmission(s: State, steps: seq<Step>)
    requires Claims(s) && Allowed(s, steps)
    ensures Distinct(Submitted(s, steps)) && NoneSent(s, Submitted(s, steps))
    decreases |steps|
  {
    if steps != [] {
      var n, rest := Apply(s, steps[0]), Submitted(Apply(s, steps[0]), steps[1..]);
      StepKeepsClaims(s, steps[0]);
      AtMostOneSubmission(n, steps[1..]);
      forall i | 0 <= i < |rest| ensures !AlreadySent(s, rest[i]) {
        if AlreadySent(s, rest[i]) {
          SentStaysSent(s, steps[0], rest[i]);
        }
      }
      if steps[0].Submit? {
        SubmitIsNew(s, steps[0].id);
      }
    }
  }

  /** The keys whose claim was granted along a run. */
  ghost function Granted(s: State, steps: seq<Step>): set<string>
    requires Allowed(s, steps)
    decreases |steps|
  {
    if steps == [] then {}
    else GrantedBy(s, steps[0]) + Granted(Apply(s, steps[0]), steps[1..])
  }

  function GrantedBy(s: State, step: Step): set<string>
    requires Enabled(s, step)
  {
    match step
    case ClaimSignal(id, w) => GrantedKey(s, SignalKey(s.calls[id].signal), w)
    case ClaimOrder(id, w) => GrantedKey(s, OrderKey(s.calls[id].signal), w)
    case _ => {}
  }

  function GrantedKey(s: State, key: string, w: Write): set<string> {
    if ClaimOutcome(s.seen, key, w) == Claimed then {key} else {}
  }

  ghost predicate KeepsAll(s: State, keys: set<string>) {
    forall k :: k in keys ==> Kept(s, k)
  }

  lemma StepKeepsGranted(s: State, step: Step, keys: set<string>)
    requires KeepsAll(s, keys) && Enabled(s, step)
    ensures KeepsAll(Apply(s, step), keys + GrantedBy(s, step))
  {
    if OutsideStep(step) {
      OutsideKeepsCalls(s, step);
    } else if step.ClaimSignal? {
      GrantedClaimsAreKept(s.disk, s.seen, SignalKey(s.calls[step.id].signal), step.write);
    } else if step.ClaimOrder? {
      GrantedClaimsAreKept(s.disk, s.seen, OrderKey(s.calls[step.id].signal), step.write);
    }
  }

  /** Every key whose claim ever returned True is remembered by the running process and stays in
      the file, which any later process must load or refuse to start on. */
  lemma {:induction false} GrantedIsForever(s: State, steps: seq<Step>, keys: set<string>)
    requires KeepsAll(s, keys) && Allowed(s, steps)
    ensures KeepsAll(Exec(s, steps), keys + Granted(s, steps))
    decreases |steps|
  {
    if steps == [] {
      assert keys + Granted(s, steps) == keys;
    } else {
      StepKeepsGranted(s, steps[0], keys);
      var more := keys + GrantedBy(s, steps[0]);
      GrantedIsForever(Apply(s, steps[0]), steps[1..], more);
      assert keys + Granted(s, steps) == more + Granted(Apply(s, steps[0]), steps[1..]);
    }
  }

  // ---------------------------------------------------------------- session cap

  function Held(id: nat, c: Call): real {
    if Holds(c.phase) then c.notional else 0.0
  }

  /** The ledger is exactly the reservations held, and never above the cap. */
  ghost predicate Ledger(s: State) {
    && s.cap > 0.0
    && (!s.up ==> s.calls == map[])
    && (forall id :: id in s.calls ==> s.calls[id].notional > 0.0)
    && (s.up ==> s.reserved == Sum(s.calls, Held) && s.reserved <= s.cap)
  }

  /** The clip at zero in release() never acts: whoever gives a reservation back holds it. */
  lemma RefundIsExact(s: State, id: nat)
    requires Ledger(s) && s.up && id in s.calls && Holds(s.calls[id].phase)
    ensures s.reserved >= s.calls[id].notional
    ensures AfterRelease(s.reserved, s.calls[id].notional) == s.reserved - s.calls[id].notional
  {
    SumSplit(s.calls, id, Held);
    SumNonNegative(s.calls - {id}, Held);
  }

  /** The step changed one call, and the ledger by what that call's holding changed. */
  lemma OneChangedKeepsLedger(s: State, n: State, id: nat, c: Call)
    requires Ledger(s) && s.up && n.up && n.cap == s.cap && n.calls == s.calls[id := c] && c.notional > 0.0
    requires n.reserved == s.reserved - (if id in s.calls then Held(id, s.calls[id]) else 0.0) + Held(id, c)
    requires n.reserved <= s.cap
    ensures Ledger(n)
  {
    SumReplace(s.calls, id, c, Held);
  }

  /** The worker gives a reservation back in this step. */
  predicate Refunds(s: State, step: Step) {
    || step.BrokerRejects?
    || (step.ReleaseCheck? && !step.pass)
    || (step.ReadLevel? && s.level != LEVEL_NORMAL)
    || (step.ReadLatch? && s.latched)
  }

  lemma RefundKeepsLedger(s: State, n: State, id: nat)
    requires Ledger(s) && s.up && id in s.calls && Holds(s.calls[id].phase) && n.up && n.cap == s.cap
    requires n.calls == Refund(s, id).calls && n.reserved == Refund(s, id).reserved
    ensures Ledger(n)
  {
    RefundIsExact(s, id);
    OneChangedKeepsLedger(s, n, id, s.calls[id].(phase := Done(false)));
  }

  lemma WorkerKeepsLedger(s: State, step: Step)
    requires Ledger(s) && Enabled(s, step) && (WorkerStep(step) || step.Submit?)
    ensures Ledger(Apply(s, step))
  {
    var id, n := step.id, Apply(s, step);
    if Refunds(s, step) {
      RefundKeepsLedger(s, n, id);
    } else {
      OneChangedKeepsLedger(s, n, id, n.calls[id]);
    }
  }

  predicate ClaimStep(step: Step) {
    step.ClaimSignal? || step.ClaimOrder?
  }

  /** The step moved call `id` to another phase and brought no order into being. */
  predicate Moved(s: State, n: State, id: nat) {
    && s.up && id in s.calls && id in n.calls
    && n.calls == s.calls[id := s.calls[id].(phase := n.calls[id].phase)]
    && n.wire <= s.wire
    && n == s.(calls := n.calls, seen := n.seen, disk := n.disk, reserved := n.reserved,
               latched := n.latched, wire := n.wire)
  }

  /** A claim holds nothing before or after, and touches no request. */
  lemma ClaimShape(s: State, step: Step)
    requires Enabled(s, step) && ClaimStep(step)
    ensures var n := Apply(s, step);
      && Moved(s, n, step.id) && n.reserved == s.reserved && n.wire == s.wire
      && BeforeSubmit(s.calls[step.id].phase) && !Holds(s.calls[step.id].phase) && !Holds(n.calls[step.id].phase)
  {
  }

  lemma WorkerShape(s: State, step: Step)
    requires Enabled(s, step) && WorkerStep(step)
    ensures var n := Apply(s, step);
      && Moved(s, n, step.id) && s.wire <= n.wire + {step.id}
      && (BeforeSubmit(n.calls[step.id].phase) ==> BeforeSubmit(s.calls[step.id].phase))
      && (step.id in n.wire + s.reached && Holds(s.calls[step.id].phase) && s.wire !! s.reached ==>
            BeforeSubmit(s.calls[step.id].phase) || Holds(n.calls[step.id].phase))
  {
  }

  lemma ClaimKeepsLedger(s: State, step: Step)
    requires Ledger(s) && Enabled(s, step) && ClaimStep(step)
    ensures Ledger(Apply(s, step))
  {
    ClaimShape(s, step);
    OneChangedKeepsLedger(s, Apply(s, step), step.id, Apply(s, step).calls[step.id]);
  }

  lemma StepKeepsLedger(s: State, step: Step)
    requires Ledger(s) && Enabled(s, step)
    ensures Ledger(Apply(s, step))
  {
    if OutsideStep(step) {
      OutsideKeepsCalls(s, step);
    } else if WorkerStep(step) || step.Submit? {
      WorkerKeepsLedger(s, step);
    } else if ClaimStep(step) {
      ClaimKeepsLedger(s, step);
    } else {
      match step
      case Begin(id, signal, notional, venue) =>
        OneChangedKeepsLedger(s, Apply(s, step), id, Call(signal, notional, venue, Received));
      case Crash(_, _) =>
      case Restart(_) =>
      case _ => assert false;
    }
  }

  // ---------------------------------------------------------------- exposure

  /** Requests that may exist at a broker are known, and their calls keep their reservation. */
  ghost predicate Tracked(s: State) {
    && s.wire !! s.reached && s.open <= s.reached && s.wire + s.reached <= s.sent.Keys
    && (!s.up ==> s.calls == map[])
    && (forall id :: id in s.calls && id in s.sent ==> !BeforeSubmit(s.calls[id].phase))
    && (forall id :: id in s.calls && id in s.wire + s.reached ==> Holds(s.calls[id].phase))
  }

  /** The notional of a call of this process whose order may exist at a broker. */
  function MayExist(s: State, id: nat, c: Call): real {
    if id in s.wire + s.reached then c.notional else 0.0
  }

  ghost function Exposure(s: State): real {
    Sum(s.calls, (id, c) => MayExist(s, id, c))
  }

  lemma OutsideKeepsTracked(s: State, step: Step)
    requires Tracked(s) && Enabled(s, step) && OutsideStep(step)
    ensures Tracked(Apply(s, step))
  {
    OutsideKeepsCalls(s, step);
    var n := Apply(s, step);
    assert n.wire + n.reached <= s.wire + s.reached;
  }

  lemma MovedKeepsTracked(s: State, n: State, id: nat)
    requires Tracked(s) && Moved(s, n, id)
    requires BeforeSubmit(n.calls[id].phase) ==> BeforeSubmit(s.calls[id].phase)
    requires id in n.wire + s.reached ==> Holds(n.calls[id].phase)
    ensures Tracked(n)
  {
  }

  lemma WorkerKeepsTracked(s: State, step: Step)
    requires Tracked(s) && Enabled(s, step) && WorkerStep(step)
    ensures Tracked(Apply(s, step))
  {
    WorkerShape(s, step);
    MovedKeepsTracked(s, Apply(s, step), step.id);
  }

  lemma ClaimKeepsTracked(s: State, step: Step)
    requires Tracked(s) && Enabled(s, step) && ClaimStep(step)
    ensures Tracked(Apply(s, step))
  {
    ClaimShape(s, step);
    MovedKeepsTracked(s, Apply(s, step), step.id);
  }

  lemma StepKeepsTracked(s: State, step: Step)
    requires Tracked(s) && Enabled(s, step)
    ensures Tracked(Apply(s, step))
  {
    if OutsideStep(step) {
      OutsideKeepsTracked(s, step);
    } else if WorkerStep(step) {
      WorkerKeepsTracked(s, step);
    } else if ClaimStep(step) {
      ClaimKeepsTracked(s, step);
    } else {
      match step
      case Begin(_, _, _, _) =>
      case Submit(_) =>
      case Crash(_, _) =>
      case Restart(_) =>
      case _ => assert false;
    }
  }

  lemma ExposureIsReserved(s: State)
    requires Ledger(s) && Tracked(s) && s.up
    ensures Exposure(s) <= s.reserved <= s.cap
  {
    SumBelow(s.calls, (id, c) => MayExist(s, id, c), Held);
  }

  lemma {:induction false} RunKeepsBooks(s: State, steps: seq<Step>)
    requires Ledger(s) && Tracked(s) && Allowed(s, steps)
    ensures Ledger(Exec(s, steps)) && Tracked(Exec(s, steps))
    decreases |steps|
  {
    if steps != [] {
      StepKeepsLedger(s, steps[0]);
      StepKeepsTracked(s, steps[0]);
      RunKeepsBooks(Apply(s, steps[0]), steps[1..]);
    }
  }

  lemma InitialIsSafe(s: State)
    requires Initial(s)
    ensures Claims(s) && Ledger(s) && Tracked(s)
  {
  }

  /** In every state of every run, the orders of this process that may exist at a broker, whatever
      became of them, are worth no more than the ledger says, and that is within the cap. */
  lemma SessionCapHolds(s: State, steps: seq<Step>)
    requires Initial(s) && Allowed(s, steps)
    ensures var n := Exec(s, steps); n.up ==> Exposure(n) <= n.reserved <= n.cap
  {
    InitialIsSafe(s);
    RunKeepsBooks(s, steps);
    if Exec(s, steps).up {
      ExposureIsReserved(Exec(s, steps));
    }
  }

  /** Whenever a run gives a reservation back, exactly that much was still reserved for the call:
      nothing is released twice, so the clip at zero never acts. */
  lemma ClipNeverActs(s: State, steps: seq<Step>, step: Step)
    requires Initial(s) && Allowed(s, steps)
    requires Enabled(Exec(s, steps), step) && Refunds(Exec(s, steps), step)
    ensures var m := Exec(s, steps);
      && step.id in m.calls
      && Apply(m, step).reserved == m.reserved - m.calls[step.id].notional
      && Apply(m, step).calls[step.id].phase == Done(false)
  {
    InitialIsSafe(s);
    RunKeepsBooks(s, steps);
    RefundIsExact(Exec(s, steps), step.id);
  }

  // ---------------------------------------------------------------- runs step by step

  lemma RunCons(s: State, step: Step, rest: seq<Step>)
    requires Enabled(s, step) && Allowed(Apply(s, step), rest)
    ensures Allowed(s, [step] + rest)
    ensures Exec(s, [step] + rest) == Exec(Apply(s, step), rest)
    ensures Submitted(s, [step] + rest)
         == (if step.Submit? then [s.calls[step.id].signal] else []) + Submitted(Apply(s, step), rest)
  {
    assert ([step] + rest)[1..] == rest;
  }

  lemma {:induction false} RunConcat(s: State, steps: seq<Step>, more: seq<Step>)
    requires Allowed(s, steps) && Allowed(Exec(s, steps), more)
    ensures Allowed(s, steps + more) && Exec(s, steps + more) == Exec(Exec(s, steps), more)
    ensures Submitted(s, steps + more) == Submitted(s, steps) + Submitted(Exec(s, steps), more)
    decreases |steps|
  {
    if steps == [] {
      assert steps + more == more;
    } else {
      RunConcat(Apply(s, steps[0]), steps[1..], more);
      assert (steps + more)[1..] == steps[1..] + more;
    }
  }

  lemma RunSnoc(s: State, steps: seq<Step>, step: Step)
    requires Allowed(s, steps) && Enabled(Exec(s, steps), step)
    ensures Allowed(s, steps + [step]) && Exec(s, steps + [step]) == Apply(Exec(s, steps), step)
    ensures Submitted(s, steps + [step])
         == Submitted(s, steps) + if step.Submit? then [Exec(s, steps).calls[step.id].signal] else []
  {
    RunCons(Exec(s, steps), step, []);
    assert [step] + [] == [step];
    RunConcat(s, steps, [step]);
  }

  lemma KeysDiffer(a: string, b: string)
    ensures SignalKey(a) != OrderKey(b)
    ensures SignalKey(a) == SignalKey(b) ==> a == b
    ensures OrderKey(a) == OrderKey(b) ==> a == b
  {
    assert SignalKey(a)[0] == 's' && OrderKey(b)[0] == 'o';
    assert SignalKey(a)[7..] == a && SignalKey(b)[7..] == b && OrderKey(a)[6..] == a && OrderKey(b)[6..] == b;
  }
}
