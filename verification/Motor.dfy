/** ExecutionMotor (execution_motor/motor.py): one call of execute() at a time, on the real guards.
    Every access to shared state is also recorded as a step of the concurrent system, so each call
    is shown to be a run of it and what the system keeps holds of the motor. */
module Motor {
  import opened Prelude
  import opened Limits
  import opened MotorSystem
  import opened MotorSafety

  datatype Reason =
    | Halted | OrderIdMismatch | AttestationMissing | AttestationInvalid | ShortNotPermitted | OrderFromFuture
    | OrderExpired | AlgoUnsupported | NotionalUndeterminable | NotionalCapExceeded | NoEligibleVenue
    | DuplicateOrder | SessionCapExceeded | ManifestFailed | BrokerRejected | SubmitOutcomeUnknown | InternalError

  datatype Status = Rejected | Accepted | PartiallyFilled | Filled | Cancelled | Expired | Unknown

  datatype Report = Report(status: Status, reason: Option<Reason>, venue: Option<string>, fill: Option<(real, real)>)

  datatype Config = Config(
    maxOrderNotional: real, maxClockSkew: nat, maxOrderAge: nat, maxQuoteAge: nat, allowShort: bool)

  /** An attested order. `denial` is the verdict on its attestation. */
  datatype Attested = Attested(
    orderId: string, signalId: string, quantity: real, limit: Option<real>, stop: Option<real>, direct: bool,
    denial: Option<Reason>, sellShort: bool, decidedAt: int, expiresAt: int)

  datatype Quote = NoQuote | Quote(price: Option<real>, asOf: int)

  datatype Answer =
    | RejectsDefinitely | CannotTell | Raises
    | Result(status: Status, quantity: real, price: Option<real>)

  /** What the rest of the world answers during one call: the clock, the quote source, the router, the
      halt source (each time it is asked), the claim file, the release check and the broker. */
  datatype World = World(
    received: int, quote: Quote, venue: Option<string>, halt: Reading, haltAgain: Reading,
    signalWrite: Write, orderWrite: Write, refusal: Option<string>, answer: Answer)

  function Refused(reason: Reason, venue: Option<string>): Report {
    Report(Rejected, Some(reason), venue, None)
  }

  // ---------------------------------------------------------------- the checks before the claims

  /** The motor's own quote may be reckoned with: it has a positive price, comes at most the clock skew
      from the future and is at most the maximum age old. */
  predicate Trusted(q: Quote, received: int, c: Config) {
    q.Quote? && Positive(q.price) && q.asOf <= received + c.maxClockSkew && received - q.asOf <= c.maxQuoteAge
  }

  /** A price the notional of the order is reckoned with: its limit, its stop or the trusted quote. */
  predicate Counts(o: Attested, w: World, c: Config, price: real) {
    || (price > 0.0 && (o.limit == Some(price) || o.stop == Some(price)))
    || (Trusted(w.quote, w.received, c) && w.quote.price == Some(price))
  }

  /** The most the order may be worth. */
  ghost predicate WorstNotional(o: Attested, w: World, c: Config, notional: real) {
    && notional > 0.0
    && (exists price :: Counts(o, w, c, price) && notional == o.quantity * price)
    && (forall price :: Counts(o, w, c, price) ==> o.quantity * price <= notional)
  }

  /** The gates of _precheck in their order: whether each refuses, and the reason it gives. */
  function Gates(o: Attested, c: Config, halted: bool, w: World): seq<(bool, Reason)> {
    [ (halted, Halted),
      (o.orderId != o.signalId, OrderIdMismatch),
      (o.denial.Some?, if o.denial.Some? then o.denial.value else AttestationInvalid),
      (o.sellShort && !c.allowShort, ShortNotPermitted),
      (o.decidedAt > w.received + c.maxClockSkew, OrderFromFuture),
      (w.received >= o.expiresAt || w.received - o.decidedAt > c.maxOrderAge, OrderExpired),
      (!o.direct, AlgoUnsupported),
      (!Positive(o.limit) && !Positive(o.stop) && !Trusted(w.quote, w.received, c), NotionalUndeterminable) ]
  }

  predicate AllOpen(gates: seq<(bool, Reason)>) {
    forall g :: g in gates ==> !g.0
  }

  /** `reason` is given by the first gate that refuses. */
  predicate FirstRefusal(gates: seq<(bool, Reason)>, reason: Reason) {
    exists k :: 0 <= k < |gates| && gates[k] == (true, reason) && forall j :: 0 <= j < k ==> !gates[j].0
  }

  lemma RefusalAt(gates: seq<(bool, Reason)>, k: nat)
    requires k < |gates| && gates[k].0 && forall j :: 0 <= j < k ==> !gates[j].0
    ensures FirstRefusal(gates, gates[k].1) && !AllOpen(gates)
  {
    assert gates[k] == (true, gates[k].1);
  }

  /** _trusted_quote_price. */
  function TrustedPrice(q: Quote, now: int, c: Config): Option<real> {
    if q.NoQuote? || UsablePrice(q.price).None? then None
    else if q.asOf > now + c.maxClockSkew || now - q.asOf > c.maxQuoteAge then None
    else q.price
  }

  function TimingReason(o: Attested, now: int, c: Config): Option<Reason> {
    if o.decidedAt > now + c.maxClockSkew then Some(OrderFromFuture)
    else if now >= o.expiresAt || now - o.decidedAt > c.maxOrderAge then Some(OrderExpired)
    else None
  }

  lemma TrustedIs(q: Quote, now: int, c: Config)
    ensures TrustedPrice(q, now, c) == if Trusted(q, now, c) then q.price else None
  {
  }

  lemma WorstIs(o: Attested, w: World, c: Config, trusted: Option<real>, notional: real)
    requires trusted == if Trusted(w.quote, w.received, c) then w.quote.price else None
    requires WorstCase(o.quantity, o.limit, o.stop, trusted, notional)
    ensures WorstNotional(o, w, c, notional)
  {
    var price :=
      if Attains(o.quantity, o.limit, notional) then o.limit.value
      else if Attains(o.quantity, o.stop, notional) then o.stop.value else trusted.value;
    assert Counts(o, w, c, price);
  }

  /** An order without a positive price of its own, every other gate open, is decided by the quote: refused as
      undeterminable exactly when there is none, it has no positive price, it is from the future or it is too
      old; otherwise its worth at the quote is its notional. */
  lemma QuoteDecides(o: Attested, c: Config, halted: bool, w: World)
    requires !Positive(o.limit) && !Positive(o.stop)
    requires AllOpen(Gates(o, c, halted, w)[..7])
    ensures FirstRefusal(Gates(o, c, halted, w), NotionalUndeterminable) <==>
            || w.quote.NoQuote? || w.quote.price.None? || w.quote.price.value <= 0.0
            || w.quote.asOf > w.received + c.maxClockSkew || w.received - w.quote.asOf > c.maxQuoteAge
    ensures AllOpen(Gates(o, c, halted, w)) ==>
      forall notional :: WorstNotional(o, w, c, notional) ==>
        w.quote.Quote? && w.quote.price.Some? && notional == o.quantity * w.quote.price.value
  {
    var gates := Gates(o, c, halted, w);
    assert forall k :: 0 <= k < 7 ==> gates[..7][k] == gates[k];
    assert gates[7].1 == NotionalUndeterminable;
    if gates[7].0 {
      RefusalAt(gates, 7);
    }
    if AllOpen(gates) {
      assert !gates[7].0;
    }
  }

  /** A quote that is stale or from the future changes nothing: the notional is what it is without one. */
  lemma StaleQuoteDoesNotCount(o: Attested, w: World, c: Config, notional: real)
    requires w.quote.Quote? && (w.quote.asOf > w.received + c.maxClockSkew || w.received - w.quote.asOf > c.maxQuoteAge)
    ensures WorstNotional(o, w, c, notional) <==> WorstNotional(o, w.(quote := NoQuote), c, notional)
  {
    forall price ensures Counts(o, w, c, price) <==> Counts(o, w.(quote := NoQuote), c, price) { }
  }

  // ---------------------------------------------------------------- claims, reservation, broker

  datatype Gate = Pass | Refuse(reason: Reason) | Raise

  /** The first claim that cannot be persisted raises; otherwise both keys must be new and the
      notional must fit under the session cap. */
  function ClaimGate(seen: set<string>, reserved: real, cap: real, signal: string, notional: real, w: World): Gate {
    var first := ClaimOutcome(seen, SignalKey(signal), w.signalWrite);
    var second := ClaimOutcome(seen + {SignalKey(signal)}, OrderKey(signal), w.orderWrite);
    if first == StoreError || second == StoreError then Raise
    else if first == Duplicate || second == Duplicate then Refuse(DuplicateOrder)
    else if !CanReserve(reserved, cap, notional) then Refuse(SessionCapExceeded)
    else Pass
  }

  predicate IsReject(a: Answer) {
    a.RejectsDefinitely? || (a.Result? && a.status == Rejected)
  }

  predicate IsUnknown(a: Answer) {
    a.CannotTell? || a.Raises? || (a.Result? && a.status == Unknown)
  }

  function BrokerReport(venue: string, a: Answer): Report {
    if IsReject(a) then Report(Rejected, Some(BrokerRejected), Some(venue), None)
    else if IsUnknown(a) then Report(Unknown, Some(SubmitOutcomeUnknown), Some(venue), None)
    else Report(a.status, None, Some(venue), if a.quantity > 0.0 && a.price.Some? then Some((a.quantity, a.price.value))
                                    else None)
  }

  /** The guards behind the prechecks. */
  predicate Releases(seen: set<string>, reserved: real, cap: real, o: Attested, notional: real, w: World) {
    && ClaimGate(seen, reserved, cap, o.signalId, notional, w) == Pass
    && w.refusal.None?
    && !ExternallyHalted(w.haltAgain)
  }

  /** Everything that must hold for the one broker call of execute() to be made. */
  predicate MaySubmit(
    o: Attested, c: Config, seen: set<string>, reserved: real, cap: real, halted: bool, w: World, notional: real) {
    && AllOpen(Gates(o, c, ExternallyHalted(w.halt) || halted, w))
    && notional <= c.maxOrderNotional
    && w.venue.Some?
    && Releases(seen, reserved, cap, o, notional, w)
  }

  class ExecutionMotor {
    const config: Config
    const store: FileIdempotencyStore
    const ledger: NotionalLedger
    const kill: KillSwitch
    /** The ids handed to submit_order, in order. */
    var submitted: seq<string>
    ghost const start: State
    ghost var trace: seq<Step>
    ghost var sys: State

    /** The guards hold what the system state says, and that state is the end of a run. */
    ghost predicate Valid()
      reads this, store, ledger, kill
    {
      && ledger.Valid()
      && Allowed(start, trace) && Exec(start, trace) == sys && Submitted(start, trace) == submitted
      && sys.up && sys.seen == store.seen && sys.disk == store.disk
      && sys.reserved == ledger.reserved && sys.cap == ledger.cap && sys.latched == kill.halted
    }

    /** A process that has just loaded its claim file. */
    constructor (config: Config, cap: real, seen: set<string>, disk: Disk, startHalted: bool, latchExternal: bool,
                 ghost start: State)
      requires cap > 0.0
      requires start.up && start.seen == seen && start.disk == disk && start.reserved == 0.0 && start.cap == cap
      requires start.latched == startHalted
      ensures Valid() && submitted == [] && fresh(store) && fresh(ledger) && fresh(kill)
      ensures sys == start && trace == [] && this.config == config
    {
      this.config := config;
      store := new FileIdempotencyStore(seen, disk);
      ledger := new NotionalLedger(cap);
      kill := new KillSwitch(startHalted, latchExternal);
      submitted := [];
      this.start, trace, sys := start, [], start;
    }

    ghost method Take(step: Step)
      requires Allowed(start, trace) && Exec(start, trace) == sys && Enabled(sys, step)
      modifies this`trace, this`sys
      ensures Allowed(start, trace) && Exec(start, trace) == sys && sys == Apply(old(sys), step)
      ensures Submitted(start, trace)
           == Submitted(start, old(trace)) + if step.Submit? then [old(sys).calls[step.id].signal] else []
    {
      RunSnoc(start, trace, step);
      trace, sys := trace + [step], Apply(sys, step);
    }

    method IsHalted(r: Reading) returns (stop: bool)
      requires Valid()
      modifies this`trace, this`sys, kill
      ensures Valid() && stop == (ExternallyHalted(r) || old(kill.halted))
      ensures kill.halted == (old(kill.halted) || (ExternallyHalted(r) && kill.latchExternal))
      ensures sys == old(sys).(latched := kill.halted)
    {
      stop := kill.IsHalted(r);
      if kill.halted && !sys.latched {
        Take(Latch);
      }
    }

    /** _precheck: the notional of the order when every gate lets it through and it is within the
        per-order cap, otherwise the reason of the first gate that refuses. */
    method Precheck(o: Attested, w: World) returns (r: Prelude.Result<real, Reason>, ghost notional: real)
      requires Valid() && o.quantity > 0.0
      modifies this`trace, this`sys, kill
      ensures Valid() && sys == old(sys).(latched := kill.halted)
      ensures kill.halted == (old(kill.halted) || (ExternallyHalted(w.halt) && kill.latchExternal))
      ensures var gates := Gates(o, config, ExternallyHalted(w.halt) || old(kill.halted), w);
        if AllOpen(gates) then
          && WorstNotional(o, w, config, notional)
          && r == (if notional > config.maxOrderNotional then Err(NotionalCapExceeded) else Ok(notional))
        else
          r.Err? && FirstRefusal(gates, r.error)
    {
      ghost var gates := Gates(o, config, ExternallyHalted(w.halt) || kill.halted, w);
      notional := 0.0;
      var halted := IsHalted(w.halt);
      if halted {
        RefusalAt(gates, 0);
        return Err(Halted), notional;
      }
      if o.orderId != o.signalId {
        RefusalAt(gates, 1);
        return Err(OrderIdMismatch), notional;
      }
      if o.denial.Some? {
        RefusalAt(gates, 2);
        return Err(o.denial.value), notional;
      }
      if o.sellShort && !config.allowShort {
        RefusalAt(gates, 3);
        return Err(ShortNotPermitted), notional;
      }
      var timing := TimingReason(o, w.received, config);
      if timing.Some? {
        RefusalAt(gates, if timing.value == OrderFromFuture then 4 else 5);
        return Err(timing.value), notional;
      }
      if !o.direct {
        RefusalAt(gates, 6);
        return Err(AlgoUnsupported), notional;
      }
      var trusted := TrustedPrice(w.quote, w.received, config);
      TrustedIs(w.quote, w.received, config);
      var worst := ComputeNotional(o.quantity, o.limit, o.stop, trusted);
      if worst.None? {
        RefusalAt(gates, 7);
        return Err(NotionalUndeterminable), notional;
      }
      notional := worst.value;
      WorstIs(o, w, config, trusted, notional);
      if worst.value > config.maxOrderNotional {
        return Err(NotionalCapExceeded), notional;
      }
      return Ok(worst.value), notional;
    }

    /** Call `id` of the system is `c`. */
    ghost predicate Has(id: nat, c: Call)
      reads this
    {
      id in sys.calls && sys.calls[id] == c
    }

    /** Nothing was ever sent for call `id`. */
    ghost predicate Unsent(id: nat)
      reads this
    {
      id !in sys.sent && id !in sys.wire
    }

    ghost predicate Ended(id: nat)
      reads this
    {
      id in sys.calls && sys.calls[id].phase.Done?
    }

    ghost method BeginCall(id: nat, c: Call)
      requires Valid() && id !in sys.calls && id !in sys.used && Unsent(id)
      requires c.phase == Checked && c.notional > 0.0 && c.venue in sys.venues
      modifies this`trace, this`sys
      ensures Valid() && Has(id, c) && Unsent(id)
    {
      Take(Begin(id, c.signal, c.notional, c.venue));
      Take(MotorSystem.Step.Precheck(id, true));
    }

    method ClaimSignalKey(w: Write, ghost id: nat, ghost c: Call, signal: string) returns (r: ClaimResult)
      requires Valid() && Has(id, c) && Unsent(id) && c.phase == Checked && c.signal == signal
      modifies this`trace, this`sys, store
      ensures Valid() && Unsent(id) && r == ClaimOutcome(old(store.seen), SignalKey(signal), w)
      ensures store.seen == old(store.seen) + {SignalKey(signal)}
      ensures Has(id, c.(phase := if r == StoreError then Errored else SignalTried(r == Claimed)))
    {
      r := store.Claim(SignalKey(signal), w);
      Take(ClaimSignal(id, w));
    }

    method ClaimOrderKey(w: Write, ghost id: nat, ghost c: Call, order: string) returns (r: ClaimResult)
      requires Valid() && Has(id, c) && Unsent(id) && c.phase.SignalTried? && c.signal == order
      modifies this`trace, this`sys, store
      ensures Valid() && Unsent(id) && r == ClaimOutcome(old(store.seen), OrderKey(order), w)
      ensures Has(id, c.(phase := if r == StoreError then Errored
                                  else if r == Claimed && c.phase.isNew then BothClaimed else Done(false)))
    {
      r := store.Claim(OrderKey(order), w);
      Take(ClaimOrder(id, w));
    }

    method ReserveNotional(notional: real, ghost id: nat, ghost c: Call) returns (ok: bool)
      requires Valid() && Has(id, c) && Unsent(id) && c.phase == BothClaimed && c.notional == notional
      modifies this`trace, this`sys, ledger
      ensures Valid() && Unsent(id) && ok == CanReserve(old(ledger.reserved), ledger.cap, notional)
      ensures ledger.reserved == old(ledger.reserved) + if ok then notional else 0.0
      ensures Has(id, c.(phase := if ok then Reserved else Done(false)))
    {
      ok := ledger.TryReserve(notional);
      Take(Reserve(id));
    }

    /** _claim_and_reserve: both claims are made whatever the first one says, then the reservation. */
    method ClaimAndReserve(o: Attested, notional: real, w: World, ghost id: nat, ghost c: Call) returns (gate: Gate)
      requires Valid() && Has(id, c) && Unsent(id)
      requires c.phase == Checked && c.signal == o.signalId == o.orderId && c.notional == notional
      modifies this`trace, this`sys, store, ledger
      ensures Valid() && Unsent(id)
      ensures gate == ClaimGate(old(store.seen), old(ledger.reserved), ledger.cap, o.signalId, notional, w)
      ensures Has(id, c.(phase := match gate case Pass => Reserved case Refuse(_) => Done(false) case Raise => Errored))
      ensures ledger.reserved == old(ledger.reserved) + if gate == Pass then notional else 0.0
    {
      var signalNew := ClaimSignalKey(w.signalWrite, id, c, o.signalId);
      if signalNew == StoreError {
        return Raise;
      }
      var orderNew := ClaimOrderKey(w.orderWrite, id, c.(phase := SignalTried(signalNew == Claimed)), o.orderId);
      if orderNew == StoreError {
        return Raise;
      }
      if signalNew != Claimed || orderNew != Claimed {
        return Refuse(DuplicateOrder);
      }
      var reserved := ReserveNotional(notional, id, c.(phase := BothClaimed));
      return if reserved then Pass else Refuse(SessionCapExceeded);
    }

    /** Give back what call `id` reserved, as the step `step` of the system. */
    method GiveBack(notional: real, ghost step: Step, ghost id: nat, ghost c: Call)
      requires Valid() && Has(id, c) && c.notional == notional && notional > 0.0
      requires Enabled(sys, step) && Refunds(sys, step) && step.id == id
      modifies this`trace, this`sys, ledger
      ensures Valid() && Has(id, c.(phase := Done(false)))
      ensures ledger.reserved == AfterRelease(old(ledger.reserved), notional)
    {
      ledger.Release(notional);
      Take(step);
    }

    /** The halt check immediately before the broker call; a refusal returns the reservation. */
    method LastCheck(notional: real, r: Reading, ghost id: nat, ghost c: Call) returns (stop: bool)
      requires Valid() && Has(id, c) && Unsent(id) && c.phase == Approved && c.notional == notional && notional > 0.0
      modifies this`trace, this`sys, ledger, kill
      ensures Valid() && stop == (ExternallyHalted(r) || old(kill.halted))
      ensures stop ==> Has(id, c.(phase := Done(false)))
                       && ledger.reserved == AfterRelease(old(ledger.reserved), notional)
      ensures !stop ==> Has(id, c.(phase := Cleared)) && Unsent(id) && ledger.reserved == old(ledger.reserved)
    {
      Take(ApplyLevel(if ExternallyHalted(r) then LEVEL_HARD else LEVEL_NORMAL));
      stop := IsHalted(r);
      if ExternallyHalted(r) {
        GiveBack(notional, ReadLevel(id), id, c);
      } else {
        Take(ReadLevel(id));
        if stop {
          GiveBack(notional, ReadLatch(id), id, c.(phase := LevelRead));
        } else {
          Take(ReadLatch(id));
        }
      }
    }

    /** The broker's answer: a definitive reject returns the reservation, an unknown outcome halts. */
    method FromBroker(venue: string, notional: real, a: Answer, ghost id: nat, ghost c: Call) returns (report: Report)
      requires Valid() && Has(id, c) && c.phase == Sent && id in sys.wire && id in sys.sent
      requires c.notional == notional && notional > 0.0
      modifies this`trace, this`sys, ledger, kill
      ensures Valid() && Has(id, c.(phase := Done(!IsReject(a)))) && report == BrokerReport(venue, a)
      ensures ledger.reserved ==
              if IsReject(a) then AfterRelease(old(ledger.reserved), notional) else old(ledger.reserved)
      ensures kill.halted == (old(kill.halted) || report.status == Unknown)
    {
      match a {
        case RejectsDefinitely =>
          report := Reject(venue, notional, id, c);
        case CannotTell =>
          report := OutcomeIsUnknown(venue, id, c);
        case Raises =>
          report := OutcomeIsUnknown(venue, id, c);
        case Result(status, quantity, price) =>
          if status == Unknown {
            report := OutcomeIsUnknown(venue, id, c);
          } else if status == Rejected {
            report := Reject(venue, notional, id, c);
          } else {
            Take(Arrive(id));
            Take(BrokerAnswers(id));
            var fill := if quantity > 0.0 && price.Some? then Some((quantity, price.value)) else None;
            report := Report(status, None, Some(venue), fill);
          }
      }
    }

    method Reject(venue: string, notional: real, ghost id: nat, ghost c: Call) returns (report: Report)
      requires Valid() && Has(id, c) && c.phase == Sent && id in sys.wire && c.notional == notional && notional > 0.0
      modifies this`trace, this`sys, ledger
      ensures Valid() && Has(id, c.(phase := Done(false)))
      ensures report == Report(Rejected, Some(BrokerRejected), Some(venue), None)
      ensures ledger.reserved == AfterRelease(old(ledger.reserved), notional)
    {
      GiveBack(notional, BrokerRejects(id), id, c);
      return Refused(BrokerRejected, Some(venue));
    }

    /** _unknown: after the point of no return the order may exist, so trading stops. */
    method OutcomeIsUnknown(venue: string, ghost id: nat, ghost c: Call) returns (report: Report)
      requires Valid() && Has(id, c) && c.phase == Sent
      modifies this`trace, this`sys, kill
      ensures Valid() && Has(id, c.(phase := Done(true))) && kill.halted
      ensures report == Report(Unknown, Some(SubmitOutcomeUnknown), Some(venue), None)
    {
      kill.Halt("submit outcome unknown");
      Take(OutcomeUnknown(id));
      return Report(Unknown, Some(SubmitOutcomeUnknown), Some(venue), None);
    }

    /** _submit: the last halt check, then the one broker call. */
    method Submit(o: Attested, venue: string, notional: real, w: World, ghost id: nat, ghost c: Call)
      returns (report: Report)
      requires Valid() && Has(id, c) && Unsent(id) && c.phase == Approved && c.notional == notional && notional > 0.0
      requires c.signal == o.orderId
      modifies this, ledger, kill
      ensures Valid() && Ended(id)
      ensures var stop := ExternallyHalted(w.haltAgain) || old(kill.halted);
        && submitted == old(submitted) + (if stop then [] else [o.orderId])
        && report == (if stop then Refused(Halted, Some(venue)) else BrokerReport(venue, w.answer))
        && ledger.reserved == (if stop || IsReject(w.answer)
                               then AfterRelease(old(ledger.reserved), notional) else old(ledger.reserved))
        && (!stop && report.status == Unknown ==> kill.halted)
    {
      var stop := LastCheck(notional, w.haltAgain, id, c);
      if stop {
        return Refused(Halted, Some(venue));
      }
      submitted := submitted + [o.orderId];
      Take(MotorSystem.Step.Submit(id));
      report := FromBroker(venue, notional, w.answer, id, c.(phase := Sent));
    }

    /** The part of _run after the prechecks and the routing. */
    method Place(o: Attested, venue: string, notional: real, w: World, ghost id: nat, ghost c: Call)
      returns (report: Report)
      requires Valid() && Has(id, c) && Unsent(id) && !kill.halted
      requires c.phase == Checked && c.signal == o.signalId == o.orderId && c.notional == notional && notional > 0.0
      modifies this, store, ledger, kill
      ensures Valid() && Ended(id)
      ensures var sends := Releases(old(store.seen), old(ledger.reserved), ledger.cap, o, notional, w);
        && submitted == old(submitted) + (if sends then [o.orderId] else [])
        && (if sends then report == BrokerReport(venue, w.answer) else report.status == Rejected)
        && (sends && report.status == Unknown ==> kill.halted)
        && ledger.reserved == old(ledger.reserved) + (if sends && !IsReject(w.answer) then notional else 0.0)
    {
      var gate := ClaimAndReserve(o, notional, w, id, c);
      match gate {
        case Raise =>
          kill.Halt("unexpected error");
          Take(MotorSystem.Step.InternalError(id));
          return Refused(Reason.InternalError, None);
        case Refuse(reason) =>
          return Refused(reason, None);
        case Pass =>
      }
      if w.refusal.Some? {
        GiveBack(notional, ReleaseCheck(id, false), id, c.(phase := Reserved));
        return Refused(ManifestFailed, Some(venue));
      }
      Take(ReleaseCheck(id, true));
      report := Submit(o, venue, notional, w, id, c.(phase := Approved));
    }

    /** execute. `notional` and `id` are history: the worst case the caps are applied to, and the
        identity of the call in the system. The broker is called, once, exactly when every guard lets
        the order through, and the session keeps the notional unless the broker refuses for certain. */
    method Execute(o: Attested, w: World, ghost id: nat) returns (report: Report, ghost notional: real)
      requires Valid() && o.quantity > 0.0
      requires id !in sys.calls && id !in sys.used && Unsent(id)
      requires w.venue.Some? ==> w.venue.value in sys.venues
      modifies this, store, ledger, kill
      ensures Valid() && (id in sys.calls ==> Ended(id))
      ensures AllOpen(Gates(o, config, ExternallyHalted(w.halt) || old(kill.halted), w)) ==>
                WorstNotional(o, w, config, notional)
      ensures var sends := MaySubmit(o, config, old(store.seen), old(ledger.reserved), ledger.cap,
                    old(kill.halted), w, notional);
        && submitted == old(submitted) + (if sends then [o.orderId] else [])
        && (if sends then report == BrokerReport(w.venue.value, w.answer) else report.status == Rejected)
        && (sends && report.status == Unknown ==> kill.halted)
        && ledger.reserved == old(ledger.reserved) + (if sends && !IsReject(w.answer) then notional else 0.0)
    {
      ghost var gates := Gates(o, config, ExternallyHalted(w.halt) || kill.halted, w);
      var pre;
      pre, notional := Precheck(o, w);
      if pre.Err? {
        return Refused(pre.error, None), notional;
      }
      if w.venue.None? {
        return Refused(NoEligibleVenue, None), notional;
      }
      assert !gates[0].0 && !gates[1].0;
      ghost var c := Call(o.signalId, notional, w.venue.value, Checked);
      BeginCall(id, c);
      report := Place(o, w.venue.value, pre.value, w, id, c);
    }
  }

  /** However execute() is used, the motor hands no signal to a broker twice, and what its orders may
      be worth at the brokers stays within what it has reserved, which stays within the cap. */
  lemma MotorIsSafe(m: ExecutionMotor)
    requires m.Valid() && Initial(m.start)
    ensures Distinct(m.submitted)
    ensures Exposure(m.sys) <= m.ledger.reserved <= m.ledger.cap
  {
    InitialIsSafe(m.start);
    AtMostOneSubmission(m.start, m.trace);
    SessionCapHolds(m.start, m.trace);
  }
}
