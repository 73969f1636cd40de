/** The motor's shared guards: the session ledger and the claim store (execution_motor/limits.py)
    and the kill switch (execution_motor/halt.py). Each is updated under its own lock, so one
    method call is one atomic step; the pure functions here are those steps. */
module Limits {
  import opened Prelude

  // ---------------------------------------------------------------- notional

  function UsablePrice(value: Option<real>): Option<real> {
    if value.None? || value.value <= 0.0 then None else value
  }

  /** A price that can be reckoned with: there is one, and it is positive. */
  predicate Positive(price: Option<real>) {
    price.Some? && price.value > 0.0
  }

  /** The highest usable price, None when there is none. */
  method HighestUsable(prices: seq<Option<real>>) returns (best: Option<real>)
    ensures best.None? <==> forall p :: p in prices ==> !Positive(p)
    ensures best.Some? ==> best in prices && Positive(best)
    ensures best.Some? ==> forall p :: p in prices && Positive(p) ==> p.value <= best.value
  {
    best := None;
    for i := 0 to |prices|
      invariant best.None? ==> forall p :: p in prices[..i] ==> !Positive(p)
      invariant best.Some? ==> Positive(best) && best in prices[..i]
      invariant best.Some? ==> forall p :: p in prices[..i] && Positive(p) ==> p.value <= best.value
    {
      assert prices[..i + 1] == prices[..i] + [prices[i]];
      if UsablePrice(prices[i]).Some? && (best.None? || prices[i].value > best.value) {
        best := prices[i];
      }
    }
    assert prices[..|prices|] == prices;
  }

  predicate Attains(quantity: real, price: Option<real>, notional: real) {
    Positive(price) && notional == quantity * price.value
  }

  predicate Covers(quantity: real, price: Option<real>, notional: real) {
    Positive(price) ==> quantity * price.value <= notional
  }

  /** What the notional caps need: it is attained by a positive price and no positive price exceeds it. */
  predicate WorstCase(quantity: real, limit: Option<real>, stop: Option<real>, trusted: Option<real>, notional: real) {
    && notional > 0.0
    && (Attains(quantity, limit, notional) || Attains(quantity, stop, notional) || Attains(quantity, trusted, notional))
    && Covers(quantity, limit, notional) && Covers(quantity, stop, notional) && Covers(quantity, trusted, notional)
  }

  lemma HighestCovers(quantity: real, price: Option<real>, best: real)
    requires quantity > 0.0 && (Positive(price) ==> price.value <= best)
    ensures Covers(quantity, price, quantity * best)
  {
    if Positive(price) {
      MulMonotone(price.value, best, quantity);
    }
  }

  /** compute_notional: the worst case over the signed limit, the signed stop and the motor's own
      quote; None when none is usable, because an unknown exposure cannot be capped. */
  method ComputeNotional(quantity: real, limit: Option<real>, stop: Option<real>, trusted: Option<real>)
    returns (notional: Option<real>)
    requires quantity > 0.0
    ensures notional.None? <==> !Positive(limit) && !Positive(stop) && !Positive(trusted)
    ensures notional.Some? ==> WorstCase(quantity, limit, stop, trusted, notional.value)
  {
    var prices := [limit, stop, trusted];
    assert prices[0] in prices && prices[1] in prices && prices[2] in prices;
    var best := HighestUsable(prices);
    if best.None? {
      return None;
    }
    HighestCovers(quantity, limit, best.value);
    HighestCovers(quantity, stop, best.value);
    HighestCovers(quantity, trusted, best.value);
    MulNonNegative(quantity, best.value);
    return Some(quantity * best.value);
  }

  // ---------------------------------------------------------------- session ledger

  predicate CanReserve(reserved: real, cap: real, amount: real) {
    amount > 0.0 && reserved + amount <= cap
  }

  function AfterRelease(reserved: real, amount: real): real {
    Max(0.0, reserved - amount)
  }

  /** NotionalLedger. */
  class NotionalLedger {
    const cap: real
    var reserved: real

    ghost predicate Valid()
      reads this
    {
      0.0 <= reserved <= cap
    }

    constructor (cap: real)
      requires cap > 0.0
      ensures Valid() && this.cap == cap && reserved == 0.0
    {
      this.cap := cap;
      reserved := 0.0;
    }

    method TryReserve(amount: real) returns (ok: bool)
      requires Valid()
      modifies this
      ensures Valid() && ok == CanReserve(old(reserved), cap, amount)
      ensures reserved == if ok then old(reserved) + amount else old(reserved)
    {
      if amount <= 0.0 {
        return false;
      }
      if reserved + amount > cap {
        return false;
      }
      reserved := reserved + amount;
      return true;
    }

    method Release(amount: real)
      requires Valid() && amount >= 0.0
      modifies this
      ensures Valid() && reserved == AfterRelease(old(reserved), amount)
    {
      reserved := Max(0.0, reserved - amount);
    }
  }

  // ---------------------------------------------------------------- claim store

  /** The claim file. `durable` keys are on disk for good; `volatile` ones were written but never
      synced, so a crash may lose them. `spoiled` means a synced line that no loader accepts;
      `fragment` means unsynced residue of a failed write, which no loader accepts either. */
  datatype Disk = Disk(durable: set<string>, volatile: set<string>, spoiled: bool, fragment: bool)
  {
    /** Whatever happens from now on, a later process either reads `key` or refuses to start. */
    predicate Keeps(key: string) {
      key in durable || spoiled
    }
  }

  /** How the write, flush and sync of one claim end. A success also completes the residue of an
      earlier failure or is merged into it; a failure may leave some keys and a residue. */
  datatype Write = Synced(completes: bool, older: set<string>) | Failed(landed: set<string>, residue: bool)

  function Written(d: Disk, key: string, seen: set<string>, w: Write): Disk {
    match w
    case Synced(completes, older) =>
      if d.fragment && !completes
      then Disk(d.durable + d.volatile, {}, true, false)
      else Disk(d.durable + d.volatile + (older * seen) + {key}, {}, d.spoiled, false)
    case Failed(landed, residue) =>
      d.(volatile := d.volatile + landed * (seen + {key}), fragment := d.fragment || residue)
  }

  /** What a crash leaves: everything synced, and any part of what was not. */
  function Crashed(d: Disk, kept: set<string>, residue: bool): Disk {
    d.(volatile := d.volatile * kept, fragment := d.fragment && residue)
  }

  /** _load: refuses a file with any unreadable line, otherwise remembers every key. */
  function Load(d: Disk): Option<set<string>> {
    if d.spoiled || d.fragment then None else Some(d.durable + d.volatile)
  }

  datatype StateDir = StateDir(usable: bool, populated: bool, storeIsFile: bool)

  /** open_persistent_idempotency_store: None where it raises. */
  function OpenStore(dir: StateDir, d: Disk): Option<set<string>> {
    if !dir.usable then None
    else if dir.populated && !dir.storeIsFile then None
    else if !dir.storeIsFile then Some({})
    else Load(d)
  }

  /** A process starts exactly on a usable directory with a readable claim file, or with nothing in it at all, and
      then with exactly the keys in the file. */
  lemma OpenStoreIs(dir: StateDir, d: Disk)
    ensures OpenStore(dir, d).Some? <==>
      dir.usable && (if dir.storeIsFile then !d.spoiled && !d.fragment else !dir.populated)
    ensures OpenStore(dir, d).Some? ==>
      OpenStore(dir, d).value == if dir.storeIsFile then d.durable + d.volatile else {}
  {
  }

  /** No key gets into the file that was not claimed, and a crash adds none. */
  lemma NoKeyFromNowhere(d: Disk, seen: set<string>, key: string, w: Write, kept: set<string>, residue: bool)
    ensures var n := Written(d, key, seen, w); n.durable + n.volatile <= d.durable + d.volatile + seen + {key}
    ensures var n := Crashed(d, kept, residue);
      n.durable == d.durable && n.volatile <= d.volatile && n.spoiled == d.spoiled && (n.fragment ==> d.fragment)
  {
  }

  /** A synced claim on a file without residue leaves it readable with everything in it and the key; a failed one
      moves nothing that was synced. */
  lemma WriteIs(d: Disk, seen: set<string>, key: string, w: Write)
    ensures var n := Written(d, key, seen, w);
      && (w.Synced? && !d.fragment ==>
            !n.fragment && n.spoiled == d.spoiled && d.durable + d.volatile + {key} <= n.durable)
      && (w.Failed? ==> n.durable == d.durable && n.spoiled == d.spoiled && d.volatile <= n.volatile)
      && (w.Failed? ==> (n.fragment <==> d.fragment || w.residue))
  {
  }

  datatype ClaimResult = Claimed | Duplicate | StoreError

  function ClaimOutcome(seen: set<string>, key: string, w: Write): ClaimResult {
    if key in seen then Duplicate else if w.Failed? then StoreError else Claimed
  }

  /** FileIdempotencyStore: the in-memory set and the file behind it. */
  class FileIdempotencyStore {
    var seen: set<string>
    var disk: Disk

    constructor (seen: set<string>, disk: Disk)
      ensures this.seen == seen && this.disk == disk
    {
      this.seen := seen;
      this.disk := disk;
    }

    method Claim(key: string, w: Write) returns (r: ClaimResult)
      modifies this
      ensures r == ClaimOutcome(old(seen), key, w)
      ensures seen == old(seen) + {key}
      ensures disk == if r == Duplicate then old(disk) else Written(old(disk), key, old(seen), w)
    {
      if key in seen {
        assert seen == seen + {key};
        return Duplicate;
      }
      disk := Written(disk, key, seen, w);
      seen := seen + {key};
      if w.Failed? {
        return StoreError;
      }
      return Claimed;
    }
  }

  /** A claim that was granted stays granted: neither later writes, failed or not, nor crashes can
      make a later process forget the key and still start. */
  lemma GrantedClaimsAreKept(d: Disk, seen: set<string>, key: string, w: Write)
    ensures w.Synced? ==> Written(d, key, seen, w).Keeps(key)
    ensures forall k :: d.Keeps(k) ==> Written(d, key, seen, w).Keeps(k)
    ensures forall kept, residue, k :: d.Keeps(k) ==> Crashed(d, kept, residue).Keeps(k)
    ensures forall k :: d.Keeps(k) && Load(d).Some? ==> k in Load(d).value
  {
  }

  // ---------------------------------------------------------------- kill switch

  /** What the external halt source says when asked. */
  datatype Reading = NoSource | Normal | Elevated | Raises

  function ExternallyHalted(r: Reading): bool {
    r == Elevated || r == Raises
  }

  /** KillSwitch. The source is read outside the lock, the latch under it. */
  class KillSwitch {
    const latchExternal: bool
    var halted: bool
    var reason: string

    constructor (startHalted: bool, latchExternal: bool)
      ensures halted == startHalted && this.latchExternal == latchExternal
    {
      this.latchExternal := latchExternal;
      halted := startHalted;
      reason := if startHalted then "initial state: halted until explicit resume" else "";
    }

    method Halt(why: string)
      modifies this
      ensures halted && reason == why
    {
      halted, reason := true, why;
    }

    method ExternalHalted(r: Reading) returns (stop: bool)
      modifies this
      ensures stop == ExternallyHalted(r)
      ensures halted == (old(halted) || (stop && latchExternal))
    {
      if r == NoSource {
        return false;
      }
      if r == Raises {
        if latchExternal {
          Halt("signal source error");
        }
        return true;
      }
      if r == Elevated && latchExternal {
        Halt("external halt signal");
      }
      return r == Elevated;
    }

    method IsHalted(r: Reading) returns (stop: bool)
      modifies this
      ensures stop == (ExternallyHalted(r) || old(halted))
      ensures halted == (old(halted) || (ExternallyHalted(r) && latchExternal))
    {
      var external := ExternalHalted(r);
      if external {
        return true;
      }
      return halted;
    }

    /** Clears the latch only for a named operator and while the source is quiet. */
    method Resume(operatorBlank: bool, r: Reading)
      modifies this
      ensures halted == if operatorBlank then old(halted)
                        else if ExternallyHalted(r) then old(halted) || latchExternal
                        else false
    {
      if operatorBlank {
        return;
      }
      var external := ExternalHalted(r);
      if external {
        return;
      }
      halted, reason := false, "";
    }
  }
}
