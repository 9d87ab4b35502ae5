/** The critical sections of the host registries: first as functions on the maps,
    which the protocol steps use, then as methods of the object that owns the maps. */
module CodexRegistry {
  import opened CodexTypes

  // ---------- pending operations ----------

  function BeginPending(pending: PendingMap, counter: nat, op: Token, session: nat): Result<PendingMap> {
    if op in pending then Err(OperationInUse)
    else Ok(pending[op := Pending(counter, session, false)])
  }

  /** Whether the finished operation had been cancelled; `Ok` means its entry may go. */
  function FinishPending(active: ActiveMap, pending: PendingMap, op: Token, generation: nat): Result<bool> {
    if op !in pending then Err(PendingLost)
    else if pending[op].generation != generation then Err(PendingGenerationMismatch)
    else if op in active && active[op].generation == generation then Err(ActiveRetained)
    else Ok(pending[op].cancelled)
  }

  predicate TakeCancelled(pending: PendingMap, op: Token) {
    op in pending && pending[op].cancelled
  }

  // ---------- spawn reservation ----------

  function Reserve(active: ActiveMap, pending: PendingMap, op: Token, session: nat, generation: nat): Result<()> {
    if op !in pending then Err(PendingLost)
    else if pending[op].session != session then Err(PendingSessionMismatch)
    else if pending[op].generation != generation then Err(PendingGenerationMismatch)
    else if pending[op].cancelled || op in active then Err(CancelledOrInUse)
    else Ok(())
  }

  function Register(active: ActiveMap, pending: PendingMap, op: Token, child: ActiveChild): Result<ActiveMap> {
    if op !in pending then Err(PendingLost)
    else if pending[op].session != child.session || pending[op].generation != child.generation then
      Err(PendingGenerationMismatch)
    else if pending[op].cancelled then Err(Cancelled)
    else if op in active then Err(ActiveTaken)
    else Ok(active[op := child])
  }

  /** On success the caller also empties the child handle. */
  function Unregister(active: ActiveMap, pending: PendingMap, op: Token, run: RunId): Result<ActiveMap> {
    if op in active then
      if active[op].run != run then Err(HandleMismatch)
      else if op !in pending then Err(PendingLost)
      else if pending[op].generation != active[op].generation then Err(PendingGenerationMismatch)
      else Ok(active - {op})
    else if !TakeCancelled(pending, op) then Err(RegistrationLost)
    else Ok(active)
  }

  // ---------- cancellation ----------

  /** The pending side of a cancel that found an active child. */
  function FlagActive(active: ActiveMap, pending: PendingMap, op: Token, session: nat): Result<PendingMap>
    requires op in active
  {
    if op !in pending then Err(PendingLost)
    else if pending[op].session != session then Err(PendingSessionMismatch)
    else if pending[op].generation != active[op].generation then Err(PendingGenerationMismatch)
    else Ok(pending[op := pending[op].(cancelled := true)])
  }

  function CancelLease(prepared: LeaseMap, op: Token, session: nat): LeaseMap {
    if op in prepared && prepared[op].session == session then prepared - {op} else prepared
  }

  function FlagPending(pending: PendingMap, op: Token, session: nat): PendingMap {
    if op in pending && pending[op].session == session then
      pending[op := pending[op].(cancelled := true)]
    else pending
  }

  // ---------- prepared leases ----------

  /** `expired` are the leases whose lifetime is over at this moment. */
  function PruneLeases(prepared: LeaseMap, expired: set<Token>): LeaseMap {
    prepared - expired
  }

  function InsertLease(prepared: LeaseMap, token: Token, session: nat): Result<LeaseMap> {
    if |prepared| >= PREPARED_LEASE_CAP then Err(LeaseLimit)
    else Ok(prepared[token := Lease(session, false)])
  }

  lemma Fewer(prepared: LeaseMap, gone: set<Token>)
    ensures |prepared - gone| <= |prepared|
  {
    assert (prepared - gone).Keys == prepared.Keys - gone;
    assert |(prepared - gone).Keys| == |prepared - gone| && |prepared.Keys| == |prepared|;
  }

  // ---------- session teardown ----------

  predicate Unresolved(pending: PendingMap) {
    exists op :: op in pending && !pending[op].cancelled
  }

  function RetainUncancelled(pending: PendingMap): PendingMap {
    map op | op in pending && !pending[op].cancelled :: pending[op]
  }

  // ---------- recovery slots of runs without a token ----------

  function ReserveSlot(slots: SlotMap, key: nat): Result<SlotMap> {
    if |slots| >= UNSCOPED_RECOVERY_CAP then Err(SlotLimit)
    else Ok(slots[key := Reserved])
  }

  function RetainSlot(slots: SlotMap, key: nat, run: RunId): Result<SlotMap> {
    if key !in slots then Err(SlotLost)
    else if slots[key].Retained? then Ok(slots)
    else Ok(slots[key := Retained(run)])
  }

  function ReleaseSlot(slots: SlotMap, key: nat): Result<SlotMap> {
    if key !in slots then Err(SlotLost) else Ok(slots - {key})
  }

  function StartRetry(slots: SlotMap): SlotMap {
    map key | key in slots :: if slots[key].Retained? then Retrying else slots[key]
  }

  /** `cands` lists every retained owner once, in some order. */
  ghost predicate RetryCandidates(slots: SlotMap, cands: seq<(nat, RunId)>) {
    && (forall i :: 0 <= i < |cands| ==> cands[i].0 in slots && slots[cands[i].0] == Retained(cands[i].1))
    && (forall key :: key in slots && slots[key].Retained? ==>
          exists i :: 0 <= i < |cands| && cands[i].0 == key)
    && (forall i, j :: 0 <= i < j < |cands| ==> cands[i].0 != cands[j].0)
  }

  // ---------- laws of the critical sections ----------

  /** A child registered under a held reservation is always accepted: nobody else can
      change either map before the reservation is dropped. */
  lemma ReservationAdmitsRegistration(active: ActiveMap, pending: PendingMap, op: Token, child: ActiveChild)
    ensures Reserve(active, pending, op, child.session, child.generation).Ok?
       <==> Register(active, pending, op, child).Ok?
  {
  }

  /** A registered child fences its pending entry until it is unregistered, and
      unregistering undoes the registration exactly. */
  lemma RegistrationFencesFinish(active: ActiveMap, pending: PendingMap, op: Token, child: ActiveChild)
    requires Register(active, pending, op, child).Ok?
    ensures var registered := Register(active, pending, op, child).value;
      && FinishPending(registered, pending, op, child.generation) == Err(ActiveRetained)
      && Reserve(registered, pending, op, child.session, child.generation).Err?
      && Unregister(registered, pending, op, child.run) == Ok(active)
  {
    var registered := Register(active, pending, op, child).value;
    assert registered - {op} == active;
  }

  // ---------- interference ----------

  /** What becomes of the pending operations while others go on: flags are only set, and
      what is new has a number drawn later. */
  ghost predicate PendingGoesOn(a: PendingMap, b: PendingMap, counter: nat) {
    forall op :: op in b ==>
      || b[op].generation >= counter
      || (&& op in a && b[op].generation == a[op].generation && b[op].session == a[op].session
          && (a[op].cancelled ==> b[op].cancelled))
  }

  ghost predicate LeasesGoOn(a: LeaseMap, b: LeaseMap, counter: nat) {
    forall op :: op in b ==> op >= counter || (op in a && b[op].session == a[op].session)
  }

  lemma PendingWeaken(a: PendingMap, b: PendingMap, counter: nat, later: nat)
    requires PendingGoesOn(a, b, later) && counter <= later
    ensures PendingGoesOn(a, b, counter)
  {
  }

  lemma LeasesCompose(a: LeaseMap, b: LeaseMap, c: LeaseMap, counter: nat, later: nat)
    requires LeasesGoOn(a, b, counter) && LeasesGoOn(b, c, later) && counter <= later
    ensures LeasesGoOn(a, c, counter)
  {
  }

  // ---------- the registries as one mutable object ----------

  /** The static maps and counters of the host process. Each method is one critical
      section; `run` stands for the shared handle and cleanup context of a child, and
      `handles` has the runs whose handle still holds the child. */
  class CodexRegistries {
    var active: ActiveMap
    var pending: PendingMap
    var prepared: LeaseMap
    var recoveries: SlotMap
    var handles: set<RunId>
    var operationGeneration: nat
    var recoveryCounter: nat

    /** No two pending operations share a generation, numbers are drawn before they are
        used, and the bounded registries keep their bounds. */
    ghost predicate Valid()
      reads this
    {
      && (forall op :: op in pending ==> pending[op].generation < operationGeneration)
      && (forall a, b :: a in pending && b in pending && a != b ==> pending[a].generation != pending[b].generation)
      && (forall op :: op in prepared ==> op < operationGeneration)
      && |prepared| <= PREPARED_LEASE_CAP && |recoveries| <= UNSCOPED_RECOVERY_CAP
    }

    constructor ()
      ensures Valid() && active == map[] && pending == map[] && prepared == map[]
      ensures recoveries == map[] && handles == {}
      ensures operationGeneration == 0 && recoveryCounter == 0
    {
      active, pending, prepared, recoveries, handles := map[], map[], map[], map[], {};
      operationGeneration, recoveryCounter := 0, 0;
    }

    method BeginPendingOperation(op: Token, session: nat) returns (r: Result<nat>)
      requires Valid()
      modifies this`pending, this`operationGeneration
      ensures Valid() && (r.Ok? <==> op !in old(pending))
      ensures r.Ok? ==> forall o :: o in old(pending) ==> old(pending)[o].generation != r.value
      ensures match BeginPending(old(pending), old(operationGeneration), op, session)
        case Ok(after) =>
          && r == Ok(old(operationGeneration))
          && pending == after && operationGeneration == old(operationGeneration) + 1
        case Err(fault) =>
          && r == Err(fault)
          && pending == old(pending) && operationGeneration == old(operationGeneration)
    {
      if op in pending {
        return Err(OperationInUse);
      }
      var generation := operationGeneration;
      operationGeneration := operationGeneration + 1;
      pending := pending[op := Pending(generation, session, false)];
      return Ok(generation);
    }

    method FinishPendingOperation(op: Token, generation: nat) returns (r: Result<bool>)
      requires Valid()
      modifies this`pending
      ensures Valid() && (r.Ok? ==> forall o :: o in pending ==> pending[o].generation != generation)
      ensures r.Ok? <==>
        && op in old(pending) && old(pending)[op].generation == generation
        && !(op in active && active[op].generation == generation)
      ensures r == FinishPending(active, old(pending), op, generation)
      ensures pending == if r.Ok? then old(pending) - {op} else old(pending)
    {
      if op !in pending {
        return Err(PendingLost);
      }
      var entry := pending[op];
      if entry.generation != generation {
        return Err(PendingGenerationMismatch);
      }
      if op in active && active[op].generation == generation {
        return Err(ActiveRetained);
      }
      pending := pending - {op};
      return Ok(entry.cancelled);
    }

    /** Reservation, spawn and registration under the two held locks. `spawned` says
        whether the operating system started the child. */
    method ReserveAndSpawn(op: Token, session: nat, generation: nat, spawned: bool, run: RunId)
      returns (reserved: Result<()>, registered: bool)
      requires Valid()
      modifies this`active, this`handles
      ensures Valid() && handles == if registered then old(handles) + {run} else old(handles)
      ensures reserved == Reserve(old(active), pending, op, session, generation)
      ensures registered <==> reserved.Ok? && spawned
      ensures active == if registered then old(active)[op := ActiveChild(session, generation, run)] else old(active)
    {
      registered := false;
      if op !in pending {
        return Err(PendingLost), false;
      }
      var entry := pending[op];
      if entry.session != session {
        return Err(PendingSessionMismatch), false;
      }
      if entry.generation != generation {
        return Err(PendingGenerationMismatch), false;
      }
      if entry.cancelled || op in active {
        return Err(CancelledOrInUse), false;
      }
      reserved := Ok(());
      if spawned {
        var result := RegisterChild(op, ActiveChild(session, generation, run));
        registered := result.Ok?;
        handles := handles + {run};
      }
    }

    method RegisterChild(op: Token, child: ActiveChild) returns (r: Result<()>)
      requires Valid()
      modifies this`active
      ensures Valid() && (r.Ok? <==> Reserve(old(active), pending, op, child.session, child.generation).Ok?)
      ensures match Register(old(active), pending, op, child)
        case Ok(after) => r == Ok(()) && active == after
        case Err(fault) => r == Err(fault) && active == old(active)
    {
      if op !in pending {
        return Err(PendingLost);
      }
      var entry := pending[op];
      if entry.session != child.session || entry.generation != child.generation {
        return Err(PendingGenerationMismatch);
      }
      if entry.cancelled {
        return Err(Cancelled);
      }
      if op in active {
        return Err(ActiveTaken);
      }
      active := active[op := child];
      return Ok(());
    }

    method UnregisterChild(op: Token, run: RunId) returns (r: Result<()>)
      requires Valid()
      modifies this`active, this`handles
      ensures Valid() && (r.Ok? ==> op !in active && op in pending)
      ensures match Unregister(old(active), pending, op, run)
        case Ok(after) => r == Ok(()) && active == after && handles == old(handles) - {run}
        case Err(fault) => r == Err(fault) && active == old(active) && handles == old(handles)
    {
      if op !in active {
        if op !in pending || !pending[op].cancelled {
          return Err(RegistrationLost);
        }
        handles := handles - {run};
        return Ok(());
      }
      var current := active[op];
      if current.run != run {
        return Err(HandleMismatch);
      }
      if op !in pending {
        return Err(PendingLost);
      }
      if pending[op].generation != current.generation {
        return Err(PendingGenerationMismatch);
      }
      active := active - {op};
      handles := handles - {run};
      return Ok(());
    }

    /** The first part of a cancel that finds a child of its session. */
    method FlagActiveChild(op: Token, session: nat) returns (r: Result<()>)
      requires Valid() && op in active && active[op].session == session
      modifies this`pending
      ensures Valid()
      ensures match FlagActive(active, old(pending), op, session)
        case Ok(after) => r == Ok(()) && pending == after
        case Err(fault) => r == Err(fault) && pending == old(pending)
    {
      if op !in pending {
        return Err(PendingLost);
      }
      var entry := pending[op];
      if entry.session != session {
        return Err(PendingSessionMismatch);
      }
      if entry.generation != active[op].generation {
        return Err(PendingGenerationMismatch);
      }
      pending := pending[op := entry.(cancelled := true)];
      return Ok(());
    }

    /** A cancel that finds no child: first the lease, */
    method WithdrawLease(op: Token, session: nat)
      requires Valid()
      modifies this`prepared
      ensures Valid() && prepared == CancelLease(old(prepared), op, session)
    {
      if op in prepared && prepared[op].session == session {
        Fewer(prepared, {op});
        prepared := prepared - {op};
      }
    }

    /** then the pending operation. */
    method FlagEntry(op: Token, session: nat)
      requires Valid()
      modifies this`pending
      ensures Valid() && pending == FlagPending(old(pending), op, session)
    {
      if op in pending && pending[op].session == session {
        pending := pending[op := pending[op].(cancelled := true)];
      }
    }

    /** Critical sections of other commands while this one holds the active registry.
        Callers see only the contract. */
    method OtherSections()
      requires Valid()
      modifies this`pending, this`prepared, this`handles, this`operationGeneration
      ensures Valid() && old(operationGeneration) <= operationGeneration
      ensures PendingGoesOn(old(pending), pending, old(operationGeneration))
      ensures LeasesGoOn(old(prepared), prepared, old(operationGeneration))
      ensures forall o :: o in active ==> (active[o].run in handles <==> active[o].run in old(handles))
    {
    }

    /** A cancel, with other commands at work wherever the source lets them. `killed` says
        whether the child was seen to die, `cleaned` whether both readers ended without
        error and the artifact is gone; `found` is the pending registry that this cancel
        sees. Success means that the session has no child of the token any more; after
        any error the child stays registered. */
    method WorkerCancel(op: Token, session: nat, killed: bool, cleaned: bool)
      returns (r: Result<()>, ghost found: PendingMap)
      requires Valid()
      modifies this`active, this`pending, this`prepared, this`handles, this`operationGeneration
      ensures Valid() && active - {op} == old(active) - {op}
      ensures PendingGoesOn(old(pending), found, old(operationGeneration))
      ensures LeasesGoOn(old(prepared), prepared, old(operationGeneration))
      ensures r.Ok? ==> op !in active || (active == old(active) && active[op].session != session)
      ensures r.Err? ==> active == old(active) && op in active && active[op].session == session
      ensures op in old(active) && old(active)[op].session == session ==>
        match FlagActive(old(active), found, op, session)
        case Ok(after) =>
          && PendingGoesOn(after, pending, old(operationGeneration))
          && (r == Err(TerminationFailed) <==> !killed && old(active)[op].run in old(handles))
          && (r == Ok(()) <==> (killed || old(active)[op].run !in old(handles)) && cleaned)
        case Err(fault) => r == Err(fault) && pending == found
      ensures op in old(active) && old(active)[op].session != session ==>
        r == Ok(()) && active == old(active) && pending == old(pending) && prepared == old(prepared)
      ensures op !in old(active) ==>
        && r == Ok(()) && pending == FlagPending(found, op, session)
        && (op < old(operationGeneration) && op in prepared ==> prepared[op].session != session)
    {
      found := pending;
      if op !in active {
        WithdrawLease(op, session);
        label withdrawn: assert op in prepared ==> prepared[op].session != session;
        OtherSections();
        found := pending;
        LeasesCompose(
          old(prepared), old@withdrawn(prepared), prepared, old(operationGeneration),
          old@withdrawn(operationGeneration));
        FlagEntry(op, session);
        return Ok(()), found;
      }
      var entry := active[op];
      if entry.session != session {
        return Ok(()), found;
      }
      OtherSections();
      found := pending;
      r := FlagActiveChild(op, session);
      if r.Err? {
        return r, found;
      }
      label flagged: assert Valid();
      OtherSections();
      PendingWeaken(old@flagged(pending), pending, old(operationGeneration), old@flagged(operationGeneration));
      LeasesCompose(
        old(prepared), old@flagged(prepared), prepared, old(operationGeneration), old@flagged(operationGeneration));
      if entry.run in handles && !killed {
        return Err(TerminationFailed), found;
      }
      if !cleaned {
        return Err(CleanupFailed), found;
      }
      active := active - {op};
    }

    /** The token is drawn before the lease registry is consulted, so a refused
        preparation still uses up its number. */
    method PrepareLease(session: nat, expired: set<Token>) returns (r: Result<Token>)
      requires Valid()
      modifies this`prepared, this`operationGeneration
      ensures Valid() && (r.Ok? ==> r.value !in old(prepared) && r.value in prepared)
      ensures operationGeneration == old(operationGeneration) + 1
      ensures match InsertLease(PruneLeases(old(prepared), expired), old(operationGeneration), session)
        case Ok(after) => r == Ok(old(operationGeneration)) && prepared == after
        case Err(fault) => r == Err(fault) && prepared == PruneLeases(old(prepared), expired)
    {
      var token := operationGeneration;
      operationGeneration := operationGeneration + 1;
      Fewer(prepared, expired);
      prepared := prepared - expired;
      if |prepared| >= PREPARED_LEASE_CAP {
        return Err(LeaseLimit);
      }
      assert prepared[token := Lease(session, false)].Keys == prepared.Keys + {token};
      prepared := prepared[token := Lease(session, false)];
      return Ok(token);
    }

    /** Draws keys until one is unused. The key is new, every key drawn before it was in
        use, and no number is drawn when the registry is full. */
    method ReserveRecoverySlot() returns (r: Result<nat>)
      requires Valid()
      modifies this`recoveries, this`recoveryCounter
      ensures Valid()
      ensures |old(recoveries)| >= UNSCOPED_RECOVERY_CAP ==>
        r == Err(SlotLimit) && recoveries == old(recoveries) && recoveryCounter == old(recoveryCounter)
      ensures |old(recoveries)| < UNSCOPED_RECOVERY_CAP ==>
        && r.Ok? && r.value !in old(recoveries)
        && ReserveSlot(old(recoveries), r.value) == Ok(recoveries)
        && recoveryCounter == r.value + 1 > old(recoveryCounter)
        && forall key :: old(recoveryCounter) <= key < r.value ==> key in old(recoveries)
    {
      if |recoveries| >= UNSCOPED_RECOVERY_CAP {
        return Err(SlotLimit);
      }
      var key := recoveryCounter;
      recoveryCounter := recoveryCounter + 1;
      ghost var unused := recoveries.Keys;
      while key in recoveries
        invariant recoveries == old(recoveries)
        invariant old(recoveryCounter) <= key && recoveryCounter == key + 1
        invariant forall k :: old(recoveryCounter) <= k < key ==> k in recoveries
        invariant unused == set k | k in recoveries && !(old(recoveryCounter) <= k < key)
        decreases unused
      {
        unused := unused - {key};
        key := recoveryCounter;
        recoveryCounter := recoveryCounter + 1;
      }
      recoveries := recoveries[key := Reserved];
      return Ok(key);
    }

    method RetainRecovery(slot: nat, run: RunId) returns (r: Result<()>)
      requires Valid()
      modifies this`recoveries
      ensures Valid() && (r.Ok? <==> slot in old(recoveries)) && recoveries.Keys == old(recoveries).Keys
      ensures match RetainSlot(old(recoveries), slot, run)
        case Ok(after) => r == Ok(()) && recoveries == after
        case Err(fault) => r == Err(fault) && recoveries == old(recoveries)
    {
      if slot !in recoveries {
        return Err(SlotLost);
      }
      if !recoveries[slot].Retained? {
        recoveries := recoveries[slot := Retained(run)];
      }
      return Ok(());
    }

    method ReleaseRecoverySlot(slot: nat) returns (r: Result<()>)
      requires Valid()
      modifies this`recoveries
      ensures Valid() && slot !in recoveries && (r.Ok? <==> slot in old(recoveries))
      ensures match ReleaseSlot(old(recoveries), slot)
        case Ok(after) => r == Ok(()) && recoveries == after
        case Err(fault) => r == Err(fault) && recoveries == old(recoveries)
    {
      if slot !in recoveries {
        return Err(SlotLost);
      }
      recoveries := recoveries - {slot};
      return Ok(());
    }

    /** Marks every retained owner as being retried and hands the owners to the caller. */
    method CollectRetained() returns (cands: seq<(nat, RunId)>)
      requires Valid()
      modifies this`recoveries
      ensures Valid() && RetryCandidates(old(recoveries), cands)
      ensures recoveries == StartRetry(old(recoveries))
    {
      cands := [];
      var keys := set key | key in recoveries && recoveries[key].Retained?;
      ghost var all := keys;
      while keys != {}
        invariant keys <= all
        invariant recoveries.Keys == old(recoveries).Keys
        invariant all == set key | key in old(recoveries) && old(recoveries)[key].Retained?
        invariant forall key :: key in old(recoveries) ==>
          recoveries[key] == if key in all - keys then Retrying else old(recoveries)[key]
        invariant forall i :: 0 <= i < |cands| ==>
          && cands[i].0 in all - keys
          && old(recoveries)[cands[i].0] == Retained(cands[i].1)
        invariant forall key :: key in all - keys ==> exists i :: 0 <= i < |cands| && cands[i].0 == key
        invariant forall i, j :: 0 <= i < j < |cands| ==> cands[i].0 != cands[j].0
        decreases keys
      {
        var key :| key in keys;
        ghost var before := cands;
        cands := cands + [(key, recoveries[key].run)];
        assert forall i :: 0 <= i < |before| ==> cands[i] == before[i];
        assert cands[|before|].0 == key;
        recoveries := recoveries[key := Retrying];
        keys := keys - {key};
      }
    }

    /** The last sections of a teardown: an active entry or an uncancelled operation is
        an error, flagged operations are dropped even if there was one, and the leases go
        only when nothing failed. */
    method FinishTeardown(failed: bool) returns (ok: bool)
      requires Valid()
      modifies this`pending, this`prepared
      ensures Valid()
      ensures ok <==> !failed && active == map[] && !Unresolved(old(pending))
      ensures pending == if Unresolved(old(pending)) then old(pending) else map[]
      ensures prepared == if ok then map[] else old(prepared)
    {
      ok := !failed && active.Keys == {};
      var unresolved := exists op :: op in pending && !pending[op].cancelled;
      if unresolved {
        ok := false;
      } else {
        pending := RetainUncancelled(pending);
      }
      if ok {
        prepared := map[];
      }
    }
  }
}
