/** What one critical section can do to the history, to the other threads and to the
    runs, whichever command it belongs to. */
module CodexEffects {
  import opened Options
  import opened CodexTypes
  import opened CodexRegistry
  import opened CodexProtocol
  import opened CodexInvariant
  import opened CodexFrames
  import opened CodexMoves
  import opened CodexJoinSteps
  import opened CodexCommandSteps

  /** A result is recorded only by a finish that finds its own operation uncancelled. */
  predicate Finishes(s: System, th: Thread, op: Token) {
    && AtMain(th) && th.main.ExFinish? && th.op == op && th.res
    && FinishPending(s.reg.active, s.reg.pending, op, th.generation) == Ok(false)
  }

  predicate Spawns(th: Thread, run: Run) {
    && AtMain(th)
    && ((th.main.ExSpawn? && run == Spawned(Some(th.op), 0)) || (th.main.UxSpawn? && run == Spawned(None, th.slot)))
  }

  predicate Mints(th: Thread, op: Token) {
    AtMain(th) && th.main.PrepInsert? && th.op == op
  }

  /** A cancel ends with its token fenced. */
  predicate FenceSet(th: Thread, s': System, t: nat) {
    && (t in s'.threads ==>
          s'.threads[t].cancel.pc.KNone? && !th.cancel.pc.KNone? && th.cancel.armed ==> th.cancel.op in s'.past.fenced)
    && (t !in s'.threads ==> th.cancel.pc.KNone?)
  }

  /** The points from which a cancel can return without an error. */
  predicate Confirms(s: System, k: CancelFrame) {
    || k.pc.KDrop? || k.pc.KPend?
    || (k.pc.KLook? && k.op in s.reg.active && s.reg.active[k.op].session != k.session)
  }

  /** An outside cancel stays what it is until it returns. */
  predicate Cancelling(s: System, th: Thread, s': System, t: nat) {
    th.main.CancelOnly? && t in s'.threads ==>
      && !th.cancel.pc.KNone?
      && s'.threads[t].main.CancelOnly? && s'.threads[t].cancel.op == th.cancel.op
      && s'.threads[t].cancel.session == th.cancel.session && s'.threads[t].cancel.armed == th.cancel.armed
      && (s'.threads[t].cancel.pc.KNone? && s'.threads[t].cancel.ok ==> Confirms(s, th.cancel))
  }

  /** The part of an effect that does not concern the threads. */
  ghost predicate Deed(s: System, th: Thread, s': System) {
    && MintedGrows(s.past, s'.past)
    && s.past.fenced <= s'.past.fenced && s.past.completed <= s'.past.completed
    && (forall op :: op in s'.past.minted && op !in s.past.minted ==> Mints(th, op))
    && (forall op :: op in s'.past.completed && op !in s.past.completed ==> Finishes(s, th, op))
    && (s'.count.session != s.count.session ==>
          AtMain(th) && th.main.TdBump? && s'.count.session == NextSession(s.count.session)
          && s'.reg == s.reg && s'.runs == s.runs)
    && (s'.past.dropped != s.past.dropped ==>
          AtMain(th) && th.main.TdPend? && Dropping(s.reg.active, s.reg.pending))
    && (|s'.runs| == |s.runs| || (exists run :: Spawns(th, run) && s'.runs == s.runs + [run]))
    && (|s'.reg.prepared| <= |s.reg.prepared| || |s'.reg.prepared| <= PREPARED_LEASE_CAP)
  }

  ghost predicate Effect(s: System, t: nat, th: Thread, s': System) {
    && s'.threads - {t} == s.threads - {t} && s'.nextThread == s.nextThread
    && Deed(s, th, s') && FenceSet(th, s', t) && Cancelling(s, th, s', t)
  }

  lemma EffectThreads(s: System, t: nat, th: Thread, s': System)
    requires Effect(s, t, th, s')
    ensures s'.threads - {t} == s.threads - {t} && s'.nextThread == s.nextThread
  {
    hide Deed, FenceSet, Cancelling;
  }

  lemma DeedSame(s: System, th: Thread, s1: System, s2: System)
    requires Deed(s, th, s1) && s2.reg == s1.reg && s2.runs == s1.runs && s2.count == s1.count && s2.past == s1.past
    ensures Deed(s, th, s2)
  {
    hide Mints, Finishes, Spawns;
  }

  predicate SameShell(s: System, s1: System) {
    s1.threads == s.threads && s1.nextThread == s.nextThread
  }

  /** A command that returns after `s1`, or goes on from there. */
  lemma DeedEffect(s: System, t: nat, th: Thread, s1: System, th': Thread)
    requires t in s.threads && Deed(s, th, s1) && SameShell(s, s1)
    requires th.cancel.pc.KNone? && !th.main.CancelOnly?
    ensures Effect(s, t, th, End(s1, t)) && Effect(s, t, th, Put(s1, t, th'))
  {
    hide Deed;
    DeedSame(s, th, s1, End(s1, t));
    DeedSame(s, th, s1, Put(s1, t, th'));
    assert End(s1, t).threads - {t} == s.threads - {t};
    assert Put(s1, t, th').threads - {t} == s.threads - {t};
  }

  /** `s1` is `s` up to one run, the registries and the counters other than the session. */
  predicate Near(s: System, s1: System) {
    && s1.threads == s.threads && s1.nextThread == s.nextThread && s1.past == s.past
    && s1.count.session == s.count.session && |s1.runs| == |s.runs| && |s1.reg.prepared| <= |s.reg.prepared|
  }

  lemma PutEffect(s: System, t: nat, th: Thread, s1: System, th': Thread)
    requires t in s.threads && Near(s, s1)
    requires FenceSet(th, Put(s1, t, th'), t) && Cancelling(s, th, Put(s1, t, th'), t)
    ensures Effect(s, t, th, Put(s1, t, th'))
  {
    hide FenceSet, Cancelling, Mints, Finishes, Spawns;
    assert Put(s1, t, th').threads - {t} == s.threads - {t};
  }

  lemma EndEffect(s: System, t: nat, th: Thread, s1: System)
    requires t in s.threads && Near(s, s1) && th.cancel.pc.KNone?
    ensures Effect(s, t, th, End(s1, t))
  {
    hide Mints, Finishes, Spawns;
    assert End(s1, t).threads - {t} == s.threads - {t};
  }

  /** Steps in the middle or at the end of a command other than a cancel. */
  lemma PlainEffects(s: System, t: nat, th: Thread)
    requires t in s.threads && !th.main.CancelOnly? && th.cancel.pc.KNone?
    ensures forall s1, th' :: Near(s, s1) ==> Effect(s, t, th, Put(s1, t, th'))
    ensures forall s1 :: Near(s, s1) ==> Effect(s, t, th, End(s1, t))
  {
    hide Effect, Near;
    forall s1, th' | Near(s, s1) ensures Effect(s, t, th, Put(s1, t, th')) {
      PutEffect(s, t, th, s1, th');
    }
    forall s1 | Near(s, s1) ensures Effect(s, t, th, End(s1, t)) {
      EndEffect(s, t, th, s1);
    }
  }

  /** Updates that keep a state near. */
  lemma NearBy(s: System)
    ensures Near(s, s)
    ensures forall s1 :: Near(s, s1) ==> Near(s, DrawOperation(s1))
    ensures forall s1, r, run :: Near(s, s1) ==> Near(s, SetRun(s1, r, run))
    ensures forall s1, active :: Near(s, s1) ==> Near(s, SetActive(s1, active))
    ensures forall s1, pending :: Near(s, s1) ==> Near(s, SetPending(s1, pending))
    ensures forall s1, slots :: Near(s, s1) ==> Near(s, SetSlots(s1, slots))
  {
  }

  lemma CleanEffect(s: System, t: nat, th: Thread, c: Choice)
    requires t in s.threads && !th.main.CancelOnly? && th.cancel.pc.KNone?
    ensures Effect(s, t, th, CleanStep(s, t, th, c))
  {
    hide Effect, Near, Put, End, SetRun, SetSlots, SetActive, StartJoin, AtClean, CleanJoined, Terminate, RunAt,
      Unregister, ReleaseSlot, RetainSlot;
    NearBy(s);
    PlainEffects(s, t, th);
  }

  lemma JoinEffect(s: System, t: nat, th: Thread, c: Choice)
    requires t in s.threads && (th.main.CancelOnly? ==> !th.cancel.pc.KNone?)
    ensures Effect(s, t, th, JoinStep(s, t, th, JoinRun(th), c))
  {
    hide Effect, Near, Put, SetRun, RunAt, JoinRun;
    NearBy(s);
    forall s1, th': Thread | Near(s, s1) && th'.main == th.main && th'.cancel == th.cancel
      ensures Effect(s, t, th, Put(s1, t, th'))
    {
      assert Put(s1, t, th').threads[t] == th' by { PutHere(s1, t, th'); }
      PutEffect(s, t, th, s1, th');
    }
  }

  lemma PutHere(s: System, t: nat, th: Thread)
    ensures t in Put(s, t, th).threads && Put(s, t, th).threads[t] == th
  {
  }

  // ---------- cancels ----------

  predicate SameCall(th: Thread, th': Thread) {
    && th'.main == th.main && th'.cancel.op == th.cancel.op && th'.cancel.session == th.cancel.session
    && th'.cancel.armed == th.cancel.armed && !th'.cancel.pc.KNone?
  }

  lemma ReturnEffect(s: System, t: nat, th: Thread, s1: System, ok: bool)
    requires t in s.threads && Near(s, s1) && !th.cancel.pc.KNone? && (ok ==> Confirms(s, th.cancel))
    ensures Effect(s, t, th, CancelReturn(s1, t, th, ok))
  {
    hide Mints, Finishes, Spawns;
    assert CancelReturn(s1, t, th, ok).threads - {t} == s.threads - {t};
  }

  lemma OnwardEffect(s: System, t: nat, th: Thread, s1: System, th': Thread)
    requires t in s.threads && Near(s, s1) && !th.cancel.pc.KNone? && SameCall(th, th')
    ensures Effect(s, t, th, Put(s1, t, th'))
  {
    hide Effect, Near, Put;
    PutHere(s1, t, th');
    PutEffect(s, t, th, s1, th');
  }

  lemma CancelEffects(s: System, t: nat, th: Thread)
    requires t in s.threads && !th.cancel.pc.KNone?
    ensures forall s1, th' :: Near(s, s1) && SameCall(th, th') ==> Effect(s, t, th, Put(s1, t, th'))
    ensures forall s1, ok :: Near(s, s1) && (ok ==> Confirms(s, th.cancel)) ==>
      Effect(s, t, th, CancelReturn(s1, t, th, ok))
  {
    hide Effect, Near, SameCall;
    forall s1, th' | Near(s, s1) && SameCall(th, th') ensures Effect(s, t, th, Put(s1, t, th')) {
      OnwardEffect(s, t, th, s1, th');
    }
    forall s1, ok | Near(s, s1) && (ok ==> Confirms(s, th.cancel))
      ensures Effect(s, t, th, CancelReturn(s1, t, th, ok))
    {
      ReturnEffect(s, t, th, s1, ok);
    }
  }

  lemma LeaseNear(s: System, op: Token, session: nat)
    ensures Near(s, SetPrepared(s, CancelLease(s.reg.prepared, op, session)))
  {
    var prepared := s.reg.prepared;
    assert (prepared - {op}).Keys <= prepared.Keys;
    Fewer(prepared, {op});
  }

  lemma SameCallBy(th: Thread)
    ensures forall pc: CancelPc :: !pc.KNone? ==> SameCall(th, AtCancel(th, pc))
    ensures forall pc: CancelPc :: !pc.KNone? ==> SameCall(th, CancelJoined(th, pc))
    ensures forall th', out :: SameCall(th, th') ==> SameCall(th, StartJoin(th', out))
  {
  }

  lemma LookCancelEffect(s: System, t: nat, th: Thread)
    requires t in s.threads && th.cancel.pc.KLook?
    ensures Effect(s, t, th, CancelLook(s, t, th, th.cancel.op))
  {
    hide Effect, Put, CancelReturn;
    var op := th.cancel.op;
    if op !in s.reg.active {
      OnwardEffect(s, t, th, s, AtCancel(th, KLease));
    } else if s.reg.active[op].session != th.cancel.session {
      ReturnEffect(s, t, th, s, true);
    } else {
      OnwardEffect(s, t, th, s, th.(cancel := th.cancel.(pc := KFlag, run := s.reg.active[op].run), lk := 0));
    }
  }

  lemma WorkCancelEffect(s: System, t: nat, th: Thread, run: Run, c: Choice)
    requires t in s.threads && !th.cancel.pc.KNone?
    ensures Effect(s, t, th, CancelFlag(s, t, th, th.cancel.op))
    ensures Effect(s, t, th, CancelKill(s, t, th, th.cancel.run, run, c))
    ensures Effect(s, t, th, CancelTerm(s, t, th, th.cancel.run, run, c))
  {
    hide Effect, Near, Put, CancelReturn, SetRun, SetPending, Terminate, FlagActive, SameCall, AtCancel, StartJoin;
    NearBy(s);
    SameCallBy(th);
    CancelEffects(s, t, th);
  }

  lemma CancelEffect(s: System, t: nat, th: Thread, c: Choice)
    requires t in s.threads && !th.cancel.pc.KNone?
    ensures Effect(s, t, th, CancelStep(s, t, th, th.cancel, c))
  {
    hide Effect, Near, Put, CancelReturn, SetActive, SetPending, SetPrepared, RunAt, CancelLease, FlagPending,
      SameCall, AtCancel, StartJoin, CancelJoined, CancelLook, CancelFlag, CancelKill, CancelTerm;
    NearBy(s);
    LeaseNear(s, th.cancel.op, th.cancel.session);
    SameCallBy(th);
    CancelEffects(s, t, th);
    if th.cancel.pc.KLook? {
      LookCancelEffect(s, t, th);
    }
    WorkCancelEffect(s, t, th, RunAt(s, th.cancel.run), c);
  }

  // ---------- commands ----------

  lemma EnterEffect(s: System, t: nat, th: Thread, ok: bool, next: Main)
    requires t in s.threads && !th.main.CancelOnly? && th.cancel.pc.KNone?
    ensures Effect(s, t, th, Enter(s, t, th, ok, next))
  {
    hide Effect, At;
    if ok {
      PlainEffects(s, t, th);
      assert Near(s, s.(host := Some(t)));
    } else {
      EndEffect(s, t, th, s);
    }
  }

  function Minted(s: System, th: Thread, prepared: LeaseMap): System {
    SetPrepared(s, prepared).(past := s.past.(minted := s.past.minted[th.op := th.session]))
  }

  lemma MintDeed(s: System, th: Thread, prepared: LeaseMap)
    requires th.main.PrepInsert? && AtMain(th) && th.op !in s.past.minted && |prepared| <= PREPARED_LEASE_CAP
    ensures Deed(s, th, Minted(s, th, prepared)) && SameShell(s, Minted(s, th, prepared))
  {
    hide Finishes, Spawns;
  }

  lemma InsertSize(pruned: LeaseMap, op: Token, session: nat)
    requires |pruned| < PREPARED_LEASE_CAP
    ensures |pruned[op := Lease(session, false)]| <= PREPARED_LEASE_CAP
  {
    var prepared := pruned[op := Lease(session, false)];
    assert prepared.Keys == pruned.Keys + {op} && |prepared.Keys| == |prepared|;
  }

  lemma InsertEffect(s: System, t: nat, th: Thread, expired: set<Token>)
    requires t in s.threads && th.main.PrepInsert? && AtMain(th) && th.op !in s.past.minted
    ensures Effect(s, t, th, InsertStep(s, t, th, PruneLeases(s.reg.prepared, expired)))
  {
    hide Effect, Deed, SameShell, End, SetPrepared;
    var pruned := PruneLeases(s.reg.prepared, expired);
    if |pruned| < PREPARED_LEASE_CAP {
      InsertSize(pruned, th.op, th.session);
      MintDeed(s, th, pruned[th.op := Lease(th.session, false)]);
      DeedEffect(s, t, th, Minted(s, th, pruned[th.op := Lease(th.session, false)]), th);
    } else {
      assert Near(s, SetPrepared(s, pruned)) by { PruneNear(s, expired); }
      EndEffect(s, t, th, SetPrepared(s, pruned));
    }
  }

  lemma PruneNear(s: System, expired: set<Token>)
    ensures Near(s, SetPrepared(s, PruneLeases(s.reg.prepared, expired)))
  {
    Fewer(s.reg.prepared, expired);
  }

  lemma PrepareEffect(s: System, t: nat, th: Thread, c: Choice)
    requires t in s.threads && PrepareMain(th.main) && AtMain(th)
    requires th.main.PrepInsert? ==> th.op !in s.past.minted
    ensures Effect(s, t, th, PrepareStep(s, t, th, c))
  {
    hide Effect, Near, Put, End, Enter, InsertStep, DrawOperation, CurrentSession;
    NearBy(s);
    PlainEffects(s, t, th);
    match th.main
    case PrepEnter => EnterEffect(s, t, th, c.ok && CurrentSession(s, th.session), PrepToken);
    case PrepToken =>
    case _ => InsertEffect(s, t, th, c.expired);
  }

  lemma SpawnEffect(s: System, t: nat, th: Thread, s1: System, run: Run, th': Thread)
    requires t in s.threads && Near(s, s1) && s1.runs == s.runs && Spawns(th, run)
    ensures Effect(s, t, th, Put(AddRun(s1, run), t, th'))
  {
    hide Mints, Finishes;
    assert Put(AddRun(s1, run), t, th').threads - {t} == s.threads - {t};
  }

  lemma CompleteDeed(s: System, th: Thread)
    requires Finishes(s, th, th.op)
    ensures Deed(s, th, SetPending(s, s.reg.pending - {th.op}).(past := Complete(s.past, th.op)))
  {
    hide Mints, Spawns;
  }

  lemma FinishEffect(s: System, t: nat, th: Thread)
    requires t in s.threads && th.main.ExFinish? && AtMain(th)
    ensures Effect(s, t, th, FinishStep(s, t, th))
  {
    hide Effect, Deed, End, Near, SetPending;
    NearBy(s);
    PlainEffects(s, t, th);
    match FinishPending(s.reg.active, s.reg.pending, th.op, th.generation)
    case Ok(cancelled) =>
      if !cancelled && th.res {
        CompleteDeed(s, th);
        var s1 := SetPending(s, s.reg.pending - {th.op}).(past := Complete(s.past, th.op));
        assert SameShell(s, s1) by { CompleteShell(s, th.op); }
        DeedEffect(s, t, th, s1, th);
      }
    case Err(_) =>
  }

  lemma CompleteShell(s: System, op: Token)
    ensures SameShell(s, SetPending(s, s.reg.pending - {op}).(past := Complete(s.past, op)))
  {
  }

  lemma ExecEffect(s: System, t: nat, th: Thread, c: Choice)
    requires t in s.threads && ExecMain(th.main) && AtMain(th)
    ensures Effect(s, t, th, ExecStep(s, t, th, c))
  {
    hide Effect, Near, Put, End, Enter, FinishStep, SpawnStep, SetActive, SetPending, SetPrepared, DrawOperation,
      CurrentSession, RunAt, BeginPending, TakeCancelled, Reserve, SetRun;
    NearBy(s);
    NearRemove(s, th.op);
    PlainEffects(s, t, th);
    match th.main
    case ExEnter => EnterEffect(s, t, th, c.ok && CurrentSession(s, th.session), ExLookup);
    case ExSpawn => SpawnStepEffect(s, t, th, c);
    case ExFinish => FinishEffect(s, t, th);
    case _ =>
  }

  lemma NearRemove(s: System, op: Token)
    ensures Near(s, SetPrepared(s, s.reg.prepared - {op}))
  {
    Fewer(s.reg.prepared, {op});
  }

  lemma SpawnStepEffect(s: System, t: nat, th: Thread, c: Choice)
    requires t in s.threads && th.main.ExSpawn? && AtMain(th)
    ensures Effect(s, t, th, SpawnStep(s, t, th, |s.runs|, c))
  {
    hide Effect, Near, Put, Register, Spawned;
    NearBy(s);
    PlainEffects(s, t, th);
    var run, r := Spawned(Some(th.op), 0), |s.runs|;
    assert Spawns(th, run);
    if c.ok {
      match Register(s.reg.active, s.reg.pending, th.op, ActiveChild(th.session, th.generation, r))
      case Ok(active) =>
        assert SetActive(AddRun(s, run), active) == AddRun(SetActive(s, active), run);
        SpawnEffect(s, t, th, SetActive(s, active), run, StartRun(th, RunStdin, r, true));
      case Err(_) => SpawnEffect(s, t, th, s, run, StartRun(th, ExRecover, r, true));
    }
  }

  lemma UnscopedEffect(s: System, t: nat, th: Thread, c: Choice)
    requires t in s.threads && UnscopedMain(th.main) && AtMain(th)
    ensures Effect(s, t, th, UnscopedStep(s, t, th, c))
  {
    hide Effect, Near, Put, End, Enter, SetSlots, Spawned, AddRun, SlotStep;
    NearBy(s);
    PlainEffects(s, t, th);
    match th.main
    case UxEnter => EnterEffect(s, t, th, true, RtCollect);
    case UxSlot => SlotEffect(s, t, th, s.count.slot);
    case UxSpawn =>
      if c.ok {
        SpawnEffect(s, t, th, s, Spawned(None, th.slot), StartRun(th, RunStdin, |s.runs|, false));
      }
    case _ =>
  }

  lemma SlotEffect(s: System, t: nat, th: Thread, key: nat)
    requires t in s.threads && !th.main.CancelOnly? && th.cancel.pc.KNone?
    ensures Effect(s, t, th, SlotStep(s, t, th, key))
  {
    hide Effect, Put, ReserveSlot;
    PlainEffects(s, t, th);
    match ReserveSlot(s.reg.slots, key)
    case Ok(slots) => assert Near(s, SetSlots(s, slots).(count := s.count.(slot := key + 1)));
    case Err(_) =>
  }

  lemma RunEffect(s: System, t: nat, th: Thread, c: Choice)
    requires t in s.threads && RunMain(th.main) && AtMain(th)
    ensures Effect(s, t, th, RunStep(s, t, th, RunAt(s, th.run), c))
  {
    hide Effect, Near, Put, End, SetRun, RunAt, Terminate, StartJoin, StartClean, FlagThread, TakeCancelled;
    NearBy(s);
    PlainEffects(s, t, th);
  }

  lemma RetryEffect(s: System, t: nat, th: Thread, c: Choice)
    requires t in s.threads && RetryMain(th.main) && AtMain(th)
    ensures Effect(s, t, th, RetryStep(s, t, th, c))
  {
    hide Effect, Near, Put, End, SetSlots, StartRetry, RetryStart, SetHost, RetryPop;
    NearBy(s);
    PlainEffects(s, t, th);
  }

  lemma BumpEffect(s: System, t: nat, th: Thread)
    requires t in s.threads && th.main.TdBump? && AtMain(th)
    ensures Effect(s, t, th, End(s.(count := s.count.(session := NextSession(s.count.session))), t))
  {
    hide Finishes, Mints, Spawns, NextSession;
    assert s.threads - {t} - {t} == s.threads - {t};
  }

  lemma DropDeed(s: System, th: Thread)
    requires th.main.TdPend? && AtMain(th)
    ensures Deed(s, th, DropPending(s)) && SameShell(s, DropPending(s))
  {
    hide Finishes, Mints, Spawns, RetainUncancelled, Dropping;
  }

  lemma PendEffect(s: System, t: nat, th: Thread)
    requires t in s.threads && th.main.TdPend? && AtMain(th)
    ensures Effect(s, t, th, PendStep(s, t, th))
  {
    hide Effect, Deed, SameShell, End, DropPending, Unresolved;
    EndEffect(s, t, th, s);
    DropDeed(s, th);
    DeedEffect(s, t, th, DropPending(s), At(th, TdPrep));
  }

  lemma TeardownEffect(s: System, t: nat, th: Thread, c: Choice)
    requires t in s.threads && (th.main.TdEnter? || TeardownMain(th.main)) && AtMain(th)
    ensures Effect(s, t, th, TeardownStep(s, t, th, c))
  {
    hide Effect, Near, Put, End, Enter, PendStep, SetPrepared, NextSession, SetHost, TeardownPop, StartCancel,
      CurrentSession;
    NearBy(s);
    PlainEffects(s, t, th);
    assert Near(s, SetPrepared(s, map[])) by { EmptyNear(s); }
    match th.main
    case TdEnter => EnterEffect(s, t, th, c.ok && (th.host.init || CurrentSession(s, th.session)), RtCollect);
    case TdPend => PendEffect(s, t, th);
    case TdBump => BumpEffect(s, t, th);
    case _ =>
  }

  lemma EmptyNear(s: System)
    ensures Near(s, SetPrepared(s, map[]))
  {
  }

  // ---------- every critical section ----------

  lemma MainEffect(s: System, t: nat, th: Thread, c: Choice)
    requires t in s.threads && AtMain(th) && (th.main.PrepInsert? ==> th.op !in s.past.minted)
    ensures Effect(s, t, th, MainStep(s, t, th, c))
  {
    hide Effect, PrepareStep, ExecStep, UnscopedStep, RunStep, RetryStep, TeardownStep, Near, End;
    if PrepareMain(th.main) {
      PrepareEffect(s, t, th, c);
    } else if ExecMain(th.main) {
      ExecEffect(s, t, th, c);
    } else if UnscopedMain(th.main) {
      UnscopedEffect(s, t, th, c);
    } else if RunMain(th.main) {
      RunEffect(s, t, th, c);
    } else if RetryMain(th.main) {
      RetryEffect(s, t, th, c);
    } else if th.main.CancelOnly? {
      NearBy(s);
      EndEffect(s, t, th, s);
    } else {
      TeardownEffect(s, t, th, c);
    }
  }

  /** The facts of the invariant that the effect of a step depends on. */
  lemma EffectFacts(s: System, t: nat, th: Thread)
    requires Ready(s, t, th)
    ensures !th.clean.pc.CNone? ==> !th.main.CancelOnly? && th.cancel.pc.KNone?
    ensures !th.join.pc.JNone? && th.main.CancelOnly? ==> !th.cancel.pc.KNone?
    ensures th.main.PrepInsert? ==> th.op !in s.past.minted
  {
    hide Inv, CancelOf, JoinOf, Want, HostOf;
    Facts(s, t, th);
    HostIn(s, t, th);
    if s.host == Some(t) {
      StraightParts(s, t, th);
    }
  }

  lemma ThreadEffect(s: System, t: nat, th: Thread, c: Choice)
    requires Ready(s, t, th)
    ensures Effect(s, t, th, ThreadStep(s, t, th, c))
  {
    hide Inv, Effect, JoinStep, CleanStep, CancelStep, MainStep;
    EffectFacts(s, t, th);
    if !th.join.pc.JNone? {
      JoinEffect(s, t, th, c);
    } else if !th.clean.pc.CNone? {
      CleanEffect(s, t, th, c);
    } else if !th.cancel.pc.KNone? {
      CancelEffect(s, t, th, c);
    } else {
      MainEffect(s, t, th, c);
    }
  }

  // ---------- runs only move towards being settled ----------

  /** A reader that is joined is joined in a join; elsewhere no stream changes, and a new
      run starts with both readers in their slots. */
  ghost predicate SameReaders(runs: seq<Run>, runs': seq<Run>) {
    && (forall r :: 0 <= r < |runs| && r < |runs'| ==>
          runs'[r].stdout == runs[r].stdout && runs'[r].stderr == runs[r].stderr)
    && (forall r :: |runs| <= r < |runs'| ==> runs'[r].stdout.InSlot? && runs'[r].stderr.InSlot?)
  }

  ghost predicate Grown(s: System, s1: System) {
    Evolves(s.runs, s1.runs) && SameReaders(s.runs, s1.runs)
  }

  predicate Quiet(run: Run, run': Run) {
    RunEvolves(run, run') && run'.stdout == run.stdout && run'.stderr == run.stderr
  }

  lemma GrownBy(s: System, t: nat)
    ensures Grown(s, s)
    ensures forall s1, th :: Grown(s, s1) ==> Grown(s, Put(s1, t, th))
    ensures forall s1 :: Grown(s, s1) ==> Grown(s, End(s1, t))
    ensures forall s1 :: Grown(s, s1) ==> Grown(s, DrawOperation(s1))
    ensures forall s1, active :: Grown(s, s1) ==> Grown(s, SetActive(s1, active))
    ensures forall s1, pending :: Grown(s, s1) ==> Grown(s, SetPending(s1, pending))
    ensures forall s1, slots :: Grown(s, s1) ==> Grown(s, SetSlots(s1, slots))
    ensures forall s1, prepared :: Grown(s, s1) ==> Grown(s, SetPrepared(s1, prepared))
  {
  }

  lemma GrownRuns(s: System, r: RunId)
    ensures forall run :: Quiet(RunAt(s, r), run) ==> Grown(s, SetRun(s, r, run))
    ensures forall run, c :: Quiet(run, Terminate(run, c))
    ensures forall run: Run :: Quiet(run, run.(artifact := false)) && Quiet(run, run.(handle := false))
  {
  }

  lemma JoinGrows(s: System, t: nat, th: Thread, c: Choice)
    requires Streams(s.runs, s.threads) && t in s.threads && th == s.threads[t]
    requires !th.join.pc.JNone? && JoinRun(th) < |s.runs|
    ensures Evolves(s.runs, JoinStep(s, t, th, JoinRun(th), c).runs)
  {
    hide Evolves, Streams, RunEvolves, JoinRun;
    var r := JoinRun(th);
    var run := s.runs[r];
    EvolvesSelf(s.runs);
    if th.join.pc.JPut? {
      ReaderTaken(s, t, th);
    }
    if !run.StreamOf(th.join.out).Done? {
      StreamEvolves(run, th.join.out);
      forall x ensures Evolves(s.runs, s.runs[r := run.WithStream(th.join.out, x)]) {
        EvolvesOne(s.runs, r, run.WithStream(th.join.out, x));
      }
    }
  }

  lemma ReaderTaken(s: System, t: nat, th: Thread)
    requires Streams(s.runs, s.threads) && t in s.threads && th == s.threads[t] && th.join.pc.JPut?
    ensures RunAt(s, JoinRun(th)).StreamOf(th.join.out) == Taken(t)
  {
  }

  lemma StreamEvolves(run: Run, out: bool)
    requires !run.StreamOf(out).Done?
    ensures forall x :: RunEvolves(run, run.WithStream(out, x))
  {
  }

  lemma CleanGrows(s: System, t: nat, th: Thread, c: Choice)
    ensures Grown(s, CleanStep(s, t, th, c))
  {
    hide Grown, Put, SetRun, SetSlots, SetActive, RunAt, Terminate, StartJoin, AtClean, CleanJoined, Unregister,
      ReleaseSlot, RetainSlot, Quiet;
    GrownBy(s, t);
    GrownRuns(s, th.run);
  }

  lemma CancelGrows(s: System, t: nat, th: Thread, c: Choice)
    ensures Grown(s, CancelStep(s, t, th, th.cancel, c))
  {
    hide Grown, Put, SetRun, SetActive, SetPending, SetPrepared, RunAt, Terminate, StartJoin, AtCancel, CancelJoined,
      FlagActive, CancelLease, FlagPending, Quiet, CancelReturn;
    GrownBy(s, t);
    GrownRuns(s, th.cancel.run);
    GrownReturn(s, t, th);
  }

  lemma GrownReturn(s: System, t: nat, th: Thread)
    ensures forall s1, ok :: Grown(s, s1) ==> Grown(s, CancelReturn(s1, t, th, ok))
  {
  }

  /** The run that a thread is busy with, other than through a join. */
  lemma RunGrows(s: System, t: nat, th: Thread, c: Choice)
    ensures Grown(s, RunStep(s, t, th, RunAt(s, th.run), c))
  {
    hide Grown, Put, End, SetRun, RunAt, Terminate, StartJoin, StartClean, FlagThread, TakeCancelled, Quiet;
    GrownBy(s, t);
    GrownRuns(s, th.run);
  }

  lemma AddGrows(s: System, t: nat, th: Thread)
    ensures forall token, slot, th' :: Grown(s, Put(AddRun(s, Spawned(token, slot)), t, th'))
    ensures forall token, slot, active, th' ::
      Grown(s, Put(SetActive(AddRun(s, Spawned(token, slot)), active), t, th'))
  {
  }

  lemma ExecGrows(s: System, t: nat, th: Thread, c: Choice)
    requires ExecMain(th.main) && !th.main.ExRecover?
    ensures Grown(s, ExecStep(s, t, th, c))
  {
    hide Grown, Put, End, SetActive, SetPending, SetPrepared, DrawOperation, Reserve, BeginPending,
      TakeCancelled, CurrentSession, FinishStep, Enter, SpawnStep, At, RecoverStep, RunAt;
    GrownBy(s, t);
    match th.main
    case ExEnter => OtherGrows(s, t, th, c);
    case ExSpawn => SpawnGrows(s, t, th, c);
    case ExFinish => OtherGrows(s, t, th, c);
    case _ =>
  }

  lemma SpawnGrows(s: System, t: nat, th: Thread, c: Choice)
    ensures Grown(s, SpawnStep(s, t, th, |s.runs|, c))
  {
    hide Grown, Put, SetActive, AddRun, Register, StartRun, Spawned;
    GrownBy(s, t);
    AddGrows(s, t, th);
  }

  lemma OtherGrows(s: System, t: nat, th: Thread, c: Choice)
    ensures Grown(s, FinishStep(s, t, th)) && Grown(s, PendStep(s, t, th))
    ensures Grown(s, SlotStep(s, t, th, s.count.slot))
    ensures Grown(s, InsertStep(s, t, th, PruneLeases(s.reg.prepared, c.expired)))
    ensures forall ok, next :: Grown(s, Enter(s, t, th, ok, next))
  {
    hide FinishPending, RetainUncancelled, Unresolved, Dropping, ReserveSlot, InsertLease, PruneLeases;
    EvolvesSelf(s.runs);
    hide Evolves;
  }

  lemma MainGrows(s: System, t: nat, th: Thread, c: Choice)
    requires !th.main.ExRecover?
    ensures Grown(s, MainStep(s, t, th, c))
  {
    hide Grown, Put, End, SetSlots, SetPrepared, DrawOperation, ExecStep, RunStep, PendStep, SlotStep, InsertStep,
      Enter, AddRun, Spawned, StartRun, CurrentSession, StartRetry, SetHost, RetryStart, RetryPop, TeardownPop,
      StartCancel, NextSession, At, Snapshot, PruneLeases;
    GrownBy(s, t);
    AddGrows(s, t, th);
    OtherGrows(s, t, th, c);
    BumpGrows(s, t);
    if ExecMain(th.main) {
      ExecGrows(s, t, th, c);
    }
    RunGrows(s, t, th, c);
  }

  lemma BumpGrows(s: System, t: nat)
    ensures forall session :: Grown(s, End(s.(count := s.count.(session := session)), t))
  {
  }

  /** A critical section never brings a child back to life, never undoes the end of a
      stream and never forgets a run; outside a join it does not touch any reader. */
  lemma ThreadGrows(s: System, t: nat, th: Thread, c: Choice)
    requires Ready(s, t, th)
    ensures Evolves(s.runs, ThreadStep(s, t, th, c).runs)
    ensures th.join.pc.JNone? ==> SameReaders(s.runs, ThreadStep(s, t, th, c).runs)
  {
    hide Inv, JoinStep, CleanStep, CancelStep, MainStep, CancelOf, Want, HostOf, Streams, Mutex;
    Facts(s, t, th);
    Parts(s);
    if !th.join.pc.JNone? {
      JoinSiteRun(t, th, s.nextThread, s.host, s.runs);
      JoinGrows(s, t, th, c);
    } else if !th.clean.pc.CNone? {
      CleanGrows(s, t, th, c);
    } else if !th.cancel.pc.KNone? {
      CancelGrows(s, t, th, c);
    } else {
      MainGrows(s, t, th, c);
    }
  }
}
