/** The entries of one token in the two registries: which critical sections change them,
    when an active child and its pending operation are linked, and why generations are
    never used twice. */
module CodexLinks {
  import opened CodexTypes
  import opened CodexRegistry
  import opened CodexProtocol
  import opened CodexInvariant
  import opened CodexMoves
  import opened CodexCancelSteps
  import opened CodexCommandSteps
  import opened CodexWorkerSteps
  import opened CodexTeardownSteps
  import opened CodexReachable
  import opened CodexTheorems

  // ---------- what a critical section does to the entries of one token ----------

  /** The entries of `op` are the same, up to the flag of its operation. */
  predicate SameEntries(s: System, s': System, op: Token) {
    && (op in s'.reg.active <==> op in s.reg.active)
    && (op in s.reg.active ==> s'.reg.active[op] == s.reg.active[op])
    && (op in s'.reg.pending <==> op in s.reg.pending)
    && (op in s.reg.pending ==> s'.reg.pending[op].generation == s.reg.pending[op].generation)
    && s.count.operation <= s'.count.operation
  }

  predicate SamePending(s: System, s': System) {
    s'.reg.pending == s.reg.pending && s.count.operation <= s'.count.operation
  }

  /** The operation begins, with a generation drawn for it. */
  predicate Begins(s: System, th: Thread, s': System, op: Token) {
    && AtMain(th) && th.main.ExBegin? && th.op == op
    && op !in s.reg.pending && op in s'.reg.pending && s'.reg.pending[op].generation == s.count.operation
    && s'.count.operation == s.count.operation + 1 && s'.reg.active == s.reg.active
  }

  /** The child of the operation is registered. */
  predicate Enlists(s: System, th: Thread, s': System, op: Token) {
    && AtMain(th) && th.main.ExSpawn? && th.op == op && op in s.reg.pending && op in s'.reg.active
    && s'.reg.active[op].generation == s.reg.pending[op].generation
    && SamePending(s, s')
  }

  /** The operation finishes. */
  predicate Retires(s: System, th: Thread, s': System, op: Token) {
    && AtMain(th) && th.main.ExFinish? && th.op == op && op in s.reg.pending && op !in s'.reg.pending
    && !(op in s.reg.active && s.reg.active[op].generation == s.reg.pending[op].generation)
    && s'.reg.active == s.reg.active && s.count.operation <= s'.count.operation
  }

  /** A teardown drops its operations. */
  predicate Drops(s: System, th: Thread, s': System, op: Token) {
    && AtMain(th) && th.main.TdPend? && op !in s'.reg.pending
    && s'.reg.active == s.reg.active && s.count.operation <= s'.count.operation
  }

  /** The child is let go, by its own cleanup or by a cancel. */
  predicate Releases(s: System, th: Thread, s': System, op: Token) {
    && op in s.reg.active && op !in s'.reg.active && SamePending(s, s')
    && (|| (th.join.pc.JNone? && th.clean.pc.CUnreg? && th.op == op && op in s.reg.pending)
        || (AtCancelEnd(th) && th.cancel.op == op))
  }

  /** The point at which a cancel removes the entry of its child. */
  predicate AtCancelEnd(th: Thread) {
    th.join.pc.JNone? && th.clean.pc.CNone? && th.cancel.pc.KDrop?
  }

  predicate Registers(s: System, th: Thread, s': System, op: Token) {
    || SameEntries(s, s', op)
    || Begins(s, th, s', op) || Enlists(s, th, s', op) || Retires(s, th, s', op) || Drops(s, th, s', op)
    || Releases(s, th, s', op)
  }

  lemma SameBy(s: System, t: nat, op: Token)
    ensures SameEntries(s, s, op)
    ensures forall s1, th :: SameEntries(s, s1, op) ==> SameEntries(s, Put(s1, t, th), op)
    ensures forall s1 :: SameEntries(s, s1, op) ==> SameEntries(s, End(s1, t), op)
    ensures forall s1, r, run :: SameEntries(s, s1, op) ==> SameEntries(s, SetRun(s1, r, run), op)
    ensures forall s1 :: SameEntries(s, s1, op) ==> SameEntries(s, DrawOperation(s1), op)
    ensures forall s1, slots :: SameEntries(s, s1, op) ==> SameEntries(s, SetSlots(s1, slots), op)
    ensures forall s1, prepared :: SameEntries(s, s1, op) ==> SameEntries(s, SetPrepared(s1, prepared), op)
    ensures forall s1, run :: SameEntries(s, s1, op) ==> SameEntries(s, AddRun(s1, run), op)
    ensures forall ok, th, next :: SameEntries(s, Enter(s, t, th, ok, next), op)
  {
  }

  lemma JoinEntries(s: System, t: nat, th: Thread, op: Token, c: Choice)
    ensures SameEntries(s, JoinStep(s, t, th, JoinRun(th), c), op)
  {
    hide Put, SetRun, RunIn, JoinRun;
    SameBy(s, t, op);
    hide SameEntries;
  }

  lemma CleanEntries(s: System, t: nat, th: Thread, op: Token, c: Choice)
    requires th.join.pc.JNone?
    ensures Registers(s, th, CleanStep(s, t, th, c), op)
  {
    hide SameEntries, Releases, Begins, Enlists, Retires, Drops, Put, SetRun, SetSlots, RunIn, StartJoin, AtClean,
      CleanJoined, ReleaseSlot, RetainSlot, UnregStep;
    SameBy(s, t, op);
    if th.clean.pc.CUnreg? {
      UnregEntries(s, t, th, op, RunAt(s, th.run));
    }
  }

  lemma UnregEntries(s: System, t: nat, th: Thread, op: Token, run: Run)
    requires th.join.pc.JNone? && th.clean.pc.CUnreg?
    ensures Registers(s, th, UnregStep(s, t, th, run), op)
  {
  }

  lemma CancelEntries(s: System, t: nat, th: Thread, op: Token, c: Choice)
    requires th.join.pc.JNone? && th.clean.pc.CNone?
    ensures Registers(s, th, CancelStep(s, t, th, th.cancel, c), op)
  {
    hide Put, Begins, Enlists, Retires, Drops, CancelReturn, SetPending, CancelLease, RunIn, StartJoin, AtCancel,
      CancelJoined, FlagActive, FlagPending, CancelLook, CancelKill, CancelTerm;
    FlagEntries(s, t, th, op);
    WorkEntries(s, t, th, op, RunAt(s, th.cancel.run), c);
    if th.cancel.pc.KDrop? {
      DropEntries(s, t, th, op);
    }
    hide SameEntries, Releases;
  }

  lemma FlagEntries(s: System, t: nat, th: Thread, op: Token)
    ensures SameEntries(s, CancelFlag(s, t, th, th.cancel.op), op)
    ensures forall ok ::
      var pending := FlagPending(s.reg.pending, th.cancel.op, th.cancel.session);
      SameEntries(s, CancelReturn(SetPending(s, pending), t, th, ok), op)
  {
    hide Fenced;
  }

  lemma WorkEntries(s: System, t: nat, th: Thread, op: Token, run: Run, c: Choice)
    ensures SameEntries(s, CancelLook(s, t, th, th.cancel.op), op)
    ensures SameEntries(s, CancelKill(s, t, th, th.cancel.run, run, c), op)
    ensures SameEntries(s, CancelTerm(s, t, th, th.cancel.run, run, c), op)
    ensures forall s1, th' :: SameEntries(s, s1, op) ==> SameEntries(s, Put(s1, t, th'), op)
    ensures forall prepared :: SameEntries(s, SetPrepared(s, prepared), op)
  {
    hide Fenced, StartJoin, AtCancel;
    SameBy(s, t, op);
  }

  lemma DropEntries(s: System, t: nat, th: Thread, op: Token)
    requires AtCancelEnd(th)
    ensures Registers(s, th, CancelReturn(SetActive(s, s.reg.active - {th.cancel.op}), t, th, true), op)
  {
    hide Fenced, Begins, Enlists, Retires, Drops;
  }

  lemma PrepareEntries(s: System, t: nat, th: Thread, op: Token, c: Choice)
    ensures SameEntries(s, PrepareStep(s, t, th, c), op)
  {
    hide SameEntries, Put, End, Enter, InsertStep, DrawOperation, SetPrepared;
    SameBy(s, t, op);
    InsertEntries(s, t, th, op, PruneLeases(s.reg.prepared, c.expired));
  }

  lemma InsertEntries(s: System, t: nat, th: Thread, op: Token, pruned: LeaseMap)
    ensures SameEntries(s, InsertStep(s, t, th, pruned), op)
  {
  }

  lemma ExecEntries(s: System, t: nat, th: Thread, op: Token, c: Choice)
    requires ExecMain(th.main) && AtMain(th) && !th.main.ExRecover?
    ensures Registers(s, th, ExecStep(s, t, th, c), op)
  {
    hide SameEntries, Begins, Enlists, Retires, Drops, Releases, Put, End, Enter, SetPrepared, BeginStep, SpawnStep,
      RecoverStep, FinishStep, CurrentSession, TakeCancelled, Reserve, RunIn, At;
    SameBy(s, t, op);
    match th.main
    case ExBegin => BeginEntries(s, t, th, op);
    case ExSpawn => SpawnEntries(s, t, th, op, c);
    case ExFinish => FinishEntries(s, t, th, op);
    case _ =>
  }

  lemma BeginEntries(s: System, t: nat, th: Thread, op: Token)
    requires th.main.ExBegin? && AtMain(th)
    ensures Registers(s, th, BeginStep(s, t, th), op)
  {
    hide Enlists, Retires, Drops, Releases;
  }

  lemma SpawnEntries(s: System, t: nat, th: Thread, op: Token, c: Choice)
    requires th.main.ExSpawn? && AtMain(th)
    ensures Registers(s, th, SpawnStep(s, t, th, |s.runs|, c), op)
  {
    hide Begins, Retires, Drops, Releases, Spawned, StartRun;
  }

  lemma FinishEntries(s: System, t: nat, th: Thread, op: Token)
    requires th.main.ExFinish? && AtMain(th)
    ensures Registers(s, th, FinishStep(s, t, th), op)
  {
    hide Begins, Enlists, Drops, Releases;
  }

  lemma UnscopedEntries(s: System, t: nat, th: Thread, op: Token, c: Choice)
    ensures SameEntries(s, UnscopedStep(s, t, th, c), op)
  {
    hide SameEntries, Put, End, Enter, SetSlots, AddRun, Spawned, StartRun, SlotStep, At;
    SameBy(s, t, op);
    SlotEntries(s, t, th, op);
  }

  lemma SlotEntries(s: System, t: nat, th: Thread, op: Token)
    ensures SameEntries(s, SlotStep(s, t, th, s.count.slot), op)
  {
    hide ReserveSlot;
  }

  lemma RunEntries(s: System, t: nat, th: Thread, op: Token, c: Choice)
    ensures SameEntries(s, RunStep(s, t, th, RunAt(s, th.run), c), op)
  {
    hide SameEntries, Put, End, SetRun, RunIn, Terminate, TakeCancelled, StartJoin, StartClean, At, FlagThread;
    SameBy(s, t, op);
  }

  lemma RetryEntries(s: System, t: nat, th: Thread, op: Token, c: Choice)
    ensures SameEntries(s, RetryStep(s, t, th, c), op)
  {
    hide SameEntries, Put, End, SetSlots, StartRetry, RetryPop, RetryStart, SetHost, At;
    SameBy(s, t, op);
  }

  lemma TeardownEntries(s: System, t: nat, th: Thread, op: Token, c: Choice)
    requires AtMain(th)
    ensures Registers(s, th, TeardownStep(s, t, th, c), op)
  {
    hide SameEntries, Begins, Enlists, Retires, Drops, Releases, Put, End, Enter, SetPrepared, PendStep, SetHost,
      TeardownPop, StartCancel, At, NextSession;
    SameBy(s, t, op);
    BumpEntries(s, t, op);
    if th.main.TdPend? {
      PendEntries(s, t, th, op);
    }
  }

  lemma BumpEntries(s: System, t: nat, op: Token)
    ensures forall session :: SameEntries(s, End(s.(count := s.count.(session := session)), t), op)
  {
  }

  lemma PendEntries(s: System, t: nat, th: Thread, op: Token)
    requires th.main.TdPend? && AtMain(th)
    ensures Registers(s, th, PendStep(s, t, th), op)
  {
    hide Begins, Enlists, Retires, Releases, Dropping;
  }

  lemma MainEntries(s: System, t: nat, th: Thread, op: Token, c: Choice)
    requires AtMain(th) && !th.main.ExRecover?
    ensures Registers(s, th, MainStep(s, t, th, c), op)
  {
    hide SameEntries, Begins, Enlists, Retires, Drops, Releases, End, PrepareStep, ExecStep, UnscopedStep, RunStep,
      RetryStep, TeardownStep;
    if PrepareMain(th.main) {
      PrepareEntries(s, t, th, op, c);
    } else if ExecMain(th.main) {
      ExecEntries(s, t, th, op, c);
    } else if UnscopedMain(th.main) {
      UnscopedEntries(s, t, th, op, c);
    } else if RunMain(th.main) {
      RunEntries(s, t, th, op, c);
    } else if RetryMain(th.main) {
      RetryEntries(s, t, th, op, c);
    } else if th.main.CancelOnly? {
      SameBy(s, t, op);
    } else {
      TeardownEntries(s, t, th, op, c);
    }
  }

  /** One critical section changes the entries of a token in one of these ways, or not at
      all. */
  lemma ThreadEntries(s: System, t: nat, th: Thread, op: Token, c: Choice)
    requires Ready(s, t, th)
    ensures Registers(s, th, ThreadStep(s, t, th, c), op)
  {
    hide Inv, SameEntries, Begins, Enlists, Retires, Drops, Releases, JoinStep, CleanStep, CancelStep, MainStep, Want,
      HostOf, CancelOf, JoinOf;
    Facts(s, t, th);
    if !th.join.pc.JNone? {
      JoinEntries(s, t, th, op, c);
    } else if !th.clean.pc.CNone? {
      CleanEntries(s, t, th, op, c);
    } else if !th.cancel.pc.KNone? {
      CancelEntries(s, t, th, op, c);
    } else {
      MainEntries(s, t, th, op, c);
    }
  }

  /** An operation about to begin has never had a child. */
  lemma BeginOther(s: System, t: nat, op: Token)
    requires Inv(s) && t in s.threads && op in s.reg.active
    ensures s.threads[t].main.ExBegin? ==> s.threads[t].op != op
    ensures !s.threads[t].main.ExRecover?
  {
    hide Inv, HostOf, CancelOf, JoinOf, Want, SharedOk, Answered;
    Facts(s, t, s.threads[t]);
    if s.threads[t].main.ExBegin? {
      HostKnows(s, t);
      StraightParts(s, t, s.threads[t]);
      assert Unspawned(s.runs, s.threads[t].op) by { BeginUnspawned(s, s.threads[t]); }
      SharedInactive(s, s.threads[t].op);
    }
  }

  lemma SharedInactive(s: System, op: Token)
    requires SharedOk(s) && Unspawned(s.runs, op)
    ensures op !in s.reg.active
  {
    hide Uniform, RunsWf, Linked;
    UnspawnedInactive(s, op);
  }

  lemma BeginUnspawned(s: System, th: Thread)
    requires WorkerOf(s.reg, s.count, s.runs, s.past, th) && th.main.ExBegin?
    ensures Unspawned(s.runs, th.op)
  {
  }

  // ---------- active children and pending operations ----------

  /** If the token has an active child, the child has its pending operation. */
  predicate LinkAt(s: System, op: Token) {
    op in s.reg.active ==>
      && op in s.reg.pending
      && s.reg.pending[op].generation == s.reg.active[op].generation
      && s.reg.pending[op].session == s.reg.active[op].session
  }

  ghost predicate LinkHolds(s: System) {
    forall op :: op in s.reg.active ==> LinkAt(s, op)
  }

  /** The guard of the exceptional case: a teardown gives up its flagged operations while
      a child is still registered. */
  ghost predicate DropsActive(s: System, e: Event) {
    && e.Work? && e.t in s.threads && AtMain(s.threads[e.t]) && s.threads[e.t].main.TdPend?
    && s.reg.active != map[]
  }

  /** A cancel removes the entry of its child. */
  predicate LetsGo(s: System, e: Event, op: Token) {
    e.Work? && e.t in s.threads && AtCancelEnd(s.threads[e.t]) && s.threads[e.t].cancel.op == op
  }

  /** Until a teardown has dropped the operation of a registered child, every active child
      has its pending operation. */
  lemma LinkUntilDropped(s: System)
    requires Reached(s) && !s.past.dropped
    ensures LinkHolds(s)
  {
    hide Inv;
    ReachedInv(s);
    LinkPart(s);
  }

  lemma LinkPart(s: System)
    requires Inv(s) && !s.past.dropped
    ensures LinkHolds(s)
  {
    hide Inv, RunsWf, Refers, Answered, Streams, Mutex, HostFacts;
    Parts(s);
  }

  /** In a reachable state generation and session never disagree. */
  lemma LinkPresence(s: System, op: Token)
    requires Inv(s)
    ensures LinkAt(s, op) <==> (op in s.reg.active ==> op in s.reg.pending)
    ensures op in s.reg.active && op in s.reg.pending ==>
      s.reg.active[op].generation == s.reg.pending[op].generation
  {
    hide Inv, RunsWf, Refers, Answered, Streams, Mutex, HostFacts;
    Parts(s);
  }

  lemma DropStep(s: System, e: Event)
    requires Enabled(s, e) && DropsActive(s, e)
    ensures e.Work? && e.t in s.threads && s.threads[e.t].main.TdPend? && s.reg.active != map[]
    ensures Next(s, e) == PendStep(s, e.t, s.threads[e.t])
  {
    hide Allowed, Want, PendStep;
  }

  /** The drop leaves no pending operation. */
  lemma DropEmpties(s: System, e: Event)
    requires Inv(s) && Enabled(s, e) && DropsActive(s, e)
    ensures Next(s, e).reg.pending == map[] && Next(s, e).reg.active == s.reg.active
  {
    hide Inv, HostOf, SharedOk, Answered, Unresolved, RetainUncancelled, Enabled, Next;
    DropStep(s, e);
    HostKnows(s, e.t);
    TeardownAt(s, e.t, s.threads[e.t]);
    PendingResolved(s, s.threads[e.t]);
  }

  lemma LetsGoRemoves(s: System, e: Event, op: Token)
    requires Enabled(s, e) && LetsGo(s, e, op)
    ensures op !in Next(s, e).reg.active
  {
    hide Allowed, Want, MainStep, CleanStep, JoinStep;
  }

  /** Where the entries of a token stand after any event. */
  lemma EventEntries(s: System, e: Event, op: Token)
    requires Inv(s) && Enabled(s, e)
    ensures e.Work? ==> e.t in s.threads
    ensures SameEntries(s, Next(s, e), op) || (e.Work? && Registers(s, s.threads[e.t], Next(s, e), op))
    ensures e.Work? && s.threads[e.t].main.ExBegin? && s.threads[e.t].op == op ==> op !in s.reg.active
  {
    hide Inv, ThreadStep, Allowed, Want, Registers;
    match e
    case Work(t, c) =>
      ThreadEntries(s, t, s.threads[t], op, c);
      if op in s.reg.active {
        BeginOther(s, t, op);
      }
    case _ =>
  }

  /** Exactly what each step does to the link of each token, in every reachable state: it
      is broken by the step of a teardown that drops the operations while the child is
      active, and by nothing else; and once broken it is mended by the last step of a
      cancel that was already past its look at the operation, and by nothing else. */
  lemma LinkChangesExactly(s: System, e: Event, op: Token)
    requires Reached(s) && Enabled(s, e)
    ensures LinkAt(s, op) ==> (LinkAt(Next(s, e), op) <==> !(DropsActive(s, e) && op in s.reg.active))
    ensures !LinkAt(s, op) ==> (LinkAt(Next(s, e), op) <==> LetsGo(s, e, op))
  {
    hide Inv, Enabled, Next, LinkAt, DropsActive, LetsGo, Registers;
    var s' := Next(s, e);
    ReachedInv(s);
    ReachedNext(s, e);
    ReachedInv(s');
    LinkPresence(s, op);
    LinkPresence(s', op);
    EventEntries(s, e, op);
    if DropsActive(s, e) {
      DropEmpties(s, e);
      DropOther(s, e, op);
    } else if LetsGo(s, e, op) {
      LetsGoRemoves(s, e, op);
    } else {
      KeepsLink(s, e, op, s');
    }
  }

  lemma DropOther(s: System, e: Event, op: Token)
    requires DropsActive(s, e)
    ensures !LetsGo(s, e, op)
  {
  }

  lemma KeepsLink(s: System, e: Event, op: Token, s': System)
    requires SameEntries(s, s', op) || (e.Work? && e.t in s.threads && Registers(s, s.threads[e.t], s', op))
    requires e.Work? && e.t in s.threads && s.threads[e.t].main.ExBegin? && s.threads[e.t].op == op ==>
      op !in s.reg.active
    requires op in s.reg.active && op in s.reg.pending ==>
      s.reg.active[op].generation == s.reg.pending[op].generation
    requires !DropsActive(s, e) && !LetsGo(s, e, op)
    ensures (op in s'.reg.active ==> op in s'.reg.pending) <==> (op in s.reg.active ==> op in s.reg.pending)
  {
  }

  /** The link of all active children at once: exactly one kind of step breaks it. */
  lemma LinkBrokenExactly(s: System, e: Event)
    requires Reached(s) && Enabled(s, e) && LinkHolds(s)
    ensures LinkHolds(Next(s, e)) <==> !DropsActive(s, e)
  {
    hide Inv, Enabled, Next, LinkAt;
    forall op ensures LinkAt(s, op) && (LinkAt(Next(s, e), op) <==> !(DropsActive(s, e) && op in s.reg.active)) {
      LinkAbsent(s, op);
      LinkChangesExactly(s, e, op);
    }
    if DropsActive(s, e) {
      ReachedInv(s);
      DropEmpties(s, e);
      var op :| op in s.reg.active;
      assert !LinkAt(Next(s, e), op);
    }
  }

  lemma LinkAbsent(s: System, op: Token)
    ensures op !in s.reg.active ==> LinkAt(s, op)
  {
  }

  // ---------- generations ----------

  /** The generation belongs to the token, as that of its operation or of its child. */
  predicate HasGeneration(s: System, op: Token, generation: nat) {
    || (op in s.reg.pending && s.reg.pending[op].generation == generation)
    || (op in s.reg.active && s.reg.active[op].generation == generation)
  }

  /** A step gives a token a generation only by drawing the next number for it. */
  lemma GenerationBack(s: System, e: Event, op: Token, generation: nat)
    requires Inv(s) && Enabled(s, e) && HasGeneration(Next(s, e), op, generation) && !HasGeneration(s, op, generation)
    ensures e.Work? && e.t in s.threads && s.threads[e.t].op == op
    ensures generation == s.count.operation < Next(s, e).count.operation
  {
    hide Inv, Enabled, Next;
    EventEntries(s, e, op);
  }

  lemma CountsUp(s: System, e: Event)
    requires Inv(s) && Enabled(s, e)
    ensures s.count.operation <= Next(s, e).count.operation
  {
    hide Inv, Enabled, Next;
    EventEntries(s, e, 0);
  }

  lemma {:induction false} GenerationsAlong(
    states: seq<System>, events: seq<Event>, i: nat, a: Token, b: Token, generation: nat)
    requires Execution(states, events) && i < |states|
    ensures HasGeneration(states[i], a, generation) ==> generation < states[i].count.operation
    ensures HasGeneration(states[i], a, generation) && HasGeneration(states[i], b, generation) ==> a == b
  {
    hide Inv, Enabled, Next, HasGeneration;
    if i == 0 {
      NoneYet(a, generation);
    } else {
      var s, e := states[i - 1], events[i - 1];
      GenerationsAlong(states, events, i - 1, a, b, generation);
      GenerationsAlong(states, events, i - 1, b, a, generation);
      Reachable(states, events, i - 1);
      CountsUp(s, e);
      if HasGeneration(states[i], a, generation) && !HasGeneration(s, a, generation) {
        GenerationBack(s, e, a, generation);
      }
      if HasGeneration(states[i], b, generation) && !HasGeneration(s, b, generation) {
        GenerationBack(s, e, b, generation);
      }
    }
  }

  lemma NoneYet(op: Token, generation: nat)
    ensures !HasGeneration(Initial(), op, generation)
  {
  }

  /** No generation is ever used twice: whatever belongs to a token now was drawn before,
      and never belongs to another token, now or later. */
  lemma {:induction false} GenerationsUnique(
    states: seq<System>, events: seq<Event>, i: nat, j: nat, a: Token, b: Token, generation: nat)
    requires Execution(states, events) && i <= j < |states| && HasGeneration(states[i], a, generation)
    ensures generation < states[i].count.operation <= states[j].count.operation
    ensures HasGeneration(states[j], b, generation) ==> a == b
  {
    hide Inv, Enabled, Next, HasGeneration;
    GenerationsAlong(states, events, i, a, b, generation);
    if i < j {
      GenerationsUnique(states, events, i, j - 1, a, b, generation);
      var s, e := states[j - 1], events[j - 1];
      Reachable(states, events, j - 1);
      CountsUp(s, e);
      if HasGeneration(states[j], b, generation) && !HasGeneration(s, b, generation) {
        GenerationBack(s, e, b, generation);
      }
    }
  }
}
