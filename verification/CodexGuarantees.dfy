/** Sessions, operations and tokens: what holds in every reachable state, and what a
    cancel guarantees once it has returned. */
module CodexGuarantees {
  import opened Options
  import opened CodexTypes
  import opened CodexRegistry
  import opened CodexProtocol
  import opened CodexInvariant
  import opened CodexFrames
  import opened CodexMoves
  import opened CodexCancelSteps
  import opened CodexCommandSteps
  import opened CodexTeardownSteps
  import opened CodexReachable
  import opened CodexEffects
  import opened CodexTheorems

  // ---------- teardown and sessions ----------

  /** Nothing is registered anywhere and no child that was ever started is alive, or has
      a reader or an artifact left. */
  predicate Clean(s: System) {
    && s.reg == Registries(map[], map[], map[], map[])
    && forall r :: 0 <= r < |s.runs| ==> s.runs[r].Settled()
  }

  lemma TeardownDone(s: System, t: nat)
    requires Inv(s) && t in s.threads && s.threads[t].main.TdBump?
    ensures Clean(s)
  {
    hide Inv, HostOf, SharedOk, Answered;
    var th := s.threads[t];
    HostKnows(s, t);
    TeardownAt(s, t, th);
    LeaveAnswered(s, th);
    SettledAll(s);
  }

  lemma SettledAll(s: System)
    requires Answered(s, None) && s.reg.active == map[] && s.reg.slots == map[]
    ensures forall r :: 0 <= r < |s.runs| ==> s.runs[r].Settled()
  {
    hide Quiescent, Fence, Slots;
    forall r | 0 <= r < |s.runs| ensures s.runs[r].Settled() {
      assert s.runs[r].Settled() || Owned(s.reg, None, s.runs[r], r);
    }
  }

  /** A teardown succeeds only when everything is clean, and the session generation
      changes at no other moment; no step ever leaves it in between. */
  lemma SessionChangesOnlyWhenClean(s: System, e: Event)
    requires Reached(s) && Enabled(s, e)
    requires Next(s, e).count.session != s.count.session
    ensures Clean(s) && Clean(Next(s, e))
    ensures Next(s, e).count.session == NextSession(s.count.session) != 0
  {
    hide Inv, ThreadStep, Allowed, Want, Effect, HostOf, Clean, NextSession;
    ReachedInv(s);
    match e
    case Work(t, c) =>
      var th, s' := s.threads[t], ThreadStep(s, t, s.threads[t], c);
      ThreadEffect(s, t, th, c);
      BumpKnown(s, t, th, s');
      TeardownDone(s, t);
      assert Clean(s') by { CleanSame(s, s'); }
      NextSessionNew(s.count.session);
    case _ =>
  }

  lemma BumpKnown(s: System, t: nat, th: Thread, s': System)
    requires Effect(s, t, th, s') && s'.count.session != s.count.session
    ensures th.main.TdBump? && s'.reg == s.reg && s'.runs == s.runs
    ensures s'.count.session == NextSession(s.count.session)
  {
    hide Mints, Finishes, Spawns, FenceSet, Cancelling, NextSession;
  }

  lemma CleanSame(s: System, s': System)
    requires Clean(s) && s'.reg == s.reg && s'.runs == s.runs
    ensures Clean(s')
  {
  }

  lemma NextSessionNew(current: nat)
    ensures 0 < NextSession(current) < 0x1_0000_0000_0000_0000
    ensures current < 0x1_0000_0000_0000_0000 ==> NextSession(current) != current
  {
  }

  lemma {:induction false} SessionBound(states: seq<System>, events: seq<Event>, i: nat)
    requires Execution(states, events) && i < |states|
    ensures states[i].count.session < 0x1_0000_0000_0000_0000
  {
    hide Enabled, Next, NextSession, Clean;
    if i > 0 {
      SessionBound(states, events, i - 1);
      var s, e := states[i - 1], events[i - 1];
      ExecutionReaches(states, events, i - 1);
      if Next(s, e).count.session != s.count.session {
        SessionChangesOnlyWhenClean(s, e);
        NextSessionNew(s.count.session);
      }
    }
  }

  /** The last step of a teardown does install a different session generation. */
  lemma TeardownAdvancesSession(states: seq<System>, events: seq<Event>, i: nat, t: nat)
    requires Execution(states, events) && i < |events|
    requires events[i].Work? && events[i].t == t && AtMain(states[i].threads[t])
    requires states[i].threads[t].main.TdBump?
    ensures Clean(states[i]) && Clean(states[i + 1])
    ensures states[i + 1].count.session != states[i].count.session && states[i + 1].count.session != 0
  {
    hide Inv, Clean, NextSession;
    SessionBound(states, events, i);
    Reachable(states, events, i);
    TeardownDone(states[i], t);
    NextSessionNew(states[i].count.session);
    assert Clean(states[i + 1]) by { CleanSame(states[i], states[i + 1]); }
  }

  /** Every registered entry belongs to the current session, and its token was handed
      out in it. */
  lemma SessionsUniform(s: System, op: Token)
    requires Reached(s)
    ensures op in s.reg.prepared ==> s.reg.prepared[op].session == s.count.session
    ensures op in s.reg.pending ==> s.reg.pending[op].session == s.count.session
    ensures op in s.reg.active ==> s.reg.active[op].session == s.count.session
    ensures op in s.reg.prepared || op in s.reg.pending || op in s.reg.active ==>
      op in s.past.minted && s.past.minted[op] == s.count.session && op < s.count.operation
  {
    hide Inv, RunsWf, Refers, Linked, Answered, Streams, Mutex, HostFacts;
    ReachedInv(s);
    Parts(s);
  }

  // ---------- pending operations ----------

  /** Outside an execution of its own, an operation is pending only because it has been
      cancelled or because its child is still registered. */
  lemma OperationsQuiescent(s: System, op: Token)
    requires Reached(s) && op in s.reg.pending && !HostBegun(HostThread(s.threads, s.host), op)
    ensures s.reg.pending[op].cancelled
      || (op in s.reg.active && s.reg.active[op].generation == s.reg.pending[op].generation)
  {
    hide Inv, RunsWf, Refers, Uniform, Fence, Slots, Custody, Streams, Mutex, HostFacts;
    ReachedInv(s);
    Parts(s);
  }

  /** The error branch of a teardown for operations that are not cancelled cannot be
      entered: whatever is pending at that point has been flagged. */
  lemma TeardownFindsOnlyFlagged(s: System, t: nat)
    requires Reached(s) && t in s.threads && s.threads[t].main.TdPend?
    ensures !Unresolved(s.reg.pending)
  {
    hide Inv, HostOf, SharedOk, Answered, Unresolved;
    ReachedInv(s);
    HostKnows(s, t);
    TeardownAt(s, t, s.threads[t]);
    PendingResolved(s, s.threads[t]);
  }

  // ---------- tokens ----------

  /** Each token has led to at most one child, and not while it is still prepared. */
  lemma TokensSingleUse(s: System, q: RunId, r: RunId)
    requires Reached(s) && q < |s.runs| && r < |s.runs|
    requires s.runs[q].token.Some? && s.runs[q].token == s.runs[r].token
    ensures q == r && s.runs[q].token.value !in s.reg.prepared
  {
    hide Inv, Refers, Uniform, Linked, Answered, Streams, Mutex, HostFacts;
    ReachedInv(s);
    Parts(s);
    assert RunWf(s.runs[q], s.reg.prepared, s.past.minted);
  }

  /** A token that is about to be handed out has never been handed out before, in any
      session, and has never been seen by any registry or child. */
  lemma TokensFresh(s: System, t: nat)
    requires Reached(s) && t in s.threads && s.threads[t].main.PrepInsert?
    ensures var op := s.threads[t].op;
      && op !in s.past.minted && op !in s.reg.prepared && op !in s.reg.pending && op !in s.reg.active
      && Unspawned(s.runs, op)
  {
    hide Inv, HostOf, SharedOk, Answered;
    ReachedInv(s);
    HostKnows(s, t);
    StraightParts(s, t, s.threads[t]);
    UnmintedUnknown(s, s.threads[t].op);
  }

  lemma UnmintedUnknown(s: System, op: Token)
    requires SharedOk(s) && op !in s.past.minted
    ensures op !in s.reg.prepared && op !in s.reg.pending && op !in s.reg.active && Unspawned(s.runs, op)
  {
    hide Linked, Refers;
    forall r | 0 <= r < |s.runs| ensures s.runs[r].token != Some(op) {
      assert RunWf(s.runs[r], s.reg.prepared, s.past.minted);
    }
  }

  /** The number of prepared leases never exceeds its cap. */
  lemma {:induction false} PreparedBounded(states: seq<System>, events: seq<Event>, i: nat)
    requires Execution(states, events) && i < |states|
    ensures |states[i].reg.prepared| <= PREPARED_LEASE_CAP
  {
    hide Inv, Effect, ThreadStep, Allowed, Want;
    if i > 0 {
      PreparedBounded(states, events, i - 1);
      Reachable(states, events, i - 1);
      var s, e := states[i - 1], events[i - 1];
      if e.Work? {
        ThreadEffect(s, e.t, s.threads[e.t], e.c);
        PreparedEffect(s, e.t, s.threads[e.t], states[i]);
      }
    }
  }

  lemma PreparedEffect(s: System, t: nat, th: Thread, s': System)
    requires Effect(s, t, th, s')
    ensures |s'.reg.prepared| <= |s.reg.prepared| || |s'.reg.prepared| <= PREPARED_LEASE_CAP
  {
    hide Mints, Finishes, Spawns, FenceSet, Cancelling;
  }

  // ---------- recovery slots ----------

  /** There is never more than one recovery slot; between host operations it is retained;
      and a run without a token starts from an empty slot registry, so its reservation
      cannot be refused. */
  lemma AtMostOneRecovery(s: System, t: nat)
    requires Reached(s)
    ensures |s.reg.slots| <= 1
    ensures s.host == None ==> forall key :: key in s.reg.slots ==> s.reg.slots[key].Retained?
    ensures t in s.threads && s.threads[t].main.UxSlot? ==>
      s.reg.slots == map[] && ReserveSlot(s.reg.slots, s.count.slot).Ok?
  {
    hide Inv, HostOf, SharedOk, Quiescent, Fence, Custody, Streams, Mutex, HostFacts;
    ReachedInv(s);
    Parts(s);
    if t in s.threads && s.threads[t].main.UxSlot? {
      HostKnows(s, t);
      StraightParts(s, t, s.threads[t]);
    }
  }

  // ---------- results ----------

  /** A worker call that is about to return a result: the operation was not cancelled, its
      only child is dead and cleaned up, and both output readers were joined by the call
      itself, so no cancel took any of its output. */
  lemma ResultIsOwn(s: System, t: nat)
    requires Reached(s) && t in s.threads && Finishes(s, s.threads[t], s.threads[t].op)
    ensures var op, r := s.threads[t].op, s.threads[t].run;
      && op in s.reg.pending && !s.reg.pending[op].cancelled && op !in s.reg.active && op !in s.past.fenced
      && r < |s.runs| && s.runs[r].token == Some(op) && s.runs[r].Settled()
      && s.runs[r].stdout == Done(false, t) && s.runs[r].stderr == Done(false, t)
  {
    hide Inv, HostOf;
    ReachedInv(s);
    HostKnows(s, t);
    FinishFacts(s, t, s.threads[t]);
  }

  /** Only such a call records a result. */
  lemma ResultsRecorded(s: System, e: Event, op: Token)
    requires Reached(s) && Enabled(s, e)
    requires op in Next(s, e).past.completed && op !in s.past.completed
    ensures e.Work? && Finishes(s, s.threads[e.t], s.threads[e.t].op) && s.threads[e.t].op == op
  {
    hide Inv, ThreadStep, Allowed, Want, Effect, HostOf;
    ReachedInv(s);
    match e
    case Work(t, c) =>
      ThreadEffect(s, t, s.threads[t], c);
      FinishKnown(s, t, s.threads[t], ThreadStep(s, t, s.threads[t], c), op);
    case _ =>
  }

  /** A thread that has ended never comes back. */
  lemma {:induction false} EndedThread(states: seq<System>, events: seq<Event>, i: nat, j: nat, t: nat)
    requires Execution(states, events) && i <= j < |states|
    requires t < states[i].nextThread && t !in states[i].threads
    ensures t < states[j].nextThread && t !in states[j].threads
  {
    hide Inv, Enabled, Next;
    if i < j {
      EndedThread(states, events, i, j - 1, t);
      Reachable(states, events, j - 1);
      StaysEnded(states[j - 1], events[j - 1], t);
    }
  }

  lemma StaysEnded(s: System, e: Event, t: nat)
    requires Inv(s) && Enabled(s, e) && t < s.nextThread && t !in s.threads
    ensures t < Next(s, e).nextThread && t !in Next(s, e).threads
  {
    hide Inv, ThreadStep, Allowed, Want, Effect;
    match e
    case Work(u, c) =>
      var s' := ThreadStep(s, u, s.threads[u], c);
      ThreadEffect(s, u, s.threads[u], c);
      EffectThreads(s, u, s.threads[u], s');
      assert t in s'.threads ==> t in s'.threads - {u};
    case _ =>
  }

  lemma FinishEnds(s: System, t: nat, c: Choice)
    requires t in s.threads && Enabled(s, Work(t, c)) && AtMain(s.threads[t]) && s.threads[t].main.ExFinish?
    ensures t !in Next(s, Work(t, c)).threads
  {
    hide Want, Allowed, FinishPending;
  }

  lemma Belongs(s: System, t: nat)
    requires Inv(s) && t in s.threads
    ensures t < s.nextThread
  {
    hide Inv, HostOf, CancelOf, JoinOf, Want;
    Facts(s, t, s.threads[t]);
  }

  /** A token returns at most one result. */
  lemma ResultOnce(states: seq<System>, events: seq<Event>, i: nat, j: nat, op: Token)
    requires Execution(states, events) && i < j < |events| && events[i].Work? && events[j].Work?
    requires Finishes(states[i], states[i].threads[events[i].t], op)
    ensures !Finishes(states[j], states[j].threads[events[j].t], op)
  {
    hide Inv, Enabled, Next, Execution;
    EventsEnabled(states, events, i);
    EventsEnabled(states, events, j);
    var s, s', t, u := states[i], states[j], events[i].t, events[j].t;
    ExecutionReaches(states, events, i);
    ExecutionReaches(states, events, j);
    ReachedInv(s);
    Belongs(s, t);
    FinishEnds(s, t, events[i].c);
    StaysBelow(s, events[i]);
    EndedThread(states, events, i + 1, j, t);
    if Finishes(s', s'.threads[u], op) {
      ResultIsOwn(s, t);
      ResultIsOwn(s', u);
      ExecutionMonotone(states, events, i, j);
      var q, r := s.threads[t].run, s'.threads[u].run;
      assert RunEvolves(s.runs[q], s'.runs[q]);
      TokensSingleUse(s', q, r);
    }
  }

  lemma EventsEnabled(states: seq<System>, events: seq<Event>, i: nat)
    requires Execution(states, events) && i < |events|
    ensures |states| == |events| + 1 && Enabled(states[i], events[i]) && states[i + 1] == Next(states[i], events[i])
    ensures events[i].Work? ==> events[i].t in states[i].threads
  {
    hide Next, Allowed, Want;
  }

  lemma StaysBelow(s: System, e: Event)
    requires Inv(s) && Enabled(s, e)
    ensures s.nextThread <= Next(s, e).nextThread
  {
    hide Inv, ThreadStep, Allowed, Want, Effect;
    match e
    case Work(u, c) =>
      ThreadEffect(s, u, s.threads[u], c);
      EffectThreads(s, u, s.threads[u], ThreadStep(s, u, s.threads[u], c));
    case _ =>
  }

  lemma FinishKnown(s: System, t: nat, th: Thread, s': System, op: Token)
    requires Effect(s, t, th, s') && op in s'.past.completed && op !in s.past.completed
    ensures Finishes(s, th, op)
  {
    hide Mints, Finishes, Spawns, FenceSet, Cancelling;
  }

  lemma FinishFacts(s: System, t: nat, th: Thread)
    requires HostOf(s.reg, s.count, s.runs, s.past, t, th) && Answered(s, Some(th)) && SharedOk(s)
    requires Finishes(s, th, th.op)
    ensures th.op in s.reg.pending && !s.reg.pending[th.op].cancelled && th.op !in s.reg.active
    ensures th.op !in s.past.fenced
    ensures th.run < |s.runs| && s.runs[th.run].token == Some(th.op) && s.runs[th.run].Settled()
    ensures s.runs[th.run].stdout == Done(false, t) && s.runs[th.run].stderr == Done(false, t)
  {
    hide RunsWf, Refers, Quiescent, Slots, Custody, CleanOf, RetryOf, RetryWaitOf, TeardownOf, OtherHostOf, Unspawned;
  }

  /** A finish always finds the entry that its own call began, whatever other commands and
      earlier uses of the token did. It is refused exactly while a child of the operation is
      still registered, and never after a run that was cleaned up without error. */
  lemma FinishFindsOwnEntry(s: System, t: nat)
    requires Reached(s) && t in s.threads && s.threads[t].main.ExFinish?
    ensures var th := s.threads[t];
      && th.op in s.reg.pending && s.reg.pending[th.op].generation == th.generation
      && FinishPending(s.reg.active, s.reg.pending, th.op, th.generation)
         == (if th.op in s.reg.active then Err(ActiveRetained) else Ok(s.reg.pending[th.op].cancelled))
      && (th.res ==> th.op !in s.reg.active)
  {
    hide Inv, HostOf;
    ReachedInv(s);
    HostKnows(s, t);
    FinishEntry(s, t, s.threads[t]);
  }

  lemma FinishEntry(s: System, t: nat, th: Thread)
    requires HostOf(s.reg, s.count, s.runs, s.past, t, th) && SharedOk(s) && th.main.ExFinish?
    ensures th.op in s.reg.pending && s.reg.pending[th.op].generation == th.generation
    ensures FinishPending(s.reg.active, s.reg.pending, th.op, th.generation)
         == (if th.op in s.reg.active then Err(ActiveRetained) else Ok(s.reg.pending[th.op].cancelled))
    ensures th.res ==> th.op !in s.reg.active
  {
    hide RunsWf, Refers, Quiescent, Slots, Custody, CleanOf, RetryOf, RetryWaitOf, TeardownOf, OtherHostOf, Unspawned;
  }

  // ---------- cancellation ----------

  /** No later child for the token, and no later result. */
  ghost predicate Stopped(s: System, s': System, op: Token) {
    && (op in s'.past.completed ==> op in s.past.completed)
    && (forall r :: |s.runs| <= r < |s'.runs| ==> s'.runs[r].token != Some(op))
  }

  lemma FencedStep(s: System, e: Event, op: Token)
    requires Reached(s) && Enabled(s, e) && op in s.past.fenced
    ensures Stopped(s, Next(s, e), op)
  {
    hide Inv, ThreadStep, Allowed, Want, Effect, HostOf;
    ReachedInv(s);
    if op in Next(s, e).past.completed && op !in s.past.completed {
      ResultsRecorded(s, e, op);
      ResultIsOwn(s, e.t);
    }
    match e
    case Work(t, c) =>
      var th, s' := s.threads[t], ThreadStep(s, t, s.threads[t], c);
      ThreadEffect(s, t, th, c);
      RegistrationNeverFails(s, t, 0);
      SpawnOther(s, t, th, s', op);
    case _ =>
  }

  lemma SpawnOther(s: System, t: nat, th: Thread, s': System, op: Token)
    requires Effect(s, t, th, s') && (th.main.ExSpawn? ==> th.op != op)
    ensures forall r :: |s.runs| <= r < |s'.runs| ==> s'.runs[r].token != Some(op)
  {
    hide Mints, Finishes, FenceSet, Cancelling;
  }

  lemma {:induction false} FencedForever(
    states: seq<System>, events: seq<Event>, j: nat, k: nat, op: Token)
    requires Execution(states, events) && j <= k < |states| && op in states[j].past.fenced
    ensures Stopped(states[j], states[k], op)
  {
    hide Enabled, Next;
    if j < k {
      FencedForever(states, events, j, k - 1, op);
      ExecutionMonotone(states, events, j, k - 1);
      ExecutionReaches(states, events, k - 1);
      FencedStep(states[k - 1], events[k - 1], op);
      GrowsFrom(states, events, j, k);
    }
  }

  lemma GrowsFrom(states: seq<System>, events: seq<Event>, j: nat, k: nat)
    requires Execution(states, events) && j < k < |states|
    ensures |states[j].runs| <= |states[k - 1].runs| <= |states[k].runs|
    ensures forall r :: 0 <= r < |states[k - 1].runs| ==> states[k].runs[r].token == states[k - 1].runs[r].token
  {
    hide Execution, MintedGrows;
    ExecutionMonotone(states, events, j, k - 1);
    ExecutionMonotone(states, events, k - 1, k);
    assert forall r :: 0 <= r < |states[k - 1].runs| ==> RunEvolves(states[k - 1].runs[r], states[k].runs[r]);
  }

  /** A cancel call in progress, or already returned with its token fenced. */
  ghost predicate CallOf(s: System, t: nat, op: Token) {
    && t < s.nextThread
    && (t in s.threads ==>
          var th := s.threads[t];
          && th.main.CancelOnly? && th.cancel.op == op && th.cancel.armed
          && (th.cancel.pc.KNone? ==> op in s.past.fenced))
    && (t !in s.threads ==> op in s.past.fenced)
  }

  lemma CallStarts(s: System, op: Token, session: nat)
    requires op in s.past.minted && s.past.minted[op] == session
    ensures CallOf(StartStep(s, Cancel(op, session)), s.nextThread, op)
  {
  }

  lemma CallStep(s: System, e: Event, t: nat, op: Token)
    requires Inv(s) && Enabled(s, e) && CallOf(s, t, op)
    ensures CallOf(Next(s, e), t, op)
  {
    hide Inv, ThreadStep, Allowed, Want, Effect;
    match e
    case Start(call) =>
    case Acquire(u) =>
    case Work(u, c) =>
      ThreadEffect(s, u, s.threads[u], c);
      CallEffect(s, u, s.threads[u], ThreadStep(s, u, s.threads[u], c), t, op);
    case Exit(r) =>
  }

  lemma CallEffect(s: System, u: nat, th: Thread, s': System, t: nat, op: Token)
    requires Effect(s, u, th, s') && CallOf(s, t, op) && u in s.threads && th == s.threads[u]
    ensures CallOf(s', t, op)
  {
    hide Mints, Finishes, Spawns;
    if t != u {
      assert t in s.threads <==> t in s.threads - {u};
      assert t in s'.threads <==> t in s'.threads - {u};
      assert t in s.threads ==> (s.threads - {u})[t] == s.threads[t];
      assert t in s'.threads ==> (s'.threads - {u})[t] == s'.threads[t];
    }
  }

  lemma {:induction false} CallReturns(
    states: seq<System>, events: seq<Event>, i: nat, j: nat, op: Token, session: nat)
    requires Execution(states, events) && i < j < |states| && events[i] == Start(Cancel(op, session))
    requires op in states[i].past.minted && states[i].past.minted[op] == session
    ensures CallOf(states[j], states[i].nextThread, op)
  {
    hide Inv, CallOf;
    if j == i + 1 {
      Reachable(states, events, i);
      CallStarts(states[i], op, session);
    } else {
      CallReturns(states, events, i, j - 1, op, session);
      Reachable(states, events, j - 1);
      CallStep(states[j - 1], events[j - 1], states[i].nextThread, op);
    }
  }

  /** No lost cancellation. A cancel is called after the token was handed out, for its
      session, and has returned by state `j`, whatever it returned; the operation has not
      completed by then. Then the operation never returns a result and never gets a child
      that it does not already have, whatever the other threads do. */
  lemma NoLostCancellation(
    states: seq<System>, events: seq<Event>, i: nat, j: nat, k: nat, op: Token, session: nat)
    requires Execution(states, events) && i < j <= k < |states|
    requires events[i] == Start(Cancel(op, session))
    requires op in states[i].past.minted && states[i].past.minted[op] == session
    requires states[i].nextThread !in states[j].threads && op !in states[j].past.completed
    ensures op !in states[k].past.completed
    ensures forall r :: |states[j].runs| <= r < |states[k].runs| ==> states[k].runs[r].token != Some(op)
  {
    hide Execution;
    CallReturns(states, events, i, j, op, session);
    FencedForever(states, events, j, k, op);
  }

  // ---------- the answer of a cancel ----------

  /** Every child that the token ever had is dead and cleaned up. */
  ghost predicate Ended(s: System, op: Token) {
    forall r :: 0 <= r < |s.runs| && s.runs[r].token == Some(op) ==> s.runs[r].Settled()
  }

  /** A cancel returns without an error only when its token has no child left to end. */
  lemma ConfirmsEnded(s: System, t: nat)
    requires Inv(s) && t in s.threads
    requires Confirms(s, s.threads[t].cancel) && s.threads[t].cancel.armed
    ensures Ended(s, s.threads[t].cancel.op)
  {
    hide Inv, HostOf, JoinOf, Want, SharedOk, Answered, Mutex, Streams, HostFacts;
    var k := s.threads[t].cancel;
    Facts(s, t, s.threads[t]);
    Parts(s);
    forall r | 0 <= r < |s.runs| && s.runs[r].token == Some(k.op) ensures s.runs[r].Settled() {
      if !s.runs[r].Settled() {
        UnsettledAccounted(s, r);
        ConfirmedGone(s, k, r);
      }
    }
  }

  lemma ConfirmedGone(s: System, k: CancelFrame, r: RunId)
    requires SharedOk(s) && CancelOf(s.reg, s.runs, s.past, k) && Confirms(s, k) && k.armed
    requires r < |s.runs| && s.runs[r].token == Some(k.op) && Accounted(s, r)
    ensures s.runs[r].Settled()
  {
    hide RunsWf, Refers, Linked;
  }

  lemma EndedStep(s: System, e: Event, op: Token)
    requires Reached(s) && Enabled(s, e) && op in s.past.fenced && Ended(s, op)
    ensures Ended(Next(s, e), op)
  {
    hide Inv, Enabled, Next, MintedGrows;
    ReachedInv(s);
    FencedStep(s, e, op);
    StepMonotone(s, e);
    assert forall r :: 0 <= r < |s.runs| ==> RunEvolves(s.runs[r], Next(s, e).runs[r]);
  }

  /** The call is about to return, without an error. */
  predicate SaidOk(s: System, t: nat) {
    t in s.threads && s.threads[t].cancel.pc.KNone? && s.threads[t].cancel.ok
  }

  lemma SaidOkEarlier(s: System, e: Event, t: nat)
    requires Inv(s) && Enabled(s, e) && t < s.nextThread && SaidOk(Next(s, e), t) && !(e.Work? && e.t == t)
    ensures SaidOk(s, t)
  {
    hide Inv, ThreadStep, Allowed, Want, Effect;
    match e
    case Start(call) =>
    case Acquire(u) =>
    case Work(u, c) =>
      var s' := ThreadStep(s, u, s.threads[u], c);
      ThreadEffect(s, u, s.threads[u], c);
      EffectThreads(s, u, s.threads[u], s');
      assert t in s'.threads - {u} && (s'.threads - {u})[t] == s'.threads[t];
      assert t in s.threads - {u} && (s.threads - {u})[t] == s.threads[t];
    case Exit(r) =>
  }

  lemma SaidOkNow(s: System, t: nat, th: Thread, s': System, op: Token)
    requires Effect(s, t, th, s') && CallOf(s, t, op) && t in s.threads && th == s.threads[t] && SaidOk(s', t)
    ensures Confirms(s, th.cancel) && th.cancel.armed && th.cancel.op == op && |s'.runs| == |s.runs|
  {
    hide Mints, Finishes, Confirms;
  }

  /** What an answer without an error means, at every moment from then on. */
  ghost predicate AnswerOf(s: System, t: nat, op: Token) {
    SaidOk(s, t) ==> Ended(s, op)
  }

  lemma AnswerStep(s: System, e: Event, t: nat, op: Token)
    requires Reached(s) && Enabled(s, e) && CallOf(s, t, op) && AnswerOf(s, t, op)
    ensures AnswerOf(Next(s, e), t, op)
  {
    hide Inv, Enabled, Next, Ended, Effect, Evolves, Confirms;
    ReachedInv(s);
    if SaidOk(Next(s, e), t) {
      if e.Work? && e.t == t {
        AnswerOwn(s, t, e.c, op);
      } else {
        SaidOkEarlier(s, e, t);
        EndedStep(s, e, op);
      }
    }
  }

  lemma AnswerOwn(s: System, t: nat, c: Choice, op: Token)
    requires Inv(s) && Enabled(s, Work(t, c)) && CallOf(s, t, op) && SaidOk(Next(s, Work(t, c)), t)
    ensures Ended(Next(s, Work(t, c)), op)
  {
    hide Inv, ThreadStep, Allowed, Want, Effect, Confirms, CallOf;
    var th, s' := s.threads[t], ThreadStep(s, t, s.threads[t], c);
    ThreadEffect(s, t, th, c);
    SaidOkNow(s, t, th, s', op);
    ConfirmsEnded(s, t);
    ThreadGrows(s, t, th, c);
    assert forall r :: 0 <= r < |s.runs| ==> RunEvolves(s.runs[r], s'.runs[r]);
  }

  lemma {:induction false} AnswerKept(
    states: seq<System>, events: seq<Event>, i: nat, j: nat, op: Token, session: nat)
    requires Execution(states, events) && i < j < |states| && events[i] == Start(Cancel(op, session))
    requires op in states[i].past.minted && states[i].past.minted[op] == session
    ensures AnswerOf(states[j], states[i].nextThread, op)
  {
    hide Inv, CallOf, AnswerOf;
    if j == i + 1 {
      FirstAnswer(states[i], op, session);
    } else {
      AnswerKept(states, events, i, j - 1, op, session);
      CallReturns(states, events, i, j - 1, op, session);
      ExecutionReaches(states, events, j - 1);
      AnswerStep(states[j - 1], events[j - 1], states[i].nextThread, op);
    }
  }

  lemma FirstAnswer(s: System, op: Token, session: nat)
    ensures AnswerOf(StartStep(s, Cancel(op, session)), s.nextThread, op)
  {
    hide Ended;
  }

  lemma {:induction false} EndedForever(states: seq<System>, events: seq<Event>, j: nat, k: nat, op: Token)
    requires Execution(states, events) && j <= k < |states| && op in states[j].past.fenced && Ended(states[j], op)
    ensures Ended(states[k], op)
  {
    hide Enabled, Next, Ended;
    if j < k {
      EndedForever(states, events, j, k - 1, op);
      ExecutionMonotone(states, events, j, k - 1);
      ExecutionReaches(states, events, k - 1);
      EndedStep(states[k - 1], events[k - 1], op);
    }
  }

  /** What the answer of a cancel means. If a cancel that was called after the token was
      handed out, for its session, returns without an error, then every child that the
      token ever had is dead and cleaned up, and stays so. */
  lemma OkCancelEnds(
    states: seq<System>, events: seq<Event>, i: nat, j: nat, k: nat, op: Token, session: nat)
    requires Execution(states, events) && i < j <= k < |states|
    requires events[i] == Start(Cancel(op, session))
    requires op in states[i].past.minted && states[i].past.minted[op] == session
    requires SaidOk(states[j], states[i].nextThread)
    ensures Ended(states[k], op)
  {
    hide Execution, Ended;
    AnswerKept(states, events, i, j, op, session);
    CallReturns(states, events, i, j, op, session);
    EndedForever(states, events, j, k, op);
  }

  /** Fail closed, seen by the caller: if a reader of the token's child ever ends in an
      error, no such cancel returns without an error, before or after. */
  lemma FailedStreamRefusesCancel(
    states: seq<System>, events: seq<Event>, i: nat, j: nat, k: nat, op: Token, session: nat, r: RunId, out: bool)
    requires Execution(states, events) && i < j < |states| && k < |states|
    requires events[i] == Start(Cancel(op, session))
    requires op in states[i].past.minted && states[i].past.minted[op] == session
    requires r < |states[k].runs| && states[k].runs[r].token == Some(op)
    requires states[k].runs[r].StreamOf(out).Done? && states[k].runs[r].StreamOf(out).failed
    ensures !SaidOk(states[j], states[i].nextThread)
  {
    hide Execution, Accounted;
    if SaidOk(states[j], states[i].nextThread) {
      if k <= j {
        OkCancelEnds(states, events, i, j, j, op, session);
        FailedStreamStays(states, events, k, j, r, out);
        ExecutionMonotone(states, events, k, j);
        SameToken(states[k], states[j], r);
      } else {
        OkCancelEnds(states, events, i, j, k, op, session);
      }
    }
  }

  lemma SameToken(s: System, s': System, r: RunId)
    requires Later(s, s') && r < |s.runs|
    ensures r < |s'.runs| && s'.runs[r].token == s.runs[r].token
  {
    assert RunEvolves(s.runs[r], s'.runs[r]);
  }
}
