/** The exceptional case: a teardown that fails after it has flagged an operation whose
    child it could not end. */
module CodexStuck {
  import opened CodexTypes
  import opened CodexRegistry
  import opened CodexProtocol
  import opened CodexInvariant
  import opened CodexMoves
  import opened CodexCancelSteps
  import opened CodexCommandSteps
  import opened CodexTeardownSteps
  import opened CodexReachable
  import opened CodexEffects
  import opened CodexTheorems
  import opened CodexLinks
  import opened CodexOnward
  import opened CodexGuarantees

  /** The child is registered, its pending operation is gone, and no cancel that found the
      operation before can still end the child. */
  ghost predicate Stuck(s: System, op: Token) {
    && op in s.reg.active && op !in s.reg.pending
    && forall t :: t in s.threads ==> Beside(s.threads[t], op)
  }

  predicate Beside(th: Thread, op: Token) {
    !Able(th, op)
  }

  lemma OwnBeside(s: System, t: nat, th: Thread, op: Token, c: Choice)
    requires Ready(s, t, th) && Beside(th, op) && op !in s.reg.pending
    ensures t in ThreadStep(s, t, th, c).threads ==> Beside(ThreadStep(s, t, th, c).threads[t], op)
  {
    hide Inv, ThreadStep, Want, Below, HostOf, CancelOf, JoinOf;
    Facts(s, t, th);
    ThreadOnward(s, t, th, c);
  }

  lemma OtherBeside(s: System, t: nat, th: Thread, s': System, op: Token)
    requires Effect(s, t, th, s') && Stuck(s, op) && (t in s'.threads ==> Beside(s'.threads[t], op))
    ensures forall u :: u in s'.threads ==> Beside(s'.threads[u], op)
  {
    hide Deed, FenceSet, Cancelling, Beside;
    forall u | u in s'.threads && u != t ensures Beside(s'.threads[u], op) {
      assert u in s'.threads - {t} && (s'.threads - {t})[u] == s'.threads[u];
      assert u in s.threads - {t} && (s.threads - {t})[u] == s.threads[u];
    }
  }

  /** None of the sections that change the entries of a token applies. */
  lemma StuckEntries(s: System, e: Event, op: Token)
    requires Inv(s) && Enabled(s, e) && Stuck(s, op)
    ensures op in Next(s, e).reg.active && op !in Next(s, e).reg.pending
  {
    hide Inv, Enabled, Next;
    EventEntries(s, e, op);
  }

  lemma StepStuck(s: System, e: Event, op: Token)
    requires Inv(s) && Enabled(s, e) && Stuck(s, op)
    ensures Stuck(Next(s, e), op)
  {
    hide Inv, Stuck, Enabled, Next;
    StuckEntries(s, e, op);
    StuckThreads(s, e, op);
    StuckIs(Next(s, e), op);
  }

  lemma StuckIs(s: System, op: Token)
    requires op in s.reg.active && op !in s.reg.pending && forall t :: t in s.threads ==> Beside(s.threads[t], op)
    ensures Stuck(s, op)
  {
  }

  lemma StuckThreads(s: System, e: Event, op: Token)
    requires Inv(s) && Enabled(s, e) && Stuck(s, op)
    ensures forall t :: t in Next(s, e).threads ==> Beside(Next(s, e).threads[t], op)
  {
    hide Inv, ThreadStep, Allowed, Want, Effect;
    match e
    case Work(t, c) =>
      var th := s.threads[t];
      OwnBeside(s, t, th, op, c);
      ThreadEffect(s, t, th, c);
      OtherBeside(s, t, th, ThreadStep(s, t, th, c), op);
    case _ =>
  }

  /** A stuck child is stuck for ever: no cancel, teardown or execution ever removes its
      entry, and so the session generation never changes again. */
  lemma {:induction false} StuckForever(states: seq<System>, events: seq<Event>, j: nat, k: nat, op: Token)
    requires Execution(states, events) && j <= k < |states| && Stuck(states[j], op)
    ensures Stuck(states[k], op) && states[k].count.session == states[j].count.session
  {
    hide Inv, Enabled, Next;
    if j < k {
      StuckForever(states, events, j, k - 1, op);
      Reachable(states, events, k - 1);
      StepStuck(states[k - 1], events[k - 1], op);
      ExecutionReaches(states, events, k - 1);
      assert op in states[k - 1].reg.active;
      if states[k].count.session != states[k - 1].count.session {
        SessionChangesOnlyWhenClean(states[k - 1], events[k - 1]);
      }
    }
  }

  /** Exactly when the failing teardown makes a registered child stuck: when no cancel of
      it has already found the pending operation that is now dropped. */
  lemma DropMakesStuck(s: System, e: Event, op: Token)
    requires Reached(s) && Enabled(s, e) && DropsActive(s, e) && op in s.reg.active
    ensures Stuck(Next(s, e), op) <==> forall t :: t in s.threads ==> Beside(s.threads[t], op)
  {
    hide Inv, HostOf, SharedOk, Answered, Unresolved, RetainUncancelled, Enabled, Next;
    ReachedInv(s);
    var th := s.threads[e.t];
    DropStep(s, e);
    HostKnows(s, e.t);
    TeardownAt(s, e.t, th);
    PendingResolved(s, th);
    DropThreads(s, e.t, th, op);
  }

  lemma DropThreads(s: System, t: nat, th: Thread, op: Token)
    requires t in s.threads && th == s.threads[t] && AtMain(th) && op in s.reg.active
    requires !Unresolved(s.reg.pending) && RetainUncancelled(s.reg.pending) == map[]
    ensures Stuck(PendStep(s, t, th), op) <==> forall u :: u in s.threads ==> Beside(s.threads[u], op)
  {
    hide Unresolved, RetainUncancelled, Dropping;
    var s' := PendStep(s, t, th);
    assert forall u :: u in s.threads && u != t ==> u in s'.threads && s'.threads[u] == s.threads[u];
    assert Beside(th, op);
  }
}
