/** A concrete execution that ends with a stuck child: a worker fails to end its child, and
    so does the teardown that follows. */
module CodexStuckTrace {
  import opened Options
  import opened CodexTypes
  import opened CodexRegistry
  import opened CodexProtocol
  import opened CodexTheorems
  import opened CodexLinks
  import opened CodexStuck
  import opened CodexTrace

  /** The child cannot be ended: the execution fails and leaves it registered. */
  lemma ExecuteAborts(s: System, t: nat, th: Thread, r: RunId, op: Token, session: nat, generation: nat)
    requires th == RunThread(s, op, session, generation, RunStdin, r)
    requires r < |s.runs| && s.runs[r].alive && s.runs[r].handle && Reached(Solo(s, t, th))
    ensures Reached(Solo(s, t, StartClean(th, RunAbort)))
  {
    hide Reached;
    Goes(s, t, th, Pick(true), s, At(th, RunPoll));
    Goes(s, t, At(th, RunPoll), Pick(true), s, StartClean(th, RunAbort));
  }

  lemma ExecuteFails(s: System, t: nat, th: Thread, r: RunId, op: Token, session: nat, generation: nat)
    requires th == RunThread(s, op, session, generation, RunAbort, r)
    requires r < |s.runs| && s.runs[r].alive && s.runs[r].handle && Reached(Solo(s, t, StartClean(th, RunAbort)))
    ensures Reached(Solo(s, t, At(th, ExFinish)))
  {
    hide Reached;
    var c := Pick(false);
    assert SetRun(Solo(s, t, Full(StartClean(th, RunAbort))), r, s.runs[r])
        == Solo(s, t, Full(StartClean(th, RunAbort)));
    Goes(s, t, StartClean(th, RunAbort), c, s, th);
    Goes(s, t, th, c, s, At(th, ExFinish));
  }

  lemma FinishRefused(s: System, t: nat, th: Thread, r: RunId, op: Token, session: nat, generation: nat)
    requires th == RunThread(s, op, session, generation, ExFinish, r) && Reached(Solo(s, t, th))
    requires op in s.reg.active && op in s.reg.pending
    requires s.reg.active[op].generation == s.reg.pending[op].generation == generation
    ensures Reached(Idle(s, t))
  {
    hide Reached;
    Returns(s, t, th, Pick(false), s);
  }

  // ---------- a teardown that fails ----------

  lemma FailingSnaps(s: System, t: nat, th: Thread, todo: seq<(Token, nat)>, session: nat)
    requires th == At(TeardownThread(false, session), TdSnap) && Reached(Solo(s, t, th))
    requires Snapshot(s.reg.active, todo)
    ensures Reached(Solo(s, t, SetHost(th, TdCancel, th.host.(todo := todo))))
  {
    hide Reached, Snapshot;
    GoesListing(s, t, th, Pick(true).(todo := todo), s, SetHost(th, TdCancel, th.host.(todo := todo)));
  }

  function WithTodo(session: nat, m: Main, todo: seq<(Token, nat)>, errors: bool): Thread {
    var th := TeardownThread(false, session);
    SetHost(th, m, th.host.(todo := todo, errors := errors))
  }

  function CancelAt(session: nat, op: Token, pc: CancelPc, r: RunId, armed: bool): Thread {
    WithTodo(session, TdWait, [(op, session)], false)
      .(cancel := CancelFrame(pc, op, session, r, false, false, armed))
  }

  predicate Minted(s: System, op: Token, session: nat) {
    op in s.past.minted && s.past.minted[op] == session
  }

  lemma FailingCancels(s: System, t: nat, op: Token, session: nat)
    requires Reached(Solo(s, t, WithTodo(session, TdCancel, [(op, session)], false))) && Minted(s, op, session)
    ensures Reached(Solo(s, t, CancelAt(session, op, KLook, 0, true)))
  {
    hide Reached;
    Goes(
      s, t, WithTodo(session, TdCancel, [(op, session)], false), Pick(true), s, CancelAt(session, op, KLook, 0, true));
  }

  function FlaggedOp(s: System, op: Token): System
    requires op in s.reg.pending
  {
    s.(reg := s.reg.(pending := s.reg.pending[op := s.reg.pending[op].(cancelled := true)]))
  }

  lemma FailingFlags(s: System, t: nat, op: Token, session: nat, child: ActiveChild)
    requires op in s.reg.active && s.reg.active[op] == child && child.session == session
    requires op in s.reg.pending && s.reg.pending[op].session == session
    requires s.reg.pending[op].generation == child.generation
    requires Reached(Solo(s, t, CancelAt(session, op, KLook, 0, true)))
    ensures Reached(Solo(FlaggedOp(s, op), t, CancelAt(session, op, KKill, child.run, true)))
  {
    hide Reached;
    var c := Pick(true);
    Goes(s, t, CancelAt(session, op, KLook, 0, true), c, s, CancelAt(session, op, KFlag, child.run, true));
    Goes(s, t, CancelAt(session, op, KFlag, child.run, true), c,
         FlaggedOp(s, op), CancelAt(session, op, KKill, child.run, true));
  }

  function FencedOp(s: System, op: Token): System {
    s.(past := s.past.(fenced := s.past.fenced + {op}))
  }

  lemma FailingKills(s: System, t: nat, op: Token, session: nat, r: RunId)
    requires r < |s.runs| && s.runs[r].alive && s.runs[r].handle
    requires Reached(Solo(s, t, CancelAt(session, op, KKill, r, true)))
    ensures Reached(Solo(FencedOp(s, op), t, CancelAt(session, op, KNone, r, true)))
  {
    hide Reached;
    var th := CancelAt(session, op, KKill, r, true);
    assert SetRun(Solo(s, t, Full(th)), r, s.runs[r]) == Solo(s, t, Full(th));
    Goes(s, t, th, Pick(false), FencedOp(s, op), CancelAt(session, op, KNone, r, true));
  }

  function Waiting(th: Thread, m: Main): Thread {
    SetHost(th, m, th.host.(todo := [], errors := true))
  }

  lemma FailingPops(s: System, t: nat, th: Thread, op: Token, session: nat, r: RunId)
    requires th == CancelAt(session, op, KNone, r, true) && Reached(Solo(s, t, th))
    ensures Reached(Solo(s, t, Waiting(th, TdCancel)))
  {
    hide Reached;
    assert [(op, session)][1..] == [];
    assert TeardownPop(th.host, th.cancel.ok) == th.host.(todo := [], errors := true);
    hide TeardownPop;
    Goes(s, t, th, Pick(true), s, Waiting(th, TdCancel));
  }

  lemma FailingChecks(s: System, t: nat, th: Thread, op: Token, session: nat, r: RunId)
    requires th == CancelAt(session, op, KNone, r, true) && Reached(Solo(s, t, th))
    ensures Reached(Solo(s, t, Waiting(th, TdPend)))
  {
    hide Reached;
    var c := Pick(true);
    FailingPops(s, t, th, op, session, r);
    Goes(s, t, Waiting(th, TdCancel), c, s, Waiting(th, TdCheck));
    Goes(s, t, Waiting(th, TdCheck), c, s, Waiting(th, TdPend));
  }

  lemma FailingDrops(s: System, t: nat, th: Thread, op: Token, session: nat, r: RunId)
    requires th == Waiting(CancelAt(session, op, KNone, r, true), TdPend) && Reached(Solo(s, t, th))
    requires op in s.reg.active && !Unresolved(s.reg.pending)
    ensures Reached(Idle(DropPending(s), t))
  {
    hide Reached, Unresolved;
    DropAlone(s, t, Full(th));
    hide DropPending;
    Returns(s, t, th, Pick(true), DropPending(s));
  }

  lemma DropAlone(s: System, t: nat, th: Thread)
    ensures DropPending(Solo(s, t, th)) == Solo(DropPending(s), t, th)
  {
    hide Dropping, RetainUncancelled;
  }

  /** The failing run leaves its child registered, and the pending operation uncancelled. */
  lemma WorkerFails() returns (s: System)
    ensures Reached(s) && s.host == None && ChildRuns(s.(host := Some(0)), 0)
  {
    var s0, t := WorkerRuns();
    hide Reached;
    ExecuteAborts(s0, t, RunThread(s0, 0, 1, 1, RunStdin, 0), 0, 0, 1, 1);
    ExecuteFails(s0, t, RunThread(s0, 0, 1, 1, RunAbort, 0), 0, 0, 1, 1);
    FinishRefused(s0, t, RunThread(s0, 0, 1, 1, ExFinish, 0), 0, 0, 1, 1);
    s := Idle(s0, t);
  }

  lemma TeardownFlags() returns (s: System, t: nat)
    ensures s.threads == map[] && s.host == Some(t)
    ensures ChildRuns(s.(reg := s.reg.(pending := map[0 := Pending(1, 1, false)])), t)
    ensures s.reg.pending == map[0 := Pending(1, 1, true)]
    ensures Reached(Solo(s, t, CancelAt(1, 0, KKill, 0, true)))
  {
    var s0 := WorkerFails();
    t := s0.nextThread;
    var th, todo := TeardownThread(false, 1), [(0, 1)];
    Begin(s0, ClearSession(1));
    hide Reached;
    var s1 := s0.(nextThread := t + 1);
    SessionEnters(s1, t, th, false, 1);
    assert todo[0].0 == 0;
    FailingSnaps(Inside(s1, t), t, At(th, TdSnap), todo, 1);
    FailingCancels(Inside(s1, t), t, 0, 1);
    FailingFlags(Inside(s1, t), t, 0, 1, ActiveChild(1, 1, 0));
    s := FlaggedOp(Inside(s1, t), 0);
  }

  /** The link between active children and pending operations does break: after the
      failing teardown a living child is registered, its operation is forgotten, and no
      later cancel or teardown can remove it. */
  lemma StuckChildReachable() returns (s: System)
    ensures Reached(s) && s.past.dropped && Stuck(s, 0) && !LinkHolds(s)
    ensures s.threads == map[] && s.reg.active[0].run < |s.runs| && s.runs[s.reg.active[0].run].alive
  {
    var s0, t := TeardownFlags();
    hide Reached;
    FailingKills(s0, t, 0, 1, 0);
    var s1 := FencedOp(s0, 0);
    var th := CancelAt(1, 0, KNone, 0, true);
    FailingChecks(s1, t, th, 0, 1, 0);
    FailingDrops(s1, t, Waiting(th, TdPend), 0, 1, 0);
    s := Idle(DropPending(s1), t);
    assert 0 in s1.reg.pending && 0 in s1.reg.active;
  }

  ghost predicate LivingStuckChild(s: System, op: Token) {
    Stuck(s, op) && !LinkHolds(s) && s.reg.active[op].run < |s.runs| && s.runs[s.reg.active[op].run].alive
  }

  lemma LinkCanBreak()
    ensures exists s, op :: Reached(s) && s.threads == map[] && LivingStuckChild(s, op)
  {
    var s := StuckChildReachable();
    assert LivingStuckChild(s, 0);
  }
}
