/** A concrete execution in which a worker call returns a result. */
module CodexSuccessTrace {
  import opened Options
  import opened CodexTypes
  import opened CodexProtocol
  import opened CodexCommandSteps
  import opened CodexTheorems
  import opened CodexGuarantees
  import opened CodexTrace

  // ---------- a run that succeeds ----------

  function WithRun(s: System, r: RunId, run: Run): System
    requires r < |s.runs|
  {
    s.(runs := s.runs[r := run])
  }

  lemma RunExits(s: System, t: nat, th: Thread, r: RunId)
    requires Reached(Solo(s, t, th)) && r < |s.runs| && s.runs[r].alive
    ensures Reached(Solo(WithRun(s, r, s.runs[r].(alive := false)), t, th))
  {
    hide Reached;
    ReachedNext(Solo(s, t, th), Exit(r));
  }

  lemma RunPolls(s: System, t: nat, th: Thread, r: RunId, op: Token, session: nat, generation: nat)
    requires th == RunThread(s, op, session, generation, RunPoll, r) && Reached(Solo(s, t, th))
    requires r < |s.runs| && !s.runs[r].alive && s.runs[r].handle
    ensures Reached(Solo(s, t, At(th, RunFlag)))
  {
    hide Reached;
    var c := Pick(true);
    assert Terminate(s.runs[r], c) == s.runs[r];
    assert SetRun(Solo(s, t, Full(At(th, RunPost))), r, s.runs[r]) == Solo(s, t, Full(At(th, RunPost)));
    Goes(s, t, th, c, s, At(th, RunPost));
    Goes(s, t, At(th, RunPost), c, s, At(th, RunFlag));
  }

  function JoinAt(th: Thread, pc: JoinPc, out: bool, ok: bool): Thread {
    th.(join := JoinFrame(pc, out, ok), lk := 0)
  }

  /** A reader that is in its slot is taken out and joined. */
  lemma Joins(s: System, t: nat, th: Thread, r: RunId, out: bool, ok: bool)
    requires th.cancel.pc.KNone? && th.run == r < |s.runs| && s.runs[r].StreamOf(out).InSlot?
    requires Reached(Solo(s, t, JoinAt(th, JLook, out, ok))) && !th.main.RtCollect? && !th.main.TdSnap?
    ensures Reached(Solo(WithRun(s, r, s.runs[r].WithStream(out, Done(false, t))), t, JoinAt(th, JNone, out, true)))
  {
    hide Reached;
    var taken := WithRun(s, r, s.runs[r].WithStream(out, Taken(t)));
    Goes(s, t, JoinAt(th, JLook, out, ok), Pick(true), taken, JoinAt(th, JPut, out, ok));
    assert taken.runs[r := s.runs[r].WithStream(out, Done(false, t))]
      == s.runs[r := s.runs[r].WithStream(out, Done(false, t))];
    Goes(taken, t, JoinAt(th, JPut, out, ok), Pick(true),
         WithRun(s, r, s.runs[r].WithStream(out, Done(false, t))), JoinAt(th, JNone, out, true));
  }

  /** A reader that has been joined is reported at once. */
  lemma Rejoins(s: System, t: nat, th: Thread, r: RunId, out: bool, ok: bool)
    requires th.cancel.pc.KNone? && th.run == r < |s.runs| && s.runs[r].StreamOf(out) == Done(false, t)
    requires Reached(Solo(s, t, JoinAt(th, JLook, out, ok))) && !th.main.RtCollect? && !th.main.TdSnap?
    ensures Reached(Solo(s, t, JoinAt(th, JNone, out, true)))
  {
    hide Reached;
    Goes(s, t, JoinAt(th, JLook, out, ok), Pick(true), s, JoinAt(th, JNone, out, true));
  }

  lemma RunReads(s: System, t: nat, th: Thread, r: RunId, op: Token, session: nat, generation: nat)
    requires th == RunThread(s, op, session, generation, RunFlag, r) && Reached(Solo(s, t, th))
    requires r < |s.runs| && s.runs[r] == Spawned(Some(op), 0).(alive := false)
    requires op in s.reg.pending && !s.reg.pending[op].cancelled
    ensures var run := s.runs[r].(stdout := Done(false, t), stderr := Done(false, t));
      Reached(Solo(WithRun(s, r, run), t, JoinAt(At(th, RunErr), JNone, false, true)))
  {
    hide Reached;
    var s1 := WithRun(s, r, s.runs[r].(stdout := Done(false, t)));
    Goes(s, t, th, Pick(true), s, JoinAt(At(th, RunOut), JLook, true, false));
    Joins(s, t, At(th, RunOut), r, true, false);
    Goes(s1, t, JoinAt(At(th, RunOut), JNone, true, true), Pick(true), s1, JoinAt(At(th, RunErr), JLook, false, false));
    Joins(s1, t, At(th, RunErr), r, false, false);
    assert s1.runs[r := s1.runs[r].(stderr := Done(false, t))]
      == s.runs[r := s.runs[r].(stdout := Done(false, t), stderr := Done(false, t))];
  }

  predicate ReadyToClean(s: System, t: nat, r: RunId) {
    && r < |s.runs| && !s.runs[r].alive && s.runs[r].handle
    && s.runs[r].stdout == Done(false, t) && s.runs[r].stderr == Done(false, t)
  }

  function CleanAt(th: Thread, pc: CleanPc): Thread {
    th.(main := RunFinal, clean := CleanFrame(pc, false, false), lk := 0)
  }

  lemma RunCleans(s: System, t: nat, th: Thread, r: RunId)
    requires Reached(Solo(s, t, JoinAt(At(th, RunErr), JNone, false, true))) && ReadyToClean(s, t, r)
    requires AtMain(th) && th.run == r && !th.flagged
    ensures Reached(Solo(s, t, JoinAt(CleanAt(th, COut), JLook, true, false)))
  {
    hide Reached;
    var th1 := JoinAt(At(th, RunErr), JNone, false, true);
    Goes(s, t, th1, Pick(true), s, At(th1, RunRead));
    Goes(s, t, At(th1, RunRead), Pick(true), s, JoinAt(CleanAt(th, CTerm), JNone, false, true));
    CleanTerminates(s, t, th, r);
  }

  lemma CleanTerminates(s: System, t: nat, th: Thread, r: RunId)
    requires Reached(Solo(s, t, JoinAt(CleanAt(th, CTerm), JNone, false, true))) && ReadyToClean(s, t, r)
    requires th.run == r
    ensures Reached(Solo(s, t, JoinAt(CleanAt(th, COut), JLook, true, false)))
  {
    hide Reached;
    var c, th1 := Pick(true), JoinAt(CleanAt(th, CTerm), JNone, false, true);
    assert Terminate(s.runs[r], c) == s.runs[r];
    assert SetRun(Solo(s, t, Full(th1)), r, s.runs[r]) == Solo(s, t, Full(th1));
    Goes(s, t, th1, c, s, JoinAt(CleanAt(th, COut), JLook, true, false));
  }

  lemma RunReleases(s: System, t: nat, th: Thread, r: RunId)
    requires Reached(Solo(s, t, JoinAt(CleanAt(th, COut), JLook, true, false))) && ReadyToClean(s, t, r)
    requires AtMain(th) && th.run == r && th.scoped
    ensures Reached(Solo(s, t, JoinAt(CleanAt(th, CArt), JNone, false, true)))
  {
    hide Reached;
    var c := Pick(true);
    Rejoins(s, t, CleanAt(th, COut), r, true, false);
    Goes(s, t, JoinAt(CleanAt(th, COut), JNone, true, true), c, s, JoinAt(CleanAt(th, CErr), JLook, false, false));
    Rejoins(s, t, CleanAt(th, CErr), r, false, false);
    Goes(s, t, JoinAt(CleanAt(th, CErr), JNone, false, true), c, s, JoinAt(CleanAt(th, CArt), JNone, false, true));
  }

  /** The registry lets go of the run and its handle is emptied. */
  function Released(s: System, op: Token, r: RunId): System
    requires r < |s.runs|
  {
    WithRun(s, r, s.runs[r].(artifact := false, handle := false))
      .(reg := s.reg.(active := s.reg.active - {op}))
  }

  lemma RunUnregisters(s: System, t: nat, th: Thread, r: RunId, op: Token)
    requires Reached(Solo(s, t, JoinAt(CleanAt(th, CArt), JNone, false, true))) && ReadyToClean(s, t, r)
    requires AtMain(th) && th.run == r && th.scoped && th.op == op
    requires op in s.reg.active && s.reg.active[op].run == r
    requires op in s.reg.pending && s.reg.pending[op].generation == s.reg.active[op].generation
    ensures var th' := JoinAt(th, JNone, false, true).(main := RunFinal, clean := CleanFrame(CNone, false, true));
      Reached(Solo(Released(s, op, r), t, th'))
  {
    hide Reached;
    var c, s1 := Pick(true), WithRun(s, r, s.runs[r].(artifact := false));
    Goes(s, t, JoinAt(CleanAt(th, CArt), JNone, false, true), c, s1, JoinAt(CleanAt(th, CUnreg), JNone, false, true));
    assert s1.runs[r := s1.runs[r].(handle := false)] == s.runs[r := s.runs[r].(artifact := false, handle := false)];
    Goes(s1, t, JoinAt(CleanAt(th, CUnreg), JNone, false, true), c, Released(s, op, r),
         JoinAt(th, JNone, false, true).(main := RunFinal, clean := CleanFrame(CNone, false, true)));
  }

  function Completed(s: System, op: Token): System {
    s.(reg := s.reg.(pending := s.reg.pending - {op}), past := s.past.(completed := s.past.completed + {op}))
  }

  lemma RunResult(s: System, t: nat, th: Thread, op: Token)
    requires th.clean == CleanFrame(CNone, false, true) && th.main.RunFinal? && AtMain(th) && th.lk == 0
    requires th.scoped && th.op == op && Reached(Solo(s, t, th))
    requires op !in s.reg.active && op in s.reg.pending
    requires s.reg.pending[op].generation == th.generation && !s.reg.pending[op].cancelled
    ensures Reached(Idle(Completed(s, op), t))
  {
    hide Reached;
    var th1 := At(th, ExFinish).(res := true);
    Goes(s, t, th, Pick(true), s, th1);
    Returns(s, t, th1, Pick(true), Completed(s, op));
  }

  /** The child exits by itself and its output is read. */
  lemma WorkerReads() returns (s: System, t: nat)
    ensures s.threads == map[] && s.host == Some(t) && ReadyToClean(s, t, 0) && |s.runs| == 1
    ensures s.reg == Registries(map[0 := ActiveChild(1, 1, 0)], map[0 := Pending(1, 1, false)], map[], map[])
    ensures Reached(Solo(s, t, JoinAt(RunThread(s, 0, 1, 1, RunErr, 0), JNone, false, true)))
  {
    var s0, t0 := WorkerRuns();
    t := t0;
    hide Reached;
    var th := RunThread(s0, 0, 1, 1, RunStdin, 0);
    Goes(s0, t, th, Pick(true), s0, At(th, RunPoll));
    RunExits(s0, t, At(th, RunPoll), 0);
    var s1 := WithRun(s0, 0, s0.runs[0].(alive := false));
    RunPolls(s1, t, At(th, RunPoll), 0, 0, 1, 1);
    RunReads(s1, t, At(th, RunFlag), 0, 0, 1, 1);
    s := WithRun(s1, 0, s1.runs[0].(stdout := Done(false, t), stderr := Done(false, t)));
  }

  lemma WorkerSucceeds() returns (s: System)
    ensures Reached(s) && s.threads == map[] && 0 in s.past.completed
    ensures Clean(s)
  {
    var s0, t := WorkerReads();
    hide Reached;
    var th := RunThread(s0, 0, 1, 1, RunErr, 0);
    RunCleans(s0, t, th, 0);
    RunReleases(s0, t, th, 0);
    RunUnregisters(s0, t, th, 0, 0);
    var th1 := JoinAt(th, JNone, false, true).(main := RunFinal, clean := CleanFrame(CNone, false, true));
    RunResult(Released(s0, 0, 0), t, th1, 0);
    s := Idle(Completed(Released(s0, 0, 0), 0), t);
  }

  /** Worker calls do return results: the guarantees about them are not empty. */
  lemma CompletionReachable()
    ensures exists s, op :: Reached(s) && op in s.past.completed && s.threads == map[] && Clean(s)
  {
    var s := WorkerSucceeds();
    assert 0 in s.past.completed;
  }
}
