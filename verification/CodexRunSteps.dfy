/** The run of a child, from its first poll to its result, keeps the invariant. */
module CodexRunSteps {
  import opened Options
  import opened CodexTypes
  import opened CodexRegistry
  import opened CodexProtocol
  import opened CodexInvariant
  import opened CodexFrames
  import opened CodexMoves
  import opened CodexJoinSteps
  import opened CodexCleanSteps
  import opened CodexCommandSteps

  /** The run, its registration and its result stay those of the same thread. */
  predicate SameRun(th: Thread, th': Thread) {
    && RunMain(th.main) && RunMain(th'.main)
    && th'.op == th.op && th'.session == th.session && th'.generation == th.generation
    && th'.run == th.run && th'.slot == th.slot && th'.scoped == th.scoped
    && th'.cancel == th.cancel && th'.host == th.host && th'.lk == 0
  }

  lemma WorkerSame(s: System, runs: seq<Run>, th: Thread, th': Thread)
    requires WorkerOf(s.reg, s.count, s.runs, s.past, th) && SameRun(th, th')
    ensures WorkerOf(s.reg, s.count, runs, s.past, th') && Covers(th, th')
  {
    hide Unspawned;
  }

  lemma FitsRun(s: System, t: nat, th: Thread, th': Thread)
    requires ShapeOf(t, th, s.nextThread, s.host) && SameRun(th, th') && AtMain(th)
    requires th'.clean.pc.CNone? || (th'.clean.pc.CTerm? && (th'.main.RunAbort? || th'.main.RunFinal?))
    requires th'.join.pc.JNone?
      || (th'.join.pc.JLook? && JoinSite(th') && th'.join.out == JoinSiteStdout(th'))
    ensures Fits(s, t, th, th') && th.cancel.pc.KNone?
  {
    assert Base(th) == [D] && Base(th') == [D];
  }

  /** A step within a run that changes at most the run itself. */
  lemma RunMoveKeeps(s: System, t: nat, th: Thread, th': Thread, run: Run)
    requires Ready(s, t, th) && SameRun(th, th') && AtMain(th)
    requires th'.clean.pc.CNone? || (th'.clean.pc.CTerm? && (th'.main.RunAbort? || th'.main.RunFinal?))
    requires th'.join.pc.JNone?
      || (th'.join.pc.JLook? && JoinSite(th') && th'.join.out == JoinSiteStdout(th'))
    requires th.run < |s.runs| && RunEvolves(s.runs[th.run], run) && SameStreams(s.runs[th.run], run)
    requires RunWf(run, s.reg.prepared, s.past.minted)
    requires CleanFacts(s.reg, s.runs[th.run := run], t, th') && JoinOf(s.runs[th.run := run], th')
    ensures Inv(Put(SetRun(s, th.run, run), t, th'))
  {
    hide Inv, ShapeOf, HostOf, CancelOf, JoinOf, Want, WorkerOf, CleanFacts, Fits, Covers, SameRun, RunEvolves,
      SameStreams, RunWf, JoinSite;
    Facts(s, t, th);
    FitsRun(s, t, th, th');
    assert RunMain(th.main) && RunMain(th'.main) && th'.cancel == th.cancel by { RunMains(th, th'); }
    HostIn(s, t, th);
    StraightParts(s, t, th);
    WorkerSame(s, s.runs[th.run := run], th, th');
    HostOfRunMain(s.reg, s.count, s.runs[th.run := run], s.past, t, th');
    IdleCancel(SetRun(s, th.run, run), th'.cancel);
    RunKeeps(s, t, th, th', th.run, run);
  }

  lemma RunMains(th: Thread, th': Thread)
    requires SameRun(th, th')
    ensures RunMain(th.main) && RunMain(th'.main) && th'.cancel == th.cancel
  {
  }

  lemma RunHost(s: System, t: nat, th: Thread)
    requires Ready(s, t, th) && RunMain(th.main) && AtMain(th)
    ensures s.host == Some(t) && th.run < |s.runs|
    ensures CleanFacts(s.reg, s.runs, t, th) && JoinOf(s.runs, th) && WorkerOf(s.reg, s.count, s.runs, s.past, th)
    ensures RunWf(s.runs[th.run], s.reg.prepared, s.past.minted)
  {
    hide Inv, ShapeOf, HostOf, CancelOf, JoinOf, Want, WorkerOf, RunsWf, RunWf, Uniform, Refers, Linked, Streams,
      Mutex, Answered, HostFacts, RunStageOf, CleanOf;
    Parts(s);
    Facts(s, t, th);
    HostIn(s, t, th);
    FactsOfHost(s, t, th);
    RunWfAt(s, th.run);
  }

  // ---------- the places a run can go ----------

  lemma AbortFacts(s: System, t: nat, th: Thread, run: Run)
    requires CleanFacts(s.reg, s.runs, t, th) && RunMain(th.main) && AtMain(th) && th.run < |s.runs|
    requires !th.main.RunAbort? && !th.main.RunFinal?
    requires RunEvolves(s.runs[th.run], run) && SameStreams(s.runs[th.run], run)
    ensures CleanFacts(s.reg, s.runs[th.run := run], t, StartClean(th, RunAbort))
    ensures JoinOf(s.runs[th.run := run], StartClean(th, RunAbort)) && SameRun(th, StartClean(th, RunAbort))
  {
  }

  lemma AbortKeeps(s: System, t: nat, th: Thread, run: Run)
    requires Ready(s, t, th) && RunMain(th.main) && AtMain(th) && !th.main.RunAbort? && !th.main.RunFinal?
    requires th.run < |s.runs| && RunEvolves(s.runs[th.run], run) && SameStreams(s.runs[th.run], run)
    requires RunWf(run, s.reg.prepared, s.past.minted)
    ensures Inv(GoAbort(SetRun(s, th.run, run), t, th))
  {
    hide Inv, ShapeOf, HostOf, CancelOf, JoinOf, Want, WorkerOf, CleanFacts, SameRun, RunEvolves, SameStreams, RunWf,
      JoinSite;
    RunHost(s, t, th);
    AbortFacts(s, t, th, run);
    RunMoveKeeps(s, t, th, StartClean(th, RunAbort), run);
  }

  predicate NextMain(m: Main, m': Main) {
    (m.RunStdin? && m'.RunPoll?) || (m.RunPoll? && (m'.RunPost? || m'.RunPoll?)) || (m.RunPost? && m'.RunFlag?)
    || (m.RunErr? && m'.RunRead?)
  }

  lemma OnFacts(s: System, t: nat, th: Thread, next: Main, run: Run)
    requires CleanFacts(s.reg, s.runs, t, th) && JoinOf(s.runs, th) && AtMain(th) && th.run < |s.runs|
    requires NextMain(th.main, next) && (th.main.RunErr? ==> th.join.ok)
    requires RunEvolves(s.runs[th.run], run) && SameStreams(s.runs[th.run], run)
    ensures CleanFacts(s.reg, s.runs[th.run := run], t, At(th, next))
    ensures JoinOf(s.runs[th.run := run], At(th, next)) && SameRun(th, At(th, next))
  {
  }

  lemma OnKeeps(s: System, t: nat, th: Thread, next: Main, run: Run)
    requires Ready(s, t, th) && AtMain(th) && NextMain(th.main, next) && (th.main.RunErr? ==> th.join.ok)
    requires th.run < |s.runs| && RunEvolves(s.runs[th.run], run) && SameStreams(s.runs[th.run], run)
    requires RunWf(run, s.reg.prepared, s.past.minted)
    ensures Inv(Goto(SetRun(s, th.run, run), t, th, next))
  {
    hide Inv, ShapeOf, HostOf, CancelOf, JoinOf, Want, WorkerOf, CleanFacts, SameRun, RunEvolves, SameStreams, RunWf,
      JoinSite;
    RunHost(s, t, th);
    OnFacts(s, t, th, next, run);
    RunMoveKeeps(s, t, th, At(th, next), run);
  }

  predicate JoinNext(s: System, th: Thread, th': Thread) {
    || (th.main.RunFlag?
        && th' == StartJoin(FlagThread(th, th.scoped && TakeCancelled(s.reg.pending, th.op)), true))
    || (th.main.RunOut? && th.join.ok && th' == StartJoin(At(th, RunErr), false))
    || (th.main.RunRead? && th' == StartClean(th, RunFinal))
  }

  lemma JoinNextFacts(s: System, t: nat, th: Thread, th': Thread)
    requires CleanFacts(s.reg, s.runs, t, th) && JoinOf(s.runs, th) && AtMain(th) && th.run < |s.runs|
    requires JoinNext(s, th, th')
    ensures CleanFacts(s.reg, s.runs, t, th') && JoinOf(s.runs, th') && SameRun(th, th')
    ensures th'.clean.pc.CNone? || (th'.clean.pc.CTerm? && th'.main.RunFinal?)
    ensures th'.join.pc.JNone? || (th'.join.pc.JLook? && JoinSite(th') && th'.join.out == JoinSiteStdout(th'))
  {
  }

  lemma JoinNextKeeps(s: System, t: nat, th: Thread, th': Thread)
    requires Ready(s, t, th) && AtMain(th) && JoinNext(s, th, th')
    ensures Inv(Put(s, t, th'))
  {
    hide Inv, ShapeOf, HostOf, CancelOf, JoinOf, Want, WorkerOf, CleanFacts, SameRun, RunEvolves, SameStreams, RunWf,
      JoinSite, JoinNext;
    assert RunMain(th.main) by { JoinNextRun(s, th, th'); }
    RunHost(s, t, th);
    JoinNextFacts(s, t, th, th');
    SameItself(s.runs[th.run]);
    assert s.runs[th.run := s.runs[th.run]] == s.runs;
    RunMoveKeeps(s, t, th, th', s.runs[th.run]);
  }

  lemma JoinNextRun(s: System, th: Thread, th': Thread)
    requires JoinNext(s, th, th')
    ensures RunMain(th.main)
  {
  }

  lemma SameItself(run: Run)
    ensures RunEvolves(run, run) && SameStreams(run, run)
  {
  }

  // ---------- the result ----------

  lemma ResultWorker(s: System, t: nat, th: Thread, res: bool)
    requires CleanFacts(s.reg, s.runs, t, th) && WorkerOf(s.reg, s.count, s.runs, s.past, th)
    requires (th.main.RunAbort? || th.main.RunFinal?) && AtMain(th) && th.scoped
    requires res ==> th.main.RunFinal? && th.clean.ok
    ensures var th' := th.(main := ExFinish, res := res, lk := 0);
      WorkerOf(s.reg, s.count, s.runs, s.past, th') && RunStageOf(s.reg, s.runs, t, th')
      && ScopedRunOf(s.reg, s.runs, th') && UnscopedRunOf(s.reg.slots, s.runs, th') && CleanOf(s.runs, th')
  {
    hide Unspawned;
  }

  lemma HostOfResult(reg: Registries, count: Counters, runs: seq<Run>, past: History, h: nat, th: Thread)
    requires th.main.ExFinish? && WorkerOf(reg, count, runs, past, th) && CleanFacts(reg, runs, h, th)
    ensures HostOf(reg, count, runs, past, h, th)
  {
    hide WorkerOf, ScopedRunOf, UnscopedRunOf, RunStageOf, CleanOf;
  }

  lemma ResultAnswered(s: System, t: nat, th: Thread, res: bool)
    requires Answered(s, Some(th)) && CleanFacts(s.reg, s.runs, t, th)
    requires (th.main.RunAbort? || th.main.RunFinal?) && AtMain(th) && th.scoped
    ensures Answered(s, Some(th.(main := ExFinish, res := res, lk := 0)))
  {
    hide RunStageOf, CleanOf;
    var ht := Some(th.(main := ExFinish, res := res, lk := 0));
    forall q | 0 <= q < |s.runs| && !s.runs[q].Settled() ensures Owned(s.reg, ht, s.runs[q], q) {
      assert Owned(s.reg, Some(th), s.runs[q], q);
    }
  }

  lemma UnscopedAnswered(s: System, t: nat, th: Thread)
    requires Answered(s, Some(th)) && CleanFacts(s.reg, s.runs, t, th)
    requires (th.main.RunAbort? || th.main.RunFinal?) && AtMain(th) && !th.scoped
    ensures Answered(s, None)
  {
    hide RunStageOf, CleanOf;
    forall q | 0 <= q < |s.runs| && !s.runs[q].Settled() ensures Owned(s.reg, None, s.runs[q], q) {
      assert Owned(s.reg, Some(th), s.runs[q], q);
    }
  }

  lemma ResultKeeps(s: System, t: nat, th: Thread, res: bool)
    requires Ready(s, t, th) && (th.main.RunAbort? || th.main.RunFinal?) && AtMain(th)
    requires res ==> th.main.RunFinal? && th.clean.ok
    ensures Inv(RunReturn(s, t, th, res))
  {
    hide Inv, ShapeOf, HostOf, CancelOf, JoinOf, Want, WorkerOf, CleanFacts, Fits, Answered, SharedOk, Streams, Mutex,
      HostFacts, Evolves, OthersRely, CancelRely, MintedGrows, RunWf;
    Parts(s);
    Facts(s, t, th);
    RunHost(s, t, th);
    if th.scoped {
      var th' := th.(main := ExFinish, res := res, lk := 0);
      ResultWorker(s, t, th, res);
      assert CleanFacts(s.reg, s.runs, t, th') by { GatherClean(s, t, th'); }
      HostOfResult(s.reg, s.count, s.runs, s.past, t, th');
      ResultAnswered(s, t, th, res);
      FitsMain(s, t, th, th');
      PlainRoutines(s, th');
      StreamsPut(s.runs, s.threads, t, th');
      EvolvesSelf(s.runs);
      OthersSame(s, t);
      StepKeeps(s, t, th, th', s);
    } else {
      UnscopedAnswered(s, t, th);
      LeaveKeeps(s, t, th);
    }
  }

  lemma GatherClean(s: System, t: nat, th: Thread)
    requires ScopedRunOf(s.reg, s.runs, th) && UnscopedRunOf(s.reg.slots, s.runs, th)
    requires RunStageOf(s.reg, s.runs, t, th) && CleanOf(s.runs, th)
    ensures CleanFacts(s.reg, s.runs, t, th)
  {
  }

  lemma TerminateEvolves(s: System, run: Run, c: Choice)
    requires RunWf(run, s.reg.prepared, s.past.minted)
    ensures RunEvolves(run, Terminate(run, c)) && SameStreams(run, Terminate(run, c))
    ensures RunWf(Terminate(run, c), s.reg.prepared, s.past.minted)
  {
  }

  lemma PollKeeps(s: System, t: nat, th: Thread, c: Choice)
    requires Ready(s, t, th) && th.main.RunPoll? && AtMain(th)
    ensures Inv(PollStep(s, t, th, RunAt(s, th.run), c))
  {
    hide Inv, CancelOf, JoinOf, Want, WorkerOf, CleanFacts, RunEvolves, SameStreams, RunWf;
    RunHost(s, t, th);
    var run := s.runs[th.run];
    SameItself(run);
    assert s.runs[th.run := run] == s.runs;
    assert th.(lk := 0) == At(th, RunPoll);
    if !run.handle {
      AbortKeeps(s, t, th, run);
    } else if !run.alive && c.ok {
      OnKeeps(s, t, th, RunPost, run);
    } else if run.alive && c.wait {
      OnKeeps(s, t, th, RunPoll, run);
    } else {
      AbortKeeps(s, t, th, run);
    }
  }

  lemma PostKeeps(s: System, t: nat, th: Thread, c: Choice)
    requires Ready(s, t, th) && th.main.RunPost? && AtMain(th)
    ensures Inv(PostStep(s, t, th, RunAt(s, th.run), c))
  {
    hide Inv, CancelOf, JoinOf, Want, WorkerOf, CleanFacts, RunEvolves, SameStreams, RunWf, Terminate;
    RunHost(s, t, th);
    var run := s.runs[th.run];
    SameItself(run);
    TerminateEvolves(s, run, c);
    assert s.runs[th.run := run] == s.runs;
    if !run.handle {
      if c.ok2 {
        OnKeeps(s, t, th, RunFlag, run);
      } else {
        AbortKeeps(s, t, th, run);
      }
    } else if c.ok && c.ok2 {
      OnKeeps(s, t, th, RunFlag, Terminate(run, c));
    } else {
      AbortKeeps(s, t, th, Terminate(run, c));
    }
  }

  lemma RunStepKeeps(s: System, t: nat, th: Thread, c: Choice)
    requires Ready(s, t, th) && RunMain(th.main) && AtMain(th)
    ensures Inv(RunStep(s, t, th, RunAt(s, th.run), c))
  {
    hide Inv, CancelOf, JoinOf, Want, WorkerOf, CleanFacts, RunEvolves, SameStreams, RunWf, PollStep, PostStep,
      GoAbort, Goto, RunReturn;
    RunHost(s, t, th);
    var run := s.runs[th.run];
    SameItself(run);
    assert SetRun(s, th.run, run) == s by { assert s.runs[th.run := run] == s.runs; }
    match th.main
    case RunStdin =>
      if run.handle {
        OnKeeps(s, t, th, RunPoll, run);
      } else {
        AbortKeeps(s, t, th, run);
      }
    case RunPoll => PollKeeps(s, t, th, c);
    case RunPost => PostKeeps(s, t, th, c);
    case RunFlag =>
      JoinNextKeeps(s, t, th, StartJoin(FlagThread(th, th.scoped && TakeCancelled(s.reg.pending, th.op)), true));
    case RunOut =>
      if th.join.ok {
        JoinNextKeeps(s, t, th, StartJoin(At(th, RunErr), false));
      } else {
        AbortKeeps(s, t, th, run);
      }
    case RunErr =>
      if th.join.ok {
        OnKeeps(s, t, th, RunRead, run);
      } else {
        AbortKeeps(s, t, th, run);
      }
    case RunRead =>
      if th.flagged || !c.ok {
        AbortKeeps(s, t, th, run);
      } else {
        JoinNextKeeps(s, t, th, StartClean(th, RunFinal));
      }
    case RunAbort => ResultKeeps(s, t, th, false);
    case _ => ResultKeeps(s, t, th, th.clean.ok && c.ok);
  }
}
