/** The cleanup of one run keeps the invariant. */
module CodexCleanSteps {
  import opened Options
  import opened CodexTypes
  import opened CodexRegistry
  import opened CodexProtocol
  import opened CodexInvariant
  import opened CodexFrames
  import opened CodexMoves
  import opened CodexJoinSteps

  predicate SameStreams(a: Run, b: Run) {
    b.stdout == a.stdout && b.stderr == a.stderr
  }

  lemma UntouchedSame(reg: Registries, runs: seq<Run>, h: nat, th: Thread, r: RunId, run: Run)
    requires r < |runs| && SameStreams(runs[r], run) && RunStageOf(reg, runs, h, th) && RunMain(th.main)
    ensures Untouched(reg, runs[r := run], h, th, true) && Untouched(reg, runs[r := run], h, th, false)
  {
  }

  /** Facts about the host thread survive when a run exits or loses its artifact. */
  lemma HostOfSameStreams(
    reg: Registries, count: Counters, runs: seq<Run>, past: History, h: nat, th: Thread, r: RunId, run: Run)
    requires HostOf(reg, count, runs, past, h, th)
    requires r < |runs| && RunEvolves(runs[r], run) && SameStreams(runs[r], run)
    ensures HostOf(reg, count, runs[r := run], past, h, th)
  {
    hide WorkerOf, ScopedRunOf, UnscopedRunOf, RunStageOf, CleanOf, RetryOf, RetryWaitOf, TeardownOf, OtherHostOf,
      Untouched, RunMain, SameStreams, RunEvolves;
    if RunMain(th.main) {
      UntouchedSame(reg, runs, h, th, r, run);
    }
    HostOfRun(reg, count, runs, past, h, th, r, run);
  }

  lemma RunShared(s: System, r: RunId, run: Run)
    requires r < |s.runs| && RunEvolves(s.runs[r], run) && SharedOk(s)
    requires RunWf(run, s.reg.prepared, s.past.minted)
    ensures SharedOk(SetRun(s, r, run))
  {
    hide Uniform, Linked, Refers;
    RunsWfOne(s.runs, s.reg.prepared, s.past.minted, r, run);
    RefersOne(s.reg, s.runs, r, run);
  }

  /** A step that lets one run exit or lose its artifact. */
  lemma RunKeeps(s: System, t: nat, th: Thread, th': Thread, r: RunId, run: Run)
    requires Ready(s, t, th) && Fits(s, t, th, th')
    requires !th.join.pc.JPut? && !th'.join.pc.JPut?
    requires r < |s.runs| && RunEvolves(s.runs[r], run) && SameStreams(s.runs[r], run)
    requires RunWf(run, s.reg.prepared, s.past.minted)
    requires CancelOf(s.reg, s.runs[r := run], s.past, th'.cancel) && JoinOf(s.runs[r := run], th')
    requires s.host == Some(t) ==>
      HostOf(s.reg, s.count, s.runs[r := run], s.past, t, th') && Covers(th, th')
    ensures Inv(Put(SetRun(s, r, run), t, th'))
  {
    var s1 := SetRun(s, r, run);
    hide Shape, ShapeOf, Mutex, Uniform, RunsWf, Refers, Streams, Routines, Linked, Quiescent, Fence, Slots, Custody,
      CancelOf, Want, HostOf, RunEvolves, JoinOf, Fits, CancelRely, MintedGrows, Evolves, RunWf,
      Covers, SameStreams;
    EvolvesOne(s.runs, r, run);
    OthersSame(s, t);
    RunShared(s, r, run);
    StreamsPut(s.runs, s.threads, t, th');
    SameStreamsOne(s.runs, s.threads[t := th'], r, run);
    CustodyEvolves(s.reg, s.runs, r, run, HostThread(s.threads, s.host));
    if s.host == Some(t) {
      Facts(s, t, th);
      CoversKeeps(s.reg, s.count, s1.runs, s.past, th, th');
    } else if s.host.Some? && s.host.value in s.threads {
      HostOfSameStreams(s.reg, s.count, s.runs, s.past, s.host.value, s.threads[s.host.value], r, run);
    }
    StepKeeps(s, t, th, th', s1);
  }

  lemma SameStreamsOne(runs: seq<Run>, threads: Threads, r: RunId, run: Run)
    requires Streams(runs, threads) && r < |runs| && SameStreams(runs[r], run)
    ensures Streams(runs[r := run], threads)
  {
    hide Streams;
    StreamsOne(runs, threads, r, run);
  }

  // ---------- facts that the cleanup frame takes part in ----------

  predicate CleanFacts(reg: Registries, runs: seq<Run>, h: nat, th: Thread) {
    && ScopedRunOf(reg, runs, th) && UnscopedRunOf(reg.slots, runs, th)
    && RunStageOf(reg, runs, h, th) && CleanOf(runs, th)
  }

  predicate SameButClean(th: Thread, th': Thread) {
    && th'.main == th.main && th'.op == th.op && th'.session == th.session && th'.generation == th.generation
    && th'.run == th.run && th'.slot == th.slot && th'.scoped == th.scoped && th'.res == th.res
    && th'.cancel == th.cancel && th'.host == th.host
  }

  lemma HostOfClean(reg: Registries, count: Counters, runs: seq<Run>, past: History, h: nat, th: Thread, th': Thread)
    requires HostOf(reg, count, runs, past, h, th) && SameButClean(th, th')
    requires CleanFacts(reg, runs, h, th') && RetryWaitOf(reg.slots, runs, th')
    ensures HostOf(reg, count, runs, past, h, th')
  {
    hide ScopedRunOf, UnscopedRunOf, RunStageOf, CleanOf, RetryWaitOf, Unspawned, InTodo, InCands, CandOf;
  }

  lemma CoversClean(th: Thread, th': Thread)
    requires SameButClean(th, th')
    ensures Covers(th, th')
  {
  }

  predicate CleanMain(th: Thread) {
    th.main.RunAbort? || th.main.RunFinal? || th.main.RtWait?
  }

  /** Where a cleanup may go next; the lock set does not grow. */
  lemma FitsClean(s: System, t: nat, th: Thread, th': Thread)
    requires ShapeOf(t, th, s.nextThread, s.host) && !th.clean.pc.CNone?
    requires SameButClean(th, th') && th'.lk == 0
    requires th'.join.pc.JNone? || (th'.join.pc.JLook? && JoinSite(th') && th'.join.out == JoinSiteStdout(th'))
    requires (th'.clean.pc.CUnreg? ==> th.scoped) && (th'.clean.pc.CUnslot? || th'.clean.pc.CRetain? ==> !th.scoped)
    ensures Fits(s, t, th, th')
  {
  }

  lemma CleanHost(s: System, t: nat, th: Thread)
    requires Ready(s, t, th) && !th.clean.pc.CNone?
    ensures s.host == Some(t) && CleanMain(th) && th.cancel.pc.KNone? && th.run < |s.runs|
    ensures HostOf(s.reg, s.count, s.runs, s.past, t, th)
  {
    hide Inv, WorkerOf, RunStageOf, CleanOf, RetryOf, TeardownOf, OtherHostOf, Want;
    Facts(s, t, th);
  }

  /** A step of the cleanup that changes at most the run being cleaned. */
  lemma CleanKeeps(s: System, t: nat, th: Thread, th': Thread, run: Run)
    requires Ready(s, t, th) && !th.clean.pc.CNone? && th.join.pc.JNone?
    requires SameButClean(th, th') && th'.lk == 0
    requires th'.join.pc.JNone? || (th'.join.pc.JLook? && JoinSite(th') && th'.join.out == JoinSiteStdout(th'))
    requires (th'.clean.pc.CUnreg? ==> th.scoped) && (th'.clean.pc.CUnslot? || th'.clean.pc.CRetain? ==> !th.scoped)
    requires th.run < |s.runs| && RunEvolves(s.runs[th.run], run) && SameStreams(s.runs[th.run], run)
    requires RunWf(run, s.reg.prepared, s.past.minted)
    requires CleanFacts(s.reg, s.runs[th.run := run], t, th')
    requires RetryWaitOf(s.reg.slots, s.runs[th.run := run], th')
    requires JoinOf(s.runs[th.run := run], th')
    ensures Inv(Put(SetRun(s, th.run, run), t, th'))
  {
    hide Inv, ShapeOf, HostOf, CancelOf, RunEvolves, JoinOf, RunWf, SameButClean, CleanFacts, RetryWaitOf, Want, Fits,
      JoinSite, SameStreams, CancelRely, MintedGrows, OthersRely;
    CleanHost(s, t, th);
    Facts(s, t, th);
    FitsClean(s, t, th, th');
    CoversClean(th, th');
    EvolvesOne(s.runs, th.run, run);
    OthersSame(s, t);
    HostOfSameStreams(s.reg, s.count, s.runs, s.past, t, th, th.run, run);
    HostOfClean(s.reg, s.count, s.runs[th.run := run], s.past, t, th, th');
    assert th'.cancel == th.cancel by { CleanSameCancel(th, th'); }
    CancelStable(s.reg, s.runs, s.past, s.reg, s.runs[th.run := run], s.past, th.cancel);
    RunKeeps(s, t, th, th', th.run, run);
  }

  lemma CleanSameCancel(th: Thread, th': Thread)
    requires SameButClean(th, th')
    ensures th'.cancel == th.cancel
  {
  }

  predicate TermNext(th: Thread, th': Thread, dead: bool) {
    if dead then th' == StartJoin(AtClean(th, COut), true)
    else if th.scoped then th' == th.(clean := th.clean.(pc := CNone, ok := false), lk := 0)
    else th' == AtClean(th, CRetain)
  }

  lemma TermFacts(s: System, t: nat, th: Thread, th': Thread, run: Run, dead: bool)
    requires th.clean.pc.CTerm? && CleanMain(th) && th.cancel.pc.KNone? && th.run < |s.runs| && th.join.pc.JNone?
    requires RunEvolves(s.runs[th.run], run) && SameStreams(s.runs[th.run], run)
    requires run.artifact == s.runs[th.run].artifact && run.handle == s.runs[th.run].handle
    requires CleanFacts(s.reg, s.runs, t, th) && RetryWaitOf(s.reg.slots, s.runs, th)
    requires TermNext(th, th', dead) && (dead ==> !run.alive)
    requires th.main.RtWait? ==> !th.scoped
    ensures th'.join.pc.JNone? || (th'.join.pc.JLook? && JoinSite(th') && th'.join.out == JoinSiteStdout(th'))
    ensures CleanFacts(s.reg, s.runs[th.run := run], t, th')
    ensures RetryWaitOf(s.reg.slots, s.runs[th.run := run], th') && JoinOf(s.runs[th.run := run], th')
    ensures SameButClean(th, th')
  {
  }

  lemma RunWfAt(s: System, r: RunId)
    requires RunsWf(s.runs, s.reg.prepared, s.past.minted) && r < |s.runs|
    ensures RunWf(s.runs[r], s.reg.prepared, s.past.minted)
  {
  }

  lemma TermMove(s: System, t: nat, th: Thread, th': Thread, run: Run, dead: bool)
    requires Ready(s, t, th) && th.clean.pc.CTerm? && th.join.pc.JNone? && th.run < |s.runs|
    requires TermNext(th, th', dead) && RunEvolves(s.runs[th.run], run) && SameStreams(s.runs[th.run], run)
    requires RunWf(run, s.reg.prepared, s.past.minted) && (dead ==> !run.alive)
    requires run.artifact == s.runs[th.run].artifact && run.handle == s.runs[th.run].handle
    ensures Inv(Put(SetRun(s, th.run, run), t, th'))
  {
    hide Inv, ShapeOf, CancelOf, JoinOf, Want, CleanFacts, RetryWaitOf, WorkerOf, RetryOf, TeardownOf, OtherHostOf,
      HostOf, RunEvolves, SameStreams, RunWf;
    CleanHost(s, t, th);
    assert CleanFacts(s.reg, s.runs, t, th) by { FactsOfHost(s, t, th); }
    assert th.main.RtWait? ==> !th.scoped by { WaitUnscoped(s, t, th); }
    RetryWaitPart(s, t, th);
    TermFacts(s, t, th, th', run, dead);
    CleanKeeps(s, t, th, th', run);
  }

  lemma RetryWaitPart(s: System, t: nat, th: Thread)
    requires HostOf(s.reg, s.count, s.runs, s.past, t, th)
    ensures RetryWaitOf(s.reg.slots, s.runs, th)
  {
    hide WorkerOf, ScopedRunOf, UnscopedRunOf, RunStageOf, CleanOf, RetryOf, RetryWaitOf, TeardownOf, OtherHostOf;
  }

  lemma TermRun(s: System, run: Run, c: Choice)
    requires RunWf(run, s.reg.prepared, s.past.minted)
    ensures var after := Terminate(run, c);
      && RunEvolves(run, after) && SameStreams(run, after) && RunWf(after, s.reg.prepared, s.past.minted)
      && (c.ok ==> !after.alive) && after.artifact == run.artifact && after.handle == run.handle
    ensures RunEvolves(run, run) && SameStreams(run, run) && (!run.handle ==> !run.alive)
  {
  }

  lemma TermKeeps(s: System, t: nat, th: Thread, c: Choice)
    requires Ready(s, t, th) && th.clean.pc.CTerm? && th.join.pc.JNone?
    ensures Inv(TermStep(s, t, th, RunAt(s, th.run), c))
  {
    CleanHost(s, t, th);
    assert RunWf(s.runs[th.run], s.reg.prepared, s.past.minted) by { RunWfAt(s, th.run); }
    var run := s.runs[th.run];
    TermRun(s, run, c);
    assert s.runs[th.run := run] == s.runs;
    hide Inv, HostOf, Want, RunEvolves, SameStreams, RunWf, Terminate, CleanMain;
    if !run.handle {
      TermMove(s, t, th, StartJoin(AtClean(th, COut), true), run, true);
    } else if c.ok {
      TermMove(s, t, th, StartJoin(AtClean(th, COut), true), Terminate(run, c), true);
    } else if th.scoped {
      TermMove(s, t, th, th.(clean := th.clean.(pc := CNone, ok := false), lk := 0), Terminate(run, c), false);
    } else {
      TermMove(s, t, th, AtClean(th, CRetain), Terminate(run, c), false);
    }
  }

  lemma FactsOfHost(s: System, t: nat, th: Thread)
    requires HostOf(s.reg, s.count, s.runs, s.past, t, th)
    ensures CleanFacts(s.reg, s.runs, t, th) && RetryWaitOf(s.reg.slots, s.runs, th)
    ensures RetryOf(s.reg.slots, s.runs, th) && WorkerOf(s.reg, s.count, s.runs, s.past, th)
  {
    hide ScopedRunOf, UnscopedRunOf, RunStageOf, CleanOf, RetryWaitOf, RetryOf, WorkerOf;
  }

  lemma WaitUnscoped(s: System, t: nat, th: Thread)
    requires Ready(s, t, th)
    ensures th.main.RtWait? ==> !th.scoped
    ensures (th.clean.pc.CUnreg? ==> th.scoped) && (th.clean.pc.CUnslot? || th.clean.pc.CRetain? ==> !th.scoped)
  {
    hide Inv, HostOf, CancelOf, JoinOf, Want;
    Facts(s, t, th);
  }

  lemma JoinedFacts(s: System, t: nat, th: Thread, th': Thread)
    requires CleanMain(th) && th.cancel.pc.KNone? && th.run < |s.runs| && th.join.pc.JNone? && JoinOf(s.runs, th)
    requires CleanFacts(s.reg, s.runs, t, th) && RetryWaitOf(s.reg.slots, s.runs, th)
    requires (th.clean.pc.COut? && th' == StartJoin(CleanJoined(th, CErr), false))
      || (th.clean.pc.CErr? && th' == CleanJoined(th, CArt))
    ensures CleanFacts(s.reg, s.runs, t, th') && RetryWaitOf(s.reg.slots, s.runs, th') && JoinOf(s.runs, th')
    ensures SameButClean(th, th')
  {
  }

  lemma JoinedKeeps(s: System, t: nat, th: Thread, th': Thread)
    requires Ready(s, t, th) && th.join.pc.JNone?
    requires (th.clean.pc.COut? && th' == StartJoin(CleanJoined(th, CErr), false))
      || (th.clean.pc.CErr? && th' == CleanJoined(th, CArt))
    ensures Inv(Put(s, t, th'))
  {
    hide ShapeOf, Shape, Mutex, Uniform, RunsWf, Refers, Streams, Routines, Linked, Quiescent, Fence, Slots, Custody,
      CancelOf, JoinOf, Want, CleanFacts, RetryWaitOf, SameButClean, WorkerOf, RetryOf, TeardownOf, OtherHostOf,
      HostFacts, HostOf;
    CleanHost(s, t, th);
    Facts(s, t, th);
    RunWfAt(s, th.run);
    FactsOfHost(s, t, th);
    JoinedFacts(s, t, th, th');
    assert s.runs[th.run := s.runs[th.run]] == s.runs;
    CleanKeeps(s, t, th, th', s.runs[th.run]);
  }

  predicate ArtNext(th: Thread, th': Thread, clean: bool) {
    if clean then th' == AtClean(th, if th.scoped then CUnreg else CUnslot)
    else if th.scoped then th' == th.(clean := th.clean.(pc := CNone, ok := false), lk := 0)
    else th' == AtClean(th, CRetain)
  }

  lemma ArtFacts(s: System, t: nat, th: Thread, th': Thread, run: Run, clean: bool)
    requires CleanMain(th) && th.cancel.pc.KNone? && th.run < |s.runs| && th.clean.pc.CArt?
    requires CleanFacts(s.reg, s.runs, t, th) && RetryWaitOf(s.reg.slots, s.runs, th)
    requires RunWf(s.runs[th.run], s.reg.prepared, s.past.minted)
    requires run == s.runs[th.run] || (run == s.runs[th.run].(artifact := false) && s.runs[th.run].Joined())
    requires clean ==> !th.clean.failed && !run.artifact
    requires ArtNext(th, th', clean) && (th.main.RtWait? ==> !th.scoped)
    ensures CleanFacts(s.reg, s.runs[th.run := run], t, th')
    ensures RetryWaitOf(s.reg.slots, s.runs[th.run := run], th') && JoinOf(s.runs[th.run := run], th')
    ensures SameButClean(th, th') && RunEvolves(s.runs[th.run], run) && SameStreams(s.runs[th.run], run)
    ensures RunWf(run, s.reg.prepared, s.past.minted)
  {
  }

  lemma ArtKeeps(s: System, t: nat, th: Thread, c: Choice)
    requires Ready(s, t, th) && th.clean.pc.CArt? && th.join.pc.JNone?
    ensures Inv(ArtStep(s, t, th, RunAt(s, th.run), c))
  {
    hide ShapeOf, Shape, Mutex, Uniform, RunsWf, Refers, Streams, Routines, Linked, Quiescent, Fence, Slots, Custody,
      CancelOf, JoinOf, Want, CleanFacts, RetryWaitOf, SameButClean, WorkerOf, RetryOf, TeardownOf, OtherHostOf,
      HostFacts, HostOf, JoinSite;
    CleanHost(s, t, th);
    RunWfAt(s, th.run);
    FactsOfHost(s, t, th);
    WaitUnscoped(s, t, th);
    var run := s.runs[th.run];
    assert !th.clean.failed ==> run.Joined() by { ArtJoined(s, t, th); }
    var remove := c.ok && (!th.clean.failed || run.Joined());
    var run' := if remove then run.(artifact := false) else run;
    var clean := c.ok && !th.clean.failed;
    var th' := if clean then AtClean(th, if th.scoped then CUnreg else CUnslot)
      else if th.scoped then th.(clean := th.clean.(pc := CNone, ok := false), lk := 0)
      else AtClean(th, CRetain);
    ArtFacts(s, t, th, th', run', clean);
    CleanKeeps(s, t, th, th', run');
    assert s.runs[th.run := run] == s.runs;
  }

  lemma ArtJoined(s: System, t: nat, th: Thread)
    requires CleanFacts(s.reg, s.runs, t, th) && th.clean.pc.CArt? && th.run < |s.runs|
    ensures !th.clean.failed ==> s.runs[th.run].Joined()
  {
  }

  // ---------- leaving the registries ----------

  lemma UnregisterFacts(s: System, t: nat, th: Thread, th': Thread, active: ActiveMap, run: Run)
    requires CleanFacts(s.reg, s.runs, t, th) && WorkerOf(s.reg, s.count, s.runs, s.past, th)
    requires CleanMain(th) && th.clean.pc.CUnreg? && th.scoped && th.cancel.pc.KNone? && th.run < |s.runs|
    requires Linked(s.reg, s.past) && (th.main.RtWait? ==> !th.scoped)
    requires run == s.runs[th.run].(handle := false)
    requires active == s.reg.active - {th.op}
    requires th' == th.(clean := th.clean.(pc := CNone, ok := true), lk := 0)
    ensures Unregister(s.reg.active, s.reg.pending, th.op, th.run) == Ok(active)
    ensures CleanFacts(s.reg.(active := active), s.runs[th.run := run], t, th')
    ensures WorkerOf(s.reg.(active := active), s.count, s.runs[th.run := run], s.past, th')
    ensures s.runs[th.run].Settled() && JoinOf(s.runs[th.run := run], th')
    ensures s.runs[th.run].token == Some(th.op) && HostBegun(Some(th'), th.op)
    ensures th.op in s.reg.active ==> s.reg.active[th.op].run == th.run
  {
    if th.op !in s.reg.active {
      assert active == s.reg.active;
    }
  }

  lemma HostOfRunMain(
    reg: Registries, count: Counters, runs: seq<Run>, past: History, h: nat, th: Thread)
    requires RunMain(th.main) && WorkerOf(reg, count, runs, past, th) && CleanFacts(reg, runs, h, th)
    ensures HostOf(reg, count, runs, past, h, th)
  {
    hide WorkerOf, ScopedRunOf, UnscopedRunOf, RunStageOf, CleanOf;
  }

  lemma UnregKeeps(s: System, t: nat, th: Thread)
    requires Ready(s, t, th) && th.clean.pc.CUnreg? && th.join.pc.JNone?
    ensures Inv(UnregStep(s, t, th, RunAt(s, th.run)))
  {
    hide ShapeOf, Shape, Mutex, Uniform, RunsWf, Refers, Streams, Routines, Linked, Quiescent, Fence, Slots, Custody,
      CancelOf, JoinOf, CleanFacts, RetryWaitOf, SameButClean, WorkerOf, RetryOf, HostFacts, HostOf, JoinSite,
      Held, Evolves, OthersRely, MintedGrows, Fits, CancelRely, HostBegun, RunEvolves, RunWf, Covers;
    CleanHost(s, t, th);
    Facts(s, t, th);
    RunWfAt(s, th.run);
    FactsOfHost(s, t, th);
    WaitUnscoped(s, t, th);
    var run := s.runs[th.run];
    var run' := run.(handle := false);
    var active := s.reg.active - {th.op};
    var th' := th.(clean := th.clean.(pc := CNone, ok := true), lk := 0);
    UnregisterFacts(s, t, th, th', active, run');
    assert SameButClean(th, th') by { UnregSame(th); }
    FitsClean(s, t, th, th');
    assert RunEvolves(run, run') && RunWf(run', s.reg.prepared, s.past.minted) by { HandleGone(s, run); }
    var s1 := SetRun(s, th.run, run');
    var s2 := SetActive(s1, active);
    EvolvesOne(s.runs, th.run, run');
    RunShared(s, th.run, run');
    RemoveShared(s1, th.op);
    FullHeld(th, A);
    OthersActive(s, t, active);
    OthersSame(s, t);
    StreamsPut(s.runs, s.threads, t, th');
    SameStreamsOne(s.runs, s.threads[t := th'], th.run, run');
    CoversClean(th, th');
    CustodyEvolves(s.reg, s.runs, th.run, run', HostThread(s.threads, s.host));
    CoversKeeps(s.reg, s.count, s1.runs, s.past, th, th');
    RemoveAnswered(s1, th.op, th.run, Some(th'));
    HostOfRunMain(s2.reg, s.count, s2.runs, s.past, t, th');
    IdleCancel(s2, th'.cancel);
    StepKeeps(s, t, th, th', s2);
  }

  lemma UnregSame(th: Thread)
    ensures SameButClean(th, th.(clean := th.clean.(pc := CNone, ok := true), lk := 0))
  {
  }

  lemma HandleGone(s: System, run: Run)
    requires RunWf(run, s.reg.prepared, s.past.minted) && !run.alive
    ensures RunEvolves(run, run.(handle := false))
    ensures RunWf(run.(handle := false), s.reg.prepared, s.past.minted)
  {
  }

  lemma IdleCancel(s: System, k: CancelFrame)
    requires k.pc.KNone?
    ensures CancelOf(s.reg, s.runs, s.past, k)
  {
  }

  // ---------- recovery slots ----------

  /** The slot under cleanup is not a retained one. */
  predicate OpenSlot(s: System, th: Thread) {
    th.slot in s.reg.slots && !s.reg.slots[th.slot].Retained? && th.run < |s.runs|
    && s.runs[th.run].token.None? && s.runs[th.run].slot == th.slot
  }

  lemma SlotOpen(s: System, t: nat, th: Thread)
    requires CleanFacts(s.reg, s.runs, t, th) && RetryWaitOf(s.reg.slots, s.runs, th)
    requires CleanMain(th) && !th.scoped && (th.clean.pc.CUnslot? || th.clean.pc.CRetain?)
    ensures OpenSlot(s, th)
    ensures th.clean.pc.CUnslot? ==> s.runs[th.run].Settled()
  {
  }

  lemma SlotShared(s: System, slots: SlotMap)
    requires SharedOk(s)
    requires forall key :: key in slots && slots[key].Retained? ==>
      && slots[key].run < |s.runs| && s.runs[slots[key].run].token.None? && s.runs[slots[key].run].slot == key
    ensures SharedOk(SetSlots(s, slots))
  {
    hide RunsWf;
  }

  lemma OthersSlots(s: System, t: nat, slots: SlotMap)
    ensures OthersRely(s.reg, s.reg.(slots := slots), s.threads, t)
  {
  }

  /** What the host thread knows after its slot has been released or handed back. */
  lemma SlotHostOf(s: System, t: nat, th: Thread, th': Thread, slots: SlotMap, run: Run)
    requires HostOf(s.reg, s.count, s.runs, s.past, t, th) && OpenSlot(s, th)
    requires CleanMain(th) && !th.scoped && (th.clean.pc.CUnslot? || th.clean.pc.CRetain?)
    requires RunEvolves(s.runs[th.run], run) && SameStreams(s.runs[th.run], run)
    requires th' == th.(clean := th.clean.(pc := CNone, ok := th'.clean.ok), lk := 0)
    requires if th'.clean.ok then slots == s.reg.slots - {th.slot} && run.Settled()
      else slots == s.reg.slots[th.slot := Retained(th.run)]
    ensures HostOf(s.reg.(slots := slots), s.count, s.runs[th.run := run], s.past, t, th')
  {
    var reg, runs := s.reg.(slots := slots), s.runs[th.run := run];
    hide Unspawned, InTodo;
    assert WorkerOf(reg, s.count, runs, s.past, th');
    assert CleanFacts(reg, runs, t, th');
    assert RetryWaitOf(slots, runs, th') && RetryOf(slots, runs, th') by {
      SlotRetry(s, th, th', slots, run);
    }
  }

  lemma SlotRetry(s: System, th: Thread, th': Thread, slots: SlotMap, run: Run)
    requires RetryOf(s.reg.slots, s.runs, th) && RetryWaitOf(s.reg.slots, s.runs, th) && OpenSlot(s, th)
    requires RunEvolves(s.runs[th.run], run) && CleanMain(th) && !th.clean.pc.CNone?
    requires th' == th.(clean := th.clean.(pc := CNone, ok := th'.clean.ok), lk := 0)
    requires if th'.clean.ok then slots == s.reg.slots - {th.slot} && run.Settled()
      else slots == s.reg.slots[th.slot := Retained(th.run)]
    ensures RetryOf(slots, s.runs[th.run := run], th') && RetryWaitOf(slots, s.runs[th.run := run], th')
  {
    hide InCands;
  }

  lemma SlotAnswered(s: System, th: Thread, ht: Option<Thread>, slots: SlotMap)
    requires Answered(s, ht) && OpenSlot(s, th)
    requires (slots == s.reg.slots - {th.slot} && s.runs[th.run].Settled())
      || slots == s.reg.slots[th.slot := Retained(th.run)]
    ensures Answered(SetSlots(s, slots), ht)
  {
    hide HostBegun, HostDoomed, HostSlot, HostOwns;
    var reg := s.reg.(slots := slots);
    assert |slots| <= |s.reg.slots|;
    forall q | 0 <= q < |s.runs| && !s.runs[q].Settled() ensures Owned(reg, ht, s.runs[q], q) {
      assert Owned(s.reg, ht, s.runs[q], q);
    }
  }

  lemma SlotKeeps(s: System, t: nat, th: Thread, th': Thread, slots: SlotMap, run: Run)
    requires Ready(s, t, th) && (th.clean.pc.CUnslot? || th.clean.pc.CRetain?) && th.join.pc.JNone?
    requires th.run < |s.runs| && OpenSlot(s, th)
    requires run == if th'.clean.ok then s.runs[th.run].(handle := false) else s.runs[th.run]
    requires th' == th.(clean := th.clean.(pc := CNone, ok := th'.clean.ok), lk := 0)
    requires if th'.clean.ok then slots == s.reg.slots - {th.slot} && s.runs[th.run].Settled()
      else slots == s.reg.slots[th.slot := Retained(th.run)]
    ensures Inv(Put(SetSlots(SetRun(s, th.run, run), slots), t, th'))
  {
    hide ShapeOf, Shape, Mutex, Uniform, RunsWf, Refers, Streams, Routines, Linked, Quiescent, Fence, Slots, Custody,
      CancelOf, JoinOf, CleanFacts, RetryWaitOf, SameButClean, WorkerOf, RetryOf, HostFacts, HostOf, JoinSite,
      Held, Evolves, OthersRely, MintedGrows, Fits, CancelRely, HostBegun, RunEvolves, RunWf, Covers, Want;
    CleanHost(s, t, th);
    Facts(s, t, th);
    RunWfAt(s, th.run);
    WaitUnscoped(s, t, th);
    assert SameButClean(th, th') by { SlotSame(th, th'); }
    FitsClean(s, t, th, th');
    assert RunEvolves(s.runs[th.run], run) && RunWf(run, s.reg.prepared, s.past.minted) by {
      SlotRun(s, s.runs[th.run], run);
    }
    var s1 := SetRun(s, th.run, run);
    var s2 := SetSlots(s1, slots);
    EvolvesOne(s.runs, th.run, run);
    RunShared(s, th.run, run);
    SlotRefers(s1, th, slots);
    SlotShared(s1, slots);
    OthersSlots(s, t, slots);
    OthersSame(s, t);
    StreamsPut(s.runs, s.threads, t, th');
    SameStreamsOne(s.runs, s.threads[t := th'], th.run, run);
    CoversClean(th, th');
    CustodyEvolves(s.reg, s.runs, th.run, run, HostThread(s.threads, s.host));
    CoversKeeps(s.reg, s.count, s1.runs, s.past, th, th');
    SlotAnswered(s1, th, Some(th'), slots);
    SlotHostOf(s, t, th, th', slots, run);
    IdleCancel(s2, th'.cancel);
    IdleJoin(s2, th');
    StepKeeps(s, t, th, th', s2);
  }

  lemma SlotSame(th: Thread, th': Thread)
    requires th' == th.(clean := th.clean.(pc := CNone, ok := th'.clean.ok), lk := 0)
    ensures SameButClean(th, th')
  {
  }

  lemma SlotRun(s: System, run: Run, run': Run)
    requires RunWf(run, s.reg.prepared, s.past.minted)
    requires run' == run || (run' == run.(handle := false) && run.Settled())
    ensures RunEvolves(run, run') && RunWf(run', s.reg.prepared, s.past.minted)
  {
  }

  lemma SlotRefers(s: System, th: Thread, slots: SlotMap)
    requires Refers(s.reg, s.runs) && OpenSlot(s, th)
    requires slots == s.reg.slots - {th.slot} || slots == s.reg.slots[th.slot := Retained(th.run)]
    ensures forall key :: key in slots && slots[key].Retained? ==>
      && slots[key].run < |s.runs| && s.runs[slots[key].run].token.None? && s.runs[slots[key].run].slot == key
  {
  }

  lemma IdleJoin(s: System, th: Thread)
    requires CleanMain(th) && th.clean.pc.CNone? && th.cancel.pc.KNone?
    ensures JoinOf(s.runs, th)
  {
  }

  lemma CleanStepKeeps(s: System, t: nat, th: Thread, c: Choice)
    requires Ready(s, t, th) && !th.clean.pc.CNone? && th.join.pc.JNone?
    ensures Inv(CleanStep(s, t, th, c))
  {
    hide Inv, HostOf, CleanFacts, RetryWaitOf, Want, WorkerOf, RetryOf, JoinOf, CancelOf, ShapeOf, TermStep, ArtStep,
      UnregStep;
    CleanHost(s, t, th);
    match th.clean.pc
    case CTerm => TermKeeps(s, t, th, c);
    case COut => JoinedKeeps(s, t, th, StartJoin(CleanJoined(th, CErr), false));
    case CErr => JoinedKeeps(s, t, th, CleanJoined(th, CArt));
    case CArt => ArtKeeps(s, t, th, c);
    case CUnreg => UnregKeeps(s, t, th);
    case CUnslot =>
      FactsOfHost(s, t, th);
      WaitUnscoped(s, t, th);
      SlotOpen(s, t, th);
      SlotKeeps(s, t, th, th.(clean := th.clean.(pc := CNone, ok := true), lk := 0),
                s.reg.slots - {th.slot}, s.runs[th.run].(handle := false));
    case CRetain =>
      FactsOfHost(s, t, th);
      WaitUnscoped(s, t, th);
      SlotOpen(s, t, th);
      SlotKeeps(s, t, th, th.(clean := th.clean.(pc := CNone, ok := false), lk := 0),
                s.reg.slots[th.slot := Retained(th.run)], s.runs[th.run]);
      assert s.runs[th.run := s.runs[th.run]] == s.runs;
  }
}
