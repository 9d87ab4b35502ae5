/** The cancel routine, section by section. */
module CodexCancelAll {
  import opened Options
  import opened CodexTypes
  import opened CodexRegistry
  import opened CodexProtocol
  import opened CodexInvariant
  import opened CodexFrames
  import opened CodexMoves
  import opened CodexCleanSteps
  import opened CodexCancelSteps
  import opened CodexCancelEffects

  function Back(th: Thread, ok: bool): Thread {
    th.(cancel := th.cancel.(pc := KNone, ok := ok), lk := 0)
  }

  lemma BackJoin(t: nat, th: Thread, ok: bool, next: nat, host: Option<nat>, runs: seq<Run>)
    requires ShapeOf(t, th, next, host) && !th.cancel.pc.KNone? && th.join.pc.JNone?
    ensures JoinOf(runs, Back(th, ok)) && SameButCancel(th, Back(th, ok))
    ensures Back(th, ok).join.pc.JNone? && Back(th, ok).cancel.pc.KNone? && Back(th, ok).lk == 0
  {
  }

  lemma OnwardJoin(th: Thread, pc: CancelPc, runs: seq<Run>)
    requires !pc.KNone? && !pc.KOut? && !pc.KErr?
    ensures JoinOf(runs, AtCancel(th, pc)) && SameButCancel(th, AtCancel(th, pc))
  {
  }

  /** The cancel returns without having changed anything in this section. */
  lemma ReturnPlain(s: System, t: nat, th: Thread, ok: bool)
    requires Ready(s, t, th) && !th.cancel.pc.KNone? && th.join.pc.JNone?
    requires s.host == Some(t) ==> FlaggedOrGone(s.reg, th.cancel.op)
    requires FenceReady(s.reg, HostThread(s.threads, s.host), th.cancel)
    ensures Inv(CancelReturn(s, t, th, ok))
  {
    hide Inv, SharedOk, CancelOf, JoinOf, HostOf, FenceReady, SameButCancel, Want, ShapeOf, FlaggedOrGone;
    Facts(s, t, th);
    BackJoin(t, th, ok, s.nextThread, s.host, s.runs);
    IdleCancel(s, Back(th, ok).cancel);
    CancelMove(s, t, th, Back(th, ok), true);
  }

  lemma LookKeeps(s: System, t: nat, th: Thread)
    requires Ready(s, t, th) && th.cancel.pc.KLook? && th.join.pc.JNone?
    ensures Inv(CancelLook(s, t, th, th.cancel.op))
  {
    hide Inv, HostOf, FenceReady, SameButCancel, Want, ShapeOf, FlaggedOrGone, Uniform, RunsWf, Refers, Linked, JoinOf,
      Answered, TeardownOf, CancelOf, HostFacts, Streams, Mutex;
    Parts(s);
    Facts(s, t, th);
    CancelPlace(s, t, th);
    LookFacts(s, th.cancel);
    var op := th.cancel.op;
    if op !in s.reg.active {
      OnwardJoin(th, KLease, s.runs);
      CancelMove(s, t, th, AtCancel(th, KLease), false);
    } else if s.reg.active[op].session != th.cancel.session {
      LookForeign(s, t, th);
      if s.host == Some(t) {
        TeardownAt(s, t, th);
      }
      assert FenceReady(s.reg, HostThread(s.threads, s.host), th.cancel) by { UnarmedReady(s, t, th); }
      ReturnPlain(s, t, th, true);
    } else {
      var th' := th.(cancel := th.cancel.(pc := KFlag, run := s.reg.active[op].run), lk := 0);
      LookJoin(th, th', s.runs);
      CancelMove(s, t, th, th', false);
    }
  }

  lemma LookFacts(s: System, k: CancelFrame)
    requires CancelOf(s.reg, s.runs, s.past, k) && k.pc.KLook? && Refers(s.reg, s.runs)
    ensures k.op !in s.reg.active ==> CancelOf(s.reg, s.runs, s.past, k.(pc := KLease))
    ensures k.op in s.reg.active && s.reg.active[k.op].session == k.session ==>
      CancelOf(s.reg, s.runs, s.past, k.(pc := KFlag, run := s.reg.active[k.op].run))
  {
  }

  lemma LookJoin(th: Thread, th': Thread, runs: seq<Run>)
    requires th' == th.(cancel := th.cancel.(pc := KFlag, run := th'.cancel.run), lk := 0)
    ensures JoinOf(runs, th') && SameButCancel(th, th')
  {
  }

  lemma UnarmedReady(s: System, t: nat, th: Thread)
    requires !th.cancel.armed
    ensures FenceReady(s.reg, HostThread(s.threads, s.host), th.cancel)
  {
  }

  lemma FlagKeeps(s: System, t: nat, th: Thread)
    requires Ready(s, t, th) && th.cancel.pc.KFlag? && th.join.pc.JNone?
    ensures Inv(CancelFlag(s, t, th, th.cancel.op))
  {
    hide Inv, HostOf, FenceReady, SameButCancel, Want, ShapeOf, FlaggedOrGone, Uniform, RunsWf, Refers, Linked, JoinOf,
      Answered, TeardownOf, CancelOf;
    Parts(s);
    Facts(s, t, th);
    CancelPlace(s, t, th);
    var op := th.cancel.op;
    FlagFails(s, th.cancel);
    if op !in s.reg.pending {
      FlaggedReady(s, HostThread(s.threads, s.host), th.cancel);
      ReturnPlain(s, t, th, false);
    } else {
      OnwardJoin(th, KKill, s.runs);
      KillFacts(s, th.cancel);
      assert P in Want(th) by { FlagWant(th); }
      CancelFlagged(s, t, th, AtCancel(th, KKill), false);
    }
  }

  lemma FlagWant(th: Thread)
    requires (th.cancel.pc.KFlag? || th.cancel.pc.KPend?) && th.join.pc.JNone? && th.clean.pc.CNone?
    ensures P in Want(th)
  {
    assert Want(th)[0] == P;
  }

  lemma KillFacts(s: System, k: CancelFrame)
    requires CancelOf(s.reg, s.runs, s.past, k) && k.pc.KFlag? && k.op in s.reg.pending
    ensures CancelOf(s.reg.(pending := Flag(s.reg.pending, k.op)), s.runs, s.past, k.(pc := KKill))
  {
  }

  predicate KillNext(th: Thread, th': Thread, dead: bool) {
    if dead then th' == StartJoin(AtCancel(th, KOut), true) else th' == Back(th, false)
  }

  lemma KillRun(s: System, t: nat, th: Thread, th': Thread, run: Run, dead: bool)
    requires CancelOf(s.reg, s.runs, s.past, th.cancel) && th.cancel.pc.KKill? && th.join.pc.JNone?
    requires th.clean.pc.CNone? && (th.main.CancelOnly? || th.main.TdWait?)
    requires RunWf(s.runs[th.cancel.run], s.reg.prepared, s.past.minted)
    requires run == s.runs[th.cancel.run] || run == s.runs[th.cancel.run].(alive := run.alive)
    requires (run.alive ==> s.runs[th.cancel.run].alive) && (dead ==> !run.alive)
    requires KillNext(th, th', dead)
    ensures RunEvolves(s.runs[th.cancel.run], run) && SameStreams(s.runs[th.cancel.run], run)
    ensures RunWf(run, s.reg.prepared, s.past.minted)
    ensures SameButCancel(th, th')
    ensures th'.join.pc.JNone? || (th'.join.pc.JLook? && JoinSite(th') && th'.join.out == JoinSiteStdout(th'))
    ensures var runs := s.runs[th.cancel.run := run];
      CancelOf(s.reg, runs, s.past, th'.cancel) && JoinOf(runs, th')
  {
  }

  lemma CancelRunAt(s: System, k: CancelFrame)
    requires CancelOf(s.reg, s.runs, s.past, k) && PastFlag(k.pc) && RunsWf(s.runs, s.reg.prepared, s.past.minted)
    ensures k.run < |s.runs| && RunWf(s.runs[k.run], s.reg.prepared, s.past.minted)
  {
  }

  lemma KillKeeps(s: System, t: nat, th: Thread, c: Choice)
    requires Ready(s, t, th) && th.cancel.pc.KKill? && th.join.pc.JNone?
    ensures Inv(CancelKill(s, t, th, th.cancel.run, RunAt(s, th.cancel.run), c))
  {
    hide Inv, HostOf, FenceReady, SameButCancel, Want, ShapeOf, FlaggedOrGone, Uniform, RunsWf, Refers, Linked, JoinOf,
      Answered, TeardownOf, CancelOf, HostFacts, Streams, Mutex, RunWf, RunEvolves, SameStreams, JoinSite;
    Parts(s);
    Facts(s, t, th);
    CancelPlace(s, t, th);
    CancelRunAt(s, th.cancel);
    FlaggedReady(s, HostThread(s.threads, s.host), th.cancel);
    var run := s.runs[th.cancel.run];
    var run' := if run.handle then Terminate(run, c) else run;
    var dead := !run.handle || c.ok;
    var th' := if dead then StartJoin(AtCancel(th, KOut), true) else Back(th, false);
    assert !run.handle ==> !run.alive by { HandleDead(s, run); }
    KillRun(s, t, th, th', run', dead);
    CancelRun(s, t, th, th', run', !dead);
    assert s.runs[th.cancel.run := run] == s.runs;
  }

  lemma HandleDead(s: System, run: Run)
    requires RunWf(run, s.reg.prepared, s.past.minted)
    ensures !run.handle ==> !run.alive
  {
  }

  lemma JoinedNext(s: System, th: Thread, th': Thread)
    requires CancelOf(s.reg, s.runs, s.past, th.cancel) && JoinOf(s.runs, th) && th.join.pc.JNone?
    requires th.clean.pc.CNone? && (th.main.CancelOnly? || th.main.TdWait?)
    requires (th.cancel.pc.KOut? && th' == StartJoin(CancelJoined(th, KErr), false))
      || (th.cancel.pc.KErr? && th' == CancelJoined(th, KTerm))
    ensures SameButCancel(th, th') && CancelOf(s.reg, s.runs, s.past, th'.cancel) && JoinOf(s.runs, th')
    ensures th'.join.pc.JNone? || (th'.join.pc.JLook? && JoinSite(th') && th'.join.out == JoinSiteStdout(th'))
  {
  }

  lemma JoinedCancelKeeps(s: System, t: nat, th: Thread, th': Thread)
    requires Ready(s, t, th) && th.join.pc.JNone?
    requires (th.cancel.pc.KOut? && th' == StartJoin(CancelJoined(th, KErr), false))
      || (th.cancel.pc.KErr? && th' == CancelJoined(th, KTerm))
    ensures Inv(Put(s, t, th'))
  {
    hide Inv, HostOf, FenceReady, SameButCancel, Want, ShapeOf, FlaggedOrGone, JoinOf, CancelOf, JoinSite;
    Facts(s, t, th);
    CancelPlace(s, t, th);
    JoinedNext(s, th, th');
    CancelMove(s, t, th, th', false);
  }

  predicate TermDone(th: Thread, th': Thread, clean: bool) {
    if clean then th' == AtCancel(th, KDrop) else th' == Back(th, false)
  }

  lemma TermRun(s: System, th: Thread, th': Thread, run: Run, clean: bool)
    requires CancelOf(s.reg, s.runs, s.past, th.cancel) && th.cancel.pc.KTerm? && th.join.pc.JNone?
    requires th.clean.pc.CNone? && (th.main.CancelOnly? || th.main.TdWait?)
    requires RunWf(s.runs[th.cancel.run], s.reg.prepared, s.past.minted)
    requires run == s.runs[th.cancel.run]
      || (run == s.runs[th.cancel.run].(artifact := false) && s.runs[th.cancel.run].Joined())
    requires clean ==> !th.cancel.failed && !run.artifact
    requires TermDone(th, th', clean)
    ensures RunEvolves(s.runs[th.cancel.run], run) && SameStreams(s.runs[th.cancel.run], run)
    ensures RunWf(run, s.reg.prepared, s.past.minted)
    ensures SameButCancel(th, th') && th'.join.pc.JNone?
    ensures var runs := s.runs[th.cancel.run := run];
      CancelOf(s.reg, runs, s.past, th'.cancel) && JoinOf(runs, th')
  {
  }

  lemma TermJoined(s: System, k: CancelFrame)
    requires CancelOf(s.reg, s.runs, s.past, k) && k.pc.KTerm?
    ensures !k.failed ==> RunAt(s, k.run).Joined()
  {
  }

  lemma TermCancelKeeps(s: System, t: nat, th: Thread, c: Choice)
    requires Ready(s, t, th) && th.cancel.pc.KTerm? && th.join.pc.JNone?
    ensures Inv(CancelTerm(s, t, th, th.cancel.run, RunAt(s, th.cancel.run), c))
  {
    hide Inv, HostOf, FenceReady, SameButCancel, Want, ShapeOf, FlaggedOrGone, Uniform, RunsWf, Refers, Linked, JoinOf,
      Answered, TeardownOf, CancelOf, HostFacts, Streams, Mutex, RunWf, RunEvolves, SameStreams, JoinSite;
    Parts(s);
    Facts(s, t, th);
    CancelPlace(s, t, th);
    CancelRunAt(s, th.cancel);
    FlaggedReady(s, HostThread(s.threads, s.host), th.cancel);
    TermJoined(s, th.cancel);
    var run := s.runs[th.cancel.run];
    var remove := c.ok && (!th.cancel.failed || run.Joined());
    var run' := if remove then run.(artifact := false) else run;
    var clean := c.ok && !th.cancel.failed;
    var th' := if clean then AtCancel(th, KDrop) else Back(th, false);
    TermRun(s, th, th', run', clean);
    CancelRun(s, t, th, th', run', !clean);
    assert s.runs[th.cancel.run := run] == s.runs;
  }

  lemma LeaseFacts(s: System, k: CancelFrame, gone: set<Token>)
    requires CancelOf(s.reg, s.runs, s.past, k) && k.pc.KLease? && Uniform(s.reg, s.count, s.past)
    requires gone == if k.op in s.reg.prepared && s.reg.prepared[k.op].session == k.session then {k.op} else {}
    ensures CancelOf(s.reg.(prepared := s.reg.prepared - gone), s.runs, s.past, k.(pc := KPend))
    ensures CancelLease(s.reg.prepared, k.op, k.session) == s.reg.prepared - gone
  {
  }

  lemma LeaseKeeps(s: System, t: nat, th: Thread, c: Choice)
    requires Ready(s, t, th) && th.cancel.pc.KLease? && th.join.pc.JNone?
    ensures Inv(CancelStep(s, t, th, th.cancel, c))
  {
    hide Inv, HostOf, FenceReady, SameButCancel, Want, ShapeOf, FlaggedOrGone, Uniform, RunsWf, Refers, Linked, JoinOf,
      Answered, TeardownOf, CancelOf, HostFacts, Streams, Mutex;
    Parts(s);
    Facts(s, t, th);
    var k := th.cancel;
    var gone := if k.op in s.reg.prepared && s.reg.prepared[k.op].session == k.session then {k.op} else {};
    LeaseFacts(s, k, gone);
    OnwardJoin(th, KPend, s.runs);
    CancelLeased(s, t, th, AtCancel(th, KPend), gone);
  }

  lemma PendFacts(s: System, k: CancelFrame, ht: Option<Thread>)
    requires CancelOf(s.reg, s.runs, s.past, k) && k.pc.KPend? && Uniform(s.reg, s.count, s.past)
    ensures k.op in s.reg.pending ==> FenceReady(s.reg.(pending := Flag(s.reg.pending, k.op)), ht, k)
    ensures k.op !in s.reg.pending || s.reg.pending[k.op].session != k.session ==> FenceReady(s.reg, ht, k)
  {
  }

  /** The cancels of a teardown carry the current session. */
  lemma TeardownSession(s: System, t: nat, th: Thread)
    requires HostOf(s.reg, s.count, s.runs, s.past, t, th) && th.main.TdWait?
    ensures th.cancel.session == s.count.session
  {
    hide WorkerOf, ScopedRunOf, UnscopedRunOf, RunStageOf, CleanOf, RetryWaitOf, RetryOf, OtherHostOf, InTodo;
  }

  lemma PendSession(s: System, op: Token)
    requires Uniform(s.reg, s.count, s.past) && op in s.reg.pending
    ensures s.reg.pending[op].session == s.count.session
  {
  }

  lemma PendKeeps(s: System, t: nat, th: Thread, c: Choice)
    requires Ready(s, t, th) && th.cancel.pc.KPend? && th.join.pc.JNone?
    ensures Inv(CancelStep(s, t, th, th.cancel, c))
  {
    hide Inv, HostOf, FenceReady, SameButCancel, Want, ShapeOf, Uniform, RunsWf, Refers, Linked, JoinOf,
      Answered, TeardownOf, CancelOf, HostFacts, Streams, Mutex;
    Parts(s);
    Facts(s, t, th);
    CancelPlace(s, t, th);
    var k := th.cancel;
    PendFacts(s, k, HostThread(s.threads, s.host));
    BackJoin(t, th, true, s.nextThread, s.host, s.runs);
    if k.op in s.reg.pending && s.reg.pending[k.op].session == k.session {
      FlagWant(th);
      IdleCancel(SetPending(s, Flag(s.reg.pending, k.op)), Back(th, true).cancel);
      CancelFlagged(s, t, th, Back(th, true), true);
    } else {
      assert SetPending(s, FlagPending(s.reg.pending, k.op, k.session)) == s;
      if s.host == Some(t) && k.op in s.reg.pending {
        TeardownSession(s, t, th);
        PendSession(s, k.op);
      }
      ReturnPlain(s, t, th, true);
    }
  }

  lemma CancelStepKeeps(s: System, t: nat, th: Thread, c: Choice)
    requires Ready(s, t, th) && !th.cancel.pc.KNone? && th.join.pc.JNone?
    ensures Inv(CancelStep(s, t, th, th.cancel, c))
  {
    hide Inv, Want, CancelLook, CancelFlag, CancelKill, CancelTerm;
    match th.cancel.pc
    case KLook => LookKeeps(s, t, th);
    case KFlag => FlagKeeps(s, t, th);
    case KKill => KillKeeps(s, t, th, c);
    case KOut => JoinedCancelKeeps(s, t, th, StartJoin(CancelJoined(th, KErr), false));
    case KErr => JoinedCancelKeeps(s, t, th, CancelJoined(th, KTerm));
    case KTerm => TermCancelKeeps(s, t, th, c);
    case KDrop => DropKeeps(s, t, th);
    case KLease => LeaseKeeps(s, t, th, c);
    case KPend => PendKeeps(s, t, th, c);
  }

  lemma DropKeeps(s: System, t: nat, th: Thread)
    requires Ready(s, t, th) && th.cancel.pc.KDrop? && th.join.pc.JNone?
    ensures Inv(CancelReturn(SetActive(s, s.reg.active - {th.cancel.op}), t, th, true))
  {
    hide Inv, HostOf, SameButCancel, Want, ShapeOf, JoinOf, CancelOf;
    Facts(s, t, th);
    BackJoin(t, th, true, s.nextThread, s.host, s.runs);
    CancelRemoved(s, t, th, Back(th, true));
  }
}
