/** Which idle states the host can recover from: exactly when a new session can still be
    started. */
module CodexRecovery {
  import opened CodexTypes
  import opened CodexRegistry
  import opened CodexProtocol
  import opened CodexInvariant
  import opened CodexFrames
  import opened CodexCommandSteps
  import opened CodexMoves
  import opened CodexJoinSteps
  import opened CodexEffects
  import opened CodexTheorems
  import opened CodexLinks
  import opened CodexGuarantees
  import opened CodexLocks
  import opened CodexProgress
  import opened CodexRescue
  import opened CodexSettle
  import opened CodexLost

  // ---------- a session command that runs alone ----------

  /** A session command that has met no error so far, seen from its own point; */
  ghost predicate HostSmooth(active: ActiveMap, m: Main, host: HostFrame) {
    && host.teardown && host.init
    && (m.TdEnter? || RetryMain(m) || TeardownMain(m))
    && (RetryLoop(m) ==> !host.failed)
    && (TeardownMain(m) && !m.TdSnap? ==> !host.errors)
    && (m.TdCancel? || m.TdWait? ==> forall op :: op in active ==> InTodo(host.todo, op))
    && (m.TdCheck? || m.TdPend? ==> active == map[])
  }

  /** from the cleanup of a recovery; */
  predicate CleanSmooth(m: Main, clean: CleanFrame) {
    if !clean.pc.CNone? then m.RtWait? && !clean.failed && !clean.pc.CRetain? && !clean.pc.CUnreg?
    else m.RtWait? ==> clean.ok
  }

  /** and from the cancel of a child. */
  predicate CancelSmooth(active: ActiveMap, m: Main, k: CancelFrame) {
    if !k.pc.KNone? then m.TdWait? && !k.failed
    else m.TdWait? ==> k.ok && k.op !in active
  }

  ghost predicate Smooth(active: ActiveMap, th: Thread) {
    && HostSmooth(active, th.main, th.host) && CleanSmooth(th.main, th.clean)
    && CancelSmooth(active, th.main, th.cancel)
    && (JoinSite(th) && th.join.pc.JNone? ==> th.join.ok)
  }

  /** The thread is the only one, and all is well so far. */
  ghost predicate Fine(s: System, t: nat) {
    && s.threads.Keys == {t} && Smooth(s.reg.active, s.threads[t]) && ReadersSound(s.runs)
  }

  predicate Helps(c: Choice) {
    c.ok && c.ok2 && c.outcome.Bytes? && !c.wait
  }

  lemma RunSoundAt(s: System, r: RunId)
    requires ReadersSound(s.runs)
    ensures RunSound(RunAt(s, r))
  {
  }

  lemma FineBy(s: System, t: nat)
    requires s.threads.Keys == {t}
    ensures forall th' :: Smooth(s.reg.active, th') && ReadersSound(s.runs) ==> Fine(Put(s, t, th'), t)
    ensures forall r, run, th' :: Smooth(s.reg.active, th') && ReadersSound(s.runs) && RunSound(run) ==>
      Fine(Put(SetRun(s, r, run), t, th'), t)
  {
    hide Smooth;
    forall r, run | ReadersSound(s.runs) && RunSound(run) ensures ReadersSound(SetRun(s, r, run).runs) {
    }
  }

  lemma JoinFine(s: System, t: nat, th: Thread, c: Choice)
    requires Fine(s, t) && th == s.threads[t] && !th.join.pc.JNone? && Helps(c)
    requires th.join.pc.JLook? ==> !RunAt(s, JoinRun(th)).StreamOf(th.join.out).Taken?
    ensures Fine(JoinStep(s, t, th, JoinRun(th), c), t)
  {
    FineBy(s, t);
    RunSoundAt(s, JoinRun(th));
    hide Fine, Put, SetRun, RunIn, JoinRun, ReadersSound, HostSmooth, CleanSmooth, CancelSmooth;
  }

  lemma CleanPoints(active: ActiveMap, th: Thread)
    requires Smooth(active, th) && th.join.pc.JNone? && !th.clean.pc.CNone? && th.cancel.pc.KNone?
    ensures !th.clean.failed && !th.clean.pc.CRetain? && !th.clean.pc.CUnreg?
    ensures th.clean.pc.CTerm? ==> Smooth(active, StartJoin(AtClean(th, COut), true))
    ensures th.clean.pc.COut? ==> Smooth(active, StartJoin(CleanJoined(th, CErr), false))
    ensures th.clean.pc.CErr? ==> Smooth(active, CleanJoined(th, CArt))
    ensures th.clean.pc.CArt? ==> Smooth(active, AtClean(th, CUnslot))
  {
    hide HostSmooth, CancelSmooth;
  }

  lemma CleanFine(s: System, t: nat, th: Thread, c: Choice)
    requires Fine(s, t) && th == s.threads[t] && th.join.pc.JNone? && !th.clean.pc.CNone? && Helps(c)
    requires !th.scoped && th.cancel.pc.KNone? && th.slot in s.reg.slots
    ensures Fine(CleanStep(s, t, th, c), t)
  {
    FineBy(s, t);
    RunSoundAt(s, th.run);
    CleanPoints(s.reg.active, th);
    hide Fine, Smooth, Put, SetRun, RunIn, ReadersSound, UnslotStep, AtClean, CleanJoined, StartJoin;
    if th.clean.pc.CUnslot? {
      UnslotFine(s, t, th, RunAt(s, th.run));
    }
  }

  lemma UnslotFine(s: System, t: nat, th: Thread, run: Run)
    requires Fine(s, t) && th == s.threads[t] && th.join.pc.JNone? && th.clean.pc.CUnslot? && RunSound(run)
    requires th.cancel.pc.KNone? && th.slot in s.reg.slots
    ensures Fine(UnslotStep(s, t, th, run), t)
  {
    FineBy(s, t);
    hide Fine, HostSmooth, CancelSmooth;
  }

  lemma CancelPoints(active: ActiveMap, th: Thread)
    requires Smooth(active, th) && th.join.pc.JNone? && !th.cancel.pc.KNone? && th.clean.pc.CNone?
    ensures !th.cancel.failed
    ensures forall run :: th.cancel.pc.KLook? ==>
      Smooth(active, th.(cancel := th.cancel.(pc := KFlag, run := run), lk := 0))
    ensures th.cancel.pc.KLook? ==> Smooth(active, AtCancel(th, KLease))
    ensures th.cancel.pc.KLease? ==> Smooth(active, AtCancel(th, KPend))
    ensures th.cancel.pc.KFlag? ==> Smooth(active, AtCancel(th, KKill))
    ensures th.cancel.pc.KKill? ==> Smooth(active, StartJoin(AtCancel(th, KOut), true))
    ensures th.cancel.pc.KOut? ==> Smooth(active, StartJoin(CancelJoined(th, KErr), false))
    ensures th.cancel.pc.KErr? ==> Smooth(active, CancelJoined(th, KTerm))
    ensures th.cancel.pc.KTerm? ==> Smooth(active, AtCancel(th, KDrop))
  {
    hide HostSmooth;
  }

  /** The cancel of a child of this session finds its operation, kills the child and
      removes the entry; that of any other token has nothing to do. */
  lemma CancelFine(s: System, t: nat, th: Thread, c: Choice)
    requires Fine(s, t) && th == s.threads[t] && th.join.pc.JNone? && !th.cancel.pc.KNone? && Helps(c)
    requires th.clean.pc.CNone?
    requires th.cancel.pc.KLook? && th.cancel.op in s.reg.active ==>
      s.reg.active[th.cancel.op].session == th.cancel.session
    requires th.cancel.pc.KFlag? ==>
      && th.cancel.op in s.reg.active
      && FlagActive(s.reg.active, s.reg.pending, th.cancel.op, th.cancel.session).Ok?
    requires th.cancel.pc.KPend? ==> th.cancel.op !in s.reg.active
    ensures Fine(CancelStep(s, t, th, th.cancel, c), t)
  {
    hide Smooth, Put, SetRun, RunIn, ReadersSound, SetPending, SetPrepared, CancelReturn, AtCancel, CancelJoined,
      StartJoin, FlagActive, FlagPending, CancelLease;
    FineBy(s, t);
    RegistriesFine(s, t);
    RunSoundAt(s, th.cancel.run);
    CancelPoints(s.reg.active, th);
    if th.cancel.pc.KPend? || th.cancel.pc.KDrop? {
      LastFine(s, t, th);
    }
    hide Fine;
  }

  lemma RegistriesFine(s: System, t: nat)
    requires Fine(s, t)
    ensures forall pending, th' :: Smooth(s.reg.active, th') ==> Fine(Put(SetPending(s, pending), t, th'), t)
    ensures forall prepared, th' :: Smooth(s.reg.active, th') ==> Fine(Put(SetPrepared(s, prepared), t, th'), t)
    ensures forall slots, th' :: Smooth(s.reg.active, th') ==> Fine(Put(SetSlots(s, slots), t, th'), t)
  {
    hide Smooth, ReadersSound;
  }

  lemma LastFine(s: System, t: nat, th: Thread)
    requires Fine(s, t) && th == s.threads[t] && th.join.pc.JNone? && th.clean.pc.CNone?
    requires th.cancel.pc.KDrop? || (th.cancel.pc.KPend? && th.cancel.op !in s.reg.active)
    ensures forall pending :: th.cancel.op !in s.reg.active ==>
      Fine(CancelReturn(SetPending(s, pending), t, th, true), t)
    ensures Fine(CancelReturn(SetActive(s, s.reg.active - {th.cancel.op}), t, th, true), t)
  {
    hide ReadersSound, Fenced;
  }

  lemma RetryPoints(active: ActiveMap, th: Thread, cands: seq<(nat, RunId)>)
    requires Smooth(active, th) && AtMain(th) && RetryMain(th.main)
    ensures !th.main.RtCollect? ==> !th.host.failed && th.host.teardown
    ensures th.main.RtCollect? ==> Smooth(active, SetHost(th, RtEach, th.host.(cands := cands, failed := false)))
    ensures th.main.RtEach? ==> Smooth(active, At(th, TdSnap))
    ensures forall slot, run :: th.main.RtEach? ==> Smooth(active, RetryStart(th, slot, run))
    ensures th.main.RtWait? ==> Smooth(active, SetHost(th, RtEach, RetryPop(th.host, th.clean.ok)))
  {
  }

  lemma RetryFine(s: System, t: nat, th: Thread, c: Choice)
    requires Fine(s, t) && th == s.threads[t] && AtMain(th) && RetryMain(th.main) && Helps(c)
    ensures Fine(RetryStep(s, t, th, c), t)
  {
    hide Smooth, Put, SetSlots, StartRetry, SetHost, RetryStart, At, RetryPop, ReadersSound;
    FineBy(s, t);
    RegistriesFine(s, t);
    RetryPoints(s.reg.active, th, c.cands);
    hide Fine;
  }

  lemma TeardownFine(s: System, t: nat, th: Thread, c: Choice)
    requires Fine(s, t) && th == s.threads[t] && AtMain(th) && (th.main.TdEnter? || TeardownMain(th.main)) && Helps(c)
    requires th.main.TdSnap? ==> Snapshot(s.reg.active, c.todo)
    requires th.main.TdPend? ==> !Unresolved(s.reg.pending)
    requires !th.main.TdBump? && (th.main.TdWait? ==> th.host.todo != [] && th.host.todo[0].0 == th.cancel.op)
    ensures Fine(TeardownStep(s, t, th, c), t)
  {
    hide ReadersSound, PendStep, NextCancel, TeardownPop, Snapshot;
    match th.main
    case TdSnap => SnapFine(s, t, th, c);
    case TdCancel => NextFine(s, t, th, th.host.todo);
    case TdWait => PopFine(s, t, th);
    case TdPend => PendFine(s, t, th);
    case _ =>
  }

  lemma SnapFine(s: System, t: nat, th: Thread, c: Choice)
    requires Fine(s, t) && th == s.threads[t] && AtMain(th) && th.main.TdSnap? && Snapshot(s.reg.active, c.todo)
    ensures Fine(TeardownStep(s, t, th, c), t)
  {
    hide ReadersSound;
  }

  lemma PendFine(s: System, t: nat, th: Thread)
    requires Fine(s, t) && th == s.threads[t] && AtMain(th) && th.main.TdPend? && !Unresolved(s.reg.pending)
    ensures Fine(PendStep(s, t, th), t)
  {
    hide ReadersSound, Unresolved, RetainUncancelled, Dropping;
  }

  lemma NextFine(s: System, t: nat, th: Thread, todo: seq<(Token, nat)>)
    requires Fine(s, t) && th == s.threads[t] && AtMain(th) && th.main.TdCancel? && todo == th.host.todo
    ensures Fine(NextCancel(s, t, th, todo), t)
  {
    hide ReadersSound;
  }

  lemma PopFine(s: System, t: nat, th: Thread)
    requires Fine(s, t) && th == s.threads[t] && AtMain(th) && th.main.TdWait?
    requires th.host.todo != [] && th.host.todo[0].0 == th.cancel.op
    ensures Fine(Put(s, t, SetHost(th, TdCancel, TeardownPop(th.host, th.cancel.ok))), t)
  {
    hide ReadersSound;
    var todo := th.host.todo;
    forall op | op in s.reg.active ensures InTodo(todo[1..], op) {
      var i :| 0 <= i < |todo| && todo[i].0 == op;
      assert todo[1..][i - 1].0 == op;
    }
  }

  // ---------- the command runs to its end ----------

  predicate Bumps(s: System, e: Event) {
    e.Work? && e.t in s.threads && AtMain(s.threads[e.t]) && s.threads[e.t].main.TdBump?
  }

  lemma NotTaken(s: System, t: nat, th: Thread)
    requires Inv(s) && s.threads.Keys == {t} && th == s.threads[t] && th.join.pc.JLook? && JoinRun(th) < |s.runs|
    ensures !RunAt(s, JoinRun(th)).StreamOf(th.join.out).Taken?
  {
    hide Inv, SharedOk, Answered, Mutex, HostFacts;
    Parts(s);
  }

  /** What the invariant knows about a session command inside its routines. */
  lemma AloneFacts(s: System, t: nat, th: Thread)
    requires Reached(s) && Fine(s, t) && LinkHolds(s) && th == s.threads[t]
    ensures th.join.pc.JLook? ==> !RunAt(s, JoinRun(th)).StreamOf(th.join.out).Taken?
    ensures !th.clean.pc.CNone? ==> !th.scoped && th.cancel.pc.KNone? && th.slot in s.reg.slots
    ensures th.main.TdWait? ==> th.host.todo != [] && th.host.todo[0].0 == th.cancel.op
    ensures th.main.TdPend? ==> !Unresolved(s.reg.pending)
    ensures th.cancel.pc.KPend? ==> th.cancel.op !in s.reg.active
    ensures !th.cancel.pc.KNone? && th.cancel.op in s.reg.active ==>
      s.reg.active[th.cancel.op].session == th.cancel.session
    ensures th.cancel.pc.KFlag? ==>
      && th.cancel.op in s.reg.active
      && FlagActive(s.reg.active, s.reg.pending, th.cancel.op, th.cancel.session).Ok?
  {
    hide Inv, HostOf, CancelOf, JoinOf, Want, Unresolved, ReadersSound;
    ReachedInv(s);
    Facts(s, t, th);
    if th.main.TdPend? {
      TeardownFindsOnlyFlagged(s, t);
    }
    if th.join.pc.JLook? {
      JoinSiteRun(t, th, s.nextThread, s.host, s.runs);
      NotTaken(s, t, th);
    }
    if InHost(th.main) {
      HostKnows(s, t);
      HostRoutines(s, t, th);
      SessionsUniform(s, th.cancel.op);
      if th.main.TdWait? {
        CancelKnown(s, th.cancel);
      }
    }
  }

  lemma HostRoutines(s: System, t: nat, th: Thread)
    requires HostOf(s.reg, s.count, s.runs, s.past, t, th)
    requires ShapeOf(t, th, s.nextThread, s.host) && CleanSmooth(th.main, th.clean)
    ensures !th.clean.pc.CNone? ==> !th.scoped && th.cancel.pc.KNone? && th.slot in s.reg.slots
    ensures th.main.TdWait? ==>
      && th.host.todo != [] && th.host.todo[0] == (th.cancel.op, th.cancel.session)
      && th.cancel.session == s.count.session
  {
    hide WorkerOf, ScopedRunOf, UnscopedRunOf, RunStageOf, CleanOf, RetryOf, OtherHostOf;
  }

  /** The cancel of a registered child of this session finds what it looks for. */
  lemma CancelKnown(s: System, k: CancelFrame)
    requires CancelOf(s.reg, s.runs, s.past, k) && LinkHolds(s)
    requires k.op in s.reg.active ==> s.reg.active[k.op].session == s.count.session == k.session
    ensures k.pc.KPend? ==> k.op !in s.reg.active
    ensures k.pc.KFlag? ==>
      k.op in s.reg.active && FlagActive(s.reg.active, s.reg.pending, k.op, k.session).Ok?
  {
    assert k.op in s.reg.active ==> LinkAt(s, k.op);
  }

  /** The session command goes on well. */
  lemma WorkFine(s: System, t: nat, c: Choice)
    requires Reached(s) && Enabled(s, Work(t, c)) && Fine(s, t) && LinkHolds(s) && Helps(c) && !Bumps(s, Work(t, c))
    ensures Fine(ThreadStep(s, t, s.threads[t], c), t)
  {
    var th := s.threads[t];
    AloneFacts(s, t, th);
    WorkMain(s, t, th, c);
    hide Reached, Want, Fine, JoinStep, CleanStep, CancelStep, MainStep, LinkHolds, FlagActive, Unresolved, Snapshot;
    if !th.join.pc.JNone? {
      JoinFine(s, t, th, c);
    } else if !th.clean.pc.CNone? {
      CleanFine(s, t, th, c);
    } else if !th.cancel.pc.KNone? {
      CancelFine(s, t, th, c);
    }
  }

  lemma WorkMain(s: System, t: nat, th: Thread, c: Choice)
    requires Fine(s, t) && th == s.threads[t] && Helps(c) && Allowed(s, th, c)
    requires th.main.TdPend? ==> !Unresolved(s.reg.pending)
    requires th.main.TdWait? ==> th.host.todo != [] && th.host.todo[0].0 == th.cancel.op
    ensures AtMain(th) && !th.main.TdBump? ==> Fine(MainStep(s, t, th, c), t)
  {
    hide Fine, AtMain, PrepareStep, ExecStep, UnscopedStep, RunStep, RetryStep, TeardownStep, Snapshot,
      RetryCandidates, Unresolved;
    FineMain(s, t);
    if AtMain(th) && !th.main.TdBump? {
      if RetryMain(th.main) {
        RetryFine(s, t, th, c);
      } else {
        TeardownFine(s, t, th, c);
      }
    }
  }

  lemma FineMain(s: System, t: nat)
    requires Fine(s, t)
    ensures var m := s.threads[t].main; m.TdEnter? || RetryMain(m) || TeardownMain(m)
  {
  }

  lemma AloneStep(s: System, t: nat, e: Event)
    requires Reached(s) && Enabled(s, e) && Fine(s, t) && LinkHolds(s)
    requires Moves(e) && Helped(e) && !Bumps(s, e)
    ensures Fine(Next(s, e), t) && LinkHolds(Next(s, e)) && Next(s, e).count.session == s.count.session
  {
    hide Reached, LinkHolds, ReadersSound, ThreadStep, Allowed, Want;
    LinkBrokenExactly(s, e);
    NoDrop(s, t, e);
    SessionStays(s, e);
    match e
    case Acquire(u) =>
    case Work(u, c) => WorkFine(s, t, c);
  }

  lemma NoDrop(s: System, t: nat, e: Event)
    requires Fine(s, t)
    ensures !DropsActive(s, e)
  {
  }

  lemma SessionStays(s: System, e: Event)
    requires Reached(s) && Enabled(s, e) && !Bumps(s, e)
    ensures Next(s, e).count.session == s.count.session
  {
    hide Inv, ThreadStep, Allowed, Want, Effect;
    ReachedInv(s);
    match e
    case Work(t, c) =>
      ThreadEffect(s, t, s.threads[t], c);
      SessionKept(s, t, s.threads[t], ThreadStep(s, t, s.threads[t], c));
    case _ =>
  }

  lemma SessionKept(s: System, t: nat, th: Thread, s': System)
    requires Effect(s, t, th, s') && !(AtMain(th) && th.main.TdBump?)
    ensures s'.count.session == s.count.session
  {
    hide Mints, Finishes, Spawns, FenceSet, Cancelling;
  }

  /** The step installs a new session and leaves an idle, clean host. */
  ghost predicate Renews(s: System, e: Event) {
    && Enabled(s, e) && Next(s, e).count.session != s.count.session
    && Next(s, e).threads == map[] && Clean(Next(s, e))
  }

  lemma ReachedBound(s: System)
    requires Reached(s)
    ensures s.count.session < 0x1_0000_0000_0000_0000
  {
    hide Execution;
    var states, events :| Execution(states, events) && s in states;
    var i :| 0 <= i < |states| && states[i] == s;
    SessionBound(states, events, i);
  }

  /** The last step leaves an idle host with a new session. */
  lemma LastStep(s: System, t: nat, e: Event)
    requires Reached(s) && Enabled(s, e) && Fine(s, t) && Bumps(s, e)
    ensures Renews(s, e)
  {
    hide Inv, Allowed, Want, Reached, Clean, NextSession, ReadersSound;
    ReachedInv(s);
    TeardownDone(s, t);
    assert Clean(Next(s, e)) by { CleanSame(s, Next(s, e)); }
    assert (s.threads - {t}).Keys == {};
    ReachedBound(s);
    NextSessionNew(s.count.session);
  }

  /** A session command that is alone and has met no error reaches its end. */
  lemma {:induction false} RunsToEnd(s: System, t: nat) returns (s': System, e: Event)
    requires Reached(s) && Fine(s, t) && LinkHolds(s)
    ensures Leads(s, s') && Renews(s', e)
    decreases AllLists(s), AllBudgets(s)
  {
    hide Reached, LinkHolds, Inv, Enabled, Next, Leads, Renews, AllLists, AllBudgets, Bumps, Smooth, ReadersSound;
    var next := CanMove(s);
    ReachedNext(s, next);
    if Bumps(s, next) {
      LastStep(s, t, next);
      LeadsSelf(s);
      return s, next;
    }
    ReachedInv(s);
    MovesSooner(s, next);
    AloneStep(s, t, next);
    s', e := RunsToEnd(Next(s, next), t);
    LeadsOn(s, next, s');
  }

  // ---------- exactly when the host can recover ----------

  /** Some continuation ends with the installation of a new session. */
  ghost predicate Recoverable(s: System) {
    exists s', e :: Leads(s, s') && Renews(s', e)
  }

  /** One session command is enough for an idle host. */
  lemma Recovers(s: System)
    requires Reached(s) && s.threads == map[] && LinkHolds(s) && ReadersSound(s.runs)
    ensures Recoverable(s)
  {
    hide Reached, LinkHolds, ReadersSound, Enabled, Next, Leads, Renews, Fine;
    var start := Start(InitSession);
    StartEnabled(s);
    ReachedNext(s, start);
    StartFine(s);
    var s', e := RunsToEnd(StartStep(s, InitSession), s.nextThread);
    LeadsOn(s, start, s');
  }

  lemma StartEnabled(s: System)
    ensures Enabled(s, Start(InitSession)) && Next(s, Start(InitSession)) == StartStep(s, InitSession)
  {
  }

  lemma StartFine(s: System)
    requires s.threads == map[] && LinkHolds(s) && ReadersSound(s.runs)
    ensures Fine(StartStep(s, InitSession), s.nextThread) && LinkHolds(StartStep(s, InitSession))
  {
    assert forall op :: op in s.reg.active ==> LinkAt(s, op) && LinkAt(StartStep(s, InitSession), op);
  }

  /** What can never be mended: a reader that ended in an error, or a child that no cancel
      can end any more. */
  ghost predicate Broken(s: System) {
    !ReadersSound(s.runs) || exists op :: op in s.reg.active && !Saved(s, op)
  }

  lemma UnsoundStays(s: System, e: Event)
    requires Inv(s) && Enabled(s, e) && !ReadersSound(s.runs)
    ensures !ReadersSound(Next(s, e).runs)
  {
    hide Inv, Enabled, Next, MintedGrows;
    StepMonotone(s, e);
    var r :| 0 <= r < |s.runs| && !RunSound(s.runs[r]);
    assert RunEvolves(s.runs[r], Next(s, e).runs[r]);
  }

  lemma BrokenStays(s: System, e: Event)
    requires Reached(s) && Enabled(s, e) && Broken(s)
    ensures Broken(Next(s, e)) && Next(s, e).count.session == s.count.session
  {
    hide Inv, Reached, Enabled, Next, ReadersSound, Saved, Readable, Clean;
    ReachedInv(s);
    if !ReadersSound(s.runs) {
      UnsoundStays(s, e);
    } else {
      var op :| op in s.reg.active && !Saved(s, op);
      HopelessStep(s, e, op);
      SoundReadable(Next(s, e), op);
    }
    if Next(s, e).count.session != s.count.session {
      SessionChangesOnlyWhenClean(s, e);
      CleanNotBroken(s);
    }
  }

  lemma SoundReadable(s: System, op: Token)
    ensures ReadersSound(s.runs) ==> Readable(s, op)
  {
  }

  lemma CleanNotBroken(s: System)
    requires Clean(s)
    ensures !Broken(s)
  {
    hide Saved;
  }

  lemma {:induction false} BrokenAlong(states: seq<System>, events: seq<Event>, k: nat)
    requires Path(states, events) && k < |states| && Reached(states[0]) && Broken(states[0])
    ensures Reached(states[k]) && Broken(states[k]) && states[k].count.session == states[0].count.session
  {
    hide Reached, Broken, Enabled, Next;
    if k > 0 {
      BrokenAlong(states, events, k - 1);
      ReachedNext(states[k - 1], events[k - 1]);
      BrokenStays(states[k - 1], events[k - 1]);
    }
  }

  /** With something broken the session never changes again. */
  lemma BrokenForever(s: System, s': System)
    requires Reached(s) && Broken(s) && Leads(s, s')
    ensures Reached(s') && Broken(s') && s'.count.session == s.count.session
  {
    hide Reached, Broken, Path;
    var states: seq<System>, events: seq<Event> :|
      |states| == |events| + 1 && Path(states, events) && states[0] == s && states[|events|] == s';
    BrokenAlong(states, events, |events|);
  }

  /** Exactly when the host can still get to a new session, in every reachable state and
      whatever commands are in progress: no reader has ever ended in an error, and each
      registered child can still be ended by a cancel. Otherwise nothing that ever happens
      changes the session. */
  lemma RecoverableExactly(s: System)
    requires Reached(s)
    ensures Recoverable(s) <==>
      ReadersSound(s.runs) && forall op :: op in s.reg.active ==> Saved(s, op)
  {
    hide Reached, LinkHolds, ReadersSound, Leads, Saved, Renews, Readable;
    if !Broken(s) {
      var all: iset<Token> := iset op | IsToken(op);
      AllKept(s, all);
      var s1 := Settle(s, all);
      SettledIs(s, all, s1);
      IdleLinked(s1, all);
      Recovers(s1);
      var s', e :| Leads(s1, s') && Renews(s', e);
      LeadsFar(s, s1, s');
    } else if s', e :| Leads(s, s') && Renews(s', e) {
      BrokenForever(s, s');
      RenewsNot(s', e);
    }
  }

  lemma RenewsNot(s: System, e: Event)
    requires Reached(s) && Broken(s)
    ensures !Renews(s, e)
  {
    hide Reached, Broken, Enabled, Next, Clean;
    if Enabled(s, e) {
      BrokenStays(s, e);
    }
  }

  predicate IsToken(op: Token) {
    op >= 0
  }

  lemma AllKept(s: System, all: iset<Token>)
    requires !Broken(s)
    ensures Kept(s, all)
  {
    hide Saved;
  }

  lemma IdleLinked(s: System, all: iset<Token>)
    requires Reached(s) && s.threads == map[] && Kept(s, all)
    requires forall op :: op in s.reg.active ==> op in all
    ensures LinkHolds(s)
  {
    hide Inv, Reached, Readable, LinkAt;
    ReachedInv(s);
    forall op | op in s.reg.active ensures LinkAt(s, op) {
      LinkPresence(s, op);
      assert op in all;
    }
  }

  /** For an idle host: every registered child has its pending operation, and no reader has
      ever ended in an error. */
  lemma RecoverableIdle(s: System)
    requires Reached(s) && s.threads == map[]
    ensures Recoverable(s) <==> LinkHolds(s) && ReadersSound(s.runs)
  {
    hide Inv, Reached, ReadersSound, Recoverable, LinkAt;
    ReachedInv(s);
    RecoverableExactly(s);
    forall op | op in s.reg.active ensures Saved(s, op) <==> LinkAt(s, op) {
      LinkPresence(s, op);
    }
  }
}
