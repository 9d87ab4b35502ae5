/** Every step keeps the invariant, so it holds in every state of every execution. */
module CodexReachable {
  import opened Options
  import opened CodexTypes
  import opened CodexProtocol
  import opened CodexInvariant
  import opened CodexFrames
  import opened CodexMoves
  import opened CodexJoinSteps
  import opened CodexCleanSteps
  import opened CodexCancelAll
  import opened CodexCommandSteps
  import opened CodexWorkerSteps
  import opened CodexRunSteps
  import opened CodexHostSteps
  import opened CodexTeardownSteps

  // ---------- critical sections ----------

  lemma EnterPrepare(s: System, t: nat, th: Thread)
    requires CurrentSession(s, th.session) && AtMain(th)
    ensures HostOf(s.reg, s.count, s.runs, s.past, t, At(th, PrepToken))
  {
  }

  lemma PrepareStepKeeps(s: System, t: nat, th: Thread, c: Choice)
    requires Ready(s, t, th) && PrepareMain(th.main) && AtMain(th)
    ensures Inv(PrepareStep(s, t, th, c))
  {
    hide Inv, HostOf, Want, InsertStep, CurrentSession;
    match th.main
    case PrepEnter =>
      if c.ok && CurrentSession(s, th.session) {
        EnterPrepare(s, t, th);
        EnterKeeps(s, t, th, PrepToken);
      } else {
        LeavePlain(s, t, th);
      }
    case PrepToken => TokenKeeps(s, t, th);
    case _ => InsertKeeps(s, t, th, c.expired);
  }

  lemma MainStepKeeps(s: System, t: nat, th: Thread, c: Choice)
    requires Ready(s, t, th) && AtMain(th) && Allowed(s, th, c)
    ensures Inv(MainStep(s, t, th, c))
  {
    hide Inv, Want, PrepareStep, ExecStep, UnscopedStep, RunStep, RetryStep, TeardownStep, Allowed;
    if PrepareMain(th.main) {
      PrepareStepKeeps(s, t, th, c);
    } else if ExecMain(th.main) {
      ExecStepKeeps(s, t, th, c);
    } else if UnscopedMain(th.main) {
      UnscopedStepKeeps(s, t, th, c);
    } else if RunMain(th.main) {
      RunStepKeeps(s, t, th, c);
    } else if RetryMain(th.main) {
      RetryStepKeeps(s, t, th, c);
    } else if th.main.CancelOnly? {
      LeavePlain(s, t, th);
    } else {
      TeardownStepKeeps(s, t, th, c);
    }
  }

  lemma ThreadStepKeeps(s: System, t: nat, th: Thread, c: Choice)
    requires Ready(s, t, th) && Allowed(s, th, c)
    ensures Inv(ThreadStep(s, t, th, c))
  {
    hide Inv, Want, JoinStep, CleanStep, CancelStep, MainStep, Allowed, HostOf, CancelOf, JoinOf;
    if !th.join.pc.JNone? {
      JoinKeeps(s, t, th, c);
    } else if !th.clean.pc.CNone? {
      CleanStepKeeps(s, t, th, c);
    } else if !th.cancel.pc.KNone? {
      CancelStepKeeps(s, t, th, c);
    } else {
      MainStepKeeps(s, t, th, c);
    }
  }

  // ---------- taking a lock ----------

  lemma HeldOneMore(th: Thread)
    requires th.lk < |Want(th)|
    ensures forall lock :: lock in Held(th.(lk := th.lk + 1)) ==> lock in Held(th) || lock == Want(th)[th.lk]
  {
    var th' := th.(lk := th.lk + 1);
    assert Want(th') == Want(th);
    assert Want(th)[..th.lk + 1] == Want(th)[..th.lk] + [Want(th)[th.lk]];
  }

  lemma MutexAcquire(s: System, t: nat, th: Thread)
    requires Mutex(s.threads) && t in s.threads && th == s.threads[t] && CanAcquire(s, th)
    ensures Mutex(s.threads[t := th.(lk := th.lk + 1)])
  {
    hide Held, Want;
    HeldOneMore(th);
    var th' := th.(lk := th.lk + 1);
    forall u | u in s.threads && u != t ensures Apart(th', s.threads[u]) && Apart(s.threads[u], th') {
      assert Apart(th, s.threads[u]) && Apart(s.threads[u], th);
    }
  }

  lemma AcquireShape(t: nat, th: Thread, next: nat, host: Option<nat>)
    requires ShapeOf(t, th, next, host) && th.lk < |Want(th)|
    ensures ShapeOf(t, th.(lk := th.lk + 1), next, host)
  {
    assert Want(th.(lk := th.lk + 1)) == Want(th);
  }

  lemma StreamsAcquire(runs: seq<Run>, threads: Threads, t: nat, th': Thread)
    requires Streams(runs, threads) && t in threads
    requires th'.join == threads[t].join && JoinRun(th') == JoinRun(threads[t])
    ensures Streams(runs, threads[t := th'])
  {
  }

  lemma AcquireJoin(runs: seq<Run>, th: Thread, th': Thread)
    requires JoinOf(runs, th) && th' == th.(lk := th.lk + 1)
    ensures JoinOf(runs, th') && JoinRun(th') == JoinRun(th)
  {
  }

  lemma AcquireKeeps(s: System, t: nat, th: Thread)
    requires Inv(s) && t in s.threads && th == s.threads[t] && CanAcquire(s, th)
    ensures Inv(AcquireStep(s, t, th))
  {
    var th' := th.(lk := th.lk + 1);
    Facts(s, t, th);
    hide ShapeOf, Shape, Mutex, Uniform, RunsWf, Refers, Streams, Routines, Linked, Quiescent, Fence, HostOf, Slots,
      Custody, CancelOf, JoinOf, Covers, Want, CanAcquire, Held;
    assert th.lk < |Want(th)| by { AcquireOpen(s, th); }
    MutexAcquire(s, t, th);
    AcquireShape(t, th, s.nextThread, s.host);
    ShapePut(s.threads, s.nextThread, s.host, t, th');
    AcquireJoin(s.runs, th, th');
    StreamsAcquire(s.runs, s.threads, t, th');
    EvolvesSelf(s.runs);
    OthersSame(s, t);
    RoutinesPut(s.reg, s.runs, s.past, s.threads, s.reg, s.runs, s.past, t, th');
    HostThreadPut(s.threads, s.host, t, th');
    if s.host == Some(t) {
      CoversJoin(th, th');
      HostOfJoin(s.reg, s.count, s.runs, s.past, t, th, th');
      CoversKeeps(s.reg, s.count, s.runs, s.past, th, th');
    }
  }

  lemma AcquireOpen(s: System, th: Thread)
    requires CanAcquire(s, th)
    ensures th.lk < |Want(th)|
  {
  }

  // ---------- a command starts ----------

  lemma NewIdle(past: History, call: Call)
    ensures var th := NewThread(past, call);
      Held(th) == [] && !InHost(th.main) && th.join.pc.JNone? && th.clean.pc.CNone? && !JoinSite(th)
  {
  }

  lemma NewShape(past: History, call: Call, t: nat, host: Option<nat>)
    requires host != Some(t)
    ensures ShapeOf(t, NewThread(past, call), t + 1, host)
  {
  }

  lemma ShapeStart(threads: Threads, t: nat, host: Option<nat>, th: Thread)
    requires Shape(threads, t, host) && ShapeOf(t, th, t + 1, host)
    ensures Shape(threads[t := th], t + 1, host)
  {
    forall u | u in threads && u != t ensures ShapeOf(u, threads[u], t + 1, host) {
      assert ShapeOf(u, threads[u], t, host);
    }
  }

  lemma MutexStart(threads: Threads, t: nat, th: Thread)
    requires Mutex(threads) && Held(th) == []
    ensures Mutex(threads[t := th])
  {
  }

  lemma StreamsStart(runs: seq<Run>, threads: Threads, t: nat, th: Thread)
    requires Streams(runs, threads) && t !in threads && th.join.pc.JNone?
    ensures Streams(runs, threads[t := th])
  {
  }

  lemma FreshThread(s: System)
    requires Shape(s.threads, s.nextThread, s.host)
    ensures s.nextThread !in s.threads && s.host != Some(s.nextThread)
  {
    assert s.nextThread in s.threads ==>
      ShapeOf(s.nextThread, s.threads[s.nextThread], s.nextThread, s.host);
  }

  lemma StartKeeps(s: System, call: Call)
    requires Inv(s)
    ensures Inv(StartStep(s, call))
  {
    var t, th := s.nextThread, NewThread(s.past, call);
    FreshThread(s);
    NewIdle(s.past, call);
    NewShape(s.past, call, t, s.host);
    NewRoutines(s, call);
    hide ShapeOf, Shape, Mutex, Uniform, RunsWf, Refers, Streams, Routines, Linked, Quiescent, Fence, HostOf, Slots,
      Custody, CancelOf, JoinOf, Want, Held, NewThread;
    ShapeStart(s.threads, t, s.host, th);
    MutexStart(s.threads, t, th);
    StreamsStart(s.runs, s.threads, t, th);
    EvolvesSelf(s.runs);
    OthersSame(s, t);
    RoutinesPut(s.reg, s.runs, s.past, s.threads, s.reg, s.runs, s.past, t, th);
    HostThreadPut(s.threads, s.host, t, th);
  }

  lemma NewRoutines(s: System, call: Call)
    ensures CancelOf(s.reg, s.runs, s.past, NewThread(s.past, call).cancel)
    ensures JoinOf(s.runs, NewThread(s.past, call))
  {
  }

  // ---------- a child exits by itself ----------

  lemma ExitRun(s: System, r: RunId)
    requires RunsWf(s.runs, s.reg.prepared, s.past.minted) && r < |s.runs|
    ensures var run := s.runs[r].(alive := false);
      RunEvolves(s.runs[r], run) && SameStreams(s.runs[r], run) && RunWf(run, s.reg.prepared, s.past.minted)
  {
  }

  lemma RoutinesRun(s: System, r: RunId, run: Run)
    requires Routines(s.reg, s.runs, s.past, s.threads) && r < |s.runs| && RunEvolves(s.runs[r], run)
    ensures Routines(s.reg, s.runs[r := run], s.past, s.threads)
  {
    hide CancelOf, JoinOf, Evolves, MintedGrows, CancelRely, RunEvolves;
    EvolvesOne(s.runs, r, run);
    OthersSame(s, 0);
    forall u | u in s.threads
      ensures CancelOf(s.reg, s.runs[r := run], s.past, s.threads[u].cancel) && JoinOf(s.runs[r := run], s.threads[u])
    {
      CancelStable(s.reg, s.runs, s.past, s.reg, s.runs[r := run], s.past, s.threads[u].cancel);
      JoinStable(s.runs, s.runs[r := run], s.threads[u]);
    }
  }

  lemma ExitKeeps(s: System, r: RunId)
    requires Inv(s) && r < |s.runs|
    ensures Inv(ExitStep(s, r))
  {
    var run := s.runs[r].(alive := false);
    ExitRun(s, r);
    hide ShapeOf, Shape, Mutex, Uniform, RunsWf, Refers, Streams, Routines, Linked, Quiescent, Fence, HostOf, Slots,
      Custody, RunEvolves, SameStreams, RunWf;
    RunShared(s, r, run);
    SameStreamsOne(s.runs, s.threads, r, run);
    RoutinesRun(s, r, run);
    CustodyEvolves(s.reg, s.runs, r, run, HostThread(s.threads, s.host));
    if s.host.Some? && s.host.value in s.threads {
      HostOfSameStreams(s.reg, s.count, s.runs, s.past, s.host.value, s.threads[s.host.value], r, run);
    }
  }

  // ---------- executions ----------

  /** One step of any thread, or of the environment, keeps the invariant. */
  lemma StepInvariant(s: System, e: Event)
    requires Inv(s) && Enabled(s, e)
    ensures Inv(Next(s, e))
  {
    hide Inv, Allowed, Want, AcquireStep, StartStep, ExitStep, ThreadStep;
    match e
    case Start(call) => StartKeeps(s, call);
    case Acquire(t) => AcquireKeeps(s, t, s.threads[t]);
    case Work(t, c) => ThreadStepKeeps(s, t, s.threads[t], c);
    case Exit(r) => ExitKeeps(s, r);
  }

  lemma InitialInvariant()
    ensures Inv(Initial())
  {
  }

  /** The invariant holds in every state of every execution. */
  lemma {:induction false} Reachable(states: seq<System>, events: seq<Event>, i: nat)
    requires Execution(states, events) && i < |states|
    ensures Inv(states[i])
  {
    hide Inv, Enabled, Next;
    if i == 0 {
      InitialInvariant();
    } else {
      Reachable(states, events, i - 1);
      StepInvariant(states[i - 1], events[i - 1]);
    }
  }
}
