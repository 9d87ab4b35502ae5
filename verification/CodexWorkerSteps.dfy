/** Executing a worker, up to its run and after it, keeps the invariant. */
module CodexWorkerSteps {
  import opened Options
  import opened CodexTypes
  import opened CodexRegistry
  import opened CodexProtocol
  import opened CodexInvariant
  import opened CodexFrames
  import opened CodexMoves
  import opened CodexJoinSteps
  import opened CodexCleanSteps
  import opened CodexCancelEffects
  import opened CodexCommandSteps

  // ---------- looking up the lease ----------

  lemma LookupFacts(s: System, th: Thread)
    requires SharedOk(s) && WorkerOf(s.reg, s.count, s.runs, s.past, th) && th.main.ExLookup?
    requires th.op in s.reg.prepared
    ensures WorkerOf(s.reg, s.count, s.runs, s.past, At(th, ExBegin))
    ensures WorkerOf(s.reg, s.count, s.runs, s.past, At(th, ExExpire))
  {
    hide Refers, Linked;
    forall r | 0 <= r < |s.runs| ensures s.runs[r].token != Some(th.op) {
      assert RunWf(s.runs[r], s.reg.prepared, s.past.minted);
    }
  }

  lemma NothingElse(s: System, th: Thread)
    requires ExecMain(th.main)
    ensures OtherHostOf(s.reg, s.count, s.past, th)
  {
  }

  lemma LookupKeeps(s: System, t: nat, th: Thread, c: Choice)
    requires Ready(s, t, th) && th.main.ExLookup? && AtMain(th)
    ensures Inv(LookupStep(s, t, th, th.op, c))
  {
    hide Inv, ShapeOf, HostOf, CancelOf, JoinOf, Want, SharedOk, Streams, Mutex, HostFacts, Answered, OtherHostOf,
      WorkerOf;
    Parts(s);
    Facts(s, t, th);
    HostIn(s, t, th);
    StraightParts(s, t, th);
    if th.op !in s.reg.prepared {
      LeavePlain(s, t, th);
    } else {
      LookupFacts(s, th);
      if th.op in c.expired {
        NothingElse(s, At(th, ExExpire));
        StraightMove(s, t, th, At(th, ExExpire));
      } else if s.reg.prepared[th.op].session != th.session || !c.ok {
        LeavePlain(s, t, th);
      } else {
        NothingElse(s, At(th, ExBegin));
        StraightMove(s, t, th, At(th, ExBegin));
      }
    }
  }

  lemma ExpireKeeps(s: System, t: nat, th: Thread)
    requires Ready(s, t, th) && th.main.ExExpire? && AtMain(th)
    ensures Inv(End(SetPrepared(s, s.reg.prepared - {th.op}), t))
  {
    hide Inv, ShapeOf, HostOf, CancelOf, JoinOf, Want, SharedOk, Streams, Mutex, HostFacts, Answered, OthersRely,
      MintedGrows, CancelRely;
    Parts(s);
    Facts(s, t, th);
    HostIn(s, t, th);
    LeaveAnswered(s, th);
    LeaseShared(s, {th.op});
    LeaseAnswered(s, None, {th.op});
    LeaseOthers(s, t, {th.op});
    OthersSame(s, t);
    EndKeeps(s, t, th, SetPrepared(s, s.reg.prepared - {th.op}));
  }

  // ---------- beginning the operation ----------

  function Begin(s: System, th: Thread): System {
    DrawOperation(SetPending(s, s.reg.pending[th.op := Pending(s.count.operation, th.session, false)]))
  }

  function BegunThread(s: System, th: Thread): Thread {
    th.(main := ExTake, generation := s.count.operation, lk := 0)
  }

  /** A token that has not led to a run is not active. */
  lemma UnspawnedInactive(s: System, op: Token)
    requires Refers(s.reg, s.runs) && Unspawned(s.runs, op)
    ensures op !in s.reg.active
  {
  }

  lemma BeginShared(s: System, th: Thread)
    requires SharedOk(s) && WorkerOf(s.reg, s.count, s.runs, s.past, th) && th.main.ExBegin?
    ensures SharedOk(Begin(s, th))
  {
    hide RunsWf;
    UnspawnedInactive(s, th.op);
  }

  lemma BeginOthers(s: System, t: nat, th: Thread)
    requires Routines(s.reg, s.runs, s.past, s.threads) && Refers(s.reg, s.runs)
    requires WorkerOf(s.reg, s.count, s.runs, s.past, th) && th.main.ExBegin?
    ensures OthersRely(s.reg, Begin(s, th).reg, s.threads, t)
  {
    UnspawnedInactive(s, th.op);
    forall u | u in s.threads && u != t ensures CancelRely(s.reg, Begin(s, th).reg, s.threads[u].cancel) {
      assert CancelOf(s.reg, s.runs, s.past, s.threads[u].cancel);
    }
  }

  lemma BeginWorker(s: System, th: Thread)
    requires WorkerOf(s.reg, s.count, s.runs, s.past, th) && th.main.ExBegin?
    ensures var s1 := Begin(s, th);
      WorkerOf(s1.reg, s1.count, s1.runs, s1.past, BegunThread(s, th))
  {
    hide Unspawned;
  }

  lemma BeginAnswered(s: System, th: Thread)
    requires Answered(s, None) && th.main.ExBegin? && Refers(s.reg, s.runs)
    requires WorkerOf(s.reg, s.count, s.runs, s.past, th) && th.op !in s.reg.pending
    ensures Answered(Begin(s, th), Some(BegunThread(s, th)))
  {
    UnspawnedInactive(s, th.op);
    var s1 := Begin(s, th);
    forall q | 0 <= q < |s.runs| && !s.runs[q].Settled()
      ensures Owned(s1.reg, Some(BegunThread(s, th)), s.runs[q], q)
    {
      assert Owned(s.reg, None, s.runs[q], q);
    }
    assert HostBegun(Some(BegunThread(s, th)), th.op);
  }

  lemma RoutinesPart(s: System)
    requires Inv(s)
    ensures Routines(s.reg, s.runs, s.past, s.threads)
  {
    hide Routines, Shape, Mutex, Uniform, RunsWf, Refers, Streams, Linked, Quiescent, Fence, Slots, Custody, HostFacts;
  }

  lemma BeginKeeps(s: System, t: nat, th: Thread)
    requires Ready(s, t, th) && th.main.ExBegin? && AtMain(th)
    ensures Inv(BeginStep(s, t, th))
  {
    hide Inv, ShapeOf, HostOf, CancelOf, JoinOf, Want, Streams, Mutex, HostFacts, Answered, OtherHostOf, WorkerOf,
      Uniform, RunsWf, Refers, Linked, OthersRely, CancelRely, MintedGrows, Routines;
    Parts(s);
    Facts(s, t, th);
    HostIn(s, t, th);
    StraightParts(s, t, th);
    if th.op in s.reg.pending {
      LeavePlain(s, t, th);
    } else {
      RoutinesPart(s);
      BeginShared(s, th);
      BeginOthers(s, t, th);
      OthersSame(s, t);
      BeginWorker(s, th);
      LeaveAnswered(s, th);
      BeginAnswered(s, th);
      NothingElse(Begin(s, th), BegunThread(s, th));
      StraightStep(s, t, th, BegunThread(s, th), Begin(s, th));
    }
  }

  // ---------- taking the lease ----------

  lemma FailWorker(s: System, th: Thread)
    requires WorkerOf(s.reg, s.count, s.runs, s.past, th) && Begun(th)
    requires th.main.ExTake? ==> th.op !in s.reg.prepared
    ensures WorkerOf(s.reg, s.count, s.runs, s.past, th.(main := ExFinish, res := false, lk := 0))
    ensures !RunMain(th.main) ==> Covers(th, th.(main := ExFinish, res := false, lk := 0))
  {
    hide Unspawned;
  }

  /** A worker gives up before its run and goes on to finish its operation. */
  lemma FailKeeps(s: System, t: nat, th: Thread)
    requires Ready(s, t, th) && AtMain(th) && Begun(th) && ExecMain(th.main)
    requires th.main.ExTake? ==> th.op !in s.reg.prepared
    ensures Inv(GoFinish(s, t, th, false))
  {
    hide Inv, ShapeOf, HostOf, CancelOf, JoinOf, Want, WorkerOf, OtherHostOf, Covers;
    Facts(s, t, th);
    HostIn(s, t, th);
    StraightParts(s, t, th);
    FailWorker(s, th);
    var th' := th.(main := ExFinish, res := false, lk := 0);
    NothingElse(s, th');
    StraightMove(s, t, th, th');
  }

  lemma TakeWorker(s: System, th: Thread)
    requires WorkerOf(s.reg, s.count, s.runs, s.past, th) && th.main.ExTake?
    ensures WorkerOf(s.reg.(prepared := s.reg.prepared - {th.op}), s.count, s.runs, s.past, At(th, ExPre))
  {
    hide Unspawned;
  }

  lemma TakeAnswered(s: System, th: Thread)
    requires Answered(s, Some(th)) && th.main.ExTake? && th.op in s.reg.prepared
    ensures Answered(SetPrepared(s, s.reg.prepared - {th.op}), Some(At(th, ExPre)))
  {
    var s1 := SetPrepared(s, s.reg.prepared - {th.op});
    forall q | 0 <= q < |s.runs| && !s.runs[q].Settled()
      ensures Owned(s1.reg, Some(At(th, ExPre)), s.runs[q], q)
    {
      assert Owned(s.reg, Some(th), s.runs[q], q);
    }
  }

  lemma LeaseLive(s: System, op: Token)
    requires SharedOk(s) && op in s.reg.prepared
    ensures !s.reg.prepared[op].cancelled
  {
    hide RunsWf, Refers, Linked;
  }

  lemma TakeKeeps(s: System, t: nat, th: Thread)
    requires Ready(s, t, th) && th.main.ExTake? && AtMain(th)
    ensures Inv(TakeStep(s, t, th, th.op))
  {
    hide Inv, ShapeOf, HostOf, CancelOf, JoinOf, Want, Streams, Mutex, HostFacts, Answered, OtherHostOf, WorkerOf,
      SharedOk, OthersRely, CancelRely, MintedGrows;
    Parts(s);
    Facts(s, t, th);
    HostIn(s, t, th);
    StraightParts(s, t, th);
    if th.op !in s.reg.prepared {
      FailKeeps(s, t, th);
    } else {
      var s1 := SetPrepared(s, s.reg.prepared - {th.op});
      LeaseLive(s, th.op);
      LeaseShared(s, {th.op});
      LeaseOthers(s, t, {th.op});
      OthersSame(s, t);
      TakeWorker(s, th);
      TakeAnswered(s, th);
      NothingElse(s1, At(th, ExPre));
      StraightStep(s, t, th, At(th, ExPre), s1);
    }
  }

  lemma OnwardWorker(s: System, th: Thread, next: Main)
    requires WorkerOf(s.reg, s.count, s.runs, s.past, th)
    requires (th.main.ExPre? && next.ExReserve?)
      || (th.main.ExReserve? && next.ExSpawn?
          && Reserve(s.reg.active, s.reg.pending, th.op, th.session, th.generation).Ok?)
    ensures WorkerOf(s.reg, s.count, s.runs, s.past, At(th, next)) && Covers(th, At(th, next))
  {
    hide Unspawned;
  }

  lemma OnwardKeeps(s: System, t: nat, th: Thread, next: Main)
    requires Ready(s, t, th) && AtMain(th)
    requires (th.main.ExPre? && next.ExReserve?)
      || (th.main.ExReserve? && next.ExSpawn?
          && Reserve(s.reg.active, s.reg.pending, th.op, th.session, th.generation).Ok?)
    ensures Inv(Goto(s, t, th, next))
  {
    hide Inv, ShapeOf, HostOf, CancelOf, JoinOf, Want, WorkerOf, OtherHostOf, Covers, Reserve;
    Facts(s, t, th);
    HostIn(s, t, th);
    StraightParts(s, t, th);
    OnwardWorker(s, th, next);
    NothingElse(s, At(th, next));
    StraightMove(s, t, th, At(th, next));
  }

  // ---------- spawning ----------

  function SpawnedState(s: System, th: Thread): System {
    SetActive(AddRun(s, Spawned(Some(th.op), 0)),
              s.reg.active[th.op := ActiveChild(th.session, th.generation, |s.runs|)])
  }

  function SpawnedThread(s: System, th: Thread): Thread {
    StartRun(th, RunStdin, |s.runs|, true)
  }

  /** A registration under the held reservation is accepted. */
  lemma SpawnAccepted(s: System, th: Thread)
    requires WorkerOf(s.reg, s.count, s.runs, s.past, th) && th.main.ExSpawn? && SharedOk(s)
    ensures Register(s.reg.active, s.reg.pending, th.op, ActiveChild(th.session, th.generation, |s.runs|))
         == Ok(SpawnedState(s, th).reg.active)
  {
    hide RunsWf, Refers, Linked, Unspawned;
  }

  lemma SpawnRuns(s: System, th: Thread)
    requires SharedOk(s) && WorkerOf(s.reg, s.count, s.runs, s.past, th) && th.main.ExSpawn?
    ensures var s1 := SpawnedState(s, th);
      RunsWf(s1.runs, s1.reg.prepared, s1.past.minted) && Refers(s1.reg, s1.runs)
  {
    hide Linked;
  }

  lemma SpawnShared(s: System, th: Thread)
    requires SharedOk(s) && WorkerOf(s.reg, s.count, s.runs, s.past, th) && th.main.ExSpawn?
    ensures SharedOk(SpawnedState(s, th))
  {
    hide RunsWf, Refers, Uniform, Linked, Unspawned;
    SpawnRuns(s, th);
    SpawnUniform(s, th);
    SpawnLinked(s, th);
  }

  lemma SpawnUniform(s: System, th: Thread)
    requires Uniform(s.reg, s.count, s.past) && WorkerOf(s.reg, s.count, s.runs, s.past, th) && th.main.ExSpawn?
    ensures var s1 := SpawnedState(s, th); Uniform(s1.reg, s1.count, s1.past)
  {
    hide Unspawned;
  }

  lemma SpawnLinked(s: System, th: Thread)
    requires Linked(s.reg, s.past) && WorkerOf(s.reg, s.count, s.runs, s.past, th) && th.main.ExSpawn?
    ensures Linked(SpawnedState(s, th).reg, s.past)
  {
    hide Unspawned;
  }

  lemma AddStreams(s: System, threads: Threads, run: Run)
    requires Streams(s.runs, threads) && run.stdout.InSlot? && run.stderr.InSlot?
    ensures Streams(s.runs + [run], threads)
    ensures Evolves(s.runs, s.runs + [run])
  {
    var runs' := s.runs + [run];
    assert forall q, out :: 0 <= q < |s.runs| ==> runs'[q].StreamOf(out) == s.runs[q].StreamOf(out);
    assert forall out :: runs'[|s.runs|].StreamOf(out).InSlot?;
  }

  lemma SpawnHost(s: System, t: nat, th: Thread)
    requires WorkerOf(s.reg, s.count, s.runs, s.past, th) && th.main.ExSpawn? && AtMain(th)
    ensures var s1 := SpawnedState(s, th);
      HostOf(s1.reg, s1.count, s1.runs, s1.past, t, SpawnedThread(s, th))
  {
    var s1, th' := SpawnedState(s, th), SpawnedThread(s, th);
    assert WorkerOf(s1.reg, s1.count, s1.runs, s1.past, th');
    assert CleanFacts(s1.reg, s1.runs, t, th');
    HostOfRunMain(s1.reg, s1.count, s1.runs, s1.past, t, th');
  }

  lemma AddCustody(s: System, reg: Registries, run: Run, ht: Option<Thread>, ht': Option<Thread>)
    requires Custody(s.reg, s.runs, ht)
    requires forall q :: 0 <= q < |s.runs| && Owned(s.reg, ht, s.runs[q], q) ==> Owned(reg, ht', s.runs[q], q)
    requires Owned(reg, ht', run, |s.runs|)
    ensures Custody(reg, s.runs + [run], ht')
  {
    hide Owned;
  }

  lemma SpawnAnswered(s: System, th: Thread)
    requires Answered(s, Some(th)) && WorkerOf(s.reg, s.count, s.runs, s.past, th) && th.main.ExSpawn?
    ensures Answered(SpawnedState(s, th), Some(SpawnedThread(s, th)))
  {
    var s1, th' := SpawnedState(s, th), SpawnedThread(s, th);
    AddCustody(s, s1.reg, Spawned(Some(th.op), 0), Some(th), Some(th'));
    hide Custody, Owned, Unspawned;
  }

  lemma SpawnFits(s: System, t: nat, th: Thread, r: RunId)
    requires ShapeOf(t, th, s.nextThread, s.host) && AtMain(th) && th.main.ExSpawn?
    ensures Fits(s, t, th, StartRun(th, RunStdin, r, true)) && PlainMain(StartRun(th, RunStdin, r, true))
  {
    assert Base(th)[0] == D;
  }

  lemma SpawnKeeps(s: System, t: nat, th: Thread, c: Choice)
    requires Ready(s, t, th) && th.main.ExSpawn? && AtMain(th)
    ensures Inv(SpawnStep(s, t, th, |s.runs|, c))
  {
    hide Inv, ShapeOf, HostOf, CancelOf, JoinOf, Want, Streams, Mutex, HostFacts, Answered, OtherHostOf, WorkerOf,
      SharedOk, OthersRely, CancelRely, MintedGrows, Fits, Evolves, Held, Register, PlainMain;
    Parts(s);
    Facts(s, t, th);
    HostIn(s, t, th);
    StraightParts(s, t, th);
    if !c.ok {
      FailKeeps(s, t, th);
    } else {
      var s1, th' := SpawnedState(s, th), SpawnedThread(s, th);
      SpawnAccepted(s, th);
      SpawnShared(s, th);
      StreamsPut(s.runs, s.threads, t, th');
      AddStreams(s, s.threads[t := th'], Spawned(Some(th.op), 0));
      SpawnHolds(th);
      OthersActive(s, t, s1.reg.active);
      OthersSame(s, t);
      SpawnHost(s, t, th);
      SpawnAnswered(s, th);
      SpawnFits(s, t, th, |s.runs|);
      PlainRoutines(s1, th');
      StepKeeps(s, t, th, th', s1);
    }
  }

  // ---------- finishing the operation ----------

  /** Finishing is refused only while the child is still registered. */
  lemma FinishCases(s: System, th: Thread)
    requires WorkerOf(s.reg, s.count, s.runs, s.past, th) && th.main.ExFinish?
    ensures match FinishPending(s.reg.active, s.reg.pending, th.op, th.generation)
      case Ok(cancelled) => cancelled == s.reg.pending[th.op].cancelled
      case Err(_) => th.op in s.reg.active && th.op in s.reg.pending
  {
    hide Unspawned;
  }

  function Finished(s: System, th: Thread, success: bool): System {
    var s1 := SetPending(s, s.reg.pending - {th.op});
    if success then s1.(past := Complete(s.past, th.op)) else s1
  }

  lemma FinishShared(s: System, th: Thread, success: bool)
    requires SharedOk(s) && WorkerOf(s.reg, s.count, s.runs, s.past, th) && th.main.ExFinish?
    requires FinishPending(s.reg.active, s.reg.pending, th.op, th.generation).Ok?
    ensures SharedOk(Finished(s, th, success)) && MintedGrows(s.past, Finished(s, th, success).past)
  {
    hide RunsWf, Unspawned;
  }

  lemma FinishOthers(s: System, t: nat, th: Thread)
    ensures OthersRely(s.reg, s.reg.(pending := s.reg.pending - {th.op}), s.threads, t)
  {
  }

  lemma FinishAnswered(s: System, th: Thread, success: bool)
    requires Answered(s, Some(th)) && th.main.ExFinish?
    ensures Answered(Finished(s, th, success), None)
  {
    var s1 := Finished(s, th, success);
    forall q | 0 <= q < |s.runs| && !s.runs[q].Settled() ensures Owned(s1.reg, None, s.runs[q], q) {
      assert Owned(s.reg, Some(th), s.runs[q], q);
    }
  }

  lemma RetainedAnswered(s: System, th: Thread)
    requires Answered(s, Some(th)) && th.main.ExFinish? && th.op in s.reg.active
    ensures Answered(s, None)
  {
    forall q | 0 <= q < |s.runs| && !s.runs[q].Settled() ensures Owned(s.reg, None, s.runs[q], q) {
      assert Owned(s.reg, Some(th), s.runs[q], q);
    }
  }

  lemma FinishKeeps(s: System, t: nat, th: Thread)
    requires Ready(s, t, th) && th.main.ExFinish? && AtMain(th)
    ensures Inv(FinishStep(s, t, th))
  {
    hide Inv, ShapeOf, HostOf, CancelOf, JoinOf, Want, Streams, Mutex, HostFacts, Answered, OtherHostOf, WorkerOf,
      SharedOk, OthersRely, CancelRely, MintedGrows, FinishPending;
    Parts(s);
    Facts(s, t, th);
    HostIn(s, t, th);
    StraightParts(s, t, th);
    FinishCases(s, th);
    match FinishPending(s.reg.active, s.reg.pending, th.op, th.generation)
    case Ok(cancelled) =>
      var success := !cancelled && th.res;
      FinishShared(s, th, success);
      FinishOthers(s, t, th);
      FinishAnswered(s, th, success);
      EndKeeps(s, t, th, Finished(s, th, success));
    case Err(_) =>
      RetainedAnswered(s, th);
      LeaveKeeps(s, t, th);
  }

  lemma EnterExec(s: System, t: nat, th: Thread)
    requires CurrentSession(s, th.session) && AtMain(th)
    ensures HostOf(s.reg, s.count, s.runs, s.past, t, At(th, ExLookup))
  {
  }

  lemma ExecStepKeeps(s: System, t: nat, th: Thread, c: Choice)
    requires Ready(s, t, th) && ExecMain(th.main) && AtMain(th)
    ensures Inv(ExecStep(s, t, th, c))
  {
    hide Inv, HostOf, CancelOf, JoinOf, Want, LookupStep, BeginStep, TakeStep, SpawnStep, FinishStep, Reserve,
      WorkerOf;
    Facts(s, t, th);
    match th.main
    case ExEnter =>
      if c.ok && CurrentSession(s, th.session) {
        EnterExec(s, t, th);
        EnterKeeps(s, t, th, ExLookup);
      } else {
        LeavePlain(s, t, th);
      }
    case ExLookup => LookupKeeps(s, t, th, c);
    case ExExpire => ExpireKeeps(s, t, th);
    case ExBegin => BeginKeeps(s, t, th);
    case ExTake => TakeKeeps(s, t, th);
    case ExPre =>
      if !c.ok || TakeCancelled(s.reg.pending, th.op) || !c.ok2 {
        FailKeeps(s, t, th);
      } else {
        OnwardKeeps(s, t, th, ExReserve);
      }
    case ExReserve =>
      if Reserve(s.reg.active, s.reg.pending, th.op, th.session, th.generation).Ok? {
        OnwardKeeps(s, t, th, ExSpawn);
      } else {
        FailKeeps(s, t, th);
      }
    case ExSpawn => SpawnKeeps(s, t, th, c);
    case ExFinish => FinishKeeps(s, t, th);
    case _ =>
  }
}
