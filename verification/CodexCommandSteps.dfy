/** Preparing a lease and executing a worker keep the invariant. */
module CodexCommandSteps {
  import opened Options
  import opened CodexTypes
  import opened CodexRegistry
  import opened CodexProtocol
  import opened CodexInvariant
  import opened CodexFrames
  import opened CodexMoves
  import opened CodexJoinSteps
  import opened CodexCancelEffects

  /** No routine is active: the thread is at a point of its command. */
  predicate AtMain(th: Thread) {
    th.join.pc.JNone? && th.clean.pc.CNone? && th.cancel.pc.KNone?
  }

  /** A point of a command that does not call the join. */
  predicate PlainMain(th: Thread) {
    AtMain(th) && !th.main.RunOut? && !th.main.RunErr?
  }

  lemma PlainRoutines(s: System, th: Thread)
    requires PlainMain(th)
    ensures CancelOf(s.reg, s.runs, s.past, th.cancel) && JoinOf(s.runs, th)
  {
  }

  // ---------- entering and leaving ----------

  lemma NoHost(s: System, t: nat, th: Thread)
    requires Ready(s, t, th) && IsEnter(th.main) && AtMain(th)
    ensures s.host == None
  {
    hide Uniform, RunsWf, Refers, Linked, Streams, Routines, Quiescent, Fence, Slots, Custody, HostFacts, Held;
    if s.host.Some? {
      EnterHolds(th);
      assert Apart(th, s.threads[s.host.value]);
      HostHolds(s.threads[s.host.value]);
    }
  }

  lemma EnterHolds(th: Thread)
    requires IsEnter(th.main) && AtMain(th) && th.lk == |Want(th)|
    ensures D in Held(th)
  {
    assert Want(th)[0] == D;
    FullHeld(th, D);
  }

  lemma HostHolds(th: Thread)
    requires InHost(th.main)
    ensures D in Held(th)
  {
    assert MainBase(th.main)[0] == D;
    assert Base(th)[0] == D;
    assert Held(th)[0] == D;
  }

  /** A command passes its entry checks while nobody else is inside a host operation. */
  lemma EnterKeeps(s: System, t: nat, th: Thread, next: Main)
    requires Ready(s, t, th) && IsEnter(th.main) && AtMain(th) && InHost(next)
    requires !next.RunOut? && !next.RunErr? && !next.ExSpawn? && !next.ExRecover? && !next.RtWait?
    requires HostOf(s.reg, s.count, s.runs, s.past, t, At(th, next))
    ensures Inv(Enter(s, t, th, true, next))
  {
    hide ShapeOf, Mutex, Uniform, RunsWf, Refers, Linked, Streams, Routines, Quiescent, Fence, Slots, Custody,
      HostOf, CancelOf, JoinOf, Held, Want, Within, Evolves;
    var th' := At(th, next);
    NoHost(s, t, th);
    Facts(s, t, th);
    EnterShape(t, th, next, s.nextThread);
    EnterWithin(th, next);
    ShapeEnter(s.threads, s.nextThread, t, th');
    MutexPut(s.threads, t, th');
    StreamsPut(s.runs, s.threads, t, th');
    EvolvesSelf(s.runs);
    OthersSame(s, t);
    PlainRoutines(s, th');
    RoutinesPut(s.reg, s.runs, s.past, s.threads, s.reg, s.runs, s.past, t, th');
    HostThreadPut(s.threads, Some(t), t, th');
    EnterAnswered(s, th');
  }

  lemma EnterShape(t: nat, th: Thread, next: Main, bound: nat)
    requires ShapeOf(t, th, bound, None) && AtMain(th) && InHost(next)
    requires !next.ExRecover? && !next.RtWait?
    ensures ShapeOf(t, At(th, next), bound, Some(t)) && AtMain(At(th, next))
  {
  }

  lemma EnterWithin(th: Thread, next: Main)
    requires IsEnter(th.main) && AtMain(th) && InHost(next) && !next.ExSpawn? && !next.ExRecover?
    requires th.lk == |Want(th)|
    ensures Within(th, At(th, next))
  {
    assert Want(th) == [D];
    assert Base(At(th, next)) == [D];
    CarriesWithin(th, At(th, next));
  }

  lemma EnterAnswered(s: System, th: Thread)
    requires Answered(s, None)
    ensures Answered(s, Some(th))
  {
    forall q | 0 <= q < |s.runs| && !s.runs[q].Settled() ensures Owned(s.reg, Some(th), s.runs[q], q) {
      assert Owned(s.reg, None, s.runs[q], q);
    }
  }

  /** A host thread that answers for nothing may leave. */
  predicate Unburdened(th: Thread) {
    !Begun(th) && !RunMain(th.main) && !th.main.UxSpawn? && !th.main.UxUnslot? && !RetryLoop(th.main)
  }

  lemma LeaveAnswered(s: System, th: Thread)
    requires Answered(s, Some(th)) && Unburdened(th)
    ensures Answered(s, None)
  {
    forall q | 0 <= q < |s.runs| && !s.runs[q].Settled() ensures Owned(s.reg, None, s.runs[q], q) {
      assert Owned(s.reg, Some(th), s.runs[q], q);
    }
  }

  lemma LeavePlain(s: System, t: nat, th: Thread)
    requires Ready(s, t, th) && AtMain(th) && Unburdened(th)
    ensures Inv(End(s, t))
  {
    hide Inv, Answered, HostOf, CancelOf, JoinOf, ShapeOf, Want;
    Parts(s);
    Facts(s, t, th);
    if s.host == Some(t) {
      LeaveAnswered(s, th);
    }
    LeaveKeeps(s, t, th);
  }

  // ---------- moves of a worker before its run and of a preparation ----------

  predicate Straight(th: Thread) {
    && PlainMain(th) && !RunMain(th.main) && !RetryMain(th.main) && !TeardownMain(th.main)
    && (th.main.ExFinish? ==> !th.res)
  }

  lemma HostOfStraight(reg: Registries, count: Counters, runs: seq<Run>, past: History, h: nat, th: Thread)
    requires Straight(th) && WorkerOf(reg, count, runs, past, th) && OtherHostOf(reg, count, past, th)
    ensures HostOf(reg, count, runs, past, h, th)
  {
    hide WorkerOf, OtherHostOf, Unspawned, InCands, InTodo, CandOf;
  }

  lemma StraightParts(s: System, t: nat, th: Thread)
    requires HostOf(s.reg, s.count, s.runs, s.past, t, th)
    ensures WorkerOf(s.reg, s.count, s.runs, s.past, th) && OtherHostOf(s.reg, s.count, s.past, th)
  {
    hide WorkerOf, OtherHostOf, ScopedRunOf, UnscopedRunOf, RunStageOf, CleanOf, RetryOf, RetryWaitOf, TeardownOf;
  }

  lemma FitsMain(s: System, t: nat, th: Thread, th': Thread)
    requires ShapeOf(t, th, s.nextThread, s.host) && AtMain(th) && AtMain(th')
    requires InHost(th.main) && InHost(th'.main) && th'.lk == 0
    requires !th'.main.ExRecover? && !th'.main.RtWait?
    requires th'.main.ExSpawn? ==> th.main.ExReserve?
    ensures Fits(s, t, th, th')
  {
    if th'.main.ExSpawn? {
      assert Want(th) == [A, P];
    }
    assert Base(th)[0] == D;
  }

  /** A host thread moves on without changing anything shared. */
  lemma StraightMove(s: System, t: nat, th: Thread, th': Thread)
    requires Ready(s, t, th) && AtMain(th) && InHost(th.main) && InHost(th'.main) && th'.lk == 0
    requires Straight(th') && !th'.main.ExRecover?
    requires th'.main.ExSpawn? ==> th.main.ExReserve?
    requires WorkerOf(s.reg, s.count, s.runs, s.past, th') && OtherHostOf(s.reg, s.count, s.past, th')
    requires Covers(th, th')
    ensures Inv(Put(s, t, th'))
  {
    hide Inv, ShapeOf, HostOf, CancelOf, JoinOf, Want, WorkerOf, OtherHostOf, Covers, Fits;
    Facts(s, t, th);
    FitsMain(s, t, th, th');
    PlainRoutines(s, th');
    HostOfStraight(s.reg, s.count, s.runs, s.past, t, th');
    MoveKeeps(s, t, th, th');
  }

  /** A host thread moves on after a critical section on the registries or counters. */
  lemma StraightStep(s: System, t: nat, th: Thread, th': Thread, s1: System)
    requires Ready(s, t, th) && AtMain(th) && s.host == Some(t) && InHost(th'.main) && th'.lk == 0
    requires Straight(th') && !th'.main.ExRecover?
    requires th'.main.ExSpawn? ==> th.main.ExReserve?
    requires SameThreads(s, s1) && SharedOk(s1) && s1.runs == s.runs
    requires MintedGrows(s.past, s1.past) && OthersRely(s.reg, s1.reg, s.threads, t)
    requires WorkerOf(s1.reg, s1.count, s1.runs, s1.past, th') && OtherHostOf(s1.reg, s1.count, s1.past, th')
    requires Answered(s1, Some(th'))
    ensures Inv(Put(s1, t, th'))
  {
    hide Inv, ShapeOf, HostOf, CancelOf, JoinOf, Want, WorkerOf, OtherHostOf, Fits, SharedOk, MintedGrows,
      OthersRely, Answered, Streams, Evolves;
    Facts(s, t, th);
    Parts(s);
    assert InHost(th.main) by { HostIn(s, t, th); }
    FitsMain(s, t, th, th');
    PlainRoutines(s1, th');
    HostOfStraight(s1.reg, s1.count, s1.runs, s1.past, t, th');
    StreamsPut(s.runs, s.threads, t, th');
    EvolvesSelf(s.runs);
    StepKeeps(s, t, th, th', s1);
  }

  lemma HostIn(s: System, t: nat, th: Thread)
    requires Ready(s, t, th)
    ensures s.host == Some(t) <==> InHost(th.main)
  {
    hide Inv, HostOf, CancelOf, JoinOf, Want;
    Facts(s, t, th);
  }

  // ---------- preparing a lease ----------

  lemma DrawShared(s: System)
    requires SharedOk(s)
    ensures SharedOk(DrawOperation(s))
  {
    hide RunsWf, Refers, Linked;
  }

  lemma DrawAnswered(s: System)
    requires Answered(s, None)
    ensures Answered(DrawOperation(s), None)
  {
    hide Quiescent, Fence, Custody;
  }

  lemma TokenKeeps(s: System, t: nat, th: Thread)
    requires Ready(s, t, th) && th.main.PrepToken? && AtMain(th)
    ensures Inv(Put(DrawOperation(s), t, th.(main := PrepInsert, op := s.count.operation, lk := 0)))
  {
    hide Inv, ShapeOf, HostOf, CancelOf, JoinOf, Want, SharedOk, OthersRely, MintedGrows, HostFacts, CancelRely,
      Answered, WorkerOf, OtherHostOf, Put, Streams, Mutex;
    var th' := th.(main := PrepInsert, op := s.count.operation, lk := 0);
    Parts(s);
    Facts(s, t, th);
    HostIn(s, t, th);
    StraightParts(s, t, th);
    DrawShared(s);
    OthersSame(s, t);
    TokenFresh(s, th, th');
    LeaveAnswered(s, th);
    DrawAnswered(s);
    EnterAnswered(DrawOperation(s), th');
    StraightStep(s, t, th, th', DrawOperation(s));
  }

  lemma TokenFresh(s: System, th: Thread, th': Thread)
    requires SharedOk(s) && OtherHostOf(s.reg, s.count, s.past, th) && th.main.PrepToken?
    requires th' == th.(main := PrepInsert, op := s.count.operation, lk := 0)
    ensures var count := DrawOperation(s).count;
      WorkerOf(s.reg, count, s.runs, s.past, th') && OtherHostOf(s.reg, count, s.past, th')
  {
    hide RunsWf, Refers, Linked, Unspawned;
  }

  lemma InsertUniform(reg: Registries, count: Counters, past: History, op: Token, session: nat)
    requires Uniform(reg, count, past) && op !in past.minted && op < count.operation
    requires session == count.session != 0
    ensures Uniform(reg.(prepared := reg.prepared[op := Lease(session, false)]), count,
                    past.(minted := past.minted[op := session]))
  {
  }

  lemma InsertRuns(runs: seq<Run>, prepared: LeaseMap, minted: map<Token, nat>, op: Token, session: nat)
    requires RunsWf(runs, prepared, minted) && op !in minted
    ensures RunsWf(runs, prepared[op := Lease(session, false)], minted[op := session])
  {
  }

  lemma InsertShared(s: System, th: Thread, pruned: LeaseMap)
    requires OtherHostOf(s.reg, s.count, s.past, th) && th.main.PrepInsert?
    requires SharedOk(SetPrepared(s, pruned))
    ensures var s1 := SetPrepared(s, pruned[th.op := Lease(th.session, false)])
                      .(past := s.past.(minted := s.past.minted[th.op := th.session]));
      SharedOk(s1) && MintedGrows(s.past, s1.past)
  {
    hide Uniform, RunsWf;
    InsertUniform(s.reg.(prepared := pruned), s.count, s.past, th.op, th.session);
    InsertRuns(s.runs, pruned, s.past.minted, th.op, th.session);
  }

  lemma InsertOthers(s: System, t: nat, th: Thread, pruned: LeaseMap)
    requires OtherHostOf(s.reg, s.count, s.past, th) && th.main.PrepInsert?
    requires Routines(s.reg, s.runs, s.past, s.threads) && (forall op :: op in pruned ==> op in s.reg.prepared)
    ensures OthersRely(s.reg, s.reg.(prepared := pruned[th.op := Lease(th.session, false)]), s.threads, t)
  {
    forall u | u in s.threads && u != t
      ensures CancelRely(s.reg, s.reg.(prepared := pruned[th.op := Lease(th.session, false)]), s.threads[u].cancel)
    {
      assert CancelOf(s.reg, s.runs, s.past, s.threads[u].cancel);
    }
  }

  lemma InsertAnswered(s: System, th: Thread, pruned: LeaseMap)
    requires Answered(SetPrepared(s, pruned), None) && SharedOk(s)
    requires OtherHostOf(s.reg, s.count, s.past, th) && th.main.PrepInsert?
    ensures Answered(SetPrepared(s, pruned[th.op := Lease(th.session, false)])
                      .(past := s.past.(minted := s.past.minted[th.op := th.session])), None)
  {
    hide RunsWf, Refers, Linked, HostOwns;
    var s1 := SetPrepared(s, pruned[th.op := Lease(th.session, false)]);
    forall q | 0 <= q < |s.runs| && !s.runs[q].Settled() ensures Owned(s1.reg, None, s.runs[q], q) {
      assert Owned(SetPrepared(s, pruned).reg, None, s.runs[q], q);
    }
  }

  lemma InsertKeeps(s: System, t: nat, th: Thread, expired: set<Token>)
    requires Ready(s, t, th) && th.main.PrepInsert? && AtMain(th)
    ensures Inv(InsertStep(s, t, th, PruneLeases(s.reg.prepared, expired)))
  {
    hide ShapeOf, Shape, Mutex, HostOf, CancelOf, JoinOf, Want, SharedOk, OthersRely, MintedGrows, HostFacts,
      CancelRely, Answered, OtherHostOf, WorkerOf, Routines, Uniform, RunsWf, Refers, Streams, Linked, Quiescent,
      Fence, Slots, Custody;
    var pruned := PruneLeases(s.reg.prepared, expired);
    Parts(s);
    Facts(s, t, th);
    HostIn(s, t, th);
    StraightParts(s, t, th);
    LeaseShared(s, expired);
    LeaveAnswered(s, th);
    LeaseAnswered(s, None, expired);
    if |pruned| >= PREPARED_LEASE_CAP {
      LeaseOthers(s, t, expired);
      OthersSame(s, t);
      EndKeeps(s, t, th, SetPrepared(s, pruned));
    } else {
      InsertShared(s, th, pruned);
      InsertOthers(s, t, th, pruned);
      InsertAnswered(s, th, pruned);
      EndKeeps(s, t, th, SetPrepared(s, pruned[th.op := Lease(th.session, false)])
                           .(past := s.past.(minted := s.past.minted[th.op := th.session])));
    }
  }
}
