/** What a critical section does to its own thread: unless it decides to wait, the thread
    comes closer to the end of its command. */
module CodexOnward {
  import opened CodexTypes
  import opened CodexRegistry
  import opened CodexProtocol
  import opened CodexInvariant
  import opened CodexCommandSteps

  // ---------- how far a thread is from the end of its command ----------

  function JoinRank(pc: JoinPc): nat {
    match pc
    case JNone => 0
    case JPut => 1
    case JLook => 2
  }

  function CancelRank(pc: CancelPc): nat {
    match pc
    case KNone => 0
    case KDrop => 4
    case KPend => 4
    case KTerm => 8
    case KLease => 8
    case KErr => 12
    case KOut => 16
    case KKill => 20
    case KFlag => 24
    case KLook => 28
  }

  function CleanRank(pc: CleanPc): nat {
    match pc
    case CNone => 0
    case CArt => 8
    case CErr => 12
    case COut => 16
    case CTerm => 20
    case _ => 4
  }

  /** The length of a list once its first entry has been dealt with. */
  function Rest<T>(list: seq<T>): nat {
    if list == [] then 0 else |list| - 1
  }

  function MainRank(m: Main, host: HostFrame): nat {
    match m
    case RtEach => 384 + 64 * |host.cands|
    case RtWait => 416 + 64 * Rest(host.cands)
    case TdCancel => 192 + 64 * |host.todo|
    case TdWait => 224 + 64 * Rest(host.todo)
    case ExEnter => 512
    case ExLookup => 480
    case ExBegin => 448
    case ExTake => 416
    case ExPre => 384
    case ExReserve => 352
    case UxSlot => 352
    case ExSpawn => 320
    case UxSpawn => 320
    case RunStdin => 288
    case RunPoll => 256
    case RunPost => 224
    case RunFlag => 192
    case RunOut => 160
    case TdCheck => 160
    case RunErr => 128
    case TdPend => 128
    case RunRead => 96
    case TdPrep => 96
    case PrepEnter => 96
    case RunAbort => 64
    case RunFinal => 64
    case ExRecover => 64
    case TdBump => 64
    case PrepToken => 64
    case UxEnter => 64
    case TdEnter => 64
    case _ => 32
  }

  function Rank(th: Thread): nat {
    MainRank(th.main, th.host) + CancelRank(th.cancel.pc) + CleanRank(th.clean.pc) + JoinRank(th.join.pc)
  }

  /** The sections that are still to come and whose lists may have any length. */
  function Lists(m: Main, teardown: bool): nat {
    match m
    case UxEnter => 2
    case TdEnter => 2
    case RtCollect => if teardown then 2 else 1
    case RtEach => if teardown then 1 else 0
    case RtWait => if teardown then 1 else 0
    case TdSnap => 1
    case _ => 0
  }

  function ListsOf(th: Thread): nat {
    Lists(th.main, th.host.teardown)
  }

  /** Critical sections and acquisitions to come, once all lists are known. */
  function Budget(th: Thread): nat {
    8 * Rank(th) + if th.lk < 4 then 4 - th.lk else 0
  }

  predicate Below(th': Thread, th: Thread) {
    ListsOf(th') < ListsOf(th) || (ListsOf(th') == ListsOf(th) && Budget(th') < Budget(th))
  }

  // ---------- every critical section ----------

  /** The two loops: a join that finds its reader taken goes round again, and so does a
      poll that finds the child alive. */
  predicate Waits(s: System, th: Thread, c: Choice) {
    && c.wait
    && (|| (th.join.pc.JLook? && RunAt(s, JoinRun(th)).StreamOf(th.join.out).Taken?)
        || (AtMain(th) && th.main.RunPoll? && RunAt(s, th.run).handle && RunAt(s, th.run).alive))
  }

  /** A cancel that has found the operation of its child and has met no error: it can
      still end the child. */
  predicate Able(th: Thread, op: Token) {
    && PastFlag(th.cancel.pc) && th.cancel.op == op
    && (|| th.cancel.pc.KDrop?
        || (!th.cancel.failed && (th.join.pc.JNone? && (th.cancel.pc.KOut? || th.cancel.pc.KErr?) ==> th.join.ok)))
  }

  /** The section in which a cancel finds the pending operation. */
  predicate Flags(s: System, th: Thread, op: Token) {
    && th.join.pc.JNone? && th.clean.pc.CNone? && th.cancel.pc.KFlag? && th.cancel.op == op && op in s.reg.pending
  }

  /** A step forward; only the flag makes a cancel able to end its child. */
  predicate Onward(s: System, th: Thread, th': Thread, wait: bool) {
    && (!wait ==> Below(th', th)) && th'.lk == 0
    && (Able(th', th'.cancel.op) ==> Able(th, th'.cancel.op) || Flags(s, th, th'.cancel.op))
  }

  predicate Moved(s: System, t: nat, th: Thread, s': System, wait: bool) {
    t in s'.threads ==> Onward(s, th, s'.threads[t], wait)
  }

  lemma MovedBy(s: System, t: nat, th: Thread, wait: bool)
    ensures forall s1, th' :: Onward(s, th, th', wait) ==> Moved(s, t, th, Put(s1, t, th'), wait)
    ensures forall s1 :: Moved(s, t, th, End(s1, t), wait)
  {
    hide Onward;
  }

  /** A command goes on at a later point, or starts the routine of that point. */
  predicate Nearer(th: Thread, m: Main, more: nat) {
    Lists(m, th.host.teardown) <= ListsOf(th) && MainRank(m, th.host) + more < MainRank(th.main, th.host)
  }

  lemma GotoOnward(s: System, t: nat, th: Thread, wait: bool)
    requires AtMain(th)
    ensures forall s1, m :: Nearer(th, m, 0) ==> Moved(s, t, th, Goto(s1, t, th, m), wait)
    ensures forall s1, res :: Nearer(th, ExFinish, 0) ==> Moved(s, t, th, GoFinish(s1, t, th, res), wait)
    ensures forall s1, m :: Nearer(th, m, 20) ==> Moved(s, t, th, Put(s1, t, StartClean(th, m)), wait)
    ensures forall s1, th': Thread, out ::
      Nearer(th, th'.main, 2) && AtMain(th') && th'.cancel == th.cancel && th'.host == th.host ==>
      Moved(s, t, th, Put(s1, t, StartJoin(th', out)), wait)
    ensures wait ==> forall s1 :: Moved(s, t, th, Put(s1, t, th.(lk := 0)), wait)
  {
    hide Waits, MainRank, Lists;
  }

  lemma HostOnward(s: System, t: nat, th: Thread, wait: bool)
    requires AtMain(th)
    ensures forall s1, m, host: HostFrame ::
      (|| Lists(m, host.teardown) < ListsOf(th)
       || (Lists(m, host.teardown) == ListsOf(th) && MainRank(m, host) < MainRank(th.main, th.host))) ==>
      Moved(s, t, th, Put(s1, t, SetHost(th, m, host)), wait)
    ensures forall s1, slot, run ::
      Nearer(th, RtWait, 20) ==> Moved(s, t, th, Put(s1, t, RetryStart(th, slot, run)), wait)
    ensures forall s1, past, op, session ::
      Nearer(th, TdWait, 28) ==> Moved(s, t, th, Put(s1, t, StartCancel(past, At(th, TdWait), op, session)), wait)
  {
    hide Waits, MainRank, Lists;
  }

  lemma JoinOnward(s: System, t: nat, th: Thread, c: Choice)
    requires !th.join.pc.JNone?
    ensures Moved(s, t, th, JoinStep(s, t, th, JoinRun(th), c), Waits(s, th, c))
  {
    hide Moved, Put, SetRun, RunIn, JoinRun, MainRank, CancelRank, CleanRank, Lists;
    MovedBy(s, t, th, Waits(s, th, c));
  }

  /** Only the end of a routine has rank zero. */
  lemma RankZero(cancel: CancelPc, clean: CleanPc)
    ensures CancelRank(cancel) == 0 <==> cancel.KNone?
    ensures CleanRank(clean) == 0 <==> clean.CNone?
    ensures CancelRank(KNone) == CleanRank(CNone) == 0
  {
  }

  /** A step inside a routine. */
  lemma FrameOnward(s: System, th: Thread, th': Thread, wait: bool)
    requires th'.main == th.main && th'.host == th.host && th'.lk == 0
    requires CancelRank(th'.cancel.pc) + CleanRank(th'.clean.pc) + JoinRank(th'.join.pc)
           < CancelRank(th.cancel.pc) + CleanRank(th.clean.pc) + JoinRank(th.join.pc)
    requires Able(th', th'.cancel.op) ==> Able(th, th'.cancel.op) || Flags(s, th, th'.cancel.op)
    ensures Onward(s, th, th', wait)
  {
    hide MainRank, CancelRank, CleanRank, JoinRank, Lists, Able, Flags;
  }

  lemma CleanBy(s: System, t: nat, th: Thread, wait: bool)
    requires th.join.pc.JNone? && !th.clean.pc.CNone? && th.cancel.pc.KNone?
    ensures forall s1, pc: CleanPc :: CleanRank(pc) < CleanRank(th.clean.pc) ==>
      Moved(s, t, th, Put(s1, t, AtClean(th, pc)), wait) && Moved(s, t, th, Put(s1, t, CleanJoined(th, pc)), wait)
    ensures forall s1, pc: CleanPc, out :: CleanRank(pc) + 2 < CleanRank(th.clean.pc) ==>
      && Moved(s, t, th, Put(s1, t, StartJoin(AtClean(th, pc), out)), wait)
      && Moved(s, t, th, Put(s1, t, StartJoin(CleanJoined(th, pc), out)), wait)
    ensures forall s1, ok :: Moved(s, t, th, CleanReturn(s1, t, th, ok), wait)
  {
    RankZero(KNone, th.clean.pc);
    hide Moved, Onward, Put, MainRank, CancelRank, CleanRank, Lists;
    MovedBy(s, t, th, wait);
    forall s1, pc: CleanPc | CleanRank(pc) < CleanRank(th.clean.pc)
      ensures Moved(s, t, th, Put(s1, t, AtClean(th, pc)), wait)
      ensures Moved(s, t, th, Put(s1, t, CleanJoined(th, pc)), wait)
    {
      FrameOnward(s, th, AtClean(th, pc), wait);
      FrameOnward(s, th, CleanJoined(th, pc), wait);
    }
    forall s1, pc: CleanPc, out | CleanRank(pc) + 2 < CleanRank(th.clean.pc)
      ensures Moved(s, t, th, Put(s1, t, StartJoin(AtClean(th, pc), out)), wait)
      ensures Moved(s, t, th, Put(s1, t, StartJoin(CleanJoined(th, pc), out)), wait)
    {
      FrameOnward(s, th, StartJoin(AtClean(th, pc), out), wait);
      FrameOnward(s, th, StartJoin(CleanJoined(th, pc), out), wait);
    }
    forall s1, ok ensures Moved(s, t, th, CleanReturn(s1, t, th, ok), wait) {
      FrameOnward(s, th, th.(clean := th.clean.(pc := CNone, ok := ok), lk := 0), wait);
    }
  }

  lemma CleanOnward(s: System, t: nat, th: Thread, c: Choice)
    requires th.join.pc.JNone? && !th.clean.pc.CNone? && th.cancel.pc.KNone?
    ensures Moved(s, t, th, CleanStep(s, t, th, c), Waits(s, th, c))
  {
    hide Waits, Moved, Put, CleanReturn, AtClean, CleanJoined, StartJoin, SetRun, SetActive, SetSlots, RunIn,
      Terminate, Unregister, ReleaseSlot, RetainSlot;
    CleanBy(s, t, th, Waits(s, th, c));
  }

  /** The points of a cancel, one after the other: up to the flag, */
  lemma EarlyPoints(s: System, th: Thread, wait: bool)
    requires th.join.pc.JNone? && th.clean.pc.CNone?
    ensures th.cancel.pc.KLook? ==> Onward(s, th, AtCancel(th, KLease), wait)
    ensures th.cancel.pc.KFlag? && th.cancel.op in s.reg.pending ==> Onward(s, th, AtCancel(th, KKill), wait)
    ensures th.cancel.pc.KLease? ==> Onward(s, th, AtCancel(th, KPend), wait)
  {
    hide MainRank, CleanRank, Lists;
  }

  lemma FoundOnward(s: System, th: Thread, run: RunId, wait: bool)
    requires th.cancel.pc.KLook?
    ensures Onward(s, th, th.(cancel := th.cancel.(pc := KFlag, run := run), lk := 0), wait)
  {
    hide MainRank, CleanRank, Lists;
  }

  /** past it, */
  lemma LatePoints(s: System, th: Thread, wait: bool)
    requires th.join.pc.JNone? && th.clean.pc.CNone?
    ensures th.cancel.pc.KKill? ==> Onward(s, th, StartJoin(AtCancel(th, KOut), true), wait)
    ensures th.cancel.pc.KOut? ==> Onward(s, th, StartJoin(CancelJoined(th, KErr), false), wait)
  {
    hide MainRank, CleanRank, Lists;
  }

  lemma LastPoints(s: System, th: Thread, wait: bool)
    requires th.join.pc.JNone? && th.clean.pc.CNone?
    ensures th.cancel.pc.KErr? ==> Onward(s, th, CancelJoined(th, KTerm), wait)
    ensures th.cancel.pc.KTerm? && !th.cancel.failed ==> Onward(s, th, AtCancel(th, KDrop), wait)
  {
    hide MainRank, CleanRank, Lists;
  }

  /** and its end. */
  lemma ReturnOnward(s: System, t: nat, th: Thread, wait: bool)
    requires th.join.pc.JNone? && th.clean.pc.CNone? && !th.cancel.pc.KNone?
    ensures forall s1, ok :: Moved(s, t, th, CancelReturn(s1, t, th, ok), wait)
  {
    hide Onward, Fenced;
    forall ok ensures Onward(s, th, th.(cancel := th.cancel.(pc := KNone, ok := ok), lk := 0), wait) {
      RankZero(th.cancel.pc, CNone);
      FrameOnward(s, th, th.(cancel := th.cancel.(pc := KNone, ok := ok), lk := 0), wait);
    }
  }

  lemma CancelOnward(s: System, t: nat, th: Thread, c: Choice)
    requires th.join.pc.JNone? && th.clean.pc.CNone? && !th.cancel.pc.KNone?
    ensures Moved(s, t, th, CancelStep(s, t, th, th.cancel, c), Waits(s, th, c))
  {
    hide Waits, Moved, Onward, Put, CancelReturn, AtCancel, CancelJoined, StartJoin, SetRun, SetActive, SetPending,
      SetPrepared, RunIn, Terminate, CancelLease, FlagPending;
    EarlyPoints(s, th, Waits(s, th, c));
    LatePoints(s, th, Waits(s, th, c));
    LastPoints(s, th, Waits(s, th, c));
    if th.cancel.pc.KLook? && th.cancel.op in s.reg.active {
      FoundOnward(s, th, s.reg.active[th.cancel.op].run, Waits(s, th, c));
    }
    ReturnOnward(s, t, th, Waits(s, th, c));
    MovedBy(s, t, th, Waits(s, th, c));
  }

  lemma PrepareOnward(s: System, t: nat, th: Thread, c: Choice)
    requires AtMain(th) && PrepareMain(th.main)
    ensures Moved(s, t, th, PrepareStep(s, t, th, c), Waits(s, th, c))
  {
    hide Waits, Moved, Put, End, Goto, SetPrepared, InsertLease, PruneLeases;
    GotoOnward(s, t, th, Waits(s, th, c));
    MovedBy(s, t, th, Waits(s, th, c));
  }

  lemma ExecPoints(th: Thread)
    ensures th.main.ExLookup? ==> Nearer(th, ExExpire, 0) && Nearer(th, ExBegin, 0)
    ensures th.main.ExPre? ==> Nearer(th, ExReserve, 0)
    ensures th.main.ExReserve? ==> Nearer(th, ExSpawn, 0)
    ensures th.main.ExTake? ==> Nearer(th, ExPre, 0)
    ensures th.main.ExTake? || th.main.ExPre? || th.main.ExReserve? || th.main.ExSpawn? || th.main.ExRecover? ==>
      Nearer(th, ExFinish, 0)
    ensures th.main.ExEnter? ==> Nearer(th, ExLookup, 0)
  {
  }

  lemma ExecOnward(s: System, t: nat, th: Thread, c: Choice)
    requires AtMain(th) && ExecMain(th.main)
    ensures Moved(s, t, th, ExecStep(s, t, th, c), Waits(s, th, c))
  {
    hide Waits, Moved, Onward, Nearer, MainRank, Lists, Put, End, Enter, Goto, GoFinish, SetPrepared, SetActive,
      SetRun, BeginStep, SpawnStep, FinishStep, Reserve, RunIn, TakeCancelled, CurrentSession;
    MovedBy(s, t, th, Waits(s, th, c));
    ExecPoints(th);
    match th.main
    case ExEnter => EnterOnward(s, t, th, ExLookup, c);
    case ExBegin => BeginOnward(s, t, th, Waits(s, th, c));
    case ExSpawn => SpawnOnward(s, t, th, c);
    case ExFinish => EndOnward(s, t, th, Waits(s, th, c));
    case _ => GotoOnward(s, t, th, Waits(s, th, c));
  }

  lemma EndOnward(s: System, t: nat, th: Thread, wait: bool)
    ensures Moved(s, t, th, FinishStep(s, t, th), wait)
  {
    hide Waits, Onward, FinishPending;
  }

  lemma BeginOnward(s: System, t: nat, th: Thread, wait: bool)
    requires AtMain(th) && th.main.ExBegin?
    ensures Moved(s, t, th, BeginStep(s, t, th), wait)
  {
    hide Waits, Moved, Put, End, SetPending, BeginPending;
    MovedBy(s, t, th, wait);
  }

  lemma SpawnOnward(s: System, t: nat, th: Thread, c: Choice)
    requires AtMain(th) && th.main.ExSpawn?
    ensures Moved(s, t, th, SpawnStep(s, t, th, |s.runs|, c), Waits(s, th, c))
  {
    hide Waits, Moved, Put, SetActive, AddRun, Register, Spawned;
    MovedBy(s, t, th, Waits(s, th, c));
  }

  lemma UnscopedOnward(s: System, t: nat, th: Thread, c: Choice)
    requires AtMain(th) && UnscopedMain(th.main)
    ensures Moved(s, t, th, UnscopedStep(s, t, th, c), Waits(s, th, c))
  {
    hide Waits, Moved, Put, End, Goto, SetSlots, AddRun, ReserveSlot, Spawned;
    GotoOnward(s, t, th, Waits(s, th, c));
    MovedBy(s, t, th, Waits(s, th, c));
  }

  lemma RunPoints(th: Thread)
    requires RunMain(th.main)
    ensures th.main.RunStdin? ==> Nearer(th, RunPoll, 0)
    ensures th.main.RunPoll? ==> Nearer(th, RunPost, 0)
    ensures th.main.RunPost? ==> Nearer(th, RunFlag, 0)
    ensures th.main.RunFlag? ==> Nearer(th, RunOut, 2)
    ensures th.main.RunOut? ==> Nearer(th, RunErr, 2)
    ensures th.main.RunErr? ==> Nearer(th, RunRead, 0)
    ensures th.main.RunRead? ==> Nearer(th, RunFinal, 20)
    ensures !th.main.RunAbort? && !th.main.RunFinal? ==> Nearer(th, RunAbort, 20)
    ensures Nearer(th, ExFinish, 0)
  {
  }

  lemma RunOnward(s: System, t: nat, th: Thread, c: Choice)
    requires AtMain(th) && RunMain(th.main)
    ensures Moved(s, t, th, RunStep(s, t, th, RunAt(s, th.run), c), Waits(s, th, c))
  {
    hide Moved, Onward, Nearer, MainRank, Lists, Put, End, Goto, GoFinish, StartClean, StartJoin, SetRun, RunIn,
      Terminate, TakeCancelled;
    RunPoints(th);
    MovedBy(s, t, th, Waits(s, th, c));
    GotoOnward(s, t, th, Waits(s, th, c));
  }

  lemma RetryPoints(th: Thread)
    requires th.main.RtEach?
    ensures th.host.cands != [] ==> Nearer(th, RtWait, 20)
    ensures Nearer(th, if th.host.teardown then TdSnap else UxSlot, 0)
  {
  }

  lemma RetryTurns(s: System, t: nat, th: Thread, c: Choice)
    requires AtMain(th) && (th.main.RtCollect? || th.main.RtWait?)
    ensures Moved(s, t, th, RetryStep(s, t, th, c), Waits(s, th, c))
  {
    hide Waits, Moved, Put, SetHost, SetSlots, StartRetry;
    HostOnward(s, t, th, Waits(s, th, c));
  }

  lemma RetryOnward(s: System, t: nat, th: Thread, c: Choice)
    requires AtMain(th) && RetryMain(th.main)
    ensures Moved(s, t, th, RetryStep(s, t, th, c), Waits(s, th, c))
  {
    hide Waits, Moved, Onward, Nearer, MainRank, Lists, Put, End, Goto, RetryStart;
    if th.main.RtEach? {
      MovedBy(s, t, th, Waits(s, th, c));
      RetryPoints(th);
      GotoOnward(s, t, th, Waits(s, th, c));
      HostOnward(s, t, th, Waits(s, th, c));
    } else {
      RetryTurns(s, t, th, c);
    }
  }

  lemma TeardownOnward(s: System, t: nat, th: Thread, c: Choice)
    requires AtMain(th) && (th.main.TdEnter? || TeardownMain(th.main))
    ensures Moved(s, t, th, TeardownStep(s, t, th, c), Waits(s, th, c))
  {
    hide Waits, Moved, Onward, Put, End, Goto, Enter, SetHost, NextCancel, SetPrepared, DropPending, Unresolved,
      NextSession, TeardownPop, Nearer, MainRank, Lists;
    MovedBy(s, t, th, Waits(s, th, c));
    TeardownPoints(th);
    match th.main
    case TdEnter => EnterOnward(s, t, th, RtCollect, c);
    case TdCancel => NextOnward(s, t, th, th.host.todo, Waits(s, th, c));
    case TdPend => GotoOnward(s, t, th, Waits(s, th, c));
    case TdPrep => GotoOnward(s, t, th, Waits(s, th, c));
    case TdBump =>
    case _ => FrameTurns(s, t, th, c);
  }

  lemma TeardownPoints(th: Thread)
    ensures th.main.TdEnter? ==> Nearer(th, RtCollect, 0)
    ensures th.main.TdPend? ==> Nearer(th, TdPrep, 0)
    ensures th.main.TdPrep? ==> Nearer(th, TdBump, 0)
  {
  }

  lemma FrameTurns(s: System, t: nat, th: Thread, c: Choice)
    requires AtMain(th) && (th.main.TdSnap? || th.main.TdWait? || th.main.TdCheck?)
    ensures Moved(s, t, th, TeardownStep(s, t, th, c), Waits(s, th, c))
  {
    hide Waits, Moved, Put, SetHost;
    HostOnward(s, t, th, Waits(s, th, c));
  }

  lemma NextOnward(s: System, t: nat, th: Thread, todo: seq<(Token, nat)>, wait: bool)
    requires AtMain(th) && th.main.TdCancel? && todo == th.host.todo
    ensures Moved(s, t, th, NextCancel(s, t, th, todo), wait)
  {
    hide Waits, Moved, Put, Goto, StartCancel, At;
    GotoOnward(s, t, th, wait);
    HostOnward(s, t, th, wait);
    assert Nearer(th, TdCheck, 0);
    assert todo != [] ==> Nearer(th, TdWait, 28);
  }

  lemma EnterOnward(s: System, t: nat, th: Thread, next: Main, c: Choice)
    requires AtMain(th) && Nearer(th, next, 0)
    ensures forall ok :: Moved(s, t, th, Enter(s, t, th, ok, next), Waits(s, th, c))
  {
    hide Waits, MainRank, Lists;
  }

  lemma MainOnward(s: System, t: nat, th: Thread, c: Choice)
    requires AtMain(th)
    ensures Moved(s, t, th, MainStep(s, t, th, c), Waits(s, th, c))
  {
    hide Waits, Moved, End, PrepareStep, ExecStep, UnscopedStep, RunStep, RetryStep, TeardownStep;
    if PrepareMain(th.main) {
      PrepareOnward(s, t, th, c);
    } else if ExecMain(th.main) {
      ExecOnward(s, t, th, c);
    } else if UnscopedMain(th.main) {
      UnscopedOnward(s, t, th, c);
    } else if RunMain(th.main) {
      RunOnward(s, t, th, c);
    } else if RetryMain(th.main) {
      RetryOnward(s, t, th, c);
    } else if th.main.CancelOnly? {
      MovedBy(s, t, th, Waits(s, th, c));
    } else {
      TeardownOnward(s, t, th, c);
    }
  }

  /** Whatever the section decides, its thread is gone or comes closer to its end. */
  lemma ThreadOnward(s: System, t: nat, th: Thread, c: Choice)
    requires th.clean.pc.CNone? || th.cancel.pc.KNone?
    ensures Moved(s, t, th, ThreadStep(s, t, th, c), Waits(s, th, c))
  {
    hide Waits, Moved, JoinStep, CleanStep, CancelStep, MainStep;
    if !th.join.pc.JNone? {
      JoinOnward(s, t, th, c);
    } else if !th.clean.pc.CNone? {
      CleanOnward(s, t, th, c);
    } else if !th.cancel.pc.KNone? {
      CancelOnward(s, t, th, c);
    } else {
      MainOnward(s, t, th, c);
    }
  }
}
