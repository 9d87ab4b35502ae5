/** The session commands keep the invariant: teardown, then the new generation. */
module CodexTeardownSteps {
  import opened Options
  import opened CodexTypes
  import opened CodexRegistry
  import opened CodexProtocol
  import opened CodexInvariant
  import opened CodexFrames
  import opened CodexMoves
  import opened CodexJoinSteps
  import opened CodexCancelSteps
  import opened CodexCancelEffects
  import opened CodexCommandSteps
  import opened CodexHostSteps

  lemma HostOfTeardown(reg: Registries, count: Counters, runs: seq<Run>, past: History, h: nat, th: Thread)
    requires TeardownMain(th.main) && th.clean.pc.CNone? && TeardownOf(reg, count.session, th)
    ensures HostOf(reg, count, runs, past, h, th)
  {
    hide TeardownOf, Unspawned, InCands, CandOf;
  }

  lemma TeardownFree(th: Thread, th': Thread)
    requires TeardownMain(th.main)
    ensures Unburdened(th) && Covers(th, th')
  {
  }

  lemma TeardownInside(m: Main)
    requires TeardownMain(m)
    ensures InHost(m) && !m.ExRecover? && !m.ExSpawn? && !m.RunOut? && !m.RunErr? && !m.RtWait?
  {
  }

  /** A teardown goes on to its next point without changing anything shared. */
  lemma TeardownMove(s: System, t: nat, th: Thread, th': Thread)
    requires Ready(s, t, th) && TeardownMain(th.main) && TeardownMain(th'.main) && !th'.main.TdWait?
    requires AtMain(th) && AtMain(th') && th'.lk == 0
    requires TeardownOf(s.reg, s.count.session, th')
    ensures Inv(Put(s, t, th'))
  {
    hide Inv, ShapeOf, HostOf, CancelOf, JoinOf, Want, TeardownOf, Covers, Fits, TeardownMain;
    Facts(s, t, th);
    HostIn(s, t, th);
    TeardownInside(th.main);
    TeardownInside(th'.main);
    FitsMain(s, t, th, th');
    PlainRoutines(s, th');
    HostOfTeardown(s.reg, s.count, s.runs, s.past, t, th');
    TeardownFree(th, th');
    MoveKeeps(s, t, th, th');
  }

  lemma TeardownHere(s: System, t: nat, th: Thread)
    requires Ready(s, t, th) && TeardownMain(th.main)
    ensures s.host == Some(t) && TeardownOf(s.reg, s.count.session, th)
    ensures SharedOk(s) && Answered(s, Some(th))
  {
    hide Inv, ShapeOf, HostOf, CancelOf, JoinOf, Want, TeardownOf, TeardownMain, SharedOk, Answered, Streams, Mutex,
      HostFacts;
    Parts(s);
    Facts(s, t, th);
    TeardownInside(th.main);
    HostIn(s, t, th);
    TeardownAt(s, t, th);
  }

  // ---------- cancelling every active child ----------

  function SnapThread(th: Thread, todo: seq<(Token, nat)>): Thread {
    SetHost(th, TdCancel, th.host.(todo := todo, errors := false))
  }

  lemma SnapTeardown(reg: Registries, count: Counters, past: History, th: Thread, todo: seq<(Token, nat)>)
    requires TeardownOf(reg, count.session, th) && th.main.TdSnap? && Uniform(reg, count, past)
    requires Snapshot(reg.active, todo)
    ensures TeardownOf(reg, count.session, SnapThread(th, todo))
  {
    forall op | op in reg.active ensures InTodo(todo, op) {
    }
  }

  lemma SnapKeeps(s: System, t: nat, th: Thread, todo: seq<(Token, nat)>)
    requires Ready(s, t, th) && th.main.TdSnap? && AtMain(th) && Snapshot(s.reg.active, todo)
    ensures Inv(Put(s, t, SnapThread(th, todo)))
  {
    hide Inv, Want, TeardownOf, Snapshot, Uniform, RunsWf, Refers, Linked, Answered;
    TeardownHere(s, t, th);
    SnapTeardown(s.reg, s.count, s.past, th, todo);
    TeardownMove(s, t, th, SnapThread(th, todo));
  }

  function CancelThread(s: System, th: Thread): Thread
    requires th.host.todo != []
  {
    StartCancel(s.past, At(th, TdWait), th.host.todo[0].0, th.host.todo[0].1)
  }

  lemma CancelFacts(s: System, th: Thread)
    requires TeardownOf(s.reg, s.count.session, th) && th.main.TdCancel? && AtMain(th) && th.host.todo != []
    ensures var th' := CancelThread(s, th);
      && TeardownOf(s.reg, s.count.session, th') && CancelOf(s.reg, s.runs, s.past, th'.cancel)
      && JoinOf(s.runs, th') && th'.join.pc.JNone? && th'.clean.pc.CNone?
  {
    hide InTodo;
  }

  lemma CancelFits(s: System, t: nat, th: Thread)
    requires ShapeOf(t, th, s.nextThread, s.host) && th.main.TdCancel? && AtMain(th) && th.host.todo != []
    ensures Fits(s, t, th, CancelThread(s, th))
  {
    assert Base(th) == [D] && Base(CancelThread(s, th)) == [D];
  }

  lemma NextCancelKeeps(s: System, t: nat, th: Thread)
    requires Ready(s, t, th) && th.main.TdCancel? && AtMain(th)
    ensures Inv(NextCancel(s, t, th, th.host.todo))
  {
    hide Inv, ShapeOf, HostOf, CancelOf, JoinOf, Want, TeardownOf, Covers, Fits, Answered, SharedOk;
    TeardownHere(s, t, th);
    if th.host.todo == [] {
      EmptyTodo(s.reg, s.count.session, th);
      TeardownMove(s, t, th, At(th, TdCheck));
    } else {
      var th' := CancelThread(s, th);
      Facts(s, t, th);
      CancelFacts(s, th);
      CancelFits(s, t, th);
      HostOfTeardown(s.reg, s.count, s.runs, s.past, t, th');
      TeardownFree(th, th');
      MoveKeeps(s, t, th, th');
    }
  }

  lemma EmptyTodo(reg: Registries, session: nat, th: Thread)
    requires TeardownOf(reg, session, th) && th.main.TdCancel? && th.host.todo == []
    ensures TeardownOf(reg, session, At(th, TdCheck))
  {
    assert forall op :: !InTodo(th.host.todo, op);
  }

  function Waited(th: Thread): Thread {
    SetHost(th, TdCancel, TeardownPop(th.host, th.cancel.ok))
  }

  lemma WaitedTeardown(reg: Registries, session: nat, th: Thread)
    requires TeardownOf(reg, session, th) && th.main.TdWait? && th.cancel.pc.KNone?
    ensures TeardownOf(reg, session, Waited(th))
  {
    var todo, rest := th.host.todo, Waited(th).host.todo;
    assert rest == todo[1..];
    forall op | op in reg.active && op in reg.pending && !reg.pending[op].cancelled ensures InTodo(rest, op) {
      assert InTodo(todo, op);
      var i :| 0 <= i < |todo| && todo[i].0 == op;
      assert i > 0;
      assert rest[i - 1].0 == op;
    }
  }

  lemma WaitKeeps(s: System, t: nat, th: Thread)
    requires Ready(s, t, th) && th.main.TdWait? && AtMain(th)
    ensures Inv(Put(s, t, Waited(th)))
  {
    hide Inv, Want, TeardownOf, Answered, SharedOk;
    TeardownHere(s, t, th);
    WaitedTeardown(s.reg, s.count.session, th);
    TeardownMove(s, t, th, Waited(th));
  }

  function Checked(s: System, th: Thread): Thread {
    SetHost(th, TdPend, th.host.(errors := th.host.errors || s.reg.active != map[]))
  }

  lemma CheckKeeps(s: System, t: nat, th: Thread)
    requires Ready(s, t, th) && th.main.TdCheck? && AtMain(th)
    ensures Inv(Put(s, t, Checked(s, th)))
  {
    hide Inv, Want, Answered, SharedOk;
    TeardownHere(s, t, th);
    TeardownMove(s, t, th, Checked(s, th));
  }

  // ---------- dropping the flagged operations ----------

  /** Whatever is still pending at this point of a teardown has been flagged: the
      error branch for an uncancelled operation cannot be taken. */
  lemma PendingResolved(s: System, th: Thread)
    requires Answered(s, Some(th)) && TeardownOf(s.reg, s.count.session, th) && th.main.TdPend?
    ensures !Unresolved(s.reg.pending) && RetainUncancelled(s.reg.pending) == map[]
  {
    hide Fence, Slots, Custody;
    forall op | op in s.reg.pending ensures s.reg.pending[op].cancelled {
      assert !HostBegun(Some(th), op);
    }
  }

  lemma DropShared(s: System)
    requires SharedOk(s) && RetainUncancelled(s.reg.pending) == map[]
    ensures SharedOk(DropPending(s))
  {
    hide RunsWf;
    assert Dropping(s.reg.active, s.reg.pending) || forall op :: op in s.reg.pending ==> op !in s.reg.active;
  }

  lemma DropOthers(s: System, t: nat)
    requires RetainUncancelled(s.reg.pending) == map[]
    ensures OthersRely(s.reg, DropPending(s).reg, s.threads, t) && MintedGrows(s.past, DropPending(s).past)
  {
  }

  lemma DropAnswered(s: System)
    requires Answered(s, None) && RetainUncancelled(s.reg.pending) == map[]
    ensures Answered(DropPending(s), None)
  {
    hide RetainUncancelled, Dropping;
    var s1 := DropPending(s);
    forall q | 0 <= q < |s.runs| && !s.runs[q].Settled() ensures Owned(s1.reg, None, s.runs[q], q) {
      assert Owned(s.reg, None, s.runs[q], q);
    }
  }

  lemma DropTeardown(s: System, th: Thread)
    requires TeardownOf(s.reg, s.count.session, th) && th.main.TdPend? && !th.host.errors
    requires RetainUncancelled(s.reg.pending) == map[]
    ensures TeardownOf(DropPending(s).reg, s.count.session, At(th, TdPrep))
  {
  }

  lemma PendStepKeeps(s: System, t: nat, th: Thread)
    requires Ready(s, t, th) && th.main.TdPend? && AtMain(th)
    ensures Inv(PendStep(s, t, th))
  {
    hide Inv, ShapeOf, HostOf, CancelOf, JoinOf, Want, TeardownOf, Covers, Fits, Answered, SharedOk, OthersRely,
      MintedGrows, HostFacts, Streams, Mutex, DropPending, Unresolved, RetainUncancelled;
    TeardownHere(s, t, th);
    PendingResolved(s, th);
    var s1 := DropPending(s);
    assert SameThreads(s, s1) && s1.runs == s.runs && s1.count == s.count by { DropFrame(s); }
    DropShared(s);
    DropOthers(s, t);
    TeardownFree(th, At(th, TdPrep));
    LeaveAnswered(s, th);
    DropAnswered(s);
    if th.host.errors {
      EndKeeps(s, t, th, s1);
    } else {
      Facts(s, t, th);
      DropTeardown(s, th);
      TeardownGoes(s, t, th, TdPrep, s1);
    }
  }

  lemma DropFrame(s: System)
    ensures SameThreads(s, DropPending(s)) && DropPending(s).runs == s.runs && DropPending(s).count == s.count
  {
  }

  /** A teardown goes on after a critical section on the registries. */
  lemma TeardownGoes(s: System, t: nat, th: Thread, next: Main, s1: System)
    requires Ready(s, t, th) && TeardownMain(th.main) && TeardownMain(next) && !next.TdWait? && AtMain(th)
    requires SameThreads(s, s1) && SharedOk(s1) && s1.runs == s.runs
    requires MintedGrows(s.past, s1.past) && OthersRely(s.reg, s1.reg, s.threads, t)
    requires TeardownOf(s1.reg, s1.count.session, At(th, next)) && Answered(s1, None)
    ensures Inv(Goto(s1, t, th, next))
  {
    hide Inv, ShapeOf, HostOf, CancelOf, JoinOf, Want, TeardownOf, Fits, Answered, SharedOk, OthersRely, MintedGrows,
      HostFacts, Streams, Mutex, TeardownMain;
    var th' := At(th, next);
    Facts(s, t, th);
    TeardownInside(th.main);
    TeardownInside(next);
    HostIn(s, t, th);
    EnterAnswered(s1, th');
    FitsMain(s, t, th, th');
    PlainRoutines(s1, th');
    HostOfTeardown(s1.reg, s1.count, s1.runs, s1.past, t, th');
    HostStep(s, t, th, th', s1);
  }

  lemma LeasesTeardown(s: System, th: Thread)
    requires TeardownOf(s.reg, s.count.session, th) && th.main.TdPrep?
    ensures TeardownOf(s.reg.(prepared := map[]), s.count.session, At(th, TdBump))
  {
  }

  lemma LeasesKeep(s: System, t: nat, th: Thread)
    requires Ready(s, t, th) && th.main.TdPrep? && AtMain(th)
    ensures Inv(Goto(SetPrepared(s, map[]), t, th, TdBump))
  {
    hide Inv, Want, TeardownOf, Covers, Answered, SharedOk, OthersRely, MintedGrows, CancelRely;
    var gone := s.reg.prepared.Keys;
    assert s.reg.prepared - gone == map[];
    TeardownHere(s, t, th);
    TeardownFree(th, th);
    LeaveAnswered(s, th);
    LeaseShared(s, gone);
    LeaseOthers(s, t, gone);
    LeaseAnswered(s, None, gone);
    LeasesTeardown(s, th);
    OthersSame(s, t);
    TeardownGoes(s, t, th, TdBump, SetPrepared(s, map[]));
  }

  // ---------- the new generation ----------

  function Bumped(s: System): System {
    s.(count := s.count.(session := NextSession(s.count.session)))
  }

  lemma BumpShared(s: System)
    requires SharedOk(s) && s.reg.active == map[] && s.reg.pending == map[] && s.reg.prepared == map[]
    ensures SharedOk(Bumped(s))
  {
    hide RunsWf, Refers, Linked;
  }

  lemma BumpAnswered(s: System)
    requires Answered(s, None)
    ensures Answered(Bumped(s), None)
  {
    hide Quiescent, Fence, Custody;
  }

  lemma BumpKeeps(s: System, t: nat, th: Thread)
    requires Ready(s, t, th) && th.main.TdBump? && AtMain(th)
    ensures Inv(End(Bumped(s), t))
  {
    hide Inv, Want, HostOf, CancelOf, JoinOf, Answered, SharedOk, OthersRely, MintedGrows, CancelRely, HostFacts,
      Streams, Mutex;
    TeardownHere(s, t, th);
    BumpShared(s);
    TeardownFree(th, th);
    LeaveAnswered(s, th);
    BumpAnswered(s);
    OthersSame(s, t);
    EndKeeps(s, t, th, Bumped(s));
  }

  lemma TeardownStepKeeps(s: System, t: nat, th: Thread, c: Choice)
    requires Ready(s, t, th) && (th.main.TdEnter? || TeardownMain(th.main)) && AtMain(th) && Allowed(s, th, c)
    ensures Inv(TeardownStep(s, t, th, c))
  {
    hide Inv, HostOf, CancelOf, JoinOf, Want, RetryCandidates, Snapshot, PendStep, NextCancel, CurrentSession;
    match th.main
    case TdEnter =>
      if c.ok && (th.host.init || CurrentSession(s, th.session)) {
        EnterRetry(s, t, th);
        EnterKeeps(s, t, th, RtCollect);
      } else {
        LeavePlain(s, t, th);
      }
    case TdSnap => SnapKeeps(s, t, th, c.todo);
    case TdCancel => NextCancelKeeps(s, t, th);
    case TdWait => WaitKeeps(s, t, th);
    case TdCheck => CheckKeeps(s, t, th);
    case TdPend => PendStepKeeps(s, t, th);
    case TdPrep => LeasesKeep(s, t, th);
    case _ => BumpKeeps(s, t, th);
  }
}
