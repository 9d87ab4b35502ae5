/** Every reachable state can be brought to an idle one without losing a child that can
    still be ended. */
module CodexSettle {
  import opened Options
  import opened CodexTypes
  import opened CodexProtocol
  import opened CodexInvariant
  import opened CodexCommandSteps
  import opened CodexMoves
  import opened CodexTheorems
  import opened CodexOnward
  import opened CodexLinks
  import opened CodexGuarantees
  import opened CodexLocks
  import opened CodexProgress
  import opened CodexRescue

  lemma {:induction false} SumWithout(threads: Threads, next: nat, t: nat, f: Thread -> nat)
    ensures Sum(threads, next, f) ==
      Sum(threads - {t}, next, f) + if t in threads && t < next then f(threads[t]) else 0
  {
    if next > 0 {
      SumWithout(threads, next - 1, t, f);
      var u := next - 1;
      assert u != t ==> (u in threads <==> u in threads - {t});
    }
  }

  lemma AllWithout(s: System, t: nat)
    requires t in s.threads && t < s.nextThread
    ensures AllLists(s) == ListsBeside(s, t) + ListsOf(s.threads[t])
    ensures AllBudgets(s) == BudgetsBeside(s, t) + Budget(s.threads[t])
  {
    SumWithout(s.threads, s.nextThread, t, th => ListsOf(th));
    SumWithout(s.threads, s.nextThread, t, th => Budget(th));
    hide ListsOf, Budget, Sum;
  }

  lemma BudgetShrinks(th: Thread, th': Thread, op: Token)
    requires Able(th, op) && th.clean.pc.CNone? && th'.main == th.main && th'.host == th.host
    requires th'.cancel.pc.KNone? && th'.join.pc.JNone? && th'.clean.pc.CNone? && th'.lk == 0
    ensures Budget(th') < Budget(th) && ListsOf(th') == ListsOf(th)
  {
    hide MainRank, Lists;
  }

  lemma EndedSooner(s: System, t: nat, op: Token, tokens: iset<Token>, s': System)
    requires Inv(s) && Inv(s') && LetGo(s, t, op, tokens, s') && Able(s.threads[t], op) && s.threads[t].clean.pc.CNone?
    ensures Sooner(s', s)
  {
    hide Inv, Leads, Reached, Kept, Able, Budget, ListsOf, ListsBeside, BudgetsBeside, ReadersSound, AllLists,
      AllBudgets;
    Belongs(s, t);
    Belongs(s', t);
    AllWithout(s, t);
    AllWithout(s', t);
    BudgetShrinks(s.threads[t], s'.threads[t], op);
  }

  // ---------- a new cancel ----------

  /** No other thread has the active or the pending registry. */
  ghost predicate QuietBeside(s: System, t: nat) {
    forall u :: u in s.threads && u != t ==> Lock.A !in Held(s.threads[u]) && P !in Held(s.threads[u])
  }

  lemma NoOtherAble(s: System, t: nat, u: nat, op: Token)
    requires QuietBeside(s, t) && u in s.threads && u != t
    ensures !Able(s.threads[u], op)
  {
    if Able(s.threads[u], op) {
      AbleHolds(s.threads[u], op);
    }
  }

  /** A step of a thread that is not about to drop anything. */
  lemma QuietStep(s: System, t: nat, e: Event, tokens: iset<Token>)
    requires Reached(s) && Enabled(s, e) && ByThread(e) && Helped(e) && e.t == t && Kept(s, tokens)
    requires QuietBeside(s, t) && t in s.threads && !AtDrop(s.threads[t])
    requires forall op :: op in tokens && op in s.reg.active ==> !Able(s.threads[t], op)
    ensures Kept(Next(s, e), tokens) && QuietBeside(Next(s, e), t) && Reached(Next(s, e))
    ensures ListsBeside(Next(s, e), t) == ListsBeside(s, t) && BudgetsBeside(Next(s, e), t) == BudgetsBeside(s, t)
    ensures Next(s, e).nextThread == s.nextThread && (ReadersSound(s.runs) ==> ReadersSound(Next(s, e).runs))
  {
    hide Inv, Reached, Enabled, Next, Helped, Readable, Able, Held, ReadersSound, DropImminent, AtDrop, ListsBeside,
      BudgetsBeside;
    ReachedInv(s);
    ReachedNext(s, e);
    EventThreads(s, e);
    OwnSame(s, Next(s, e), t);
    forall op | op in tokens && op in s.reg.active ensures SafeFrom(s, t, op) {
      if u :| u in s.threads && Able(s.threads[u], op) {
        assert u != t;
        NoOtherAble(s, t, u, op);
      }
    }
    StepKept(s, e, tokens);
    forall u | u in Next(s, e).threads && u != t
      ensures Lock.A !in Held(Next(s, e).threads[u]) && P !in Held(Next(s, e).threads[u])
    {
      OtherCame(s, e, u);
    }
    if ReadersSound(s.runs) {
      ReadersStep(s, e);
    }
  }

  /** A thread that has come no further than its look at the registries. */
  predicate Fresh(th: Thread, pc: CancelPc, op: Token, session: nat) {
    && th.main.CancelOnly? && th.cancel.pc == pc && th.cancel.op == op && th.cancel.session == session
    && !th.cancel.failed && th.clean.pc.CNone? && th.join.pc.JNone?
  }

  function Good(): Choice {
    Choice(true, true, false, false, Bytes, {}, [], [])
  }

  lemma FreshStarts(s: System, op: Token, session: nat, tokens: iset<Token>)
    requires Inv(s) && QuietBeside(s, s.nextThread) && Kept(s, tokens) && session != 0
    ensures var e := Start(Cancel(op, session));
      Enabled(s, e) && Next(s, e) == StartStep(s, Cancel(op, session))
    ensures var t, s1 := s.nextThread, StartStep(s, Cancel(op, session));
      && t in s1.threads && Fresh(s1.threads[t], KLook, op, session) && s1.threads[t].lk == 0
      && QuietBeside(s1, t) && Kept(s1, tokens)
      && ListsBeside(s1, t) == AllLists(s) && BudgetsBeside(s1, t) == AllBudgets(s)
  {
    hide Inv, Readable, Able, Held, Sum;
    var t, s1 := s.nextThread, StartStep(s, Cancel(op, session));
    assert t !in s.threads by {
      if t in s.threads {
        Belongs(s, t);
      }
    }
    assert s1.threads - {t} == s.threads;
    SumNext(s.threads, t, th => ListsOf(th));
    SumNext(s.threads, t, th => Budget(th));
    forall token | token in tokens ensures Readable(s1, token) && (token in s1.reg.active ==> Saved(s1, token)) {
      StartSaves(s, s1, t, token);
    }
  }

  lemma SumNext(threads: Threads, t: nat, f: Thread -> nat)
    requires t !in threads
    ensures Sum(threads, t + 1, f) == Sum(threads, t, f)
  {
  }

  lemma StartSaves(s: System, s1: System, t: nat, op: Token)
    requires t !in s.threads && s1.reg == s.reg && s1.runs == s.runs && s1.host == s.host
    requires forall u :: u in s.threads ==> u in s1.threads && s1.threads[u] == s.threads[u]
    requires forall u :: u in s1.threads ==> u in s.threads || u == t
    requires t in s1.threads && s1.threads[t].main.CancelOnly? && Readable(s, op)
    requires op in s.reg.active ==> Saved(s, op)
    ensures Readable(s1, op) && (op in s1.reg.active ==> Saved(s1, op))
  {
    hide Able;
    if u :| u in s.threads && Able(s.threads[u], op) {
      assert Able(s1.threads[u], op);
    }
  }

  lemma FreshAcquires(s: System, t: nat, pc: CancelPc, lock: Lock, op: Token, session: nat)
    requires t in s.threads && Fresh(s.threads[t], pc, op, session) && s.threads[t].lk == 0
    requires (pc.KLook? && lock == Lock.A) || (pc.KFlag? && lock == P)
    requires QuietBeside(s, t)
    ensures Enabled(s, Acquire(t)) && Next(s, Acquire(t)) == AcquireStep(s, t, s.threads[t])
    ensures Want(s.threads[t]) == [lock]
  {
    var th := s.threads[t];
    assert Held(th) == Base(th) + [];
  }

  lemma FreshLooks(s: System, t: nat, op: Token, session: nat)
    requires t in s.threads && Fresh(s.threads[t], KLook, op, session) && s.threads[t].lk == 1
    requires op in s.reg.active && s.reg.active[op].session == session
    ensures Enabled(s, Work(t, Good()))
    ensures var th, run := s.threads[t], s.reg.active[op].run;
      Next(s, Work(t, Good())) == Put(s, t, th.(cancel := th.cancel.(pc := KFlag, run := run), lk := 0))
  {
  }

  lemma FreshFlags(s: System, t: nat, op: Token, session: nat)
    requires t in s.threads && Fresh(s.threads[t], KFlag, op, session) && s.threads[t].lk == 1
    requires op in s.reg.active && s.reg.active[op].session == session && LinkAt(s, op) && op in s.reg.pending
    ensures Enabled(s, Work(t, Good()))
    ensures var s' := Next(s, Work(t, Good()));
      && t in s'.threads && s'.threads[t].main.CancelOnly? && Able(s'.threads[t], op)
      && s'.reg.active == s.reg.active
  {
  }

  lemma FreshPoint(th: Thread, pc: CancelPc, op: Token, session: nat)
    requires Fresh(th, pc, op, session) && (pc.KLook? || pc.KFlag?)
    ensures !AtDrop(th) && forall other :: !Able(th, other)
  {
  }

  /** A new cancel finds the operation of the child and is then able to end it. */
  lemma BecomesAble(s: System, t: nat, op: Token, session: nat, tokens: iset<Token>) returns (s': System)
    requires Reached(s) && t in s.threads && Fresh(s.threads[t], KLook, op, session) && s.threads[t].lk == 0
    requires op in s.reg.active && op in s.reg.pending && s.reg.active[op].session == session
    requires QuietBeside(s, t) && Kept(s, tokens)
    ensures Leads(s, s') && Reached(s') && Kept(s', tokens) && s'.reg.active == s.reg.active
    ensures t in s'.threads && s'.threads[t].main.CancelOnly? && Able(s'.threads[t], op)
    ensures ListsBeside(s', t) == ListsBeside(s, t) && BudgetsBeside(s', t) == BudgetsBeside(s, t)
    ensures s'.nextThread == s.nextThread && (ReadersSound(s.runs) ==> ReadersSound(s'.runs))
  {
    hide Inv, Reached, Enabled, Next, Kept, Leads, Held, Able, QuietBeside, ReadersSound, ListsBeside, BudgetsBeside,
      LinkAt, AtDrop;
    FreshAcquires(s, t, KLook, Lock.A, op, session);
    FreshPoint(s.threads[t], KLook, op, session);
    QuietStep(s, t, Acquire(t), tokens);
    var s1 := Next(s, Acquire(t));
    FreshLooks(s1, t, op, session);
    FreshPoint(s1.threads[t], KLook, op, session);
    QuietStep(s1, t, Work(t, Good()), tokens);
    var s2 := Next(s1, Work(t, Good()));
    FreshAcquires(s2, t, KFlag, P, op, session);
    FreshPoint(s2.threads[t], KFlag, op, session);
    QuietStep(s2, t, Acquire(t), tokens);
    var s3 := Next(s2, Acquire(t));
    ReachedInv(s3);
    LinkPresence(s3, op);
    FreshFlags(s3, t, op, session);
    FreshPoint(s3.threads[t], KFlag, op, session);
    QuietStep(s3, t, Work(t, Good()), tokens);
    s' := Next(s3, Work(t, Good()));
    LeadsSelf(s');
    LeadsOn(s3, Work(t, Good()), s');
    LeadsOn(s2, Acquire(t), s');
    LeadsOn(s1, Work(t, Good()), s');
    LeadsOn(s, Acquire(t), s');
  }

  /** A cancel that has ended its child returns. */
  lemma Returns(s: System, t: nat, tokens: iset<Token>)
    requires Reached(s) && t in s.threads && AtMain(s.threads[t]) && s.threads[t].main.CancelOnly?
    requires s.threads[t].lk == 0 && Kept(s, tokens)
    ensures Enabled(s, Work(t, Good())) && Next(s, Work(t, Good())) == End(s, t)
    ensures Kept(End(s, t), tokens) && Reached(End(s, t)) && (ReadersSound(s.runs) ==> ReadersSound(End(s, t).runs))
    ensures AllLists(End(s, t)) == ListsBeside(s, t) && AllBudgets(End(s, t)) == BudgetsBeside(s, t)
  {
    assert Want(s.threads[t]) == [];
    hide Reached, Readable, Able, ReadersSound, Sum;
    ReachedNext(s, Work(t, Good()));
    hide Enabled, Next;
    forall op | op in tokens && op in s.reg.active ensures SafeFrom(s, t, op) {
    }
    StepKept(s, Work(t, Good()), tokens);
  }

  predicate NoLater(s': System, s: System) {
    AllLists(s') < AllLists(s) || (AllLists(s') == AllLists(s) && AllBudgets(s') <= AllBudgets(s))
  }

  /** A child with its operation is ended by a new cancel, from its call to its return. */
  lemma CancelNew(s: System, op: Token, tokens: iset<Token>) returns (s': System)
    requires Reached(s) && op in tokens && op in s.reg.active && op in s.reg.pending
    requires QuietBeside(s, s.nextThread) && Kept(s, tokens)
    ensures Leads(s, s') && Reached(s') && Kept(s', tokens) && s'.reg.active == s.reg.active - {op}
    ensures NoLater(s', s) && (ReadersSound(s.runs) ==> ReadersSound(s'.runs))
  {
    hide Inv, Reached, Enabled, Next, Leads, Kept, QuietBeside, ReadersSound, Able, ListsBeside, BudgetsBeside,
      AllLists, AllBudgets, StartStep, Readable;
    var t, session := s.nextThread, s.reg.active[op].session;
    ReachedInv(s);
    SessionsUniform(s, op);
    MintedSession(s, op);
    FreshStarts(s, op, session, tokens);
    var e := Start(Cancel(op, session));
    ReachedNext(s, e);
    StartSame(s, Cancel(op, session));
    var s1 := Next(s, e);
    var s2 := BecomesAble(s1, t, op, session, tokens);
    KeptReadable(s2, op, tokens);
    var s3 := FinishAble(s2, t, op, tokens);
    LetGoIs(s2, t, op, tokens, s3);
    Returns(s3, t, tokens);
    s' := End(s3, t);
    LeadsSelf(s');
    LeadsOn(s3, Work(t, Good()), s');
    LeadsFar(s2, s3, s');
    LeadsFar(s1, s2, s');
    LeadsOn(s, e, s');
    EndSame(s3, t);
  }

  lemma MintedSession(s: System, op: Token)
    requires Inv(s) && op in s.reg.active
    ensures s.reg.active[op].session != 0
  {
    hide Inv, RunsWf, Refers, Linked, Answered, Streams, Mutex, HostFacts;
    Parts(s);
  }

  lemma StartSame(s: System, call: Call)
    ensures StartStep(s, call).reg == s.reg && StartStep(s, call).runs == s.runs
  {
  }

  lemma EndSame(s: System, t: nat)
    ensures End(s, t).reg == s.reg && End(s, t).runs == s.runs
  {
  }

  lemma KeptReadable(s: System, op: Token, tokens: iset<Token>)
    requires Kept(s, tokens) && op in tokens
    ensures Readable(s, op)
  {
  }

  lemma LetGoIs(s: System, t: nat, op: Token, tokens: iset<Token>, s': System)
    requires LetGo(s, t, op, tokens, s')
    ensures Leads(s, s') && Reached(s') && Kept(s', tokens) && s'.reg.active == s.reg.active - {op}
    ensures t in s.threads && t in s'.threads && s'.threads[t].main == s.threads[t].main
    ensures AtMain(s'.threads[t]) && s'.threads[t].lk == 0 && (ReadersSound(s.runs) ==> ReadersSound(s'.runs))
    ensures || ListsBeside(s', t) < ListsBeside(s, t)
            || (ListsBeside(s', t) == ListsBeside(s, t) && BudgetsBeside(s', t) <= BudgetsBeside(s, t))
  {
    hide Leads, Reached, Kept, ReadersSound, ListsBeside, BudgetsBeside;
  }

  // ---------- the schedule ----------

  ghost predicate Settled(s: System, tokens: iset<Token>, s': System) {
    && Leads(s, s') && Reached(s') && s'.threads == map[] && Kept(s', tokens)
    && (ReadersSound(s.runs) ==> ReadersSound(s'.runs))
  }

  ghost predicate NoneAble(s: System, tokens: iset<Token>) {
    forall t, op :: t in s.threads && op in tokens ==> !Able(s.threads[t], op)
  }

  /** A drop takes its lock only when no child is left that it would lose. */
  ghost predicate MayMove(s: System, th: Thread, tokens: iset<Token>) {
    AtDrop(th) ==> th.lk == 1 || forall op :: op in tokens ==> op !in s.reg.active
  }

  /** Without an able cancel every child depends on its pending operation, so only the
      drop of a teardown endangers it. */
  lemma SafeMove(s: System, e: Event, tokens: iset<Token>)
    requires Inv(s) && Enabled(s, e) && Moves(e) && Kept(s, tokens) && NoneAble(s, tokens)
    requires e.t in s.threads && MayMove(s, s.threads[e.t], tokens)
    ensures forall op :: op in tokens && op in s.reg.active ==> SafeFrom(s, e.t, op)
  {
    hide Inv, Enabled, Able, Readable;
    if AtDrop(s.threads[e.t]) {
      OnlyHost(s, e.t);
    }
  }

  /** What goes on around a teardown that is about to take its lock for the drop. */
  lemma AroundDrop(s: System, h: nat)
    requires Inv(s) && h in s.threads && AtDrop(s.threads[h]) && s.threads[h].lk == 0
    requires forall x :: x in s.threads ==> !s.threads[x].main.CancelOnly?
    ensures QuietBeside(s, s.nextThread)
  {
    hide Inv, Want, HostOf, CancelOf, JoinOf;
    OnlyHost(s, h);
    forall u | u in s.threads ensures Lock.A !in Held(s.threads[u]) && P !in Held(s.threads[u]) {
      Facts(s, u, s.threads[u]);
      WaitingHolds(u, s.threads[u], s.nextThread, s.host, h);
    }
  }

  lemma WaitingHolds(u: nat, th: Thread, next: nat, host: Option<nat>, h: nat)
    requires ShapeOf(u, th, next, host) && host == Some(h) && !th.main.CancelOnly?
    requires u == h ==> AtDrop(th) && th.lk == 0
    ensures Lock.A !in Held(th) && P !in Held(th)
  {
    assert u == h ==> Held(th) == [D] + [];
    if u != h {
      assert IsEnter(th.main) && AtMain(th) && Base(th) == [] && Want(th) == [D];
      assert forall lock :: lock in Held(th) ==> lock == D;
    }
  }

  /** Another cancel can move while such a teardown is held back. */
  lemma MoveCancel(s: System, h: nat, x: nat) returns (e: Event)
    requires Inv(s) && h in s.threads && AtDrop(s.threads[h]) && s.threads[h].lk == 0
    requires x in s.threads && s.threads[x].main.CancelOnly?
    ensures Moves(e) && Helped(e) && Enabled(s, e) && e.t in s.threads && !AtDrop(s.threads[e.t])
  {
    hide Inv, Want, Held, LockRank, Enabled, AtDrop, HostOf, CancelOf, JoinOf;
    Facts(s, x, s.threads[x]);
    CancelWants(x, s.threads[x], s.nextThread, s.host);
    e := Unblock(s, x, 1);
    EventThread(s, e);
    DropHolds(s.threads[h]);
    DropIsHost(s, h);
    if AtDrop(s.threads[e.t]) {
      DropIsHost(s, e.t);
    }
  }

  lemma DropIsHost(s: System, t: nat)
    requires Inv(s) && t in s.threads && AtDrop(s.threads[t])
    ensures s.host == Some(t) && !s.threads[t].main.CancelOnly?
  {
    hide Inv;
    OnlyHost(s, t);
  }

  lemma DropHolds(th: Thread)
    requires AtDrop(th) && th.lk == 0
    ensures forall lock :: lock in Held(th) ==> LockRank(lock) < 1
  {
    assert Held(th) == [D] + [];
  }

  lemma CancelWants(x: nat, th: Thread, next: nat, host: Option<nat>)
    requires ShapeOf(x, th, next, host) && th.main.CancelOnly?
    ensures th.lk < |Want(th)| ==> 1 <= LockRank(Want(th)[th.lk])
  {
  }

  lemma MovesSooner(s: System, e: Event)
    requires Inv(s) && Enabled(s, e) && Moves(e)
    ensures Sooner(Next(s, e), s)
  {
    hide Inv, Enabled, Next, Sooner, Below;
    EventThreads(s, e);
    EventBelow(s, e);
    ThreadLess(s, Next(s, e), e.t);
  }

  /** A plain step of the schedule. */
  lemma SettleStep(s: System, e: Event, tokens: iset<Token>)
    requires Reached(s) && Enabled(s, e) && Moves(e) && Helped(e) && Kept(s, tokens) && NoneAble(s, tokens)
    requires e.t in s.threads && MayMove(s, s.threads[e.t], tokens)
    ensures Reached(Next(s, e)) && Kept(Next(s, e), tokens) && Sooner(Next(s, e), s)
    ensures Leads(s, Next(s, e)) && (ReadersSound(s.runs) ==> ReadersSound(Next(s, e).runs))
  {
    hide Inv, Reached, Enabled, Next, Kept, NoneAble, Helped, MayMove, Sooner, Leads, ReadersSound;
    ReachedInv(s);
    ReachedNext(s, e);
    SafeMove(s, e, tokens);
    StepKept(s, e, tokens);
    MovesSooner(s, e);
    LeadsSelf(Next(s, e));
    LeadsOn(s, e, Next(s, e));
    if ReadersSound(s.runs) {
      ReadersStep(s, e);
    }
  }

  /** An able cancel goes first. */
  lemma SettleAble(s: System, t: nat, op: Token, tokens: iset<Token>) returns (s': System)
    requires Reached(s) && Kept(s, tokens) && t in s.threads && op in tokens && Able(s.threads[t], op)
    ensures Leads(s, s') && Reached(s') && Kept(s', tokens) && Sooner(s', s)
    ensures ReadersSound(s.runs) ==> ReadersSound(s'.runs)
  {
    hide Inv, Reached, Kept, Able, LetGo, Leads, Sooner, ReadersSound, Readable;
    ReachedInv(s);
    KeptReadable(s, op, tokens);
    RunOfAble(s, t, op);
    s' := FinishAble(s, t, op, tokens);
    LetGoIs(s, t, op, tokens, s');
    ReachedInv(s');
    EndedSooner(s, t, op, tokens, s');
  }

  /** A child that a waiting drop would lose is ended first. */
  lemma SettleChild(s: System, h: nat, op: Token, tokens: iset<Token>) returns (s': System)
    requires Reached(s) && Kept(s, tokens) && NoneAble(s, tokens) && op in tokens && op in s.reg.active
    requires h in s.threads && AtDrop(s.threads[h]) && s.threads[h].lk == 0
    requires forall x :: x in s.threads ==> !s.threads[x].main.CancelOnly?
    ensures Leads(s, s') && Reached(s') && Kept(s', tokens) && NoLater(s', s) && |s'.reg.active| < |s.reg.active|
    ensures ReadersSound(s.runs) ==> ReadersSound(s'.runs)
  {
    hide Inv, Reached, Able, AtDrop, Leads, NoLater, ReadersSound, Readable, QuietBeside;
    ReachedInv(s);
    AroundDrop(s, h);
    assert op in s.reg.pending;
    hide Kept, NoneAble;
    s' := CancelNew(s, op, tokens);
    OneLess(s.reg.active, op);
  }

  lemma OneLess(active: ActiveMap, op: Token)
    requires op in active
    ensures |active - {op}| < |active|
  {
    assert (active - {op}).Keys == active.Keys - {op};
    assert |(active - {op}).Keys| == |active - {op}| && |active.Keys| == |active|;
  }

  lemma NoneAbleIs(s: System, tokens: iset<Token>)
    requires forall t, op :: t in s.threads && op in tokens ==> !Able(s.threads[t], op)
    ensures NoneAble(s, tokens)
  {
  }

  lemma OffDrop(s: System, t: nat, tokens: iset<Token>)
    requires t in s.threads && !AtDrop(s.threads[t])
    ensures MayMove(s, s.threads[t], tokens)
  {
  }

  lemma FreeMove(s: System, t: nat, tokens: iset<Token>)
    requires Inv(s) && t in s.threads
    requires forall op :: op in tokens && op in s.reg.active ==> !(AtDrop(s.threads[t]) && s.threads[t].lk == 0)
    ensures MayMove(s, s.threads[t], tokens)
  {
    hide Inv, HostOf, CancelOf, JoinOf;
    Facts(s, t, s.threads[t]);
  }

  lemma SettledNow(s: System, tokens: iset<Token>)
    requires Reached(s) && Kept(s, tokens) && s.threads == map[]
    ensures Settled(s, tokens, s)
  {
    hide Reached, Kept, Leads, ReadersSound;
    LeadsSelf(s);
  }

  lemma SettledOn(s: System, s1: System, tokens: iset<Token>, s': System)
    requires Leads(s, s1) && Settled(s1, tokens, s') && (ReadersSound(s.runs) ==> ReadersSound(s1.runs))
    ensures Settled(s, tokens, s')
  {
    hide Reached, Kept, Leads, ReadersSound;
    LeadsFar(s, s1, s');
  }

  /** Every reachable state leads to an idle one in which no child of `tokens` is lost that
      was not lost before: able cancels are finished first, and a drop waits until each of
      the children has been ended by a cancel of its own. */
  lemma {:induction false} Settle(s: System, tokens: iset<Token>) returns (s': System)
    requires Reached(s) && Kept(s, tokens)
    ensures Settled(s, tokens, s')
    decreases AllLists(s), AllBudgets(s), |s.reg.active|
  {
    hide Inv, Reached, Kept, Able, AtDrop, Leads, Settled, ReadersSound, Enabled, Next, AllLists, AllBudgets, Helped,
      NoneAble;
    ReachedInv(s);
    var s1: System;
    if s.threads == map[] {
      SettledNow(s, tokens);
      return s;
    } else if t, op :| t in s.threads && op in tokens && Able(s.threads[t], op) {
      s1 := SettleAble(s, t, op, tokens);
    } else {
      NoneAbleIs(s, tokens);
      if h, op :| h in s.threads && AtDrop(s.threads[h]) && s.threads[h].lk == 0 && op in tokens && op in s.reg.active {
        if x :| x in s.threads && s.threads[x].main.CancelOnly? {
          var e := MoveCancel(s, h, x);
          OffDrop(s, e.t, tokens);
          SettleStep(s, e, tokens);
          s1 := Next(s, e);
        } else {
          s1 := SettleChild(s, h, op, tokens);
        }
      } else {
        var e := CanMove(s);
        EventThread(s, e);
        FreeMove(s, e.t, tokens);
        SettleStep(s, e, tokens);
        s1 := Next(s, e);
      }
    }
    s' := Settle(s1, tokens);
    SettledOn(s, s1, tokens, s');
  }
}
