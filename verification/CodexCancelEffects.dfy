/** The registry changes made by a cancel, and the cancel as a whole. */
module CodexCancelEffects {
  import opened Options
  import opened CodexTypes
  import opened CodexProtocol
  import opened CodexInvariant
  import opened CodexFrames
  import opened CodexMoves
  import opened CodexCleanSteps
  import opened CodexCancelSteps

  function Flag(pending: PendingMap, op: Token): PendingMap
    requires op in pending
  {
    pending[op := pending[op].(cancelled := true)]
  }

  // ---------- flagging a pending operation ----------

  lemma FlagShared(s: System, op: Token)
    requires SharedOk(s) && op in s.reg.pending
    ensures SharedOk(SetPending(s, Flag(s.reg.pending, op)))
  {
    hide RunsWf;
  }

  lemma FlagOthers(s: System, t: nat, op: Token)
    requires op in s.reg.pending
    ensures OthersRely(s.reg, s.reg.(pending := Flag(s.reg.pending, op)), s.threads, t)
  {
  }

  lemma FlagAnswered(s: System, ht: Option<Thread>, op: Token)
    requires Answered(s, ht) && op in s.reg.pending
    ensures Answered(SetPending(s, Flag(s.reg.pending, op)), ht)
  {
    hide HostBegun, HostDoomed, HostSlot, HostOwns;
    var reg := s.reg.(pending := Flag(s.reg.pending, op));
    forall q | 0 <= q < |s.runs| && !s.runs[q].Settled() ensures Owned(reg, ht, s.runs[q], q) {
      assert Owned(s.reg, ht, s.runs[q], q);
    }
  }

  lemma FlagTeardown(reg: Registries, session: nat, th: Thread, op: Token)
    requires TeardownOf(reg, session, th) && op in reg.pending
    ensures TeardownOf(reg.(pending := Flag(reg.pending, op)), session, th)
  {
    hide InTodo;
  }

  lemma FlagStage(reg: Registries, count: Counters, runs: seq<Run>, past: History, h: nat, th: Thread, op: Token)
    requires WorkerOf(reg, count, runs, past, th) && ScopedRunOf(reg, runs, th) && RunStageOf(reg, runs, h, th)
    requires op in reg.pending && !th.main.ExSpawn?
    ensures var reg' := reg.(pending := Flag(reg.pending, op));
      WorkerOf(reg', count, runs, past, th) && ScopedRunOf(reg', runs, th) && RunStageOf(reg', runs, h, th)
  {
    hide Unspawned;
  }

  lemma FlagHost(reg: Registries, count: Counters, runs: seq<Run>, past: History, h: nat, th: Thread, op: Token)
    requires HostOf(reg, count, runs, past, h, th) && op in reg.pending && !th.main.ExSpawn?
    ensures HostOf(reg.(pending := Flag(reg.pending, op)), count, runs, past, h, th)
  {
    hide WorkerOf, ScopedRunOf, UnscopedRunOf, RunStageOf, CleanOf, RetryOf, RetryWaitOf, TeardownOf;
    FlagStage(reg, count, runs, past, h, th, op);
    FlagTeardown(reg, count.session, th, op);
  }

  // ---------- withdrawing a lease ----------

  lemma LeaseShared(s: System, gone: set<Token>)
    requires SharedOk(s)
    ensures SharedOk(SetPrepared(s, s.reg.prepared - gone))
  {
  }

  lemma LeaseOthers(s: System, t: nat, gone: set<Token>)
    ensures OthersRely(s.reg, s.reg.(prepared := s.reg.prepared - gone), s.threads, t)
  {
  }

  lemma LeaseAnswered(s: System, ht: Option<Thread>, gone: set<Token>)
    requires Answered(s, ht)
    ensures Answered(SetPrepared(s, s.reg.prepared - gone), ht)
  {
    hide HostBegun, HostDoomed, HostSlot, HostOwns;
    var reg := s.reg.(prepared := s.reg.prepared - gone);
    forall q | 0 <= q < |s.runs| && !s.runs[q].Settled() ensures Owned(reg, ht, s.runs[q], q) {
      assert Owned(s.reg, ht, s.runs[q], q);
    }
  }

  lemma LeaseTeardown(reg: Registries, session: nat, th: Thread, gone: set<Token>)
    requires TeardownOf(reg, session, th)
    ensures TeardownOf(reg.(prepared := reg.prepared - gone), session, th)
  {
    hide InTodo;
  }

  lemma LeaseHost(
    reg: Registries, count: Counters, runs: seq<Run>, past: History, h: nat, th: Thread, gone: set<Token>)
    requires HostOf(reg, count, runs, past, h, th)
    ensures HostOf(reg.(prepared := reg.prepared - gone), count, runs, past, h, th)
  {
    hide Unspawned, UnscopedRunOf, CleanOf, RetryOf, RetryWaitOf, TeardownOf;
    LeaseTeardown(reg, count.session, th, gone);
  }

  // ---------- the child leaves the registry ----------

  lemma RemoveTeardown(reg: Registries, session: nat, th: Thread, op: Token)
    requires TeardownOf(reg, session, th)
    ensures TeardownOf(reg.(active := reg.active - {op}), session, th)
  {
    hide InTodo;
  }

  lemma RemoveHost(
    reg: Registries, count: Counters, runs: seq<Run>, past: History, h: nat, th: Thread, op: Token)
    requires HostOf(reg, count, runs, past, h, th) && op in reg.active
    requires reg.active[op].run < |runs| && runs[reg.active[op].run].Settled()
    requires op in reg.pending ==> reg.pending[op].cancelled
    ensures HostOf(reg.(active := reg.active - {op}), count, runs, past, h, th)
  {
    hide Unspawned, UnscopedRunOf, CleanOf, RetryOf, RetryWaitOf, TeardownOf;
    RemoveTeardown(reg, count.session, th, op);
  }

  // ---------- the steps of a cancel ----------

  lemma CancelFlagged(s: System, t: nat, th: Thread, th': Thread, fenced: bool)
    requires Ready(s, t, th) && !th.cancel.pc.KNone? && th.join.pc.JNone?
    requires SameButCancel(th, th') && th'.lk == 0 && th'.join.pc.JNone?
    requires th.cancel.op in s.reg.pending && P in Want(th)
    requires var reg := s.reg.(pending := Flag(s.reg.pending, th.cancel.op));
      && CancelOf(reg, s.runs, s.past, th'.cancel) && JoinOf(s.runs, th')
      && (fenced ==> th'.cancel.pc.KNone? && FenceReady(reg, HostThread(s.threads, s.host), th.cancel))
    ensures var s1 := SetPending(s, Flag(s.reg.pending, th.cancel.op));
      Inv(Put(if fenced then s1.(past := Fenced(s1.past, th.cancel)) else s1, t, th'))
  {
    hide Inv, SharedOk, Streams, Evolves, OthersRely, CancelOf, JoinOf, TeardownOf, HostOf, Answered,
      FenceReady, SameButCancel, Want, ShapeOf, MintedGrows, CancelRely, Mutex, Held;
    var op := th.cancel.op;
    var s1 := SetPending(s, Flag(s.reg.pending, op));
    Parts(s);
    Facts(s, t, th);
    EvolvesSelf(s.runs);
    FlagShared(s, op);
    FlagOthers(s, t, op);
    FlagAnswered(s, HostThread(s.threads, s.host), op);
    if s.host == Some(t) {
      TeardownAt(s, t, th);
      FlagTeardown(s.reg, s.count.session, th, op);
      TeardownCancel(s1.reg, s.count.session, th, th');
    } else if s.host.Some? && s.host.value in s.threads {
      FullHeld(th, P);
      PendingExcludes(s.threads, t, s.host.value);
      FlagHost(s.reg, s.count, s.runs, s.past, s.host.value, s.threads[s.host.value], op);
    }
    CancelKeeps(s, t, th, th', s1, fenced);
  }

  lemma CancelLeased(s: System, t: nat, th: Thread, th': Thread, gone: set<Token>)
    requires Ready(s, t, th) && !th.cancel.pc.KNone? && th.join.pc.JNone?
    requires SameButCancel(th, th') && th'.lk == 0 && th'.join.pc.JNone? && th'.cancel.pc.KPend?
    requires var reg := s.reg.(prepared := s.reg.prepared - gone);
      CancelOf(reg, s.runs, s.past, th'.cancel) && JoinOf(s.runs, th')
    ensures Inv(Put(SetPrepared(s, s.reg.prepared - gone), t, th'))
  {
    hide Inv, SharedOk, Streams, Evolves, OthersRely, CancelOf, JoinOf, TeardownOf, HostOf, Answered,
      FenceReady, SameButCancel, Want, ShapeOf, MintedGrows, CancelRely, FlaggedOrGone;
    var s1 := SetPrepared(s, s.reg.prepared - gone);
    Parts(s);
    Facts(s, t, th);
    EvolvesSelf(s.runs);
    LeaseShared(s, gone);
    LeaseOthers(s, t, gone);
    LeaseAnswered(s, HostThread(s.threads, s.host), gone);
    if s.host == Some(t) {
      TeardownAt(s, t, th);
      LeaseTeardown(s.reg, s.count.session, th, gone);
      TeardownCancel(s1.reg, s.count.session, th, th');
    } else if s.host.Some? && s.host.value in s.threads {
      LeaseHost(s.reg, s.count, s.runs, s.past, s.host.value, s.threads[s.host.value], gone);
    }
    CancelKeeps(s, t, th, th', s1, false);
  }

  lemma DropFacts(s: System, k: CancelFrame)
    requires CancelOf(s.reg, s.runs, s.past, k) && k.pc.KDrop? && SharedOk(s)
    ensures k.op in s.reg.active && s.reg.active[k.op].run == k.run < |s.runs| && s.runs[k.run].Settled()
    ensures k.op in s.reg.pending ==> s.reg.pending[k.op].cancelled
    ensures FenceReady(s.reg.(active := s.reg.active - {k.op}), None, k)
    ensures FlaggedOrGone(s.reg.(active := s.reg.active - {k.op}), k.op)
  {
    hide SharedOk;
    ActiveUnprepared(s, k.op);
  }

  lemma ReadyWithHost(reg: Registries, ht: Option<Thread>, k: CancelFrame)
    requires FenceReady(reg, None, k)
    ensures FenceReady(reg, ht, k)
  {
  }

  lemma CancelRemoved(s: System, t: nat, th: Thread, th': Thread)
    requires Ready(s, t, th) && th.cancel.pc.KDrop? && th.join.pc.JNone?
    requires th' == th.(cancel := th.cancel.(pc := KNone, ok := true), lk := 0)
    requires SameButCancel(th, th') && JoinOf(s.runs, th')
    ensures var s1 := SetActive(s, s.reg.active - {th.cancel.op});
      Inv(Put(s1.(past := Fenced(s1.past, th.cancel)), t, th'))
  {
    hide Inv, SharedOk, Streams, Evolves, OthersRely, CancelOf, JoinOf, TeardownOf, HostOf, Answered,
      FenceReady, SameButCancel, Want, ShapeOf, MintedGrows, CancelRely, FlaggedOrGone, Mutex, Held;
    var op := th.cancel.op;
    var s1 := SetActive(s, s.reg.active - {op});
    Parts(s);
    Facts(s, t, th);
    DropFacts(s, th.cancel);
    EvolvesSelf(s.runs);
    RemoveShared(s, op);
    CancelHolds(th);
    OthersActive(s, t, s1.reg.active);
    RemoveAnswered(s, op, th.cancel.run, HostThread(s.threads, s.host));
    ReadyWithHost(s1.reg, HostThread(s.threads, s.host), th.cancel);
    IdleCancel(s1, th'.cancel);
    if s.host == Some(t) {
      TeardownAt(s, t, th);
      RemoveTeardown(s.reg, s.count.session, th, op);
      TeardownCancel(s1.reg, s.count.session, th, th');
    } else if s.host.Some? && s.host.value in s.threads {
      RemoveHost(s.reg, s.count, s.runs, s.past, s.host.value, s.threads[s.host.value], op);
    }
    CancelKeeps(s, t, th, th', s1, true);
  }
}
