/** Building concrete executions in which one command runs at a time: a first session, a
    prepared lease, and a worker whose child is running. */
module CodexTrace {
  import opened Options
  import opened CodexTypes
  import opened CodexRegistry
  import opened CodexProtocol
  import opened CodexInvariant
  import opened CodexMoves
  import opened CodexTheorems
  import opened CodexLocks

  // ---------- one command at a time ----------

  /** The registries, counters, runs and history of `s`, with a single command. */
  function Solo(s: System, t: nat, th: Thread): System {
    s.(threads := map[t := th])
  }

  function Full(th: Thread): Thread {
    th.(lk := |Want(th)|)
  }

  /** A command on its own can acquire all the locks that it wants. */
  lemma {:induction false} AcquireAll(s: System, t: nat, th: Thread, n: nat)
    requires Reached(Solo(s, t, th)) && th.lk == 0 && n <= |Want(th)|
    ensures Reached(Solo(s, t, th.(lk := n)))
  {
    hide Reached, Enabled;
    if n == 0 {
      assert th.(lk := 0) == th;
    } else {
      AcquireAll(s, t, th, n - 1);
      var th1 := th.(lk := n - 1);
      WantSame(th, n - 1);
      NextFree(s, t, th1);
      ReachedNext(Solo(s, t, th1), Acquire(t));
      assert Solo(s, t, th1).threads[t := th1.(lk := n)] == map[t := th.(lk := n)];
    }
  }

  lemma WantSame(th: Thread, n: nat)
    ensures Want(th.(lk := n)) == Want(th)
  {
  }

  lemma NextFree(s: System, t: nat, th: Thread)
    requires Reached(Solo(s, t, th)) && th.lk < |Want(th)|
    ensures Enabled(Solo(s, t, th), Acquire(t))
  {
    hide Want, Inv, HostOf, CancelOf, JoinOf, Held;
    var s1 := Solo(s, t, th);
    ReachedInv(s1);
    Facts(s1, t, th);
    LocksRise(t, th, s1.nextThread, s1.host);
    forall lock | lock in Held(th) ensures lock != Want(th)[th.lk] {
      NextAbove(th, lock);
    }
  }

  lemma WorkAlone(s: System, t: nat, th: Thread, c: Choice)
    requires Reached(Solo(s, t, th)) && th.lk == 0 && Allowed(s, th, c)
    ensures Reached(ThreadStep(Solo(s, t, Full(th)), t, Full(th), c))
  {
    AcquireAll(s, t, th, |Want(th)|);
    var s1 := Solo(s, t, Full(th));
    assert Want(Full(th)) == Want(th);
    assert Enabled(s1, Work(t, c));
    ReachedNext(s1, Work(t, c));
  }

  lemma Begin(s: System, call: Call)
    requires Reached(s) && s.threads == map[] && Accepted(call)
    ensures Reached(Solo(s, s.nextThread, NewThread(s.past, call)).(nextThread := s.nextThread + 1))
  {
    ReachedNext(s, Start(call));
    assert StartStep(s, call) ==
      Solo(s, s.nextThread, NewThread(s.past, call)).(nextThread := s.nextThread + 1);
  }

  /** Nothing has to be enumerated at this point. */
  predicate Plain(th: Thread) {
    th.lk == 0 && !th.main.RtCollect? && !th.main.TdSnap?
  }

  /** The command goes on at `th'`, in `s'`. */
  lemma Goes(s: System, t: nat, th: Thread, c: Choice, s': System, th': Thread)
    requires Reached(Solo(s, t, th)) && Plain(th)
    requires ThreadStep(Solo(s, t, Full(th)), t, Full(th), c) == Put(Solo(s', t, Full(th)), t, th')
    ensures Reached(Solo(s', t, th'))
  {
    hide Reached, ThreadStep, Full;
    GoesListing(s, t, th, c, s', th');
  }

  /** The same where the choice has to list the entries of a map. */
  lemma GoesListing(s: System, t: nat, th: Thread, c: Choice, s': System, th': Thread)
    requires Reached(Solo(s, t, th)) && th.lk == 0 && Allowed(s, th, c)
    requires ThreadStep(Solo(s, t, Full(th)), t, Full(th), c) == Put(Solo(s', t, Full(th)), t, th')
    ensures Reached(Solo(s', t, th'))
  {
    hide Reached, ThreadStep, Allowed, Full;
    WorkAlone(s, t, th, c);
    assert Put(Solo(s', t, Full(th)), t, th') == Solo(s', t, th');
  }

  function Idle(s: System, t: nat): System {
    s.(threads := map[], host := if s.host == Some(t) then None else s.host)
  }

  /** The command returns, leaving `s'`. */
  lemma Returns(s: System, t: nat, th: Thread, c: Choice, s': System)
    requires Reached(Solo(s, t, th)) && Plain(th)
    requires ThreadStep(Solo(s, t, Full(th)), t, Full(th), c) == End(Solo(s', t, Full(th)), t)
    ensures Reached(Idle(s', t))
  {
    hide Reached, ThreadStep, Full;
    WorkAlone(s, t, th, c);
    assert map[t := Full(th)] - {t} == map[];
  }

  function Pick(ok: bool): Choice {
    Choice(ok, true, false, true, Bytes, {}, [], [])
  }

  lemma StartReached()
    ensures Reached(Initial())
  {
    assert Execution([Initial()], []);
    assert Initial() in [Initial()];
  }

  // ---------- session commands ----------

  function Inside(s: System, t: nat): System {
    s.(host := Some(t))
  }

  /** A session command on its own, up to its snapshot of the active children. */
  lemma SessionEnters(s: System, t: nat, th: Thread, init: bool, session: nat)
    requires th == TeardownThread(init, session) && (init || CurrentSession(s, session))
    requires s.reg.slots == map[] && Reached(Solo(s, t, th))
    ensures Reached(Solo(Inside(s, t), t, At(th, TdSnap)))
  {
    hide Reached;
    var c, h := Pick(true), Inside(s, t);
    Goes(s, t, th, c, h, At(th, RtCollect));
    RetriesNothing(h, t, At(th, RtCollect), init, session);
    Goes(h, t, At(th, RtEach), c, h, At(th, TdSnap));
  }

  lemma RetriesNothing(s: System, t: nat, th: Thread, init: bool, session: nat)
    requires th == At(TeardownThread(init, session), RtCollect)
    requires s.reg.slots == map[] && Reached(Solo(s, t, th))
    ensures Reached(Solo(s, t, At(th, RtEach)))
  {
    hide Reached;
    assert StartRetry(map[]) == map[];
    GoesListing(s, t, th, Pick(true), s, At(th, RtEach));
  }

  lemma SnapsNothing(s: System, t: nat, th: Thread, init: bool, session: nat)
    requires th == At(TeardownThread(init, session), TdSnap) && s.reg.active == map[] && Reached(Solo(s, t, th))
    ensures Reached(Solo(s, t, At(th, TdCancel)))
  {
    hide Reached;
    GoesListing(s, t, th, Pick(true), s, At(th, TdCancel));
  }

  lemma NothingActive(s: System, t: nat, th: Thread, init: bool, session: nat)
    requires th == At(TeardownThread(init, session), TdSnap) && s.reg.active == map[] && Reached(Solo(s, t, th))
    ensures Reached(Solo(s, t, At(th, TdPend)))
  {
    hide Reached;
    var c := Pick(true);
    SnapsNothing(s, t, th, init, session);
    Goes(s, t, At(th, TdCancel), c, s, At(th, TdCheck));
    Goes(s, t, At(th, TdCheck), c, s, At(th, TdPend));
  }

  lemma SessionChanges(s: System, t: nat, th: Thread, init: bool, session: nat)
    requires th == At(TeardownThread(init, session), TdPend) && Reached(Solo(s, t, th)) && s.host == Some(t)
    requires s.reg.pending == map[] && s.reg.active == map[] && s.reg.prepared == map[] && s.threads == map[]
    ensures Reached(s.(host := None, count := s.count.(session := NextSession(s.count.session))))
  {
    hide Reached;
    NothingDropped(s);
    hide DropPending, Unresolved;
    assert DropPending(Solo(s, t, Full(th))) == Solo(s, t, Full(th)) by { NothingDropped(Solo(s, t, Full(th))); }
    Goes(s, t, th, Pick(true), s, At(th, TdPrep));
    Goes(s, t, At(th, TdPrep), Pick(true), s, At(th, TdBump));
    SessionBumps(s, t, At(th, TdBump), init, session);
  }

  lemma NothingDropped(s: System)
    requires s.reg.pending == map[]
    ensures DropPending(s) == s && !Unresolved(s.reg.pending)
  {
    assert RetainUncancelled(map[]) == map[];
    assert !Dropping(s.reg.active, map[]);
  }

  lemma SessionBumps(s: System, t: nat, th: Thread, init: bool, session: nat)
    requires th == At(TeardownThread(init, session), TdBump) && Reached(Solo(s, t, th)) && s.host == Some(t)
    requires s.threads == map[]
    ensures Reached(s.(host := None, count := s.count.(session := NextSession(s.count.session))))
  {
    hide Reached, NextSession;
    Returns(s, t, th, Pick(true), s.(count := s.count.(session := NextSession(s.count.session))));
  }

  // ---------- preparing and executing a worker ----------

  function Leased(s: System, t: nat, session: nat): System {
    s.(reg := s.reg.(prepared := s.reg.prepared[s.count.operation := Lease(session, false)]),
       count := s.count.(operation := s.count.operation + 1),
       past := s.past.(minted := s.past.minted[s.count.operation := session]))
  }

  lemma PrepareWorks(s: System, t: nat, th: Thread, session: nat)
    requires th == Blank(PrepEnter).(session := session) && CurrentSession(s, session) && Reached(Solo(s, t, th))
    requires s.host == None && s.threads == map[] && |s.reg.prepared| < PREPARED_LEASE_CAP
    ensures Reached(Leased(s, t, session))
  {
    hide Reached;
    var c, h := Pick(true), Inside(s, t);
    var drawn := h.(count := h.count.(operation := h.count.operation + 1));
    var th2 := At(th, PrepInsert).(op := s.count.operation);
    Goes(s, t, th, c, h, At(th, PrepToken));
    Goes(h, t, At(th, PrepToken), c, drawn, th2);
    LeaseInserted(drawn, t, th2, session);
    assert Idle(Inserted(drawn, s.count.operation, session), t) == Leased(s, t, session);
  }

  function Inserted(s: System, op: Token, session: nat): System {
    s.(reg := s.reg.(prepared := s.reg.prepared[op := Lease(session, false)]),
       past := s.past.(minted := s.past.minted[op := session]))
  }

  lemma LeaseInserted(s: System, t: nat, th: Thread, session: nat)
    requires th == Blank(PrepInsert).(session := session, op := th.op) && Reached(Solo(s, t, th))
    requires |s.reg.prepared| < PREPARED_LEASE_CAP
    ensures Reached(Idle(Inserted(s, th.op, session), t))
  {
    hide Reached, InsertStep;
    var full := Full(th);
    InsertInserts(Solo(s, t, full), t, full, session);
    assert Inserted(Solo(s, t, full), th.op, session) == Solo(Inserted(s, th.op, session), t, full);
    Returns(s, t, th, Pick(true), Inserted(s, th.op, session));
  }

  lemma InsertInserts(s: System, t: nat, th: Thread, session: nat)
    requires |s.reg.prepared| < PREPARED_LEASE_CAP && th.session == session
    ensures InsertStep(s, t, th, PruneLeases(s.reg.prepared, {})) == End(Inserted(s, th.op, session), t)
  {
    assert s.reg.prepared - {} == s.reg.prepared;
  }

  /** The state in which the operation is pending and its lease is used up. */
  function LeaseTaken(s: System, t: nat, op: Token, session: nat): System {
    s.(reg := s.reg.(pending := s.reg.pending[op := Pending(s.count.operation, session, false)],
                     prepared := s.reg.prepared - {op}),
       count := s.count.(operation := s.count.operation + 1), host := Some(t))
  }

  function Worker(s: System, op: Token, session: nat): Thread {
    Blank(ExEnter).(op := op, session := session)
  }

  lemma ExecuteBegins(s: System, t: nat, th: Thread, op: Token, session: nat)
    requires th == Worker(s, op, session) && CurrentSession(s, session) && Reached(Solo(s, t, th))
    requires op in s.reg.prepared && s.reg.prepared[op] == Lease(session, false) && op !in s.reg.pending
    ensures Reached(Solo(LeaseTaken(s, t, op, session), t, At(th, ExPre).(generation := s.count.operation)))
  {
    hide Reached;
    var c, h := Pick(true), Inside(s, t);
    var begun := LeaseTaken(s, t, op, session).(reg := LeaseTaken(s, t, op, session).reg.(prepared := s.reg.prepared));
    var th2 := At(th, ExTake).(generation := s.count.operation);
    Goes(s, t, th, c, h, At(th, ExLookup));
    Goes(h, t, At(th, ExLookup), c, h, At(th, ExBegin));
    Goes(h, t, At(th, ExBegin), c, begun, th2);
    Goes(begun, t, th2, c, LeaseTaken(s, t, op, session), At(th2, ExPre));
  }

  function Running(s: System, th: Thread): System {
    s.(reg := s.reg.(active := s.reg.active[th.op := ActiveChild(th.session, th.generation, |s.runs|)]),
       runs := s.runs + [Spawned(Some(th.op), 0)])
  }

  function RunThread(s: System, op: Token, session: nat, generation: nat, m: Main, r: RunId): Thread {
    StartRun(Worker(s, op, session).(generation := generation), m, r, true)
  }

  lemma ExecuteSpawns(s: System, t: nat, th: Thread, op: Token, session: nat, generation: nat)
    requires th == At(Worker(s, op, session), ExPre).(generation := generation) && Reached(Solo(s, t, th))
    requires op in s.reg.pending && s.reg.pending[op] == Pending(generation, session, false) && op !in s.reg.active
    ensures Reached(Solo(Running(s, th), t, RunThread(s, op, session, generation, RunStdin, |s.runs|)))
  {
    hide Reached;
    var c := Pick(true);
    Goes(s, t, th, c, s, At(th, ExReserve));
    Goes(s, t, At(th, ExReserve), c, s, At(th, ExSpawn));
    Goes(s, t, At(th, ExSpawn), c, Running(s, th), StartRun(th, RunStdin, |s.runs|, true));
  }

  // ---------- a worker whose child is running ----------

  /** A session has begun and nothing else has happened. */
  lemma SessionStarts() returns (s: System)
    ensures Reached(s) && s.reg == Registries(map[], map[], map[], map[]) && s.count == Counters(1, 0, 0)
    ensures s.runs == [] && s.threads == map[] && s.host == None && s.past == History(map[], {}, {}, false)
  {
    StartReached();
    var s0 := Initial();
    Begin(s0, InitSession);
    hide Reached;
    var s1 := s0.(nextThread := 1);
    SessionEnters(s1, 0, TeardownThread(true, 0), true, 0);
    NothingActive(Inside(s1, 0), 0, At(TeardownThread(true, 0), TdSnap), true, 0);
    SessionChanges(Inside(s1, 0), 0, At(TeardownThread(true, 0), TdPend), true, 0);
    s := s1.(count := Counters(1, 0, 0));
  }

  predicate Prepared(s: System) {
    && s.reg == Registries(map[], map[], map[0 := Lease(1, false)], map[]) && s.count == Counters(1, 1, 0)
    && s.runs == [] && s.threads == map[] && s.host == None && s.past == History(map[0 := 1], {}, {}, false)
  }

  lemma WorkerPrepared() returns (s: System)
    ensures Reached(s) && Prepared(s)
  {
    var s0 := SessionStarts();
    var t, th := s0.nextThread, Blank(PrepEnter).(session := 1);
    Begin(s0, Prepare(1));
    hide Reached;
    var s1 := s0.(nextThread := t + 1);
    PrepareWorks(s1, t, th, 1);
    s := Leased(s1, t, 1);
  }

  /** The only child is running under token 0 in session 1, registered and pending with
      operation generation 1, inside the host operation of thread `t`. */
  predicate ChildRuns(s: System, t: nat) {
    && s.reg == Registries(map[0 := ActiveChild(1, 1, 0)], map[0 := Pending(1, 1, false)], map[], map[])
    && s.runs == [Spawned(Some(0), 0)] && s.host == Some(t) && s.threads == map[] && s.count.session == 1
    && s.past == History(map[0 := 1], {}, {}, false)
  }

  lemma WorkerRuns() returns (s: System, t: nat)
    ensures ChildRuns(s, t) && Reached(Solo(s, t, RunThread(s, 0, 1, 1, RunStdin, 0)))
  {
    var s0 := WorkerPrepared();
    t := s0.nextThread;
    Begin(s0, Execute(0, 1));
    hide Reached;
    var s1, th := s0.(nextThread := t + 1), Worker(s0, 0, 1);
    ExecuteBegins(s1, t, th, 0, 1);
    var s2 := LeaseTaken(s1, t, 0, 1);
    ExecuteSpawns(s2, t, At(th, ExPre).(generation := 1), 0, 1, 1);
    s := Running(s2, At(th, ExPre).(generation := 1));
    assert s2.reg.prepared == map[];
  }
}
