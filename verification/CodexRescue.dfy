/** Which registered children can still be ended: by a cancel that has already found their
    operation, or by a new one. */
module CodexRescue {
  import opened Options
  import opened CodexTypes
  import opened CodexProtocol
  import opened CodexInvariant
  import opened CodexCommandSteps
  import opened CodexMoves
  import opened CodexEffects
  import opened CodexTheorems
  import opened CodexOnward
  import opened CodexLinks
  import opened CodexLocks
  import opened CodexProgress

  // ---------- what is needed to end a child ----------

  /** Neither reader of the run has ended in an error. */
  predicate RunSound(run: Run) {
    !(run.stdout.Done? && run.stdout.failed) && !(run.stderr.Done? && run.stderr.failed)
  }

  ghost predicate Readable(s: System, op: Token) {
    forall r :: 0 <= r < |s.runs| && s.runs[r].token == Some(op) ==> RunSound(s.runs[r])
  }

  /** The section of a teardown that drops the pending operations comes next. */
  predicate AtDrop(th: Thread) {
    AtMain(th) && th.main.TdPend?
  }

  /** It has its lock already: nobody can look at a pending operation before it runs. */
  predicate DropImminent(s: System) {
    s.host.Some? && s.host.value in s.threads && AtDrop(s.threads[s.host.value]) && s.threads[s.host.value].lk == 1
  }

  ghost predicate HasAble(s: System, op: Token) {
    exists t :: t in s.threads && Able(s.threads[t], op)
  }

  /** A cancel can still end the child: one that has found the operation and met no error,
      or one that is yet to find it. */
  ghost predicate Saved(s: System, op: Token) {
    HasAble(s, op) || (op in s.reg.pending && !DropImminent(s))
  }

  /** All children of these tokens can still be ended. */
  ghost predicate Kept(s: System, tokens: iset<Token>) {
    forall op :: op in tokens ==> Readable(s, op) && (op in s.reg.active ==> Saved(s, op))
  }

  // ---------- readers ----------

  lemma HelpedJoin(s: System, t: nat, th: Thread, c: Choice)
    requires c.outcome.Bytes?
    ensures var runs' := JoinStep(s, t, th, JoinRun(th), c).runs;
      |runs'| == |s.runs| && forall r :: 0 <= r < |s.runs| && RunSound(s.runs[r]) ==> RunSound(runs'[r])
  {
    hide JoinRun;
  }

  /** Where the environment helps, no reader ends in an error. */
  lemma HelpedRuns(s: System, e: Event)
    requires Inv(s) && Enabled(s, e) && Helped(e)
    ensures |s.runs| <= |Next(s, e).runs|
    ensures forall r :: 0 <= r < |Next(s, e).runs| && (r < |s.runs| ==> RunSound(s.runs[r])) ==>
      RunSound(Next(s, e).runs[r])
    ensures forall r :: 0 <= r < |s.runs| ==> Next(s, e).runs[r].token == s.runs[r].token
  {
    hide Inv, ThreadStep, Allowed, Want, HostOf, CancelOf, JoinOf, RunSound;
    match e
    case Work(t, c) =>
      ThreadGrows(s, t, s.threads[t], c);
      WorkReaders(s, t, s.threads[t], c);
    case Exit(r) => ExitReaders(s, r);
    case _ =>
  }

  lemma ExitReaders(s: System, r: RunId)
    requires r < |s.runs|
    ensures forall q :: 0 <= q < |s.runs| && RunSound(s.runs[q]) ==> RunSound(ExitStep(s, r).runs[q])
  {
  }

  lemma WorkReaders(s: System, t: nat, th: Thread, c: Choice)
    requires Ready(s, t, th) && c.outcome.Bytes?
    ensures var runs' := ThreadStep(s, t, th, c).runs;
      forall r :: 0 <= r < |runs'| && (r < |s.runs| ==> RunSound(s.runs[r])) ==> RunSound(runs'[r])
  {
    hide Inv, JoinStep, CleanStep, CancelStep, MainStep, Want, HostOf, CancelOf, JoinOf;
    ThreadGrows(s, t, th, c);
    if !th.join.pc.JNone? {
      HelpedJoin(s, t, th, c);
    }
  }

  // ---------- steps that endanger no child ----------

  predicate ByThread(e: Event) {
    e.Acquire? || e.Work?
  }

  /** The child can be ended whatever thread `t` does next. */
  ghost predicate SafeFrom(s: System, t: nat, op: Token)
    requires t in s.threads
  {
    || (exists u :: u in s.threads && u != t && Able(s.threads[u], op))
    || (op in s.reg.pending && !DropImminent(s) && !AtDrop(s.threads[t]))
  }

  lemma OtherStays(s: System, e: Event, u: nat)
    requires Inv(s) && Enabled(s, e) && ByThread(e) && u in s.threads && u != e.t
    ensures u in Next(s, e).threads && Next(s, e).threads[u] == s.threads[u]
  {
    hide Inv, ThreadStep, Allowed, Want, Effect;
    match e
    case Work(t, c) =>
      var s' := ThreadStep(s, t, s.threads[t], c);
      ThreadEffect(s, t, s.threads[t], c);
      EffectThreads(s, t, s.threads[t], s');
      assert u in s.threads - {t} && (s.threads - {t})[u] == s.threads[u];
      assert u in s'.threads && (s'.threads - {t})[u] == s'.threads[u];
    case _ =>
  }

  lemma OtherCame(s: System, e: Event, u: nat)
    requires Inv(s) && Enabled(s, e) && ByThread(e) && u in Next(s, e).threads
    ensures u in s.threads && (u != e.t ==> Next(s, e).threads[u] == s.threads[u])
  {
    hide Inv, ThreadStep, Allowed, Want, Effect;
    match e
    case Work(t, c) =>
      var s' := ThreadStep(s, t, s.threads[t], c);
      ThreadEffect(s, t, s.threads[t], c);
      EffectThreads(s, t, s.threads[t], s');
      if u != t {
        assert u in s'.threads - {t} && (s'.threads - {t})[u] == s'.threads[u];
        assert u in s.threads && (s.threads - {t})[u] == s.threads[u];
      }
    case _ =>
  }

  /** A thread after its own critical section. */
  lemma OwnMoved(s: System, t: nat, c: Choice)
    requires Inv(s) && Enabled(s, Work(t, c))
    ensures Moved(s, t, s.threads[t], Next(s, Work(t, c)), Waits(s, s.threads[t], c))
  {
    hide Inv, ThreadStep, Allowed, Want, Moved, HostOf, CancelOf, JoinOf;
    Facts(s, t, s.threads[t]);
    ThreadOnward(s, t, s.threads[t], c);
  }

  lemma OnlyHost(s: System, t: nat)
    requires Inv(s) && t in s.threads && InHost(s.threads[t].main)
    ensures s.host == Some(t)
  {
    hide Inv, Want, HostOf, CancelOf, JoinOf;
    Facts(s, t, s.threads[t]);
  }

  lemma NotImminent(s: System, e: Event)
    requires Inv(s) && Enabled(s, e) && ByThread(e) && !DropImminent(s) && !AtDrop(s.threads[e.t])
    ensures !DropImminent(Next(s, e))
  {
    hide Inv, Enabled, Next, Below, Able, Flags;
    var s' := Next(s, e);
    if DropImminent(s') {
      var y := s'.host.value;
      OtherCame(s, e, y);
      if y != e.t {
        OnlyHost(s, y);
      } else {
        OwnPoint(s, e);
      }
    }
  }

  /** After its own step a thread is at the same point with one more lock, or holds no
      lock of its new point. */
  lemma OwnPoint(s: System, e: Event)
    requires Inv(s) && Enabled(s, e) && ByThread(e) && e.t in Next(s, e).threads
    ensures var th, th' := s.threads[e.t], Next(s, e).threads[e.t];
      th'.lk == 0 || th' == th.(lk := th.lk + 1)
  {
    hide Inv, ThreadStep, Allowed, Want, Below, Able, Flags;
    match e
    case Work(t, c) => OwnMoved(s, t, c);
    case _ =>
  }

  lemma ReadableStep(s: System, e: Event, op: Token)
    requires Inv(s) && Enabled(s, e) && Helped(e) && Readable(s, op)
    ensures Readable(Next(s, e), op)
  {
    hide Inv, Enabled, Next, Helped, RunSound;
    HelpedRuns(s, e);
  }

  lemma SavedStep(s: System, e: Event, op: Token)
    requires Reached(s) && Enabled(s, e) && ByThread(e) && op in Next(s, e).reg.active
    requires op in s.reg.active ==> SafeFrom(s, e.t, op)
    ensures Saved(Next(s, e), op)
  {
    hide Inv, Enabled, Next, Reached, Able, DropImminent, AtDrop, LinkAt;
    ReachedInv(s);
    if u :| op in s.reg.active && u in s.threads && u != e.t && Able(s.threads[u], op) {
      OtherStays(s, e, u);
    } else if op in s.reg.active {
      StillLinked(s, e, op);
      NotImminent(s, e);
    } else {
      NewlyLinked(s, e, op);
      NotImminent(s, e);
    }
  }

  lemma StillLinked(s: System, e: Event, op: Token)
    requires Reached(s) && Enabled(s, e) && ByThread(e) && !AtDrop(s.threads[e.t])
    requires op in s.reg.active && op in s.reg.pending && op in Next(s, e).reg.active
    ensures op in Next(s, e).reg.pending
  {
    hide Inv, Enabled, Next, Reached;
    ReachedInv(s);
    ReachedNext(s, e);
    ReachedInv(Next(s, e));
    LinkPresence(s, op);
    LinkPresence(Next(s, e), op);
    LinkChangesExactly(s, e, op);
  }

  lemma NewlyLinked(s: System, e: Event, op: Token)
    requires Inv(s) && Enabled(s, e) && ByThread(e) && op !in s.reg.active && op in Next(s, e).reg.active
    ensures op in Next(s, e).reg.pending && !DropImminent(s) && !AtDrop(s.threads[e.t])
  {
    hide Inv, Enabled, Next;
    EventEntries(s, e, op);
    OnlyHost(s, e.t);
  }

  /** A step that endangers no child keeps all of them. */
  lemma StepKept(s: System, e: Event, tokens: iset<Token>)
    requires Reached(s) && Enabled(s, e) && ByThread(e) && Helped(e) && Kept(s, tokens)
    requires forall op :: op in tokens && op in s.reg.active ==> SafeFrom(s, e.t, op)
    ensures Kept(Next(s, e), tokens)
  {
    hide Inv, Enabled, Next, Reached, Helped, Readable, Saved, SafeFrom;
    ReachedInv(s);
    forall op | op in tokens
      ensures Readable(Next(s, e), op) && (op in Next(s, e).reg.active ==> Saved(Next(s, e), op))
    {
      ReadableStep(s, e, op);
      if op in Next(s, e).reg.active {
        SavedStep(s, e, op);
      }
    }
  }

  // ---------- a cancel that is able goes on ----------

  /** The reader that the thread waits for is with another thread. */
  predicate Blocked(s: System, th: Thread) {
    th.join.pc.JLook? && RunAt(s, JoinRun(th)).StreamOf(th.join.out).Taken?
  }

  /** The thread is still in the same cancel. */
  predicate GoesOn(s: System, t: nat, th: Thread, s': System, op: Token) {
    && t in s'.threads && s'.threads[t].main == th.main && s'.threads[t].host == th.host
    && s'.reg.active == s.reg.active && Able(s'.threads[t], op)
  }

  predicate Done(s: System, t: nat, th: Thread, s': System, op: Token) {
    && t in s'.threads && s'.threads[t].main == th.main && s'.threads[t].host == th.host
    && s'.reg.active == s.reg.active - {op} && s'.threads[t].cancel.pc.KNone? && s'.threads[t].join.pc.JNone?
    && s'.threads[t].clean == th.clean && s'.threads[t].lk == 0
  }

  lemma JoinAble(s: System, t: nat, th: Thread, op: Token, c: Choice)
    requires Able(th, op) && !th.join.pc.JNone? && c.outcome.Bytes?
    requires RunSound(RunAt(s, JoinRun(th))) && (Blocked(s, th) ==> c.wait)
    ensures GoesOn(s, t, th, JoinStep(s, t, th, JoinRun(th), c), op)
  {
    PutGoesOn(s, t, th, op);
    JoinPoints(th, op);
    hide GoesOn, OnwardAble, Able, Put, SetRun, RunIn, JoinRun;
  }

  lemma PutGoesOn(s: System, t: nat, th: Thread, op: Token)
    ensures forall s1: System, th': Thread :: s1.reg == s.reg && OnwardAble(th, th', op) ==>
      GoesOn(s, t, th, Put(s1, t, th'), op)
    ensures forall r, run :: SetRun(s, r, run).reg == s.reg
  {
    hide Able;
  }

  lemma JoinPoints(th: Thread, op: Token)
    requires Able(th, op) && !th.join.pc.JNone?
    ensures OnwardAble(th, th.(lk := 0), op)
    ensures OnwardAble(th, th.(join := th.join.(pc := JPut), lk := 0), op)
    ensures OnwardAble(th, th.(join := th.join.(pc := JNone, ok := true), lk := 0), op)
  {
  }

  lemma CancelAble(s: System, t: nat, th: Thread, op: Token, c: Choice)
    requires Able(th, op) && th.join.pc.JNone? && th.clean.pc.CNone? && c.ok
    ensures var s' := CancelStep(s, t, th, th.cancel, c);
      if th.cancel.pc.KDrop? then Done(s, t, th, s', op) else GoesOn(s, t, th, s', op)
  {
    hide GoesOn, Done, Put, SetRun, SetActive, RunIn, Terminate, CancelReturn, AtCancel, CancelJoined, StartJoin;
    PutGoesOn(s, t, th, op);
    AbleBy(s, t, th, op);
  }

  lemma AbleBy(s: System, t: nat, th: Thread, op: Token)
    requires Able(th, op) && th.join.pc.JNone?
    ensures th.cancel.pc.KKill? ==> OnwardAble(th, StartJoin(AtCancel(th, KOut), true), op)
    ensures th.cancel.pc.KOut? ==> OnwardAble(th, StartJoin(CancelJoined(th, KErr), false), op)
    ensures th.cancel.pc.KErr? ==> OnwardAble(th, CancelJoined(th, KTerm), op)
    ensures th.cancel.pc.KTerm? ==> OnwardAble(th, AtCancel(th, KDrop), op)
    ensures th.cancel.pc.KDrop? ==> Done(s, t, th, CancelReturn(SetActive(s, s.reg.active - {op}), t, th, true), op)
  {
    hide Fenced;
  }

  predicate OnwardAble(th: Thread, th': Thread, op: Token) {
    th'.main == th.main && th'.host == th.host && Able(th', op)
  }

  lemma RunOfAble(s: System, t: nat, op: Token)
    requires Inv(s) && t in s.threads && Able(s.threads[t], op) && Readable(s, op)
    ensures var th := s.threads[t];
      && th.clean.pc.CNone? && (th.main.CancelOnly? || th.main.TdWait?) && op in s.reg.active
      && th.cancel.run < |s.runs| && RunSound(RunAt(s, th.cancel.run)) && JoinRun(th) == th.cancel.run
  {
    hide Inv, Want, HostOf, JoinOf, SharedOk, Answered, Streams, Mutex, HostFacts, RunSound;
    var th := s.threads[t];
    Facts(s, t, th);
    Parts(s);
    RunNamed(s, op);
    assert s.runs[th.cancel.run].token == Some(op);
  }

  lemma RunNamed(s: System, op: Token)
    requires SharedOk(s) && op in s.reg.active
    ensures s.reg.active[op].run < |s.runs| && s.runs[s.reg.active[op].run].token == Some(op)
  {
    hide Uniform, RunsWf, Linked;
  }

  /** The next step of an able cancel, if the environment helps and no reader is refused
      to it: it stays able, or it ends the child. */
  lemma OwnAble(s: System, e: Event, op: Token)
    requires Inv(s) && Enabled(s, e) && ByThread(e) && Helped(e)
    requires Able(s.threads[e.t], op) && Readable(s, op)
    requires e.Work? && Blocked(s, s.threads[e.t]) ==> e.c.wait
    ensures var th := s.threads[e.t];
      if e.Work? && AtCancelEnd(th) then Done(s, e.t, th, Next(s, e), op) else GoesOn(s, e.t, th, Next(s, e), op)
  {
    hide Inv, JoinStep, CancelStep, CleanStep, MainStep, Allowed, Want, Able, RunSound, Readable, Blocked, GoesOn, Done;
    var th := s.threads[e.t];
    RunOfAble(s, e.t, op);
    AblePoint(th, op);
    match e
    case Acquire(t) => AcquireAble(s, t, th, op);
    case Work(t, c) =>
      if !th.join.pc.JNone? {
        JoinAble(s, t, th, op, c);
      } else {
        CancelAble(s, t, th, op, c);
      }
  }

  lemma AblePoint(th: Thread, op: Token)
    requires Able(th, op)
    ensures !th.cancel.pc.KNone? && th.cancel.op == op
  {
  }

  lemma AcquireAble(s: System, t: nat, th: Thread, op: Token)
    requires t in s.threads && th == s.threads[t] && Able(th, op)
    ensures GoesOn(s, t, th, AcquireStep(s, t, th), op)
  {
  }

  lemma AbleUnique(s: System, t: nat, u: nat, op: Token, other: Token)
    requires Inv(s) && t in s.threads && u in s.threads
    requires Able(s.threads[t], op) && Able(s.threads[u], other)
    ensures t == u && op == other
  {
    hide Inv, Want;
    assert Lock.A in Base(s.threads[t]) && Lock.A in Base(s.threads[u]);
    if t != u {
      HeldApart(s, t, u, Lock.A);
    }
  }

  lemma EventThread(s: System, e: Event)
    requires Enabled(s, e) && ByThread(e)
    ensures e.t in s.threads
  {
    hide Want, Allowed;
  }

  /** What the other children of `tokens` depend on while one cancel is able. */
  lemma OthersSafe(s: System, t: nat, op: Token, v: nat, tokens: iset<Token>)
    requires Inv(s) && t in s.threads && v in s.threads && Able(s.threads[t], op) && Kept(s, tokens)
    requires v == t || !AtDrop(s.threads[v])
    ensures forall other :: other in tokens && other != op && other in s.reg.active ==> SafeFrom(s, v, other)
    ensures v != t ==> SafeFrom(s, v, op)
  {
    hide Inv, Readable, Able, DropImminent;
    assert !AtDrop(s.threads[v]) by { AblePoint(s.threads[t], op); }
    forall other | other in tokens && other != op && other in s.reg.active ensures SafeFrom(s, v, other) {
      if u :| u in s.threads && Able(s.threads[u], other) {
        AbleUnique(s, t, u, op, other);
      }
    }
  }

  lemma OwnKept(s: System, e: Event, op: Token, tokens: iset<Token>)
    requires Reached(s) && Enabled(s, e) && ByThread(e) && Helped(e) && Kept(s, tokens)
    requires Able(s.threads[e.t], op) && Readable(s, op)
    requires e.Work? && Blocked(s, s.threads[e.t]) ==> e.c.wait
    ensures Kept(Next(s, e), tokens)
  {
    hide Inv, Reached, Enabled, Next, Helped, Readable, Able, Blocked, SafeFrom;
    ReachedInv(s);
    EventThread(s, e);
    OthersSafe(s, e.t, op, e.t, tokens);
    StepKept(s, e, tokens - iset{op});
    ReadableStep(s, e, op);
    OwnAble(s, e, op);
  }

  lemma OtherKept(s: System, e: Event, t: nat, op: Token, tokens: iset<Token>)
    requires Reached(s) && Enabled(s, e) && ByThread(e) && Helped(e) && Kept(s, tokens)
    requires t in s.threads && Able(s.threads[t], op) && e.t != t && !AtDrop(s.threads[e.t])
    ensures Kept(Next(s, e), tokens)
  {
    hide Inv, Reached, Enabled, Next, Helped, Able, SafeFrom, Kept;
    ReachedInv(s);
    EventThread(s, e);
    OthersSafe(s, t, op, e.t, tokens);
    StepKept(s, e, tokens);
  }

  // ---------- an able cancel is brought to its end ----------

  /** A step of the cancel itself, with patience, or of a thread that is in its way. */
  ghost predicate Helpful(s: System, t: nat, e: Event) {
    && ByThread(e) && Helped(e) && t in s.threads && e.t in s.threads
    && (e.t == t ==>
          var th := s.threads[t];
          && (e.Acquire? ==> !Blocked(s, th))
          && (e.Work? ==> (if Blocked(s, th) then e.c.wait && th.lk == 1 else !e.c.wait)))
    && (e.t != t ==> Moves(e) && !AtDrop(s.threads[e.t]))
  }

  lemma HighLocks(s: System, v: nat)
    requires HoldsFrom(s, v, 3)
    ensures !AtDrop(s.threads[v])
  {
    DropLocks(s.threads[v]);
  }

  lemma DropLocks(th: Thread)
    ensures AtDrop(th) ==> forall lock :: lock in Held(th) ==> LockRank(lock) < 3
  {
    assert AtDrop(th) ==> Base(th) == [D] && Want(th) == [P];
  }

  lemma AbleLocks(th: Thread, op: Token)
    requires Able(th, op) && th.clean.pc.CNone?
    ensures |Want(th)| <= 1 && (Want(th) != [] ==> LockRank(Want(th)[0]) >= 4)
    ensures !th.join.pc.JNone? ==> Want(th) == [C(JoinRun(th))]
  {
  }

  /** The joiner that has the reader, or the thread that keeps it from its lock. */
  lemma NextJoiner(s: System, t: nat, op: Token) returns (e: Event)
    requires Inv(s) && t in s.threads && Able(s.threads[t], op) && Readable(s, op)
    requires Blocked(s, s.threads[t]) && s.threads[t].lk == 0
    ensures Enabled(s, e) && Helpful(s, t, e) && e.t != t
  {
    hide Inv, Able, Held, Want, Readable, RunSound, RunIn, Enabled, LockRank, JoinRun;
    var th := s.threads[t];
    RunOfAble(s, t, op);
    var u := JoinerOf(s, th);
    e := Unblock(s, u, 5);
    EventThread(s, e);
    if e.t != u {
      AboveAll(s, e.t, 5, 3);
      HighLocks(s, e.t);
    }
    LowLocks(s, t, op);
  }

  lemma AboveAll(s: System, t: nat, above: nat, less: nat)
    requires HoldsFrom(s, t, above) && less <= above
    ensures HoldsFrom(s, t, less)
  {
  }

  lemma LowLocks(s: System, t: nat, op: Token)
    requires t in s.threads && Able(s.threads[t], op) && s.threads[t].lk == 0
    requires s.threads[t].main.CancelOnly? || s.threads[t].main.TdWait?
    ensures !HoldsFrom(s, t, 5)
  {
    var th := s.threads[t];
    assert Held(th) == Base(th) + [];
    assert forall lock :: lock in Base(th) ==> lock == D || lock == Lock.A;
  }

  lemma JoinerOf(s: System, th: Thread) returns (u: nat)
    requires Inv(s) && Blocked(s, th) && JoinRun(th) < |s.runs|
    ensures u in s.threads && s.threads[u].join.pc.JPut? && s.threads[u] != th && !AtDrop(s.threads[u])
    ensures s.threads[u].lk < |Want(s.threads[u])| ==> 5 <= LockRank(Want(s.threads[u])[s.threads[u].lk])
  {
    hide Inv, SharedOk, Answered, Mutex, HostFacts;
    Parts(s);
    u := s.runs[JoinRun(th)].StreamOf(th.join.out).joiner;
  }

  lemma NextHelpful(s: System, t: nat, op: Token) returns (e: Event)
    requires Inv(s) && t in s.threads && Able(s.threads[t], op) && Readable(s, op)
    ensures Enabled(s, e) && Helpful(s, t, e)
  {
    hide Inv, Able, Held, Want, Readable, RunSound, RunIn, Enabled, LockRank, JoinRun, Blocked, HostOf, CancelOf,
      JoinOf;
    var th := s.threads[t];
    RunOfAble(s, t, op);
    Facts(s, t, th);
    LockBound(t, th, s.nextThread, s.host);
    AbleLocks(th, op);
    if Blocked(s, th) && th.lk == 0 {
      e := NextJoiner(s, t, op);
    } else if th.lk < |Want(th)| {
      e := NextHolder(s, t, op);
    } else {
      e := CanAlwaysWork(s, t);
      if Blocked(s, th) {
        BlockedWants(s, th);
        e := Patient(s, t, e.c);
      }
    }
  }

  lemma BlockedWants(s: System, th: Thread)
    requires Blocked(s, th)
    ensures |Want(th)| == 1
  {
  }

  lemma Patient(s: System, t: nat, c: Choice) returns (e: Event)
    requires Enabled(s, Work(t, c)) && Helped(Work(t, c))
    ensures Enabled(s, e) && e.Work? && e.t == t && e.c.wait && Helped(e)
  {
    e := Work(t, c.(wait := true));
    hide Want;
  }

  /** The lock itself, if it is free; otherwise a thread that stands between. */
  lemma NextHolder(s: System, t: nat, op: Token) returns (e: Event)
    requires Inv(s) && t in s.threads && Able(s.threads[t], op) && s.threads[t].clean.pc.CNone?
    requires s.threads[t].lk < |Want(s.threads[t])| && !Blocked(s, s.threads[t])
    ensures Enabled(s, e) && Helpful(s, t, e)
  {
    hide Inv, Able, Held, Want, LockRank, Allowed, Blocked;
    var th := s.threads[t];
    AbleLocks(th, op);
    var lock := Want(th)[th.lk];
    if Free(s, lock) {
      e := Acquire(t);
    } else {
      var u :| u in s.threads && lock in Held(s.threads[u]);
      if s.threads[u].lk < |Want(s.threads[u])| {
        WantsAbove(s, u, lock);
      }
      RankBound(lock);
      e := Unblock(s, u, LockRank(lock) + 1);
      hide Enabled;
      EventThread(s, e);
      assert HoldsFrom(s, u, LockRank(lock));
      BelowWant(s, t);
      AboveAll(s, e.t, if e.t == u then LockRank(lock) else LockRank(lock) + 1, 3);
      AboveAll(s, e.t, if e.t == u then LockRank(lock) else LockRank(lock) + 1, LockRank(lock));
      HighLocks(s, e.t);
    }
  }

  lemma BelowWant(s: System, t: nat)
    requires Inv(s) && t in s.threads && s.threads[t].lk < |Want(s.threads[t])|
    ensures !HoldsFrom(s, t, LockRank(Want(s.threads[t])[s.threads[t].lk]))
  {
    hide Inv, Want, Held, LockRank;
    var lock := Want(s.threads[t])[s.threads[t].lk];
    if held :| held in Held(s.threads[t]) && LockRank(lock) <= LockRank(held) {
      WantsAbove(s, t, held);
    }
  }

  // ---------- the work of the other threads ----------

  function ListsBeside(s: System, t: nat): nat {
    Sum(s.threads - {t}, s.nextThread, th => ListsOf(th))
  }

  function BudgetsBeside(s: System, t: nat): nat {
    Sum(s.threads - {t}, s.nextThread, th => Budget(th))
  }

  /** The other threads have come no further from their ends. */
  predicate NoMore(s': System, s: System, t: nat) {
    || ListsBeside(s', t) < ListsBeside(s, t)
    || (ListsBeside(s', t) == ListsBeside(s, t) && BudgetsBeside(s', t) <= BudgetsBeside(s, t))
  }

  /** Weighted so that it pays for the one time that the cancel gives its lock back. */
  function Weight(s: System, t: nat): nat {
    3 * BudgetsBeside(s, t)
    + (if t in s.threads then
         Budget(s.threads[t]) + (if Blocked(s, s.threads[t]) && s.threads[t].lk == 1 then 2 else 0)
       else 0)
  }

  lemma OtherLess(s: System, s': System, t: nat, v: nat)
    requires t in s.threads && v in s.threads && v != t && v < s.nextThread == s'.nextThread
    requires s'.threads - {v} == s.threads - {v} && (v in s'.threads ==> Below(s'.threads[v], s.threads[v]))
    ensures NoMore(s', s, t)
    ensures || ListsBeside(s', t) < ListsBeside(s, t)
            || (ListsBeside(s', t) == ListsBeside(s, t) && Weight(s', t) < Weight(s, t))
  {
    var lists, budgets := th => ListsOf(th), th => Budget(th);
    var a, b := s.threads - {t}, s'.threads - {t};
    assert b - {v} == a - {v} by {
      assert b - {v} == (s'.threads - {v}) - {t} && a - {v} == (s.threads - {v}) - {t};
    }
    SumOne(a, b, s.nextThread, v, lists);
    SumOne(a, b, s.nextThread, v, budgets);
    assert t in s'.threads - {v} && (s'.threads - {v})[t] == (s.threads - {v})[t];
    BudgetPositive(s.threads[v]);
    hide ListsOf, Budget, Sum, Blocked;
  }

  lemma OwnSame(s: System, s': System, t: nat)
    requires s'.threads - {t} == s.threads - {t} && s'.nextThread == s.nextThread
    ensures ListsBeside(s', t) == ListsBeside(s, t) && BudgetsBeside(s', t) == BudgetsBeside(s, t)
  {
  }

  lemma EventThreads(s: System, e: Event)
    requires Inv(s) && Enabled(s, e) && ByThread(e)
    ensures e.t < s.nextThread == Next(s, e).nextThread && Next(s, e).threads - {e.t} == s.threads - {e.t}
  {
    hide Inv, ThreadStep, Allowed, Want, Effect, HostOf, CancelOf, JoinOf;
    Facts(s, e.t, s.threads[e.t]);
    match e
    case Work(t, c) =>
      ThreadEffect(s, t, s.threads[t], c);
      EffectThreads(s, t, s.threads[t], ThreadStep(s, t, s.threads[t], c));
    case _ =>
  }

  lemma EventBelow(s: System, e: Event)
    requires Inv(s) && Enabled(s, e) && Moves(e)
    ensures e.t in s.threads && (e.t in Next(s, e).threads ==> Below(Next(s, e).threads[e.t], s.threads[e.t]))
  {
    hide Inv, ThreadStep, Allowed, Want, Below, Able, Flags;
    match e
    case Acquire(t) => AcquireBelow(s.threads[t]);
    case Work(t, c) => OwnMoved(s, t, c);
  }

  /** The cancel itself moves. */
  lemma OwnLess(s: System, t: nat, e: Event, op: Token)
    requires Inv(s) && Enabled(s, e) && Helpful(s, t, e) && e.t == t && Able(s.threads[t], op)
    requires GoesOn(s, t, s.threads[t], Next(s, e), op)
    ensures ListsBeside(Next(s, e), t) == ListsBeside(s, t) && Weight(Next(s, e), t) < Weight(s, t)
  {
    hide Inv, Enabled, Next, Able, Budget, ListsOf, Sum, Rank;
    var th, s' := s.threads[t], Next(s, e);
    EventThreads(s, e);
    OwnSame(s, s', t);
    if e.Work? && e.c.wait {
      GivesBack(s, t, e);
    } else {
      EventBelow(s, e);
      SameLists(th, s'.threads[t]);
      if e.Acquire? {
        StillFree(s, t, e);
      } else {
        WorkReleases(s, t, e.c);
      }
    }
  }

  lemma WorkReleases(s: System, t: nat, c: Choice)
    requires Inv(s) && Enabled(s, Work(t, c)) && t in Next(s, Work(t, c)).threads
    ensures Next(s, Work(t, c)).threads[t].lk == 0
  {
    hide Inv, Enabled, Next, Below, Able, Flags;
    OwnMoved(s, t, c);
  }

  lemma SameLists(th: Thread, th': Thread)
    requires th'.main == th.main && th'.host == th.host && Below(th', th)
    ensures Budget(th') < Budget(th)
  {
    hide MainRank, Lists;
  }

  lemma StillFree(s: System, t: nat, e: Event)
    requires Enabled(s, e) && e == Acquire(t) && t in s.threads && !Blocked(s, s.threads[t])
    ensures t in Next(s, e).threads && !Blocked(Next(s, e), Next(s, e).threads[t])
  {
    hide Want;
  }

  /** A blocked cancel that waits gives its lock back and is otherwise as before. */
  lemma GivesBack(s: System, t: nat, e: Event)
    requires Enabled(s, e) && e.Work? && e.t == t && t in s.threads && e.c.wait
    requires Blocked(s, s.threads[t]) && s.threads[t].lk == 1
    ensures Next(s, e) == Put(s, t, s.threads[t].(lk := 0))
    ensures Budget(s.threads[t].(lk := 0)) == Budget(s.threads[t]) + 1
  {
    hide Want, Allowed, RunIn, MainRank, CancelRank, CleanRank, JoinRank;
  }

  /** While a cancel is able nobody else changes the active registry. */
  lemma ActiveHeld(s: System, e: Event, t: nat, op: Token)
    requires Inv(s) && Enabled(s, e) && ByThread(e) && t in s.threads && Able(s.threads[t], op) && e.t != t
    ensures Next(s, e).reg.active == s.reg.active
  {
    hide Inv, Enabled, Next, Able;
    EventThread(s, e);
    var s' := Next(s, e);
    forall other
      ensures other in s'.reg.active <==> other in s.reg.active
      ensures other in s.reg.active ==> s'.reg.active[other] == s.reg.active[other]
    {
      EventEntries(s, e, other);
      if e.Work? && (Enlists(s, s.threads[e.t], s', other) || Releases(s, s.threads[e.t], s', other)) {
        ChangerHolds(s, e, other);
        AbleHolds(s.threads[t], op);
        HeldApart(s, t, e.t, Lock.A);
      }
    }
  }

  lemma AbleHolds(th: Thread, op: Token)
    requires Able(th, op)
    ensures Lock.A in Held(th)
  {
    hide Want;
    assert Lock.A in Base(th);
  }

  lemma ChangerHolds(s: System, e: Event, op: Token)
    requires Enabled(s, e) && e.Work? && e.t in s.threads
    requires Enlists(s, s.threads[e.t], Next(s, e), op) || Releases(s, s.threads[e.t], Next(s, e), op)
    ensures Lock.A in Held(s.threads[e.t])
  {
    hide Next, Allowed;
    var th := s.threads[e.t];
    assert Want(th)[..th.lk] == Want(th);
    if th.join.pc.JNone? && th.clean.pc.CUnreg? {
      assert Want(th)[0] == Lock.A;
    } else {
      assert Lock.A in Base(th);
    }
  }

  /** Where an able cancel leads: its child is let go, and no other child is lost. */
  ghost predicate LetGo(s: System, t: nat, op: Token, tokens: iset<Token>, s': System) {
    && Leads(s, s') && Reached(s') && Kept(s', tokens) && s'.reg.active == s.reg.active - {op}
    && NoMore(s', s, t) && s'.nextThread == s.nextThread && t in s.threads && t in s'.threads
    && s'.threads[t].main == s.threads[t].main && s'.threads[t].host == s.threads[t].host
    && s'.threads[t].cancel.pc.KNone? && s'.threads[t].join.pc.JNone? && s'.threads[t].clean.pc.CNone?
    && s'.threads[t].lk == 0 && (ReadersSound(s.runs) ==> ReadersSound(s'.runs))
  }

  /** No reader of any child has ever ended in an error. */
  ghost predicate ReadersSound(runs: seq<Run>) {
    forall r :: 0 <= r < |runs| ==> RunSound(runs[r])
  }

  lemma ReadersStep(s: System, e: Event)
    requires Inv(s) && Enabled(s, e) && Helped(e) && ReadersSound(s.runs)
    ensures ReadersSound(Next(s, e).runs)
  {
    hide Inv, Enabled, Next, Helped, RunSound;
    HelpedRuns(s, e);
  }

  lemma HelpfulEvent(s: System, t: nat, e: Event)
    requires Helpful(s, t, e)
    ensures ByThread(e) && Helped(e) && e.t in s.threads && t in s.threads
    ensures e.t == t && e.Work? && Blocked(s, s.threads[t]) ==> e.c.wait
    ensures e.t != t ==> Moves(e) && !AtDrop(s.threads[e.t])
  {
  }

  lemma OtherEventLess(s: System, t: nat, e: Event)
    requires Inv(s) && Enabled(s, e) && Moves(e) && t in s.threads && e.t != t
    ensures NoMore(Next(s, e), s, t)
    ensures || ListsBeside(Next(s, e), t) < ListsBeside(s, t)
            || (ListsBeside(Next(s, e), t) == ListsBeside(s, t) && Weight(Next(s, e), t) < Weight(s, t))
  {
    hide Inv, Enabled, Next, NoMore, ListsBeside, Weight, Below;
    EventThreads(s, e);
    EventBelow(s, e);
    OtherLess(s, Next(s, e), t, e.t);
  }

  lemma OwnEventSame(s: System, t: nat, e: Event)
    requires Inv(s) && Enabled(s, e) && ByThread(e) && e.t == t
    ensures NoMore(Next(s, e), s, t)
  {
    hide Inv, Enabled, Next;
    EventThreads(s, e);
    OwnSame(s, Next(s, e), t);
  }

  lemma LastEnds(s: System, t: nat, op: Token, tokens: iset<Token>, e: Event)
    requires Reached(s) && Enabled(s, e) && ByThread(e) && Helped(e) && e.t == t && t in s.threads
    requires Done(s, t, s.threads[t], Next(s, e), op) && Kept(Next(s, e), tokens) && s.threads[t].clean.pc.CNone?
    ensures LetGo(s, t, op, tokens, Next(s, e))
  {
    hide Inv, Reached, Enabled, Next, Helped, Kept, Leads, NoMore, ReadersSound;
    ReachedInv(s);
    ReachedNext(s, e);
    EventThreads(s, e);
    OwnEventSame(s, t, e);
    LeadsSelf(Next(s, e));
    LeadsOn(s, e, Next(s, e));
    if ReadersSound(s.runs) {
      ReadersStep(s, e);
    }
  }

  lemma EndsOn(s: System, t: nat, op: Token, tokens: iset<Token>, e: Event, s': System)
    requires Inv(s) && Enabled(s, e) && ByThread(e) && Helped(e) && LetGo(Next(s, e), t, op, tokens, s')
    requires t in s.threads && t in Next(s, e).threads && NoMore(Next(s, e), s, t)
    requires Next(s, e).threads[t].main == s.threads[t].main && Next(s, e).threads[t].host == s.threads[t].host
    requires Next(s, e).reg.active == s.reg.active
    ensures LetGo(s, t, op, tokens, s')
  {
    hide Inv, Reached, Enabled, Next, Helped, Kept, Leads, ReadersSound, ListsBeside, BudgetsBeside;
    EventThreads(s, e);
    LeadsOn(s, e, s');
    if ReadersSound(s.runs) {
      ReadersStep(s, e);
    }
  }

  lemma GoesOnIs(s: System, t: nat, th: Thread, s': System, op: Token)
    requires GoesOn(s, t, th, s', op)
    ensures t in s'.threads && s'.threads[t].main == th.main && s'.threads[t].host == th.host
    ensures s'.reg.active == s.reg.active && Able(s'.threads[t], op)
  {
  }

  /** Only the steps of the cancel and of threads in its way are needed. */
  lemma {:induction false} FinishAble(s: System, t: nat, op: Token, tokens: iset<Token>) returns (s': System)
    requires Reached(s) && t in s.threads && Able(s.threads[t], op) && Readable(s, op) && Kept(s, tokens)
    ensures LetGo(s, t, op, tokens, s')
    decreases ListsBeside(s, t), Weight(s, t)
  {
    hide Inv, Reached, Enabled, Next, Able, Readable, Kept, Helped, Blocked, GoesOn, Done, LetGo, Helpful, Leads,
      NoMore, ListsBeside, Weight, ReadersSound;
    ReachedInv(s);
    var e := NextHelpful(s, t, op);
    HelpfulEvent(s, t, e);
    ReachedNext(s, e);
    if e.t == t {
      OwnKept(s, e, op, tokens);
      OwnAble(s, e, op);
      if e.Work? && AtCancelEnd(s.threads[t]) {
        s' := Next(s, e);
        RunOfAble(s, t, op);
        LastEnds(s, t, op, tokens, e);
        return;
      }
      ReadableStep(s, e, op);
      OwnLess(s, t, e, op);
      OwnEventSame(s, t, e);
      GoesOnIs(s, t, s.threads[t], Next(s, e), op);
    } else {
      OtherKept(s, e, t, op, tokens);
      OtherStays(s, e, t);
      ReadableStep(s, e, op);
      OtherEventLess(s, t, e);
      ActiveHeld(s, e, t, op);
    }
    s' := FinishAble(Next(s, e), t, op, tokens);
    EndsOn(s, t, op, tokens, e, s');
  }
}
