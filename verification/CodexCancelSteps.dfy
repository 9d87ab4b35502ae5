/** Cancellation keeps the invariant, whoever runs it. */
module CodexCancelSteps {
  import opened Options
  import opened CodexTypes
  import opened CodexRegistry
  import opened CodexProtocol
  import opened CodexInvariant
  import opened CodexFrames
  import opened CodexMoves
  import opened CodexJoinSteps
  import opened CodexCleanSteps

  predicate SameButCancel(th: Thread, th': Thread) {
    && th'.main == th.main && th'.op == th.op && th'.session == th.session && th'.generation == th.generation
    && th'.run == th.run && th'.slot == th.slot && th'.scoped == th.scoped && th'.res == th.res
    && th'.clean == th.clean && th'.host == th.host
    && th'.cancel.op == th.cancel.op && th'.cancel.session == th.cancel.session
  }

  /** What the registries look like for the token of a cancel that is about to return. */
  predicate FenceReady(reg: Registries, ht: Option<Thread>, k: CancelFrame) {
    k.armed ==>
      && k.op !in reg.prepared
      && (k.op in reg.pending ==> reg.pending[k.op].cancelled || (k.op !in reg.active && HostDoomed(ht, k.op)))
  }

  lemma CancelPlace(s: System, t: nat, th: Thread)
    requires ShapeOf(t, th, s.nextThread, s.host) && !th.cancel.pc.KNone?
    ensures th.clean.pc.CNone? && (s.host == Some(t) <==> th.main.TdWait?)
    ensures s.host != Some(t) ==> th.main.CancelOnly?
  {
  }

  lemma HostOfTdWait(reg: Registries, count: Counters, runs: seq<Run>, past: History, h: nat, th: Thread)
    requires th.main.TdWait? && th.clean.pc.CNone? && TeardownOf(reg, count.session, th)
    ensures HostOf(reg, count, runs, past, h, th)
  {
    hide TeardownOf, Unspawned, InCands, CandOf;
  }

  lemma CoversCancel(th: Thread, th': Thread)
    requires SameButCancel(th, th')
    ensures Covers(th, th')
  {
  }

  /** Where a cancel may go next; it gives up A only when it returns. */
  lemma FitsCancel(s: System, t: nat, th: Thread, th': Thread)
    requires ShapeOf(t, th, s.nextThread, s.host) && !th.cancel.pc.KNone? && th.join.pc.JNone?
    requires SameButCancel(th, th') && th'.lk == 0
    requires th'.join.pc.JNone? || (th'.join.pc.JLook? && JoinSite(th') && th'.join.out == JoinSiteStdout(th'))
    ensures Fits(s, t, th, th')
  {
    assert CancelBase(th'.cancel.pc) == CancelBase(th.cancel.pc) || th'.cancel.pc.KNone? || th'.cancel.pc.KLook?
      || (th.cancel.pc.KLook? && Want(th) == [A]);
  }

  lemma HostOfFenced(
    reg: Registries, count: Counters, runs: seq<Run>, past: History, h: nat, th: Thread, k: CancelFrame)
    requires HostOf(reg, count, runs, past, h, th)
    ensures HostOf(reg, count, runs, Fenced(past, k), h, th)
  {
    hide Unspawned, ScopedRunOf, UnscopedRunOf, RunStageOf, CleanOf, RetryOf, RetryWaitOf, TeardownOf;
  }

  lemma SharedFenced(s: System, k: CancelFrame)
    requires SharedOk(s) && (k.armed ==> k.op in s.past.minted)
    ensures SharedOk(s.(past := Fenced(s.past, k)))
    ensures MintedGrows(s.past, Fenced(s.past, k))
  {
    hide Refers;
  }

  lemma AnsweredFenced(s: System, ht: Option<Thread>, k: CancelFrame)
    requires Answered(s, ht) && FenceReady(s.reg, ht, k)
    ensures Answered(s.(past := Fenced(s.past, k)), ht)
  {
    hide Quiescent, Slots, Custody, HostDoomed;
  }

  lemma CancelMinted(s: System, k: CancelFrame)
    requires CancelOf(s.reg, s.runs, s.past, k) && !k.pc.KNone? && k.armed
    ensures k.op in s.past.minted
  {
  }

  /** `s1` is the state after the critical section of a cancel; `fenced` says that the
      cancel returns. */
  lemma CancelKeeps(s: System, t: nat, th: Thread, th': Thread, s1: System, fenced: bool)
    requires Ready(s, t, th) && !th.cancel.pc.KNone? && th.join.pc.JNone?
    requires SameButCancel(th, th') && th'.lk == 0
    requires th'.join.pc.JNone? || (th'.join.pc.JLook? && JoinSite(th') && th'.join.out == JoinSiteStdout(th'))
    requires SameThreads(s, s1) && s1.past == s.past && s1.count == s.count
    requires SharedOk(s1) && Streams(s1.runs, s.threads) && Evolves(s.runs, s1.runs)
    requires OthersRely(s.reg, s1.reg, s.threads, t)
    requires CancelOf(s1.reg, s1.runs, s1.past, th'.cancel) && JoinOf(s1.runs, th')
    requires s.host != Some(t) ==> HostFacts(s1.reg, s1.count, s1.runs, s1.past, s.threads, s.host)
    requires s.host == Some(t) ==> TeardownOf(s1.reg, s1.count.session, th')
    requires Answered(s1, HostThread(s.threads, s.host))
    requires fenced ==> th'.cancel.pc.KNone? && FenceReady(s1.reg, HostThread(s.threads, s.host), th.cancel)
    ensures Inv(Put(if fenced then s1.(past := Fenced(s1.past, th.cancel)) else s1, t, th'))
  {
    var s2 := if fenced then s1.(past := Fenced(s1.past, th.cancel)) else s1;
    var ht := HostThread(s.threads, s.host);
    hide ShapeOf, Shape, Mutex, Uniform, RunsWf, Refers, Streams, Routines, Linked, Quiescent, Fence, Slots, Custody,
      CancelOf, JoinOf, HostOf, JoinSite, Evolves, OthersRely, MintedGrows, Fits, Covers, Want, TeardownOf,
      SameButCancel, FenceReady, Fenced;
    Facts(s, t, th);
    CancelPlace(s, t, th);
    FitsCancel(s, t, th, th');
    OthersSame(s, t);
    StreamsPut(s1.runs, s.threads, t, th');
    if fenced {
      if th.cancel.armed {
        CancelMinted(s, th.cancel);
      }
      SharedFenced(s1, th.cancel);
      AnsweredFenced(s1, ht, th.cancel);
      IdleCancel(s2, th'.cancel);
      if s.host != Some(t) && s.host.Some? && s.host.value in s.threads {
        HostOfFenced(s1.reg, s1.count, s1.runs, s1.past, s.host.value, s.threads[s.host.value], th.cancel);
      }
    }
    if s.host == Some(t) {
      CoversCancel(th, th');
      CoversKeeps(s2.reg, s2.count, s2.runs, s2.past, th, th');
      assert th'.main.TdWait? && th'.clean.pc.CNone? by { CancelSame(th, th'); }
      HostOfTdWait(s2.reg, s2.count, s2.runs, s2.past, t, th');
    }
    StepKeeps(s, t, th, th', s2);
  }

  lemma CancelSame(th: Thread, th': Thread)
    requires SameButCancel(th, th')
    ensures th'.main == th.main && th'.clean == th.clean
  {
  }

  predicate FlaggedOrGone(reg: Registries, op: Token) {
    op in reg.active && op in reg.pending ==> reg.pending[op].cancelled
  }

  lemma TeardownCancel(reg: Registries, session: nat, th: Thread, th': Thread)
    requires TeardownOf(reg, session, th) && SameButCancel(th, th')
    requires th'.cancel.pc.KNone? ==> FlaggedOrGone(reg, th.cancel.op)
    ensures TeardownOf(reg, session, th')
  {
    hide InTodo;
  }

  lemma TeardownAt(s: System, t: nat, th: Thread)
    requires HostOf(s.reg, s.count, s.runs, s.past, t, th)
    ensures TeardownOf(s.reg, s.count.session, th)
  {
    hide WorkerOf, ScopedRunOf, UnscopedRunOf, RunStageOf, CleanOf, RetryWaitOf, RetryOf, TeardownOf, OtherHostOf;
  }

  /** A step of a cancel that changes nothing shared, except perhaps by returning. */
  lemma CancelMove(s: System, t: nat, th: Thread, th': Thread, fenced: bool)
    requires Ready(s, t, th) && !th.cancel.pc.KNone? && th.join.pc.JNone?
    requires SameButCancel(th, th') && th'.lk == 0
    requires th'.join.pc.JNone? || (th'.join.pc.JLook? && JoinSite(th') && th'.join.out == JoinSiteStdout(th'))
    requires CancelOf(s.reg, s.runs, s.past, th'.cancel) && JoinOf(s.runs, th')
    requires s.host == Some(t) && th'.cancel.pc.KNone? ==> FlaggedOrGone(s.reg, th.cancel.op)
    requires fenced ==> th'.cancel.pc.KNone? && FenceReady(s.reg, HostThread(s.threads, s.host), th.cancel)
    ensures Inv(Put(if fenced then s.(past := Fenced(s.past, th.cancel)) else s, t, th'))
  {
    hide Inv, SharedOk, Streams, Evolves, OthersRely, CancelOf, JoinOf, HostFacts, TeardownOf, Answered, HostOf,
      FenceReady, SameButCancel, Want, JoinSite, FlaggedOrGone, ShapeOf, MintedGrows, CancelRely;
    Parts(s);
    Facts(s, t, th);
    EvolvesSelf(s.runs);
    OthersSame(s, t);
    if s.host == Some(t) {
      TeardownAt(s, t, th);
      TeardownCancel(s.reg, s.count.session, th, th');
    }
    CancelKeeps(s, t, th, th', s, fenced);
  }

  /** A step of a cancel that lets the run exit or lose its artifact. */
  lemma CancelRun(s: System, t: nat, th: Thread, th': Thread, run: Run, fenced: bool)
    requires Ready(s, t, th) && !th.cancel.pc.KNone? && th.join.pc.JNone?
    requires SameButCancel(th, th') && th'.lk == 0
    requires th'.join.pc.JNone? || (th'.join.pc.JLook? && JoinSite(th') && th'.join.out == JoinSiteStdout(th'))
    requires th.cancel.run < |s.runs| && RunEvolves(s.runs[th.cancel.run], run)
    requires SameStreams(s.runs[th.cancel.run], run) && RunWf(run, s.reg.prepared, s.past.minted)
    requires var runs := s.runs[th.cancel.run := run];
      CancelOf(s.reg, runs, s.past, th'.cancel) && JoinOf(runs, th')
    requires s.host == Some(t) && th'.cancel.pc.KNone? ==> FlaggedOrGone(s.reg, th.cancel.op)
    requires fenced ==> th'.cancel.pc.KNone? && FenceReady(s.reg, HostThread(s.threads, s.host), th.cancel)
    ensures var s1 := SetRun(s, th.cancel.run, run);
      Inv(Put(if fenced then s1.(past := Fenced(s1.past, th.cancel)) else s1, t, th'))
  {
    hide Inv, SharedOk, Streams, Evolves, OthersRely, CancelOf, JoinOf, TeardownOf, HostOf, Quiescent, Fence, Slots,
      Custody, FenceReady, SameButCancel, Want, JoinSite, FlaggedOrGone, ShapeOf, MintedGrows, CancelRely, RunWf,
      RunEvolves, SameStreams;
    var r := th.cancel.run;
    Parts(s);
    Facts(s, t, th);
    EvolvesOne(s.runs, r, run);
    OthersSame(s, t);
    RunShared(s, r, run);
    SameStreamsOne(s.runs, s.threads, r, run);
    CustodyEvolves(s.reg, s.runs, r, run, HostThread(s.threads, s.host));
    if s.host == Some(t) {
      TeardownAt(s, t, th);
      TeardownCancel(s.reg, s.count.session, th, th');
    } else if s.host.Some? && s.host.value in s.threads {
      HostOfSameStreams(s.reg, s.count, s.runs, s.past, s.host.value, s.threads[s.host.value], r, run);
    }
    CancelKeeps(s, t, th, th', SetRun(s, r, run), fenced);
  }

  // ---------- what is known when a cancel returns ----------

  /** A child in the active registry has used up its lease. */
  lemma ActiveUnprepared(s: System, op: Token)
    requires SharedOk(s) && op in s.reg.active
    ensures op !in s.reg.prepared
  {
    hide Uniform, Linked;
    assert RunWf(s.runs[s.reg.active[op].run], s.reg.prepared, s.past.minted);
  }

  /** Returning early because of the session happens only to calls of another session. */
  lemma LookForeign(s: System, t: nat, th: Thread)
    requires CancelOf(s.reg, s.runs, s.past, th.cancel) && th.cancel.pc.KLook? && Uniform(s.reg, s.count, s.past)
    requires th.cancel.op in s.reg.active && s.reg.active[th.cancel.op].session != th.cancel.session
    ensures !th.cancel.armed
    ensures !(th.main.TdWait? && TeardownOf(s.reg, s.count.session, th))
  {
  }

  /** Flagging fails only when the pending entry is gone. */
  lemma FlagFails(s: System, k: CancelFrame)
    requires CancelOf(s.reg, s.runs, s.past, k) && k.pc.KFlag?
    requires Uniform(s.reg, s.count, s.past) && Linked(s.reg, s.past)
    ensures k.op in s.reg.active
    ensures FlagActive(s.reg.active, s.reg.pending, k.op, k.session).Err? <==> k.op !in s.reg.pending
  {
  }

  lemma FlaggedReady(s: System, ht: Option<Thread>, k: CancelFrame)
    requires CancelOf(s.reg, s.runs, s.past, k) && SharedOk(s)
    requires PastFlag(k.pc) || (k.pc.KFlag? && k.op !in s.reg.pending)
    ensures FenceReady(s.reg, ht, k) && FlaggedOrGone(s.reg, k.op)
  {
    hide SharedOk;
    ActiveUnprepared(s, k.op);
  }
}
