/** Putting a step together: what has to be shown about one thread and about the shared
    state for the whole invariant to survive. */
module CodexMoves {
  import opened Options
  import opened CodexTypes
  import opened CodexProtocol
  import opened CodexInvariant
  import opened CodexFrames

  /** Thread `t` holds every lock of its next critical section. */
  ghost predicate Ready(s: System, t: nat, th: Thread) {
    Inv(s) && t in s.threads && th == s.threads[t] && th.lk == |Want(th)|
  }

  predicate Carries(th: Thread, th': Thread) {
    && th'.lk == 0
    && forall lock :: lock in Base(th') ==> lock in Base(th) || lock in Want(th)
  }

  lemma CarriesWithin(th: Thread, th': Thread)
    requires Carries(th, th') && th.lk == |Want(th)|
    ensures Within(th, th')
  {
    assert Held(th) == Base(th) + Want(th);
    assert Held(th') == Base(th');
  }

  /** What the invariant says about the thread that takes the step. */
  lemma Facts(s: System, t: nat, th: Thread)
    requires Inv(s) && t in s.threads && th == s.threads[t]
    ensures ShapeOf(t, th, s.nextThread, s.host)
    ensures CancelOf(s.reg, s.runs, s.past, th.cancel) && JoinOf(s.runs, th)
    ensures s.host == Some(t) ==>
      HostOf(s.reg, s.count, s.runs, s.past, t, th) && HostThread(s.threads, s.host) == Some(th)
  {
    hide ShapeOf, Mutex, Uniform, RunsWf, Refers, Streams, Linked, Quiescent, Fence, HostOf, Slots, Custody,
      CancelOf, JoinOf, Want;
  }

  /** The new program point is well formed and asks for no lock out of the blue. */
  predicate Fits(s: System, t: nat, th: Thread, th': Thread) {
    ShapeOf(t, th', s.nextThread, s.host) && Carries(th, th')
  }

  ghost predicate HostThere(s: System, t: nat, th': Thread) {
    s.host == Some(t) ==> HostOf(s.reg, s.count, s.runs, s.past, t, th')
  }

  lemma MoveKeeps(s: System, t: nat, th: Thread, th': Thread)
    requires Ready(s, t, th) && Fits(s, t, th, th')
    requires !th.join.pc.JPut? && !th'.join.pc.JPut?
    requires CancelOf(s.reg, s.runs, s.past, th'.cancel) && JoinOf(s.runs, th')
    requires HostThere(s, t, th')
    requires s.host == Some(t) ==> Covers(th, th')
    ensures Inv(Put(s, t, th'))
  {
    hide ShapeOf, Shape, Mutex, Uniform, RunsWf, Refers, Streams, Routines, Linked, Quiescent, Fence, HostOf, Slots,
      Custody, CancelOf, JoinOf, Covers, Carries, Within, Want;
    CarriesWithin(th, th');
    MutexPut(s.threads, t, th');
    ShapePut(s.threads, s.nextThread, s.host, t, th');
    StreamsPut(s.runs, s.threads, t, th');
    EvolvesSelf(s.runs);
    RoutinesPut(s.reg, s.runs, s.past, s.threads, s.reg, s.runs, s.past, t, th');
    HostThreadPut(s.threads, s.host, t, th');
    if s.host == Some(t) {
      CoversKeeps(s.reg, s.count, s.runs, s.past, th, th');
    }
  }

  /** The conjuncts that depend on the host thread. */
  ghost predicate Answered(s: System, ht: Option<Thread>) {
    && Quiescent(s.reg, ht) && Fence(s.reg, s.past, ht)
    && Slots(s.reg.slots, s.count, ht) && Custody(s.reg, s.runs, ht)
  }

  ghost predicate SharedOk(s: System) {
    && Uniform(s.reg, s.count, s.past) && RunsWf(s.runs, s.reg.prepared, s.past.minted)
    && Refers(s.reg, s.runs) && Linked(s.reg, s.past)
  }

  lemma Parts(s: System)
    requires Inv(s)
    ensures SharedOk(s) && Streams(s.runs, s.threads) && Mutex(s.threads)
    ensures Answered(s, HostThread(s.threads, s.host))
    ensures HostFacts(s.reg, s.count, s.runs, s.past, s.threads, s.host)
  {
    hide Shape, Mutex, Uniform, RunsWf, Refers, Streams, Routines, Linked, Quiescent, Fence, Slots, Custody, HostFacts;
  }

  lemma AnsweredEvolves(s: System, r: RunId, run: Run, ht: Option<Thread>)
    requires Answered(s, ht) && r < |s.runs| && RunEvolves(s.runs[r], run)
    ensures Answered(SetRun(s, r, run), ht)
  {
    hide Quiescent, Fence, Slots, Custody, RunEvolves;
    CustodyEvolves(s.reg, s.runs, r, run, ht);
  }

  lemma AnsweredCovers(s: System, th: Thread, th': Thread)
    requires Answered(s, Some(th)) && Covers(th, th')
    ensures Answered(s, Some(th'))
  {
    hide Quiescent, Fence, Slots, Custody, Covers;
    CoversKeeps(s.reg, s.count, s.runs, s.past, th, th');
  }

  ghost predicate SameThreads(s: System, s1: System) {
    s1.threads == s.threads && s1.nextThread == s.nextThread && s1.host == s.host
  }

  /** `s1` is `s` after the critical section, before thread `t` moves on to `th'`. */
  lemma StepKeeps(s: System, t: nat, th: Thread, th': Thread, s1: System)
    requires Ready(s, t, th) && Fits(s, t, th, th') && SameThreads(s, s1) && SharedOk(s1)
    requires Streams(s1.runs, s.threads[t := th'])
    requires Evolves(s.runs, s1.runs) && MintedGrows(s.past, s1.past) && OthersRely(s.reg, s1.reg, s.threads, t)
    requires CancelOf(s1.reg, s1.runs, s1.past, th'.cancel) && JoinOf(s1.runs, th')
    requires s.host == Some(t) ==> HostThere(s1, t, th') && Answered(s1, Some(th'))
    requires s.host != Some(t) ==>
      && HostFacts(s1.reg, s1.count, s1.runs, s1.past, s.threads, s.host)
      && Answered(s1, HostThread(s.threads, s.host))
    ensures Inv(Put(s1, t, th'))
  {
    hide ShapeOf, Shape, Mutex, Uniform, RunsWf, Refers, Streams, Routines, Linked, Quiescent, Fence, HostOf, Slots,
      Custody, CancelOf, JoinOf, Carries, Within, Want, Evolves, MintedGrows, OthersRely;
    CarriesWithin(th, th');
    MutexPut(s.threads, t, th');
    ShapePut(s.threads, s.nextThread, s.host, t, th');
    RoutinesPut(s.reg, s.runs, s.past, s.threads, s1.reg, s1.runs, s1.past, t, th');
    HostThreadPut(s.threads, s.host, t, th');
  }

  /** `s1` is `s` after the last critical section of the command of thread `t`. */
  lemma EndKeeps(s: System, t: nat, th: Thread, s1: System)
    requires Ready(s, t, th) && SameThreads(s, s1) && SharedOk(s1) && !th.join.pc.JPut?
    requires s1.runs == s.runs && MintedGrows(s.past, s1.past) && OthersRely(s.reg, s1.reg, s.threads, t)
    requires s.host == Some(t) ==> Answered(s1, None)
    requires s.host != Some(t) ==>
      && HostFacts(s1.reg, s1.count, s1.runs, s1.past, s.threads, s.host)
      && Answered(s1, HostThread(s.threads, s.host))
    ensures Inv(End(s1, t))
  {
    hide ShapeOf, Shape, Mutex, Uniform, RunsWf, Refers, Streams, Routines, Linked, Quiescent, Fence, HostOf, Slots,
      Custody, CancelOf, JoinOf, Carries, Within, Want, Evolves, MintedGrows, OthersRely;
    MutexDrop(s.threads, t);
    ShapeDrop(s.threads, s.nextThread, s.host, t);
    StreamsDrop(s.runs, s.threads, t);
    RoutinesDrop(s.reg, s.runs, s.past, s.threads, s1.reg, s1.past, t);
    HostThreadDrop(s.threads, s.host, t);
  }

  /** A command that returns without changing anything. */
  lemma LeaveKeeps(s: System, t: nat, th: Thread)
    requires Ready(s, t, th) && !th.join.pc.JPut?
    requires s.host == Some(t) ==> Answered(s, None)
    ensures Inv(End(s, t))
  {
    hide ShapeOf, Shape, Mutex, Uniform, RunsWf, Refers, Streams, Routines, Linked, Quiescent, Fence, HostOf, Slots,
      Custody, CancelOf, JoinOf, Carries, Within, Want, Evolves;
    EndKeeps(s, t, th, s);
  }

  lemma FullHeld(th: Thread, lock: Lock)
    requires th.lk == |Want(th)| && lock in Want(th)
    ensures lock in Held(th)
  {
    assert Held(th) == Base(th) + Want(th);
  }

  // ---------- an entry leaves the active registry ----------

  /** While a thread holds A, no other cancel relies on the active registry. */
  lemma OthersActive(s: System, t: nat, active: ActiveMap)
    requires Mutex(s.threads) && t in s.threads && A in Held(s.threads[t])
    ensures OthersRely(s.reg, s.reg.(active := active), s.threads, t)
  {
    hide Mutex, Held;
    forall u | u in s.threads && u != t
      ensures CancelRely(s.reg, s.reg.(active := active), s.threads[u].cancel)
    {
      HolderExcludes(s.threads, t, u);
    }
  }

  lemma RemoveShared(s: System, op: Token)
    requires SharedOk(s)
    ensures SharedOk(SetActive(s, s.reg.active - {op}))
  {
  }

  lemma RemoveAnswered(s: System, op: Token, r: RunId, ht: Option<Thread>)
    requires Answered(s, ht) && r < |s.runs| && s.runs[r].Settled()
    requires op in s.reg.active ==> s.reg.active[op].run == r
    requires op in s.reg.pending ==> s.reg.pending[op].cancelled || HostBegun(ht, op)
    ensures Answered(SetActive(s, s.reg.active - {op}), ht)
  {
    hide HostBegun, HostDoomed, HostSlot, HostOwns;
    var reg := s.reg.(active := s.reg.active - {op});
    forall q | 0 <= q < |s.runs| && !s.runs[q].Settled() ensures Owned(reg, ht, s.runs[q], q) {
      assert Owned(s.reg, ht, s.runs[q], q);
    }
  }
}
