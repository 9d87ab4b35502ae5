/** What a change of one thread, one run or one registry entry leaves intact. */
module CodexFrames {
  import opened Options
  import opened CodexTypes
  import opened CodexProtocol
  import opened CodexInvariant

  // ---------- threads ----------

  /** The new program point carries only locks that were held before. */
  ghost predicate Within(th: Thread, th': Thread) {
    forall lock :: lock in Held(th') ==> lock in Held(th)
  }

  lemma MutexPut(threads: Threads, t: nat, th': Thread)
    requires Mutex(threads) && t in threads && Within(threads[t], th')
    ensures Mutex(threads[t := th'])
  {
  }

  lemma MutexDrop(threads: Threads, t: nat)
    requires Mutex(threads)
    ensures Mutex(threads - {t})
  {
  }

  lemma ShapePut(threads: Threads, next: nat, host: Option<nat>, t: nat, th': Thread)
    requires Shape(threads, next, host) && ShapeOf(t, th', next, host)
    ensures Shape(threads[t := th'], next, host)
  {
  }

  /** A thread enters a host operation while nobody else is inside one. */
  lemma ShapeEnter(threads: Threads, next: nat, t: nat, th': Thread)
    requires Shape(threads, next, None) && ShapeOf(t, th', next, Some(t))
    ensures Shape(threads[t := th'], next, Some(t))
  {
  }

  lemma ShapeDrop(threads: Threads, next: nat, host: Option<nat>, t: nat)
    requires Shape(threads, next, host) && t in threads
    ensures Shape(threads - {t}, next, if host == Some(t) then None else host)
  {
    if host == Some(t) {
      forall u | u in threads && u != t ensures ShapeOf(u, threads[u], next, None) {
        assert ShapeOf(u, threads[u], next, host);
      }
    }
  }

  lemma HostThreadPut(threads: Threads, host: Option<nat>, t: nat, th': Thread)
    ensures HostThread(threads[t := th'], host) ==
      if host == Some(t) then Some(th') else HostThread(threads, host)
  {
  }

  lemma HostThreadDrop(threads: Threads, host: Option<nat>, t: nat)
    ensures HostThread(threads - {t}, if host == Some(t) then None else host) ==
      if host == Some(t) then None else HostThread(threads, host)
  {
  }

  // ---------- runs ----------

  /** A run only ever moves towards being settled. */
  predicate RunEvolves(a: Run, b: Run) {
    && b.token == a.token && b.slot == a.slot
    && (b.alive ==> a.alive) && (b.artifact ==> a.artifact)
    && (a.stdout.Done? ==> b.stdout == a.stdout)
    && (a.stderr.Done? ==> b.stderr == a.stderr)
  }

  ghost predicate Evolves(runs: seq<Run>, runs': seq<Run>) {
    |runs| <= |runs'| && forall r :: 0 <= r < |runs| ==> RunEvolves(runs[r], runs'[r])
  }

  lemma EvolvesOne(runs: seq<Run>, r: RunId, run: Run)
    requires r < |runs| && RunEvolves(runs[r], run)
    ensures Evolves(runs, runs[r := run])
  {
  }

  lemma EvolvesSelf(runs: seq<Run>)
    ensures Evolves(runs, runs)
  {
  }

  lemma RunsWfOne(runs: seq<Run>, prepared: LeaseMap, minted: map<Token, nat>, r: RunId, run: Run)
    requires RunsWf(runs, prepared, minted) && r < |runs|
    requires RunWf(run, prepared, minted) && run.token == runs[r].token
    ensures RunsWf(runs[r := run], prepared, minted)
  {
  }

  lemma RefersOne(reg: Registries, runs: seq<Run>, r: RunId, run: Run)
    requires Refers(reg, runs) && r < |runs| && RunEvolves(runs[r], run)
    ensures Refers(reg, runs[r := run])
  {
  }

  // ---------- streams ----------

  lemma StreamsPut(runs: seq<Run>, threads: Threads, t: nat, th': Thread)
    requires Streams(runs, threads) && t in threads
    requires !threads[t].join.pc.JPut? && !th'.join.pc.JPut?
    ensures Streams(runs, threads[t := th'])
  {
  }

  lemma StreamsDrop(runs: seq<Run>, threads: Threads, t: nat)
    requires Streams(runs, threads) && t in threads && !threads[t].join.pc.JPut?
    ensures Streams(runs, threads - {t})
  {
  }

  lemma StreamsOne(runs: seq<Run>, threads: Threads, r: RunId, run: Run)
    requires Streams(runs, threads) && r < |runs|
    requires run.stdout == runs[r].stdout && run.stderr == runs[r].stderr
    ensures Streams(runs[r := run], threads)
  {
    var runs' := runs[r := run];
    assert forall q, out :: 0 <= q < |runs| ==> runs'[q].StreamOf(out) == runs[q].StreamOf(out);
  }

  // ---------- routines ----------

  /** What a cancel in another thread relies on. */
  predicate CancelRely(reg: Registries, reg': Registries, k: CancelFrame) {
    && (k.pc.KFlag? || PastFlag(k.pc) ==>
          k.op in reg.active ==> k.op in reg'.active && reg'.active[k.op] == reg.active[k.op])
    && (PastFlag(k.pc) ==> k.op in reg'.pending ==>
          k.op in reg.pending && (reg.pending[k.op].cancelled ==> reg'.pending[k.op].cancelled))
    && (k.pc.KLease? || k.pc.KPend? ==> k.op in reg'.active ==> k.op in reg.active)
    && (k.pc.KPend? && k.armed ==> k.op in reg'.prepared ==> k.op in reg.prepared)
  }

  ghost predicate OthersRely(reg: Registries, reg': Registries, threads: Threads, t: nat) {
    forall u :: u in threads && u != t ==> CancelRely(reg, reg', threads[u].cancel)
  }

  ghost predicate MintedGrows(past: History, past': History) {
    forall op :: op in past.minted ==> op in past'.minted && past'.minted[op] == past.minted[op]
  }

  lemma CancelStable(
    reg: Registries, runs: seq<Run>, past: History, reg': Registries, runs': seq<Run>, past': History, k: CancelFrame)
    requires CancelOf(reg, runs, past, k)
    requires Evolves(runs, runs') && MintedGrows(past, past') && CancelRely(reg, reg', k)
    ensures CancelOf(reg', runs', past', k)
  {
    if k.run < |runs| {
      assert RunEvolves(runs[k.run], runs'[k.run]);
    }
  }

  lemma JoinStable(runs: seq<Run>, runs': seq<Run>, th: Thread)
    requires JoinOf(runs, th) && Evolves(runs, runs')
    ensures JoinOf(runs', th)
  {
    if JoinSite(th) {
      assert RunEvolves(runs[JoinRun(th)], runs'[JoinRun(th)]);
    }
  }

  lemma RoutinesPut(
    reg: Registries, runs: seq<Run>, past: History, threads: Threads,
    reg': Registries, runs': seq<Run>, past': History, t: nat, th': Thread)
    requires Routines(reg, runs, past, threads)
    requires Evolves(runs, runs') && MintedGrows(past, past') && OthersRely(reg, reg', threads, t)
    requires CancelOf(reg', runs', past', th'.cancel) && JoinOf(runs', th')
    ensures Routines(reg', runs', past', threads[t := th'])
  {
    hide CancelOf, JoinOf, Evolves, MintedGrows, CancelRely;
    forall u | u in threads && u != t
      ensures CancelOf(reg', runs', past', threads[u].cancel) && JoinOf(runs', threads[u])
    {
      CancelStable(reg, runs, past, reg', runs', past', threads[u].cancel);
      JoinStable(runs, runs', threads[u]);
    }
  }

  lemma RoutinesDrop(
    reg: Registries, runs: seq<Run>, past: History, threads: Threads,
    reg': Registries, past': History, t: nat)
    requires Routines(reg, runs, past, threads)
    requires MintedGrows(past, past') && OthersRely(reg, reg', threads, t)
    ensures Routines(reg', runs, past', threads - {t})
  {
    hide CancelOf, JoinOf, Evolves, MintedGrows, CancelRely;
    EvolvesSelf(runs);
    forall u | u in threads && u != t
      ensures CancelOf(reg', runs, past', threads[u].cancel) && JoinOf(runs, threads[u])
    {
      CancelStable(reg, runs, past, reg', runs, past', threads[u].cancel);
    }
  }

  lemma CancelHolds(th: Thread)
    requires !th.cancel.pc.KNone? && !th.cancel.pc.KLook?
    ensures A in Held(th)
  {
    assert CancelBase(th.cancel.pc)[0] == A;
    assert Base(th)[|MainBase(th.main)|] == A;
    assert Held(th)[|MainBase(th.main)|] == A;
  }

  lemma SpawnHolds(th: Thread)
    requires th.main.ExSpawn?
    ensures A in Held(th) && P in Held(th)
  {
    assert MainBase(th.main)[1] == A && MainBase(th.main)[2] == P;
    assert Base(th)[1] == A && Base(th)[2] == P;
    assert Held(th)[1] == A && Held(th)[2] == P;
  }

  /** The holder of A keeps every other cancel before its first look at the registries. */
  lemma HolderExcludes(threads: Threads, t: nat, u: nat)
    requires Mutex(threads) && t in threads && u in threads && u != t && A in Held(threads[t])
    ensures threads[u].cancel.pc.KNone? || threads[u].cancel.pc.KLook?
    ensures !threads[u].main.ExSpawn?
  {
    hide Held;
    assert Apart(threads[t], threads[u]);
    if !threads[u].cancel.pc.KNone? && !threads[u].cancel.pc.KLook? {
      CancelHolds(threads[u]);
    }
    if threads[u].main.ExSpawn? {
      SpawnHolds(threads[u]);
    }
  }

  /** The holder of P keeps a spawn reservation out. */
  lemma PendingExcludes(threads: Threads, t: nat, u: nat)
    requires Mutex(threads) && t in threads && u in threads && u != t && P in Held(threads[t])
    ensures !threads[u].main.ExSpawn?
  {
    hide Held;
    assert Apart(threads[t], threads[u]);
    if threads[u].main.ExSpawn? {
      SpawnHolds(threads[u]);
    }
  }

  // ---------- the host thread ----------

  /** The registries that the host thread stays responsible for are not fewer. */
  ghost predicate Covers(th: Thread, th': Thread) {
    && (Begun(th) ==> Begun(th') && th'.op == th.op)
    && (th.main.ExTake? || (th.main.ExFinish? && !th.res) ==>
          th'.main.ExTake? || (th'.main.ExFinish? && !th'.res))
    && (th.main.UxSpawn? || th.main.UxUnslot? || (RunMain(th.main) && !th.scoped) ==>
          (th'.main.UxSpawn? || th'.main.UxUnslot? || (RunMain(th'.main) && !th'.scoped)) && th'.slot == th.slot)
    && (RetryLoop(th.main) ==> RetryLoop(th'.main) && th'.host.cands == th.host.cands)
    && (RunMain(th.main) ==> RunMain(th'.main) && th'.run == th.run)
  }

  lemma CoversKeeps(reg: Registries, count: Counters, runs: seq<Run>, past: History, th: Thread, th': Thread)
    requires Covers(th, th')
    requires Quiescent(reg, Some(th)) && Fence(reg, past, Some(th))
    requires Slots(reg.slots, count, Some(th)) && Custody(reg, runs, Some(th))
    ensures Quiescent(reg, Some(th')) && Fence(reg, past, Some(th'))
    ensures Slots(reg.slots, count, Some(th')) && Custody(reg, runs, Some(th'))
  {
    forall r | 0 <= r < |runs| && !runs[r].Settled() ensures Owned(reg, Some(th'), runs[r], r) {
      assert Owned(reg, Some(th), runs[r], r);
    }
  }

  lemma CustodyEvolves(reg: Registries, runs: seq<Run>, r: RunId, run: Run, ht: Option<Thread>)
    requires Custody(reg, runs, ht) && r < |runs| && RunEvolves(runs[r], run)
    ensures Custody(reg, runs[r := run], ht)
  {
    var runs' := runs[r := run];
    forall q | 0 <= q < |runs'| && !runs'[q].Settled() ensures Owned(reg, ht, runs'[q], q) {
      assert Owned(reg, ht, runs[q], q);
    }
  }
}
