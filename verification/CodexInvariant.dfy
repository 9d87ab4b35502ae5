/** The inductive invariant of the protocol, one named conjunct per concern. Each
    conjunct speaks only of the parts of the state that it depends on. */
module CodexInvariant {
  import opened Options
  import opened CodexTypes
  import opened CodexProtocol

  type Threads = map<nat, Thread>

  // ---------- classification of program points ----------

  /** A worker between drawing its operation generation and finishing the operation. */
  predicate Begun(th: Thread) {
    th.main.ExTake? || th.main.ExPre? || th.main.ExReserve? || th.main.ExSpawn? || th.main.ExFinish?
    || (RunMain(th.main) && th.scoped)
  }

  predicate Worker(th: Thread) {
    Begun(th) || th.main.ExLookup? || th.main.ExExpire? || th.main.ExBegin?
  }

  predicate TeardownMain(m: Main) {
    m.TdSnap? || m.TdCancel? || m.TdWait? || m.TdCheck? || m.TdPend? || m.TdPrep? || m.TdBump?
  }

  predicate RetryLoop(m: Main) {
    m.RtEach? || m.RtWait?
  }

  /** The points at which a thread has called, or has just come back from, the join. */
  predicate JoinSite(th: Thread) {
    if !th.cancel.pc.KNone? then th.cancel.pc.KOut? || th.cancel.pc.KErr?
    else if !th.clean.pc.CNone? then th.clean.pc.COut? || th.clean.pc.CErr?
    else th.main.RunOut? || th.main.RunErr?
  }

  predicate JoinSiteStdout(th: Thread) {
    if !th.cancel.pc.KNone? then th.cancel.pc.KOut?
    else if !th.clean.pc.CNone? then th.clean.pc.COut?
    else th.main.RunOut?
  }

  predicate Good(x: Stream) {
    x.Done? && !x.failed
  }

  /** Past the flag, a cancel owns the cleanup of the active child. */
  predicate PastFlag(pc: CancelPc) {
    pc.KKill? || pc.KOut? || pc.KErr? || pc.KTerm? || pc.KDrop?
  }

  // ---------- threads and locks ----------

  predicate ShapeOf(t: nat, th: Thread, next: nat, host: Option<nat>) {
    && t < next
    && th.lk <= |Want(th)|
    && (InHost(th.main) <==> host == Some(t))
    && !th.main.ExRecover?
    && (!th.cancel.pc.KNone? ==> (th.main.CancelOnly? || th.main.TdWait?) && th.clean.pc.CNone?)
    && (!th.clean.pc.CNone? ==> th.main.RunAbort? || th.main.RunFinal? || th.main.RtWait?)
    && (!th.join.pc.JNone? ==> JoinSite(th) && th.join.out == JoinSiteStdout(th))
    && (th.main.RtWait? ==> !th.scoped)
    && (th.clean.pc.CUnreg? ==> th.scoped)
    && (th.clean.pc.CUnslot? || th.clean.pc.CRetain? ==> !th.scoped)
  }

  ghost predicate Shape(threads: Threads, next: nat, host: Option<nat>) {
    && (forall t :: t in threads ==> ShapeOf(t, threads[t], next, host))
    && (host.Some? ==> host.value in threads)
  }

  ghost predicate Apart(th: Thread, other: Thread) {
    forall lock :: lock in Held(th) ==> lock !in Held(other)
  }

  ghost predicate Mutex(threads: Threads) {
    forall t, u :: t in threads && u in threads && t != u ==> Apart(threads[t], threads[u])
  }

  // ---------- registries and runs ----------

  /** Every entry carries the current session, which is the one its token was made for. */
  ghost predicate Uniform(reg: Registries, count: Counters, past: History) {
    && (forall op :: op in reg.prepared ==>
          op in past.minted && reg.prepared[op] == Lease(count.session, false) && past.minted[op] == count.session)
    && (forall op :: op in reg.pending ==>
          op in past.minted && reg.pending[op].session == past.minted[op] == count.session)
    && (forall op :: op in reg.active ==>
          op in past.minted && reg.active[op].session == past.minted[op] == count.session)
    && (forall op :: op in past.minted ==> op < count.operation && past.minted[op] != 0)
    && (forall op :: op in past.fenced ==> op in past.minted)
  }

  ghost predicate Unspawned(runs: seq<Run>, op: Token) {
    forall r :: 0 <= r < |runs| ==> runs[r].token != Some(op)
  }

  predicate RunWf(run: Run, prepared: LeaseMap, minted: map<Token, nat>) {
    && (run.token.Some? ==> run.token.value in minted && run.token.value !in prepared)
    && (!run.handle ==> !run.alive)
    && (!run.artifact ==> run.Joined())
  }

  /** Each token has led to at most one run, and is not prepared any more. */
  ghost predicate RunsWf(runs: seq<Run>, prepared: LeaseMap, minted: map<Token, nat>) {
    && (forall r :: 0 <= r < |runs| ==> RunWf(runs[r], prepared, minted))
    && (forall q, r :: 0 <= q < r < |runs| && runs[q].token.Some? ==> runs[q].token != runs[r].token)
  }

  /** The registries refer to runs of their own kind. */
  ghost predicate Refers(reg: Registries, runs: seq<Run>) {
    && (forall op :: op in reg.active ==>
          reg.active[op].run < |runs| && runs[reg.active[op].run].token == Some(op))
    && (forall key :: key in reg.slots && reg.slots[key].Retained? ==>
          && reg.slots[key].run < |runs| && runs[reg.slots[key].run].token.None?
          && runs[reg.slots[key].run].slot == key)
  }

  /** One owner per stream: the reader is in its slot, with the one thread that took it
      out, or joined. */
  ghost predicate Streams(runs: seq<Run>, threads: Threads) {
    && (forall t :: t in threads && threads[t].join.pc.JPut? ==>
          && JoinRun(threads[t]) < |runs|
          && runs[JoinRun(threads[t])].StreamOf(threads[t].join.out) == Taken(t))
    && (forall r, out :: 0 <= r < |runs| && runs[r].StreamOf(out).Taken? ==>
          var t := runs[r].StreamOf(out).joiner;
          && t in threads && threads[t].join.pc.JPut?
          && JoinRun(threads[t]) == r && threads[t].join.out == out)
  }

  /** An active child and a pending entry of the same token belong together; the pending
      entry can only be missing once a teardown has dropped it. */
  ghost predicate Linked(reg: Registries, past: History) {
    && (forall op :: op in reg.active && op in reg.pending ==>
          reg.active[op].generation == reg.pending[op].generation)
    && (!past.dropped ==> forall op :: op in reg.active ==> op in reg.pending)
  }

  // ---------- routines of every thread ----------

  predicate CancelOf(reg: Registries, runs: seq<Run>, past: History, k: CancelFrame) {
    var run := RunIn(runs, k.run);
    && (!k.pc.KNone? && k.armed ==> k.op in past.minted && past.minted[k.op] == k.session)
    && (k.pc.KFlag? || PastFlag(k.pc) ==>
          && k.op in reg.active && reg.active[k.op].session == k.session
          && reg.active[k.op].run == k.run < |runs|)
    && (PastFlag(k.pc) ==> k.op in reg.pending ==> reg.pending[k.op].cancelled)
    && (PastFlag(k.pc) && !k.pc.KKill? ==> !run.alive)
    && (k.pc.KErr? && !k.failed ==> Good(run.stdout))
    && (k.pc.KTerm? && !k.failed ==> Good(run.stdout) && Good(run.stderr))
    && (k.pc.KDrop? ==> run.Settled())
    && (k.pc.KLease? || k.pc.KPend? ==> k.op !in reg.active)
    && (k.pc.KPend? && k.armed ==> k.op !in reg.prepared)
  }

  predicate JoinOf(runs: seq<Run>, th: Thread) {
    JoinSite(th) ==>
      && JoinRun(th) < |runs|
      && (th.join.pc.JNone? && th.join.ok ==> Good(runs[JoinRun(th)].StreamOf(JoinSiteStdout(th))))
  }

  ghost predicate Routines(reg: Registries, runs: seq<Run>, past: History, threads: Threads) {
    forall t :: t in threads ==>
      CancelOf(reg, runs, past, threads[t].cancel) && JoinOf(runs, threads[t])
  }

  // ---------- the thread inside a host operation ----------

  /** The thread inside a host operation, if there is one. */
  function HostThread(threads: Threads, host: Option<nat>): Option<Thread> {
    if host.Some? && host.value in threads then Some(threads[host.value]) else None
  }

  predicate HostBegun(ht: Option<Thread>, op: Token) {
    ht.Some? && Begun(ht.value) && ht.value.op == op
  }

  ghost predicate Quiescent(reg: Registries, ht: Option<Thread>) {
    forall op :: op in reg.pending ==>
      reg.pending[op].cancelled || op in reg.active || HostBegun(ht, op)
  }

  predicate HostDoomed(ht: Option<Thread>, op: Token) {
    HostBegun(ht, op) && (ht.value.main.ExTake? || (ht.value.main.ExFinish? && !ht.value.res))
  }

  /** After a cancel has returned, the lease is gone and whatever is still pending is
      flagged, or belongs to an execution that can no longer succeed. */
  ghost predicate Fence(reg: Registries, past: History, ht: Option<Thread>) {
    forall op :: op in past.fenced ==>
      && op !in reg.prepared
      && (op in reg.pending ==> reg.pending[op].cancelled || (op !in reg.active && HostDoomed(ht, op)))
  }

  predicate CancelledOp(reg: Registries, op: Token) {
    op in reg.pending && reg.pending[op].cancelled
  }

  /** Another thread has touched the readers of a worker run only if the operation is
      flagged as cancelled. */
  predicate Untouched(reg: Registries, runs: seq<Run>, h: nat, th: Thread, out: bool) {
    var x := RunIn(runs, th.run).StreamOf(out);
    x.InSlot? || x.joiner == h || (th.scoped && CancelledOp(reg, th.op))
  }

  predicate Returned(th: Thread) {
    th.clean.pc.CNone? && (th.main.RunAbort? || th.main.RunFinal?)
  }

  ghost predicate WorkerOf(reg: Registries, count: Counters, runs: seq<Run>, past: History, th: Thread) {
    && (Worker(th) ==> th.session == count.session)
    && (Begun(th) ==>
          && th.op in reg.pending && reg.pending[th.op].generation == th.generation
          && (!th.main.ExTake? ==> th.op !in reg.prepared))
    && (th.main.ExBegin? ==> th.op in past.minted && past.minted[th.op] == th.session)
    && (th.main.ExSpawn? ==> !reg.pending[th.op].cancelled && th.op !in reg.active)
    && (th.main.ExBegin? || th.main.ExTake? || th.main.ExPre? || th.main.ExReserve? || th.main.ExSpawn? ==>
          Unspawned(runs, th.op))
  }

  predicate ScopedRunOf(reg: Registries, runs: seq<Run>, th: Thread) {
    RunMain(th.main) && th.scoped ==>
      && th.run < |runs| && runs[th.run].token == Some(th.op)
      && (th.op in reg.active ==> reg.active[th.op] == ActiveChild(th.session, th.generation, th.run))
      && (th.op !in reg.active ==>
            runs[th.run].Settled() && (CancelledOp(reg, th.op) || (Returned(th) && th.clean.ok)))
  }

  predicate UnscopedRunOf(slots: SlotMap, runs: seq<Run>, th: Thread) {
    RunMain(th.main) && !th.scoped ==>
      && th.run < |runs| && runs[th.run].token.None? && runs[th.run].slot == th.slot
      && (if Returned(th) then
            if th.clean.ok then th.slot !in slots && runs[th.run].Settled()
            else th.slot in slots && slots[th.slot] == Retained(th.run)
          else th.slot in slots && slots[th.slot].Reserved?)
  }

  predicate RunStageOf(reg: Registries, runs: seq<Run>, h: nat, th: Thread) {
    var run := RunIn(runs, th.run);
    && (RunMain(th.main) ==> Untouched(reg, runs, h, th, true) && Untouched(reg, runs, h, th, false))
    && (th.main.RunErr? || th.main.RunRead? || th.main.RunFinal? ==> Good(run.stdout))
    && (th.main.RunRead? || th.main.RunFinal? ==> Good(run.stderr))
    && (Returned(th) && th.clean.ok ==> run.Settled() && (th.scoped ==> th.op !in reg.active))
    && (th.main.ExFinish? && th.res ==>
          && th.op !in reg.active && th.scoped && th.run < |runs| && run.token == Some(th.op) && run.Settled()
          && Untouched(reg, runs, h, th, true) && Untouched(reg, runs, h, th, false))
  }

  predicate CleanOf(runs: seq<Run>, th: Thread) {
    var run := RunIn(runs, th.run);
    && (!th.clean.pc.CNone? && !th.clean.pc.CTerm? && !th.clean.pc.CRetain? ==> !run.alive)
    && (th.clean.pc.CErr? && !th.clean.failed ==> Good(run.stdout))
    && (th.clean.pc.CArt? && !th.clean.failed ==> Good(run.stdout) && Good(run.stderr))
    && (th.clean.pc.CUnreg? || th.clean.pc.CUnslot? ==> run.Settled())
  }

  ghost predicate InCands(cands: seq<(nat, RunId)>, key: nat) {
    exists i :: 0 <= i < |cands| && cands[i].0 == key
  }

  /** A retained owner that is waiting for its turn. */
  predicate CandOf(slots: SlotMap, runs: seq<Run>, cand: (nat, RunId)) {
    && cand.1 < |runs| && runs[cand.1].token.None? && runs[cand.1].slot == cand.0
    && cand.0 in slots && slots[cand.0].Retrying?
  }

  ghost predicate RetryOf(slots: SlotMap, runs: seq<Run>, th: Thread) {
    var cands := th.host.cands;
    RetryLoop(th.main) ==>
      && (forall i :: (if th.main.RtWait? then 1 else 0) <= i < |cands| ==> CandOf(slots, runs, cands[i]))
      && (forall i, j :: 0 <= i < j < |cands| ==> cands[i].0 != cands[j].0)
      && (!th.host.failed ==> forall key :: key in slots ==> InCands(cands, key))
  }

  ghost predicate RetryWaitOf(slots: SlotMap, runs: seq<Run>, th: Thread) {
    th.main.RtWait? ==>
      && th.host.cands != [] && th.host.cands[0] == (th.slot, th.run)
      && th.run < |runs| && runs[th.run].token.None? && runs[th.run].slot == th.slot
      && (if th.clean.pc.CNone? then
            if th.clean.ok then th.slot !in slots && runs[th.run].Settled()
            else th.slot in slots && slots[th.slot] == Retained(th.run)
          else CandOf(slots, runs, (th.slot, th.run)))
  }

  ghost predicate InTodo(todo: seq<(Token, nat)>, op: Token) {
    exists i :: 0 <= i < |todo| && todo[i].0 == op
  }

  ghost predicate TeardownOf(reg: Registries, session: nat, th: Thread) {
    TeardownMain(th.main) ==>
      && reg.slots == map[]
      && (th.main.TdCancel? || th.main.TdWait? ==>
            && (forall i :: 0 <= i < |th.host.todo| ==> th.host.todo[i].1 == session)
            && (forall op :: op in reg.active && op in reg.pending ==>
                  reg.pending[op].cancelled || InTodo(th.host.todo, op)))
      && (th.main.TdWait? ==>
            && th.host.todo != [] && th.host.todo[0] == (th.cancel.op, th.cancel.session)
            && (th.cancel.pc.KNone? && th.cancel.op in reg.active && th.cancel.op in reg.pending ==>
                  reg.pending[th.cancel.op].cancelled))
      && (th.main.TdCheck? || th.main.TdPend? ==>
            forall op :: op in reg.active && op in reg.pending ==> reg.pending[op].cancelled)
      && (th.main.TdPend? && !th.host.errors ==> reg.active == map[])
      && (th.main.TdPrep? || th.main.TdBump? ==> reg.active == map[] && reg.pending == map[])
      && (th.main.TdBump? ==> reg.prepared == map[])
  }

  predicate OtherHostOf(reg: Registries, count: Counters, past: History, th: Thread) {
    && (th.main.PrepToken? || th.main.PrepInsert? ==> th.session == count.session != 0)
    && (th.main.PrepInsert? ==> th.op < count.operation && th.op !in past.minted)
    && (th.main.UxSlot? ==> reg.slots == map[])
    && (th.main.UxSpawn? || th.main.UxUnslot? ==> th.slot in reg.slots && reg.slots[th.slot].Reserved?)
  }

  ghost predicate HostOf(reg: Registries, count: Counters, runs: seq<Run>, past: History, h: nat, th: Thread) {
    && WorkerOf(reg, count, runs, past, th) && ScopedRunOf(reg, runs, th) && UnscopedRunOf(reg.slots, runs, th)
    && RunStageOf(reg, runs, h, th) && CleanOf(runs, th)
    && RetryOf(reg.slots, runs, th) && RetryWaitOf(reg.slots, runs, th)
    && TeardownOf(reg, count.session, th) && OtherHostOf(reg, count, past, th)
  }

  ghost predicate HostFacts(
    reg: Registries, count: Counters, runs: seq<Run>, past: History, threads: Threads, host: Option<nat>)
  {
    host.Some? && host.value in threads ==> HostOf(reg, count, runs, past, host.value, threads[host.value])
  }

  /** A slot that is not retained belongs to the host operation that is working on it. */
  ghost predicate HostSlot(ht: Option<Thread>, key: nat) {
    && ht.Some?
    && var th := ht.value;
       || ((th.main.UxSpawn? || th.main.UxUnslot? || (RunMain(th.main) && !th.scoped)) && th.slot == key)
       || (RetryLoop(th.main) && InCands(th.host.cands, key))
  }

  ghost predicate Slots(slots: SlotMap, count: Counters, ht: Option<Thread>) {
    && |slots| <= 1
    && (forall key :: key in slots ==> key < count.slot && (slots[key].Retained? || HostSlot(ht, key)))
  }

  // ---------- custody of the runs ----------

  ghost predicate WorkingOn(th: Thread, r: RunId) {
    || (RunMain(th.main) && th.run == r)
    || (RetryLoop(th.main) && exists i :: 0 <= i < |th.host.cands| && th.host.cands[i].1 == r)
  }

  ghost predicate HostOwns(ht: Option<Thread>, r: RunId) {
    ht.Some? && WorkingOn(ht.value, r)
  }

  /** Who answers for a run that is not settled: the active registry, a recovery slot, or
      the host operation in progress. */
  ghost predicate Owned(reg: Registries, ht: Option<Thread>, run: Run, r: RunId) {
    || (run.token.Some? && run.token.value in reg.active && reg.active[run.token.value].run == r)
    || (run.token.None? && run.slot in reg.slots && reg.slots[run.slot] == Retained(r))
    || HostOwns(ht, r)
  }

  ghost predicate Custody(reg: Registries, runs: seq<Run>, ht: Option<Thread>) {
    forall r :: 0 <= r < |runs| ==> runs[r].Settled() || Owned(reg, ht, runs[r], r)
  }

  ghost predicate Inv(s: System) {
    var ht := HostThread(s.threads, s.host);
    && Shape(s.threads, s.nextThread, s.host) && Mutex(s.threads)
    && Uniform(s.reg, s.count, s.past)
    && RunsWf(s.runs, s.reg.prepared, s.past.minted) && Refers(s.reg, s.runs)
    && Streams(s.runs, s.threads) && Routines(s.reg, s.runs, s.past, s.threads)
    && Linked(s.reg, s.past) && Quiescent(s.reg, ht) && Fence(s.reg, s.past, ht)
    && HostFacts(s.reg, s.count, s.runs, s.past, s.threads, s.host)
    && Slots(s.reg.slots, s.count, ht) && Custody(s.reg, s.runs, ht)
  }
}
