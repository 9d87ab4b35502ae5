/** Runs without a token, the retry of retained owners, and the session commands. */
module CodexHostSteps {
  import opened Options
  import opened CodexTypes
  import opened CodexRegistry
  import opened CodexProtocol
  import opened CodexInvariant
  import opened CodexFrames
  import opened CodexMoves
  import opened CodexJoinSteps
  import opened CodexCleanSteps
  import opened CodexCommandSteps
  import opened CodexWorkerSteps

  /** A host thread moves on after a critical section that leaves the runs alone. */
  lemma HostStep(s: System, t: nat, th: Thread, th': Thread, s1: System)
    requires Ready(s, t, th) && AtMain(th) && s.host == Some(t) && InHost(th'.main)
    requires Fits(s, t, th, th') && !th'.join.pc.JPut?
    requires SameThreads(s, s1) && SharedOk(s1) && s1.runs == s.runs
    requires MintedGrows(s.past, s1.past) && OthersRely(s.reg, s1.reg, s.threads, t)
    requires CancelOf(s1.reg, s1.runs, s1.past, th'.cancel) && JoinOf(s1.runs, th')
    requires HostOf(s1.reg, s1.count, s1.runs, s1.past, t, th') && Answered(s1, Some(th'))
    ensures Inv(Put(s1, t, th'))
  {
    hide Inv, ShapeOf, HostOf, CancelOf, JoinOf, Want, Fits, SharedOk, MintedGrows, OthersRely, Answered, Streams,
      Evolves;
    Parts(s);
    StreamsPut(s.runs, s.threads, t, th');
    EvolvesSelf(s.runs);
    StepKeeps(s, t, th, th', s1);
  }

  // ---------- runs without a token ----------

  function WithSlot(s: System): System {
    SetSlots(s, s.reg.slots[s.count.slot := Reserved]).(count := s.count.(slot := s.count.slot + 1))
  }

  function SlotThread(s: System, th: Thread): Thread {
    th.(main := UxSpawn, slot := s.count.slot, lk := 0)
  }

  lemma SlotShape(s: System, th: Thread)
    requires SharedOk(s) && OtherHostOf(s.reg, s.count, s.past, th) && th.main.UxSlot?
    ensures SharedOk(WithSlot(s)) && ReserveSlot(s.reg.slots, s.count.slot) == Ok(WithSlot(s).reg.slots)
    ensures var s1 := WithSlot(s);
      WorkerOf(s1.reg, s1.count, s1.runs, s1.past, SlotThread(s, th))
      && OtherHostOf(s1.reg, s1.count, s1.past, SlotThread(s, th))
  {
    hide RunsWf, Unspawned;
  }

  lemma SlotAnswers(s: System, th: Thread)
    requires Answered(s, Some(th)) && OtherHostOf(s.reg, s.count, s.past, th) && th.main.UxSlot?
    ensures Answered(WithSlot(s), Some(SlotThread(s, th)))
  {
    var s1 := WithSlot(s);
    assert |s1.reg.slots| == 1;
    forall q | 0 <= q < |s.runs| && !s.runs[q].Settled()
      ensures Owned(s1.reg, Some(SlotThread(s, th)), s.runs[q], q)
    {
      assert Owned(s.reg, Some(th), s.runs[q], q);
    }
  }

  lemma SlotStepKeeps(s: System, t: nat, th: Thread)
    requires Ready(s, t, th) && th.main.UxSlot? && AtMain(th)
    ensures Inv(SlotStep(s, t, th, s.count.slot))
  {
    hide Inv, ShapeOf, HostOf, CancelOf, JoinOf, Want, WorkerOf, OtherHostOf, SharedOk, MintedGrows,
      OthersRely, Answered, CancelRely, HostFacts, ReserveSlot, Streams, Mutex;
    Parts(s);
    Facts(s, t, th);
    HostIn(s, t, th);
    StraightParts(s, t, th);
    SlotShape(s, th);
    SlotAnswers(s, th);
    OthersSlots(s, t, WithSlot(s).reg.slots);
    OthersSame(s, t);
    StraightStep(s, t, th, SlotThread(s, th), WithSlot(s));
  }

  lemma FreeSpawnHost(s: System, t: nat, th: Thread)
    requires OtherHostOf(s.reg, s.count, s.past, th) && th.main.UxSpawn? && AtMain(th)
    ensures HostOf(
      s.reg, s.count, s.runs + [Spawned(None, th.slot)], s.past, t, StartRun(th, RunStdin, |s.runs|, false))
  {
    var th' := StartRun(th, RunStdin, |s.runs|, false);
    var runs := s.runs + [Spawned(None, th.slot)];
    assert WorkerOf(s.reg, s.count, runs, s.past, th');
    assert CleanFacts(s.reg, runs, t, th');
    HostOfRunMain(s.reg, s.count, runs, s.past, t, th');
  }

  lemma FreeSpawnShared(s: System, slot: nat)
    requires SharedOk(s)
    ensures SharedOk(AddRun(s, Spawned(None, slot)))
  {
    hide Uniform, Linked;
  }

  lemma FreeSpawnAnswered(s: System, th: Thread)
    requires Answered(s, Some(th)) && th.main.UxSpawn?
    ensures Answered(AddRun(s, Spawned(None, th.slot)), Some(StartRun(th, RunStdin, |s.runs|, false)))
  {
    var th' := StartRun(th, RunStdin, |s.runs|, false);
    AddCustody(s, s.reg, Spawned(None, th.slot), Some(th), Some(th'));
    hide Custody, Owned;
  }

  lemma FreeFits(s: System, t: nat, th: Thread, r: RunId)
    requires ShapeOf(t, th, s.nextThread, s.host) && AtMain(th) && th.main.UxSpawn?
    ensures Fits(s, t, th, StartRun(th, RunStdin, r, false)) && PlainMain(StartRun(th, RunStdin, r, false))
  {
    assert Base(th)[0] == D;
  }

  lemma FreeSpawnKeeps(s: System, t: nat, th: Thread)
    requires Ready(s, t, th) && th.main.UxSpawn? && AtMain(th)
    ensures Inv(Put(AddRun(s, Spawned(None, th.slot)), t, StartRun(th, RunStdin, |s.runs|, false)))
  {
    hide Inv, ShapeOf, HostOf, CancelOf, JoinOf, Want, Streams, Mutex, HostFacts, Answered, OtherHostOf, WorkerOf,
      SharedOk, OthersRely, CancelRely, MintedGrows, Fits, Evolves, PlainMain;
    Parts(s);
    Facts(s, t, th);
    HostIn(s, t, th);
    StraightParts(s, t, th);
    var s1, th' := AddRun(s, Spawned(None, th.slot)), StartRun(th, RunStdin, |s.runs|, false);
    FreeSpawnShared(s, th.slot);
    StreamsPut(s.runs, s.threads, t, th');
    AddStreams(s, s.threads[t := th'], Spawned(None, th.slot));
    OthersSame(s, t);
    FreeSpawnHost(s, t, th);
    FreeSpawnAnswered(s, th);
    FreeFits(s, t, th, |s.runs|);
    PlainRoutines(s1, th');
    StepKeeps(s, t, th, th', s1);
  }

  lemma UnslotMove(s: System, t: nat, th: Thread)
    requires Ready(s, t, th) && th.main.UxSpawn? && AtMain(th)
    ensures Inv(Goto(s, t, th, UxUnslot))
  {
    hide Inv, ShapeOf, HostOf, CancelOf, JoinOf, Want;
    Facts(s, t, th);
    HostIn(s, t, th);
    StraightParts(s, t, th);
    StraightMove(s, t, th, At(th, UxUnslot));
  }

  lemma UnslotAnswered(s: System, th: Thread)
    requires Answered(s, Some(th)) && OtherHostOf(s.reg, s.count, s.past, th) && th.main.UxUnslot?
    ensures Answered(SetSlots(s, s.reg.slots - {th.slot}), None)
  {
    var s1 := SetSlots(s, s.reg.slots - {th.slot});
    assert |s1.reg.slots| <= |s.reg.slots|;
    forall q | 0 <= q < |s.runs| && !s.runs[q].Settled() ensures Owned(s1.reg, None, s.runs[q], q) {
      assert Owned(s.reg, Some(th), s.runs[q], q);
    }
  }

  lemma UnslotShared(s: System, slot: nat)
    requires SharedOk(s)
    ensures SharedOk(SetSlots(s, s.reg.slots - {slot}))
  {
    hide RunsWf;
  }

  lemma FreeUnslotKeeps(s: System, t: nat, th: Thread)
    requires Ready(s, t, th) && th.main.UxUnslot? && AtMain(th)
    ensures Inv(End(SetSlots(s, s.reg.slots - {th.slot}), t))
  {
    hide Inv, ShapeOf, HostOf, CancelOf, JoinOf, Want, SharedOk, Answered, Streams, Mutex, HostFacts, OthersRely,
      MintedGrows, CancelRely, OtherHostOf, WorkerOf;
    Parts(s);
    Facts(s, t, th);
    HostIn(s, t, th);
    StraightParts(s, t, th);
    UnslotShared(s, th.slot);
    UnslotAnswered(s, th);
    OthersSlots(s, t, s.reg.slots - {th.slot});
    OthersSame(s, t);
    EndKeeps(s, t, th, SetSlots(s, s.reg.slots - {th.slot}));
  }

  lemma EnterRetry(s: System, t: nat, th: Thread)
    requires AtMain(th)
    ensures HostOf(s.reg, s.count, s.runs, s.past, t, At(th, RtCollect))
  {
  }

  lemma UnscopedStepKeeps(s: System, t: nat, th: Thread, c: Choice)
    requires Ready(s, t, th) && UnscopedMain(th.main) && AtMain(th)
    ensures Inv(UnscopedStep(s, t, th, c))
  {
    hide Inv, HostOf, CancelOf, JoinOf, Want, SlotStep;
    match th.main
    case UxEnter =>
      EnterRetry(s, t, th);
      EnterKeeps(s, t, th, RtCollect);
    case UxSlot => SlotStepKeeps(s, t, th);
    case UxSpawn =>
      if c.ok {
        FreeSpawnKeeps(s, t, th);
      } else {
        UnslotMove(s, t, th);
      }
    case _ => FreeUnslotKeeps(s, t, th);
  }

  // ---------- retrying retained owners ----------

  function Collected(th: Thread, cands: seq<(nat, RunId)>): Thread {
    SetHost(th, RtEach, th.host.(cands := cands, failed := false))
  }

  predicate AllRetained(slots: SlotMap) {
    forall key :: key in slots ==> slots[key].Retained?
  }

  lemma CollectAll(s: System, th: Thread)
    requires Answered(s, Some(th)) && th.main.RtCollect?
    ensures AllRetained(s.reg.slots)
  {
    hide Quiescent, Fence, Custody;
  }

  lemma CollectRetry(s: System, th: Thread, cands: seq<(nat, RunId)>)
    requires AllRetained(s.reg.slots) && RetryCandidates(s.reg.slots, cands) && Refers(s.reg, s.runs)
    ensures RetryOf(StartRetry(s.reg.slots), s.runs, Collected(th, cands))
  {
    forall key | key in StartRetry(s.reg.slots) ensures InCands(cands, key) {
    }
  }

  lemma HostOfRetry(reg: Registries, count: Counters, runs: seq<Run>, past: History, h: nat, th: Thread)
    requires RetryLoop(th.main) && RetryOf(reg.slots, runs, th) && RetryWaitOf(reg.slots, runs, th)
    requires CleanOf(runs, th)
    ensures HostOf(reg, count, runs, past, h, th)
  {
    hide RetryOf, RetryWaitOf, CleanOf;
  }

  lemma CollectOwned(s: System, th: Thread, cands: seq<(nat, RunId)>, q: RunId)
    requires RetryCandidates(s.reg.slots, cands) && th.main.RtCollect?
    requires q < |s.runs| && Owned(s.reg, Some(th), s.runs[q], q)
    ensures Owned(s.reg.(slots := StartRetry(s.reg.slots)), Some(Collected(th, cands)), s.runs[q], q)
  {
    var run := s.runs[q];
    if run.token.None? && run.slot in s.reg.slots && s.reg.slots[run.slot] == Retained(q) {
      var i :| 0 <= i < |cands| && cands[i].0 == run.slot;
      assert cands[i].1 == q;
    }
  }

  lemma CollectAnswered(s: System, th: Thread, cands: seq<(nat, RunId)>)
    requires Answered(s, Some(th)) && th.main.RtCollect? && RetryCandidates(s.reg.slots, cands)
    requires AllRetained(s.reg.slots)
    ensures Answered(SetSlots(s, StartRetry(s.reg.slots)), Some(Collected(th, cands)))
  {
    var s1, th' := SetSlots(s, StartRetry(s.reg.slots)), Collected(th, cands);
    assert s1.reg.slots.Keys == s.reg.slots.Keys;
    assert |s1.reg.slots| == |s1.reg.slots.Keys|;
    forall q | 0 <= q < |s.runs| && !s.runs[q].Settled() ensures Owned(s1.reg, Some(th'), s.runs[q], q) {
      assert Owned(s.reg, Some(th), s.runs[q], q);
      CollectOwned(s, th, cands, q);
    }
    assert forall key :: key in s1.reg.slots ==> InCands(cands, key);
    hide Owned, HostOwns;
  }

  lemma CollectKeeps(s: System, t: nat, th: Thread, cands: seq<(nat, RunId)>)
    requires Ready(s, t, th) && th.main.RtCollect? && AtMain(th) && RetryCandidates(s.reg.slots, cands)
    ensures Inv(Put(SetSlots(s, StartRetry(s.reg.slots)), t, Collected(th, cands)))
  {
    hide Inv, ShapeOf, HostOf, CancelOf, JoinOf, Want, Uniform, RunsWf, Refers, Linked, Answered, Streams, Mutex,
      HostFacts, OthersRely, MintedGrows, CancelRely, Fits, RetryOf, RetryCandidates, AllRetained;
    var s1, th' := SetSlots(s, StartRetry(s.reg.slots)), Collected(th, cands);
    Parts(s);
    Facts(s, t, th);
    HostIn(s, t, th);
    SlotShared(s, s1.reg.slots);
    CollectAll(s, th);
    CollectRetry(s, th, cands);
    HostOfRetry(s1.reg, s1.count, s1.runs, s1.past, t, th');
    CollectAnswered(s, th, cands);
    FitsMain(s, t, th, th');
    PlainRoutines(s1, th');
    OthersSlots(s, t, s1.reg.slots);
    OthersSame(s, t);
    HostStep(s, t, th, th', s1);
  }

  lemma RetryParts(s: System, t: nat, th: Thread)
    requires HostOf(s.reg, s.count, s.runs, s.past, t, th)
    ensures RetryOf(s.reg.slots, s.runs, th) && RetryWaitOf(s.reg.slots, s.runs, th)
  {
    hide WorkerOf, ScopedRunOf, UnscopedRunOf, RunStageOf, CleanOf, RetryOf, RetryWaitOf, TeardownOf, OtherHostOf;
  }

  lemma NextFacts(s: System, th: Thread, th': Thread)
    requires RetryOf(s.reg.slots, s.runs, th) && th.main.RtEach? && th.host.cands != []
    requires th' == RetryStart(th, th.host.cands[0].0, th.host.cands[0].1)
    ensures RetryOf(s.reg.slots, s.runs, th') && RetryWaitOf(s.reg.slots, s.runs, th') && CleanOf(s.runs, th')
    ensures Covers(th, th')
  {
    hide InCands;
  }

  lemma NextFits(s: System, t: nat, th: Thread, th': Thread)
    requires ShapeOf(t, th, s.nextThread, s.host) && th.main.RtEach? && AtMain(th) && th.host.cands != []
    requires th' == RetryStart(th, th.host.cands[0].0, th.host.cands[0].1)
    ensures Fits(s, t, th, th') && JoinOf(s.runs, th') && th'.cancel.pc.KNone? && th'.join.pc.JNone?
    ensures RetryLoop(th'.main)
  {
    assert Base(th) == [D] && Base(th') == [D];
  }

  lemma NextKeeps(s: System, t: nat, th: Thread)
    requires Ready(s, t, th) && th.main.RtEach? && AtMain(th) && th.host.cands != []
    ensures Inv(Put(s, t, RetryStart(th, th.host.cands[0].0, th.host.cands[0].1)))
  {
    hide Inv, ShapeOf, HostOf, CancelOf, JoinOf, Want, Fits, RetryOf, RetryWaitOf, CleanOf, Covers, RetryStart;
    var th' := RetryStart(th, th.host.cands[0].0, th.host.cands[0].1);
    Facts(s, t, th);
    HostIn(s, t, th);
    RetryParts(s, t, th);
    NextFacts(s, th, th');
    NextFits(s, t, th, th');
    HostOfRetry(s.reg, s.count, s.runs, s.past, t, th');
    IdleCancel(s, th'.cancel);
    MoveKeeps(s, t, th, th');
  }

  lemma EmptyAnswered(s: System, th: Thread)
    requires Answered(s, Some(th)) && th.main.RtEach? && th.host.cands == []
    ensures Answered(s, None)
  {
    forall q | 0 <= q < |s.runs| && !s.runs[q].Settled() ensures Owned(s.reg, None, s.runs[q], q) {
      assert Owned(s.reg, Some(th), s.runs[q], q);
    }
  }

  lemma EmptySlots(s: System, th: Thread)
    requires RetryOf(s.reg.slots, s.runs, th) && th.main.RtEach? && th.host.cands == [] && !th.host.failed
    ensures s.reg.slots == map[]
  {
    assert forall key :: key in s.reg.slots ==> InCands(th.host.cands, key);
    assert forall key :: key !in s.reg.slots;
  }

  lemma HostOfRetried(reg: Registries, count: Counters, runs: seq<Run>, past: History, h: nat, th: Thread)
    requires (th.main.TdSnap? || th.main.UxSlot?) && AtMain(th) && reg.slots == map[]
    ensures HostOf(reg, count, runs, past, h, th)
  {
  }

  /** All retained owners are dealt with and none is left. */
  lemma RetriedKeeps(s: System, t: nat, th: Thread, next: Main)
    requires Ready(s, t, th) && th.main.RtEach? && AtMain(th) && th.host.cands == [] && !th.host.failed
    requires next.TdSnap? || next.UxSlot?
    ensures Inv(Goto(s, t, th, next))
  {
    hide Inv, ShapeOf, HostOf, CancelOf, JoinOf, Want, Fits, RetryOf, SharedOk, Answered, OthersRely, MintedGrows,
      CancelRely, Streams, Mutex, HostFacts;
    Parts(s);
    Facts(s, t, th);
    HostIn(s, t, th);
    RetryParts(s, t, th);
    EmptySlots(s, th);
    HostOfRetried(s.reg, s.count, s.runs, s.past, t, At(th, next));
    EmptyAnswered(s, th);
    EnterAnswered(s, At(th, next));
    FitsMain(s, t, th, At(th, next));
    PlainRoutines(s, At(th, next));
    OthersSame(s, t);
    HostStep(s, t, th, At(th, next), s);
  }

  lemma EmptyLeave(s: System, t: nat, th: Thread)
    requires Ready(s, t, th) && th.main.RtEach? && AtMain(th) && th.host.cands == []
    ensures Inv(End(s, t))
  {
    hide Inv, ShapeOf, HostOf, CancelOf, JoinOf, Want, SharedOk, Answered, Streams, Mutex, HostFacts;
    Parts(s);
    Facts(s, t, th);
    HostIn(s, t, th);
    EmptyAnswered(s, th);
    LeaveKeeps(s, t, th);
  }

  function Popped(th: Thread): Thread {
    SetHost(th, RtEach, RetryPop(th.host, th.clean.ok))
  }

  lemma PopFacts(s: System, th: Thread)
    requires RetryOf(s.reg.slots, s.runs, th) && RetryWaitOf(s.reg.slots, s.runs, th)
    requires th.main.RtWait? && AtMain(th)
    ensures RetryOf(s.reg.slots, s.runs, Popped(th)) && CleanOf(s.runs, Popped(th))
    ensures RetryWaitOf(s.reg.slots, s.runs, Popped(th))
  {
    var cands, rest := th.host.cands, Popped(th).host.cands;
    assert rest == cands[1..];
    forall key | key in s.reg.slots && !Popped(th).host.failed ensures InCands(rest, key) {
      assert InCands(cands, key);
      var i :| 0 <= i < |cands| && cands[i].0 == key;
      assert rest[i - 1].0 == key;
    }
  }

  lemma PopOwned(s: System, th: Thread, q: RunId)
    requires RetryWaitOf(s.reg.slots, s.runs, th) && th.main.RtWait? && AtMain(th)
    requires q < |s.runs| && !s.runs[q].Settled() && Owned(s.reg, Some(th), s.runs[q], q)
    ensures Owned(s.reg, Some(Popped(th)), s.runs[q], q)
  {
    var cands, rest := th.host.cands, Popped(th).host.cands;
    if HostOwns(Some(th), q) {
      var i :| 0 <= i < |cands| && cands[i].1 == q;
      if i > 0 {
        assert rest[i - 1].1 == q;
      }
    }
  }

  lemma PopAnswered(s: System, th: Thread)
    requires Answered(s, Some(th)) && RetryWaitOf(s.reg.slots, s.runs, th) && th.main.RtWait? && AtMain(th)
    requires RetryOf(s.reg.slots, s.runs, Popped(th))
    ensures Answered(s, Some(Popped(th)))
  {
    hide Owned, HostSlot, HostOwns, RetryOf, RetryWaitOf, InCands, Popped;
    forall q | 0 <= q < |s.runs| && !s.runs[q].Settled() ensures Owned(s.reg, Some(Popped(th)), s.runs[q], q) {
      PopOwned(s, th, q);
    }
    PopSlots(s, th);
    PopQuiet(s, th);
  }

  lemma PopQuiet(s: System, th: Thread)
    requires Quiescent(s.reg, Some(th)) && Fence(s.reg, s.past, Some(th)) && th.main.RtWait?
    ensures Quiescent(s.reg, Some(Popped(th))) && Fence(s.reg, s.past, Some(Popped(th)))
  {
  }

  lemma PopSlots(s: System, th: Thread)
    requires Slots(s.reg.slots, s.count, Some(th)) && RetryWaitOf(s.reg.slots, s.runs, th)
    requires th.main.RtWait? && AtMain(th)
    ensures Slots(s.reg.slots, s.count, Some(Popped(th)))
  {
    hide HostSlot, RetryWaitOf;
    forall key | key in s.reg.slots && !s.reg.slots[key].Retained? ensures HostSlot(Some(Popped(th)), key) {
      PopSlot(s, th, key);
    }
  }

  lemma PopSlot(s: System, th: Thread, key: nat)
    requires Slots(s.reg.slots, s.count, Some(th)) && RetryWaitOf(s.reg.slots, s.runs, th)
    requires th.main.RtWait? && AtMain(th)
    requires key in s.reg.slots && !s.reg.slots[key].Retained?
    ensures HostSlot(Some(Popped(th)), key)
  {
    var cands, rest := th.host.cands, Popped(th).host.cands;
    assert InCands(cands, key);
    var i :| 0 <= i < |cands| && cands[i].0 == key;
    assert i > 0;
    assert rest[i - 1].0 == key;
  }

  lemma PopKeeps(s: System, t: nat, th: Thread)
    requires Ready(s, t, th) && th.main.RtWait? && AtMain(th)
    ensures Inv(Put(s, t, Popped(th)))
  {
    hide Inv, ShapeOf, HostOf, CancelOf, JoinOf, Want, Fits, RetryOf, RetryWaitOf, CleanOf, SharedOk, Answered,
      OthersRely, MintedGrows, CancelRely, Streams, Mutex, HostFacts;
    Parts(s);
    Facts(s, t, th);
    HostIn(s, t, th);
    RetryParts(s, t, th);
    PopFacts(s, th);
    PopAnswered(s, th);
    HostOfRetry(s.reg, s.count, s.runs, s.past, t, Popped(th));
    FitsMain(s, t, th, Popped(th));
    PlainRoutines(s, Popped(th));
    OthersSame(s, t);
    HostStep(s, t, th, Popped(th), s);
  }

  lemma RetryStepKeeps(s: System, t: nat, th: Thread, c: Choice)
    requires Ready(s, t, th) && RetryMain(th.main) && AtMain(th) && Allowed(s, th, c)
    ensures Inv(RetryStep(s, t, th, c))
  {
    hide Inv, HostOf, CancelOf, JoinOf, Want, RetryCandidates, Snapshot;
    match th.main
    case RtCollect => CollectKeeps(s, t, th, c.cands);
    case RtEach =>
      if th.host.cands != [] {
        NextKeeps(s, t, th);
      } else if th.host.failed {
        EmptyLeave(s, t, th);
      } else if th.host.teardown {
        RetriedKeeps(s, t, th, TdSnap);
      } else if c.ok {
        RetriedKeeps(s, t, th, UxSlot);
      } else {
        EmptyLeave(s, t, th);
      }
    case _ => PopKeeps(s, t, th);
  }
}
