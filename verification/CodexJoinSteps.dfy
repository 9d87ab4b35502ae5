/** Handing over an output reader keeps the invariant. */
module CodexJoinSteps {
  import opened Options
  import opened CodexTypes
  import opened CodexProtocol
  import opened CodexInvariant
  import opened CodexFrames
  import opened CodexMoves

  lemma WorkerOfRun(reg: Registries, count: Counters, runs: seq<Run>, past: History, th: Thread, r: RunId, run: Run)
    requires WorkerOf(reg, count, runs, past, th) && r < |runs| && run.token == runs[r].token
    ensures WorkerOf(reg, count, runs[r := run], past, th)
  {
    assert Unspawned(runs, th.op) ==> Unspawned(runs[r := run], th.op);
  }

  lemma StageOfRun(reg: Registries, runs: seq<Run>, h: nat, th: Thread, r: RunId, run: Run)
    requires RunStageOf(reg, runs, h, th) && ScopedRunOf(reg, runs, th) && UnscopedRunOf(reg.slots, runs, th)
    requires CleanOf(runs, th) && r < |runs| && RunEvolves(runs[r], run)
    requires RunMain(th.main) && th.run == r ==>
      Untouched(reg, runs[r := run], h, th, true) && Untouched(reg, runs[r := run], h, th, false)
    ensures RunStageOf(reg, runs[r := run], h, th) && ScopedRunOf(reg, runs[r := run], th)
    ensures UnscopedRunOf(reg.slots, runs[r := run], th) && CleanOf(runs[r := run], th)
  {
  }

  lemma RetryOfRun(slots: SlotMap, runs: seq<Run>, th: Thread, r: RunId, run: Run)
    requires RetryOf(slots, runs, th) && RetryWaitOf(slots, runs, th) && r < |runs| && RunEvolves(runs[r], run)
    ensures RetryOf(slots, runs[r := run], th) && RetryWaitOf(slots, runs[r := run], th)
  {
    hide InCands;
  }

  /** Facts about the host thread survive when one run moves on, as long as its readers
      are not touched behind the back of an execution that is still going. */
  lemma HostOfRun(
    reg: Registries, count: Counters, runs: seq<Run>, past: History, h: nat, th: Thread, r: RunId, run: Run)
    requires HostOf(reg, count, runs, past, h, th)
    requires r < |runs| && RunEvolves(runs[r], run)
    requires RunMain(th.main) && th.run == r ==>
      Untouched(reg, runs[r := run], h, th, true) && Untouched(reg, runs[r := run], h, th, false)
    ensures HostOf(reg, count, runs[r := run], past, h, th)
  {
    hide WorkerOf, ScopedRunOf, UnscopedRunOf, RunStageOf, CleanOf, RetryOf, RetryWaitOf, TeardownOf, OtherHostOf,
      Untouched, RunMain;
    WorkerOfRun(reg, count, runs, past, th, r, run);
    StageOfRun(reg, runs, h, th, r, run);
    RetryOfRun(reg.slots, runs, th, r, run);
  }

  predicate SameButJoin(th: Thread, th': Thread) {
    && th'.main == th.main && th'.op == th.op && th'.session == th.session && th'.generation == th.generation
    && th'.run == th.run && th'.slot == th.slot && th'.scoped == th.scoped && th'.res == th.res
    && th'.cancel == th.cancel && th'.clean == th.clean && th'.host == th.host
  }

  lemma RetryOfJoin(slots: SlotMap, runs: seq<Run>, th: Thread, th': Thread)
    requires RetryOf(slots, runs, th) && RetryWaitOf(slots, runs, th) && SameButJoin(th, th')
    ensures RetryOf(slots, runs, th') && RetryWaitOf(slots, runs, th')
  {
    hide InCands, CandOf;
  }

  lemma TeardownOfJoin(reg: Registries, session: nat, th: Thread, th': Thread)
    requires TeardownOf(reg, session, th) && SameButJoin(th, th')
    ensures TeardownOf(reg, session, th')
  {
    hide InTodo;
  }

  lemma StageOfJoin(
    reg: Registries, count: Counters, runs: seq<Run>, past: History, h: nat, th: Thread, th': Thread)
    requires WorkerOf(reg, count, runs, past, th) && ScopedRunOf(reg, runs, th) && UnscopedRunOf(reg.slots, runs, th)
    requires RunStageOf(reg, runs, h, th) && CleanOf(runs, th) && OtherHostOf(reg, count, past, th)
    requires SameButJoin(th, th')
    ensures WorkerOf(reg, count, runs, past, th') && ScopedRunOf(reg, runs, th') && UnscopedRunOf(reg.slots, runs, th')
    ensures RunStageOf(reg, runs, h, th') && CleanOf(runs, th') && OtherHostOf(reg, count, past, th')
  {
    hide Unspawned;
  }

  lemma HostOfJoin(reg: Registries, count: Counters, runs: seq<Run>, past: History, h: nat, th: Thread, th': Thread)
    requires HostOf(reg, count, runs, past, h, th) && SameButJoin(th, th')
    ensures HostOf(reg, count, runs, past, h, th')
  {
    hide WorkerOf, ScopedRunOf, UnscopedRunOf, RunStageOf, CleanOf, RetryOf, RetryWaitOf, TeardownOf, OtherHostOf,
      SameButJoin;
    StageOfJoin(reg, count, runs, past, h, th, th');
    RetryOfJoin(reg.slots, runs, th, th');
    TeardownOfJoin(reg, count.session, th, th');
  }

  lemma CoversJoin(th: Thread, th': Thread)
    requires SameButJoin(th, th')
    ensures Covers(th, th')
  {
  }

  /** The join comes back, with a good result only from a reader joined without error. */
  lemma ReturnKeeps(s: System, t: nat, th: Thread, th': Thread)
    requires Ready(s, t, th) && th.join.pc.JLook? && JoinRun(th) < |s.runs|
    requires SameButJoin(th, th') && th'.lk == 0 && th'.join.out == th.join.out
    requires th'.join.pc.JLook? || (th'.join.pc.JNone? &&
      (th'.join.ok ==> Good(s.runs[JoinRun(th)].StreamOf(th.join.out))))
    ensures Inv(Put(s, t, th'))
  {
    hide Inv, HostOf, Covers, CancelOf;
    Facts(s, t, th);
    FitsJoin(s, t, th, th');
    CoversJoin(th, th');
    if s.host == Some(t) {
      HostOfJoin(s.reg, s.count, s.runs, s.past, t, th, th');
    }
    MoveKeeps(s, t, th, th');
  }

  lemma FitsJoin(s: System, t: nat, th: Thread, th': Thread)
    requires ShapeOf(t, th, s.nextThread, s.host) && !th.join.pc.JNone?
    requires SameButJoin(th, th') && th'.lk == 0 && th'.join.out == th.join.out
    ensures Fits(s, t, th, th')
  {
  }

  /** Before and after the change of one stream by thread `t`. */
  ghost predicate StreamChange(s: System, t: nat, th: Thread, th': Thread, x: Stream) {
    var before := RunIn(s.runs, JoinRun(th)).StreamOf(th.join.out);
    && JoinRun(th) < |s.runs| && SameButJoin(th, th') && th'.lk == 0 && th'.join.out == th.join.out
    && if th.join.pc.JLook? then before.InSlot? && x == Taken(t) && th'.join.pc.JPut?
       else th'.join.pc.JNone? && (x.InSlot? || (x.Done? && x.joiner == t)) && (th'.join.ok ==> Good(x))
  }

  lemma StreamsChange(s: System, t: nat, th: Thread, th': Thread, x: Stream)
    requires Streams(s.runs, s.threads) && t in s.threads && s.threads[t] == th && !th.join.pc.JNone?
    requires StreamChange(s, t, th, th', x)
    ensures var r := JoinRun(th); var run := s.runs[r].WithStream(th.join.out, x);
      Streams(s.runs[r := run], s.threads[t := th'])
      && RunEvolves(s.runs[r], run)
  {
    var r, out := JoinRun(th), th.join.out;
    var runs' := s.runs[r := s.runs[r].WithStream(out, x)];
    var threads' := s.threads[t := th'];
    assert forall q, o :: 0 <= q < |runs'| ==>
      runs'[q].StreamOf(o) == if q == r && o == out then x else s.runs[q].StreamOf(o);
    assert JoinRun(th') == r;
    forall u | u in threads' && threads'[u].join.pc.JPut?
      ensures JoinRun(threads'[u]) < |runs'|
      ensures runs'[JoinRun(threads'[u])].StreamOf(threads'[u].join.out) == Taken(u)
    {
    }
    forall q, o | 0 <= q < |runs'| && runs'[q].StreamOf(o).Taken?
      ensures var u := runs'[q].StreamOf(o).joiner;
        && u in threads' && threads'[u].join.pc.JPut?
        && JoinRun(threads'[u]) == q && threads'[u].join.out == o
    {
    }
  }

  /** A cancel past its flag works on a run whose execution, if it is still going, is
      already flagged. */
  lemma FlaggedRun(s: System, k: CancelFrame, th: Thread)
    requires CancelOf(s.reg, s.runs, s.past, k) && PastFlag(k.pc) && Refers(s.reg, s.runs)
    requires WorkerOf(s.reg, s.count, s.runs, s.past, th)
    requires ScopedRunOf(s.reg, s.runs, th) && UnscopedRunOf(s.reg.slots, s.runs, th)
    requires RunMain(th.main) && th.run == k.run
    ensures th.scoped && CancelledOp(s.reg, th.op)
  {
  }

  lemma UntouchedOwn(s: System, t: nat, th: Thread, th': Thread, x: Stream)
    requires RunStageOf(s.reg, s.runs, t, th) && StreamChange(s, t, th, th', x)
    requires RunMain(th.main) && th.run == JoinRun(th)
    ensures var runs' := s.runs[JoinRun(th) := s.runs[JoinRun(th)].WithStream(th.join.out, x)];
      Untouched(s.reg, runs', t, th, true) && Untouched(s.reg, runs', t, th, false)
  {
  }

  lemma StreamHostFacts(s: System, t: nat, th: Thread, th': Thread, x: Stream)
    requires Ready(s, t, th) && StreamChange(s, t, th, th', x) && !th.join.pc.JNone?
    requires RunEvolves(s.runs[JoinRun(th)], s.runs[JoinRun(th)].WithStream(th.join.out, x))
    ensures var runs' := s.runs[JoinRun(th) := s.runs[JoinRun(th)].WithStream(th.join.out, x)];
      && (s.host == Some(t) ==> HostOf(s.reg, s.count, runs', s.past, t, th'))
      && (s.host != Some(t) ==> HostFacts(s.reg, s.count, runs', s.past, s.threads, s.host))
  {
    hide Shape, Mutex, Uniform, RunsWf, Refers, Streams, Routines, Linked, Quiescent, Fence, Slots, Custody,
      CancelOf, Want, WorkerOf, ScopedRunOf, UnscopedRunOf, RunStageOf, CleanOf, RetryOf, RetryWaitOf, TeardownOf,
      OtherHostOf, Untouched, RunEvolves, SameButJoin;
    Facts(s, t, th);
    var r := JoinRun(th);
    var run := s.runs[r].WithStream(th.join.out, x);
    if s.host == Some(t) {
      if RunMain(th.main) && th.run == r {
        UntouchedOwn(s, t, th, th', x);
      }
      HostOfRun(s.reg, s.count, s.runs, s.past, t, th, r, run);
      HostOfJoin(s.reg, s.count, s.runs[r := run], s.past, t, th, th');
    } else if s.host.Some? && s.host.value in s.threads {
      var h := s.host.value;
      if RunMain(s.threads[h].main) && s.threads[h].run == r {
        FlaggedRun(s, th.cancel, s.threads[h]);
        UntouchedFlagged(s, r, run, h, s.threads[h]);
      }
      HostOfRun(s.reg, s.count, s.runs, s.past, h, s.threads[h], r, run);
    }
  }

  lemma UntouchedFlagged(s: System, r: RunId, run: Run, h: nat, th: Thread)
    requires th.scoped && CancelledOp(s.reg, th.op) && r < |s.runs|
    ensures Untouched(s.reg, s.runs[r := run], h, th, true) && Untouched(s.reg, s.runs[r := run], h, th, false)
  {
  }

  lemma StreamShared(s: System, r: RunId, out: bool, x: Stream)
    requires r < |s.runs| && RunEvolves(s.runs[r], s.runs[r].WithStream(out, x))
    requires SharedOk(s)
    ensures SharedOk(SetRun(s, r, s.runs[r].WithStream(out, x)))
  {
    hide Uniform, Linked, Refers;
    var run := s.runs[r].WithStream(out, x);
    assert RunWf(s.runs[r], s.reg.prepared, s.past.minted);
    RunsWfOne(s.runs, s.reg.prepared, s.past.minted, r, run);
    RefersOne(s.reg, s.runs, r, run);
  }

  lemma JoinOfChange(s: System, t: nat, th: Thread, th': Thread, x: Stream)
    requires ShapeOf(t, th, s.nextThread, s.host) && JoinOf(s.runs, th) && StreamChange(s, t, th, th', x)
    requires !th.join.pc.JNone?
    ensures JoinOf(s.runs[JoinRun(th) := s.runs[JoinRun(th)].WithStream(th.join.out, x)], th')
  {
  }

  lemma StreamKeeps(s: System, t: nat, th: Thread, th': Thread, x: Stream)
    requires Ready(s, t, th) && StreamChange(s, t, th, th', x) && !th.join.pc.JNone?
    ensures Inv(Put(SetRun(s, JoinRun(th), RunAt(s, JoinRun(th)).WithStream(th.join.out, x)), t, th'))
  {
    assert JoinRun(th) < |s.runs| && SameButJoin(th, th');
    hide Inv, ShapeOf, Mutex, Streams, CancelOf, Want, HostOf, RunEvolves, SameButJoin, JoinOf, Fits, CancelRely,
      MintedGrows, Evolves, HostFacts, SharedOk, Answered, StreamChange, OthersRely, Covers, JoinRun;
    var r := JoinRun(th);
    var run := s.runs[r].WithStream(th.join.out, x);
    var s1 := SetRun(s, r, run);
    Facts(s, t, th);
    Parts(s);
    StreamsChange(s, t, th, th', x);
    FitsJoin(s, t, th, th');
    EvolvesOne(s.runs, r, run);
    OthersSame(s, t);
    StreamShared(s, r, th.join.out, x);
    CancelStable(s.reg, s.runs, s.past, s.reg, s1.runs, s.past, th.cancel);
    assert th'.cancel == th.cancel by { SameCancel(th, th'); }
    JoinOfChange(s, t, th, th', x);
    StreamHostFacts(s, t, th, th', x);
    StreamAnswered(s, t, th, th', r, run);
    StepKeeps(s, t, th, th', s1);
  }

  lemma StreamAnswered(s: System, t: nat, th: Thread, th': Thread, r: RunId, run: Run)
    requires Ready(s, t, th) && r < |s.runs| && RunEvolves(s.runs[r], run) && SameButJoin(th, th')
    ensures var s1 := SetRun(s, r, run);
      if s.host == Some(t) then Answered(s1, Some(th')) else Answered(s1, HostThread(s.threads, s.host))
  {
    hide Inv, Answered, SharedOk, RunEvolves, SameButJoin, Covers, Streams, Mutex, HostFacts;
    Parts(s);
    AnsweredEvolves(s, r, run, HostThread(s.threads, s.host));
    if s.host == Some(t) {
      CoversJoin(th, th');
      AnsweredCovers(SetRun(s, r, run), th, th');
    }
  }

  lemma SameCancel(th: Thread, th': Thread)
    requires SameButJoin(th, th')
    ensures th'.cancel == th.cancel
  {
  }

  lemma OthersSame(s: System, t: nat)
    ensures OthersRely(s.reg, s.reg, s.threads, t) && MintedGrows(s.past, s.past)
    ensures forall k: CancelFrame :: CancelRely(s.reg, s.reg, k)
  {
  }

  lemma LookKeeps(s: System, t: nat, th: Thread, run: Run, c: Choice)
    requires Ready(s, t, th) && th.join.pc.JLook? && JoinRun(th) < |s.runs| && run == s.runs[JoinRun(th)]
    ensures Inv(LookStep(s, t, th, JoinRun(th), run, c))
  {
    hide Inv, Put, SetRun, Want, JoinRun;
    match run.StreamOf(th.join.out)
    case Done(failed, _) => ReturnKeeps(s, t, th, th.(join := th.join.(pc := JNone, ok := !failed), lk := 0));
    case Taken(_) =>
      if c.wait {
        ReturnKeeps(s, t, th, th.(lk := 0));
      } else {
        ReturnKeeps(s, t, th, th.(join := th.join.(pc := JNone, ok := false), lk := 0));
      }
    case InSlot => StreamKeeps(s, t, th, th.(join := th.join.(pc := JPut), lk := 0), Taken(t));
  }

  lemma PutKeeps(s: System, t: nat, th: Thread, run: Run, c: Choice)
    requires Ready(s, t, th) && th.join.pc.JPut? && JoinRun(th) < |s.runs| && run == s.runs[JoinRun(th)]
    ensures Inv(PutStep(s, t, th, JoinRun(th), run, c))
  {
    hide Inv, Put, SetRun, Want, JoinRun;
    var done := th.(join := th.join.(pc := JNone, ok := c.outcome.Bytes?), lk := 0);
    match c.outcome
    case Bytes => StreamKeeps(s, t, th, done, Done(false, t));
    case TimedOut => StreamKeeps(s, t, th, done, InSlot);
    case Failed => StreamKeeps(s, t, th, done, Done(true, t));
  }

  lemma JoinKeeps(s: System, t: nat, th: Thread, c: Choice)
    requires Ready(s, t, th) && !th.join.pc.JNone?
    ensures Inv(JoinStep(s, t, th, JoinRun(th), c))
  {
    hide Inv, LookStep, PutStep, Want, ShapeOf, HostOf, CancelOf, JoinOf, HostThread, JoinRun;
    Facts(s, t, th);
    JoinSiteRun(t, th, s.nextThread, s.host, s.runs);
    if th.join.pc.JLook? {
      LookKeeps(s, t, th, s.runs[JoinRun(th)], c);
    } else {
      PutKeeps(s, t, th, s.runs[JoinRun(th)], c);
    }
  }

  lemma JoinSiteRun(t: nat, th: Thread, next: nat, host: Option<nat>, runs: seq<Run>)
    requires ShapeOf(t, th, next, host) && JoinOf(runs, th) && !th.join.pc.JNone?
    ensures JoinRun(th) < |runs|
  {
  }
}
