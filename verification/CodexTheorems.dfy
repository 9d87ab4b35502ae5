/** What the protocol guarantees, stated about reachable states, about single steps from
    them, and about whole executions. */
module CodexTheorems {
  import opened Options
  import opened CodexTypes
  import opened CodexRegistry
  import opened CodexProtocol
  import opened CodexInvariant
  import opened CodexFrames
  import opened CodexMoves
  import opened CodexCommandSteps
  import opened CodexReachable
  import opened CodexEffects

  /** `s` is a state of some execution. */
  ghost predicate Reached(s: System) {
    exists states, events :: Execution(states, events) && s in states
  }

  lemma ReachedInv(s: System)
    requires Reached(s)
    ensures Inv(s)
  {
    hide Inv, Execution;
    var states, events :| Execution(states, events) && s in states;
    var i :| 0 <= i < |states| && states[i] == s;
    Reachable(states, events, i);
  }

  lemma ExecutionReaches(states: seq<System>, events: seq<Event>, i: nat)
    requires Execution(states, events) && i < |states|
    ensures Reached(states[i])
  {
    hide Execution;
    assert states[i] in states;
  }

  /** One more step extends an execution that ends in `s`. */
  lemma ReachedNext(s: System, e: Event)
    requires Reached(s) && Enabled(s, e)
    ensures Reached(Next(s, e))
  {
    hide Enabled, Next;
    var states, events :| Execution(states, events) && s in states;
    var i :| 0 <= i < |states| && states[i] == s;
    var longer, more := states[..i + 1] + [Next(s, e)], events[..i] + [e];
    forall k | 0 <= k < |more| ensures Enabled(longer[k], more[k]) && longer[k + 1] == Next(longer[k], more[k]) {
      if k < i {
        assert longer[k] == states[k] && more[k] == events[k] && longer[k + 1] == states[k + 1];
      }
    }
    assert Execution(longer, more);
    assert longer[i + 1] in longer;
  }

  // ---------- reservation and registration ----------

  lemma HostKnows(s: System, t: nat)
    requires Inv(s) && t in s.threads && InHost(s.threads[t].main)
    ensures s.host == Some(t) && HostOf(s.reg, s.count, s.runs, s.past, t, s.threads[t])
    ensures HostThread(s.threads, s.host) == Some(s.threads[t]) && SharedOk(s) && Answered(s, Some(s.threads[t]))
  {
    hide Inv, CancelOf, JoinOf, HostOf, Want, SharedOk, Answered, Streams, Mutex, HostFacts;
    Facts(s, t, s.threads[t]);
    Parts(s);
  }

  /** A child is spawned only for a pending operation of the right generation that is not
      cancelled and has never had a child; its registration cannot fail, so the branch
      that recovers an unregistered child is never entered. */
  lemma RegistrationNeverFails(s: System, t: nat, r: RunId)
    requires Reached(s) && t in s.threads
    ensures !s.threads[t].main.ExRecover?
    ensures var th := s.threads[t];
      th.main.ExSpawn? ==>
        && Register(s.reg.active, s.reg.pending, th.op, ActiveChild(th.session, th.generation, r)).Ok?
        && Unspawned(s.runs, th.op) && th.op !in s.past.fenced
  {
    hide Inv, CancelOf, JoinOf, HostOf, Want;
    ReachedInv(s);
    var th := s.threads[t];
    Facts(s, t, th);
    if th.main.ExSpawn? {
      HostKnows(s, t);
      StraightParts(s, t, th);
      SpawnKnown(s, th, r);
    }
  }

  lemma SpawnKnown(s: System, th: Thread, r: RunId)
    requires SharedOk(s) && Answered(s, Some(th)) && th.main.ExSpawn?
    requires WorkerOf(s.reg, s.count, s.runs, s.past, th)
    ensures Register(s.reg.active, s.reg.pending, th.op, ActiveChild(th.session, th.generation, r)).Ok?
    ensures Unspawned(s.runs, th.op) && th.op !in s.past.fenced
  {
    hide RunsWf, Refers, Linked, Slots, Custody, Quiescent;
  }

  // ---------- custody ----------

  /** A child that has not been confirmed dead and cleaned up is in the active registry
      if it has a token; otherwise it has a recovery slot, which names it unless the host
      operation in progress is working on it. */
  ghost predicate Accounted(s: System, r: RunId)
    requires r < |s.runs|
  {
    var run := s.runs[r];
    match run.token
    case Some(op) => op in s.reg.active && s.reg.active[op].run == r
    case None =>
      && run.slot in s.reg.slots
      && (|| s.reg.slots[run.slot] == Retained(r)
          || (&& !s.reg.slots[run.slot].Retained? && s.host.Some? && s.host.value in s.threads
              && WorkingOn(s.threads[s.host.value], r)))
  }

  lemma NoOrphanChild(s: System, r: RunId)
    requires Reached(s) && r < |s.runs| && !s.runs[r].Settled()
    ensures Accounted(s, r)
  {
    ReachedInv(s);
    UnsettledAccounted(s, r);
  }

  lemma UnsettledAccounted(s: System, r: RunId)
    requires Inv(s) && r < |s.runs| && !s.runs[r].Settled()
    ensures Accounted(s, r)
  {
    hide Inv, HostOf, Shape;
    ShapePart(s);
    if s.host.Some? {
      var th := s.threads[s.host.value];
      assert InHost(th.main) by { HostInside(s); }
      HostKnows(s, s.host.value);
      OwnedByHost(s, s.host.value, th, r);
    } else {
      Parts(s);
      assert Owned(s.reg, None, s.runs[r], r);
    }
  }

  lemma ShapePart(s: System)
    requires Inv(s)
    ensures Shape(s.threads, s.nextThread, s.host) && (s.host.Some? ==> s.host.value in s.threads)
  {
    hide ShapeOf, Mutex, Uniform, RunsWf, Refers, Streams, Routines, Linked, Quiescent, Fence, Slots, Custody,
      HostFacts;
  }

  lemma HostInside(s: System)
    requires Shape(s.threads, s.nextThread, s.host) && s.host.Some? && s.host.value in s.threads
    ensures InHost(s.threads[s.host.value].main)
  {
    assert ShapeOf(s.host.value, s.threads[s.host.value], s.nextThread, s.host);
  }

  lemma OwnedByHost(s: System, h: nat, th: Thread, r: RunId)
    requires s.host == Some(h) && h in s.threads && th == s.threads[h]
    requires HostOf(s.reg, s.count, s.runs, s.past, h, th) && Answered(s, Some(th))
    requires r < |s.runs| && !s.runs[r].Settled()
    ensures Accounted(s, r)
  {
    hide WorkerOf, RunStageOf, CleanOf, TeardownOf, OtherHostOf, Quiescent, Fence, Slots, InCands;
    assert Owned(s.reg, Some(th), s.runs[r], r);
  }

  /** No registry lets go of a child before the child is dead, its readers are joined
      without error and its artifact is gone. */
  lemma ReleasedOnlyWhenSettled(s: System, e: Event, r: RunId)
    requires Reached(s) && Enabled(s, e) && r < |s.runs| && Accounted(s, r)
    ensures r < |Next(s, e).runs|
    ensures Accounted(Next(s, e), r) || Next(s, e).runs[r].Settled()
  {
    hide Enabled, Next, Inv, Accounted;
    ReachedInv(s);
    ReachedNext(s, e);
    StepMonotone(s, e);
    if !Next(s, e).runs[r].Settled() {
      NoOrphanChild(Next(s, e), r);
    }
  }

  // ---------- monotonicity of every step ----------

  /** Runs only move towards being settled and history only grows. */
  ghost predicate Later(s: System, s': System) {
    && Evolves(s.runs, s'.runs) && MintedGrows(s.past, s'.past)
    && s.past.fenced <= s'.past.fenced && s.past.completed <= s'.past.completed
    && s.nextThread <= s'.nextThread
  }

  lemma StepMonotone(s: System, e: Event)
    requires Inv(s) && Enabled(s, e)
    ensures Later(s, Next(s, e))
  {
    hide Inv, ThreadStep, Allowed, Want;
    match e
    case Start(call) => EvolvesSelf(s.runs);
    case Acquire(t) => EvolvesSelf(s.runs);
    case Work(t, c) =>
      ThreadGrows(s, t, s.threads[t], c);
      ThreadEffect(s, t, s.threads[t], c);
      EffectLater(s, t, s.threads[t], ThreadStep(s, t, s.threads[t], c));
    case Exit(r) => EvolvesOne(s.runs, r, s.runs[r].(alive := false));
  }

  lemma EffectLater(s: System, t: nat, th: Thread, s': System)
    requires Effect(s, t, th, s') && Evolves(s.runs, s'.runs)
    ensures Later(s, s')
  {
    hide Mints, Finishes, Spawns, FenceSet, Cancelling, Evolves, MintedGrows;
  }

  lemma {:induction false} ExecutionMonotone(states: seq<System>, events: seq<Event>, i: nat, j: nat)
    requires Execution(states, events) && i <= j < |states|
    ensures Later(states[i], states[j])
  {
    hide Inv, Enabled, Next, Evolves, MintedGrows;
    if i == j {
      EvolvesSelf(states[i].runs);
      assert MintedGrows(states[i].past, states[i].past) by { MintedSelf(states[i].past); }
    } else {
      ExecutionMonotone(states, events, i, j - 1);
      Reachable(states, events, j - 1);
      StepMonotone(states[j - 1], events[j - 1]);
      LaterTwice(states[i], states[j - 1], states[j]);
    }
  }

  lemma MintedSelf(past: History)
    ensures MintedGrows(past, past)
  {
  }

  lemma LaterTwice(a: System, b: System, c: System)
    requires Later(a, b) && Later(b, c)
    ensures Later(a, c)
  {
    forall r | 0 <= r < |a.runs| ensures RunEvolves(a.runs[r], c.runs[r]) {
      assert RunEvolves(a.runs[r], b.runs[r]) && RunEvolves(b.runs[r], c.runs[r]);
    }
  }

  // ---------- readers ----------

  /** Two threads never hold the reader of the same stream, a reader that is out of its
      slot is with a thread that still exists, and a joined stream never changes again,
      so its bytes went to the one thread that it names. */
  lemma OneReaderPerStream(s: System, r: RunId, out: bool, t: nat, u: nat)
    requires Reached(s) && r < |s.runs| && t in s.threads && u in s.threads
    requires s.threads[t].join.pc.JPut? && JoinRun(s.threads[t]) == r && s.threads[t].join.out == out
    requires s.threads[u].join.pc.JPut? && JoinRun(s.threads[u]) == r && s.threads[u].join.out == out
    ensures t == u && s.runs[r].StreamOf(out) == Taken(t)
  {
    hide Inv, SharedOk, Answered, Mutex, HostFacts;
    ReachedInv(s);
    Parts(s);
  }

  lemma ReaderNeverLost(s: System, r: RunId, out: bool)
    requires Reached(s) && r < |s.runs|
    ensures match s.runs[r].StreamOf(out)
      case InSlot => true
      case Taken(t) =>
        t in s.threads && s.threads[t].join.pc.JPut? && JoinRun(s.threads[t]) == r && s.threads[t].join.out == out
      case Done(_, _) => true
    ensures !s.runs[r].artifact ==> s.runs[r].Joined()
  {
    hide Inv, SharedOk, Answered, Mutex, HostFacts;
    ReachedInv(s);
    Parts(s);
    ArtifactKept(s, r);
  }

  lemma ArtifactKept(s: System, r: RunId)
    requires SharedOk(s) && r < |s.runs|
    ensures !s.runs[r].artifact ==> s.runs[r].Joined()
  {
    hide Uniform, Refers, Linked;
    assert RunWf(s.runs[r], s.reg.prepared, s.past.minted);
  }

  lemma JoinedForGood(states: seq<System>, events: seq<Event>, i: nat, j: nat, r: RunId, out: bool)
    requires Execution(states, events) && i <= j < |states| && r < |states[i].runs|
    requires states[i].runs[r].StreamOf(out).Done?
    ensures r < |states[j].runs| && states[j].runs[r].StreamOf(out) == states[i].runs[r].StreamOf(out)
  {
    hide Execution;
    ExecutionMonotone(states, events, i, j);
    assert RunEvolves(states[i].runs[r], states[j].runs[r]);
  }

  /** Fail closed: once a stream has ended in an error, the run is never settled, so its
      registration or its recovery slot stays. */
  lemma FailedStreamStays(states: seq<System>, events: seq<Event>, i: nat, j: nat, r: RunId, out: bool)
    requires Execution(states, events) && i <= j < |states| && r < |states[i].runs|
    requires states[i].runs[r].StreamOf(out).Done? && states[i].runs[r].StreamOf(out).failed
    ensures r < |states[j].runs| && !states[j].runs[r].Settled() && Accounted(states[j], r)
  {
    hide Execution, Accounted;
    JoinedForGood(states, events, i, j, r, out);
    ExecutionReaches(states, events, j);
    NoOrphanChild(states[j], r);
  }

  /** The cleanup of a run, by its execution or by a retry, has just come back. */
  predicate CleanReturned(th: Thread) {
    Returned(th) || (th.main.RtWait? && th.clean.pc.CNone?)
  }

  /** And nobody reports success about such a run again: no cancel reaches the removal of
      its entry, and neither its execution nor a retry ends its cleanup without error. */
  lemma FailedStreamNeverSucceeds(
    states: seq<System>, events: seq<Event>, i: nat, j: nat, r: RunId, out: bool, t: nat)
    requires Execution(states, events) && i <= j < |states| && r < |states[i].runs|
    requires states[i].runs[r].StreamOf(out).Done? && states[i].runs[r].StreamOf(out).failed
    requires t in states[j].threads
    ensures var th := states[j].threads[t];
      && !(th.cancel.pc.KDrop? && th.cancel.run == r)
      && !(CleanReturned(th) && th.clean.ok && th.run == r)
  {
    hide Execution, Inv, Accounted, HostOf;
    FailedStreamStays(states, events, i, j, r, out);
    Reachable(states, events, j);
    SuccessMeansSettled(states[j], t);
  }

  lemma SuccessMeansSettled(s: System, t: nat)
    requires Inv(s) && t in s.threads
    ensures var th := s.threads[t];
      && (th.cancel.pc.KDrop? ==> th.cancel.run < |s.runs| && s.runs[th.cancel.run].Settled())
      && (CleanReturned(th) && th.clean.ok ==>
            th.run < |s.runs| && s.runs[th.run].Settled())
  {
    hide Inv, HostOf, JoinOf, Want, SharedOk, Answered;
    var th := s.threads[t];
    Facts(s, t, th);
    if CleanReturned(th) && th.clean.ok {
      HostKnows(s, t);
      HostSuccess(s, t, th);
    }
  }

  lemma HostSuccess(s: System, t: nat, th: Thread)
    requires HostOf(s.reg, s.count, s.runs, s.past, t, th)
    requires CleanReturned(th) && th.clean.ok
    ensures th.run < |s.runs| && s.runs[th.run].Settled()
  {
    hide WorkerOf, CleanOf, RetryOf, TeardownOf, OtherHostOf, Untouched;
  }
}
