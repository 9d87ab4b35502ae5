/** Which registered children are lost: exactly when nothing that can happen removes their
    entry any more. */
module CodexLost {
  import opened Options
  import opened CodexTypes
  import opened CodexRegistry
  import opened CodexProtocol
  import opened CodexInvariant
  import opened CodexFrames
  import opened CodexMoves
  import opened CodexTheorems
  import opened CodexOnward
  import opened CodexLinks
  import opened CodexGuarantees
  import opened CodexStuck
  import opened CodexLocks
  import opened CodexProgress
  import opened CodexRescue
  import opened CodexSettle

  /** The child stays registered whatever happens from now on. */
  ghost predicate Lost(s: System, op: Token) {
    forall s' :: Leads(s, s') ==> op in s'.reg.active
  }

  // ---------- what cannot be mended ----------

  /** A reader of the child has ended in an error, or no cancel can end it any more. */
  ghost predicate Hopeless(s: System, op: Token) {
    op in s.reg.active && !(Readable(s, op) && Saved(s, op))
  }

  /** With a failed reader the run is never settled, so its entry stays. */
  lemma UnreadableStep(s: System, e: Event, op: Token)
    requires Reached(s) && Enabled(s, e) && !Readable(s, op)
    ensures !Readable(Next(s, e), op) && op in Next(s, e).reg.active
  {
    hide Inv, Enabled, Next, Reached, MintedGrows;
    ReachedInv(s);
    StepMonotone(s, e);
    ReachedNext(s, e);
    ReachedInv(Next(s, e));
    var r :| 0 <= r < |s.runs| && s.runs[r].token == Some(op) && !RunSound(s.runs[r]);
    assert RunEvolves(s.runs[r], Next(s, e).runs[r]);
    UnsettledAccounted(Next(s, e), r);
  }

  /** The steps that could end the child, or make a cancel able to, are not possible. */
  lemma UnsavedEntry(s: System, e: Event, op: Token)
    requires Inv(s) && Enabled(s, e) && op in s.reg.active && !Saved(s, op)
    ensures op in Next(s, e).reg.active
  {
    hide Inv, Enabled, Next, Able;
    EventEntries(s, e, op);
    if e.Work? && Releases(s, s.threads[e.t], Next(s, e), op) {
      KDropAble(s.threads[e.t], op);
      ReleaserHost(s, e.t, op);
    }
  }

  lemma KDropAble(th: Thread, op: Token)
    ensures AtCancelEnd(th) && th.cancel.op == op ==> Able(th, op)
  {
  }

  /** While the drop is imminent nobody cleans up a run. */
  lemma ReleaserHost(s: System, t: nat, op: Token)
    requires Inv(s) && t in s.threads && s.threads[t].clean.pc.CUnreg?
    ensures !DropImminent(s)
  {
    hide Inv, Want, HostOf, CancelOf, JoinOf;
    Facts(s, t, s.threads[t]);
  }

  lemma UnsavedThreads(s: System, e: Event, op: Token)
    requires Inv(s) && Enabled(s, e) && op in s.reg.active && !Saved(s, op)
    ensures !HasAble(Next(s, e), op)
  {
    hide Inv, Enabled, Next, Below;
    match e
    case Start(call) => StartAble(s, call, op);
    case Exit(r) => ExitAble(s, r, op);
    case _ =>
      EventThread(s, e);
      forall t | t in Next(s, e).threads ensures !Able(Next(s, e).threads[t], op) {
        OtherCame(s, e, t);
        if t == e.t {
          OwnUnable(s, e, op);
        }
      }
  }

  lemma StartAble(s: System, call: Call, op: Token)
    requires Enabled(s, Start(call)) && !HasAble(s, op)
    ensures !HasAble(Next(s, Start(call)), op)
  {
  }

  lemma ExitAble(s: System, r: RunId, op: Token)
    requires Enabled(s, Exit(r)) && !HasAble(s, op)
    ensures !HasAble(Next(s, Exit(r)), op)
  {
  }

  lemma OwnUnable(s: System, e: Event, op: Token)
    requires Inv(s) && Enabled(s, e) && ByThread(e) && !Saved(s, op) && e.t in s.threads && e.t in Next(s, e).threads
    ensures !Able(Next(s, e).threads[e.t], op)
  {
    hide Inv, Enabled, Next, Below, Want;
    match e
    case Acquire(t) => AcquireSame(s, t);
    case Work(t, c) =>
      OwnMoved(s, t, c);
      if Flags(s, s.threads[t], op) {
        FlagExcluded(s, t, c, op);
      }
  }

  lemma AcquireSame(s: System, t: nat)
    requires Enabled(s, Acquire(t))
    ensures var th := s.threads[t]; Next(s, Acquire(t)).threads[t] == th.(lk := th.lk + 1)
  {
    hide Want;
  }

  /** The look at a pending operation needs the lock that an imminent drop has. */
  lemma FlagExcluded(s: System, t: nat, c: Choice, op: Token)
    requires Inv(s) && Enabled(s, Work(t, c)) && Flags(s, s.threads[t], op)
    ensures !DropImminent(s)
  {
    hide Inv;
    if DropImminent(s) {
      var h := s.host.value;
      FlagHolds(s.threads[t], op);
      DropHas(s.threads[h]);
      HeldApart(s, t, h, P);
    }
  }

  lemma FlagHolds(th: Thread, op: Token)
    requires th.join.pc.JNone? && th.clean.pc.CNone? && th.cancel.pc.KFlag? && th.lk == |Want(th)|
    ensures P in Held(th) && !AtDrop(th)
  {
    assert Want(th) == [P] && Want(th)[..1] == [P];
  }

  lemma DropHas(th: Thread)
    requires AtDrop(th) && th.lk == 1
    ensures P in Held(th)
  {
    assert Want(th) == [P] && Want(th)[..1] == [P];
  }

  /** The pending operation stays away, or the drop stays imminent until it happens. */
  lemma UnsavedDrop(s: System, e: Event, op: Token)
    requires Reached(s) && Enabled(s, e) && op in s.reg.active && (op !in s.reg.pending || DropImminent(s))
    ensures op !in Next(s, e).reg.pending || DropImminent(Next(s, e))
  {
    hide Inv, Enabled, Next, Reached;
    ReachedInv(s);
    if op !in s.reg.pending {
      EventEntries(s, e, op);
    } else if ByThread(e) && e.t == s.host.value {
      DropHappens(s, e);
    } else {
      StaysImminent(s, e);
    }
  }

  lemma DropHappens(s: System, e: Event)
    requires Inv(s) && Enabled(s, e) && ByThread(e) && DropImminent(s) && e.t == s.host.value && s.reg.active != map[]
    ensures Next(s, e).reg.pending == map[]
  {
    hide Inv, HostOf, CancelOf, JoinOf;
    assert |Want(s.threads[e.t])| == 1;
    assert DropsActive(s, e);
    hide Enabled, Next;
    DropEmpties(s, e);
  }

  lemma StaysImminent(s: System, e: Event)
    requires Reached(s) && Enabled(s, e) && DropImminent(s) && !(ByThread(e) && e.t == s.host.value)
    ensures DropImminent(Next(s, e))
  {
    hide Inv, Reached;
    var h := s.host.value;
    ReachedInv(s);
    if ByThread(e) {
      hide Enabled, Next;
      EventThread(s, e);
      OtherStays(s, e, h);
      ReachedNext(s, e);
      ReachedInv(Next(s, e));
      OnlyHost(Next(s, e), h);
    } else if e.Start? {
      Belongs(s, h);
    }
  }

  lemma HopelessStep(s: System, e: Event, op: Token)
    requires Reached(s) && Enabled(s, e) && Hopeless(s, op)
    ensures Hopeless(Next(s, e), op)
  {
    hide Inv, Enabled, Next, Reached, Readable, HasAble, DropImminent;
    ReachedInv(s);
    if !Readable(s, op) {
      UnreadableStep(s, e, op);
    } else {
      UnsavedEntry(s, e, op);
      UnsavedThreads(s, e, op);
      UnsavedDrop(s, e, op);
    }
  }

  lemma {:induction false} HopelessAlong(states: seq<System>, events: seq<Event>, k: nat, op: Token)
    requires Path(states, events) && k < |states| && Reached(states[0]) && Hopeless(states[0], op)
    ensures Reached(states[k]) && Hopeless(states[k], op)
  {
    hide Reached, Hopeless, Enabled, Next;
    if k > 0 {
      HopelessAlong(states, events, k - 1, op);
      ReachedNext(states[k - 1], events[k - 1]);
      HopelessStep(states[k - 1], events[k - 1], op);
    }
  }

  // ---------- exactly which children are lost ----------

  lemma EscapeFound(s: System, op: Token) returns (s': System)
    requires Reached(s) && Readable(s, op) && (op in s.reg.active ==> Saved(s, op))
    ensures Leads(s, s') && op !in s'.reg.active
  {
    hide Inv, Reached, Leads, Readable, Saved;
    var tokens := iset{op};
    assert Kept(s, tokens);
    var s1 := Settle(s, tokens);
    SettledIs(s, tokens, s1);
    if op in s1.reg.active {
      IdleSaved(s1, op, tokens);
      s' := CancelNew(s1, op, tokens);
      LeadsFar(s, s1, s');
    } else {
      s' := s1;
    }
  }

  lemma SettledIs(s: System, tokens: iset<Token>, s': System)
    requires Settled(s, tokens, s')
    ensures Leads(s, s') && Reached(s') && s'.threads == map[] && Kept(s', tokens)
    ensures ReadersSound(s.runs) ==> ReadersSound(s'.runs)
  {
    hide Leads, Reached, Kept, ReadersSound;
  }

  lemma IdleSaved(s: System, op: Token, tokens: iset<Token>)
    requires s.threads == map[] && Kept(s, tokens) && op in tokens && op in s.reg.active
    ensures op in s.reg.pending && QuietBeside(s, s.nextThread)
  {
    hide Readable, Able, Held;
  }

  /** In every reachable state: a registered child is lost exactly when one of its readers
      has ended in an error, or when no cancel that found its operation can still end it
      and no other cancel can find the operation any more, because it is gone or about to
      be dropped. */
  lemma LostExactly(s: System, op: Token)
    requires Reached(s)
    ensures Lost(s, op) <==> op in s.reg.active && !(Readable(s, op) && Saved(s, op))
  {
    hide Reached, Leads, Readable, Saved, Path;
    if Hopeless(s, op) {
      forall s' | Leads(s, s') ensures op in s'.reg.active {
        HopelessLeads(s, op, s');
      }
    } else if op in s.reg.active {
      var s' := EscapeFound(s, op);
    } else {
      LeadsSelf(s);
    }
  }

  lemma HopelessLeads(s: System, op: Token, s': System)
    requires Reached(s) && Hopeless(s, op) && Leads(s, s')
    ensures Hopeless(s', op)
  {
    hide Reached, Hopeless, Path;
    var states: seq<System>, events: seq<Event> :|
      |states| == |events| + 1 && Path(states, events) && states[0] == s && states[|events|] == s';
    HopelessAlong(states, events, |events|, op);
  }

  /** What a failing teardown costs, told before it drops: a child that is still registered
      is lost by the drop exactly when one of its readers has failed or no cancel that found
      its operation can still end it. */
  lemma DropLosesExactly(s: System, e: Event, op: Token)
    requires Reached(s) && Enabled(s, e) && DropsActive(s, e) && op in s.reg.active
    ensures Lost(Next(s, e), op) <==> !(Readable(s, op) && HasAble(s, op))
  {
    hide Inv, Reached, Enabled, Next, Readable, Lost, DropsActive, Able, DropImminent;
    ReachedInv(s);
    ReachedNext(s, e);
    LostExactly(Next(s, e), op);
    DropEmpties(s, e);
    DropMakesStuck(s, e, op);
    DropReaders(s, e, op);
    StuckUnable(Next(s, e), op);
  }

  lemma StuckUnable(s: System, op: Token)
    ensures Stuck(s, op) <==> op in s.reg.active && op !in s.reg.pending && !HasAble(s, op)
  {
    hide Able;
  }

  lemma DropReaders(s: System, e: Event, op: Token)
    requires Enabled(s, e) && DropsActive(s, e)
    ensures Readable(Next(s, e), op) <==> Readable(s, op)
  {
    hide Enabled, Next, Unresolved, RunSound;
    DropStep(s, e);
  }
}
