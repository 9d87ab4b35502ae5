/** Every command comes to its end: no schedule goes on for ever without new calls or
    endless waiting, and from every reachable state all commands can finish. */
module CodexProgress {
  import opened CodexTypes
  import opened CodexProtocol
  import opened CodexInvariant
  import opened CodexMoves
  import opened CodexEffects
  import opened CodexTheorems
  import opened CodexOnward
  import opened CodexLocks

  // ---------- the work that is left in a state ----------

  function Sum(threads: Threads, next: nat, f: Thread -> nat): nat {
    if next == 0 then 0
    else Sum(threads, next - 1, f) + if next - 1 in threads then f(threads[next - 1]) else 0
  }

  lemma {:induction false} SumOne(threads: Threads, threads': Threads, next: nat, t: nat, f: Thread -> nat)
    requires t in threads && threads' - {t} == threads - {t}
    ensures Sum(threads', next, f) + (if t < next then f(threads[t]) else 0)
         == Sum(threads, next, f) + (if t < next && t in threads' then f(threads'[t]) else 0)
  {
    if next > 0 {
      SumOne(threads, threads', next - 1, t, f);
      var u := next - 1;
      if u != t {
        assert u in threads <==> u in threads - {t};
        assert u in threads' <==> u in threads' - {t};
        assert u in threads ==> (threads - {t})[u] == threads[u] && (threads' - {t})[u] == threads'[u];
      }
    }
  }

  function Living(runs: seq<Run>): nat {
    if runs == [] then 0 else Living(runs[..|runs| - 1]) + if runs[|runs| - 1].alive then 1 else 0
  }

  lemma {:induction false} LivingLess(runs: seq<Run>, r: nat)
    requires r < |runs| && runs[r].alive
    ensures Living(runs[r := runs[r].(alive := false)]) < Living(runs)
  {
    var last := |runs| - 1;
    var fewer := runs[r := runs[r].(alive := false)];
    if r == last {
      assert fewer[..last] == runs[..last];
    } else {
      LivingLess(runs[..last], r);
      assert fewer[..last] == runs[..last][r := runs[..last][r].(alive := false)];
    }
  }

  function AllLists(s: System): nat {
    Sum(s.threads, s.nextThread, th => ListsOf(th))
  }

  function AllBudgets(s: System): nat {
    Sum(s.threads, s.nextThread, th => Budget(th))
  }

  predicate Sooner(s': System, s: System) {
    AllLists(s') < AllLists(s) || (AllLists(s') == AllLists(s) && AllBudgets(s') < AllBudgets(s))
  }

  predicate Less(s': System, s: System) {
    || Sooner(s', s)
    || (AllLists(s') == AllLists(s) && AllBudgets(s') == AllBudgets(s) && Living(s'.runs) < Living(s.runs))
  }

  /** Neither a new call nor a decision to wait. */
  predicate Presses(s: System, e: Event) {
    !e.Start? && (e.Work? && e.t in s.threads ==> !Waits(s, s.threads[e.t], e.c))
  }

  lemma ThreadLess(s: System, s': System, t: nat)
    requires t in s.threads && t < s.nextThread == s'.nextThread && s'.threads - {t} == s.threads - {t}
    requires t in s'.threads ==> Below(s'.threads[t], s.threads[t])
    ensures Sooner(s', s)
  {
    var lists, budgets := th => ListsOf(th), th => Budget(th);
    SumOne(s.threads, s'.threads, s.nextThread, t, lists);
    SumOne(s.threads, s'.threads, s.nextThread, t, budgets);
    assert Budget(s.threads[t]) > 0 by { BudgetPositive(s.threads[t]); }
    hide ListsOf, Budget, Sum;
  }

  lemma MovesPress(s: System, e: Event)
    requires Moves(e)
    ensures Presses(s, e)
  {
  }

  lemma BudgetPositive(th: Thread)
    ensures Budget(th) > 0
  {
  }

  lemma AcquireBelow(th: Thread)
    requires th.lk < |Want(th)|
    ensures Below(th.(lk := th.lk + 1), th)
  {
    hide MainRank, CancelRank, CleanRank, JoinRank, Lists;
    assert |Want(th)| <= 3;
  }

  /** Every event that presses on leaves less to do. */
  lemma PressingShrinks(s: System, e: Event)
    requires Inv(s) && Enabled(s, e) && Presses(s, e)
    ensures Less(Next(s, e), s)
  {
    hide Inv, ThreadStep, Allowed, Want, Effect, Sooner, Below, Waits, HostOf, CancelOf, JoinOf;
    match e
    case Acquire(t) =>
      Facts(s, t, s.threads[t]);
      AcquireBelow(s.threads[t]);
      ThreadLess(s, Next(s, e), t);
    case Work(t, c) =>
      var th := s.threads[t];
      Facts(s, t, th);
      ThreadOnward(s, t, th, c);
      ThreadEffect(s, t, th, c);
      EffectThreads(s, t, th, Next(s, e));
      ThreadLess(s, Next(s, e), t);
    case Exit(r) =>
      LivingLess(s.runs, r);
      ExitLess(s, r);
  }

  lemma ExitLess(s: System, r: RunId)
    requires r < |s.runs| && Living(s.runs[r := s.runs[r].(alive := false)]) < Living(s.runs)
    ensures Less(ExitStep(s, r), s)
  {
    hide Sum, Living;
  }

  // ---------- no endless schedule ----------

  ghost predicate Endless(states: nat -> System, events: nat -> Event) {
    forall k: nat :: Enabled(states(k), events(k)) && states(k + 1) == Next(states(k), events(k))
  }

  lemma {:induction false} EndlessReaches(states: nat -> System, events: nat -> Event, k: nat)
    requires Reached(states(0)) && Endless(states, events)
    ensures Reached(states(k))
  {
    hide Reached, Enabled, Next;
    if k > 0 {
      EndlessReaches(states, events, k - 1);
      ReachedNext(states(k - 1), events(k - 1));
    }
  }

  lemma {:induction false} MustStop(states: nat -> System, events: nat -> Event, n: nat)
    requires Reached(states(0)) && Endless(states, events)
    requires forall k: nat :: n <= k ==> Presses(states(k), events(k))
    ensures false
    decreases AllLists(states(n)), AllBudgets(states(n)), Living(states(n).runs)
  {
    hide Reached, Enabled, Next, Presses, Sum, Living, Inv;
    EndlessReaches(states, events, n);
    ReachedInv(states(n));
    assert Presses(states(n), events(n));
    PressingShrinks(states(n), events(n));
    MustStop(states, events, n + 1);
  }

  /** An execution can go on for ever only with ever new calls or with ever new decisions
      to wait: for a child that is alive, or for a reader that another cleaner has. */
  lemma NothingRunsForever(states: nat -> System, events: nat -> Event, n: nat)
    requires Reached(states(0)) && Endless(states, events)
    ensures exists k: nat :: n <= k && !Presses(states(k), events(k))
  {
    hide Reached, Endless, Presses;
    if forall k: nat :: n <= k ==> Presses(states(k), events(k)) {
      MustStop(states, events, n);
    }
  }

  // ---------- continuations ----------

  /** `s'` ends some continuation of `s`. */
  ghost predicate Leads(s: System, s': System) {
    exists states: seq<System>, events: seq<Event> ::
      |states| == |events| + 1 && Path(states, events) && states[0] == s && states[|events|] == s'
  }

  lemma LeadsSelf(s: System)
    ensures Leads(s, s)
  {
    var events: seq<Event> := [];
    NoSteps(s);
    assert [s][|events|] == s;
  }

  lemma LeadsOn(s: System, e: Event, s': System)
    requires Enabled(s, e) && Leads(Next(s, e), s')
    ensures Leads(s, s')
  {
    hide Enabled, Next, Path;
    var states: seq<System>, events: seq<Event> :|
      |states| == |events| + 1 && Path(states, events) && states[0] == Next(s, e) && states[|events|] == s';
    PathFrom(s, e, states, events);
    var longer, more := [s] + states, [e] + events;
    assert longer[|more|] == s';
  }

  lemma LeadsFar(s: System, s1: System, s2: System)
    requires Leads(s, s1) && Leads(s1, s2)
    ensures Leads(s, s2)
  {
    hide Path;
    var states: seq<System>, events: seq<Event> :|
      |states| == |events| + 1 && Path(states, events) && states[0] == s && states[|events|] == s1;
    LeadsBack(states, events, s2);
  }

  lemma {:induction false} LeadsBack(states: seq<System>, events: seq<Event>, s': System)
    requires |states| == |events| + 1 && Path(states, events) && Leads(states[|events|], s')
    ensures Leads(states[0], s')
    decreases |events|
  {
    hide Leads, Enabled, Next;
    if events != [] {
      assert states[1..][|events| - 1] == states[|events|];
      LeadsBack(states[1..], events[1..], s');
      LeadsOn(states[0], events[0], s');
    }
  }

  // ---------- every command can finish ----------

  lemma PathFrom(s: System, e: Event, states: seq<System>, events: seq<Event>)
    requires Enabled(s, e) && Path(states, events) && states[0] == Next(s, e)
    ensures Path([s] + states, [e] + events)
  {
    hide Enabled, Next;
    var longer, more := [s] + states, [e] + events;
    forall i | 0 <= i < |more| ensures Enabled(longer[i], more[i]) && longer[i + 1] == Next(longer[i], more[i]) {
      if i > 0 {
        assert longer[i] == states[i - 1] && more[i] == events[i - 1] && longer[i + 1] == states[i];
      }
    }
  }

  /** From every reachable state the commands in progress can all run to their ends,
      without new calls, without waiting and without any child exiting by itself. */
  lemma {:induction false} CommandsCanFinish(s: System) returns (states: seq<System>, events: seq<Event>)
    requires Reached(s)
    ensures |states| == |events| + 1 && Path(states, events)
    ensures states[0] == s && states[|events|].threads == map[]
    ensures forall i :: 0 <= i < |events| ==> Moves(events[i]) && Presses(states[i], events[i])
    decreases AllLists(s), AllBudgets(s), Living(s.runs)
  {
    hide Reached, Enabled, Next, Presses, Sum, Living, Inv, Path;
    if s.threads == map[] {
      states, events := [s], [];
      assert Path(states, events) by { NoSteps(s); }
    } else {
      var e := CanMove(s);
      ReachedInv(s);
      MovesPress(s, e);
      PressingShrinks(s, e);
      ReachedNext(s, e);
      var later, more := CommandsCanFinish(Next(s, e));
      PathFrom(s, e, later, more);
      states, events := [s] + later, [e] + more;
      forall i | 0 <= i < |events| ensures Moves(events[i]) && Presses(states[i], events[i]) {
        if i > 0 {
          assert events[i] == more[i - 1] && states[i] == later[i - 1];
        }
      }
    }
  }

  lemma NoSteps(s: System)
    ensures Path([s], [])
  {
  }
}
