/** The lock order, and why the commands never block each other for good. */
module CodexLocks {
  import opened Options
  import opened CodexTypes
  import opened CodexRegistry
  import opened CodexProtocol
  import opened CodexInvariant
  import opened CodexMoves
  import opened CodexTheorems

  /** The one order in which every command acquires its locks. */
  function LockRank(lock: Lock): nat {
    match lock
    case D => 0
    case A => 1
    case P => 2
    case L => 3
    case H(_) => 4
    case C(_) => 5
    case U => 6
  }

  ghost predicate Rising(locks: seq<Lock>) {
    forall i, j :: 0 <= i < j < |locks| ==> LockRank(locks[i]) < LockRank(locks[j])
  }

  function Locks(th: Thread): seq<Lock> {
    Base(th) + Want(th)
  }

  lemma MainRises(t: nat, th: Thread, next: nat, host: Option<nat>)
    requires ShapeOf(t, th, next, host) && th.cancel.pc.KNone?
    ensures Rising(Locks(th))
  {
    var base := MainBase(th.main);
    assert Base(th) == base;
    assert base == [] || base == [D] || base == [D, A, P];
  }

  lemma CancelRises(t: nat, th: Thread, next: nat, host: Option<nat>)
    requires ShapeOf(t, th, next, host) && !th.cancel.pc.KNone?
    ensures Rising(Locks(th))
  {
    var base := MainBase(th.main);
    assert base == [] || base == [D];
  }

  /** Whatever a thread carries and asks for follows the lock order. */
  lemma LocksRise(t: nat, th: Thread, next: nat, host: Option<nat>)
    requires ShapeOf(t, th, next, host)
    ensures Rising(Locks(th))
  {
    if th.cancel.pc.KNone? {
      MainRises(t, th, next, host);
    } else {
      CancelRises(t, th, next, host);
    }
  }

  /** The next lock of a thread ranks above every lock that it holds. */
  lemma NextAbove(th: Thread, lock: Lock)
    requires Rising(Locks(th)) && th.lk < |Want(th)| && lock in Held(th)
    ensures LockRank(lock) < LockRank(Want(th)[th.lk])
  {
    hide Base, Want;
    var i :| 0 <= i < |Held(th)| && Held(th)[i] == lock;
    assert Held(th) == Locks(th)[..|Base(th)| + th.lk];
    assert Locks(th)[i] == lock && Locks(th)[|Base(th)| + th.lk] == Want(th)[th.lk];
  }

  // ---------- the maps can always be enumerated ----------

  ghost function Enumerate(keys: set<nat>): (order: seq<nat>)
    ensures forall key :: key in keys <==> key in order
    ensures forall i, j :: 0 <= i < j < |order| ==> order[i] != order[j]
  {
    if keys == {} then [] else
      var key :| key in keys;
      Enumerate(keys - {key}) + [key]
  }

  lemma CandidatesExist(slots: SlotMap) returns (cands: seq<(nat, RunId)>)
    ensures RetryCandidates(slots, cands)
  {
    var retained := set key | key in slots && slots[key].Retained?;
    var order := Enumerate(retained);
    assert forall i :: 0 <= i < |order| ==> order[i] in order && order[i] in retained;
    cands := seq(|order|, i requires 0 <= i < |order| => (order[i], slots[order[i]].run));
    forall key | key in slots && slots[key].Retained? ensures exists i :: 0 <= i < |cands| && cands[i].0 == key {
      assert key in retained && key in order;
      var i :| 0 <= i < |order| && order[i] == key;
      assert cands[i].0 == key;
    }
  }

  lemma SnapshotExists(active: ActiveMap) returns (todo: seq<(Token, nat)>)
    ensures Snapshot(active, todo)
  {
    var order := Enumerate(active.Keys);
    assert forall i :: 0 <= i < |order| ==> order[i] in order && order[i] in active.Keys;
    todo := seq(|order|, i requires 0 <= i < |order| => (order[i], active[order[i]].session));
    forall op | op in active ensures exists i :: 0 <= i < |todo| && todo[i].0 == op {
      assert op in active.Keys && op in order;
      var i :| 0 <= i < |order| && order[i] == op;
      assert todo[i].0 == op;
    }
  }

  /** Calls to the operating system succeed, and a reader that is joined delivers. */
  predicate Helped(e: Event) {
    e.Work? ==> e.c.ok && e.c.ok2 && e.c.outcome.Bytes?
  }

  lemma CanAlwaysWork(s: System, t: nat) returns (e: Event)
    requires t in s.threads && s.threads[t].lk == |Want(s.threads[t])|
    ensures e.Work? && e.t == t && !e.c.wait && Helped(e) && Enabled(s, e)
  {
    hide RetryCandidates, Snapshot, Want;
    var cands := CandidatesExist(s.reg.slots);
    var todo := SnapshotExists(s.reg.active);
    e := Work(t, Choice(true, true, false, true, Bytes, {}, cands, todo));
  }

  // ---------- progress ----------

  /** A thread goes on, and not by deciding to wait. */
  predicate Moves(e: Event) {
    e.Acquire? || (e.Work? && !e.c.wait)
  }

  /** Whatever a thread wants next ranks above all that it holds. */
  lemma WantsAbove(s: System, t: nat, held: Lock)
    requires Inv(s) && t in s.threads && held in Held(s.threads[t]) && s.threads[t].lk < |Want(s.threads[t])|
    ensures LockRank(held) < LockRank(Want(s.threads[t])[s.threads[t].lk])
  {
    hide Inv, Want, Held, LockRank, HostOf, CancelOf, JoinOf;
    Facts(s, t, s.threads[t]);
    LocksRise(t, s.threads[t], s.nextThread, s.host);
    NextAbove(s.threads[t], held);
  }

  ghost predicate HoldsFrom(s: System, t: nat, above: nat) {
    t in s.threads && exists lock :: lock in Held(s.threads[t]) && above <= LockRank(lock)
  }

  /** Following the holder of the wanted lock leads, in at most seven steps up the lock
      order, to a thread that can move: the first one, or one that holds a lock of a rank
      from `above` on. */
  lemma {:induction false} Unblock(s: System, t: nat, above: nat) returns (e: Event)
    requires Inv(s) && t in s.threads && above <= 7
    requires s.threads[t].lk < |Want(s.threads[t])| ==> above <= LockRank(Want(s.threads[t])[s.threads[t].lk])
    ensures Moves(e) && Helped(e) && Enabled(s, e)
    ensures e.t == t || HoldsFrom(s, e.t, above)
    decreases 7 - above
  {
    hide Inv, Want, Held, LockRank, Allowed, HostOf, CancelOf, JoinOf;
    var th := s.threads[t];
    Facts(s, t, th);
    if th.lk < |Want(th)| {
      var lock := Want(th)[th.lk];
      if Free(s, lock) {
        e := Acquire(t);
      } else {
        var u :| u in s.threads && lock in Held(s.threads[u]);
        if s.threads[u].lk < |Want(s.threads[u])| {
          WantsAbove(s, u, lock);
        }
        RankBound(lock);
        e := Unblock(s, u, LockRank(lock) + 1);
      }
    } else {
      assert th.lk == |Want(th)| by { LockBound(t, th, s.nextThread, s.host); }
      e := CanAlwaysWork(s, t);
    }
  }

  lemma LockBound(t: nat, th: Thread, next: nat, host: Option<nat>)
    requires ShapeOf(t, th, next, host)
    ensures th.lk <= |Want(th)|
  {
  }

  lemma RankBound(lock: Lock)
    ensures LockRank(lock) <= 6
  {
  }

  lemma CanMove(s: System) returns (e: Event)
    requires Reached(s) && s.threads != map[]
    ensures Moves(e) && Helped(e) && Enabled(s, e)
  {
    hide Inv, Reached, Want, Enabled;
    ReachedInv(s);
    var t :| t in s.threads;
    e := Unblock(s, t, 0);
  }

  /** Deadlock freedom: as long as a command is unfinished, some command can acquire its
      next lock or run its next critical section, without waiting. */
  lemma NoDeadlock(s: System)
    requires Reached(s) && s.threads != map[]
    ensures exists e :: Moves(e) && Enabled(s, e)
  {
    hide Reached, Enabled;
    var e := CanMove(s);
  }

  /** No lock is ever held by two commands. */
  lemma MutualExclusion(s: System, t: nat, u: nat, lock: Lock)
    requires Reached(s) && t in s.threads && u in s.threads
    requires lock in Held(s.threads[t]) && lock in Held(s.threads[u])
    ensures t == u
  {
    hide Inv, Held, Mutex;
    ReachedInv(s);
    if t != u {
      HeldApart(s, t, u, lock);
    }
  }

  lemma HeldApart(s: System, t: nat, u: nat, lock: Lock)
    requires Inv(s) && t in s.threads && u in s.threads && t != u
    ensures lock in Held(s.threads[t]) ==> lock !in Held(s.threads[u])
  {
    hide Inv, Held, SharedOk, Answered, Streams, HostFacts;
    Parts(s);
    assert Apart(s.threads[t], s.threads[u]);
  }
}
