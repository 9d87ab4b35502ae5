/** The cleanup context of a run: two output readers that several cleaners may try to join
    at the same time. The context is one mutable object under a lock; each method below
    that is not a loop is one critical section. */
module CodexCleanup {
  import opened Options
  import opened CodexTypes

  type Bytes = seq<bv8>

  /** A reader thread with its channel. */
  datatype Reader = Reader(id: nat)

  /** What waiting for the channel and joining the thread brings. */
  datatype Received =
    | Delivered(bytes: Bytes)
    | ReaderFailed(message: string)
    | TimedOut
    | Disconnected

  datatype Answer = Output(bytes: Bytes) | Refusal(message: string)

  const NOT_STARTED := "output reader not started"
  const READER_RETAINED := "output read timed out; reader retained"
  const CHANNEL_LOST := "output reader channel disconnected"
  const BUSY := "output reader cleanup remained concurrently busy"

  /** The answer of a join, and the reader to put back, if any. */
  function JoinRecoverable(reader: Option<Reader>, got: Received): (Answer, Option<Reader>) {
    if reader.None? then (Refusal(NOT_STARTED), None)
    else match got
      case Delivered(bytes) => (Output(bytes), None)
      case ReaderFailed(message) => (Refusal(message), None)
      case TimedOut => (Refusal(READER_RETAINED), reader)
      case Disconnected => (Refusal(CHANNEL_LOST), None)
  }

  /** The fields of the context that belong to one stream. */
  datatype ReaderState = ReaderState(slot: Option<Reader>, done: bool, error: Option<string>, joining: bool)

  /** Who holds the reader, which reader it is, and what was handed to whom. */
  datatype Ledger = Ledger(holder: Option<nat>, origin: Option<Reader>, joiner: nat, deliveries: seq<(nat, Bytes)>)

  ghost predicate Consistent(x: ReaderState, l: Ledger) {
    && (x.joining <==> l.holder.Some?)
    && (x.joining ==> x.slot.None? && !x.done)
    && (x.done ==> x.slot.None?)
    && (!x.done ==> x.error.None? && l.deliveries == [])
    && (!x.done && !x.joining ==> x.slot == l.origin)
    && (x.done && x.error.None? ==> l.origin.Some? && exists bytes :: l.deliveries == [(l.joiner, bytes)])
    && (x.done && x.error.Some? ==> l.deliveries == [])
  }

  // ---------- interference ----------

  /** What thread `u` may rely on while other threads run their critical sections. */
  ghost predicate Rely(u: nat, a: ReaderState, la: Ledger, b: ReaderState, lb: Ledger) {
    && (la.holder == Some(u) ==> b == a && lb == la)
    && (lb.holder == Some(u) ==> la.holder == Some(u))
    && (a.done ==> b == a && lb == la)
    && lb.origin == la.origin
    && (b.done && !a.done ==> lb.joiner != u)
    && (forall d :: d in lb.deliveries && d !in la.deliveries ==> d.0 != u)
  }

  /** Interference may be split into any number of critical sections. */
  lemma RelyComposes(
    u: nat, a: ReaderState, la: Ledger, b: ReaderState, lb: Ledger, c: ReaderState, lc: Ledger)
    requires Rely(u, a, la, b, lb) && Rely(u, b, lb, c, lc)
    ensures Rely(u, a, la, c, lc)
  {
    forall d | d in lc.deliveries && d !in la.deliveries ensures d.0 != u {
      assert d in lb.deliveries || d !in lb.deliveries;
    }
  }

  // ---------- the protocol's view of a stream ----------

  ghost function Abstract(x: ReaderState, l: Ledger): Stream {
    if x.done then Done(x.error.Some?, l.joiner)
    else if x.joining && l.holder.Some? then Taken(l.holder.value)
    else InSlot
  }

  /** The first section of a join: what to answer, or the reader that was taken out. */
  datatype Looked = Answered(answer: Answer) | Wait | Took(reader: Option<Reader>)

  class CodexCleanupContext {
    var stdout: ReaderState
    var stderr: ReaderState
    var artifact: bool
    ghost var stdoutLedger: Ledger
    ghost var stderrLedger: Ledger

    ghost predicate Valid()
      reads this
    {
      && Consistent(stdout, stdoutLedger) && Consistent(stderr, stderrLedger)
      && (!artifact ==> stdout.done && stderr.done)
    }

    function State(out: bool): ReaderState
      reads this
    {
      if out then stdout else stderr
    }

    ghost function LedgerOf(out: bool): Ledger
      reads this
    {
      if out then stdoutLedger else stderrLedger
    }

    constructor (stdoutReader: Reader, stderrReader: Reader)
      ensures Valid() && artifact
      ensures forall out :: LedgerOf(out).holder == None && Abstract(State(out), LedgerOf(out)) == InSlot
      ensures stdout.slot == Some(stdoutReader) && stderr.slot == Some(stderrReader)
    {
      stdout := ReaderState(Some(stdoutReader), false, None, false);
      stderr := ReaderState(Some(stderrReader), false, None, false);
      artifact := true;
      stdoutLedger := Ledger(None, Some(stdoutReader), 0, []);
      stderrLedger := Ledger(None, Some(stderrReader), 0, []);
    }

    method Put(out: bool, x: ReaderState, ghost l: Ledger)
      modifies this`stdout, this`stderr, this`stdoutLedger, this`stderrLedger
      ensures State(out) == x && LedgerOf(out) == l
      ensures State(!out) == old(State(!out)) && LedgerOf(!out) == old(LedgerOf(!out))
    {
      if out {
        stdout := x;
        stdoutLedger := l;
      } else {
        stderr := x;
        stderrLedger := l;
      }
    }

    /** Critical sections of other threads. Callers see only the contract, which every
        section of this class meets towards the other threads. */
    method OtherThreads(me: nat)
      requires Valid()
      modifies this
      ensures Valid() && (!old(artifact) ==> !artifact)
      ensures forall out :: Rely(me, old(State(out)), old(LedgerOf(out)), State(out), LedgerOf(out))
    {
    }

    /** Looks at the stream under the lock: a finished stream is answered at once, a
        reader that is out is waited for, and a reader in its slot is taken out. */
    method LookOrTake(me: nat, out: bool) returns (looked: Looked)
      requires Valid() && LedgerOf(out).holder != Some(me)
      modifies this`stdout, this`stderr, this`stdoutLedger, this`stderrLedger
      ensures Valid() && State(!out) == old(State(!out)) && LedgerOf(!out) == old(LedgerOf(!out))
      ensures forall u :: u != me ==> Rely(u, old(State(out)), old(LedgerOf(out)), State(out), LedgerOf(out))
      ensures match looked
        case Answered(answer) =>
          && State(out) == old(State(out)) && LedgerOf(out) == old(LedgerOf(out)) && State(out).done
          && answer == if State(out).error.Some? then Refusal(State(out).error.value) else Output([])
        case Wait =>
          State(out) == old(State(out)) && LedgerOf(out) == old(LedgerOf(out)) && State(out).joining
        case Took(reader) =>
          && old(Abstract(State(out), LedgerOf(out))) == InSlot
          && Abstract(State(out), LedgerOf(out)) == Taken(me)
          && reader == LedgerOf(out).origin == old(LedgerOf(out).origin)
          && LedgerOf(out).deliveries == old(LedgerOf(out).deliveries)
    {
      var x := State(out);
      if x.done {
        return Answered(if x.error.Some? then Refusal(x.error.value) else Output([]));
      }
      if x.joining {
        return Wait;
      }
      Put(out, x.(slot := None, joining := true), LedgerOf(out).(holder := Some(me)));
      return Took(x.slot);
    }

    /** Ends a join by the thread that holds the reader: the stream is finished for good,
        or the reader goes back to its slot. */
    method StoreResult(me: nat, out: bool, reader: Option<Reader>, got: Received) returns (answer: Answer)
      requires Valid() && LedgerOf(out).holder == Some(me) && reader == LedgerOf(out).origin
      modifies this`stdout, this`stderr, this`stdoutLedger, this`stderrLedger
      ensures Valid() && State(!out) == old(State(!out)) && LedgerOf(!out) == old(LedgerOf(!out))
      ensures forall u :: u != me ==> Rely(u, old(State(out)), old(LedgerOf(out)), State(out), LedgerOf(out))
      ensures LedgerOf(out).holder == None && LedgerOf(out).origin == old(LedgerOf(out).origin)
      ensures answer == JoinRecoverable(reader, got).0
      ensures match answer
        case Output(bytes) =>
          && Abstract(State(out), LedgerOf(out)) == Done(false, me)
          && LedgerOf(out).deliveries == [(me, bytes)]
        case Refusal(message) =>
          && LedgerOf(out).deliveries == []
          && if reader.Some? && got.TimedOut? then Abstract(State(out), LedgerOf(out)) == InSlot
             else Abstract(State(out), LedgerOf(out)) == Done(true, me) && State(out).error == Some(message)
    {
      var x := State(out);
      var (result, retained) := JoinRecoverable(reader, got);
      ghost var l := LedgerOf(out).(holder := None);
      match result {
        case Output(bytes) =>
          Put(out, x.(joining := false, done := true), l.(joiner := me, deliveries := [(me, bytes)]));
        case Refusal(message) =>
          if retained.Some? {
            Put(out, x.(joining := false, slot := retained, done := false), l);
          } else {
            Put(out, x.(joining := false, slot := None, done := true, error := Some(message)), l.(joiner := me));
          }
      }
      return result;
    }

    /** What a finished stream answers to everybody who comes later. */
    ghost predicate Finished(out: bool, answer: Answer)
      reads this
    {
      && State(out).done
      && answer == if State(out).error.Some? then Refusal(State(out).error.value) else Output([])
    }

    /** Joins one reader while other threads may do the same. `patience` is the number of
        times a busy reader is waited for; `got` is what this thread would receive. */
    method JoinCleanupReader(me: nat, out: bool, patience: nat, got: Received) returns (answer: Answer)
      requires Valid() && LedgerOf(out).holder != Some(me) && LedgerOf(!out).holder != Some(me)
      modifies this
      ensures Valid() && LedgerOf(out).holder != Some(me) && LedgerOf(!out).holder != Some(me)
      ensures !old(artifact) ==> !artifact
      ensures LedgerOf(out).origin == old(LedgerOf(out).origin)
      ensures Rely(me, old(State(!out)), old(LedgerOf(!out)), State(!out), LedgerOf(!out))
      ensures old(State(out).done) ==>
        State(out) == old(State(out)) && LedgerOf(out) == old(LedgerOf(out)) && Finished(out, answer)
      ensures answer.Output? && answer.bytes != [] ==> LedgerOf(out).deliveries == [(me, answer.bytes)]
      ensures match answer
        case Output(bytes) =>
          State(out).done && State(out).error.None?
        case Refusal(message) =>
          || (State(out).done && State(out).error == Some(message))
          || (!State(out).done && message == READER_RETAINED && State(out).slot == LedgerOf(out).origin)
          || (!State(out).done && message == BUSY && State(out).joining)
    {
      var left := patience;
      while true
        invariant Valid() && LedgerOf(out).holder != Some(me) && LedgerOf(!out).holder != Some(me)
        invariant !old(artifact) ==> !artifact
        invariant LedgerOf(out).origin == old(LedgerOf(out).origin)
        invariant Rely(me, old(State(!out)), old(LedgerOf(!out)), State(!out), LedgerOf(!out))
        invariant old(State(out).done) ==> State(out) == old(State(out)) && LedgerOf(out) == old(LedgerOf(out))
        decreases left
      {
        var looked := LookOrTake(me, out);
        match looked
        case Answered(result) =>
          return result;
        case Wait =>
          if left == 0 {
            return Refusal(BUSY);
          }
          left := left - 1;
          ghost var x, l := State(!out), LedgerOf(!out);
          OtherThreads(me);
          RelyComposes(me, old(State(!out)), old(LedgerOf(!out)), x, l, State(!out), LedgerOf(!out));
        case Took(reader) =>
          ghost var x, l := State(!out), LedgerOf(!out);
          OtherThreads(me);
          RelyComposes(me, old(State(!out)), old(LedgerOf(!out)), x, l, State(!out), LedgerOf(!out));
          answer := StoreResult(me, out, reader, got);
          return answer;
      }
    }

    /** Both readers, whatever the first one gave and whatever others do in between. */
    method CleanupOutputReaders(me: nat, patience: nat, gotStdout: Received, gotStderr: Received) returns (ok: bool)
      requires Valid() && forall out :: LedgerOf(out).holder != Some(me)
      modifies this
      ensures Valid() && (!old(artifact) ==> !artifact)
      ensures forall out :: LedgerOf(out).holder != Some(me) && LedgerOf(out).origin == old(LedgerOf(out).origin)
      ensures ok ==> forall out :: State(out).done && State(out).error.None?
      ensures forall out :: old(State(out).done) ==>
        && State(out) == old(State(out)) && LedgerOf(out) == old(LedgerOf(out))
        && (State(out).error.Some? ==> !ok)
    {
      var first := JoinCleanupReader(me, true, patience, gotStdout);
      label joined: assert first.Output? ==> stdout.done && stdout.error.None?;
      OtherThreads(me);
      assert Rely(me, old@joined(State(true)), old@joined(LedgerOf(true)), State(true), LedgerOf(true));
      assert Rely(me, old@joined(State(false)), old@joined(LedgerOf(false)), State(false), LedgerOf(false));
      label others: assert first.Output? ==> stdout.done && stdout.error.None?;
      var second := JoinCleanupReader(me, false, patience, gotStderr);
      assert Rely(me, old@others(stdout), old@others(stdoutLedger), State(!false), LedgerOf(!false));
      ok := first.Output? && second.Output?;
    }

    method OutputReadersTerminal() returns (terminal: bool)
      requires Valid()
      ensures terminal <==> stdout.done && stderr.done
    {
      terminal := stdout.done && stderr.done && stdout.slot.None? && stderr.slot.None?;
    }

    /** The part of a run's cleanup after its child has exited: readers first, and the
        artifact only once both readers are finished, with other threads at work between
        all of it. `removable` says whether the file system lets go of the artifact. If
        each stream had ended before, or was ended by this call, the artifact goes;
        otherwise another thread ended a stream, and its own cleanup comes after that. */
    method CleanupAfterExit(me: nat, patience: nat, gotStdout: Received, gotStderr: Received, removable: bool)
      returns (ok: bool)
      requires Valid() && forall out :: LedgerOf(out).holder != Some(me)
      modifies this
      ensures Valid() && (!old(artifact) ==> !artifact)
      ensures forall out :: LedgerOf(out).holder != Some(me)
      ensures ok ==> !artifact && forall out :: State(out).done && State(out).error.None?
      ensures !removable ==> !ok
      ensures !artifact ==> stdout.done && stderr.done
      ensures (forall out :: old(State(out).done) || (State(out).done && LedgerOf(out).joiner == me)) && removable ==>
        !artifact
      ensures forall out :: old(State(out).done && State(out).error.Some?) ==> !ok
    {
      var clean := CleanupOutputReaders(me, patience, gotStdout, gotStderr);
      assert old(State(true)) == old(stdout) && old(State(false)) == old(stderr);
      label cleaned: assert clean ==> State(true).done && State(false).done;
      var terminal := ReachTerminal(me, clean);
      label checked: assert terminal <==> State(true).done && State(false).done;
      OtherThreads(me);
      assert Rely(me, old@checked(State(true)), old@checked(LedgerOf(true)), State(true), LedgerOf(true));
      assert Rely(me, old@checked(State(false)), old@checked(LedgerOf(false)), State(false), LedgerOf(false));
      ok := clean && removable;
      if terminal && removable {
        artifact := false;
      }
    }

    /** Whether both streams have ended, at some moment after others went on; a cleanup of
        the readers without error has seen that already. */
    method ReachTerminal(me: nat, clean: bool) returns (terminal: bool)
      requires Valid() && (clean ==> stdout.done && stderr.done)
      modifies this
      ensures Valid() && (!old(artifact) ==> !artifact)
      ensures forall out :: Rely(me, old(State(out)), old(LedgerOf(out)), State(out), LedgerOf(out))
      ensures terminal <==> stdout.done && stderr.done
    {
      OtherThreads(me);
      assert Rely(me, old(State(true)), old(LedgerOf(true)), State(true), LedgerOf(true));
      assert Rely(me, old(State(false)), old(LedgerOf(false)), State(false), LedgerOf(false));
      terminal := true;
      if !clean {
        terminal := OutputReadersTerminal();
      }
    }
  }
}
