/** Values shared by the registry, the protocol and the cleanup context. */
module CodexTypes {
  import opened Options

  datatype Result<+T> = Ok(value: T) | Err(fault: Fault)

  /** The error conditions of the host registries, one per message of the source. */
  datatype Fault =
    | OperationInUse
    | PendingLost
    | PendingSessionMismatch
    | PendingGenerationMismatch
    | ActiveRetained
    | CancelledOrInUse
    | Cancelled
    | ActiveTaken
    | HandleMismatch
    | RegistrationLost
    | LeaseLimit
    | SlotLimit
    | SlotLost
    | TerminationFailed
    | CleanupFailed

  /** Tokens and operation generations are drawn from the same counter. */
  type Token = nat

  /** A run is one spawned child with its handle and its cleanup context. */
  type RunId = nat

  datatype ActiveChild = ActiveChild(session: nat, generation: nat, run: RunId)

  datatype Pending = Pending(generation: nat, session: nat, cancelled: bool)

  datatype Lease = Lease(session: nat, cancelled: bool)

  datatype RecoverySlot = Reserved | Retained(run: RunId) | Retrying

  type ActiveMap = map<Token, ActiveChild>
  type PendingMap = map<Token, Pending>
  type LeaseMap = map<Token, Lease>
  type SlotMap = map<nat, RecoverySlot>

  const PREPARED_LEASE_CAP: nat := 128
  const UNSCOPED_RECOVERY_CAP: nat := 64

  /** An output reader is in its slot, taken out by one thread, or joined for good. */
  datatype Stream = InSlot | Taken(joiner: nat) | Done(failed: bool, joiner: nat)

  /** `handle` says that the shared handle still contains the child; `slot` is the
      recovery slot of a run without an operation token. */
  datatype Run = Run(
    token: Option<Token>,
    slot: nat,
    alive: bool,
    handle: bool,
    stdout: Stream,
    stderr: Stream,
    artifact: bool)
  {
    predicate Joined() {
      stdout.Done? && stderr.Done?
    }

    /** The child has exited, both readers were joined without an error, and the
        output artifact is gone: nothing is left to recover. */
    predicate Settled() {
      !alive && Joined() && !stdout.failed && !stderr.failed && !artifact
    }

    function StreamOf(out: bool): Stream {
      if out then stdout else stderr
    }

    function WithStream(out: bool, x: Stream): Run {
      if out then this.(stdout := x) else this.(stderr := x)
    }
  }
}
