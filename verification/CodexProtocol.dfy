/** The host commands as concurrent threads over the shared registries.

    A thread runs one command. Its program point is made of the command's own point
    (`main`) and of up to three routines that it may be inside: `cancel`, `clean` (the
    cleanup of one run) and `join` (the hand-over of one output reader). Every program
    point lists the locks it carries (`Base`) and those it acquires, one at a time, before
    its critical section runs (`Want`). A step is the start of a command, the acquisition
    of one lock, one critical section, or the exit of a child. */
module CodexProtocol {
  import opened Options
  import opened CodexTypes
  import opened CodexRegistry

  /** D: host operations, A: active children, P: pending operations, L: prepared leases,
      H: the handle of a run, C: the cleanup context of a run, U: recovery slots. */
  datatype Lock = D | A | P | L | H(run: RunId) | C(run: RunId) | U

  datatype Main =
    | PrepEnter | PrepToken | PrepInsert
    | ExEnter | ExLookup | ExExpire | ExBegin | ExTake | ExPre | ExReserve | ExSpawn | ExRecover | ExFinish
    | UxEnter | UxSlot | UxSpawn | UxUnslot
    | RunStdin | RunPoll | RunPost | RunFlag | RunOut | RunErr | RunRead | RunAbort | RunFinal
    | TdEnter | TdSnap | TdCancel | TdWait | TdCheck | TdPend | TdPrep | TdBump
    | RtCollect | RtEach | RtWait
    | CancelOnly

  datatype CancelPc = KNone | KLook | KFlag | KKill | KOut | KErr | KTerm | KDrop | KLease | KPend
  datatype CleanPc = CNone | CTerm | COut | CErr | CArt | CUnreg | CUnslot | CRetain
  datatype JoinPc = JNone | JLook | JPut

  /** A cancel of `op`; `armed` records that it was called, with the session of the
      lease, after the token had been handed out. */
  datatype CancelFrame = CancelFrame(
    pc: CancelPc, op: Token, session: nat, run: RunId, failed: bool, ok: bool, armed: bool)

  datatype CleanFrame = CleanFrame(pc: CleanPc, failed: bool, ok: bool)

  datatype JoinFrame = JoinFrame(pc: JoinPc, out: bool, ok: bool)

  /** The retry of retained owners, and the cancels a teardown still has to make. */
  datatype HostFrame = HostFrame(
    cands: seq<(nat, RunId)>, failed: bool, teardown: bool, init: bool,
    todo: seq<(Token, nat)>, errors: bool)

  /** `scoped` distinguishes a worker run from a run without a token. */
  datatype Thread = Thread(
    main: Main, lk: nat,
    op: Token, session: nat, generation: nat, run: RunId, slot: nat,
    scoped: bool, flagged: bool, res: bool,
    cancel: CancelFrame, clean: CleanFrame, join: JoinFrame, host: HostFrame)

  datatype Registries = Registries(
    active: ActiveMap, pending: PendingMap, prepared: LeaseMap, slots: SlotMap)

  datatype Counters = Counters(session: nat, operation: nat, slot: nat)

  /** History: tokens handed out with their session, tokens whose cancel has returned,
      tokens whose execution returned a result, and whether a teardown dropped the
      pending entry of a child that was still active. */
  datatype History = History(
    minted: map<Token, nat>, fenced: set<Token>, completed: set<Token>, dropped: bool)

  /** `host` is the thread inside a host operation. */
  datatype System = System(
    reg: Registries, count: Counters, runs: seq<Run>,
    threads: map<nat, Thread>, nextThread: nat, host: Option<nat>, past: History)

  datatype JoinOutcome = Bytes | TimedOut | Failed

  /** What the environment decides at one step: success of the system calls, whether a
      polling loop goes round again, expired leases, and the order of map iteration. */
  datatype Choice = Choice(
    ok: bool, ok2: bool, wait: bool, survives: bool, outcome: JoinOutcome,
    expired: set<Token>, cands: seq<(nat, RunId)>, todo: seq<(Token, nat)>)

  // ---------- locks ----------

  predicate IsEnter(m: Main) {
    m.PrepEnter? || m.ExEnter? || m.UxEnter? || m.TdEnter?
  }

  /** Host operations hold D from their entry to their end. */
  predicate InHost(m: Main) {
    !IsEnter(m) && !m.CancelOnly?
  }

  function JoinRun(th: Thread): RunId {
    if th.cancel.pc.KNone? then th.run else th.cancel.run
  }

  function MainBase(m: Main): seq<Lock> {
    if !InHost(m) then []
    else if m.ExSpawn? || m.ExRecover? then [D, A, P]
    else [D]
  }

  function CancelBase(pc: CancelPc): seq<Lock> {
    if pc.KNone? || pc.KLook? then [] else [A]
  }

  function Base(th: Thread): seq<Lock> {
    MainBase(th.main) + CancelBase(th.cancel.pc)
  }

  function CleanWant(pc: CleanPc, run: RunId): seq<Lock> {
    match pc
    case CTerm => [H(run)]
    case CArt => [C(run)]
    case CUnreg => [A, P, H(run)]
    case CUnslot => [H(run), U]
    case CRetain => [U]
    case _ => []
  }

  function CancelWant(pc: CancelPc, run: RunId): seq<Lock> {
    match pc
    case KLook => [A]
    case KFlag => [P]
    case KKill => [H(run)]
    case KTerm => [C(run)]
    case KLease => [L]
    case KPend => [P]
    case _ => []
  }

  function MainWant(m: Main, run: RunId, scoped: bool): seq<Lock> {
    match m
    case PrepEnter => [D]
    case ExEnter => [D]
    case UxEnter => [D]
    case TdEnter => [D]
    case PrepInsert => [L]
    case ExLookup => [L]
    case ExExpire => [L]
    case ExBegin => [P]
    case ExTake => [L]
    case ExPre => [P]
    case ExReserve => [A, P]
    case ExFinish => [A, P]
    case UxSlot => [U]
    case UxUnslot => [U]
    case RunStdin => [H(run)]
    case RunPoll => [H(run)]
    case RunPost => [H(run)]
    case RunFlag => if scoped then [P] else []
    case TdSnap => [A]
    case TdCheck => [A]
    case TdPend => [P]
    case TdPrep => [L]
    case RtCollect => [U]
    case _ => []
  }

  function Want(th: Thread): seq<Lock> {
    if !th.join.pc.JNone? then [C(JoinRun(th))]
    else if !th.clean.pc.CNone? then CleanWant(th.clean.pc, th.run)
    else if !th.cancel.pc.KNone? then CancelWant(th.cancel.pc, th.cancel.run)
    else MainWant(th.main, th.run, th.scoped)
  }

  function Held(th: Thread): seq<Lock> {
    if th.lk <= |Want(th)| then Base(th) + Want(th)[..th.lk] else Base(th)
  }

  predicate Free(s: System, lock: Lock) {
    forall t :: t in s.threads ==> lock !in Held(s.threads[t])
  }

  // ---------- state updates ----------

  function Put(s: System, t: nat, th: Thread): System {
    s.(threads := s.threads[t := th])
  }

  /** The thread goes on at a new point of its command, holding no lock of its `Want`. */
  function At(th: Thread, m: Main): Thread {
    th.(main := m, lk := 0)
  }

  function AtCancel(th: Thread, pc: CancelPc): Thread {
    th.(cancel := th.cancel.(pc := pc), lk := 0)
  }

  function AtClean(th: Thread, pc: CleanPc): Thread {
    th.(clean := th.clean.(pc := pc), lk := 0)
  }

  /** The command returns: the thread is gone and D is free again. */
  function End(s: System, t: nat): System {
    s.(threads := s.threads - {t}, host := if s.host == Some(t) then None else s.host)
  }

  /** The child starts, with its handle, its two readers and its output artifact. */
  function Spawned(token: Option<Token>, slot: nat): Run {
    Run(token, slot, true, true, InSlot, InSlot, true)
  }

  function RunIn(runs: seq<Run>, r: RunId): Run {
    if r < |runs| then runs[r] else Spawned(None, 0)
  }

  function RunAt(s: System, r: RunId): Run {
    RunIn(s.runs, r)
  }

  function SetRun(s: System, r: RunId, run: Run): System {
    if r < |s.runs| then s.(runs := s.runs[r := run]) else s
  }

  function SetActive(s: System, active: ActiveMap): System {
    s.(reg := s.reg.(active := active))
  }

  function SetPending(s: System, pending: PendingMap): System {
    s.(reg := s.reg.(pending := pending))
  }

  function SetPrepared(s: System, prepared: LeaseMap): System {
    s.(reg := s.reg.(prepared := prepared))
  }

  function SetSlots(s: System, slots: SlotMap): System {
    s.(reg := s.reg.(slots := slots))
  }

  function DrawOperation(s: System): System {
    s.(count := s.count.(operation := s.count.operation + 1))
  }

  /** A termination request: success means the child has exited. */
  function Terminate(run: Run, c: Choice): Run {
    run.(alive := run.alive && !c.ok && c.survives)
  }

  // ---------- join: hand-over of one output reader ----------

  function StartJoin(th: Thread, out: bool): Thread {
    th.(join := JoinFrame(JLook, out, false), lk := 0)
  }

  function JoinReturn(s: System, t: nat, th: Thread, ok: bool): System {
    Put(s, t, th.(join := th.join.(pc := JNone, ok := ok), lk := 0))
  }

  function TakeReader(s: System, t: nat, th: Thread, r: RunId, run: Run): System {
    Put(SetRun(s, r, run.WithStream(th.join.out, Taken(t))), t, th.(join := th.join.(pc := JPut), lk := 0))
  }

  function LookStep(s: System, t: nat, th: Thread, r: RunId, run: Run, c: Choice): System {
    match run.StreamOf(th.join.out)
    case Done(failed, _) => JoinReturn(s, t, th, !failed)
    case Taken(_) => if c.wait then Put(s, t, th.(lk := 0)) else JoinReturn(s, t, th, false)
    case InSlot => TakeReader(s, t, th, r, run)
  }

  function PutStep(s: System, t: nat, th: Thread, r: RunId, run: Run, c: Choice): System {
    match c.outcome
    case Bytes => JoinReturn(SetRun(s, r, run.WithStream(th.join.out, Done(false, t))), t, th, true)
    case TimedOut => JoinReturn(SetRun(s, r, run.WithStream(th.join.out, InSlot)), t, th, false)
    case Failed => JoinReturn(SetRun(s, r, run.WithStream(th.join.out, Done(true, t))), t, th, false)
  }

  function JoinStep(s: System, t: nat, th: Thread, r: RunId, c: Choice): System {
    if th.join.pc.JLook? then LookStep(s, t, th, r, RunAt(s, r), c)
    else PutStep(s, t, th, r, RunAt(s, r), c)
  }

  // ---------- clean: cleanup of one run by its execution or by a retry ----------

  function StartClean(th: Thread, m: Main): Thread {
    th.(main := m, clean := CleanFrame(CTerm, false, false), lk := 0)
  }

  function CleanReturn(s: System, t: nat, th: Thread, ok: bool): System {
    Put(s, t, th.(clean := th.clean.(pc := CNone, ok := ok), lk := 0))
  }

  /** A cleanup with errors: a run without a token goes to its recovery slot. */
  function CleanFail(s: System, t: nat, th: Thread): System {
    if th.scoped then CleanReturn(s, t, th, false) else Put(s, t, AtClean(th, CRetain))
  }

  /** Adds the outcome of the join just made to the errors of the cleanup. */
  function CleanJoined(th: Thread, pc: CleanPc): Thread {
    th.(clean := th.clean.(pc := pc, failed := th.clean.failed || !th.join.ok), lk := 0)
  }

  function TermStep(s: System, t: nat, th: Thread, run: Run, c: Choice): System {
    if !run.handle then Put(s, t, StartJoin(AtClean(th, COut), true))
    else if c.ok then Put(SetRun(s, th.run, Terminate(run, c)), t, StartJoin(AtClean(th, COut), true))
    else CleanFail(SetRun(s, th.run, Terminate(run, c)), t, th)
  }

  function ArtStep(s: System, t: nat, th: Thread, run: Run, c: Choice): System {
    if !c.ok || (th.clean.failed && !run.Joined()) then CleanFail(s, t, th)
    else if th.clean.failed then CleanFail(SetRun(s, th.run, run.(artifact := false)), t, th)
    else Put(SetRun(s, th.run, run.(artifact := false)), t, AtClean(th, if th.scoped then CUnreg else CUnslot))
  }

  function UnregStep(s: System, t: nat, th: Thread, run: Run): System {
    match Unregister(s.reg.active, s.reg.pending, th.op, th.run)
    case Ok(active) => CleanReturn(SetActive(SetRun(s, th.run, run.(handle := false)), active), t, th, true)
    case Err(_) => CleanReturn(s, t, th, false)
  }

  function UnslotStep(s: System, t: nat, th: Thread, run: Run): System {
    match ReleaseSlot(s.reg.slots, th.slot)
    case Ok(slots) => CleanReturn(SetSlots(SetRun(s, th.run, run.(handle := false)), slots), t, th, true)
    case Err(_) => CleanReturn(s, t, th, false)
  }

  function RetainStep(s: System, t: nat, th: Thread): System {
    match RetainSlot(s.reg.slots, th.slot, th.run)
    case Ok(slots) => CleanReturn(SetSlots(s, slots), t, th, false)
    case Err(_) => CleanReturn(s, t, th, false)
  }

  function CleanStep(s: System, t: nat, th: Thread, c: Choice): System {
    match th.clean.pc
    case CTerm => TermStep(s, t, th, RunAt(s, th.run), c)
    case COut => Put(s, t, StartJoin(CleanJoined(th, CErr), false))
    case CErr => Put(s, t, CleanJoined(th, CArt))
    case CArt => ArtStep(s, t, th, RunAt(s, th.run), c)
    case CUnreg => UnregStep(s, t, th, RunAt(s, th.run))
    case CUnslot => UnslotStep(s, t, th, RunAt(s, th.run))
    case _ => RetainStep(s, t, th)
  }

  // ---------- cancel ----------

  function StartCancel(past: History, th: Thread, op: Token, session: nat): Thread {
    th.(cancel := CancelFrame(KLook, op, session, 0, false, false,
                              op in past.minted && past.minted[op] == session),
        lk := 0)
  }

  function Fenced(past: History, k: CancelFrame): History {
    if k.armed then past.(fenced := past.fenced + {k.op}) else past
  }

  function CancelReturn(s: System, t: nat, th: Thread, ok: bool): System {
    Put(s.(past := Fenced(s.past, th.cancel)), t, th.(cancel := th.cancel.(pc := KNone, ok := ok), lk := 0))
  }

  function CancelJoined(th: Thread, pc: CancelPc): Thread {
    th.(cancel := th.cancel.(pc := pc, failed := th.cancel.failed || !th.join.ok), lk := 0)
  }

  function CancelLook(s: System, t: nat, th: Thread, op: Token): System {
    if op !in s.reg.active then Put(s, t, AtCancel(th, KLease))
    else if s.reg.active[op].session != th.cancel.session then CancelReturn(s, t, th, true)
    else Put(s, t, th.(cancel := th.cancel.(pc := KFlag, run := s.reg.active[op].run), lk := 0))
  }

  function CancelFlag(s: System, t: nat, th: Thread, op: Token): System {
    if op !in s.reg.active then CancelReturn(s, t, th, false)
    else match FlagActive(s.reg.active, s.reg.pending, op, th.cancel.session)
      case Ok(pending) => Put(SetPending(s, pending), t, AtCancel(th, KKill))
      case Err(_) => CancelReturn(s, t, th, false)
  }

  function CancelKill(s: System, t: nat, th: Thread, r: RunId, run: Run, c: Choice): System {
    if !run.handle then Put(s, t, StartJoin(AtCancel(th, KOut), true))
    else if c.ok then Put(SetRun(s, r, Terminate(run, c)), t, StartJoin(AtCancel(th, KOut), true))
    else CancelReturn(SetRun(s, r, Terminate(run, c)), t, th, false)
  }

  function CancelTerm(s: System, t: nat, th: Thread, r: RunId, run: Run, c: Choice): System {
    if !c.ok || (th.cancel.failed && !run.Joined()) then CancelReturn(s, t, th, false)
    else if th.cancel.failed then CancelReturn(SetRun(s, r, run.(artifact := false)), t, th, false)
    else Put(SetRun(s, r, run.(artifact := false)), t, AtCancel(th, KDrop))
  }

  function CancelStep(s: System, t: nat, th: Thread, k: CancelFrame, c: Choice): System {
    match k.pc
    case KLook => CancelLook(s, t, th, k.op)
    case KFlag => CancelFlag(s, t, th, k.op)
    case KKill => CancelKill(s, t, th, k.run, RunAt(s, k.run), c)
    case KOut => Put(s, t, StartJoin(CancelJoined(th, KErr), false))
    case KErr => Put(s, t, CancelJoined(th, KTerm))
    case KTerm => CancelTerm(s, t, th, k.run, RunAt(s, k.run), c)
    case KDrop => CancelReturn(SetActive(s, s.reg.active - {k.op}), t, th, true)
    case KLease => Put(SetPrepared(s, CancelLease(s.reg.prepared, k.op, k.session)), t, AtCancel(th, KPend))
    case _ => CancelReturn(SetPending(s, FlagPending(s.reg.pending, k.op, k.session)), t, th, true)
  }

  // ---------- the commands ----------

  predicate CurrentSession(s: System, session: nat) {
    session == s.count.session && session != 0
  }

  function NextSession(current: nat): nat {
    var next := (current + 1) % 0x1_0000_0000_0000_0000;
    if next < 1 then 1 else next
  }

  function Enter(s: System, t: nat, th: Thread, ok: bool, next: Main): System {
    if ok then Put(s.(host := Some(t)), t, At(th, next)) else End(s, t)
  }

  function Goto(s: System, t: nat, th: Thread, next: Main): System {
    Put(s, t, At(th, next))
  }

  function GoFinish(s: System, t: nat, th: Thread, res: bool): System {
    Put(s, t, th.(main := ExFinish, res := res, lk := 0))
  }

  function InsertStep(s: System, t: nat, th: Thread, pruned: LeaseMap): System {
    match InsertLease(pruned, th.op, th.session)
    case Ok(prepared) =>
      End(SetPrepared(s, prepared).(past := s.past.(minted := s.past.minted[th.op := th.session])), t)
    case Err(_) => End(SetPrepared(s, pruned), t)
  }

  function PrepareStep(s: System, t: nat, th: Thread, c: Choice): System {
    match th.main
    case PrepEnter => Enter(s, t, th, c.ok && CurrentSession(s, th.session), PrepToken)
    case PrepToken => Put(DrawOperation(s), t, th.(main := PrepInsert, op := s.count.operation, lk := 0))
    case _ => InsertStep(s, t, th, PruneLeases(s.reg.prepared, c.expired))
  }

  function LookupStep(s: System, t: nat, th: Thread, op: Token, c: Choice): System {
    if op !in s.reg.prepared then End(s, t)
    else if op in c.expired then Goto(s, t, th, ExExpire)
    else if s.reg.prepared[op].session != th.session || !c.ok then End(s, t)
    else Goto(s, t, th, ExBegin)
  }

  function BeginStep(s: System, t: nat, th: Thread): System {
    match BeginPending(s.reg.pending, s.count.operation, th.op, th.session)
    case Ok(pending) =>
      Put(DrawOperation(SetPending(s, pending)), t,
          th.(main := ExTake, generation := s.count.operation, lk := 0))
    case Err(_) => End(s, t)
  }

  function TakeStep(s: System, t: nat, th: Thread, op: Token): System {
    if op !in s.reg.prepared then GoFinish(s, t, th, false)
    else if s.reg.prepared[op].cancelled then
      GoFinish(SetPrepared(s, s.reg.prepared - {op}), t, th, false)
    else Goto(SetPrepared(s, s.reg.prepared - {op}), t, th, ExPre)
  }

  function PreStep(s: System, t: nat, th: Thread, c: Choice): System {
    if !c.ok || TakeCancelled(s.reg.pending, th.op) || !c.ok2 then GoFinish(s, t, th, false)
    else Goto(s, t, th, ExReserve)
  }

  function ReserveStep(s: System, t: nat, th: Thread): System {
    if Reserve(s.reg.active, s.reg.pending, th.op, th.session, th.generation).Ok? then Goto(s, t, th, ExSpawn)
    else GoFinish(s, t, th, false)
  }

  function AddRun(s: System, run: Run): System {
    s.(runs := s.runs + [run])
  }

  function StartRun(th: Thread, m: Main, r: RunId, scoped: bool): Thread {
    th.(main := m, run := r, scoped := scoped, lk := 0)
  }

  function SpawnStep(s: System, t: nat, th: Thread, r: RunId, c: Choice): System {
    if !c.ok then GoFinish(s, t, th, false)
    else match Register(s.reg.active, s.reg.pending, th.op, ActiveChild(th.session, th.generation, r))
      case Ok(active) =>
        Put(SetActive(AddRun(s, Spawned(Some(th.op), 0)), active), t, StartRun(th, RunStdin, r, true))
      case Err(_) =>
        Put(AddRun(s, Spawned(Some(th.op), 0)), t, StartRun(th, ExRecover, r, true))
  }

  /** A child whose registration was refused is cleaned up on the spot, or else
      registered after all so that a later cancel can reach it. */
  function RecoverStep(s: System, t: nat, th: Thread, run: Run, c: Choice): System {
    if c.ok then
      GoFinish(SetRun(s, th.run, Run(run.token, run.slot, false, false, Done(false, t), Done(false, t), false)),
               t, th, false)
    else
      GoFinish(SetActive(s, s.reg.active[th.op := ActiveChild(th.session, th.generation, th.run)]), t, th, false)
  }

  function Complete(past: History, op: Token): History {
    past.(completed := past.completed + {op})
  }

  function FinishStep(s: System, t: nat, th: Thread): System {
    match FinishPending(s.reg.active, s.reg.pending, th.op, th.generation)
    case Ok(cancelled) =>
      if !cancelled && th.res then
        End(SetPending(s, s.reg.pending - {th.op}).(past := Complete(s.past, th.op)), t)
      else End(SetPending(s, s.reg.pending - {th.op}), t)
    case Err(_) => End(s, t)
  }

  function ExecStep(s: System, t: nat, th: Thread, c: Choice): System {
    match th.main
    case ExEnter => Enter(s, t, th, c.ok && CurrentSession(s, th.session), ExLookup)
    case ExLookup => LookupStep(s, t, th, th.op, c)
    case ExExpire => End(SetPrepared(s, s.reg.prepared - {th.op}), t)
    case ExBegin => BeginStep(s, t, th)
    case ExTake => TakeStep(s, t, th, th.op)
    case ExPre => PreStep(s, t, th, c)
    case ExReserve => ReserveStep(s, t, th)
    case ExSpawn => SpawnStep(s, t, th, |s.runs|, c)
    case ExRecover => RecoverStep(s, t, th, RunAt(s, th.run), c)
    case _ => FinishStep(s, t, th)
  }

  function SlotStep(s: System, t: nat, th: Thread, key: nat): System {
    match ReserveSlot(s.reg.slots, key)
    case Ok(slots) =>
      Put(SetSlots(s, slots).(count := s.count.(slot := key + 1)), t, th.(main := UxSpawn, slot := key, lk := 0))
    case Err(_) => End(s, t)
  }

  function UnscopedStep(s: System, t: nat, th: Thread, c: Choice): System {
    match th.main
    case UxEnter => Enter(s, t, th, true, RtCollect)
    case UxSlot => SlotStep(s, t, th, s.count.slot)
    case UxSpawn =>
      if !c.ok then Goto(s, t, th, UxUnslot)
      else Put(AddRun(s, Spawned(None, th.slot)), t, StartRun(th, RunStdin, |s.runs|, false))
    case _ => End(SetSlots(s, s.reg.slots - {th.slot}), t)
  }

  /** The result of a run becomes known; a worker still has to finish its operation. */
  function RunReturn(s: System, t: nat, th: Thread, res: bool): System {
    if th.scoped then GoFinish(s, t, th, res) else End(s, t)
  }

  function GoAbort(s: System, t: nat, th: Thread): System {
    Put(s, t, StartClean(th, RunAbort))
  }

  function PollStep(s: System, t: nat, th: Thread, run: Run, c: Choice): System {
    if !run.handle then GoAbort(s, t, th)
    else if !run.alive && c.ok then Goto(s, t, th, RunPost)
    else if run.alive && c.wait then Put(s, t, th.(lk := 0))
    else GoAbort(s, t, th)
  }

  function PostStep(s: System, t: nat, th: Thread, run: Run, c: Choice): System {
    if !run.handle then (if c.ok2 then Goto(s, t, th, RunFlag) else GoAbort(s, t, th))
    else if c.ok && c.ok2 then Goto(SetRun(s, th.run, Terminate(run, c)), t, th, RunFlag)
    else GoAbort(SetRun(s, th.run, Terminate(run, c)), t, th)
  }

  function FlagThread(th: Thread, flagged: bool): Thread {
    th.(main := RunOut, flagged := flagged)
  }

  function RunStep(s: System, t: nat, th: Thread, run: Run, c: Choice): System {
    match th.main
    case RunStdin => if run.handle then Goto(s, t, th, RunPoll) else GoAbort(s, t, th)
    case RunPoll => PollStep(s, t, th, run, c)
    case RunPost => PostStep(s, t, th, run, c)
    case RunFlag =>
      Put(s, t, StartJoin(FlagThread(th, th.scoped && TakeCancelled(s.reg.pending, th.op)), true))
    case RunOut => if th.join.ok then Put(s, t, StartJoin(At(th, RunErr), false)) else GoAbort(s, t, th)
    case RunErr => if th.join.ok then Goto(s, t, th, RunRead) else GoAbort(s, t, th)
    case RunRead => if th.flagged || !c.ok then GoAbort(s, t, th) else Put(s, t, StartClean(th, RunFinal))
    case RunAbort => RunReturn(s, t, th, false)
    case _ => RunReturn(s, t, th, th.clean.ok && c.ok)
  }

  function SetHost(th: Thread, m: Main, host: HostFrame): Thread {
    th.(main := m, host := host, lk := 0)
  }

  function RetryStart(th: Thread, slot: nat, run: RunId): Thread {
    StartClean(th.(slot := slot, run := run, scoped := false), RtWait)
  }

  function EachStep(s: System, t: nat, th: Thread, host: HostFrame, c: Choice): System {
    if host.cands != [] then Put(s, t, RetryStart(th, host.cands[0].0, host.cands[0].1))
    else if host.failed then End(s, t)
    else if host.teardown then Goto(s, t, th, TdSnap)
    else if c.ok then Goto(s, t, th, UxSlot)
    else End(s, t)
  }

  function RetryPop(host: HostFrame, ok: bool): HostFrame {
    host.(failed := host.failed || !ok, cands := if host.cands == [] then [] else host.cands[1..])
  }

  function RetryStep(s: System, t: nat, th: Thread, c: Choice): System {
    match th.main
    case RtCollect =>
      Put(SetSlots(s, StartRetry(s.reg.slots)), t,
          SetHost(th, RtEach, th.host.(cands := c.cands, failed := false)))
    case RtEach => EachStep(s, t, th, th.host, c)
    case _ => Put(s, t, SetHost(th, RtEach, RetryPop(th.host, th.clean.ok)))
  }

  function TeardownPop(host: HostFrame, ok: bool): HostFrame {
    host.(errors := host.errors || !ok, todo := if host.todo == [] then [] else host.todo[1..])
  }

  function NextCancel(s: System, t: nat, th: Thread, todo: seq<(Token, nat)>): System {
    if todo == [] then Goto(s, t, th, TdCheck)
    else Put(s, t, StartCancel(s.past, At(th, TdWait), todo[0].0, todo[0].1))
  }

  ghost predicate Dropping(active: ActiveMap, pending: PendingMap) {
    exists op :: op in pending && op in active
  }

  ghost function DropPending(s: System): System {
    SetPending(s, RetainUncancelled(s.reg.pending))
      .(past := s.past.(dropped := s.past.dropped || Dropping(s.reg.active, s.reg.pending)))
  }

  ghost function PendStep(s: System, t: nat, th: Thread): System {
    if Unresolved(s.reg.pending) then End(s, t)
    else if th.host.errors then End(DropPending(s), t)
    else Goto(DropPending(s), t, th, TdPrep)
  }

  ghost function TeardownStep(s: System, t: nat, th: Thread, c: Choice): System {
    match th.main
    case TdEnter => Enter(s, t, th, c.ok && (th.host.init || CurrentSession(s, th.session)), RtCollect)
    case TdSnap => Put(s, t, SetHost(th, TdCancel, th.host.(todo := c.todo, errors := false)))
    case TdCancel => NextCancel(s, t, th, th.host.todo)
    case TdWait => Put(s, t, SetHost(th, TdCancel, TeardownPop(th.host, th.cancel.ok)))
    case TdCheck =>
      Put(s, t, SetHost(th, TdPend, th.host.(errors := th.host.errors || s.reg.active != map[])))
    case TdPend => PendStep(s, t, th)
    case TdPrep => Goto(SetPrepared(s, map[]), t, th, TdBump)
    case _ => End(s.(count := s.count.(session := NextSession(s.count.session))), t)
  }

  predicate PrepareMain(m: Main) {
    m.PrepEnter? || m.PrepToken? || m.PrepInsert?
  }

  predicate ExecMain(m: Main) {
    m.ExEnter? || m.ExLookup? || m.ExExpire? || m.ExBegin? || m.ExTake? || m.ExPre? || m.ExReserve?
    || m.ExSpawn? || m.ExRecover? || m.ExFinish?
  }

  predicate UnscopedMain(m: Main) {
    m.UxEnter? || m.UxSlot? || m.UxSpawn? || m.UxUnslot?
  }

  predicate RunMain(m: Main) {
    m.RunStdin? || m.RunPoll? || m.RunPost? || m.RunFlag? || m.RunOut? || m.RunErr? || m.RunRead?
    || m.RunAbort? || m.RunFinal?
  }

  predicate RetryMain(m: Main) {
    m.RtCollect? || m.RtEach? || m.RtWait?
  }

  ghost function MainStep(s: System, t: nat, th: Thread, c: Choice): System {
    if PrepareMain(th.main) then PrepareStep(s, t, th, c)
    else if ExecMain(th.main) then ExecStep(s, t, th, c)
    else if UnscopedMain(th.main) then UnscopedStep(s, t, th, c)
    else if RunMain(th.main) then RunStep(s, t, th, RunAt(s, th.run), c)
    else if RetryMain(th.main) then RetryStep(s, t, th, c)
    else if th.main.CancelOnly? then End(s, t)
    else TeardownStep(s, t, th, c)
  }

  ghost function ThreadStep(s: System, t: nat, th: Thread, c: Choice): System {
    if !th.join.pc.JNone? then JoinStep(s, t, th, JoinRun(th), c)
    else if !th.clean.pc.CNone? then CleanStep(s, t, th, c)
    else if !th.cancel.pc.KNone? then CancelStep(s, t, th, th.cancel, c)
    else MainStep(s, t, th, c)
  }

  // ---------- steps and executions ----------

  datatype Call =
    | Prepare(session: nat)
    | Execute(op: Token, session: nat)
    | ExecuteUnscoped
    | Cancel(op: Token, session: nat)
    | InitSession
    | ClearSession(session: nat)

  datatype Event = Start(call: Call) | Acquire(t: nat) | Work(t: nat, c: Choice) | Exit(r: RunId)

  function Blank(m: Main): Thread {
    Thread(m, 0, 0, 0, 0, 0, 0, false, false, false,
           CancelFrame(KNone, 0, 0, 0, false, false, false), CleanFrame(CNone, false, false),
           JoinFrame(JNone, false, false), HostFrame([], false, false, false, [], false))
  }

  function TeardownThread(init: bool, session: nat): Thread {
    Blank(TdEnter).(host := HostFrame([], false, true, init, [], false), session := session)
  }

  function NewThread(past: History, call: Call): Thread {
    match call
    case Prepare(session) => Blank(PrepEnter).(session := session)
    case Execute(op, session) => Blank(ExEnter).(op := op, session := session)
    case ExecuteUnscoped => Blank(UxEnter)
    case Cancel(op, session) => StartCancel(past, Blank(CancelOnly), op, session)
    case InitSession => TeardownThread(true, 0)
    case ClearSession(session) => TeardownThread(false, session)
  }

  /** Calls with session zero are refused before any lock is taken. */
  predicate Accepted(call: Call) {
    (call.Prepare? || call.Cancel?) ==> call.session != 0
  }

  /** `todo` lists every active child once with its session, in some order. */
  ghost predicate Snapshot(active: ActiveMap, todo: seq<(Token, nat)>) {
    && (forall i :: 0 <= i < |todo| ==> todo[i].0 in active && active[todo[i].0].session == todo[i].1)
    && (forall op :: op in active ==> exists i :: 0 <= i < |todo| && todo[i].0 == op)
    && (forall i, j :: 0 <= i < j < |todo| ==> todo[i].0 != todo[j].0)
  }

  /** The map iterations of a choice must enumerate the maps as they are. */
  ghost predicate Allowed(s: System, th: Thread, c: Choice) {
    && (th.main.RtCollect? ==> RetryCandidates(s.reg.slots, c.cands))
    && (th.main.TdSnap? ==> Snapshot(s.reg.active, c.todo))
  }

  ghost predicate CanAcquire(s: System, th: Thread) {
    th.lk < |Want(th)| && Free(s, Want(th)[th.lk])
  }

  ghost predicate CanWork(s: System, th: Thread, c: Choice) {
    th.lk == |Want(th)| && Allowed(s, th, c)
  }

  ghost predicate Enabled(s: System, e: Event) {
    match e
    case Start(call) => Accepted(call)
    case Acquire(t) => t in s.threads && CanAcquire(s, s.threads[t])
    case Work(t, c) => t in s.threads && CanWork(s, s.threads[t], c)
    case Exit(r) => r < |s.runs| && s.runs[r].alive
  }

  function StartStep(s: System, call: Call): System {
    s.(threads := s.threads[s.nextThread := NewThread(s.past, call)], nextThread := s.nextThread + 1)
  }

  function AcquireStep(s: System, t: nat, th: Thread): System {
    Put(s, t, th.(lk := th.lk + 1))
  }

  function ExitStep(s: System, r: RunId): System {
    SetRun(s, r, RunAt(s, r).(alive := false))
  }

  ghost function Next(s: System, e: Event): System
    requires Enabled(s, e)
  {
    match e
    case Start(call) => StartStep(s, call)
    case Acquire(t) => AcquireStep(s, t, s.threads[t])
    case Work(t, c) => ThreadStep(s, t, s.threads[t], c)
    case Exit(r) => ExitStep(s, r)
  }

  function Initial(): System {
    System(Registries(map[], map[], map[], map[]), Counters(0, 0, 0), [], map[], 0, None,
           History(map[], {}, {}, false))
  }

  /** `states` follow one another under `events`. */
  ghost predicate Path(states: seq<System>, events: seq<Event>) {
    && |states| == |events| + 1
    && forall i :: 0 <= i < |events| ==> Enabled(states[i], events[i]) && states[i + 1] == Next(states[i], events[i])
  }

  /** `states` are the successive states of a run of the system under `events`. */
  ghost predicate Execution(states: seq<System>, events: seq<Event>) {
    Path(states, events) && states[0] == Initial()
  }
}
