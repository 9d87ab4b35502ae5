# SlimeMold host and agents: a verified model

This project models five parts of SlimeMold and proves what they guarantee.

**The Codex worker protocol of the Rust host** (`src-tauri/src/codex*.rs`, `lib.rs`) is the
main part. A worker call takes a prepared lease, becomes a pending operation, reserves its
spawn, registers a child, polls it, joins its two output readers, cleans up and finishes.
Cancels may strike from other threads at every moment, and a session command may tear
everything down and install a new session generation.

- `CodexTypes` and `CodexRegistry` hold the registries: each critical section as a function
  on the maps, and the object that owns the maps, whose methods are proved against those
  functions and keep its generations unique and its sizes bounded.
- `CodexProtocol` is the concurrent system: any number of threads, each at a program point
  of one command, with the locks it carries and wants. A step is the start of a command, the
  acquisition of one lock, one critical section, or the exit of a child. Success of kills,
  joins and removals, expiry of leases, waiting and the order of map iteration are free
  choices at each step.
- `CodexInvariant` is the inductive invariant, by concern. `CodexFrames`, `CodexMoves` and
  the modules named `Codex...Steps` and `CodexCancel...` show that each step keeps it;
  `CodexReachable` closes the induction over executions.
- `CodexEffects` says what one step can change, `CodexLinks` what it does to the entries of
  one token and `CodexOnward` how far it takes its own thread. `CodexTheorems`,
  `CodexGuarantees`, `CodexStuck`, `CodexLocks` and `CodexProgress` draw the conclusions.
- `CodexRescue` and `CodexSettle` construct schedules: how a cancel is brought to its end
  through the locks and readers of others, and how any state is brought to rest. From them
  `CodexLost` and `CodexRecovery` prove what can never be mended and that all else can.
- `CodexTrace`, `CodexSuccessTrace` and `CodexStuckTrace` build concrete executions.
- `CodexCleanup` is the cleanup context as a mutable object that several cleaners share,
  with the interference of other threads between its critical sections. Its sections are
  tied to the protocol's view of a stream by `Abstract`.

**Pane resizing** (`PanelResize`): drag sessions whose start and end call into pointer
capture, which may start and end sessions again, to any depth.

**The incremental reader of `data:` lines** (`SseReader`, with `Text`): a loop over chunks
of bytes against reading the whole text at once. It is a line rule only and claims nothing
about the event-stream format of the WHATWG HTML Standard, section 9.2.

**Agent routing** (`RouterScoring`, `AgentRouter`): prices, scores, the stable order of
candidates, the fixed order of fallbacks and the cost-aware choice.

**The agent loop** (`Harness`): rounds, retries, tool calls, the transcript they build and
the trimming of the history.

## Findings

- The link between an active child and its pending operation can break. A session teardown
  whose cancel fails has flagged the operation, and then drops it although the child is
  still registered (`src-tauri/src/codex.rs:158-168`). `LinkChangesExactly` says for every
  reachable state which step breaks a link and which mends one, and `LinkCanBreak` gives an
  execution that ends there with the child alive. `DropLosesExactly` says which children
  such a teardown loses for good, and `LostExactly` which children are lost in any reachable
  state: a cancel that found the operation in time may still end the child, unless it has
  met an error.
- A lost child and a reader that ended in an error are the only two things that keep the
  host from ever starting a new session again, whatever is in progress
  (`RecoverableExactly`).
- The recovery branch for a child whose registration fails, the teardown error for an
  operation that is not cancelled, and the refusal of a recovery slot are unreachable.
- The reminder of the agent loop for several rounds without tool calls
  (`src/agents/harness.ts:275-279`) can never be given: a second round happens only after a
  tool call (`NeverNudges`).
- The comment above `resolveAgentScored` lists route, fallbacks, default and all agents as
  candidates; the code stops at the route if there is one, and fails if none of its agents
  can be called. The model follows the code.

## Assumptions

- Locks are never poisoned and threads never panic. Atomic counters do not wrap; the session
  generation does, as in the source.
- `assert_session_generation` succeeds only for the current, nonzero generation, and may
  fail for other reasons. Calls with generation zero are refused before any lock is taken.
- A termination request that reports success means that the child has exited. A child that
  has exited stays so. A spawned child has both of its readers.
- Sections that hold one lock and call nothing are one step; other host operations under the
  host lock that touch none of these registries are not modelled.
- Prices, weights and scores are exact reals. Lower-casing, the price table, the model
  tiers, JSON parsing, the model provider, the tools and token estimates are arbitrary
  functions.

## Model

| member | source | states |
|---|---|---|
| CodexRegistry.ReservationAdmitsRegistration | src-tauri/src/codex_registry.rs:151-233 | under a held reservation the registration succeeds exactly when the reservation did |
| CodexRegistry.RegistrationFencesFinish | src-tauri/src/codex_registry.rs:81-108 | a registered child blocks the finish of its operation and a second reservation, and unregistering restores the registry exactly |
| CodexRegistry.CodexRegistries.BeginPendingOperation | src-tauri/src/codex_registry.rs:59-79 | an uncancelled entry with a generation that no other entry has, exactly when the token is not pending; else no change at all |
| CodexRegistry.CodexRegistries.FinishPendingOperation | src-tauri/src/codex_registry.rs:81-108 | the entry goes and its flag is reported exactly when token and generation match and no child of it is active; the generation is then gone |
| CodexRegistry.CodexRegistries.ReserveAndSpawn | src-tauri/src/codex_registry.rs:201-233 | the child is registered, with its handle, exactly when the reservation holds and the spawn succeeds |
| CodexRegistry.CodexRegistries.RegisterChild | src-tauri/src/codex_registry.rs:150-182 | every refusal in the order of the source, otherwise one new active entry; accepted exactly when a reservation would be |
| CodexRegistry.CodexRegistries.UnregisterChild | src-tauri/src/codex.rs:321-362 | the entry goes only for its own handle with a matching pending generation; without an entry only a cancelled operation is accepted; the handle is emptied exactly on success |
| CodexRegistry.CodexRegistries.WorkerCancel | src-tauri/src/codex.rs:811-901 | with other commands at work between its sections: success leaves no child of the session registered, an error keeps it; when the kill and the cleanup decide; lease and pending entry of the session are withdrawn or flagged; other tokens keep their children |
| CodexRegistry.CodexRegistries.PrepareLease | src-tauri/src/codex.rs:188-219 | the number is used up even when the lease is refused; the registry is pruned first and never passes its cap |
| CodexRegistry.CodexRegistries.ReserveRecoverySlot | src-tauri/src/codex.rs:54-69 | a full registry is refused without drawing a number; otherwise the first unused number from the counter on is reserved |
| CodexRegistry.CodexRegistries.RetainRecovery | src-tauri/src/codex.rs:71-89 | a slot takes an owner, but an owner already there stays |
| CodexRegistry.CodexRegistries.ReleaseRecoverySlot | src-tauri/src/codex.rs:91-99 | the slot goes, or the loss is reported |
| CodexRegistry.CodexRegistries.CollectRetained | src-tauri/src/codex.rs:101-133 | every retained owner is listed once and marked as being retried, other slots stay |
| CodexRegistry.CodexRegistries.FinishTeardown | src-tauri/src/codex.rs:149-176 | success exactly when nothing failed, no child is active and every operation is flagged; what is dropped in each case |
| CodexReachable.StepInvariant | src-tauri/src/codex.rs:54-901 | every step of every command keeps the invariant |
| CodexReachable.Reachable | src-tauri/src/codex.rs:54-901 | the invariant holds in every state of every execution |
| CodexTheorems.RegistrationNeverFails | src-tauri/src/codex_process.rs:181-301 | a spawn happens only for an uncancelled operation whose token never had a child, its registration succeeds, and the recovery branch is never entered |
| CodexTheorems.NoOrphanChild | src-tauri/src/codex_process.rs:240-301 | every child that is not dead and cleaned up is in the active registry, or has a recovery slot that names it or that the running host operation is working on |
| CodexTheorems.ReleasedOnlyWhenSettled | src-tauri/src/codex.rs:364-435 | no step lets go of a child before it is dead, joined without error and without artifact |
| CodexTheorems.StepMonotone | src-tauri/src/codex_cleanup.rs:149-258 | no step revives a child, undoes the end of a stream, forgets a run or a fact of the history |
| CodexTheorems.ExecutionMonotone | src-tauri/src/codex_cleanup.rs:149-258 | the same between any two states of an execution |
| CodexTheorems.OneReaderPerStream | src-tauri/src/codex_cleanup.rs:154-182 | at most one thread holds the reader of a stream, whoever the cleaners are |
| CodexTheorems.ReaderNeverLost | src-tauri/src/codex_cleanup.rs:149-258 | a reader is in its slot, with a thread that still exists, or joined; the artifact goes only after both ends |
| CodexTheorems.JoinedForGood | src-tauri/src/codex_cleanup.rs:159-170 | the end of a stream, with its error and the thread that got the bytes, never changes |
| CodexTheorems.FailedStreamStays | src-tauri/src/codex.rs:387-434 | after a reader error the run is never settled and stays accounted for, in every later state |
| CodexTheorems.FailedStreamNeverSucceeds | src-tauri/src/codex.rs:364-435 | after a reader error no cleanup of that run, by a finishing or an aborting execution or by a retry, comes back without an error, and no cancel drops its entry |
| CodexGuarantees.SessionChangesOnlyWhenClean | src-tauri/src/lib.rs:307-352 | the session generation changes only when all registries are empty and every child ever started is dead and cleaned up |
| CodexGuarantees.TeardownAdvancesSession | src-tauri/src/lib.rs:323-324 | the end of a session command finds everything clean and installs a different nonzero generation |
| CodexGuarantees.SessionsUniform | src-tauri/src/codex_registry.rs:59-79 | every lease, operation and child carries the current session and a token made for it |
| CodexLinks.LinkUntilDropped | src-tauri/src/codex_registry.rs:201-233 | until a teardown drops a flagged operation, every active child has its pending entry with the same generation and session |
| CodexLinks.EventEntries | src-tauri/src/codex.rs:54-901 | every event leaves the entries of a token as they are, or begins, registers, finishes, drops or releases its operation or child, under the conditions of those sections |
| CodexLinks.LinkChangesExactly | src-tauri/src/codex.rs:158-877 | in every reachable state and for every token: exactly the pending section of a teardown that finds the child active breaks its link, and exactly the last section of a cancel mends a broken one |
| CodexLinks.LinkBrokenExactly | src-tauri/src/codex.rs:158-168 | from every reachable state in which all links hold, a step breaks one exactly when it is the pending section of a teardown that finds a child still active |
| CodexLinks.GenerationsUnique | src-tauri/src/codex_registry.rs:59-79 | every generation in use was drawn before, and belongs to no other token, as operation or as child, now or at any later moment |
| CodexGuarantees.OperationsQuiescent | src-tauri/src/codex.rs:751-803 | outside its own execution an operation is pending only if cancelled or with its child active |
| CodexGuarantees.TeardownFindsOnlyFlagged | src-tauri/src/codex.rs:160-168 | the error branch for an uncancelled operation is unreachable |
| CodexGuarantees.TokensSingleUse | src-tauri/src/codex.rs:732-773 | a token leads to at most one child, and is not prepared any more |
| CodexGuarantees.TokensFresh | src-tauri/src/codex.rs:188-219 | a token that is about to be handed out was never handed out before, in any session, and is unknown to all registries and children |
| CodexGuarantees.PreparedBounded | src-tauri/src/codex.rs:196-219 | never more than 128 prepared leases |
| CodexGuarantees.AtMostOneRecovery | src-tauri/src/codex.rs:101-133 | at most one recovery slot, retained between host operations, and a reservation that cannot be refused |
| CodexGuarantees.ResultIsOwn | src-tauri/src/codex.rs:798-803 | a call that is about to return a result: not cancelled, the only child dead and cleaned up, and both outputs joined by this call itself |
| CodexGuarantees.ResultOnce | src-tauri/src/codex.rs:798-803 | a token returns at most one result |
| CodexGuarantees.FinishFindsOwnEntry | src-tauri/src/codex_registry.rs:81-108 | a finish always finds the entry that its own call began; it is refused exactly while a child is still registered, and never after a clean run |
| CodexGuarantees.FencedForever | src-tauri/src/codex.rs:879-899 | once a cancel has returned, no later result and no later child for its token |
| CodexGuarantees.NoLostCancellation | src-tauri/src/codex.rs:811-901 | a cancel called after the token was handed out and returned before the operation completed stops the operation for good, under every interleaving |
| CodexGuarantees.OkCancelEnds | src-tauri/src/codex.rs:811-901 | when a cancel called after the token was handed out returns without an error, every child the token ever had is dead and cleaned up, then and in every later state |
| CodexGuarantees.FailedStreamRefusesCancel | src-tauri/src/codex.rs:848-877 | if a reader of a child of the token ever ends in an error, no cancel of the token returns without an error |
| CodexStuck.StepStuck | src-tauri/src/codex.rs:821-835 | no step of any thread gets a stuck child out of the registry: its operation is gone and no cancel that found it before is without error |
| CodexStuck.StuckForever | src-tauri/src/codex.rs:135-176 | a stuck child stays and the session generation never changes again |
| CodexRescue.FinishAble | src-tauri/src/codex.rs:848-878 | from every reachable state a cancel that found its operation and met no error can be brought to end its child, whatever the other commands hold, and without losing any other child |
| CodexSettle.CancelNew | src-tauri/src/codex.rs:811-901 | a child that has its operation can be ended by a new cancel, from its call to its return |
| CodexSettle.Settle | src-tauri/src/codex.rs:135-176 | every reachable state leads to an idle one in which no child is lost that was not lost before |
| CodexLost.LostExactly | src-tauri/src/codex.rs:821-878 | in every reachable state a child stays registered in every continuation exactly when a reader of it has failed, or no cancel that found its operation is without error and the operation is gone or its drop has the lock already |
| CodexLost.DropLosesExactly | src-tauri/src/codex.rs:158-168 | a failing teardown loses a child that is still registered exactly when a reader of it has failed or no cancel that found its operation is without error |
| CodexStuckTrace.LinkCanBreak | src-tauri/src/codex.rs:135-176 | there is an execution that ends idle with a living, registered, stuck child |
| CodexSuccessTrace.CompletionReachable | src-tauri/src/codex.rs:714-807 | there is an execution in which a worker call returns its result and everything is clean afterwards |
| CodexLocks.LocksRise | src-tauri/src/codex_registry.rs:206-213 | every program point carries and asks for locks in one ascending order |
| CodexLocks.MutualExclusion | src-tauri/src/codex_registry.rs:206-213 | no lock is held by two commands |
| CodexLocks.NoDeadlock | src-tauri/src/codex.rs:811-901 | while a command is unfinished, some command can take its next lock or run its next section, and need not wait |
| CodexProgress.PressingShrinks | src-tauri/src/codex.rs:54-901 | every event but a new call and a decision to wait leaves strictly less to do |
| CodexProgress.NothingRunsForever | src-tauri/src/codex.rs:54-901 | an execution goes on for ever only with ever new calls, or with ever new waits for a living child or a reader that another cleaner holds |
| CodexProgress.CommandsCanFinish | src-tauri/src/codex.rs:54-901 | from every reachable state all commands in progress can run to their ends, without new calls and without waiting |
| CodexRecovery.RecoverableExactly | src-tauri/src/codex.rs:135-176 | from every reachable state, whatever is in progress, a clean new session can still be reached exactly when no reader ever ended in an error and each registered child can still be ended by a cancel |
| CodexRecovery.RecoverableIdle | src-tauri/src/codex.rs:135-176 | for an idle host: exactly when every registered child has its pending operation and no reader ever ended in an error |
| CodexRecovery.BrokenForever | src-tauri/src/codex.rs:135-176 | with a failed reader or a child that no cancel can end the session never changes again, from any reachable state |
| CodexCleanup.RelyComposes | src-tauri/src/codex_cleanup.rs:149-227 | interference by other cleaners may be cut into any number of sections |
| CodexCleanup.CodexCleanupContext.constructor | src-tauri/src/codex_cleanup.rs:19-29 | both readers in their slots, nobody holding them |
| CodexCleanup.CodexCleanupContext.LookOrTake | src-tauri/src/codex_cleanup.rs:154-182 | a finished stream repeats its error or gives nothing, a busy one is waited for, a reader in its slot is taken by this thread alone |
| CodexCleanup.CodexCleanupContext.StoreResult | src-tauri/src/codex_cleanup.rs:191-226 | the holder finishes the stream with the bytes or the error, or puts the reader back after a timeout |
| CodexCleanup.CodexCleanupContext.JoinCleanupReader | src-tauri/src/codex_cleanup.rs:149-227 | under interference: bytes go to one caller, a finished stream answers the same for ever, every refusal is the recorded error, a retained reader or a busy one |
| CodexCleanup.CodexCleanupContext.CleanupOutputReaders | src-tauri/src/codex_cleanup.rs:229-242 | success means both streams ended without error; a recorded error makes every later cleanup fail |
| CodexCleanup.CodexCleanupContext.OutputReadersTerminal | src-tauri/src/codex_cleanup.rs:244-249 | true exactly when both streams have ended |
| CodexCleanup.CodexCleanupContext.CleanupAfterExit | src-tauri/src/codex.rs:387-413 | with others at work at every unlocked point: the artifact goes only when both streams have ended, and is removed by this call if each stream had ended before or was ended by it; success means that it is gone and no stream has an error |
| PanelResize.RunKeeps | src/app/panelResize.ts:45-127 | every script of nested installs, cancels and ends keeps the sessions in order |
| PanelResize.CleanupKeeps | src/app/panelResize.ts:75-98 | the cleanup of a session keeps the order whatever happens while pointer capture is released, and ends the session |
| PanelResize.DownKeeps | src/app/panelResize.ts:45-127 | so does a pointer press, with what happens while the default action is prevented and capture is set |
| PanelResize.AnyNesting | src/app/panelResize.ts:37-127 | saved styles are those before the first drag, listeners come once and go at most once, at most one session is live, and the body has its style back when none is |
| PanelResize.CancelEnds | src/app/panelResize.ts:37-39 | a cancel ends the session that was active; without interference nothing is left of dragging |
| PanelResize.PressStarts | src/app/panelResize.ts:45-127 | a press always leads to a new session, its own or one that was started meanwhile; unless foreign code runs while capture is set, a new session is live afterwards |
| PanelResize.ResizeWindow.constructor | src/app/panelResize.ts:35 | no session and the original style |
| PanelResize.ResizeWindow.CleanupSession | src/app/panelResize.ts:75-98 | has the effect of the specification for every script |
| PanelResize.ResizeWindow.CancelActivePanelResize | src/app/panelResize.ts:37-39 | has the effect of the specification for every script |
| PanelResize.ResizeWindow.OnPointerDown | src/app/panelResize.ts:45-127 | has the effect of the specification for every script |
| SseReader.JoinSplit | src/agents/streamSSE.ts:19 | the pieces of a text have no line feeds and join to the text |
| SseReader.SplitJoin | src/agents/streamSSE.ts:19 | lines without line feeds are recovered from their join |
| SseReader.SplitAppend | src/agents/streamSSE.ts:18-21 | more text changes only the last piece |
| SseReader.DecodeAppend | src/agents/streamSSE.ts:18 | decoding in two portions is decoding at once |
| SseReader.TrailingSpaceIgnored | src/agents/streamSSE.ts:23-25 | trailing white space, such as the CR of CR LF, does not change what a line carries |
| SseReader.ProgressStep | src/agents/streamSSE.ts:15-33 | after each chunk the values of all finished lines are out and the buffer holds the unfinished one |
| SseReader.OnLine | src/agents/streamSSE.ts:22-32 | one line gives at most its one value |
| SseReader.OnLines | src/agents/streamSSE.ts:22-32 | the values of the lines in order |
| SseReader.ForEachSSEData | src/agents/streamSSE.ts:6-46 | for every cut into chunks the callbacks are those of reading the whole text at once, with the unterminated tail; it throws exactly without a body or when a read fails, and then the finished lines have been reported |
| RouterScoring.PricePriority | src/agents/routerScoring.ts:230-259 | each side of a price: user, then table, then history, then default; a subscription is free |
| RouterScoring.OthersNotHigher | src/agents/routerScoring.ts:179-184 | a lower price of one agent, wherever it stands in the pool, never improves another candidate's cost score, span zero included |
| RouterScoring.OwnNotLower | src/agents/routerScoring.ts:179-184 | a lower price of one agent never worsens its own cost score, span zero included |
| RouterScoring.ScoreMonotone | src/agents/routerScoring.ts:169-196 | lowering the price of one agent never lowers its score and never raises another's |
| RouterScoring.RewardsCheapnessExactly | src/agents/routerScoring.ts:171-189 | the own score is monotone for all pools exactly when the cost weight is not negative |
| RouterScoring.OverriddenWeights | src/agents/routerScoring.ts:171 | the default weights and every override but a negative cost weight are monotone |
| RouterScoring.UserPriceLowers | src/agents/routerScoring.ts:174-178 | prices that the user sets for input, output or both, no higher than those in force, lower the cost of the candidate and nothing else |
| RouterScoring.OrderCorrect | src/agents/routerScoring.ts:198 | the order is a permutation, descending by score and stable |
| RouterScoring.OrderPlaces | src/agents/routerScoring.ts:198 | each candidate stands at the number of candidates that come before it |
| RouterScoring.PlaceMonotone | src/agents/routerScoring.ts:169-199 | lowering the price of one agent never worsens any of its places in the order |
| RouterScoring.BestCandidate | src/agents/routerScoring.ts:156-162 | the first candidate is unbeaten, and a heavy task gets a light model only from a pool of light models |
| AgentRouter.CandidateChain | src/agents/agentRouter.ts:137-162 | the chain is the existing references in order, each once |
| AgentRouter.CollectExact | src/agents/agentRouter.ts:144-149 | no duplicates, and exactly the references that exist |
| AgentRouter.ChainStaysInCategory | src/agents/agentRouter.ts:150-161 | the chain starts with the chosen agent; a category route is not left; without one every agent is in it |
| AgentRouter.ResolveAgent | src/agents/agentRouter.ts:188-257 | the first known of the explicit reference, the route, its fallbacks and the default, else the first agent; failure exactly without agents; the reason; a chain that starts with the agent |
| AgentRouter.ChoosesFirstKnown | src/agents/agentRouter.ts:182-257 | the agent is the first known of one list of references, and a decision fails only without agents |
| AgentRouter.GatherExact | src/agents/agentRouter.ts:310-328 | the pool stands for exactly the references that lead to a callable agent, each once |
| AgentRouter.BuildPool | src/agents/agentRouter.ts:310-328 | the agents of the usable references, in their order and once for each reference; exactly those agents |
| AgentRouter.ResolveAgentScored | src/agents/agentRouter.ts:284-350 | explicit agents are used as they are; otherwise the pool in its scored order; failure exactly when no reference of the route, or of the default and all agents, leads to a callable agent |
| AgentRouter.ScoredStaysInCategory | src/agents/agentRouter.ts:305-328 | with a category route every scored agent is callable and named by that route |
| AgentRouter.HeavyNeedsStrong | src/agents/agentRouter.ts:333-340 | a heavy request gets a light model only if the whole pool is light |
| AgentRouter.CheaperNeverLater | src/agents/agentRouter.ts:284-350 | if the prices of an agent change in the configuration so that it costs no more, each of its entries in the pool, under whatever reference, stands no later in the scored chain |
| Harness.TrimHistory | src/agents/harness.ts:108-118 | the longest suffix within the budget, or the last message alone |
| Harness.CallProvider | src/agents/harness.ts:213-236 | at most one call and its retries, repeated only after transient failures |
| Harness.ExecuteTools | src/agents/harness.ts:259-268 | one reply per call, same order and ids, and the names recorded |
| Harness.RunRound | src/agents/harness.ts:213-268 | one round extends the record of the run by exactly what it did, or gives up for good |
| Harness.RunAgentLoop | src/agents/harness.ts:200-282 | bounded model calls; the messages are the prefix and the faithful record of the rounds; used tools, final text, and why it ended or threw |
| Harness.NeverNudges | src/agents/harness.ts:275-279 | after two rounds some tool was used, so the reminder cannot be given |
| Harness.ToolCallsAnswered | src/agents/harness.ts:248-268 | every tool-call message is followed by exactly one reply per call, in order |
| Harness.RepliesBelong | src/agents/harness.ts:259-268 | every tool reply lies among the replies to some tool-call message |

## Left out

- Processes, files, signals, pipes and paths: kills, joins, removals, spawns and identity checks are success or failure.
- Process groups and descendants of a child: only the child itself.
- Real time: expiry, timeouts and the number of polls are free choices, so a command may wait any number of times.
- Poisoned locks and panics, including the arm at `src-tauri/src/codex.rs:753`, which takes locks against the order.
- The binding checks of operation ids and working directories (`validate_operation_binding`, `valid_operation_id`): one boolean of the environment.
- The contents of results: event parsing, login state, arguments and wording of errors.
- `antigravity.rs`, command policies, worktrees and file authority.
- Several windows that share one document, other code that writes the body style, and the clamped width during a pointer move.
- The callback of the line reader that throws: like a payload that does not parse, it is passed over.
- Inherited property names of the route table object.
- Rounding of floating-point numbers, the price table and the tier patterns themselves.
- Events, logs and prompts of the agent loop, and changes of its inputs during a run.
