# Verified model of the agent session harness

`agent-session-harness` keeps a long-running coding agent within its context window. When the
context fills up, a supervisor checkpoints, stops the old runtime, fences its claim, claims the
next generation, launches a fresh successor and waits for its acknowledgement. Everything is
kept in small durable files, so that a crash between any two writes can be resumed.

The model has one transition system per protocol, in which an action is one code segment
between two durable writes or one event of the environment (a death, a crash, another process).
Theorems quantify over every sequence of actions. Beside each system stands a class with the
methods of the original: it keeps the same fields, rewrites the same files, lets other processes
act wherever the original gives up its lock, and every method is proved to perform steps of the
system, recorded in a ghost `history`. A class is therefore always where some run of its system
is, and what is proved of runs holds of it. What the outside answers to a call (an adapter, a
clock, a process that is stopped, a store) is a parameter of the method, so that a contract says
when the call succeeds as well as what success means. The modules named `...Meaning` restate the
central decisions on the plain data, the event types, fields and texts, without the functions
that compute them.

| files | part of the system |
|---|---|
| `Claims` | the coordinator's claim store and its adapter |
| `Rotation`, `RotationSafety`, `RotationEffects`, `RotationTheorems`, `Supervisor` | the rotation protocol with start, retry, acknowledgement and shutdown |
| `Drain`, `DrainTheorems`, `DrainMeaning`, `DrainHistory`, `DrainInRotation`, `DrainingSupervisor` | usage samples, self-compaction, consent, and the gate into CHECKPOINTING |
| `StopRequests`, `HookCommand` | the hook processes: acknowledgement, dispatch of turns, the Stop handshake |
| `Launch`, `LaunchSafety`, `LaunchInRotation`, `ProcessDriver` | launch intents, registration and exit records of guardians, and how the rotation sees them |
| `Outbox`, `OutboxSafety`, `OutboxTheorems`, `MirrorOutbox` | the mirror outbox with concurrent enqueuers and replays |
| `LinearComments`, `LinearMirror` | comment pagination and the idempotent checkpoint write |
| `Activity`, `ActivityMeaning`, `LedgerText`, `Ledger` | the activity fold and the incremental ledger reader |
| `StateLens`, `JsonTrees` | forward-compatible state |
| `Lineage` | ordering of forked sessions and their inherited usage |
| `BakeSpool` | the run-length report spool |
| `HookManifest`, `HookInstaller`, `HookMeaning` | the hook-manifest editor and its diagnosis |
| `Options`, `Sequences` | option and result shapes, distinct sequences and substrings |

Some of what the code or its comments promise does not hold for every run. The model follows the
code; each case has a theorem over all runs or inputs that says exactly when it happens, and for the
protocols a concrete run.

- A predecessor being rotated out is to be stopped by every shutdown until it is dead. The exemption
  lives in the phase STOPPING, which a shutdown overwrites with BLOCKED before it stops anything. A
  later shutdown detaches that predecessor if and only if an earlier one began since STOPPING,
  whether it crashed or its stop failed (`RotationTheorems.StoppingForgottenExactly`,
  `PredecessorDetached`).
- A launch is to return a guardian of the command asked for. The command is compared in the first
  locked section and not in the one after a timeout (`LaunchSafety.ReturnsAnotherCommandExactly`,
  `ReturnsAnotherCommand`).
- "Consumed once per event" holds for a fixed conversation, or up to 64 intervening events
  (`DrainHistory.ReleaseActsExactlyWhenForgotten`, `ConsumedTwiceAfterSixtyFour`).
- A replay can execute an entry that another one settled after its snapshot
  (`OutboxTheorems.HoldsSettledExactly`, `ExecutedAgainAfterDelivery`), and an interrupted
  reconciliation leaves an extra letter for just the entries it had written
  (`OutboxTheorems.DeadLetteredOnce`, `LetterForDeliveredEntry`). Idempotent adapters and readers of
  the dead letters have to absorb both.
- Removing the harness's hooks also removes foreign groups with an empty array, and the events left
  without groups (`HookInstalling.GroupLostExactly`, `EventLostExactly`, `InstallingLosesExactly`).

`dafny verify dfyconfig.toml` checks the whole project.

## Model

| member | source | states |
|---|---|---|
| `Claims.FenceIsFinal` | src/agent_session_harness/coordinator.py:204-238 | An accepted fence can be repeated with the same answer and no further change, and its handle never passes the ownership check again, whatever traffic follows. |
| `Claims.RetiredForever` | src/agent_session_harness/coordinator.py:240-252 | A handle that stopped being the current lease is never revived. |
| `Claims.ReclaimOrAdvance` | src/agent_session_harness/coordinator.py:144-182 | Repeating a claim after a crash returns the same handle exactly while it is still current and for the same owner; every other later claim carries a larger epoch. |
| `Claims.EpochsGrow` | src/agent_session_harness/coordinator.py:144-238 | The reported lease is the held one or has a strictly larger epoch. |
| `Claims.CoordinatorAdapter.ClaimTask` | src/agent_session_harness/coordinator.py:144-182 | An active lease of another owner is refused with the store unchanged, one of this owner is returned again, and otherwise a fresh claim with a larger epoch becomes the active lease. |
| `Claims.CoordinatorAdapter.AssertCurrent` | src/agent_session_harness/coordinator.py:240-252 | Succeeds exactly when the store's lease is active and has this handle's id and epoch. |
| `Claims.CoordinatorAdapter.Heartbeat` | src/agent_session_harness/coordinator.py:184-202 | Succeeds exactly when the store's lease is active and has this handle's id and epoch. |
| `Claims.CoordinatorAdapter.Fence` | src/agent_session_harness/coordinator.py:204-238 | Accepted exactly for a lease of this id and epoch that is active or already rotated; the active one becomes rotated, and nothing else changes. |
| `RotationTheorems.OneRuntimeAtATime` | src/agent_session_harness/supervisor.py:1508-1647 | In every run, with crashes, deaths, retries and shutdowns anywhere, at most one runtime of the chain is live or could still register. |
| `RotationTheorems.SpawnsAlone` | src/agent_session_harness/supervisor.py:1620-1646 | A runtime is spawned only while none of any generation is live or starting, only for the generation on disk, and a successor only with the capsule checkpointed for it. |
| `RotationTheorems.EffectsNeverSkip` | src/agent_session_harness/supervisor.py:1508-1619 | Before any effect every earlier one of checkpoint, stop, fence, claim, launch, acknowledge has taken place for its generation; the root generation has no acknowledgement. |
| `RotationTheorems.EffectsNeverGoBack` | src/agent_session_harness/supervisor.py:1508-1647 | A crash may repeat an effect but never repeats it after a later one, launch retries excepted. |
| `RotationEffects.NeverSkips` | src/agent_session_harness/supervisor.py:1508-1647 | The order of effects kept step by step implies that no position of the canonical order is missing before a later one. |
| `RotationEffects.NeverGoesBack` | src/agent_session_harness/supervisor.py:1508-1647 | The order of effects kept step by step implies that positions never decrease, a relaunch after an acknowledgement attempt excepted. |
| `RotationTheorems.ClaimsAdvance` | src/agent_session_harness/supervisor.py:1595-1619 | The claim on disk is always owned by the session of the generation on disk, and later generations hold claims with strictly larger epochs. |
| `RotationTheorems.GenerationsStepByOne` | src/agent_session_harness/supervisor.py:1592-1619 | The generation changes only from CLAIMING to LAUNCHING, by one, right after its own claim was taken. |
| `RotationTheorems.LaunchesAreBounded` | src/agent_session_harness/supervisor.py:1048-1118 | The retry counter never exceeds the limit, and a successor generation is launched at most limit + 1 times, plus one per crash. |
| `RotationTheorems.NoTurnBeforeAcknowledgement` | src/agent_session_harness/hooks/command.py:106-115 | No turn of a successor is appended before an acknowledgement by that very process, for its capsule and generation, was persisted. |
| `RotationTheorems.EndedForGood` | src/agent_session_harness/supervisor.py:1909-1913 | A blocked or completed chain never launches, claims or leaves that state again. |
| `RotationTheorems.AdoptedExactly` | src/agent_session_harness/supervisor.py:707-736 | Outside AWAITING_ACK and STOPPING, the durable test detaches exactly the root runtime and successors that acknowledged. |
| `RotationTheorems.UnacknowledgedNeverAdopted` | src/agent_session_harness/supervisor.py:707-736 | A successor that has not acknowledged is never taken for the user's session, in any phase and after any restart. |
| `RotationTheorems.StoppingForgottenExactly` | src/agent_session_harness/supervisor.py:707-775 | A promise that is not kept: from STOPPING on, while the predecessor is the process on disk, shutdown takes it for adopted if and only if an earlier shutdown began in between, in any run; the phase is then BLOCKED and otherwise still STOPPING. |
| `RotationTheorems.PredecessorDetached` | src/agent_session_harness/supervisor.py:754-815 | A reachable run to STOPPING with a live predecessor, after which a shutdown that crashes, and one whose stop fails without any crash, each make the next shutdown detach it. |
| `RotationTheorems.ShutdownStopsOrDetaches` | src/agent_session_harness/supervisor.py:776-815 | During a shutdown of a live process: not adopted, nothing but the stop acts on it and a stop that works ends it; adopted, it is never signalled and the fence goes ahead. |
| `Supervision.Supervisor.HeartbeatIfDue` | src/agent_session_harness/supervisor.py:1737-1771 | Raises, then in BLOCKED and with a live process kept, exactly when it looks (forced or due), in one of the seven phases that hold a lease, and the lease is lost. |
| `Supervision.Supervisor.FailClosedForStaleOwner` | src/agent_session_harness/supervisor.py:1880-1907 | Blocks the chain; the process is forgotten exactly when it is not live and its exit record was removed, and otherwise kept for a later shutdown. |
| `Supervision.Supervisor.CheckpointSegment` | src/agent_session_harness/supervisor.py:1509-1556 | With a verified receipt exactly the checkpoint of the next generation is recorded, without one nothing changes, and it blocks only for a lease that is lost. |
| `Supervision.Supervisor.StopSegment` | src/agent_session_harness/supervisor.py:1561-1577 | Reaches STOPPED without a process, unless the predecessor is live and does not obey; then it raises with the snapshot unchanged. |
| `Supervision.Supervisor.FenceSegment` | src/agent_session_harness/supervisor.py:1581-1591 | Reaches FENCED with the claim no longer current, or BLOCKED for a claim that is neither current nor already rotated. |
| `Supervision.Supervisor.ClaimSegment` | src/agent_session_harness/supervisor.py:1595-1619 | Enters the next generation in LAUNCHING under its own session's claim, or raises with the snapshot unchanged because another owner holds an active lease. |
| `Supervision.Supervisor.LaunchSegment` | src/agent_session_harness/supervisor.py:1620-1646 | Returns the guardian unless start_fresh raised; a failed root launch goes to the caller, a failed successor launch to the retry; the snapshot is not touched by either. |
| `Supervision.Supervisor.AdvanceRotation` | src/agent_session_harness/supervisor.py:1508-1647 | From any rotation phase it brings a successor to AWAITING_ACK: it stands still only without a verified checkpoint, and raises only where the reason is still there (a predecessor that did not obey, another owner's lease, a lost lease, a failed root launch, spent retries). Terminates together with the retry it calls. |
| `Supervision.Supervisor.RetrySuccessor` | src/agent_session_harness/supervisor.py:1048-1118 | The failed successor is stopped first; then another attempt of the same generation is awaited, or the call raises for a survivor, spent retries, or a reason of the launch. Terminates under the lexicographic measure. |
| `Supervision.Supervisor.ScheduleRetry` | src/agent_session_harness/supervisor.py:1093-1118 | Schedules another launch of the same generation exactly while attempts remain, and blocks otherwise, with the process and the conversation cleared either way. |
| `Supervision.Supervisor.ClearSuccessor` | src/agent_session_harness/supervisor.py:1064-1091 | The failed successor is gone exactly when it was not live or obeys its stop, and its acknowledgement with it; a survivor blocks the chain. |
| `Supervision.Supervisor.StartChain` | src/agent_session_harness/supervisor.py:604-643 | From INITIAL, or an interrupted start, the root generation runs, unless another owner holds the lease or the launch failed; a live process is left as it is. |
| `Supervision.Supervisor.EnsureActiveProcessIsLive` | src/agent_session_harness/supervisor.py:1773-1827 | By cases: a live process lets the tick go on unchanged; a dead successor is retried; a clean exit is completed; everything else blocks and raises. |
| `Supervision.Supervisor.CompleteCleanExit` | src/agent_session_harness/supervisor.py:1829-1867 | Unless the coordinator is unreachable, COMPLETED is written, after the claim can no longer act; otherwise BLOCKED. |
| `Supervision.Supervisor.Acknowledge` | src/agent_session_harness/supervisor.py:968-1046 | Refused exactly when the phase, generation, process, fingerprint or its target is not the awaited one, with nothing changed; with a lost lease it blocks; verified by the stores it is accepted, and only its phase and conversation change; otherwise the successor is retried. |
| `Supervision.Supervisor.TickAwaiting` | src/agent_session_harness/supervisor.py:874-890 | Running afterwards if and only if the waiting record is the awaited one, the lease is held and the stores verify it, and then its record is cleared; refused exactly for another record; without a record the successor is awaited until the deadline and retried after it. |
| `Supervision.Supervisor.Tick` | src/agent_session_harness/supervisor.py:862-949 | From the state found with a live process and a lease: the awaited acknowledgement is accepted, a rotation phase brings the next successor unless it lacks a checkpoint, and a raise has one of the named reasons, still present. |
| `Supervision.Supervisor.Shutdown` | src/agent_session_harness/supervisor.py:738-860 | With others acting before each of its effects: a live adopted runtime is left alone unless its own death is among their events; on a normal return any other is neither live nor able to start, the claim can no longer act, and no process is left on disk. It raises only for an unadopted runtime that survives, or for a failed exit cleanup, journal or fence, after the rest is done. |
| `HookCommands.HookCommand.WriteAcknowledgement` | src/agent_session_harness/supervisor.py:2111-2164 | Written exactly when the state file awaits this generation, process and capsule; it is then the rotation protocol's own step. |
| `HookCommands.HookCommand.AwaitSuccessorSnapshot` | src/agent_session_harness/hooks/command.py:308-331 | Waits exactly while the launch has not recorded its process; gives up only for another generation or after its polls. |
| `HookCommands.HookCommand.AwaitDurableAcknowledgement` | src/agent_session_harness/hooks/command.py:278-305 | Succeeds exactly when the last state file read runs this process under its capsule and conversation; gives up only when it no longer waits, or after its polls. |
| `HookCommands.HookCommand.AcknowledgeVerifiedSuccessor` | src/agent_session_harness/hooks/command.py:211-275 | Succeeds only after reading a state that runs this process under its capsule and conversation, and always if that is the first one read; fails only without a complete environment, for a state that neither awaits it nor is about to, for an unverifiable capsule, or after its polls. |
| `HookCommands.HookCommand.SuccessorDispatchAllowed` | src/agent_session_harness/hooks/command.py:182-198 | Allowed if and only if the state file could be read and has RUNNING, this generation, process, conversation and capsule. |
| `HookCommands.HookCommand.RunHook` | src/agent_session_harness/hooks/command.py:56-124 | A successor's prompt is blocked if and only if the state file read does not run it; an event is let through if and only if exactly its line was appended; a start is recorded and aborted unless it is acknowledged; a Stop answers as the handshake says. |
| `HookCommands.HookCommand.HandleStop` | src/agent_session_harness/hooks/command.py:339-383 | By the state file read: another process is refused, outside a drain the plain idle is appended, in a drain the first Stop asks for a handoff and later ones close the turn once. |
| `HookCommands.HookCommand.RecordStopRequest` | src/agent_session_harness/hooks/command.py:426-458 | True exactly without a marker of this generation; then the request is appended and the marker written, otherwise one repeated idle at most. |
| `StopRequests.AskedOncePerDrain` | src/agent_session_harness/hooks/command.py:426-458 | Per generation at most one handoff request and one repeated idle, plus one per cancelled drain of that generation and per crash of one of its own hooks between an append and its marker. |
| `StopRequests.IdleFollowsRequest` | src/agent_session_harness/hooks/command.py:437-458 | A turn that ends while draining is closed only after the handoff was requested in that generation. |
| `LaunchSafety.NeverOverwritesTheLiving` | src/agent_session_harness/process.py:727-773 | A registration never replaces the record of a guardian that is still alive. |
| `LaunchSafety.LiveRecordMatchesIntent` | src/agent_session_harness/process.py:291-371 | A live record and an intent that coexist carry the same nonce. |
| `LaunchSafety.EachNonceSpawnsOnce` | src/agent_session_harness/process.py:328-371 | No nonce is given to two guardians. |
| `LaunchSafety.OneInCharge` | src/agent_session_harness/process.py:291-444 | Registered live guardians and those that could still register are one at most, deliberate unlinks excepted. |
| `LaunchSafety.LaunchIsIdempotent` | src/agent_session_harness/process.py:291-300 | Returned calls whose guardians still run name one guardian, the one on record. |
| `LaunchSafety.LaunchedIsFoundAgain` | src/agent_session_harness/process.py:291-300 | In every run, a guardian that registered, runs and was not unlinked is the one on record, and any further call for its command, whatever became of the first, gets it back at once with nothing reserved or spawned. |
| `LaunchSafety.SupersededNeverRegisters` | src/agent_session_harness/process.py:727-773 | A guardian whose intent was replaced or removed can never register. |
| `LaunchSafety.LinksLeadBack` | src/agent_session_harness/process.py:301-338 | A supersedes link names a smaller nonce that registered before, so the launch lineage has no cycle. |
| `LaunchSafety.ExitMovesForward` | src/agent_session_harness/process.py:940-986 | The owner of the exit file only moves forward in registration order. |
| `LaunchSafety.SpawnsIntoVacancy` | src/agent_session_harness/process.py:301-338 | A guardian is spawned only when no other one is in charge. |
| `LaunchSafety.ReturnedCommand` | src/agent_session_harness/process.py:293-298 | With one command asked for per key, every returned guardian runs that command. |
| `LaunchSafety.ReturnsAnotherCommandExactly` | src/agent_session_harness/process.py:291-372 | Command checks are incomplete: in every run, a returned guardian's command differs from the one this call asked for if and only if the call's own locked section after a timeout found a live record of another command; returning at once, seeing the awaited record, or spawning always gives the command asked for. |
| `LaunchSafety.ReturnsAnotherCommand` | src/agent_session_harness/process.py:342-346 | A run in which that happens: a caller that waited in vain returns a live guardian of another command. |
| `LaunchInRotation.LaunchesAreMoves` | src/agent_session_harness/process.py:255-444 | Every interleaving of launches under one key, seen as a driver state, is a sequence of possible moves (a death, a registration, a record or an intent removed, a spawn); a guardian that can register is spawned only beside no live record and no other such guardian. |
| `LaunchInRotation.StartFreshIsMoves` | src/agent_session_harness/process.py:255-444 | The single launch effect the rotation sees is made of the same possible moves, spawns no guardian but the one of the fresh nonce, and returns one that is registered and alive. |
| `ProcessDriving.PosixProcessDriver.RegisterGuardedProcess` | src/agent_session_harness/process.py:727-773 | Succeeds exactly when the intent has this guardian's nonce, command and predecessor; the record it replaces is of a dead guardian. |
| `ProcessDriving.PosixProcessDriver.RecordGuardedExit` | src/agent_session_harness/process.py:940-986 | Writes exactly for the guardian on record; an obsolete one succeeds, silently, exactly when its successor (same command, other process and nonce, superseding it) is on record, or in the exit file without a record. |
| `ProcessDriving.PosixProcessDriver.UnregisterGuardedProcess` | src/agent_session_harness/process.py:776-793 | Removes its own record and no other. |
| `ProcessDriving.PosixProcessDriver.ReserveLaunch` | src/agent_session_harness/process.py:291-337 | A live guardian on record of the command asked for is returned with the files unchanged; it fails exactly for another command or a stale launch whose guardian may still register; otherwise a pending launch is awaited or a fresh nonce reserved. |
| `ProcessDriving.PosixProcessDriver.TakeOverLaunch` | src/agent_session_harness/process.py:343-372 | After a wait in vain: a live record is used; the launch is taken over with a fresh nonce if its intent is unchanged and no guardian of it shows; otherwise it fails. |
| `ProcessDriving.PosixProcessDriver.AwaitRegistry` | src/agent_session_harness/process.py:598-615 | Sees only a record with the awaited nonce; gives up only after all polls, or for its own guardian once that is dead, and never with such a record there. |
| `ProcessDriving.PosixProcessDriver.ConfirmReady` | src/agent_session_harness/process.py:436-466 | Fails only for a guardian that is dead and no longer on record; a returned one was seen alive in between, and this call's intent is dropped. |
| `ProcessDriving.PosixProcessDriver.AbandonLaunch` | src/agent_session_harness/process.py:421-433 | The intent goes only if the guardian is dead and the intent is still this call's. |
| `ProcessDriving.PosixProcessDriver.StartFresh` | src/agent_session_harness/process.py:255-444 | A live guardian of the command asked for, found by the first section, is the answer. Whatever others do in between, a returned guardian registered and was seen alive during the call, and runs another command exactly when the call adopted it after a timeout. It fails only if the first section refuses, it polled in vain, or the guardian it spawned or saw is dead. |
| `OutboxTheorems.EveryEntryAccountedFor` | src/agent_session_harness/outbox.py:92-251 | An accepted entry is exactly one of pending, delivered and dead-lettered, over all interleavings and crashes. |
| `OutboxTheorems.PendingInEnqueueOrder` | src/agent_session_harness/outbox.py:92-119 | The queue is the accepted entries that were not settled, in enqueue order, with pairwise distinct adapter and idempotency key, within the byte bound. |
| `OutboxTheorems.SettledForCause` | src/agent_session_harness/outbox.py:173-200 | Delivery needs an execution that echoed the exact fingerprint; a dead letter needs a wrong fingerprint or a permanent refusal. |
| `OutboxTheorems.ExecutionDecides` | src/agent_session_harness/outbox.py:173-246 | In every run, an entry that a replay executed and that is still queued when it completes its reconciliation within the bound is delivered exactly if the adapter echoed its fingerprint, dead-lettered with that reason exactly if it refused for good or answered another fingerprint, and stays queued exactly otherwise. |
| `OutboxTheorems.LettersCounted` | src/agent_session_harness/outbox.py:205-251 | In every run an entry has exactly as many letters as: one if it is dead-lettered, plus the reconciliations that were interrupted after writing this entry's own letter. |
| `OutboxTheorems.DeadLetteredOnce` | src/agent_session_harness/outbox.py:205-251 | Exactly one letter when dead-lettered and none otherwise holds of an entry if and only if no reconciliation was interrupted after writing that entry's letter. |
| `OutboxTheorems.CrashesLoseNothing` | src/agent_session_harness/outbox.py:141-251 | From any reachable state, whatever crashes, executions and enqueues follow, without a completed reconciliation every pending entry stays pending at its place and nothing is settled. |
| `OutboxTheorems.ExecutionsDoNotOverlap` | src/agent_session_harness/outbox.py:158-168 | Two replays never execute entries of one stripe at the same time. |
| `OutboxTheorems.SettledForever` | src/agent_session_harness/outbox.py:205-251 | A settled entry never returns to the queue. |
| `OutboxTheorems.HoldsSettledExactly` | src/agent_session_harness/outbox.py:141-168 | In every run a replay holds an entry that is settled already if and only if the entry was in the snapshot that replay took and was settled after that; seen in the files, if and only if the entry has left the queue. |
| `OutboxTheorems.NeverExecutedByLaterReplays` | src/agent_session_harness/outbox.py:141-168 | A replay whose snapshot was taken after an entry was settled never holds that entry. |
| `OutboxTheorems.ExecutedAgainAfterDelivery` | src/agent_session_harness/outbox.py:149-168 | A run in which it happens: an entry is executed again after another replay delivered it. |
| `OutboxTheorems.LetterForDeliveredEntry` | src/agent_session_harness/outbox.py:243-245 | A run in which an interrupted reconciliation leaves a dead letter for an entry that is delivered later. |
| `OutboxSafety.ReconciledQueue` | src/agent_session_harness/outbox.py:205-224 | The loop of list deletions equals one filter: exactly the settled entries still queued leave, in order. |
| `OutboxSafety.ReconciledLetters` | src/agent_session_harness/outbox.py:211-224 | Each condemned entry still queued leaves exactly one letter, and no other letter is written. |
| `OutboxReplaying.MirrorOutbox.EnqueueEntry` | src/agent_session_harness/outbox.py:92-119 | False for a queued pair, an exception beyond the bound, otherwise one new entry at the end. |
| `OutboxReplaying.MirrorOutbox.Attempt` | src/agent_session_harness/outbox.py:158-200 | Skipped exactly while its lock is taken or its adapter is unknown; otherwise executed, and success, dead letter with its reason, or retained exactly as the answer says. |
| `OutboxReplaying.MirrorOutbox.ReconcileOutcomes` | src/agent_session_harness/outbox.py:205-251 | Raises exactly when the new letters do not fit; otherwise the queue loses exactly the settled entries, and one letter is appended and counted for each condemned entry still queued. |
| `OutboxReplaying.MirrorOutbox.ReplayQueue` | src/agent_session_harness/outbox.py:141-251 | Takes the head of the queue; each outcome is the answer's or a skip for cause; its last step takes exactly the entries it settled out of the queue found then; it counts successes, the queue left, and as dead letters exactly its condemned entries that were still queued; it raises exactly without attempts or when the letters do not fit. |
| `OutboxReplaying.Settle` | src/agent_session_harness/outbox.py:211-224 | The deletion loop computes the reconciliation of the fresh queue. |
| `Activity.OutstandingIsMaxSuffix` | src/agent_session_harness/ledger.py:140-200 | The outstanding count of an id is the largest starts-minus-finishes over the suffixes; for tools, over the suffixes of what follows the last turn-idle. |
| `Activity.UnmatchedIsMaxDeficit` | src/agent_session_harness/ledger.py:155-178 | Unmatched-finish warnings since the last cut are the largest finishes-minus-starts over the prefixes, and count minus warnings is starts minus finishes. |
| `Activity.UnmatchedInAll` | src/agent_session_harness/ledger.py:155-200 | All unmatched-finish warnings of an id are its largest deficit over the whole ledger, or for tools the sum of the largest deficits over the stretches between turn-idles. |
| `Activity.StoredCountsArePositive` | src/agent_session_harness/ledger.py:155-178 | No stored count is zero or negative. |
| `Activity.IdleMeansBalanced` | src/agent_session_harness/ledger.py:179-221 | Nothing is stored exactly when every id of every kind balances from every point of its segment on. |
| `ActivityMeaning.OutstandingIsOpen` | src/agent_session_harness/ledger.py:126-200 | An id is counted exactly when, from some point on, more of its kind was started than finished, by event type; for a tool, from some point after the last turn-idle. |
| `ActivityMeaning.UnmatchedEndNothing` | src/agent_session_harness/ledger.py:155-174 | The unmatched findings are exactly the events that end something of which nothing was open, each with its own time. |
| `ActivityMeaning.ReapedWereOpen` | src/agent_session_harness/ledger.py:179-200 | The reaped tools are exactly those open when some turn went idle. |
| `Activity.RepeatsChangeNothing` | src/agent_session_harness/ledger.py:140-144 | Re-appending events whose ids were seen changes nothing the fold looks at. |
| `Activity.DedupKeepsIds` | src/agent_session_harness/ledger.py:140-144 | De-duplication keeps every id exactly once. |
| `Activity.SignalsOnlyGrow` | src/agent_session_harness/ledger.py:201-208 | Signals already reported stay in place however the ledger grows. |
| `Activity.SignalsAreDistinct` | src/agent_session_harness/ledger.py:201-208 | No two reported signals share an id. |
| `Activity.LatestIsMaximum` | src/agent_session_harness/ledger.py:145-150 | The last event time is the maximum over the events that count; hook liveness ignores what the supervisor wrote itself. |
| `Ledger.IdleSnapshotMeans` | src/agent_session_harness/ledger.py:382-400 | IDLE exactly when no finding still gates, everything is balanced, some event is fresh and none lies in the future. |
| `Ledger.SnapshotMeans` | src/agent_session_harness/ledger.py:96-252 | UNKNOWN, IDLE, liveness, the four sets of open ids, the reaped tools and the signals of a snapshot, each as a condition on the types, ids and times of the ledger's events. |
| `Ledger.StickyGates` | src/agent_session_harness/ledger.py:383-396 | A sticky finding keeps the snapshot UNKNOWN. |
| `Ledger.UnmatchedAge` | src/agent_session_harness/ledger.py:158-174 | Unmatched finishes carry the finish's own time and are never sticky, so they stop gating as they age. |
| `Ledger.RepeatsLeaveTheSnapshot` | src/agent_session_harness/ledger.py:140-245 | Repeated deliveries leave the whole snapshot as it was. |
| `Ledger.Fold` | src/agent_session_harness/ledger.py:96-245 | The counting loop computes the specified snapshot, whose fields mean what SnapshotMeans says of the events. |
| `LedgerText.SplitReadAgrees` | src/agent_session_harness/ledger.py:283-286 | Reading in two pieces gives the lines of the whole exactly when the cut is at a line boundary. |
| `LedgerText.MessagesMean` | src/agent_session_harness/ledger.py:286-314 | A read's findings are exactly the lines that are not JSON and the lines that are no event, each under its number. |
| `LedgerText.LinesJoin` | src/agent_session_harness/ledger.py:283-286 | Whole text is its lines joined by newlines, and no line holds one. |
| `LedgerText.RecordedKeepsSticky` | src/agent_session_harness/ledger.py:316-346 | Recording a finding never evicts the last sticky one. |
| `Ledger.EventLedger.Append` | src/agent_session_harness/ledger.py:79-94 | Fails exactly beyond the byte limits; otherwise the parsed ledger is one event longer. |
| `Ledger.EventLedger.ReadEvents` | src/agent_session_harness/ledger.py:254-314 | With whole lines only, the cache and its line-numbered findings equal those of parsing the whole current file; beyond the event cap a sticky finding says so. |
| `Ledger.EventLedger.RecordWarning` | src/agent_session_harness/ledger.py:316-346 | A repeat is refreshed in place, a new finding appended, a transient one evicted beyond the cap. |
| `Ledger.EventLedger.Materialize` | src/agent_session_harness/ledger.py:96-245 | The snapshot is that of the whole file and means what it says of its events; an unreadable, oversized or truncated ledger is never IDLE. |
| `DrainTheorems.CompactionCancelsOnce` | src/agent_session_harness/supervisor.py:1200-1306 | For a fixed managed conversation each compaction event is consumed at most once, and so cancels at most one drain, across restarts. |
| `DrainTheorems.EntryHasFreshConsent` | src/agent_session_harness/supervisor.py:903-930 | A step to CHECKPOINTING is authorised by a handoff request of this generation and conversation that no earlier cancellation had in its view. |
| `DrainMeaning.EntryIsQuiescentAndMeasured` | src/agent_session_harness/supervisor.py:903-948 | In every run an attempt to enter CHECKPOINTING succeeds if and only if the phase is DRAINING, the newest handoff request of the managed conversation was not invalidated, no finding and no fresh unmatched finish gates, the ledger is current, nothing is open in it, the project is quiescent, a hook wrote within the interval, and the last sample was confident or the tolerance is reached. |
| `DrainMeaning.DrainBeginsExactly` | src/agent_session_harness/supervisor.py:1334-1387 | Outside a grace period, over any run of samples and appended events: draining if and only if some measured percentage reached the rotation threshold, warned if and only if none did but it was warned or one reached the warning threshold. |
| `DrainMeaning.ReleasedMeans` | src/agent_session_harness/supervisor.py:1228-1295 | A release acts exactly when the newest compaction of the managed conversation was not consumed; it consumes it in any phase, and of a drain it also starts the grace period and leaves no consent standing. |
| `DrainTheorems.StreakCountsSamples` | src/agent_session_harness/supervisor.py:1152-1158 | The streak is the number of consecutive non-confident or failed samples since the last confident one or the acknowledgement. |
| `DrainTheorems.ConsumedAgainOnlyAfterSixtyFour` | src/agent_session_harness/supervisor.py:86-91 | With any conversations, a compaction acts a second time only after at least 64 others acted in between. |
| `DrainHistory.ReleaseActsExactlyWhenForgotten` | src/agent_session_harness/supervisor.py:1229-1241 | A release acts exactly when the newest managed compaction is not among the last 64 consumed. |
| `DrainHistory.ConsumedTwiceAfterSixtyFour` | src/agent_session_harness/supervisor.py:86-91 | A finding: a run in which the conversation changes and 64 compactions intervene consumes one event twice. |
| `DrainTheorems.DrainPersists` | src/agent_session_harness/supervisor.py:1200-1387 | A run at whose end a drain is over has in it a step that found the drain and ended it: a release that read a new compaction of the managed conversation, or the step to CHECKPOINTING. No sample of any percentage ends one. |
| `DrainTheorems.GraceHolds` | src/agent_session_harness/supervisor.py:1353-1370 | After any run of samples, releases, appends and attempts that follows a cancellation, the drain is not armed and the marker stays, as long as no usage was measured below the threshold or after the grace period; the next measurement of either kind, and nothing else, ends it. |
| `DrainInRotation.DrainingIsRotating` | src/agent_session_harness/supervisor.py:891-949 | Every run of draining is a run of the rotation protocol showing the same phase and conversation. |
| `DrainControl.DrainingSupervisor.LatestManagedSignal` | src/agent_session_harness/supervisor.py:1308-1319 | The newest signal of the exact generation and conversation. |
| `DrainControl.DrainingSupervisor.ApplyUsageThresholds` | src/agent_session_harness/supervisor.py:1334-1387 | The field updates in order give the specified state. |
| `DrainControl.DrainingSupervisor.ObserveUsage` | src/agent_session_harness/supervisor.py:1132-1180 | One sample is one step of the draining protocol, with the phase, streaks, warning and grace marker given by thresholds, confidence and time, field by field. |
| `DrainControl.DrainingSupervisor.ReleaseDrainOnSelfCompaction` | src/agent_session_harness/supervisor.py:1200-1332 | Consumes first, whatever the phase, and cancels only a drain; one step of the draining protocol. The Stop-request marker is removed, if it can be, exactly by a cancellation. |
| `DrainControl.DrainingSupervisor.PassGates` | src/agent_session_harness/supervisor.py:903-947 | Open exactly when consent is fresh, the merged activity idle, hooks reporting, and measurement confident or tolerated. |
| `DrainControl.DrainingSupervisor.Tick` | src/agent_session_harness/supervisor.py:891-948 | The state after a tick is that after its sample and its release, in this order, moved to CHECKPOINTING exactly when the whole gate holds in the ledger shown. |
| `StateLens.MergeRestores` | src/agent_session_harness/supervisor.py:165-224 | Merging the stripped payload with what was set aside gives back the original, for every model and every tree. |
| `StateLens.StripIgnoresPreserved` | src/agent_session_harness/supervisor.py:165-224 | Stripping a merge gives back exactly what this build dumped. |
| `StateLens.StrippedIsKnown` | src/agent_session_harness/supervisor.py:183-224 | A stripped payload holds no unknown path, and stripping it again sets nothing aside and changes nothing. |
| `StateLens.LostWithItsModel` | src/agent_session_harness/supervisor.py:165-180 | What a merge sets aside again equals what was merged exactly when every nested remainder still finds its model in the dump. |
| `StateLens.TopSurvives` | src/agent_session_harness/supervisor.py:165-180 | A merge keeps every unknown top-level value. |
| `StateLens.StripUnknownFields` | src/agent_session_harness/supervisor.py:183-224 | The loop returns the stripped payload, the values set aside, and exactly the unknown paths, each once. |
| `StateLens.MergePreserved` | src/agent_session_harness/supervisor.py:165-180 | The loop computes the merge in which known values win. |
| `StateLens.SupervisorState.Refresh` | src/agent_session_harness/supervisor.py:1936-1978 | Reads again what is on disk; reports exactly the unknown paths; a payload that does not validate changes nothing. |
| `StateLens.SupervisorState.Persist` | src/agent_session_harness/supervisor.py:1980-1997 | The next reader of this build gets exactly this snapshot and no unknown top-level value is lost. |
| `StateLens.SupervisorState.ReplaceClaim` | src/agent_session_harness/supervisor.py:1599-1619 | What was set aside for the predecessor's claim is dropped with it. |
| `StateLens.SupervisorState.Supervise` | src/agent_session_harness/supervisor.py:1936-1997 | Any number of load, change and persist cycles keeps every unknown top-level value, and while what is written validates, the last change is what is on disk. |
| `Lineage.LineageWalk.Visit` | src/agent_session_harness/adapters/codex.py:122-132 | Raises only when the stack closes a cycle; otherwise the session is placed once, after its parent. |
| `Lineage.OrderLineage` | src/agent_session_harness/adapters/codex.py:119-137 | Succeeds exactly without cycles; the order is a permutation, parents first, and the sorted one whenever that has parents first. |
| `Lineage.OrderedMeansAcyclic` | src/agent_session_harness/adapters/codex.py:119-137 | An order with every parent first exists only without cycles. |
| `Lineage.ReadLineage` | src/agent_session_harness/adapters/codex.py:109-149 | Succeeds exactly for distinct ids that can be ordered with every parent before its forks, and orders them so, by start and id where that already does; the naive total adds up the last counts; the corrected one is known exactly when every session's increment is, and adds these up. |
| `Lineage.Subtract` | src/agent_session_harness/adapters/codex.py:308-325 | Unknown exactly without a baseline or when a dimension fell below it; baseline plus difference is the final count. |
| `Lineage.InheritedIsLastBefore` | src/agent_session_harness/adapters/codex.py:245-257 | The baseline of a fork is the cumulative count of its last event before it started. |
| `Lineage.IncrementMeans` | src/agent_session_harness/adapters/codex.py:231-325 | What a session used by itself is its last count, for a fork less the last count before its start, and unknown for a fork without such a count or below it in any dimension. |
| `BakeSpool.GuardianBakeSpool.NothingIsLost` | src/agent_session_harness/guardian_bake_spool.py:67-123 | Retained and evicted counts together are the accepted reports; only delivered records were evicted; ids are unique. |
| `BakeSpool.GuardianBakeSpool.Append` | src/agent_session_harness/guardian_bake_spool.py:67-123 | Succeeds exactly when the file it leads to exists and fits: the newest undelivered record of the same key counts the report, else one record is added, and of a full spool exactly the first delivered one goes; a refusal writes nothing. |
| `BakeSpool.GuardianBakeSpool.Acknowledge` | src/agent_session_harness/guardian_bake_spool.py:125-143 | Succeeds exactly for a known id when the file still fits, and marks exactly that record; unknown ids raise; a refusal writes nothing. |
| `BakeSpool.ReportsSplit` | src/agent_session_harness/guardian_bake_spool.py:99-112 | What is kept and what was evicted account for every report. |
| `BakeSpool.EvictOne` | src/agent_session_harness/guardian_bake_spool.py:100-112 | Deleting one kept record is evicting its id and nothing else. |
| `HookManifest.NoFindingIffInstalled` | src/agent_session_harness/hooks/install.py:390-412 | The per-event findings are complete: none is left exactly when the global count and the expected groups agree. |
| `HookInstalling.HookInstaller.Diagnose` | src/agent_session_harness/hooks/install.py:108-200 | A finding for exactly the events that are not as installed and the foreign events with an owned entry; empty exactly when installed. |
| `HookInstalling.HookInstaller.NearestMiss` | src/agent_session_harness/hooks/install.py:211-282 | Names the first group with an owned entry and every way it differs; not installed exactly without any owned entry. |
| `HookInstalling.InstallingInstalls` | src/agent_session_harness/hooks/install.py:284-313 | A manifest after a successful install counts as installed, whatever it was before. |
| `HookInstalling.InstallTwice` | src/agent_session_harness/hooks/install.py:284-313 | Installing twice is installing once. |
| `HookInstalling.InstallKeepsForeign` | src/agent_session_harness/hooks/install.py:334-363 | Every event keeps its foreign entries, their groups' other fields, and their order. |
| `HookInstalling.UninstallUndoesInstall` | src/agent_session_harness/hooks/install.py:315-321 | Uninstalling after installing leaves what uninstalling alone would, up to an empty hooks object. |
| `HookInstalling.CleanTwice` | src/agent_session_harness/hooks/install.py:334-363 | Cleaning again finds nothing left to remove. |
| `HookMeaning.RemovalKeepsExactly` | src/agent_session_harness/hooks/install.py:334-363 | A removal takes out exactly the command entries whose text holds the harness's marker, under whatever event, and leaves every other key. |
| `HookMeaning.InstallationFilesExactly` | src/agent_session_harness/hooks/install.py:284-313 | After an installation an entry is filed under an event exactly when it was before and is not the harness's own, or it is the entry of one of the ten events, alone in the last group that matches everything, with the longer timeout for a session start. |
| `HookMeaning.DifferencesAre` | src/agent_session_harness/hooks/install.py:211-282 | The near miss compares the first own entry of the group: company, matcher, timeout and command, each named exactly when it differs. |
| `HookInstalling.GroupLostExactly` | src/agent_session_harness/hooks/install.py:340-359 | Cleaning removes a group if and only if everything it lists is owned; so a group without owned entries goes if and only if its array is empty, and otherwise comes back unchanged. |
| `HookInstalling.EventLostExactly` | src/agent_session_harness/hooks/install.py:334-363 | A removal drops an event if and only if its value is an array all of whose groups are removed, an empty array included. |
| `HookInstalling.InstallingLosesExactly` | src/agent_session_harness/hooks/install.py:284-363 | An installation loses the same events; those of the harness come back, with its own group and nothing else if and only if they were lost or absent. |
| `HookInstalling.HookInstaller.Install` | src/agent_session_harness/hooks/install.py:284-313 | Raises exactly for a manifest it cannot extend; otherwise the file is the installed form, unless it was already or the run is dry. |
| `HookInstalling.HookInstaller.Uninstall` | src/agent_session_harness/hooks/install.py:315-321 | The file is the manifest without owned entries, unless nothing changed or the run is dry. |
| `LinearComments.FetchIssue` | src/agent_session_harness/adapters/linear.py:184-261 | Succeeds exactly when the pages lead to a last one within every bound, and then returns the concatenation of all of them, never a part. |
| `LinearComments.ScanReturnsEverything` | src/agent_session_harness/adapters/linear.py:184-261 | Against a service that pages a list, a scan that succeeds returns every comment in order. |
| `LinearComments.ScanSucceedsWithinBounds` | src/agent_session_harness/adapters/linear.py:184-261 | When every page is answered under usable distinct cursors, the scan succeeds exactly within the comment, body and response bounds. |
| `LinearMirror.LinearIssue.HandleRequest` | src/agent_session_harness/adapters/linear.py:145-181 | By operation, with its own marker: success exactly when the marker is posted already, or the comment was created, answered and read back; a read posts nothing, a comment is added only when the marker is absent, and failures say whether to retry. |
| `LinearMirror.LinearIssue.Retry` | src/agent_session_harness/adapters/linear.py:164-175 | Any number of tries with any answers lost and others commenting in between: at most one comment carries the marker, success means it is there, and a try in which everything answers succeeds. |

## Left out

- The agent coordinator library is not part of this model: `Claims` specifies it as a store with a current lease, idempotent claims of one owner, release, and epochs that grow.
- Files are values that are replaced atomically or texts that are appended to; locks are atomic sections; symbolic links, permissions and fsync are not modelled. A persist that fails is a crash.
- Processes have identities that are never reused; signals, process groups, terminals and the probing of process lists are reduced to facts about liveness, and a probe may fail.
- Time appears as a number where an interval is compared, and as a free choice where only a deadline matters.
- Claims.CoordinatorAdapter.Heartbeat: does not model a heartbeat that changes the epoch of the lease; a renewed handle is the same handle.
- Exit records are not modelled beyond their owner and whether their removal succeeds.
- Registry records without a command digest, and a registry path used for another key, do not occur.
- A stop removes the exact record it stopped. The unlink by `graceful_stop` of a guardian that is still draining is modelled, and the theorems except such guardians explicitly.
- Supervision.Supervisor.FailClosedForStaleOwner: writes the state file once where the code writes it twice; a crash between the two leaves what a failed exit cleanup leaves, which is modelled.
- Supervision.Supervisor.HeartbeatIfDue: does not model the lease extension and the heartbeat time a successful heartbeat writes, because only the claim's identity matters to the protocol.
- The in-memory flag for a successor abort is not kept: the durable test alone already refuses such a successor, which is proved.
- Rotation.StartFresh: is one atomic effect, while the code lets others act inside a launch; `LaunchInRotation` shows that both are made of the same moves, not that every interleaving inside one call can be reordered around a single effect.
- Rotation.Observe: does not model the decisions of a sample, because any of the three phases before CHECKPOINTING may follow; module `Drain` does, and `DrainInRotation` shows that its steps are among these.
- Supervision.Supervisor.Tick: does not model sampling and draining again, for the same reason; `DrainControl.DrainingSupervisor.Tick` does.
- Alarms, the effect journal beyond the order of effects, version-skew announcements, and everything printed.
- Ledger.EventLedger.ReadEvents: does not model undecodable bytes, and takes the newline as the only line separator, as the encoder never writes another; rewriting a ledger in place under one file identity is excluded.
- OutboxTheorems.EveryEntryAccountedFor: does not model two entries with the same timestamp, because the clock is taken to give each enqueue its own.
- LinearComments.ScanReturnsEverything: does not model comments added between two pages of one scan, because it needs a service that answers a scan from one list.
- LinearMirror.LinearIssue.HandleRequest: does not model request validation and the text of a checkpoint; the marker leads the body.
- Lineage.ReadLineage: does not model reading rollout files; sessions come with their sorted token events.
- StateLens.StripUnknownFields: does not model the joining of keys into dotted strings, in which a key with a dot would be ambiguous; names are paths of keys.
- StateLens.SupervisorState.Refresh: does not model which payloads validate; any validation that yields every declared field is allowed.
- HookInstalling.HookInstaller.NearestMiss: does not model the wording of the report, only which differences it names.
- The order of keys in JSON objects, JSON text, and the digests, which are taken to be injective.
- The governor, finalization, context advisories, resource guardians and executors, configuration, command line, usage and beads adapters, redaction and the daemon kernel: decisions with few branches, or signalling.
