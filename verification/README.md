# Managed-turn execution, verified

Jarvis hands a finite list of work items to AI threads, one bounded turn at a time, while
host processes crash, scanners act on stale snapshots, and stop and close requests race with
dispatch. This project models that protocol in Dafny and proves what it promises over whole
runs: what every interleaving keeps, what is dispatched at most once, what a rotation covers,
and when "completed" may be believed. `dafny verify dfyconfig.toml` checks everything.

## How the model is organised

* **One Hold directory** (`HoldRoot`, `HoldLatch`, `HoldDispatch`, `HoldOwnership`, `HoldRace`, `HoldStuck`).
  Each read, write, mkdir, unlink and rmdir on `request.json`, `ack.json`, `result.json`, the claim
  directory and the request lock is one step of a transition system; any number of actors take
  steps in any order and whole processes die between any two. `ClaimMove` follows `_claim`
  (packages/adapters/codex_app_server/jarvis_hold_host_service.py:453-484) and the scan before it (302-317),
  `RequeueMove` follows `_requeue_dead_claim` (393-450), `HoldMove` follows `hold_task`
  (packages/adapters/codex_app_server/jarvis_task_hold_host.py:268-498) and the release after it, `StopMove` follows
  `request_hold_stop`, the close record and the queued branch of `close_hold`
  (packages/adapters/codex_app_server/task_provisioning_adapter.py:440-507).
* **The lock under it** (`ProcessLock`), in `owner_alive` mode, for Windows and for POSIX.
* **The holder** (`TurnMonitor`, `HolderLog`, `Holder`, `HoldSessions`) as a class with the counters and evidence flags
  of `hold_task`. The App Server is a parameter: it ends turns in any way, and any report, start, read-back or write
  may raise. A log records what was really sent, seen to end, and recorded.
* **Close evidence** (`CloseReports`): the close report of one Hold and the refreshes that complete it.
* **The loop** (`Lanes`, `LoopState`, `LoopStore`, `LoopCleanup`, `LoopRotation`, `LoopController`): the loop record in its
  store under concurrent writers, the drain that ends a loop, the rotation of a slot over threads, and the controller's
  tick, stop and close as methods that other writers interrupt.
* **Around it** (`LocalHeartbeat`, `HeartbeatStore`, `MasterQueue`, `Bridge`, `ThreadMonitor`, `EventLedger`, `Outbox`).

Files are records, table rows are sequence elements, hashes are injective encodings, time is a real number.
Answers of other systems are parameters. Identities such as turn, run and outbox ids are numbers that nobody forges.

## What the proofs found

Where the code does not keep a property on every input, a lemma gives an input and another the exact condition.

* **Single ownership needs a guard.** The branch of `_requeue_dead_claim` that fails a claim without a turn identity acts
  outside the lock on the acknowledgement that the scanner read earlier. With a stale one it deletes the claim of a live
  recoverer; `HoldRace.StaleFailureMakesTwoOwners` is a run of the protocol that ends with two live owners. Ownership stays
  in order in exactly the runs in which whoever enters that branch still finds its guard in the files on disk, or a root that
  is over or failed already (`HoldOwnership.OwnershipExactly`), and then there is at most one live owner
  (`HoldOwnership.SingleOwner`). The guard is no mere formality. With idle workers and a free request lock, a failer over the
  dead claim of a root where no snapshot names a turn leads to two owners exactly if the files name one, and otherwise the root
  is lost for good (`HoldRace.FailureOverDeadClaimExactly`, `HoldStuck.LostForever`). It also leads to two owners beside a
  scanner that read a turn before (`HoldRace.FailureBesideRecoverer`), over the claim of a live owner (`FailureOverClaim`,
  `FailureOverOwner`), and over a queued root (`FailureOverQueue`). The single first dispatch and the two stop latches need no
  such condition.
* **A close record alone is outrun by the dispatch under way.** It is written outside the request lock and before the stop
  flag, so a start can follow it (`HoldRace.CloseIsOutrun`); one does exactly where a dispatch already passed its check
  (`HoldLatch.FurtherStartExactly`), and never more than that one (`HoldLatch.CloseLatch`).
* **Two kinds of crash leave a root that nobody can take**: one between making the claim directory and writing its owner
  (`HoldStuck.UnownedClaimIsReachable`), and one of a resume before its turn has a name
  (`HoldStuck.UnnamedResumeIsReachable`). Such a root gets no owner, start or result any more (`HoldStuck.StuckForever`).
* **An unwritten lock file is never reclaimed.** A process can die between creating and writing the lock file
  (`ProcessLock.OrphanIsReachable`), and then nobody enters any more (`ProcessLock.OrphanLocksOutForever`): an unopened lock
  file is reclaimed exactly when it names a dead owner (`ProcessLock.ReclaimableExactly`).
* **The POSIX reclaim admits two** (`ProcessLock.PosixReclaimAdmitsTwo`), as the inode is compared before the owner is tested.
  The lock stays in order in exactly the runs whose deletions spare whoever is entering or inside
  (`ProcessLock.PosixOrderExactly`), and it excludes in these (`ProcessLock.SparingPosixExcludes`); any other deletion lets the
  next contender in beside the first (`ProcessLock.UnsparingDeletionAdmitsTwo`).
* **The latch of a completed cleanup does not outlive a first report that comes after it.** Such a report, not released,
  undoes the evidence, and a copy from before the completion then reopens the cleanup (`LoopStore.ReportReopensCleanup`). It
  takes a closer whose reports are not recorded before the drain is saved; where all owned children's reports are in place, no
  writer of the same children breaks the seal (`LoopStore.ReportSealHolds`). Over any writes a completed, confirmed cleanup
  stays so exactly when none of them unseals it (`LoopStore.SealStaysExactly`).
* **Aggregation looks at owned children only**, and can complete a cleanup without evidence
  (`LoopState.AggregateOverlooksUnowned`); `LoopState.AggregateIsConfirmedExactly` gives the condition.
* **A close intent can be lost** to a cleanup stored between its load and its save (`LoopController.IntentIsLost`, exactly
  `LoopController.IntentStoredExactly`), and `_finish` can lose its latch to a close (`LoopController.LatchIsLost`, exactly
  `LoopCleanup.LatchIsStored`).
* **A bridge request starts twice after a lost journal line** (`Bridge.LostReceiptStartsTwice`, exactly
  `Bridge.OneStartExactly` and `Bridge.StartsExactly`). Once a call that found its thread idle was answered, no later call
  starts a turn (`Bridge.AnsweredNeverStartsAgain`).
* **A heartbeat has two queue items in flight** when a worker revives an accepted one next to another
  (`MasterQueue.RevivedItemMakesTwo`), and only then (`MasterQueue.OneInFlightExactly`).
* **A terminal receipt can fail its heartbeat.** It never counts as a success, so the turn that ends the work fails the row
  where one more failure is not permitted (`HeartbeatStore.TerminalReceiptFails`, exactly
  `HeartbeatStore.TerminalReceiptFailsExactly`).

## Model

| member | source | states |
|---|---|---|
| HoldLatch.StopLatch | packages/adapters/codex_app_server/jarvis_task_hold_host.py:273-280 | In every run, once `stop_requested` is on disk it stays there and no turn is started any more |
| HoldLatch.RunInv | packages/adapters/codex_app_server/jarvis_task_hold_host.py:361-427 | In every run each live actor in a locked block owns the request lock, and no live holder past its stop check faces a stop on disk |
| HoldLatch.StepUnderStop | packages/adapters/codex_app_server/jarvis_hold_host_service.py:431-446 | No rewrite of the request drops the stop flag, and no step starts a turn under it |
| HoldLatch.CloseLatch | packages/adapters/codex_app_server/jarvis_task_hold_host.py:219-225 | In every run, once `close.json` names the request at most the one dispatch under way is still sent, and none if there is none |
| HoldLatch.FurtherStartExactly | packages/adapters/codex_app_server/jarvis_task_hold_host.py:273-318 | From a reachable state with a recorded close a further start can follow exactly when a dispatch is under way |
| HoldRace.CloseIsOutrun | packages/adapters/codex_app_server/task_provisioning_adapter.py:461-480 | A run records a close and sends a start after it |
| HoldDispatch.SingleFirstDispatch | packages/adapters/codex_app_server/jarvis_task_hold_host.py:290-318 | In every run, with any crashes and stale scans, the initial create or resume is issued at most once |
| HoldDispatch.RequeueRecovers | packages/adapters/codex_app_server/jarvis_hold_host_service.py:422-446 | Once the first acknowledgement is spent, a queued acknowledgement always belongs to a recovery request |
| HoldDispatch.StepInheritsRights | packages/adapters/codex_app_server/jarvis_hold_host_service.py:461-473 | The right to a first dispatch is acquired only by reading the fresh acknowledgement inside an own claim |
| HoldDispatch.StepKeepsSpent | packages/adapters/codex_app_server/jarvis_hold_host_service.py:474-481 | A spent acknowledgement never becomes fresh again |
| HoldOwnership.SingleOwner | packages/adapters/codex_app_server/jarvis_hold_host_service.py:393-500 | In every guarded run there is at most one live owner, and until a result exists it made the claim directory that is still there |
| HoldOwnership.OwnershipExactly | packages/adapters/codex_app_server/jarvis_hold_host_service.py:393-421 | Claims, failers, recoverers and owners are in order throughout a run exactly when every entry of the failing branch is guarded on disk |
| HoldOwnership.GuardedRunInv | packages/adapters/codex_app_server/jarvis_hold_host_service.py:404-421 | Guarded runs keep the claim with whoever is on the claim path, failers with dead or failed roots, recoverers with the dead claim they inspected |
| HoldRace.StaleFailureMakesTwoOwners | packages/adapters/codex_app_server/jarvis_hold_host_service.py:408-421 | Without the guard a run reaches a state with two live owners |
| HoldRace.FailureOverDeadClaimExactly | packages/adapters/codex_app_server/jarvis_hold_host_service.py:404-448 | From a failer over a dead claim, with snapshots that name no turn, idle workers and a free lock, two owners can follow exactly if the files name a turn; otherwise the root is lost |
| HoldRace.FailureOverClaim | packages/adapters/codex_app_server/jarvis_hold_host_service.py:404-448 | Two owners can follow a failer over a claim whose owner is dead or may die, on a root that names a turn |
| HoldRace.FailureOverOwner | packages/adapters/codex_app_server/jarvis_hold_host_service.py:408-448 | Two owners can follow a failer over the live owner of a fresh request, before its turn has a name |
| HoldRace.FailureBesideRecoverer | packages/adapters/codex_app_server/jarvis_hold_host_service.py:422-448 | Two owners can follow a failer over a dead claim beside a scanner that read a turn, whatever the files name by then |
| HoldRace.FailureOverQueue | packages/adapters/codex_app_server/jarvis_hold_host_service.py:404-484 | Two owners can follow a failer over a queued root, whether or not its files name a turn |
| HoldStuck.StuckForever | packages/adapters/codex_app_server/jarvis_hold_host_service.py:397-410 | A root with an unowned claim, or a dead one left alone, keeps its claim and gets no owner, start or result |
| HoldStuck.UnownedClaimIsReachable | packages/adapters/codex_app_server/jarvis_hold_host_service.py:454-461 | A death between mkdir and the owner write leaves such a root, whatever the request |
| HoldStuck.LostForever | packages/adapters/codex_app_server/jarvis_hold_host_service.py:408-421 | A root where no turn is named anywhere and nobody can pass a claim gets no owner and no start any more |
| HoldStuck.UnnamedResumeIsReachable | packages/adapters/codex_app_server/jarvis_hold_host_service.py:408-410 | So does the death of a resume's owner before its turn has a name |
| ProcessLock.MutualExclusion | packages/jarvis_runtime/coo_dispatcher_store.py:132-200 | In every Windows run of contenders, reclaimers, exits and crashes at most one live contender is inside, and it made the lock file |
| ProcessLock.ReclaimSparesTheLiving | packages/jarvis_runtime/coo_dispatcher_store.py:175-201 | The lock file leaves its path only by a step that is the exit of its live maker, or after its maker's death, written or not |
| ProcessLock.OrphanIsReachable | packages/jarvis_runtime/coo_dispatcher_store.py:137-147 | A run on Windows leaves an unwritten lock file of a dead maker |
| ProcessLock.OrphanLocksOutForever | packages/jarvis_runtime/coo_dispatcher_store.py:137-147 | A lock file left unwritten by a dead maker stays for ever and nobody enters |
| ProcessLock.ReclaimableExactly | packages/jarvis_runtime/coo_dispatcher_store.py:167-201 | An unopened lock file is reclaimed exactly when it names a dead owner, and the reclaim frees the path and changes nothing else |
| ProcessLock.PosixReclaimAdmitsTwo | packages/jarvis_runtime/coo_dispatcher_store.py:202-212 | On POSIX a run reaches two live contenders inside |
| ProcessLock.PosixOrderExactly | packages/jarvis_runtime/coo_dispatcher_store.py:202-212 | On POSIX file and positions stay in order throughout a run exactly when each deletion spares whoever is entering or inside |
| ProcessLock.SparingPosixExcludes | packages/jarvis_runtime/coo_dispatcher_store.py:202-212 | In these runs at most one live contender is inside, with the file on the path |
| ProcessLock.ComparedDeletionSpares | packages/jarvis_runtime/coo_dispatcher_store.py:202-212 | A deletion that still finds the file that it compared spares everyone |
| ProcessLock.UnsparingDeletionAdmitsTwo | packages/jarvis_runtime/coo_dispatcher_store.py:202-212 | From a deletion over the file of a contender entering or inside, two inside can follow, given one more contender |
| Lanes.SuffixBatch | packages/jarvis_control/loop.py:813-832 | Turn k of a thread that took over after c rounds sees the batch of round c + k, and has none exactly when the lane has none |
| Lanes.SuffixRounds | packages/jarvis_control/loop.py:821-827 | The binding after c rounds has exactly the remaining rounds |
| Lanes.ExposedStretch | packages/jarvis_control/provisioning.py:54-63 | Successive turns of a thread expose one contiguous stretch of the lane, in order |
| Lanes.ItemHasOneRound | packages/jarvis_control/provisioning.py:62-63 | An item is in the batch of round k exactly when k is its position divided by the size, plus one |
| Lanes.LastRoundNotEmpty | packages/jarvis_control/provisioning.py:60-63 | The last round has a batch and ends with the last item |
| TurnMonitor.StopMeans | packages/jarvis_monitor/hold_turn_monitor.py:85-106 | What each final label tells about the observed turn and the budget |
| HolderLog.OrderlyShape | packages/adapters/codex_app_server/jarvis_task_hold_host.py:371-429 | Events come turn by turn as dispatch, end, record, with consecutive numbers |
| HolderLog.DispatchedOnce | packages/adapters/codex_app_server/jarvis_task_hold_host.py:371-424 | No turn number is dispatched twice, and a start is sent only after the previous turn was recorded |
| Holder.Holder.Issue | packages/jarvis_runtime/jarvis_native_task_launcher.py:1062-1071 | A start is sent only after `turn_starting` was noted; the flags and identity after each way it may fail |
| Holder.Holder.Open | packages/adapters/codex_app_server/jarvis_task_hold_host.py:268-320 | The first locked block ends watching a dispatched or attached turn, or fails with sound flags; a stop before dispatch sends nothing |
| Holder.Holder.Watch | packages/adapters/codex_app_server/jarvis_task_hold_host.py:340-412 | The decision is the monitor's, a stop before continuation overrides it, and a confirmed turn is recorded before anything else |
| Holder.Holder.Next | packages/adapters/codex_app_server/jarvis_task_hold_host.py:413-451 | The next turn is dispatched in its lane with both counters advanced, or fails with sound flags |
| Holder.Holder.Record | packages/adapters/codex_app_server/task_provisioning_adapter.py:894-939 | A turn's history row carries its total number, and an existing row is left alone |
| Holder.Holder.Run | packages/adapters/codex_app_server/jarvis_task_hold_host.py:157-498 | Counters in step, turns within budget, lane and history aligned; a regular exit follows from the decisions of all rounds, and every exit's evidence is sound |
| HoldSessions.FreshSessionFits | packages/jarvis_control/loop.py:266-288 | A slot's thread, with or without `turns_per_thread`, never runs out of its lane, runs one turn without automatic continuation, and its turn k sees round completed + k of the slot |
| HoldSessions.ResumedSessionFits | packages/adapters/codex_app_server/task_provisioning_adapter.py:237-257 | A resumed session starts at the next round of its lane and, where it continues, its budget ends with the last |
| HoldSessions.SessionWithinBudget | packages/adapters/codex_app_server/jarvis_task_hold_host.py:335-443 | A session dispatches each number at most once and only numbers of its budget |
| HoldSessions.CloseNeverHidesTurn | packages/adapters/codex_app_server/task_provisioning_adapter.py:812-836 | A completed close report read from a holder's exit, from the host's read-back or from reconciling, never hides a running turn that the holder dispatched or was recovering |
| CloseReports.CloseFile.Refresh | packages/adapters/codex_app_server/task_provisioning_adapter.py:802-847 | The new report as a function of the old one and the evidence, and what is forwarded to the parent loop |
| CloseReports.CompletesExactly | packages/adapters/codex_app_server/task_provisioning_adapter.py:812-829 | Exactly when a refresh completes a report |
| CloseReports.CompletedIsReleased | packages/adapters/codex_app_server/task_provisioning_adapter.py:812-836 | Over any refreshes a completed report is terminal, released and closed for management |
| CloseReports.CompletionStays | packages/adapters/codex_app_server/task_provisioning_adapter.py:836-840 | Without a failing close a completed report never changes |
| CloseReports.ReportHidesNoTurn | packages/adapters/codex_app_server/task_provisioning_adapter.py:815-818 | Over any truthful refreshes neither completion nor the sticky non-dispatch mark hides an open turn |
| LoopState.AggregateCompletesExactly | packages/jarvis_control/loop.py:46-66 | Aggregation completes the cleanup exactly when the heartbeat is cancelled and every owned child's report is completed |
| LoopState.AggregateIsConfirmedExactly | packages/jarvis_control/loop.py:21-35 | When aggregation completes, the evidence predicate holds exactly when all labels are terminal and no child without a Hold is active |
| LoopState.AggregateOverlooksUnowned | packages/jarvis_control/loop.py:49-52 | Aggregation completes a cleanup that the evidence predicate rejects |
| LoopStore.Store.Save | packages/jarvis_control/loop.py:119-150 | Disk and copy after a save, for any stored record and any copy |
| LoopStore.Store.RecordChildClose | packages/jarvis_control/loop.py:163-190 | The record after a child report, accepted or not |
| LoopStore.Store.CommitDispatch | packages/jarvis_control/loop.py:542-553 | A rotation acquires exactly when neither close nor cleanup is stored; otherwise the copy adopts the record |
| LoopStore.MergeLatches | packages/jarvis_control/loop.py:119-150 | Under any saves, commits and reports the cleanup target, close request and child reports are latched |
| LoopStore.NoReplacementAfterClose | packages/jarvis_control/loop.py:546-551 | Once a close or cleanup is stored no rotation acquires a thread, in any interleaving |
| LoopStore.ConfirmedCleanupStays | packages/jarvis_control/loop.py:128-135 | No single write takes back a completed cleanup with confirmed evidence |
| LoopStore.CleanupReopensExactly | packages/jarvis_control/loop.py:128-150 | Exactly when a write takes a completed cleanup back to pending |
| LoopStore.ReportReopensCleanup | packages/jarvis_control/loop.py:128-150 | A late child report and an older copy reopen a completed, confirmed cleanup |
| LoopStore.SealStaysExactly | packages/jarvis_control/loop.py:119-150 | Over any writes a completed, confirmed cleanup stays so exactly when none of them takes its evidence away |
| LoopStore.ReportSealHolds | packages/jarvis_control/loop.py:141-190 | With every owned child's report completed and released in place, no saves, commits or reports of the same children undo a completed, confirmed cleanup |
| LoopStore.EvidencedCopyKeepsSeal | packages/jarvis_control/loop.py:141-149 | A copy of the same children that carries its own evidence unseals nothing |
| LoopStore.HonestRunFaithful | packages/jarvis_control/loop.py:141-150 | Over honest runs each reported child shows its recorded report, and reports stay sound |
| LoopStore.ReportCompletesTruthfully | packages/jarvis_control/loop.py:163-190 | When a child report completes the cleanup, all owned reports are completed, terminal and released; exactly when the evidence predicate agrees |
| LoopCleanup.DrainChildren | packages/jarvis_control/loop.py:425-460 | The drained children and the two accumulated verdicts |
| LoopCleanup.Finish | packages/jarvis_control/loop.py:407-476 | The latch is persisted first, the copy is drained after it, and the look-up fails exactly when a close without cleanup won |
| LoopCleanup.LatchIsStored | packages/jarvis_control/loop.py:409-417 | Exactly when the persisted latch comes back without a cleanup |
| LoopCleanup.DrainIsTruthful | packages/jarvis_control/loop.py:457-463 | The drain completes the cleanup exactly when the heartbeat is cancelled, the evidence predicate holds and no child close broke |
| LoopCleanup.UnconfirmedMeans | packages/jarvis_control/loop.py:464-476 | A loop closed but unconfirmed has every owned child closed for management and is not completed |
| LoopCleanup.DrainedSaveCompletes | packages/jarvis_control/loop.py:461-463 | After a completed drain is stored, no single write reopens it |
| LoopRotation.SweepTerminals | packages/jarvis_control/loop.py:506-558 | The sweep over all children, with other writers between its locked sections |
| LoopRotation.ClosedSweepAcquiresNothing | packages/jarvis_control/loop.py:542-553 | A sweep over a record with a stored close or cleanup acquires nothing, whatever others write |
| LoopRotation.RotationAdvances | packages/jarvis_control/loop.py:527-555 | For every receipt a rotation adds at least the budget, stays below the limit, and leaves a fitting next budget |
| LoopRotation.HandsOverExactly | packages/jarvis_control/loop.py:534-555 | A slot hands over, by its budget, exactly when its Hold ended released, confirmed, verified and at its budget with rounds to go; it finishes exactly when none are left |
| LoopRotation.SweepHandsOver | packages/jarvis_control/loop.py:542-555 | A rotation that the sweep commits is a hand-over of the slot run |
| LoopRotation.ObservationInReach | packages/jarvis_control/loop.py:478-504 | Observation keeps the rounds within what the running thread may reach |
| LoopRotation.CompletesAfterExactThreads | packages/jarvis_control/loop.py:835-846 | A slot completes after exactly ceil(limit / quota) threads whose budgets sum to the limit, all but the last full |
| LoopRotation.LaneIsCovered | packages/jarvis_control/loop.py:813-832 | The threads of a completed slot expose exactly the lane's candidates, in order and each once |
| LoopRotation.CheckExpectsLastBatch | packages/jarvis_control/loop.py:591-618 | The terminal check of a thread expects the very batch that its last turn exposed |
| LoopRotation.SoleThreadCovers | packages/jarvis_control/loop.py:270-275 | A slot without `turns_per_thread` is never handed over; its one thread exposes the whole lane and finishes at the lane's last round and batch |
| LoopController.IntentStoredExactly | packages/jarvis_control/loop.py:376-383 | Exactly when the close intent is not stored |
| LoopController.IntentIsLost | packages/jarvis_control/loop.py:378-383 | A cleanup stored between load and save loses the close intent |
| LoopController.LatchIsLost | packages/jarvis_control/loop.py:409-417 | A close stored between load and save loses the cleanup latch |
| LoopController.SavedDrainConfirmedExactly | packages/jarvis_control/loop.py:141-150 | After a completed drain is saved, exactly when the stored evidence confirms it; otherwise the next tick drains again |
| LoopController.Controller.Stop | packages/jarvis_control/loop.py:396-405 | A stop keeps the latches in any interleaving, leaves a confirmed cleanup alone, and its exact result when undisturbed |
| LoopController.Controller.Close | packages/jarvis_control/loop.py:376-394 | A close keeps the latches, stores its intent before any effect unless it is lost, and its exact result when undisturbed |
| LoopController.Controller.Tick | packages/jarvis_control/loop.py:298-323 | A tick keeps the latches, acquires nothing over a stored close or cleanup, and its exact result when undisturbed |
| LoopController.Controller.ObserveChildren | packages/jarvis_control/loop.py:478-504 | The children after one observation |
| LocalHeartbeat.LocalHeartbeatStore.Create | packages/jarvis_runtime/jarvis_local_heartbeat.py:160-173 | A valid new heartbeat is added, an existing id or an invalid request changes nothing |
| LocalHeartbeat.LocalHeartbeatStore.Cancel | packages/jarvis_runtime/jarvis_local_heartbeat.py:186-194 | An active row is cancelled, others are left alone |
| LocalHeartbeat.LocalHeartbeatStore.ClaimDue | packages/jarvis_runtime/jarvis_local_heartbeat.py:196-203 | Exactly the due rows are claimed and moved to their next run |
| LocalHeartbeat.LocalHeartbeatStore.Record | packages/jarvis_runtime/jarvis_local_heartbeat.py:205-221 | The row after one recorded outcome |
| LocalHeartbeat.TerminalStays | packages/jarvis_runtime/jarvis_local_heartbeat.py:214-217 | Terminal rows keep their status whatever is recorded later |
| LocalHeartbeat.ClaimsAreSpaced | packages/jarvis_runtime/jarvis_local_heartbeat.py:196-203 | After n claims the next run is not due before creation plus n + 1 intervals, and the last claim was before expiry |
| LocalHeartbeat.CreatedReconciling | packages/jarvis_control/loop.py:871-885 | Creating a loop's reconcile heartbeat makes an active row with the computed run budget |
| LocalHeartbeat.NeverRunsDry | packages/jarvis_control/loop.py:874-881 | For every interval and lateness pattern the claims stay two below the run budget, which never completes the heartbeat |
| LocalHeartbeat.DueIsOnlyTime | packages/jarvis_runtime/jarvis_local_heartbeat.py:199-200 | An active reconcile heartbeat is claimable exactly when it is due before expiry |
| MasterQueue.QueueFile.ClaimOrObserve | packages/jarvis_runtime/jarvis_heartbeat_service.py:2248-2310 | Answer and stored queue of one probe |
| MasterQueue.QueueFile.MarkWakeStarted | packages/jarvis_runtime/jarvis_heartbeat_service.py:2312-2328 | The first matching claim is marked woken and nothing else changes; it fails exactly when there is none |
| MasterQueue.QueueFile.WakeChain | packages/jarvis_runtime/jarvis_heartbeat_service.py:2561-2616 | The chain ends, is a run of the queue file, and wakes exactly the items it claimed, each once, and no more than were claimable where no work is added; a claim that disappears ends it |
| MasterQueue.ProbeUses | packages/jarvis_runtime/jarvis_heartbeat_service.py:2281-2304 | A probe makes nothing claimable, and uses up the item that it takes |
| MasterQueue.ClaimedAtMostOnce | packages/jarvis_runtime/jarvis_heartbeat_service.py:2281-2304 | In every run whose edits keep items in place and rewrite none to pending, each item is claimed at most once over all heartbeats |
| MasterQueue.ProbeKeepsOne | packages/jarvis_runtime/jarvis_heartbeat_service.py:2262-2280 | No probe gives a heartbeat a second item in flight |
| MasterQueue.EditKeepsOneExactly | packages/jarvis_runtime/jarvis_heartbeat_service.py:2262-2280 | Any edit keeps a heartbeat at one item in flight exactly when it revives none next to another |
| MasterQueue.OneInFlightExactly | packages/jarvis_runtime/jarvis_heartbeat_service.py:2262-2304 | Any run keeps a heartbeat at one item in flight throughout exactly when no edit of it is such a revival |
| MasterQueue.MethodsAreOps | packages/jarvis_runtime/jarvis_heartbeat_service.py:2248-2328 | A probe is an operation of these runs, and marking a wake is an edit that requeues and revives nothing |
| MasterQueue.RevivedItemMakesTwo | packages/jarvis_runtime/jarvis_heartbeat_service.py:2267-2277 | A revived item is a second one in flight, although no item is rewritten to pending |
| HeartbeatStore.HeartbeatStore.Create | packages/jarvis_runtime/jarvis_heartbeat_service.py:622-668 | A new schedule is added exactly when its id is new |
| HeartbeatStore.HeartbeatStore.Update | packages/jarvis_runtime/jarvis_heartbeat_service.py:670-738 | Exactly when an update is allowed, and the row after it |
| HeartbeatStore.HeartbeatStore.SetStatus | packages/jarvis_runtime/jarvis_heartbeat_service.py:781-826 | Exactly when a status change is allowed, and the row after it |
| HeartbeatStore.HeartbeatStore.ArmTriggerHandoff | packages/jarvis_runtime/jarvis_heartbeat_service.py:828-858 | Exactly when a handoff is armed, and the row after it |
| HeartbeatStore.HeartbeatStore.FinishTriggerHandoff | packages/jarvis_runtime/jarvis_heartbeat_service.py:860-899 | A handoff is finished exactly by its armed run |
| HeartbeatStore.HeartbeatStore.CompleteDelivery | packages/jarvis_runtime/jarvis_heartbeat_service.py:901-937 | A delivery completes exactly an active row that awaits it |
| HeartbeatStore.HeartbeatStore.RecordInflightTurn | packages/jarvis_runtime/jarvis_heartbeat_service.py:1462-1499 | A turn is persisted exactly for an own run that is not completed |
| HeartbeatStore.HeartbeatStore.RecoverNativeProbeHandoffs | packages/jarvis_runtime/jarvis_heartbeat_service.py:983-1061 | Every row and run after a recovery |
| HeartbeatStore.HeartbeatStore.ClaimDue | packages/jarvis_runtime/jarvis_heartbeat_service.py:1113-1197 | Rows, claims in due order and runs after a claim |
| HeartbeatStore.ClaimsExactly | packages/jarvis_runtime/jarvis_heartbeat_service.py:1133-1143 | Exactly the due rows are claimed, each once, ordered by due time and id |
| HeartbeatStore.ClaimsOpenRuns | packages/jarvis_runtime/jarvis_heartbeat_service.py:1165-1180 | With unique run ids a claim opens exactly one run per claimed row and touches no other run |
| HeartbeatStore.HeartbeatStore.RecordRun | packages/jarvis_runtime/jarvis_heartbeat_service.py:1199-1427 | Row and run table after a recorded run |
| HeartbeatStore.RecordEndsExactly | packages/jarvis_runtime/jarvis_heartbeat_service.py:1286-1358 | Exactly when a recorded run completes, fails or pauses an active row, with or without a required receipt |
| HeartbeatStore.EndOfWorkFailsExactly | packages/jarvis_runtime/jarvis_heartbeat_service.py:1332-1358 | A run that ends the work completes or fails its row, and fails it exactly when the failures are used up |
| HeartbeatStore.TerminalReceiptFailsExactly | packages/jarvis_runtime/jarvis_heartbeat_service.py:1310-1358 | A terminal receipt fails its row exactly on the last permitted failure |
| HeartbeatStore.TerminalReceiptFails | packages/jarvis_runtime/jarvis_heartbeat_service.py:1310-1358 | A completed turn with a terminal receipt fails its row |
| HeartbeatStore.AlertsOnce | packages/jarvis_runtime/jarvis_heartbeat_service.py:1362-1383 | However long a queue stays quiet and unchanged, its persistence is reported at most once |
| HeartbeatStore.LeavesTerminalExactly | packages/jarvis_runtime/jarvis_heartbeat_service.py:689-695 | A step leaves a terminal status exactly when it is a reactivating update with nothing inflight |
| HeartbeatStore.TerminalStays | packages/jarvis_runtime/jarvis_heartbeat_service.py:800-801 | Over any other operations a terminal status is final |
| HeartbeatStore.EntersExactly | packages/jarvis_runtime/jarvis_heartbeat_service.py:868-891 | Exactly which steps enter pending delivery |
| HeartbeatStore.HandedStays | packages/jarvis_runtime/jarvis_heartbeat_service.py:839-850 | Between updates a handoff that reached delivery is never armed or entered again |
| HeartbeatStore.OneHandoff | packages/jarvis_runtime/jarvis_heartbeat_service.py:983-1061 | Between updates, restarts included, pending delivery is entered at most once |
| HeartbeatStore.ConsistentStays | packages/jarvis_runtime/jarvis_heartbeat_service.py:914-936 | Every run keeps armed rows with their run, and a delivered message with a cancelled row |
| Bridge.OutputIsExact | packages/jarvis_codex_bridge/service.py:15-23 | An output comes from the exact turn, and from a final answer if the turn has one |
| Bridge.ReceiptJournal.FindTerminal | packages/jarvis_codex_bridge/journal.py:26-53 | The last terminal line of a request is found |
| Bridge.ExistingThreadBridge.ResumeExisting | packages/jarvis_codex_bridge/service.py:44-102 | Receipt, journal and start of one call, in all its ways |
| Bridge.DoneMeansOutput | packages/jarvis_codex_bridge/service.py:66-91 | A fresh completed receipt carries the exact output of the turn that this call started |
| Bridge.StartsAreJournalled | packages/jarvis_codex_bridge/service.py:44-102 | A request's starts are its lost receipts, plus one exactly when its receipt is journalled |
| Bridge.OneStartExactly | packages/jarvis_codex_bridge/service.py:44-48 | Exactly when a request starts at most one turn over any sequence of calls |
| Bridge.LostReceiptStartsTwice | packages/jarvis_codex_bridge/service.py:66-102 | Two equal calls whose receipts are not written start two turns |
| Bridge.StartsExactly | packages/jarvis_codex_bridge/service.py:44-102 | A call starts a turn exactly when its thread is idle and no earlier call of the request that found it idle wrote its line |
| Bridge.AnsweredNeverStartsAgain | packages/jarvis_codex_bridge/service.py:44-48 | Once a call that found its thread idle was answered, no later call of the request starts a turn |
| Bridge.AnsweredStartsOnce | packages/jarvis_codex_bridge/service.py:44-102 | A request whose earlier calls all returned a receipt starts at most one turn |
| Bridge.JournalledIsReplayed | packages/jarvis_codex_bridge/journal.py:26-59 | A journalled request never starts again and keeps its receipt |
| ThreadMonitor.ThreadTerminalMonitor.Observe | packages/jarvis_codex_bridge/monitor.py:50-88 | The event of a read and the fingerprint saved with it |
| ThreadMonitor.ContinuationMonitor.Advance | packages/jarvis_codex_bridge/monitor.py:223-250 | One continuation: its prompt, its start, and whether the session goes on |
| ThreadMonitor.ContinuationMonitor.Run | packages/jarvis_codex_bridge/monitor.py:190-252 | Exactly the newly completed turns are continued, with prompts in order, within the budget, and with no more starts than continuations and one lost receipt |
| EventLedger.Ledger.IngestEvent | packages/jarvis_runtime/coo_dispatcher_store.py:331-384 | An event is appended exactly when its key is mentioned nowhere |
| EventLedger.Ledger.Record | packages/jarvis_runtime/coo_dispatcher_store.py:386-452 | A status or enrichment is appended exactly for an ingested key |
| EventLedger.Ledger.EventProcessingStatus | packages/jarvis_runtime/coo_dispatcher_store.py:497-506 | The status look-up: the last record wins |
| EventLedger.Ledger.MaterializedEvents | packages/jarvis_runtime/coo_dispatcher_store.py:454-474 | The materialised fold: the first ingest wins |
| EventLedger.Ledger.PendingEvents | packages/jarvis_runtime/coo_dispatcher_store.py:476-482 | The pending list as read off the materialised fold |
| EventLedger.PendingMembers | packages/jarvis_runtime/coo_dispatcher_store.py:476-482 | A key is listed exactly when it is in the order and its last status is pending |
| EventLedger.ReadersAgree | packages/jarvis_runtime/coo_dispatcher_store.py:454-506 | On every ledger that the writers can produce both readers give the same status for every key |
| EventLedger.PendingExactly | packages/jarvis_runtime/coo_dispatcher_store.py:476-482 | The pending list is exactly the keys whose last status is queued, processing or failed, in ingest order |
| EventLedger.SecondIngestSplitsReaders | packages/jarvis_runtime/coo_dispatcher_store.py:338-340 | Without the writers' duplicate guard the readers part |
| Outbox.Store.EnqueueOutbox | packages/jarvis_runtime/coo_dispatcher_store.py:766-805 | A message is appended with the next number of its run, or refused after five |
| Outbox.RunsAreNumbered | packages/jarvis_runtime/coo_dispatcher_store.py:784-784 | After any sequence of requests each maximal identical run is numbered 1, 2, ... up to five |
| Outbox.NoSixInARow | packages/jarvis_runtime/coo_dispatcher_store.py:767-783 | No six consecutive records are identical |
| Outbox.RefusedExactly | packages/jarvis_runtime/coo_dispatcher_store.py:777-783 | A request is refused exactly when the last five records are identical to it |

## Left out

- Concurrency in place: the Hold directory and its lock are transition systems on values rather than classes, as each file operation is a step of some process; aliasing between in-memory copies of the files is not modelled.
- Re-provisioning a Hold root for another request, pid reuse and the time-based stealing of stale locks: the request identity is fixed, pids are not reused, liveness is exact.
- The host's scan order, pending queue, `scheduled` set and health file; a host is any number of workers that scan at any time.
- The rewriting of result and acknowledgement by `reconcile_hold`: in the Hold directory it only releases the claim; as close evidence it is modelled.
- Host-stop control files and the five-second interrupt window: the holder sees only that the control poll raises, with or without an exact terminal.
- HoldOwnership.SingleOwner: is stated for guarded runs, because `HoldRace.StaleFailureMakesTwoOwners` shows that unguarded ones can have two owners; what an unguarded entry leads to is stated for a free request lock with idle workers left, and over a live owner without a named turn at the moment when its claim succeeded.
- The turn budget over host crashes: a requeue restarts the counters, so the budget is proved for one holder run.
- LoopRotation.CompletesAfterExactThreads: is about one slot under sequential ticks; two simultaneous tickers may both acquire, as only close and cleanup are rechecked.
- Loops without automatic continuation, the business status labels, legacy lanes without result verification, and the extra fields of final-answer mode; lane candidates are integers, their types are not checked again.
- `LoopController.start` and request validation: the first acquisition of each slot is the start of a slot run.
- LoopController.Controller.Tick: its exact result is for a tick that others do not interrupt outside its sweep; its latches hold in any interleaving.
- HeartbeatStore.HeartbeatStore.RecordRun: result texts, last-seen labels and the audit trail are not modelled.
- HeartbeatStore.HeartbeatStore.ClaimDue: database constraint errors are not modelled.
- LocalHeartbeat.NeverRunsDry: is for one scheduler, which reports each claimed run at most once; two schedulers could claim the same run.
- MasterQueue.QueueFile.WakeChain: is for workers that keep items in place, rewrite none to pending, and leave no more claimable ones than they found after some number of turns; a wake that raises ends it like one that does not complete.
- MasterQueue.QueueFile.ClaimOrObserve: the lanes are flattened in scan order with the thread of the lane on each item, structural errors of the queue file and the queue fingerprint are not modelled.
- Bridge.ExistingThreadBridge.ResumeExisting: calls are sequential; two processes that search the journal at the same time, and a torn last line, which makes every later search raise, are not modelled.
- The dispatcher's state file, audit log and packets beside the ledger; the MCP server, facade, App Server client, notification texts, schema validation, receipt hashing, time stamps and retry loops on busy files.
