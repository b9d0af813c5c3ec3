# Waggle in Dafny

Waggle is a local broker for coding agents together with a machine-wide runtime. This project models its five
stateful or textual cores and proves what they promise in every interleaving or for every text.

* **Task queue and dependency engine** — `TaskTable` (rows and the SQL statements on them), `TaskStore` (the store as
  a class), `DependencySearch` (the checks of `deps.go`), `TaskRuns` (handlers taken apart into their queries, reads and
  writes, interleaved with everything else), `TaskInvariant`, `TaskTheorems`, `TaskHandlers` (handlers left alone do
  what the class does), `TaskStranding` (a run that strands a task), `TextOrder` and `Timestamps` (stored text order is
  time order).
* **Sessions, push tokens, locks** — `Sessions` (connects, releases and the separate steps of `doCleanup`, interleaved),
  `SessionTheorems`, `SessionBroker` (the lock manager and the broker's maps as classes, proved to take those steps).
* **Await-ack** — `AwaitAck` (senders, ackers, timeouts and shutdown around the waiter map).
* **Runtime delivery** — `DeliveryTables` (message and record rows, back-off), `DeliveryStores` (both stores as classes),
  `DeliveryManager` (the manager's methods and `CatchUp` run one at a time), `DeliveryRuns` (workers, sweep, reconciler
  and brokers interleaved), `DeliveryAlone` (a routine left alone does what the manager does), `DeliveryTheorems`,
  `DeliveryExhaustion` (a run that undoes an exhaustion).
* **Text** — `Text` (search and trimming), `ManagedBlock` and `BlockTheorems` (managed blocks and the health checks),
  `ShellHook` (the shell rc block), `ShellQuoting` (command and AppleScript builders against a reader of their output).

In each `…Runs`/`Sessions`/`AwaitAck` module a state is a plain value, an action is one critical section, one SQL
statement or one exchange over a socket, and `Run` is a sequence of states joined by enabled actions. An invariant is
shown to survive every action, and the theorems range over all runs. Clocks, drawn tokens, the outcome of writes and the
order in which maps are ranged over are parameters of actions and methods. All that is assumed of them is that a drawn claim
token has not been drawn before, a drawn push token is not empty, and the runtime's clock does not run backwards.

What the proofs brought out:

* A task is created too late when all its dependencies have completed and the queries of their resolutions have run. Once
  no resolution is in progress, a pending task is blocked with all dependencies completed if and only if it was created too
  late (`TaskTheorems.BlockedExactlyIfTooLate`, given existing dependencies and no restart that interrupts a resolution);
  such a task is never claimed (`TaskTheorems.CreatedTooLateStaysBlocked`), and an ordinary run makes one
  (`TaskStranding.TooLateHappens`). Without that hypothesis the only other cause is a resolution cut short
  (`TaskTheorems.BlockedOnlyIfCutShort`).
* The waiter of `send --await-ack` is registered after the message is stored, so an ack that comes in between wakes no one
  (`AwaitAck.EarlyAckIsLost`), although the comment at that place says that registering before the push avoids the race;
  `AwaitAck.WokenExactlyByALaterLook` says exactly when the sender is woken.
* A delivery record that has been marked exhausted can become due again (`DeliveryExhaustion.ExhaustionIsNotFinal`), but only
  through a sweep that had already read it: if none has it in hand or in its batch, it stays exhausted while it is stored
  (`DeliveryTheorems.ExhaustedStays`).
* Removing the shell block restores a text exactly when no line of it mentioned a hook marker before
  (`ShellHook.InstallThenUninstall`).

The whole project is checked by `dafny verify dfyconfig.toml` (Dafny 4.11).

## Model

| member | source | states |
|---|---|---|
| DependencySearch.HasCycle | internal/tasks/deps.go:37-60 | with a visited set shared between calls: a hit is a real path to the target; without one the target is unvisited and what was newly visited is closed under dependencies; terminates by the unvisited tasks |
| DependencySearch.ValidateDeps | internal/tasks/deps.go:11-34 | reports a missing dependency exactly when there is one, and a cycle exactly when the task is nonzero and reachable from a listed dependency, whatever other cycles the graph has |
| DependencySearch.ClosedSetTrapsPaths | internal/tasks/deps.go:37-60 | a path that starts in a set closed under dependencies stays in it, so a finished search misses nothing |
| DependencySearch.ReachableGoesDown | internal/tasks/deps.go:20-23 | if every edge points to a smaller id, everything reachable from a task has a smaller id |
| DependencySearch.NewTasksNeedNoSearch | internal/tasks/deps.go:20-23 | then a new, larger id is unreachable from its dependencies: skipping the search for new tasks loses nothing |
| TaskTable.EvolvingKeepsSound | internal/tasks/store.go:349-525 | the table invariant (claimed rows have all claim columns, pending rows none, unblocked rows only completed dependencies) survives every legal move of rows |
| TaskTable.InsertKeepsSound | internal/tasks/store.go:242-251 | and survives the insertion of a task, blocked whenever it has dependencies |
| TaskStore.Store.Create | internal/tasks/store.go:201-273 | an existing idempotency key returns its task and inserts nothing; a bad TTL is refused; otherwise one new row under a fresh id |
| TaskStore.Store.Get | internal/tasks/store.go:276-285 | not found exactly for a missing id; a row that is read has claim columns that match its state, and once it is unblocked, claimed or completed all its dependencies have completed |
| TaskStore.Store.Claim | internal/tasks/store.go:349-425 | in columns: succeeds exactly when a pending, unblocked row of the wanted kind with all wanted tags exists; takes one that no such row exceeds in priority or, at equal priority, precedes in creation; its dependencies have all completed; token, worker, time and a lease of 300 seconds are set, and no other row changes |
| TaskStore.Store.SelectRow | internal/tasks/store.go:371-400 | the row returned meets the conditions itself, no other has a higher priority, none of the same priority is older; no row exactly when none meets them |
| TaskStore.Store.Complete | internal/tasks/store.go:428-450 | succeeds exactly with the token of a claimed row; changes that row only |
| TaskStore.Store.Fail | internal/tasks/store.go:453-475 | succeeds exactly with the token of a claimed row; changes that row only |
| TaskStore.Store.Cancel | internal/tasks/store.go:478-499 | succeeds exactly for a pending or claimed row |
| TaskStore.Store.Heartbeat | internal/tasks/store.go:502-525 | succeeds exactly with the token of a claimed row, which then cannot expire within the lease |
| TaskStore.Store.CancelExpiredTTL | internal/tasks/store.go:625-647 | cancels exactly the pending unblocked rows whose TTL is due, and counts them |
| TaskStore.Store.RequeueAllClaimed | internal/tasks/store.go:690-713 | afterwards no row is claimed; returns how many were |
| TaskStore.Store.RequeueByOwner | internal/tasks/store.go:716-739 | afterwards the owner has no claim; returns how many there were |
| TaskStore.Store.Update | internal/tasks/store.go:773-821 | which errors come first, and that only priority, tags and update time change |
| TaskStore.Store.RequeueExpiredLeases | internal/tasks/store.go:824-878 | the two statements together treat every expired claim once, return their number and leave none expired |
| TaskStore.SweepInTwo | internal/tasks/store.go:824-878 | neither statement of the sweep touches a row of the other |
| TaskStore.EachExpiredClaimOnce | internal/tasks/store.go:824-878 | failed and requeued rows are disjoint and add up to the expired claims |
| TaskStore.SweepKeepsSound | internal/tasks/store.go:824-878 | a sweep keeps the table invariant and leaves no expired claim |
| TaskStore.Store.CheckDeps | internal/tasks/deps.go:115-125 | tells whether all dependencies have completed; fails only on a missing one |
| TaskStore.Store.ResolveDeps | internal/tasks/deps.go:64-142 | undisturbed, it unblocks and reports exactly the waiting tasks whose dependencies have all completed; a missing dependency ends it early with only such tasks unblocked |
| TaskStore.Store.FailDependents | internal/tasks/deps.go:146-190 | undisturbed, it fails and reports exactly the tasks waiting on the failed one |
| TaskHandlers.ResolvingAlone | internal/tasks/deps.go:64-142 | the query, reads and writes of a resolution that nothing interrupts end with exactly the ready waiting tasks unblocked, as the class does it |
| TaskHandlers.QueryHasAnswer | internal/tasks/deps.go:64-103 | a resolution can always run its query, and the answer names just the pending, blocked rows that list the completed task |
| TaskHandlers.FailingAlone | internal/tasks/deps.go:146-190 | a failure that nothing interrupts ends with exactly the waiting tasks failed |
| TaskHandlers.CallsAreSteps | internal/tasks/store.go:428-525 | complete, fail and heartbeat with the current token are steps with the effect of the store, and the first two start their handler |
| TaskHandlers.ClaimIsStep | internal/tasks/store.go:349-425 | a claim of a row that the SELECT may return is a step with the effect of the UPDATE |
| TaskHandlers.SweepsAreSteps | internal/tasks/store.go:625-655 | TTL expiry and the lease sweep may run at any time and leave handlers alone |
| TaskHandlers.RequeuesAreSteps | internal/tasks/store.go:690-740 | a disconnect requeues the claims of its owner; a restart requeues all claims and drops all handlers |
| TaskHandlers.EditsAreSteps | internal/tasks/store.go:773-822 | creation, cancellation of a pending or claimed task and update of any task are steps with the effect of the store |
| TaskInvariant.DoomedStaysBlocked | internal/tasks/deps.go:146-190 | a task waiting on a failed dependency is blocked, so the unguarded failing write never hits a claimed or completed row |
| TaskInvariant.RowMoves | internal/tasks/store.go:349-525 | what any action may do to any row: legal state moves only, dependencies fixed, never blocked again |
| TaskInvariant.ActionKeepsInv | internal/broker/router.go:381-443 | every step of every handler, store call and sweep keeps the invariant |
| TaskInvariant.RunsKeepInv | internal/broker/router.go:381-443 | the invariant holds in every state of every run |
| TaskTheorems.RowsOverRuns | internal/tasks/store.go:404-499 | over runs: completed and failed are absorbing, canceled can only become failed, dependencies never change, an unblocked task stays unblocked |
| TaskTheorems.CompletesAtMostOnce | internal/tasks/store.go:428-450 | no two successful Completes of one task, in any interleaving |
| TaskTheorems.TransitiveDepsFirst | internal/tasks/deps.go:64-142 | in the ghost log, each transitive dependency of a task completed before every claim and completion of it |
| TaskTheorems.DependenciesCompleteFirst | internal/tasks/deps.go:64-142 | over runs: a successful Claim or Complete comes after a successful Complete of each transitive dependency |
| TaskTheorems.CyclesNeverRun | internal/tasks/deps.go:64-142 | a task on a dependency cycle has no claim and no completion in the log |
| TaskTheorems.DoomedNeverClaimed | internal/tasks/store.go:372-413 | over runs: a task on a cycle, or with a failed or canceled task among its transitive dependencies at any time, is never claimed, before or after |
| TaskTheorems.HeldTokenIsCurrent | internal/tasks/store.go:349-425 | a held token was drawn by a Claim of this task, which has been claimed under it ever since |
| TaskTheorems.OnlyCurrentClaimSucceeds | internal/tasks/store.go:428-525 | Complete, Fail and Heartbeat succeed only with the token of the current, unfinished claim |
| TaskTheorems.DeadTokensStayDead | internal/tasks/store.go:690-739 | an issued token that no claimed task holds is never held again |
| TaskTheorems.EndedClaimNeverSucceeds | internal/tasks/store.go:690-739 | once a claim has ended, by any action, its token succeeds with nothing ever again |
| TaskTheorems.LeaseReturnsCounted | internal/tasks/store.go:824-878 | the invariant's counter is the number of returns to pending by lease expiry, counted along the run |
| TaskTheorems.LeaseReturnsBounded | internal/tasks/store.go:824-878 | mixed with disconnects and restarts, lease expiry returns a task to pending at most max(0, max_retries - 1) times |
| TaskTheorems.LostExactly | internal/tasks/deps.go:113-120 | an id counts as lost exactly if some step of the run ended its ResolveDeps before it returned |
| TaskTheorems.CutShortOnlyBy | internal/tasks/deps.go:113-120 | that happens only through a restart during a resolution, or by reading a dependency that does not exist |
| TaskTheorems.UndisturbedLosesNothing | internal/tasks/deps.go:113-120 | with existing dependencies and no restart during a resolution, none is cut short and all edges point to smaller ids |
| TaskTheorems.BlockedOnlyIfCutShort | internal/broker/router.go:388-408 | in any run, once no resolution is in progress: a task not created too late is pending and blocked with all dependencies completed only if the resolution of one of them was cut short |
| TaskTheorems.NoLostWakeup | internal/broker/router.go:388-408 | in an undisturbed run, restarts between resolutions included, there is no such task |
| TaskTheorems.CreatedTooLateStaysBlocked | internal/tasks/store.go:242-251 | in any run, a task created too late is blocked in every later state, with its dependencies completed, and never claimed |
| TaskTheorems.BlockedExactlyIfTooLate | internal/tasks/store.go:242-251 | undisturbed and with no resolution in progress, a pending task is blocked with all dependencies completed if and only if it was created too late |
| TaskStranding.TooLateHappens | internal/tasks/store.go:242-251 | a concrete undisturbed run: create, claim, complete, query, return, then create on the completed task |
| Timestamps.FieldsText | internal/tasks/store.go:824-878 | the fixed-width text of two UTC times compares like their fields |
| Timestamps.DaysInOrder | internal/tasks/store.go:824-878 | dates in field order are in day order, leap years included |
| Timestamps.TextOrderIsTimeOrder | internal/tasks/store.go:824-878 | comparing two stored whole-second UTC timestamps of section 5.1 of RFC 3339 as text is comparing the instants |
| Timestamps.TextReads | internal/tasks/store.go:361-362 | the stored text gives back year, month, day, hour, minute and second at fixed places, with the marks of RFC 3339 between |
| SessionBroker.LockManager.Acquire | internal/locks/manager.go:24-35 | fails exactly when another owner holds the lock; acquiring again changes nothing |
| SessionBroker.LockManager.Release | internal/locks/manager.go:37-43 | removes the lock exactly when the caller owns it |
| SessionBroker.LockManager.ReleaseAll | internal/locks/manager.go:45-53 | removes exactly the owner's locks |
| SessionBroker.BrokerState.HandleConnect | internal/broker/router.go:160-217 | succeeds exactly when every check passes, is then the connect step of the protocol and returns the token in the map; otherwise changes nothing and returns the first refusal |
| SessionBroker.BrokerState.HandlePushReserve | internal/broker/router.go:102-125 | succeeds exactly for a base name, keeps an existing token and returns the one in the map; otherwise which refusal |
| SessionBroker.BrokerState.HandlePushRelease | internal/broker/router.go:127-154 | succeeds exactly with the current token, which is then gone and owned by no one; otherwise changes nothing and returns the first refusal |
| SessionBroker.BrokerState.RemoveFromMap | internal/broker/session.go:127-144 | the locked part of cleanup is the protocol's step; the name is free afterwards and a peer to tear down is the listener of the name |
| SessionBroker.PeerFound | internal/broker/session.go:132-134 | looking for the listener after the own entry is deleted finds the same session |
| SessionTheorems.StepKeepsInv | internal/broker/session.go:103-156 | every connect, release, grant and cleanup step keeps the session invariant |
| SessionTheorems.RunsKeepInv | internal/broker/session.go:103-156 | the session invariant holds in every state of every run |
| SessionTheorems.OneSessionPerName | internal/broker/router.go:176-204 | at most one session that has not left the map bears a name |
| SessionTheorems.NoListenerOfListener | internal/broker/router.go:181-187 | no session named x-push-push exists |
| SessionTheorems.TeardownIsOneHop | internal/broker/session.go:132-144 | a listener torn down with its base has no peer of its own and waits for none |
| SessionTheorems.CleanupTakesNothingLater | internal/broker/session.go:103-137 | no cleanup step releases a lock, subscription or claim obtained by a later session of the same name |
| SessionTheorems.CleanupRequeuesClaims | internal/broker/session.go:109-119 | over runs: the claims step of a session that did not disconnect cleanly leaves no claim under its name and every other claim; after a clean disconnect all claims stay |
| SessionTheorems.DroppedSessionKeepsNoClaim | internal/broker/session.go:109-119 | over runs: a claim whose session is past that step belongs to one that disconnected cleanly |
| SessionTheorems.CleanExactlyBy | internal/broker/session.go:139-144 | a session becomes cleanly disconnected by its disconnect command, or by being torn down with its base, and by nothing else |
| SessionTheorems.CleanupInOrder | internal/broker/session.go:103-144 | locks, claims, subscriptions, map, then the listener if the session was in the map and owned its token; closed only after that listener |
| SessionTheorems.CleanupTakes | internal/broker/session.go:103-136 | each step takes what is under the name of its session, the map step the own entry and the own token, and nothing else changes |
| SessionTheorems.CleanupGoesOn | internal/broker/session.go:139-144 | a cleanup that has begun can always go on, except to wait for the listener it tears down |
| SessionTheorems.RequestsGranted | internal/broker/router.go:551-571 | a lock is refused exactly when another name holds it, a claim when the task is claimed; unlock, subscribe and disconnect are always served |
| SessionTheorems.RequestsDo | internal/broker/router.go:551-571 | what each request changes, and that it changes nothing else |
| SessionTheorems.LockOwnersAreConnected | internal/broker/session.go:106-137 | every held lock's owner is the connected session of that name which obtained it |
| SessionTheorems.LocksChangeHandsByRelease | internal/locks/manager.go:24-53 | a lock stays with its holder until the holder's release or cleanup |
| SessionTheorems.TokensLeaveOnlyByTheirOwn | internal/broker/router.go:127-154 | a token leaves the map only by a release presenting it or by the cleanup of the session that minted it |
| SessionTheorems.ReservationOutlivesBase | internal/broker/router.go:102-125 | a reservation outlives any number of base connects, disconnects and cleanups, until a release presents it |
| SessionTheorems.MintedTokenGoesWithSession | internal/broker/session.go:132-134 | a token minted by a session is in the map only while that session is |
| AwaitAck.StepKeepsInv | internal/broker/router.go:674-825 | every step of send, ack, timeout and stop keeps the waiter invariant |
| AwaitAck.StopStops | internal/broker/broker.go:265 | stopping closes the stop channel, and nothing else |
| AwaitAck.ClosedAtMostOnce | internal/broker/router.go:817-825 | no waiter channel is ever closed twice |
| AwaitAck.NoEntryOutlivesItsSend | internal/broker/router.go:748-768 | every waiter entry belongs to a handleSend that has not returned |
| AwaitAck.OkMeansAcked | internal/broker/router.go:755-757 | an OK reply means that an Ack was accepted earlier from the named recipient |
| AwaitAck.SendOpens | internal/broker/router.go:674-682 | send and registration, one after the other, leave one entry and one open channel |
| AwaitAck.AckTakesEntry | internal/broker/router.go:806-820 | an ack of the recipient takes the entry with it |
| AwaitAck.CloseWakes | internal/broker/router.go:820-825 | closing the channel wakes the sender, who is told OK; nothing of the two calls is left |
| AwaitAck.GivingUpLeavesNothing | internal/broker/router.go:748-768 | a timeout or a stop ends the wait and removes the entry; a stop is seen exactly when it was called |
| AwaitAck.UnawaitedAck | internal/broker/router.go:806-825 | an ack that no one waits for is accepted and changes nothing else |
| AwaitAck.WokenExactlyByALaterLook | internal/broker/router.go:674-682 | while a registered sender waits, its wake-up is assured if and only if the handler of an accepted ack has looked for the waiter since the registration |
| AwaitAck.EarlyAckIsLost | internal/broker/router.go:668-682 | a concrete run in which the recipient's ack is accepted and handled before the registration, and the sender is not woken |
| DeliveryTables.RetryDelayForAttempt | internal/runtime/manager.go:742-758 | the doubling loop returns 500 ms * 2^(n - 1) for attempts 1 to 5, 16 s from the sixth and 500 ms before the first |
| DeliveryTables.DelaysGrowToTheCap | internal/runtime/manager.go:742-758 | delays never shrink from attempt to attempt and lie between P and 32 P |
| DeliveryStores.MessageStore.Send | internal/messages/store.go:101-164 | refuses in the order of the checks, and exactly an empty sender, recipient or body, an unknown priority or a TTL outside 1..86400; otherwise one new queued row that its recipient can read |
| DeliveryStores.MessageStore.Ack | internal/messages/store.go:167-205 | unknown message, wrong recipient, or acked unless already acked or expired; not replayable afterwards |
| DeliveryStores.MessageStore.MarkExpired | internal/messages/store.go:208-225 | in columns: expires exactly the queued, pushed and seen rows whose TTL seconds have passed, counts them, and changes no one's inbox |
| DeliveryStores.MessageStore.MarkPushed | internal/messages/store.go:331-341 | sets the state whatever it was |
| DeliveryStores.MessageStore.Inbox | internal/messages/store.go:240-328 | in columns: answers, in id order and as they are afterwards, the messages to the agent that are queued, pushed or seen and have TTL seconds left; only an inbox, not a replay, marks the unseen ones seen |
| DeliveryStores.ListedIdsExact | internal/messages/store.go:241-249 | the answer names each replayable message of the agent once, in ascending order, and no other |
| DeliveryStores.ListedMeans | internal/messages/store.go:241-249 | which messages an agent is shown, in columns |
| DeliveryStores.RecordStore.AddRecordIfAbsent | internal/runtime/store.go:262-298 | inserts once, reports whether it did, and leaves a stored record as it is |
| DeliveryStores.RecordStore.GetRecord | internal/runtime/store.go:301-324 | the record, or which error |
| DeliveryStores.RecordStore.MarkNotified | internal/runtime/store.go:327-355 | sets the time and clears attempts, next retry and exhaustion |
| DeliveryStores.RecordStore.RecordNotificationFailure | internal/runtime/store.go:469-499 | refuses non-positive attempts and anything but exactly one of the two times |
| DeliveryStores.RecordStore.PendingNotificationsBatch | internal/runtime/store.go:398-435 | in columns: records neither notified nor dismissed nor exhausted whose next retry, if any, is not in the future; by project, agent and id; all of them or the first so many as the limit allows |
| DeliveryManager.Manager.BeginInflight | internal/runtime/manager.go:638-652 | succeeds exactly when the key was not in flight, and then it is |
| DeliveryManager.Manager.NotifyRecord | internal/runtime/manager.go:483-505 | a capped signal counts as done without marking; otherwise the record is marked or the call fails |
| DeliveryManager.NotifiedMeans | internal/runtime/manager.go:483-505 | in columns: a written signal clears what failures had left; a failed one counts one more and schedules now + 500 ms * 2^attempts, or exhausts the fifth time |
| DeliveryManager.Manager.RecordNotificationFailure | internal/runtime/manager.go:663-670 | counts one more than the caller had read and schedules by the back-off, or exhausts at the limit; an error exactly for a missing record |
| DeliveryManager.Manager.HandleDelivery | internal/runtime/manager.go:361-421 | a key in flight is left alone; otherwise stored once and notified unless settled; the in-flight set is as before |
| DeliveryManager.HandledMeans | internal/runtime/manager.go:361-421 | in columns: a notified, exhausted or not yet due row stays, any other is notified, after insertion if it was missing; no other row changes |
| DeliveryManager.Manager.RetryOne | internal/runtime/manager.go:430-455 | one record of a batch, unless its key is in flight |
| DeliveryManager.Manager.RetryPendingNotifications | internal/runtime/manager.go:423-465 | reports no error; a batch below the limit leaves nothing due but what is in flight or had its signal capped |
| DeliveryManager.RedeliveryIsAbsorbed | internal/runtime/manager.go:386-402 | delivering the same message again at the same time does nothing more, unless the cap had left it open |
| DeliveryManager.CatchUp | internal/runtime/listener.go:41-107 | acks exactly the replayable messages of the agent, each with a record stored or a key in flight, and changes no other row; what is newly stored has the id, sender, body and creation time of its message, and earlier records keep their delivery |
| DeliveryAlone.PushAlone | internal/runtime/manager.go:361-421 | the steps of a pushed message, uninterrupted, leave the records that HandleDelivery leaves |
| DeliveryAlone.SweepAlone | internal/runtime/manager.go:423-465 | the steps of a sweep, uninterrupted, leave the records that RetryPendingNotifications leaves |
| DeliveryAlone.BatchMeans | internal/runtime/store.go:398-435 | a batch holds due records only, at most 128, and a smaller one all of them |
| DeliveryAlone.CatchUpAlone | internal/runtime/listener.go:41-107 | the steps of a worker that catches up, uninterrupted, handle and ack every message of the replay and change nothing else |
| DeliveryAlone.CaughtMeans | internal/runtime/listener.go:86-104 | every message of the replay is then stored with its own sender, body and time, unless it was stored or in flight before |
| DeliveryAlone.ReplayMeans | internal/messages/store.go:240-249 | a replay names, in ascending order, exactly the unacked and unexpired messages to the agent with TTL seconds left |
| DeliveryAlone.FaultSteps | internal/runtime/manager.go:386-420 | a record that cannot be read, or a failure that cannot be recorded, releases the key and reports an error |
| DeliveryAlone.AckFaults | internal/runtime/listener.go:98-104 | an ack that fails or goes unanswered ends the replay |
| DeliveryAlone.StartSteps | internal/runtime/manager.go:232-260 | a start adds the sweep, a watch adds one worker under a fresh number |
| DeliveryAlone.StopSteps | internal/runtime/manager.go:262-301 | stopping a watch takes it out of the map and waits for its worker; the shutdown waits for all |
| DeliveryAlone.WaitSteps | internal/runtime/manager.go:284-301 | the wait ends exactly when those waited for are gone, and the shutdown leaves nothing in flight |
| DeliveryAlone.EndingStep | internal/runtime/manager.go:303-359 | a worker ends between two deliveries when its watch was stopped or the manager shuts down |
| DeliveryAlone.FailedStartStep | internal/runtime/manager.go:107-111 | a start that fails leaves nothing but an empty in-flight set |
| DeliveryAlone.BrokerSteps | internal/messages/store.go:167-205 | pushing, marking seen and acking, in columns: only an ack heeds the state |
| DeliveryAlone.ExpiryStep | internal/messages/store.go:208-225 | expiry, in columns |
| DeliveryAlone.PostStep | internal/messages/store.go:101-164 | a message that Send accepts may arrive at any time |
| DeliveryAlone.PruneStep | internal/runtime/store.go:788-800 | pruning takes exactly the records received before the given time that were notified, exhausted, surfaced or dismissed |
| DeliveryAlone.SurfaceStep | internal/runtime/store.go:537-541 | surfacing sets its time unless it is set |
| DeliveryAlone.DismissStep | internal/runtime/store.go:639-644 | a surfaced record may be dismissed, any record surfaced and dismissed in one; earlier times stay |
| DeliveryTheorems.KeepsStaffed | internal/runtime/manager.go:200-301 | starting, stopping and awaiting workers keeps one worker per watch, counting those still stopping |
| DeliveryTheorems.KeepsExclusive | internal/runtime/manager.go:638-652 | in-flight keys are the held ones, none held twice, also after shutdown empties the set under a running sweep |
| DeliveryTheorems.InFlightIsTheSweeps | internal/runtime/manager.go:367-370 | a key in flight when a worker comes to it is held by the sweep and has been stored |
| DeliveryTheorems.StepKeepsInv | internal/runtime/manager.go:361-465 | every step of workers, sweep, reconciler and brokers keeps the delivery invariant |
| DeliveryTheorems.RunsKeepInv | internal/runtime/manager.go:94-148 | the delivery invariant holds in every state of every run, across stops and restarts of the manager |
| DeliveryTheorems.OneWorkerPerWatch | internal/runtime/manager.go:232-301 | at most one goroutine runs for a watch, and at most one sweep |
| DeliveryTheorems.NoTwoNotifications | internal/runtime/manager.go:423-505 | no two notifications of one message are in progress together, also across stopWatch and shutdown |
| DeliveryTheorems.InFlightDrains | internal/runtime/manager.go:638-652 | the in-flight set is empty whenever no routine is inside a delivery |
| DeliveryTheorems.CatchUpAcksOnlyStored | internal/runtime/listener.go:86-104 | CatchUp acks only messages whose record was stored before, although the handler returns nil for keys in flight |
| DeliveryTheorems.NothingLost | internal/runtime/listener.go:86-104 | while only CatchUp acks, every message whose TTL has not run out is replayable or has had a record |
| DeliveryTheorems.StoredUntilFinished | internal/runtime/store.go:788-800 | over runs: a record stays stored, with its text, at least until it was notified, exhausted, surfaced or dismissed |
| DeliveryTheorems.RetriesStayBounded | internal/runtime/store.go:469-499 | attempts stay in 0..limit, exhausted exactly at the limit, exactly one of next retry and exhaustion once an attempt failed; stale batches included |
| DeliveryTheorems.WorkerFailureCountsOne | internal/runtime/manager.go:663-670 | a worker's failure counts one more than the stored attempts and schedules now + P * 2^attempts, or exhausts |
| DeliveryTheorems.WorkersNotifyOnce | internal/runtime/manager.go:386-409 | over runs: what a worker marks notified was, at that moment, not notified, not exhausted and not waiting for a later retry |
| DeliveryTheorems.ExhaustionUndone | internal/runtime/manager.go:423-455 | an exhausted record becomes live again if and only if the sweep, with a stale job, notifies it or counts a failure below the limit |
| DeliveryTheorems.ExhaustedStays | internal/runtime/manager.go:423-455 | over runs: a record exhausted while no sweep has it in hand or left in its batch stays exhausted as long as it is stored |
| DeliveryExhaustion.ExhaustionIsNotFinal | internal/runtime/manager.go:423-455 | a concrete run reaches an exhausted record whose attempts the sweep then sets back to 1 |
| ManagedBlock.ShippedMarkers | internal/install/gemini.go:11 | markers of the installers' form are markers in the sense of the theorems |
| BlockTheorems.AcceptedExactly | internal/install/managed_block.go:28-66 | the topology check accepts exactly: no marker, one unclosed begin on a line start, or one whole block on its own lines |
| BlockTheorems.RefusedFor | internal/install/managed_block.go:28-66 | which of the six complaints is made: the first that applies |
| BlockTheorems.CanonicalBlockIs | internal/install/managed_block.go:150-152 | the canonical block is begin, trimmed body and end on lines of their own; trimming takes nothing from the markers |
| Text.SpaceCodes | internal/install/managed_block.go:150-152 | which Latin-1 characters trimming takes for white space |
| BlockTheorems.UpsertIs | internal/install/managed_block.go:68-111 | what upsert writes, by the shape of the file |
| BlockTheorems.RemoveIs | internal/install/managed_block.go:113-148 | what remove leaves, by the shape of the file; `RemovePreservesSurroundings` says what its line break is |
| BlockTheorems.RemovePreservesSurroundings | internal/install/managed_block.go:127-147 | by a reader's indices: what stands before the begin marker, then what stands after the end marker less one line break; an unclosed block goes to the end of the file; a file without markers is kept |
| BlockTheorems.Upserted | internal/install/managed_block.go:68-111 | after an upsert the file has one whole block with the given body between the old surroundings |
| BlockTheorems.InstallThenUninstall | internal/install/managed_block.go:68-148 | remove after upsert gives a file without markers back, plus one newline if it was not empty and lacked one |
| BlockTheorems.UpsertIdempotent | internal/install/managed_block.go:68-111 | on every accepted file |
| BlockTheorems.UpsertPreservesSurroundings | internal/install/managed_block.go:81-91 | what stands before the begin marker and after the end marker is kept |
| BlockTheorems.UpdateThenRemove | internal/install/managed_block.go:68-148 | if there is a begin marker, remove after upsert is remove |
| BlockTheorems.RemoveLeavesNoMarker | internal/install/managed_block.go:113-148 | no marker remains, not even one formed by joining what was before with what was after |
| BlockTheorems.RemoveIdempotent | internal/install/managed_block.go:113-148 | on every accepted file |
| BlockTheorems.CheckManagedBlock | internal/install/health.go:344-381 | the one issue reported, if any, is the topology error, the truncated block or the differing content, in this order; the issue list is empty exactly when the state is not broken |
| BlockTheorems.HealthByShape | internal/install/health.go:466-501 | not installed means no marker, healthy means one whole block with the canonical body |
| BlockTheorems.HealthyMeansAccepted | internal/install/health.go:344-381 | a file called healthy or not installed is one that upsert and remove accept |
| BlockTheorems.UpsertMakesHealthy | internal/install/health.go:589-625 | every successful upsert of the canonical body is healthy afterwards |
| BlockTheorems.RemoveMakesNotInstalled | internal/install/health.go:361-364 | every successful remove is not installed afterwards |
| ShellHook.RemoveShellHookBlock | internal/install/shell_hook.go:137-155 | the loop computes the line filter |
| ShellHook.FilterIdempotent | internal/install/shell_hook.go:137-152 | filtering filtered lines changes nothing, for unclosed and repeated blocks too |
| ShellHook.RemoveUnmarks | internal/install/shell_hook.go:137-155 | no line left mentions a marker |
| ShellHook.RemoveIdempotent | internal/install/shell_hook.go:137-155 | on every file |
| ShellHook.InstallWrites | internal/install/shell_hook.go:94-109 | without a begin marker the result starts with the text, and its lines are those of the text, ended by a newline, then the four lines of the block, written out; with one the text is unchanged |
| ShellHook.InstallThenUninstall | internal/install/shell_hook.go:94-155 | remove after upsert gives the text back, up to a final newline, if and only if no line mentioned a hook marker |
| ShellHook.UpsertIdempotent | internal/install/shell_hook.go:94-109 | on every text |
| ShellQuoting.BuildShellCommand | internal/spawn/command.go:15-39 | fails exactly for an empty command or a bad key; otherwise the shell reads the line as the environment, then as the command text alone, then the arguments; a plain word is the command itself |
| ShellQuoting.ValidKeyMeans | internal/spawn/command.go:80-92 | a key is valid exactly when it is letters, digits and underscores and does not start with a digit |
| ShellQuoting.LineScans | internal/spawn/command.go:15-69 | token by token: the assignment words, the words of the command text alone, one quoted word for each argument |
| ShellQuoting.PlainWordParses | internal/spawn/command.go:30-31 | a plain word alone reads as the command of that name |
| ShellQuoting.ShellReadsBack | internal/spawn/command.go:15-69 | reading a printed line by sections 2.2.1, 2.2.2 and 2.9.1 of the Shell Command Language (POSIX.1-2017) returns the assignments, then what the command text alone reads as, then the arguments, for all strings |
| ShellQuoting.LiteralReadsBack | internal/spawn/command.go:73-78 | undoing the escapes returns the command, with no earlier closing quote |
| ShellQuoting.ScriptHoldsCommand | internal/spawn/command.go:43-53 | the script's string literals are the application name and exactly the command |
| ShellQuoting.ScriptSays | internal/spawn/command.go:43-53 | the words around the literals, for each terminal |

## Left out

- TaskStore.Store.Claim: its select and update are one step, as its comment promises; the pooled connection between them is not modelled.
- TaskStore.Store.ResolveDeps: in the class it runs undisturbed; its interleavings with other steps are in `TaskRuns`, tied to the class by `TaskHandlers`.
- TaskStore.Store.FailDependents: in the class it runs undisturbed; its interleavings with other steps are in `TaskRuns`, tied to the class by `TaskHandlers`.
- TaskTheorems.NoLostWakeup: needs existing dependencies, which the broker does not check on create, and no restart that drops a resolution in progress; `BlockedOnlyIfCutShort` is the form without these.
- SessionTheorems.CleanupTakesNothingLater: claims left by an earlier session of the same name after a clean disconnect may be requeued by the next one's cleanup.
- SessionTheorems.LockOwnersAreConnected: commands that a torn-down listener had buffered when its base was cleaned up are not modelled; a session issues none once its cleanup has begun.
- DeliveryTheorems.OneWorkerPerWatch: Start and Stop are called one after the other by one owner; overlapping calls of them are not modelled.
- ShellQuoting.BuildShellCommand: says nothing of a command text that uses expansions, operators, patterns, comments or double quotes, or leaves a quote open; reserved words and aliases are not modelled.
- DeliveryManager.Manager.RetryPendingNotifications: run by itself it meets no error to return; errors of the record store are outcomes of steps in `DeliveryRuns`.
- BlockTheorems.InstallThenUninstall: markers must stay on one line, hold '<' only as first character and not be prefixes of each other, the end marker must not end in white space, and the body must not contain them; the shipped markers meet this.
- SQL engine, schema migration, JSON, sockets and files: tables are maps, requests are parameters, files are their contents; a missing file is an empty content for upsert and nothing to do for remove.
- Text is a sequence of characters, not of bytes; field lengths are counted in characters.
- 64-bit overflow of ids, counters and times.
- I/O errors inside a store call, except where a step of `DeliveryRuns` has an outcome for them.
- The order in which a worker alternates between catching up (three tries) and listening: any order is allowed.
- Transitive failure: a failed task fails its direct dependents only, and cancel or lease failure propagates nothing.
- At-most-once notification: a sweep does not re-read its batch and a capped signal is left un-notified, so neither is claimed.
- Acked as a final state of messages: pushing and marking seen are not guarded by the state.
- The runtime's error summaries, pending-failure counts and watch expiry: bookkeeping beside the delivery of messages.
- Text order of the runtime's fractional timestamps: its times are numbers here.
- Event hub, presence, spawn registry, configuration, start locks and command-line commands: true but easy, or process plumbing.
