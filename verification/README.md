# Verified model of the retrieval workflows

This project models the coordination core of the retrieval repository and proves what it is relied on
for. Four parts are modelled, each as the source writes it (in-place state as classes whose methods are
proved against functions on values; protocols as state machines over their atomic steps), and the
theorems below are about every run of them.

1. **Shared quota coordinator and its callers.** `QuotaModel.dfy` gives every transition on values,
   `QuotaCoordinator.dfy` the mutable state and the workflow object proved against them.
   `QuotaInvariant.dfy`, `QuotaGrants.dfy`, `QuotaShape.dfy`, `QuotaHistory.dfy`, `QuotaRuns.dfy`,
   `QuotaBudget.dfy` and `QuotaCompaction.dfy` hold the proofs over runs: the ledger of admissions, first in
   first out, the greedy grant, the window budget, the two deadlines, the bounded window of terminal IDs,
   and compaction. `QuotaEffects.dfy` states what each message and pass does on its inputs.
   `QuotaWaiter.dfy` is the caller's inbox; `PermitProtocol.dfy` and `PermitSafety.dfy` compose callers,
   coordinator and a network that delays, reorders, duplicates and loses Signals; `PermitProgress.dfy` shows
   that requests are granted and slots given back.
2. **Generation fence, deactivation and the store controller.** `StoreRepository.dfy` (the atomic record
   and its adapter), `StoreDeactivation.dfy` (the guarded nine-action plan run by any number of first and
   resumed runs, with activities that execute late, repeatedly or without a response),
   `StoreController.dfy` (the command-serialised controller), `StoreSystem.dfy` (all of them together),
   `StoreDrain.dfy` (what a SUCCEEDED deactivation says about its operations), `StoreEffects.dfy` (what each
   envelope does on its inputs, and a whole deactivation) and `StoreGap.dfy` (the documented recovery gap as
   a run).
3. **Sliding-window page runs.** `ResourcePages.dfy` is the run loop itself, with every completion order,
   failure, quota answer and Continue-As-New suggestion left open; `ResourcePageChains.dfy` joins runs
   into Continue-As-New chains.
4. **Users in rounds and pages.** `UserSync.dfy` and `UserSlices.dfy` (one user, slice after slice),
   `RootSyncModel.dfy`, `RootSync.dfy` and `RootSyncChains.dfy` (round mode, ordinary mode, remediation).
   `RootSyncActivity.dfy` (the requests and rounds of a whole sync) and `PermitIds.dfy` show that one sync
   never uses a permit request ID twice.

`Collections.dfy` holds options, duplicate-free lists and the list operations the workflows call.

How the surroundings are modelled: a step is the code between two awaits; a Signal or activity may happen
at any later step, and, where a protocol is composed, more than once; hashed IDs are free constructors,
equal exactly when the hashed components are; keys and other opaque strings are natural numbers in string
order, with 0 for the empty string; time is one integer clock in microseconds; a provider is a finite chain
of distinct cursors; child outcomes, completion order and Continue-As-New suggestions are arbitrary.

Where the code falls short of a stronger reading, the exact condition is a lemma.
- The documented recovery gap: `AbsorbedExactly`, with `GapIsReachable` as a run from the start.
- "Failure before the fence leaves the store ACTIVE or SYNCING" fails when the fence commits and its response
  is lost (`FailedRunLeavesStateOpen` is the witness). `WritableUntilAFence`: the store is writable exactly as
  long as no fence activity has succeeded. `RunsPastTheFenceAreFenced`: a run that failed after its fence, which
  a first run shows by reporting the next generation, always leaves the store fenced under its own generation.
- A page run that was asked for no page from the very start calls itself finished: `FinishedExactly`.
- A user with a duplicated resource type is never finished: `DuplicateTypesNeverFinish`, next to
  `FinishedMeansAllCompleted` for all others.
- A directory that lists a user twice makes an ordinary sync reuse a child's identity, and only such a
  directory does: `OrdinarySlotsDifferExactly`.

The permit theorem rests on two assumptions about the surroundings: request IDs are unique to their caller,
and a delivery is reported failed only when the Signal did not arrive. `SharedIdLosesReservation` and
`FailureAfterArrivalLosesReservation` only illustrate, from a state in which the assumption is already broken,
why each is needed; they are no exact conditions. Inside one sync the first assumption is proved, for a
directory that lists no user twice (`RoundSyncNeverRepeatsIds`, `OrdinarySyncNeverRepeatsIds`).

## Model

| member | source | states |
|---|---|---|
| `QuotaCoordinator.UserQuotaState.MarkRequestTerminal` | src/retrieval/temporal/workflows/user_quota.py:107-129 | Marks one ID terminal in both lists: nothing kept for a window of size 0, unchanged when already marked, else newest last with the oldest evicted |
| `QuotaCoordinator.UserQuotaState.EvictOldest` | src/retrieval/temporal/workflows/user_quota.py:124-129 | Drops the oldest entries from the order list and their first occurrences from the ID list |
| `QuotaCoordinator.UserQuotaState.ApplyPermitRequest` | src/retrieval/temporal/workflows/user_quota.py:228-245 | Whole new state of an admission; accepts exactly when the ID is unknown and nothing denies it |
| `QuotaCoordinator.UserQuotaState.ApplyCancelPermit` | src/retrieval/temporal/workflows/user_quota.py:248-295 | Whole new state of a cancel of a pending, reserved, terminal or not yet known request, with its tombstone |
| `QuotaCoordinator.UserQuotaState.ApplyCancelGeneration` | src/retrieval/temporal/workflows/user_quota.py:298-342 | Whole new state when a store generation is cancelled: both maps, queue, in-flight count, tombstones in sorted order; the count returned is the number of IDs removed |
| `QuotaCoordinator.UserQuotaState.ApplyPermitCompleted` | src/retrieval/temporal/workflows/user_quota.py:345-367 | Releases the reservation exactly when the ID is not terminal and the permit ID matches; the balance is not refunded |
| `QuotaCoordinator.UserQuotaState.ApplyQuotaObservation` | src/retrieval/temporal/workflows/user_quota.py:370-413 | Whole new window: limit, lowered balance, later reset, and the block an exhausted answer sets |
| `QuotaCoordinator.UserQuotaState.ApplyDisableScope` | src/retrieval/temporal/workflows/user_quota.py:416-423 | Disables the scope, reports whether that is new, and touches nothing else |
| `QuotaCoordinator.UserQuotaState.AdvanceDueWindow` | src/retrieval/temporal/workflows/user_quota.py:426-452 | Whole new window when a deadline is due: carried block lengthened to a later reset, or a new window ID from the boundary and the balance back to the limit |
| `QuotaCoordinator.UserQuotaState.ReserveHead` | src/retrieval/temporal/workflows/user_quota.py:485-515 | Takes the head of the queue into a reservation, pays its cost, and makes exactly its grant |
| `QuotaCoordinator.UserQuotaState.GrantAvailablePermits` | src/retrieval/temporal/workflows/user_quota.py:463-515 | The in-place loop gives the same state and grants as the recursive specification |
| `QuotaCoordinator.UserQuotaState.CompactReservations` | src/retrieval/temporal/workflows/user_quota.py:141-150 | Drops exactly the reservations that are no longer granted and tombstones them in dictionary order |
| `QuotaCoordinator.UserQuotaState.CompactQuotaState` | src/retrieval/temporal/workflows/user_quota.py:132-180 | The in-place repair equals the compaction function on values |
| `QuotaCoordinator.UserQuotaState.CompactList` | src/retrieval/temporal/workflows/user_quota.py:153-172 | First occurrences of known IDs in order, then the unlisted ones sorted |
| `QuotaCoordinator.UserQuotaWorkflow.ApplyMessage` | src/retrieval/temporal/workflows/user_quota.py:581-646 | Handling one message is one coordinator step plus its denials, in order |
| `QuotaCoordinator.UserQuotaWorkflow.ApplyDisable` | src/retrieval/temporal/workflows/user_quota.py:616-643 | Disabling denies and tombstones every queued request in queue order |
| `QuotaCoordinator.UserQuotaWorkflow.DenyQueued` | src/retrieval/temporal/workflows/user_quota.py:628-643 | Each queued request is tombstoned and denied exactly once, in order |
| `QuotaCoordinator.UserQuotaWorkflow.ApplyOrDefer` | src/retrieval/temporal/workflows/user_quota.py:568-579 | Before the run starts a message is kept at the back; afterwards it is handled at once |
| `QuotaCoordinator.UserQuotaWorkflow.Initialize` | src/retrieval/temporal/workflows/user_quota.py:680-685 | Deferred messages are handled in arrival order on the compacted state, none lost |
| `QuotaCoordinator.UserQuotaWorkflow.BeginTurn` | src/retrieval/temporal/workflows/user_quota.py:749-783 | One pass of the run loop: grants of the turn, the collected denials handed over, rollover noted when the window changed |
| `QuotaCoordinator.UserQuotaWorkflow.DeliveryFailed` | src/retrieval/temporal/workflows/user_quota.py:706-716 | A grant known not to have arrived is cancelled, with no refund |
| `QuotaCoordinator.UserQuotaWorkflow.TryContinueAsNew` | src/retrieval/temporal/workflows/user_quota.py:793-796 | Continues exactly when due and no denial is undelivered, with the compacted state |
| `QuotaInvariant.StepInv` | src/retrieval/temporal/workflows/user_quota.py:183-367 | Every message, grant pass and Continue-As-New keeps the coordinator invariant |
| `QuotaInvariant.RunInv` | src/retrieval/temporal/workflows/user_quota.py:744-816 | The invariant holds after every sequence of events |
| `QuotaInvariant.InitialInv` | src/retrieval/temporal/workflows/user_quota.py:132-180 | A new scope starts in the invariant |
| `QuotaInvariant.MarkAllNewest` | src/retrieval/temporal/workflows/user_quota.py:107-129 | The terminal window is the newest entries of everything marked, as many as its size |
| `QuotaInvariant.CancelInv` | src/retrieval/temporal/workflows/user_quota.py:248-295 | Cancelling keeps the invariant |
| `QuotaInvariant.GenerationInv` | src/retrieval/temporal/workflows/user_quota.py:298-342 | Cancelling a generation keeps the invariant |
| `QuotaInvariant.CompleteInv` | src/retrieval/temporal/workflows/user_quota.py:345-367 | Completing keeps the invariant |
| `QuotaInvariant.DisableInv` | src/retrieval/temporal/workflows/user_quota.py:616-643 | Disabling empties the queue and keeps the invariant |
| `QuotaInvariant.AdmitInv` | src/retrieval/temporal/workflows/user_quota.py:228-245 | Admission keeps the queue a duplicate-free listing of the pending requests within the cap |
| `QuotaInvariant.GrantLoopInv` | src/retrieval/temporal/workflows/user_quota.py:475-515 | The grant loop keeps the invariant, so in-flight never passes its limit |
| `QuotaInvariant.CompactIsIdentity` | src/retrieval/temporal/workflows/user_quota.py:132-180 | On every state that satisfies the invariant compaction changes nothing, so Continue-As-New is a stutter step |
| `QuotaInvariant.RunKeepsSettings` | src/retrieval/temporal/workflows/user_quota.py:416-423 | Settings never change and a disabled scope stays disabled |
| `QuotaCompaction.CompactRepairs` | src/retrieval/temporal/workflows/user_quota.py:132-180 | On any carried state with duplicate-free terminal IDs: queue a duplicate-free listing in first-occurrence order, in-flight the number of live reservations, window bounded and consistent |
| `QuotaCompaction.CompactIdempotent` | src/retrieval/temporal/workflows/user_quota.py:132-180 | Compacting twice, whatever the dictionary order, is compacting once |
| `QuotaGrants.GreedyIsLongestPrefix` | src/retrieval/temporal/workflows/user_quota.py:463-515 | An unblocked pass grants exactly the longest queue prefix that fits the free slots and, by prefix sum, the known balance; the rest of the queue is unchanged, in order |
| `QuotaGrants.BlockedGrantsNothing` | src/retrieval/temporal/workflows/user_quota.py:455-473 | A blocked pass grants nothing and touches only the window |
| `QuotaShape.EveryStepShape` | src/retrieval/temporal/workflows/user_quota.py:183-532 | Any step only removes queue entries in place or appends one; open requests that leave are marked terminal exactly once; grants name the head of the queue |
| `QuotaHistory.NextGrantsFirst` | src/retrieval/temporal/workflows/user_quota.py:475-486 | A grant pass grants the longest-waiting admissions first |
| `QuotaRuns.RunHistory` | src/retrieval/temporal/workflows/user_quota.py:744-816 | The admission log explains the state after every run: ledger, order and tombstones |
| `QuotaRuns.LedgerBalances` | src/retrieval/temporal/workflows/user_quota.py:183-367 | Admitted = pending + reserved + cancelled while pending + denied by disable + completed + cancelled after grant, each admission in one account; in-flight = reservations within the limit |
| `QuotaRuns.GrantsFollowAdmissions` | src/retrieval/temporal/workflows/user_quota.py:475-486 | All grants of a run are a subsequence of the admissions in order, and nothing is granted past a request that still waits |
| `QuotaRuns.TombstonesHold` | src/retrieval/temporal/workflows/user_quota.py:107-129 | An ID marked terminal is admitted again only after a full window of different other IDs became terminal |
| `QuotaRuns.RegrantNeedsFullWindow` | src/retrieval/temporal/workflows/user_quota.py:273-284 | The same ID is admitted twice only with a marking and a full window of others in between, cancel-before-request tombstones included |
| `QuotaBudget.WindowBudget` | src/retrieval/temporal/workflows/user_quota.py:481-505 | Inside one window a known balance stays non-negative, and with all costs granted since never exceeds its first known value |
| `QuotaBudget.StepSpends` | src/retrieval/temporal/workflows/user_quota.py:248-295 | No step inside a window refunds: cancels, completions and late observations included |
| `QuotaBudget.WindowAdvance` | src/retrieval/temporal/workflows/user_quota.py:426-452 | Only a due window advance changes the window ID, and it refills to the limit |
| `QuotaBudget.NoGrantBeforeDeadline` | src/retrieval/temporal/workflows/user_quota.py:387-413 | After an exhausted observation nothing is granted before the later of its retry or reset deadline and any known reset |
| `QuotaBudget.FiringsBounded` | src/retrieval/temporal/workflows/user_quota.py:518-532 | Without new observations each timer firing uses up a deadline, so there are at most two |
| `QuotaBudget.FiringEachDeadlineUnblocks` | src/retrieval/temporal/workflows/user_quota.py:426-460 | As many firings as the scope has distinct deadlines, none to two, leave an enabled scope unblocked at every time |
| `QuotaBudget.TwoFiringsUnblock` | src/retrieval/temporal/workflows/user_quota.py:426-460 | The case of a scope with two deadlines: two firings are enough |
| `QuotaBudget.TimerReachesDeadline` | src/retrieval/temporal/workflows/user_quota.py:518-532 | A timer is armed exactly when a deadline exists, and a pass advances the window exactly from the time it fires |
| `QuotaWaiter.QuotaWaiterInbox.MarkTerminal` | src/retrieval/temporal/common/quota_waiter.py:87-97 | Set and list of consumed IDs stay equal: the newest 2048, oldest evicted first |
| `QuotaWaiter.QuotaWaiterInbox.QuotaGranted` | src/retrieval/temporal/common/quota_waiter.py:100-113 | Keeps a grant exactly when it is expected, not consumed, not already held, and matches scope and cost |
| `QuotaWaiter.QuotaWaiterInbox.QuotaDenied` | src/retrieval/temporal/common/quota_waiter.py:116-129 | Keeps a denial exactly when it is expected, not consumed, nothing is held, and the scope matches |
| `QuotaWaiter.QuotaWaiterInbox.Begin` | src/retrieval/temporal/common/quota_waiter.py:213-231 | The four refusals in order, and otherwise the request is expected before anything is sent |
| `QuotaWaiter.QuotaWaiterInbox.TakeReply` | src/retrieval/temporal/common/quota_waiter.py:248-260 | A denial is taken before a grant, and the request ends up consumed with nothing left behind |
| `QuotaWaiter.QuotaWaiterInbox.Forget` | src/retrieval/temporal/common/quota_waiter.py:261-286 | Every exit path leaves the request consumed and no grant, denial or expectation for it |
| `QuotaWaiter.MarkConsumedWindow` | src/retrieval/temporal/common/quota_waiter.py:87-97 | The consumed window stays duplicate-free and bounded and always holds the ID just marked |
| `QuotaWaiter.FinishKeepsInbox` | src/retrieval/temporal/common/quota_waiter.py:252-286 | Leaving the wait keeps the inbox invariant |
| `QuotaWaiter.FirstExactGrantWins` | src/retrieval/temporal/common/quota_waiter.py:99-113 | Whatever grants arrive, the inbox holds exactly the first exact one, and none only when none arrived |
| `PermitProtocol.StepReleasing` | src/retrieval/temporal/workflows/user_quota.py:248-367 | A reservation leaves only by a cancel or completion of its ID or a cancel of its generation; at most the requested ID is admitted |
| `PermitProtocol.TurnGranted` | src/retrieval/temporal/workflows/user_quota.py:463-515 | A grant pass keeps all reservations and backs each grant by a reservation with its permit ID, for a request that was queued |
| `PermitSafety.NextInv` | src/retrieval/temporal/workflows/user_quota.py:696-725 | Every action of callers, coordinator and network keeps the protocol invariant |
| `PermitSafety.GrantsFirstSent` | src/retrieval/temporal/workflows/user_quota.py:463-515 | A new grant is the first for its request that any live caller can receive |
| `PermitSafety.FailInv` | src/retrieval/temporal/workflows/user_quota.py:704-716 | Reporting a delivery failure, when the grant did not arrive, takes nothing from any caller |
| `PermitSafety.TakeInv` | src/retrieval/temporal/common/quota_waiter.py:245-260 | Returning a reply keeps the protocol invariant: the returned grant is exact and was sent to this caller |
| `PermitSafety.HeldGrantsAreBacked` | src/retrieval/temporal/common/quota_waiter.py:193-326 | Over every run a caller holding a returned, uncompleted grant of a generation not cancelled has a live reservation with exactly that permit ID, scope and cost |
| `PermitSafety.HoldersWithinLimit` | src/retrieval/temporal/workflows/user_quota.py:463-515 | Such callers never outnumber the in-flight limit |
| `PermitSafety.SharedIdLosesReservation` | src/retrieval/temporal/workflows/user_quota.py:263-295 | One-step witness of the assumption that request IDs are unique: a late cancel for the same ID takes the reservation away from the caller that holds it |
| `PermitSafety.FailureAfterArrivalLosesReservation` | src/retrieval/temporal/workflows/user_quota.py:704-716 | One-step witness of the assumption about reported delivery failures: if the grant did arrive, its holder loses the reservation |
| `StoreRepository.InMemoryRetrievalRepository.EnsureStore` | src/retrieval/temporal/activities/repositories.py:89-105 | Adds a record only for an unknown store, and returns a copy of the one that is there |
| `StoreRepository.InMemoryRetrievalRepository.RequireWritable` | src/retrieval/temporal/activities/repositories.py:258-268 | The error order of a write: unknown store, stale generation, state rejected |
| `StoreRepository.InMemoryRetrievalRepository.RequireCleanupGeneration` | src/retrieval/temporal/activities/repositories.py:270-275 | The error order of a cleanup: unknown store, stale generation, not DEACTIVATING |
| `StoreRepository.InMemoryRetrievalRepository.BeginDeactivation` | src/retrieval/temporal/activities/repositories.py:111-149 | Exactly the fence transition of one record, or the idempotent answer, or the error and nothing changed |
| `StoreRepository.InMemoryRetrievalRepository.ResumeDeactivation` | src/retrieval/temporal/activities/repositories.py:151-169 | Exactly the resume transition of one record, or the error and nothing changed |
| `StoreRepository.InMemoryRetrievalRepository.MarkInactive` | src/retrieval/temporal/activities/repositories.py:171-181 | Exactly the INACTIVE transition of one record, or the error and nothing changed |
| `StoreRepository.InMemoryRetrievalRepository.MarkDeactivationFailed` | src/retrieval/temporal/activities/repositories.py:183-197 | Exactly the FAILED transition of one record, or the error and nothing changed |
| `StoreRepository.InMemoryRetrievalRepository.ActivateUser` | src/retrieval/temporal/activities/repositories.py:199-204 | A user is added to a writable record of that generation only |
| `StoreRepository.InMemoryRetrievalRepository.MutateRetrievalState` | src/retrieval/temporal/activities/repositories.py:206-211 | A retrieval value is set in a writable record of that generation only |
| `StoreRepository.InMemoryRetrievalRepository.UpsertDocument` | src/retrieval/temporal/activities/repositories.py:213-218 | A document is set in a writable record of that generation only |
| `StoreRepository.InMemoryRetrievalRepository.DeleteDocument` | src/retrieval/temporal/activities/repositories.py:220-225 | A document is removed from a writable record of that generation only |
| `StoreRepository.InMemoryRetrievalRepository.RemoveAllObjects` | src/retrieval/temporal/activities/repositories.py:227-233 | Empties documents and retrieval state of a DEACTIVATING record and counts the documents |
| `StoreRepository.InMemoryRetrievalRepository.DeactivateUsers` | src/retrieval/temporal/activities/repositories.py:235-243 | Removes the named users, or all when none is named, from a DEACTIVATING record and counts those removed |
| `StoreRepository.FencedForever` | src/retrieval/temporal/activities/repositories.py:111-275 | Once fenced, no sequence of calls unfences a record, moves its generation or adds anything; an INACTIVE record never changes |
| `StoreRepository.FenceCommitsOnce` | src/retrieval/temporal/activities/repositories.py:111-149 | The generation moves only with the fence, by one, and at most once |
| `StoreRepository.LateWritesAreRefused` | src/retrieval/temporal/activities/repositories.py:258-268 | From the fence on every write of the old generation is refused, for ever |
| `StoreRepository.FenceRetryIsIdempotent` | src/retrieval/temporal/activities/repositories.py:111-131 | Retrying a fence call that committed, after any other calls, gives the same logical result and changes nothing |
| `StoreDeactivation.DeactivationOrderGuard.Advance` | src/retrieval/temporal/workflows/deactivate_store.py:114-123 | An action is recorded exactly when it is the next of the plan, so the completed actions are always a prefix of it |
| `StoreDeactivation.DeactivationOrderGuard.EnsureFenced` | src/retrieval/temporal/workflows/deactivate_store.py:125-127 | Holds exactly when the fence is recorded |
| `StoreDeactivation.ExecutionAchieves` | src/retrieval/temporal/workflows/deactivate_store.py:237-319 | A scheduled activity that succeeds, however late, leaves the record fenced at its run's generation with its effect done |
| `StoreDeactivation.FleetStepInv` | src/retrieval/temporal/workflows/deactivate_store.py:183-319 | Every activity execution, outside write and run action keeps the deactivation invariant |
| `StoreDeactivation.InactiveIsEmptyForever` | src/retrieval/temporal/activities/repositories.py:171-275 | In every interleaving INACTIVE implies no documents, retrieval state or active users, and stays so in every later state |
| `StoreDeactivation.CompletedRunsAreInactive` | src/retrieval/temporal/workflows/deactivate_store.py:280-291 | A run past its INACTIVE action has really made the store INACTIVE and empty, under its own generation |
| `StoreDeactivation.GenerationMovesOnce` | src/retrieval/temporal/activities/repositories.py:111-149 | Any number of runs together move the generation at most once |
| `StoreDeactivation.WritableUntilAFence` | src/retrieval/temporal/workflows/deactivate_store.py:184-220 | In every interleaving the store is writable exactly as long as no fence activity has succeeded, so a run that failed before its fence left it ACTIVE or SYNCING exactly then |
| `StoreDeactivation.RunsPastTheFenceAreFenced` | src/retrieval/temporal/workflows/deactivate_store.py:486-517 | A run that passed its fence, also one that then failed, leaves the store fenced for good under the generation the run works under |
| `StoreDeactivation.FailedRunLeavesStateOpen` | src/retrieval/temporal/workflows/deactivate_store.py:321-345 | Witness that before the fence the result alone does not settle the record: the same FAILED run is left by a fence that never executed and by one that committed with its response lost |
| `StoreController.StoreControllerWorkflow.RememberResult` | src/retrieval/temporal/workflows/store_controller.py:174-179 | The result window after one more result: known key kept in place, new key last, oldest dropped |
| `StoreController.StoreControllerWorkflow.ProcessRequestSync` | src/retrieval/temporal/workflows/store_controller.py:284-376 | Whole new state, answer and child start of a sync request, with the refusals in order |
| `StoreController.StoreControllerWorkflow.ProcessCancelSync` | src/retrieval/temporal/workflows/store_controller.py:378-409 | Whole new state, answer and cancel request of a sync cancellation |
| `StoreController.StoreControllerWorkflow.ProcessStartDeactivation` | src/retrieval/temporal/workflows/store_controller.py:411-536 | Whole new state, answer and child start of a deactivation, with the duplicate and refused cases in order |
| `StoreController.StoreControllerWorkflow.ProcessOperationStatus` | src/retrieval/temporal/workflows/store_controller.py:552-605 | Whole new state and drain Signals of an operation status |
| `StoreController.StoreControllerWorkflow.ProcessRemediationStarted` | src/retrieval/temporal/workflows/store_controller.py:607-629 | Whole new state of a remediation start, and a cancel request exactly when the store is fenced |
| `StoreController.StoreControllerWorkflow.ProcessDeactivationFenced` | src/retrieval/temporal/workflows/store_controller.py:650-657 | The fence event counts exactly for the active deactivation and not for an older generation |
| `StoreController.StoreControllerWorkflow.Process` | src/retrieval/temporal/workflows/store_controller.py:681-698 | Every envelope is handled as specified |
| `StoreController.StoreControllerWorkflow.InitializeAuthority` | src/retrieval/temporal/workflows/store_controller.py:659-679 | The first handling of a run takes generation and state from the repository |
| `StoreController.HandleOk` | src/retrieval/temporal/workflows/store_controller.py:552-629 | Every envelope keeps: at most one sync, IDs of their own kinds, ACTIVE/SYNCING is SYNCING iff something is registered |
| `StoreController.SyncStartsOnIdleStore` | src/retrieval/temporal/workflows/store_controller.py:284-318 | A sync starts only on an ACTIVE store with empty registries and no deactivation |
| `StoreController.GenerationGrows` | src/retrieval/temporal/workflows/store_controller.py:568-586 | No envelope moves the generation back |
| `StoreController.AbsorbedStays` | src/retrieval/temporal/workflows/store_controller.py:552-657 | Once fenced with no unprocessed active deactivation, no envelope returns the controller to ACTIVE or SYNCING |
| `StoreController.FenceIsAbsorbed` | src/retrieval/temporal/workflows/store_controller.py:650-657 | Processing a committed fence puts the controller there |
| `StoreController.AbsorbedExactly` | src/retrieval/temporal/workflows/store_controller.py:565-594 | A fenced controller can be returned to ACTIVE or SYNCING exactly when it has an active deactivation whose fence it has not processed |
| `StoreController.ContinueAsNewGap` | docs/workflow-topology.md:351 | One-step witness of the gap: with the fence Signal unprocessed at Continue-As-New, a FAILED status makes the controller ACTIVE where without Continue-As-New it becomes DEACTIVATION_FAILED |
| `StoreController.RepeatedCommandGetsFirstAnswer` | src/retrieval/temporal/workflows/store_controller.py:181-189 | Over any queue, a command answered once and sent again before a full window of other results was remembered gets the same answer as a duplicate, changing and starting nothing |
| `StoreGap.GapIsReachable` | src/retrieval/temporal/workflows/store_controller.py:659-679 | From any fresh system a run leads to an initialized, ACTIVE controller without a deactivation over a record that is fenced under the generation the controller shows |
| `StoreController.WindowHoldsNewest` | src/retrieval/temporal/workflows/store_controller.py:174-179 | Over any queue of envelopes the window is exactly the newest results, as many as its size and at least one |
| `StoreSystem.SystemStepInv` | src/retrieval/temporal/workflows/store_controller.py:717-737 | Every step of controller, runs, activities, writers and Signals keeps the system invariant |
| `StoreSystem.SignalsAreTruthful` | src/retrieval/temporal/workflows/deactivate_store.py:519-548 | What a deactivation run signals about the repository is true when sent and stays true |
| `StoreSystem.InactiveControllerIsRight` | src/retrieval/temporal/workflows/store_controller.py:568-586 | A controller that shows INACTIVE has an INACTIVE, empty repository |
| `StoreSystem.ControllerShowsItsRegistry` | src/retrieval/temporal/workflows/store_controller.py:552-605 | In every reachable state at most one sync is registered, and ACTIVE/SYNCING is SYNCING iff something is registered |
| `StoreSystem.GenerationsInOrder` | src/retrieval/temporal/workflows/store_controller.py:659-679 | Across runs and re-initialisations the generation never decreases and never passes the repository's |
| `StoreSystem.SyncStartsAlone` | src/retrieval/temporal/workflows/store_controller.py:284-318 | In every reachable state a sync starts beside no sync, remediation or deactivation |
| `StoreSystem.FenceHoldsForTheRun` | src/retrieval/temporal/workflows/store_controller.py:552-657 | Within one controller run no later events undo a processed fence |
| `StoreSystem.DrainIsAccounted` | src/retrieval/temporal/workflows/store_controller.py:538-564 | Every operation the open, active deactivation has to drain was forwarded to it or is still registered |
| `StoreDrain.SucceededMeansDrained` | src/retrieval/temporal/workflows/deactivate_store.py:237-319 | Over every run of the system, each operation a SUCCEEDED deactivation was started over left the registry while that deactivation was open and active, and before its user cleanup was scheduled |
| `StoreDrain.ForwardedLeft` | src/retrieval/temporal/workflows/store_controller.py:538-564 | Over every run, what a deactivation still waiting for its drain was told about left the registry at an earlier step |
| `StoreDrain.SystemMoves` | src/retrieval/temporal/workflows/deactivate_store.py:237-297 | A system step only advances a deactivation, keeps its warnings, and takes it past its drain wait without one only when it handled every drain |
| `StoreSystem.CleanDrainSawEverything` | src/retrieval/temporal/workflows/deactivate_store.py:418-448 | A run past its drain wait without a warning was told about every one of its operations |
| `StoreSystem.ForwardedMeansLeft` | src/retrieval/temporal/workflows/store_controller.py:538-564 | An operation is forwarded to a run exactly at the step it leaves the registry while that run is active and open |
| `ResourcePages.ResourcePagesWorkflow.FetchManifest` | src/retrieval/temporal/workflows/resource_pages.py:57-130 | One request per attempt on the unchanged cursor, consecutive from the first attempt; a rollover carries the next one |
| `ResourcePages.ResourcePagesWorkflow.FillWindow` | src/retrieval/temporal/workflows/resource_pages.py:178-211 | Starts pages in order until the window is full or fetching stops, never past the window; the requests of a fetch that raises count too |
| `ResourcePages.ResourcePagesWorkflow.TakeFinished` | src/retrieval/temporal/workflows/resource_pages.py:215-239 | Takes the results of at least one finished child, in any order |
| `ResourcePages.ResourcePagesWorkflow.Run` | src/retrieval/temporal/workflows/resource_pages.py:162-282 | For every completion order, failure pattern and suggestion: drained, within the budget, checkpoint at the earliest failure, or a command that continues at the next page |
| `ResourcePageChains.ChainIsOneRun` | src/retrieval/temporal/workflows/resource_pages.py:242-252 | Continue-As-New is invisible: a chain cut anywhere satisfies the specification of one uncut run |
| `ResourcePageChains.CleanRunIsExact` | src/retrieval/temporal/workflows/resource_pages.py:177-240 | A failure-free run processes exactly the pages up to the end of the chain or of the budget, each once, in order |
| `ResourcePageChains.CutsDoNotMatter` | src/retrieval/temporal/workflows/resource_pages.py:242-252 | Two failure-free chains of one command, however cut, process the same pages and return the same result |
| `ResourcePageChains.CheckpointIsSafe` | src/retrieval/temporal/workflows/resource_pages.py:262-281 | Everything started has drained, every page before the returned cursor was started and processed, the cursor is that of the earliest failed page if any, and otherwise just past the last page started, unless no page was asked for from the very start |
| `ResourcePageChains.FinishedExactly` | src/retrieval/temporal/workflows/resource_pages.py:262-263 | Finished holds exactly when no page failed and the chain was processed to its end, or no page was asked for from the very start |
| `ResourcePageChains.BudgetIsKept` | src/retrieval/temporal/workflows/resource_pages.py:178-185 | Pages started over a whole chain never exceed the page budget |
| `ResourcePageChains.RequestsNeverRepeat` | src/retrieval/temporal/workflows/resource_pages.py:57-130 | No (cursor, attempt) pair is used for two permit requests in a chain, also one that raises or is still to continue |
| `UserSync.MergeResults` | src/retrieval/temporal/workflows/user_sync.py:93-136 | The merge loop gives the merged cursors with their order, the next cursor, completed types, error count and finished flag of the outcomes |
| `UserSync.NextCursorOf` | src/retrieval/temporal/workflows/user_sync.py:114-117 | The search loop finds the first cursor in dictionary order |
| `UserSync.FirstCursorMeaning` | src/retrieval/temporal/workflows/user_sync.py:114-117 | The next cursor is missing exactly when no resource has one, and else is the first one in dictionary order |
| `UserSync.ResultNextCursor` | src/retrieval/temporal/workflows/user_sync.py:114-117 | In the merged result the next cursor is the first one in dictionary order that a type still has, and missing exactly when none has |
| `UserSync.MergedOrder` | src/retrieval/temporal/workflows/user_sync.py:94-108 | The dictionary order stays a duplicate-free listing of its keys and only grows at its end |
| `UserSync.MergedCursors` | src/retrieval/temporal/workflows/user_sync.py:94-108 | Each type's cursor reaches the record and no other cursor changes |
| `UserSync.MergedCompleted` | src/retrieval/temporal/workflows/user_sync.py:109-112 | Exactly the finished types and those completed before are completed, each once |
| `UserSync.FinishedMeansAllCompleted` | src/retrieval/temporal/workflows/user_sync.py:134-135 | Without duplicate types, finished holds exactly when every requested type is completed |
| `UserSync.DuplicateTypesNeverFinish` | src/retrieval/temporal/workflows/user_sync.py:134-135 | With a duplicated type the user is never finished |
| `UserSlices.SlicesFetchInOrder` | src/retrieval/temporal/workflows/user_sync.py:75-137 | Slices of any size fetch of every resource the first pages of its chain, each once and in order; finished exactly when that is every page |
| `UserSlices.SlicingPreservesMeaning` | src/retrieval/temporal/workflows/root_sync.py:598-618 | A finished sliced user fetched exactly the pages of one unlimited run, each once, in the same order per resource |
| `UserSlices.SlicesNeeded` | src/retrieval/temporal/workflows/root_sync.py:529-532 | Slices of size k finish a user exactly when k times their number covers its longest chain |
| `UserSlices.WholeRunFetchesAll` | src/retrieval/temporal/workflows/user_sync.py:75-137 | An unlimited run fetches every page and is finished |
| `UserSlices.CleanSlicesSucceed` | src/retrieval/temporal/workflows/user_sync.py:123-123 | A failure-free slice reports success |
| `RootSyncModel.SampleIsBounded` | src/retrieval/temporal/workflows/root_sync.py:62-66 | A sample never outgrows its limit |
| `RootSyncModel.SortKeepsUsers` | src/retrieval/temporal/workflows/root_sync.py:535-585 | Sorting a round puts each user in exactly one of active, failed and completed; each failed user adds an error and nobody else does |
| `RootSyncModel.RescheduledUserContinues` | src/retrieval/temporal/workflows/root_sync.py:566-584 | A rescheduled user's next input is its result carried over |
| `RootSync.RootSyncWorkflow.DrainRemediations` | src/retrieval/temporal/workflows/root_sync.py:72-91 | Leaves at most three tracked remediations, or none |
| `RootSync.RootSyncWorkflow.StartRemediation` | src/retrieval/temporal/workflows/root_sync.py:710-802 | Starts exactly for a non-empty list of failed users, and never tracks more than four |
| `RootSync.RootSyncWorkflow.ListUsers` | src/retrieval/temporal/workflows/root_sync.py:103-177 | A page of the directory at the cursor, or a rollover carrying the attempt after the last request, with an unchanged cursor; one request per attempt, consecutive |
| `RootSync.RootSyncWorkflow.FillFromBuffer` | src/retrieval/temporal/workflows/root_sync.py:459-461 | Moves buffered users in order into a window that is not exceeded |
| `RootSync.RootSyncWorkflow.RefillRoundUsers` | src/retrieval/temporal/workflows/root_sync.py:443-499 | The queue of active and buffered users only grows at the back, by exactly the users listed; ends with a full window or nobody left; its requests ascend, and a rollover leaves a state that must list at once |
| `RootSync.RootSyncWorkflow.SortResults` | src/retrieval/temporal/workflows/root_sync.py:535-585 | The result loop sorts and counts as specified |
| `RootSync.RootSyncWorkflow.RunRound` | src/retrieval/temporal/workflows/root_sync.py:522-604 | One round: users sorted, counts and errors updated, its failures handed to one remediation of that round |
| `RootSync.RootSyncWorkflow.RoundMode` | src/retrieval/temporal/workflows/root_sync.py:501-708 | Conservation, window, counts, errors and hand-over of a whole run, its rounds in order with their users, and its ascending listing requests, for every outcome that is not an exception |
| `RootSync.RootSyncWorkflow.RunPage` | src/retrieval/temporal/workflows/root_sync.py:326-387 | One page: every user completed or failed, the failed handed to one remediation of that page |
| `RootSync.RootSyncWorkflow.Ordinary` | src/retrieval/temporal/workflows/root_sync.py:279-441 | Every listed user completed or failed, counts, errors and hand-over, to the end or to a command that continues at the next page; ascending listing requests |
| `RootSyncChains.EveryListedUserIsAccounted` | src/retrieval/temporal/workflows/root_sync.py:501-680 | Over any chain the valid users listed are the active, buffered, completed and failed ones, each once, at most a window active; on return all of the directory completed or failed, and counted, and without prior errors the result is partial exactly when some user failed |
| `RootSyncChains.EveryFailureIsRemediatedOnce` | src/retrieval/temporal/workflows/root_sync.py:586-604 | Over a fresh chain every failed occurrence is handed to exactly one remediation, partitions differ, carried failures are not handed over again |
| `RootSyncChains.OrdinarySyncIsComplete` | src/retrieval/temporal/workflows/root_sync.py:279-441 | The same for ordinary mode, over the whole directory, partial exactly when some user failed included |
| `RootSyncActivity.ListingsNeverRepeat` | src/retrieval/temporal/workflows/root_sync.py:103-177 | Over any chain of round-mode runs no user page is asked for twice with the same cursor and attempt, carried attempts included |
| `RootSyncActivity.OrdinaryListingsNeverRepeat` | src/retrieval/temporal/workflows/root_sync.py:103-177 | The same for ordinary mode |
| `RootSyncActivity.ChainBatches` | src/retrieval/temporal/workflows/root_sync.py:560-602 | Over any chain rounds are numbered without gap or repetition, and each runs only users the sync has to account for, none more often than listed |
| `PermitIds.UserIdsDiffer` | src/retrieval/temporal/workflows/user_sync.py:27-66 | The page requests of one user child, over all its resource types, have different IDs |
| `PermitIds.SliceIsUserRun` | src/retrieval/temporal/workflows/user_sync.py:70-80 | A slice of a user is such a child: one chain for each outstanding resource type |
| `PermitIds.RemediationSlotsDiffer` | src/retrieval/temporal/workflows/failed_user_remediation.py:41-75 | The waves of all remediations of a sync run under different sequences or for different users |
| `PermitIds.RoundSyncSlotsDiffer` | src/retrieval/temporal/workflows/root_sync.py:562-602 | When no user is listed twice, every slice and every remediation wave of a round-mode sync has a sequence and user of its own |
| `PermitIds.RoundSyncNeverRepeatsIds` | src/retrieval/temporal/common/ids.py:200-223 | No two permit requests of a round-mode sync share an ID, over all runs, rounds, slices and remediations of all users and the user listing |
| `PermitIds.OrdinarySlotsDifferExactly` | src/retrieval/temporal/common/ids.py:121-135 | In ordinary mode all children of users and waves have different identities exactly when the directory lists no user twice |
| `PermitIds.OrdinarySyncNeverRepeatsIds` | src/retrieval/temporal/common/ids.py:200-223 | No two permit requests of an ordinary sync share an ID when no user is listed twice |
| `QuotaEffects.MarkEffect` | src/retrieval/temporal/workflows/user_quota.py:107-129 | Marking an ID clears a window without room, changes nothing when it is known, and otherwise puts it last and drops the oldest entries beyond the size from both lists |
| `QuotaEffects.PassSkipsStaleEntries` | src/retrieval/temporal/workflows/user_quota.py:476-482 | On any carried state, consistent or not, a pass grants exactly what it would grant if the queue named pending requests only |
| `QuotaEffects.CompletionEffect` | src/retrieval/temporal/workflows/user_quota.py:345-367 | An exact completion frees exactly its slot and marks its ID newest terminal; a completion with any other permit, or of an ID not reserved, only counts as a message |
| `QuotaEffects.CancelEffect` | src/retrieval/temporal/workflows/user_quota.py:248-295 | A cancel takes a known ID out of queue or reservations, marks it, tombstones an unknown one, and refunds nothing; a terminal or empty ID only counts |
| `QuotaEffects.GenerationEffect` | src/retrieval/temporal/workflows/user_quota.py:298-342 | Exactly the open requests of that store and generation leave, marked in the order of their IDs |
| `QuotaEffects.AdmissionEffect` | src/retrieval/temporal/workflows/user_quota.py:183-245 | Joins the back of the queue exactly when the ID is new and no reason speaks against it; the denial names the first reason, goes to a named requester, and only a full queue (at most 350) is retryable |
| `QuotaEffects.DisableEffect` | src/retrieval/temporal/workflows/user_quota.py:416-423 | Denies every queued request, in queue order and not retryable, marks them, empties the queue and keeps the reservations; a second disable only counts |
| `QuotaEffects.ObservationEffect` | src/retrieval/temporal/workflows/user_quota.py:370-413 | Limit, balance, reset and block after any observation, from its own fields: an exhausted one blocks to the latest of the old block, its reset, now plus Retry-After, or a minute when it names neither |
| `QuotaEffects.NoGrantBeforeAnyWait` | src/retrieval/temporal/workflows/user_quota.py:395-412 | No grant in any run before any deadline an exhausted answer asks for, or before a block or reset already known |
| `QuotaEffects.AdvanceOpens` | src/retrieval/temporal/workflows/user_quota.py:426-452 | A pass lengthens a block to a later reset, or opens a new window named after the old one and the later of the reached deadlines, full and without them, or leaves the window alone |
| `QuotaEffects.PassEffect` | src/retrieval/temporal/workflows/user_quota.py:463-515 | A pass grants nothing while disabled or blocked, else the longest queue prefix there is room for; each grant and reservation carries the same permit of the window and the fields of its request |
| `QuotaEffects.TimerEffect` | src/retrieval/temporal/workflows/user_quota.py:518-532 | The timer waits exactly until the earliest known deadline and exists only with one |
| `QuotaEffects.ContinueEffect` | src/retrieval/temporal/workflows/user_quota.py:132-180 | Continue-As-New carries the whole state over and only starts counting messages again |
| `QuotaWaiter.FirstAnswerWins` | src/retrieval/temporal/common/quota_waiter.py:100-130 | Whatever grants and denials arrive, the caller's answer is the first that is for its request: an exact grant or a denial in its scope |
| `QuotaWaiter.RequestedExactly` | src/retrieval/temporal/common/quota_waiter.py:193-232 | A request is refused exactly for a missing ID, a cost that is not positive, an open or a recently consumed ID, in this order |
| `QuotaWaiter.FinishedExactly` | src/retrieval/temporal/common/quota_waiter.py:245-290 | However a wait ends nothing of the request stays open, its ID is the newest consumed one of at most 2048, and no other request is touched |
| `PermitProgress.DeliveredCompletion` | src/retrieval/temporal/workflows/user_quota.py:345-367 | A completion that arrives, however late or often, frees the reservation under its own permit and no other one |
| `PermitProgress.CompletionFreesTheSlot` | src/retrieval/temporal/common/quota_waiter.py:308-326 | Over every run: once a held grant is completed and its Signal arrives, its reservation is gone and one slot is free |
| `PermitProgress.AbandonedRequestIsGone` | src/retrieval/temporal/common/quota_waiter.py:152-191 | Once the cancel of an abandoned request arrives, the request is neither queued nor reserved and its ID is terminal |
| `PermitProgress.FailedDeliveryFreesTheSlot` | src/retrieval/temporal/workflows/user_quota.py:704-716 | A grant reported not to have arrived gives its slot back and refunds nothing |
| `PermitProgress.RefusedRequestIsTold` | src/retrieval/temporal/workflows/user_quota.py:586-594 | The denial of a refused request reaches its waiting caller as its reply; no slot is taken and the caller holds nothing |
| `PermitProgress.DisabledRequestIsTold` | src/retrieval/temporal/workflows/user_quota.py:626-643 | Disabling the credential sends every queued request its denial and empties the queue |
| `PermitProgress.UncontendedRequestIsGranted` | src/retrieval/temporal/common/quota_waiter.py:193-290 | A well-formed request to an enabled scope with a slot, balance and no deadline ends with its caller holding exactly its own grant, backed by a reservation |
| `StoreRepository.AcceptedExactly` | src/retrieval/temporal/activities/repositories.py:106-275 | Each call is accepted exactly under the record's generation in its allowed states, or as a retry of the committed fence; stale generation is reported before a wrong state |
| `StoreRepository.AcceptedTransitions` | src/retrieval/temporal/activities/repositories.py:106-190 | The lifecycle transition of each accepted call; all others leave state and generation alone |
| `StoreRepository.CleanupRemoves` | src/retrieval/temporal/activities/repositories.py:214-232 | Cleanup removes exactly what it names, everything when it names nobody |
| `StoreRepository.WritesAreRead` | src/retrieval/temporal/activities/repositories.py:192-212 | Over any writes of the current generation each document and key shows its last write, and exactly the activated users joined |
| `StoreRepository.PerformedExactly` | src/retrieval/temporal/activities/repositories.py:100-232 | A repository call changes at most the record of its own store and fails as that record says |
| `StoreEffects.SyncRequestEffect` | src/retrieval/temporal/workflows/store_controller.py:284-376 | A sync starts exactly under the current generation on an open store with nothing registered; refusals come in order and change nothing |
| `StoreEffects.SyncCancelEffect` | src/retrieval/temporal/workflows/store_controller.py:378-409 | A cancel asks exactly a registered sync to stop, and is answered accepted or rejected accordingly |
| `StoreEffects.DeactivationEffect` | src/retrieval/temporal/workflows/store_controller.py:411-536 | A deactivation command answers with the active or ended one, or starts a child over everything registered that fences the next generation or resumes the present one |
| `StoreEffects.DeactivationEndEffect` | src/retrieval/temporal/workflows/store_controller.py:552-605 | The end of the active deactivation shows INACTIVE exactly when it succeeded and DEACTIVATION_FAILED otherwise once its fence is known, at the later generation; else what is registered |
| `StoreEffects.OperationEndEffect` | src/retrieval/temporal/workflows/store_controller.py:552-605 | The end of another operation releases it, and with the last one SYNCING becomes ACTIVE |
| `StoreEffects.ProgressEffect` | src/retrieval/temporal/workflows/store_controller.py:631-648 | A status that is not terminal releases nothing; a finished remediation is handled as an operation status |
| `StoreEffects.RemediationEffect` | src/retrieval/temporal/workflows/store_controller.py:607-629 | A remediation is registered once, and asked to stop at once on a fenced store |
| `StoreEffects.FenceEffect` | src/retrieval/temporal/workflows/store_controller.py:650-657 | The fence Signal counts exactly for the active deactivation at no older generation |
| `StoreEffects.AuthorityEffect` | src/retrieval/temporal/workflows/store_controller.py:659-679 | The first repository answer is taken over once, and ACTIVE is shown as SYNCING while work is registered |
| `StoreEffects.CleanRunDeactivates` | src/retrieval/temporal/workflows/deactivate_store.py:184-319 | A deactivation in which nothing fails leaves its store empty and INACTIVE, an open one under the next generation and a resumed one under its own; SUCCEEDED exactly with nothing to drain and no warning |
| `StoreEffects.DrainWaitIsExact` | src/retrieval/temporal/workflows/deactivate_store.py:418-450 | Handling drain reports and ending the wait adds a warning exactly when some operation to be stopped was not reported drained |
| `StoreEffects.FailureIsRecorded` | src/retrieval/temporal/workflows/deactivate_store.py:486-517 | A run that fails after its fence leaves the store DEACTIVATION_FAILED under its generation and ends as failed |
| `StoreController.RememberReplaces` | src/retrieval/temporal/workflows/store_controller.py:174-179 | A result under a known command ID takes the place of the old one |
| `StoreEffects.CompletedDeactivationIsShown` | src/retrieval/temporal/workflows/store_controller.py:577-585 | In every reachable state a controller that knows the fence shows INACTIVE, at the repository's generation, on the terminal Signal of a completed run |
| `StoreEffects.FailedDeactivationIsShown` | src/retrieval/temporal/workflows/store_controller.py:577-585 | The same for a failure after the fence, shown as DEACTIVATION_FAILED |
| `StoreEffects.FenceIsShown` | src/retrieval/temporal/workflows/deactivate_store.py:226-262 | A run past its fence tells the controller, which shows the fenced generation |
| `StoreEffects.EarlyFailureIsShown` | src/retrieval/temporal/workflows/deactivate_store.py:321-345 | A failure before the fence gives the store back: the controller shows again what is registered |
| `UserSync.ResultCounts` | src/retrieval/temporal/workflows/user_sync.py:100-136 | The error count is one for each child that raised plus what the others reported, partial exactly when there is any, and the completed resources are the children that returned |
| `ResourcePageChains.ResultCountsChildren` | src/retrieval/temporal/workflows/resource_pages.py:215-282 | Over a chain the result counts exactly the pages whose child ended cleanly and all errors of the others |
| `RootSyncModel.SortFollowsOutcomes` | src/retrieval/temporal/workflows/root_sync.py:570-600 | Failed are, in order, exactly the users that raised, were partial or had errors, completed those that finished cleanly, active the rest with their carried results; errors are theirs, at least one each |
| `RootSyncModel.PageFollowsOutcomes` | src/retrieval/temporal/workflows/root_sync.py:346-379 | In ordinary mode whoever did not finish cleanly fails, with at least one error |
| `RootSyncModel.ValidUsersExactly` | src/retrieval/temporal/workflows/root_sync.py:275-277 | A page yields its valid users in listing order, each as often as listed and starting from the beginning, and nobody else |
| `RootSyncModel.SampleExactly` | src/retrieval/temporal/workflows/root_sync.py:62-66 | A sample gains exactly the values it has room for that are new to it, each once and in order |
| `RootSyncModel.SampledIsFirstHundred` | src/retrieval/temporal/workflows/root_sync.py:577-580 | The sample of failed users is the first hundred different ones |
| `RootSync.RunStartsAt` | src/retrieval/temporal/workflows/root_sync.py:501-507 | A run starts from its carried state, or at the cursor of its command in round 0; its window is at least one |
| `RootSyncActivity.CarriedFailuresAreRemediatedOnce` | src/retrieval/temporal/workflows/root_sync.py:522-541 | Over any chain the carried failures that nobody remediated are handed over exactly once, by the first run |
| `RootSyncActivity.OrdinaryLegacyIsOwed` | src/retrieval/temporal/workflows/root_sync.py:279-318 | In ordinary mode a run hands over all carried failures exactly when they are owed and it has a controller |
| `RootSyncActivity.RoundSyncFollowsOutcomes` | src/retrieval/temporal/workflows/root_sync.py:501-708 | A whole round-mode sync fails and remediates exactly the users whose child failed, in order, completes exactly those whose child finished cleanly, reports exactly their errors and names the first hundred different ones |
| `RootSyncActivity.OrdinarySyncFollowsOutcomes` | src/retrieval/temporal/workflows/root_sync.py:279-441 | The same for an ordinary sync, page by page over the whole directory |

## Left out

- Denials that could not be delivered, metrics, queries and snapshots are not modelled.
- In the permit protocol a denial is on the network from the moment it is decided, which only allows more runs; an abandoned request's cancel is always sent and may never arrive.
- PermitSafety.HeldGrantsAreBacked: assumes, as the ID scheme intends, that no two requests of a scope share a request ID, and that a delivery is reported failed only when the Signal did not arrive. The first is proved inside one sync; across syncs it rests on their sequences being different and on no sequence extending another.
- PermitIds.RoundSyncNeverRepeatsIds: a sync that raises is covered up to its last completed round, observed as unfinished; each child identity is taken to be executed once, as the remediation's loop over its users does and its batches are not modelled.
- ResourcePages.ResourcePagesWorkflow.Run: of a run whose fetch or child start fails only its requests are described, as the source lets the exception out without draining its children; cancellation, which drains them, is not modelled.
- RootSync.RootSyncWorkflow.RoundMode: error texts and the error and remediation-ID samples are not modelled; a run can also be observed unfinished, because users may need further slices for ever.
- Of the controller, the list of quota workflow IDs, metadata parsing and the store-mismatch check are not modelled; a status event's workflow ID is its operation ID.
- In the composed store system drain Signals are handed to the open run of the active deactivation; a remediation that finishes before it is started leaves a stale registration, as in the source.
- Progress is not claimed: a queue whose head costs more than the limit, or an unexhausted answer without a reset, can wait for ever.
- Fairness weights, priorities, search attributes, timeouts and retry policies of Temporal calls are not modelled.
- Hash construction of IDs, time zones and floating-point retry delays are not modelled; delays are whole microseconds.
- Counting of asyncio cancellation requests is not modelled: a protected task runs to its end.
- The dedup window size is fixed when a scope is created; call sites that pass another size are not modelled.
- Cleanup workflow batching, provider adapters, ingestion, activation, comments and legacy workflows are not modelled.
