# Models of the gateway's stateful cores

The repository is an AI gateway (Rust) with an admin front end (TypeScript) and release tooling
(Ruby). This project models the parts of it that keep state under interleaving, crashes or
out-of-order completion, and a few sequential algorithms, and proves what they are meant to
guarantee. One module stands for one component:

| module | component |
|---|---|
| `WaitQueue`, `Wakeups` | the bounded priority wait queue: its critical sections as a class, and the interleavings of enqueue, poll, drop and wake |
| `Drain` | connection registration and graceful drain over one packed atomic word |
| `Channels`, `Publication` | the published update channels as a table of maxima, and the prepare/publish/finish protocol with crashes |
| `Backup`, `BackupWorker` | the backup worker as a machine of port calls with a crash between any two, and the worker's code on top of it |
| `Schedule`, `Retention` | the search for the last cron firing, the schedule cursor across crashes, and paged retention |
| `Session`, `SessionOverlap`, `SessionViews` | the admin session store as turns between awaits: who may write and when `loading` ends, when cookie-setting calls can overlap, and what the views say |
| `Recovery`, `RecoveryProgress` | the request layer's session recovery as turns between awaits: what never happens, and what is delivered |
| `Lease` | the request lease renewal loop against the server's expiry |
| `Events` | the online validator of the canonical event stream |
| `Decimals` | canonical decimal amounts |
| `Layout` | the two-row greedy label layout |

Concurrent and crash-prone components are state machines: a value for the state, a `Step`
datatype, `Possible` and `Next`, and a run as a sequence of steps. Results are stated about every
run. Where the source updates an object step by step there is also a class whose methods are the
stretches of code that run undisturbed (a critical section, the code between two awaits, one port
call). The methods of the wait queue, the session store and the request layer are proved equal to the
functions that define the corresponding steps, and those of the backup worker to runs of the crash
machine. The publisher's contracts are stated with the functions of its steps (`CanFinish`,
`Finished`, `CanReserve`, `Reserved`), and those of the connection tracker with the parts of the
packed word (`Active`, `Draining`); what the renewal loop does is a run of the lease machine.

## What does not hold of the code

- The channel table depends on the order of publications when two releases share a sort key (they
  differ only in build metadata): a version below the current maximum is skipped without a conflict
  check. `Channels.SkippedConflict` says exactly which third version hides a conflicting pair, and
  `Channels.EveryOrderFoldsIffConflictFree` that freedom from such pairs is exactly what is needed.
- The search for the last firing documents `None` as "no firing in the look-back window", but it also
  answers `None` when the schedule has no firing left after the minute and the minute itself does not
  fire (`Schedule.ExhaustedSchedule`). `Schedule.LastFiringAtOrBefore` states exactly when it is right.
- A schedule that runs out of firings can back up its last firing twice, because the cursor is then not
  moved (`Schedule.RepeatedBackup`); `Schedule.ScheduledTimesIncrease` has the exact condition.
- A rejected event can change the validator's state: a duplicate content index overwrites the stored
  kind (`Events.OverwrittenKind`); `Events.RejectionEffect` has the exact condition.
- The two-row test accepts labels that are wider than a whole row (`Layout.OverwideLabelPasses`);
  `Layout.GreedyIsOptimal` has the exact condition. Through the layout function this happens with an
  overflow marker wider than the row, which is not clamped (`Layout.OverwideMarkerShown`), and in a row
  narrower than one pixel, the least width labels are clamped to (`Layout.NarrowRowShown`);
  `Layout.ShownFitsIff` says exactly for which inputs what is shown fits.
- The per-queue limit does not bound a queue: a High arrival goes past it (`Wakeups.HighExceedsLimit`).
  `WaitQueue.LimitExceededIff` says exactly when an arrival does so; without High arrivals the limit holds
  over every run (`Wakeups.QueuesStayBounded`), and Normal waiters always stay within it
  (`Wakeups.NormalsStayBounded`).
- Two calls that set the session cookie can be under way at once, because an invalidation forgets a
  login, logout or refresh that has not heard from the server yet: a refresh may then begin beside it,
  and a superseded login that still waits is sent all the same (`SessionOverlap.WaitingLoginOverlaps`).
  As long as the session is invalidated only while none of them is pending, no run has an overlap
  (`SessionOverlap.IdleInvalidationsNeverOverlap`), and any other invalidation can lead to one
  (`SessionOverlap.InvalidationOverlapsIffPending`).
- Before the first successful renewal the local expiry may promise more than the server's lease;
  `Lease.GrantDecidesSafety` says exactly for which grants it does not.

## Assumptions

- Atomic operations, mutexes, `AtomicWaker` and `Notify` are sequentially consistent; a waker is
  identified by a number that is never reused. `WaitQueue` instantiates the key type at strings and
  abstracts scores to integers under the total order that `total_cmp` provides.
- The repository lock of publication holds: one job at a time, and a release becomes public only through the
  job that reserved it. A digest identifies the snapshot it was taken of. A failed call to the hosting
  service ends the job like a crash.
- A backup id and an object key are never reused, staging for one id is written only by the dump of that id,
  an upload does not take effect after its call has ended, and other actors only insert records and move finished
  ones to deleting. What the object store holds may differ from what was sent, a HEAD request may miss an object,
  and any port call may fail before or after it took effect.
- A schedule is the set of minutes at which it fires; the clock does not go back.
- The lease loop and the server share one clock, and the loop takes no time between adjacent statements.

## Model

| member | source | states |
|---|---|---|
| `WaitQueue.SelectKey` | backend/crates/gateway-core/src/concurrency.rs:150-163 | A key is found unless none is admitted; it is admitted, no admitted key scores higher, and ties go to the earliest candidate |
| `WaitQueue.ConcurrencyWaitQueue.EnqueueRanked` | backend/crates/gateway-core/src/concurrency.rs:136-189 | Timeout iff the deadline has passed; Full iff the global cap is reached or under every key the arrival would take the Normal waiters beyond the limit (or queueing is off); no change on refusal; otherwise the new waiter is placed under a best key with room, and the queue invariant is kept |
| `WaitQueue.ConcurrencyWaitQueue.DropTicket` | backend/crates/gateway-core/src/concurrency.rs:269-297 | Exactly the ticket's waiter goes, an emptied deque goes with it, the total falls by one, and the waker returned for waking is the new head's iff the head was dropped |
| `WaitQueue.EnqueueKeepsInv` | backend/crates/gateway-core/src/concurrency.rs:165-181 | Enqueueing below the cap keeps: total is the sum of lengths and at most 1024, no empty deque, High before Normal, arrival order within a class, one waiter per live ticket under its key |
| `WaitQueue.DropKeepsInv` | backend/crates/gateway-core/src/concurrency.rs:269-297 | Dropping any live ticket keeps the same invariant and gives back exactly one place |
| `WaitQueue.EnqueueKeepsLimit` | backend/crates/gateway-core/src/concurrency.rs:153-155 | An admitted arrival never takes the Normal waiters of a queue beyond the policy's limit |
| `WaitQueue.AdmittedIffRoom` | backend/crates/gateway-core/src/concurrency.rs:153-155 | A key turns a request away if and only if the limit is zero, or the request is Normal and the queue has no place left below the limit |
| `WaitQueue.ChoiceFindsRoom` | backend/crates/gateway-core/src/concurrency.rs:150-163 | The choice among the keys fails only when none of them has room, and finds one that has |
| `WaitQueue.LimitExceededIff` | backend/crates/gateway-core/src/concurrency.rs:153-155 | An admitted arrival takes the queue past the limit if and only if it is High and the queue has reached the limit already |
| `WaitQueue.TicketlessAdmission` | backend/crates/gateway-core/src/concurrency.rs:101-112 | Without a ticket a request may try exactly when queueing it now would make it the head |
| `WaitQueue.TicketAdmission` | backend/crates/gateway-core/src/concurrency.rs:206-214 | A holder may try exactly when its waiter precedes every other under the key; while anybody waits, exactly the head's holder may |
| `WaitQueue.NoOvertaking` | backend/crates/gateway-core/src/concurrency.rs:351-358 | Whoever may try on a key, ticketless, queued there or queued under another key, overtakes no earlier waiter of its own class there; only the holder of a place under the key can pass while its class waits |
| `WaitQueue.WaitBudget.StartAt` | backend/crates/gateway-core/src/concurrency.rs:33-35 | The deadline is fixed by the first wait of a request and returned unchanged ever after |
| `WaitQueue.CapacityWait.TakePlace` | backend/crates/gateway-core/src/concurrency.rs:372-398 | A place whose key is still eligible is kept untouched; otherwise the old place is given back (waking its successor) before a new one is sought, with a deadline that is the earlier of the shared one and the time left to the request (the policy's timeout if it has none) |
| `Wakeups.NoLostWakeup` | backend/crates/gateway-core/src/concurrency.rs:206-232 | In every interleaving, a parked waiter that is the head of its queue has been notified or its wake is in flight |
| `Wakeups.ParkedHeadProceeds` | backend/crates/gateway-core/src/concurrency.rs:216-232 | From any reachable state a parked head becomes ready by delivering that wake and polling, without anybody else moving |
| `Wakeups.CheckDecides` | backend/crates/gateway-core/src/concurrency.rs:217-224 | A poll finds its task ready exactly when its waiter is the first of its queue |
| `Wakeups.EnqueuePromotesNobody` | backend/crates/gateway-core/src/concurrency.rs:173-181 | An arrival, even a High one at the front, makes no queued waiter the head |
| `Wakeups.DropPromotesOnlyTheWoken` | backend/crates/gateway-core/src/concurrency.rs:284-296 | The only waiter a drop can make the head is the one it wakes, and it wakes no other |
| `Wakeups.QueueInvariant` | backend/crates/gateway-core/src/concurrency.rs:136-189 | In every reachable state the queue invariant holds, and waiters and live tickets correspond one to one per key |
| `Wakeups.NormalsStayBounded` | backend/crates/gateway-core/src/concurrency.rs:153-155 | Under one fixed policy no queue ever holds more Normal waiters than its limit |
| `Wakeups.HighExceedsLimit` | backend/crates/gateway-core/src/concurrency.rs:153-155 | A reachable queue of two waiters under a limit of one |
| `Wakeups.QueuesStayBounded` | backend/crates/gateway-core/src/concurrency.rs:153-155 | Over every run under one limit without High arrivals, no queue is ever longer than the limit |
| `Wakeups.RoomIsUsable` | backend/crates/gateway-core/src/concurrency.rs:147-186 | In every reachable state below the cap, a queue shorter than the limit takes one more Normal waiter, at its end |
| `Wakeups.AdmissionInOrder` | backend/crates/gateway-core/src/concurrency.rs:351-358 | In every reachable state at most one ticket holder per key may try, and nobody, wherever it is queued, passes an earlier waiter of its own class on the key |
| `Drain.BitOperations` | backend/crates/gateway-host/src/serve.rs:12-13 | On 64-bit words the two masks compute exactly the count, the drain test and the draining that the model uses |
| `Drain.StepRefines` | backend/crates/gateway-host/src/serve.rs:42-114 | Each atomic step acts on the pair (draining, live guards): only draining sets the bit, only an undrained registration adds a fresh guard, only a drop removes one, nothing carries or underflows |
| `Drain.PackedWord` | backend/crates/gateway-host/src/serve.rs:12-13 | In every reachable state the word is the number of live guards plus the drain bit iff draining has begun |
| `Drain.OnlyFallsAfterDrain` | backend/crates/gateway-host/src/serve.rs:70-90 | Once draining has begun no registration succeeds and the live guards only shrink, in every continuation |
| `Drain.RefusedOnlyWhenDue` | backend/crates/gateway-host/src/serve.rs:70-75 | In every reachable state registration is refused if and only if draining has begun or the count has no room for one more guard |
| `Drain.RegistrationSucceeds` | backend/crates/gateway-host/src/serve.rs:70-90 | Otherwise a task that loads the word and swaps it gets one fresh guard |
| `Drain.NoLostIdle` | backend/crates/gateway-host/src/serve.rs:50-66 | A waiter parked without a notification while no guard is live implies a notify still due |
| `Drain.IdleWaiterReturns` | backend/crates/gateway-host/src/serve.rs:50-66 | With the guards gone, making that notify and looping once lets a parked waiter return |
| `Drain.ConnectionTracker.BeginDraining` | backend/crates/gateway-host/src/serve.rs:42-48 | The bit is set, the count stays, and waiters are notified iff nothing was active |
| `Drain.ConnectionTracker.TryRegister` | backend/crates/gateway-host/src/serve.rs:70-90 | Against any writes of other tasks, the loop's outcome is decided by one word that was really there: refused iff the drain bit is set or the count is full, otherwise exactly one more |
| `Drain.ConnectionTracker.DropGuard` | backend/crates/gateway-host/src/serve.rs:107-114 | One fewer, the bit untouched, and a notification iff the count reached zero |
| `Channels.ChannelDocument.Advance` | release/published-channels.rb:11-36 | The loop writes what its specification visits, including the slots already written when it raises |
| `Channels.SlotMembership` | release/published-channels.rb:13-22 | A version reaches exactly the channels of its major that accept something at most as stable, or its own experimental slot |
| `Channels.Precedence` | release/release-metadata.rb:23-25 | One version sorts below another exactly when the first of major, minor, patch and pre-release that differs says so, identifiers as text, then numbers, pre-releases before the release; build metadata never counts |
| `Channels.AdvanceWrites` | release/published-channels.rb:23-35 | A call raises iff some slot holds another version of equal key; otherwise each of the version's slots is raised to it iff empty or lower, and no other slot changes |
| `Channels.VisitAnswers` | release/published-channels.rb:25-35 | The answer is true exactly when the table changed; a refusal names a stored release of equal key that is another one |
| `Channels.RaiseKeepsEarlier` | release/published-channels.rb:25-34 | A call that raises has done exactly what it does for the slots before the obstacle |
| `Channels.FoldHoldsMaxima` | release/published-channels.rb:11-36 | Over a conflict-free list no call raises, and each slot holds a largest version among those that reach it |
| `Channels.OrderIndependent` | release/published-channels.rb:11-36 | Conflict-free lists with the same versions, in any order and with any repetition, fold to the same table |
| `Channels.EveryOrderFoldsIffConflictFree` | release/published-channels.rb:23-32 | Every ordering of a list folds without raising if and only if no two of its releases share a sort key |
| `Channels.SkippedConflict` | release/published-channels.rb:23-32 | A conflicting pair raises when folded in a row, and passes with a third version in between if and only if that one is above the pair and reaches every slot of it |
| `Channels.FoldKeepsLadder` | release/published-channels.rb:13-22 | On every major, stable is never above rc, rc never above beta, beta never above alpha, after any fold that does not raise |
| `Publication.Publisher.Save` | release/published-channels.rb:63-76 | The pointer release takes exactly the given current and pending, and the publisher's copy agrees |
| `Publication.Publisher.Finish` | release/published-channels.rb:149-157 | Succeeds iff the sealed public release is current already or is the reserved snapshot; then current moves to it and the reservation is cleared, otherwise nothing changes |
| `Publication.Publisher.Prepare` | release/published-channels.rb:132-147 | An owed reservation is folded in first; then the new version is reserved iff it is not public, the previous table is readable, advancing does not raise and the client accepts the size; a refusal changes at most the owed fold |
| `Publication.CurrentSnapshot` | release/published-channels.rb:115-157 | In every crash-interrupted run, current's snapshot is the fold of all finished versions on the bootstrap base, and a reserved snapshot is that table advanced by its version |
| `Publication.CurrentHoldsMaxima` | release/published-channels.rb:115-157 | So, without conflicts, each channel current lists is a largest release that reaches it |
| `Publication.NeverDisplaced` | release/published-channels.rb:132-157 | A version made public while reserved stays public and is folded in or still reserved and finishable, in every continuation |
| `Publication.FoldedIsPublic` | release/published-channels.rb:82-85 | Whatever is folded in, and so whatever current names, is public |
| `Publication.OwedCanBeFinished` | release/published-channels.rb:133-135 | Wherever a job crashed, the owed reservation can be finished, and the next snapshot then starts from its table |
| `Publication.ReservableIff` | release/published-channels.rb:132-146 | In every reachable state an idle job can reserve a version if and only if nothing is owed, the version is not public and advancing the fold of all finished versions by it does not raise; an abandoned reservation is no obstacle |
| `Publication.PublicationGoesThrough` | release/published-channels.rb:132-157 | After any crash, any version that is not public and does not conflict can be reserved, uploaded, made public and folded in, after what was owed |
| `Backup.CrashSafety` | backend/crates/gateway-admin/src/backup/task.rs:212-571 | With a crash allowed between any two port calls, every remote object's key has exactly one record, and a completed record's object has the persisted size and sha256 |
| `Backup.RecoveryFinishes` | backend/crates/gateway-admin/src/backup/task.rs:212-313 | Wherever a crash left a record, one further cycle can finish it: completed if the archive survived in staging or as persisted remotely, failed otherwise |
| `Backup.QueuedCompletes` | backend/crates/gateway-admin/src/backup/task.rs:343-440 | A queued record is completed with the dumped metadata, its object stored and its staging gone, if no port fails |
| `Backup.DeletionCompletes` | backend/crates/gateway-admin/src/backup/task.rs:685-702 | A record to be deleted goes together with its object, if no port fails |
| `Backup.StepKeepsOwners` | backend/crates/gateway-admin/src/backup/task.rs:685-702 | No step, deletions included, leaves a remote object without a record |
| `Backup.StepKeepsRow` | backend/crates/gateway-admin/src/backup/task.rs:443-571 | Every step keeps what each status promises: metadata present while uploading and equal to staging, and equal to the object once completed |
| `Backup.TransitionIsCompareAndSet` | backend/crates/gateway-store/src/postgres/backup.rs:473-518 | A record not in the expected status is left alone; otherwise its status and the given metadata change, and nothing else |
| `BackupWorker.BackupTaskWorker.UploadAndVerify` | backend/crates/gateway-admin/src/backup/task.rs:443-554 | Completed iff the upload succeeded and the store shows what was sent; a doubtful object is deleted, a missing one is not; the calls made are a run of the crash machine |
| `BackupWorker.AttemptOutcome` | backend/crates/gateway-admin/src/backup/task.rs:459-571 | What an upload attempt leaves under the record's key: the archive if verified, nothing if cleaned up, otherwise what was there or was stored; other objects are untouched |
| `BackupWorker.BackupTaskWorker.RecoverDumping` | backend/crates/gateway-admin/src/backup/task.rs:212-255 | A complete staged archive is persisted and uploaded, otherwise the record fails; the calls made are a run of the crash machine |
| `BackupWorker.BackupTaskWorker.RecoverUploading` | backend/crates/gateway-admin/src/backup/task.rs:258-313 | A matching remote object completes the record, else a staged archive equal to the persisted metadata is sent again, else the record fails |
| `BackupWorker.BackupTaskWorker.ProcessTask` | backend/crates/gateway-admin/src/backup/task.rs:343-440 | A claimed record ends completed iff dump, upload and verification all succeeded, failed otherwise, with its metadata, object and staging as the port answers imply |
| `BackupWorker.BackupTaskWorker.FailUploadedTask` | backend/crates/gateway-admin/src/backup/task.rs:556-571 | The record fails whatever the object deletion does |
| `BackupWorker.BackupTaskWorker.FailTask` | backend/crates/gateway-admin/src/backup/task.rs:574-600 | The record fails from its own status, keeps its metadata, and its staging is cleaned if that works |
| `BackupWorker.BackupTaskWorker.FinalizeDeletion` | backend/crates/gateway-admin/src/backup/task.rs:685-702 | The record goes only after its object is known to be deleted |
| `BackupWorker.CrashAnywhere` | backend/crates/gateway-admin/src/backup/task.rs:368-440 | Cutting the worker's calls short anywhere and crashing leaves a reachable state with an idle worker that satisfies crash safety |
| `Session.SupersededTurn` | frontend/src/stores/modules/auth.ts:66-96 | A turn of an operation whose revision is not current changes no authentication state, no revision and no other operation |
| `Session.SupersededForever` | frontend/src/stores/modules/auth.ts:66-148 | In every run, an operation that has been superseded changes neither the views nor the revision nor begins anything at any later turn, whatever else is begun in between |
| `Session.InvalidationHolds` | frontend/src/stores/modules/auth.ts:150-156 | After `invalidateSession`, no later turn of anything that was in flight changes the views, whatever is begun since; while nothing is begun they stay logged out and not loading |
| `SessionViews.ViewsSayWhatWasSaid` | frontend/src/stores/modules/auth.ts:66-156 | In every reachable state the views show what has been said: an accepted login, a refused one, a returned logout, a status, a 401, a broken answer, each if its operation was the newest and not invalidated when it came, and every invalidation |
| `SessionViews.CurrentIsNewest` | frontend/src/stores/modules/auth.ts:66-103 | An operation holds the current revision exactly when it is the newest one and nothing has been invalidated since it began |
| `SessionViews.CurrentChangeDecides` | frontend/src/stores/modules/auth.ts:114-148 | The return of a current login or logout leaves the views logged in exactly when it is an accepted login |
| `SessionViews.CheckGoesOn` | frontend/src/stores/modules/auth.ts:40-44 | An answered check begins a refresh, and waits for it, exactly when it is current and the views say that nobody is logged in |
| `SessionViews.RequestsJoin` | frontend/src/stores/modules/auth.ts:31-64 | A request to refresh, or to check, calls the server exactly when nothing is loading and no refresh, or neither, begun since the last login, logout or invalidation is under way; otherwise it changes nothing |
| `Session.CookieCallsAreSerial` | frontend/src/stores/modules/auth.ts:99-112 | When a login or logout has called the server, every login, logout and refresh begun before it has settled |
| `Session.OverlapIsSuperseded` | frontend/src/stores/modules/auth.ts:99-112 | Whenever two cookie-setting calls are under way at once, the later is a refresh and the earlier, a login or logout sent late included, has been superseded |
| `Session.RefreshBeginsPastSuperseded` | frontend/src/stores/modules/auth.ts:52-64 | A refresh begins beside a login, logout or refresh that is pending, waiting ones included, only if that one has been superseded before |
| `SessionOverlap.IdleInvalidationsNeverOverlap` | frontend/src/stores/modules/auth.ts:99-156 | On every run whose invalidations find no login, logout or refresh pending, no two cookie-setting calls are ever under way at once |
| `SessionOverlap.InvalidationOverlapsIffPending` | frontend/src/stores/modules/auth.ts:150-156 | From any reachable state, an invalidation, a refresh and answers to what is under way can make two cookie-setting calls overlap if and only if one was pending before the invalidation |
| `SessionOverlap.WaitingLoginOverlaps` | frontend/src/stores/modules/auth.ts:99-112 | A run in which a login superseded while it waits is sent beside a refresh begun after it |
| `SessionOverlap.InvalidationAllowsOverlap` | frontend/src/stores/modules/auth.ts:150-156 | A cookie-setting call that has started is overlapped at once by an invalidation and a refresh |
| `Session.LoadingIsOwned` | frontend/src/stores/modules/auth.ts:99-109 | `loading` is on exactly while some unsettled login or logout holds the current revision |
| `Session.LoadingEnds` | frontend/src/stores/modules/auth.ts:99-148 | From any reachable loading state, answers to the calls already under way end it |
| `Session.LoadingNeverSticks` | frontend/src/stores/modules/auth.ts:99-148 | From any reachable loading state, however the calls under way are answered, the turns that can follow are bounded, and when none is left loading is off |
| `Session.SessionStore.BeginTransition` | frontend/src/stores/modules/auth.ts:99-112 | One turn: pending checks dropped, a new revision, loading on, and the change waits for the last change and all earlier refreshes |
| `Session.SessionStore.LoadAnswers` | frontend/src/stores/modules/auth.ts:69-95 | One turn: a stale answer writes nothing, a 401 means logged out, a broken answer is no evidence of a logout |
| `Session.SessionStore.CheckContinues` | frontend/src/stores/modules/auth.ts:40-44 | One turn: only a current, unauthenticated check outside a transition chains a refresh |
| `Session.SessionStore.ChangeReturns` | frontend/src/stores/modules/auth.ts:114-148 | One turn: only the current login or logout writes its outcome |
| `Recovery.OneRecoveryInFlight` | frontend/src/api/request.ts:111-131 | Unfinished recoveries of the current generation are one and the same, and the success count is the number of that generation's successful ones |
| `Recovery.StaleRecoveryIsInert` | frontend/src/api/request.ts:116-125 | A recovery of an older generation neither bumps the count nor clears a newer recovery nor touches a request |
| `Recovery.NoSecondRecovery` | frontend/src/api/request.ts:111-131 | A request stamped before a recovery succeeded never starts another one in that generation |
| `Recovery.StaleRequestsDie` | frontend/src/api/request.ts:75-109 | After the session changes, a request stamped before is never delivered and never sent again |
| `Recovery.SentAtMostThrice` | frontend/src/api/request.ts:176-209 | Each logical request goes out at most three times, and each extra time spends its own retry flag |
| `RecoveryProgress.DeliveredIff` | frontend/src/api/request.ts:86-94 | A response is delivered if and only if it is a success and the session is still the request's own |
| `RecoveryProgress.RejectedIff` | frontend/src/api/request.ts:176-209 | A request is given up on a response if and only if the session has changed or the response earns it no further attempt |
| `RecoveryProgress.StartDelivers` | frontend/src/api/request.ts:75-94 | From any reachable state a request about to start goes out once, after the recovery it has to wait for, and is delivered on success |
| `RecoveryProgress.RecoveredRequestDelivers` | frontend/src/api/request.ts:111-131 | From any reachable state an ordinary request that finds the session expired, after a recovery that succeeds, is sent once more and delivered on success |
| `RecoveryProgress.TransientFailureDelivers` | frontend/src/api/request.ts:199-204 | One transient failure of an idempotent request costs one pause and one more send |
| `RecoveryProgress.RecoveryStartsIff` | frontend/src/api/request.ts:111-131 | A request that finds the session expired starts a recovery if and only if none is under way and none has succeeded since the request was first sent on its way |
| `RecoveryProgress.RetriesAreEarned` | frontend/src/api/request.ts:75-84 | In every reachable state a session call waits for no recovery and is not retried for one, and a request that is not idempotent is not retried for a transient failure |
| `Recovery.RequestLayer.RecoverSession` | frontend/src/api/request.ts:111-131 | A recovery starts iff none is running and none has succeeded since the stamp; otherwise the running one is joined or the retry is immediate |
| `Recovery.RequestLayer.InterceptResponse` | frontend/src/api/request.ts:86-209 | One turn: stale responses are refused, successes delivered, an expired session recovered once, a transient failure of an idempotent request retried once |
| `Recovery.RequestLayer.HandlerAnswered` | frontend/src/api/request.ts:116-122 | One turn: only a success of the current generation is counted; a stale one counts as denied |
| `Lease.LeaseSafety` | backend/crates/gateway-store/src/lease_renewal.rs:16-70 | After the first successful renewal, until the explicit deadline, the request has been cancelled or the server's lease is live, or the clock stands at the local expiry with the loop's expiry due before time goes on; the local expiry is never later than the server's |
| `Lease.LeaseSafetyFromGrant` | backend/crates/gateway-store/src/lease_renewal.rs:30-31 | The same from the start when the grant reached at least as far as the loop assumes when it is spawned |
| `Lease.GrantDecidesSafety` | backend/crates/gateway-store/src/lease_renewal.rs:30-31 | Every run is so guarded from the start if and only if the grant reaches the initial local expiry or the deadline has passed at the spawn |
| `Lease.LocalExpiry` | backend/crates/gateway-store/src/lease_renewal.rs:30-47 | The local expiry never decreases over a run and never passes the explicit deadline of a request that started before it |
| `Lease.CancellationIsTimely` | backend/crates/gateway-store/src/lease_renewal.rs:64-73 | No lease failure is reported once the deadline has elapsed, and the first cancellation reason is final |
| `Lease.CancelledForCause` | backend/crates/gateway-store/src/lease_renewal.rs:36-73 | In every run a request is cancelled as lost only when the server's lease is over, and as expired or timed out only when a whole lease has gone by since the last successful renewal, or the spawn, began |
| `Lease.UntilIsMonotone` | backend/crates/gateway-core/src/lifecycle.rs:180-197 | A later renewal never earns an earlier expiry, and none earns one past the deadline |
| `Lease.UntilIsGreatest` | backend/crates/gateway-core/src/lifecycle.rs:186-197 | Before the deadline a renewal earns the greatest expiry that is within a lease and not past the deadline |
| `Lease.RenewLoop` | backend/crates/gateway-store/src/lease_renewal.rs:30-75 | Against any script of renewals the loop makes a run of the lease machine and ends as that run does: never past its local expiry, which never passes a confirmed server expiry; each failure is reported for its own cause; cancellation iff it ended before the deadline, and none as long as the server replies in less than a third of a lease |
| `Schedule.LastFiringAtOrBefore` | backend/crates/gateway-admin/src/backup/policy.rs:45-78 | Returns the greatest firing in the window up to the minute (None if there is none), if and only if something fires after the minute, the minute itself fires, or nothing in the window does; in every other case it answers None |
| `Schedule.DueCycle` | backend/crates/gateway-admin/src/backup/task.rs:136-187 | A cycle that is due has the last firing recorded and moves the cursor to the next one |
| `Schedule.IdleCycle` | backend/crates/gateway-admin/src/backup/task.rs:126-147 | Before the cursor a cycle does nothing, and without a cursor it only sets it |
| `Schedule.InsertsAreDue` | backend/crates/gateway-admin/src/backup/task.rs:136-178 | What is inserted is a firing between the cursor and the clock that has no record yet |
| `Schedule.ExhaustedSchedule` | backend/crates/gateway-admin/src/backup/policy.rs:65-77 | A schedule with one past firing meets that condition's exception |
| `Schedule.ScheduledTimesIncrease` | backend/crates/gateway-admin/src/backup/task.rs:111-189 | Scheduled times of inserted records strictly increase over every run with crashes and deletions, exactly for schedules that never run out or never fire |
| `Schedule.RepeatedBackup` | backend/crates/gateway-admin/src/backup/task.rs:180-187 | For every schedule with a last firing, a run in the order of the worker's cycle that inserts that firing again after its record has been deleted |
| `Retention.DecideRetention` | backend/crates/gateway-admin/src/backup/policy.rs:129-163 | A page's decisions are those of the whole list restricted to the page's positions |
| `Retention.RunRetention` | backend/crates/gateway-admin/src/backup/task.rs:635-668 | The paged loop collects exactly the first ten decisions of the whole list, and none if and only if the token is cancelled before a page it gets as far as reading (or there is nothing to decide) |
| `Retention.DecidedExactly` | backend/crates/gateway-admin/src/backup/policy.rs:137-161 | A record is decided iff it is completed, not at position 0, and completed the given number of days ago or longer, or at a position beyond the count |
| `Retention.ReasonIsAge` | backend/crates/gateway-admin/src/backup/policy.rs:146-158 | Age is the reason exactly for the records that are old enough, whatever the count rule says |
| `Retention.OlderGoesFirst` | backend/crates/gateway-admin/src/backup/policy.rs:146-149 | Under the day rule alone whatever was completed before a decided record is decided too, except the newest |
| `Retention.NewestIsKept` | backend/crates/gateway-admin/src/backup/policy.rs:142-145 | No pass ever decides the newest scheduled backup |
| `Retention.PassRemoves` | backend/crates/gateway-admin/src/backup/task.rs:635-681 | Under a count rule one pass removes exactly the ten records that follow the newest `count` |
| `Retention.PassesConverge` | backend/crates/gateway-admin/src/backup/task.rs:610-682 | Under a count rule repeated passes end with exactly the newest `count` records |
| `Events.EventSequenceValidator.Observe` | backend/crates/gateway-core/src/event.rs:1026-1064 | The verdict and new state of the step function, errors in the source's order of precedence |
| `Events.EventSequenceValidator.Finish` | backend/crates/gateway-core/src/event.rs:1071-1079 | MissingStarted before MissingCompleted, and success iff both were seen |
| `Events.RejectionNamed` | backend/crates/gateway-core/src/event.rs:1026-1064 | Which error the event after an accepted stream is refused with, in terms of that stream alone |
| `Events.FinishErrorNamed` | backend/crates/gateway-core/src/event.rs:1071-1079 | An accepted stream may end exactly when its last event is Completed; an empty one has not started, any other has not completed |
| `Events.RejectionEffect` | backend/crates/gateway-core/src/event.rs:1041-1046 | A rejected event changes the state if and only if the stream is open and it gives a known content index another kind |
| `Events.OverwrittenKind` | backend/crates/gateway-core/src/event.rs:1041-1046 | For any index and two kinds, a reachable state in which a refused event replaces the stored kind, so that afterwards exactly the refused kind is accepted |
| `Events.AcceptsIffInOrder` | backend/crates/gateway-core/src/event.rs:1026-1064 | The validator accepts a stream iff each event is in order: Started first and once, distinct indexes, deltas after a matching ContentAdded, nothing after Completed |
| `Events.ValidatorDecidesContract` | backend/crates/gateway-core/src/event.rs:1020-1079 | A stream passes `observe` throughout and `finish` at the end iff it meets the whole contract |
| `Events.AcceptsIffExtendable` | backend/crates/gateway-core/src/event.rs:1026-1064 | A prefix is accepted iff some valid stream continues it, so the first error comes at the earliest possible event |
| `Decimals.CanonicalIffEqual` | backend/crates/gateway-store/src/value.rs:183-208 | Two accepted strings have the same canonical form iff they denote the same number of 10^-10 units |
| `Decimals.AcceptedIffReads` | backend/crates/gateway-store/src/value.rs:177-195 | Exactly the strings are accepted that read as white space, digits within the limit, an optional point with one to ten digits, white space |
| `Decimals.CanonicalShape` | backend/crates/gateway-store/src/value.rs:197-206 | The canonical form denotes the same amount, without leading zeros, trailing zeros or an empty fraction |
| `Decimals.AmountAndBound` | backend/crates/gateway-store/src/value.rs:186-195 | The amount is its whole part scaled plus its padded fraction, and lies below the numeric bound of its type |
| `Decimals.NumericBounds` | backend/crates/gateway-admin/src/model/accounts.rs:300-312 | Accepted amounts of the two types lie below 10^20 and 10^40 units, as numeric(20,10) and numeric(40,10) require |
| `Decimals.CanonicalIsStable` | backend/crates/gateway-admin/src/model/accounts.rs:300-323 | A canonical form is accepted again and canonicalizes to itself, for either digit limit |
| `Layout.FitsTwoRows` | frontend/src/components/account-group-layout.ts:3-16 | The early-exit loop equals the greedy pass; for positive widths some split fits two rows iff it says so and no label is wider than a row |
| `Layout.GreedyIsOptimal` | frontend/src/components/account-group-layout.ts:3-16 | For positive widths some split into two rows fits if and only if the greedy pass says so and no label is wider than a row |
| `Layout.OverwideLabelPasses` | frontend/src/components/account-group-layout.ts:3-16 | One label wider than the row passes the test although no split fits |
| `Layout.AccountGroupLayout` | frontend/src/components/account-group-layout.ts:18-35 | All labels iff they fit clamped to a row; otherwise the prefixes that any arrangement can show beside the marker are exactly those up to `count`, over-wide single labels aside |
| `Layout.LimitLeavesRoom` | frontend/src/components/account-group-layout.ts:24-25 | Unless it is one pixel, the width labels are clamped to is the greatest at which a label and the marker share a row |
| `Layout.ClampedWidths` | frontend/src/components/account-group-layout.ts:21-29 | Clamping shortens the wider labels to the limit and leaves the others alone |
| `Layout.CountIsLargest` | frontend/src/components/account-group-layout.ts:25-34 | Stopping at the first refused prefix gives the largest prefix, since no longer one fits again |
| `Layout.OverwideMarkerShown` | frontend/src/components/account-group-layout.ts:25-34 | Three labels in a row of width five fold to one beside a marker of width twenty, which no arrangement fits |
| `Layout.ShownFitsIff` | frontend/src/components/account-group-layout.ts:18-35 | In the overflow branch, for positive widths, the shown prefix and marker fit two rows if and only if the marker is no wider than the row and the row is at least one pixel wide or no narrower than the first label |
| `Layout.NarrowRowShown` | frontend/src/components/account-group-layout.ts:25-34 | An input whose marker fits the row while the one label shown is wider than it |

## Left out

- `Backup`: the daemon loop's order of phases and its sleeping; any idle worker may take up any record that needs it, which includes that order.
- `Backup`: incomplete storage settings and the refusal of old archive names are a failed dump or a crash, whose effect on the ports they share.
- `BackupWorker`: reading settings between port calls, error codes, messages and timestamps of records.
- `Schedule`: cron parsing, time zones and instants outside the calendar library's range; changes of the schedule settings while the worker runs.
- `Retention`: deletion of records whose own `expires_at` has passed, which ignores the rule that keeps the newest; the saturation of 64-bit positions.
- `WaitQueue`: mutex poisoning, and a scoring callback that changes between calls; `elapsed` and the pass-through accessors.
- `Wakeups`: the timers in `turn`, `retry` and `retry_or_recheck`; a poll that a timer causes or cuts short may happen at any time (`BeginPoll`, `Abandon`).
- `Drain`: the cancellation token that draining also fires, and weak memory ordering.
- `Channels.ChannelDocument.Advance`: the nested tables are one map from slots, so tables left empty are not represented.
- `Publication`: assets other than the snapshot, and the recovery workflow beyond its call of `finish`.
- `Session`: which value the promises of joined checks resolve to, and the reset of the once-only logout notice.
- `Recovery`: `sessionFetch`, the unauthorized notice and toasts; a recovery handler is installed throughout.
- `Lease`: removal of the server's lease by anybody but its expiry, and guards without a cancellation token.
- `Lease.LeaseSafety`: before the first successful renewal nothing is promised about the server's lease, because the local expiry is anchored at the spawn and not at the grant; `Lease.GrantDecidesSafety` says what the grant must meet.
- `Events`: payloads of events, which the validator does not read.
- `Decimals`: the string order of `Ord`, arithmetic and serialization of amounts.
- `Layout`: floating-point rounding, and labels of zero width.
- HTTP routing, provider adapters, database, cache, mail and object-store clients, user interface, deployment and scanning scripts: effects on external systems, or easy members.
