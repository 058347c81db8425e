# Notification delivery: a verified model

This project models the behaviour of an event-driven notification service and proves what it
guarantees. An API process creates notifications (singly or in batches), workers claim and send them,
users cancel them, and reconcilers rescue the ones that got stuck. All of them change one database row
through two guarded writes: an atomic claim (`queued|retrying -> processing`, `attempts + 1`) and an
update that compares nothing but the status. Everything else is outside that guard: the copies that
actors hold in memory, the provider call, the rate limiter, the log and the queue.

## The lifecycle as a protocol

`Protocol` describes the life of one notification: a row, a log, and any number of actors, each at a
program counter with a possibly stale copy of the row. One step is one port call. A call may fail, a
write may commit and still be reported as failed, an actor may stop between any two calls, clock
readings are arbitrary, and a worker may appear at any time, which covers every loss, duplication and
reordering of queue tasks. `History` counts claims, sends, successes, denials, committed moves, log
events, tasks put on the queue, broadcasts and hints to drop a task. A run is a list of cells from the empty one on, each reached from the one before by one step;
`Guarantees`, `Attempts`, `SafetyNet` and `StaleCopies` are statements about every run of every length
(`Witnesses` builds the runs that show what can happen). The
invariant behind them (`Invariant`, kept by every step in `Preservation`) tallies the actors at each
kind of program counter and relates these numbers to the row and its history.

`Ports.World` puts this under the code. Each of its methods is one port call: others take any number
of steps first, then the caller takes exactly the protocol step of its program counter, and the ghost
field `runs` records everything. `Domain.Notification` is the mutable entity. The methods of
`UseCases`, `Reconcile` and `Batch` follow the Go functions of the same names line by line; they verify
because their control flow and their mutations are those of the protocol, so whatever holds of every
run holds of them (`Assurance`, `Lasting`). `World.Interfere` stands for the steps of everybody else: callers see only its
contract, and `OthersKeepMine` shows that the contract admits every step of another actor. Two
constants restrict a world where a statement needs it: in an `alone` world nobody else takes a step, in
a `reliable` world no port call fails.

`Draining` and the last part of `Batch` are about the notifications table over several reconciler
passes, starting from what `Reconcile.Execute` guarantees of one. `Ticker` is the reconciler process that
makes these passes: its loop is verified against both the bound on the counters, in every schedule, and
the draining of the backlog, when it has the world to itself.

## Other components

- `RetryPolicy`: exponential backoff with jitter in int64 arithmetic, set against the sweep threshold.
- `Base64`, `Timestamps`, `Cursor`: the opaque page cursor (section 5 of RFC 4648, section 5.6 of
  RFC 3339), printer and parser.
- `Keyset`: listing page by page with that cursor, on changing and unchanging tables.
- `Hub`: the WebSocket hub's two mirrored maps as one set of subscriptions.
- `RateLimiter`: the fixed-window counter in Redis, over whole runs of calls.
- `Idempotency`: the capturing writer, the middleware, and whole runs of requests.
- `Domain`, `Sweeps`, `Tables`, `Collections`: shared vocabulary.

## What turned out false

- "Attempts never exceed five" does not hold: a rate-limit denial goes to retrying without looking at
  attempts. `ReachableNumbers` says exactly which numbers of attempts, denials and sends a live
  notification can have: attempts reach every value of their column, and they stay within five in all
  runs with at most d denials if and only if d is zero (`FiveAttemptsExactlyWithoutDenials`).
- "Failed means that nothing will be sent" does not hold: `FailedMaySendExactlyWhenClaimed` says exactly
  when a failed notification may still be sent, and `FailedMayBeSentLater` gives a run that gets there.
- "An accepted message is recorded as delivered" does not hold: a worker may stop between the provider's
  answer and its write (`AcceptedMayBeFailed` gives a run). `AcceptedIsRecordedUnlessTimedOut` says that
  an accepted message ends as failed if and only if the stuck sweep failed it.
- "The stuck sweep fails the claim it saw" does not hold: the guard compares the status only, and
  `StaleSweepFailsFreshClaim` is a run in which a stale sweep fails a claim made a moment ago.
  `SweepHitsTheRowItSelected` says exactly when the row is still the one selected.
- The documented schedule `30s * 2^(n-1)` holds exactly up to attempt 29 (`BackoffExactUpTo29`); from
  there on the int64 product wraps around.
- The queue's own retry is ahead of the overdue sweep exactly while the backoff is no longer than the
  sweep's ten minutes (`RetriesBeatTheSweepExactly`): among attempts up to 29, exactly up to attempt 5. At
  attempt 30 the product is negative and the retry is due at once (`AttemptThirtyIsDueAtOnce`).
- A caller that waits for Retry-After may still meet the window that denied it when Redis keeps a key
  through its last millisecond and a whole number of seconds was left (`WaitingLeavesTheWindow`, with an
  instance in `WaitingMayNotLeaveTheWindow`).
- A handler that starts with an informational status is captured with that status: its final status is
  lost and its response is never cached (`CapturedIsSentUnlessInformational`, `EarlyHintsRunTwice`).
- "A replay repeats the first response" does not hold of the content type: the cache keeps the one in the
  header map when the handler returns, the client got the one at its first final call
  (`CachedTypeIsSentUnlessSetLate`, `TypeSetTooLate`).

## Model

| member | source | states |
|---|---|---|
| Domain.PathShape | internal/domain/status.go:35-40 | on any path of the adjacency map from pending, a terminal status ends the path, pending and queued are visited once, and every outcome comes after queued and processing |
| Domain.Notification.Transition | internal/domain/notification.go:221-229 | legal exactly on the nine edges of the lifecycle; then changes status and timestamp and no other column, otherwise nothing |
| Domain.Notification.MarkQueued | internal/domain/notification.go:161-166 | legal exactly from pending; an illegal call changes nothing |
| Domain.Notification.MarkProcessing | internal/domain/notification.go:170-174 | legal exactly from queued or retrying; the only mark that counts an attempt |
| Domain.Notification.MarkDelivered | internal/domain/notification.go:179-183 | legal exactly from processing; the entity is delivered at the given time with an empty last error and its other columns as before |
| Domain.Notification.MarkFailed | internal/domain/notification.go:188-192 | legal exactly from processing; the entity is failed at the given time, its last error is the reason, and its other columns are as before |
| Domain.Notification.MarkRetrying | internal/domain/notification.go:198-204 | legal exactly from processing; last error is the reason and next_retry_at the given time, all else but status and timestamp as before |
| Domain.Notification.Cancel | internal/domain/notification.go:209-216 | legal exactly from pending, queued and retrying; counters and last error survive |
| RetryPolicy.BackoffExactUpTo29 | internal/application/process_notification.go:349-354 | the int64 code computes 30s times a power of two if and only if the attempt is at most 29 |
| RetryPolicy.JitterWithinBounds | cmd/worker/main.go:246-255 | up to attempt 29, and for counts below 1, the jittered delay is base plus draw without overflow, never shorter than the base and less than 30s longer |
| RetryPolicy.DelaysExactly | cmd/worker/main.go:228-255 | up to attempt 29 the possible delays are, in nanoseconds, exactly those from the base (one second after a denial, 30 s times a power of two otherwise) up to the base plus 30 s, or to twice the base if that is less |
| RetryPolicy.BackoffDoubles | internal/application/process_notification.go:349-354 | each later attempt up to 29 waits at least twice as long as any earlier one |
| RetryPolicy.LaterAttemptsWaitLonger | cmd/worker/main.go:228-255 | for all draws and every cause but a rate-limit denial, whose delay does not grow, the delay of attempt n is strictly below that of attempt m, for 1 <= n < m <= 29 |
| RetryPolicy.RetriesBeatTheSweepExactly | internal/application/reconcile_stuck_notifications.go:19-29 | for every n, the queue's retry, measured from the row write, is due before the row can satisfy the overdue sweep, for all causes, row attempts and draws, if and only if the int64 backoff is at most ten minutes |
| RetryPolicy.RetriesBeatTheSweepUpTo5 | internal/application/reconcile_stuck_notifications.go:19-29 | among n <= 29, before products wrap, that means if and only if n <= 5 |
| RetryPolicy.AttemptThirtyIsDueAtOnce | internal/application/process_notification.go:349-354 | the first wrapped product is -2340616713709551616: no jitter is drawn and the retry is due at once |
| Preservation.InvStep | internal/application/process_notification.go:106-158 | every step of every actor keeps the invariant that ties row, history and program counters together |
| Preservation.InvReachable | internal/adapters/postgres/sqlc/notifications.sql.go:505-515 | every cell of every run satisfies that invariant |
| Guarantees.SoleOwner | internal/application/process_notification.go:106-158 | at most one worker stands between claim and status write; it holds the number of the last claim, and the row is processing or failed |
| Guarantees.AttemptsCountClaims | internal/adapters/postgres/sqlc/notifications.sql.go:14-23 | attempts equal the committed claims while the notification is alive and never exceed them afterwards |
| Guarantees.WriteLandsOnOwnClaim | internal/adapters/postgres/sqlc/notifications.sql.go:505-515 | although the guard compares only the status, a worker's write can only land on the claim that this worker made |
| Guarantees.BoundedSends | internal/application/process_notification.go:138-199 | every run has at most five sends and one success; claims are sends plus denials or one more, and at most five more than the denials |
| Attempts.ClaimsFitTheColumn | internal/adapters/postgres/sqlc/notifications.sql.go:14-23 | in every run the claims, and with them a live row's attempts, stay within the INTEGER column |
| Attempts.ReachableNumbers | internal/application/process_notification.go:275-291 | a live notification with a attempts, d denials and s sends is reachable if and only if d + s <= a <= d + s + 1, a <= d + 5 and a fits the column |
| Attempts.AttemptsReachTheColumn | internal/application/process_notification.go:138-144 | a live row with a attempts is reachable if and only if a fits the column: denials make attempts grow without other bound |
| Attempts.FiveAttemptsExactlyWithoutDenials | internal/application/process_notification.go:192-199 | all runs with at most d denials keep attempts within five if and only if d is zero |
| Guarantees.HistoryCounts | internal/application/process_notification.go:106-158 | sends, successes, denials, claims, queued tasks, broadcasts and hints are counted by exactly the steps they are named after, for every step of every actor |
| Guarantees.ClaimCommits | internal/adapters/postgres/sqlc/notifications.sql.go:14-23 | a claim that is not refused commits exactly for queued and retrying rows whose attempts can still grow, even if its acknowledgement is lost |
| Guarantees.InsertCommits | internal/adapters/postgres/notification_repository.go:57-66 | an insert that is not refused stores its entity exactly when the id is free |
| Guarantees.StartsAndCrashes | internal/application/process_notification.go:106-158 | a use case may start at any time and its actor may stop at any time: no run leaves out a redelivery or a crash |
| Ports.EnabledApplies | internal/application/process_notification.go:106-158 | the next port call of an actor can always be taken, with any outcome, whatever others have done |
| Guarantees.AppendAdds | internal/application/process_notification.go:326-345 | an append that is not refused adds exactly the entry of its place in the code |
| Guarantees.WriteCommits | internal/adapters/postgres/sqlc/notifications.sql.go:505-515 | a status write that is not refused commits exactly when the stored status is the expected one, and then stores five columns of the entity and keeps the others |
| Guarantees.DeliveredMeansSent | internal/application/process_notification.go:204-219 | a delivered row was accepted by the provider exactly once |
| Guarantees.AcceptedIsRecordedUnlessTimedOut | internal/application/process_notification.go:178-219 | once the provider has accepted the message the row is processing, delivered or failed, and it is failed if and only if the stuck sweep failed it |
| Guarantees.AtMostOneDelivery | internal/application/process_notification.go:149-219 | after a send has returned success no send of this notification ever starts again |
| Guarantees.EveryChangeIsLegal | internal/adapters/postgres/notification_repository.go:118-141 | every committed change by any interleaving of stale actors is one of the nine edges; rows are born pending with no attempts and never vanish |
| Guarantees.TerminalRowsAreFrozen | internal/domain/status.go:35-40 | delivered, failed and cancelled rows never change again in any column |
| Guarantees.CancellationIsFinal | internal/application/cancel_notification.go:53-88 | after a cancellation commits no send ever starts, however stale the canceller's copy was and whatever tasks remain |
| Guarantees.TrailAgreesWithRow | internal/application/process_notification.go:326-345 | a log holds at most one created, one queued and one terminal event, no more delivered plus retrying than processing events, and its terminal event names the row's status |
| SafetyNet.RetriesAreScheduled | internal/application/process_notification.go:253-291 | a retrying row always has a next_retry_at, 1 s to 240 s after its updated_at |
| SafetyNet.NoLiveRowEscapes | internal/application/reconcile_stuck_notifications.go:15-41 | a live row unchanged for more than 14 minutes satisfies a sweep predicate if and only if it is not a queued row whose schedule is not yet five minutes past, and then exactly the one of its status |
| SafetyNet.NetDelayIsTight | internal/application/reconcile_stuck_notifications.go:29 | after a fourth transient failure a row satisfies no sweep until 14 minutes have passed, and one a nanosecond later |
| SafetyNet.MovedAtMostOnce | internal/application/reconcile_stuck_notifications.go:198-224 | a row moves processing to failed at most once and pending to queued at most once, and is counted at most as often as reconcilers moved it |
| SafetyNet.LosersChangeNothing | internal/application/cancel_notification.go:60-68 | in every run a cancel request or reconciler's handler that ends with a concurrent update has changed neither the row nor the history in any of its steps |
| SafetyNet.CountersNeverExceedMoves | internal/application/reconcile_stuck_notifications.go:133-161 | summed over any number of overlapping passes, StuckProcessingFailed and OrphanedPendingReenqueued never exceed the rows that really moved |
| Assurance.WorldIsSafe | internal/application/process_notification.go:106-158 | in every world the use cases run in, each notification is within the bounds on sends, successes, claims and terminal log entries |
| Assurance.NothingMoreIsSent | internal/application/cancel_notification.go:53-88 | across any stretch of code and interference, a delivered or cancelled notification is not sent again and a terminal row is not changed |
| Assurance.PassesNeverOvercount | internal/application/reconcile_stuck_notifications.go:133-161 | the counters that any distinct passes returned, each at the moment it ended, add up to at most the rows that have moved by any later moment: those that are failed, and those that are no longer pending |
| StaleCopies.SweepHitsTheRowItSelected | internal/application/reconcile_stuck_notifications.go:216-224 | a processing row is still the row that a sweep selected if and only if the attempts agree |
| StaleCopies.StaleSweepFailsFreshClaim | internal/adapters/postgres/notification_repository.go:275-284 | there is a run in which a sweep fails a claim younger than the row it selected |
| StaleCopies.FailedMaySendExactlyWhenClaimed | internal/application/reconcile_stuck_notifications.go:216-224 | from a failed row another send may start if and only if some worker has claimed it and not yet asked the provider |
| StaleCopies.AcceptedMayBeFailed | internal/application/reconcile_stuck_notifications.go:216-224 | there is a run that ends in a failed row although the provider accepted the message |
| StaleCopies.FailedMayBeSentLater | internal/application/process_notification.go:106-149 | there is a run that ends in a failed row with a worker on its way to the provider, and it continues to a send |
| Sweeps.SweepRules | internal/application/reconcile_stuck_notifications.go:15-41 | a sweep takes exactly the rows of its status whose created_at, updated_at or schedule is more than five minutes, or whose next_retry_at is more than ten minutes, before now |
| Tables.OldestFirst | internal/adapters/postgres/sqlc/notifications.sql.go:119-128 | a sweep's SELECT returns distinct eligible rows, oldest first, and leaves out only rows no older than all it took, only at the limit |
| Tables.SelectionMeans | internal/adapters/postgres/sqlc/notifications.sql.go:119-128 | a selection consists of distinct eligible rows in order of their key; a row left out is no older than any taken, and the limit was reached |
| Ports.OthersKeepMine | internal/adapters/postgres/notification_repository.go:33-38 | no step of one actor touches the program counter, copy or counters of another |
| Ports.World.ClaimForProcessing | internal/adapters/postgres/notification_repository.go:83-107 | success means that the stored row is the returned entity: processing, claimed at the given time, one attempt more and otherwise as before; in a reliable, undisturbed world it succeeds exactly from queued and retrying below the column's maximum |
| Ports.World.UpdateStatus | internal/adapters/postgres/notification_repository.go:118-141 | in every schedule success means that the stored row has status, attempts, last error, retry time and timestamp of the entity, and keeps its creation and schedule; undisturbed it fails for exactly another stored status |
| Ports.World.Select | internal/adapters/postgres/notification_repository.go:261-318 | the caller holds a copy of each row of a selection, in any schedule; the rows themselves are as before |
| Lasting.LogOnlyGrows | internal/application/process_notification.go:337-339 | no entry ever leaves a log |
| Lasting.SignalsKept | internal/application/create_notification.go:130-188 | no task, broadcast or hint is undone: a later moment of a world has had at least as many |
| Lasting.CountedForGood | internal/application/reconcile_stuck_notifications.go:133-161 | a pass that counted a notification, in either counter, has counted it at any later moment |
| Lasting.LoggedForGood | internal/application/process_notification.go:326-345 | an event once logged is in the log at any later moment, exactly once unless it is a processing or retrying event |
| Lasting.LandedForGood | internal/adapters/postgres/notification_repository.go:118-141 | a terminal write is still what the row carries at any later moment, whatever others do |
| UseCases.Process | internal/application/process_notification.go:106-158 | in every schedule success means a delivered row with an empty last error, or a failed one with the provider's reason, by the provider's answer and the five attempts, one log entry and two broadcasts; either sentinel that the row was put back, for one second after a denial and 30, 60, 120 or 240 after a transient failure; on its own with reliable ports it ends in one of these |
| UseCases.Attempt | internal/application/process_notification.go:138-158 | from the rate limiter on: success means a delivered or failed row, either sentinel that the row was put back with the matching delay and the event logged, in every schedule |
| UseCases.ApplyResult | internal/application/process_notification.go:178-199 | the entity becomes what the answer says; success means that the row is delivered or failed as that entity and logged, the transient sentinel that the retrying write was in the row |
| UseCases.MarkDelivered | internal/application/process_notification.go:204-219 | in every schedule success means that the row is delivered at the given time with an empty last error and the entity's attempts, and the log has exactly one delivered event |
| UseCases.MarkFailed | internal/application/process_notification.go:224-248 | in every schedule success means that the row is failed at the given time with the provider's reason and the entity's attempts, and the log has exactly one failed event |
| UseCases.MarkRetrying | internal/application/process_notification.go:253-270 | never plain success: the transient sentinel means that the write with its backoff was in the row and the event is logged |
| UseCases.RescheduleForRateLimit | internal/application/process_notification.go:275-291 | never plain success: the rate-limit sentinel means that the write with its one-second delay was in the row and the event is logged |
| UseCases.RecordEvent | internal/application/process_notification.go:326-345 | success means that the event is in the log and a status update was published after it |
| UseCases.CommitCancel | internal/application/cancel_notification.go:66-86 | the guarded write, entry and hint: in every schedule success means a cancelled row with the entity's columns and one entry, for good, and that the queue was asked to drop the task |
| UseCases.Cancel | internal/application/cancel_notification.go:53-88 | in every schedule success means that the row is cancelled at the given time, the log has exactly one cancelled event and the queue was asked to drop the task; undisturbed all other columns are as before, and with reliable ports it succeeds exactly from pending, queued and retrying |
| UseCases.Create | internal/application/create_notification.go:84-160 | in every schedule success means that the row was stored as the returned queued entity, with no attempts, no error and the given schedule, its task was enqueued, and created and queued are logged once; on its own a failure leaves no row, or a pending or queued one |
| UseCases.MarkQueued | internal/application/create_notification.go:167-188 | in every schedule success means that the queued write was in the row and the event is logged |
| UseCases.Announce | internal/application/create_batch.go:118-138 | in every schedule success means that the task was enqueued, the row was queued and both events are logged; on its own a failure leaves the row pending or queued |
| Reconcile.HandleOrphanedPending | internal/application/reconcile_stuck_notifications.go:198-212 | the pass counts the row if and only if moving, logging and enqueueing all succeeded; in every schedule that means that the queued write was in the row, its task was put on the queue, and the log has one queued event |
| Reconcile.HandleStuckProcessing | internal/application/reconcile_stuck_notifications.go:216-224 | the pass counts the row if and only if failing and logging it both succeeded; in every schedule that means that the row is failed with worker_timeout for good |
| Reconcile.HandleReenqueue | internal/application/reconcile_stuck_notifications.go:228-245 | success means that one more task of the notification was put on the queue; it fails only with the queue, and without interference the row is as before |
| Reconcile.SweepOrphanedPending | internal/application/reconcile_stuck_notifications.go:133-145 | the counter grows by exactly the rows this pass counted, each of which the pass saw pending for more than five minutes, whatever the schedule; on its own it handles exactly a selection of the oldest eligible rows |
| Reconcile.SweepStuckProcessing | internal/application/reconcile_stuck_notifications.go:149-161 | the same for rows failed with worker_timeout |
| Reconcile.SweepReenqueue | internal/application/reconcile_stuck_notifications.go:165-194 | counts the rows re-enqueued before the first error, each with a new task on the queue, and changes no row |
| Reconcile.Execute | internal/application/reconcile_stuck_notifications.go:111-129 | in every schedule the first two counters are the rows this pass moved and counted, each seen pending since its creation, or processing without change, for more than five minutes, and every row that any counter but that of failures covers got a new task; on its own all four counters are min(100, eligible rows), the orphans become queued, the stuck rows failed with worker_timeout, and every other row is as before |
| Reconcile.PassMeans | internal/application/reconcile_stuck_notifications.go:111-161 | the same for tables: which rows a pass may take, what it makes of them, and that it leaves no older one out |
| Draining.OldestGoFirst | internal/adapters/postgres/sqlc/notifications.sql.go:119-128 | a selection takes as many as fit of any rows that are strictly older than all others |
| Draining.ArrivalsAreNewer | internal/application/reconcile_stuck_notifications.go:133-161 | whatever becomes eligible between two passes is strictly newer than everything that was waiting |
| Draining.Drained | internal/application/reconcile_stuck_notifications.go:111-161 | after k passes exactly min(N, 100k) of the N rows eligible at the start have been moved and counted, so all of them within ceil(N/100), whatever arrives meanwhile |
| Draining.HandledOnce | internal/application/reconcile_stuck_notifications.go:133-161 | no two passes handle the same row of the backlog |
| Draining.RunsAreSchedules | internal/application/reconcile_stuck_notifications.go:111-129 | calls of Execute are such passes of both moving sweeps: the other sweep of a pass disturbs neither backlog |
| Draining.RunsDrain | internal/application/reconcile_stuck_notifications.go:111-161 | k whole passes bring exactly min(N, 100k) of the N rows that either moving sweep could take at the start past that sweep, all of them if 100k suffices, and their counters add up to at least that, whatever arrives meanwhile |
| Ticker.RunOnce | cmd/reconciler/main.go:127-139 | a reported pass reports the numbers of rows that it counted; on its own with reliable ports every pass is reported and did what Execute does |
| Ticker.RunLoop | cmd/reconciler/main.go:103-121 | in every schedule the reported counters of all passes add up to at most the rows that are failed, and those that are no longer pending; on its own with reliable ports and a clock that does not go back, k passes bring exactly min(100k, N) of the N pending or processing rows that were due at the first one out of that status |
| Batch.BuildNotifications | internal/application/create_batch.go:161-188 | one new entity per item, or the position of the first item that does not validate |
| Batch.InsertAll | internal/adapters/postgres/batch_repository.go:32-59 | in every schedule all rows are stored at once or the request leaves nothing of its own, whatever it reports |
| Batch.EnqueueMember | internal/application/create_batch.go:118-138 | in every schedule success means that the member's task was enqueued and the member queued, and later members are untouched; on its own the member is queued or pending and no other notification changes |
| Batch.CreateBatch | internal/application/create_batch.go:78-112 | invalid input takes no step at all; in every schedule an error at member k means that all rows were stored, the members before k were enqueued and queued and those after k were not touched; on its own it leaves no row or, column by column, a queued prefix, one member in either state and a pending suffix |
| Batch.AbandonedBatchRecovers | internal/domain/batch.go:15-18 | with no other orphan, ceil((size - k)/100), never more than ten, error-free passes bring every member of a batch abandoned after k members to queued |
| Base64.Base64RoundTrip | internal/adapters/postgres/notification_repository.go:253 | decoding gives back exactly the bytes encoded |
| Base64.UrlSafeAlphabet | internal/adapters/postgres/notification_repository.go:253 | the symbols are those of table 2 of RFC 4648 |
| Base64.EncodesInGroups | internal/adapters/postgres/notification_repository.go:253 | three bytes are 24 bits, most significant first, as four symbols of six bits |
| Base64.EncodesTheRest | internal/adapters/postgres/notification_repository.go:253 | one or two bytes left over are padded with zero bits and equals signs |
| Base64.LineBreaksAreIgnored | internal/adapters/postgres/notification_repository.go:337-351 | carriage returns and newlines anywhere do not change what is decoded |
| Base64.ForeignCharactersFail | internal/adapters/postgres/notification_repository.go:337-351 | any other character makes a cursor invalid |
| Timestamps.CivilOf | internal/adapters/postgres/notification_repository.go:252 | every instant has a valid calendar date and time, and that date denotes the instant |
| Timestamps.TimestampRoundTrip | internal/adapters/postgres/notification_repository.go:252 | every instant of the years 0 to 9999 is printed and parsed back to the nanosecond |
| Timestamps.DaysOfYears | internal/adapters/postgres/notification_repository.go:252 | the days before year y are 365y + ceil(y/4) - ceil(y/100) + ceil(y/400) |
| Timestamps.RangeInNanos | internal/adapters/postgres/notification_repository.go:252 | the years 0 to 9999 in nanoseconds |
| Timestamps.PrintedLayout | internal/adapters/postgres/notification_repository.go:252 | every field of a printed timestamp, digit by digit, and the characters between them |
| Timestamps.PrintedFraction | internal/adapters/postgres/notification_repository.go:252 | a dot and the digits of the nanoseconds up to the last that is not zero, or nothing |
| Timestamps.DateTimesExactly | internal/adapters/postgres/notification_repository.go:337-351 | exactly the valid dates and times are accepted, each in its one printed form |
| Timestamps.OffsetsAreSubtracted | internal/adapters/postgres/notification_repository.go:337-351 | a zone ahead of UTC makes the instant earlier by its hours and minutes |
| Cursor.CursorRoundTrip | internal/adapters/postgres/notification_repository.go:251-351 | every instant of the years 0 to 9999 and every id, even one that contains the separator, comes back exactly; a cursor is never empty |
| Cursor.CursorContent | internal/adapters/postgres/notification_repository.go:251-254 | under the base64 is the timestamp, a vertical bar, and the id |
| Cursor.MalformedCursors | internal/adapters/postgres/notification_repository.go:337-351 | which cursors are refused as no base64, and which for a missing bar |
| Cursor.SplitsAtFirstBar | internal/adapters/postgres/notification_repository.go:337-351 | what is before the first bar must be a timestamp, and all after it is the id |
| Cursor.CursorsAreInjective | internal/adapters/postgres/notification_repository.go:251-254 | distinct keys have distinct cursors |
| Cursor.UuidRoundTrip | internal/adapters/postgres/notification_repository.go:461-477 | the canonical form of every 128-bit id parses back to it |
| Cursor.CanonicalForm | internal/adapters/postgres/notification_repository.go:461-477 | 32 lower-case hex digits, most significant first, with hyphens in their four places |
| Keyset.BuildListParams | internal/adapters/postgres/notification_repository.go:193-234 | the parameters select exactly the rows that match the filter and lie below the cursor, one row beyond the limit; it fails exactly on a bad cursor or batch id |
| Keyset.ListNotifications | internal/adapters/postgres/sqlc/notifications.sql.go:382-395 | the selected keys, newest first and by descending id within one creation time, up to the limit |
| Keyset.Paginate | internal/adapters/postgres/notification_repository.go:240-246 | a prefix within the limit; the next cursor is empty exactly when nothing was cut off and denotes the last row kept otherwise |
| Keyset.List | internal/adapters/postgres/notification_repository.go:169-187 | the limit + 1 fast form returns exactly the page of filter-then-sort at the cursor: rows that match and lie below the cursor's (created_at, id), in strictly descending (created_at, id) |
| Keyset.PageHolds | internal/adapters/postgres/sqlc/notifications.sql.go:382-395 | a page holds only rows that match every filter column and lie below its start, newest first |
| Keyset.PageLeavesOut | internal/adapters/postgres/notification_repository.go:240-246 | a page leaves out only rows older than its last, only when it is full, and then the next page starts after that last row |
| Keyset.Execute | internal/application/list_notifications.go:79-92 | the same for every limit a caller may pass: 1 to 100 as given, 20 otherwise |
| Keyset.DescendingIsUnique | internal/adapters/postgres/sqlc/notifications.sql.go:393 | a set of keys has only one descending order |
| Keyset.WalkDescends | internal/adapters/postgres/notification_repository.go:169-187 | following the next cursor yields rows in strictly descending (created_at, id), so no row twice, whatever is written in between |
| Keyset.WalkReadsEachOnce | internal/adapters/postgres/sqlc/notifications.sql.go:382-395 | a row that matches at every page read appears exactly once in a finished walk, whatever else is inserted, updated or deleted |
| Keyset.StaticWalk | internal/adapters/postgres/notification_repository.go:240-246 | on an unchanging table a finished walk reads exactly the matching rows, newest first, on as few pages as hold them |
| Hub.InsertionMirrors | internal/adapters/websocket/hub.go:85-106 | adding a pair to both maps keeps them mutual inverses without empty entries and adds exactly that subscription |
| Hub.RemovalMirrors | internal/adapters/websocket/hub.go:178-191 | removing a pair from both maps does the same for removal |
| Hub.Hub.Subscribe | internal/adapters/websocket/hub.go:85-106 | the set of subscriptions gains one pair; a repeated call changes at most the client object behind it |
| Hub.Hub.Unsubscribe | internal/adapters/websocket/hub.go:110-115 | the set loses exactly that pair |
| Hub.Hub.RemoveLocked | internal/adapters/websocket/hub.go:178-191 | both maps lose exactly that pair and keep no empty entry |
| Hub.Hub.UnsubscribeAll | internal/adapters/websocket/hub.go:120-136 | deleting while ranging over the same entries leaves exactly the subscriptions of other clients |
| Hub.Hub.Broadcast | internal/adapters/websocket/hub.go:143-164 | the client of every subscription to the notification is sent the message exactly once, and the subscriptions that are gone are exactly those of clients whose Send failed |
| Hub.Hub.SubscriberCount | internal/adapters/websocket/hub.go:170-174 | the number of distinct clients in pairs of that notification |
| RateLimiter.Redis.Allow | internal/adapters/redis/outbound_rate_limiter.go:26-40 | one call counts in the live window or opens the next; every counter has an expiry, so the negative-ttl branch is dead |
| RateLimiter.WindowInMillis | internal/adapters/redis/outbound_rate_limiter.go:67-93 | the window is the configured one in whole milliseconds, at least one |
| RateLimiter.FirstCallsOfAWindow | internal/adapters/redis/outbound_rate_limiter.go:26-40 | in every run each call belongs to a window opened by some call after all earlier windows had closed, and is admitted if and only if it is among that window's first `limit` calls |
| RateLimiter.TwiceTheLimit | internal/adapters/redis/outbound_rate_limiter.go:67-93 | any half-open interval of one window length admits at most twice the limit |
| RateLimiter.RetryAfterSeconds | internal/adapters/http/inbound_rate_limit.go:92-98 | the least positive whole number of seconds that covers the hint |
| RateLimiter.WaitingLeavesTheWindow | internal/adapters/http/inbound_rate_limit.go:75-98 | a denied caller that waits the rounded seconds (section 10.2.3 of RFC 9110) is out of that window if and only if keys do not outlive their expiry or the time left is zero or not a whole number of seconds |
| RateLimiter.WaitingMayNotLeaveTheWindow | internal/adapters/http/inbound_rate_limit.go:75-98 | a caller denied with a second left that waits the announced second and is still in the window |
| Idempotency.CapturingWriter.WriteHeader | internal/adapters/http/idempotency.go:277-284 | the first status is captured and forwarded, later ones are neither |
| Idempotency.CapturingWriter.Write | internal/adapters/http/idempotency.go:290-296 | buffer and client receive the same bytes |
| Idempotency.RunHandler | internal/adapters/http/idempotency.go:241-296 | for any sequence of calls the capture holds all bytes written and the first status, and status, content type and body that the client receives are determined by the calls |
| Idempotency.CapturedIsSentUnlessInformational | internal/adapters/http/idempotency.go:277-284 | the captured status is the one sent if and only if the handler's first status is not informational |
| Idempotency.EarlyHintsRunTwice | internal/adapters/http/idempotency.go:245-247 | a handler that first announces itself with 103 answers 200 and runs again for the same request |
| Idempotency.CachedTypeIsSentUnlessSetLate | internal/adapters/http/idempotency.go:248-252 | the cached content type is the one the first client received if and only if the last one that the handler sets, if it sets it after the call that commits the response, equals the one it had set before that call |
| Idempotency.TypeSetTooLate | internal/adapters/http/idempotency.go:248-252 | a handler whose first client gets one content type and whose replays carry another |
| Idempotency.DispatchCacheHit | internal/adapters/http/idempotency.go:126-141 | a differing fingerprint is a 409; a matching or missing one replays body and content type with status 200 |
| Idempotency.RunAndCache | internal/adapters/http/idempotency.go:241-259 | the client gets the handler's response; a status outside 200 to 299 leaves the store as it is, one within is stored with body, content type and fingerprint for 24 hours, unless the store fails |
| Idempotency.ServeIdempotent | internal/adapters/http/idempotency.go:89-118 | with a reliable store: 413 above 1 MiB, 400 for a broken body, 409 for another body while an entry lives, its replay for the same body, and otherwise a run, stored for 24 hours if and only if its status is 200 to 299; with any store the response is that of the outcome and no other key changes |
| Idempotency.AtMostOneSuccessPerLifetime | internal/adapters/http/idempotency.go:28 | two runs that captured 200 to 299 under one key are at least 24 hours apart |
| Idempotency.ReplayedWhileLive | internal/adapters/http/idempotency.go:89-141 | for 24 hours after a successful run the same body gets exactly the bytes first written, another body a 409, a broken one a 400, one above 1 MiB a 413, and the handler does not run |
| Idempotency.RunsExactlyWhenUncovered | internal/adapters/http/idempotency.go:89-118 | a readable request under a key runs the handler if and only if no earlier run under it captured 200 to 299 less than 24 hours before |
| Idempotency.FailuresRunAgain | internal/adapters/http/idempotency.go:245-247 | a request whose run did not capture a 2xx runs the handler again when it is sent again, unless another request succeeded under its key meanwhile |

## Left out

- HTTP handlers, routing, problem documents' text, generated API, health checks: plumbing without a deep invariant.
- Parsing of channels, priorities, recipients and contents: a batch item is a flag that says whether it validates; creating one notification starts with validated input.
- Batch correlation: every member is built with the batch's own correlation id, so the consistency check of the batch entity cannot fail and is not modelled.
- Templates, the provider mock, the circuit breaker: the provider may return any result.
- The internals of asynq, pgx, Redis and SHA-256: the queue may lose or repeat any task, a statement is atomic, the body fingerprint is any injective non-empty function.
- Rounding of timestamps to the database's microseconds: instants are compared as given.
- Liveness of re-enqueued tasks: it depends on the queue's rules for repeated task ids, which are not part of this model.
- "Never sent before its schedule": the orphaned-pending handler enqueues immediately, so the code does not promise it.
- Metrics, tracing, logging, configuration, id generation, the client gauge of the hub: no state that a property depends on.
- UseCases.Process: the order of two different notifications' side effects is not related; each notification has its own run.
- UseCases.Create: the unique index on non-empty idempotency keys (db/migrations/000001_initial_schema.up.sql, lines 97-99) is not modelled, so in a reliable, undisturbed world a fresh id is enough; rendering a template and choosing between immediate and delayed enqueueing are not modelled; the queue is unordered.
- Ticker.RunLoop: the interval, shutdown between ticks and the counters of the two sweeps that move no row are not modelled.
- Reconcile.Execute: the rows of one SELECT become entities one by one inside the loop, not all at once before it, which no other actor can observe.
- Batch.CreateBatch: with interference the final rows are not stated, since others may have claimed or cancelled a member by then; what the request itself stored and queued is.
- Batch.InsertAll: the same unique index is not modelled; in a reliable, undisturbed world fresh, distinct ids are enough.
- Batch.BuildNotifications: whether an item validates is an input, not computed from its fields.
- Hub.Hub.Broadcast: concurrent calls are not modelled, methods run one after the other; inner maps are stored back after each change instead of being shared by reference.
- RateLimiter.Redis.Allow: one bucket; how long a key outlives its expiry time is a parameter (0 or 1 ms).
- Keyset.List: rows are represented by their keys, and a database error is not modelled.
- Keyset.StaticWalk: created_at lies in the years 0 to 9999, outside of which the cursor's timestamp has no four-digit year.
- Timestamps.TimestampRoundTrip: strings that only the lenient path of Go's parser accepts are rejected here; no printed timestamp is one of them.
- Idempotency.RunHandler: the header map starts empty and only its content type is kept (sniffing when there is none is not modelled); flushing and connection hijacking are not modelled, nor is a client that goes away.
