# Notification pipeline: a Dafny model

This project models the notification pipeline and proves what it promises. A *notification* is created
at once or scheduled for later; the notifications service writes its row and its outbox event in one
transaction, a scheduler queues due rows, and a publisher moves outbox events to a message stream. The
delivery service consumes the stream, asks the subscriptions service for the topic's subscribers page by
page, creates one *attempt* per notification, user and channel, and hands jobs to workers, which call the
provider, back off after refusals and stay out of the subscriber's quiet hours. The gateway looks up
topics by paging and limits request rates.

How it is built:

- **State machines.** `Notifications`, `Subscriptions` and `Delivery` describe each service as tables plus
  a `Step` function. One `Action` is one statement, one transaction boundary, one page, one job or one
  acknowledgement, so a run is any interleaving: concurrent creates, cancels, ticks that hold row locks,
  publisher batches that crash after a publish, redelivered messages, aborted fan-outs, lost
  acknowledgements, duplicated, early, late and orphaned jobs, and jobs that raise before the provider
  call, after it, after counting or at the commit, with the queue keeping or dropping them. A disabled
  action changes nothing. `System` puts the three together; `Reachable` means reachable from empty tables
  by any sequence of moves.
- **Invariants.** `Outbox`, `DeliverySafety`, `DeliveryCounters` and `DeliveryHistory` hold the invariants
  and show that every step keeps them. `System`, `Coverage` (nobody is skipped), `Recipients` (nobody is
  reached by mistake), `Completion` (every attempt finishes) and `Workers` (what workers that keep up with
  the queue achieve) draw the end-to-end conclusions; `Stranding` and `Repeating` are runs that show what
  is not promised.
- **One attempt.** `Attempts` is the executor's decision as a function of the locked row, the clock, the
  provider's reply and the jitter; `QuietHours` is the arithmetic under it. `Completion.RunProjects` shows
  that a run of the whole system does to an attempt what its own executions do in order.
- **Classes.** `NotificationsDb`, `SubscriptionsDb`, `DeliveryDb` and `Limiter` are the services' code on
  tables held in fields, with the source's loops and branches. Their methods are proved against the same
  functions that the machines use: `CreateBranches`, `RunOneTick`, `PublishBatch`, `RunJob` and
  `WholeFanoutIsARun` tie whole requests, ticks, batches, jobs and fan-outs to runs of the machine. Where a
  request lets other transactions in between its own, `meanwhile` is what they make of the tables.
- **Time** is integer microseconds; **ids** are integers that the caller or an action draws fresh; provider
  replies, jitter, stream replies, page-by-page table contents, crashes and the choice of job or message
  are inputs of the actions and methods.

What the code does not promise, and exactly when:

- An attempt can stay open for ever. A fan-out enqueues its jobs while its transaction is still open
  (`fanout.py:95`), so a worker may run the attempt's last job before the commit, find no row and drop it;
  and a job that raises is dropped unless it had enqueued its follow-up or the worker itself died.
  `System.LostIffJoblessAtCommitOrDropped` shows that an attempt is lost if and only if one of the two
  happens to its last job, `Workers.LostIffNeverSent` that the lost ones are exactly the open ones that no
  continuation can send, `System.NoOpenAttemptIsLost` that every other open attempt has a job,
  `System.PatientRunLosesNothing` that nothing is lost when neither happens, and
  `Stranding.AttemptsCanBeStranded` is a run from empty tables that loses one.
- A rollback cannot take back what happened outside the database: the provider call, the outcome event, the
  counters, the enqueued follow-up. So over all calls and events, rolled-back ones included, four promises
  fail: calls may exceed max(1, max_attempts) without bound, several may be accepted, they may come at the
  same instant, and an attempt may have more than the one outcome event, one before it is finished, or one
  of the wrong kind. `Repeating.CallsAreUnbounded`, `Repeating.RefusalsAreUnbounded`,
  `Repeating.PendingMayBeAnnounced` and `Repeating.DeadMayBeAnnouncedAsDelivered` are runs from empty tables
  in which they do. For the committed executions all four hold (`System.ProviderSeesEachAttemptWithinBudget`).
- `System.ProviderCallsExceedBudgetIffRolledBack` counts all calls exactly: a dead attempt has exceeded its
  budget if and only if an execution was rolled back after it had called the provider, and a sent one has a
  second accepted call if and only if one that was accepted was rolled back.
  `System.OutcomesMatchStatusIffNoneRolledBack` counts all outcome events: an attempt has one when it is
  finished and none before if and only if no execution was rolled back after publishing. One that is not
  sent has a success event, and one that is not dead a failure event, if and only if an execution that
  published such an event was rolled back. `Attempts.CallComesAgainIff` says when a call is repeated before
  the backoff: if and only if it was rolled back and the instant is out of quiet hours.
- `System.TotalsAgreeWithAttempts` says by exactly how much the counters are off for the same reason, and
  `System.TotalsAreRightIffNothingUndone` when they are right. `Repeating.CallsAreUnbounded` and
  `Repeating.CreatedMayExceedAttempts` are runs in which the sent and the created counter are not.

The service method for creating would also take an empty idempotency key, which is stored and so counts
for the unique index but is never looked up. The request schema (`schemas/notifications.py:15`) keeps such
keys out, so no create of the system ever raises (`System.CreateIsIdempotent`); for the method alone,
`Outbox.InsertRaisesIffEmptyKeyIsTaken` and `NotificationsService.RaisesIffEmptyKeyIsTaken` say when it would.

## Model

| member | source | states |
|---|---|---|
| System.FanoutIsExactlyOnce | services/delivery/delivery_service/services/fanout.py:40-102 | in every reachable state of the whole system: at most one fan-out has committed per notification, no open fan-out has met a constraint, attempts are unique by notification, user and channel, and each carries the payload of a created or queued notification, so none belongs to a scheduled or cancelled one |
| System.NoEventIsLost | services/notifications/notifications_service/services/outbox_publisher.py:42-59 | crashes included, every outbox event is unpublished, or has an unacknowledged copy on the stream, or its fan-out has committed; acknowledged implies processed, published implies on the stream, and stream entries and processed events have an outbox row with that content |
| System.NoOpenAttemptIsLost | services/delivery/delivery_service/services/delivery_executor.py:44-159 | an open attempt has a job that cannot run before its next_retry_at, because the job is not due earlier or, after an execution that raised, because that instant has passed; the exceptions are exactly the open attempts without any job |
| System.LostIffJoblessAtCommitOrDropped | services/delivery/delivery_service/services/fanout.py:84-102 | however the system goes on after a fan-out has committed, an attempt of it is open without a job if and only if no job of it was left at the commit or a later job of it, then its last, raises and is dropped without a follow-up |
| System.PatientRunLosesNothing | services/delivery/delivery_service/services/fanout.py:84-95 | from empty tables, in every run where no worker runs a job whose attempt is uncommitted and no job is dropped by raising, each open attempt has a job that cannot run before its plan |
| System.OutboxAgreesWithStatus | services/notifications/notifications_service/services/notifications.py:54-87 | in every reachable state a created or queued notification has exactly one outbox event with its content, a scheduled or cancelled one has none |
| System.CreateIsIdempotent | services/notifications/notifications_service/services/notifications.py:44-96 | under any interleaving, calls of one user with one key that return, return the same notification; exactly one call has created it, it has at most one event, and no call that the request schema accepts ever raises |
| System.ProviderSeesEachAttemptWithinBudget | services/delivery/delivery_service/services/delivery_executor.py:51-151 | for each attempt over all runs, of the calls and events of committed executions: at most max(1, max_attempts) calls, the k-th retry no earlier than the first call plus the summed backoff, only the last call can be accepted, attempt_no counts the refusals, and one outcome event exactly when the attempt is finished; a call that was rolled back comes no earlier than the committed calls before it allow; no call of either kind and no next_retry_at is in quiet hours |
| System.ProviderCallsExceedBudgetIffRolledBack | services/delivery/delivery_service/services/delivery_executor.py:81-151 | all calls, rolled-back ones included, are the tries that count plus the rolled-back calls, and likewise the accepted ones; a dead attempt has exceeded its budget if and only if an execution that had called the provider was rolled back, and a sent one has a second accepted call if and only if one that was accepted was |
| System.OutcomesMatchStatusIffNoneRolledBack | services/delivery/delivery_service/services/delivery_executor.py:81-126 | all outcome events of an attempt, those of rolled-back executions included, are its own and those published before a rollback, counted by success and failure; they are one for a finished and none for an open attempt if and only if nothing was rolled back after publishing; an attempt that is not sent has a success event, and one that is not dead a failure event, if and only if such an event was; and there are no more success events than accepted calls |
| System.HistoryOnlyGrows | services/delivery/delivery_service/services/delivery_executor.py:51-52 | sent and dead attempts never change again in any later state; rows, outbox, stream, processed events and call histories only grow, and statuses move only from scheduled to queued or cancelled |
| System.TotalsAgreeWithAttempts | services/delivery/delivery_service/services/fanout.py:96-100 | in every reachable state the sent, dead and per-channel created counters are counts over the attempts, and failed plus dead is the sum of attempt_no, each plus exactly what was counted by executions and fan-outs that were then rolled back |
| System.TotalsAreRightIffNothingUndone | services/delivery/delivery_service/services/delivery_executor.py:84-151 | the sent, dead and refusal totals equal the counts over the attempts if and only if no execution of their kind was rolled back after counting, and a created total if and only if no such row was |
| Coverage.EverySubscriberIsReached | services/delivery/delivery_service/services/fanout.py:45-97 | whatever else the system does meanwhile, whoever stays actively subscribed with a supported channel while a fan-out is open has exactly one attempt for that notification and channel once it commits |
| Recipients.EveryAttemptWasRead | services/delivery/delivery_service/services/fanout.py:46-94 | over every run, each attempt has a state between the begin and the commit of its fan-out in which its user had an active subscription of the topic with its channel and its quiet hours and zone; from then on the fan-out held its row, and that commit made it visible |
| Recipients.OnlySubscribersAreReached | services/delivery/delivery_service/services/fanout.py:46-94 | in every reachable state, the user of an attempt has a subscription row for the topic of the attempt's notification |
| Completion.AttemptFinishesInRun | services/delivery/delivery_service/services/delivery_executor.py:51-159 | in every run of the system in which no execution of the attempt comes a free part of a day or more after its next_retry_at, the lag of the retry and the send job included, at most 2 * max(1, max_attempts) executions of it commit, and after that many it is sent or dead |
| Completion.RunProjects | services/delivery/delivery_service/services/delivery_executor.py:44-159 | what a run of the system makes of an attempt is what its committed executions make of it one after the other: nothing else touches it |
| Completion.PromptRunFinishesInTime | services/delivery/delivery_service/services/delivery_executor.py:127-159 | in a run in which the executions of a fresh attempt all come exactly when planned, there are at most max(1, max_attempts) + 1 of them, all within quietLen + (max(1, max_attempts) - 1) * (max_delay + quietLen) |
| Workers.WorkersFinishAttempt | services/delivery/delivery_service/workers/arq_worker.py:37-60 | from the commit of its fan-out on, when workers take up each job of the attempt and enqueue its follow-up within a lag, four of which are shorter than the free part of a day, and none raises: at most 2 * max(1, max_attempts) executions, the i-th within a bound linear in i, and once no job of it is left the attempt is sent or dead, unless its jobs had all run before the commit |
| Workers.PunctualWorkersFinishInTime | services/delivery/delivery_service/workers/arq_worker.py:37-60 | when each job of the attempt is worked exactly when it falls due, there are at most max(1, max_attempts) + 1 executions, all within quietLen + (max(1, max_attempts) - 1) * (max_delay + quietLen) of the commit |
| Workers.QueueKeepsWithin | services/delivery/delivery_service/services/delivery_executor.py:57-159 | in any run, workers with such a lag execute the attempt no earlier than it is ready and at most four lags later: the deferred retry job and the send job it enqueues carry the plan through the queue |
| Workers.LateExecutionsFinish | services/delivery/delivery_service/services/delivery_executor.py:57-159 | executions of one attempt that are late by less than the free part of a day number at most twice its tries left |
| Workers.LostIffNeverSent | services/delivery/delivery_service/services/delivery_executor.py:44-159 | an open attempt of a reachable state has no job if and only if no continuation of the run ever sends it |
| Workers.LostIffNeverDead | services/delivery/delivery_service/services/delivery_executor.py:98-126 | and if and only if no continuation ever gives it up as dead |
| Coverage.FetchedCovers | services/subscriptions/subscriptions_service/repositories/subscriptions.py:195-247 | one more page keeps this: an active subscription at or before the cursor has a row for each of its supported channels |
| Stranding.AttemptsCanBeStranded | services/delivery/delivery_service/services/fanout.py:40-95 | a concrete run from empty tables ends with a pending attempt that has no job left |
| Repeating.CallsAreUnbounded | services/delivery/delivery_service/services/delivery_executor.py:81-96 | for every n a run from empty tables, under any budget, in which one attempt has n + 1 provider calls, all accepted at the same instant, and n + 1 success events, and the sent counter exceeds the number of sent attempts by n |
| Repeating.RefusalsAreUnbounded | services/delivery/delivery_service/services/delivery_executor.py:98-159 | when there are two tries or more, for every n a run in which an attempt has n provider calls although no job runs twice and no try is counted: each refused execution leaves its follow-up job and is rolled back |
| Repeating.PendingMayBeAnnounced | services/delivery/delivery_service/services/delivery_executor.py:81-96 | for every n a run from empty tables to a pending attempt with n success events |
| Repeating.DeadMayBeAnnouncedAsDelivered | services/delivery/delivery_service/services/delivery_executor.py:81-126 | for every n, under any settings, a run from empty tables to a dead attempt with at least n success events, each for a call that the provider accepted |
| Repeating.CreatedMayExceedAttempts | services/delivery/delivery_service/services/fanout.py:96-102 | a run from empty tables that counts a created attempt where there is none |
| DeliveryHistory.EarlyLastJobStrands | services/delivery/delivery_service/services/fanout.py:95 | a send job run just before the commit strands its attempt if and only if it was the attempt's only job |
| DeliveryHistory.StepLosesIffLastJobIsDropped | services/delivery/delivery_service/services/delivery_executor.py:44-159 | a step makes a visible attempt lost exactly when it drops the attempt's last job by raising, and a lost attempt stays lost |
| DeliveryHistory.IdleJobsChangeNothing | services/delivery/delivery_service/services/delivery_executor.py:46-55 | a job without a visible attempt, for a finished attempt or before next_retry_at changes nothing but the clock and the queue |
| DeliveryHistory.StepExtends | services/delivery/delivery_service/repositories/delivery_attempts.py:88-154 | every step, raising jobs included, keeps attempts' identity, extends their histories, leaves finished and stranded ones alone and never forgets a processed event or an acknowledgement |
| DeliverySafety.StepKeepsSafe | services/delivery/delivery_service/consumers/notification_created_consumer.py:37-62 | every step of consumers, fan-outs and workers, raising or not, keeps all delivery invariants: valid unique attempts, jobs for open attempts, processed exactly when fanned out, acknowledged only when processed |
| DeliverySafety.PageIsInsertable | services/delivery/delivery_service/repositories/delivery_attempts.py:23-71 | the inserts of a page never meet the unique constraint or the channel check, so the duplicate branch is never reached |
| DeliverySafety.PageUsersAreNew | services/subscriptions/subscriptions_service/migrations/001_init.sql:14-22 | no user on the next page has been read before by this fan-out, even though rows may have changed in between |
| DeliverySafety.TargetsAre | services/delivery/delivery_service/services/fanout.py:59-83 | the attempts a page asks for are exactly the supported normalised channels of its subscribers |
| DeliverySafety.TargetsAreDistinct | services/delivery/delivery_service/services/fanout.py:104-113 | for subscribers of different users no user and channel comes twice |
| DeliverySafety.WorkedAttemptHasJob | services/delivery/delivery_service/services/delivery_executor.py:57-159 | after a job of an open attempt has run, swallowed or not, the attempt still has a job at or after its plan |
| DeliverySafety.RaiseKeepsSafe | services/delivery/delivery_service/services/delivery_executor.py:44-159 | a job that raises at any stage, kept or dropped by the queue, keeps all delivery invariants |
| DeliverySafety.CommitKeepsSafe | services/delivery/delivery_service/repositories/processed_events.py:7-21 | committing a fan-out keeps the invariants, in particular one attempt per key and one commit per event |
| DeliveryCounters.StepKeepsCounted | services/delivery/delivery_service/services/delivery_executor.py:81-151 | every step keeps the counters equal to counts over the attempts plus what was counted and rolled back |
| DeliveryCounters.CommitKeepsCounted | services/delivery/delivery_service/services/fanout.py:96-100 | a committed fan-out raises each channel's created counter by exactly its rows on that channel |
| DeliveryCounters.RollbackKeepsCounted | services/delivery/delivery_service/services/delivery_executor.py:81-151 | an execution rolled back after counting moves the counter and the number of rolled-back counts together |
| DeliveryCounters.AbortKeepsCounted | services/delivery/delivery_service/services/fanout.py:96-102 | a fan-out rolled back after counting moves the created counter and the number of uncreated rows together, channel by channel |
| DeliveryService.DeliveryDb.ProcessNotificationCreated | services/delivery/delivery_service/services/fanout.py:33-102 | an event seen before changes nothing; a finished scan whose inserts meet no constraint adds exactly the targets' rows, all under ids that no attempt has, one job each, the processed event and the per-channel counts; anything else rolls back all but the enqueued jobs; and drawn ids stay above every id in use |
| DeliveryService.DeliveryDb.CommitFanout | services/delivery/delivery_service/services/fanout.py:99-102 | rows, processed event and per-channel counts become visible together and nothing else changes |
| DeliveryService.DeliveryDb.CreateAttempts | services/delivery/delivery_service/services/fanout.py:59-97 | the inner loop: it succeeds exactly when all targets of the subscriber are insertable, and then the draft holds exactly the rows, jobs and counts of the targets so far |
| DeliveryService.DeliveryDb.CreateAllAttempts | services/delivery/delivery_service/services/fanout.py:45-97 | the outer loop over the subscribers, with the same meaning for all of them |
| DeliveryService.DeliveryDb.CreateAttempt | services/delivery/delivery_service/repositories/delivery_attempts.py:11-71 | one insert and enqueue; it fails exactly on an unknown channel or a key taken by the table or by this fan-out |
| DeliveryService.DeliveryDb.IncCreated | services/delivery/delivery_service/services/fanout.py:99-100 | the loop over the per-channel counts adds each count once |
| DeliveryService.DeliveryDb.HandleMessages | services/delivery/delivery_service/consumers/notification_created_consumer.py:37-62 | a fetched batch takes attempts, jobs, counters and processed events through one handling after the other, each as specified from the tables it found; the acknowledged events are exactly the newly processed ones, and a redelivered processed message is always acknowledged |
| DeliveryService.DeliveryDb.HandleMessage | services/delivery/delivery_service/consumers/notification_created_consumer.py:42-62 | one message is acknowledged exactly when its handling does not raise, and the tables are those after that handling |
| DeliveryService.DeliveryDb.ExecuteSend | services/delivery/delivery_service/services/delivery_executor.py:38-159 | the transaction amounts to the specified execution with its follow-up job and its counter; when it raises at any of four stages, the row stays and exactly what had been enqueued and counted by then remains |
| DeliveryService.DeliveryDb.SendDue | services/delivery/delivery_service/services/delivery_executor.py:57-159 | an open attempt that is due is delayed by quiet hours or sent to the provider, with row, queue and counter as specified up to the stage at which it raises |
| DeliveryService.DeliveryDb.HandleRefusal | services/delivery/delivery_service/services/delivery_executor.py:98-159 | after a refusal the attempt is dead on the last try, else failed with the backoff moved out of quiet hours and one deferred job, which is missing if it raises after counting |
| DeliveryService.DeliveryDb.RunJob | services/delivery/delivery_service/workers/arq_worker.py:37-60 | one due job, raising or not, does to the tables exactly what the machine's job step or raising step does; a job that raises stays queued only if the worker died |
| DeliveryRefinement.WholeFanoutIsARun | services/delivery/delivery_service/services/fanout.py:40-102 | a fan-out that ends as processed is the machine's run of begin, one page after another and commit, with the same attempts, processed events, jobs and counters, whatever other fan-outs are open meanwhile |
| DeliveryRefinement.FreeFanoutIsARun | services/delivery/delivery_service/services/fanout.py:40-102 | so is any fan-out whose finished scan finds all its targets free in the table and in every other open fan-out, and the others stay as they were |
| DeliveryRefinement.BeginsBesideOtherNotes | services/delivery/delivery_service/repositories/processed_events.py:7-21 | in every reachable state in which a fan-out can begin, no open fan-out has a row for its notification |
| DeliveryRefinement.PagesMakeWholeFanout | services/delivery/delivery_service/services/subscriptions_fetcher.py:12-24 | reading the pages one by one from changing tables adds the rows and jobs of the whole finished scan |
| DeliveryRefinement.FanoutMatchesTable | services/delivery/delivery_service/services/fanout.py:45-101 | on an unchanging table a new fan-out goes through, and a user has a row on a channel if and only if the channel is supported and the user has an active subscription of the topic with it; no such row twice |
| DeliveryRefinement.FanoutRowsCarryPreferences | services/delivery/delivery_service/services/fanout.py:71-94 | each of those rows is a new attempt with the notification's payload and the quiet hours and zone that the table holds for a matching active subscription |
| Attempts.ExecuteKeepsValid | services/delivery/delivery_service/services/delivery_executor.py:44-159 | any execution, with any clock, reply and jitter, keeps: columns fit the status, attempt_no below or at the budget, histories agree with the status, no call or plan in quiet hours, calls spaced by the backoff |
| Attempts.RollbackKeepsValid | services/delivery/delivery_service/services/delivery_executor.py:44-159 | so does an execution that raises, at whatever stage: not even a call that was rolled back is in quiet hours |
| Attempts.CallComesAgainIff | services/delivery/delivery_service/services/delivery_executor.py:51-159 | after a provider call an execution calls it again, at a later instant, if and only if that is out of quiet hours and the call was rolled back, or was refused with tries left and the planned retry is reached; before the backoff has passed, only a rolled-back call comes again |
| Attempts.ExecuteLeavesAlone | services/delivery/delivery_service/services/delivery_executor.py:51-55 | finished attempts and early jobs are left alone, and what identifies an attempt never changes |
| Attempts.OpenAttemptGetsFollowUp | services/delivery/delivery_service/services/delivery_executor.py:60-75 | an open attempt executed in time is finished or gets a follow-up job that cannot fall due before the new plan |
| Attempts.QuietRetryIffQuiet | services/delivery/delivery_service/services/delivery_executor.py:161-190 | a quiet delay happens if and only if the instant is quiet, and ends at the first free instant, at most one window later |
| Attempts.RetryAtBounds | services/delivery/delivery_service/services/delivery_executor.py:127-140 | the planned retry is no earlier than the capped exponential backoff, no later than the cap plus one window, and out of quiet hours |
| Attempts.EveryAttemptFinishes | services/delivery/delivery_service/services/delivery_executor.py:57-159 | of executions of one attempt in order, each finding it open and less than the free part of a day after its next_retry_at, there are at most twice as many as permitted calls, whatever the provider answers |
| Attempts.PunctualExecutionProgresses | services/delivery/delivery_service/services/delivery_executor.py:57-75 | each punctual execution lowers the measure of tries left and pending quiet delay |
| Attempts.AtMostOneQuietDelayPerCall | services/delivery/delivery_service/services/delivery_executor.py:57-75 | two punctual executions in a row include a provider call |
| Attempts.ElapsedTimeBound | services/delivery/delivery_service/services/delivery_executor.py:127-159 | when each execution comes exactly at next_retry_at, only the first can be a quiet delay, and none is later than one longest gap per remaining try |
| Attempts.FreshAttemptFinishesInTime | services/delivery/delivery_service/core/backoff.py:4-12 | executions of a new attempt that come exactly at next_retry_at lie within quietLen + (max(1, max_attempts) - 1) * (max_delay + quietLen) |
| QuietHours.QuietIffWithinWindow | services/delivery/delivery_service/core/quiet_hours.py:12-23 | one formula for same-day, cross-midnight and empty windows: quiet exactly while less than the window's length has passed since it last opened |
| QuietHours.NextAllowedIsLeast | services/delivery/delivery_service/core/quiet_hours.py:26-62 | the result is the least instant at or after now outside quiet hours, every earlier one from now on is quiet, and the wait is at most the window's length and less than a day |
| QuietHours.NextAllowedIsUnique | services/delivery/delivery_service/core/quiet_hours.py:26-62 | that description determines the result |
| QuietHours.NextAllowedIsIdempotent | services/delivery/delivery_service/core/quiet_hours.py:26-44 | the result is its own next allowed time |
| QuietHours.NextAllowedIsMonotone | services/delivery/delivery_service/core/quiet_hours.py:26-44 | a later now never gives an earlier result |
| QuietHours.NeverQuietIffEqualBounds | services/delivery/delivery_service/core/quiet_hours.py:12-14 | no instant is quiet if and only if the bounds are equal |
| QuietHours.FreeAfterClosing | services/delivery/delivery_service/core/quiet_hours.py:47-62 | after a window closes, the rest of a day is free |
| Outbox.StepKeepsValid | services/notifications/notifications_service/services/scheduler_service.py:43-78 | every statement or transaction boundary of creates, cancels, ticks and publisher batches keeps all notification invariants and moves statuses only along the lifecycle |
| Outbox.RunKeepsValid | services/notifications/notifications_service/repositories/notifications.py:110-171 | so does every interleaving of them |
| Outbox.TickCommitKeepsValid | services/notifications/notifications_service/services/scheduler_service.py:43-78 | a committed tick gives exactly one event to each row it queues, while other ticks hold other rows |
| Outbox.CancelKeepsValid | services/notifications/notifications_service/repositories/notifications.py:155-171 | a cancel that wins against the scheduler leaves its row without an event |
| Outbox.TickLockKeepsValid | services/notifications/notifications_service/repositories/notifications.py:110-127 | concurrent ticks hold disjoint sets of scheduled rows |
| Outbox.RereadKeepsValid | services/notifications/notifications_service/services/notifications.py:91-96 | the read after a unique violation always finds the row and returns it |
| Outbox.InsertRaisesIffEmptyKeyIsTaken | services/notifications/notifications_service/services/notifications.py:54-96 | for the service alone, in any tables and so after any interleaving: the insert of a call raises if and only if its key is empty and taken |
| Outbox.PublishKeepsValid | services/notifications/notifications_service/services/outbox_publisher.py:47-56 | a publish, acknowledged or not, keeps stream, open batch and outbox in agreement |
| Outbox.BatchCommitKeepsValid | services/notifications/notifications_service/repositories/outbox.py:56-78 | marking rows published or failed loses no event and marks nothing published that is not on the stream |
| Scheduler.TickQueuesEarliest | services/notifications/notifications_service/repositories/notifications.py:110-153 | an uncontended tick queues the min(batch, due) earliest due rows by (scheduled_at, id), leaves none out that precedes a picked one, and lowers the backlog by exactly that many |
| Scheduler.DueRowIsReached | services/notifications/notifications_service/services/scheduler_service.py:44-92 | a due row of rank r has left the scheduled state once uncontended ticks have had room for r rows, with anything in between that schedules nothing earlier |
| Scheduler.TickLowersRank | services/notifications/notifications_service/services/scheduler_service.py:44-52 | each uncontended tick lowers the rank of every due row by the batch size, down to zero |
| NotificationsService.NotificationsDb.CreateNotification | services/notifications/notifications_service/services/notifications.py:31-96 | the look-up, whatever other transactions do before the insert, the insert, and the second look-up after a unique violation end as specified branch by branch: with the row found first, with the new row and, if immediate, its event, or with the row of the winner |
| NotificationsService.CreateBranches | services/notifications/notifications_service/services/notifications.py:44-96 | these branches are the machine's key check, insert and reread, with any other transactions between the check and the insert |
| NotificationsService.RaisesIffEmptyKeyIsTaken | services/notifications/notifications_service/services/notifications.py:91-96 | a create either returns or raises, and raises if and only if its key is empty and taken at the insert |
| NotificationsService.NotificationsDb.LookUp | services/notifications/notifications_service/services/notifications.py:44-47 | a key that is not empty ends the call with the row that has it, if there is one |
| NotificationsService.NotificationsDb.InsertNotification | services/notifications/notifications_service/services/notifications.py:54-87 | the transaction is refused exactly when the user has a row with that key, and then changes nothing; else it adds the row and, if immediate, its event |
| NotificationsService.NotificationsDb.InsertOrReread | services/notifications/notifications_service/services/notifications.py:54-96 | the insert and, after a violation, the second look-up, which raises only when it finds nothing |
| NotificationsService.NotificationsDb.CancelNotification | services/notifications/notifications_service/services/notifications.py:114-134 | which requests are not found, forbidden, in conflict or successful, waiting for a tick that holds the row included; only a row that is still scheduled when the lock is free is changed, to cancelled |
| NotificationsService.NotificationsDb.MarkQueuedByIds | services/notifications/notifications_service/repositories/notifications.py:129-153 | each given row that is still scheduled becomes queued and every other row stays as it is; exactly those are reported, each once, in the order of scheduled_at and id |
| NotificationsService.LockedRowsArePicked | services/notifications/notifications_service/repositories/notifications.py:110-153 | a tick's update finds all the rows that the tick has locked, in the order in which it locked them |
| NotificationsService.NotificationsDb.LockAndMark | services/notifications/notifications_service/services/scheduler_service.py:43-52 | a tick locks the earliest due free rows, queues exactly these and reports them in order |
| NotificationsService.NotificationsDb.EmitEvents | services/notifications/notifications_service/services/scheduler_service.py:54-78 | the loop adds one event per queued row with that row's content and nothing else |
| NotificationsService.NotificationsDb.RunOneTick | services/notifications/notifications_service/services/scheduler_service.py:34-92 | the earliest free due rows are queued, each gets an event of its own under a fresh id, no lock stays behind, the whole is the machine's lock and commit, and the counts are those of the new table |
| NotificationsService.TickEffect | services/notifications/notifications_service/services/scheduler_service.py:43-78 | the machine's lock and commit queue exactly the locked rows, add exactly their events and change nothing else |
| NotificationsService.NotificationsDb.PublishBatch | services/notifications/notifications_service/services/outbox_publisher.py:42-59 | the oldest free unpublished rows up to the batch size are tried; the whole batch is the machine's lock, publishes and commit, and each row is marked by its own reply and is on the stream unless refused |
| NotificationsService.OldestComeFirst | services/notifications/notifications_service/repositories/outbox.py:37-54 | a free unpublished row that a batch leaves out is younger than every row it takes, and the batch is full |
| NotificationsService.NotificationsDb.PublishRows | services/notifications/notifications_service/services/outbox_publisher.py:47-56 | the loop over the locked rows against one publish step of the machine after another |
| Keyset.PageIsGapless | services/subscriptions/subscriptions_service/services/subscriptions.py:205-219 | a page is the sorted gapless start of what follows the cursor, and there is a next cursor exactly when rows are left |
| Keyset.ScanSurvivesChange | services/subscriptions/subscriptions_service/repositories/subscriptions.py:195-247 | whatever happens to the table between fetches, no key is yielded twice, and every key present throughout is yielded by the end |
| Keyset.ScanOfUnchangingTable | services/delivery/delivery_service/services/subscriptions_fetcher.py:12-24 | on an unchanging table following the cursors ends with the page of the last row and has then yielded exactly the sorted rows |
| Subscriptions.IterSubscribers | services/delivery/delivery_service/services/subscriptions_fetcher.py:12-24 | the page-following loop yields the scan of the pages it reads and ends with the last page, a missing topic or no answer |
| Subscriptions.SubscriberScanSurvivesChange | services/subscriptions/subscriptions_service/services/subscriptions.py:184-219 | no subscription is yielded twice and every one active throughout is yielded, under any subscribes, unsubscribes and updates between pages |
| Subscriptions.SubscriberScanOfUnchangingStore | services/subscriptions/subscriptions_service/services/subscriptions.py:184-219 | on an unchanging store the scan finishes exactly when it has fetched enough pages, with the sorted active subscriptions and their stored preferences |
| Subscriptions.RunKeepsValid | services/subscriptions/subscriptions_service/services/subscriptions.py:58-182 | over every interleaving: one row per user and topic with a stable id, quiet bounds both absent or both present and different, channels non-empty, allowed, distinct and normalised, a known zone |
| Subscriptions.StoredChannelsAreNormal | services/delivery/delivery_service/services/fanout.py:104-113 | the fan-out's own normaliser is the identity on every stored channel list |
| Subscriptions.MergeKeepsPreferences | services/subscriptions/subscriptions_service/services/subscriptions.py:133-151 | a merge of valid preferences is valid, and fails exactly for a channel list without names or an unknown zone |
| Subscriptions.SubscriptionsDb.Subscribe | services/subscriptions/subscriptions_service/services/subscriptions.py:58-90 | subscribing leaves exactly one active row for the user and topic, reusing the old one and its id if there is one |
| Subscriptions.SubscriptionsDb.Unsubscribe | services/subscriptions/subscriptions_service/services/subscriptions.py:92-109 | the row stays and only stops being active; not found exactly for a row of nobody or somebody else |
| Subscriptions.SubscriptionsDb.UpdateSubscription | services/subscriptions/subscriptions_service/services/subscriptions.py:111-182 | an undisturbed update is the machine's read and write in a row; errors leave the table alone |
| Subscriptions.SubscriptionsDb.MergePreferences | services/subscriptions/subscriptions_service/services/subscriptions.py:127-151 | the patched fields over the stored ones, or the error, as the specified merge |
| Channels.NormalizeChannels | services/delivery/delivery_service/services/fanout.py:104-113 | the loop over a growing set and list computes the specified normal form |
| Channels.NormalizeKeepsNames | services/subscriptions/subscriptions_service/services/subscriptions.py:222-233 | the result is in normal form and holds exactly the folded non-empty names |
| Channels.NormalIsFixed | services/subscriptions/subscriptions_service/services/subscriptions.py:222-233 | a list in normal form is left unchanged |
| Gateway.FindTopicIdBySubscriptionId | services/bff/bff_gateway/api/subscriptions.py:146-199 | the 20 by 500 page loop finds the topic exactly when the subscription is among the user's 10000 newest and the pages up to it are answered |
| Gateway.FindOnPage | services/bff/bff_gateway/api/subscriptions.py:184-192 | the inner loop finds the subscription exactly when it stands on this page |
| Gateway.SmallListingsAreSearchedWhole | services/bff/bff_gateway/api/subscriptions.py:154-199 | for a user with at most 10000 subscriptions the lookup always succeeds for an owned one and for no other |
| RateLimiter.Limiter.IsAllowed | services/bff/bff_gateway/rate_limit/limiter.py:4-20 | one request increments or opens the key's counter, leaves the others, and is admitted up to the limit |
| RateLimiter.WindowAdmitsFirst | services/bff/bff_gateway/rate_limit/limiter.py:4-20 | each window admits exactly its first `limit` requests, and the first request after its expiry opens the next |
| RateLimiter.SlidingBound | services/bff/bff_gateway/rate_limit/limiter.py:4-20 | any interval as long as a window admits at most 2 * limit - 1 requests |
| RateLimiter.SlidingBoundIsTight | services/bff/bff_gateway/rate_limit/limiter.py:4-20 | for every limit some requests attain that bound |

## Left out

- Time zones: an offset is constant per zone name and an unknown name means UTC; the zone database, daylight saving changes and naive datetimes are not modelled.
- An execution that raises is the machine's `Raise`, at one of four stages; which exception it was, and a channel without a provider, which raises before the call, are not told apart. A publish of the outcome event that raises although the event was stored counts as the stage `AtCommit`.
- A raising execution is rolled back by the database: a commit that is reported as failed but has happened is not modelled.
- Repeating.CallsAreUnbounded: the machine lets the queue run an entry again as often as its worker dies; the job queue gives up after a number of runs, which the workers leave at its default. Repeating.RefusalsAreUnbounded needs no second run.
- One page of a fan-out is one step: a crash inside a page appears as an abort before or after the page.
- A unique violation inside the open fan-out: `create_or_get` reads on in an aborted transaction, which the database refuses; the model treats it as a broken fan-out and proves that it is never reached.
- Topic deletion, which cascades to subscriptions: topics stay.
- The preferences row is part of the subscription's row: both are written in one transaction, and a missing row reads as the defaults.
- A subscribe that loses a race raises the unique violation; which of two racing requests sees it is not modelled.
- Cursor texts: a cursor is the key of the last row; encoding and malformed cursors are not modelled.
- Ids of subscribers that are not UUIDs, and folding and white space of names outside ASCII.
- Payloads are opaque strings: their validation, size and depth limits and JSON encoding are not modelled.
- NotificationsService.NotificationsDb.PublishBatch: created_at is the clock when the event becomes visible, not when its transaction began, and ties go by id where the database leaves them open. The machine's `BatchLock` takes any free unpublished rows, so the system results hold for every order; no fairness is claimed, since permanently failing old events can hold up new ones.
- Real numbers: delays are whole seconds and instants microseconds, so the job queue's rounding of deferrals is not modelled.
- `list_my_notifications`: the same keyset scheme as the modelled listings with further filters; the lemmas of module Keyset apply.
- Error message texts, latency and gauge metrics, logging, HTTP routes, authentication and sessions.
- Subscriptions.SubscriptionsDb.UpdateSubscription: the method is one request without interference; interleaved updates are the machine's ReadForUpdate and WriteUpdate.
- Gateway.FindTopicIdBySubscriptionId: malformed upstream bodies and items are not modelled, a page is either answered or not.
- Attempts.EveryAttemptFinishes: it is about one attempt's executions in order; Completion.AttemptFinishesInRun is the same over runs of the system.
- Completion.AttemptFinishesInRun: an execution that raises uses up no try and is not counted.
- Completion.PromptRunFinishesInTime: assumes when the executions come; Workers.PunctualWorkersFinishInTime derives it from the job queue.
- Workers.WorkersFinishAttempt: that a job is taken up within the lag is an assumption on the workers.
