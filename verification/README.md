# WaitWise queue engine: a Dafny model

WaitWise keeps virtual queues. Each user has at most one row per queue; the row moves between
WAITING, SERVING, LATE, MISSED, CANCELLED and COMPLETED, and every move is one guarded update
plus one audit entry in the same transaction. This project models one queue and proves what its
endpoints, its promotion loop, its delayed expiry jobs and its safety net keep, both when they
run one at a time and when their transactions interleave statement by statement.

Two layers share the row update (`StateMachine`, `Database`):

- **Serial.** `QueueService.WaitQueue` is a class with the tables and the job queue as fields.
  `TransitionQueueUser` builds the update field by field, `TriggerPromotion` is the source's
  loop, `SafetyNetTick` enqueues a job per overdue row. Their contracts tie the new state to
  specification functions (`Operations`, `Promotion`), about which the rest is proved.
  `leaveQueue`, `removeQueueUser`, `markComplete`, `markLate`, `lateRejoin` and `lateArrived`
  differ only in event, actor and authorization and are one method, `Endpoint`.
- **Interleaved.** `Interleaving` splits `triggerPromotion`, the endpoints, `joinQueue`,
  `updateQueue` and the expiry worker into statements. A statement sees committed tables plus its
  transaction's own writes; a written row stays locked until its transaction ends; the Queue row
  is one lock held to the end by promoters and by `updateQueue`; any transaction may also be
  rolled back at any point. `Refinement` proves that a transaction nobody disturbs commits what
  the serial operation makes of the same tables.

| file | subject |
|---|---|
| `QueueTypes`, `StateMachine`, `Database` | rows, legal events, the guarded update |
| `History`, `Promises` | what the audit log says about the rows; documents against code |
| `Promotion`, `Position` | the queue order, one promotion run, the displayed position |
| `Operations`, `QueueService`, `Paging` | endpoints and workers run serially |
| `CallEffects`, `CommitEffects` | what each call and each commit accepts, writes and logs, spelled out |
| `TimeLayer`, `TimedRuns` | deadlines, delayed jobs, the safety net over timed runs; concrete runs |
| `Interleaving`, `Runs`, `Refinement` | the interleaved system, its invariant, its tie to the serial layer |
| `SlotSafety`, `Wakeups`, `Progress` | slots, no lost wakeup, coming to rest |
| `Fairness`, `Overtaking`, `JoinCapacity` | order and waiting time, joins and returns against maxSize |
| `ExpiryRaces`, `LateReturns`, `ExpiryWorker` | deadlines under interleaving: early strikes, late returns, the worker's job |
| `Races` | concrete interleavings that show which hypotheses are needed |

Assumptions. One clock reading per transition. Statements of one transaction whose results are
used together (the queue row with the count in `joinQueue`, the row with `graceTime` in
`transitionQueueUser`) are one statement. A row's id is its user's id, since (user, queue) is unique.
`joinedAt` has no tie-break in the source: a pick may return any of several equal rows, and the
lemmas that need an order say `DistinctKeys`, count the ties, or compare strictly.

## Where documents and code part

- docs/INVARIANTS.md:87 wants `expiresAt` null outside LATE and MISSED. The code clears it only
  when a row leaves LATE other than to MISSED, so a MISSED user who rejoins keeps it
  (`TimedRuns.StaleExpiry`); `Promises.ExpiryDocumentedExactly` says when the document is right.
- docs/TIME_MODEL.md:54 sends a returning MISSED user to the end of the queue. `joinedAt` is never
  rewritten, so the user regains the old place (`TimedRuns.MissedReturnsAhead`);
  `Promises.RejoinIsLastExactly` gives the condition.
- docs/INVARIANTS.md:110 says SERVING never exceeds `serviceSlots`. It can after `updateQueue`
  lowers the slots (`TimedRuns.ServingAboveSlots`), and in no other way (`SlotSafety.SlotLimitExact`).
- docs/SYSTEM.md:27 wants every action to preserve capacity. It fails in three ways: `lateRejoin` and
  `lateArrived` check no maxSize (`Races.ReturnPassesMaxSize`), racing joins pass it
  (`Races.CapacityBoundReached`), and `updateQueue` can lower maxSize below the active rows
  (`TimedRuns.ActiveAboveMaxSize`). `JoinCapacity.CapacityKeptExactly` says that there is no other,
  and `JoinCapacity.CapacityOverRun` how far it can go.
- docs/TRANSITIONS.md:31 sets `servedAt` on promotion. The code sets it on COMPLETE only
  (`History.WritesKeepSound`: `servedAt` is set exactly on COMPLETED rows).
- A REJOIN after the deadline stores MISSED but logs `to: WAITING` (`TimedRuns.LapsedLogsWaiting`);
  only then do the two differ (`Promises.LogDisagreesExactly`).
- docs/TIME_MODEL.md:46 and docs/TRANSITIONS.md:34-35 tie MISSED and the return to WAITING to
  `expiresAt`, under concurrency too. The guard compares the status alone, so a worker's old verdict
  can strike a new lateness (`Races.MissedTooSoon`; exactly when: `ExpiryRaces.EarlyStrikeExactly`),
  and a REJOIN read in time can land late, even on another lateness (`Races.ReturnTooLate`,
  `Races.ReturnOnOldReading`; exactly when: `LateReturns.LateReturnExactly`).
- A late job is not added while an earlier one with the same key is live. The earlier job can then
  come too early and be spent (`TimedRuns.JobIsSpent`, `TimeLayer.LateJobExact`), or, once graceTime
  has been lowered, come too late (`TimedRuns.LoweredGraceDelays`); the safety net makes up for the
  first (`TimeLayer.NoOverdueAfterDrain`) and cannot for the second before the old job fires.

## Model

| member | source | states |
|---|---|---|
| `QueueService.WaitQueue.BuildUpdates` | src/core/queueUserStateMachine.ts:95-121 | the field-by-field build of the update, with its four refusals in source order: `servedAt` is set on COMPLETE alone; `expiresAt` is set by MARK_LATE, cleared when the row leaves LATE by any event but MISSED, and else kept; the boost is 1 exactly for a REJOIN from LATE no later than the deadline |
| `QueueService.WaitQueue.WriteTransition` | src/core/queueUserStateMachine.ts:123-162 | the row and the log after the guarded write are those of one landed write; the one new entry has the user, the actor, the instant, the status before, and the kind and target status of the event |
| `QueueService.WaitQueue.TransitionQueueUser` | src/core/queueUserStateMachine.ts:78-196 | succeeds exactly for the rows in the statuses that the event is for, SERVE for the system only, and otherwise gives the precise error and changes nothing; new tables and new job; the answer holds the status before and the status, boost, deadline and position after; only MARK_LATE touches the jobs; the log invariant is kept, and so the 500 "LATE user has no expiresAt" is never returned |
| `QueueService.WaitQueue.EnqueueCheckLateExpiry` | src/jobs/lateExpiry.ts:10-39 | a second add under a live key is ignored |
| `QueueService.WaitQueue.TriggerPromotion` | src/controllers/v1/queues.controller.ts:15-58 | the loop serves a greedy choice of exactly min(open slots, waiting) users, returns them in order, leaves every other row alone, and leaves no free slot beside a waiting user |
| `QueueService.WaitQueue.Endpoint` | src/controllers/v1/queues.controller.ts:319-350 | each event succeeds exactly for the rows it is for, with the user then COMPLETED and stamped, LATE, CANCELLED, or back in the queue, and one entry by the caller; the answer shows the row before the promotion run; then one promotion run on the outcome; on refusal nothing changes |
| `QueueService.WaitQueue.JoinQueue` | src/controllers/v1/queues.controller.ts:228-317 | full, already in, rejoin or fresh row, then one promotion run; it succeeds exactly when there is room and the user is neither active nor completed, and each of the two errors has its exact condition; the row waits unboosted, and a fresh one is stamped now; the answer holds the status before and the position |
| `QueueService.WaitQueue.UpdateQueue` | src/controllers/v1/queues.controller.ts:187-208 | a setting changes if and only if a positive number is given, and then to that number; then one promotion run under them |
| `QueueService.WaitQueue.RunLateExpiryJob` | src/workers/lateExpiry.worker.ts:13-41 | strikes exactly a row that is LATE at or past its deadline, with one entry by the system, changes nothing otherwise, and frees the key |
| `QueueService.WaitQueue.SafetyNetTick` | src/workers/lateExpirySafetyNet.worker.ts:7-26 | a user has a key afterwards if and only if there was one or the row is LATE at or past its deadline; new jobs are due now, old ones keep their times |
| `CallEffects.AcceptedExactly` | src/core/queueUserStateMachine.ts:17-42 | which rows each event is for: COMPLETE and MARK_LATE for SERVING, LEAVE for WAITING, SERVING and LATE, REJOIN for LATE, MISSED and CANCELLED, MISSED for LATE, SERVE by the system for WAITING; all other calls fail |
| `CallEffects.TransitionEffect` | src/core/queueUserStateMachine.ts:98-135 | every field of the row after a successful call, written out by event; no other row changes and `joinedAt` stays |
| `CallEffects.UpdatedRow` | src/core/queueUserStateMachine.ts:98-135 | the same of a landed update that rests on an older reading: a REJOIN is judged by the deadline and the instant it was read with |
| `CallEffects.UpdateLogged` | src/core/queueUserStateMachine.ts:152-162 | a landed update appends exactly one entry: user, actor, instant, status before, and kind and target status of the event |
| `CallEffects.ExpiryExactly` | src/workers/lateExpiry.worker.ts:17-30 | the worker strikes a row if and only if it is LATE at or past its deadline, and then changes status, boost and log alone |
| `Promotion.PromotionIsSortThenTake` | src/controllers/v1/queues.controller.ts:22-50 | a run is possible if and only if it is "sort WAITING by (boost desc, joinedAt asc) and serve the first min(open, waiting)", for some listing of equal keys |
| `Promotion.GreedyIsListingPrefix` | src/controllers/v1/queues.controller.ts:35-44 | repeatedly picking a best row yields exactly the prefixes of sorted listings |
| `Promotion.PromotionUnique` | src/controllers/v1/queues.controller.ts:35-44 | with no two equal keys a run has one outcome |
| `Promotion.PromotionIdempotent` | src/controllers/v1/queues.controller.ts:15-51 | a second run right after the first serves nobody and changes nothing |
| `Promotion.PromotionComposes` | src/controllers/v1/queues.controller.ts:193-206 | promoting, then promoting with at least as many slots, is one promotion with the larger number: same users, order, rows and log |
| `History.WritesKeepSound` | src/core/queueUserStateMachine.ts:98-162 | any series of guarded writes, even from stale reads, keeps: decoding the log gives each row's status, boost, served and expiry flags exactly up to the one bit of a last REJOIN from LATE; boost is 1 exactly on a WAITING row whose last entry is a REJOIN from LATE; `servedAt` is the time of the last entry on COMPLETED and null elsewhere; `expiresAt` is set exactly on LATE or after a MISSED exit; entries chain; counts balance |
| `History.WriterExplained` | src/core/queueUserStateMachine.ts:99-118 | one write keeps its own row decodable and its fields explained by the log |
| `History.WriteKeepsChained` | src/core/queueUserStateMachine.ts:152-162 | each entry starts where the user's previous one ended, or at MISSED after a REJOIN from LATE, and is a legal transition |
| `History.WriteKeepsBalanced` | src/core/queueUserStateMachine.ts:123-162 | the number of rows in each status is entries in minus entries out, WAITING and MISSED together |
| `Promises.PopulationFromLog` | src/core/queueUserStateMachine.ts:17-51 | SERVING, LATE and WAITING + MISSED as exact sums of event counts |
| `Promises.NothingUndone` | src/core/queueUserStateMachine.ts:17-42 | no series of writes changes a COMPLETED row, and none moves any row's `joinedAt` |
| `Promises.LateHasExpiry` | src/core/queueUserStateMachine.ts:110-111 | the 500 "LATE user has no expiresAt" is unreachable |
| `Promises.ExpiryDocumentedExactly` | src/core/queueUserStateMachine.ts:104-109 | the documented rule holds of a row exactly when it is LATE or MISSED or its last exit from LATE was not the MISSED event |
| `Promises.RejoinIsLastExactly` | src/core/queueUserStateMachine.ts:35-42 | a REJOIN from MISSED or CANCELLED lands last exactly when all waiting users are boosted or joined no later |
| `Position.PositionSplits` | src/core/queueUserStateMachine.ts:240-265 | position is 1 + WAITING ahead + LATE ahead, the last term zero for a boosted user |
| `Position.PositionSpelled` | src/core/queueUserStateMachine.ts:240-265 | the position of a row in any status is 1 + the WAITING and LATE rows strictly ahead |
| `Position.PositionPredictsService` | src/core/queueUserStateMachine.ts:240-265 | a position that stays within the open slots with all ties counted is served by the next run; whoever is served had a position less LATE ahead within them; for a user tied with nobody this is if and only if |
| `Position.ServedIffRoom` | src/controllers/v1/queues.controller.ts:30-49 | a run serves u only if the WAITING users ahead are fewer than the open slots, and certainly if those ahead or tied are; with no tie, if and only if |
| `Position.TieDecidesEitherWay` | src/controllers/v1/queues.controller.ts:35-44 | between those two bounds some run serves u and some run does not |
| `Position.PositionDrift` | src/core/queueUserStateMachine.ts:240-265 | one write moves another user's position by at most one, by whether the writer counts before and after |
| `Position.PositionRises` | src/core/queueUserStateMachine.ts:240-265 | a rise needs MARK_LATE, a REJOIN that ends WAITING, or a fresh row stamped earlier |
| `TimeLayer.JobsOnTimeOverRun` | src/jobs/lateExpiry.ts:16-30 | over any run in which graceTime never drops by more than d minutes, the pending job of a LATE row fires no later than d minutes after the deadline or is due already, despite deduplication; d is 0 if graceTime is never lowered |
| `TimeLayer.TickExactly` | src/workers/lateExpirySafetyNet.worker.ts:7-26 | a tick adds jobs, due now, for exactly the overdue rows without one, and leaves the jobs as they were when no row is overdue |
| `TimeLayer.LateJobExact` | src/jobs/lateExpiry.ts:16-30 | after MARK_LATE the pending job, once fired, expires the row if and only if no earlier job was live or that job does not fire before the new deadline; otherwise the row is LATE with no job |
| `TimeLayer.FiredJobStrikes` | src/workers/lateExpiry.worker.ts:17-30 | a job due no sooner than the deadline strikes when it fires |
| `TimeLayer.StepServing` | src/controllers/v1/queues.controller.ts:30-46 | no serial operation raises SERVING but a promotion, within the slots, of a user nobody waiting is strictly ahead of |
| `TimeLayer.NoOverdueAfterDrain` | src/workers/lateExpirySafetyNet.worker.ts:7-26 | a run with a tick at T, in which graceTime never drops by more than d minutes, and at whose end no job due by T + d minutes is left, leaves no row LATE past T |
| `TimeLayer.GraceWindow` | src/workers/lateExpiry.worker.ts:17-30 | while operations run one at a time a LATE row turns MISSED no sooner than g minutes after MARK_LATE and returns to WAITING no later than its deadline; interleaved, `ExpiryRaces.EarlyStrikeExactly` and `LateReturns.LateReturnExactly` say exactly when each half can fail |
| `TimeLayer.StepKeepsSound` | src/core/queueUserStateMachine.ts:152-162 | every serial operation keeps the log invariant |
| `TimedRuns.ServingAboveSlots` | src/controllers/v1/queues.controller.ts:192-203 | a run from an empty queue that ends with two SERVING and one slot |
| `TimedRuns.ActiveAboveMaxSize` | src/controllers/v1/queues.controller.ts:192-203 | a run from an empty queue that ends with maxSize 1 and two active rows, by an edit alone |
| `TimedRuns.MissedReturnsAhead` | src/core/queueUserStateMachine.ts:35-42 | a run in which a MISSED user comes back strictly ahead of one who joined in the meantime and waits |
| `TimedRuns.StaleExpiry` | src/core/queueUserStateMachine.ts:107-109 | a run that ends WAITING with a non-null `expiresAt` |
| `TimedRuns.LapsedLogsWaiting` | src/core/queueUserStateMachine.ts:110-160 | a run in which a REJOIN past the deadline stores MISSED and logs WAITING |
| `TimedRuns.JobIsSpent` | src/jobs/lateExpiry.ts:16-30 | runs in which the job of an earlier lateness is spent too early: for any length of time the row stays LATE past its deadline with no job |
| `TimedRuns.LoweredGraceDelays` | src/jobs/lateExpiry.ts:16-30 | after a drop of graceTime by four minutes, a tick at T leaves a row overdue whose job fires exactly four minutes later |
| `Interleaving.StepKeeps` | src/controllers/v1/queues.controller.ts:15-51 | every step of the interleaved system keeps: one lock holder, disjoint row locks, every pending write still applicable, no promoter committed beyond the slots |
| `Interleaving.ServesMoveUsers` | src/controllers/v1/queues.controller.ts:28-49 | a promoter's pending writes move exactly their users from WAITING to SERVING |
| `Interleaving.CommitServing` | src/core/queueUserStateMachine.ts:119-135 | only a promoter's commit adds to SERVING, and it stays within the slots |
| `Refinement.UndisturbedPromotionIsSerial` | src/controllers/v1/queues.controller.ts:15-51 | a promoter with no other commit in between performs exactly one serial promotion, log included |
| `Refinement.UndisturbedTransactionIsSerial` | src/core/queueUserStateMachine.ts:78-196 | an undisturbed request, join or worker job commits what the serial operation yields |
| `Refinement.UndisturbedRequestExactly` | src/core/queueUserStateMachine.ts:17-42 | a request that runs to its end undisturbed commits if and only if the row is in a status its event is for; otherwise it changes nothing |
| `Refinement.UndisturbedJoinExactly` | src/controllers/v1/queues.controller.ts:239-286 | a join that runs to its end undisturbed commits if and only if there is room and the user is neither active nor completed |
| `CommitEffects.RequestLogged` | src/core/queueUserStateMachine.ts:152-162 | the commit of a request, however interleaved, appends one entry: its user, its actor, its event, the status before, the instant it was read |
| `CommitEffects.PromotionLogged` | src/controllers/v1/queues.controller.ts:35-49 | the commit of a promoter appends one SERVED entry by the system for each user served, in order |
| `CommitEffects.ActorsOverRun` | src/controllers/v1/queues.controller.ts:46-46 | in every reachable state SERVED and MISSED entries are the system's, LATE and COMPLETED an admin's, CREATED and REJOINED the user's, LEFT the user's or an admin's |
| `CommitEffects.OwedExactly` | src/controllers/v1/queues.controller.ts:313-313 | a promotion becomes owed exactly when an endpoint commits, and is paid by its trigger |
| `SlotSafety.SlotSafeStep` | src/controllers/v1/queues.controller.ts:17-49 | a step that raises SERVING is a promotion commit within the current slots |
| `SlotSafety.SlotsOverRun` | src/controllers/v1/queues.controller.ts:17-49 | over a run SERVING stays within the largest slot setting, or never rises above a higher start |
| `SlotSafety.SlotLimitExact` | src/controllers/v1/queues.controller.ts:192-203 | "SERVING within serviceSlots" survives a step if and only if the step is not a settings commit below SERVING |
| `SlotSafety.ReachableSound` | src/core/queueUserStateMachine.ts:123-162 | the log invariant holds in every reachable interleaved state |
| `SlotSafety.CompletedForGood` | src/core/queueUserStateMachine.ts:17-42 | no interleaved run changes a COMPLETED row |
| `Wakeups.StepAttended` | src/controllers/v1/queues.controller.ts:313-313 | each step keeps: work is pending for a promoter, or the lock holder will still look or serve |
| `Wakeups.NoLostWakeup` | src/controllers/v1/queues.controller.ts:15-51 | in every reachable state with a free slot and a waiting user, a promotion is owed, or waits for the lock, or the holder is still working, even if promoters abort on a failed guard |
| `Wakeups.QuietMeansSettled` | src/controllers/v1/queues.controller.ts:15-51 | when nothing is under way, all slots are taken or nobody waits |
| `Progress.MovesBounded` | src/controllers/v1/queues.controller.ts:28-49 | without new requests a run makes at most a computed number of moves, however it interleaves |
| `Progress.SomethingMoves` | src/controllers/v1/queues.controller.ts:17-21 | unless all is quiet some statement can run: no cycle of waits for the modelled locks |
| `Progress.ComesToRest` | src/controllers/v1/queues.controller.ts:15-51 | from every reachable state the system, left alone, comes to rest with no free slot beside a waiting user |
| `Fairness.NoOvertaking` | src/controllers/v1/queues.controller.ts:35-44 | if a stays strictly ahead of b and both wait throughout, a commit that promotes b promotes a, unless the lock holder had picked b and not a before the run |
| `Overtaking.OvertakenExactly` | src/controllers/v1/queues.controller.ts:28-49 | while a waits strictly ahead of b: some run without a commit before it promotes b without a if and only if the lock holder has picked b and not a, its last pick can still be served, and its remaining picks can all go to others who need not come after a. In the permissive model: see the share locks below |
| `Fairness.PicksStep` | src/controllers/v1/queues.controller.ts:28-49 | the lock holder's picks grow only by a best user of its view, and vanish at its end |
| `Fairness.BoundedWait` | src/controllers/v1/queues.controller.ts:35-44 | while u waits, promotions of others are at most u's rivals at the start plus later arrivals not behind u |
| `Fairness.WaitBoundedByReturns` | src/controllers/v1/queues.controller.ts:278-287 | under a monotone clock fresh joins never add to that bound: only REJOINs that land in WAITING, not behind u, do |
| `JoinCapacity.ActiveGrowsExactly` | src/core/queueUserStateMachine.ts:34-42 | a step adds an active row if and only if it commits a first join, or a REJOIN of a row read as MISSED or CANCELLED; it adds that one |
| `JoinCapacity.CapacityKeptExactly` | src/controllers/v1/queues.controller.ts:239-287 | "active rows within maxSize" survives a step if and only if the step neither lets someone into a full queue nor is a settings commit of a maxSize below the active rows |
| `JoinCapacity.CapacityOverRunExactly` | src/controllers/v1/queues.controller.ts:192-203 | it holds in every state of a run if and only if it holds at the start and no step of the run is one of those two |
| `JoinCapacity.CapacityOverRun` | src/controllers/v1/queues.controller.ts:239-287 | under any traffic, with maxSize at most m and at most c joins between check and commit, active rows stay within m - 1 + c, or within those at the start with the joins under way if that is more (after a cut of maxSize), plus the rejoin and arrived calls that brought back a MISSED or CANCELLED user |
| `ExpiryRaces.EarlyStrikeExactly` | src/workers/lateExpiry.worker.ts:17-30 | in every state in which the log explains the rows and u is LATE, as when its MARK_LATE has just committed: some interleaved run without another MARK_LATE of u strikes it before its deadline if and only if the deadline is ahead and some transaction under way holds a verdict against u |
| `ExpiryRaces.EarlyStrikeIsOldVerdict` | src/workers/lateExpiry.worker.ts:17-30 | in any interleaved run from an empty queue, a strike before the deadline comes from a transaction that has held its verdict since before the last MARK_LATE of the row committed |
| `LateReturns.LateReturnExactly` | src/core/queueUserStateMachine.ts:110-135 | in every state in which the log explains the rows and u is LATE: some interleaved run without another MARK_LATE of u returns it to WAITING past its deadline if and only if the deadline has not gone by or some transaction under way holds a REJOIN of u that it read in time |
| `LateReturns.ReturnWasInTime` | src/core/queueUserStateMachine.ts:110-118 | in any interleaved run from an empty queue, a REJOIN that takes a row from LATE to WAITING was read no later than the deadline it saw, and was held already in every state since the last MARK_LATE whose clock is past the deadline stamped there; if it was read after that MARK_LATE, it saw that deadline |
| `ExpiryRaces.LateRowIsStamped` | src/core/queueUserStateMachine.ts:104-106 | in any reachable state a LATE row carries the deadline stamped by the last MARK_LATE of it that committed |
| `ExpiryRaces.ExpiryIsStamped` | src/core/queueUserStateMachine.ts:104-109 | in any reachable state a non-null `expiresAt`, whatever the row's status, is the deadline stamped by the last MARK_LATE of it that committed |
| `ExpiryRaces.DueOverRun` | src/core/queueUserStateMachine.ts:104-135 | a deadline that has come stays come over any run in which no MARK_LATE of the user commits |
| `ExpiryRaces.MissedIsCondemned` | src/workers/lateExpiry.worker.ts:25-30 | LATE turns MISSED only by a transaction that has reached such a verdict |
| `ExpiryWorker.JobClearsLateness` | src/workers/lateExpiry.worker.ts:13-41 | in any interleaving, a worker job under way on an overdue row that is not rolled back sees the row leave LATE by its end |
| `Races.MissedTooSoon` | src/core/queueUserStateMachine.ts:123-130 | a run from an empty queue in which a worker's old verdict strikes a new lateness a whole grace time early |
| `Races.ReturnTooLate` | src/core/queueUserStateMachine.ts:110-135 | a run from an empty queue in which a REJOIN read in the last millisecond commits in the next and returns the row to WAITING with the boost, past its deadline |
| `Races.ReturnOnOldReading` | src/core/queueUserStateMachine.ts:123-135 | a run from an empty queue in which a REJOIN read in one lateness lands on the next, past that one's deadline |
| `Races.WithoutLockSlotsOverflow` | src/controllers/v1/queues.controller.ts:17-21 | without the Queue lock two promoters fill one slot twice |
| `Races.PassedByPickInFlight` | src/controllers/v1/queues.controller.ts:35-46 | a run of the permissive model (see the share locks below) in which one who comes back ahead is passed by a pick already made |
| `Races.CrashedPromoterLosesWakeup` | src/controllers/v1/queues.controller.ts:313-313 | if a promoter may crash, a slot can stay free beside a waiting user with nothing under way |
| `Races.CapacityBoundReached` | src/controllers/v1/queues.controller.ts:239-287 | c racing joins do reach maxSize - 1 + c |
| `Races.AllReturn` | src/controllers/v1/queues.controller.ts:439-452 | however full the queue is, rejoin calls bring any set of CANCELLED and MISSED users back |
| `Races.ReturnPassesMaxSize` | src/controllers/v1/queues.controller.ts:439-452 | a run from an empty queue with maxSize 1 that ends with two active rows |
| `Paging.PagesPartition` | src/controllers/v1/queues.controller.ts:579-613 | the pages put together are the list, none has more than ten rows, row k is on page k / 10 at place k % 10, and exactly the pages from totalPages on are empty |

## Left out

- HTTP, authorization, tokens, cookies and the auth controller: library calls and input/output.
- Socket.io output and Redis caching: no effect on the tables; endpoints read the database.
- Creating and deleting queues, tokens and names: one queue that exists is modelled.
- The promote-if-free job queue: its triggers are extra promoters, which the interleaved system may begin at any time; progress is proved from the calls after each commit alone.
- Foreign-key share locks of the audit and row inserts, deadlock detection and transaction timeouts: aborts are modelled as a crash at any point; `Progress.SomethingMoves` is about the Queue lock and the row locks only. The model is more permissive than the database: there a transition's audit insert (src/core/queueUserStateMachine.ts:152) takes a share lock on the Queue row and waits for a promoter that holds it. What is proved of every run covers the fewer runs of the database; the run of `Races.PassedByPickInFlight` needs a REJOIN to commit while a promoter holds the Queue row.
- Races.PassedByPickInFlight: a run of the permissive model, because the share lock above is not modelled.
- Overtaking.OvertakenExactly: the states in which a holder has picked b and not a who waits ahead arise in the permissive model, for the same reason.
- TimeLayer.GraceWindow: serial operations only, because both halves fail when transactions interleave; their exact conditions are proved in `ExpiryRaces` and `LateReturns`.
- Job retries, back-off and retained failed jobs: a job fires once and its key is then free. The handler is one step in `TimeLayer`, so a MARK_LATE that commits while the handler runs is seen in `ExpiryRaces` and not there.
- Different answers of the database to two listings with equal keys: `Paging` takes one fixed list.
- Progress.ComesToRest: does not say that a scheduler picks a given transaction, only that every run without new requests is bounded and can go on until all is quiet.
- Wakeups.NoLostWakeup: assumes that promoters do not crash, because `Races.CrashedPromoterLosesWakeup` shows the claim false otherwise.
