# Verification of the job queue

A Dafny model of a job queue that keeps its jobs in a PostgreSQL table and an ordered
index of runnable jobs in Redis, with proofs about every run of it. Submitters, runners,
heartbeats, schedulers, recovery sweeps, cancellers and manual retriers act concurrently
and may stop between any two of their steps.

`dafny verify dfyconfig.toml` checks the project.

## How the model is built

- **The table.** `Jobs` and `Statements` give the columns and, statement by statement,
  the WHERE and SET of every UPDATE; a NULL never compares. `Protocol` makes each
  committed UPDATE one atomic action on a `Store`: the rows, the database clock, every
  execution token drawn so far, and per job the list of what happened to it. A run is
  any sequence of actions, so every interleaving is one. `Histories` says what a job's
  columns must be from its events alone, without looking at a row, and the invariant
  `Protocol.Inv` ties the two together. `Guarantees`, `Idempotency` and `Leases` are
  about whole runs; `Enabled` says, by the history, when each call takes effect and what it
  leaves alone, without naming the conditions the statements use.
- **The queue.** `Members` holds the member text, the byte order of Redis and the
  rounding of Lua numbers; `Queue` the sorted set, the hash, the counter and the two
  scripts. `PriorityFifo` states the promised order without scores or texts, as live
  tickets by priority and enqueue number, and proves that the scripts deliver it.
- **Both together.** `World` cuts the service calls at their commits and Redis calls and
  gives every actor a program counter that a crash may reset at any point. `ServiceOrders`
  reads the queue operations off any sequence of its moves, so that the promised order is
  the order of the queue in every state of the whole system.
- **The code that updates in place.** `ReadyQueues.ReadyQueue` and `JobTables.JobTable` hold
  the two stores, one method per Redis call or transaction; each contract ties the new state
  to an operation of `Queue` or an action (or a run) of `Protocol`. `Deployments.Deployment`
  is both of them with everybody who works on them: the calls that take several steps, and
  the loops of `Workers`, `BatchProgress` and `Runner`, let others run at every cut. A ghost
  log of `World` moves follows them, and `Tied` says that table and queue are what that log
  leaves. So every such call is a sequence of `World` moves with moves of others in between,
  `TiedSound` and `ServiceOrders` speak of the real objects. `Traces` reads off the log which
  jobs a runner's claims went through for, and which writes of an attempt the fence let
  through. Others may make any move that is not the caller's own: not from its
  program counter, not its owed enqueue, not with the token it is about to draw. An attempt
  has two tasks at a time, its handler and its heartbeat; to the one, the other is among the
  others (`Leases.Task`). The ghost constant `alone` marks a deployment in which nobody else
  acts; what a lone runner or a single call does is stated under it.

Time is counted in microseconds of the database clock.

## Assumptions

- An UPDATE is atomic, re-checks its WHERE clause when it writes, and sees one `now()` for
  its transaction. The application and the database share one monotone clock.
- Scripts do not interleave and do not fail partway. Enqueues happen while the counter is
  within 2^53; callers of `Others` reserve room for their own.
- `uuid4` never repeats: an execution token that a claim draws was not drawn before. An
  `Attempt` comes from a claim, never from anywhere else.
- An idempotency key is absent or non-empty. Jobs have `max_attempts` 3, the only value
  the service ever writes. The table starts empty.
- Rows that a sweep has locked stay as selected until its transaction ends; `locked` is
  the set of rows that others hold locked.

## What turned out different from the documentation

- The queue's documentation says that 19 digits cover the 64-bit counter and that byte
  order always is enqueue order. A Lua number is a double, so this holds exactly while
  the counter is at most 2^53 (`Members.TokensFreshIffExact`). Past it a re-enqueue can
  mint the token that is already out, and the late removal of the old one takes the new
  one with it (`Queue.LateRemovalPastExactDoubles`).
- `peek_many(count)` returns the first `count` entries exactly when `count` is positive or
  at least as many are cut off the end as there are; `peek_many(0)` returns the whole queue,
  `peek_many(-1)` all but the last (`Queue.PeekManyIsPrefixIff`).
- The settings accept any heartbeat interval below the lease, so that a slow beat is
  survivable: by `Leases.SurvivesIffPassesFit` with no miss, a pass may take as long as the
  lease, whatever the interval. A missed beat is another matter, and a loop may miss one
  whenever the database does not answer. Owners that miss at most `k` beats in a row are never
  robbed of their job, in any run, exactly when `k + 1` passes fit into the lease
  (`Leases.HealthyOwnersAreSafeIff`); 59 under 60 seconds is accepted and survives no miss
  (`Leases.AcceptedSettingsMayNotSurviveOneMiss`). The defaults, 20 under 60, survive two.
- A claim does not reset `progress`. A retried batch starts from what the attempt before
  it reported, so the column can go down under its rightful owner: it never does exactly
  when that leftover is at most the first report (`BatchProgress.HandleBatch`;
  `BatchProgress.RestartLowersColumn` is a run from 66 back to 33).

## Model

| member | source | states |
|---|---|---|
| Members.MemberRoundTrip | app/services/queue_service.py:68-77 | parsing the member that an enqueue mints returns that job and that member, and the number printed in it |
| Members.FromMemberCases | app/services/queue_service.py:68-77 | any text is split at its first colon; without one it is refused, then for a job id that is none, then for a number that is none |
| Members.MemberInjective | app/services/queue_service.py:95-96 | equal members mean the same enqueue of the same job |
| Members.MemberOrdered | app/services/queue_service.py:20-28 | a later enqueue has the larger member in byte order, whichever jobs they are for |
| Members.TokensFreshIffExact | app/services/queue_service.py:26-37 | every enqueue of a job gets a new and larger token, if and only if the counter has not passed 2^53 |
| Members.LuaNumberTies | app/services/queue_service.py:95-96 | just above 2^53 odd counters print as their even neighbours |
| Queue.ClampedIsNearest | app/services/queue_service.py:80-83 | a priority in 0..100 counts as it is, one outside as the nearest in range |
| Queue.HigherPriorityScoresLower | app/services/queue_service.py:80-83 | of two priorities in 0..100 the higher has the lower score; different priorities never share a score |
| Queue.EnqueueKeepsConsistent | app/services/queue_service.py:86-106 | an enqueue keeps jobs and members in bijection, each member its job's current token with a number up to the counter, and replaces no other job's entry |
| Queue.RemoveKeepsConsistent | app/services/queue_service.py:108-121 | removing a token seen earlier keeps the bijection, touches no other job, and does nothing at all unless it still is the job's current token |
| Queue.LateRemovalPastExactDoubles | app/services/queue_service.py:30-37 | past 2^53 the late removal of an old token unmaps the newer one: the concrete queue in which it does |
| Queue.PeekManyIsPrefixIff | app/services/queue_service.py:149-151 | for every integer: peek_many is the first count entries if and only if count is positive or -count takes the whole queue off; otherwise it is everything but the last -count |
| PriorityFifo.QueueRefinesPriorityFifo | app/services/queue_service.py:80-121 | after any sequence of enqueues, removals and late removals the sorted set is the live tickets by priority, then by latest enqueue |
| PriorityFifo.ServedByRank | app/services/queue_service.py:11-28 | in that order an earlier ticket has a higher priority, or the same and an older enqueue; it holds the live tickets and no other |
| PriorityFifo.PeekManyServesInOrder | app/services/queue_service.py:140-151 | peek_many(n) names the first n live tickets of that order, each under its own token |
| ReadyQueues.ReadyQueue.RunEnqueueScript | app/services/queue_service.py:87-106 | the script, command by command, has the effect that the refinement is about and answers the token now mapped to the job |
| ReadyQueues.ReadyQueue.RunRemoveScript | app/services/queue_service.py:110-121 | the script takes the exact member, reports whether it was there, and unmaps the job only if it still points there |
| ReadyQueues.ReadyQueue.Enqueue | app/services/queue_service.py:132-138 | the candidate returned is the job's only entry, under a token not in the queue before |
| ReadyQueues.ReadyQueue.PeekMany | app/services/queue_service.py:149-151 | for a positive count the first count entries, and, whatever operations the queue has been through, the first count live tickets in service order |
| ReadyQueues.ReadyQueue.Peek | app/services/queue_service.py:140-147 | nothing exactly on an empty queue, otherwise its head |
| ReadyQueues.ReadyQueue.Remove | app/services/queue_service.py:153-159 | true exactly when the observed token still was the job's entry, and only then anything changes |
| Protocol.FailureMatches | app/services/job_service.py:357-398 | when the snapshot's counters are the row's, the branch taken in Python and the condition repeated in SQL agree, so the write lands exactly on ownership (and on an expired lease, for recovery) |
| Protocol.FailureFitsTheRow | app/services/job_service.py:357-386 | whatever counters a snapshot carries, a row is failed only with no attempt left and retried only with one |
| Protocol.RunKeepsInv | app/services/job_service.py:203-465 | every run keeps: ownership columns exactly on PROCESSING rows, attempts below the limit while more may come, error, result, progress and timestamps as the job's history demands |
| Guarantees.RowsSound | app/db/models.py:82-108 | in every reachable table the row invariant holds and no CHECK constraint can fire |
| Guarantees.LostOwnershipNeverReturns | app/services/job_service.py:276-343 | once an attempt does not own its row no run gives it back, and its heartbeat, progress, completion and failure writes change nothing ever after |
| Guarantees.OnlySettlementEndsOwnership | app/services/job_service.py:276-398 | an owner loses its row exactly by its own completion or failure or by a recovery that finds the lease expired |
| Guarantees.OwnedRowStep | app/services/job_service.py:276-320 | no one but the owner changes an owned row without ending the ownership, except to detach an expired key |
| Guarantees.FenceDemandsBoth | app/services/job_service.py:276-283 | whoever presents it, an attempt passes the fence exactly if the latest claim, not settled yet, was made by that worker under that token |
| Guarantees.ResultIsLatestAttempts | app/services/job_service.py:323-343 | a COMPLETED row shows the result of the attempt with the most recently drawn token |
| Guarantees.TokensNeverReused | app/services/job_service.py:238-261 | in every run two attempts with one token are the same attempt, across workers, retries and jobs |
| Guarantees.AttemptsBalance | app/services/job_service.py:250-398 | a row's attempt_count is its claims since creation or manual retry, claims are settlements plus the attempt in flight, and each token is settled exactly once when it no longer owns |
| Guarantees.AttemptsConservedOverall | app/services/job_service.py:250-528 | over the whole table, claims are settlements plus PROCESSING rows |
| Guarantees.SnapshotsAgree | app/services/attempt.py:14-46 | a snapshot's counters equal the row's while it owns it; so a failure write is refused exactly when the fence is gone (or the lease not expired), retries exactly while attempts are left, and always finds a delay |
| Guarantees.DelaysDefinedIff | app/services/retry_policy.py:14-25 | 30 seconds after the first attempt, 120 after the second, undefined otherwise |
| Guarantees.RecoveryNeverRaises | app/services/job_service.py:505-513 | every row a sweep can select carries an attempt and is settled, so no row aborts a batch |
| Guarantees.ClaimsAreDue | app/services/job_service.py:250-265 | no claim happens before the row's scheduled_at |
| Guarantees.FailedAfterFullBackoff | app/services/retry_policy.py:14-25 | a FAILED row had three claims in its cycle, at least 30 and then at least 120 seconds after the failure before |
| Guarantees.LifecycleTerminates | app/services/job_service.py:250-465 | without a manual retry a measure of at most nine pays for every status change |
| Guarantees.FinishedStaysFinished | app/services/job_service.py:585-657 | COMPLETED and CANCELLED rows never change again, FAILED rows only by a manual retry, apart from an expired key |
| Histories.CycleSpaced | app/services/job_service.py:362-386 | claims and failures of a cycle alternate, and each restart waits out the delay of the attempt before it |
| Histories.TokenSettledOnce | app/services/job_service.py:323-398 | a token is claimed at most once and settled once, or not yet while it owns the row |
| Histories.CycleEnds | app/services/job_service.py:250-265 | every status change uses up part of the cycle's allowance |
| Enabled.CreatedIff | app/services/job_service.py:103-142 | a submission is accepted exactly for a new id under a key whose last submission was built at least 24 hours ago |
| Enabled.ClaimedIff | app/services/job_service.py:250-257 | a claim goes through exactly for a job whose history leaves it PENDING: the attempt limit never stops one |
| Enabled.ActivatedIff | app/services/job_service.py:448-463 | an activation goes through exactly for a job SCHEDULED for a time that has come, by its submission or its last failure |
| Enabled.CancelledIff | app/services/job_service.py:596-598 | a cancellation goes through exactly for a PENDING or SCHEDULED job |
| Enabled.RetriedIff | app/services/job_service.py:639-641 | a manual retry goes through exactly for a FAILED job |
| Enabled.RecoveredIff | app/services/job_service.py:488-513 | a recovery goes through exactly for a job in flight whose lease ended before now |
| Enabled.CompletedIff | app/services/job_service.py:325-342 | a completion goes through exactly for the attempt of the latest claim, not settled yet |
| Enabled.FailedIff | app/services/job_service.py:401-412 | a failure likewise |
| Enabled.SubmissionStands | app/services/job_service.py:86-100 | in every reachable table a row's type, priority and creation time are those of its submission, and error, start and schedule what its history says |
| Enabled.ProgressFollows | app/services/job_service.py:309-343 | after any step, the progress is 100 on completion, 0 on a manual retry, the reported percentage on an owner's report, and otherwise as it was |
| Idempotency.KeyFreeIffNoConflict | app/services/job_service.py:65-80 | after the release a key is unheld exactly if everything submitted under it was built at least 24 hours before |
| Idempotency.LiveIffWithinWindow | app/services/job_service.py:55-62 | the lookup finds a row exactly while it holds the key and was built less than 24 hours ago |
| Idempotency.WindowsApart | app/services/job_service.py:55-100 | two jobs submitted under one key were built at least 24 hours apart, in every interleaving |
| Idempotency.OneHolder | app/db/models.py:109-117 | at most one row holds a key: the newest submitted under it, until 24 hours after it was built |
| Idempotency.KeyNeverFreed | app/services/job_service.py:65-142 | a key once used always has a holder: it changes hands, but is never found free |
| World.QueueNeverCorruptsTable | app/services/job_service.py:568-582 | a framing fact, by the shape of the moves: the table of the composed system is a reachable one, so every guarantee above holds in it |
| World.NoInvisibleWork | worker/runner.py:123-178 | with crashes anywhere, a PENDING job has its current token in the queue, unless the enqueue owed for this very stay in PENDING never ran; once it ran, even with its reply lost, no cleanup takes the entry while the job is PENDING |
| World.OneEnqueuePerTransition | worker/scheduler.py:65-99 | every enqueue that ever ran answers a transition into PENDING of its own, at the row's priority (that a publisher makes one attempt per transition is the shape of the moves) |
| ServiceOrders.QueueIsPerformed | app/services/queue_service.py:86-121 | in every interleaving, with crashes anywhere, the queue is what a history of enqueues and removals of observed tokens leaves |
| ServiceOrders.ReadySetInServiceOrder | app/services/queue_service.py:8-28 | so in every state of the system the sorted set is the live enqueues, each behind those of higher priority, or of the same and older |
| ServiceOrders.TicketsCarryRowPriorities | app/services/queue_service.py:132-138 | in every state each live enqueue was made at the priority in its job's row |
| ServiceOrders.HigherPriorityFirst | app/services/queue_service.py:8-28 | in every state, of two queued jobs whose rows have priorities in 0..100 the one nearer the head has the higher priority in its row, or the same and the older enqueue |
| ServiceOrders.HeadIsAhead | app/services/queue_service.py:140-147 | the head goes, in that order, before every other queued job |
| JobTables.JobTable.FindActiveByKey | app/services/job_service.py:55-62 | a holder of the key built less than 24 hours ago; none exactly if everything ever submitted under the key was built at least 24 hours ago |
| JobTables.JobTable.InsertJob | app/services/job_service.py:119-129 | releases and inserts in one transaction: a new row, sole holder of its key, exactly if the id is new and the key's last submission at least 24 hours old, otherwise nothing |
| JobTables.JobTable.ClaimJob | app/services/job_service.py:225-273 | a row exactly when the job is PENDING, and then it is owned under the fresh token with a full lease and one attempt more, every other column as it was |
| JobTables.JobTable.ExtendLease | app/services/job_service.py:286-306 | the new deadline exactly when the attempt owns the row, otherwise nothing changes |
| JobTables.JobTable.UpdateProgress | app/services/job_service.py:309-320 | writes a percentage within 0 and 100 exactly when the attempt owns the row |
| JobTables.JobTable.CompleteJob | app/services/job_service.py:323-343 | completes with this result exactly when the attempt owns the row, which it no longer does afterwards; no column but those of the outcome changes |
| JobTables.JobTable.ApplyFailure | app/services/job_service.py:346-398 | one failure write, committed or not, is a step of the protocol |
| JobTables.JobTable.FailAttempt | app/services/job_service.py:401-428 | ownership lost exactly when the fence is gone; otherwise a retry exactly while the row has attempts left, with this error and no other column changed; the delay table never raises |
| JobTables.JobTable.ActivateDueScheduledJobs | app/services/job_service.py:431-469 | at most `limit` unlocked SCHEDULED rows whose time has come, all of them if fewer, none left behind that waited longer; they are PENDING with every other column as it was, and returned in any order |
| JobTables.JobTable.RecoverExpiredLeases | app/services/job_service.py:476-528 | settles at most `limit` unlocked rows in flight whose lease is over, all of them if fewer, oldest lease first, each once, and changes no other row |
| Deployments.Deployment.TiedSound | app/services/queue_service.py:3-6 | whatever calls have been made, the invariants of the table, the queue and their composition hold of the real objects |
| Deployments.Deployment.NoHiddenJob | worker/scheduler.py:71-97 | a PENDING row of the real table is in the real queue, unless its own enqueue never ran |
| Deployments.Deployment.CreateJob | app/services/job_service.py:103-142 | with others running between its statements: a new sole holder of its key, or a holder built less than 24 hours ago, or an error exactly for an id collision or a lost race whose winner's window has closed; alone, an existing job exactly if one was submitted under the key less than 24 hours ago, otherwise a new one if the id is new, and only that changes the table |
| Deployments.Deployment.SubmitJob | app/services/job_service.py:145-188 | answers as create_job does, of the table as it left it; exactly a new PENDING job is owed an enqueue, at its priority, which has run exactly if the publish did; no row goes either way; alone, only a new job changes the table |
| Deployments.Deployment.Peek | app/services/queue_service.py:140-147 | nothing exactly if nothing is queued, otherwise the job that goes before every other queued one by the priorities in the rows, if in 0..100, and then by enqueue |
| Deployments.Deployment.RecoverBatch | app/services/job_service.py:488-528 | a sweep is the recoveries of its batch, one by one; it publishes nothing and leaves queue, owed enqueues and actors alone |
| Deployments.Deployment.RemoveCurrent | app/services/queue_service.py:161-171 | with others between lookup and removal: the entry found is gone, one that replaced it in between is untouched; alone, the job's entry goes and no other |
| Deployments.Deployment.CancelJob | app/services/job_service.py:585-624 | with others at every cut: cancels PENDING and SCHEDULED jobs, changing nothing but the status, accepts CANCELLED ones, refuses the rest; a job reported cancelled is so at the end, whatever becomes of the cleanup |
| Deployments.Deployment.RetryJob | app/services/job_service.py:627-681 | with others at every cut: exactly a FAILED job starts a new claimable cycle and is owed one enqueue for it, which has run exactly if the publish did |
| Deployments.Deployment.PublishOwed | app/services/job_service.py:165-186 | a publish has run, and given the job the newest entry, unless its script never ran; a lost reply counts as lost although it ran |
| Sweeps.OrderByLimit | app/services/job_service.py:448-455 | an answer to ORDER BY and LIMIT: distinct, sorted, and nothing left out comes before anything taken |
| Sweeps.ConcurrentSelectionsCompose | app/services/job_service.py:434-440 | two calls at once share no row and together take what one call with both limits could take |
| Sweeps.ConcurrentBatchesCompose | app/services/job_service.py:488-503 | the same of two locking selects, order included |
| Sweeps.ActivatedOutOfReach | app/services/job_service.py:448-463 | an activated row is out of reach of the next call, both while it is locked and once it is committed |
| Sweeps.ActivatesEach | app/services/job_service.py:456-467 | the set-wise UPDATE is the run that activates its rows one by one |
| Sweeps.RecoverOne | app/services/job_service.py:505-513 | a recovered row is SCHEDULED after its delay or FAILED, with its owner gone and every other column as it was, and no other row changes |
| Sweeps.SweepShrinksExpired | app/services/job_service.py:488-528 | a sweep takes its batch out of the expired rows and adds none |
| Sweeps.SweepsCompose | app/services/job_service.py:488-528 | a sweep and the next one settle the rows of both batches, each once, and no other row |
| Leases.SurvivesIffPassesFit | worker/heartbeat.py:79-85 | a loop that misses at most k beats in a row never lets its lease run out if and only if k + 1 passes fit into the lease |
| Leases.AcceptedIffSomeHeadroom | app/core/config.py:48-61 | a setting is accepted exactly if a beat may be late by some time and still hold the lease |
| Leases.AcceptedSettingsMayNotSurviveOneMiss | app/core/config.py:48-61 | a setting that is accepted and survives no missed beat, and the defaults, which survive two |
| Leases.LeaseIsLastRenewal | app/services/job_service.py:286-306 | anywhere in a run an owned row's lease is what the owner's last heartbeat, or its claim, made it |
| Leases.RecoveryTakesIffLapsed | app/services/job_service.py:388-392 | recovery takes the job if and only if that renewal is more than a lease ago at write time |
| Leases.HealthyOwnerKeepsJob | worker/heartbeat.py:79-123 | an owner that does not settle, beats on time through a run and misses at most k beats in a row holds its job and its last renewal's lease at the end, whatever sweeps and others did |
| Leases.HealthyOwnersAreSafeIff | app/core/config.py:48-61 | such owners keep their jobs in every run from every reachable table if and only if k + 1 passes fit into the lease |
| Leases.OthersSpareLease | app/services/job_service.py:388-392 | a run of everybody else, the attempt's own handler included, that ends before the lease does leaves job and lease with the owner |
| Leases.OthersRenewNothing | app/services/job_service.py:286-306 | in such a run an owner's lease stays what its own heartbeat made it |
| Leases.OthersSpareProgress | app/services/job_service.py:309-320 | in a run of everybody else, the attempt's own heartbeat included, an owner's progress stays what its own handler made it |
| Leases.OthersSpareOwnedRow | app/services/job_service.py:276-320 | a run of everybody but the owner leaves an owned row as it was |
| Workers.PublishAllEntries | worker/scheduler.py:79-97 | publishing a batch gives each of its jobs an entry and leaves every other job's alone |
| Workers.JobScheduler.RunOnce | worker/scheduler.py:65-99 | takes the first due unlocked rows as the activation does; with others at every cut, each is owed one enqueue at its own priority, which has run exactly if its own publish did; alone, the queue is the old one plus those entries |
| Workers.LeaseRecovery.RunOnce | worker/recovery.py:55-65 | counts the batch it settled, each row once; no other row changes, the expired rows shrink by that many, and nothing is published |
| Workers.LeaseRecovery.RunUntilIdle | worker/recovery.py:44-65 | repeated alone it ends, in as many sweeps as full batches need: every row that was expired has been settled once, every other row and the queue are as they were |
| Workers.LeaseHeartbeat.SendBeat | worker/heartbeat.py:87-123 | false, and ownership_lost set, exactly when the database refused the beat; a database error is not a refusal |
| Workers.LeaseHeartbeat.Run | worker/heartbeat.py:79-85 | goes on until its passes are over, stop is set or ownership is lost, and writes one beat in every pass that finds the database; with the attempt's handler reporting meanwhile, an owner whose loop was on time with few enough misses in a row for its lease still owns the job and holds the last good beat's lease, whatever others did; a loss is reported only when there is one |
| BatchProgress.PercentageIsWholePart | worker/runner.py:310-311 | the percentage reported is the whole part of the share of items done |
| BatchProgress.ReportsReachHundred | worker/runner.py:305-314 | every report of a batch is within 0 and 100, and the one after the last item is 100 |
| BatchProgress.ColumnNeverDropsIff | worker/runner.py:305-314 | a leftover followed by the reports of an attempt never goes down if and only if there is no report or the leftover is at most the first |
| BatchProgress.RestartLowersColumn | app/services/job_service.py:258-265 | a run in which a new owner's first report lowers the column |
| BatchProgress.HandleBatch | app/jobs/handlers.py:46-57 | with the attempt's heartbeat and others running between items, the column of an owner goes from what it found through the reports in order, nothing else accepted from it, and never goes down if and only if it started no higher than the first report; it raises exactly when ownership was gone at a report, writes nothing from then on, and otherwise ends at 100 |
| Runner.JobRunner.RunHandler | worker/runner.py:195-268 | beats, reports and the handler's end in any order with others before each: the attempt's own writes in the log are exactly those its turns demand, all accepted but perhaps the last; it ends as the handler does, returned for returned and raised for raised, or is abandoned at the first refused write, unless that was a beat which the handler outran |
| Runner.JobRunner.Execute | worker/runner.py:180-303 | an attempt that still owns its job when its handler is over settles it as the handler ended; one that does not has its settling write refused; its writes are those of its turns and the settling one; unless its process dies, it owns nothing afterwards |
| Runner.JobRunner.DiscardUnclaimable | worker/runner.py:150-166 | with others running, its last step leaves the queue as it met it, or takes the observed token and nothing else, and that only if the job as re-read is not claimable; if it is not, the token is gone afterwards and a newer one stays |
| Runner.JobRunner.TryCandidate | worker/runner.py:123-146 | runs an attempt claimed under the fresh token, or leaves that token unused; alone, the head leaves the queue, executed if it was claimable and the table untouched if not |
| Runner.JobRunner.RunOnce | worker/runner.py:87-148 | with others at every cut, at most one attempt, of a job claimed under this cycle's token, owning nothing at the end; alone, drops the stale entries ahead of the first runnable job and executes that job, looking at no more than ten entries and at fewer once stop is set |
| Runner.JobRunner.Drain | worker/runner.py:69-85 | a lone runner empties the queue in no more cycles than entries; its claims in the log are exactly the PENDING jobs among the live enqueues, highest priority first, oldest enqueue first within a priority; each is COMPLETED with the result its handler returned, or SCHEDULED or FAILED with the error it raised, and no other row changes |
| Runner.RunnableInServiceOrder | worker/runner.py:95-146 | whatever moves led to the queue, its runnable jobs in its order are the PENDING ones among the live enqueues in service order |

## Left out

- Members.MemberRoundTrip: the number returned is the counter as Lua prints it, which is the counter itself up to 2^53; beyond 19 digits nothing is stated. `uuid.UUID` and `int` accept more spellings than the canonical ones the scripts write.
- PriorityFifo.QueueRefinesPriorityFifo: about removals of tokens that were read off the queue, and counters up to 2^53; the service makes no other removal.
- Deployments.Deployment.CreateJob: releasing an expired key and inserting the new row are one step, as they commit together; the lookup before and the read-back after are steps of their own.
- Runner.JobRunner.Execute: a handler is its reports and its end. Cancelling it stops it at once, and the heartbeat has stopped when the attempt settles; a beat that outlives the timeout on stopping it is covered by the fence.
- Workers.LeaseRecovery.RunUntilIdle: a recovery that is not alone has no bound on its sweeps, as leases may expire while it works.
- BatchProgress.ColumnNeverDropsIff: exact arithmetic instead of floating point, so a percentage may differ by one from the program's.
- Liveness after a lost enqueue: nothing in the service republishes a PENDING job without an entry, and none is claimed.
- Request validation, routes, health counts, listing, logging, the payload column and the job_logs table.
- Migrations: the table starts empty at the newest schema.
- Errors of PostgreSQL or Redis other than a failed beat, a failed or unacknowledged publish and a failed cleanup; partial script failure; overflow of the INCR counter.
- The handlers for email, webhook and report, which end in success or failure as the environment decides.
