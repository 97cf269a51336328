# Job lifecycle of the distributed job scheduler, in Dafny

The scheduler stores jobs in a table, hands them to worker processes through a log, and learns their
outcome through another log; failed jobs are retried and end as dead letters that can be replayed. This
project models that protocol and proves what it keeps in every interleaving of its processes, and where it
does not keep what one might expect.

There are three layers.

* **Statements.** `Types`, `Workers`, `Jobs`, `Letters` and `Broker` define every SQL statement of the lifecycle and every
  move of a topic or a consumer group as a function (FetchPending, whose order leaves ties open, as a
  relation) and as a method of a class that works in place and is proved against it.
* **The system.** `Pipeline` is a labelled transition system over these functions: any number of
  dispatchers, workers and partitions; FetchPending split into lock and commit; publishes that are refused
  or land behind an error; crashes, restarts and redelivery at every point. `Records`, `Messages`,
  `Outcomes`, `Tokens` and `Progress` hold the parts of its invariant, `Lifecycle` puts them together.
  `Picking`, `Guarantees` and `Termination` state the results about all runs, `Finishing` says exactly which
  jobs can still end with nothing lost, `Recovering` shows that no state is a dead end, `Disturbing` gives runs that show the limits. A job is *disturbed* once it is cancelled
  or requeued while an attempt is outstanding, one of its messages is redelivered, or a publish that reported
  an error has landed; it is *rough* (the others are *smooth*) if it is disturbed, was cancelled or requeued
  while RUNNING, or its message was lost or rolled back. Both, like the counts of requeues and rollbacks, are
  history: they decide no step.
* **The programs.** `Dispatching`, `Sweep`, `Collecting`, `Executing`, `Submission`, `Replaying` and
  `RateLimit` hold the code of the processes as classes. The dispatcher's tick, the result handler and the
  replay handler are proved to be runs of their transition systems; executor, submission and replay have
  machines of their own for their races. `Simulating` proves that the executor's machine and the consume loop
  do what the transition system has them do.

Where the code and its comments differ the model follows the code: the jobs a stale worker loses are decided
at 15 s (`internal/scheduler/heartbeat_monitor.go:11`), not at the 60 s a comment mentions
(`internal/repository/jobs.go:171`); worker ids are new for every process (`cmd/worker/main.go:36`), so a
restarted worker never reads what was addressed to its former self.

`dafny verify dfyconfig.toml` checks the project.

## Model

| member | source | states |
|---|---|---|
| `Guarantees.ExclusiveToken` | internal/scheduler/dispatcher.go:82-100 | In every reachable state a job never cancelled or requeued with an attempt outstanding, nor redelivered, nor published by a write whose error was false, has at most one live message among dispatchers, the jobs log, workers and the results log; if it has one its row is RUNNING with exactly that message's worker and attempt |
| `Guarantees.TerminalIsFinal` | internal/repository/jobs.go:190-218 | From any reachable state, over any further run, a COMPLETED or DEAD row of a job that stays undisturbed never changes; jobs recovered from a dead worker after their message was lost are undisturbed |
| `Guarantees.TerminalChangesExactly` | internal/repository/jobs.go:195-210 | For every job and every step of the system: a terminal row changes if and only if the step handles a result for it that is a success while the row is not COMPLETED, or a failure while it is not DEAD with attempts >= 3 |
| `Guarantees.TerminalStandsExactly` | internal/collector/result_collector.go:36-59 | Over every run from a reachable state a terminal row stands throughout if and only if no step handles such a result |
| `Guarantees.StepKeepsTerminal` | internal/collector/result_collector.go:36-59 | No step handles such a result for an undisturbed job |
| `Guarantees.AttemptBound` | internal/repository/jobs.go:143-144 | Over every run `attempts` is the number of FetchPending commits of the run that picked the job, is at most 3 + requeues + rollbacks, is below that bound while QUEUED, and is 1 or 2 while RETRYING |
| `Picking.AttemptsCountPicks` | internal/repository/jobs.go:143-144 | Between any two states of a run `attempts` grows by exactly the number of commits that picked the job |
| `Picking.WithinLimitExactly` | internal/repository/jobs.go:143-144 | Over every run from a reachable state a job stays within three attempts if and only if no FetchPending commit picks it while QUEUED with three used up |
| `Picking.ExhaustedExactly` | internal/repository/jobs.go:173-181 | For every step: a job becomes QUEUED with three attempts used up if and only if RequeueStale or a rollback takes it back from RUNNING, neither of which looks at attempts |
| `Picking.EpisodesAreClaimedOnce` | internal/repository/jobs.go:134-165 | Along any run from a reachable state picks of a job do not outnumber the pending episodes that have ended: each QUEUED or RETRYING episode is claimed at most once |
| `Guarantees.NoDeadLetterLost` | internal/collector/result_collector.go:44-56 | Whatever crashes and restarts happen, a DEAD job that was never cancelled has its dead letter in the topic or a failure at or beyond the results group's committed offset |
| `Guarantees.CommitPrefix` | internal/broker/consumer.go:31-59 | In every reachable state each offset below a committed offset of any of the three groups has been handled; for the dead-letter group a row was inserted with the message's job, worker, type, attempts and error, and with its payload, or {} for an empty one |
| `Guarantees.LettersCarryTheJob` | internal/collector/dead_letter_consumer.go:25-37 | Every row ever inserted into dead_letters has the type and the payload, {} for an empty one, of the row of its job, an attempt the job has had, and was inserted for a reported failure |
| `Guarantees.DispatchExclusive` | internal/repository/jobs.go:134-165 | With any number of dispatchers, sets locked by open FetchPending statements are disjoint and stay pending until commit, each pending episode is claimed at most once, and copies of a message in batches, the log and channels with equal job and attempt are equal in worker and content |
| `Guarantees.Provenance` | internal/worker/kafka_producer.go:22-31 | Every job message, result and dead letter names an existing job, carries its type and payload and 1 <= attempts <= the row's; only the addressee holds a message on its channel; COMPLETED implies a published success; a result for a job missing from the table does not occur |
| `Guarantees.LiveWorkersKeepJobs` | internal/repository/jobs.go:168-181 | Whenever RequeueStale would take a job, its worker's last consumed heartbeat is more than 15,000,000 microseconds old or there is none |
| `Guarantees.RowsOfEveryRun` | internal/repository/jobs.go:220-243 | In every reachable state QUEUED rows have no worker, RUNNING rows an existing worker and attempts >= 1, no row is FAILED, and the FetchAssigned sets over all workers partition the RUNNING rows |
| `Guarantees.RunIsLater` | internal/repository/jobs.go:44-70 | Jobs are never deleted along a run, and a job once disturbed stays so |
| `Lifecycle.KeepsInv` | internal/scheduler/dispatcher.go:53-110 | Every step of the system, whoever takes it, preserves the conjunction of all invariants the run theorems rest on |
| `Lifecycle.RunKeepsInv` | internal/scheduler/dispatcher.go:53-110 | Those invariants hold at the end of every run that starts with them |
| `Lifecycle.StepIsLater` | internal/repository/workers.go:49-60 | Under a clock that does not run backwards a worker is UNHEALTHY only if its last heartbeat is over 15 s old or NULL, whatever step happens; the history only grows |
| `Termination.StepComesCloser` | internal/scheduler/dispatcher.go:53-110 | Each step leaves a job with clean publishes and no lost message untouched, or lowers (3 - attempts, stage) lexicographically |
| `Termination.SmoothJobsTerminate` | internal/worker/executor.go:83-123 | Over any run such a job is touched at most 25 times, dispatched at most three times, and its rank is 0 exactly when it is COMPLETED or DEAD |
| `Termination.RunsAreBounded` | internal/scheduler/dispatcher.go:53-110 | In a run without new submissions in which no message is lost, disturbed or rolled back, at most 25 steps per job, over all jobs together, change any row or move any live job message, however long the run is |
| `Termination.BusyStepsAreBounded` | internal/scheduler/dispatcher.go:53-110 | For any set of jobs that stay smooth, at most 25 steps per job of the set touch any of them, with submissions and other jobs interleaved |
| `Termination.SmoothJobsHaveTheirMessage` | internal/scheduler/dispatcher.go:82-100 | A RUNNING job with no lost message has exactly one live message |
| `Finishing.SmoothJobsFinishExactly` | internal/scheduler/dispatcher.go:82-100 | A job with nothing disturbed or lost can still reach COMPLETED or DEAD with nothing disturbed or lost if and only if it is not lost with its dispatcher already: its publish failed, or it is still to be published to a worker process that is gone |
| `Finishing.CarriedJobGetsVerdict` | internal/worker/executor.go:83-123 | From wherever its message is, past any backlog in batches, logs, channel and slots, such a RUNNING job can be carried to its verdict with nothing of it disturbed or lost |
| `Finishing.HelpfulStep` | internal/scheduler/dispatcher.go:82-100 | In every reachable state in which such a job is RUNNING some enabled step takes it to its next stage or nearer to it |
| `Finishing.DoomedJobsNeverFinish` | internal/scheduler/dispatcher.go:91-98 | Over any run a job lost with its dispatcher stays so or is noted as lost, rolled back or disturbed |
| `Tokens.DispatchKeepsToken` | internal/scheduler/dispatcher.go:82-100 | No dispatcher step duplicates the live message of an undisturbed job or lets it outlive its RUNNING row |
| `Tokens.ReadKeepsToken` | internal/worker/kafka_consumer.go:26-48 | Nor does any step of a worker's consumer, including rejoin and crash |
| `Tokens.WorkKeepsToken` | internal/worker/executor.go:61-79 | Nor does taking a job or reporting its result |
| `Tokens.CollectKeepsToken` | internal/collector/result_collector.go:23-60 | Nor does handling, committing or redelivering results |
| `Messages.KeepsIssues` | internal/repository/jobs.go:143-148 | Attempt n of job j is recorded for exactly the n from 1 to attempts(j), with the row's content, and a RUNNING row belongs to the worker of the last one |
| `Messages.KeepsSent` | internal/scheduler/dispatcher.go:83-90 | Every message in a batch, a log, a channel or the results descends unchanged from a recorded attempt |
| `Outcomes.KeepsOutcome` | internal/collector/result_collector.go:44-56 | Each step keeps that COMPLETED rows have a published success and uncancelled DEAD rows a letter or an uncommitted failure |
| `Outcomes.KeepsRows` | internal/repository/jobs.go:134-259 | Each step keeps the row and attempt invariants |
| `Outcomes.ResultsNameJobs` | internal/collector/result_collector.go:36-48 | The job of the result to be handled is always in the table: HandleResult never meets ErrNotFound |
| `Records.KeepsPositions` | internal/broker/consumer.go:31-59 | Each step keeps committed <= read position <= end of log, every offset below the position handled, and a worker's channel and executing set within their bounds |
| `Records.KeepsLocks` | internal/repository/jobs.go:134-142 | Each step keeps the lock sets of open FetchPending statements pairwise disjoint, existing and pending |
| `Progress.HolderIsWorker` | internal/scheduler/dispatcher.go:83-90 | The row's worker is the one the live message is addressed to |
| `Disturbing.JobsCanComplete` | internal/collector/result_collector.go:36-42 | From every initial state with a partition in each topic there is a run that completes a job with nothing disturbed, lost or rolled back |
| `Disturbing.CancelledJobCompletes` | internal/repository/jobs.go:209-218 | COMPLETED and DEAD are not final for all jobs: a run in which a job cancelled while its result is under way is DEAD and then COMPLETED |
| `Disturbing.FailedPublishesCostAttempts` | internal/scheduler/dispatcher.go:91-98 | In any table, a turn whose every publish is refused puts each picked job back to QUEUED one attempt poorer and changes no other row and no topic |
| `Disturbing.AttemptsHaveNoBound` | internal/repository/jobs.go:245-249 | For every n there is a run with attempts = n and no worker process at all, since rollback does not lower attempts: 3 alone is no bound |
| `Recovering.UnfinishedJobsCanComplete` | internal/repository/jobs.go:167-188 | No dead ends: from every reachable state, whatever has crashed or been lost, every unfinished job has a continuation that completes it; a pending job needs no further loss for that, and a RUNNING job whose message is gone is recovered undisturbed |
| `Recovering.RequeueJob` | internal/repository/jobs.go:172-181 | Any RUNNING job is pending again once its worker has been silent for over 15 s and RequeueStale has run, and is disturbed by that only if its attempt was outstanding |
| `Recovering.PendingJobCanComplete` | internal/scheduler/dispatcher.go:65-103 | A pending job can be claimed, published, run and completed past any backlog in its logs, with nothing disturbed or lost |
| `Recovering.SmoothJobsCanFinish` | internal/worker/executor.go:83-123 | The rank of an unfinished job can always be taken to zero, if need be by requeueing it; a pending job keeps nothing disturbed or lost on the way |
| `Simulating.ExecutorRun` | internal/worker/executor.go:49-123 | Any run of the executor over its channel is a run of the transition system: launching is taking, reporting is reporting with any outcome, everything else is hidden |
| `Simulating.LaunchIsTake` | internal/worker/executor.go:67-78 | When a goroutine is launched fewer than 5 jobs execute, and it takes the next job of the channel |
| `Simulating.PushIsConsume` | internal/worker/kafka_consumer.go:36-44 | When the channel has room the consumer's read of a message for this worker is enabled |
| `Simulating.BuryingSession` | internal/broker/consumer.go:31-59 | Whatever a session of the dead-letter group does is a run of the transition system |
| `Simulating.CollectingSession` | internal/broker/consumer.go:31-59 | Whatever a session of the results group does is a run of the transition system, when each message it handles or commits is in a partition that owes no letter and names a row nobody has locked |
| `Simulating.ReadingSession` | internal/broker/consumer.go:31-59 | Whatever a session of a worker's group does is a run of the transition system, when the channel and the executor's hand have room for the messages it reads for this worker |
| `Dispatching.TickIsGreedy` | internal/scheduler/dispatcher.go:65-103 | With no publish failure one tick assigns exactly the top N available jobs, N = min(available, sum of the capacities of its turns): whoever is left out has a lower priority than every picked job, or the same and no earlier created_at, and so has each later block against an earlier one; blocks follow worker order, and each row is claimed for the worker of its block |
| `Dispatching.PlannedTickIsGreedy` | internal/scheduler/dispatcher.go:65-76 | When the turns follow the plan of the code, N is min(available, sum of max(0, 5 - running_jobs) over the workers whose fetch succeeds), picked by priority and age |
| `Dispatching.OfferIsRoomLeft` | internal/scheduler/dispatcher.go:66-76 | A worker is offered 5 - running_jobs if that is positive and its fetch succeeds, else nothing |
| `Dispatching.HeartbeatsMakeRoom` | internal/repository/workers.go:49-60 | A worker is healthy for 15 s after a heartbeat or a registration, and the next tick offers it 5 less what it reported as running, or 5 |
| `Dispatching.NeverPickedNeverOutranks` | internal/scheduler/dispatcher.go:65-103 | With publish failures, a pending job never picked in the tick has a lower priority than every picked job, or the same and no earlier created_at |
| `Dispatching.Dispatcher.Tick` | internal/scheduler/dispatcher.go:53-110 | The tick loop over healthy workers changes the table as its turns say, offers each worker with room 5 - running_jobs, and is a run of the transition system in which only this dispatcher moves and locks rows only for workers healthy now |
| `Dispatching.ByIsPrompt` | internal/scheduler/dispatcher.go:54-71 | Claims made in one go for workers found healthy are made for workers that are still healthy |
| `Dispatching.Dispatcher.ServeAll` | internal/scheduler/dispatcher.go:65-103 | The worker loop makes one turn per worker with room whose fetch succeeds, in order |
| `Dispatching.Dispatcher.Offered` | internal/scheduler/dispatcher.go:66-76 | A worker without room or whose fetch errs gets no turn, every other one a turn of 5 - running_jobs |
| `Dispatching.Dispatcher.Serve` | internal/scheduler/dispatcher.go:71-102 | One worker's turn claims the best jobs and returns exactly those whose publish reported an error and whose rollback ran |
| `Dispatching.Dispatcher.PublishBatch` | internal/scheduler/dispatcher.go:82-100 | The publish loop leaves the table and the topic as the acknowledgements dictate, message by message |
| `Dispatching.SentReturns` | internal/scheduler/dispatcher.go:91-98 | Publishing a batch changes the table only by returning the jobs rolled back |
| `Dispatching.ServeTrace` | internal/scheduler/dispatcher.go:71-102 | Fetching, publishing and rolling back in code order is a sequence of enabled steps of the transition system |
| `Jobs.JobsTable.Create` | internal/repository/jobs.go:44-52 | Inserts under a new id a QUEUED row with the given type, payload and priority, no attempts, no worker and created_at now, and changes no other row; a used id is refused |
| `Jobs.JobsTable.Cancel` | internal/repository/jobs.go:55-70 | Makes exactly QUEUED, RUNNING and RETRYING rows DEAD; reports not found otherwise |
| `Jobs.JobsTable.Get` | internal/repository/jobs.go:73-85 | Returns the row, or not found |
| `Jobs.JobsTable.Best` | internal/repository/jobs.go:136-142 | Finds a candidate of the highest priority, the oldest of these |
| `Jobs.JobsTable.PickTop` | internal/repository/jobs.go:136-142 | Picks min(limit, available) rows; those left behind have a lower priority, or the same and no earlier created_at |
| `Jobs.JobsTable.FetchPending` | internal/repository/jobs.go:134-165 | Claims for the worker, RUNNING and with one attempt more, unlocked QUEUED and RETRYING rows, as many as the limit or all; whatever is left behind has a lower priority than each claimed row, or the same and no earlier created_at; lists each claimed row once |
| `Jobs.PickIsByPriorityAndAge` | internal/repository/jobs.go:139-140 | The same of every set FetchPending may pick |
| `Jobs.JobsTable.RequeueStale` | internal/repository/jobs.go:172-188 | Returns to QUEUED exactly the RUNNING rows of stale or UNHEALTHY workers and counts them |
| `Jobs.JobsTable.MarkCompleted` | internal/repository/jobs.go:190-192 | Sets COMPLETED whatever the status was; not found for a missing row |
| `Jobs.JobsTable.MarkFailed` | internal/repository/jobs.go:194-207 | Sets DEAD when attempts have reached the maximum, else RETRYING, whatever the status was |
| `Jobs.JobsTable.FetchAssigned` | internal/repository/jobs.go:220-243 | Lists each RUNNING row of the worker once |
| `Jobs.JobsTable.RollbackToQueued` | internal/repository/jobs.go:245-259 | Returns a RUNNING row to QUEUED without a worker, attempts unchanged; not found otherwise |
| `Jobs.PickThenPick` | internal/repository/jobs.go:136-142 | Two FetchPending statements in a row claim together what one with both limits would, the first block ranking no lower |
| `Jobs.MarkFailedKeepsTerminal` | internal/repository/jobs.go:195-199 | A terminal row survives MarkFailed unchanged if and only if it is DEAD with its attempts used up, and stays terminal if and only if they are |
| `Jobs.MarkCompletedKeepsTerminal` | internal/repository/jobs.go:209-210 | A terminal row survives MarkCompleted unchanged if and only if it is COMPLETED |
| `Jobs.AssignedPartitions` | internal/repository/jobs.go:220-224 | FetchAssigned over all workers returns each RUNNING row exactly once |
| `Jobs.CreateKeeps` | internal/repository/jobs.go:44-52 | Create adds only a fresh QUEUED row |
| `Jobs.RowStatementsKeep` | internal/repository/jobs.go:55-70 | Cancel, rollback and both verdicts keep all rows with their content and attempts, and start nothing |
| `Jobs.RequeueKeeps` | internal/repository/jobs.go:172-181 | So does RequeueStale |
| `Workers.WorkersTable.Register` | internal/repository/workers.go:38-47 | Inserts an IDLE row with a heartbeat of now |
| `Workers.WorkersTable.UpsertHeartbeat` | internal/repository/workers.go:49-66 | Refreshes load and heartbeat, revives OFFLINE and UNHEALTHY rows as IDLE, creates a missing row |
| `Workers.WorkersTable.FetchHealthy` | internal/repository/workers.go:69-93 | Lists every healthy worker once, least loaded first, unknown CPU last |
| `Workers.WorkersTable.LeastLoaded` | internal/repository/workers.go:75-75 | Finds a worker no other is ordered before |
| `Workers.WorkersTable.MarkUnhealthy` | internal/repository/workers.go:95-107 | Marks exactly the silent workers that are neither UNHEALTHY nor OFFLINE, and counts them |
| `Workers.HealthyOrLost` | internal/repository/workers.go:70-75 | No worker that is not OFFLINE is both healthy and lost, and it is neither exactly when its heartbeat is exactly 15 s old and it is not UNHEALTHY |
| `Sweep.SweepIsExact` | internal/scheduler/heartbeat_monitor.go:46-55 | An uninterrupted monitor tick requeues a RUNNING job if and only if its worker is UNHEALTHY, stale, or without a heartbeat and not OFFLINE |
| `Sweep.SweepClears` | internal/scheduler/heartbeat_monitor.go:46-55 | After the tick no RUNNING job belongs to such a worker |
| `Sweep.SweepLeavesCleared` | internal/scheduler/heartbeat_monitor.go:46-55 | A lost worker that no open FetchPending serves is cleared by the tick |
| `Sweep.ClearedStaysCleared` | internal/repository/workers.go:70-75 | With dispatcher ticks atomic, as each tick by itself is, a cleared worker holds no RUNNING job in any later state until its next heartbeat is consumed |
| `Sweep.OpenClaimRefillsWorker` | internal/repository/jobs.go:143-146 | Without that atomicity a FetchPending still open for a swept worker gives it RUNNING jobs if and only if it has locked any |
| `Sweep.HeartbeatMonitor.Tick` | internal/scheduler/heartbeat_monitor.go:46-64 | Runs both statements in order; if marking reports an error nothing is requeued; if both run the tables are those of an uninterrupted sweep; whatever has landed is a run of the transition system |
| `Broker.Log.Write` | internal/broker/producer.go:33-48 | A write appends the message to one partition unless it is refused; an error does not exclude that it has landed |
| `Broker.Consumer.Run` | internal/broker/consumer.go:31-59 | Over any script of arrivals, rebalances, fetches, handler failures and commit errors behind which the commit may have landed: every round taken did what its fetch, its handler and its commit say, and only the last may have ended the loop; every stretch between rebalances handles offsets in order without gaps or repeats; every offset below a committed one has been handled |
| `Broker.HandledDidNotFail` | internal/broker/consumer.go:46-48 | Whatever a run lists as handled was fetched in a round whose handler did not fail |
| `Broker.SegmentsAreSessions` | internal/broker/consumer.go:31-59 | Every stretch of a walk without a rebalance is a session of its own |
| `Broker.Consumer.OneRound` | internal/broker/consumer.go:33-57 | The message fetched is handled if and only if its handler does not fail; on a failure Run fails, and the read position and the committed offset stay before it; else the offset is committed exactly when the commit is done or lands; the exit is the one the fetch and the commit call for |
| `Broker.Consumer.HandleAndCommit` | internal/broker/consumer.go:46-57 | The same for the part after the fetch, partition by partition |
| `Broker.WalkIsSession` | internal/broker/consumer.go:46-57 | Every walk of handling and committing moves handles each partition in order without gaps or repeats |
| `Broker.WalkSeesArrivals` | internal/broker/consumer.go:33-33 | Messages that arrive during a session do not invalidate what it has done |
| `Broker.HandledExtendsSession` | internal/broker/consumer.go:46-57 | The next message of a partition is one the session has not handled, and handling it keeps the session in order |
| `Broker.GroupMovesSoundly` | internal/broker/consumer.go:31-59 | Handling, committing and restarting keep every offset below the committed one handled |
| `Collecting.ResultCollector.HandleResult` | internal/collector/result_collector.go:23-60 | Drops the cache entry on every path; on success the row has its verdict, and a DEAD verdict by failure is accompanied by a published letter; a verdict that lands behind an error publishes nothing |
| `Collecting.HandleTrace` | internal/collector/result_collector.go:23-60 | One HandleResult is a sequence of enabled steps of the transition system; after an error behind a DEAD verdict the letter is still owed |
| `Collecting.LandedVerdictTrace` | internal/collector/result_collector.go:45-48 | A verdict that lands behind an error, which ends the session, is handling and starting over |
| `Collecting.LastResultDecides` | internal/collector/result_collector.go:36-59 | After any sequence of results each row has the verdict of the last result that names it, and nothing else has changed |
| `Collecting.RedeliveryInvisible` | internal/broker/consumer.go:46-57 | Handling any suffix of a sequence of results once more leaves the jobs table as it was |
| `Collecting.RedeliveryRepeatsLetters` | internal/collector/result_collector.go:50-56 | The only repeated effect is that the suffix publishes its own dead letters again |
| `Collecting.RedeliveryAfterDispatchShows` | internal/repository/jobs.go:195-199 | With a dispatch in between, a redelivered result does change the RUNNING row |
| `Collecting.DeadLetterConsumer.Handle` | internal/collector/dead_letter_consumer.go:18-52 | Inserts a row, OPEN and not replayed, with the message's job, worker, type, attempts and error and its payload, or {} for an empty one; the row may be there behind an error |
| `Executing.BoundedConcurrency` | internal/worker/executor.go:49-81 | Over all interleavings at most 5 jobs execute, RunningJobs never under-reports, semaphore and counter have their exact occupancy, and no job is reported twice |
| `Executing.ReturnedMeansReported` | internal/worker/executor.go:53-65 | When Run has returned nothing executes and every job received was reported exactly once |
| `Executing.CounterOverstates` | internal/worker/executor.go:72-76 | For every n some interleaving reports n running jobs while none executes, since the slot is freed before the counter is decremented |
| `Executing.Reporter.ReportResult` | internal/worker/kafka_producer.go:22-39 | Publishes one result with the job's id, type, payload and attempts, this worker's id, and the given outcome and error text |
| `Executing.Reporter.Execute` | internal/worker/executor.go:83-115 | Publishes one result on every path: a success if and only if a runner is registered and returns no error |
| `Executing.Reporter.Fail` | internal/worker/executor.go:117-123 | Publishes one failure with the given error |
| `Executing.JobChannel.Handle` | internal/worker/kafka_consumer.go:26-48 | Passes over messages for others, otherwise appends to a channel of 10, blocks when it is full, and gives up only when the context ends |
| `Submission.EqualKeysEqualContent` | internal/cache/idempotency.go:39-51 | Equal content keys mean equal type and payload if and only if the types have the same length |
| `Submission.DifferentJobsShareAKey` | internal/cache/idempotency.go:39-44 | Two different jobs with the same content key |
| `Submission.IdempotencyStore.Check` | internal/cache/idempotency.go:53-98 | Sets an absent key for 24 h; otherwise reports the stored job, or a mismatch when the hash differs; reports an error when SETNX or GET fails, where SETNX may have landed, or the entry has expired in between |
| `Submission.OneJobPerEntry` | internal/api/http/handler/job_handler.go:45-83 | Over all interleavings of submitters and expiry at most one job is created per lifetime of an entry |
| `Submission.AnswersNameTheEntry` | internal/api/http/handler/job_handler.go:63-82 | Every 200 and 201 names the job stored in the entry that decided it; that job exists, on 201 with the type, payload and priority of the request, on 200 with a type and payload that concatenate to the same text |
| `Submission.MismatchNeverCreates` | internal/api/http/handler/job_handler.go:54-58 | A request decided by an entry is answered 409 if and only if its hash differs from the entry's, and then creates no job |
| `Submission.AutomaticKeysNeverConflict` | internal/api/http/handler/job_handler.go:49-52 | A request without a header is never answered 409 while no client sends an automatic key of other content |
| `Submission.StepKeepsInv` | internal/cache/idempotency.go:65-97 | Each step of any request keeps that entries and answers descend from the request that set the key |
| `Submission.JobHandler.SubmitJob` | internal/api/http/handler/job_handler.go:32-83 | One request alone, whatever becomes of its statements: 400 exactly without a type; 201 with a new QUEUED row of the requested type, payload and priority on a free key; 200 with the stored job or 409 on a taken one, as the stored hash matches or not; 500 on any failure, behind which a create may have landed |
| `Submission.SubmitAgain` | internal/api/http/handler/job_handler.go:47-82 | The same request again within 24 h never creates a second job; it is answered with the first job if and only if the first create has landed, else with 500 until the entry expires |
| `Submission.JobHandler.CancelJob` | internal/api/http/handler/job_handler.go:127-145 | 204 if and only if a QUEUED, RUNNING or RETRYING row was made DEAD, 404 otherwise, 500 on a database error |
| `Replaying.ReplayedNamesItsJob` | internal/api/http/handler/dead_letter_handler.go:119-126 | In every interleaving REPLAYED means that replayed_job_id names an existing job made from this letter, with its type and payload and priority 0 |
| `Replaying.AnswersTellTheJob` | internal/api/http/handler/dead_letter_handler.go:101-129 | Who is answered 201 has a job, who is answered 404 or 409 has none |
| `Replaying.SpentYieldsNoMore` | internal/api/http/handler/dead_letter_handler.go:110-113 | Once a letter is REPLAYED or deleted, no request that has not read it yet makes a job of it |
| `Replaying.SerialReplaysMakeOneJob` | internal/api/http/handler/dead_letter_handler.go:93-130 | When replays of a letter are serial and no job is left behind unmarked, each letter yields at most one job |
| `Replaying.FurtherJobExactly` | internal/api/http/handler/dead_letter_handler.go:101-120 | In every reachable state some continuation makes a further job of a letter if and only if the letter is OPEN or some request has read it OPEN and has yet to create |
| `Replaying.RacingReplaysMakeTwoJobs` | internal/api/http/handler/dead_letter_handler.go:110-122 | In every state with an open letter two requests at once can make two jobs of it, both answered 201 |
| `Replaying.UnmarkedJobIsMadeAgain` | internal/api/http/handler/dead_letter_handler.go:122-125 | After a failed mark the next request makes another job of the letter |
| `Replaying.LandedCreateIsMadeAgain` | internal/api/http/handler/dead_letter_handler.go:115-120 | After a create that landed behind a 500 the next request makes another job of the letter |
| `Replaying.StepKeepsInv` | internal/repository/dead_letters.go:112-126 | Each step of replays, deletions, arrivals and the rest of the system keeps what REPLAYED promises |
| `Replaying.DeadLetterHandler.Replay` | internal/api/http/handler/dead_letter_handler.go:93-130 | The handler alone is a run of the machine: it creates a job exactly of an OPEN letter, answers 404, 409, 500 or 201, and marks the letter with the job on 201 |
| `Letters.DeadLettersTable.Insert` | internal/repository/dead_letters.go:48-66 | Adds an OPEN row |
| `Letters.DeadLettersTable.Get` | internal/repository/dead_letters.go:94-109 | Returns the row, or not found |
| `Letters.DeadLettersTable.MarkReplayed` | internal/repository/dead_letters.go:112-126 | Marks the row whatever its status was, changing no other; not found for a missing row |
| `Letters.DeadLettersTable.Delete` | internal/repository/dead_letters.go:129-138 | Removes exactly this row; not found for a missing one |
| `RateLimit.RateLimiter.Allow` | internal/cache/ratelimit.go:27-42 | For a window of whole seconds and calls served in their window, lets a call through if and only if the hits of its client in its aligned window, itself included, do not exceed the limit, and reports max(0, limit - hits); in general continues the history of the store by one call; the EXPIRE may run any time after its INCR, or never |
| `RateLimit.SharedCounterExactly` | internal/cache/ratelimit.go:28-28 | Two calls share a counter if and only if they are of one client and in one aligned stretch of the configured window |
| `RateLimit.ExpiryIsOneWindowLater` | internal/cache/ratelimit.go:33-35 | A counter expires one configured window after the EXPIRE of its first hit ran |
| `RateLimit.AlignedWindowAdmitsTheLimit` | internal/cache/ratelimit.go:28-41 | Each aligned stretch of the configured window lets through exactly min(hits, limit) calls of a client |
| `RateLimit.AnyConfiguredWindowAdmitsTwiceTheLimit` | internal/cache/ratelimit.go:28-28 | Any stretch as long as the configured window lets through at most twice the limit |
| `RateLimit.Redis.Incr` | internal/cache/ratelimit.go:29-29 | Counts from 1 when the counter is missing or has expired |
| `RateLimit.Redis.Expire` | internal/cache/ratelimit.go:33-35 | Sets the expiry of an existing counter |
| `RateLimit.CountersCountHits` | internal/cache/ratelimit.go:33-35 | After any history the counter holds every hit of its slot if and only if the last call was served before the expiry, one window after the EXPIRE of the slot's first hit ran; otherwise it holds fewer |
| `RateLimit.PromptCallsAreInTime` | internal/cache/ratelimit.go:33-35 | A counter set to expire one window after its first hit cannot expire inside its bucket: calls served before their bucket ends are all in time |
| `RateLimit.GrantedIsEarly` | internal/cache/ratelimit.go:36-41 | A call served before the expiry of its counter is let through if and only if it is among the first `limit` hits of its client in its bucket; a later one is judged by fewer hits than there were |
| `RateLimit.BucketAdmitsTheLimit` | internal/cache/ratelimit.go:28-41 | A bucket whose calls are in time lets through at most its limit, and exactly min(hits, limit) when no INCR fails |
| `RateLimit.AnyWindowAdmitsTwiceTheLimit` | internal/cache/ratelimit.go:28-28 | Any half-open interval one window long, aligned or not, lets through at most 2 * max(0, limit) calls of a client whose calls are in time |
| `RateLimit.TwiceTheLimitIsReached` | internal/cache/ratelimit.go:28-28 | For every limit that bound is reached |
| `RateLimit.LateCallStartsAnew` | internal/cache/ratelimit.go:29-35 | The first hit served at or after the expiry starts the count at 1 and passes whatever came before, if the limit is positive |

## Left out

- Guarantees.NoDeadLetterLost: covers one session per partition and group at a time. A session that goes on working after its partition was given to another one may commit past a result whose dead letter the other has not published; the group protocol that should prevent this belongs to the client library.
- Guarantees.LiveWorkersKeepJobs: counts heartbeats when they are consumed. A heartbeat that waits in its topic does not count for the code either. The heartbeats topic is not a log here: a heartbeat of any worker may be consumed at any time, any number of times.
- Termination.SmoothJobsTerminate: bounds the steps that touch a job, and `Finishing` and `Recovering` show that steps to an end exist. That a step is taken at all (fairness of processes and tickers) is not modelled.
- Executing.ReturnedMeansReported: for runners that return. A runner that panics takes the process down, which the pipeline has as a crash.
- Simulating.CollectingSession: for a session whose handler calls all return nil. A handler that fails ends its session; what it leaves behind is in `Collecting.HandleTrace`.
- Jobs.JobsTable.FetchPending: the snapshot and the row locks are one step and the update another. An error while scanning rows after the update is not told apart from a dispatcher that stops between commit and publish.
- Jobs.IsPick: SKIP LOCKED passes over rows locked by other open FetchPending statements. Rows a Cancel, a rollback or a verdict has locked for the moment of its statement are not passed over here, because those statements are one step each; such a row would merely wait for a later pick.
- Submission.JobHandler.SubmitJob: the handler with the idempotency store attached. Bodies that are not JSON are not modelled.
- RateLimit.AnyWindowAdmitsTwiceTheLimit: for calls in time, by the expiry of their counters. `RateLimit.CountersCountHits` and `RateLimit.LateCallStartsAnew` say what late calls do.
- Collisions of SHA-256: a digest is the bytes that were hashed.
- Columns nothing decides on (host, memory, updated_at), rounding of NUMERIC, and overflow of INTEGER columns and 64-bit counters.
- Undecodable messages and malformed ids: payloads are opaque and messages are values, so decoding does not fail.
- Leader election and process wiring: dispatchers and monitors are arbitrarily many, since the loops do not recheck leadership.
- The status cache, except that handling a result drops its entry: cancelling and dispatching do not drop it, so agreement with the table is not kept.
- List and pagination queries, response mapping, authentication, logging, metrics, configuration, migrations.
- Recovering.UnfinishedJobsCanComplete: the continuation may let the worker of a job whose row has no heartbeat report once before it falls silent, since RequeueStale never takes a job from a worker that is OFFLINE without a heartbeat (`Workers.Lost`).
