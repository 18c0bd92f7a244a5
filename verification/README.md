# Verified model of the job system and the resilience package

This project models, in Dafny, the parts of the Arcana cloud service whose correctness depends on state
that several parties change: the Redis-backed job system (queue, worker pool, job lock, leader election,
cron deduplication), the resilience package (circuit breaker, its window of recent calls, token bucket,
sliding-window limiter), the WebSocket hub's indexes and the configuration server's deep merge.

`dafny verify dfyconfig.toml` checks the whole project. All results hold for every input, every run or
every reachable state; there is no bound on the number of workers, jobs, clients, calls or steps.

## How the files fit together

- `JobStore.dfy` is Redis as the queue sees it, one function per command. `Workers.dfy` runs producers,
  workers and the scheduled processor over it as step machines, at most one command per step.
  `Ownership.dfy`, `RetryRelease.dfy`, `Fifo.dfy` and `History.dfy` prove what every interleaving keeps;
  `KeyRaces.dfy` and `StaleKeys.dfy` prove exactly when unique keys are safe and accurate under
  interleaving, and `Successes.dfy` exactly when the idempotency check is. `Stranded.dfy` says which jobs
  can still be taken; `TwoProcessors.dfy` puts a second scheduled processor beside the first. `Journey.dfy`
  is one job's way through one worker, shared by their example runs.
- `RedisQueue.dfy` has each queue operation as one function, and the object that performs it with the
  source's loops. `Uninterrupted.dfy` proves that the command-by-command actors refine those functions.
  `UniqueKeys.dfy` proves deduplication and idempotency with one operation per step, and `WorkerPool.dfy`
  ties a worker's round to those steps. `Placing.dfy`, `Urgency.dfy` and `Manual.dfy` say what becomes of a
  job that is enqueued, released, dequeued, retried by hand or deleted, on the lists and sets themselves.
- `JobLock.dfy`, `Leader.dfy`, `LeaderCommands.dfy` and `Cron.dfy` are the lease protocols, with arbitrary
  delays and, for the job lock and leader election, lost replies. `LeaderExpiry.dfy` and
  `LeaderPolling.dfy` are the exact conditions for leader election, command by command; `Calendar.dfy` is
  the calendar behind the cron windows.
- `SlidingWindow.dfy`, `CircuitBreaker.dfy`, `TokenBucket.dfy` and `SlidingLimiter.dfy` are the resilience
  package; `Retry.dfy` is the retry policy; `Hub.dfy` and `ConfigServer.dfy` are the two remaining cores.

Every object the source changes in place is a class here. Its methods follow the source's branches and
loops and are proved equal to a function on values; the lemmas about runs are about those functions.

## Where the code does less than it seems to

Each of these has a run that shows it and, where the property can be had at all, the exact condition for it.

- Two producers can both pass the duplicate check before either writes its unique key
  (`JobHistory.DuplicateCheckRaces`). Letting a producer past the check is safe for every continuation if
  and only if nobody else is inside Enqueue with the key, or whoever is there has stored a job that has
  come and gone, DEL included (`KeyRaces.CheckSafeIff`). In particular no two live jobs share a key while
  its producers are inside Enqueue one at a time (`KeyRaces.NoSharedKeyOneAtATime`).
- A producer can announce its unique key after the job has been completed and its key deleted
  (`StaleKeys.SlowAnnouncement`). The key is then refused for ever (`StaleKeys.StaleForever`). With one
  producer at a time the index is exact throughout a run if and only if every SET of the key comes before
  that DEL (`StaleKeys.IndexExactIff`).
- MarkCompleted comes after Complete has freed the unique key, so two jobs with one key can both succeed
  (`UniqueKeys.MarkRaces`). Passing the idempotency check is safe if and only if nobody is between the
  two with that key (`UniqueKeys.CheckSafeIff`; command by command, between the handler's success and the
  mark, `JobSuccesses.CheckSafeIff`).
- Deleting a job that is no longer live drops its unique key even when a newer job owns it
  (`UniqueKeys.DeleteAfterRetryBreaks`); the index stays exact if and only if the key is not in it
  (`UniqueKeys.DeletingDoneJob`).
- RetryDLQJob removes the dead-letter entry before Enqueue can refuse the job: a dead job whose unique key
  is in use again is lost by the retry (`ManualOperations.RetryLosesJob`). A retried job survives if and
  only if no live job has its key (`ManualOperations.RetriedIff`).
- ProcessScheduled ignores how many members ZREM removed: beside any producers and workers, two processors
  push a job exactly once for every answer that named it (`TwoProcessors.PushesExact`), and an answer names
  a job if and only if it is scheduled and due when the question is asked (`TwoProcessors.AnswerIsDue`). A
  job that has been completed meanwhile is made pending and queued again (`TwoProcessors.CompletedRunsAgain`).
- Two goroutines of one process share a worker ID, and one's release can delete the other's lock
  (`JobLocks.SharedWorkerBreaksExclusion`). Granting a lock is safe if and only if the process has no
  held lock object for that job (`JobLocks.GrantSafeIff`).
- The scheduler ignores the reply to EXPIRE and stays leader. If running instances complete an attempt at
  least every `gap` and leaders fail to renew at most `losses` times in a row, one flag at most is set in
  every run if and only if (losses + 1) * gap is at most LeaderLockTTL (`LeaderPolling.PollingSafeIff`,
  command by command). The loop polls every third of the TTL (internal/jobs/scheduler/scheduler.go:391), at
  which pace two losses in a row are tolerated and three are not.
- A leader's DEL and EXPIRE do not look again whose key it is. A DEL is safe if and only if no other
  instance's lease is running (`LeaderCommands.DeleteSafeIff`). An EXPIRE leaves its own instance's key with
  a full TTL if and only if it comes within the TTL of that instance's last SET or EXPIRE
  (`LeaderExpiry.ExpireRenewsIff`), and another instance can become leader at that very moment if and only
  if it does not (`LeaderExpiry.SecondLeaderIff`). `LeaderCommands.LateExpireTwoFlags` is such a run.
- Cron firings are deduplicated if and only if no window is longer than the deduplication TTL less the
  delay between computing the window and setting the key; with the default 24 hours that excludes the
  weekly and the monthly schedule (`CronDeduplication.DeduplicatesIff`, `CronDeduplication.DefaultTtlFits`).
- A cron firing sets its execution key before it looks at the singleton lock, so a firing that is skipped
  uses its window up (`CronDeduplication.SkippedWindowIsLost`). A firing enqueues its job if and only if its
  instance leads, no firing of the window has set the key within the TTL, the singleton is not running and
  the job is no duplicate (`CronDeduplication.EnqueuesIff`).
- A failed probe reopens the circuit breaker without refreshing the failure time, so the next request is
  admitted at once (`BreakerRuns.ReopenedAdmitsAtOnce`). The full-timeout promise holds for trips from
  Closed (`BreakerRuns.TripRejectsForTimeout`).
- One-at-a-time callers are never told "too many requests" if and only if SuccessThreshold is at most
  max(1, MaxHalfOpenRequests); otherwise all-successful probes leave the breaker stuck until it is reset
  (`SequentialCallers.TooManyIff`, `SequentialCallers.StuckUntilReset`).
- WaitN takes its tokens after waking without looking again, so any number of waiters can overshoot an
  empty bucket together (`TokenBucket.WaitersOvershoot`). A wake-up keeps the interval bound if and only
  if the refilled bucket has the tokens (`TokenBucket.WakeFitsIff`). Conservation holds throughout, as debt.
- The deep merge is not associative (`ConfigServing.ScalarBetweenMaps`); it is exactly on the triples of
  `ConfigServing.AssociativeIff`.
- Configuration keys join application and profile with a slash: two pairs share a key if and only if they
  differ at most in where a slash is read (`ConfigServing.KeysCollideIff`).
- A job whose priority is not one of the four goes to a list that no worker polls, for good
  (`StrandedJobs.OddPriorityStrands`). In every reachable state a queued job can still be taken if and only
  if its list is one of the four (`StrandedJobs.TakenIffPolled`).
- A client can be unregistered (internal/websocket/client.go:257) and then join a room, which makes its
  closed channel a target of broadcasts (`WebSocketHub.JoinAfterCloseIsTarget`). For clients that register
  once, the hub's indexes agree throughout a run if and only if only registered clients join
  (`WebSocketHub.AgreeThroughoutIff`).

## Model

| member | source | states |
|---|---|---|
| `JobOwnership.ExactlyOnePlace` | internal/jobs/queue/redis_queue.go:66-296 | in every command-by-command interleaving of producers, workers and one scheduled processor, every stored job is in exactly one place: one list entry, the scheduled set, the dead-letter list, one actor's hands, or completed |
| `JobOwnership.RunKeeps` | internal/jobs/worker/pool.go:258-330 | every reachable system has a placement of its jobs that agrees with all lists, sets, records, local copies and attempt counters |
| `JobOwnership.StepKeeps` | internal/jobs/worker/pool.go:258-354 | each single step of any actor takes a system with an agreeing placement to another one |
| `JobOwnership.AttemptsExact` | internal/jobs/queue/redis_queue.go:126-131 | a waiting job's attempts are exactly its recorded failures, below max(1, MaxRetries); a counted one has exactly one more, within it; a dead one has used all; handler runs never exceed attempts, so a requeue is free |
| `JobOrder.FirstInFirstOut` | internal/jobs/queue/redis_queue.go:48-141 | in every interleaving, what has come into a priority list, in order, is what has left it, in order, followed by what is in it, oldest first |
| `JobOrder.LeavesInTurn` | internal/jobs/queue/redis_queue.go:97-141 | the k-th job to leave a list is the k-th that came into it |
| `RetryRelease.FailedJobNotEarly` | internal/jobs/queue/redis_queue.go:210-293 | after a failure with attempts left, whatever interleaving follows, the job is in no queue up to one second before the failure's clock reading plus the policy's delay, despite whole-second scores and readings older than the commands |
| `RetryRelease.DelayedJobNotEarly` | internal/jobs/queue/redis_queue.go:48-54 | the same for a job enqueued with a later time |
| `RetryRelease.FailedJobNotLate` | internal/jobs/queue/redis_queue.go:210-263 | from a failure until the job is queued again, every question of the processor that finds it scheduled is answered with it if and only if the second read has reached the second of the failure plus the delay |
| `RetryRelease.DelayedJobNotLate` | internal/jobs/queue/redis_queue.go:48-54 | the same for a job enqueued with a later time |
| `RetryRelease.StepKeepsPromise` | internal/jobs/queue/redis_queue.go:255-296 | no step of anybody changes a promised time or releases the job early |
| `JobHistory.AllowanceShrinks` | internal/jobs/queue/redis_queue.go:201-252 | no step loses a record or changes a job's identity; each recorded failure uses exactly one unit of a non-negative allowance and nothing else does, so retries terminate |
| `JobHistory.StepKeepsRecord` | internal/jobs/queue/redis_queue.go:162-173 | with current copies every step writes records back unchanged up to status, attempts and schedule |
| `JobHistory.DuplicateCheckRaces` | internal/jobs/queue/redis_queue.go:36-45 | there is a run in which two queued jobs share a unique key |
| `KeyRaces.NoSharedKeyOneAtATime` | internal/jobs/queue/redis_queue.go:66-94 | in every command-by-command run in which producers of a key are inside Enqueue one at a time, no two live jobs share it |
| `KeyRaces.CheckSafeIff` | internal/jobs/queue/redis_queue.go:36-94 | passing the duplicate check is safe for every continuation if and only if nobody else is inside Enqueue with the key, or whoever is has a job that has come and gone |
| `KeyRaces.StepGuards` | internal/jobs/queue/redis_queue.go:66-252 | every command keeps at most one live job or pending DEL of the key, covered by the index or by a producer about to announce it |
| `KeyRaces.UnquietBreaks` | internal/jobs/queue/redis_queue.go:36-94 | a check that passes at any other moment has a continuation with two live jobs of the key |
| `KeyRaces.LiveIsInPlay` | internal/jobs/queue/redis_queue.go:66-296 | a job is neither completed nor dead exactly while it is queued, scheduled, moving or in somebody's hands |
| `StaleKeys.IndexExactIff` | internal/jobs/queue/redis_queue.go:57-94 | with one producer of the key at a time, the key is in the index exactly while its job is live or its DEL pending, throughout a run, if and only if every SET comes before the DEL |
| `StaleKeys.StaleForever` | internal/jobs/queue/redis_queue.go:36-63 | a key left in the index without a live job or pending DEL stays there in every continuation |
| `StaleKeys.SlowAnnouncement` | internal/jobs/queue/redis_queue.go:85-89 | one producer and one worker reach such a state |
| `TwoProcessors.PushesExact` | internal/jobs/queue/redis_queue.go:255-296 | in every interleaving of producers, workers and two processors, the pushes made and still owed of a job are exactly the answers that named it, whenever the questions were asked |
| `TwoProcessors.AnswerIsDue` | internal/jobs/queue/redis_queue.go:255-263 | an answer names a job once if it is scheduled and due, and otherwise not at all |
| `TwoProcessors.EntriesExact` | internal/jobs/queue/redis_queue.go:255-296 | while only the two processors move, from rest to rest, the queues gain one entry of the job for every answer that named it |
| `TwoProcessors.LateMove` | internal/jobs/queue/redis_queue.go:265-293 | whatever has become of a named job meanwhile, the processor makes it pending and queues it |
| `TwoProcessors.CompletedRunsAgain` | internal/jobs/queue/redis_queue.go:255-296 | there is a run in which a completed job becomes pending and queued again |
| `StrandedJobs.TakenIffPolled` | internal/jobs/queue/redis_queue.go:97-141 | in every reachable state, some continuation has a holder of a queued job if and only if its list is one of the four polled ones |
| `StrandedJobs.PolledIsTaken` | internal/jobs/queue/redis_queue.go:97-141 | from every reachable state, fresh workers that poll one after the other get to any given entry of a polled list |
| `StrandedJobs.StrandedForever` | internal/jobs/job.go:30-48 | a queued job whose priority is none of the four is never taken out, in any run |
| `StrandedJobs.OddPriorityStrands` | internal/jobs/job.go:30-48 | enqueueing a job with any priority outside 0 to 3 strands it for good |
| `UninterruptedOperations.EnqueueAlone` | internal/jobs/queue/redis_queue.go:66-94 | Enqueue's commands without interleaving have the effect and the result of the whole operation, refused duplicate included |
| `UninterruptedOperations.DequeueAlone` | internal/jobs/queue/redis_queue.go:97-141 | polling command by command, from any queue on and with missing records skipped, ends with the same store and the same job as the whole operation |
| `UninterruptedOperations.CompleteAlone` | internal/jobs/queue/redis_queue.go:176-198 | the same for Complete, found or not |
| `UninterruptedOperations.FailAlone` | internal/jobs/queue/redis_queue.go:201-252 | the same for Fail, in the retry, the dead-letter and the not-found case |
| `UninterruptedOperations.RequeueAlone` | internal/jobs/worker/pool.go:314-330 | the same for requeueJob |
| `UninterruptedOperations.MoveAlone` | internal/jobs/queue/redis_queue.go:255-296 | the same for ProcessScheduled on a batch of any length |
| `QueueOperations.RedisQueue.Enqueue` | internal/jobs/queue/redis_queue.go:66-94 | the new store and the error are those of the operation: duplicate refused, else record, placement by time and unique key |
| `QueueOperations.RedisQueue.Dequeue` | internal/jobs/queue/redis_queue.go:97-141 | the loop over priorities, which drops IDs without a record, computes the recursive poll; with all four priorities and every listed ID on record it takes, running and with its attempt counted, the last entry of the list of the highest priority that any listed job has |
| `QueueOperations.RedisQueue.Complete` | internal/jobs/queue/redis_queue.go:176-198 | record completed and unique key dropped, or not found and nothing changed |
| `QueueOperations.RedisQueue.Fail` | internal/jobs/queue/redis_queue.go:201-252 | retry with delay while attempts remain, else dead-letter list and unique key dropped |
| `QueueOperations.RedisQueue.ProcessScheduled` | internal/jobs/queue/redis_queue.go:255-296 | the loop moves exactly the due jobs with a record, in order, and counts them |
| `QueueOperations.RedisQueue.RetryDLQJob` | internal/jobs/queue/redis_queue.go:318-337 | first entry removed from the dead-letter list, attempts reset, new ID, enqueued again |
| `QueueOperations.RedisQueue.DeleteJob` | internal/jobs/queue/redis_queue.go:340-357 | record, list entries, schedule and unique key removed |
| `UniqueKeys.DequeueTakes` | internal/jobs/queue/redis_queue.go:108-140 | with every record present, the oldest job of the first non-empty queue in priority order is taken, or all are empty and nothing changes |
| `JobUrgency.DequeueGetsNext` | internal/jobs/queue/redis_queue.go:97-141 | in every run of whole operations a worker gets the last entry of the list of the highest priority that any listed job has, or no listed job has one of the four priorities and nothing changes |
| `JobUrgency.PollGetsNext` | internal/jobs/queue/redis_queue.go:97-141 | the same command by command, uninterrupted, from every reachable state |
| `JobUrgency.TakenInOrder` | internal/jobs/queue/redis_queue.go:97-141 | in every interleaving a worker takes the last entry of the list of the job's priority, and the list of every more urgent priority was empty at some moment since the worker began to poll |
| `JobUrgency.WholeFiled` | internal/jobs/queue/redis_queue.go:48-54 | in every run of whole operations every listed ID is on record and in the list of its priority |
| `JobPlacing.EnqueuedIff` | internal/jobs/queue/redis_queue.go:36-94 | in every reachable state a new job is refused, and nothing changes, if and only if a live job has its unique key; otherwise it waits if its time is still to come, and comes first into its list if not |
| `JobPlacing.DueJobsMove` | internal/jobs/queue/redis_queue.go:255-296 | in every reachable state exactly the due jobs leave the scheduled set, become pending and come first into the lists of their priorities; all are counted and nothing else changes |
| `ManualOperations.DeletedIsGone` | internal/jobs/queue/redis_queue.go:340-357 | in every reachable state a deleted job, dead ones included, is on no record and in no list or set, and nothing but it and its unique key is missing |
| `ManualOperations.RetriedIff` | internal/jobs/queue/redis_queue.go:318-337 | a retried job leaves the dead-letter list, and is live again under its new ID without attempts if and only if no live job has its unique key |
| `ManualOperations.RetriedStartsOver` | internal/jobs/queue/redis_queue.go:318-337 | a retried job dies again with its max(1, MaxRetries)-th failure, and not before |
| `ManualOperations.RetryLosesJob` | internal/jobs/queue/redis_queue.go:318-337 | there is a run after which a retry loses the job |
| `UniqueKeys.UniqueIndexExact` | internal/jobs/queue/redis_queue.go:36-94 | in every run of whole operations a non-empty key maps to an ID if and only if that ID is a live job with that key |
| `UniqueKeys.NoSharedKeys` | internal/jobs/queue/redis_queue.go:36-45 | in every run of whole operations no two live jobs share a non-empty key |
| `UniqueKeys.AtMostOneSuccess` | internal/jobs/worker/pool.go:192-255 | with Complete and MarkCompleted as separate steps, if no check of a key is passed between them, no key has two successful handler runs over the whole history |
| `UniqueKeys.CheckSafeIff` | internal/jobs/worker/pool.go:192-255 | passing the idempotency check is safe for every continuation if and only if no worker is between Complete and MarkCompleted with that key |
| `UniqueKeys.MarkRaces` | internal/jobs/worker/pool.go:246-253 | there is a run in which one key has two successes |
| `JobSuccesses.AtMostOneSuccess` | internal/jobs/worker/pool.go:192-255 | command by command: if producers of the key pass the duplicate check only while it is quiet, and no idempotency check of it is passed between a success and its mark, the key has at most one successful handler run |
| `JobSuccesses.CheckSafeIff` | internal/jobs/worker/pool.go:192-255 | command by command: passing the idempotency check is safe for every continuation if and only if no success with that key is waiting for its mark |
| `UniqueKeys.SuccessRecorded` | internal/jobs/lock/distributed_lock.go:242-268 | recording a success keeps the history free of repeats: no other cleared worker has the key |
| `UniqueKeys.StepKeeps` | internal/jobs/queue/redis_queue.go:176-357 | every operation keeps the placement, the unique index, the workers and the success history in agreement |
| `UniqueKeys.DeletingDoneJob` | internal/jobs/queue/redis_queue.go:340-357 | in every reachable state, deleting a job that is not live keeps the index exact if and only if its key is not in it |
| `UniqueKeys.RetryThenDelete` | internal/jobs/queue/redis_queue.go:318-357 | from every reachable state with a dead keyed job whose key is free, retrying it and deleting the old ID breaks the index |
| `UniqueKeys.DeleteAfterRetryBreaks` | internal/jobs/queue/redis_queue.go:318-357 | such a state is reachable |
| `WorkerPools.WorkerPool.CheckIdempotency` | internal/jobs/worker/pool.go:192-208 | a completed key skips the job and completes it unrun; otherwise the worker is cleared |
| `WorkerPools.WorkerPool.RequeueJob` | internal/jobs/worker/pool.go:314-330 | the attempt is taken back and the job pushed again |
| `WorkerPools.WorkerPool.ExecuteJob` | internal/jobs/worker/pool.go:231-255 | success completes the job and marks its key, failure fails it, and one counter moves |
| `WorkerPools.WorkerPool.ProcessNextJob` | internal/jobs/worker/pool.go:258-311 | a round has the effect of its steps and treats the most urgent job as its circumstances say; each of the three counters moves by the outcome: processed, failed or skipped by one, or none if no job is offered |
| `WorkerPools.RoundIsRun` | internal/jobs/worker/pool.go:258-311 | a round that starts while nobody is between Complete and MarkCompleted leads from a reachable state of an orderly run to another, so the results about such runs survive it |
| `WorkerPools.RoundSettles` | internal/jobs/worker/pool.go:192-330 | the job treated is the most urgent one; if its key was completed before, it is completed unrun; if its lock is taken, its record is as before, pending, and first in its list; without a handler or when it fails, it waits for the policy's delay or is dead; when it succeeds, it is completed and its key remembered; nothing else changes |
| `JobLocks.MatchIsOwnership` | internal/jobs/lock/distributed_lock.go:159-169 | on fixed-length colon-free IDs the script's substring match is equality of owners |
| `JobLocks.AtMostOneLease` | internal/jobs/lock/distributed_lock.go:96-224 | at any moment of any disciplined run (no lock is granted to a process that already has a held lock object), with arbitrary delays and lost replies, at most one lock object has an unexpired lease, and the key is then alive with its worker's value |
| `JobLocks.StepKeeps` | internal/jobs/lock/distributed_lock.go:96-224 | acquire, heartbeat and release each keep the lease invariant |
| `JobLocks.ForeignKeyUntouched` | internal/jobs/lock/distributed_lock.go:144-224 | release and heartbeat leave another worker's key exactly as it is |
| `JobLocks.GrantSafeIff` | internal/jobs/lock/distributed_lock.go:96-185 | after a disciplined run, granting the lock is safe for every disciplined continuation if and only if the process has no held lock object for the job |
| `JobLocks.FreeIff` | internal/jobs/lock/distributed_lock.go:96-224 | while no reply is lost, the next request gets the lock if and only if nobody's lease is running |
| `JobLocks.FreeAfterTtl` | internal/jobs/lock/distributed_lock.go:96-224 | whatever is lost and whoever dies, the lock is free once nothing has happened for longer than the TTL |
| `JobLocks.SharedWorkerBreaksExclusion` | internal/jobs/lock/distributed_lock.go:144-185 | with two lock objects under one worker ID there is a run in which two workers hold unexpired leases |
| `JobLocks.LockManager.AcquireLock` | internal/jobs/lock/distributed_lock.go:96-141 | SETNX decides; a new held lock is listed if and only if it was acquired, and no other key changes |
| `JobLocks.LockManager.ReleaseLock` | internal/jobs/lock/distributed_lock.go:144-185 | nothing happens for a missing or lost lock; otherwise compare-and-delete of this key only |
| `JobLocks.JobLock.Heartbeat` | internal/jobs/lock/distributed_lock.go:188-224 | the key is extended if it is ours, otherwise the lock is no longer held |
| `LeaderElection.AtMostOneLease` | internal/jobs/scheduler/scheduler.go:407-467 | at any moment at most one instance has its flag set within the TTL of its last acquisition or renewal, and the key then stores its ID |
| `LeaderElection.SecondFlagIff` | internal/jobs/scheduler/scheduler.go:407-448 | another instance can get the flag beside a flagged one if and only if the latter's last applied SET or EXPIRE is more than the TTL ago |
| `LeaderElection.HandsOverIff` | internal/jobs/scheduler/scheduler.go:450-467 | a leader within its TTL that releases loses the flag, and another instance can become leader at that moment if and only if the release got through |
| `LeaderElection.StepKeeps` | internal/jobs/scheduler/scheduler.go:407-467 | each attempt or release, with any lost reply, keeps the lease invariant |
| `LeaderElection.Scheduler.TryAcquireLeadership` | internal/jobs/scheduler/scheduler.go:407-448 | the branches on SETNX, GET and EXPIRE compute the attempt |
| `LeaderElection.Scheduler.ReleaseLeadership` | internal/jobs/scheduler/scheduler.go:451-467 | the key is deleted only if it is ours, and the flag is cleared |
| `LeaderCommands.AtMostOneLease` | internal/jobs/scheduler/scheduler.go:407-467 | with every command a step, arbitrary delays and lost replies, at most one lease is unexpired and the key is its holder's, if DELs are careful |
| `LeaderCommands.DeleteSafeIff` | internal/jobs/scheduler/scheduler.go:451-467 | a DEL that takes effect is safe for every continuation if and only if no other instance is standing |
| `LeaderCommands.TimelyDeleteIsCareful` | internal/jobs/scheduler/scheduler.go:451-467 | a DEL within the TTL of its own instance's last SET or EXPIRE is careful |
| `LeaderCommands.LateExpireTwoFlags` | internal/jobs/scheduler/scheduler.go:428-438 | an EXPIRE that comes after the key has passed to another instance sets a second flag |
| `LeaderCommands.TimelyExpireRenews` | internal/jobs/scheduler/scheduler.go:434-438 | after every run with careful DELs, whether earlier EXPIREs were timely or not, a timely EXPIRE that takes effect leaves the key its own instance's with a full TTL and the lease running |
| `LeaderExpiry.ExpireRenewsIff` | internal/jobs/scheduler/scheduler.go:428-438 | after careful DELs and timely EXPIREs, an EXPIRE that takes effect leaves the key its instance's with a full TTL if and only if that instance's last SET or EXPIRE is within the TTL |
| `LeaderExpiry.SecondLeaderIff` | internal/jobs/scheduler/scheduler.go:407-448 | right after an EXPIRE, applied or not, another instance can get the flag at the same instant if and only if the EXPIRE was late |
| `LeaderExpiry.RunExact` | internal/jobs/scheduler/scheduler.go:407-467 | in such runs the key's expiry is exactly one TTL after its owner's last SET or EXPIRE |
| `LeaderPolling.PollingSafeIff` | internal/jobs/scheduler/scheduler.go:385-467 | command by command, with delays and lost replies: if running instances complete an attempt at least every gap and fail to renew at most so many times in a row, every run has at most one flag if and only if (losses + 1) gaps fit in the TTL |
| `LeaderPolling.RegularLeased` | internal/jobs/scheduler/scheduler.go:385-467 | the safe direction: every flag is covered by an unexpired key of its own instance |
| `LeaderCommands.AttemptIsWhole` | internal/jobs/scheduler/scheduler.go:407-448 | the commands at one instant are the attempt as one step, for every combination of replies |
| `CronDeduplication.DeduplicatesIff` | internal/jobs/scheduler/scheduler.go:193-341 | at most one job per name and window in every run of any number of believed leaders, if and only if windows fit in the TTL less the delay |
| `CronDeduplication.FittingWindowsDeduplicate` | internal/jobs/scheduler/scheduler.go:193-284 | the safe direction, for every run |
| `CronDeduplication.LongWindowFiresTwice` | internal/jobs/scheduler/scheduler.go:331-341 | a window that outlives the key yields a run with two jobs |
| `CronDeduplication.WindowLengths` | internal/jobs/scheduler/scheduler.go:287-310 | minute, five-minute, hour, day and week windows have exactly their nominal length, and the longest month has 31 days |
| `CronDeduplication.SameWindowIff` | internal/jobs/scheduler/scheduler.go:287-310 | two times are in one window if and only if no minute, fifth minute, hour, day, Monday or first of a month begins between them |
| `GregorianCalendar.MonthIff` | internal/jobs/scheduler/scheduler.go:304-305 | a day is in a month if and only if it is one of the days that the calendar, with its leap years, gives it |
| `GregorianCalendar.MonthsFollow` | internal/jobs/scheduler/scheduler.go:304-305 | each month starts where the one before ends |
| `CronDeduplication.GranularityIff` | internal/jobs/scheduler/scheduler.go:287-310 | every schedule but five has one-minute windows |
| `CronDeduplication.EnqueuesIff` | internal/jobs/scheduler/scheduler.go:193-284 | in every run a firing enqueues its job if and only if its instance leads, no firing of the window set the key within the TTL, the singleton is not running and the job is no duplicate |
| `CronDeduplication.SkippedWindowIsLost` | internal/jobs/scheduler/scheduler.go:193-237 | a firing that sets the key and is then skipped uses the window up for a TTL |
| `CronDeduplication.DefaultTtlFits` | internal/jobs/scheduler/scheduler.go:41-48 | with the default TTL exactly the weekly and monthly schedules are not deduplicated |
| `CronDeduplication.CronExecutions.ExecuteScheduledJob` | internal/jobs/scheduler/scheduler.go:193-284 | a firing sets the key and enqueues only if this instance leads and the window is free |
| `CronDeduplication.CronExecutions.AcquireCronExecutionLock` | internal/jobs/scheduler/scheduler.go:331-341 | the key is taken if and only if it is not set and unexpired |
| `RetryTiming.Pow` | internal/jobs/job.go:115-121 | the loop computes the power, and 1 for an exponent below one |
| `RetryTiming.ComputeDelay` | internal/jobs/job.go:94-113 | the case split over strategies computes the capped delay, whose values the rows below state |
| `RetryTiming.DelaysGrow` | internal/jobs/job.go:94-121 | under every strategy delays never shrink with the attempt and never exceed MaxDelay |
| `RetryTiming.FirstDelay` | internal/jobs/job.go:94-113 | the first attempt waits InitialDelay, up to the cap, under every strategy |
| `RetryTiming.ExponentialDelay` | internal/jobs/job.go:94-121 | the n-th delay is InitialDelay grown by Multiplier n - 1 times, rounded down, unless that reaches MaxDelay |
| `RetryTiming.DelayMultiplies` | internal/jobs/job.go:94-121 | with a whole multiplier each delay is that many times the one before, up to the cap |
| `RetryTiming.LinearDelay` | internal/jobs/job.go:94-113 | the n-th delay is n times InitialDelay, up to the cap, and each is InitialDelay longer than the one before |
| `RetryTiming.ConstantDelay` | internal/jobs/job.go:94-113 | under a fixed or an unknown strategy every attempt waits as long as the first |
| `RetryTiming.DefaultDelays` | internal/jobs/job.go:82-121 | the default policy waits 1, 2, 4 up to 256 seconds, and five minutes from the tenth attempt on |
| `CallWindow.SlidingWindow.Record` | internal/resilience/circuitbreaker.go:122-132 | the ring stays in step with the full history |
| `CallWindow.RecordKeeps` | internal/resilience/circuitbreaker.go:122-132 | overwriting one slot and advancing the index keeps the slots equal to the rotated tail of the history |
| `CallWindow.SlidingWindow.FailureRate` | internal/resilience/circuitbreaker.go:135-150 | the storage-order loop returns the failure rate of the last min(n, size) calls |
| `CallWindow.SlidingWindow.SlowCallRate` | internal/resilience/circuitbreaker.go:153-168 | the same for slow calls |
| `CircuitBreaking.CircuitBreaker.AllowRequest` | internal/resilience/circuitbreaker.go:211-233 | admission by state, timeout and half-open count |
| `CircuitBreaking.CircuitBreaker.Transition` | internal/resilience/circuitbreaker.go:299-318 | counters cleared and one transition counted, unless already there |
| `CircuitBreaking.CircuitBreaker.UpdateState` | internal/resilience/circuitbreaker.go:251-273 | the outcome's effect in each state |
| `CircuitBreaking.CircuitBreaker.RecordOutcome` | internal/resilience/circuitbreaker.go:276-289 | window, metrics and state move together; metrics stay tallies of the full history |
| `CircuitBreaking.CircuitBreaker.Reset` | internal/resilience/circuitbreaker.go:342-349 | closed with cleared counters, failure time kept |
| `BreakerRuns.HalfOpenEpisodeBound` | internal/resilience/circuitbreaker.go:211-233 | in every interleaving each half-open episode admits at most max(1, MaxHalfOpenRequests) calls |
| `BreakerRuns.EpisodeCounted` | internal/resilience/circuitbreaker.go:211-233 | within an episode the counter is its start value plus the admissions since |
| `BreakerRuns.FailuresAreTrailing` | internal/resilience/circuitbreaker.go:251-261 | the closed failure counter is the trailing run of failures since Closed was entered or reset |
| `BreakerRuns.TripsExactlyAtThreshold` | internal/resilience/circuitbreaker.go:251-261 | an outcome trips the breaker exactly when that run reaches FailureThreshold |
| `BreakerRuns.RecoversExactlyAtThreshold` | internal/resilience/circuitbreaker.go:264-273 | in every run a failure reopens a half-open breaker, and a success closes it exactly when the episode's successes, this one included, reach SuccessThreshold |
| `BreakerRuns.TripRejectsForTimeout` | internal/resilience/circuitbreaker.go:211-233 | after a trip from Closed every request up to Timeout later is rejected, whatever late outcomes arrive |
| `BreakerRuns.ReopenedAdmitsAtOnce` | internal/resilience/circuitbreaker.go:264-273 | after a failed probe the next request is admitted however soon it comes |
| `SequentialCallers.TooManyIff` | internal/resilience/circuitbreaker.go:211-318 | sequential callers never see "too many requests" if and only if SuccessThreshold is at most max(1, MaxHalfOpenRequests) |
| `SequentialCallers.StuckUntilReset` | internal/resilience/circuitbreaker.go:226-231 | a half-open breaker out of probes rejects every call and never changes until reset |
| `SequentialCallers.RecoversIff` | internal/resilience/circuitbreaker.go:211-318 | SuccessThreshold successful calls in a row close any open breaker past its timeout, and the next request is admitted, if and only if SuccessThreshold is at most max(1, MaxHalfOpenRequests) |
| `SequentialCallers.ProbesSucceed` | internal/resilience/circuitbreaker.go:264-273 | n successful probes leave the breaker half-open with n used, while n is below SuccessThreshold |
| `TokenBucket.TokenBucketLimiter.Allow` | internal/resilience/ratelimiter.go:83-105 | the new bucket and the verdict of AllowN |
| `TokenBucket.TokenBucketLimiter.WaitStart` | internal/resilience/ratelimiter.go:113-143 | immediate grant, refusal by timeout, or the time to sleep |
| `TokenBucket.WaitExactly` | internal/resilience/ratelimiter.go:113-143 | WaitN is granted if nothing is missing, refused if WaitTimeout and another nanosecond do not bring in what is missing, and otherwise sleeps the whole nanoseconds that do |
| `TokenBucket.LoneWaiter` | internal/resilience/ratelimiter.go:113-158 | for a lone waiter the sleep is the shortest after which it owes less than one nanosecond's refill |
| `TokenBucket.TokenBucketLimiter.WaitFinish` | internal/resilience/ratelimiter.go:145-158 | after the sleep tokens are taken without a check |
| `TokenBucket.TokenBucketLimiter.DoRefill` | internal/resilience/ratelimiter.go:162-172 | elapsed time times rate, capped |
| `TokenBucket.Conservation` | internal/resilience/ratelimiter.go:83-172 | in every interleaving tokens stay within the burst and grants plus tokens stay within the start plus the refill |
| `TokenBucket.AllowIntervalBound` | internal/resilience/ratelimiter.go:83-105 | without wake-ups tokens stay non-negative and any interval grants at most BurstSize + Rate * length / Period |
| `TokenBucket.IntervalBound` | internal/resilience/ratelimiter.go:83-172 | with wake-ups the same bound plus the debt at the interval's end |
| `TokenBucket.GrantedExactly` | internal/resilience/ratelimiter.go:83-105 | a request is granted at once if and only if that keeps every interval ending now within the bound |
| `TokenBucket.NoDebtIff` | internal/resilience/ratelimiter.go:83-172 | with wake-ups, the bucket is out of debt if and only if every interval ending at the last call is within the bound |
| `TokenBucket.WakeFitsIff` | internal/resilience/ratelimiter.go:145-158 | a wake-up keeps every interval within the bound if and only if the refilled bucket has the tokens |
| `TokenBucket.WaitersOvershoot` | internal/resilience/ratelimiter.go:145-158 | any number of waiters on an empty bucket all sleep the same time and are all granted |
| `TokenBucket.RefillComposes` | internal/resilience/ratelimiter.go:162-172 | refilling on the way changes nothing |
| `TokenBucket.RefusalsLeaveNoTrace` | internal/resilience/ratelimiter.go:83-172 | deleting any set of refused calls leaves every other verdict unchanged |
| `SlidingLimiter.SlidingWindowLimiter.Allow` | internal/resilience/ratelimiter.go:204-236 | the pruning loop and the decision |
| `SlidingLimiter.AdmittedExactly` | internal/resilience/ratelimiter.go:204-236 | a call is admitted if and only if fewer than Rate admissions of the whole history lie in the Period before it |
| `SlidingLimiter.RateBound` | internal/resilience/ratelimiter.go:204-236 | any half-open interval of length Period contains at most Rate admissions |
| `SlidingLimiter.PruneComposes` | internal/resilience/ratelimiter.go:211-218 | pruning now and again later is pruning later |
| `SlidingLimiter.RefusalsLeaveNoTrace` | internal/resilience/ratelimiter.go:204-236 | deleting any set of refused calls leaves every other decision unchanged |
| `WebSocketHub.Hub.RegisterClient` | internal/websocket/hub.go:108-131 | the indexes and counters after a registration |
| `WebSocketHub.Hub.UnregisterClient` | internal/websocket/hub.go:134-168 | the client leaves every index, its channel is closed once, unknown clients are ignored |
| `WebSocketHub.Hub.RemoveFromRooms` | internal/websocket/hub.go:134-168 | the loop, in any order, removes the client from every room and drops rooms left empty |
| `WebSocketHub.Hub.HandleJoinRoom` | internal/websocket/hub.go:171-189 | room index, the client's Rooms and the room count after a join |
| `WebSocketHub.Hub.HandleLeaveRoom` | internal/websocket/hub.go:192-212 | the same after a leave, dropping a room left empty |
| `WebSocketHub.Hub.HandleBroadcast` | internal/websocket/hub.go:215-250 | the message goes to the targets whose buffer has room, and each is counted |
| `WebSocketHub.IndexesAgree` | internal/websocket/hub.go:108-250 | in every disciplined run (clients register once, only registered ones join) userClients is the grouping by user, roomClients the inverse of Rooms, neither has an empty set, counters match, and no channel is closed twice |
| `WebSocketHub.BroadcastTargets` | internal/websocket/hub.go:215-250 | in every disciplined run a message reaches exactly the registered clients it is addressed to, none with a closed channel |
| `WebSocketHub.JoinAgreesIff` | internal/websocket/hub.go:171-189 | at any point of a disciplined run a join keeps the indexes in agreement if and only if the client is registered |
| `WebSocketHub.AgreeThroughoutIff` | internal/websocket/hub.go:108-250 | for clients that register once, the indexes agree throughout a run if and only if only registered clients join |
| `WebSocketHub.JoinAfterCloseIsTarget` | internal/websocket/hub.go:171-189 | a client that joins after it was unregistered is a broadcast target with a closed channel |
| `WebSocketHub.NeverRegisteredUnseen` | internal/websocket/hub.go:108-212 | in a disciplined run a connection that never registered leaves no trace |
| `WebSocketHub.TotalsCount` | internal/websocket/hub.go:108-250 | in every run the running totals count all registrations, broadcasts and messages put in a channel |
| `ConfigServing.DeepMerge` | internal/configserver/server.go:287-310 | the two loops, in any order and at any depth, compute the merge |
| `ConfigServing.MergeIsPathwise` | internal/configserver/server.go:287-310 | at every path the merged tree has the override's node, or nothing below a non-map of the override, or the base's node |
| `ConfigServing.MergeIsTheOverride` | internal/configserver/server.go:287-310 | the merge is the only tree with those nodes |
| `ConfigServing.MergeIdempotent` | internal/configserver/server.go:287-310 | merging a tree with itself changes nothing |
| `ConfigServing.MergeAbsorbs` | internal/configserver/server.go:287-310 | merging the same override twice is merging it once |
| `ConfigServing.CoveredIff` | internal/configserver/server.go:287-310 | the override wins entirely if and only if the base adds no key to any of its maps |
| `ConfigServing.AssociativeIff` | internal/configserver/server.go:287-310 | the merge is associative exactly where a non-map does not separate two maps, or separates them harmlessly |
| `ConfigServing.ScalarBetweenMaps` | internal/configserver/server.go:287-310 | a non-map between a non-empty and an empty map: one grouping drops the first map, the other keeps it |
| `ConfigServing.ConfigServer.GetConfig` | internal/configserver/server.go:255-272 | the default layer overridden by the profile's, either of which may be missing |
| `ConfigServing.ConfigServer.MergeWithDefault` | internal/configserver/server.go:275-284 | the profile over the default, or alone without one |
| `ConfigServing.DefaultServedUnchanged` | internal/configserver/server.go:255-284 | asking for "default", or for an absent profile, returns the stored default unchanged |
| `ConfigServing.ServedPathwise` | internal/configserver/server.go:255-310 | at every path the served tree has the profile's node, or nothing below a scalar of the profile, or the default's node; nothing is served if and only if neither is stored |
| `ConfigServing.KeysCollideIff` | internal/configserver/server.go:255-276 | two applications and profiles share a key if and only if they differ at most in where a slash is read |

## Left out

- Record and key expiry in the queue: job records, unique keys and idempotency keys have TTLs in the source; here they live until deleted.
- Redis errors in the queue and the pool: every command succeeds there. The job lock and leader election do model lost replies.
- More than two scheduled processors: ownership runs have one; `TwoProcessors.dfy` has two, beside producers and workers.
- Operations during ownership runs: manual retries and deletes are not steps there. They are steps of the unique-key model, the retry on dead jobs and the deletion on waiting jobs.
- `RetryJob` of the job service, which enqueues the same ID again, and `PurgeDLQ`: not modelled.
- `CleanupStaleJobs`, the running-jobs hash, the per-worker job sets and `ReleaseAllLocks`: not modelled.
- The statistics hash, including `pending`, and the limiters' metrics: counters beside the state machines.
- Idempotency is always on where successes are counted.
- UniqueKeys.UniqueIndexExact: queue operations are whole steps there; for interleaved commands see `StaleKeys.IndexExactIff`.
- UniqueKeys.NoSharedKeys: queue operations are whole steps there; for interleaved commands see `KeyRaces.NoSharedKeyOneAtATime`.
- UniqueKeys.AtMostOneSuccess: queue operations are whole steps there; for interleaved commands see `JobSuccesses.AtMostOneSuccess`.
- LeaderElection.Scheduler.TryAcquireLeadership: its commands share one instant; command by command, leader election is in `LeaderCommands.dfy`, without the object.
- LeaderElection.Scheduler.ReleaseLeadership: its commands share one instant, likewise.
- Clocks: command times do not go back within a run; nanoseconds, milliseconds or seconds as each file says. TTLs are positive.
- Floating point: delays and rates are exact reals, tokens are integers in units of 1/Period; rounding and overflow are not modelled.
- Requests for a negative number of tokens, and a rate or period that is not positive.
- A sliding window of size zero, on which the source panics when it records.
- Text of execution windows: windows are compared by value. A five-minute window reads like the one-minute window it starts with, as in the source.
- Singleton locks of the scheduler: whether a singleton runs, and whether Enqueue refuses, are free choices of a firing.
- JSON, UUIDs, SHA-256, handler panics, context cancellation, timeouts of handlers and logging.
- Hub clients as objects: a client's Rooms and its send channel are kept in the hub's state, so aliasing of client objects is not captured.
- Aliasing of nested maps between a merged configuration and its layers; loading, watching and refreshing of configurations.
- `Execute` and `ExecuteWithFallback` of the circuit breaker, the breaker registry, retry.go, the plugin services, the SSR cache, controllers, repositories and observability: delegation, or easy members beside these cores.
