# VisionForge in Dafny

A model of the parts of VisionForge whose behaviour is hard to see from one function, with machine-checked proofs about
them. `dafny verify dfyconfig.toml` checks the whole project.

**The job protocol.** A Postgres job table driven by compare-and-set updates, a result table, a Redis queue with leases,
and any number of workers, sweepers and API calls. `JobTypes`, `JobStore` and `RedisStore` hold the values and the
atomic effect of every SQL statement, Lua script and MULTI block. The classes in `RedisQueue`, `JobRepository`, `Worker`
and `Services` issue these effects in the order the Go methods do, and each method is proved against what it promises
while nobody interferes. `Protocol` interleaves the same effects, one per step, over threads that can crash between any
two of them; clocks advance at any time. `QueueThreads`, `Worker` and `Services` prove that what the methods do, a
thread of `Protocol` does when it is left alone, and `EndToEnd` takes a job from CreateAsync to SUCCESS that way. Every
other file of this group proves one family of properties of all runs; `Drives` holds the parts that concrete runs are
put together from.

A configuration names the number of attempts a worker makes and the three assumptions the properties differ in:
`serialRetry` (a Retry of a job is only called while no other Retry of it is in flight), `honestCreate` (an Enqueue of
CreateAsync that reports an error enqueued nothing; Retry's Enqueue may always do so) and `windowFaults` (between BRPOP
and ZADD a client may die, not hear the reply, or fail to put the id back). The theorems named `...ExactlyWhen` say in
which configurations a property holds of all runs; their negative halves are concrete runs for every other one.
"Execution is exclusive" stands for `serialRetry` and `honestCreate` (`ExclusionLimits.ExclusiveExactlyWhen`).

**The other cores.** `Boxes` and `Nms` (decoding, overlap and suppression of detections), `Keyset` (cursor pagination
over a table that changes), `RateLimit`, `Migrate`, `Registry`, `Sanitize`, and `Backoff` (the arithmetic of the worker's
retry delays).

**Where the code and its documentation disagree** the model follows the code:

- docs/architecture/ARCHITECTURE.md:59 and :77 say that failed jobs are retried and end DEAD. `MarkRunning` accepts only
  QUEUED rows, so the redelivery of a job that a worker has marked RETRYING is acknowledged and dropped, in every
  configuration (`RetryFate.RetriedJobNeverStartsAgain`). `MarkDead` accepts only RETRYING rows but is called for RUNNING
  ones: a job whose attempts are used up stays RUNNING (`RetryFate.AbandonedJobStaysRunning`), and a job becomes DEAD only
  where another thread interferes (`DeadLimits.DeadUnreachableExactlyWhen`).
- docs/architecture/ARCHITECTURE.md:85-86 says that a crashed worker's job is requeued. Its id is, but its row is RUNNING,
  so every redelivery is dropped and the job stays RUNNING (`WorkerLimits.AbandonedStaysRunningExactlyWhen`).
- docs/architecture/ARCHITECTURE.md:88-90 says that bad input and missing assets are not retried. All three failures a
  worker can meet are classified as retriable (`Backoff.WorkerFailuresAreRetriable`).
- docs/api/API.md:72 says that a DEAD job can be retried. Retry's guard lets it through and `MarkRetrying` refuses it
  (`Services.RetryIsAProtocolRun`).
- apps/api/internal/middleware/ratelimit.go:22 calls the limiter a classic fixed window. It renews the expiry on every
  call and is stricter: the two agree on a request only within one window of the start of the unbroken run of requests
  it belongs to (`RateLimit.IsFixedWindowExactlyWhen`, `RateLimit.SteadyClientIsLockedOut`).
- apps/api/internal/worker/worker.go:254-256 means to double the delay with every attempt. The nanoseconds do not fit 64
  bits from attempt 34 on, whose delay is negative (`WorkerLimits.DelaysAreBackoffsExactlyWhen`).
- apps/ml/app/models/onnx_detector.py:83-86 says that dividing by the ratio undoes the letterboxing, which has divided
  by it too; it does only at ratio 1 (`Boxes.DecodeUndoesLetterboxExactlyWhen`).
- The claim script (apps/api/internal/queue/queue.go:90-101) looks the payload up under a key with one colon too many, so
  the payload always comes from the separate GET; the lease deadline is computed once, before the waiting loop. Both are
  modelled as they are.

Time is counted in nanoseconds where Go does and in Unix seconds where Redis scores are; row ids are natural numbers,
whose order stands for the order of UUIDs. A Redis key is gone once the clock is past its expiry.

## Model

| member | source | states |
|---|---|---|
| JobTypes.TerminalIffNoWayOut | packages/types/jobs.go:23-65 | the states called terminal are exactly those without a permitted transition |
| JobTypes.CancellableExactlyWhen | packages/types/jobs.go:23-60 | a job can be cancelled exactly while it is CREATED, QUEUED or FAILED |
| RedisStore.RankedUnique | apps/api/internal/queue/queue.go:204-206 | the order of a scored set, by score and then member, is one list only, so a fetched batch is determined |
| RedisQueue.RedisQueue.RequeueExpired | apps/api/internal/queue/queue.go:199-241 | reading the clock anew before every batch, the loop equals a one-shot sweep for any number of expired leases and returns how many it moved |
| RedisQueue.RedisQueue.Dequeue | apps/api/internal/queue/queue.go:82-171 | sweeps, then leases the oldest listed id and hands out its payload, or reports an empty queue or a missing payload; which of its statements fail decides how far it gets |
| RedisQueue.EnqueuedComesDue | apps/api/internal/queue/queue.go:57-78 | an enqueued id is listed at once, or by exactly those sweeps at which its delay has passed, with its payload; no other id notices |
| RedisQueue.AcknowledgedStaysAway | apps/api/internal/queue/queue.go:174-181 | an acknowledged id has no lease, payload or dead entry, and no sweep lists it again; no other id notices |
| RedisQueue.BuriedStaysBuried | apps/api/internal/queue/queue.go:184-195 | a permanently failed id is dead since then with its payload kept, and no sweep lists it again; no other id notices |
| RedisQueue.FirstInFirstOut | apps/api/internal/queue/queue.go:57-159 | distinct jobs are delivered in the order they were enqueued, after those listed before, each with its own payload |
| RedisQueue.AbandonedComesBack | apps/api/internal/queue/queue.go:197-235 | a claimed id that nobody acknowledges is listed again by a sweep exactly when its deadline is reached, payload kept |
| QueueSweep.SweepStopsExactly | apps/api/internal/queue/queue.go:199-241 | with D leases due at the loop's first clock reading and stuck leases those that expire between it and a fetch, the loop reaches a short batch if and only if D mod 100 plus the stuck leases at fetch D / 100 are fewer than 100, or fewer than 100 are stuck at the next fetch |
| QueueSweep.RoundStep | apps/api/internal/queue/queue.go:203-239 | one round keeps what is left to sweep, and makes progress unless it is the last |
| QueueSweep.SweepIsExact | apps/api/internal/queue/queue.go:199-241 | exactly the leases not later than now move, each once, behind the ids listed; sweeping again changes nothing |
| QueueSweep.SweptPopOrder | apps/api/internal/queue/queue.go:204-235 | swept ids are popped in (score, id) order after all ids listed before |
| JobRepository.JobRepo.Create | apps/api/internal/repository/job.go:36-65 | inserts the row, or reports a conflict exactly when project and non-empty key are taken |
| JobRepository.JobRepo.FindByIdempotencyKey | apps/api/internal/repository/job.go:74-79 | finds a row with the project and key, and none only if there is none |
| JobRepository.JobRepo.MarkQueued | apps/api/internal/repository/job.go:145-158 | succeeds exactly from CREATED or RETRYING; clears the error only from RETRYING; no other row changes |
| JobRepository.JobRepo.MarkRunning | apps/api/internal/repository/job.go:159-161 | succeeds exactly from QUEUED, stamps the start, clears the error |
| JobRepository.JobRepo.MarkSucceeded | apps/api/internal/repository/job.go:162-168 | succeeds exactly from RUNNING |
| JobRepository.JobRepo.MarkFailed | apps/api/internal/repository/job.go:169-194 | succeeds exactly from RUNNING, CREATED or QUEUED; keeps an earlier completion time if none is given |
| JobRepository.JobRepo.MarkRetrying | apps/api/internal/repository/job.go:195-208 | succeeds exactly from FAILED or RUNNING |
| JobRepository.JobRepo.MarkDead | apps/api/internal/repository/job.go:209-216 | succeeds exactly from RETRYING |
| JobRepository.ResultRepo.Create | apps/api/internal/repository/result.go:19-34 | appends the row, or fails exactly when the job has one; job ids stay unique |
| JobRepository.ResultRepo.FindByJobID | apps/api/internal/repository/result.go:35-49 | finds the job's row if and only if it has one |
| Worker.Worker.Process | apps/api/internal/worker/worker.go:158-199 | a delivery of a row that is not QUEUED, or that MarkRunning does not reach, is acked and dropped; a QUEUED one ends as SUCCESS with its result or as the failure path leaves it, whichever statements fail |
| Worker.Worker.HandleFailure | apps/api/internal/worker/worker.go:246-289 | RETRYING row, released lease and a parked next attempt, or a buried id and a DEAD result if there is none; each statement is issued though others fail |
| Worker.ProcessIsAProtocolRun | apps/api/internal/worker/worker.go:158-289 | what Process does to the stores, whichever statements fail, a protocol thread does statement by statement, ending idle |
| Worker.RedeliveryIsDropped | apps/api/internal/worker/worker.go:161-167 | processing a delivery a second time changes nothing but the queue, whatever the outcomes |
| Services.InferenceService.CreateAsync | apps/api/internal/service/services.go:594-624 | returns the job that has the key, or queues a new one and lists its id once; what is left behind if any statement fails: nothing, a CREATED, a QUEUED or a FAILED row |
| Services.CreateAsyncIsAProtocolRun | apps/api/internal/service/services.go:594-624 | the same outcome and stores are reached by a protocol thread alone, whichever statements fail |
| Services.InferenceService.Retry | apps/api/internal/service/services.go:660-683 | queues exactly the FAILED jobs for their next attempt and refuses every other, DEAD ones included; a job it has released stays RETRYING if it cannot be queued |
| Services.RetryIsAProtocolRun | apps/api/internal/service/services.go:660-683 | the same outcome and stores are reached by a protocol thread alone, whichever statements fail |
| Services.InferenceService.CreateSync | apps/api/internal/service/services.go:540-592 | SUCCESS with its result, or FAILED with the code of what went wrong, or RUNNING if that update fails; the queue is not touched |
| Services.CreateSyncIsAProtocolRun | apps/api/internal/service/services.go:540-592 | the same outcome and stores are reached by a protocol thread alone, whichever statements fail |
| Services.SyncFailureCodes | apps/api/internal/service/services.go:549-577 | a failed synchronous job is stored with the code of the storage, the ML service or the database, whichever failed |
| QueueThreads.RequeueExpiredIsAProtocolRun | apps/api/internal/queue/queue.go:199-241 | fetching and moving id by id, round by round, a protocol thread alone comes to the one-shot sweep |
| QueueThreads.DequeueIsAProtocolRun | apps/api/internal/queue/queue.go:82-171 | a protocol thread alone leaves the queue as Dequeue does, whichever statements fail, and starts on the payload it returns, waits, or is idle |
| QueueThreads.WaitingIsAProtocolRun | apps/api/internal/queue/queue.go:107-134 | a Dequeue that waits leases the id BRPOP gives it under the deadline taken before the wait, as the claim does; if ZADD fails the id goes behind all others |
| QueueThreads.HousekeeperSweeps | apps/api/internal/worker/worker.go:94-108 | a housekeeper can come up at any time and sweep every lease that is due |
| QueueThreads.AbandonedLeaseComesBack | apps/api/internal/queue/queue.go:197-241 | from any reachable state with a leased id a run lists it again, its payload and row untouched |
| QueueHistory.LeasedForTwoMinutes | apps/api/internal/queue/queue.go:102-134 | in every run an id claimed or popped is leased until two minutes after a clock reading the same thread took in the same Dequeue |
| EndToEnd.UndisturbedJobSucceeds | apps/api/internal/worker/worker.go:126-199 | from any reachable state without listed ids and expired leases a new job can be taken to SUCCESS, one result, no trace in the queue |
| EndToEnd.NewJobSucceeds | apps/api/internal/service/services.go:594-624 | in particular by a call and a worker that come up in that state |
| Exclusion.ExclusiveExecution | apps/api/internal/worker/worker.go:158-190 | in every reachable state at most one worker executes a job, and its row is RUNNING |
| ExclusionLimits.ExclusiveExactlyWhen | apps/api/internal/repository/job.go:195-208 | exclusion holds in all runs if and only if Retry calls of a job do not overlap and a failed Enqueue of CreateAsync enqueued nothing |
| ExclusionLimits.OverlappingRetries | apps/api/internal/service/services.go:660-683 | a run in which a stale Retry releases a running job and two workers execute it |
| ExclusionLimits.FalseEnqueueError | apps/api/internal/service/services.go:610-618 | a run in which an Enqueue that happened but failed for the caller gets a job executed twice |
| JobHistory.CodeEdgesAgainstTable | packages/types/jobs.go:23-60 | the moves the code makes are the documented ones without CANCELLED and three more, plus QUEUED to FAILED |
| JobHistory.StatusHistory | apps/api/internal/repository/job.go:130-216 | between any two moments of a run a job's status follows such moves; no row disappears; terminal states are final |
| JobHistory.SuccessHasOneResult | apps/api/internal/worker/worker.go:172-190 | from the moment a job is SUCCESS it has exactly one result row, saying SUCCESS, and both stay so |
| Ledger.LedgerBalances | apps/api/internal/repository/job.go:145-161 | queueings = starts + failures out of QUEUED + one if QUEUED now; inferences never exceed starts, nor starts queueings |
| Idempotency.OneJobPerKey | apps/api/internal/service/services.go:594-624 | one row per project and non-empty key, returned jobs carry the key, and CreateAsync enqueues a job at most once |
| Idempotency.SameKeySameJob | apps/api/internal/service/services.go:594-624 | all calls with one key that return a job return the same job |
| Idempotency.FirstInsertWins | migrations/000001_init_schema.up.sql:115-116 | of all calls with one key that execute their INSERT exactly the first gets its row; every other ends in a conflict and changes no row |
| QueueHistory.SweptOncePerLease | apps/api/internal/queue/queue.go:204-235 | between two push-backs of an id there is a new lease, however many sweeps race with stale lists |
| QueueHistory.NeverSweptEarly | apps/api/internal/queue/queue.go:212-229 | no sweep pushes back a lease later than its clock; a delayed id comes back less than a second early at most |
| QueueHistory.EveryIdIsAccountedFor | apps/api/internal/queue/queue.go:57-195 | in every configuration, an id enqueued and not since acked or buried is listed, leased, held by one Dequeue, or went missing after its last Enqueue |
| QueueHistory.NoIdIsLost | apps/api/internal/queue/queue.go:57-195 | an id enqueued and not since acked or buried is listed, leased, or held by one Dequeue |
| QueueLimits.NoLossExactlyWhen | apps/api/internal/queue/queue.go:119-141 | that holds in all runs if and only if between BRPOP and ZADD no client dies, no reply gets lost and no put-back fails |
| QueueLimits.ReplyIsLost | apps/api/internal/queue/queue.go:110-128 | a run in which the reply to a BRPOP gets lost and the id with it, although no client dies |
| DeadLimits.DeadUnreachableExactlyWhen | apps/api/internal/repository/job.go:195-216 | no run makes a job DEAD if and only if Retry calls of a job do not overlap and either failed Enqueues of CreateAsync enqueued nothing or at least four attempts are configured |
| DeadLimits.StaleRetriesLetDeadThrough | apps/api/internal/service/services.go:660-683 | for any number of attempts, a run in which overlapping Retry calls take a job through all of them to DEAD |
| DeadLimits.FalseErrorAndThreeAttempts | apps/api/internal/service/services.go:610-618 | a run in which an Enqueue that happened but failed for the caller, one Retry and two failing workers make a job DEAD |
| AttemptLimit.TwoAttemptsAtMost | apps/api/internal/worker/worker.go:246-265 | with serial Retry calls and four attempts or more no row gets beyond attempts 2 and no payload beyond 3, and no job is DEAD, whatever Enqueue reports |
| RetryFate.RetriedJobNeverStartsAgain | apps/api/internal/worker/worker.go:253-265 | in every configuration, the row of a job that a worker has marked RETRYING is RETRYING or DEAD for ever, so no delivery starts it |
| WorkerLimits.RetriedJobNeverRunsAgainExactlyWhen | apps/api/internal/worker/worker.go:246-265 | no job a worker has marked RETRYING is executed afterwards, in any run, if and only if at most two attempts are configured, or a failed Enqueue of CreateAsync enqueued nothing and either Retry calls do not overlap or three attempts are configured |
| FirstAttempt.FirstAttemptIsExclusive | apps/api/internal/service/services.go:610-618 | if a failed Enqueue of CreateAsync enqueued nothing, a job it has enqueued has one executor at most, however Retry calls overlap |
| RetryFate.AbandonedJobStaysRunning | apps/api/internal/worker/worker.go:158-288 | while execution is exclusive, a job whose executor dies or has used up its attempts stays RUNNING for ever and is never executed again |
| WorkerLimits.AbandonedStaysRunningExactlyWhen | apps/api/internal/repository/job.go:159-161 | a RUNNING job that nobody executes stays so in all runs if and only if execution is exclusive |
| Backoff.WorkerFailuresAreRetriable | apps/api/internal/worker/worker.go:291-310 | every failure a worker can meet is retriable, and which kinds are at all |
| Backoff.DelaysIncreaseExactlyWhen | apps/api/internal/worker/worker.go:253-256 | later attempts wait longer, whatever the jitters, if and only if maxAttempts is at most 34 |
| WorkerSends.WorkerSendsAreBackoffs | apps/api/internal/worker/worker.go:251-265 | in every run a worker re-enqueues only attempts below maxAttempts, with their 64-bit delay, which up to attempt 33 is 2^attempt seconds and less than one more, after the attempt before was enqueued and its job started |
| WorkerSends.WorkerSendsFormChains | apps/api/internal/worker/worker.go:251-265 | in every run each re-enqueue ends a chain of consecutive attempts begun by CreateAsync or Retry, of at most maxAttempts - 2 re-enqueues, each delayed longer than the one before up to attempt 33, that wait less than 2^maxAttempts + maxAttempts seconds |
| WorkerLimits.DelaysAreBackoffsExactlyWhen | apps/api/internal/worker/worker.go:251-265 | in all runs every re-enqueue is delayed by 2^attempt seconds and less than one more if and only if Retry calls of a job do not overlap or maxAttempts is at most 34 |
| WorkerSends.SendsArePaidByStarts | apps/api/internal/worker/worker.go:160-265 | in every run workers re-enqueue a job at most once for each time it was started |
| WorkerSends.WorkersStartAJobOnce | apps/api/internal/worker/worker.go:160-265 | while execution is exclusive workers start, infer and re-enqueue every job at most once, so its backoff is one delay |
| WorkerLimits.StartedOnceExactlyWhen | apps/api/internal/worker/worker.go:158-167 | workers start every job at most once in all runs if and only if execution is exclusive |
| Backoff.DelaysFitInt64Exactly | apps/api/internal/worker/worker.go:254-256 | computed in 64-bit nanoseconds, all delays are the backoffs meant if and only if maxAttempts is at most 34 |
| Backoff.DueLessThanASecondEarly | apps/api/internal/queue/queue.go:67-72 | a whole-second score is reached less than a second before the delay has passed |
| Boxes.OverlapCountsPixels | apps/ml/app/models/onnx_detector.py:179-188 | inter and union are the numbers of common and of all pixels of two boxes |
| Boxes.IoUIsARatioOfPixels | apps/ml/app/models/onnx_detector.py:179-189 | symmetric, within [0, 1], 0 exactly for disjoint boxes and 1 exactly for equal ones |
| Boxes.DecodedInside | apps/ml/app/models/onnx_detector.py:163-170 | every decoded box has positive area and lies inside the image |
| Boxes.DecodedWhere | apps/ml/app/models/onnx_detector.py:161-170 | each edge is that of the anchor divided by the ratio, rounded down to a pixel and moved into the image; each side likewise, with at least one pixel and at most what is left |
| Boxes.StretchedBoxDecodes | apps/ml/app/models/onnx_detector.py:161-170 | for every ratio a box of the image, its coordinates multiplied by the ratio, decodes to itself |
| Boxes.RatioFits | apps/ml/app/models/onnx_detector.py:89-91 | the image divided by the ratio fits the input and fills it in one direction |
| Boxes.DecodeUndoesLetterboxExactlyWhen | apps/ml/app/models/onnx_detector.py:88-166 | decoding gives all boxes of an image back if and only if the ratio is 1 or the image is one pixel |
| Nms.SortIsStable | apps/ml/app/models/onnx_detector.py:193 | the sort descends by confidence and keeps the order within each confidence |
| Nms.StableOrderIsUnique | apps/ml/app/models/onnx_detector.py:193 | only one list has both properties |
| Nms.KeepsTheGreedySubsequence | apps/ml/app/models/onnx_detector.py:192-199 | the kept list is the one subsequence in which an item is kept exactly when no earlier kept item rules it out |
| Nms.DroppedAreDominated | apps/ml/app/models/onnx_detector.py:192-199 | every dropped detection is ruled out by a kept one of no lower confidence |
| Nms.KeepsInPixels | apps/ml/app/models/onnx_detector.py:179-199 | no two kept detections of one label share that part of their pixels, every dropped one does with an earlier kept one of its label and no lower confidence, and this leaves one choice of positions |
| Nms.SuppressionIsIdempotent | apps/ml/app/models/onnx_detector.py:192-199 | suppressing again changes nothing |
| Nms.RoundingIsMonotone | apps/ml/app/models/base.py:28 | rounding to four places keeps the order of confidences |
| Nms.RoundedToNearest | apps/ml/app/models/base.py:28 | a rounded confidence is the nearest multiple of 1/10000, an even one on a tie |
| Nms.FilterCommutesWithSuppression | apps/ml/app/models/onnx_detector.py:192-199 | filtering the kept list by rounded confidence, as the result page does, equals suppressing the filtered candidates |
| Nms.Suppress | apps/ml/app/models/onnx_detector.py:192-199 | the pop-and-filter loop computes the kept list, and keeps the positions that labels, confidences and shared pixels determine |
| Nms.Postprocess | apps/ml/app/models/onnx_detector.py:160-176 | decodes every candidate in order under its label and confidence to where it lies in the image, and keeps the positions determined by labels, confidences and half of the pixels shared; the zero-union branch is never taken |
| Keyset.List | apps/api/internal/repository/job.go:81-128 | only rows of the project or owner and the statuses asked for that come after the cursor row, newest first; none is skipped before the last row of the page; limits from 1 to 200 are page sizes, others mean 50; has_more exactly if a row is missing |
| Keyset.ListedUnique | apps/api/internal/repository/repository.go:241-277 | the order by (created_at, id) descending is one list only |
| Keyset.NoRowComesTwice | apps/api/internal/repository/job.go:81-128 | following the cursor over a changing table, keys strictly descend and no id repeats |
| Keyset.ReceivedExactlyWhen | apps/api/internal/repository/repository.go:349-384 | a finished walk has a row that was there throughout if and only if it is not older than a cursor row deleted meanwhile |
| Keyset.DeletedCursorLosesRows | apps/api/internal/repository/repository.go:520-558 | a walk that misses a row because a cursor row was deleted |
| Keyset.QuietTableIsReadInOrder | apps/api/internal/repository/repository.go:241-277 | on a quiet table the pages are the whole order, and the n-th is the last exactly when n >= 1 pages hold all rows |
| RateLimit.RateLimiter.Allow | apps/api/internal/middleware/ratelimit.go:23-46 | counts in the key's bucket and renews its expiry; allowed up to the limit; what remains is never negative; reset is the time until the bucket expires, or the window if TTL fails; a failed transaction is an error |
| RateLimit.AtMostLimitPerWindow | apps/api/internal/middleware/ratelimit.go:23-46 | at most limit requests pass in any span no longer than the window |
| RateLimit.IdleWindowRestoresTheLimit | apps/api/internal/middleware/ratelimit.go:23-46 | after more than a window without requests the next limit requests pass |
| RateLimit.RemainingIsExact | apps/api/internal/middleware/ratelimit.go:41-45 | the remaining number reported is exactly how many more pass unless the client pauses for more than a window |
| RateLimit.SteadyClientIsLockedOut | apps/api/internal/middleware/ratelimit.go:25-27 | a client that never pauses for more than a window gets limit requests through, ever |
| RateLimit.NeverMorePermissiveThanFixedWindow | apps/api/internal/middleware/ratelimit.go:23-46 | request by request the fixed-window limiter passes whatever this one passes |
| RateLimit.IsFixedWindowExactlyWhen | apps/api/internal/middleware/ratelimit.go:22-46 | whatever the limit, this limiter and the fixed-window one decide alike on a request if and only if it comes within one window of the first request of its unbroken run |
| Migrate.Database.Up | apps/api/cmd/migrate/main.go:77-119 | the loop computes the specification UpSpec, in place, commit by commit |
| Migrate.Database.Down | apps/api/cmd/migrate/main.go:122-168 | the loop computes the specification DownSpec, in place, commit by commit |
| Migrate.UpContinues | apps/api/cmd/migrate/main.go:77-119 | with the first k files recorded Up applies the files from the k-th on, at most n of them |
| Migrate.DownContinues | apps/api/cmd/migrate/main.go:122-168 | with the first k files recorded Down reverts them from the last back, at most n of them |
| Migrate.UpFileByFile | apps/api/cmd/migrate/main.go:90-113 | Up runs the first script not recorded; if it or its transaction fails, schema and record stay as they are and Up reports it, otherwise both change together |
| Migrate.DownFileByFile | apps/api/cmd/migrate/main.go:139-166 | Down likewise with the down script of the last file recorded, and reports a missing one |
| Migrate.RecordedVersionsAreAPrefix | apps/api/cmd/migrate/main.go:77-168 | through any Up and Down, failing anywhere, the recorded versions are those of the first so many files |
| Migrate.UpInTwoParts | apps/api/cmd/migrate/main.go:77-119 | Up(a) then Up(b) equals Up(a + b), failures included |
| Migrate.DownRestoresWhatUpApplied | apps/api/cmd/migrate/main.go:77-168 | Down by as many as an Up applied restores schema and record when down scripts take back up scripts |
| Migrate.AllAreAppliedExactlyWhen | apps/api/cmd/migrate/main.go:200-228 | scripts that cannot fail are all applied if and only if the sorted versions are distinct and at least 1 |
| Registry.ModelRegistry.Bind | apps/ml/app/models/registry.py:185-190 | returns the earlier binding untouched, or makes and returns its own |
| Registry.ModelRegistry.Resolve | apps/ml/app/models/registry.py:47-194 | what it returns is what is registered afterwards; an existing binding is never replaced, though it does not load; a new model that does not load is an exception and leaves no binding |
| Registry.RequestAlone | apps/ml/app/models/registry.py:146-194 | a request that nobody interferes with is answered as Resolve answers it; one that has built a model gets a model |
| Registry.FirstBindingWins | apps/ml/app/models/registry.py:146-194 | all concurrent requests for one id get the same model and metadata |
| Registry.AgreementExactlyWhen | apps/ml/app/models/registry.py:39-60 | that holds in all runs if and only if nothing is registered from outside after start-up |
| Sanitize.ResultIsNormal | apps/api/internal/service/services.go:445-453 | non-empty, at most 200 characters, safe alphabet only, no two adjacent dots |
| Sanitize.SafeAlphabet | apps/api/internal/service/services.go:276 | the safe characters are the ASCII letters and digits, dot, dash and underscore |
| Sanitize.EveryPositionContributes | apps/api/internal/service/services.go:445-453 | every safe character comes back in order, every longest unsafe run and every pair of dots from the left becomes one underscore, cut at 200 characters |
| Sanitize.OnlyTheBaseMatters | apps/api/internal/service/services.go:445-453 | the directory part of a name does not matter |
| Sanitize.UnchangedExactlyWhenNormal | apps/api/internal/service/services.go:445-453 | a name comes back unchanged if and only if it is of that form |
| Sanitize.SanitizeIsIdempotent | apps/api/internal/service/services.go:445-453 | sanitizing twice is sanitizing once |

## Left out

- HTTP handlers, routing, authorization, audit records, metrics and the web interface: plumbing around the calls modelled.
- Redis, Postgres and object storage themselves: only the atomic effect of each command; the 24-hour payload expiry does not run out.
- Lost replies other than those of Enqueue and BRPOP: a statement either does not happen, or happens and its client sees it or crashes.
- Eventual completion: nothing guarantees it in this code, see the first disagreement above.
- Deleting projects, assets or jobs while jobs run: rows of the two tables only ever get added and updated.
- Error messages in `Protocol`, `Worker` and `Services`: always the empty string; the class methods of `JobRepository` keep them.
- Payload fields besides job id and attempt, JSON encoding, and Enqueue's check for an empty id, which no caller passes.
- Depth, Close, and the repository methods IncrementAttempts, PickNextQueued and the counters: not used by the protocol.
- RedisQueue.RedisQueue.Dequeue: one uncontended pass; the wait for an id and the failure of a fetch after the first are in `QueueThreads` and `Protocol`.
- RedisQueue.RedisQueue.RequeueExpired: clock readings never go back, and its precondition is the loop's exact termination condition, by `QueueSweep.SweepStopsExactly`; with a standing clock it always holds. A script that fails, which skips one id, is in `QueueThreads` and `Protocol` only.
- Worker.Worker.Process: one clock reading stands for the several it takes, in `Protocol` each is its own.
- Worker.Worker.HandleFailure: the same.
- Services.InferenceService.CreateAsync: the row id the database draws is a parameter; an Enqueue that happens but reports an error is in `Protocol` only.
- Services.InferenceService.Retry: the latter likewise.
- Exclusion.ExclusiveExecution: assumes `serialRetry` and `honestCreate`; `ExclusionLimits.ExclusiveExactlyWhen` shows that both are needed.
- RetryFate.AbandonedJobStaysRunning: assumes exclusive execution; `WorkerLimits.AbandonedStaysRunningExactlyWhen` shows that it is needed.
- WorkerSends.WorkersStartAJobOnce: assumes exclusive execution; `WorkerLimits.StartedOnceExactlyWhen` shows that one start per job needs it. The other theorems of `WorkerSends` assume nothing.
- WorkerSends.WorkerSendsAreBackoffs: from attempt 63 on Go leaves the conversion of 2^attempt to an integer to the platform; the model wraps as amd64 does.
- Boxes.IoUIsARatioOfPixels: exact ratios; rounding of floating-point division near the threshold is not modelled.
- Nms.Postprocess: candidate selection (score threshold, minimum size, top 300), tensor layout, model inference and image resizing come before it and are not part of this model.
- Boxes.DecodeUndoesLetterboxExactlyWhen: exact division; the resize target is not rounded to whole pixels.
- Keyset.List: the query's answer is the specification of its SQL; the four copies differ in their filter only.
- RateLimit.RateLimiter.Allow: whole seconds, and nobody else calls between the transaction and TTL; the middleware's fail-open answer to an error is left out.
- Migrate.Database.Up: reading a file and losing a transaction are one set of versions that do not commit; file names are parsed already.
- Registry.ModelRegistry.Resolve: what the artifact's URI leads to and whether models load are parameters.
- Sanitize.ResultIsNormal: names are bytes, and a run of bytes outside the ASCII class is a run of runes outside it.
