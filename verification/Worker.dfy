/** The worker's handling of one delivery, as the sequence of repository and queue calls it makes and
    as one thread of the protocol: both come to the same. */
module Worker {
  import opened JobTypes
  import opened JobStore
  import opened RedisStore
  import opened Backoff
  import opened Protocol
  import opened Alone
  import JobRepository
  import RedisQueue

  // ---------------------------------------------------------------- what a delivery amounts to

  function Next(p: Payload): Payload {
    p.(attempt := p.attempt + 1)
  }

  /** The statements of a delivery that can fail. A statement that does changes nothing. */
  datatype Site =
    | AtStart | AtPersist | AtSucceed | AtAck
    | AtRetryFailed | AtRetryRunning | AtAckRetry | AtResend
    | AtMarkDead | AtBury | AtRecord

  function Acked(st: Stores, job: Id, works: bool): Stores {
    if works then st.(redis := Ack(st.redis, job)) else st
  }

  /** The next attempt parked in the queue. */
  function Parked(st: Stores, p: Payload, jitter: nat, now: Time): Stores {
    st.(redis := Enqueue(st.redis, Next(p), now, RetryDelay(p.attempt + 1, jitter)))
  }

  /** A failure that is tried again: the row is RETRYING, the lease is gone, and the next attempt is
      parked in the queue until its delay has passed. Each of the three may fail without stopping the next. */
  function Retried(st: Stores, p: Payload, jitter: nat, now: Time, down: set<Site>): Stores {
    var moves := AtRetryFailed !in down
                 && (CanMove(st.jobs, p.job, Failed) || (CanMove(st.jobs, p.job, Running) && AtRetryRunning !in down));
    var jobs := if moves then st.jobs[p.job := st.jobs[p.job].(status := Retrying)] else st.jobs;
    var released := Acked(st.(jobs := jobs), p.job, AtAckRetry !in down);
    if AtResend in down then released else Parked(released, p, jitter, now)
  }

  /** The id is in the dead set, and a DEAD result is recorded if there is none. */
  function Recorded(st: Stores, p: Payload, now: Time, down: set<Site>): Stores {
    st.(results := if AtRecord in down || HasResult(st.results, p.job) then st.results
            else st.results + [ResultRow(p.job, Dead)],
        redis := if AtBury in down then st.redis else Fail(st.redis, p.job, true, now))
  }

  /** A failure that is not: the row changes only if it is RETRYING, which no row is whose delivery has
      just failed. */
  function Abandoned(st: Stores, p: Payload, code: ErrorCode, now: Time, down: set<Site>): Stores {
    var jobs := if CanMove(st.jobs, p.job, Retrying) && AtMarkDead !in down
                then st.jobs[p.job := st.jobs[p.job].(status := Dead, error := Some(JobError(code, "")),
                    completedAt := Some(now))]
                else st.jobs;
    Recorded(st.(jobs := jobs), p, now, down)
  }

  function Handled(st: Stores, p: Payload, kind: ErrorKind, max: nat, jitter: nat, now: Time, down: set<Site>): Stores {
    var code := ClassifyErrorCode(kind);
    if WillRetry(p.attempt, max, code) then Retried(st, p, jitter, now, down) else Abandoned(st, p, code, now, down)
  }

  function StartedRow(row: JobRow, now: Time): JobRow {
    row.(status := Running, startedAt := Some(now), error := None)
  }

  /** A delivery of a row that is not QUEUED, or that MarkRunning cannot reach, is acked and dropped; a QUEUED one
      ends as a SUCCESS with its result, or as the failure path leaves it. */
  function Processed(st: Stores, p: Payload, failure: Option<ErrorKind>, max: nat, jitter: nat, now: Time,
      down: set<Site>): Stores {
    if AtStart in down || !CanMove(st.jobs, p.job, Queued) then Acked(st, p.job, AtAck !in down)
    else
      var row := StartedRow(st.jobs[p.job], now);
      var started := st.(jobs := st.jobs[p.job := row]);
      if failure.Some? then Handled(started, p, failure.value, max, jitter, now, down)
      else if AtPersist in down || HasResult(st.results, p.job) then
        Handled(started, p, KDatabase, max, jitter, now, down)
      else
        var done := if AtSucceed in down then row else row.(status := Success, completedAt := Some(now));
        Acked(Stores(st.jobs[p.job := done], st.results + [ResultRow(p.job, Success)], st.redis), p.job, AtAck !in down)
  }

  // ---------------------------------------------------------------- the calls, one after the other

  class Worker {
    const jobs: JobRepository.JobRepo
    const results: JobRepository.ResultRepo
    const queue: RedisQueue.RedisQueue
    const maxAttempts: nat

    constructor (j: JobRepository.JobRepo, r: JobRepository.ResultRepo, q: RedisQueue.RedisQueue, max: nat)
      ensures jobs == j && results == r && queue == q && maxAttempts == max
    {
      jobs, results, queue, maxAttempts := j, r, q, max;
    }

    function View(): Stores
      reads jobs, results, queue
    {
      Stores(jobs.jobs, results.rows, queue.View())
    }

    /** `failure` is what the inference comes to; it fails only to find the asset or in the ML call. */
    method Process(p: Payload, failure: Option<ErrorKind>, jitter: nat, now: Time, down: set<Site>)
      requires results.Valid()
      modifies jobs, results, queue
      ensures results.Valid()
      ensures View() == Processed(old(View()), p, failure, maxAttempts, jitter, now, down)
    {
      var ok := jobs.MarkRunning(p.job, now, AtStart !in down);
      if !ok {
        var _ := queue.Ack(p.job, AtAck !in down);
        return;
      }
      if failure.Some? {
        HandleFailure(p, failure.value, jitter, now, down);
        return;
      }
      var persisted := results.Create(ResultRow(p.job, Success), AtPersist !in down);
      if persisted.Err? {
        HandleFailure(p, KDatabase, jitter, now, down);
        return;
      }
      var _ := jobs.MarkSucceeded(p.job, now, AtSucceed !in down);
      var _ := queue.Ack(p.job, AtAck !in down);
      assert View() == Processed(old(View()), p, failure, maxAttempts, jitter, now, down);
    }

    method HandleFailure(p: Payload, kind: ErrorKind, jitter: nat, now: Time, down: set<Site>)
      requires results.Valid()
      modifies jobs, results, queue
      ensures results.Valid()
      ensures View() == Handled(old(View()), p, kind, maxAttempts, jitter, now, down)
    {
      var code := ClassifyErrorCode(kind);
      var attempt := p.attempt + 1;
      if attempt < maxAttempts && Retriable(code) {
        var backoff := Int64(Pow2(attempt) * SECOND);
        var delay := Int64(backoff + jitter);
        Int64Twice(Pow2(attempt) * SECOND, jitter);
        var up := if AtRetryFailed in down then 0 else if AtRetryRunning in down then 1 else 2;
        var _ := jobs.MarkRetrying(p.job, up);
        var _ := queue.Ack(p.job, AtAckRetry !in down);
        var _ := queue.Enqueue(p.(attempt := attempt), now, delay, AtResend !in down);
        return;
      }
      var _ := jobs.MarkDead(p.job, JobError(code, ""), now, AtMarkDead !in down);
      var _ := queue.Fail(p.job, true, now, AtBury !in down);
      var _ := results.Create(ResultRow(p.job, Dead), AtRecord !in down);
    }
  }

  // ---------------------------------------------------------------- the same as a protocol thread

  // one statement each

  lemma GoStarting(cfg: Config, s0: State, s: State, t: ThreadId, p: Payload, works: bool) returns (s': State)
    requires IsAt(cfg, s0, s, t, Starting(p))
    ensures Reaches(cfg, s0, s, s', t,
                    Shared(s).(jobs := if works then Update(s.jobs, p.job, Queued, Running, StartedStamp(s.clock))
                                       else s.jobs),
                    if works && CanMove(s.jobs, p.job, Queued) then Inferring(p) else Acking(p.job))
  {
    var start := TryMove(s, p.job, Queued, Running, StartedStamp(s.clock), Inferring(p), Acking(p.job));
    s' := Statement(cfg, s0, s, t, Answer(works), if works then start else Plan(Silent, Acking(p.job)));
  }

  lemma GoInferring(cfg: Config, s0: State, s: State, t: ThreadId, p: Payload, failure: Option<ErrorKind>)
    returns (s': State)
    requires IsAt(cfg, s0, s, t, Inferring(p))
    requires failure.Some? ==> failure.value in {KStorage, KInference}
    ensures Reaches(cfg, s0, s, s', t, Shared(s),
                    if failure.Some? then Failing(cfg, p, failure.value) else Persisting(p))
  {
    var effect := if failure == Some(KStorage) then Silent else Inferred(p.job);
    var next := if failure.Some? then Failing(cfg, p, failure.value) else Persisting(p);
    s' := Statement(cfg, s0, s, t, Infer(failure), Plan(effect, next));
  }

  lemma GoPersisting(cfg: Config, s0: State, s: State, t: ThreadId, p: Payload, works: bool) returns (s': State)
    requires IsAt(cfg, s0, s, t, Persisting(p))
    ensures if !works || HasResult(s.results, p.job)
            then Reaches(cfg, s0, s, s', t, Shared(s), Failing(cfg, p, KDatabase))
            else Reaches(cfg, s0, s, s', t, Shared(s).(results := s.results + [ResultRow(p.job, Success)]),
                         Succeeding(p))
  {
    if !works || HasResult(s.results, p.job) {
      s' := Statement(cfg, s0, s, t, Answer(works), Plan(Silent, Failing(cfg, p, KDatabase)));
    } else {
      s' := Statement(cfg, s0, s, t, Run, Plan(ResultInserted(ResultRow(p.job, Success)), Succeeding(p)));
    }
  }

  lemma GoSucceeding(cfg: Config, s0: State, s: State, t: ThreadId, p: Payload, works: bool) returns (s': State)
    requires IsAt(cfg, s0, s, t, Succeeding(p))
    ensures Reaches(cfg, s0, s, s', t,
                    Shared(s).(jobs := if works then Update(s.jobs, p.job, Running, Success, DoneStamp(s.clock))
                                       else s.jobs), Acking(p.job))
  {
    var done := TryMove(s, p.job, Running, Success, DoneStamp(s.clock), Acking(p.job), Acking(p.job));
    s' := Statement(cfg, s0, s, t, Answer(works), if works then done else Plan(Silent, Acking(p.job)));
  }

  lemma GoAcking(cfg: Config, s0: State, s: State, t: ThreadId, id: Id, works: bool) returns (s': State)
    requires IsAt(cfg, s0, s, t, Acking(id))
    ensures Reaches(cfg, s0, s, s', t, Acked(Shared(s), id, works), WorkerIdle)
  {
    s' := Statement(cfg, s0, s, t, Answer(works), Plan(if works then Effect.Acked(id) else Silent, WorkerIdle));
  }

  lemma GoRetryingFailed(cfg: Config, s0: State, s: State, t: ThreadId, p: Payload, works: bool) returns (s': State)
    requires IsAt(cfg, s0, s, t, RetryingFailed(p))
    ensures Reaches(cfg, s0, s, s', t,
                    Shared(s).(jobs := if works then Update(s.jobs, p.job, Failed, Retrying, Plain) else s.jobs),
                    if !works || CanMove(s.jobs, p.job, Failed) then AckingRetry(p) else RetryingRunning(p))
  {
    s' := Statement(cfg, s0, s, t, Answer(works),
        if works then TryMove(s, p.job, Failed, Retrying, Plain, AckingRetry(p), RetryingRunning(p))
        else Plan(Silent, AckingRetry(p)));
  }

  lemma GoRetryingRunning(cfg: Config, s0: State, s: State, t: ThreadId, p: Payload, works: bool) returns (s': State)
    requires IsAt(cfg, s0, s, t, RetryingRunning(p))
    ensures Reaches(cfg, s0, s, s', t,
                    Shared(s).(jobs := if works then Update(s.jobs, p.job, Running, Retrying, Plain) else s.jobs),
                    AckingRetry(p))
  {
    s' := Statement(cfg, s0, s, t, Answer(works),
        if works then TryMove(s, p.job, Running, Retrying, Plain, AckingRetry(p), AckingRetry(p))
        else Plan(Silent, AckingRetry(p)));
  }

  lemma GoAckingRetry(cfg: Config, s0: State, s: State, t: ThreadId, p: Payload, works: bool) returns (s': State)
    requires IsAt(cfg, s0, s, t, AckingRetry(p))
    ensures Reaches(cfg, s0, s, s', t, Acked(Shared(s), p.job, works), Resending(p))
  {
    s' := Statement(cfg, s0, s, t, Answer(works), Plan(if works then Effect.Acked(p.job) else Silent, Resending(p)));
  }

  lemma GoResending(cfg: Config, s0: State, s: State, t: ThreadId, p: Payload, jitter: nat, works: bool)
    returns (s': State)
    requires IsAt(cfg, s0, s, t, Resending(p)) && jitter < SECOND
    ensures Reaches(cfg, s0, s, s', t, if works then Parked(Shared(s), p, jitter, s.clock) else Shared(s), WorkerIdle)
  {
    var send := Sent(Next(p), RetryDelay(p.attempt + 1, jitter), s.clock, ByWorker);
    s' := Statement(cfg, s0, s, t, if works then Jitter(jitter) else Fault,
        Plan(if works then send else Silent, WorkerIdle));
  }

  lemma GoMarkingDead(cfg: Config, s0: State, s: State, t: ThreadId, p: Payload, code: ErrorCode, works: bool)
    returns (s': State)
    requires IsAt(cfg, s0, s, t, MarkingDead(p, code))
    ensures Reaches(cfg, s0, s, s', t,
                    Shared(s).(jobs := if works then Update(s.jobs, p.job, Retrying, Dead,
                        ErrorStamp(JobError(code, ""), Some(s.clock))) else s.jobs), Burying(p))
  {
    var error := ErrorStamp(JobError(code, ""), Some(s.clock));
    s' := Statement(cfg, s0, s, t, Answer(works),
        if works then TryMove(s, p.job, Retrying, Dead, error, Burying(p), Burying(p)) else Plan(Silent, Burying(p)));
  }

  lemma GoBurying(cfg: Config, s0: State, s: State, t: ThreadId, p: Payload, works: bool) returns (s': State)
    requires IsAt(cfg, s0, s, t, Burying(p))
    ensures Reaches(cfg, s0, s, s', t,
                    Shared(s).(redis := if works then Fail(s.redis, p.job, true, s.clock) else s.redis),
                    RecordingDead(p))
  {
    s' := Statement(cfg, s0, s, t, Answer(works), Plan(if works then Buried(p.job) else Silent, RecordingDead(p)));
  }

  lemma GoRecording(cfg: Config, s0: State, s: State, t: ThreadId, p: Payload, works: bool) returns (s': State)
    requires IsAt(cfg, s0, s, t, RecordingDead(p))
    ensures Reaches(cfg, s0, s, s', t, Shared(s).(
                        results := if !works || HasResult(s.results, p.job) then s.results
                            else s.results + [ResultRow(p.job, Dead)]), WorkerIdle)
  {
    var record := if !works || HasResult(s.results, p.job) then Silent else ResultInserted(ResultRow(p.job, Dead));
    s' := Statement(cfg, s0, s, t, Answer(works), Plan(record, WorkerIdle));
  }

  // one path each

  lemma AloneReleased(cfg: Config, s0: State, s: State, t: ThreadId, p: Payload, down: set<Site>) returns (end: State)
    requires IsAt(cfg, s0, s, t, RetryingFailed(p))
    ensures var moves := AtRetryFailed !in down
                && (CanMove(s.jobs, p.job, Failed) || (CanMove(s.jobs, p.job, Running) && AtRetryRunning !in down));
            Reaches(cfg, s0, s, end, t,
                    Shared(s).(jobs := if moves then s.jobs[p.job := s.jobs[p.job].(status := Retrying)] else s.jobs),
                    AckingRetry(p))
  {
    end := GoRetryingFailed(cfg, s0, s, t, p, AtRetryFailed !in down);
    if AtRetryFailed !in down && !CanMove(s.jobs, p.job, Failed) {
      end := GoRetryingRunning(cfg, s0, end, t, p, AtRetryRunning !in down);
    }
  }

  lemma AloneRetried(cfg: Config, s0: State, s: State, t: ThreadId, p: Payload, jitter: nat, down: set<Site>)
    returns (end: State)
    requires IsAt(cfg, s0, s, t, RetryingFailed(p)) && jitter < SECOND
    ensures Reaches(cfg, s0, s, end, t, Retried(Shared(s), p, jitter, s.clock, down), WorkerIdle)
  {
    var s1 := AloneReleased(cfg, s0, s, t, p, down);
    var s2 := GoAckingRetry(cfg, s0, s1, t, p, AtAckRetry !in down);
    end := GoResending(cfg, s0, s2, t, p, jitter, AtResend !in down);
  }

  lemma AloneAbandoned(cfg: Config, s0: State, s: State, t: ThreadId, p: Payload, code: ErrorCode, down: set<Site>)
    returns (end: State)
    requires IsAt(cfg, s0, s, t, MarkingDead(p, code))
    ensures Reaches(cfg, s0, s, end, t, Abandoned(Shared(s), p, code, s.clock, down), WorkerIdle)
  {
    var s1 := GoMarkingDead(cfg, s0, s, t, p, code, AtMarkDead !in down);
    assert s1.jobs == Abandoned(Shared(s), p, code, s.clock, down).jobs;
    var s2 := GoBurying(cfg, s0, s1, t, p, AtBury !in down);
    end := GoRecording(cfg, s0, s2, t, p, AtRecord !in down);
  }

  lemma AloneHandled(cfg: Config, s0: State, s: State, t: ThreadId, p: Payload, kind: ErrorKind, jitter: nat,
      down: set<Site>)
    returns (end: State)
    requires IsAt(cfg, s0, s, t, Failing(cfg, p, kind)) && jitter < SECOND
    ensures Reaches(cfg, s0, s, end, t, Handled(Shared(s), p, kind, cfg.maxAttempts, jitter, s.clock, down), WorkerIdle)
  {
    if WillRetry(p.attempt, cfg.maxAttempts, ClassifyErrorCode(kind)) {
      end := AloneRetried(cfg, s0, s, t, p, jitter, down);
    } else {
      end := AloneAbandoned(cfg, s0, s, t, p, ClassifyErrorCode(kind), down);
    }
  }

  lemma AloneSucceeding(cfg: Config, s0: State, s: State, t: ThreadId, p: Payload, down: set<Site>)
    returns (end: State)
    requires IsAt(cfg, s0, s, t, Succeeding(p))
    ensures var jobs := if AtSucceed in down then s.jobs
                        else Update(s.jobs, p.job, Running, Success, DoneStamp(s.clock));
            Reaches(cfg, s0, s, end, t, Acked(Shared(s).(jobs := jobs), p.job, AtAck !in down), WorkerIdle)
  {
    var s1 := GoSucceeding(cfg, s0, s, t, p, AtSucceed !in down);
    end := GoAcking(cfg, s0, s1, t, p.job, AtAck !in down);
  }

  /** What a RUNNING job's stores become once its inference has ended. */
  function Concluded(st: Stores, p: Payload, failure: Option<ErrorKind>, max: nat, jitter: nat, now: Time,
      down: set<Site>): Stores {
    if failure.Some? then Handled(st, p, failure.value, max, jitter, now, down)
    else if AtPersist in down || HasResult(st.results, p.job) then Handled(st, p, KDatabase, max, jitter, now, down)
    else
      var jobs := if AtSucceed in down then st.jobs else Update(st.jobs, p.job, Running, Success, DoneStamp(now));
      Acked(Stores(jobs, st.results + [ResultRow(p.job, Success)], st.redis), p.job, AtAck !in down)
  }

  lemma AlonePersisting(cfg: Config, s0: State, s: State, t: ThreadId, p: Payload, jitter: nat, down: set<Site>)
    returns (end: State)
    requires IsAt(cfg, s0, s, t, Persisting(p)) && jitter < SECOND
    ensures Reaches(cfg, s0, s, end, t, Concluded(Shared(s), p, None, cfg.maxAttempts, jitter, s.clock, down),
                    WorkerIdle)
  {
    var s1 := GoPersisting(cfg, s0, s, t, p, AtPersist !in down);
    if AtPersist in down || HasResult(s.results, p.job) {
      end := AloneHandled(cfg, s0, s1, t, p, KDatabase, jitter, down);
    } else {
      end := AloneSucceeding(cfg, s0, s1, t, p, down);
    }
  }

  lemma AloneInferring(cfg: Config, s0: State, s: State, t: ThreadId, p: Payload, failure: Option<ErrorKind>,
      jitter: nat, down: set<Site>)
    returns (end: State)
    requires IsAt(cfg, s0, s, t, Inferring(p)) && jitter < SECOND
    requires failure.Some? ==> failure.value in {KStorage, KInference}
    ensures Reaches(cfg, s0, s, end, t, Concluded(Shared(s), p, failure, cfg.maxAttempts, jitter, s.clock, down),
                    WorkerIdle)
  {
    var s1 := GoInferring(cfg, s0, s, t, p, failure);
    if failure.Some? {
      end := AloneHandled(cfg, s0, s1, t, p, failure.value, jitter, down);
    } else {
      end := AlonePersisting(cfg, s0, s1, t, p, jitter, down);
    }
  }

  lemma ConcludedIsProcessed(st: Stores, p: Payload, failure: Option<ErrorKind>, max: nat, jitter: nat, now: Time,
      down: set<Site>)
    requires CanMove(st.jobs, p.job, Queued) && AtStart !in down
    ensures Concluded(st.(jobs := Update(st.jobs, p.job, Queued, Running, StartedStamp(now))), p, failure, max, jitter,
            now, down)
            == Processed(st, p, failure, max, jitter, now, down)
  {}

  /** What `Process` does to the stores, whichever statements fail, the worker's thread can do in the protocol,
      statement by statement, while nobody else moves; it is idle again then. */
  lemma ProcessIsAProtocolRun(cfg: Config, s: State, t: ThreadId, p: Payload, failure: Option<ErrorKind>, jitter: nat,
      down: set<Site>)
    returns (end: State)
    requires t in s.threads && s.threads[t] == Starting(p) && jitter < SECOND
    requires failure.Some? ==> failure.value in {KStorage, KInference}
    ensures Reaches(cfg, s, s, end, t, Processed(Shared(s), p, failure, cfg.maxAttempts, jitter, s.clock, down),
                    WorkerIdle)
  {
    LeadsNowhere(cfg, t, s);
    var s1 := GoStarting(cfg, s, s, t, p, AtStart !in down);
    if AtStart !in down && CanMove(s.jobs, p.job, Queued) {
      end := AloneInferring(cfg, s, s1, t, p, failure, jitter, down);
      ConcludedIsProcessed(Shared(s), p, failure, cfg.maxAttempts, jitter, s.clock, down);
    } else {
      end := GoAcking(cfg, s, s1, t, p.job, AtAck !in down);
    }
  }

  /** Attempts used up: the id is buried and a DEAD result recorded, yet the row stays RUNNING. */
  lemma ExhaustedJobStaysRunning(st: Stores, p: Payload, kind: ErrorKind, max: nat, jitter: nat, now: Time)
    requires CanMove(st.jobs, p.job, Queued) && !HasResult(st.results, p.job) && p.attempt + 1 >= max
    ensures var end := Processed(st, p, Some(kind), max, jitter, now, {});
            end.jobs[p.job].status == Running && ResultRow(p.job, Dead) in end.results && p.job in end.redis.dead
            && p.job !in end.redis.processing
  {}

  /** Delivering again what was already started changes nothing but the queue, whatever fails. */
  lemma RedeliveryIsDropped(st: Stores, p: Payload, failure: Option<ErrorKind>, again: Option<ErrorKind>, max: nat,
      jitter: nat, now: Time, later: Time, down: set<Site>, downAgain: set<Site>)
    requires AtStart !in down
    ensures var once := Processed(st, p, failure, max, jitter, now, down);
            Processed(once, p, again, max, jitter, later, downAgain) == Acked(once, p.job, AtAck !in downAgain)
  {
    var once := Processed(st, p, failure, max, jitter, now, down);
    assert !CanMove(once.jobs, p.job, Queued);
  }
}
