/** The three calls of the inference service, as the sequence of repository and queue calls each makes
    and as one thread of the protocol: both come to the same. */
module Services {
  import opened JobTypes
  import opened JobStore
  import opened RedisStore
  import opened Protocol
  import opened Alone
  import JobRepository
  import RedisQueue

  /** The statements of the calls that can fail: of CreateAsync and Retry, of MarkFailed, and of CreateSync. A
      statement that does changes nothing. */
  datatype Site =
    | AtRead | AtInsert | AtRelease | AtReleaseRunning | AtQueue | AtQueueRetrying | AtSend
    | AtFailRunning | AtFailCreated | AtFailQueued
    | AtPersist | AtSucceed

  /** How the environment answers: how the inference ends, the row id drawn, and which statements fail. */
  datatype Env = Env(failure: Option<ErrorKind>, id: Id, down: set<Site>)

  // ---------------------------------------------------------------- what the calls amount to

  function QueuedRow(row: JobRow, attempts: nat, now: Time): JobRow {
    row.(status := Queued, queuedAt := Some(now), attempts := attempts)
  }

  function FailedRow(row: JobRow, code: ErrorCode): JobRow {
    row.(status := JobStatus.Failed, error := Some(JobError(code, "")))
  }

  /** MarkFailed gets to a RUNNING, CREATED or QUEUED row unless one of its statements up to there fails. */
  predicate CanFail(jobs: Jobs, job: Id, down: set<Site>) {
    && AtFailRunning !in down
    && (CanMove(jobs, job, Running)
        || (AtFailCreated !in down
            && (CanMove(jobs, job, Created) || (AtFailQueued !in down && CanMove(jobs, job, Queued)))))
  }

  function WithFailed(st: Stores, job: Id, code: ErrorCode, down: set<Site>): (Stores, Outcome) {
    (if CanFail(st.jobs, job, down) then st.(jobs := st.jobs[job := FailedRow(st.jobs[job], code)]) else st, Errored)
  }

  /** A queued job's id listed, or the job FAILED if that fails. */
  function Listed(st: Stores, call: Protocol.Call, job: Id, env: Env, now: Time): (Stores, Outcome) {
    if AtSend in env.down then WithFailed(st, job, QueueError, env.down)
    else (st.(redis := RedisStore.Enqueue(st.redis, Payload(job, 1), now, 0)), CreateReturned(call, job))
  }

  /** A new row queued, or left CREATED if that fails. */
  function Inserted(st: Stores, call: Protocol.Call, row: JobRow, env: Env, now: Time): (Stores, Outcome) {
    if AtQueue in env.down then (st.(jobs := st.jobs[env.id := row]), Errored)
    else Listed(st.(jobs := st.jobs[env.id := QueuedRow(row, 1, now)]), call, env.id, env, now)
  }

  /** CreateAsync returns the job that has the key already, or queues a new one and lists its id. A failing look-up
      counts as nothing found; a key that is taken all the same is a conflict. */
  ghost predicate AsyncCreated(st: Stores, st': Stores, call: Protocol.Call, env: Env, now: Time, out: Outcome) {
    if AtRead !in env.down && exists id :: HasKey(st.jobs, id, call) then
      st' == st && out.CreateReturned? && out.call == call && HasKey(st.jobs, out.job, call)
    else if AtInsert in env.down then st' == st && out == Errored
    else if exists id :: HasKey(st.jobs, id, call) then st' == st && out == CreateConflict(call)
    else
      (st', out) == Inserted(st, call, NewRow(call.project, StoredKey(call.key), Created, 0, 5), env, now)
  }

  /** The id listed for an attempt, unless that fails. */
  function Resent(st: Stores, job: Id, attempt: nat, env: Env, now: Time): (Stores, Outcome) {
    if AtSend in env.down then (st, Errored)
    else (st.(redis := RedisStore.Enqueue(st.redis, Payload(job, attempt), now, 0)), RetryReturned(job))
  }

  /** A RETRYING job queued again and listed. If that fails it stays RETRYING. */
  function Requeued(st: Stores, job: Id, attempt: nat, env: Env, now: Time): (Stores, Outcome)
    requires job in st.jobs
  {
    if AtQueue in env.down then (st, Errored)
    else if AtQueueRetrying in env.down then (st, RetryRefused(job))
    else
      var row := QueuedRow(st.jobs[job], attempt, now).(error := None);
      Resent(st.(jobs := st.jobs[job := row]), job, attempt, env, now)
  }

  /** Retry queues a FAILED job for its next attempt and lists its id; it refuses every other job, a
      DEAD one included although its own guard lets that through. */
  function Retried(st: Stores, job: Id, env: Env, now: Time): (Stores, Outcome) {
    if AtRead in env.down then (st, Errored)
    else if !CanMove(st.jobs, job, Failed) && !CanMove(st.jobs, job, Dead) then (st, RetryRefused(job))
    else if AtRelease in env.down then (st, Errored)
    else if CanMove(st.jobs, job, Dead) then (st, RetryRefused(job))
    else
      var released := st.(jobs := st.jobs[job := st.jobs[job].(status := Retrying)]);
      Requeued(released, job, st.jobs[job].attempts + 1, env, now)
  }

  /** CreateSync never touches the queue: it leaves a SUCCESS with its result or a FAILED job, or, if the update
      that says so fails, a RUNNING one. */
  function SyncCreated(st: Stores, project: Id, env: Env, now: Time): (Stores, Outcome) {
    var row := NewRow(project, None, Running, 1, 1);
    var begun := st.(jobs := st.jobs[env.id := row]);
    if AtInsert in env.down then (st, Errored)
    else if env.failure.Some? then WithFailed(begun, env.id, ClassifyErrorCode(env.failure.value), env.down)
    else if AtPersist in env.down || HasResult(st.results, env.id) then
      WithFailed(begun, env.id, DatabaseError, env.down)
    else
      var done := if AtSucceed in env.down then row else row.(status := Success, completedAt := Some(now));
      (st.(jobs := st.jobs[env.id := done], results := st.results + [ResultRow(env.id, Success)]),
       SyncReturned(env.id))
  }

  /** The code a failed synchronous job is stored with names the failure: of the storage, the ML service or the
      database. */
  lemma SyncFailureCodes(st: Stores, project: Id, env: Env, now: Time)
    requires env.failure in {None, Some(KStorage), Some(KInference)}
    requires AtInsert !in env.down && AtFailRunning !in env.down
    ensures var (end, out) := SyncCreated(st, project, env, now);
            var code := if env.failure == Some(KStorage) then StorageError
                        else if env.failure == Some(KInference) then MLServiceError else DatabaseError;
            && env.id in end.jobs && end.redis == st.redis
            && (out.Errored? <==> env.failure.Some? || AtPersist in env.down || HasResult(st.results, env.id))
            && (out.Errored? ==> end.jobs[env.id].status == JobStatus.Failed && end.results == st.results
                                 && end.jobs[env.id].error == Some(JobError(code, "")))
            && (!out.Errored? ==> end.jobs[env.id].error == None
                                  && end.jobs[env.id].status == if AtSucceed in env.down then Running else Success)
  {}

  // ---------------------------------------------------------------- the calls, one after the other

  class InferenceService {
    const jobs: JobRepository.JobRepo
    const results: JobRepository.ResultRepo
    const queue: RedisQueue.RedisQueue

    constructor (j: JobRepository.JobRepo, r: JobRepository.ResultRepo, q: RedisQueue.RedisQueue)
      ensures jobs == j && results == r && queue == q
    {
      jobs, results, queue := j, r, q;
    }

    function View(): Stores
      reads jobs, results, queue
    {
      Stores(jobs.jobs, results.rows, queue.View())
    }

    method CreateAsync(call: Protocol.Call, env: Env, now: Time) returns (out: Outcome)
      requires env.id !in jobs.jobs
      modifies jobs, queue
      ensures AsyncCreated(old(View()), View(), call, env, now, out)
    {
      ghost var before := View();
      if call.key != "" {
        var existing := jobs.FindByIdempotencyKey(call.project, call.key, AtRead !in env.down);
        if existing.Some? {
          assert HasKey(jobs.jobs, existing.value, call);
          return CreateReturned(call, existing.value);
        }
      }
      ghost var taken := exists id :: HasKey(before.jobs, id, call);
      assert taken ==> AtRead in env.down;
      var row := NewRow(call.project, StoredKey(call.key), Created, 0, 5);
      ClashesByKey(before.jobs, call);
      assert Clashes(jobs.jobs, row) == taken;
      var created := jobs.Create(env.id, row, AtInsert !in env.down);
      if created.Err? {
        return if created.error.Conflict? then CreateConflict(call) else Errored;
      }
      assert !taken && AtInsert !in env.down;
      var queued := jobs.MarkQueued(env.id, 1, now, if AtQueue in env.down then 0 else 1);
      if queued.Err? {
        return Errored;
      }
      assert jobs.jobs == before.jobs[env.id := QueuedRow(row, 1, now)];
      var sent := queue.Enqueue(Payload(env.id, 1), now, 0, AtSend !in env.down);
      if !sent {
        var _ := jobs.MarkFailed(env.id, JobError(QueueError, ""), None, UpToFail(env.down));
        return Errored;
      }
      return CreateReturned(call, env.id);
    }

    method Retry(job: Id, env: Env, now: Time) returns (out: Outcome)
      modifies jobs, queue
      ensures (View(), out) == Retried(old(View()), job, env, now)
    {
      if AtRead in env.down {
        return Errored;
      }
      if job !in jobs.jobs || jobs.jobs[job].status !in {Failed, Dead} {
        return RetryRefused(job);
      }
      var attempt := jobs.jobs[job].attempts + 1;
      var up := if AtRelease in env.down then 0 else if AtReleaseRunning in env.down then 1 else 2;
      var released := jobs.MarkRetrying(job, up);
      if released.Err? {
        return if released.error.Conflict? then RetryRefused(job) else Errored;
      }
      up := if AtQueue in env.down then 0 else if AtQueueRetrying in env.down then 1 else 2;
      var queued := jobs.MarkQueued(job, attempt, now, up);
      if queued.Err? {
        return if queued.error.Conflict? then RetryRefused(job) else Errored;
      }
      var sent := queue.Enqueue(Payload(job, attempt), now, 0, AtSend !in env.down);
      return if sent then RetryReturned(job) else Errored;
    }

    method CreateSync(project: Id, env: Env, now: Time) returns (out: Outcome)
      requires env.id !in jobs.jobs && results.Valid()
      modifies jobs, results
      ensures results.Valid()
      ensures (View(), out) == SyncCreated(old(View()), project, env, now)
    {
      var row := NewRow(project, None, Running, 1, 1);
      var created := jobs.Create(env.id, row, AtInsert !in env.down);
      if created.Err? {
        return Errored;
      }
      if env.failure.Some? {
        var code := ClassifyErrorCode(env.failure.value);
        var _ := jobs.MarkFailed(env.id, JobError(code, ""), None, UpToFail(env.down));
        return Errored;
      }
      var persisted := results.Create(ResultRow(env.id, Success), AtPersist !in env.down);
      if persisted.Err? {
        var _ := jobs.MarkFailed(env.id, JobError(DatabaseError, ""), None, UpToFail(env.down));
        return Errored;
      }
      var _ := jobs.MarkSucceeded(env.id, now, AtSucceed !in env.down);
      assert jobs.jobs == SyncCreated(old(View()), project, env, now).0.jobs;
      return SyncReturned(env.id);
    }
  }

  /** How many statements of MarkFailed are executed before the first that fails. */
  function UpToFail(down: set<Site>): nat {
    if AtFailRunning in down then 0 else if AtFailCreated in down then 1 else if AtFailQueued in down then 2 else 3
  }

  /** The unique index lets a row in exactly when no row has its key. */
  lemma ClashesByKey(jobs: Jobs, call: Protocol.Call)
    ensures Clashes(jobs, NewRow(call.project, StoredKey(call.key), Created, 0, 5))
            <==> exists id :: HasKey(jobs, id, call)
  {
    var row := NewRow(call.project, StoredKey(call.key), Created, 0, 5);
    if Clashes(jobs, row) {
      var id :| id in jobs && jobs[id].project == row.project && jobs[id].key == row.key;
      assert HasKey(jobs, id, call);
    }
    if id :| HasKey(jobs, id, call) {
      assert jobs[id].project == row.project && jobs[id].key == row.key;
    }
  }

  // ---------------------------------------------------------------- the same as protocol threads

  /** Steps of the thread alone end the call with this outcome and these stores. */
  ghost predicate EndsAs(cfg: Config, s0: State, s: State, end: State, t: ThreadId, to: (Stores, Outcome)) {
    Reaches(cfg, s0, s, end, t, to.0, Finished(to.1))
  }

  // one statement each

  lemma GoMarkingFailed(cfg: Config, s0: State, s: State, t: ThreadId, job: Id, from: JobStatus, next: JobStatus,
      code: ErrorCode, sync: bool, works: bool)
    returns (s': State)
    requires IsAt(cfg, s0, s, t, MarkingFailed(job, from, code, sync)) && job in s.jobs
    requires (from, next) in {(Running, Created), (Created, Queued), (Queued, Queued)}
    ensures var hit := works && s.jobs[job].status == from;
            Reaches(cfg, s0, s, s', t,
                    if hit then Shared(s).(jobs := s.jobs[job := FailedRow(s.jobs[job], code)]) else Shared(s),
                    if hit || !works || from == Queued then Finished(Errored) else MarkingFailed(job, next, code, sync))
  {
    var hit := Moved(job, from, JobStatus.Failed, ErrorStamp(JobError(code, ""), None));
    if works && s.jobs[job].status == from {
      s' := Statement(cfg, s0, s, t, Run, Plan(hit, Finished(Errored)));
    } else {
      s' := Statement(cfg, s0, s, t, Answer(works),
          Plan(Silent, if !works || from == Queued then Finished(Errored) else MarkingFailed(job, next, code, sync)));
    }
  }

  lemma GoLookingUp(cfg: Config, s0: State, s: State, t: ThreadId, call: Protocol.Call, works: bool)
    returns (s': State)
    requires IsAt(cfg, s0, s, t, LookingUp(call))
    ensures var found := FindByKey(s.jobs, call);
            Reaches(cfg, s0, s, s', t, Shared(s),
                    if works && found.Some? then Finished(CreateReturned(call, found.value)) else Inserting(call))
  {
    var found := FindByKey(s.jobs, call);
    var next := if works && found.Some? then Finished(CreateReturned(call, found.value)) else Inserting(call);
    s' := Statement(cfg, s0, s, t, Answer(works), Plan(Silent, next));
  }

  lemma GoInserting(cfg: Config, s0: State, s: State, t: ThreadId, call: Protocol.Call, id: Id, row: JobRow)
    returns (s': State)
    requires IsAt(cfg, s0, s, t, Inserting(call)) && id !in s.jobs
    requires row == NewRow(call.project, StoredKey(call.key), Created, 0, 5)
    ensures if Clashes(s.jobs, row) then Reaches(cfg, s0, s, s', t, Shared(s), Finished(CreateConflict(call)))
            else Reaches(cfg, s0, s, s', t, Shared(s).(jobs := s.jobs[id := row]), QueueingCreated(call, id))
  {
    var insert := if Clashes(s.jobs, row) then Plan(Silent, Finished(CreateConflict(call)))
                  else Plan(JobInserted(id, row), QueueingCreated(call, id));
    s' := Statement(cfg, s0, s, t, Draw(id), insert);
  }

  /** A statement whose failure ends the call with an error. */
  lemma GoFailing(cfg: Config, s0: State, s: State, t: ThreadId, pc: Pc) returns (s': State)
    requires IsAt(cfg, s0, s, t, pc)
    requires pc.Inserting? || pc.QueueingCreated? || pc.Asking? || pc.ReleasingFailed? || pc.RequeueingCreated?
             || pc.ResendingRetry? || pc.SyncInserting?
    ensures Reaches(cfg, s0, s, s', t, Shared(s), Finished(Errored))
  {
    s' := Statement(cfg, s0, s, t, Fault, Plan(Silent, Finished(Errored)));
  }

  lemma GoQueueingCreated(cfg: Config, s0: State, s: State, t: ThreadId, call: Protocol.Call, job: Id)
    returns (s': State)
    requires IsAt(cfg, s0, s, t, QueueingCreated(call, job)) && CanMove(s.jobs, job, Created)
    ensures Reaches(cfg, s0, s, s', t, Shared(s).(jobs := s.jobs[job := QueuedRow(s.jobs[job], 1, s.clock)]),
                    Sending(call, job))
  {
    var queue := Moved(job, Created, Queued, QueuedStamp(s.clock, 1, false));
    s' := Statement(cfg, s0, s, t, Run, Plan(queue, Sending(call, job)));
  }

  lemma GoSending(cfg: Config, s0: State, s: State, t: ThreadId, call: Protocol.Call, job: Id, works: bool)
    returns (s': State)
    requires IsAt(cfg, s0, s, t, Sending(call, job))
    ensures if !works then Reaches(cfg, s0, s, s', t, Shared(s), MarkingFailed(job, Running, QueueError, false))
            else Reaches(cfg, s0, s, s', t,
                         Shared(s).(redis := RedisStore.Enqueue(s.redis, Payload(job, 1), s.clock, 0)),
                         Finished(CreateReturned(call, job)))
  {
    if works {
      var sent := Sent(Payload(job, 1), 0, s.clock, ByCreate);
      s' := Statement(cfg, s0, s, t, Run, Plan(sent, Finished(CreateReturned(call, job))));
    } else {
      s' := Statement(cfg, s0, s, t, Fault, Plan(Silent, MarkingFailed(job, Running, QueueError, false)));
    }
  }

  lemma GoAsking(cfg: Config, s0: State, s: State, t: ThreadId, job: Id) returns (s': State)
    requires IsAt(cfg, s0, s, t, Asking(job))
    ensures Reaches(cfg, s0, s, s', t, Shared(s),
                    if job in s.jobs && s.jobs[job].status in {JobStatus.Failed, Dead}
                    then ReleasingFailed(job, s.jobs[job].attempts) else Finished(RetryRefused(job)))
  {
    var next := if job in s.jobs && s.jobs[job].status in {JobStatus.Failed, Dead}
                then ReleasingFailed(job, s.jobs[job].attempts) else Finished(RetryRefused(job));
    s' := Statement(cfg, s0, s, t, Run, Plan(Silent, next));
  }

  lemma GoReleasingFailed(cfg: Config, s0: State, s: State, t: ThreadId, job: Id, n: nat) returns (s': State)
    requires IsAt(cfg, s0, s, t, ReleasingFailed(job, n))
    ensures Reaches(cfg, s0, s, s', t, Shared(s).(jobs := Update(s.jobs, job, JobStatus.Failed, Retrying, Plain)),
                    if CanMove(s.jobs, job, JobStatus.Failed) then RequeueingCreated(job, n)
                    else ReleasingRunning(job, n))
  {
    s' := Statement(cfg, s0, s, t, Run, TryMove(s, job, JobStatus.Failed, Retrying, Plain,
        RequeueingCreated(job, n), ReleasingRunning(job, n)));
  }

  lemma GoReleasingRunning(cfg: Config, s0: State, s: State, t: ThreadId, job: Id, n: nat, works: bool)
    returns (s': State)
    requires IsAt(cfg, s0, s, t, ReleasingRunning(job, n))
    ensures Reaches(cfg, s0, s, s', t,
                    Shared(s).(jobs := if works then Update(s.jobs, job, Running, Retrying, Plain) else s.jobs),
                    if works && CanMove(s.jobs, job, Running) then RequeueingCreated(job, n)
                    else Finished(RetryRefused(job)))
  {
    var release := TryMove(s, job, Running, Retrying, Plain, RequeueingCreated(job, n), Finished(RetryRefused(job)));
    s' := Statement(cfg, s0, s, t, Answer(works), if works then release else Plan(Silent, Finished(RetryRefused(job))));
  }

  lemma GoRequeueing(cfg: Config, s0: State, s: State, t: ThreadId, job: Id, n: nat) returns (s': State)
    requires IsAt(cfg, s0, s, t, RequeueingCreated(job, n)) && !CanMove(s.jobs, job, Created)
    ensures Reaches(cfg, s0, s, s', t, Shared(s), RequeueingRetrying(job, n))
  {
    s' := Statement(cfg, s0, s, t, Run, Plan(Silent, RequeueingRetrying(job, n)));
  }

  lemma GoRequeueingRetrying(cfg: Config, s0: State, s: State, t: ThreadId, job: Id, n: nat, works: bool)
    returns (s': State)
    requires IsAt(cfg, s0, s, t, RequeueingRetrying(job, n)) && CanMove(s.jobs, job, Retrying)
    ensures if !works then Reaches(cfg, s0, s, s', t, Shared(s), Finished(RetryRefused(job)))
            else Reaches(cfg, s0, s, s', t,
                         Shared(s).(jobs := s.jobs[job := QueuedRow(s.jobs[job], n + 1, s.clock).(error := None)]),
                         ResendingRetry(job, n))
  {
    if works {
      var queue := Moved(job, Retrying, Queued, QueuedStamp(s.clock, n + 1, true));
      s' := Statement(cfg, s0, s, t, Run, Plan(queue, ResendingRetry(job, n)));
    } else {
      s' := Statement(cfg, s0, s, t, Fault, Plan(Silent, Finished(RetryRefused(job))));
    }
  }

  lemma GoResending(cfg: Config, s0: State, s: State, t: ThreadId, job: Id, n: nat, env: Env) returns (s': State)
    requires IsAt(cfg, s0, s, t, ResendingRetry(job, n))
    ensures EndsAs(cfg, s0, s, s', t, Resent(Shared(s), job, n + 1, env, s.clock))
  {
    if AtSend in env.down {
      s' := GoFailing(cfg, s0, s, t, ResendingRetry(job, n));
    } else {
      var sent := Sent(Payload(job, n + 1), 0, s.clock, ByRetry);
      s' := Statement(cfg, s0, s, t, Run, Plan(sent, Finished(RetryReturned(job))));
    }
  }

  /** Its Enqueue may happen although the call is told otherwise. */
  lemma GoResendingUnheard(cfg: Config, s0: State, s: State, t: ThreadId, job: Id, n: nat) returns (s': State)
    requires IsAt(cfg, s0, s, t, ResendingRetry(job, n))
    ensures Reaches(cfg, s0, s, s', t,
                    Shared(s).(redis := RedisStore.Enqueue(s.redis, Payload(job, n + 1), s.clock, 0)),
                    Finished(Errored))
  {
    var sent := Sent(Payload(job, n + 1), 0, s.clock, ByRetry);
    s' := Statement(cfg, s0, s, t, FaultAfter, Plan(sent, Finished(Errored)));
  }

  lemma GoSyncInserting(cfg: Config, s0: State, s: State, t: ThreadId, project: Id, id: Id) returns (s': State)
    requires IsAt(cfg, s0, s, t, SyncInserting(project)) && id !in s.jobs
    ensures Reaches(cfg, s0, s, s', t, Shared(s).(jobs := s.jobs[id := NewRow(project, None, Running, 1, 1)]),
                    SyncInferring(id))
  {
    var row := NewRow(project, None, Running, 1, 1);
    s' := Statement(cfg, s0, s, t, Draw(id), Plan(JobInserted(id, row), SyncInferring(id)));
  }

  lemma GoSyncInferring(cfg: Config, s0: State, s: State, t: ThreadId, job: Id, failure: Option<ErrorKind>)
    returns (s': State)
    requires IsAt(cfg, s0, s, t, SyncInferring(job))
    requires failure.Some? ==> failure.value in {KStorage, KInference}
    ensures Reaches(cfg, s0, s, s', t, Shared(s),
                    if failure.Some? then MarkingFailed(job, Running, ClassifyErrorCode(failure.value), true)
                    else SyncPersisting(job))
  {
    var next := if failure.Some? then MarkingFailed(job, Running, ClassifyErrorCode(failure.value), true)
                else SyncPersisting(job);
    s' := Statement(cfg, s0, s, t, Infer(failure), Plan(Silent, next));
  }

  lemma GoSyncPersisting(cfg: Config, s0: State, s: State, t: ThreadId, job: Id, works: bool) returns (s': State)
    requires IsAt(cfg, s0, s, t, SyncPersisting(job))
    ensures if !works || HasResult(s.results, job)
            then Reaches(cfg, s0, s, s', t, Shared(s), MarkingFailed(job, Running, DatabaseError, true))
            else Reaches(cfg, s0, s, s', t, Shared(s).(results := s.results + [ResultRow(job, Success)]),
                         SyncSucceeding(job))
  {
    if !works || HasResult(s.results, job) {
      s' := Statement(cfg, s0, s, t, Answer(works), Plan(Silent, MarkingFailed(job, Running, DatabaseError, true)));
    } else {
      s' := Statement(cfg, s0, s, t, Run, Plan(ResultInserted(ResultRow(job, Success)), SyncSucceeding(job)));
    }
  }

  lemma GoSyncSucceeding(cfg: Config, s0: State, s: State, t: ThreadId, job: Id, works: bool) returns (s': State)
    requires IsAt(cfg, s0, s, t, SyncSucceeding(job))
    ensures Reaches(cfg, s0, s, s', t,
                    Shared(s).(jobs := if works then Update(s.jobs, job, Running, Success, DoneStamp(s.clock))
                                       else s.jobs),
                    Finished(SyncReturned(job)))
  {
    var done := TryMove(s, job, Running, Success, DoneStamp(s.clock), Finished(SyncReturned(job)),
        Finished(SyncReturned(job)));
    s' := Statement(cfg, s0, s, t, Answer(works), if works then done else Plan(Silent, Finished(SyncReturned(job))));
  }

  // one path each

  /** MarkFailed tries RUNNING, CREATED and QUEUED in turn. */
  lemma AloneMarkingFailed(cfg: Config, s0: State, s: State, t: ThreadId, job: Id, code: ErrorCode, sync: bool,
      down: set<Site>)
    returns (end: State)
    requires IsAt(cfg, s0, s, t, MarkingFailed(job, Running, code, sync)) && job in s.jobs
    ensures EndsAs(cfg, s0, s, end, t, WithFailed(Shared(s), job, code, down))
  {
    end := GoMarkingFailed(cfg, s0, s, t, job, Running, Created, code, sync, AtFailRunning !in down);
    if s.jobs[job].status != Running && AtFailRunning !in down {
      end := GoMarkingFailed(cfg, s0, end, t, job, Created, Queued, code, sync, AtFailCreated !in down);
      if s.jobs[job].status != Created && AtFailCreated !in down {
        end := GoMarkingFailed(cfg, s0, end, t, job, Queued, Queued, code, sync, AtFailQueued !in down);
      }
    }
  }

  lemma AloneSending(cfg: Config, s0: State, s: State, t: ThreadId, call: Protocol.Call, job: Id, env: Env)
    returns (end: State)
    requires IsAt(cfg, s0, s, t, Sending(call, job)) && job in s.jobs
    ensures EndsAs(cfg, s0, s, end, t, Listed(Shared(s), call, job, env, s.clock))
  {
    end := GoSending(cfg, s0, s, t, call, job, AtSend !in env.down);
    if AtSend in env.down {
      end := AloneMarkingFailed(cfg, s0, end, t, job, QueueError, false, env.down);
    }
  }

  ghost predicate EndsAsCreated(cfg: Config, s0: State, s: State, end: State, t: ThreadId, call: Protocol.Call,
      env: Env) {
    && Leads(cfg, t, s0, end) && end.clock == s.clock
    && t in end.threads && end.threads[t].Finished? && end.threads == s.threads[t := end.threads[t]]
    && AsyncCreated(Shared(s), Shared(end), call, env, s.clock, end.threads[t].outcome)
  }

  lemma AloneInserted(cfg: Config, s0: State, s: State, t: ThreadId, call: Protocol.Call, env: Env, row: JobRow)
      returns (end: State)
    requires IsAt(cfg, s0, s, t, Inserting(call)) && env.id !in s.jobs && AtInsert !in env.down
    requires row == NewRow(call.project, StoredKey(call.key), Created, 0, 5) && !Clashes(s.jobs, row)
    ensures EndsAs(cfg, s0, s, end, t, Inserted(Shared(s), call, row, env, s.clock))
  {
    var s1 := GoInserting(cfg, s0, s, t, call, env.id, row);
    if AtQueue in env.down {
      end := GoFailing(cfg, s0, s1, t, QueueingCreated(call, env.id));
    } else {
      var s2 := GoQueueingCreated(cfg, s0, s1, t, call, env.id);
      assert s2.jobs == s.jobs[env.id := QueuedRow(row, 1, s.clock)];
      end := AloneSending(cfg, s0, s2, t, call, env.id, env);
    }
  }

  lemma AloneInserting(cfg: Config, s0: State, s: State, t: ThreadId, call: Protocol.Call, env: Env)
      returns (end: State)
    requires IsAt(cfg, s0, s, t, Inserting(call)) && env.id !in s.jobs
    requires AtRead in env.down || forall id :: !HasKey(s.jobs, id, call)
    ensures EndsAsCreated(cfg, s0, s, end, t, call, env)
  {
    var row := NewRow(call.project, StoredKey(call.key), Created, 0, 5);
    ClashesByKey(s.jobs, call);
    if AtInsert in env.down {
      end := GoFailing(cfg, s0, s, t, Inserting(call));
    } else if Clashes(s.jobs, row) {
      end := GoInserting(cfg, s0, s, t, call, env.id, row);
    } else {
      end := AloneInserted(cfg, s0, s, t, call, env, row);
    }
  }

  /** What `CreateAsync` does, whichever statements fail, the call's thread can do in the protocol, statement by
      statement, while nobody else moves. */
  lemma CreateAsyncIsAProtocolRun(cfg: Config, s: State, t: ThreadId, call: Protocol.Call, env: Env)
      returns (end: State)
    requires t in s.threads && env.id !in s.jobs
    requires s.threads[t] == if call.key == "" then Inserting(call) else LookingUp(call)
    ensures EndsAsCreated(cfg, s, s, end, t, call, env)
  {
    LeadsNowhere(cfg, t, s);
    if call.key == "" {
      end := AloneInserting(cfg, s, s, t, call, env);
    } else {
      end := GoLookingUp(cfg, s, s, t, call, AtRead !in env.down);
      var found := FindByKey(s.jobs, call);
      if found.Some? && AtRead !in env.down {
        assert HasKey(s.jobs, found.value, call);
      } else {
        end := AloneInserting(cfg, s, end, t, call, env);
      }
    }
  }

  lemma AloneRequeueing(cfg: Config, s0: State, s: State, t: ThreadId, job: Id, n: nat, env: Env) returns (end: State)
    requires IsAt(cfg, s0, s, t, RequeueingCreated(job, n)) && CanMove(s.jobs, job, Retrying)
    ensures EndsAs(cfg, s0, s, end, t, Requeued(Shared(s), job, n + 1, env, s.clock))
  {
    if AtQueue in env.down {
      end := GoFailing(cfg, s0, s, t, RequeueingCreated(job, n));
    } else {
      end := GoRequeueing(cfg, s0, s, t, job, n);
      end := GoRequeueingRetrying(cfg, s0, end, t, job, n, AtQueueRetrying !in env.down);
      if AtQueueRetrying !in env.down {
        end := GoResending(cfg, s0, end, t, job, n, env);
      }
    }
  }

  lemma AloneReleasing(cfg: Config, s0: State, s: State, t: ThreadId, job: Id, n: nat, env: Env) returns (end: State)
    requires IsAt(cfg, s0, s, t, ReleasingFailed(job, n)) && CanMove(s.jobs, job, JobStatus.Failed)
    ensures var released := Shared(s).(jobs := s.jobs[job := s.jobs[job].(status := Retrying)]);
            EndsAs(cfg, s0, s, end, t, Requeued(released, job, n + 1, env, s.clock))
  {
    var s1 := GoReleasingFailed(cfg, s0, s, t, job, n);
    end := AloneRequeueing(cfg, s0, s1, t, job, n, env);
  }

  lemma AloneRefusing(cfg: Config, s0: State, s: State, t: ThreadId, job: Id, n: nat, works: bool) returns (end: State)
    requires IsAt(cfg, s0, s, t, ReleasingFailed(job, n)) && CanMove(s.jobs, job, Dead)
    ensures EndsAs(cfg, s0, s, end, t, (Shared(s), RetryRefused(job)))
  {
    var s1 := GoReleasingFailed(cfg, s0, s, t, job, n);
    end := GoReleasingRunning(cfg, s0, s1, t, job, n, works);
  }

  /** The same for `Retry`. */
  lemma RetryIsAProtocolRun(cfg: Config, s: State, t: ThreadId, job: Id, env: Env) returns (end: State)
    requires t in s.threads && s.threads[t] == Asking(job)
    ensures EndsAs(cfg, s, s, end, t, Retried(Shared(s), job, env, s.clock))
  {
    LeadsNowhere(cfg, t, s);
    if AtRead in env.down {
      end := GoFailing(cfg, s, s, t, Asking(job));
    } else {
      end := GoAsking(cfg, s, s, t, job);
      if job in s.jobs && s.jobs[job].status in {JobStatus.Failed, Dead} {
        var n := s.jobs[job].attempts;
        if AtRelease in env.down {
          end := GoFailing(cfg, s, end, t, ReleasingFailed(job, n));
        } else if CanMove(s.jobs, job, Dead) {
          end := AloneRefusing(cfg, s, end, t, job, n, AtReleaseRunning !in env.down);
        } else {
          end := AloneReleasing(cfg, s, end, t, job, n, env);
        }
      }
    }
  }

  /** What CreateSync makes of its RUNNING job once the inference has ended. */
  function SyncConcluded(st: Stores, job: Id, env: Env, now: Time): (Stores, Outcome) {
    if env.failure.Some? then WithFailed(st, job, ClassifyErrorCode(env.failure.value), env.down)
    else if AtPersist in env.down || HasResult(st.results, job) then WithFailed(st, job, DatabaseError, env.down)
    else
      (st.(jobs := if AtSucceed in env.down then st.jobs else Update(st.jobs, job, Running, Success, DoneStamp(now)),
          results := st.results + [ResultRow(job, Success)]),
       SyncReturned(job))
  }

  lemma AloneSyncPersisting(cfg: Config, s0: State, s: State, t: ThreadId, job: Id, env: Env) returns (end: State)
    requires IsAt(cfg, s0, s, t, SyncPersisting(job)) && job in s.jobs && env.failure.None?
    ensures EndsAs(cfg, s0, s, end, t, SyncConcluded(Shared(s), job, env, s.clock))
  {
    end := GoSyncPersisting(cfg, s0, s, t, job, AtPersist !in env.down);
    if AtPersist in env.down || HasResult(s.results, job) {
      end := AloneMarkingFailed(cfg, s0, end, t, job, DatabaseError, true, env.down);
    } else {
      end := GoSyncSucceeding(cfg, s0, end, t, job, AtSucceed !in env.down);
    }
  }

  lemma AloneSyncInferring(cfg: Config, s0: State, s: State, t: ThreadId, job: Id, env: Env) returns (end: State)
    requires IsAt(cfg, s0, s, t, SyncInferring(job)) && job in s.jobs
    requires env.failure.Some? ==> env.failure.value in {KStorage, KInference}
    ensures EndsAs(cfg, s0, s, end, t, SyncConcluded(Shared(s), job, env, s.clock))
  {
    end := GoSyncInferring(cfg, s0, s, t, job, env.failure);
    if env.failure.Some? {
      end := AloneMarkingFailed(cfg, s0, end, t, job, ClassifyErrorCode(env.failure.value), true, env.down);
    } else {
      end := AloneSyncPersisting(cfg, s0, end, t, job, env);
    }
  }

  lemma ConcludedIsCreated(st: Stores, project: Id, env: Env, now: Time)
    requires AtInsert !in env.down
    ensures SyncConcluded(st.(jobs := st.jobs[env.id := NewRow(project, None, Running, 1, 1)]), env.id, env, now)
            == SyncCreated(st, project, env, now)
  {
    var row := NewRow(project, None, Running, 1, 1);
    assert forall r {:trigger st.jobs[env.id := r]} :: st.jobs[env.id := row][env.id := r] == st.jobs[env.id := r];
  }

  /** The same for `CreateSync`. */
  lemma CreateSyncIsAProtocolRun(cfg: Config, s: State, t: ThreadId, project: Id, env: Env) returns (end: State)
    requires t in s.threads && s.threads[t] == SyncInserting(project) && env.id !in s.jobs
    requires env.failure.Some? ==> env.failure.value in {KStorage, KInference}
    ensures EndsAs(cfg, s, s, end, t, SyncCreated(Shared(s), project, env, s.clock))
  {
    LeadsNowhere(cfg, t, s);
    if AtInsert in env.down {
      end := GoFailing(cfg, s, s, t, SyncInserting(project));
    } else {
      var s1 := GoSyncInserting(cfg, s, s, t, project, env.id);
      end := AloneSyncInferring(cfg, s, s1, t, env.id, env);
      ConcludedIsCreated(Shared(s), project, env, s.clock);
    }
  }
}
