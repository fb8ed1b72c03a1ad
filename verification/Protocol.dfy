/** The asynchronous job protocol as one transition system: any number of workers, sweepers and
    API calls over one job table, one result table and one queue. A thread does at most one SQL
    statement, script or transaction per step, and can crash between any two of them. */
module Protocol {
  import opened JobTypes
  import opened JobStore
  import opened RedisStore
  import opened Backoff

  // ---------------------------------------------------------------- configuration

  /** `serialRetry`: a Retry of a job is only called while no other Retry of it is in flight.
      `honestCreate`: an Enqueue of CreateAsync that reports an error enqueued nothing.
      `windowFaults`: an id may get lost between BRPOP and ZADD, because the client dies, does not
      hear the reply, or fails to put the id back. */
  datatype Config = Config(maxAttempts: nat, serialRetry: bool, honestCreate: bool, windowFaults: bool)

  /** The lease a worker asks for: two minutes. */
  const VISIBILITY: Time := 120 * SECOND

  // ---------------------------------------------------------------- threads

  /** One CreateAsync call: its project and its idempotency key, possibly empty. */
  datatype Call = Call(project: Id, key: string)

  datatype Outcome =
    | CreateReturned(call: Call, job: Id)
    | CreateConflict(call: Call)
    | RetryReturned(job: Id)
    | RetryRefused(job: Id)
    | SyncReturned(job: Id)
    | Errored

  type ThreadId = nat

  /** Where a thread is: the statement it is about to issue. */
  datatype Pc =
    // a worker: Dequeue
    | WorkerIdle
    | Arming
    | Claiming(deadline: int)
    | Blocking(deadline: int)
    | Holding(id: Id, deadline: int)
    | PuttingBack(id: Id)
    | Fetching(id: Id)
    // a worker: process and handleFailure
    | Starting(p: Payload)
    | Inferring(p: Payload)
    | Persisting(p: Payload)
    | Succeeding(p: Payload)
    | Acking(id: Id)
    | RetryingFailed(p: Payload)
    | RetryingRunning(p: Payload)
    | AckingRetry(p: Payload)
    | Resending(p: Payload)
    | MarkingDead(p: Payload, code: ErrorCode)
    | Burying(p: Payload)
    | RecordingDead(p: Payload)
    // RequeueExpired, run by a worker's Dequeue or by the housekeeper
    | Housekeeping
    | SweepFetching(now: int, byWorker: bool)
    | Sweeping(now: int, ids: seq<Id>, full: bool, byWorker: bool)
    // CreateAsync
    | LookingUp(call: Call)
    | Inserting(call: Call)
    | QueueingCreated(call: Call, job: Id)
    | QueueingRetrying(call: Call, job: Id)
    | Sending(call: Call, job: Id)
    // MarkFailed, called by CreateAsync or CreateSync
    | MarkingFailed(job: Id, from: JobStatus, code: ErrorCode, sync: bool)
    // Retry
    | Asking(job: Id)
    | ReleasingFailed(job: Id, attempts: nat)
    | ReleasingRunning(job: Id, attempts: nat)
    | RequeueingCreated(job: Id, attempts: nat)
    | RequeueingRetrying(job: Id, attempts: nat)
    | ResendingRetry(job: Id, attempts: nat)
    // CreateSync
    | SyncInserting(project: Id)
    | SyncInferring(job: Id)
    | SyncPersisting(job: Id)
    | SyncSucceeding(job: Id)
    | Finished(outcome: Outcome)

  /** How the environment resolves a thread's pending statement. */
  datatype Choice =
    | Run                                  // it executes
    | Fault                                // it does not happen and the client sees an error
    | FaultAfter                           // it happens and the client sees an error
    | Draw(id: Id)                         // an INSERT executes and draws this row id
    | Infer(failure: Option<ErrorKind>)    // the inference ends
    | Jitter(nanos: nat)                   // an Enqueue with backoff executes

  // ---------------------------------------------------------------- effects

  datatype Origin = ByCreate | ByRetry | ByWorker

  datatype Effect =
    | Silent
    | JobInserted(id: Id, row: JobRow)
    | Moved(id: Id, from: JobStatus, to: JobStatus, stamp: Stamp)
    | ResultInserted(result: ResultRow)
    | Inferred(id: Id)
    | Sent(p: Payload, delay: int, at: Time, origin: Origin)
    | Claimed(id: Id, deadline: int)
    | Popped(id: Id)
    | Dropped(id: Id)   // popped, but the reply got lost
    | Leased(id: Id, deadline: int)
    | Returned(id: Id)
    | Swept(id: Id, now: int, at: Time)
    | Acked(id: Id)
    | Buried(id: Id)
    | Lost(id: Id)

  /** `log` is a history variable: it records every effect and influences none. */
  datatype State = State(
    clock: Time,
    jobs: Jobs,
    results: seq<ResultRow>,
    redis: Redis,
    threads: map<ThreadId, Pc>,
    log: seq<Effect>
  )

  predicate Init(s: State) {
    s.jobs == map[] && s.results == [] && s.redis == EMPTY && s.threads == map[] && s.log == []
  }

  predicate Applicable(s: State, e: Effect) {
    match e
    case JobInserted(id, row) => id !in s.jobs && !Clashes(s.jobs, row)
    case Moved(id, from, _, _) => CanMove(s.jobs, id, from)
    case ResultInserted(result) => !HasResult(s.results, result.job)
    case Claimed(id, _) => s.redis.queued != [] && id == NextPop(s.redis)
    case Popped(id) => s.redis.queued != [] && id == NextPop(s.redis)
    case Dropped(id) => s.redis.queued != [] && id == NextPop(s.redis)
    case Swept(id, now, at) => Due(s.redis, id, now) && at == s.clock
    case Sent(_, _, at, _) => at == s.clock
    case _ => true
  }

  function NewJobs(s: State, e: Effect): Jobs
    requires Applicable(s, e)
  {
    match e
    case JobInserted(id, row) => s.jobs[id := row]
    case Moved(id, from, to, stamp) => Move(s.jobs, id, from, to, stamp)
    case _ => s.jobs
  }

  function NewRedis(s: State, e: Effect): Redis
    requires Applicable(s, e)
  {
    match e
    case Sent(p, delay, at, _) => Enqueue(s.redis, p, at, delay)
    case Claimed(_, deadline) => Claim(s.redis, deadline)
    case Popped(_) => RPop(s.redis)
    case Dropped(_) => RPop(s.redis)
    case Leased(id, deadline) => ZAdd(s.redis, id, deadline)
    case Returned(id) => LPush(s.redis, id)
    case Swept(id, _, _) => PushBack(s.redis, id)
    case Acked(id) => Ack(s.redis, id)
    case Buried(id) => Fail(s.redis, id, true, s.clock)
    case _ => s.redis
  }

  function Apply(s: State, e: Effect): State
    requires Applicable(s, e)
  {
    s.(
      jobs := NewJobs(s, e),
      results := if e.ResultInserted? then s.results + [e.result] else s.results,
      redis := NewRedis(s, e),
      log := s.log + [e]
    )
  }

  // ---------------------------------------------------------------- what each thread does

  datatype Plan = Plan(effect: Effect, next: Pc)

  /** An update that moves the row if it is in `from`, and the two ways on. */
  function TryMove(s: State, id: Id, from: JobStatus, to: JobStatus, stamp: Stamp, hit: Pc, miss: Pc): Plan {
    if CanMove(s.jobs, id, from) then Plan(Moved(id, from, to, stamp), hit) else Plan(Silent, miss)
  }

  /** Where handleFailure goes. */
  function Failing(cfg: Config, p: Payload, kind: ErrorKind): Pc {
    var code := ClassifyErrorCode(kind);
    if WillRetry(p.attempt, cfg.maxAttempts, code) then RetryingFailed(p) else MarkingDead(p, code)
  }

  function AfterSweep(byWorker: bool): Pc {
    if byWorker then Arming else Housekeeping
  }

  /** Dequeue and RequeueExpired. The claim script asks for the payload under a key no writer
      uses, so the payload always comes from a GET of its own. */
  function QueuePlan(cfg: Config, s: State, pc: Pc, c: Choice): (plan: Option<Plan>)
    ensures plan.Some? ==> Applicable(s, plan.value.effect)
  {
    match (pc, c)
    case (WorkerIdle, Run) => Some(Plan(Silent, SweepFetching(Unix(s.clock), true)))
    case (Housekeeping, Run) => Some(Plan(Silent, SweepFetching(Unix(s.clock), false)))
    case (SweepFetching(now, byWorker), Run) =>
      var ids := ZRangeByScore(s.redis.processing, Unix(s.clock), BATCH);
      Some(Plan(Silent, if ids == [] then AfterSweep(byWorker) else Sweeping(now, ids, |ids| >= BATCH, byWorker)))
    case (SweepFetching(_, byWorker), Fault) =>
      Some(Plan(Silent, if byWorker then WorkerIdle else Housekeeping))
    case (Sweeping(now, ids, full, byWorker), _) =>
      if ids == [] then
        if c.Run? then Some(Plan(Silent, if full then SweepFetching(now, byWorker) else AfterSweep(byWorker))) else None
      else if c.Run? && Due(s.redis, ids[0], now) then
        Some(Plan(Swept(ids[0], now, s.clock), pc.(ids := ids[1..])))
      else if c.Run? || c.Fault? then
        Some(Plan(Silent, pc.(ids := ids[1..])))
      else None
    case (Arming, Run) => Some(Plan(Silent, Claiming(Unix(s.clock + VISIBILITY))))
    case (Claiming(deadline), Run) =>
      if s.redis.queued == [] then Some(Plan(Silent, Blocking(deadline)))
      else Some(Plan(Claimed(NextPop(s.redis), deadline), Fetching(NextPop(s.redis))))
    case (Claiming(_), Fault) => Some(Plan(Silent, WorkerIdle))
    case (Blocking(deadline), Run) =>
      if s.redis.queued == [] then Some(Plan(Silent, Claiming(deadline)))
      else Some(Plan(Popped(NextPop(s.redis)), Holding(NextPop(s.redis), deadline)))
    case (Blocking(_), Fault) => Some(Plan(Silent, WorkerIdle))
    case (Blocking(_), FaultAfter) =>
      if cfg.windowFaults && s.redis.queued != [] then Some(Plan(Dropped(NextPop(s.redis)), WorkerIdle)) else None
    case (Holding(id, deadline), Run) => Some(Plan(Leased(id, deadline), Fetching(id)))
    case (Holding(id, _), Fault) => Some(Plan(Silent, PuttingBack(id)))
    case (PuttingBack(id), Run) => Some(Plan(Returned(id), WorkerIdle))
    case (PuttingBack(id), Fault) => if cfg.windowFaults then Some(Plan(Lost(id), WorkerIdle)) else None
    case (Fetching(id), Run) =>
      Some(Plan(Silent, if id in s.redis.payloads then Starting(s.redis.payloads[id]) else WorkerIdle))
    case (Fetching(_), Fault) => Some(Plan(Silent, WorkerIdle))
    case _ => None
  }

  /** process. */
  function ProcessPlan(cfg: Config, s: State, pc: Pc, c: Choice): (plan: Option<Plan>)
    ensures plan.Some? ==> Applicable(s, plan.value.effect)
  {
    match (pc, c)
    case (Starting(p), Run) =>
      Some(TryMove(s, p.job, Queued, Running, StartedStamp(s.clock), Inferring(p), Acking(p.job)))
    case (Starting(p), Fault) => Some(Plan(Silent, Acking(p.job)))
    case (Inferring(p), Infer(None)) => Some(Plan(Inferred(p.job), Persisting(p)))
    case (Inferring(p), Infer(Some(kind))) =>
      if kind == KStorage then Some(Plan(Silent, Failing(cfg, p, kind)))
      else if kind == KInference then Some(Plan(Inferred(p.job), Failing(cfg, p, kind)))
      else None
    case (Persisting(p), Run) =>
      if HasResult(s.results, p.job) then Some(Plan(Silent, Failing(cfg, p, KDatabase)))
      else Some(Plan(ResultInserted(ResultRow(p.job, Success)), Succeeding(p)))
    case (Persisting(p), Fault) => Some(Plan(Silent, Failing(cfg, p, KDatabase)))
    case (Succeeding(p), Run) =>
      Some(TryMove(s, p.job, Running, Success, DoneStamp(s.clock), Acking(p.job), Acking(p.job)))
    case (Succeeding(p), Fault) => Some(Plan(Silent, Acking(p.job)))
    case (Acking(id), Run) => Some(Plan(Acked(id), WorkerIdle))
    case (Acking(_), Fault) => Some(Plan(Silent, WorkerIdle))
    case _ => None
  }

  /** handleFailure, once it has decided. */
  function FailurePlan(s: State, pc: Pc, c: Choice): (plan: Option<Plan>)
    ensures plan.Some? ==> Applicable(s, plan.value.effect)
  {
    match (pc, c)
    case (RetryingFailed(p), Run) =>
      Some(TryMove(s, p.job, Failed, Retrying, Plain, AckingRetry(p), RetryingRunning(p)))
    case (RetryingFailed(p), Fault) => Some(Plan(Silent, AckingRetry(p)))
    case (RetryingRunning(p), Run) =>
      Some(TryMove(s, p.job, Running, Retrying, Plain, AckingRetry(p), AckingRetry(p)))
    case (RetryingRunning(p), Fault) => Some(Plan(Silent, AckingRetry(p)))
    case (AckingRetry(p), Run) => Some(Plan(Acked(p.job), Resending(p)))
    case (AckingRetry(p), Fault) => Some(Plan(Silent, Resending(p)))
    case (Resending(p), Jitter(nanos)) =>
      var next := p.(attempt := p.attempt + 1);
      if nanos < SECOND then Some(Plan(Sent(next, RetryDelay(next.attempt, nanos), s.clock, ByWorker), WorkerIdle))
          else None
    case (Resending(_), Fault) => Some(Plan(Silent, WorkerIdle))
    case (MarkingDead(p, code), Run) =>
      Some(TryMove(s, p.job, Retrying, Dead, ErrorStamp(JobError(code, ""), Some(s.clock)), Burying(p), Burying(p)))
    case (MarkingDead(p, _), Fault) => Some(Plan(Silent, Burying(p)))
    case (Burying(p), Run) => Some(Plan(Buried(p.job), RecordingDead(p)))
    case (Burying(p), Fault) => Some(Plan(Silent, RecordingDead(p)))
    case (RecordingDead(p), Run) =>
      if HasResult(s.results, p.job) then Some(Plan(Silent, WorkerIdle))
      else Some(Plan(ResultInserted(ResultRow(p.job, Dead)), WorkerIdle))
    case (RecordingDead(_), Fault) => Some(Plan(Silent, WorkerIdle))
    case _ => None
  }

  ghost predicate HasKey(jobs: Jobs, id: Id, call: Call) {
    id in jobs && jobs[id].project == call.project && call.key != "" && jobs[id].key == Some(call.key)
  }

  /** FindByIdempotencyKey, for a key that is not empty. */
  ghost function FindByKey(jobs: Jobs, call: Call): (found: Option<Id>)
    ensures found.Some? ==> HasKey(jobs, found.value, call)
    ensures found.None? ==> forall id :: !HasKey(jobs, id, call)
  {
    if exists id :: HasKey(jobs, id, call) then
      var id :| HasKey(jobs, id, call);
      Some(id)
    else None
  }

  /** CreateAsync. */
  ghost function CreatePlan(cfg: Config, s: State, pc: Pc, c: Choice): (plan: Option<Plan>)
    ensures plan.Some? ==> Applicable(s, plan.value.effect)
  {
    match (pc, c)
    case (LookingUp(call), Run) =>
      var found := FindByKey(s.jobs, call);
      Some(Plan(Silent, if found.Some? then Finished(CreateReturned(call, found.value)) else Inserting(call)))
    case (LookingUp(call), Fault) => Some(Plan(Silent, Inserting(call)))
    case (Inserting(call), Draw(id)) =>
      var row := NewRow(call.project, StoredKey(call.key), Created, 0, 5);
      if id in s.jobs then None
      else if Clashes(s.jobs, row) then Some(Plan(Silent, Finished(CreateConflict(call))))
      else Some(Plan(JobInserted(id, row), QueueingCreated(call, id)))
    case (Inserting(_), Fault) => Some(Plan(Silent, Finished(Errored)))
    case (QueueingCreated(call, job), Run) =>
      Some(TryMove(s, job, Created, Queued, QueuedStamp(s.clock, 1, false), Sending(call, job),
          QueueingRetrying(call, job)))
    case (QueueingCreated(_, _), Fault) => Some(Plan(Silent, Finished(Errored)))
    case (QueueingRetrying(call, job), Run) =>
      Some(TryMove(s, job, Retrying, Queued, QueuedStamp(s.clock, 1, true), Sending(call, job), Finished(Errored)))
    case (QueueingRetrying(_, _), Fault) => Some(Plan(Silent, Finished(Errored)))
    case (Sending(call, job), Run) =>
      Some(Plan(Sent(Payload(job, 1), 0, s.clock, ByCreate), Finished(CreateReturned(call, job))))
    case (Sending(_, job), Fault) => Some(Plan(Silent, MarkingFailed(job, Running, QueueError, false)))
    case (Sending(_, job), FaultAfter) =>
      if cfg.honestCreate then None
      else Some(Plan(Sent(Payload(job, 1), 0, s.clock, ByCreate), MarkingFailed(job, Running, QueueError, false)))
    case _ => None
  }

  /** MarkFailed tries RUNNING, then CREATED, then QUEUED. */
  function MarkFailedPlan(s: State, pc: Pc, c: Choice): (plan: Option<Plan>)
    requires pc.MarkingFailed?
    ensures plan.Some? ==> Applicable(s, plan.value.effect)
  {
    var error := ErrorStamp(JobError(pc.code, ""), None);
    match (c, pc.from)
    case (Fault, _) => Some(Plan(Silent, Finished(Errored)))
    case (Run, Running) => Some(TryMove(s, pc.job, Running, Failed, error, Finished(Errored), pc.(from := Created)))
    case (Run, Created) => Some(TryMove(s, pc.job, Created, Failed, error, Finished(Errored), pc.(from := Queued)))
    case (Run, Queued) => Some(TryMove(s, pc.job, Queued, Failed, error, Finished(Errored), Finished(Errored)))
    case _ => None
  }

  /** Retry. A second update that fails is reported like one that touches nothing, as a conflict. */
  function RetryPlan(cfg: Config, s: State, pc: Pc, c: Choice): (plan: Option<Plan>)
    ensures plan.Some? ==> Applicable(s, plan.value.effect)
  {
    match (pc, c)
    case (Asking(job), Run) =>
      if job in s.jobs && s.jobs[job].status in {Failed, Dead}
      then Some(Plan(Silent, ReleasingFailed(job, s.jobs[job].attempts)))
      else Some(Plan(Silent, Finished(RetryRefused(job))))
    case (Asking(_), Fault) => Some(Plan(Silent, Finished(Errored)))
    case (ReleasingFailed(job, n), Run) =>
      Some(TryMove(s, job, Failed, Retrying, Plain, RequeueingCreated(job, n), ReleasingRunning(job, n)))
    case (ReleasingFailed(_, _), Fault) => Some(Plan(Silent, Finished(Errored)))
    case (ReleasingRunning(job, n), Run) =>
      Some(TryMove(s, job, Running, Retrying, Plain, RequeueingCreated(job, n), Finished(RetryRefused(job))))
    case (ReleasingRunning(job, _), Fault) => Some(Plan(Silent, Finished(RetryRefused(job))))
    case (RequeueingCreated(job, n), Run) =>
      Some(TryMove(s, job, Created, Queued, QueuedStamp(s.clock, n + 1, false), ResendingRetry(job, n),
          RequeueingRetrying(job, n)))
    case (RequeueingCreated(_, _), Fault) => Some(Plan(Silent, Finished(Errored)))
    case (RequeueingRetrying(job, n), Run) =>
      Some(TryMove(s, job, Retrying, Queued, QueuedStamp(s.clock, n + 1, true), ResendingRetry(job, n),
          Finished(RetryRefused(job))))
    case (RequeueingRetrying(job, _), Fault) => Some(Plan(Silent, Finished(RetryRefused(job))))
    case (ResendingRetry(job, n), Run) =>
      Some(Plan(Sent(Payload(job, n + 1), 0, s.clock, ByRetry), Finished(RetryReturned(job))))
    case (ResendingRetry(_, _), Fault) => Some(Plan(Silent, Finished(Errored)))
    case (ResendingRetry(job, n), FaultAfter) =>
      Some(Plan(Sent(Payload(job, n + 1), 0, s.clock, ByRetry), Finished(Errored)))
    case _ => None
  }

  /** CreateSync. */
  function SyncPlan(s: State, pc: Pc, c: Choice): (plan: Option<Plan>)
    ensures plan.Some? ==> Applicable(s, plan.value.effect)
  {
    match (pc, c)
    case (SyncInserting(project), Draw(id)) =>
      if id in s.jobs then None
      else Some(Plan(JobInserted(id, NewRow(project, None, Running, 1, 1)), SyncInferring(id)))
    case (SyncInserting(_), Fault) => Some(Plan(Silent, Finished(Errored)))
    case (SyncInferring(job), Infer(None)) => Some(Plan(Silent, SyncPersisting(job)))
    case (SyncInferring(job), Infer(Some(kind))) =>
      if kind in {KStorage, KInference}
      then Some(Plan(Silent, MarkingFailed(job, Running, ClassifyErrorCode(kind), true)))
      else None
    case (SyncPersisting(job), Run) =>
      if HasResult(s.results, job) then Some(Plan(Silent, MarkingFailed(job, Running, DatabaseError, true)))
      else Some(Plan(ResultInserted(ResultRow(job, Success)), SyncSucceeding(job)))
    case (SyncPersisting(job), Fault) => Some(Plan(Silent, MarkingFailed(job, Running, DatabaseError, true)))
    case (SyncSucceeding(job), Run) =>
      Some(TryMove(s, job, Running, Success, DoneStamp(s.clock), Finished(SyncReturned(job)),
          Finished(SyncReturned(job))))
    case (SyncSucceeding(job), Fault) => Some(Plan(Silent, Finished(SyncReturned(job))))
    case _ => None
  }

  predicate InQueue(pc: Pc) {
    || pc.WorkerIdle? || pc.Arming? || pc.Claiming? || pc.Blocking? || pc.Holding? || pc.PuttingBack? || pc.Fetching?
    || pc.Housekeeping? || pc.SweepFetching? || pc.Sweeping?
  }

  predicate InProcess(pc: Pc) {
    pc.Starting? || pc.Inferring? || pc.Persisting? || pc.Succeeding? || pc.Acking?
  }

  predicate InFailure(pc: Pc) {
    || pc.RetryingFailed? || pc.RetryingRunning? || pc.AckingRetry? || pc.Resending?
    || pc.MarkingDead? || pc.Burying? || pc.RecordingDead?
  }

  predicate InCreate(pc: Pc) {
    pc.LookingUp? || pc.Inserting? || pc.QueueingCreated? || pc.QueueingRetrying? || pc.Sending?
  }

  predicate InRetry(pc: Pc) {
    || pc.Asking? || pc.ReleasingFailed? || pc.ReleasingRunning? || pc.RequeueingCreated? || pc.RequeueingRetrying?
    || pc.ResendingRetry?
  }

  predicate InSync(pc: Pc) {
    pc.SyncInserting? || pc.SyncInferring? || pc.SyncPersisting? || pc.SyncSucceeding?
  }

  ghost function PlanOf(cfg: Config, s: State, pc: Pc, c: Choice): (plan: Option<Plan>)
    ensures plan.Some? ==> Applicable(s, plan.value.effect)
  {
    if InQueue(pc) then QueuePlan(cfg, s, pc, c)
    else if InProcess(pc) then ProcessPlan(cfg, s, pc, c)
    else if InFailure(pc) then FailurePlan(s, pc, c)
    else if InCreate(pc) then CreatePlan(cfg, s, pc, c)
    else if InRetry(pc) then RetryPlan(cfg, s, pc, c)
    else if InSync(pc) then SyncPlan(s, pc, c)
    else if pc.MarkingFailed? then MarkFailedPlan(s, pc, c)
    else None
  }

  // ---------------------------------------------------------------- steps and runs

  datatype Event =
    | Tick(nanos: nat)
    | Spawn(t: ThreadId, pc: Pc)
    | Do(t: ThreadId, c: Choice)
    | Crash(t: ThreadId)

  predicate EntryPoint(pc: Pc) {
    match pc
    case WorkerIdle => true
    case Housekeeping => true
    case LookingUp(call) => call.key != ""
    case Inserting(call) => call.key == ""
    case Asking(_) => true
    case SyncInserting(_) => true
    case _ => false
  }

  /** A Retry of `job` is in flight. */
  predicate RetryInFlight(s: State, job: Id) {
    exists t | t in s.threads :: InRetry(s.threads[t]) && s.threads[t].job == job
  }

  /** What a thread that dies here takes with it. */
  function CrashEffect(pc: Pc): Effect {
    if pc.Holding? || pc.PuttingBack? then Lost(pc.id) else Silent
  }

  ghost function Step(cfg: Config, s: State, e: Event): Option<State> {
    match e
    case Tick(nanos) => Some(s.(clock := s.clock + nanos))
    case Spawn(t, pc) =>
      if t in s.threads || !EntryPoint(pc) || (cfg.serialRetry && pc.Asking? && RetryInFlight(s, pc.job)) then None
      else Some(s.(threads := s.threads[t := pc]))
    case Do(t, c) =>
      if t !in s.threads then None
      else
        var plan := PlanOf(cfg, s, s.threads[t], c);
        if plan.None? then None
        else Some(Apply(s, plan.value.effect).(threads := s.threads[t := plan.value.next]))
    case Crash(t) =>
      if t !in s.threads || (CrashEffect(s.threads[t]).Lost? && !cfg.windowFaults) then None
      else Some(Apply(s, CrashEffect(s.threads[t])).(threads := s.threads - {t}))
  }

  ghost predicate Follows(cfg: Config, states: seq<State>, events: seq<Event>, i: nat)
    requires i < |events| && i + 1 < |states|
  {
    Step(cfg, states[i], events[i]) == Some(states[i + 1])
  }

  /** A finite run: `states` has one more element than `events`. */
  ghost predicate IsRun(cfg: Config, states: seq<State>, events: seq<Event>) {
    && |states| == |events| + 1
    && Init(states[0])
    && forall i {:trigger Follows(cfg, states, events, i)} | 0 <= i < |events| :: Follows(cfg, states, events, i)
  }

  ghost predicate Reachable(cfg: Config, s: State) {
    exists states, events :: IsRun(cfg, states, events) && states[|events|] == s
  }
}
