/** What a thread's next step can look like, read off its plan once for all the invariants. */
module PlanShape {
  import opened JobTypes
  import opened JobStore
  import opened RedisStore
  import opened Protocol

  /** The status changes the statements of the code can make. */
  predicate CodeEdge(from: JobStatus, to: JobStatus) {
    match to
    case Queued => from in {Created, Retrying}
    case Running => from == Queued
    case Success => from == Running
    case Failed => from in {Running, Created, Queued}
    case Retrying => from in {Failed, Running}
    case Dead => from == Retrying
    case _ => false
  }

  predicate UsesCodeEdges(e: Effect) {
    match e
    case Moved(_, from, to, _) => CodeEdge(from, to)
    case JobInserted(_, row) => row.status in {Created, Running}
    case _ => true
  }

  /** The thread has stored the successful result of `job` and not yet marked the job. */
  predicate AboutToSucceed(pc: Pc, job: Id) {
    pc == SyncSucceeding(job) || (pc.Succeeding? && pc.p.job == job)
  }

  /** SUCCESS is only marked by a thread whose previous step stored the successful result. */
  predicate PersistsFirst(pc: Pc, e: Effect, next: Pc) {
    && (e.Moved? && e.to == Success ==> AboutToSucceed(pc, e.id))
    && (next.Succeeding? ==> e == ResultInserted(ResultRow(next.p.job, Success)))
    && (next.SyncSucceeding? ==> e == ResultInserted(ResultRow(next.job, Success)))
  }

  /** A worker gets to inference only by QUEUED to RUNNING, and calls the model only there. */
  predicate StartsFirst(pc: Pc, e: Effect, next: Pc) {
    && (next.Inferring? ==> e.Moved? && e.id == next.p.job && e.from == Queued && e.to == Running)
    && (e.Inferred? ==> pc.Inferring? && pc.p.job == e.id)
  }

  /** A sweep's clock reading lies in the past. */
  predicate ReadingOk(s: State, pc: Pc) {
    match pc
    case SweepFetching(now, _) => now <= Unix(s.clock)
    case Sweeping(now, _, _, _) => now <= Unix(s.clock)
    case _ => true
  }

  /** A sweep keeps its reading and moves ids by it. */
  predicate SweepsByReading(s: State, pc: Pc, e: Effect, next: Pc) {
    ReadingOk(s, pc) ==> ReadingOk(s, next) && (e.Swept? ==> e.now <= Unix(e.at))
  }

  /** A Dequeue has popped `id` and not yet leased it. */
  predicate HeldBy(pc: Pc, id: Id) {
    (pc.Holding? || pc.PuttingBack?) && pc.id == id
  }

  /** A popped id is held until it is leased, returned or lost. */
  predicate HandsOver(cfg: Config, pc: Pc, e: Effect, next: Pc) {
    && (e.Popped? ==> HeldBy(next, e.id))
    && (pc.Holding? || pc.PuttingBack? ==>
          HeldBy(next, pc.id) || e == Returned(pc.id) || (e.Leased? && e.id == pc.id) || e == Lost(pc.id))
    && (e.Lost? || e.Dropped? ==> cfg.windowFaults)
  }

  /** The deadline a Dequeue has taken and not used yet. */
  function DeadlineOf(pc: Pc): Option<int> {
    match pc
    case Claiming(deadline) => Some(deadline)
    case Blocking(deadline) => Some(deadline)
    case Holding(_, deadline) => Some(deadline)
    case _ => None
  }

  /** A deadline is the one taken before, or two minutes from now; it is what an id is leased until. */
  predicate KeepsDeadline(now: Time, pc: Pc, e: Effect, next: Pc) {
    && (DeadlineOf(next).Some? ==>
          DeadlineOf(pc) == DeadlineOf(next)
          || (pc.Arming? && DeadlineOf(next).value == (now + 120_000_000_000) / 1_000_000_000))
    && (e.Claimed? || e.Leased? ==> DeadlineOf(pc) == Some(e.deadline))
  }

  /** The call that created `job` has yet to enqueue it. */
  predicate Creating(pc: Pc, job: Id) {
    (pc.QueueingCreated? || pc.QueueingRetrying? || pc.Sending?) && pc.job == job
  }

  /** The call and the job a thread of CreateAsync is bound to. */
  function Binding(pc: Pc): Option<(Call, Id)> {
    match pc
    case QueueingCreated(call, job) => Some((call, job))
    case QueueingRetrying(call, job) => Some((call, job))
    case Sending(call, job) => Some((call, job))
    case Finished(CreateReturned(call, job)) => Some((call, job))
    case _ => None
  }

  /** The row `job` carries the project and the key of `call`. */
  predicate Carries(row: JobRow, call: Call) {
    row.project == call.project && row.key == StoredKey(call.key)
  }

  /** A call is bound to a row it finds or inserts, and enqueues only a row it has inserted, once. */
  predicate BindsInOrder(s: State, pc: Pc, e: Effect, next: Pc) {
    && (e.Sent? && e.origin == ByCreate ==>
          Creating(pc, e.p.job) && Binding(next) in {None, Binding(pc)} && !Creating(next, e.p.job))
    && match Binding(next)
       case None => true
       case Some((call, job)) =>
         || (Binding(pc) == Some((call, job)) && (Creating(next, job) ==> Creating(pc, job)))
         || (e.JobInserted? && e.id == job && Carries(e.row, call))
         || (!e.JobInserted? && job in s.jobs && Carries(s.jobs[job], call) && !Creating(next, job))
  }

  /** Only the INSERT of CreateAsync gives a row a key. */
  predicate KeysByInsert(pc: Pc, e: Effect) {
    e.JobInserted? && e.row.key.Some? ==> pc.Inserting? && Carries(e.row, pc.call)
  }

  ghost predicate Shaped(cfg: Config, s: State, pc: Pc, plan: Option<Plan>) {
    plan.Some? ==>
      var e, next := plan.value.effect, plan.value.next;
      && UsesCodeEdges(e)
      && PersistsFirst(pc, e, next)
      && StartsFirst(pc, e, next)
      && SweepsByReading(s, pc, e, next)
      && HandsOver(cfg, pc, e, next)
      && KeepsDeadline(s.clock, pc, e, next)
      && BindsInOrder(s, pc, e, next)
      && KeysByInsert(pc, e)
  }

  lemma QueueShaped(cfg: Config, s: State, pc: Pc, c: Choice)
    ensures Shaped(cfg, s, pc, QueuePlan(cfg, s, pc, c))
  {}

  lemma ProcessShaped(cfg: Config, s: State, pc: Pc, c: Choice)
    ensures Shaped(cfg, s, pc, ProcessPlan(cfg, s, pc, c))
  {}

  lemma FailureShaped(cfg: Config, s: State, pc: Pc, c: Choice)
    ensures Shaped(cfg, s, pc, FailurePlan(s, pc, c))
  {}

  lemma CreateShaped(cfg: Config, s: State, pc: Pc, c: Choice)
    ensures Shaped(cfg, s, pc, CreatePlan(cfg, s, pc, c))
  {}

  lemma RetryShaped(cfg: Config, s: State, pc: Pc, c: Choice)
    ensures Shaped(cfg, s, pc, RetryPlan(cfg, s, pc, c))
  {}

  lemma SyncShaped(cfg: Config, s: State, pc: Pc, c: Choice)
    ensures Shaped(cfg, s, pc, SyncPlan(s, pc, c))
  {}

  lemma MarkFailedShaped(cfg: Config, s: State, pc: Pc, c: Choice)
    requires pc.MarkingFailed?
    ensures Shaped(cfg, s, pc, MarkFailedPlan(s, pc, c))
  {}

  lemma WorkerShaped(cfg: Config, s: State, pc: Pc, c: Choice)
    requires InQueue(pc) || InProcess(pc) || InFailure(pc)
    ensures Shaped(cfg, s, pc, PlanOf(cfg, s, pc, c))
  {
    if InQueue(pc) {
      QueueShaped(cfg, s, pc, c);
    } else if InProcess(pc) {
      ProcessShaped(cfg, s, pc, c);
    } else {
      FailureShaped(cfg, s, pc, c);
    }
  }

  lemma PlansShaped(cfg: Config, s: State, pc: Pc, c: Choice)
    ensures Shaped(cfg, s, pc, PlanOf(cfg, s, pc, c))
  {
    if InQueue(pc) || InProcess(pc) || InFailure(pc) {
      WorkerShaped(cfg, s, pc, c);
    } else if InCreate(pc) {
      CreateShaped(cfg, s, pc, c);
    } else if InRetry(pc) {
      RetryShaped(cfg, s, pc, c);
    } else if InSync(pc) {
      SyncShaped(cfg, s, pc, c);
    } else if pc.MarkingFailed? {
      MarkFailedShaped(cfg, s, pc, c);
    }
  }
}
