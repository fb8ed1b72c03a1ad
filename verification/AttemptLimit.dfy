/** While Retry calls of a job do not overlap no job gets beyond its second attempt, whatever its
    Enqueue reports: with four attempts configured a worker never runs out of them. */
module AttemptLimit {
  import opened JobTypes
  import opened JobStore
  import opened RedisStore
  import opened Backoff
  import opened Protocol
  import opened PlanShape
  import opened RetryFate

  // ---------------------------------------------------------------- what holds

  predicate RowOk(row: JobRow) {
    match row.status
    case Created => row.attempts == 0
    case Failed => row.attempts <= 1
    case Queued => 1 <= row.attempts <= 2
    case Dead => false
    case Cancelled => false
    case _ => row.attempts <= 2
  }

  ghost predicate RowsOk(jobs: Jobs) {
    forall job | job in jobs :: RowOk(jobs[job])
  }

  /** A payload that was enqueued is at most one attempt ahead of its row, and not ahead of a QUEUED one. */
  predicate Known(jobs: Jobs, p: Payload) {
    p.job in jobs
    && if jobs[p.job].status == Queued then p.attempt <= jobs[p.job].attempts else p.attempt <= jobs[p.job].attempts + 1
  }

  /** A payload that was started is not ahead of its row, and behind a QUEUED one. */
  predicate Begun(jobs: Jobs, p: Payload) {
    p.job in jobs
    && if jobs[p.job].status == Queued then p.attempt < jobs[p.job].attempts else p.attempt <= jobs[p.job].attempts
  }

  /** What a thread is to one job. */
  datatype Role =
    | Bystander
    | Carrier(p: Payload)        // has the payload and has not started it
    | Executor(p: Payload)       // has started it
    | Inserter(job: Id)          // has inserted the row and not queued it
    | Creator(job: Id)           // has queued it, or runs it, and may yet mark it FAILED
    | Asker(job: Id)             // Retry, before it has read the row
    | Reader(job: Id, n: nat)    // Retry, after it has read attempts `n`
    | Sender(job: Id, n: nat)    // Retry, before its Enqueue
    | Impossible

  function RoleOf(pc: Pc): Role {
    match pc
    case Starting(p) => Carrier(p)
    case Inferring(p) => Executor(p)
    case Persisting(p) => Executor(p)
    case Succeeding(p) => Executor(p)
    case RetryingFailed(p) => Executor(p)
    case RetryingRunning(p) => Executor(p)
    case AckingRetry(p) => Executor(p)
    case Resending(p) => Executor(p)
    case MarkingDead(_, _) => Impossible
    case Burying(_) => Impossible
    case RecordingDead(_) => Impossible
    case QueueingCreated(_, job) => Inserter(job)
    case QueueingRetrying(_, _) => Impossible
    case Sending(_, job) => Creator(job)
    case MarkingFailed(job, _, _, _) => Creator(job)
    case SyncInferring(job) => Creator(job)
    case SyncPersisting(job) => Creator(job)
    case SyncSucceeding(job) => Creator(job)
    case Asking(job) => Asker(job)
    case ReleasingFailed(job, n) => Reader(job, n)
    case ReleasingRunning(job, n) => Reader(job, n)
    case RequeueingCreated(job, n) => Reader(job, n)
    case RequeueingRetrying(job, n) => Reader(job, n)
    case ResendingRetry(job, n) => Sender(job, n)
    case _ => Bystander
  }

  /** What it may rely on. */
  predicate RoleHolds(jobs: Jobs, role: Role) {
    match role
    case Carrier(p) => Known(jobs, p)
    case Executor(p) => Begun(jobs, p)
    case Inserter(job) => CanMove(jobs, job, Created)
    case Creator(job) => job in jobs && jobs[job].status !in {Created, Failed} && jobs[job].attempts <= 1
    case Reader(job, n) => job in jobs && jobs[job].status != Created && jobs[job].attempts == n <= 1
    case Sender(job, n) => job in jobs && jobs[job].attempts == n + 1
    case Impossible => false
    case _ => true
  }

  /** The row a thread is about is in order. */
  predicate RowFits(jobs: Jobs, role: Role) {
    match role
    case Carrier(p) => p.job in jobs ==> RowOk(jobs[p.job])
    case Executor(p) => p.job in jobs ==> RowOk(jobs[p.job])
    case Creator(job) => job in jobs ==> RowOk(jobs[job])
    case Asker(job) => job in jobs ==> RowOk(jobs[job])
    case Reader(job, _) => job in jobs ==> RowOk(jobs[job])
    case _ => true
  }

  predicate IsMaker(a: Role) {
    a.Inserter? || a.Creator?
  }

  predicate IsCaller(a: Role) {
    a.Asker? || a.Reader? || a.Sender?
  }

  /** Roles two different threads can have at the same time. */
  predicate RolesFit(a: Role, b: Role) {
    (IsMaker(a) || IsCaller(a)) && (IsMaker(b) || IsCaller(b)) && a.job == b.job ==>
      && !(IsMaker(a) && (IsMaker(b) || b.Reader?))
      && !(IsMaker(b) && a.Reader?)
      && !(IsCaller(a) && IsCaller(b))
  }

  ghost predicate PayloadsKnown(r: Redis, jobs: Jobs) {
    forall id | id in r.payloads :: Known(jobs, r.payloads[id])
  }

  /** No payload that was ever enqueued carries more than attempt 3. */
  predicate FewAttempts(log: seq<Effect>) {
    forall i | 0 <= i < |log| && log[i].Sent? :: log[i].p.attempt <= 3
  }

  ghost predicate Inv(s: State) {
    && RowsOk(s.jobs) && PayloadsKnown(s.redis, s.jobs) && FewAttempts(s.log)
    && (forall t | t in s.threads :: RoleHolds(s.jobs, RoleOf(s.threads[t])))
    && forall t, u | t in s.threads && u in s.threads && t != u ::
         RolesFit(RoleOf(s.threads[t]), RoleOf(s.threads[u]))
  }

  // ---------------------------------------------------------------- one step

  /** Who may move a row how, and what it is to the job then. */
  predicate RowRights(mine: Role, e: Effect, next: Role)
    requires e.Moved?
  {
    && (e.stamp.QueuedStamp? <==> e.to == Queued)
    && match mine
       case Carrier(p) => e.id == p.job && e.from == Queued && e.to == Running && next == Executor(p)
       case Executor(p) =>
         && e.id == p.job && e.from in {Running, Failed} && e.to in {Success, Retrying}
         && (next == mine || next.Bystander?)
       case Creator(job) =>
         e.id == job && e.from in {Running, Created, Queued} && e.to in {Success, Failed} && next.Bystander?
       case Inserter(job) =>
         e.id == job && e.from == Created && e.to == Queued && e.stamp.attempts == 1 && next == Creator(job)
       case Reader(job, n) =>
         && e.id == job
         && if e.to == Queued then e.from == Retrying && e.stamp.attempts == n + 1 && next == Sender(job, n)
            else e.from in {Failed, Running} && e.to == Retrying && next == mine
       case _ => false
  }

  predicate RoleRights(jobs: Jobs, mine: Role, e: Effect, next: Role) {
    match e
    case Moved(_, _, _, _) => RowRights(mine, e, next)
    case JobInserted(id, row) =>
      mine.Bystander? && RowOk(row)
      && if row.status == Created then next == Inserter(id)
         else row.status == Running && row.attempts <= 1 && next == Creator(id)
    case Sent(p, _, _, _) => Known(jobs, p) && (next.Bystander? || next == mine)
    case _ =>
      || next.Bystander? || next == mine || next.Carrier?
      || (mine.Asker? && next.Reader? && mine.job == next.job && CanMove(jobs, mine.job, Failed))
  }

  ghost predicate StepOk(s: State, pc: Pc, plan: Option<Plan>) {
    plan.Some? ==>
      && RoleRights(s.jobs, RoleOf(pc), plan.value.effect, RoleOf(plan.value.next))
      && (plan.value.effect.Moved? || plan.value.effect.JobInserted? || RoleHolds(s.jobs, RoleOf(plan.value.next)))
  }

  lemma QueueStepOk(cfg: Config, s: State, pc: Pc, c: Choice)
    requires PayloadsKnown(s.redis, s.jobs)
    ensures StepOk(s, pc, QueuePlan(cfg, s, pc, c))
  {}

  lemma ProcessStepOk(cfg: Config, s: State, pc: Pc, c: Choice)
    requires cfg.maxAttempts >= 4 && RowFits(s.jobs, RoleOf(pc)) && RoleHolds(s.jobs, RoleOf(pc))
    ensures StepOk(s, pc, ProcessPlan(cfg, s, pc, c))
  {}

  lemma FailureStepOk(s: State, pc: Pc, c: Choice)
    requires RoleHolds(s.jobs, RoleOf(pc))
    ensures StepOk(s, pc, FailurePlan(s, pc, c))
  {}

  lemma CreateStepOk(cfg: Config, s: State, pc: Pc, c: Choice)
    requires RowFits(s.jobs, RoleOf(pc)) && RoleHolds(s.jobs, RoleOf(pc))
    ensures StepOk(s, pc, CreatePlan(cfg, s, pc, c))
  {}

  lemma ReleaseStepOk(cfg: Config, s: State, pc: Pc, c: Choice)
    requires pc.Asking? || pc.ReleasingFailed? || pc.ReleasingRunning?
    requires RowFits(s.jobs, RoleOf(pc)) && RoleHolds(s.jobs, RoleOf(pc))
    ensures StepOk(s, pc, RetryPlan(cfg, s, pc, c))
  {}

  lemma RequeueStepOk(cfg: Config, s: State, pc: Pc, c: Choice)
    requires pc.RequeueingCreated? || pc.RequeueingRetrying? || pc.ResendingRetry?
    requires RowFits(s.jobs, RoleOf(pc)) && RoleHolds(s.jobs, RoleOf(pc))
    ensures StepOk(s, pc, RetryPlan(cfg, s, pc, c))
  {}

  lemma SyncStepOk(s: State, pc: Pc, c: Choice)
    requires RoleHolds(s.jobs, RoleOf(pc))
    ensures StepOk(s, pc, SyncPlan(s, pc, c))
  {}

  lemma MarkFailedStepOk(s: State, pc: Pc, c: Choice)
    requires pc.MarkingFailed? && RoleHolds(s.jobs, RoleOf(pc))
    ensures StepOk(s, pc, MarkFailedPlan(s, pc, c))
  {}

  lemma WorkerStepOk(cfg: Config, s: State, pc: Pc, c: Choice)
    requires InQueue(pc) || InProcess(pc) || InFailure(pc)
    requires cfg.maxAttempts >= 4 && RowsOk(s.jobs) && PayloadsKnown(s.redis, s.jobs) && RoleHolds(s.jobs, RoleOf(pc))
    ensures StepOk(s, pc, PlanOf(cfg, s, pc, c))
  {
    if InQueue(pc) {
      QueueStepOk(cfg, s, pc, c);
    } else if InProcess(pc) {
      ProcessStepOk(cfg, s, pc, c);
    } else {
      FailureStepOk(s, pc, c);
    }
  }

  lemma RetryStepOk(cfg: Config, s: State, pc: Pc, c: Choice)
    requires InRetry(pc) && RowFits(s.jobs, RoleOf(pc)) && RoleHolds(s.jobs, RoleOf(pc))
    ensures StepOk(s, pc, RetryPlan(cfg, s, pc, c))
  {
    if pc.Asking? || pc.ReleasingFailed? || pc.ReleasingRunning? {
      ReleaseStepOk(cfg, s, pc, c);
    } else {
      RequeueStepOk(cfg, s, pc, c);
    }
  }

  lemma CallStepOk(cfg: Config, s: State, pc: Pc, c: Choice)
    requires !InQueue(pc) && !InProcess(pc) && !InFailure(pc)
    requires RowFits(s.jobs, RoleOf(pc)) && RoleHolds(s.jobs, RoleOf(pc))
    ensures StepOk(s, pc, PlanOf(cfg, s, pc, c))
  {
    if InCreate(pc) {
      CreateStepOk(cfg, s, pc, c);
    } else if InRetry(pc) {
      RetryStepOk(cfg, s, pc, c);
    } else if InSync(pc) {
      SyncStepOk(s, pc, c);
    } else if pc.MarkingFailed? {
      MarkFailedStepOk(s, pc, c);
    }
  }

  lemma PlanStepOk(cfg: Config, s: State, pc: Pc, c: Choice)
    requires cfg.maxAttempts >= 4 && RowsOk(s.jobs) && PayloadsKnown(s.redis, s.jobs) && RoleHolds(s.jobs, RoleOf(pc))
    ensures StepOk(s, pc, PlanOf(cfg, s, pc, c))
  {
    if InQueue(pc) || InProcess(pc) || InFailure(pc) {
      WorkerStepOk(cfg, s, pc, c);
    } else {
      CallStepOk(cfg, s, pc, c);
    }
  }

  lemma MovedRowOk(s: State, mine: Role, e: Effect, next: Role)
    requires e.Moved? && Applicable(s, e) && RowsOk(s.jobs) && RoleHolds(s.jobs, mine) && RowRights(mine, e, next)
    ensures RowOk(NewJobs(s, e)[e.id]) && RoleHolds(NewJobs(s, e), next)
  {}

  /** The rows stay in order, and the thread's new role holds. */
  lemma MineStaysOk(s: State, mine: Role, e: Effect, next: Role)
    requires Applicable(s, e) && RowsOk(s.jobs) && RoleHolds(s.jobs, mine) && RoleRights(s.jobs, mine, e, next)
    requires e.Moved? || e.JobInserted? || RoleHolds(s.jobs, next)
    ensures RowsOk(NewJobs(s, e)) && RoleHolds(NewJobs(s, e), next)
  {
    match e
    case Moved(_, _, _, _) => MovedRowOk(s, mine, e, next);
    case JobInserted(_, _) =>
    case _ => assert NewJobs(s, e) == s.jobs;
  }

  /** What is known about payloads stays known: a row's attempts only grow when it is queued. */
  lemma PayloadStaysKnown(s: State, mine: Role, e: Effect, next: Role, p: Payload)
    requires Applicable(s, e) && RowsOk(s.jobs) && RoleHolds(s.jobs, mine) && RoleRights(s.jobs, mine, e, next)
    ensures Known(s.jobs, p) ==> Known(NewJobs(s, e), p)
    ensures Begun(s.jobs, p) ==> Begun(NewJobs(s, e), p)
  {}

  lemma OthersStayOk(s: State, mine: Role, e: Effect, next: Role, other: Role)
    requires Applicable(s, e) && RowsOk(s.jobs) && RoleHolds(s.jobs, mine) && RoleRights(s.jobs, mine, e, next)
    requires RoleHolds(s.jobs, other) && RolesFit(mine, other)
    ensures RoleHolds(NewJobs(s, e), other)
  {
    if other.Carrier? || other.Executor? {
      PayloadStaysKnown(s, mine, e, next, other.p);
    }
  }

  lemma OthersStayCompatible(s: State, mine: Role, e: Effect, next: Role, other: Role)
    requires Applicable(s, e) && RoleRights(s.jobs, mine, e, next)
    requires RoleHolds(s.jobs, other) && RolesFit(mine, other)
    ensures RolesFit(next, other) && RolesFit(other, next)
  {}

  lemma EffectKeepsInv(s: State, t: ThreadId, plan: Plan)
    requires Inv(s) && t in s.threads && Applicable(s, plan.effect) && StepOk(s, s.threads[t], Some(plan))
    ensures Inv(Apply(s, plan.effect).(threads := s.threads[t := plan.next]))
  {
    var mine, e, next := RoleOf(s.threads[t]), plan.effect, RoleOf(plan.next);
    MineStaysOk(s, mine, e, next);
    forall id | id in NewRedis(s, e).payloads ensures Known(NewJobs(s, e), NewRedis(s, e).payloads[id]) {
      PayloadStaysKnown(s, mine, e, next, NewRedis(s, e).payloads[id]);
    }
    forall u | u in s.threads && u != t
      ensures RoleHolds(NewJobs(s, e), RoleOf(s.threads[u]))
      ensures RolesFit(next, RoleOf(s.threads[u])) && RolesFit(RoleOf(s.threads[u]), next)
    {
      OthersStayOk(s, mine, e, next, RoleOf(s.threads[u]));
      OthersStayCompatible(s, mine, e, next, RoleOf(s.threads[u]));
    }
  }

  lemma StepKeepsInv(cfg: Config, s: State, e: Event)
    requires cfg.serialRetry && cfg.maxAttempts >= 4 && Inv(s) && Step(cfg, s, e).Some?
    ensures Inv(Step(cfg, s, e).value)
  {
    match e
    case Tick(_) =>
    case Spawn(t, pc) => SpawnKeepsInv(s, t, pc);
    case Do(t, c) =>
      PlanStepOk(cfg, s, s.threads[t], c);
      EffectKeepsInv(s, t, PlanOf(cfg, s, s.threads[t], c).value);
    case Crash(t) =>
      assert NewJobs(s, CrashEffect(s.threads[t])) == s.jobs && NewRedis(s, CrashEffect(s.threads[t])) == s.redis;
  }

  lemma SpawnKeepsInv(s: State, t: ThreadId, pc: Pc)
    requires Inv(s) && t !in s.threads && EntryPoint(pc) && (pc.Asking? ==> !RetryInFlight(s, pc.job))
    ensures Inv(s.(threads := s.threads[t := pc]))
  {
    forall u | u in s.threads
      ensures RolesFit(RoleOf(s.threads[u]), RoleOf(pc)) && RolesFit(RoleOf(pc), RoleOf(s.threads[u]))
    {
      if pc.Asking? && IsCaller(RoleOf(s.threads[u])) {
        assert InRetry(s.threads[u]) && RoleOf(s.threads[u]).job == s.threads[u].job;
      }
    }
  }

  lemma {:induction false} RunKeepsInv(cfg: Config, states: seq<State>, events: seq<Event>, i: nat)
    requires cfg.serialRetry && cfg.maxAttempts >= 4 && IsRun(cfg, states, events) && i < |states|
    ensures Inv(states[i])
  {
    if i > 0 {
      RunKeepsInv(cfg, states, events, i - 1);
      assert Follows(cfg, states, events, i - 1);
      StepKeepsInv(cfg, states[i - 1], events[i - 1]);
    }
  }

  /** No row gets beyond its second attempt and no payload beyond its third, and no job becomes DEAD. */
  lemma TwoAttemptsAtMost(cfg: Config, s: State)
    requires cfg.serialRetry && cfg.maxAttempts >= 4 && Reachable(cfg, s)
    ensures NoneDead(s)
    ensures forall job | job in s.jobs :: s.jobs[job].attempts <= 2
    ensures forall k | 0 <= k < |s.log| && s.log[k].Sent? :: s.log[k].p.attempt <= 3
  {
    var states, events :| IsRun(cfg, states, events) && states[|events|] == s;
    RunKeepsInv(cfg, states, events, |events|);
  }
}
