/** At most one thread runs the inference of a job at a time, and while it does the row is
    RUNNING: an invariant of every run in which Retry calls of a job do not overlap and an
    Enqueue of CreateAsync that reports an error enqueued nothing. */
module Exclusion {
  import opened JobTypes
  import opened JobStore
  import opened RedisStore
  import opened Protocol

  /** What a thread may rely on about one job. */
  datatype Stake =
    | Bystander
    | Courier(job: Id)                  // handles a delivery, owns nothing
    | Owner(job: Id, delivered: bool)   // between the claim and the next status update
    | Fresh(job: Id)                    // has inserted the row and told no one
    | Unsent(job: Id)                   // has queued the row and not enqueued it
    | Asker(job: Id)                    // Retry, before it has read the row
    | Reader(job: Id)                   // Retry, after it has read FAILED or DEAD
    | Misser(job: Id)                   // Retry, after FAILED -> RETRYING missed
    | Releaser(job: Id)                 // Retry, after it made the row RETRYING
    | Sender(job: Id)                   // Retry, before its Enqueue
    | Impossible(job: Id)               // statements no run reaches

  function StakeOf(pc: Pc): Stake {
    match pc
    case Holding(id, _) => Courier(id)
    case PuttingBack(id) => Courier(id)
    case Fetching(id) => Courier(id)
    case Starting(p) => Courier(p.job)
    case Acking(id) => Courier(id)
    case AckingRetry(p) => Courier(p.job)
    case Resending(p) => Courier(p.job)
    case Burying(p) => Courier(p.job)
    case RecordingDead(p) => Courier(p.job)
    case Inferring(p) => Owner(p.job, true)
    case Persisting(p) => Owner(p.job, true)
    case Succeeding(p) => Owner(p.job, true)
    case RetryingFailed(p) => Owner(p.job, true)
    case RetryingRunning(p) => Owner(p.job, true)
    case MarkingDead(p, _) => Owner(p.job, true)
    case SyncInferring(job) => Owner(job, false)
    case SyncPersisting(job) => Owner(job, false)
    case SyncSucceeding(job) => Owner(job, false)
    case MarkingFailed(job, from, _, sync) =>
      if !sync then Unsent(job) else if from == Running then Owner(job, false) else Impossible(job)
    case QueueingCreated(_, job) => Fresh(job)
    case QueueingRetrying(_, job) => Impossible(job)
    case Sending(_, job) => Unsent(job)
    case Asking(job) => Asker(job)
    case ReleasingFailed(job, _) => Reader(job)
    case ReleasingRunning(job, _) => Misser(job)
    case RequeueingCreated(job, _) => Releaser(job)
    case RequeueingRetrying(job, _) => Releaser(job)
    case ResendingRetry(job, _) => Sender(job)
    case _ => Bystander
  }

  /** Some client has enqueued this id. */
  ghost predicate WasSent(log: seq<Effect>, job: Id) {
    exists i :: 0 <= i < |log| && log[i].Sent? && log[i].p.job == job
  }

  ghost predicate Holds(jobs: Jobs, log: seq<Effect>, stake: Stake) {
    match stake
    case Bystander => true
    case Courier(job) => WasSent(log, job)
    case Owner(job, delivered) => CanMove(jobs, job, Running) && (delivered ==> WasSent(log, job))
    case Fresh(job) => CanMove(jobs, job, Created) && !WasSent(log, job)
    case Unsent(job) => CanMove(jobs, job, Queued) && !WasSent(log, job)
    case Asker(_) => true
    case Reader(job) => CanMove(jobs, job, Failed) || CanMove(jobs, job, Dead)
    case Misser(job) => CanMove(jobs, job, Dead)
    case Releaser(job) => CanMove(jobs, job, Retrying)
    case Sender(job) => job in jobs
    case Impossible(_) => false
  }

  predicate IsCreator(a: Stake) {
    a.Fresh? || a.Unsent?
  }

  predicate IsRetrier(a: Stake) {
    a.Asker? || a.Reader? || a.Misser? || a.Releaser? || a.Sender?
  }

  /** Stakes two different threads can have at the same time. */
  predicate Compatible(a: Stake, b: Stake) {
    a.Bystander? || b.Bystander? || a.job != b.job || (
      && !(a.Owner? && b.Owner?)
      && !(IsCreator(a) && (IsCreator(b) || b.Sender?))
      && !(IsCreator(b) && a.Sender?)
      && !(IsRetrier(a) && IsRetrier(b)))
  }

  /** Ids only reach Redis through Enqueue. */
  ghost predicate QueueOk(r: Redis, log: seq<Effect>) {
    && (forall id | id in r.queued :: WasSent(log, id))
    && (forall id | id in r.processing :: WasSent(log, id))
    && (forall id | id in r.payloads :: WasSent(log, id) && r.payloads[id].job == id)
  }

  ghost predicate SentExists(s: State) {
    forall job | WasSent(s.log, job) :: job in s.jobs
  }

  ghost predicate StakesHold(s: State) {
    forall t | t in s.threads :: Holds(s.jobs, s.log, StakeOf(s.threads[t]))
  }

  ghost predicate StakesFit(s: State) {
    forall t, u | t in s.threads && u in s.threads && t != u ::
      Compatible(StakeOf(s.threads[t]), StakeOf(s.threads[u]))
  }

  ghost predicate Inv(s: State) {
    QueueOk(s.redis, s.log) && SentExists(s) && StakesHold(s) && StakesFit(s)
  }

  // ---------------------------------------------------------------- one step

  /** Only an Enqueue adds to the ids that have been sent. */
  lemma SentGrows(log: seq<Effect>, e: Effect)
    ensures SentAfter(log, e)
  {
    forall job ensures WasSent(log + [e], job) <==> WasSent(log, job) || (e.Sent? && e.p.job == job) {
      if WasSent(log, job) {
        var i :| 0 <= i < |log| && log[i].Sent? && log[i].p.job == job;
        assert (log + [e])[i] == log[i];
      }
      if e.Sent? && e.p.job == job {
        assert (log + [e])[|log|] == e;
      }
    }
  }

  lemma QueueStaysOk(s: State, e: Effect)
    requires QueueOk(s.redis, s.log) && Applicable(s, e)
    requires e.Leased? || e.Returned? ==> WasSent(s.log, e.id)
    ensures QueueOk(Apply(s, e).redis, Apply(s, e).log)
  {
    SentGrows(s.log, e);
  }

  /** What makes a thread's move safe: its new stake holds, and whatever a compatible thread
      relied on still holds and is still compatible. */
  ghost predicate GoodMove(s: State, mine: Stake, e: Effect, next: Stake)
    requires Applicable(s, e)
  {
    && Holds(NewJobs(s, e), s.log + [e], next)
    && (e.Leased? || e.Returned? ==> WasSent(s.log, e.id))
    && (e.Sent? ==> e.p.job in s.jobs)
    && (forall other | Holds(s.jobs, s.log, other) && Compatible(mine, other) ::
          Holds(NewJobs(s, e), s.log + [e], other) && Compatible(next, other))
  }

  /** Who may cause which effect, and what it is left with. */
  predicate Rights(mine: Stake, e: Effect, next: Stake) {
    match e
    case Moved(id, from, to, _) =>
      || (mine == Courier(id) && from == Queued && to == Running && next == Owner(id, true))
      || (mine == Owner(id, true) && from == Running && to in {Success, Retrying} && next == Courier(id))
      || (mine == Owner(id, false) && from == Running && to in {Success, Failed} && next.Bystander?)
      || (mine == Fresh(id) && from == Created && to == Queued && next == Unsent(id))
      || (mine == Unsent(id) && from == Queued && to == Failed && next.Bystander?)
      || (mine == Reader(id) && from == Failed && to == Retrying && next == Releaser(id))
      || (mine == Releaser(id) && from == Retrying && to == Queued && next == Sender(id))
    case JobInserted(id, row) =>
      mine.Bystander?
      && ((row.status == Created && next == Fresh(id)) || (row.status == Running && next == Owner(id, false)))
    case Sent(p, _, _, _) =>
      (mine == Courier(p.job) || mine == Unsent(p.job) || mine == Sender(p.job)) && next.Bystander?
    case Claimed(id, _) => mine.Bystander? && next == Courier(id)
    case Popped(id) => mine.Bystander? && next == Courier(id)
    case Leased(id, _) => mine == Courier(id) && next == mine
    case Returned(id) => mine == Courier(id) && next.Bystander?
    case _ =>
      || next.Bystander? || next == mine
      || (mine.Owner? && mine.delivered && next == Courier(mine.job))
      || (mine.Asker? && next == Reader(mine.job))
      || (mine.Reader? && next == Misser(mine.job))
      || (mine.Fresh? && next == Unsent(mine.job))
  }

  /** A plan stays within the thread's rights, and a move that changes no row lands on a stake
      that holds already. */
  ghost predicate InOrder(s: State, pc: Pc, plan: Option<Plan>) {
    plan.Some? ==>
      && Rights(StakeOf(pc), plan.value.effect, StakeOf(plan.value.next))
      && (plan.value.effect.Moved? || plan.value.effect.JobInserted? || Holds(s.jobs, s.log, StakeOf(plan.value.next)))
  }

  ghost predicate SentAfter(log: seq<Effect>, e: Effect) {
    forall job :: WasSent(log + [e], job) <==> WasSent(log, job) || (e.Sent? && e.p.job == job)
  }

  lemma OthersKeepRow(s: State, mine: Stake, e: Effect, next: Stake, other: Stake)
    requires e.Moved? || e.JobInserted?
    requires Applicable(s, e) && SentExists(s) && Rights(mine, e, next) && SentAfter(s.log, e)
    requires Holds(s.jobs, s.log, mine) && Holds(s.jobs, s.log, other) && Compatible(mine, other)
    ensures Holds(NewJobs(s, e), s.log + [e], other)
    ensures Compatible(next, other)
  {}

  lemma OthersKeepRest(s: State, mine: Stake, e: Effect, next: Stake, other: Stake)
    requires !e.Moved? && !e.JobInserted?
    requires Applicable(s, e) && Rights(mine, e, next) && SentAfter(s.log, e)
    requires Holds(s.jobs, s.log, mine) && Holds(s.jobs, s.log, other) && Compatible(mine, other)
    requires Holds(s.jobs, s.log, next)
    ensures Holds(s.jobs, s.log + [e], other)
    ensures Compatible(next, other)
  {}

  lemma MineHolds(s: State, mine: Stake, e: Effect, next: Stake)
    requires Applicable(s, e) && SentExists(s) && Rights(mine, e, next)
    requires Holds(s.jobs, s.log, mine)
    requires e.Moved? || e.JobInserted? || Holds(s.jobs, s.log, next)
    requires SentAfter(s.log, e)
    ensures Holds(NewJobs(s, e), s.log + [e], next)
  {
    match e
    case Moved(id, from, to, stamp) =>
    case JobInserted(id, row) =>
    case _ => assert NewJobs(s, e) == s.jobs;
  }

  lemma RightsSuffice(s: State, mine: Stake, e: Effect, next: Stake)
    requires Applicable(s, e) && Holds(s.jobs, s.log, mine) && SentExists(s)
    requires Rights(mine, e, next)
    requires e.Moved? || e.JobInserted? || Holds(s.jobs, s.log, next)
    ensures GoodMove(s, mine, e, next)
  {
    SentGrows(s.log, e);
    MineHolds(s, mine, e, next);
    assert e.Sent? ==> e.p.job in s.jobs;
    forall other | Holds(s.jobs, s.log, other) && Compatible(mine, other)
      ensures Holds(NewJobs(s, e), s.log + [e], other) && Compatible(next, other)
    {
      if e.Moved? || e.JobInserted? {
        OthersKeepRow(s, mine, e, next, other);
      } else {
        OthersKeepRest(s, mine, e, next, other);
      }
    }
  }

  lemma WorkerInOrder(cfg: Config, s: State, pc: Pc, c: Choice)
    requires InQueue(pc) || InProcess(pc) || InFailure(pc)
    requires QueueOk(s.redis, s.log) && Holds(s.jobs, s.log, StakeOf(pc))
    ensures InOrder(s, pc, PlanOf(cfg, s, pc, c))
  {
    if InQueue(pc) {
      QueueInOrder(cfg, s, pc, c);
    } else if InProcess(pc) {
      ProcessInOrder(cfg, s, pc, c);
    } else {
      FailureInOrder(s, pc, c);
    }
  }

  lemma PlansInOrder(cfg: Config, s: State, pc: Pc, c: Choice)
    requires cfg.honestCreate
    requires QueueOk(s.redis, s.log) && Holds(s.jobs, s.log, StakeOf(pc))
    ensures InOrder(s, pc, PlanOf(cfg, s, pc, c))
  {
    if InQueue(pc) || InProcess(pc) || InFailure(pc) {
      WorkerInOrder(cfg, s, pc, c);
    } else if InCreate(pc) {
      CreateInOrder(cfg, s, pc, c);
    } else if InRetry(pc) {
      RetryInOrder(cfg, s, pc, c);
    } else if InSync(pc) {
      SyncInOrder(s, pc, c);
    } else if pc.MarkingFailed? {
      MarkFailedInOrder(s, pc, c);
    }
  }

  lemma QueueInOrder(cfg: Config, s: State, pc: Pc, c: Choice)
    requires QueueOk(s.redis, s.log) && Holds(s.jobs, s.log, StakeOf(pc))
    ensures InOrder(s, pc, QueuePlan(cfg, s, pc, c))
  {}

  lemma ProcessInOrder(cfg: Config, s: State, pc: Pc, c: Choice)
    requires Holds(s.jobs, s.log, StakeOf(pc))
    ensures InOrder(s, pc, ProcessPlan(cfg, s, pc, c))
  {}

  lemma FailureInOrder(s: State, pc: Pc, c: Choice)
    requires Holds(s.jobs, s.log, StakeOf(pc))
    ensures InOrder(s, pc, FailurePlan(s, pc, c))
  {}

  lemma CreateInOrder(cfg: Config, s: State, pc: Pc, c: Choice)
    requires cfg.honestCreate && Holds(s.jobs, s.log, StakeOf(pc))
    ensures InOrder(s, pc, CreatePlan(cfg, s, pc, c))
  {}

  lemma ReleaseInOrder(cfg: Config, s: State, pc: Pc, c: Choice)
    requires (pc.Asking? || pc.ReleasingFailed? || pc.ReleasingRunning?) && Holds(s.jobs, s.log, StakeOf(pc))
    ensures InOrder(s, pc, RetryPlan(cfg, s, pc, c))
  {}

  lemma RequeueInOrder(cfg: Config, s: State, pc: Pc, c: Choice)
    requires pc.RequeueingCreated? || pc.RequeueingRetrying? || pc.ResendingRetry?
    requires Holds(s.jobs, s.log, StakeOf(pc))
    ensures InOrder(s, pc, RetryPlan(cfg, s, pc, c))
  {}

  lemma RetryInOrder(cfg: Config, s: State, pc: Pc, c: Choice)
    requires InRetry(pc) && Holds(s.jobs, s.log, StakeOf(pc))
    ensures InOrder(s, pc, RetryPlan(cfg, s, pc, c))
  {
    if pc.Asking? || pc.ReleasingFailed? || pc.ReleasingRunning? {
      ReleaseInOrder(cfg, s, pc, c);
    } else {
      RequeueInOrder(cfg, s, pc, c);
    }
  }

  lemma SyncInOrder(s: State, pc: Pc, c: Choice)
    requires Holds(s.jobs, s.log, StakeOf(pc))
    ensures InOrder(s, pc, SyncPlan(s, pc, c))
  {}

  lemma MarkFailedInOrder(s: State, pc: Pc, c: Choice)
    requires pc.MarkingFailed? && Holds(s.jobs, s.log, StakeOf(pc))
    ensures InOrder(s, pc, MarkFailedPlan(s, pc, c))
  {}

  lemma EffectKeepsInv(s: State, t: ThreadId, e: Effect, next: Pc)
    requires Inv(s) && t in s.threads && Applicable(s, e)
    requires Rights(StakeOf(s.threads[t]), e, StakeOf(next))
    requires e.Moved? || e.JobInserted? || Holds(s.jobs, s.log, StakeOf(next))
    ensures Inv(Apply(s, e).(threads := s.threads[t := next]))
  {
    var mine := StakeOf(s.threads[t]);
    RightsSuffice(s, mine, e, StakeOf(next));
    QueueStaysOk(s, e);
    SentGrows(s.log, e);
    var s' := Apply(s, e).(threads := s.threads[t := next]);
    forall u | u in s'.threads ensures Holds(s'.jobs, s'.log, StakeOf(s'.threads[u])) {
      if u != t {
        assert Compatible(mine, StakeOf(s.threads[u]));
      }
    }
  }

  lemma CrashKeepsInv(s: State, t: ThreadId)
    requires Inv(s) && t in s.threads
    ensures Inv(Apply(s, CrashEffect(s.threads[t])).(threads := s.threads - {t}))
  {
    var e, s' := CrashEffect(s.threads[t]), Apply(s, CrashEffect(s.threads[t])).(threads := s.threads - {t});
    SentGrows(s.log, e);
    assert s'.jobs == s.jobs && s'.redis == s.redis;
    forall u | u in s'.threads ensures Holds(s'.jobs, s'.log, StakeOf(s'.threads[u])) {
      assert Holds(s.jobs, s.log, StakeOf(s.threads[u]));
    }
  }

  lemma SpawnKeepsInv(s: State, t: ThreadId, pc: Pc)
    requires Inv(s) && t !in s.threads && EntryPoint(pc)
    requires pc.Asking? ==> !RetryInFlight(s, pc.job)
    ensures Inv(s.(threads := s.threads[t := pc]))
  {
    forall u | u in s.threads ensures Compatible(StakeOf(s.threads[u]), StakeOf(pc)) {
      if pc.Asking? && IsRetrier(StakeOf(s.threads[u])) {
        assert InRetry(s.threads[u]) && StakeOf(s.threads[u]).job == s.threads[u].job;
      }
    }
  }

  /** The invariant survives every step. */
  lemma StepKeepsInv(cfg: Config, s: State, e: Event)
    requires cfg.serialRetry && cfg.honestCreate && Inv(s)
    requires Step(cfg, s, e).Some?
    ensures Inv(Step(cfg, s, e).value)
  {
    match e
    case Tick(_) =>
    case Spawn(t, pc) => SpawnKeepsInv(s, t, pc);
    case Do(t, c) =>
      PlansInOrder(cfg, s, s.threads[t], c);
      var plan := PlanOf(cfg, s, s.threads[t], c).value;
      EffectKeepsInv(s, t, plan.effect, plan.next);
    case Crash(t) => CrashKeepsInv(s, t);
  }

  // ---------------------------------------------------------------- whole runs

  lemma {:induction false} RunKeepsInv(cfg: Config, states: seq<State>, events: seq<Event>, i: nat)
    requires cfg.serialRetry && cfg.honestCreate && IsRun(cfg, states, events) && i < |states|
    ensures Inv(states[i])
  {
    if i > 0 {
      RunKeepsInv(cfg, states, events, i - 1);
      assert Follows(cfg, states, events, i - 1);
      StepKeepsInv(cfg, states[i - 1], events[i - 1]);
    }
  }

  /** The thread is between its successful claim of `job` and its next status update of it; for
      CreateSync, between the INSERT as RUNNING and that update. */
  predicate Executes(pc: Pc, job: Id) {
    StakeOf(pc).Owner? && StakeOf(pc).job == job
  }

  /** No two threads execute the same job. */
  ghost predicate Exclusive(s: State) {
    forall t, u, job |
      t in s.threads && u in s.threads && Executes(s.threads[t], job) && Executes(s.threads[u], job) :: t == u
  }

  /** A thread that executes a job finds its row RUNNING. */
  ghost predicate RunningWhileExecuting(s: State) {
    forall t, job | t in s.threads && Executes(s.threads[t], job) :: CanMove(s.jobs, job, Running)
  }

  /** In every state of every run: one executor per job at most, and its row is RUNNING. */
  lemma ExclusiveExecution(cfg: Config, s: State)
    requires cfg.serialRetry && cfg.honestCreate && Reachable(cfg, s)
    ensures Exclusive(s) && RunningWhileExecuting(s)
  {
    var states, events :| IsRun(cfg, states, events) && states[|events|] == s;
    RunKeepsInv(cfg, states, events, |events|);
    forall t, u, job | t in s.threads && u in s.threads && Executes(s.threads[t], job) && Executes(s.threads[u], job)
      ensures t == u
    {
      assert t != u ==> Compatible(StakeOf(s.threads[t]), StakeOf(s.threads[u]));
    }
    forall t, job | t in s.threads && Executes(s.threads[t], job) ensures CanMove(s.jobs, job, Running) {
      assert Holds(s.jobs, s.log, StakeOf(s.threads[t]));
    }
  }
}
