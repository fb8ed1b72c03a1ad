/** What becomes of jobs that fail. The worker's retry strands the job it is meant to run again, and its
    dead-letter path asks for a state its own row is not in. */
module RetryFate {
  import opened JobTypes
  import opened JobStore
  import opened RedisStore
  import opened Protocol
  import opened PlanShape
  import opened Exclusion

  // ---------------------------------------------------------------- DEAD is never reached

  ghost predicate NoneDead(s: State) {
    forall job | job in s.jobs :: s.jobs[job].status !in {Dead, Cancelled}
  }

  lemma StepKeepsNoneDead(cfg: Config, s: State, e: Event)
    requires cfg.serialRetry && cfg.honestCreate && Inv(s) && NoneDead(s)
    requires Step(cfg, s, e).Some?
    ensures NoneDead(Step(cfg, s, e).value)
  {
    if e.Do? {
      PlansInOrder(cfg, s, s.threads[e.t], e.c);
    }
  }

  lemma {:induction false} RunKeepsNoneDead(cfg: Config, states: seq<State>, events: seq<Event>, i: nat)
    requires cfg.serialRetry && cfg.honestCreate && IsRun(cfg, states, events) && i < |states|
    ensures NoneDead(states[i])
  {
    if i > 0 {
      RunKeepsNoneDead(cfg, states, events, i - 1);
      RunKeepsInv(cfg, states, events, i - 1);
      assert Follows(cfg, states, events, i - 1);
      StepKeepsNoneDead(cfg, states[i - 1], events[i - 1]);
    }
  }

  /** While execution is exclusive no job is marked DEAD (or CANCELLED): MarkDead asks for a RETRYING
      row, and the worker that calls it holds the row RUNNING. */
  lemma DeadIsUnreachable(cfg: Config, s: State)
    requires cfg.serialRetry && cfg.honestCreate && Reachable(cfg, s)
    ensures forall job | job in s.jobs :: s.jobs[job].status !in {Dead, Cancelled}
  {
    var states, events :| IsRun(cfg, states, events) && states[|events|] == s;
    RunKeepsNoneDead(cfg, states, events, |events|);
  }

  // ---------------------------------------------------------------- a worker's retry strands the job

  /** The row is RETRYING and no Retry call is about to move it on. */
  ghost predicate Stranded(s: State, job: Id) {
    CanMove(s.jobs, job, Retrying) && forall t | t in s.threads :: StakeOf(s.threads[t]) != Releaser(job)
  }

  lemma StepKeepsStranded(cfg: Config, s: State, e: Event, job: Id)
    requires cfg.serialRetry && cfg.honestCreate && Inv(s) && Stranded(s, job)
    requires Step(cfg, s, e).Some?
    ensures Stranded(Step(cfg, s, e).value, job)
  {
    if e.Do? {
      PlansInOrder(cfg, s, s.threads[e.t], e.c);
    }
  }

  lemma {:induction false} StrandedForever(cfg: Config, states: seq<State>, events: seq<Event>, i: nat, k: nat, job: Id)
    requires cfg.serialRetry && cfg.honestCreate && IsRun(cfg, states, events) && i <= k < |states|
    requires Stranded(states[i], job)
    ensures Stranded(states[k], job)
    decreases k
  {
    if i < k {
      StrandedForever(cfg, states, events, i, k - 1, job);
      RunKeepsInv(cfg, states, events, k - 1);
      assert Follows(cfg, states, events, k - 1);
      StepKeepsStranded(cfg, states[k - 1], events[k - 1], job);
    }
  }

  /** Thread `t`, a worker in handleFailure, marks its job RETRYING in step `i` of the run. */
  ghost predicate WorkerRetries(states: seq<State>, events: seq<Event>, i: nat, t: ThreadId, job: Id) {
    && i < |events| && i + 1 < |states|
    && events[i] == Do(t, Run) && t in states[i].threads
    && (states[i].threads[t].RetryingFailed? || states[i].threads[t].RetryingRunning?)
    && states[i].threads[t].p.job == job
    && !CanMove(states[i].jobs, job, Retrying) && CanMove(states[i + 1].jobs, job, Retrying)
  }

  ghost predicate Unexecuted(s: State, job: Id) {
    forall t | t in s.threads :: !Executes(s.threads[t], job)
  }

  /** While execution is exclusive, a job that a worker has marked RETRYING stays RETRYING for ever and is
      never executed again: the backoff re-enqueue only delivers an id that MarkRunning refuses. */
  lemma RetriedJobNeverRunsAgain(cfg: Config, states: seq<State>, events: seq<Event>, i: nat, t: ThreadId, job: Id,
      k: nat)
    requires cfg.serialRetry && cfg.honestCreate && IsRun(cfg, states, events)
    requires WorkerRetries(states, events, i, t, job) && i < k < |states|
    ensures CanMove(states[k].jobs, job, Retrying) && Unexecuted(states[k], job)
  {
    var s, s' := states[i], states[i + 1];
    RunKeepsInv(cfg, states, events, i);
    assert Follows(cfg, states, events, i);
    forall u | u in s'.threads ensures StakeOf(s'.threads[u]) != Releaser(job) {
      if u != t {
        assert Holds(s.jobs, s.log, StakeOf(s.threads[u]));
        assert Holds(s.jobs, s.log, StakeOf(s.threads[t]));
      }
    }
    StrandedForever(cfg, states, events, i + 1, k, job);
    RunKeepsInv(cfg, states, events, k);
    forall u | u in states[k].threads ensures !Executes(states[k].threads[u], job) {
      assert Holds(states[k].jobs, states[k].log, StakeOf(states[k].threads[u]));
    }
  }

  // ---------------------------------------------------------------- an abandoned job stays RUNNING

  /** The row is RUNNING and nobody executes the job. */
  ghost predicate Abandoned(s: State, job: Id) {
    CanMove(s.jobs, job, Running) && Unexecuted(s, job)
  }

  lemma StepKeepsAbandoned(cfg: Config, s: State, e: Event, job: Id)
    requires cfg.serialRetry && cfg.honestCreate && Inv(s) && Abandoned(s, job)
    requires Step(cfg, s, e).Some?
    ensures Abandoned(Step(cfg, s, e).value, job)
  {
    if e.Do? {
      PlansInOrder(cfg, s, s.threads[e.t], e.c);
    }
  }

  lemma {:induction false} AbandonedForever(cfg: Config, states: seq<State>, events: seq<Event>, i: nat, k: nat,
      job: Id)
    requires cfg.serialRetry && cfg.honestCreate && IsRun(cfg, states, events) && i <= k < |states|
    requires Abandoned(states[i], job)
    ensures Abandoned(states[k], job)
    decreases k
  {
    if i < k {
      AbandonedForever(cfg, states, events, i, k - 1, job);
      RunKeepsInv(cfg, states, events, k - 1);
      assert Follows(cfg, states, events, k - 1);
      StepKeepsAbandoned(cfg, states[k - 1], events[k - 1], job);
    }
  }

  /** The executor of `job` dies, or its attempts are used up and it gets past MarkDead. */
  predicate GivesUp(s: State, e: Event, job: Id) {
    match e
    case Crash(t) => t in s.threads && Executes(s.threads[t], job)
    case Do(t, _) => t in s.threads && s.threads[t].MarkingDead? && s.threads[t].p.job == job
    case _ => false
  }

  lemma OnlyExecutor(s: State, t: ThreadId, job: Id)
    requires Inv(s) && t in s.threads && Executes(s.threads[t], job)
    ensures CanMove(s.jobs, job, Running)
    ensures forall u | u in s.threads && u != t :: !Executes(s.threads[u], job)
  {
    assert Holds(s.jobs, s.log, StakeOf(s.threads[t]));
    forall u | u in s.threads && u != t ensures !Executes(s.threads[u], job) {
      assert Compatible(StakeOf(s.threads[u]), StakeOf(s.threads[t]));
    }
  }

  lemma MarkDeadMisses(s: State, p: Payload, code: ErrorCode, c: Choice)
    requires CanMove(s.jobs, p.job, Running)
    ensures FailurePlan(s, MarkingDead(p, code), c) in {None, Some(Plan(Silent, Burying(p)))}
  {}

  lemma GivingUpAbandons(cfg: Config, s: State, e: Event, s': State, job: Id)
    requires cfg.serialRetry && cfg.honestCreate && Inv(s) && GivesUp(s, e, job) && Step(cfg, s, e) == Some(s')
    ensures Abandoned(s', job)
  {
    assert Executes(s.threads[e.t], job);
    OnlyExecutor(s, e.t, job);
    if e.Do? {
      MarkDeadMisses(s, s.threads[e.t].p, s.threads[e.t].code, e.c);
    }
  }

  /** While execution is exclusive, a job whose executor has died or has used up its attempts stays RUNNING
      for ever and is never executed again, whatever the sweeps deliver. */
  lemma AbandonedJobStaysRunning(cfg: Config, states: seq<State>, events: seq<Event>, i: nat, job: Id, k: nat)
    requires cfg.serialRetry && cfg.honestCreate && IsRun(cfg, states, events)
    requires i < |events| && GivesUp(states[i], events[i], job) && i < k < |states|
    ensures CanMove(states[k].jobs, job, Running) && Unexecuted(states[k], job)
  {
    RunKeepsInv(cfg, states, events, i);
    assert Follows(cfg, states, events, i);
    GivingUpAbandons(cfg, states[i], events[i], states[i + 1], job);
    AbandonedForever(cfg, states, events, i + 1, k, job);
  }

  // ---------------------------------------------------------------- in every configuration

  /** The job whose row the thread is about to queue. */
  function Hand(pc: Pc): Option<Id> {
    match pc
    case RequeueingCreated(job, _) => Some(job)
    case RequeueingRetrying(job, _) => Some(job)
    case QueueingCreated(_, job) => Some(job)
    case QueueingRetrying(_, job) => Some(job)
    case _ => None
  }

  predicate PastCreated(jobs: Jobs, job: Id) {
    job in jobs && jobs[job].status != Created
  }

  /** A Retry that has released the row finds it RETRYING or DEAD, a CreateAsync that has just inserted
      it finds it CREATED, and later no creator does. */
  predicate HandOk(jobs: Jobs, pc: Pc) {
    match pc
    case RequeueingCreated(job, _) => job in jobs && jobs[job].status in {Retrying, Dead}
    case RequeueingRetrying(job, _) => job in jobs && jobs[job].status in {Retrying, Dead}
    case QueueingCreated(_, job) => CanMove(jobs, job, Created)
    case QueueingRetrying(_, _) => false
    case Sending(_, job) => PastCreated(jobs, job)
    case MarkingFailed(job, _, _, _) => PastCreated(jobs, job)
    case SyncInferring(job) => PastCreated(jobs, job)
    case SyncPersisting(job) => PastCreated(jobs, job)
    case SyncSucceeding(job) => PastCreated(jobs, job)
    case _ => true
  }

  /** Rows are queued, and leave CREATED, by the thread that has them in hand; a row gets into a
      thread's hand by its INSERT or by a release of a FAILED or RUNNING row. */
  predicate HandMove(pc: Pc, e: Effect, next: Pc) {
    && (e.Moved? ==> CodeEdge(e.from, e.to))
    && (e.Moved? && e.to == Queued ==> Hand(pc) == Some(e.id) && Hand(next) == None)
    && (e.Moved? && e.from == Created ==> Hand(pc) == Some(e.id) || (pc.MarkingFailed? && pc.job == e.id))
    && (Hand(next).Some? ==>
          || Hand(pc) == Hand(next)
          || (e.Moved? && Hand(next) == Some(e.id) && e.from in {Failed, Running} && e.to == Retrying)
          || (e.JobInserted? && Hand(next) == Some(e.id)))
  }

  ghost predicate HandInv(s: State) {
    && (forall t | t in s.threads :: HandOk(s.jobs, s.threads[t]))
    && forall t, u | t in s.threads && u in s.threads && t != u && Hand(s.threads[t]).Some? ::
         Hand(s.threads[t]) != Hand(s.threads[u])
  }

  ghost predicate HandStep(s: State, pc: Pc, plan: Option<Plan>) {
    plan.Some? && Applicable(s, plan.value.effect) ==>
      HandOk(NewJobs(s, plan.value.effect), plan.value.next) && HandMove(pc, plan.value.effect, plan.value.next)
  }

  lemma QueueHands(cfg: Config, s: State, pc: Pc, c: Choice)
    ensures HandStep(s, pc, QueuePlan(cfg, s, pc, c))
  {}

  lemma ProcessHands(cfg: Config, s: State, pc: Pc, c: Choice)
    ensures HandStep(s, pc, ProcessPlan(cfg, s, pc, c))
  {}

  lemma FailureHands(s: State, pc: Pc, c: Choice)
    ensures HandStep(s, pc, FailurePlan(s, pc, c))
  {}

  lemma CreateHands(cfg: Config, s: State, pc: Pc, c: Choice)
    requires HandOk(s.jobs, pc)
    ensures HandStep(s, pc, CreatePlan(cfg, s, pc, c))
  {}

  lemma RetryHands(cfg: Config, s: State, pc: Pc, c: Choice)
    requires HandOk(s.jobs, pc)
    ensures HandStep(s, pc, RetryPlan(cfg, s, pc, c))
  {}

  lemma SyncHands(s: State, pc: Pc, c: Choice)
    requires HandOk(s.jobs, pc)
    ensures HandStep(s, pc, SyncPlan(s, pc, c))
  {}

  lemma MarkFailedHands(s: State, pc: Pc, c: Choice)
    requires pc.MarkingFailed? && HandOk(s.jobs, pc)
    ensures HandStep(s, pc, MarkFailedPlan(s, pc, c))
  {}

  lemma PlanHands(cfg: Config, s: State, pc: Pc, c: Choice)
    requires HandOk(s.jobs, pc)
    ensures HandStep(s, pc, PlanOf(cfg, s, pc, c))
  {
    if InQueue(pc) {
      QueueHands(cfg, s, pc, c);
    } else if InProcess(pc) {
      ProcessHands(cfg, s, pc, c);
    } else if InFailure(pc) {
      FailureHands(s, pc, c);
    } else if InCreate(pc) {
      CreateHands(cfg, s, pc, c);
    } else if InRetry(pc) {
      RetryHands(cfg, s, pc, c);
    } else if InSync(pc) {
      SyncHands(s, pc, c);
    } else if pc.MarkingFailed? {
      MarkFailedHands(s, pc, c);
    }
  }

  lemma OthersKeepHands(s: State, pc: Pc, e: Effect, next: Pc, other: Pc)
    requires Applicable(s, e) && HandOk(s.jobs, pc) && HandOk(s.jobs, other) && HandMove(pc, e, next)
    requires Hand(other).Some? ==> Hand(other) != Hand(pc)
    ensures HandOk(NewJobs(s, e), other)
    ensures Hand(next).Some? ==> Hand(other) != Hand(next)
  {}

  lemma EffectKeepsHands(s: State, t: ThreadId, plan: Plan)
    requires HandInv(s) && t in s.threads && Applicable(s, plan.effect)
    requires HandStep(s, s.threads[t], Some(plan))
    ensures HandInv(Apply(s, plan.effect).(threads := s.threads[t := plan.next]))
  {
    forall u | u in s.threads && u != t
      ensures HandOk(NewJobs(s, plan.effect), s.threads[u])
      ensures Hand(plan.next).Some? ==> Hand(s.threads[u]) != Hand(plan.next)
    {
      OthersKeepHands(s, s.threads[t], plan.effect, plan.next, s.threads[u]);
    }
  }

  lemma StepKeepsHands(cfg: Config, s: State, e: Event)
    requires HandInv(s) && Step(cfg, s, e).Some?
    ensures HandInv(Step(cfg, s, e).value)
  {
    match e
    case Tick(_) =>
    case Spawn(t, pc) => assert HandOk(s.jobs, pc) && Hand(pc) == None;
    case Do(t, c) =>
      PlanHands(cfg, s, s.threads[t], c);
      EffectKeepsHands(s, t, PlanOf(cfg, s, s.threads[t], c).value);
    case Crash(t) => assert NewJobs(s, CrashEffect(s.threads[t])) == s.jobs;
  }

  lemma {:induction false} RunKeepsHands(cfg: Config, states: seq<State>, events: seq<Event>, i: nat)
    requires IsRun(cfg, states, events) && i < |states|
    ensures HandInv(states[i])
  {
    if i > 0 {
      RunKeepsHands(cfg, states, events, i - 1);
      assert Follows(cfg, states, events, i - 1);
      StepKeepsHands(cfg, states[i - 1], events[i - 1]);
    }
  }

  /** The row is RETRYING or DEAD and in nobody's hand: nothing can queue it any more. */
  ghost predicate Settled(s: State, job: Id) {
    job in s.jobs && s.jobs[job].status in {Retrying, Dead}
    && forall t | t in s.threads :: Hand(s.threads[t]) != Some(job)
  }

  lemma StepKeepsSettled(cfg: Config, s: State, e: Event, job: Id)
    requires HandInv(s) && Settled(s, job) && Step(cfg, s, e).Some?
    ensures Settled(Step(cfg, s, e).value, job)
  {
    if e.Do? {
      PlanHands(cfg, s, s.threads[e.t], e.c);
    }
  }

  lemma SettledNext(cfg: Config, states: seq<State>, events: seq<Event>, i: nat, job: Id)
    requires IsRun(cfg, states, events) && i < |events| && Settled(states[i], job)
    ensures Settled(states[i + 1], job)
  {
    RunKeepsHands(cfg, states, events, i);
    assert Follows(cfg, states, events, i);
    StepKeepsSettled(cfg, states[i], events[i], job);
  }

  lemma {:induction false} SettledForever(cfg: Config, states: seq<State>, events: seq<Event>, i: nat, k: nat, job: Id)
    requires IsRun(cfg, states, events) && i <= k < |states| && Settled(states[i], job)
    ensures Settled(states[k], job)
    decreases k
  {
    if i < k {
      SettledForever(cfg, states, events, i, k - 1, job);
      SettledNext(cfg, states, events, k - 1, job);
    }
  }

  /** Whatever the configuration: once a worker has marked a job RETRYING, its row is RETRYING or DEAD
      for ever. MarkRunning therefore refuses the re-enqueued payload and every other delivery. */
  lemma RetriedJobNeverStartsAgain(cfg: Config, states: seq<State>, events: seq<Event>, i: nat, t: ThreadId, job: Id,
      k: nat)
    requires IsRun(cfg, states, events) && WorkerRetries(states, events, i, t, job) && i < k < |states|
    ensures job in states[k].jobs && states[k].jobs[job].status in {Retrying, Dead}
  {
    var s, s' := states[i], states[i + 1];
    RunKeepsHands(cfg, states, events, i);
    assert Follows(cfg, states, events, i);
    WorkerRetrySettles(cfg, s, t, s', job);
    SettledForever(cfg, states, events, i + 1, k, job);
  }

  lemma WorkerRetrySettles(cfg: Config, s: State, t: ThreadId, s': State, job: Id)
    requires HandInv(s) && t in s.threads && Step(cfg, s, Do(t, Run)) == Some(s')
    requires (s.threads[t].RetryingFailed? || s.threads[t].RetryingRunning?) && s.threads[t].p.job == job
    requires !CanMove(s.jobs, job, Retrying) && CanMove(s'.jobs, job, Retrying)
    ensures Settled(s', job)
  {
    assert job in s.jobs && s.jobs[job].status in {Failed, Running};
    forall u | u in s'.threads ensures Hand(s'.threads[u]) != Some(job) {
      if u != t {
        assert HandOk(s.jobs, s.threads[u]);
      }
    }
  }
}
