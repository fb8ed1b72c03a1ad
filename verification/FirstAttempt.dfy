/** Jobs whose first attempt was enqueued: if CreateAsync's Enqueue reports no false error, such a job is
    queued once and started once, however Retry calls overlap. */
module FirstAttempt {
  import opened JobTypes
  import opened JobStore
  import opened RedisStore
  import opened Protocol
  import opened Exclusion

  // ---------------------------------------------------------------- what holds

  /** CreateAsync has enqueued this id. */
  ghost predicate SentByCreate(log: seq<Effect>, job: Id) {
    exists i :: 0 <= i < |log| && log[i].Sent? && log[i].origin == ByCreate && log[i].p.job == job
  }

  predicate Past(jobs: Jobs, job: Id) {
    job in jobs && jobs[job].status !in {Created, Failed}
  }

  /** A thread that has inserted the row, or a Retry that has read it. */
  predicate IsOrigin(a: Stake) {
    a.Fresh? || a.Unsent? || (a.Owner? && !a.delivered)
  }

  predicate IsHandler(a: Stake) {
    a.Reader? || a.Misser? || a.Releaser? || a.Sender?
  }

  /** What the thread may rely on about its job: `sent` says whether any client has enqueued it, `first`
      whether CreateAsync has. */
  predicate ReliesOn(jobs: Jobs, stake: Stake, sent: bool, first: bool) {
    match stake
    case Bystander => true
    case Courier(_) => sent
    case Owner(job, delivered) =>
      if delivered then sent && (first ==> !CanMove(jobs, job, Queued)) else CanMove(jobs, job, Running) && !sent
    case Fresh(job) => CanMove(jobs, job, Created) && !sent
    case Unsent(job) => CanMove(jobs, job, Queued) && !sent
    case Asker(_) => true
    case Reader(job) => job in jobs && jobs[job].status != Created && (first ==> jobs[job].status == Dead)
    case Misser(job) => Past(jobs, job) && (first ==> jobs[job].status == Dead)
    case Releaser(job) => Past(jobs, job) && !first
    case Sender(job) => Past(jobs, job) && !first
    case Impossible(_) => false
  }

  ghost predicate Relies(jobs: Jobs, log: seq<Effect>, stake: Stake) {
    stake.Bystander? || ReliesOn(jobs, stake, WasSent(log, stake.job), SentByCreate(log, stake.job))
  }

  /** Stakes two different threads can have in one job at the same time. */
  predicate CoexistOn(a: Stake, b: Stake, first: bool) {
    && !(IsOrigin(a) && (IsOrigin(b) || IsHandler(b)))
    && !(IsHandler(a) && IsOrigin(b))
    && (a.Owner? && b.Owner? ==> !first)
  }

  ghost predicate Coexist(log: seq<Effect>, a: Stake, b: Stake) {
    a.Bystander? || b.Bystander? || a.job != b.job || CoexistOn(a, b, SentByCreate(log, a.job))
  }

  /** Enqueued rows are neither CREATED nor FAILED. */
  ghost predicate SentArePast(jobs: Jobs, log: seq<Effect>) {
    forall job | WasSent(log, job) :: Past(jobs, job)
  }

  /** Rows that have been queued count an attempt, and so does what a Retry has read of them. */
  predicate Counted(row: JobRow) {
    row.status != Created ==> row.attempts >= 1
  }

  predicate ReadCounts(pc: Pc) {
    InRetry(pc) && !pc.Asking? ==> pc.attempts >= 1
  }

  predicate SendCounts(e: Effect) {
    e.Sent? && e.origin == ByRetry ==> e.p.attempt >= 2
  }

  ghost predicate CountsOk(s: State) {
    && (forall job | job in s.jobs :: Counted(s.jobs[job]))
    && (forall t | t in s.threads :: ReadCounts(s.threads[t]))
    && forall i | 0 <= i < |s.log| :: SendCounts(s.log[i])
  }

  ghost predicate StakesOk(s: State) {
    && (forall t | t in s.threads :: Relies(s.jobs, s.log, StakeOf(s.threads[t])))
    && forall t, u | t in s.threads && u in s.threads && t != u ::
         Coexist(s.log, StakeOf(s.threads[t]), StakeOf(s.threads[u]))
  }

  ghost predicate FirstInv(s: State) {
    QueueOk(s.redis, s.log) && SentArePast(s.jobs, s.log) && CountsOk(s) && StakesOk(s)
  }

  // ---------------------------------------------------------------- one step

  /** The rights of exclusive execution, a stale Retry's release of a RUNNING row, and MarkDead. */
  predicate WiderRights(mine: Stake, e: Effect, next: Stake) {
    || Rights(mine, e, next)
    || (e.Moved? && mine == Owner(e.id, true) && e.from == Retrying && e.to == Dead && next == Courier(e.id))
    || (e.Moved? && mine == Misser(e.id) && e.from == Running && e.to == Retrying && next == Releaser(e.id))
  }

  /** The effect keeps the counts. */
  predicate CountStepOk(e: Effect, next: Pc) {
    && ReadCounts(next) && SendCounts(e)
    && (e.Moved? ==> (e.from == Created ==> e.stamp.QueuedStamp?) && (e.stamp.QueuedStamp? ==> e.stamp.attempts >= 1))
    && (e.JobInserted? ==> Counted(e.row))
  }

  /** CreateAsync sends the row it has queued, and Retry goes on only with a FAILED or DEAD one. */
  predicate FollowsRow(jobs: Jobs, mine: Stake, e: Effect, next: Stake) {
    && (e.Sent? && e.origin == ByCreate ==> mine == Unsent(e.p.job))
    && (mine.Asker? && next.Reader? ==> CanMove(jobs, next.job, Failed) || CanMove(jobs, next.job, Dead))
  }

  ghost predicate Orderly(s: State, pc: Pc, plan: Option<Plan>) {
    plan.Some? ==>
      var e, next := plan.value.effect, plan.value.next;
      && WiderRights(StakeOf(pc), e, StakeOf(next)) && CountStepOk(e, next)
      && FollowsRow(s.jobs, StakeOf(pc), e, StakeOf(next))
      && (e.Moved? || e.JobInserted? || Relies(s.jobs, s.log, StakeOf(next)))
  }

  /** The same for a step that stays with the thread's job, which any client (`sent`) and CreateAsync (`first`)
      may have enqueued. */
  predicate OrderlyOn(s: State, pc: Pc, plan: Option<Plan>, sent: bool, first: bool) {
    plan.Some? ==>
      var e, mine, next := plan.value.effect, StakeOf(pc), StakeOf(plan.value.next);
      && WiderRights(mine, e, next) && CountStepOk(e, plan.value.next) && FollowsRow(s.jobs, mine, e, next)
      && (e.Moved? || e.JobInserted? || next.Bystander?
          || (!mine.Bystander? && next.job == mine.job && ReliesOn(s.jobs, next, sent, first)))
  }

  /** What is known before it. */
  predicate Ready(s: State, pc: Pc, sent: bool, first: bool) {
    var mine := StakeOf(pc);
    && ReliesOn(s.jobs, mine, sent, first) && (first ==> sent) && ReadCounts(pc)
    && (!mine.Bystander? && mine.job in s.jobs ==> Counted(s.jobs[mine.job]))
    && (!mine.Bystander? && sent ==> Past(s.jobs, mine.job))
  }

  lemma QueueOrderly(cfg: Config, s: State, pc: Pc, c: Choice)
    requires InQueue(pc) && QueueOk(s.redis, s.log) && Relies(s.jobs, s.log, StakeOf(pc))
    ensures Orderly(s, pc, QueuePlan(cfg, s, pc, c))
  {
    QueueInOrder(cfg, s, pc, c);
  }

  lemma ProcessOrderly(cfg: Config, s: State, pc: Pc, c: Choice, sent: bool, first: bool)
    requires Ready(s, pc, sent, first)
    ensures OrderlyOn(s, pc, ProcessPlan(cfg, s, pc, c), sent, first)
  {}

  lemma ReleasingOrderly(s: State, pc: Pc, c: Choice, sent: bool, first: bool)
    requires (pc.RetryingFailed? || pc.RetryingRunning?) && Ready(s, pc, sent, first)
    ensures OrderlyOn(s, pc, FailurePlan(s, pc, c), sent, first)
  {}

  lemma FailureOrderly(s: State, pc: Pc, c: Choice, sent: bool, first: bool)
    requires InFailure(pc) && Ready(s, pc, sent, first)
    ensures OrderlyOn(s, pc, FailurePlan(s, pc, c), sent, first)
  {
    if pc.RetryingFailed? || pc.RetryingRunning? {
      ReleasingOrderly(s, pc, c, sent, first);
    }
  }

  lemma CreateOrderly(cfg: Config, s: State, pc: Pc, c: Choice, sent: bool, first: bool)
    requires cfg.honestCreate && Ready(s, pc, sent, first)
    ensures OrderlyOn(s, pc, CreatePlan(cfg, s, pc, c), sent, first)
  {}

  lemma ReleaseOrderly(cfg: Config, s: State, pc: Pc, c: Choice, sent: bool, first: bool)
    requires (pc.Asking? || pc.ReleasingFailed? || pc.ReleasingRunning?) && Ready(s, pc, sent, first)
    ensures OrderlyOn(s, pc, RetryPlan(cfg, s, pc, c), sent, first)
  {}

  lemma RequeueOrderly(cfg: Config, s: State, pc: Pc, c: Choice, sent: bool, first: bool)
    requires (pc.RequeueingCreated? || pc.RequeueingRetrying? || pc.ResendingRetry?) && Ready(s, pc, sent, first)
    ensures OrderlyOn(s, pc, RetryPlan(cfg, s, pc, c), sent, first)
  {}

  lemma SyncOrderly(s: State, pc: Pc, c: Choice, sent: bool, first: bool)
    requires Ready(s, pc, sent, first)
    ensures OrderlyOn(s, pc, SyncPlan(s, pc, c), sent, first)
  {}

  lemma MarkFailedOrderly(s: State, pc: Pc, c: Choice, sent: bool, first: bool)
    requires pc.MarkingFailed? && Ready(s, pc, sent, first)
    ensures OrderlyOn(s, pc, MarkFailedPlan(s, pc, c), sent, first)
  {}

  lemma RetryOrderly(cfg: Config, s: State, pc: Pc, c: Choice, sent: bool, first: bool)
    requires InRetry(pc) && Ready(s, pc, sent, first)
    ensures OrderlyOn(s, pc, RetryPlan(cfg, s, pc, c), sent, first)
  {
    if pc.Asking? || pc.ReleasingFailed? || pc.ReleasingRunning? {
      ReleaseOrderly(cfg, s, pc, c, sent, first);
    } else {
      RequeueOrderly(cfg, s, pc, c, sent, first);
    }
  }

  lemma CallOrderly(cfg: Config, s: State, pc: Pc, c: Choice, sent: bool, first: bool)
    requires !InQueue(pc) && !InProcess(pc) && !InFailure(pc) && cfg.honestCreate && Ready(s, pc, sent, first)
    ensures OrderlyOn(s, pc, PlanOf(cfg, s, pc, c), sent, first)
  {
    if InCreate(pc) {
      CreateOrderly(cfg, s, pc, c, sent, first);
    } else if InRetry(pc) {
      RetryOrderly(cfg, s, pc, c, sent, first);
    } else if InSync(pc) {
      SyncOrderly(s, pc, c, sent, first);
    } else if pc.MarkingFailed? {
      MarkFailedOrderly(s, pc, c, sent, first);
    }
  }

  lemma PlansOrderlyOn(cfg: Config, s: State, pc: Pc, c: Choice, sent: bool, first: bool)
    requires !InQueue(pc) && cfg.honestCreate && Ready(s, pc, sent, first)
    ensures OrderlyOn(s, pc, PlanOf(cfg, s, pc, c), sent, first)
  {
    if InProcess(pc) {
      ProcessOrderly(cfg, s, pc, c, sent, first);
    } else if InFailure(pc) {
      FailureOrderly(s, pc, c, sent, first);
    } else {
      CallOrderly(cfg, s, pc, c, sent, first);
    }
  }

  lemma PlansOrderly(cfg: Config, s: State, t: ThreadId, c: Choice)
    requires cfg.honestCreate && FirstInv(s) && t in s.threads
    ensures Orderly(s, s.threads[t], PlanOf(cfg, s, s.threads[t], c))
  {
    var pc := s.threads[t];
    CreateSentWasSent(s.log);
    if InQueue(pc) {
      QueueOrderly(cfg, s, pc, c);
    } else if StakeOf(pc).Bystander? {
      PlansOrderlyOn(cfg, s, pc, c, false, false);
    } else {
      PlansOrderlyOn(cfg, s, pc, c, WasSent(s.log, StakeOf(pc).job), SentByCreate(s.log, StakeOf(pc).job));
    }
  }

  /** Only CreateAsync's Enqueue adds to the ids it has sent. */
  ghost predicate CreateSentAfter(log: seq<Effect>, e: Effect) {
    forall job :: SentByCreate(log + [e], job)
                  <==> SentByCreate(log, job) || (e.Sent? && e.origin == ByCreate && e.p.job == job)
  }

  lemma CreateSentGrows(log: seq<Effect>, e: Effect)
    ensures CreateSentAfter(log, e)
  {
    forall job ensures SentByCreate(log + [e], job)
                       <==> SentByCreate(log, job) || (e.Sent? && e.origin == ByCreate && e.p.job == job)
    {
      if SentByCreate(log, job) {
        var i :| 0 <= i < |log| && log[i].Sent? && log[i].origin == ByCreate && log[i].p.job == job;
        assert (log + [e])[i] == log[i];
      }
      if e.Sent? && e.origin == ByCreate && e.p.job == job {
        assert (log + [e])[|log|] == e;
      }
    }
  }

  /** A step within the rights of a thread that holds what it relies on. */
  ghost predicate Proper(s: State, mine: Stake, e: Effect, next: Stake) {
    && Applicable(s, e) && SentArePast(s.jobs, s.log) && Relies(s.jobs, s.log, mine) && WiderRights(mine, e, next)
    && FollowsRow(s.jobs, mine, e, next)
    && (e.Moved? || e.JobInserted? || Relies(s.jobs, s.log, next))
    && SentAfter(s.log, e) && CreateSentAfter(s.log, e)
    && forall job | SentByCreate(s.log, job) :: WasSent(s.log, job)
  }

  lemma CreateSentWasSent(log: seq<Effect>)
    ensures forall job | SentByCreate(log, job) :: WasSent(log, job)
  {}

  /** A move of the row keeps what its mover relies on, and what any other thread with a stake in it does. */
  lemma MoverStays(jobs: Jobs, mine: Stake, e: Effect, next: Stake, sent: bool, first: bool)
    requires e.Moved? && CanMove(jobs, e.id, e.from) && WiderRights(mine, e, next) && (first ==> sent)
    requires ReliesOn(jobs, mine, sent, first) && (sent ==> Past(jobs, e.id))
    ensures next.Bystander? || next.job == e.id
    ensures ReliesOn(Move(jobs, e.id, e.from, e.to, e.stamp), next, sent, first)
  {}

  lemma WatcherStays(jobs: Jobs, mine: Stake, e: Effect, next: Stake, other: Stake, sent: bool, first: bool)
    requires e.Moved? && CanMove(jobs, e.id, e.from) && WiderRights(mine, e, next) && (first ==> sent)
    requires ReliesOn(jobs, mine, sent, first) && (sent ==> Past(jobs, e.id))
    requires !other.Bystander? && other.job == e.id && ReliesOn(jobs, other, sent, first)
    requires CoexistOn(mine, other, first)
    ensures ReliesOn(Move(jobs, e.id, e.from, e.to, e.stamp), other, sent, first) && CoexistOn(next, other, first)
  {}

  lemma MineStaysMoved(s: State, mine: Stake, e: Effect, next: Stake)
    requires e.Moved? && Proper(s, mine, e, next)
    ensures Relies(NewJobs(s, e), s.log + [e], next)
  {
    assert !mine.Bystander? && mine.job == e.id;
    MoverStays(s.jobs, mine, e, next, WasSent(s.log, e.id), SentByCreate(s.log, e.id));
  }

  lemma MineStays(s: State, mine: Stake, e: Effect, next: Stake)
    requires Proper(s, mine, e, next)
    ensures Relies(NewJobs(s, e), s.log + [e], next)
  {
    match e
    case Moved(_, _, _, _) => MineStaysMoved(s, mine, e, next);
    case JobInserted(_, _) =>
    case _ => assert NewJobs(s, e) == s.jobs;
  }

  lemma OthersStayMoved(s: State, mine: Stake, e: Effect, next: Stake, other: Stake)
    requires e.Moved? && Proper(s, mine, e, next) && !other.Bystander? && other.job == e.id
    requires Relies(s.jobs, s.log, other) && Coexist(s.log, mine, other)
    ensures Relies(NewJobs(s, e), s.log + [e], other) && Coexist(s.log + [e], next, other)
  {
    assert !mine.Bystander? && mine.job == e.id;
    WatcherStays(s.jobs, mine, e, next, other, WasSent(s.log, e.id), SentByCreate(s.log, e.id));
  }

  lemma OthersStayAside(s: State, mine: Stake, e: Effect, next: Stake, other: Stake)
    requires e.Moved? && Proper(s, mine, e, next) && (other.Bystander? || other.job != e.id)
    requires Relies(s.jobs, s.log, other)
    ensures Relies(NewJobs(s, e), s.log + [e], other) && Coexist(s.log + [e], next, other)
  {}

  lemma OthersStayInserted(s: State, mine: Stake, e: Effect, next: Stake, other: Stake)
    requires e.JobInserted? && Proper(s, mine, e, next)
    requires Relies(s.jobs, s.log, other) && Coexist(s.log, mine, other)
    ensures Relies(NewJobs(s, e), s.log + [e], other) && Coexist(s.log + [e], next, other)
  {}

  lemma OthersStaySent(s: State, mine: Stake, e: Effect, next: Stake, other: Stake)
    requires !e.Moved? && !e.JobInserted? && Proper(s, mine, e, next)
    requires Relies(s.jobs, s.log, other) && Coexist(s.log, mine, other)
    ensures Relies(s.jobs, s.log + [e], other)
  {}

  lemma RestCoexists(s: State, mine: Stake, e: Effect, next: Stake, other: Stake)
    requires !e.Moved? && !e.JobInserted? && Proper(s, mine, e, next)
    requires Relies(s.jobs, s.log, other) && Coexist(s.log, mine, other)
    ensures Coexist(s.log + [e], next, other)
  {}

  lemma OthersStay(s: State, mine: Stake, e: Effect, next: Stake, other: Stake)
    requires Proper(s, mine, e, next) && Relies(s.jobs, s.log, other) && Coexist(s.log, mine, other)
    ensures Relies(NewJobs(s, e), s.log + [e], other) && Coexist(s.log + [e], next, other)
  {
    if e.Moved? {
      if !other.Bystander? && other.job == e.id {
        OthersStayMoved(s, mine, e, next, other);
      } else {
        OthersStayAside(s, mine, e, next, other);
      }
    } else if e.JobInserted? {
      OthersStayInserted(s, mine, e, next, other);
    } else {
      assert NewJobs(s, e) == s.jobs;
      OthersStaySent(s, mine, e, next, other);
      RestCoexists(s, mine, e, next, other);
    }
  }

  lemma ThirdsCoexist(s: State, mine: Stake, e: Effect, next: Stake, a: Stake, b: Stake)
    requires Proper(s, mine, e, next)
    requires Relies(s.jobs, s.log, a) && Coexist(s.log, mine, a) && Coexist(s.log, a, b) && Coexist(s.log, a, mine)
    ensures Coexist(s.log + [e], a, b)
  {}

  lemma SentStaysPast(s: State, mine: Stake, e: Effect, next: Stake, job: Id)
    requires Proper(s, mine, e, next)
    ensures WasSent(s.log, job) ==> Past(NewJobs(s, e), job)
    ensures e.Sent? ==> Past(NewJobs(s, e), e.p.job)
  {}

  lemma SentStayPast(s: State, mine: Stake, e: Effect, next: Stake)
    requires Proper(s, mine, e, next)
    ensures SentArePast(NewJobs(s, e), s.log + [e])
  {
    forall job | WasSent(s.log + [e], job) ensures Past(NewJobs(s, e), job) {
      SentStaysPast(s, mine, e, next, job);
    }
  }

  lemma StakesStayOk(s: State, t: ThreadId, e: Effect, next: Pc)
    requires StakesOk(s) && t in s.threads && Proper(s, StakeOf(s.threads[t]), e, StakeOf(next))
    ensures StakesOk(Apply(s, e).(threads := s.threads[t := next]))
  {
    var mine, threads := StakeOf(s.threads[t]), s.threads[t := next];
    MineStays(s, mine, e, StakeOf(next));
    forall u | u in s.threads && u != t
      ensures Relies(NewJobs(s, e), s.log + [e], StakeOf(s.threads[u]))
      ensures Coexist(s.log + [e], StakeOf(next), StakeOf(s.threads[u]))
    {
      OthersStay(s, mine, e, StakeOf(next), StakeOf(s.threads[u]));
    }
    forall u, v | u in threads && v in threads && u != v
      ensures Coexist(s.log + [e], StakeOf(threads[u]), StakeOf(threads[v]))
    {
      if u != t && v != t {
        ThirdsCoexist(s, mine, e, StakeOf(next), StakeOf(s.threads[u]), StakeOf(s.threads[v]));
      }
    }
  }

  lemma CountsStayOk(s: State, t: ThreadId, e: Effect, next: Pc)
    requires CountsOk(s) && t in s.threads && Applicable(s, e) && CountStepOk(e, next)
    ensures CountsOk(Apply(s, e).(threads := s.threads[t := next]))
  {}

  lemma EffectKeepsFirst(s: State, t: ThreadId, plan: Plan)
    requires FirstInv(s) && t in s.threads && Applicable(s, plan.effect)
    requires Orderly(s, s.threads[t], Some(plan))
    ensures FirstInv(Apply(s, plan.effect).(threads := s.threads[t := plan.next]))
  {
    var mine, next := StakeOf(s.threads[t]), StakeOf(plan.next);
    SentGrows(s.log, plan.effect);
    CreateSentGrows(s.log, plan.effect);
    CreateSentWasSent(s.log);
    assert Proper(s, mine, plan.effect, next);
    QueueStaysOk(s, plan.effect);
    SentStayPast(s, mine, plan.effect, next);
    StakesStayOk(s, t, plan.effect, plan.next);
    CountsStayOk(s, t, plan.effect, plan.next);
  }

  lemma CrashKeepsFirst(s: State, t: ThreadId)
    requires FirstInv(s) && t in s.threads
    ensures FirstInv(Apply(s, CrashEffect(s.threads[t])).(threads := s.threads - {t}))
  {
    var e := CrashEffect(s.threads[t]);
    SentGrows(s.log, e);
    CreateSentGrows(s.log, e);
    assert NewJobs(s, e) == s.jobs && NewRedis(s, e) == s.redis;
  }

  lemma SpawnKeepsFirst(s: State, t: ThreadId, pc: Pc)
    requires FirstInv(s) && t !in s.threads && EntryPoint(pc)
    ensures FirstInv(s.(threads := s.threads[t := pc]))
  {
    assert StakeOf(pc).Bystander? || StakeOf(pc).Asker?;
  }

  lemma StepKeepsFirst(cfg: Config, s: State, e: Event)
    requires cfg.honestCreate && FirstInv(s) && Step(cfg, s, e).Some?
    ensures FirstInv(Step(cfg, s, e).value)
  {
    match e
    case Tick(_) =>
    case Spawn(t, pc) => SpawnKeepsFirst(s, t, pc);
    case Do(t, c) =>
      PlansOrderly(cfg, s, t, c);
      EffectKeepsFirst(s, t, PlanOf(cfg, s, s.threads[t], c).value);
    case Crash(t) => CrashKeepsFirst(s, t);
  }

  lemma {:induction false} RunKeepsFirst(cfg: Config, states: seq<State>, events: seq<Event>, i: nat)
    requires cfg.honestCreate && IsRun(cfg, states, events) && i < |states|
    ensures FirstInv(states[i])
  {
    if i > 0 {
      RunKeepsFirst(cfg, states, events, i - 1);
      assert Follows(cfg, states, events, i - 1);
      StepKeepsFirst(cfg, states[i - 1], events[i - 1]);
    }
  }

  // ---------------------------------------------------------------- the first attempt

  /** Nobody but `t` executes the job. */
  ghost predicate OnlyBy(s: State, job: Id, t: ThreadId) {
    forall u | u in s.threads && Executes(s.threads[u], job) :: u == t
  }

  lemma FirstHasOneExecutor(s: State, job: Id, t: ThreadId)
    requires FirstInv(s) && SentByCreate(s.log, job) && t in s.threads && Executes(s.threads[t], job)
    ensures OnlyBy(s, job, t) && !CanMove(s.jobs, job, Queued)
  {
    CreateSentWasSent(s.log);
    assert Relies(s.jobs, s.log, StakeOf(s.threads[t]));
  }

  /** However Retry calls overlap, a job that CreateAsync has enqueued has one executor at most, and while it
      has one it is not queued. */
  lemma FirstAttemptIsExclusive(cfg: Config, s: State, job: Id, t: ThreadId)
    requires cfg.honestCreate && Reachable(cfg, s) && SentByCreate(s.log, job)
    requires t in s.threads && Executes(s.threads[t], job)
    ensures OnlyBy(s, job, t) && !CanMove(s.jobs, job, Queued)
  {
    var states, events :| IsRun(cfg, states, events) && states[|events|] == s;
    RunKeepsFirst(cfg, states, events, |events|);
    FirstHasOneExecutor(s, job, t);
  }
}
