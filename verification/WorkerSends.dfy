/** What the worker's re-enqueues with backoff amount to over whole runs. */
module WorkerSends {
  import opened JobTypes
  import opened JobStore
  import opened RedisStore
  import opened Backoff
  import opened Protocol
  import opened Exclusion
  import opened Ledger

  predicate ByWorkerSend(e: Effect, job: Id) {
    e.Sent? && e.origin == ByWorker && e.p.job == job
  }

  // ---------------------------------------------------------------- where a re-enqueue comes from

  ghost predicate SentPayload(log: seq<Effect>, p: Payload) {
    exists i :: 0 <= i < |log| && log[i].Sent? && log[i].p == p
  }

  /** The payload was enqueued, and its job started after that. */
  ghost predicate StartedWith(log: seq<Effect>, p: Payload) {
    exists i, j :: 0 <= i < j < |log| && log[i].Sent? && log[i].p == p && Counts(log[j], p.job, Start)
  }

  /** A worker has started the payload and not got rid of it yet. */
  predicate Working(pc: Pc) {
    pc.Inferring? || pc.Persisting? || pc.Succeeding? || Resumes(pc)
  }

  /** It is going to re-enqueue it. */
  predicate Resumes(pc: Pc) {
    pc.RetryingFailed? || pc.RetryingRunning? || pc.AckingRetry? || pc.Resending?
  }

  ghost predicate Trail(cfg: Config, log: seq<Effect>, pc: Pc) {
    && (pc.Starting? ==> SentPayload(log, pc.p))
    && (Working(pc) ==> StartedWith(log, pc.p))
    && (Resumes(pc) ==> pc.p.attempt + 1 < cfg.maxAttempts)
  }

  ghost predicate PayloadsSent(r: Redis, log: seq<Effect>) {
    forall id | id in r.payloads :: SentPayload(log, r.payloads[id])
  }

  /** A re-enqueue carries the attempt after one that was started, less than maxAttempts, and has the delay
      of that attempt. Other enqueues carry attempt 1 or more. */
  ghost predicate SendOk(cfg: Config, log: seq<Effect>, k: nat)
    requires k < |log|
  {
    log[k].Sent? ==>
      var p := log[k].p;
      && 0 < p.attempt
      && (log[k].origin == ByWorker ==>
            && p.attempt < cfg.maxAttempts
            && IsRetryDelay(p.attempt, log[k].delay)
            && StartedWith(log[..k], p.(attempt := p.attempt - 1)))
  }

  ghost predicate SendsOk(cfg: Config, log: seq<Effect>) {
    forall k {:trigger SendOk(cfg, log, k)} | 0 <= k < |log| :: SendOk(cfg, log, k)
  }

  ghost predicate Inv(cfg: Config, s: State) {
    && PayloadsSent(s.redis, s.log)
    && (forall t | t in s.threads :: Trail(cfg, s.log, s.threads[t]))
    && SendsOk(cfg, s.log)
  }

  ghost predicate TrailStep(cfg: Config, s: State, pc: Pc, e: Effect, next: Pc) {
    && (next.Starting? ==> exists id | id in s.redis.payloads :: s.redis.payloads[id] == next.p)
    && (Working(next) ==>
          || (Working(pc) && pc.p == next.p)
          || (pc == Starting(next.p) && Counts(e, next.p.job, Start)))
    && (Resumes(next) ==> next.p.attempt + 1 < cfg.maxAttempts)
    && (e.Sent? ==> 0 < e.p.attempt)
    && (e.Sent? && e.origin == ByWorker ==>
          && Resumes(pc) && e.p == pc.p.(attempt := pc.p.attempt + 1) && next == WorkerIdle
          && IsRetryDelay(e.p.attempt, e.delay))
  }

  ghost predicate Steps(cfg: Config, s: State, pc: Pc, plan: Option<Plan>) {
    plan.Some? ==> TrailStep(cfg, s, pc, plan.value.effect, plan.value.next)
  }

  lemma QueueTrail(cfg: Config, s: State, pc: Pc, c: Choice)
    ensures Steps(cfg, s, pc, QueuePlan(cfg, s, pc, c))
  {}

  lemma ProcessTrail(cfg: Config, s: State, pc: Pc, c: Choice)
    ensures Steps(cfg, s, pc, ProcessPlan(cfg, s, pc, c))
  {}

  lemma FailureTrail(cfg: Config, s: State, pc: Pc, c: Choice)
    requires Resumes(pc) ==> pc.p.attempt + 1 < cfg.maxAttempts
    ensures Steps(cfg, s, pc, FailurePlan(s, pc, c))
  {}

  lemma CreateTrail(cfg: Config, s: State, pc: Pc, c: Choice)
    ensures Steps(cfg, s, pc, CreatePlan(cfg, s, pc, c))
  {}

  lemma RetryTrail(cfg: Config, s: State, pc: Pc, c: Choice)
    ensures Steps(cfg, s, pc, RetryPlan(cfg, s, pc, c))
  {}

  lemma SyncTrail(cfg: Config, s: State, pc: Pc, c: Choice)
    ensures Steps(cfg, s, pc, SyncPlan(s, pc, c))
  {}

  lemma MarkFailedTrail(cfg: Config, s: State, pc: Pc, c: Choice)
    requires pc.MarkingFailed?
    ensures Steps(cfg, s, pc, MarkFailedPlan(s, pc, c))
  {}

  lemma PlanTrail(cfg: Config, s: State, pc: Pc, c: Choice)
    requires Resumes(pc) ==> pc.p.attempt + 1 < cfg.maxAttempts
    ensures Steps(cfg, s, pc, PlanOf(cfg, s, pc, c))
  {
    if InQueue(pc) {
      QueueTrail(cfg, s, pc, c);
    } else if InProcess(pc) {
      ProcessTrail(cfg, s, pc, c);
    } else if InFailure(pc) {
      FailureTrail(cfg, s, pc, c);
    } else if InCreate(pc) {
      CreateTrail(cfg, s, pc, c);
    } else if InRetry(pc) {
      RetryTrail(cfg, s, pc, c);
    } else if InSync(pc) {
      SyncTrail(cfg, s, pc, c);
    } else if pc.MarkingFailed? {
      MarkFailedTrail(cfg, s, pc, c);
    }
  }

  lemma SentStays(log: seq<Effect>, e: Effect, p: Payload)
    ensures SentPayload(log, p) ==> SentPayload(log + [e], p)
    ensures e.Sent? ==> SentPayload(log + [e], e.p)
    ensures StartedWith(log, p) ==> StartedWith(log + [e], p)
    ensures SentPayload(log, p) && Counts(e, p.job, Start) ==> StartedWith(log + [e], p)
  {
    var more := log + [e];
    assert more[|log|] == e;
    if SentPayload(log, p) {
      var i :| 0 <= i < |log| && log[i].Sent? && log[i].p == p;
      assert more[i] == log[i];
    }
    if StartedWith(log, p) {
      var i, j :| 0 <= i < j < |log| && log[i].Sent? && log[i].p == p && Counts(log[j], p.job, Start);
      assert more[i] == log[i] && more[j] == log[j];
    }
  }

  lemma TrailNext(cfg: Config, s: State, pc: Pc, e: Effect, next: Pc)
    requires Trail(cfg, s.log, pc) && PayloadsSent(s.redis, s.log) && TrailStep(cfg, s, pc, e, next)
    ensures Trail(cfg, s.log + [e], next)
  {
    if next.Starting? || Working(next) {
      SentStays(s.log, e, next.p);
    }
  }

  lemma OthersTrail(cfg: Config, log: seq<Effect>, e: Effect, other: Pc)
    requires Trail(cfg, log, other)
    ensures Trail(cfg, log + [e], other)
  {
    if other.Starting? || Working(other) {
      SentStays(log, e, other.p);
    }
  }

  lemma PayloadsStaySent(s: State, e: Effect)
    requires Applicable(s, e) && PayloadsSent(s.redis, s.log)
    ensures PayloadsSent(NewRedis(s, e), s.log + [e])
  {
    forall id | id in NewRedis(s, e).payloads ensures SentPayload(s.log + [e], NewRedis(s, e).payloads[id]) {
      SentStays(s.log, e, NewRedis(s, e).payloads[id]);
    }
  }

  lemma SendsStayOk(cfg: Config, s: State, pc: Pc, e: Effect, next: Pc)
    requires SendsOk(cfg, s.log)
    requires Trail(cfg, s.log, pc) && TrailStep(cfg, s, pc, e, next)
    ensures SendsOk(cfg, s.log + [e])
  {
    var log := s.log + [e];
    forall k | 0 <= k < |log| ensures SendOk(cfg, log, k) {
      if k < |s.log| {
        assert SendOk(cfg, s.log, k);
        assert log[..k] == s.log[..k];
      } else {
        assert log[..k] == s.log;
        if e.Sent? && e.origin == ByWorker {
          assert e.p.(attempt := e.p.attempt - 1) == pc.p;
        }
      }
    }
  }

  lemma EffectKeepsInv(cfg: Config, s: State, t: ThreadId, plan: Plan)
    requires Inv(cfg, s) && t in s.threads && Applicable(s, plan.effect)
    requires TrailStep(cfg, s, s.threads[t], plan.effect, plan.next)
    ensures Inv(cfg, Apply(s, plan.effect).(threads := s.threads[t := plan.next]))
  {
    PayloadsStaySent(s, plan.effect);
    TrailNext(cfg, s, s.threads[t], plan.effect, plan.next);
    SendsStayOk(cfg, s, s.threads[t], plan.effect, plan.next);
    forall u | u in s.threads && u != t ensures Trail(cfg, s.log + [plan.effect], s.threads[u]) {
      OthersTrail(cfg, s.log, plan.effect, s.threads[u]);
    }
  }

  lemma CrashKeepsInv(cfg: Config, s: State, t: ThreadId)
    requires Inv(cfg, s) && t in s.threads
    ensures Inv(cfg, Apply(s, CrashEffect(s.threads[t])).(threads := s.threads - {t}))
  {
    var e := CrashEffect(s.threads[t]);
    PayloadsStaySent(s, e);
    SendsStayOk(cfg, s, WorkerIdle, e, WorkerIdle);
    forall u | u in s.threads ensures Trail(cfg, s.log + [e], s.threads[u]) {
      OthersTrail(cfg, s.log, e, s.threads[u]);
    }
  }

  lemma StepKeepsInv(cfg: Config, s: State, e: Event)
    requires Inv(cfg, s) && Step(cfg, s, e).Some?
    ensures Inv(cfg, Step(cfg, s, e).value)
  {
    match e
    case Tick(_) =>
    case Spawn(t, pc) => assert !pc.Starting? && !Working(pc);
    case Do(t, c) =>
      PlanTrail(cfg, s, s.threads[t], c);
      EffectKeepsInv(cfg, s, t, PlanOf(cfg, s, s.threads[t], c).value);
    case Crash(t) => CrashKeepsInv(cfg, s, t);
  }

  lemma {:induction false} RunKeepsInv(cfg: Config, states: seq<State>, events: seq<Event>, i: nat)
    requires IsRun(cfg, states, events) && i < |states|
    ensures Inv(cfg, states[i])
  {
    if i > 0 {
      RunKeepsInv(cfg, states, events, i - 1);
      assert Follows(cfg, states, events, i - 1);
      StepKeepsInv(cfg, states[i - 1], events[i - 1]);
    }
  }

  /** In every configuration and every run: a worker re-enqueues a job only for an attempt below
      maxAttempts, with the 64-bit delay of that attempt, which is at least 2^attempt and less than
      2^attempt + 1 seconds up to attempt 33, and only after the payload of the attempt before was enqueued
      and the job started after that. */
  lemma WorkerSendsAreBackoffs(cfg: Config, s: State, k: nat)
    requires Reachable(cfg, s) && k < |s.log| && s.log[k].Sent? && s.log[k].origin == ByWorker
    ensures 0 < s.log[k].p.attempt < cfg.maxAttempts
    ensures IsRetryDelay(s.log[k].p.attempt, s.log[k].delay)
    ensures s.log[k].p.attempt <= 33 ==> IsBackoff(s.log[k].p.attempt, s.log[k].delay)
    ensures StartedWith(s.log[..k], s.log[k].p.(attempt := s.log[k].p.attempt - 1))
  {
    var states, events :| IsRun(cfg, states, events) && states[|events|] == s;
    RunKeepsInv(cfg, states, events, |events|);
    assert SendOk(cfg, s.log, k);
    RetryDelayIs(s.log[k].p.attempt, s.log[k].delay);
  }

  // ---------------------------------------------------------------- chains of attempts

  /** Entry `k` re-enqueues the job of entry `j` for its next attempt, after a start in between. */
  ghost predicate Continues(log: seq<Effect>, j: nat, k: nat) {
    && j < k < |log| && log[j].Sent? && log[k].Sent? && log[k].origin == ByWorker
    && log[k].p == log[j].p.(attempt := log[j].p.attempt + 1)
    && exists i :: j < i < k && Counts(log[i], log[j].p.job, Start)
  }

  /** Enqueues of consecutive attempts of one job, the first of them by CreateAsync or Retry. */
  ghost predicate IsChain(log: seq<Effect>, chain: seq<nat>) {
    && chain != [] && (forall i | 0 <= i < |chain| :: chain[i] < |log| && log[chain[i]].Sent?)
    && log[chain[0]].origin != ByWorker
    && forall i | 0 < i < |chain| :: Continues(log, chain[i - 1], chain[i])
  }

  /** How long all re-enqueues of the chain together make the job wait. */
  function ChainDelay(log: seq<Effect>, chain: seq<nat>): nat
    requires forall i | 0 <= i < |chain| :: chain[i] < |log| && log[chain[i]].Sent?
  {
    if |chain| <= 1 then 0
    else ChainDelay(log, chain[..|chain| - 1]) + Wait(log[chain[|chain| - 1]].delay)
  }

  lemma {:induction false} ChainBack(cfg: Config, log: seq<Effect>, k: nat) returns (chain: seq<nat>)
    requires SendsOk(cfg, log) && k < |log| && log[k].Sent?
    ensures IsChain(log, chain) && chain[|chain| - 1] == k
    ensures |chain| <= log[k].p.attempt
    ensures ChainDelay(log, chain) < (Pow2(log[k].p.attempt + 1) + log[k].p.attempt) * SECOND
  {
    assert SendOk(cfg, log, k);
    var a := log[k].p.attempt;
    if log[k].origin == ByWorker {
      var p := Payload(log[k].p.job, a - 1);
      var i, j :| 0 <= i < j < k && log[i].Sent? && log[i].p == p && Counts(log[j], p.job, Start);
      assert Continues(log, i, k);
      var most := ChainBack(cfg, log, i);
      chain := most + [k];
      assert chain[..|chain| - 1] == most;
      RetryDelayIs(a, log[k].delay);
    } else {
      chain := [k];
    }
  }

  lemma {:induction false} ChainAttempts(log: seq<Effect>, chain: seq<nat>, i: nat, j: nat)
    requires IsChain(log, chain) && i <= j < |chain|
    ensures log[chain[j]].p.attempt == log[chain[i]].p.attempt + (j - i)
    decreases j
  {
    if i < j {
      ChainAttempts(log, chain, i, j - 1);
      assert Continues(log, chain[j - 1], chain[j]);
    }
  }

  lemma ChainWaitsLonger(cfg: Config, log: seq<Effect>, chain: seq<nat>, i: nat, j: nat)
    requires SendsOk(cfg, log) && IsChain(log, chain) && 0 < i < j < |chain| && log[chain[j]].p.attempt <= 33
    ensures log[chain[i]].delay < log[chain[j]].delay
  {
    var a, b := log[chain[i]].p.attempt, log[chain[j]].p.attempt;
    ChainAttempts(log, chain, i, j);
    assert Continues(log, chain[i - 1], chain[i]) && Continues(log, chain[j - 1], chain[j]);
    assert SendOk(cfg, log, chain[i]) && SendOk(cfg, log, chain[j]);
    RetryDelayIs(a, log[chain[i]].delay);
    RetryDelayIs(b, log[chain[j]].delay);
    Pow2Grows(a, b);
  }

  /** In every configuration and every run, every re-enqueue is the end of a chain of enqueues of
      consecutive attempts of its job that CreateAsync or Retry began; at most maxAttempts - 2 of them are
      a worker's, with a start before each, each is delayed longer than the one before up to attempt 33, and
      together they make the job wait less than 2^maxAttempts + maxAttempts seconds. */
  lemma WorkerSendsFormChains(cfg: Config, s: State, k: nat) returns (chain: seq<nat>)
    requires Reachable(cfg, s) && k < |s.log| && s.log[k].Sent? && s.log[k].origin == ByWorker
    ensures IsChain(s.log, chain) && chain[|chain| - 1] == k
    ensures 2 <= |chain| < cfg.maxAttempts
    ensures forall i, j | 0 < i < j < |chain| && s.log[chain[j]].p.attempt <= 33 ::
              s.log[chain[i]].delay < s.log[chain[j]].delay
    ensures ChainDelay(s.log, chain) < (Pow2(cfg.maxAttempts) + cfg.maxAttempts) * SECOND
  {
    WorkerSendsAreBackoffs(cfg, s, k);
    var states, events :| IsRun(cfg, states, events) && states[|events|] == s;
    RunKeepsInv(cfg, states, events, |events|);
    chain := ChainBack(cfg, s.log, k);
    forall i, j | 0 < i < j < |chain| && s.log[chain[j]].p.attempt <= 33
      ensures s.log[chain[i]].delay < s.log[chain[j]].delay
    {
      ChainWaitsLonger(cfg, s.log, chain, i, j);
    }
    var a := s.log[k].p.attempt;
    if a + 1 < cfg.maxAttempts {
      Pow2Grows(a + 1, cfg.maxAttempts);
    }
  }

  // ---------------------------------------------------------------- how many there are

  /** How often workers have re-enqueued `job`, and how long it has been delayed by that in all. */
  function Sends(log: seq<Effect>, job: Id): nat {
    if log == [] then 0
    else Sends(log[..|log| - 1], job) + if ByWorkerSend(log[|log| - 1], job) then 1 else 0
  }

  function Waited(log: seq<Effect>, job: Id): nat {
    if log == [] then 0
    else Waited(log[..|log| - 1], job) + if ByWorkerSend(log[|log| - 1], job) then Wait(log[|log| - 1].delay) else 0
  }

  lemma SendsNext(log: seq<Effect>, e: Effect, job: Id)
    ensures Sends(log + [e], job) == Sends(log, job) + if ByWorkerSend(e, job) then 1 else 0
  {
    assert (log + [e])[..|log|] == log;
  }

  function IsWorking(job: Id): Pc -> bool {
    (pc: Pc) => Working(pc) && pc.p.job == job
  }

  /** Every re-enqueue, done or to come, is paid for by a start. */
  ghost predicate Paid(s: State, job: Id) {
    Sends(s.log, job) + |Where(s.threads, IsWorking(job))| <= Count(s.log, job, Start)
  }

  ghost predicate AttemptsLeft(cfg: Config, s: State) {
    forall t | t in s.threads && Resumes(s.threads[t]) :: s.threads[t].p.attempt + 1 < cfg.maxAttempts
  }

  lemma StepKeepsPaid(cfg: Config, s: State, e: Event, job: Id)
    requires AttemptsLeft(cfg, s) && Step(cfg, s, e).Some? && Paid(s, job)
    ensures Paid(Step(cfg, s, e).value, job)
  {
    match e
    case Tick(_) =>
    case Spawn(t, pc) => WhereNext(s.threads, t, pc, IsWorking(job));
    case Do(t, c) =>
      PlanTrail(cfg, s, s.threads[t], c);
      PlanKeepsPaid(cfg, s, t, PlanOf(cfg, s, s.threads[t], c).value, job);
    case Crash(t) => CrashKeepsPaid(s, t, job);
  }

  lemma CrashKeepsPaid(s: State, t: ThreadId, job: Id)
    requires t in s.threads && Paid(s, job)
    ensures Paid(Apply(s, CrashEffect(s.threads[t])).(threads := s.threads - {t}), job)
  {
    WhereNext(s.threads, t, WorkerIdle, IsWorking(job));
    SendsNext(s.log, CrashEffect(s.threads[t]), job);
    CountNext(s.log, CrashEffect(s.threads[t]));
  }

  lemma PlanKeepsPaid(cfg: Config, s: State, t: ThreadId, plan: Plan, job: Id)
    requires Paid(s, job) && t in s.threads && Applicable(s, plan.effect)
    requires TrailStep(cfg, s, s.threads[t], plan.effect, plan.next)
    ensures Paid(Apply(s, plan.effect).(threads := s.threads[t := plan.next]), job)
  {
    WhereNext(s.threads, t, plan.next, IsWorking(job));
    SendsNext(s.log, plan.effect, job);
    CountNext(s.log, plan.effect);
  }

  ghost predicate AllPaid(s: State) {
    forall job :: Paid(s, job)
  }

  lemma AllPaidAtFirst(s: State)
    requires Init(s)
    ensures AllPaid(s)
  {
    forall job ensures Paid(s, job) {
      NobodyIs(IsWorking(job));
    }
  }

  lemma AllPaidNext(cfg: Config, s: State, e: Event)
    requires AttemptsLeft(cfg, s) && Step(cfg, s, e).Some? && AllPaid(s)
    ensures AllPaid(Step(cfg, s, e).value)
  {
    forall job ensures Paid(Step(cfg, s, e).value, job) {
      StepKeepsPaid(cfg, s, e, job);
    }
  }

  lemma {:induction false} RunKeepsPaid(cfg: Config, states: seq<State>, events: seq<Event>, i: nat)
    requires IsRun(cfg, states, events) && i < |states|
    ensures AllPaid(states[i])
  {
    if i == 0 {
      AllPaidAtFirst(states[0]);
    } else {
      RunKeepsPaid(cfg, states, events, i - 1);
      RunKeepsInv(cfg, states, events, i - 1);
      assert Follows(cfg, states, events, i - 1);
      AllPaidNext(cfg, states[i - 1], events[i - 1]);
    }
  }

  /** In every configuration workers re-enqueue a job at most once for each time it was started. */
  lemma SendsArePaidByStarts(cfg: Config, s: State, job: Id)
    requires Reachable(cfg, s)
    ensures Sends(s.log, job) <= Count(s.log, job, Start)
  {
    var states, events :| IsRun(cfg, states, events) && states[|events|] == s;
    RunKeepsPaid(cfg, states, events, |events|);
    assert Paid(s, job);
  }

  // ---------------------------------------------------------------- one start per job

  /** A job that was started has been once, and nothing is left that could queue it again. */
  ghost predicate StartedOnce(s: State, job: Id) {
    && Count(s.log, job, Start) <= 1
    && (Count(s.log, job, Start) == 1 ==>
          && job in s.jobs && s.jobs[job].status in {Running, Success, Retrying, Dead, Cancelled}
          && forall t | t in s.threads :: StakeOf(s.threads[t]) !in {Owner(job, false), Releaser(job)})
  }

  /** The stake of a thread that could queue the job comes by its INSERT or by the release of a FAILED row. */
  lemma StakeIsNew(mine: Stake, e: Effect, next: Stake, job: Id)
    requires Rights(mine, e, next) && next in {Owner(job, false), Releaser(job)}
    ensures mine == next || (e.JobInserted? && e.id == job) || (e.Moved? && e.id == job && e.from == Failed)
  {}

  lemma EffectKeepsStartedOnce(s: State, t: ThreadId, e: Effect, next: Pc, job: Id)
    requires Exclusion.Inv(s) && StartedOnce(s, job) && t in s.threads && Applicable(s, e)
    requires Rights(StakeOf(s.threads[t]), e, StakeOf(next))
    ensures StartedOnce(Apply(s, e).(threads := s.threads[t := next]), job)
  {
    CountNext(s.log, e);
    if StakeOf(next) in {Owner(job, false), Releaser(job)} {
      StakeIsNew(StakeOf(s.threads[t]), e, StakeOf(next), job);
    }
    if Counts(e, job, Start) {
      forall u | u in s.threads && u != t ensures StakeOf(s.threads[u]) !in {Owner(job, false), Releaser(job)} {
        assert Holds(s.jobs, s.log, StakeOf(s.threads[u]));
      }
    }
  }

  lemma StepKeepsStartedOnce(cfg: Config, s: State, e: Event, job: Id)
    requires cfg.serialRetry && cfg.honestCreate && Exclusion.Inv(s) && StartedOnce(s, job)
    requires Step(cfg, s, e).Some?
    ensures StartedOnce(Step(cfg, s, e).value, job)
  {
    match e
    case Tick(_) =>
    case Spawn(t, pc) => assert !StakeOf(pc).Owner? && !StakeOf(pc).Releaser?;
    case Do(t, c) =>
      PlansInOrder(cfg, s, s.threads[t], c);
      var plan := PlanOf(cfg, s, s.threads[t], c).value;
      EffectKeepsStartedOnce(s, t, plan.effect, plan.next, job);
    case Crash(t) => CountNext(s.log, CrashEffect(s.threads[t]));
  }

  lemma {:induction false} RunKeepsStartedOnce(cfg: Config, states: seq<State>, events: seq<Event>, i: nat, job: Id)
    requires cfg.serialRetry && cfg.honestCreate && IsRun(cfg, states, events) && i < |states|
    ensures StartedOnce(states[i], job)
  {
    if i > 0 {
      RunKeepsStartedOnce(cfg, states, events, i - 1, job);
      Exclusion.RunKeepsInv(cfg, states, events, i - 1);
      assert Follows(cfg, states, events, i - 1);
      StepKeepsStartedOnce(cfg, states[i - 1], events[i - 1], job);
    }
  }

  lemma {:induction false} NothingWaited(log: seq<Effect>, job: Id)
    requires Sends(log, job) == 0
    ensures Waited(log, job) == 0
  {
    if log != [] {
      NothingWaited(log[..|log| - 1], job);
    }
  }

  lemma {:induction false} WaitedOnce(log: seq<Effect>, job: Id, bound: nat)
    requires Sends(log, job) <= 1
    requires forall k | 0 <= k < |log| && ByWorkerSend(log[k], job) :: Wait(log[k].delay) <= bound
    ensures Waited(log, job) <= bound
  {
    if log != [] {
      if ByWorkerSend(log[|log| - 1], job) {
        NothingWaited(log[..|log| - 1], job);
      } else {
        WaitedOnce(log[..|log| - 1], job, bound);
      }
    }
  }

  /** Under the two assumptions of exclusive execution workers start, and call the model for, every job
      at most once and re-enqueue it at most once; so the backoff of a job never exceeds one delay. */
  lemma WorkersStartAJobOnce(cfg: Config, s: State, job: Id)
    requires cfg.serialRetry && cfg.honestCreate && Reachable(cfg, s)
    ensures Count(s.log, job, Inference) <= Count(s.log, job, Start) <= 1
    ensures Sends(s.log, job) <= 1
    ensures Waited(s.log, job) <= if cfg.maxAttempts == 0 then 0 else (Pow2(cfg.maxAttempts - 1) + 1) * SECOND
  {
    var states, events :| IsRun(cfg, states, events) && states[|events|] == s;
    RunKeepsStartedOnce(cfg, states, events, |events|, job);
    LedgerBalances(cfg, s, job);
    SendsArePaidByStarts(cfg, s, job);
    var bound := if cfg.maxAttempts == 0 then 0 else (Pow2(cfg.maxAttempts - 1) + 1) * SECOND;
    forall k | 0 <= k < |s.log| && ByWorkerSend(s.log[k], job) ensures Wait(s.log[k].delay) <= bound {
      WorkerSendsAreBackoffs(cfg, s, k);
      RetryDelayIs(s.log[k].p.attempt, s.log[k].delay);
      if s.log[k].p.attempt < cfg.maxAttempts - 1 {
        Pow2Grows(s.log[k].p.attempt, cfg.maxAttempts - 1);
      }
    }
    WaitedOnce(s.log, job, bound);
  }
}
