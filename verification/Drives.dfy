/** Parts of concrete runs: calls that are made, and threads that move alone for a while. */
module Drives {
  import opened JobTypes
  import opened JobStore
  import opened RedisStore
  import opened Protocol
  import opened Alone
  import Services
  import Worker
  import EndToEnd
  import RedisQueue

  /** Nothing fails. */
  const CALM := Services.Env(None, 0, {})

  lemma Start(cfg: Config) returns (s: State)
    ensures Reachable(cfg, s) && Init(s) && s.clock == 0
  {
    s := State(0, map[], [], EMPTY, map[], []);
    var states, events: seq<Event> := [s], [];
    assert IsRun(cfg, states, events) && states[|events|] == s;
  }

  /** One statement of thread `t`, with what it adds to the log. */
  lemma Issued(cfg: Config, s: State, t: ThreadId, c: Choice, plan: Plan) returns (s': State)
    requires Reachable(cfg, s) && t in s.threads && PlanOf(cfg, s, s.threads[t], c) == Some(plan)
    ensures Reachable(cfg, s') && s'.threads == s.threads[t := plan.next] && s'.clock == s.clock
    ensures Shared(s') == After(s, plan.effect) && s'.log == s.log + [plan.effect]
  {
    s' := Apply(s, plan.effect).(threads := s.threads[t := plan.next]);
    ReachableStep(cfg, s, Do(t, c), s');
  }

  // ---------------------------------------------------------------- workers

  /** No other id than `job` is listed or leased. */
  predicate OnlyAbout(r: Redis, job: Id) {
    (forall id | id in r.queued :: id == job) && forall id | id in r.processing :: id == job
  }

  /** `job` is QUEUED and listed, no other id is, and its payload is that of attempt `n`. */
  predicate Waiting(st: Stores, job: Id, n: nat) {
    && CanMove(st.jobs, job, Queued) && st.redis.queued != [] && OnlyAbout(st.redis, job)
    && job in st.redis.payloads && st.redis.payloads[job] == Payload(job, n)
  }

  /** `job` is RUNNING, as it is while a worker executes it. */
  predicate InHand(st: Stores, job: Id) {
    CanMove(st.jobs, job, Running) && OnlyAbout(st.redis, job)
  }

  function Claimed(st: Stores, now: Time, job: Id): Stores {
    st.(jobs := Update(st.jobs, job, Queued, Running, StartedStamp(now)),
      redis := RedisQueue.Dequeued(st.redis, Unix(now), Unix(now + VISIBILITY), {}))
  }

  lemma ClaimedIsInHand(st: Stores, now: Time, job: Id, n: nat)
    requires Waiting(st, job, n)
    ensures InHand(Claimed(st, now, job), job)
    ensures Claimed(st, now, job).jobs[job].attempts == st.jobs[job].attempts
  {
    forall id ensures id in Claimed(st, now, job).redis.queued || id in Claimed(st, now, job).redis.processing
                      ==> id == job
    {
      RedisQueue.SweptIds(st.redis, Unix(now), id);
    }
  }

  lemma WorkerClaims(cfg: Config, s: State, w: ThreadId, p: Payload) returns (end: State)
    requires w in s.threads && s.threads[w] == WorkerIdle && Waiting(Shared(s), p.job, p.attempt)
    ensures Reaches(cfg, s, s, end, w, Claimed(Shared(s), s.clock, p.job), Inferring(p))
  {
    assert NextPop(s.redis) in s.redis.queued;
    var s1 := EndToEnd.WorkerStarts(cfg, s, w, p);
    end := Worker.GoStarting(cfg, s, s1, w, p, true);
  }

  /** An idle worker takes the waiting job and marks it RUNNING. */
  lemma WorkerTakes(cfg: Config, s: State, w: ThreadId, p: Payload) returns (end: State)
    requires Reachable(cfg, s) && w in s.threads && s.threads[w] == WorkerIdle
    requires Waiting(Shared(s), p.job, p.attempt)
    ensures Reachable(cfg, end) && end.threads == s.threads[w := Inferring(p)] && end.clock == s.clock
    ensures InHand(Shared(end), p.job) && end.jobs[p.job].attempts == s.jobs[p.job].attempts
  {
    end := WorkerClaims(cfg, s, w, p);
    ClaimedIsInHand(Shared(s), s.clock, p.job, p.attempt);
    LeadsToReachable(cfg, w, s, end);
  }

  /** The same for a worker that comes up now. */
  lemma WorkerExecutes(cfg: Config, s: State, w: ThreadId, p: Payload) returns (end: State)
    requires Reachable(cfg, s) && w !in s.threads && Waiting(Shared(s), p.job, p.attempt)
    ensures Reachable(cfg, end) && end.threads == s.threads[w := Inferring(p)] && end.clock == s.clock
    ensures InHand(Shared(end), p.job) && end.jobs[p.job].attempts == s.jobs[p.job].attempts
  {
    var s1 := Called(cfg, s, w, WorkerIdle);
    end := WorkerTakes(cfg, s1, w, p);
  }

  /** The inference of worker `w` fails. */
  lemma InferenceFails(cfg: Config, s: State, w: ThreadId, p: Payload) returns (end: State)
    requires Reachable(cfg, s) && w in s.threads && s.threads[w] == Inferring(p)
    ensures Reachable(cfg, end) && Shared(end) == Shared(s) && end.clock == s.clock
    ensures end.threads == s.threads[w := Failing(cfg, p, KInference)]
  {
    LeadsNowhere(cfg, w, s);
    end := Worker.GoInferring(cfg, s, s, w, p, Some(KInference));
    LeadsToReachable(cfg, w, s, end);
  }

  // ---------------------------------------------------------------- Retry calls

  /** What a Retry that got hold of the job leaves behind. */
  lemma RequeuedWaits(cfg: Config, s0: State, s: State, end: State, t: ThreadId, job: Id, attempt: nat)
    requires Reachable(cfg, s0) && OnlyAbout(s.redis, job) && job in s.jobs
    requires Services.EndsAs(cfg, s0, s, end, t, Services.Requeued(Shared(s), job, attempt, CALM, s.clock))
    ensures Reachable(cfg, end) && Waiting(Shared(end), job, attempt)
    ensures end.threads == s.threads[t := Finished(RetryReturned(job))]
  {
    LeadsToReachable(cfg, t, s0, end);
  }

  /** A Retry is called, reads FAILED and gets no further. */
  lemma RetryReads(cfg: Config, s: State, t: ThreadId, job: Id) returns (end: State)
    requires Reachable(cfg, s) && t !in s.threads && CanMove(s.jobs, job, JobStatus.Failed)
    requires cfg.serialRetry ==> !RetryInFlight(s, job)
    ensures Reachable(cfg, end) && Shared(end) == Shared(s) && end.clock == s.clock
    ensures end.threads == s.threads[t := ReleasingFailed(job, s.jobs[job].attempts)]
  {
    var s1 := Called(cfg, s, t, Asking(job));
    LeadsNowhere(cfg, t, s1);
    end := Services.GoAsking(cfg, s1, s1, t, job);
    LeadsToReachable(cfg, t, s1, end);
  }

  lemma FailedIsQueued(cfg: Config, s: State, t: ThreadId, job: Id, n: nat) returns (end: State)
    requires Reachable(cfg, s) && t in s.threads && s.threads[t] == ReleasingFailed(job, n)
    requires OnlyAbout(s.redis, job) && CanMove(s.jobs, job, JobStatus.Failed)
    ensures Reachable(cfg, end) && Waiting(Shared(end), job, n + 1)
    ensures end.threads == s.threads[t := Finished(RetryReturned(job))]
  {
    LeadsNowhere(cfg, t, s);
    end := Services.AloneReleasing(cfg, s, s, t, job, n, CALM);
    RequeuedWaits(cfg, s, s, end, t, job, n + 1);
  }

  /** A Retry of the FAILED job is called and returns. */
  lemma RetryQueues(cfg: Config, s: State, t: ThreadId, job: Id) returns (end: State)
    requires Reachable(cfg, s) && t !in s.threads && OnlyAbout(s.redis, job)
    requires CanMove(s.jobs, job, JobStatus.Failed) && (cfg.serialRetry ==> !RetryInFlight(s, job))
    ensures Reachable(cfg, end) && Waiting(Shared(end), job, s.jobs[job].attempts + 1)
    ensures end.threads == s.threads[t := Finished(RetryReturned(job))]
  {
    var s1 := RetryReads(cfg, s, t, job);
    end := FailedIsQueued(cfg, s1, t, job, s.jobs[job].attempts);
  }

  /** A Retry that has read FAILED some time ago releases the RUNNING job. */
  lemma StaleRetryReleases(cfg: Config, s: State, t: ThreadId, job: Id, n: nat) returns (end: State)
    requires Reachable(cfg, s) && CanMove(s.jobs, job, Running)
    requires t in s.threads && s.threads[t] == ReleasingFailed(job, n)
    ensures Reachable(cfg, end) && end.threads == s.threads[t := RequeueingCreated(job, n)]
    ensures CanMove(end.jobs, job, Retrying) && end.redis == s.redis && end.clock == s.clock
  {
    LeadsNowhere(cfg, t, s);
    var s1 := Services.GoReleasingFailed(cfg, s, s, t, job, n);
    end := Services.GoReleasingRunning(cfg, s, s1, t, job, n, true);
    LeadsToReachable(cfg, t, s, end);
  }

  /** A Retry that has released the job queues it. */
  lemma ReleasedIsQueued(cfg: Config, s: State, t: ThreadId, job: Id, n: nat) returns (end: State)
    requires Reachable(cfg, s) && OnlyAbout(s.redis, job) && CanMove(s.jobs, job, Retrying)
    requires t in s.threads && s.threads[t] == RequeueingCreated(job, n)
    ensures Reachable(cfg, end) && Waiting(Shared(end), job, n + 1)
    ensures end.threads == s.threads[t := Finished(RetryReturned(job))]
  {
    LeadsNowhere(cfg, t, s);
    end := Services.AloneRequeueing(cfg, s, s, t, job, n, CALM);
    RequeuedWaits(cfg, s, s, end, t, job, n + 1);
  }

  /** A CreateSync whose inference fails leaves a FAILED job. */
  lemma SyncFails(cfg: Config, job: Id) returns (end: State)
    ensures Reachable(cfg, end) && OnlyAbout(end.redis, job)
    ensures CanMove(end.jobs, job, JobStatus.Failed) && end.jobs[job].attempts == 1
    ensures end.threads == map[0 := Finished(Errored)]
  {
    var s := Start(cfg);
    var s1 := Called(cfg, s, 0, SyncInserting(0));
    var env := Services.Env(Some(KInference), job, {});
    end := Services.CreateSyncIsAProtocolRun(cfg, s1, 0, 0, env);
    FailedSync(Shared(s1), env, s1.clock);
    LeadsToReachable(cfg, 0, s1, end);
  }

  lemma FailedSync(st: Stores, env: Services.Env, now: Time)
    requires env.failure == Some(KInference) && env.down == {}
    ensures var (end, out) := Services.SyncCreated(st, 0, env, now);
            && out == Errored && end.redis == st.redis
            && CanMove(end.jobs, env.id, JobStatus.Failed) && end.jobs[env.id].attempts == 1
  {}

  /** Retry calls 1 to `k` have read FAILED and wait. */
  lemma {:induction false} RetriesRead(cfg: Config, job: Id, k: nat) returns (end: State)
    requires !cfg.serialRetry
    ensures Reachable(cfg, end) && OnlyAbout(end.redis, job)
    ensures CanMove(end.jobs, job, JobStatus.Failed) && end.jobs[job].attempts == 1
    ensures forall t | t in end.threads :: t <= k && (t >= 1 || end.threads[t].Finished?)
    ensures forall t | 1 <= t <= k :: t in end.threads && end.threads[t] == ReleasingFailed(job, 1)
  {
    if k == 0 {
      end := SyncFails(cfg, job);
    } else {
      var s := RetriesRead(cfg, job, k - 1);
      end := RetryReads(cfg, s, k, job);
    }
  }

  /** Then one more Retry queues the job, and worker k + 2 executes it. */
  lemma RetriesGoStale(cfg: Config, job: Id, k: nat) returns (end: State)
    requires !cfg.serialRetry
    ensures Reachable(cfg, end) && InHand(Shared(end), job)
    ensures forall t | t in end.threads :: t <= k + 2 && (1 <= t <= k || t == k + 2 || end.threads[t].Finished?)
    ensures k + 2 in end.threads && end.threads[k + 2] == Inferring(Payload(job, 2))
    ensures forall t | 1 <= t <= k :: t in end.threads && end.threads[t] == ReleasingFailed(job, 1)
  {
    var s := RetriesRead(cfg, job, k);
    var s1 := RetryQueues(cfg, s, k + 1, job);
    end := WorkerExecutes(cfg, s1, k + 2, Payload(job, 2));
  }

  // ---------------------------------------------------------------- CreateAsync

  lemma JobAppears(cfg: Config, s: State, t: ThreadId, call: Protocol.Call, job: Id, row: JobRow)
    returns (end: State)
    requires Reachable(cfg, s) && t !in s.threads && job !in s.jobs && call.key == ""
    requires row == NewRow(call.project, None, Created, 0, 5)
    ensures Reachable(cfg, end) && end.threads == s.threads[t := QueueingCreated(call, job)]
    ensures Shared(end) == Shared(s).(jobs := s.jobs[job := row]) && end.clock == s.clock
  {
    var s1 := Called(cfg, s, t, Inserting(call));
    LeadsNowhere(cfg, t, s1);
    end := Services.GoInserting(cfg, s1, s1, t, call, job, row);
    LeadsToReachable(cfg, t, s1, end);
  }

  /** A CreateAsync without a key is called and gets as far as its Enqueue. */
  lemma AboutToEnqueue(cfg: Config, s: State, t: ThreadId, call: Protocol.Call, job: Id) returns (end: State)
    requires Reachable(cfg, s) && t !in s.threads && job !in s.jobs && call.key == ""
    ensures Reachable(cfg, end) && end.threads == s.threads[t := Sending(call, job)] && end.clock == s.clock
    ensures CanMove(end.jobs, job, Queued) && end.jobs[job].attempts == 1 && end.redis == s.redis
  {
    var s1 := JobAppears(cfg, s, t, call, job, NewRow(call.project, None, Created, 0, 5));
    LeadsNowhere(cfg, t, s1);
    end := Services.GoQueueingCreated(cfg, s1, s1, t, call, job);
    LeadsToReachable(cfg, t, s1, end);
  }

  /** CreateAsync has enqueued its job and been told it has not. */
  lemma FalseError(cfg: Config, job: Id) returns (end: State)
    requires !cfg.honestCreate
    ensures Reachable(cfg, end) && Waiting(Shared(end), job, 1) && end.jobs[job].attempts == 1
    ensures end.threads == map[0 := MarkingFailed(job, Running, QueueError, false)]
  {
    var s := Start(cfg);
    var s1 := AboutToEnqueue(cfg, s, 0, Protocol.Call(0, ""), job);
    var sent := Sent(Payload(job, 1), 0, s1.clock, ByCreate);
    end := Issued(cfg, s1, 0, FaultAfter, Plan(sent, MarkingFailed(job, Running, QueueError, false)));
  }

  /** The job of worker 3, which is still executing it, is FAILED. */
  lemma FailedUnderWorker(cfg: Config, job: Id) returns (end: State)
    requires !cfg.honestCreate
    ensures Reachable(cfg, end) && OnlyAbout(end.redis, job)
    ensures CanMove(end.jobs, job, JobStatus.Failed) && end.jobs[job].attempts == 1
    ensures end.threads == map[0 := Finished(Errored), 3 := Inferring(Payload(job, 1))]
  {
    var s := FalseError(cfg, job);
    var s1 := WorkerExecutes(cfg, s, 3, Payload(job, 1));
    LeadsNowhere(cfg, 0, s1);
    end := Services.GoMarkingFailed(cfg, s1, s1, 0, job, Running, Created, QueueError, false, true);
    LeadsToReachable(cfg, 0, s1, end);
  }
}
