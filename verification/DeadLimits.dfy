/** MarkDead asks for a RETRYING row, and a worker that calls it has left its row RUNNING. Runs in which
    another thread has made the row RETRYING by then, and the configurations that have such runs. */
module DeadLimits {
  import opened JobTypes
  import opened JobStore
  import opened Backoff
  import opened Protocol
  import opened Alone
  import opened Drives
  import opened RetryFate
  import AttemptLimit
  import RedisStore
  import Services
  import Worker

  // ---------------------------------------------------------------- one worker

  /** A worker out of attempts fails and finds the row RETRYING: it marks the job DEAD. */
  lemma FailureMarksDead(cfg: Config, s: State, w: ThreadId, p: Payload) returns (end: State)
    requires Reachable(cfg, s) && w in s.threads && s.threads[w] == Inferring(p)
    requires CanMove(s.jobs, p.job, Retrying) && p.attempt + 1 >= cfg.maxAttempts
    ensures Reachable(cfg, end) && CanMove(end.jobs, p.job, Dead)
  {
    var s1 := InferenceFails(cfg, s, w, p);
    LeadsNowhere(cfg, w, s1);
    end := Worker.GoMarkingDead(cfg, s1, s1, w, p, MLServiceError, true);
    LeadsToReachable(cfg, w, s1, end);
  }

  /** A worker with attempts left, its inference failed, finds the row RETRYING and goes on to
      re-enqueue its payload. */
  lemma FailureAcks(cfg: Config, s: State, w: ThreadId, p: Payload) returns (end: State)
    requires Reachable(cfg, s) && w in s.threads && s.threads[w] == RetryingFailed(p)
    requires CanMove(s.jobs, p.job, Retrying)
    ensures Reachable(cfg, end) && end.threads == s.threads[w := Resending(p)] && end.clock == s.clock
    ensures Shared(end) == Shared(s).(redis := RedisStore.Ack(s.redis, p.job))
  {
    LeadsNowhere(cfg, w, s);
    var s1 := Worker.GoRetryingFailed(cfg, s, s, w, p, true);
    var s2 := Worker.GoRetryingRunning(cfg, s, s1, w, p, true);
    end := Worker.GoAckingRetry(cfg, s, s2, w, p, true);
    LeadsToReachable(cfg, w, s, end);
  }

  /** A worker with attempts left fails and makes the RUNNING row RETRYING. */
  lemma FailureReleases(cfg: Config, s: State, w: ThreadId, p: Payload) returns (end: State)
    requires Reachable(cfg, s) && w in s.threads && s.threads[w] == Inferring(p)
    requires CanMove(s.jobs, p.job, Running) && p.attempt + 1 < cfg.maxAttempts
    ensures Reachable(cfg, end) && CanMove(end.jobs, p.job, Retrying) && end.threads == s.threads[w := AckingRetry(p)]
  {
    var s1 := InferenceFails(cfg, s, w, p);
    LeadsNowhere(cfg, w, s1);
    var s2 := Worker.GoRetryingFailed(cfg, s1, s1, w, p, true);
    end := Worker.GoRetryingRunning(cfg, s1, s2, w, p, true);
    LeadsToReachable(cfg, w, s1, end);
  }

  // ---------------------------------------------------------------- an Enqueue that reports a false error

  /** At most two attempts: a Retry releases the FAILED job while the worker is still executing it. */
  lemma FalseErrorAndTwoAttempts(cfg: Config, job: Id) returns (end: State)
    requires !cfg.honestCreate && cfg.maxAttempts <= 2
    ensures Reachable(cfg, end) && CanMove(end.jobs, job, Dead)
  {
    var s := FailedUnderWorker(cfg, job);
    var s1 := RetryReads(cfg, s, 2, job);
    var s2 := FailedReleased(cfg, s1, 2, job, 1);
    end := FailureMarksDead(cfg, s2, 3, Payload(job, 1));
  }

  lemma FailedReleased(cfg: Config, s: State, t: ThreadId, job: Id, n: nat) returns (end: State)
    requires Reachable(cfg, s) && t in s.threads && s.threads[t] == ReleasingFailed(job, n)
    requires CanMove(s.jobs, job, JobStatus.Failed)
    ensures Reachable(cfg, end) && CanMove(end.jobs, job, Retrying)
    ensures end.threads == s.threads[t := RequeueingCreated(job, n)]
  {
    LeadsNowhere(cfg, t, s);
    end := Services.GoReleasingFailed(cfg, s, s, t, job, n);
    LeadsToReachable(cfg, t, s, end);
  }

  /** Three attempts: the Retry gets a second worker to execute the job, and then both fail. */
  lemma FalseErrorAndThreeAttempts(cfg: Config, job: Id) returns (end: State)
    requires !cfg.honestCreate && cfg.maxAttempts == 3
    ensures Reachable(cfg, end) && CanMove(end.jobs, job, Dead)
  {
    var s := FailedUnderWorker(cfg, job);
    var s1 := RetryQueues(cfg, s, 2, job);
    var s2 := WorkerExecutes(cfg, s1, 4, Payload(job, 2));
    var s3 := FailureReleases(cfg, s2, 3, Payload(job, 1));
    end := FailureMarksDead(cfg, s3, 4, Payload(job, 2));
  }

  // ---------------------------------------------------------------- stale Retry calls

  /** Worker `w` executes attempt `p.attempt`, and Retry calls 1 to `k` have read the job as FAILED. */
  ghost predicate Escalating(s: State, w: ThreadId, p: Payload, k: nat) {
    && w > k && w in s.threads && s.threads[w] == Inferring(p) && InHand(Shared(s), p.job)
    && forall t | 1 <= t <= k :: t in s.threads && s.threads[t] == ReleasingFailed(p.job, 1)
  }

  /** The worker fails, the last of the Retry calls releases the row under it, and the worker goes on
      to re-enqueue its payload. */
  lemma RetryReleasesFirst(cfg: Config, s: State, w: ThreadId, p: Payload, k: nat) returns (end: State)
    requires Reachable(cfg, s) && Escalating(s, w, p, k) && k >= 1 && p.attempt + 1 < cfg.maxAttempts
    ensures Reachable(cfg, end) && CanMove(end.jobs, p.job, Retrying) && OnlyAbout(end.redis, p.job)
    ensures end.threads == s.threads[k := RequeueingCreated(p.job, 1)][w := Resending(p)]
  {
    var s1 := InferenceFails(cfg, s, w, p);
    var s2 := StaleRetryReleases(cfg, s1, k, p.job, 1);
    end := FailureAcks(cfg, s2, w, p);
  }

  /** The Retry lists the id; the worker's own Enqueue then overwrites the payload. */
  lemma WorkerResends(cfg: Config, s: State, w: ThreadId, p: Payload) returns (end: State)
    requires Reachable(cfg, s) && w in s.threads && s.threads[w] == Resending(p)
    requires Waiting(Shared(s), p.job, 2)
    ensures Reachable(cfg, end) && Waiting(Shared(end), p.job, p.attempt + 1)
    ensures end.threads == s.threads[w := WorkerIdle]
  {
    LeadsNowhere(cfg, w, s);
    end := Worker.GoResending(cfg, s, s, w, p, 0, true);
    ParkedWaits(Shared(s), p, s.clock);
    LeadsToReachable(cfg, w, s, end);
  }

  lemma ParkedWaits(st: Stores, p: Payload, now: Time)
    requires Waiting(st, p.job, 2)
    ensures Waiting(Worker.Parked(st, p, 0, now), p.job, p.attempt + 1)
  {}

  /** With one stale Retry less, the worker executes the next attempt. */
  lemma Escalate(cfg: Config, s: State, w: ThreadId, p: Payload, k: nat) returns (end: State)
    requires Reachable(cfg, s) && Escalating(s, w, p, k) && k >= 1 && p.attempt + 1 < cfg.maxAttempts
    ensures Reachable(cfg, end) && Escalating(end, w, Worker.Next(p), k - 1)
  {
    var s1 := RetryReleasesFirst(cfg, s, w, p, k);
    var s2 := ReleasedIsQueued(cfg, s1, k, p.job, 1);
    var s3 := WorkerResends(cfg, s2, w, p);
    end := WorkerTakes(cfg, s3, w, Worker.Next(p));
  }

  /** With so many stale Retry calls less, it executes attempt `n`. */
  lemma {:induction false} EscalatesTo(cfg: Config, s: State, w: ThreadId, p: Payload, k: nat, n: nat)
    returns (end: State)
    requires Reachable(cfg, s) && Escalating(s, w, p, k)
    requires p.attempt <= n < p.attempt + k && (p.attempt < n ==> n < cfg.maxAttempts)
    ensures Reachable(cfg, end) && Escalating(end, w, p.(attempt := n), k - (n - p.attempt))
    decreases k
  {
    if p.attempt < n {
      var s1 := Escalate(cfg, s, w, p, k);
      end := EscalatesTo(cfg, s1, w, Worker.Next(p), k - 1, n);
      assert Worker.Next(p).(attempt := n) == p.(attempt := n);
    } else {
      end := s;
      assert p.(attempt := n) == p;
    }
  }

  lemma LastAttemptDies(cfg: Config, s: State, w: ThreadId, p: Payload, k: nat) returns (end: State)
    requires Reachable(cfg, s) && Escalating(s, w, p, k) && k >= 1 && p.attempt + 1 >= cfg.maxAttempts
    ensures Reachable(cfg, end) && CanMove(end.jobs, p.job, Dead)
  {
    var s1 := StaleRetryReleases(cfg, s, k, p.job, 1);
    end := FailureMarksDead(cfg, s1, w, p);
  }

  /** Overlapping Retry calls, as many as there are attempts, take a job through all of them. */
  lemma StaleRetriesLetDeadThrough(cfg: Config, job: Id) returns (end: State)
    requires !cfg.serialRetry
    ensures Reachable(cfg, end) && CanMove(end.jobs, job, Dead)
  {
    var k := cfg.maxAttempts + 1;
    var last := if cfg.maxAttempts <= 3 then 2 else cfg.maxAttempts - 1;
    var s := RetriesGoStale(cfg, job, k);
    var s1 := EscalatesTo(cfg, s, k + 2, Payload(job, 2), k, last);
    end := LastAttemptDies(cfg, s1, k + 2, Payload(job, last), k - (last - 2));
  }

  // ---------------------------------------------------------------- exactly when

  /** DEAD is out of reach in every run exactly when Retry calls of a job do not overlap and, moreover,
      CreateAsync's Enqueue reports no false error or there are at least four attempts. */
  lemma DeadUnreachableExactlyWhen(cfg: Config)
    ensures (forall s | Reachable(cfg, s) :: NoneDead(s))
            <==> cfg.serialRetry && (cfg.honestCreate || cfg.maxAttempts >= 4)
  {
    if cfg.serialRetry && (cfg.honestCreate || cfg.maxAttempts >= 4) {
      forall s | Reachable(cfg, s) ensures NoneDead(s) {
        if cfg.honestCreate {
          DeadIsUnreachable(cfg, s);
        } else {
          AttemptLimit.TwoAttemptsAtMost(cfg, s);
        }
      }
    } else {
      var s := SomeoneDies(cfg, 7);
    }
  }

  lemma SomeoneDies(cfg: Config, job: Id) returns (end: State)
    requires !(cfg.serialRetry && (cfg.honestCreate || cfg.maxAttempts >= 4))
    ensures Reachable(cfg, end) && CanMove(end.jobs, job, Dead) && !NoneDead(end)
  {
    if !cfg.serialRetry {
      end := StaleRetriesLetDeadThrough(cfg, job);
    } else if cfg.maxAttempts == 3 {
      end := FalseErrorAndThreeAttempts(cfg, job);
    } else {
      end := FalseErrorAndTwoAttempts(cfg, job);
    }
  }
}
