/** Both conditions of exclusive execution are needed: without either of them some run lets two
    workers execute one job. */
module ExclusionLimits {
  import opened JobTypes
  import opened JobStore
  import opened Protocol
  import opened Alone
  import opened Drives
  import opened Exclusion

  /** Workers 3 and 4 execute attempts `m` and `n` of `job`. */
  predicate TwoExecute(s: State, job: Id, m: nat, n: nat) {
    && 3 in s.threads && s.threads[3] == Inferring(Payload(job, m))
    && 4 in s.threads && s.threads[4] == Inferring(Payload(job, n)) && CanMove(s.jobs, job, Running)
  }

  lemma NotExclusive(s: State, job: Id, m: nat, n: nat)
    requires TwoExecute(s, job, m, n)
    ensures !Exclusive(s)
  {
    assert Executes(s.threads[3], job) && Executes(s.threads[4], job);
  }

  /** A Retry that has read FAILED some time ago releases the RUNNING job and queues it. */
  lemma StaleRetryQueues(cfg: Config, s: State, t: ThreadId, job: Id, n: nat) returns (end: State)
    requires Reachable(cfg, s) && t in s.threads && s.threads[t] == ReleasingFailed(job, n)
    requires InHand(Shared(s), job)
    ensures Reachable(cfg, end) && Waiting(Shared(end), job, n + 1)
    ensures end.threads == s.threads[t := Finished(RetryReturned(job))]
  {
    var s1 := StaleRetryReleases(cfg, s, t, job, n);
    end := ReleasedIsQueued(cfg, s1, t, job, n);
  }

  /** Two overlapping Retry calls: the one that read the row first releases the job while the
      worker the other one has caused is executing it. */
  lemma OverlappingRetries(cfg: Config, job: Id) returns (end: State)
    requires !cfg.serialRetry
    ensures Reachable(cfg, end) && TwoExecute(end, job, 2, 2) && !Exclusive(end)
  {
    var s := RetriesGoStale(cfg, job, 1);
    var s1 := StaleRetryQueues(cfg, s, 1, job, 1);
    end := WorkerExecutes(cfg, s1, 4, Payload(job, 2));
    NotExclusive(end, job, 2, 2);
  }

  /** An Enqueue that reports an error although it happened: CreateAsync marks the job FAILED
      under the worker, and a Retry hands it to a second one. */
  lemma FalseEnqueueError(cfg: Config, job: Id) returns (end: State)
    requires !cfg.honestCreate
    ensures Reachable(cfg, end) && TwoExecute(end, job, 1, 2) && !Exclusive(end)
  {
    var s := FailedUnderWorker(cfg, job);
    var s1 := RetryQueues(cfg, s, 2, job);
    end := WorkerExecutes(cfg, s1, 4, Payload(job, 2));
    NotExclusive(end, job, 1, 2);
  }

  /** Execution is exclusive in every reachable state exactly when Retry calls of a job do not
      overlap and failed Enqueues enqueued nothing. */
  lemma ExclusiveExactlyWhen(cfg: Config)
    ensures (forall s | Reachable(cfg, s) :: Exclusive(s)) <==> cfg.serialRetry && cfg.honestCreate
  {
    if cfg.serialRetry && cfg.honestCreate {
      forall s | Reachable(cfg, s) ensures Exclusive(s) {
        ExclusiveExecution(cfg, s);
      }
    } else if cfg.serialRetry {
      var s := FalseEnqueueError(cfg, 7);
    } else {
      var s := OverlappingRetries(cfg, 7);
    }
  }
}
