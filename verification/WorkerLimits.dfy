/** How far what holds of workers and failed jobs depends on the configuration: for each property the exact
    condition, with a concrete run where it does not hold. */
module WorkerLimits {
  import opened JobTypes
  import opened JobStore
  import opened RedisStore
  import opened Backoff
  import opened Protocol
  import opened Alone
  import opened Drives
  import opened Exclusion
  import opened ExclusionLimits
  import opened RetryFate
  import Ledger
  import WorkerSends
  import FirstAttempt
  import AttemptLimit
  import DeadLimits
  import Services
  import Worker

  // ---------------------------------------------------------------- one start per job

  lemma TwoAtInference(s: State, job: Id, m: nat, n: nat)
    requires TwoExecute(s, job, m, n)
    ensures |Ledger.AtInference(s.threads, job)| >= 2
  {
    var at := Ledger.AtInference(s.threads, job);
    assert 3 in at && 4 in at;
    assert {3, 4} <= at;
    assert |at| == |{3, 4}| + |at - {3, 4}|;
  }

  lemma TwoStarts(cfg: Config, s: State, job: Id, m: nat, n: nat)
    requires Reachable(cfg, s) && TwoExecute(s, job, m, n)
    ensures Ledger.Count(s.log, job, Ledger.Start) >= 2
  {
    var states, events :| IsRun(cfg, states, events) && states[|events|] == s;
    Ledger.RunKeepsLedger(cfg, states, events, |events|, job);
    TwoAtInference(s, job, m, n);
  }

  /** In every run workers start every job at most once exactly under the two conditions of exclusive
      execution. */
  lemma StartedOnceExactlyWhen(cfg: Config)
    ensures (forall s, job | Reachable(cfg, s) :: Ledger.Count(s.log, job, Ledger.Start) <= 1)
            <==> cfg.serialRetry && cfg.honestCreate
  {
    if cfg.serialRetry && cfg.honestCreate {
      forall s, job | Reachable(cfg, s) ensures Ledger.Count(s.log, job, Ledger.Start) <= 1 {
        WorkerSends.WorkersStartAJobOnce(cfg, s, job);
      }
    } else if cfg.serialRetry {
      var s := FalseEnqueueError(cfg, 7);
      TwoStarts(cfg, s, 7, 1, 2);
    } else {
      var s := OverlappingRetries(cfg, 7);
      TwoStarts(cfg, s, 7, 2, 2);
    }
  }

  // ---------------------------------------------------------------- a retried job is never executed again

  ghost predicate NeverRunsAgain(cfg: Config, states: seq<State>, events: seq<Event>) {
    forall i: nat, t, job, k: nat | WorkerRetries(states, events, i, t, job) && i < k < |states| ::
      Unexecuted(states[k], job)
  }

  /** With two attempts at most no worker ever retries. */
  lemma NoRetryOfTwo(cfg: Config, states: seq<State>, events: seq<Event>, i: nat, t: ThreadId, job: Id)
    requires cfg.maxAttempts <= 2 && IsRun(cfg, states, events)
    ensures !WorkerRetries(states, events, i, t, job)
  {
    if WorkerRetries(states, events, i, t, job) {
      var s := states[i];
      WorkerSends.RunKeepsInv(cfg, states, events, i);
      StartedCounts(cfg, s, s.threads[t].p);
      assert false;
    }
  }

  /** A payload that was started carries attempt 1 at least. */
  lemma StartedCounts(cfg: Config, s: State, p: Payload)
    requires WorkerSends.SendsOk(cfg, s.log) && WorkerSends.StartedWith(s.log, p)
    ensures p.attempt >= 1 && WorkerSends.SentPayload(s.log, p)
  {
    var i, j :| 0 <= i < j < |s.log| && s.log[i].Sent? && s.log[i].p == p
                && Ledger.Counts(s.log[j], p.job, Ledger.Start);
    assert WorkerSends.SendOk(cfg, s.log, i);
  }

  /** Attempt 1 is CreateAsync's. */
  lemma FirstIsByCreate(cfg: Config, s: State, p: Payload)
    requires WorkerSends.SendsOk(cfg, s.log) && FirstAttempt.CountsOk(s)
    requires WorkerSends.SentPayload(s.log, p) && p.attempt == 1
    ensures FirstAttempt.SentByCreate(s.log, p.job)
  {
    var i :| 0 <= i < |s.log| && s.log[i].Sent? && s.log[i].p == p;
    assert WorkerSends.SendOk(cfg, s.log, i) && FirstAttempt.SendCounts(s.log[i]);
    if s.log[i].origin == ByWorker {
      NothingStartedWithZero(cfg, s.log, i, p.(attempt := 0));
    }
  }

  lemma NothingStartedWithZero(cfg: Config, log: seq<Effect>, i: nat, p: Payload)
    requires WorkerSends.SendsOk(cfg, log) && i < |log| && p.attempt == 0
    ensures !WorkerSends.StartedWith(log[..i], p)
  {
    forall j | 0 <= j < i && log[j].Sent? ensures log[j].p != p {
      assert WorkerSends.SendOk(cfg, log, j);
    }
  }

  /** With three attempts only the first is retried. */
  lemma RetriedIsFirst(cfg: Config, s: State, t: ThreadId)
    requires cfg.maxAttempts <= 3 && WorkerSends.Inv(cfg, s) && FirstAttempt.CountsOk(s)
    requires t in s.threads && (s.threads[t].RetryingFailed? || s.threads[t].RetryingRunning?)
    ensures FirstAttempt.SentByCreate(s.log, s.threads[t].p.job)
  {
    StartedCounts(cfg, s, s.threads[t].p);
    FirstIsByCreate(cfg, s, s.threads[t].p);
  }

  lemma ReleaseMovesOn(cfg: Config, s: State, t: ThreadId, s': State, job: Id)
    requires t in s.threads && Step(cfg, s, Do(t, Run)) == Some(s')
    requires (s.threads[t].RetryingFailed? || s.threads[t].RetryingRunning?) && s.threads[t].p.job == job
    requires !CanMove(s.jobs, job, Retrying) && CanMove(s'.jobs, job, Retrying)
    ensures s'.threads == s.threads[t := AckingRetry(s.threads[t].p)]
  {}

  /** It is alone. */
  lemma RetriedFirstIsAlone(s: State, t: ThreadId, s': State, job: Id)
    requires FirstAttempt.FirstInv(s) && FirstAttempt.SentByCreate(s.log, job)
    requires t in s.threads && Executes(s.threads[t], job)
    requires s.threads[t].RetryingFailed? || s.threads[t].RetryingRunning?
    requires s'.threads == s.threads[t := AckingRetry(s.threads[t].p)]
    ensures Unexecuted(s', job)
  {
    FirstAttempt.FirstHasOneExecutor(s, job, t);
  }

  lemma StepKeepsUnexecuted(cfg: Config, s: State, e: Event, job: Id)
    requires cfg.honestCreate && FirstAttempt.FirstInv(s) && Settled(s, job) && Unexecuted(s, job)
    requires Step(cfg, s, e).Some?
    ensures Unexecuted(Step(cfg, s, e).value, job)
  {
    if e.Do? {
      FirstAttempt.PlansOrderly(cfg, s, e.t, e.c);
    }
  }

  lemma UnexecutedNext(cfg: Config, states: seq<State>, events: seq<Event>, i: nat, job: Id)
    requires cfg.honestCreate && IsRun(cfg, states, events) && i < |events|
    requires Settled(states[i], job) && Unexecuted(states[i], job)
    ensures Unexecuted(states[i + 1], job)
  {
    FirstAttempt.RunKeepsFirst(cfg, states, events, i);
    assert Follows(cfg, states, events, i);
    StepKeepsUnexecuted(cfg, states[i], events[i], job);
  }

  lemma {:induction false} UnexecutedForever(cfg: Config, states: seq<State>, events: seq<Event>, i: nat, k: nat,
      job: Id)
    requires cfg.honestCreate && IsRun(cfg, states, events) && i <= k < |states|
    requires Settled(states[i], job) && Unexecuted(states[i], job)
    ensures Unexecuted(states[k], job)
    decreases k
  {
    if i < k {
      UnexecutedForever(cfg, states, events, i, k - 1, job);
      SettledForever(cfg, states, events, i, k - 1, job);
      UnexecutedNext(cfg, states, events, k - 1, job);
    }
  }

  lemma RetriedFirstNeverRunsAgain(cfg: Config, states: seq<State>, events: seq<Event>, i: nat, t: ThreadId, job: Id,
      k: nat)
    requires cfg.honestCreate && cfg.maxAttempts <= 3 && IsRun(cfg, states, events)
    requires WorkerRetries(states, events, i, t, job) && i < k < |states|
    ensures Unexecuted(states[k], job)
  {
    RunKeepsHands(cfg, states, events, i);
    WorkerSends.RunKeepsInv(cfg, states, events, i);
    FirstAttempt.RunKeepsFirst(cfg, states, events, i);
    assert Follows(cfg, states, events, i);
    WorkerRetrySettles(cfg, states[i], t, states[i + 1], job);
    RetriedIsFirst(cfg, states[i], t);
    ReleaseMovesOn(cfg, states[i], t, states[i + 1], job);
    RetriedFirstIsAlone(states[i], t, states[i + 1], job);
    UnexecutedForever(cfg, states, events, i + 1, k, job);
  }

  /** Worker 3 of two that execute the job fails and is about to release the RUNNING row. */
  lemma OneFails(cfg: Config, s: State, job: Id, m: nat, n: nat) returns (end: State)
    requires Reachable(cfg, s) && TwoExecute(s, job, m, n) && m + 1 < cfg.maxAttempts
    ensures Reachable(cfg, end) && CanMove(end.jobs, job, Running)
    ensures end.threads == s.threads[3 := RetryingRunning(Payload(job, m))]
  {
    var s1 := InferenceFails(cfg, s, 3, Payload(job, m));
    LeadsNowhere(cfg, 3, s1);
    end := Worker.GoRetryingFailed(cfg, s1, s1, 3, Payload(job, m), true);
    LeadsToReachable(cfg, 3, s1, end);
  }

  lemma RetriedJobStillRuns(cfg: Config, s: State, job: Id, m: nat, n: nat)
    returns (states: seq<State>, events: seq<Event>)
    requires Reachable(cfg, s) && TwoExecute(s, job, m, n) && m + 1 < cfg.maxAttempts
    ensures IsRun(cfg, states, events) && !NeverRunsAgain(cfg, states, events)
  {
    var s1 := OneFails(cfg, s, job, m, n);
    var release := Moved(job, Running, Retrying, Plain);
    var s2 := Apply(s1, release).(threads := s1.threads[3 := AckingRetry(Payload(job, m))]);
    assert Step(cfg, s1, Do(3, Run)) == Some(s2);
    states, events := RunStep(cfg, s1, Do(3, Run), s2);
    assert WorkerRetries(states, events, |events| - 1, 3, job);
    assert Executes(states[|events|].threads[4], job);
  }

  /** A job that a worker has marked RETRYING is never executed again in any run exactly when no worker ever
      retries, or CreateAsync's Enqueue reports no false error and Retry calls do not overlap or only first
      attempts are retried. */
  lemma RetriedJobNeverRunsAgainExactlyWhen(cfg: Config)
    ensures (forall states, events | IsRun(cfg, states, events) :: NeverRunsAgain(cfg, states, events))
            <==> cfg.maxAttempts <= 2 || (cfg.honestCreate && (cfg.serialRetry || cfg.maxAttempts == 3))
  {
    if cfg.maxAttempts <= 2 || (cfg.honestCreate && (cfg.serialRetry || cfg.maxAttempts == 3)) {
      forall states, events | IsRun(cfg, states, events) ensures NeverRunsAgain(cfg, states, events) {
        RunNeverRunsAgain(cfg, states, events);
      }
    } else if !cfg.honestCreate {
      var s := FalseEnqueueError(cfg, 7);
      var states, events := RetriedJobStillRuns(cfg, s, 7, 1, 2);
    } else {
      var s := OverlappingRetries(cfg, 7);
      var states, events := RetriedJobStillRuns(cfg, s, 7, 2, 2);
    }
  }

  lemma RunNeverRunsAgain(cfg: Config, states: seq<State>, events: seq<Event>)
    requires IsRun(cfg, states, events)
    requires cfg.maxAttempts <= 2 || (cfg.honestCreate && (cfg.serialRetry || cfg.maxAttempts == 3))
    ensures NeverRunsAgain(cfg, states, events)
  {
    forall i: nat, t, job, k: nat | WorkerRetries(states, events, i, t, job) && i < k < |states|
      ensures Unexecuted(states[k], job)
    {
      if cfg.maxAttempts <= 2 {
        NoRetryOfTwo(cfg, states, events, i, t, job);
      } else if cfg.serialRetry {
        RetriedJobNeverRunsAgain(cfg, states, events, i, t, job, k);
      } else {
        RetriedFirstNeverRunsAgain(cfg, states, events, i, t, job, k);
      }
    }
  }

  // ---------------------------------------------------------------- an abandoned job stays RUNNING

  ghost predicate StaysAbandoned(cfg: Config, states: seq<State>, events: seq<Event>) {
    forall i: nat, job, k: nat | i <= k < |states| && Abandoned(states[i], job) :: Abandoned(states[k], job)
  }

  /** Worker 3 dies. */
  lemma WorkerDies(cfg: Config, s: State, p: Payload) returns (end: State)
    requires Reachable(cfg, s) && 3 in s.threads && s.threads[3] == Inferring(p)
    ensures Reachable(cfg, end) && end.threads == s.threads - {3} && Shared(end) == Shared(s)
  {
    end := Apply(s, Silent).(threads := s.threads - {3});
    ReachableStep(cfg, s, Crash(3), end);
  }

  /** One more step of a thread that takes an abandoned job out of RUNNING. */
  lemma AbandonedMoves(cfg: Config, s: State, t: ThreadId, job: Id, plan: Plan)
    returns (states: seq<State>, events: seq<Event>)
    requires Reachable(cfg, s) && Abandoned(s, job) && t in s.threads
    requires PlanOf(cfg, s, s.threads[t], Run) == Some(plan) && !CanMove(NewJobs(s, plan.effect), job, Running)
    ensures IsRun(cfg, states, events) && !StaysAbandoned(cfg, states, events)
  {
    var s' := Apply(s, plan.effect).(threads := s.threads[t := plan.next]);
    states, events := RunStep(cfg, s, Do(t, Run), s');
    assert Abandoned(states[|events| - 1], job) && !Abandoned(states[|events|], job);
  }

  /** The worker dies, and a stale Retry is about to find its job. */
  lemma WorkerDiesFirst(cfg: Config, job: Id) returns (end: State)
    requires !cfg.serialRetry
    ensures Reachable(cfg, end) && Abandoned(end, job)
    ensures 1 in end.threads && end.threads[1] == ReleasingRunning(job, 1)
  {
    var s := RetriesGoStale(cfg, job, 1);
    var s1 := RetryMisses(cfg, s, 1, job, 1);
    end := WorkerDies(cfg, s1, Payload(job, 2));
    NobodyExecutes(s, end, job);
  }

  lemma NobodyExecutes(s: State, end: State, job: Id)
    requires end.threads == s.threads[1 := ReleasingRunning(job, 1)] - {3}
    requires forall t | t in s.threads && t != 1 && t != 3 :: s.threads[t].Finished?
    ensures Unexecuted(end, job)
  {}

  lemma StaleRetryFindsIt(cfg: Config, job: Id) returns (states: seq<State>, events: seq<Event>)
    requires !cfg.serialRetry
    ensures IsRun(cfg, states, events) && !StaysAbandoned(cfg, states, events)
  {
    var s := WorkerDiesFirst(cfg, job);
    var release := Plan(Moved(job, Running, Retrying, Plain), RequeueingCreated(job, 1));
    states, events := AbandonedMoves(cfg, s, 1, job, release);
  }

  lemma RetryMisses(cfg: Config, s: State, t: ThreadId, job: Id, n: nat) returns (end: State)
    requires Reachable(cfg, s) && CanMove(s.jobs, job, Running)
    requires t in s.threads && s.threads[t] == ReleasingFailed(job, n)
    ensures Reachable(cfg, end) && end.threads == s.threads[t := ReleasingRunning(job, n)]
    ensures CanMove(end.jobs, job, Running)
  {
    LeadsNowhere(cfg, t, s);
    end := Services.GoReleasingFailed(cfg, s, s, t, job, n);
    LeadsToReachable(cfg, t, s, end);
  }

  /** A CreateAsync that was told a false error marks it FAILED. */
  lemma FalseErrorFindsIt(cfg: Config, job: Id) returns (states: seq<State>, events: seq<Event>)
    requires !cfg.honestCreate
    ensures IsRun(cfg, states, events) && !StaysAbandoned(cfg, states, events)
  {
    var s := FalseError(cfg, job);
    var s1 := WorkerExecutes(cfg, s, 3, Payload(job, 1));
    var s2 := WorkerDies(cfg, s1, Payload(job, 1));
    var fail := Moved(job, Running, Failed, ErrorStamp(JobError(QueueError, ""), None));
    states, events := AbandonedMoves(cfg, s2, 0, job, Plan(fail, Finished(Errored)));
  }

  /** A RUNNING job that nobody executes stays so in every run exactly under the two conditions of exclusive
      execution: nothing but their violation ever gets a crashed worker's job going again. */
  lemma AbandonedStaysRunningExactlyWhen(cfg: Config)
    ensures (forall states, events | IsRun(cfg, states, events) :: StaysAbandoned(cfg, states, events))
            <==> cfg.serialRetry && cfg.honestCreate
  {
    if cfg.serialRetry && cfg.honestCreate {
      forall states, events | IsRun(cfg, states, events) ensures StaysAbandoned(cfg, states, events) {
        forall i: nat, job, k: nat | i <= k < |states| && Abandoned(states[i], job) ensures Abandoned(states[k], job) {
          AbandonedForever(cfg, states, events, i, k, job);
        }
      }
    } else if cfg.serialRetry {
      var states, events := FalseErrorFindsIt(cfg, 7);
    } else {
      var states, events := StaleRetryFindsIt(cfg, 7);
    }
  }

  // ---------------------------------------------------------------- delays

  /** Every re-enqueue by a worker is delayed by its backoff. */
  ghost predicate DelaysAreBackoffs(log: seq<Effect>) {
    forall k | 0 <= k < |log| && log[k].Sent? && log[k].origin == ByWorker :: IsBackoff(log[k].p.attempt, log[k].delay)
  }

  /** Attempt 33 fails and is re-enqueued: the delay of attempt 34 is negative. */
  lemma NegativeDelay(cfg: Config, job: Id) returns (end: State)
    requires !cfg.serialRetry && cfg.maxAttempts >= 35
    ensures Reachable(cfg, end) && !DelaysAreBackoffs(end.log)
  {
    var s, w := Attempt33Resends(cfg, job);
    var send := Sent(Payload(job, 34), RetryDelay(34, 0), s.clock, ByWorker);
    end := Issued(cfg, s, w, Jitter(0), Plan(send, WorkerIdle));
    DelayOf(34, 0);
    assert end.log[|s.log|] == send;
  }

  lemma Attempt33Resends(cfg: Config, job: Id) returns (end: State, w: ThreadId)
    requires !cfg.serialRetry && cfg.maxAttempts >= 35
    ensures Reachable(cfg, end) && w in end.threads && end.threads[w] == Resending(Payload(job, 33))
  {
    var k: nat := 34;
    w := k + 2;
    var s := RetriesGoStale(cfg, job, k);
    var s1 := DeadLimits.EscalatesTo(cfg, s, w, Payload(job, 2), k, 33);
    end := DeadLimits.RetryReleasesFirst(cfg, s1, w, Payload(job, 33), k - 31);
  }

  /** Every re-enqueue of every run is delayed by its backoff exactly when Retry calls of a job do not overlap
      or at most 34 attempts are configured. */
  lemma DelaysAreBackoffsExactlyWhen(cfg: Config)
    ensures (forall s | Reachable(cfg, s) :: DelaysAreBackoffs(s.log)) <==> cfg.serialRetry || cfg.maxAttempts <= 34
  {
    if cfg.serialRetry || cfg.maxAttempts <= 34 {
      forall s | Reachable(cfg, s) ensures DelaysAreBackoffs(s.log) {
        forall k | 0 <= k < |s.log| && s.log[k].Sent? && s.log[k].origin == ByWorker
          ensures IsBackoff(s.log[k].p.attempt, s.log[k].delay)
        {
          WorkerSends.WorkerSendsAreBackoffs(cfg, s, k);
          if cfg.maxAttempts > 34 {
            AttemptLimit.TwoAttemptsAtMost(cfg, s);
          }
        }
      }
    } else {
      var s := NegativeDelay(cfg, 7);
    }
  }
}
