/** The window between BRPOP and ZADD is the only place where the queue can lose an id. */
module QueueLimits {
  import opened JobTypes
  import opened JobStore
  import opened RedisStore
  import opened Protocol
  import opened Alone
  import opened PlanShape
  import opened QueueHistory
  import QueueThreads
  import RedisQueue
  import Sweeps = QueueSweep
  import opened Drives

  /** A Dequeue of the empty queue changes nothing and waits. */
  lemma NothingToDequeue(now: int, d: int)
    ensures RedisQueue.Dequeued(EMPTY, now, d, {}) == EMPTY
    ensures RedisQueue.Handed(EMPTY, now, {}) == RedisQueue.Empty
  {
    Sweeps.NothingDue(EMPTY, now);
  }

  /** A worker 3 waits in BRPOP. */
  lemma WorkerWaits(cfg: Config) returns (end: State, d: int)
    ensures Reachable(cfg, end) && end.jobs == map[] && end.redis == EMPTY && end.clock == 0
    ensures end.threads == map[3 := Blocking(d)]
  {
    var s := Start(cfg);
    var s1 := Called(cfg, s, 3, WorkerIdle);
    d := Unix(s1.clock + VISIBILITY);
    NothingToDequeue(Unix(s1.clock), d);
    end := QueueThreads.DequeueIsAProtocolRun(cfg, s1, 3, {});
    LeadsToReachable(cfg, 3, s1, end);
  }

  /** Meanwhile CreateAsync 0 has enqueued its job. */
  lemma JobArrives(cfg: Config, job: Id) returns (end: State, d: int)
    ensures Reachable(cfg, end) && end.redis.queued == [job] && end.redis.processing == map[] && Owed(end.log, job)
    ensures end.threads.Keys == {0, 3} && end.threads[0].Finished? && end.threads[3] == Blocking(d)
  {
    var s;
    s, d := WorkerWaits(cfg);
    var call := Protocol.Call(0, "");
    var s1 := AboutToEnqueue(cfg, s, 0, call, job);
    var sent := Sent(Payload(job, 1), 0, s1.clock, ByCreate);
    end := Issued(cfg, s1, 0, Run, Plan(sent, Finished(CreateReturned(call, job))));
    OwedNext(s1.log, sent);
  }

  /** The worker's BRPOP takes the id, and its reply gets lost: no client has died, and nothing is
      left of the id. */
  lemma ReplyIsLost(cfg: Config, job: Id) returns (end: State)
    requires cfg.windowFaults
    ensures Reachable(cfg, end) && Owed(end.log, job) && !Located(end, job)
    ensures end.threads.Keys == {0, 3}
  {
    var s, d := JobArrives(cfg, job);
    end := Issued(cfg, s, 3, FaultAfter, Plan(Dropped(job), WorkerIdle));
    OwedNext(s.log, Dropped(job));
    assert forall t | t in end.threads :: !HeldBy(end.threads[t], job);
  }

  /** The worker pops the id. */
  lemma IdIsHeld(cfg: Config, job: Id) returns (end: State, d: int)
    ensures Reachable(cfg, end) && Owed(end.log, job) && !Located(end.(threads := end.threads - {3}), job)
    ensures 3 in end.threads && end.threads[3] == Holding(job, d)
  {
    var s;
    s, d := JobArrives(cfg, job);
    end := Issued(cfg, s, 3, Run, Plan(Popped(job), Holding(job, d)));
    OwedNext(s.log, Popped(job));
    assert forall t | t in end.threads - {3} :: t == 0;
  }

  /** It dies: nothing is left of the id. */
  lemma IdIsLost(cfg: Config, job: Id) returns (end: State)
    requires cfg.windowFaults
    ensures Reachable(cfg, end) && Owed(end.log, job) && !Located(end, job)
  {
    var s, d := IdIsHeld(cfg, job);
    end := Apply(s, Lost(job)).(threads := s.threads - {3});
    ReachableStep(cfg, s, Crash(3), end);
    OwedNext(s.log, Lost(job));
  }

  /** Every owed id can still be found in every reachable state exactly when no id can get lost between
      BRPOP and ZADD. */
  lemma NoLossExactlyWhen(cfg: Config)
    ensures (forall s, id | Reachable(cfg, s) && Owed(s.log, id) :: Located(s, id)) <==> !cfg.windowFaults
  {
    if !cfg.windowFaults {
      forall s, id | Reachable(cfg, s) && Owed(s.log, id) ensures Located(s, id) {
        NoIdIsLost(cfg, s);
      }
    } else {
      var s := IdIsLost(cfg, 7);
    }
  }
}
