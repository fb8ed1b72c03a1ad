/** Dequeue and RequeueExpired as threads of the protocol that nothing interrupts: statement by
    statement they come to what the methods of `RedisQueue` do. */
module QueueThreads {
  import opened JobTypes
  import opened JobStore
  import opened RedisStore
  import opened Protocol
  import opened Alone
  import Sweeps = QueueSweep
  import RedisQueue

  lemma {:induction false} FirstOfSweep(r: Redis, ids: seq<Id>, now: int)
    requires ids != []
    ensures SweepAll(r, ids, now) == SweepAll(SweepOne(r, ids[0], now), ids[1..], now)
  {
    var last := |ids| - 1;
    if last == 0 {
      assert SweepAll(r, ids[..0], now) == r;
    } else {
      FirstOfSweep(r, ids[..last], now);
      assert ids[..last][1..] == ids[1..][..last - 1] && ids[1..][last - 1] == ids[last];
    }
  }

  /** Only the queue and the thread's place have changed. */
  ghost predicate Queues(cfg: Config, s0: State, s: State, end: State, t: ThreadId, redis: Redis, pc: Pc) {
    Reaches(cfg, s0, s, end, t, Shared(s).(redis := redis), pc)
  }

  lemma AloneScript(cfg: Config, s0: State, s: State, t: ThreadId, now: int, ids: seq<Id>, full: bool, byWorker: bool)
    returns (end: State)
    requires IsAt(cfg, s0, s, t, Sweeping(now, ids, full, byWorker)) && ids != []
    ensures Queues(cfg, s0, s, end, t, SweepOne(s.redis, ids[0], now), Sweeping(now, ids[1..], full, byWorker))
  {
    if Due(s.redis, ids[0], now) {
      end := Statement(cfg, s0, s, t, Run, Plan(Swept(ids[0], now, s.clock), Sweeping(now, ids[1..], full, byWorker)));
    } else {
      end := Statement(cfg, s0, s, t, Run, Plan(Silent, Sweeping(now, ids[1..], full, byWorker)));
    }
  }

  /** A script that fails leaves its id where it is, and the sweep goes on with the next one. */
  lemma FailedScriptSkips(cfg: Config, s0: State, s: State, t: ThreadId, now: int, ids: seq<Id>, full: bool,
      byWorker: bool)
    returns (end: State)
    requires IsAt(cfg, s0, s, t, Sweeping(now, ids, full, byWorker)) && ids != []
    ensures Queues(cfg, s0, s, end, t, s.redis, Sweeping(now, ids[1..], full, byWorker))
  {
    end := Statement(cfg, s0, s, t, Fault, Plan(Silent, Sweeping(now, ids[1..], full, byWorker)));
  }

  /** The per-id scripts of one batch. */
  lemma {:induction false} AloneBatch(cfg: Config, s0: State, s: State, t: ThreadId, now: int, ids: seq<Id>,
      full: bool, byWorker: bool)
    returns (end: State)
    requires IsAt(cfg, s0, s, t, Sweeping(now, ids, full, byWorker))
    ensures Queues(cfg, s0, s, end, t, SweepAll(s.redis, ids, now), Sweeping(now, [], full, byWorker))
    decreases |ids|
  {
    if ids == [] {
      end := s;
      assert s.threads == s.threads[t := Sweeping(now, [], full, byWorker)];
    } else {
      var s1 := AloneScript(cfg, s0, s, t, now, ids, full, byWorker);
      FirstOfSweep(s.redis, ids, now);
      end := AloneBatch(cfg, s0, s1, t, now, ids[1..], full, byWorker);
    }
  }

  lemma AloneFetch(cfg: Config, s0: State, s: State, t: ThreadId, now: int, ids: seq<Id>, byWorker: bool)
    returns (end: State)
    requires IsAt(cfg, s0, s, t, SweepFetching(now, byWorker))
    requires ids == ZRangeByScore(s.redis.processing, Unix(s.clock), 100)
    ensures Queues(cfg, s0, s, end, t, s.redis,
                   if ids == [] then AfterSweep(byWorker) else Sweeping(now, ids, |ids| >= 100, byWorker))
  {
    var next := if ids == [] then AfterSweep(byWorker) else Sweeping(now, ids, |ids| >= 100, byWorker);
    end := Statement(cfg, s0, s, t, Run, Plan(Silent, next));
  }

  /** One round of the loop: the fetch by the clock as it is now, the scripts by the reading taken at entry, and
      the decision to go on. */
  lemma AloneRound(cfg: Config, s0: State, s: State, t: ThreadId, now: int, byWorker: bool) returns (end: State)
    requires IsAt(cfg, s0, s, t, SweepFetching(now, byWorker))
    ensures var later := Unix(s.clock);
            Queues(cfg, s0, s, end, t, Round(s.redis, now, later),
                   if LastRound(s.redis, later) then AfterSweep(byWorker) else SweepFetching(now, byWorker))
  {
    var ids := ZRangeByScore(s.redis.processing, Unix(s.clock), 100);
    end := AloneFetch(cfg, s0, s, t, now, ids, byWorker);
    if ids != [] {
      end := AloneBatch(cfg, s0, end, t, now, ids, |ids| >= 100, byWorker);
      end := AloneDecision(cfg, s0, end, t, now, |ids| >= 100, byWorker);
    }
  }

  lemma AloneDecision(cfg: Config, s0: State, s: State, t: ThreadId, now: int, full: bool, byWorker: bool)
    returns (end: State)
    requires IsAt(cfg, s0, s, t, Sweeping(now, [], full, byWorker))
    ensures Queues(cfg, s0, s, end, t, s.redis, if full then SweepFetching(now, byWorker) else AfterSweep(byWorker))
  {
    var next := if full then SweepFetching(now, byWorker) else AfterSweep(byWorker);
    end := Statement(cfg, s0, s, t, Run, Plan(Silent, next));
  }

  /** RequeueExpired, from its clock reading on, is the one-shot sweep. */
  lemma {:induction false} RequeueExpiredIsAProtocolRun(cfg: Config, s0: State, s: State, t: ThreadId, byWorker: bool)
    returns (end: State)
    requires IsAt(cfg, s0, s, t, SweepFetching(Unix(s.clock), byWorker))
    ensures Queues(cfg, s0, s, end, t, Sweep(s.redis, Unix(s.clock)), AfterSweep(byWorker))
    decreases |s.redis.processing|
  {
    var now := Unix(s.clock);
    assert Stuck(s.redis.processing, now, now) == {};
    Sweeps.RoundStep(s.redis, now, now);
    var s1 := AloneRound(cfg, s0, s, t, now, byWorker);
    if LastRound(s.redis, now) {
      Sweeps.NothingDue(s1.redis, now);
      end := s1;
    } else {
      end := RequeueExpiredIsAProtocolRun(cfg, s0, s1, t, byWorker);
      assert s1.threads[t := AfterSweep(byWorker)] == s.threads[t := AfterSweep(byWorker)];
    }
  }

  lemma AloneReading(cfg: Config, s: State, t: ThreadId, byWorker: bool) returns (end: State)
    requires t in s.threads && s.threads[t] == if byWorker then WorkerIdle else Housekeeping
    ensures Queues(cfg, s, s, end, t, s.redis, SweepFetching(Unix(s.clock), byWorker))
  {
    LeadsNowhere(cfg, t, s);
    end := Statement(cfg, s, s, t, Run, Plan(Silent, SweepFetching(Unix(s.clock), byWorker)));
  }

  /** The housekeeper can come up at any time and sweep, again and again. */
  lemma HousekeeperSweeps(cfg: Config, s: State, t: ThreadId) returns (end: State)
    requires Reachable(cfg, s) && t !in s.threads
    ensures Reachable(cfg, end) && end.threads == s.threads[t := Housekeeping]
    ensures Shared(end) == Shared(s).(redis := Sweep(s.redis, Unix(s.clock)))
  {
    var s1 := Called(cfg, s, t, Housekeeping);
    var s2 := AloneReading(cfg, s1, t, false);
    end := RequeueExpiredIsAProtocolRun(cfg, s1, s2, t, false);
    LeadsToReachable(cfg, t, s1, end);
  }

  /** However long a lease has been abandoned: once its time has come, a sweep lists the id again. */
  lemma AbandonedLeaseComesBack(cfg: Config, s: State, t: ThreadId, id: Id) returns (end: State)
    requires Reachable(cfg, s) && t !in s.threads && id in s.redis.processing
    ensures Reachable(cfg, end) && id in end.redis.queued
    ensures end.jobs == s.jobs && end.redis.payloads == s.redis.payloads
    ensures end.threads == s.threads[t := Housekeeping]
  {
    var wait := if s.redis.processing[id] > 0 then s.redis.processing[id] * SECOND else 0;
    var s1 := s.(clock := s.clock + wait);
    ReachableStep(cfg, s, Tick(wait), s1);
    end := HousekeeperSweeps(cfg, s1, t);
    RedisQueue.SweptIds(s1.redis, Unix(s1.clock), id);
  }

  lemma AloneFetching(cfg: Config, s0: State, s: State, t: ThreadId, id: Id, works: bool) returns (end: State)
    requires IsAt(cfg, s0, s, t, Fetching(id))
    ensures Queues(cfg, s0, s, end, t, s.redis,
                   if works && id in s.redis.payloads then Starting(s.redis.payloads[id]) else WorkerIdle)
  {
    var next := if works && id in s.redis.payloads then Starting(s.redis.payloads[id]) else WorkerIdle;
    end := Statement(cfg, s0, s, t, if works then Run else Fault, Plan(Silent, next));
  }

  /** Where a Dequeue stands with what it has to hand out: waiting, starting on a payload, or given up. */
  function Standing(d: RedisQueue.Delivery, deadline: int): Pc {
    match d
    case Empty => Blocking(deadline)
    case Delivered(p) => Starting(p)
    case _ => WorkerIdle
  }

  /** Where it stands after a claim from the state `r`, whose payload it may fail to read. */
  function Outcome(r: Redis, deadline: int, got: bool): Pc {
    if r.queued != [] && !got then WorkerIdle else Standing(RedisQueue.NextDelivery(r), deadline)
  }

  lemma AloneClaiming(cfg: Config, s0: State, s: State, t: ThreadId, deadline: int, got: bool) returns (end: State)
    requires IsAt(cfg, s0, s, t, Claiming(deadline))
    ensures Queues(cfg, s0, s, end, t, if s.redis.queued == [] then s.redis else Claim(s.redis, deadline),
                   Outcome(s.redis, deadline, got))
  {
    if s.redis.queued == [] {
      end := Statement(cfg, s0, s, t, Run, Plan(Silent, Blocking(deadline)));
    } else {
      var id := NextPop(s.redis);
      var s1 := Statement(cfg, s0, s, t, Run, Plan(Claimed(id, deadline), Fetching(id)));
      end := AloneFetching(cfg, s0, s1, t, id, got);
    }
  }

  lemma AloneGivingUp(cfg: Config, s0: State, s: State, t: ThreadId, pc: Pc) returns (end: State)
    requires IsAt(cfg, s0, s, t, pc) && (pc.Claiming? || pc.Blocking? || pc.SweepFetching?)
    ensures Queues(cfg, s0, s, end, t, s.redis, if pc.SweepFetching? && !pc.byWorker then Housekeeping else WorkerIdle)
  {
    var next := if pc.SweepFetching? && !pc.byWorker then Housekeeping else WorkerIdle;
    end := Statement(cfg, s0, s, t, Fault, Plan(Silent, next));
  }

  lemma AloneArming(cfg: Config, s0: State, s: State, t: ThreadId, deadline: int) returns (end: State)
    requires IsAt(cfg, s0, s, t, Arming) && deadline == Unix(s.clock + VISIBILITY)
    ensures Queues(cfg, s0, s, end, t, s.redis, Claiming(deadline))
  {
    end := Statement(cfg, s0, s, t, Run, Plan(Silent, Claiming(deadline)));
  }

  /** Dequeue, called by an idle worker, whichever of its statements fail: the stores end as the method leaves
      them, and the worker holds the payload the method returns, waits where the method reports an empty queue,
      or is idle again. */
  lemma DequeueIsAProtocolRun(cfg: Config, s: State, t: ThreadId, down: set<RedisQueue.Site>) returns (end: State)
    requires t in s.threads && s.threads[t] == WorkerIdle
    ensures var now, deadline := Unix(s.clock), Unix(s.clock + VISIBILITY);
            Queues(cfg, s, s, end, t, RedisQueue.Dequeued(s.redis, now, deadline, down),
                   Standing(RedisQueue.Handed(s.redis, now, down), deadline))
  {
    var deadline := Unix(s.clock + VISIBILITY);
    end := AloneReading(cfg, s, t, true);
    if RedisQueue.AtFetch in down {
      end := AloneGivingUp(cfg, s, end, t, SweepFetching(Unix(s.clock), true));
    } else {
      end := RequeueExpiredIsAProtocolRun(cfg, s, end, t, true);
      end := AloneArming(cfg, s, end, t, deadline);
      if RedisQueue.AtClaim in down {
        end := AloneGivingUp(cfg, s, end, t, Claiming(deadline));
      } else {
        end := AloneClaiming(cfg, s, end, t, deadline, RedisQueue.AtGet !in down);
      }
    }
  }

  // ---------------------------------------------------------------- a Dequeue that waits

  /** How the wait for an id goes on once one is listed: BRPOP fails, the ZADD after it does, the payload cannot
      be read, or all is well. */
  datatype Wait = PopFails | LeaseFails | GetFails | AllWell

  lemma AlonePopping(cfg: Config, s0: State, s: State, t: ThreadId, id: Id, deadline: int) returns (end: State)
    requires IsAt(cfg, s0, s, t, Blocking(deadline)) && s.redis.queued != [] && id == NextPop(s.redis)
    ensures Queues(cfg, s0, s, end, t, RPop(s.redis), Holding(id, deadline))
  {
    end := Statement(cfg, s0, s, t, Run, Plan(Popped(id), Holding(id, deadline)));
  }

  lemma AloneLeasing(cfg: Config, s0: State, s: State, t: ThreadId, id: Id, deadline: int) returns (end: State)
    requires IsAt(cfg, s0, s, t, Holding(id, deadline))
    ensures Queues(cfg, s0, s, end, t, ZAdd(s.redis, id, deadline), Fetching(id))
  {
    end := Statement(cfg, s0, s, t, Run, Plan(Leased(id, deadline), Fetching(id)));
  }

  lemma AloneReturning(cfg: Config, s0: State, s: State, t: ThreadId, id: Id, deadline: int) returns (end: State)
    requires IsAt(cfg, s0, s, t, Holding(id, deadline))
    ensures Queues(cfg, s0, s, end, t, LPush(s.redis, id), WorkerIdle)
  {
    var s1 := Statement(cfg, s0, s, t, Fault, Plan(Silent, PuttingBack(id)));
    end := Statement(cfg, s0, s1, t, Run, Plan(Returned(id), WorkerIdle));
  }

  /** A Dequeue that has waited for an id ends as if it had found it listed: BRPOP and ZADD together come to the
      claim, under the deadline taken before the wait. If BRPOP fails nothing has changed; if ZADD fails the id
      is listed again, behind all others. */
  lemma WaitingIsAProtocolRun(cfg: Config, s0: State, s: State, t: ThreadId, deadline: int, wait: Wait)
    returns (end: State)
    requires IsAt(cfg, s0, s, t, Blocking(deadline)) && s.redis.queued != []
    ensures Queues(cfg, s0, s, end, t,
                   match wait
                   case PopFails => s.redis
                   case LeaseFails => s.redis.(queued := [NextPop(s.redis)] + RPop(s.redis).queued)
                   case _ => Claim(s.redis, deadline),
                   if wait.PopFails? || wait.LeaseFails? then WorkerIdle
                   else Outcome(s.redis, deadline, wait.AllWell?))
  {
    var id := NextPop(s.redis);
    if wait.PopFails? {
      end := AloneGivingUp(cfg, s0, s, t, Blocking(deadline));
    } else {
      end := AlonePopping(cfg, s0, s, t, id, deadline);
      if wait.LeaseFails? {
        end := AloneReturning(cfg, s0, end, t, id, deadline);
      } else {
        end := AloneLeasing(cfg, s0, end, t, id, deadline);
        end := AloneFetching(cfg, s0, end, t, id, wait.AllWell?);
      }
    }
  }

  /** While nothing is listed it tries the claim again, under the same deadline. */
  lemma WaitGoesOn(cfg: Config, s0: State, s: State, t: ThreadId, deadline: int) returns (end: State)
    requires IsAt(cfg, s0, s, t, Blocking(deadline)) && s.redis.queued == []
    ensures Queues(cfg, s0, s, end, t, s.redis, Claiming(deadline))
  {
    end := Statement(cfg, s0, s, t, Run, Plan(Silent, Claiming(deadline)));
  }
}
