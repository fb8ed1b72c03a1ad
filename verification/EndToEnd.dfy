/** One job from CreateAsync to SUCCESS. */
module EndToEnd {
  import opened JobTypes
  import opened JobStore
  import opened RedisStore
  import opened Protocol
  import opened Alone
  import Sweeps = QueueSweep
  import RedisQueue
  import QueueThreads
  import Services
  import Worker

  /** CreateAsync queues a new job and lists it as the only id. */
  lemma CreatorLists(cfg: Config, s: State, creator: ThreadId, call: Protocol.Call, id: Id) returns (end: State)
    requires creator in s.threads && id !in s.jobs && forall other :: !HasKey(s.jobs, other, call)
    requires s.threads[creator] == if call.key == "" then Inserting(call) else LookingUp(call)
    ensures Leads(cfg, creator, s, end) && end.clock == s.clock
    ensures end.threads == s.threads[creator := Finished(CreateReturned(call, id))]
    ensures end.jobs.Keys == s.jobs.Keys + {id} && CanMove(end.jobs, id, Queued) && end.jobs[id].attempts == 1
    ensures end.results == s.results && end.redis == Enqueue(s.redis, Payload(id, 1), s.clock, 0)
  {
    var env := Services.Env(None, id, {});
    end := Services.CreateAsyncIsAProtocolRun(cfg, s, creator, call, env);
  }

  /** An idle worker sweeps and starts on the payload of the oldest listed id. */
  lemma WorkerStarts(cfg: Config, s: State, worker: ThreadId, p: Payload) returns (end: State)
    requires worker in s.threads && s.threads[worker] == WorkerIdle
    requires s.redis.queued != [] && NextPop(s.redis) == p.job
    requires p.job in s.redis.payloads && s.redis.payloads[p.job] == p
    ensures var redis := RedisQueue.Dequeued(s.redis, Unix(s.clock), Unix(s.clock + VISIBILITY), {});
            Reaches(cfg, s, s, end, worker, Shared(s).(redis := redis), Starting(p))
  {
    SweptPops(s.redis, Unix(s.clock));
    end := QueueThreads.DequeueIsAProtocolRun(cfg, s, worker, {});
  }

  /** A sweep puts what it finds behind the ids that are listed. */
  lemma SweptPops(r: Redis, now: int)
    requires r.queued != []
    ensures Sweep(r, now).queued != [] && NextPop(Sweep(r, now)) == NextPop(r)
    ensures Sweep(r, now).payloads == r.payloads
  {}

  /** A successful inference leaves the job SUCCESS with one result and no trace in the queue. */
  lemma WorkerFinishes(cfg: Config, s: State, worker: ThreadId, p: Payload) returns (end: State)
    requires worker in s.threads && s.threads[worker] == Starting(p)
    requires CanMove(s.jobs, p.job, Queued) && !HasResult(s.results, p.job)
    ensures Leads(cfg, worker, s, end) && end.threads == s.threads[worker := WorkerIdle]
    ensures end.jobs.Keys == s.jobs.Keys && CanMove(end.jobs, p.job, Success)
    ensures end.results == s.results + [ResultRow(p.job, Success)] && end.redis == Ack(s.redis, p.job)
  {
    end := Worker.ProcessIsAProtocolRun(cfg, s, worker, p, None, 0, {});
  }

  lemma WorkerStartsAndFinishes(cfg: Config, s: State, worker: ThreadId, p: Payload) returns (end: State)
    requires Reachable(cfg, s) && worker in s.threads && s.threads[worker] == WorkerIdle
    requires s.redis.queued == [p.job] && UpTo(s.redis.processing, Unix(s.clock)) == {}
    requires p.job in s.redis.payloads && s.redis.payloads[p.job] == p
    requires CanMove(s.jobs, p.job, Queued) && !HasResult(s.results, p.job)
    ensures Reachable(cfg, end) && CanMove(end.jobs, p.job, Success)
    ensures end.results == s.results + [ResultRow(p.job, Success)] && end.threads == s.threads
    ensures end.redis == Ack(Claim(s.redis, Unix(s.clock + VISIBILITY)), p.job)
  {
    Sweeps.NothingDue(s.redis, Unix(s.clock));
    var s1 := WorkerStarts(cfg, s, worker, p);
    LeadsToReachable(cfg, worker, s, s1);
    end := WorkerFinishes(cfg, s1, worker, p);
    LeadsToReachable(cfg, worker, s1, end);
    assert s.threads[worker := Starting(p)][worker := WorkerIdle] == s.threads;
  }

  /** Nothing in the protocol stands in the way of success: from any reachable state with an empty list
      and no expired lease, a CreateAsync call and an idle worker can take a new job to SUCCESS, with
      one result row and the queue as it was. */
  lemma UndisturbedJobSucceeds(cfg: Config, s: State, creator: ThreadId, worker: ThreadId, call: Protocol.Call, id: Id)
    returns (end: State)
    requires Reachable(cfg, s) && creator in s.threads && worker in s.threads && s.threads[worker] == WorkerIdle
    requires s.threads[creator] == if call.key == "" then Inserting(call) else LookingUp(call)
    requires id !in s.jobs && !HasResult(s.results, id) && forall other :: !HasKey(s.jobs, other, call)
    requires s.redis.queued == [] && UpTo(s.redis.processing, Unix(s.clock)) == {}
    ensures Reachable(cfg, end) && CanMove(end.jobs, id, Success)
    ensures end.results == s.results + [ResultRow(id, Success)] && end.redis == Ack(s.redis, id)
    ensures end.threads == s.threads[creator := Finished(CreateReturned(call, id))]
  {
    var p := Payload(id, 1);
    var s1 := CreatorLists(cfg, s, creator, call, id);
    LeadsToReachable(cfg, creator, s, s1);
    assert s1.redis.processing == s.redis.processing;
    end := WorkerStartsAndFinishes(cfg, s1, worker, p);
    NoTrace(s.redis, p, s.clock, Unix(s1.clock + VISIBILITY));
  }

  /** In particular a new call and a new worker can. */
  lemma NewJobSucceeds(cfg: Config, s: State, creator: ThreadId, worker: ThreadId, call: Protocol.Call, id: Id)
    returns (end: State)
    requires Reachable(cfg, s) && creator !in s.threads && worker !in s.threads && creator != worker
    requires id !in s.jobs && !HasResult(s.results, id) && forall other :: !HasKey(s.jobs, other, call)
    requires s.redis.queued == [] && UpTo(s.redis.processing, Unix(s.clock)) == {}
    ensures Reachable(cfg, end) && CanMove(end.jobs, id, Success)
    ensures end.results == s.results + [ResultRow(id, Success)] && end.redis == Ack(s.redis, id)
    ensures end.threads == s.threads[creator := Finished(CreateReturned(call, id))][worker := WorkerIdle]
  {
    var s1 := Called(cfg, s, creator, if call.key == "" then Inserting(call) else LookingUp(call));
    var s2 := Called(cfg, s1, worker, WorkerIdle);
    end := UndisturbedJobSucceeds(cfg, s2, creator, worker, call, id);
  }

  /** Enqueueing, claiming and acknowledging an id leaves no trace of it. */
  lemma NoTrace(r: Redis, p: Payload, now: Time, deadline: int)
    requires r.queued == []
    ensures Ack(Claim(Enqueue(r, p, now, 0), deadline), p.job) == Ack(r, p.job)
  {
    assert r.processing[p.job := deadline] - {p.job} == r.processing - {p.job};
    assert r.payloads[p.job := p] - {p.job} == r.payloads - {p.job};
  }
}
