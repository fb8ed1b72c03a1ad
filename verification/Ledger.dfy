/** How often a job is queued, started and executed, counted over the effects of whole runs. */
module Ledger {
  import opened JobTypes
  import opened JobStore
  import opened RedisStore
  import opened Protocol
  import opened PlanShape

  datatype Entry = Queueing | Start | QueueFailure | Inference

  /** `e` is an entry of this kind for `job`. */
  predicate Counts(e: Effect, job: Id, kind: Entry) {
    match kind
    case Queueing => e.Moved? && e.id == job && e.to == Queued
    case Start => e.Moved? && e.id == job && e.from == Queued && e.to == Running
    case QueueFailure => e.Moved? && e.id == job && e.from == Queued && e.to == Failed
    case Inference => e == Inferred(job)
  }

  function Count(log: seq<Effect>, job: Id, kind: Entry): nat {
    if log == [] then 0
    else Count(log[..|log| - 1], job, kind) + if Counts(log[|log| - 1], job, kind) then 1 else 0
  }

  lemma CountNext(log: seq<Effect>, e: Effect)
    ensures forall job, kind ::
              Count(log + [e], job, kind) == Count(log, job, kind) + if Counts(e, job, kind) then 1 else 0
  {
    assert (log + [e])[..|log|] == log;
  }

  // ---------------------------------------------------------------- queueings and starts

  /** A job has been queued once for each time it was started, once for each time it failed while
      queued, and once more if it is queued now. */
  predicate Balanced(s: State, job: Id) {
    Count(s.log, job, Queueing) ==
      Count(s.log, job, Start) + Count(s.log, job, QueueFailure) + if CanMove(s.jobs, job, Queued) then 1 else 0
  }

  lemma EffectKeepsBalance(s: State, e: Effect, job: Id)
    requires Applicable(s, e) && Balanced(s, job) && UsesCodeEdges(e)
    ensures Balanced(Apply(s, e), job)
  {
    CountNext(s.log, e);
  }

  lemma StepKeepsBalance(cfg: Config, s: State, e: Event, job: Id)
    requires Step(cfg, s, e).Some? && Balanced(s, job)
    ensures Balanced(Step(cfg, s, e).value, job)
  {
    match e
    case Do(t, c) =>
      PlansShaped(cfg, s, s.threads[t], c);
      EffectKeepsBalance(s, PlanOf(cfg, s, s.threads[t], c).value.effect, job);
    case Crash(t) => EffectKeepsBalance(s, CrashEffect(s.threads[t]), job);
    case _ =>
  }

  // ---------------------------------------------------------------- executions

  /** The threads at positions of a certain kind. */
  function Where(threads: map<ThreadId, Pc>, at: Pc -> bool): set<ThreadId> {
    set t | t in threads && at(threads[t])
  }

  function IsInferring(job: Id): Pc -> bool {
    (pc: Pc) => pc.Inferring? && pc.p.job == job
  }

  /** The workers that have started `job` and not yet called the model service. */
  function AtInference(threads: map<ThreadId, Pc>, job: Id): set<ThreadId> {
    Where(threads, IsInferring(job))
  }

  ghost predicate Covered(s: State, job: Id) {
    Count(s.log, job, Inference) + |AtInference(s.threads, job)| <= Count(s.log, job, Start)
  }

  lemma NobodyIs(at: Pc -> bool)
    ensures Where(map[], at) == {}
  {}

  lemma WhereWith(threads: map<ThreadId, Pc>, t: ThreadId, next: Pc, at: Pc -> bool)
    ensures |Where(threads[t := next], at)| == |Where(threads - {t}, at)| + if at(next) then 1 else 0
  {
    var others, all := Where(threads - {t}, at), Where(threads[t := next], at);
    forall u ensures u in all <==> u in others || (u == t && at(next)) {
      if u != t {
        assert u in threads[t := next] <==> u in threads;
        assert u in threads - {t} <==> u in threads;
      }
    }
    if at(next) {
      assert all == others + {t};
    } else {
      assert all == others;
    }
  }

  /** Replacing or removing one thread changes the number of threads of a kind accordingly. */
  lemma WhereNext(threads: map<ThreadId, Pc>, t: ThreadId, next: Pc, at: Pc -> bool)
    ensures var others := |Where(threads, at)| - if t in threads && at(threads[t]) then 1 else 0;
            && |Where(threads[t := next], at)| == others + (if at(next) then 1 else 0)
            && |Where(threads - {t}, at)| == others
  {
    WhereWith(threads, t, next, at);
    if t in threads {
      WhereWith(threads, t, threads[t], at);
      assert threads[t := threads[t]] == threads;
    } else {
      assert threads - {t} == threads;
    }
  }

  lemma StepKeepsCover(cfg: Config, s: State, e: Event, job: Id)
    requires Step(cfg, s, e).Some? && Covered(s, job)
    ensures Covered(Step(cfg, s, e).value, job)
  {
    match e
    case Tick(_) =>
    case Spawn(t, pc) => WhereNext(s.threads, t, pc, IsInferring(job));
    case Do(t, c) =>
      PlansShaped(cfg, s, s.threads[t], c);
      var plan := PlanOf(cfg, s, s.threads[t], c).value;
      WhereNext(s.threads, t, plan.next, IsInferring(job));
      CountNext(s.log, plan.effect);
    case Crash(t) =>
      WhereNext(s.threads, t, WorkerIdle, IsInferring(job));
      CountNext(s.log, CrashEffect(s.threads[t]));
  }

  lemma {:induction false} RunKeepsLedger(cfg: Config, states: seq<State>, events: seq<Event>, i: nat, job: Id)
    requires IsRun(cfg, states, events) && i < |states|
    ensures Balanced(states[i], job) && Covered(states[i], job)
  {
    if i == 0 {
      NobodyIs(IsInferring(job));
    } else {
      RunKeepsLedger(cfg, states, events, i - 1, job);
      assert Follows(cfg, states, events, i - 1);
      StepKeepsBalance(cfg, states[i - 1], events[i - 1], job);
      StepKeepsCover(cfg, states[i - 1], events[i - 1], job);
    }
  }

  /** The books of every job balance in every reachable state, and the model is never called for
      a job more often than the job was queued, however often the queue redelivers it. */
  lemma LedgerBalances(cfg: Config, s: State, job: Id)
    requires Reachable(cfg, s)
    ensures Count(s.log, job, Queueing) ==
              Count(s.log, job, Start) + Count(s.log, job, QueueFailure) + if CanMove(s.jobs, job, Queued) then 1 else 0
    ensures Count(s.log, job, Inference) <= Count(s.log, job, Start) <= Count(s.log, job, Queueing)
  {
    var states, events :| IsRun(cfg, states, events) && states[|events|] == s;
    RunKeepsLedger(cfg, states, events, |events|, job);
  }
}
