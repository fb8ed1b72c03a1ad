/** Stretches of a protocol run in which one thread moves and all others stand still. */
module Alone {
  import opened JobTypes
  import opened JobStore
  import opened RedisStore
  import opened Protocol

  /** Everything the threads share. */
  datatype Stores = Stores(jobs: Jobs, results: seq<ResultRow>, redis: Redis)

  function Shared(s: State): Stores {
    Stores(s.jobs, s.results, s.redis)
  }

  ghost predicate StepsBy(cfg: Config, t: ThreadId, s: State, s': State) {
    exists c :: Step(cfg, s, Do(t, c)) == Some(s')
  }

  ghost predicate Moves(cfg: Config, t: ThreadId, path: seq<State>, i: nat)
    requires i + 1 < |path|
  {
    StepsBy(cfg, t, path[i], path[i + 1])
  }

  ghost predicate IsStretch(cfg: Config, t: ThreadId, path: seq<State>) {
    path != [] && forall i {:trigger Moves(cfg, t, path, i)} | 0 <= i < |path| - 1 :: Moves(cfg, t, path, i)
  }

  /** Steps of thread `t` alone lead from `s` to `s'`. */
  ghost predicate Leads(cfg: Config, t: ThreadId, s: State, s': State) {
    exists path :: IsStretch(cfg, t, path) && path[0] == s && path[|path| - 1] == s'
  }

  lemma LeadsNowhere(cfg: Config, t: ThreadId, s: State)
    ensures Leads(cfg, t, s, s)
  {
    assert IsStretch(cfg, t, [s]);
  }

  lemma LongerStretch(cfg: Config, t: ThreadId, path: seq<State>, s': State)
    requires IsStretch(cfg, t, path) && StepsBy(cfg, t, path[|path| - 1], s')
    ensures IsStretch(cfg, t, path + [s'])
  {
    var longer := path + [s'];
    forall i | 0 <= i < |longer| - 1 ensures Moves(cfg, t, longer, i) {
      if i == |path| - 1 {
        assert longer[i] == path[|path| - 1] && longer[i + 1] == s';
      } else {
        assert Moves(cfg, t, path, i);
        assert longer[i] == path[i] && longer[i + 1] == path[i + 1];
      }
    }
  }

  lemma LeadsOn(cfg: Config, t: ThreadId, s0: State, s: State, s': State)
    requires Leads(cfg, t, s0, s) && StepsBy(cfg, t, s, s')
    ensures Leads(cfg, t, s0, s')
  {
    var path :| IsStretch(cfg, t, path) && path[0] == s0 && path[|path| - 1] == s;
    LongerStretch(cfg, t, path, s');
    var longer := path + [s'];
    assert longer[0] == s0 && longer[|longer| - 1] == s';
  }

  /** The thread's steps alone have taken it from `s0` to `s`, where it is at `pc`. */
  ghost predicate IsAt(cfg: Config, s0: State, s: State, t: ThreadId, pc: Pc) {
    Leads(cfg, t, s0, s) && t in s.threads && s.threads[t] == pc
  }

  /** They take it on from `s` to `end`, where it is at `pc` and the stores are `st`. */
  ghost predicate Reaches(cfg: Config, s0: State, s: State, end: State, t: ThreadId, st: Stores, pc: Pc) {
    Leads(cfg, t, s0, end) && end.threads == s.threads[t := pc] && end.clock == s.clock && Shared(end) == st
  }

  /** A statement that is executed, or fails. */
  function Answer(works: bool): Choice {
    if works then Run else Fault
  }

  function After(s: State, e: Effect): Stores
    requires Applicable(s, e)
  {
    Shared(Apply(s, e))
  }

  /** The thread's next statement, answered by `c`. */
  lemma Statement(cfg: Config, s0: State, s: State, t: ThreadId, c: Choice, plan: Plan) returns (s': State)
    requires Leads(cfg, t, s0, s) && t in s.threads && PlanOf(cfg, s, s.threads[t], c) == Some(plan)
    ensures Reaches(cfg, s0, s, s', t, After(s, plan.effect), plan.next)
  {
    s' := Apply(s, plan.effect).(threads := s.threads[t := plan.next]);
    assert Step(cfg, s, Do(t, c)) == Some(s');
    LeadsOn(cfg, t, s0, s, s');
  }

  /** A reachable state and one more step make a run. */
  lemma RunStep(cfg: Config, s: State, e: Event, s': State) returns (states: seq<State>, events: seq<Event>)
    requires Reachable(cfg, s) && Step(cfg, s, e) == Some(s')
    ensures IsRun(cfg, states, events) && |events| > 0 && events[|events| - 1] == e
    ensures states[|events| - 1] == s && states[|events|] == s'
  {
    var before, until :| IsRun(cfg, before, until) && before[|until|] == s;
    states, events := before + [s'], until + [e];
    forall i | 0 <= i < |events| ensures Follows(cfg, states, events, i) {
      if i < |until| {
        assert Follows(cfg, before, until, i);
      }
    }
  }

  lemma ReachableStep(cfg: Config, s: State, e: Event, s': State)
    requires Reachable(cfg, s) && Step(cfg, s, e) == Some(s')
    ensures Reachable(cfg, s')
  {
    var states, events := RunStep(cfg, s, e, s');
  }

  /** A thread comes up. */
  lemma Called(cfg: Config, s: State, t: ThreadId, pc: Pc) returns (s': State)
    requires Reachable(cfg, s) && t !in s.threads && EntryPoint(pc)
    requires cfg.serialRetry && pc.Asking? ==> !RetryInFlight(s, pc.job)
    ensures Reachable(cfg, s') && s'.threads == s.threads[t := pc]
    ensures Shared(s') == Shared(s) && s'.clock == s.clock && s'.log == s.log
  {
    s' := s.(threads := s.threads[t := pc]);
    ReachableStep(cfg, s, Spawn(t, pc), s');
  }

  lemma {:induction false} StretchIsReachable(cfg: Config, t: ThreadId, path: seq<State>, n: nat)
    requires IsStretch(cfg, t, path) && Reachable(cfg, path[0]) && n < |path|
    ensures Reachable(cfg, path[n])
  {
    if n > 0 {
      StretchIsReachable(cfg, t, path, n - 1);
      assert Moves(cfg, t, path, n - 1);
      assert StepsBy(cfg, t, path[n - 1], path[n]);
      var c :| Step(cfg, path[n - 1], Do(t, c)) == Some(path[n]);
      ReachableStep(cfg, path[n - 1], Do(t, c), path[n]);
    }
  }

  /** Such a stretch is part of a run of the whole system. */
  lemma LeadsToReachable(cfg: Config, t: ThreadId, s: State, s': State)
    requires Reachable(cfg, s) && Leads(cfg, t, s, s')
    ensures Reachable(cfg, s')
  {
    var path :| IsStretch(cfg, t, path) && path[0] == s && path[|path| - 1] == s';
    StretchIsReachable(cfg, t, path, |path| - 1);
  }
}
