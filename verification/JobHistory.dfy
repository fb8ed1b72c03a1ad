/** What every run does to the rows, in every configuration: which status changes occur, that a
    successful job keeps its one successful result, and how often a job can be executed. */
module JobHistory {
  import opened JobTypes
  import opened JobStore
  import opened RedisStore
  import opened Protocol
  import opened PlanShape

  // ---------------------------------------------------------------- status changes

  /** They are the documented transitions, minus the ones into CANCELLED and three more, plus
      one the table does not have. */
  lemma CodeEdgesAgainstTable(from: JobStatus, to: JobStatus)
    ensures CodeEdge(from, to) <==>
            || (from == Queued && to == Failed)
            || (ValidTransition(from, to) && to != Cancelled
                && (from, to) !in {(Queued, Retrying), (Queued, Dead), (Failed, Dead)})
  {}

  /** One step leaves a job's status alone or moves it along one edge; jobs do not disappear, and
      they start as CREATED or RUNNING. */
  ghost predicate StatusStep(before: Jobs, after: Jobs, job: Id) {
    if job in before then
      job in after && (after[job].status == before[job].status || CodeEdge(before[job].status, after[job].status))
    else
      job in after ==> after[job].status in {Created, Running}
  }

  lemma StepMovesAlongEdges(cfg: Config, s: State, e: Event, job: Id)
    requires Step(cfg, s, e).Some?
    ensures StatusStep(s.jobs, Step(cfg, s, e).value.jobs, job)
  {
    if e.Do? && e.t in s.threads {
      PlansShaped(cfg, s, s.threads[e.t], e.c);
    }
  }

  /** In any run a job's statuses from one moment to a later one form a path of allowed
      transitions and QUEUED to FAILED, given as the list of the states it passes through. */
  ghost predicate IsPath(path: seq<JobStatus>) {
    forall i | 0 <= i < |path| - 1 ::
      ValidTransition(path[i], path[i + 1]) || (path[i] == Queued && path[i + 1] == Failed)
  }

  lemma {:induction false} StatusHistory(cfg: Config, states: seq<State>, events: seq<Event>, i: nat, k: nat, job: Id)
    returns (path: seq<JobStatus>)
    requires IsRun(cfg, states, events) && i <= k < |states| && job in states[i].jobs
    ensures job in states[k].jobs
    ensures path != [] && path[0] == states[i].jobs[job].status && path[|path| - 1] == states[k].jobs[job].status
    ensures IsPath(path) && |path| <= k - i + 1
    ensures IsTerminal(states[i].jobs[job].status) ==> path == [states[i].jobs[job].status]
    decreases k
  {
    if i == k {
      path := [states[i].jobs[job].status];
    } else {
      var most := StatusHistory(cfg, states, events, i, k - 1, job);
      assert Follows(cfg, states, events, k - 1);
      StepMovesAlongEdges(cfg, states[k - 1], events[k - 1], job);
      var last, next := states[k - 1].jobs[job].status, states[k].jobs[job].status;
      CodeEdgesAgainstTable(last, next);
      path := if next == last then most else most + [next];
      if next != last {
        assert ValidTransition(last, next) || (last == Queued && next == Failed);
        TerminalIffNoWayOut(last);
      }
    }
  }

  // ---------------------------------------------------------------- results

  ghost predicate HasSuccess(results: seq<ResultRow>, job: Id) {
    exists i :: 0 <= i < |results| && results[i] == ResultRow(job, Success)
  }

  ghost predicate ResultsOk(s: State) {
    && (forall i, j | 0 <= i < j < |s.results| :: s.results[i].job != s.results[j].job)
    && (forall job | CanMove(s.jobs, job, Success) :: HasSuccess(s.results, job))
    && (forall t, job | t in s.threads && AboutToSucceed(s.threads[t], job) :: HasSuccess(s.results, job))
  }

  lemma SuccessStays(results: seq<ResultRow>, more: seq<ResultRow>, job: Id)
    requires HasSuccess(results, job) && results <= more
    ensures HasSuccess(more, job)
  {
    var i :| 0 <= i < |results| && results[i] == ResultRow(job, Success);
    assert more[i] == results[i];
  }

  lemma EffectKeepsResults(s: State, t: ThreadId, plan: Plan)
    requires ResultsOk(s) && t in s.threads && Applicable(s, plan.effect)
    requires PersistsFirst(s.threads[t], plan.effect, plan.next) && UsesCodeEdges(plan.effect)
    ensures ResultsOk(Apply(s, plan.effect).(threads := s.threads[t := plan.next]))
  {
    var s' := Apply(s, plan.effect).(threads := s.threads[t := plan.next]);
    forall job | HasSuccess(s.results, job) ensures HasSuccess(s'.results, job) {
      SuccessStays(s.results, s'.results, job);
    }
    if plan.effect.ResultInserted? {
      assert s'.results[|s.results|] == plan.effect.result;
    }
  }

  lemma StepKeepsResults(cfg: Config, s: State, e: Event)
    requires ResultsOk(s) && Step(cfg, s, e).Some?
    ensures ResultsOk(Step(cfg, s, e).value) && s.results <= Step(cfg, s, e).value.results
  {
    match e
    case Tick(_) =>
    case Spawn(t, pc) =>
    case Do(t, c) =>
      PlansShaped(cfg, s, s.threads[t], c);
      EffectKeepsResults(s, t, PlanOf(cfg, s, s.threads[t], c).value);
    case Crash(t) =>
  }

  lemma {:induction false} RunKeepsResults(cfg: Config, states: seq<State>, events: seq<Event>, i: nat, k: nat)
    requires IsRun(cfg, states, events) && i <= k < |states|
    ensures ResultsOk(states[i]) && ResultsOk(states[k]) && states[i].results <= states[k].results
    decreases k
  {
    if k > 0 {
      if i < k {
        RunKeepsResults(cfg, states, events, i, k - 1);
      } else {
        RunKeepsResults(cfg, states, events, k - 1, k - 1);
      }
      assert Follows(cfg, states, events, k - 1);
      StepKeepsResults(cfg, states[k - 1], events[k - 1]);
    }
  }

  /** From the moment a job is SUCCESS it has exactly one result row, that row says SUCCESS, and
      both stay so, whatever crashes, redeliveries and failure reports there are. */
  lemma SuccessHasOneResult(cfg: Config, states: seq<State>, events: seq<Event>, i: nat, k: nat, job: Id)
    requires IsRun(cfg, states, events) && i <= k < |states| && CanMove(states[i].jobs, job, Success)
    ensures CanMove(states[k].jobs, job, Success)
    ensures exists n :: 0 <= n < |states[i].results|
                    && n < |states[k].results|
                    && states[k].results[n] == states[i].results[n] == ResultRow(job, Success)
                    && forall m | 0 <= m < |states[k].results| && states[k].results[m].job == job :: m == n
  {
    RunKeepsResults(cfg, states, events, i, k);
    var path := StatusHistory(cfg, states, events, i, k, job);
    var n :| 0 <= n < |states[i].results| && states[i].results[n] == ResultRow(job, Success);
    assert states[k].results[n] == states[i].results[n];
  }
}
