/** CreateAsync calls that share a project and an idempotency key create one job between them. */
module Idempotency {
  import opened JobTypes
  import opened JobStore
  import opened RedisStore
  import opened Protocol
  import opened PlanShape

  /** The partial unique index holds. */
  ghost predicate KeysUnique(jobs: Jobs) {
    forall a, b |
      a in jobs && b in jobs && jobs[a].key.Some? && jobs[a].project == jobs[b].project && jobs[a].key == jobs[b].key ::
      a == b
  }

  /** Rows keep their project and key. */
  ghost predicate KeysKept(before: Jobs, after: Jobs) {
    forall id | id in before ::
      id in after && after[id].project == before[id].project && after[id].key == before[id].key
  }

  ghost predicate Bound(jobs: Jobs, b: Option<(Call, Id)>) {
    b.Some? ==> b.value.1 in jobs && Carries(jobs[b.value.1], b.value.0)
  }

  /** How often CreateAsync has enqueued `job`. */
  function CreateSends(log: seq<Effect>, job: Id): nat {
    if log == [] then 0
    else
      var e := log[|log| - 1];
      CreateSends(log[..|log| - 1], job) + if e.Sent? && e.origin == ByCreate && e.p.job == job then 1 else 0
  }

  lemma CreateSendsNext(log: seq<Effect>, e: Effect)
    ensures forall job :: CreateSends(log + [e], job)
                          == CreateSends(log, job) + if e.Sent? && e.origin == ByCreate && e.p.job == job then 1 else 0
  {
    assert (log + [e])[..|log|] == log;
  }

  ghost predicate Inv(s: State) {
    && KeysUnique(s.jobs)
    && (forall t | t in s.threads :: Bound(s.jobs, Binding(s.threads[t])))
    && CreatorsDiffer(s.threads)
    && SendsOk(s)
  }

  lemma EffectKeepsKeys(s: State, e: Effect)
    requires Applicable(s, e) && KeysUnique(s.jobs)
    ensures KeysUnique(NewJobs(s, e)) && KeysKept(s.jobs, NewJobs(s, e))
  {}

  /** Another thread's binding survives the effect; a new row is nobody else's. */
  lemma OtherStaysBound(s: State, e: Effect, b: Option<(Call, Id)>)
    requires Applicable(s, e) && KeysUnique(s.jobs) && Bound(s.jobs, b)
    ensures Bound(NewJobs(s, e), b)
    ensures e.JobInserted? && b.Some? ==> b.value.1 != e.id
  {
    EffectKeepsKeys(s, e);
  }

  lemma MineGetsBound(s: State, pc: Pc, plan: Plan)
    requires Applicable(s, plan.effect) && KeysUnique(s.jobs) && Bound(s.jobs, Binding(pc))
    requires BindsInOrder(s, pc, plan.effect, plan.next)
    ensures Bound(NewJobs(s, plan.effect), Binding(plan.next))
    ensures forall job | Creating(plan.next, job) ::
              Creating(pc, job) || (plan.effect.JobInserted? && plan.effect.id == job)
  {
    EffectKeepsKeys(s, plan.effect);
  }

  ghost predicate SendsOk(s: State) {
    && (forall job :: CreateSends(s.log, job) <= if job in s.jobs then 1 else 0)
    && (forall t, job | t in s.threads && Creating(s.threads[t], job) :: CreateSends(s.log, job) == 0)
  }

  ghost predicate CreatorsDiffer(threads: map<ThreadId, Pc>) {
    forall t, u, job | t in threads && u in threads && Creating(threads[t], job) && Creating(threads[u], job) :: t == u
  }

  lemma EffectKeepsSends(s: State, t: ThreadId, plan: Plan)
    requires SendsOk(s) && CreatorsDiffer(s.threads) && t in s.threads && Applicable(s, plan.effect)
    requires BindsInOrder(s, s.threads[t], plan.effect, plan.next) && Bound(s.jobs, Binding(s.threads[t]))
    requires forall job | Creating(plan.next, job) ::
               Creating(s.threads[t], job) || (plan.effect.JobInserted? && plan.effect.id == job)
    ensures SendsOk(Apply(s, plan.effect).(threads := s.threads[t := plan.next]))
  {
    CreateSendsNext(s.log, plan.effect);
  }

  lemma CreatorsStayApart(s: State, t: ThreadId, plan: Plan)
    requires CreatorsDiffer(s.threads) && t in s.threads
    requires forall job | Creating(plan.next, job) ::
               Creating(s.threads[t], job) || (plan.effect.JobInserted? && plan.effect.id == job)
    requires plan.effect.JobInserted? ==> forall u | u in s.threads && u != t :: !Creating(s.threads[u], plan.effect.id)
    ensures CreatorsDiffer(s.threads[t := plan.next])
  {}

  lemma EffectKeepsInv(s: State, t: ThreadId, plan: Plan)
    requires Inv(s) && t in s.threads && Applicable(s, plan.effect)
    requires BindsInOrder(s, s.threads[t], plan.effect, plan.next)
    ensures Inv(Apply(s, plan.effect).(threads := s.threads[t := plan.next]))
  {
    var e := plan.effect;
    var s' := Apply(s, e).(threads := s.threads[t := plan.next]);
    EffectKeepsKeys(s, e);
    MineGetsBound(s, s.threads[t], plan);
    EffectKeepsSends(s, t, plan);
    forall u | u in s.threads && u != t
      ensures Bound(s'.jobs, Binding(s.threads[u]))
      ensures e.JobInserted? ==> !Creating(s.threads[u], e.id)
    {
      OtherStaysBound(s, e, Binding(s.threads[u]));
    }
    CreatorsStayApart(s, t, plan);
  }

  lemma StepKeepsInv(cfg: Config, s: State, e: Event)
    requires Inv(s) && Step(cfg, s, e).Some?
    ensures Inv(Step(cfg, s, e).value)
  {
    match e
    case Tick(_) =>
    case Spawn(t, pc) => SpawnKeepsInv(s, t, pc);
    case Do(t, c) =>
      PlansShaped(cfg, s, s.threads[t], c);
      EffectKeepsInv(s, t, PlanOf(cfg, s, s.threads[t], c).value);
    case Crash(t) =>
      var e := CrashEffect(s.threads[t]);
      CreateSendsNext(s.log, e);
  }

  lemma SpawnKeepsInv(s: State, t: ThreadId, pc: Pc)
    requires Inv(s) && t !in s.threads && EntryPoint(pc)
    ensures Inv(s.(threads := s.threads[t := pc]))
  {
    assert Binding(pc) == None && forall job :: !Creating(pc, job);
  }

  lemma {:induction false} RunKeepsInv(cfg: Config, states: seq<State>, events: seq<Event>, i: nat)
    requires IsRun(cfg, states, events) && i < |states|
    ensures Inv(states[i])
  {
    if i > 0 {
      RunKeepsInv(cfg, states, events, i - 1);
      assert Follows(cfg, states, events, i - 1);
      StepKeepsInv(cfg, states[i - 1], events[i - 1]);
    }
  }

  /** In every reachable state, for every project and non-empty key: whatever calls have returned
      carries the key, only one row does, and CreateAsync has enqueued it at most once. */
  lemma OneJobPerKey(cfg: Config, s: State, call: Call)
    requires Reachable(cfg, s) && call.key != ""
    ensures forall t, a | t in s.threads && s.threads[t] == Finished(CreateReturned(call, a)) :: HasKey(s.jobs, a, call)
    ensures forall a, b | HasKey(s.jobs, a, call) && HasKey(s.jobs, b, call) :: a == b
    ensures forall a :: CreateSends(s.log, a) <= 1
  {
    var states, events :| IsRun(cfg, states, events) && states[|events|] == s;
    RunKeepsInv(cfg, states, events, |events|);
    forall t, a | t in s.threads && s.threads[t] == Finished(CreateReturned(call, a)) ensures HasKey(s.jobs, a, call) {
      assert Bound(s.jobs, Binding(s.threads[t]));
    }
  }

  /** All calls with one project and one non-empty key that return a job return the same one. */
  lemma SameKeySameJob(cfg: Config, s: State, call: Call, t: ThreadId, u: ThreadId, a: Id, b: Id)
    requires Reachable(cfg, s) && call.key != "" && t in s.threads && u in s.threads
    requires s.threads[t] == Finished(CreateReturned(call, a)) && s.threads[u] == Finished(CreateReturned(call, b))
    ensures a == b
  {
    OneJobPerKey(cfg, s, call);
  }

  /** A call that tries to insert loses exactly when another row has the key by then; the loser
      is told of the conflict and changes nothing. */
  lemma LosersGetConflict(cfg: Config, s: State, t: ThreadId, call: Call, id: Id)
    requires t in s.threads && s.threads[t] == Inserting(call) && id !in s.jobs
    ensures var after := Step(cfg, s, Do(t, Draw(id)));
            && after.Some?
            && ((exists a :: HasKey(s.jobs, a, call)) <==> after.value.threads[t] == Finished(CreateConflict(call)))
            && ((exists a :: HasKey(s.jobs, a, call)) ==> after.value.jobs == s.jobs && after.value.redis == s.redis)
            && ((forall a :: !HasKey(s.jobs, a, call)) ==>
                  id in after.value.jobs && after.value.jobs[id].status == Created)
  {
    var row := NewRow(call.project, StoredKey(call.key), Created, 0, 5);
    if Clashes(s.jobs, row) {
      var a :| a in s.jobs && s.jobs[a].project == row.project && s.jobs[a].key == row.key;
      assert HasKey(s.jobs, a, call);
    } else {
      forall a ensures !HasKey(s.jobs, a, call) {
      }
    }
  }

  // ---------------------------------------------------------------- racing inserts

  /** A CreateAsync call executes its INSERT in step `i` of the run. */
  ghost predicate Inserts(states: seq<State>, events: seq<Event>, i: nat, call: Call) {
    && i < |events| && i + 1 < |states| && events[i].Do? && events[i].c.Draw?
    && events[i].t in states[i].threads && states[i].threads[events[i].t] == Inserting(call)
  }

  lemma InsertDraws(cfg: Config, s: State, pc: Pc, c: Choice)
    requires pc.Inserting? && PlanOf(cfg, s, pc, c).Some? && PlanOf(cfg, s, pc, c).value.effect.JobInserted?
    ensures c.Draw?
  {}

  ghost predicate KeyTaken(jobs: Jobs, call: Call) {
    exists id :: HasKey(jobs, id, call)
  }

  lemma StepTakesKey(cfg: Config, s: State, e: Event, call: Call)
    requires Inv(s) && Step(cfg, s, e).Some? && call.key != ""
    requires !(e.Do? && e.c.Draw? && s.threads[e.t] == Inserting(call))
    ensures KeyTaken(Step(cfg, s, e).value.jobs, call) <==> KeyTaken(s.jobs, call)
  {
    var s' := Step(cfg, s, e).value;
    if e.Do? {
      var plan := PlanOf(cfg, s, s.threads[e.t], e.c).value;
      EffectKeepsKeys(s, plan.effect);
      if plan.effect.JobInserted? {
        PlansShaped(cfg, s, s.threads[e.t], e.c);
        if s.threads[e.t].Inserting? {
          InsertDraws(cfg, s, s.threads[e.t], e.c);
        }
      }
      SameKeys(s.jobs, s'.jobs, call, if plan.effect.JobInserted? then Some(plan.effect.id) else None);
    } else {
      assert s'.jobs == s.jobs;
    }
  }

  /** Rows that keep their keys, and at most one new row without this key. */
  lemma SameKeys(before: Jobs, after: Jobs, call: Call, added: Option<Id>)
    requires KeysKept(before, after)
    requires forall id | id in after && id !in before :: added == Some(id) && !HasKey(after, id, call)
    ensures KeyTaken(after, call) <==> KeyTaken(before, call)
  {
    forall id | HasKey(before, id, call) ensures HasKey(after, id, call) {
    }
    forall id | HasKey(after, id, call) ensures HasKey(before, id, call) {
    }
  }

  /** One of the first `n` steps is such an INSERT. */
  ghost predicate InsertedBefore(states: seq<State>, events: seq<Event>, n: nat, call: Call) {
    exists j: nat :: j < n && Inserts(states, events, j, call)
  }

  lemma InsertedNext(states: seq<State>, events: seq<Event>, n: nat, call: Call)
    ensures InsertedBefore(states, events, n + 1, call)
            <==> InsertedBefore(states, events, n, call) || Inserts(states, events, n, call)
  {
    if InsertedBefore(states, events, n, call) {
      var j: nat :| j < n && Inserts(states, events, j, call);
      assert j < n + 1;
    }
  }

  lemma {:induction false} TakenOnceInserted(cfg: Config, states: seq<State>, events: seq<Event>, n: nat, call: Call)
    requires IsRun(cfg, states, events) && n < |states| && call.key != ""
    ensures KeyTaken(states[n].jobs, call) <==> InsertedBefore(states, events, n, call)
  {
    if n > 0 {
      TakenOnceInserted(cfg, states, events, n - 1, call);
      InsertedNext(states, events, n - 1, call);
      RunKeepsInv(cfg, states, events, n - 1);
      assert Follows(cfg, states, events, n - 1);
      if Inserts(states, events, n - 1, call) {
        InsertDecides(cfg, states, events, n - 1, call);
      } else {
        StepTakesKey(cfg, states[n - 1], events[n - 1], call);
      }
    }
  }

  /** The step inserts a row with the key if there was none, and changes nothing otherwise. */
  lemma InsertDecides(cfg: Config, states: seq<State>, events: seq<Event>, i: nat, call: Call)
    requires IsRun(cfg, states, events) && Inserts(states, events, i, call) && call.key != ""
    ensures events[i].t in states[i + 1].threads
    ensures var t, id := events[i].t, events[i].c.id;
            if KeyTaken(states[i].jobs, call) then
              states[i + 1].jobs == states[i].jobs && states[i + 1].threads[t] == Finished(CreateConflict(call))
            else
              HasKey(states[i + 1].jobs, id, call) && states[i + 1].threads[t] == QueueingCreated(call, id)
    ensures KeyTaken(states[i + 1].jobs, call)
  {
    assert Follows(cfg, states, events, i);
    LosersGetConflict(cfg, states[i], events[i].t, call, events[i].c.id);
    var id := events[i].c.id;
    if !KeyTaken(states[i].jobs, call) {
      assert HasKey(states[i + 1].jobs, id, call);
    }
  }

  /** Among all the calls with one project and one non-empty key whose INSERT is executed, in whatever
      order and whatever else happens between them, exactly the first gets its row; every other one
      ends in a conflict and changes no row. */
  lemma FirstInsertWins(cfg: Config, states: seq<State>, events: seq<Event>, i: nat, call: Call)
    requires IsRun(cfg, states, events) && Inserts(states, events, i, call) && call.key != ""
    ensures events[i].t in states[i + 1].threads
    ensures var t, id := events[i].t, events[i].c.id;
            if InsertedBefore(states, events, i, call) then
              states[i + 1].jobs == states[i].jobs && states[i + 1].threads[t] == Finished(CreateConflict(call))
            else
              HasKey(states[i + 1].jobs, id, call) && states[i + 1].threads[t] == QueueingCreated(call, id)
  {
    TakenOnceInserted(cfg, states, events, i, call);
    InsertDecides(cfg, states, events, i, call);
  }
}
