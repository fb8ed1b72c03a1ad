/** What every run does to the queue: no id gets lost, and every lease is swept back at most once
    and not before its time. */
module QueueHistory {
  import opened JobTypes
  import opened JobStore
  import opened RedisStore
  import opened Protocol
  import opened PlanShape
  import opened Backoff

  // ---------------------------------------------------------------- leases

  /** `e` puts `id` into the scored set. */
  predicate Leases(e: Effect, id: Id) {
    match e
    case Claimed(x, _) => x == id
    case Leased(x, _) => x == id
    case Sent(p, delay, _, _) => p.job == id && delay > 0
    case _ => false
  }

  function Score(e: Effect): int {
    match e
    case Claimed(_, deadline) => deadline
    case Leased(_, deadline) => deadline
    case Sent(_, delay, at, _) => Unix(at + Wait(delay))
    case _ => 0
  }

  /** `e` takes `id` out of it. */
  predicate Releases(e: Effect, id: Id) {
    match e
    case Swept(x, _, _) => x == id
    case Acked(x) => x == id
    case Buried(x) => x == id
    case _ => false
  }

  /** The lease `id` is under after the effects of `log`: the last one not yet taken back. */
  function CurrentLease(log: seq<Effect>, id: Id): (lease: Option<Effect>)
    ensures lease.Some? ==> Leases(lease.value, id)
  {
    if log == [] then None
    else
      var e := log[|log| - 1];
      if Leases(e, id) then Some(e)
      else if Releases(e, id) then None
      else CurrentLease(log[..|log| - 1], id)
  }

  lemma CurrentLeaseNext(log: seq<Effect>, e: Effect)
    ensures forall id :: CurrentLease(log + [e], id)
                         == if Leases(e, id) then Some(e) else if Releases(e, id) then None else CurrentLease(log, id)
  {
    assert (log + [e])[..|log|] == log;
  }

  /** The scored set is what the history says. */
  ghost predicate LeasesOk(s: State) {
    forall id :: if id in s.redis.processing
                 then CurrentLease(s.log, id).Some? && Score(CurrentLease(s.log, id).value) == s.redis.processing[id]
                 else CurrentLease(s.log, id) == None
  }

  /** Every entry of the log that sweeps an id back found a lease that was due by the sweep's own
      clock reading, and that reading was not ahead of the clock. */
  predicate SweepOk(log: seq<Effect>, k: nat)
    requires k < |log|
  {
    log[k].Swept? ==>
      && CurrentLease(log[..k], log[k].id).Some?
      && Score(CurrentLease(log[..k], log[k].id).value) <= log[k].now <= Unix(log[k].at)
  }

  ghost predicate SweepsOk(log: seq<Effect>) {
    forall k {:trigger SweepOk(log, k)} | 0 <= k < |log| :: SweepOk(log, k)
  }

  ghost predicate LeaseInv(s: State) {
    LeasesOk(s) && SweepsOk(s.log) && forall t | t in s.threads :: ReadingOk(s, s.threads[t])
  }

  lemma EffectKeepsLeases(s: State, e: Effect)
    requires Applicable(s, e) && LeasesOk(s)
    ensures LeasesOk(Apply(s, e))
  {
    CurrentLeaseNext(s.log, e);
  }

  lemma EffectKeepsSweeps(s: State, e: Effect)
    requires Applicable(s, e) && LeasesOk(s) && SweepsOk(s.log)
    requires e.Swept? ==> e.now <= Unix(e.at)
    ensures SweepsOk(s.log + [e])
  {
    var log := s.log + [e];
    forall k | 0 <= k < |log| ensures SweepOk(log, k) {
      if k < |s.log| {
        assert SweepOk(s.log, k);
        assert log[..k] == s.log[..k];
      } else {
        assert log[..k] == s.log;
      }
    }
  }

  lemma StepKeepsLeaseInv(cfg: Config, s: State, e: Event)
    requires LeaseInv(s) && Step(cfg, s, e).Some?
    ensures LeaseInv(Step(cfg, s, e).value)
  {
    match e
    case Tick(n) => assert Unix(s.clock) <= Unix(s.clock + n);
    case Spawn(t, pc) =>
    case Do(t, c) =>
      PlansShaped(cfg, s, s.threads[t], c);
      var plan := PlanOf(cfg, s, s.threads[t], c).value;
      EffectKeepsLeases(s, plan.effect);
      EffectKeepsSweeps(s, plan.effect);
    case Crash(t) =>
      EffectKeepsLeases(s, CrashEffect(s.threads[t]));
      EffectKeepsSweeps(s, CrashEffect(s.threads[t]));
  }

  lemma {:induction false} RunKeepsLeaseInv(cfg: Config, states: seq<State>, events: seq<Event>, i: nat)
    requires IsRun(cfg, states, events) && i < |states|
    ensures LeaseInv(states[i])
  {
    if i > 0 {
      RunKeepsLeaseInv(cfg, states, events, i - 1);
      assert Follows(cfg, states, events, i - 1);
      StepKeepsLeaseInv(cfg, states[i - 1], events[i - 1]);
    }
  }

  /** Without a lease of `id` among the later effects, a released id stays released. */
  lemma {:induction false} ReleasedStays(log: seq<Effect>, j: nat, id: Id)
    requires j < |log| && Releases(log[j], id)
    requires forall m | j < m < |log| :: !Leases(log[m], id)
    ensures CurrentLease(log, id) == None
    decreases |log|
  {
    if j < |log| - 1 {
      ReleasedStays(log[..|log| - 1], j, id);
    }
  }

  /** Whatever sweeps race with whatever stale id lists: between two sweeps of an id there is a
      new lease of it, so each lease is pushed back at most once. */
  lemma SweptOncePerLease(cfg: Config, s: State, j: nat, k: nat)
    requires Reachable(cfg, s) && j < k < |s.log| && s.log[j].Swept? && s.log[k].Swept? && s.log[j].id == s.log[k].id
    ensures exists m :: j < m < k && Leases(s.log[m], s.log[k].id)
  {
    var states, events :| IsRun(cfg, states, events) && states[|events|] == s;
    RunKeepsLeaseInv(cfg, states, events, |events|);
    assert SweepOk(s.log, k);
    if forall m | j < m < k :: !Leases(s.log[m], s.log[k].id) {
      ReleasedStays(s.log[..k], j, s.log[k].id);
    }
  }

  /** A sweep never pushes back a lease whose score is later than its clock reading, and an id
      that was enqueued with a delay never comes back a full second or more before it is due. */
  lemma NeverSweptEarly(cfg: Config, s: State, k: nat)
    requires Reachable(cfg, s) && k < |s.log| && s.log[k].Swept?
    ensures var lease := CurrentLease(s.log[..k], s.log[k].id);
            && lease.Some?
            && Score(lease.value) <= s.log[k].now <= Unix(s.log[k].at)
            && (lease.value.Sent? ==> lease.value.at + lease.value.delay < s.log[k].at + SECOND)
  {
    var states, events :| IsRun(cfg, states, events) && states[|events|] == s;
    RunKeepsLeaseInv(cfg, states, events, |events|);
    assert SweepOk(s.log, k);
    var lease := CurrentLease(s.log[..k], s.log[k].id).value;
    if lease.Sent? {
      DueLessThanASecondEarly(lease.at, lease.delay, s.log[k].at);
    }
  }

  // ---------------------------------------------------------------- deadlines

  /** The thread has been in one Dequeue since step `m`, in which it took this deadline: two minutes after its
      reading of the clock, in whole seconds. */
  ghost predicate ArmedAt(states: seq<State>, events: seq<Event>, m: nat, k: nat, t: ThreadId, deadline: int) {
    && m < k < |states| && m < |events|
    && events[m] == Do(t, Run) && t in states[m].threads && states[m].threads[t].Arming?
    && deadline == (states[m].clock + 120_000_000_000) / 1_000_000_000
    && forall i | m < i <= k :: t in states[i].threads && DeadlineOf(states[i].threads[t]) == Some(deadline)
  }

  lemma StepKeepsDeadline(cfg: Config, s: State, e: Event, t: ThreadId, deadline: int)
    requires Step(cfg, s, e).Some? && t in Step(cfg, s, e).value.threads
    requires DeadlineOf(Step(cfg, s, e).value.threads[t]) == Some(deadline)
    ensures t in s.threads
    ensures DeadlineOf(s.threads[t]) == Some(deadline)
            || (e == Do(t, Run) && s.threads[t].Arming? && deadline == (s.clock + 120_000_000_000) / 1_000_000_000)
  {
    if e.Do? && e.t == t {
      PlansShaped(cfg, s, s.threads[t], e.c);
    }
  }

  lemma {:induction false} DeadlineWasTaken(cfg: Config, states: seq<State>, events: seq<Event>, k: nat, t: ThreadId,
      deadline: int)
    returns (m: nat)
    requires IsRun(cfg, states, events) && k < |states| && t in states[k].threads
    requires DeadlineOf(states[k].threads[t]) == Some(deadline)
    ensures ArmedAt(states, events, m, k, t, deadline)
  {
    assert k > 0;
    assert Follows(cfg, states, events, k - 1);
    StepKeepsDeadline(cfg, states[k - 1], events[k - 1], t, deadline);
    if DeadlineOf(states[k - 1].threads[t]) == Some(deadline) {
      m := DeadlineWasTaken(cfg, states, events, k - 1, t, deadline);
    } else {
      m := k - 1;
    }
  }

  /** Whether an id is claimed at once or popped after a wait, it is leased for two minutes from a clock reading
      that the same thread took in the same Dequeue. */
  lemma LeasedForTwoMinutes(cfg: Config, states: seq<State>, events: seq<Event>, k: nat, e: Effect)
    returns (t: ThreadId, m: nat)
    requires IsRun(cfg, states, events) && k < |events| && states[k + 1].log == states[k].log + [e]
    requires e.Claimed? || e.Leased?
    ensures events[k].Do? && events[k].t == t && ArmedAt(states, events, m, k, t, e.deadline)
  {
    assert Follows(cfg, states, events, k);
    var s := states[k];
    assert states[k + 1].log[|s.log|] == e;
    t := events[k].t;
    PlansShaped(cfg, s, s.threads[t], events[k].c);
    m := DeadlineWasTaken(cfg, states, events, k, t, e.deadline);
  }

  // ---------------------------------------------------------------- no id is lost

  /** The last thing clients did with `id` was to enqueue it, not to acknowledge or bury it. */
  predicate Owed(log: seq<Effect>, id: Id) {
    log != [] &&
    var e := log[|log| - 1];
    if e.Sent? && e.p.job == id then true
    else if (e.Acked? || e.Buried?) && e.id == id then false
    else Owed(log[..|log| - 1], id)
  }

  lemma OwedNext(log: seq<Effect>, e: Effect)
    ensures forall id :: Owed(log + [e], id) <==>
                         if e.Sent? && e.p.job == id then true
                         else if (e.Acked? || e.Buried?) && e.id == id then false
                         else Owed(log, id)
  {
    assert (log + [e])[..|log|] == log;
  }

  ghost predicate Located(s: State, id: Id) {
    id in s.redis.queued || id in s.redis.processing || exists t | t in s.threads :: HeldBy(s.threads[t], id)
  }

  /** `id` went missing after it was last enqueued. */
  predicate LostSince(log: seq<Effect>, id: Id) {
    log != [] &&
    var e := log[|log| - 1];
    if (e.Lost? || e.Dropped?) && e.id == id then true
    else if e.Sent? && e.p.job == id then false
    else LostSince(log[..|log| - 1], id)
  }

  lemma LostSinceNext(log: seq<Effect>, e: Effect)
    ensures forall id :: LostSince(log + [e], id) <==>
                         if (e.Lost? || e.Dropped?) && e.id == id then true
                         else if e.Sent? && e.p.job == id then false
                         else LostSince(log, id)
  {
    assert (log + [e])[..|log|] == log;
  }

  ghost predicate Accounted(s: State) {
    forall id | Owed(s.log, id) :: Located(s, id) || LostSince(s.log, id)
  }

  /** One effect leaves every other id where a client can still find it. */
  lemma EffectKeepsQueue(s: State, e: Effect, id: Id)
    requires Applicable(s, e)
    requires id in s.redis.queued || id in s.redis.processing
    requires !((e.Acked? || e.Buried?) && e.id == id)
    ensures id in NewRedis(s, e).queued || id in NewRedis(s, e).processing || e == Popped(id) || e == Dropped(id)
  {
    if id in s.redis.queued && (e.Claimed? || e.Popped? || e.Dropped?) {
      var q := s.redis.queued;
      assert q == q[..|q| - 1] + [q[|q| - 1]];
    }
  }

  lemma StepAccounts(cfg: Config, s: State, e: Event)
    requires Accounted(s) && Step(cfg, s, e).Some?
    ensures Accounted(Step(cfg, s, e).value)
  {
    var s' := Step(cfg, s, e).value;
    match e
    case Tick(_) =>
      assert forall id | Located(s, id) :: Located(s', id);
    case Spawn(t, pc) =>
      forall id | Owed(s'.log, id) ensures Located(s', id) || LostSince(s'.log, id) {
        assert forall u | u in s.threads :: s'.threads[u] == s.threads[u];
      }
    case Do(t, c) =>
      PlansShaped(cfg, s, s.threads[t], c);
      PlanAccounts(cfg, s, t, PlanOf(cfg, s, s.threads[t], c).value);
    case Crash(t) => CrashAccounts(s, t);
  }

  lemma CrashAccounts(s: State, t: ThreadId)
    requires Accounted(s) && t in s.threads
    ensures Accounted(Apply(s, CrashEffect(s.threads[t])).(threads := s.threads - {t}))
  {
    var e := CrashEffect(s.threads[t]);
    var s' := Apply(s, e).(threads := s.threads - {t});
    OwedNext(s.log, e);
    LostSinceNext(s.log, e);
    forall id | Owed(s'.log, id) ensures Located(s', id) || LostSince(s'.log, id) {
      assert Owed(s.log, id);
      assert forall u | u in s.threads && u != t :: s'.threads[u] == s.threads[u];
    }
  }

  lemma PlanAccounts(cfg: Config, s: State, t: ThreadId, plan: Plan)
    requires Accounted(s) && t in s.threads && Applicable(s, plan.effect)
    requires HandsOver(cfg, s.threads[t], plan.effect, plan.next)
    ensures Accounted(Apply(s, plan.effect).(threads := s.threads[t := plan.next]))
  {
    var e, s' := plan.effect, Apply(s, plan.effect).(threads := s.threads[t := plan.next]);
    OwedNext(s.log, e);
    LostSinceNext(s.log, e);
    forall id | Owed(s'.log, id) ensures Located(s', id) || LostSince(s'.log, id) {
      assert s'.threads[t] == plan.next;
      if !(e.Sent? && e.p.job == id) && !LostSince(s'.log, id) {
        assert Owed(s.log, id) && Located(s, id);
        if id in s.redis.queued || id in s.redis.processing {
          EffectKeepsQueue(s, e, id);
        } else {
          var u :| u in s.threads && HeldBy(s.threads[u], id);
          if u != t {
            assert s'.threads[u] == s.threads[u];
          }
        }
      }
    }
  }

  lemma {:induction false} RunAccounts(cfg: Config, states: seq<State>, events: seq<Event>, i: nat)
    requires IsRun(cfg, states, events) && i < |states|
    ensures Accounted(states[i])
  {
    if i > 0 {
      RunAccounts(cfg, states, events, i - 1);
      assert Follows(cfg, states, events, i - 1);
      StepAccounts(cfg, states[i - 1], events[i - 1]);
    }
  }

  /** In every configuration: an id that was enqueued and not since acknowledged or buried is listed,
      leased, or in the hands of one Dequeue, or the history shows after its last Enqueue that it
      went missing between BRPOP and ZADD. */
  lemma EveryIdIsAccountedFor(cfg: Config, s: State, id: Id)
    requires Reachable(cfg, s) && Owed(s.log, id)
    ensures Located(s, id) || LostSince(s.log, id)
  {
    var states, events :| IsRun(cfg, states, events) && states[|events|] == s;
    RunAccounts(cfg, states, events, |events|);
  }

  /** Without window faults nothing ever goes missing. */
  ghost predicate Lossless(log: seq<Effect>) {
    forall id :: !LostSince(log, id)
  }

  lemma {:induction false} RunIsLossless(cfg: Config, states: seq<State>, events: seq<Event>, i: nat)
    requires !cfg.windowFaults && IsRun(cfg, states, events) && i < |states|
    ensures Lossless(states[i].log)
  {
    if i > 0 {
      RunIsLossless(cfg, states, events, i - 1);
      assert Follows(cfg, states, events, i - 1);
      var s, e := states[i - 1], events[i - 1];
      if e.Do? {
        PlansShaped(cfg, s, s.threads[e.t], e.c);
        LostSinceNext(s.log, PlanOf(cfg, s, s.threads[e.t], e.c).value.effect);
      } else if e.Crash? {
        LostSinceNext(s.log, CrashEffect(s.threads[e.t]));
      }
    }
  }

  /** Over any interleaving of clients, crashes included, an id that was enqueued and not since
      acknowledged or buried is listed, leased, or in the hands of one Dequeue, provided no id gets
      lost in the window between BRPOP and ZADD. */
  lemma NoIdIsLost(cfg: Config, s: State)
    requires !cfg.windowFaults && Reachable(cfg, s)
    ensures forall id | Owed(s.log, id) :: Located(s, id)
  {
    var states, events :| IsRun(cfg, states, events) && states[|events|] == s;
    RunAccounts(cfg, states, events, |events|);
    RunIsLossless(cfg, states, events, |events|);
  }
}
