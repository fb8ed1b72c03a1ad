/** The queue client over its four keys, while no other client interferes. Every method is
    proved against the atomic effects of RedisStore, which the protocol interleaves. */
module RedisQueue {
  import opened JobTypes
  import opened RedisStore
  import Sweeps = QueueSweep

  datatype Delivery = Empty | PayloadMissing(id: Id) | Delivered(payload: Payload) | Unavailable

  /** The statements of a Dequeue that can fail: the sweep's fetch, the claim and the payload's GET. */
  datatype Site = AtFetch | AtClaim | AtGet

  /** What a claim hands out of the state `r`: the oldest listed id, if its payload is still there. */
  function NextDelivery(r: Redis): Delivery {
    if r.queued == [] then Empty
    else if NextPop(r) !in r.payloads then PayloadMissing(NextPop(r))
    else Delivered(r.payloads[NextPop(r)])
  }

  /** What a Dequeue during which the statements `down` fail hands out: nothing, if it gets to one of them. */
  function Handed(r: Redis, now: int, down: set<Site>): Delivery {
    var swept := Sweep(r, now);
    if AtFetch in down || AtClaim in down || (AtGet in down && swept.queued != []) then Unavailable
    else NextDelivery(swept)
  }

  /** What it leaves behind: a failed sweep changes nothing, a failed claim leaves the sweep, and an id whose
      payload cannot be read stays leased. */
  function Dequeued(r: Redis, now: int, deadline: int, down: set<Site>): Redis {
    var swept := Sweep(r, now);
    if AtFetch in down then r
    else if AtClaim in down || swept.queued == [] then swept
    else Claim(swept, deadline)
  }

  class RedisQueue {
    var queued: seq<Id>
    var processing: map<Id, int>
    var dead: map<Id, int>
    var payloads: map<Id, Payload>

    function View(): Redis
      reads this
    {
      Redis(queued, processing, dead, payloads)
    }

    constructor ()
      ensures View() == EMPTY
    {
      queued, processing, dead, payloads := [], map[], map[], map[];
    }

    /** `works` says whether Redis executes the transaction. */
    method Enqueue(job: Payload, now: Time, delay: int, works: bool) returns (ok: bool)
      modifies this
      ensures ok == works
      ensures View() == if works then RedisStore.Enqueue(old(View()), job, now, delay) else old(View())
    {
      if !works {
        return false;
      }
      payloads := payloads[job.job := job];
      if delay > 0 {
        processing := processing[job.job := Unix(now + delay)];
      } else {
        queued := [job.job] + queued;
      }
      return true;
    }

    method Ack(id: Id, works: bool) returns (ok: bool)
      modifies this
      ensures ok == works
      ensures View() == if works then RedisStore.Ack(old(View()), id) else old(View())
    {
      if !works {
        return false;
      }
      processing := processing - {id};
      payloads := payloads - {id};
      dead := dead - {id};
      return true;
    }

    method Fail(id: Id, permanent: bool, now: Time, works: bool) returns (ok: bool)
      modifies this
      ensures ok == works
      ensures View() == if works then RedisStore.Fail(old(View()), id, permanent, now) else old(View())
    {
      if !works {
        return false;
      }
      processing := processing - {id};
      if permanent {
        dead := dead[id := Unix(now)];
      } else {
        queued := [id] + queued;
      }
      return true;
    }

    /** The sweep's check-and-move script for one id. */
    method MoveIfDue(id: Id, now: int) returns (count: nat)
      modifies this
      ensures View() == SweepOne(old(View()), id, now)
      ensures count == if Due(old(View()), id, now) then 1 else 0
    {
      count := 0;
      if id in processing && processing[id] <= now {
        processing := processing - {id};
        queued := [id] + queued;
        count := 1;
      }
    }

    /** The batched loop. `now` is the clock reading taken at entry, `clock(n)` the one of the n-th
        fetch. The precondition is the loop's exact termination condition; with a standing clock it
        always holds. */
    method RequeueExpired(now: int, clock: nat -> int) returns (requeued: nat)
      requires Sweeps.Readings(now, clock) && Sweeps.Stops(processing, now, clock)
      modifies this
      ensures View() == Sweep(old(View()), now)
      ensures requeued == |UpTo(old(processing), now)|
    {
      requeued := 0;
      var more, n := true, 0;
      while more
        invariant requeued + |processing| == |old(processing)|
        invariant more ==> Sweeps.Underway(old(View()), View(), now, clock, n)
        invariant !more ==> View() == Sweep(old(View()), now)
        decreases more, |UpTo(old(processing), now)| / BATCH + 1 - n
      {
        var jobs := ZRangeByScore(processing, clock(n), BATCH);
        Sweeps.NextRound(old(View()), View(), now, clock, n);
        var moved := MoveBatch(jobs, now);
        requeued := requeued + moved;
        more := |jobs| >= BATCH;
        n := n + 1;
      }
      Sweeps.SweepCount(old(View()), now);
    }

    /** The scripts for one batch, id by id. */
    method MoveBatch(jobs: seq<Id>, now: int) returns (moved: nat)
      modifies this
      ensures View() == SweepAll(old(View()), jobs, now)
      ensures moved + |processing| == |old(processing)|
    {
      moved := 0;
      for i := 0 to |jobs|
        invariant View() == SweepAll(old(View()), jobs[..i], now)
        invariant moved + |processing| == |old(processing)|
      {
        assert jobs[..i + 1][..i] == jobs[..i];
        var n := MoveIfDue(jobs[i], now);
        moved := moved + n;
      }
      assert jobs[..|jobs|] == jobs;
    }

    /** One Dequeue that finds a listed id or gives up: sweep, then claim the oldest id with a deadline
        reckoned from `at`, then read its payload. */
    method Dequeue(now: int, clock: nat -> int, at: Time, visibility: Time, down: set<Site>) returns (d: Delivery)
      requires Sweeps.Readings(now, clock) && Sweeps.Stops(processing, now, clock)
      modifies this
      ensures View() == Dequeued(old(View()), now, Unix(at + visibility), down)
      ensures d == Handed(old(View()), now, down)
    {
      if AtFetch in down {
        return Unavailable;
      }
      var _ := RequeueExpired(now, clock);
      var deadline := Unix(at + visibility);
      if AtClaim in down {
        return Unavailable;
      }
      if queued == [] {
        return Empty;
      }
      var id := queued[|queued| - 1];
      queued := queued[..|queued| - 1];
      processing := processing[id := deadline];
      if AtGet in down {
        return Unavailable;
      }
      d := if id in payloads then Delivered(payloads[id]) else PayloadMissing(id);
    }
  }

  // ---------------------------------------------------------------- delivery order

  function EnqueueAll(r: Redis, ps: seq<Payload>, t: Time): Redis {
    if ps == [] then r
    else RedisStore.Enqueue(EnqueueAll(r, ps[..|ps| - 1], t), ps[|ps| - 1], t, 0)
  }

  function ClaimMany(r: Redis, n: nat, deadline: int): (after: Redis)
    requires n <= |r.queued|
    ensures after.queued == r.queued[..|r.queued| - n] && after.payloads == r.payloads
  {
    if n == 0 then r else Claim(ClaimMany(r, n - 1, deadline), deadline)
  }

  lemma {:induction false} EnqueueAllAt(r: Redis, ps: seq<Payload>, t: Time, k: nat)
    requires k < |ps| && forall i, j | 0 <= i < j < |ps| :: ps[i].job != ps[j].job
    ensures var all := EnqueueAll(r, ps, t);
            && |all.queued| == |ps| + |r.queued|
            && all.queued[|ps| - 1 - k] == ps[k].job
            && ps[k].job in all.payloads && all.payloads[ps[k].job] == ps[k]
  {
    var most := ps[..|ps| - 1];
    if most != [] {
      EnqueueAllAt(r, most, t, if k < |most| then k else 0);
    }
  }

  /** Enqueued jobs are delivered after the ones already listed, in the order they were
      enqueued, each with its own payload. */
  lemma FirstInFirstOut(r: Redis, ps: seq<Payload>, t: Time, deadline: int, k: nat)
    requires k < |ps| && forall i, j | 0 <= i < j < |ps| :: ps[i].job != ps[j].job
    ensures var all := EnqueueAll(r, ps, t);
            && |all.queued| == |ps| + |r.queued|
            && NextDelivery(ClaimMany(all, |r.queued| + k, deadline)) == Delivered(ps[k])
  {
    EnqueueAllAt(r, ps, t, k);
  }

  /** A claimed id that is neither acknowledged nor failed is listed again by a sweep exactly
      when the sweep's clock has reached the deadline, and its payload is still there. */
  lemma AbandonedComesBack(r: Redis, deadline: int, now: int)
    requires r.queued != []
    ensures var id, claimed := NextPop(r), Claim(r, deadline);
            var after := Sweep(claimed, now);
            && (id in after.processing <==> now < deadline)
            && (deadline <= now ==>
                  |r.queued| <= |after.queued| && id in after.queued[..|after.queued| - |r.queued| + 1])
            && after.payloads == r.payloads
  {
    var id, claimed := NextPop(r), Claim(r, deadline);
    if deadline <= now {
      assert id in UpTo(claimed.processing, now);
      SweptAmongFirst(claimed, now, Ranked(claimed.processing, UpTo(claimed.processing, now)), id);
    }
  }

  lemma SweptAmongFirst(r: Redis, now: int, s: seq<Id>, id: Id)
    requires s == Ranked(r.processing, UpTo(r.processing, now)) && id in UpTo(r.processing, now)
    ensures |Sweep(r, now).queued| == |s| + |r.queued| && id in Sweep(r, now).queued[..|s|]
  {
    RankedIsRanking(r.processing, UpTo(r.processing, now));
    var i :| 0 <= i < |s| && s[i] == id;
    Sweeps.SweptPopOrder(r, now, s, i);
    assert Sweep(r, now).queued[..|s|][|s| - 1 - i] == id;
  }

  // ---------------------------------------------------------------- what the calls mean for a later sweep

  lemma SweptIds(r: Redis, now: int, id: Id)
    ensures id in Sweep(r, now).queued <==> id in r.queued || id in UpTo(r.processing, now)
    ensures id in Sweep(r, now).processing <==> id in r.processing && r.processing[id] > now
    ensures Sweep(r, now).payloads == r.payloads && Sweep(r, now).dead == r.dead
  {
    var s := Ranked(r.processing, UpTo(r.processing, now));
    RankedIsRanking(r.processing, UpTo(r.processing, now));
    ReverseHas(s, id);
  }

  lemma {:induction false} ReverseHas(s: seq<Id>, id: Id)
    ensures id in Reverse(s) <==> id in s
  {
    if s != [] {
      ReverseHas(s[1..], id);
      assert s == [s[0]] + s[1..];
    }
  }

  /** An enqueued job is listed at once, or by the sweeps from the second on at which its delay has
      passed; it keeps its payload, and no other id notices. */
  lemma EnqueuedComesDue(r: Redis, p: Payload, at: Time, delay: int, now: int)
    requires p.job !in r.queued && p.job !in r.processing
    ensures var after := Sweep(RedisStore.Enqueue(r, p, at, delay), now);
            && (p.job in after.queued <==> delay <= 0 || Unix(at + delay) <= now)
            && (p.job in after.processing <==> delay > 0 && now < Unix(at + delay))
            && p.job in after.payloads && after.payloads[p.job] == p
            && forall id | id != p.job ::
                 && (id in after.queued <==> id in Sweep(r, now).queued)
                 && (id in after.processing <==> id in Sweep(r, now).processing)
  {
    var sent := RedisStore.Enqueue(r, p, at, delay);
    SweptIds(sent, now, p.job);
    forall id | id != p.job
      ensures id in Sweep(sent, now).queued <==> id in Sweep(r, now).queued
      ensures id in Sweep(sent, now).processing <==> id in Sweep(r, now).processing
    {
      SweptIds(sent, now, id);
      SweptIds(r, now, id);
    }
  }

  /** An acknowledged id is in none of the four keys, unless it was listed once more, and no sweep ever
      brings it back; no other id notices. */
  lemma AcknowledgedStaysAway(r: Redis, id: Id, now: int)
    ensures var after := Sweep(RedisStore.Ack(r, id), now);
            && id !in after.processing && id !in after.payloads && id !in after.dead
            && (id in after.queued <==> id in r.queued)
            && forall other | other != id ::
                 && (other in after.queued <==> other in Sweep(r, now).queued)
                 && (other in after.processing <==> other in Sweep(r, now).processing)
                 && (other in after.payloads <==> other in r.payloads) && (other in after.dead <==> other in r.dead)
  {
    var acked := RedisStore.Ack(r, id);
    SweptIds(acked, now, id);
    forall other | other != id
      ensures other in Sweep(acked, now).queued <==> other in Sweep(r, now).queued
      ensures other in Sweep(acked, now).processing <==> other in Sweep(r, now).processing
    {
      SweptIds(acked, now, other);
      SweptIds(r, now, other);
    }
  }

  /** A permanently failed id is in the dead set under the time of its failure with its payload kept,
      and no sweep ever brings it back; no other id notices. */
  lemma BuriedStaysBuried(r: Redis, id: Id, at: Time, now: int)
    ensures var after := Sweep(RedisStore.Fail(r, id, true, at), now);
            && id in after.dead && after.dead[id] == Unix(at)
            && id !in after.processing && (id in after.queued <==> id in r.queued)
            && after.payloads == r.payloads
            && forall other | other != id ::
                 && (other in after.dead <==> other in r.dead)
                 && (other in r.dead ==> after.dead[other] == r.dead[other])
                 && (other in after.queued <==> other in Sweep(r, now).queued)
                 && (other in after.processing <==> other in Sweep(r, now).processing)
  {
    var failed := RedisStore.Fail(r, id, true, at);
    SweptIds(failed, now, id);
    forall other | other != id
      ensures other in Sweep(failed, now).queued <==> other in Sweep(r, now).queued
      ensures other in Sweep(failed, now).processing <==> other in Sweep(r, now).processing
    {
      SweptIds(failed, now, other);
      SweptIds(r, now, other);
    }
  }
}
