/** The Redis rate limiter: INCR followed by EXPIRE on every call, in one transaction. Times are in seconds. */
module RateLimit {
  import opened JobTypes

  /** A counter key; Redis drops it once the clock is past its expiry. */
  datatype Bucket = Bucket(count: nat, expiresAt: int)

  predicate Alive(b: Option<Bucket>, now: int) {
    b.Some? && now <= b.value.expiresAt
  }

  /** INCR creates a missing key; EXPIRE then starts its lifetime afresh. */
  function Hit(b: Option<Bucket>, now: int, window: nat): Bucket {
    Bucket(if Alive(b, now) then b.value.count + 1 else 1, now + window)
  }

  function Lookup(m: map<string, Bucket>, key: string): Option<Bucket> {
    if key in m then Some(m[key]) else None
  }

  datatype Transaction = Executed | NotExecuted | ReplyLost

  datatype Decision = Decision(allowed: bool, remaining: int, reset: int)

  class RateLimiter {
    var buckets: map<string, Bucket>

    constructor ()
      ensures buckets == map[]
    {
      buckets := map[];
    }

    /** `sent` says how the transaction goes, `ttlAt` when the TTL command after it is answered, if it is.
        A failed transaction is an error, whether or not it took place. */
    method Allow(key: string, limit: int, window: nat, now: int, sent: Transaction, ttlAt: Option<int>)
      returns (r: Result<Decision, ()>)
      requires ttlAt.Some? ==> ttlAt.value >= now
      modifies this
      ensures var k := "rl:" + key;
              buckets == if sent == NotExecuted then old(buckets)
                         else old(buckets)[k := Hit(Lookup(old(buckets), k), now, window)]
      ensures r.Ok? <==> sent == Executed
      ensures r.Ok? ==>
                var b, d := buckets["rl:" + key], r.value;
                && (d.allowed <==> b.count <= limit)
                && d.remaining >= 0 && (d.remaining > 0 ==> b.count + d.remaining == limit)
                && (d.remaining == 0 ==> limit <= b.count)
                && 0 <= d.reset <= window && (ttlAt.None? ==> d.reset == window)
                && (ttlAt.Some? && d.reset > 0 ==> ttlAt.value + d.reset == b.expiresAt)
                && (ttlAt.Some? && d.reset == 0 ==> b.expiresAt <= ttlAt.value)
    {
      if sent == NotExecuted {
        return Err(());
      }
      var k := "rl:" + key;
      var n := 1;
      if k in buckets && now <= buckets[k].expiresAt {
        n := buckets[k].count + 1;
      }
      buckets := buckets[k := Bucket(n, now + window)];
      if sent == ReplyLost {
        return Err(());
      }
      var reset := window;
      if ttlAt.Some? {
        reset := if ttlAt.value <= buckets[k].expiresAt then buckets[k].expiresAt - ttlAt.value else 0;
      }
      var remaining := limit - n;
      if remaining < 0 {
        remaining := 0;
      }
      return Ok(Decision(n <= limit, remaining, reset));
    }
  }

  // ---------------------------------------------------------------- runs of requests for one key

  /** The key's bucket after requests at these times. */
  function After(times: seq<int>, window: nat): Option<Bucket> {
    if times == [] then None
    else Some(Hit(After(times[..|times| - 1], window), times[|times| - 1], window))
  }

  function CountAt(times: seq<int>, window: nat, i: nat): nat
    requires i < |times|
  {
    After(times[..i + 1], window).value.count
  }

  predicate Allowed(times: seq<int>, limit: int, window: nat, i: nat)
    requires i < |times|
  {
    CountAt(times, window, i) <= limit
  }

  predicate Ordered(times: seq<int>) {
    forall i, j | 0 <= i < j < |times| :: times[i] <= times[j]
  }

  /** Request `i` came no more than a window after the previous one. */
  predicate Close(times: seq<int>, window: nat, i: nat)
    requires i < |times|
  {
    i > 0 && times[i] - times[i - 1] <= window
  }

  lemma CountStep(times: seq<int>, window: nat, i: nat)
    requires i < |times|
    ensures Close(times, window, i) ==> CountAt(times, window, i) == CountAt(times, window, i - 1) + 1
    ensures !Close(times, window, i) ==> CountAt(times, window, i) == 1
  {
    assert times[..i + 1][..i] == times[..i];
    if i == 0 {
      assert times[..i] == [] && After(times[..i], window) == None;
    } else {
      assert times[..i][..i - 1] == times[..i - 1];
      assert times[..i][i - 1] == times[i - 1];
      assert After(times[..i], window).value.expiresAt == times[i - 1] + window;
    }
  }

  /** Requests first, first + 1, ..., last each came within a window of the one before. */
  predicate OneRun(times: seq<int>, window: nat, first: nat, last: nat)
    requires last < |times|
  {
    forall k: nat | first < k <= last :: Close(times, window, k)
  }

  lemma {:induction false} CountGrows(times: seq<int>, window: nat, first: nat, last: nat)
    requires first <= last < |times| && OneRun(times, window, first, last)
    ensures CountAt(times, window, last) == CountAt(times, window, first) + (last - first)
    decreases last
  {
    if first < last {
      CountGrows(times, window, first, last - 1);
      CountStep(times, window, last);
    }
  }

  /** The number of requests between `i` and `j`, both included, that are let through. */
  function Admitted(times: seq<int>, limit: int, window: nat, i: nat, j: nat): nat
    requires i <= j < |times|
    decreases j
  {
    (if Allowed(times, limit, window, j) then 1 else 0)
    + if i < j then Admitted(times, limit, window, i, j - 1) else 0
  }

  lemma {:induction false} AdmittedInRun(times: seq<int>, limit: nat, window: nat, i: nat, j: nat)
    requires i <= j < |times| && OneRun(times, window, i, j)
    ensures Admitted(times, limit, window, i, j) <= limit
    ensures Admitted(times, limit, window, i, j) <= CountAt(times, window, j)
    decreases j
  {
    CountStep(times, window, j);
    if i < j {
      AdmittedInRun(times, limit, window, i, j - 1);
    }
  }

  /** In any span of time no longer than the window at most `limit` requests are let through. */
  lemma AtMostLimitPerWindow(times: seq<int>, limit: nat, window: nat, i: nat, j: nat)
    requires Ordered(times) && i <= j < |times| && times[j] - times[i] <= window
    ensures Admitted(times, limit, window, i, j) <= limit
  {
    forall k: nat | i < k <= j ensures Close(times, window, k) {
      assert times[i] <= times[k - 1] && times[k] <= times[j];
    }
    AdmittedInRun(times, limit, window, i, j);
  }

  lemma {:induction false} CountSinceIdle(times: seq<int>, window: nat, i: nat, j: nat)
    requires i <= j < |times| && !Close(times, window, i)
    ensures CountAt(times, window, j) <= j - i + 1
    decreases j
  {
    CountStep(times, window, j);
    if i < j {
      CountSinceIdle(times, window, i, j - 1);
    }
  }

  /** After more than a window of idleness (or at the start) the next `limit` requests are all let
      through; exactly one window is not enough. */
  lemma IdleWindowRestoresTheLimit(times: seq<int>, limit: nat, window: nat, i: nat, j: nat)
    requires i <= j < |times| && j < i + limit && !Close(times, window, i)
    ensures Allowed(times, limit, window, j)
  {
    CountSinceIdle(times, window, i, j);
  }

  function Remaining(times: seq<int>, limit: int, window: nat, i: nat): nat
    requires i < |times|
  {
    var left := limit - CountAt(times, window, i);
    if left < 0 then 0 else left
  }

  /** The number of remaining requests that a response reports is exact: as long as the client never
      pauses for a window, so many more are let through, and then none. */
  lemma RemainingIsExact(times: seq<int>, limit: int, window: nat, i: nat, j: nat)
    requires i < j < |times| && OneRun(times, window, i, j)
    ensures Allowed(times, limit, window, j) <==> j - i <= Remaining(times, limit, window, i)
  {
    CountGrows(times, window, i, j);
  }

  /** A client that never pauses for a whole window gets `limit` requests through, ever. */
  lemma SteadyClientIsLockedOut(times: seq<int>, limit: int, window: nat, j: nat)
    requires j < |times| && OneRun(times, window, 0, j)
    ensures Allowed(times, limit, window, j) <==> j < limit
  {
    CountStep(times, window, 0);
    CountGrows(times, window, 0, j);
  }

  // ---------------------------------------------------------------- the textbook limiter

  /** Fixed window: only the request that creates the key sets its expiry. */
  function FixedHit(b: Option<Bucket>, now: int, window: nat): Bucket {
    if Alive(b, now) then Bucket(b.value.count + 1, b.value.expiresAt) else Bucket(1, now + window)
  }

  function FixedAfter(times: seq<int>, window: nat): Option<Bucket> {
    if times == [] then None
    else Some(FixedHit(FixedAfter(times[..|times| - 1], window), times[|times| - 1], window))
  }

  predicate FixedAllowed(times: seq<int>, limit: int, window: nat, i: nat)
    requires i < |times|
  {
    FixedAfter(times[..i + 1], window).value.count <= limit
  }

  lemma {:induction false} FixedCountsNoMore(times: seq<int>, window: nat)
    requires Ordered(times) && times != []
    ensures FixedAfter(times, window).value.count <= After(times, window).value.count
    ensures FixedAfter(times, window).value.expiresAt <= After(times, window).value.expiresAt
    ensures FixedAfter(times, window).value.expiresAt <= times[|times| - 1] + window
    decreases |times|
  {
    var before := times[..|times| - 1];
    if before != [] {
      FixedCountsNoMore(before, window);
    }
  }

  /** Request by request, whatever this limiter lets through the fixed-window limiter would too. */
  lemma NeverMorePermissiveThanFixedWindow(times: seq<int>, limit: int, window: nat, i: nat)
    requires Ordered(times) && i < |times| && Allowed(times, limit, window, i)
    ensures FixedAllowed(times, limit, window, i)
  {
    assert Ordered(times[..i + 1]);
    FixedCountsNoMore(times[..i + 1], window);
  }

  /** The first request of the unbroken run that request `i` belongs to: each of the others came no more than
      a window after the one before it. */
  function RunStart(times: seq<int>, window: nat, i: nat): (first: nat)
    requires i < |times|
    ensures first <= i && !Close(times, window, first) && OneRun(times, window, first, i)
  {
    if Close(times, window, i) then RunStart(times, window, i - 1) else i
  }

  /** The fixed window opened by the first request of a run counts every request of it until it ends, and
      fewer from then on. */
  lemma {:induction false} FixedCountInRun(times: seq<int>, window: nat, first: nat, j: nat)
    requires Ordered(times) && first <= j < |times| && OneRun(times, window, first, j) && !Close(times, window, first)
    ensures var b := FixedAfter(times[..j + 1], window).value;
            if times[j] - times[first] <= window then b == Bucket(j - first + 1, times[first] + window)
            else b.count <= j - first
    decreases j
  {
    assert times[..j + 1][..j] == times[..j];
    if first < j {
      FixedCountInRun(times, window, first, j - 1);
    } else if first > 0 {
      assert times[..j][|times[..j]| - 1] == times[j - 1];
      FixedCountsNoMore(times[..j], window);
    }
  }

  /** Where the two limiters agree: whatever the limit, they decide alike on a request exactly when it comes
      no later than one window after the run of requests it belongs to began. */
  lemma IsFixedWindowExactlyWhen(times: seq<int>, window: nat, i: nat)
    requires Ordered(times) && i < |times|
    ensures (forall limit: int :: Allowed(times, limit, window, i) <==> FixedAllowed(times, limit, window, i))
            <==> times[i] - times[RunStart(times, window, i)] <= window
  {
    var first := RunStart(times, window, i);
    CountStep(times, window, first);
    CountGrows(times, window, first, i);
    FixedCountInRun(times, window, first, i);
    if times[i] - times[first] > window {
      var limit := FixedAfter(times[..i + 1], window).value.count;
      assert FixedAllowed(times, limit, window, i) && !Allowed(times, limit, window, i);
    }
  }

  /** For example: with a limit of 2 per 10, the third of three requests at 0, 6 and 12 is refused although it
      falls in a new window. */
  lemma StricterThanFixedWindow()
    ensures var times := [0, 6, 12]; FixedAllowed(times, 2, 10, 2) && !Allowed(times, 2, 10, 2)
  {
    var times := [0, 6, 12];
    assert times[..3] == times && times[..2] == [0, 6] && times[..1] == [0] && times[..0] == [];
    assert [0, 6][..1] == [0] && [0][..0] == [];
    assert FixedAfter([0], 10) == Some(Bucket(1, 10)) && After([0], 10) == Some(Bucket(1, 10));
    assert FixedAfter([0, 6], 10) == Some(Bucket(2, 10)) && After([0, 6], 10) == Some(Bucket(2, 16));
  }
}
