/** The worker's retry decision and its exponential backoff with jitter. */
module Backoff {
  import opened JobTypes

  const MAX_INT64: int := 0x7fff_ffff_ffff_ffff

  function Pow2(n: nat): nat {
    if n == 0 then 1 else 2 * Pow2(n - 1)
  }

  /** A failed delivery of attempt `attempt` is tried again unless attempts are used up or
      the failure is of a kind that would only repeat itself. */
  predicate WillRetry(attempt: nat, maxAttempts: nat, code: ErrorCode) {
    attempt + 1 < maxAttempts && Retriable(code)
  }

  /** What is left of a number in 64 bits with sign. */
  function Int64(x: int): int {
    (x + MAX_INT64 + 1) % (2 * (MAX_INT64 + 1)) - MAX_INT64 - 1
  }

  /** The delay of the re-enqueue that carries attempt number `attempt`, in 64-bit nanoseconds. */
  function RetryDelay(attempt: nat, jitter: nat): int {
    Int64(Pow2(attempt) * SECOND + jitter)
  }

  /** How long an Enqueue with this delay makes the job wait: not at all if it is negative. */
  function Wait(delay: int): nat {
    if delay > 0 then delay else 0
  }

  /** Two to the attempt of seconds and a fraction of one. */
  predicate IsBackoff(attempt: nat, delay: int) {
    Pow2(attempt) * SECOND <= delay < (Pow2(attempt) + 1) * SECOND
  }

  /** The failures a worker can run into: the asset row, the ML call, the result row. */
  predicate WorkerFailure(k: ErrorKind) {
    k in {KStorage, KInference, KDatabase}
  }

  /** Every one of them is retriable, an asset that does not exist included; the kinds that are
      not retriable never reach the worker's failure path. */
  lemma WorkerFailuresAreRetriable(k: ErrorKind)
    ensures WorkerFailure(k) ==> Retriable(ClassifyErrorCode(k))
    ensures Retriable(ClassifyErrorCode(k)) <==> k in {KStorage, KDatabase, KQueue, KInference, KModel}
    ensures forall c :: Retriable(c) <==> c == Timeout || c in {StorageError, DatabaseError, QueueError, MLServiceError}
  {
    assert !Retriable(InternalError);
  }

  // ---------------------------------------------------------------- delays

  lemma {:induction false} Pow2Grows(a: nat, b: nat)
    requires a < b
    ensures 2 * Pow2(a) <= Pow2(b) && Pow2(a) >= 1
    decreases b
  {
    if a + 1 < b {
      Pow2Grows(a, b - 1);
    } else {
      Pow2Positive(a);
    }
  }

  lemma {:induction false} Pow2Positive(a: nat)
    ensures Pow2(a) >= 1
  {
    if a > 0 {
      Pow2Positive(a - 1);
    }
  }

  lemma Int64Of(x: nat)
    ensures x <= MAX_INT64 ==> Int64(x) == x
    ensures MAX_INT64 < x <= 2 * MAX_INT64 + 1 ==> Int64(x) < 0
    ensures Wait(Int64(x)) <= x
  {}

  /** Cutting to 64 bits after each step or once at the end is the same. */
  lemma Int64Twice(x: int, y: int)
    ensures Int64(Int64(x) + y) == Int64(x + y)
  {}

  /** A delay is what it is meant to be up to attempt 33, negative for attempt 34, and never makes a job wait
      longer than it should. */
  lemma DelayOf(attempt: nat, jitter: nat)
    requires jitter < SECOND
    ensures attempt <= 33 ==> RetryDelay(attempt, jitter) == Pow2(attempt) * SECOND + jitter
    ensures attempt == 34 ==> RetryDelay(attempt, jitter) < 0
    ensures Wait(RetryDelay(attempt, jitter)) <= Pow2(attempt) * SECOND + jitter
  {
    Pow2At33();
    Int64Of(Pow2(attempt) * SECOND + jitter);
    if attempt < 33 {
      Pow2Grows(attempt, 33);
    }
  }

  /** The delay of a re-enqueue with some jitter below a second. */
  ghost predicate IsRetryDelay(attempt: nat, delay: int) {
    exists jitter: nat :: jitter < SECOND && delay == RetryDelay(attempt, jitter)
  }

  lemma RetryDelayIs(attempt: nat, delay: int)
    requires IsRetryDelay(attempt, delay)
    ensures attempt <= 33 ==> IsBackoff(attempt, delay)
    ensures attempt == 34 ==> delay < 0
    ensures Wait(delay) < (Pow2(attempt) + 1) * SECOND
  {
    var jitter: nat :| jitter < SECOND && delay == RetryDelay(attempt, jitter);
    DelayOf(attempt, jitter);
  }

  /** Later attempts wait longer, whatever the two jitters, exactly when at most 34 attempts are configured. */
  lemma DelaysIncreaseExactlyWhen(maxAttempts: nat)
    ensures (forall a: nat, b: nat, j: nat, k: nat | a < b < maxAttempts && j < SECOND && k < SECOND ::
               RetryDelay(a, j) < RetryDelay(b, k))
            <==> maxAttempts <= 34
  {
    if maxAttempts <= 34 {
      forall a: nat, b: nat, j: nat, k: nat | a < b < maxAttempts && j < SECOND && k < SECOND
        ensures RetryDelay(a, j) < RetryDelay(b, k)
      {
        DelayOf(a, j);
        DelayOf(b, k);
        Pow2Grows(a, b);
      }
    } else {
      DelayOf(33, 0);
      DelayOf(34, 0);
      assert RetryDelay(34, 0) < RetryDelay(33, 0);
    }
  }

  /** Every re-enqueue is delayed by its backoff exactly when at most 34 attempts are configured: from attempt
      34 on the nanoseconds do not fit 64 bits. */
  lemma DelaysFitInt64Exactly(maxAttempts: nat)
    ensures (forall attempt: nat, jitter: nat | 2 <= attempt < maxAttempts && jitter < SECOND ::
               IsBackoff(attempt, RetryDelay(attempt, jitter)))
            <==> maxAttempts <= 34
  {
    if maxAttempts <= 34 {
      forall attempt: nat, jitter: nat | 2 <= attempt < maxAttempts && jitter < SECOND
        ensures IsBackoff(attempt, RetryDelay(attempt, jitter))
      {
        DelayOf(attempt, jitter);
      }
    } else {
      DelayOf(34, 0);
      assert !IsBackoff(34, RetryDelay(34, 0));
    }
  }

  lemma Pow2At33()
    ensures Pow2(33) == 0x2_0000_0000 && Pow2(34) == 0x4_0000_0000
  {
    assert Pow2(8) == 0x100;
    Pow2Sum(8, 8);
    Pow2Sum(16, 16);
    assert Pow2(33) == 2 * Pow2(32);
  }

  lemma {:induction false} Pow2Sum(a: nat, b: nat)
    ensures Pow2(a + b) == Pow2(a) * Pow2(b)
  {
    if b > 0 {
      Pow2Sum(a, b - 1);
    }
  }

  /** Scores are whole seconds, so a delayed id can become due early, but by less than a second. */
  lemma DueLessThanASecondEarly(sentAt: Time, delay: nat, sweptAt: Time)
    requires Unix(sentAt + delay) <= Unix(sweptAt)
    ensures sentAt + delay < sweptAt + SECOND
  {}
}
