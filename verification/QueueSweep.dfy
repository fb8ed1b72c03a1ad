/** The batched sweep loop against the one-step sweep it stands for. */
module QueueSweep {
  import opened JobTypes
  import opened RedisStore

  /** Removing members from the scored set does not reorder the others. */
  lemma {:induction false} RankedAfterRemoval(z: map<Id, int>, gone: set<Id>, ids: set<Id>)
    requires ids <= z.Keys - gone
    ensures ids <= (z - gone).Keys && Ranked(z - gone, ids) == Ranked(z, ids)
    decreases |ids|
  {
    if ids != {} {
      var a, b := Least(z, ids), Least(z - gone, ids);
      assert Before(z, a, b) && Before(z - gone, b, a);
      RankedAfterRemoval(z, gone, ids - {a});
    }
  }

  /** Moving the first due lease of the scored set leaves the sweep's outcome alone. */
  lemma PushBackLeast(r: Redis, id: Id, now: int)
    requires Due(r, id, now)
    requires forall b | b in UpTo(r.processing, now) :: Before(r.processing, id, b)
    ensures Sweep(PushBack(r, id), now) == Sweep(r, now)
  {
    var z, due := r.processing, UpTo(r.processing, now);
    assert id in due;
    assert id == Least(z, due) by {
      assert Before(z, id, Least(z, due)) && Before(z, Least(z, due), id);
    }
    var due' := due - {id};
    assert UpTo(z - {id}, now) == due';
    RankedAfterRemoval(z, {id}, due');
    assert z - {id} - due' == z - due;
    ReverseOfCons(id, Ranked(z, due'), r.queued);
  }

  lemma ReverseOfCons(id: Id, s: seq<Id>, tail: seq<Id>)
    ensures Reverse([id] + s) + tail == Reverse(s) + ([id] + tail)
  {
    assert ([id] + s)[1..] == s;
  }

  lemma NothingDue(r: Redis, now: int)
    requires UpTo(r.processing, now) == {}
    ensures Sweep(r, now) == r
  {
    assert r.processing - {} == r.processing;
  }

  lemma SweepCount(r: Redis, now: int)
    ensures |Sweep(r, now).processing| + |UpTo(r.processing, now)| == |r.processing|
  {
    assert Sweep(r, now).processing.Keys == r.processing.Keys - UpTo(r.processing, now);
  }

  ghost function DueAmong(z: map<Id, int>, ids: seq<Id>, now: int): set<Id> {
    set id | id in ids && id in z && z[id] <= now
  }

  /** What running the script over a prefix of the ranked ids does: exactly the due ones
      among them leave the scored set, and the rest of the sweep is still to come. */
  lemma {:induction false} Prefix(r: Redis, now: int, later: int, all: seq<Id>, k: nat)
    requires now <= later && IsRanking(r.processing, all, UpTo(r.processing, later)) && k <= |all|
    ensures SweepAll(r, all[..k], now).processing == r.processing - DueAmong(r.processing, all[..k], now)
    ensures Sweep(SweepAll(r, all[..k], now), now) == Sweep(r, now)
    decreases k
  {
    var z := r.processing;
    if k == 0 {
      assert DueAmong(z, all[..0], now) == {};
      assert z - {} == z;
    } else {
      Prefix(r, now, later, all, k - 1);
      var id, before := all[k - 1], SweepAll(r, all[..k - 1], now);
      assert all[..k] == all[..k - 1] + [id] && all[..k][..k - 1] == all[..k - 1];
      assert SweepAll(r, all[..k], now) == SweepOne(before, id, now);
      NotEarlier(all, k - 1);
      assert id in all;
      if z[id] <= now {
        assert DueAmong(z, all[..k], now) == DueAmong(z, all[..k - 1], now) + {id};
        NextIsLeast(z, now, later, all, k - 1);
        PushBackLeast(before, id, now);
        assert before.processing - {id} == z - DueAmong(z, all[..k], now);
      } else {
        assert DueAmong(z, all[..k], now) == DueAmong(z, all[..k - 1], now);
      }
    }
  }

  lemma NotEarlier(all: seq<Id>, k: nat)
    requires k < |all| && forall i, j | 0 <= i < j < |all| :: all[i] != all[j]
    ensures all[k] !in all[..k]
  {}

  lemma NextIsLeast(z: map<Id, int>, now: int, later: int, all: seq<Id>, k: nat)
    requires now <= later && IsRanking(z, all, UpTo(z, later)) && k < |all|
    requires all[k] in z && z[all[k]] <= now
    ensures var left := z - DueAmong(z, all[..k], now);
            && all[k] in left
            && forall b | b in UpTo(left, now) :: Before(left, all[k], b)
  {
    NotEarlier(all, k);
    assert all[k] in all;
    var left := z - DueAmong(z, all[..k], now);
    forall b | b in UpTo(left, now) ensures Before(left, all[k], b) {
      assert b in all;
      var j :| 0 <= j < |all| && all[j] == b;
      if k < j {
        assert all[j] in z && Before(z, all[k], all[j]);
      }
    }
  }

  /** Distinct ids of leases not later than `later`, in the order of the set. */
  ghost predicate InOrder(z: map<Id, int>, ids: seq<Id>, later: int) {
    && (forall a | a in ids :: a in UpTo(z, later))
    && forall i, j | 0 <= i < j < |ids| ::
         ids[i] in z && ids[j] in z && ids[i] != ids[j] && Before(z, ids[i], ids[j])
  }

  /** One round is the script run over the first batch of the ranking. */
  lemma RoundIsPrefix(r: Redis, now: int, later: int) returns (ids: seq<Id>)
    requires now <= later
    ensures ids == ZRangeByScore(r.processing, later, BATCH)
    ensures Round(r, now, later).processing == r.processing - DueAmong(r.processing, ids, now)
    ensures Sweep(Round(r, now, later), now) == Sweep(r, now)
    ensures InOrder(r.processing, ids, later)
    ensures |ids| < BATCH ==> forall a | a in UpTo(r.processing, later) :: a in ids
    ensures |UpTo(r.processing, later)| >= BATCH ==> |ids| == BATCH
  {
    var all := Ranked(r.processing, UpTo(r.processing, later));
    RankedIsRanking(r.processing, UpTo(r.processing, later));
    var k := if |all| <= BATCH then |all| else BATCH;
    ids := all[..k];
    Prefix(r, now, later, all, k);
    forall i, j | 0 <= i < j < |ids|
      ensures ids[i] in r.processing && ids[j] in r.processing
      ensures ids[i] != ids[j] && Before(r.processing, ids[i], ids[j])
    {
      assert all[i] in all && all[j] in all;
    }
  }

  /** One round keeps the outcome and the stuck leases; if it is the last one the sweep is
      over, and otherwise it frees a lease as long as fewer than a batch are stuck. */
  lemma RoundStep(r: Redis, now: int, later: int)
    requires now <= later
    ensures Sweep(Round(r, now, later), now) == Sweep(r, now)
    ensures Stuck(Round(r, now, later).processing, now, later) == Stuck(r.processing, now, later)
    ensures LastRound(r, later) ==> UpTo(Round(r, now, later).processing, now) == {}
    ensures !LastRound(r, later) && |Stuck(r.processing, now, later)| < BATCH ==>
              |Round(r, now, later).processing| < |r.processing|
  {
    var z := r.processing;
    var ids := RoundIsPrefix(r, now, later);
    var moved := DueAmong(z, ids, now);
    if |ids| >= BATCH && |Stuck(z, now, later)| < BATCH {
      FullRoundMoves(z, now, later, ids);
      assert (z - moved).Keys == z.Keys - moved;
      Fits(z.Keys - moved, z.Keys - {ids[0]});
    }
  }

  lemma FullRoundMoves(z: map<Id, int>, now: int, later: int, ids: seq<Id>)
    requires |ids| >= BATCH && |Stuck(z, now, later)| < BATCH
    requires InOrder(z, ids, later)
    ensures ids[0] in DueAmong(z, ids, now)
  {
    assert ids[0] in ids;
    if z[ids[0]] > now {
      forall a | a in ids ensures a in Stuck(z, now, later) {
        var i :| 0 <= i < |ids| && ids[i] == a;
      }
      DistinctFit(ids, Stuck(z, now, later));
      assert false;
    }
  }

  lemma {:induction false} Fits(a: set<Id>, b: set<Id>)
    requires a <= b
    ensures |a| <= |b|
  {
    if a != {} {
      var x :| x in a;
      Fits(a - {x}, b - {x});
    }
  }

  lemma {:induction false} DistinctFit(s: seq<Id>, ids: set<Id>)
    requires forall a | a in s :: a in ids
    requires forall i, j | 0 <= i < j < |s| :: s[i] != s[j]
    ensures |s| <= |ids|
  {
    if s != [] {
      var rest := s[1..];
      forall a | a in rest ensures a in ids - {s[0]} {
        var i :| 0 <= i < |rest| && rest[i] == a;
        assert s[i + 1] == a;
      }
      DistinctFit(rest, ids - {s[0]});
    }
  }

  // ---------------------------------------------------------------- rounds under a running clock

  /** The fetches read the clock afresh: `clock(n)` is what round `n` reads. It does not run backwards,
      and does not lie before `now`, the reading taken at entry. */
  ghost predicate Readings(now: int, clock: nat -> int) {
    now <= clock(0) && forall m: nat, n: nat :: m <= n ==> clock(m) <= clock(n)
  }

  /** The leases a fetch finds are the due ones and the stuck ones. */
  lemma FetchedCount(z: map<Id, int>, now: int, later: int)
    requires now <= later
    ensures |UpTo(z, later)| == |UpTo(z, now)| + |Stuck(z, now, later)|
  {
    assert UpTo(z, later) == UpTo(z, now) + Stuck(z, now, later);
    assert UpTo(z, now) !! Stuck(z, now, later);
  }

  lemma {:induction false} CountOfDistinct(s: seq<Id>, ids: set<Id>)
    requires forall a :: a in s <==> a in ids
    requires forall i, j | 0 <= i < j < |s| :: s[i] != s[j]
    ensures |ids| == |s|
  {
    if s == [] {
      assert ids == {};
    } else {
      var rest := s[1..];
      forall a ensures a in rest <==> a in ids - {s[0]} {
        if a in rest {
          var i :| 0 <= i < |rest| && rest[i] == a;
          assert s[i + 1] == a;
        }
      }
      CountOfDistinct(rest, ids - {s[0]});
    }
  }

  /** A batch takes the due leases first: all of them, or nothing else. */
  lemma DueComeFirst(z: map<Id, int>, now: int, later: int, ids: seq<Id>, b: Id)
    requires now <= later && ids == ZRangeByScore(z, later, BATCH)
    requires b in z && z[b] <= now && b !in ids
    ensures |ids| == BATCH && forall a | a in ids :: a in z && z[a] <= now
  {
    var all := Ranked(z, UpTo(z, later));
    RankedIsRanking(z, UpTo(z, later));
    assert b in all;
    var j :| 0 <= j < |all| && all[j] == b;
    assert |all| > BATCH && j >= BATCH;
    forall a | a in ids ensures a in z && z[a] <= now {
      var i :| 0 <= i < |ids| && ids[i] == a;
      assert all[i] == a && Before(z, all[i], all[j]);
    }
  }

  lemma MovedCount(z: map<Id, int>, now: int, later: int, ids: seq<Id>)
    requires now <= later && ids == ZRangeByScore(z, later, BATCH)
    requires forall i, j | 0 <= i < j < |ids| :: ids[i] != ids[j]
    ensures |DueAmong(z, ids, now)| == if |UpTo(z, now)| <= BATCH then |UpTo(z, now)| else BATCH
  {
    var due, moved := UpTo(z, now), DueAmong(z, ids, now);
    assert moved <= due;
    if b :| b in due && b !in ids {
      DueComeFirst(z, now, later, ids, b);
      CountOfDistinct(ids, moved);
      assert moved <= due - {b};
      Fits(moved, due - {b});
    } else {
      assert moved == due;
      DistinctAtMost(moved, ids);
    }
  }

  lemma {:induction false} DistinctAtMost(ids: set<Id>, s: seq<Id>)
    requires forall a | a in ids :: a in s
    ensures |ids| <= |s|
  {
    if s == [] {
      assert ids == {};
    } else {
      DistinctAtMost(ids - {s[0]}, s[1..]);
    }
  }

  /** Due leases left by one round. */
  function LeftOver(due: nat): nat {
    if due <= BATCH then 0 else due - BATCH
  }

  /** What one round does, in numbers. */
  lemma RoundCounts(r: Redis, now: int, later: int)
    requires now <= later
    ensures LastRound(r, later) <==> |UpTo(r.processing, now)| + |Stuck(r.processing, now, later)| < BATCH
    ensures |UpTo(Round(r, now, later).processing, now)| == LeftOver(|UpTo(r.processing, now)|)
    ensures forall t :: Stuck(Round(r, now, later).processing, now, t) == Stuck(r.processing, now, t)
  {
    var z := r.processing;
    FetchedCount(z, now, later);
    var ids := RoundIsPrefix(r, now, later);
    RankedMembers(z, UpTo(z, later));
    MovedCount(z, now, later, ids);
    var moved := DueAmong(z, ids, now);
    var z' := Round(r, now, later).processing;
    assert UpTo(z', now) == UpTo(z, now) - moved;
    assert moved <= UpTo(z, now);
  }

  /** The state after `n` rounds, the loop's exit aside. */
  function Rounds(r: Redis, now: int, clock: nat -> int, n: nat): Redis {
    if n == 0 then r else Round(Rounds(r, now, clock, n - 1), now, clock(n - 1))
  }

  function DueAfter(due: nat, n: nat): nat {
    if due <= BATCH * n then 0 else due - BATCH * n
  }

  lemma {:induction false} RoundsCount(r: Redis, now: int, clock: nat -> int, n: nat)
    requires Readings(now, clock)
    ensures |UpTo(Rounds(r, now, clock, n).processing, now)| == DueAfter(|UpTo(r.processing, now)|, n)
    ensures forall t :: Stuck(Rounds(r, now, clock, n).processing, now, t) == Stuck(r.processing, now, t)
  {
    if n > 0 {
      RoundsCount(r, now, clock, n - 1);
      assert now <= clock(0) <= clock(n - 1);
      RoundCounts(Rounds(r, now, clock, n - 1), now, clock(n - 1));
    }
  }

  /** Round `n` fetches a short batch, after which the loop ends. */
  predicate StopsAt(r: Redis, now: int, clock: nat -> int, n: nat) {
    LastRound(Rounds(r, now, clock, n), clock(n))
  }

  /** After the rounds that are full of due leases, the next fetch or the one after it comes out short:
      what is stuck between the entry's reading and theirs decides. */
  ghost predicate Stops(z: map<Id, int>, now: int, clock: nat -> int) {
    var full := |UpTo(z, now)| / 100;
    || |UpTo(z, now)| % 100 + |Stuck(z, now, clock(full))| < 100
    || |Stuck(z, now, clock(full + 1))| < 100
  }

  lemma StuckGrows(z: map<Id, int>, now: int, clock: nat -> int, m: nat, n: nat)
    requires Readings(now, clock) && m <= n
    ensures |Stuck(z, now, clock(m))| <= |Stuck(z, now, clock(n))|
  {
    assert clock(m) <= clock(n);
    Fits(Stuck(z, now, clock(m)), Stuck(z, now, clock(n)));
  }

  lemma StopsAtByCount(r: Redis, now: int, clock: nat -> int, n: nat)
    requires Readings(now, clock)
    ensures StopsAt(r, now, clock, n)
            <==> DueAfter(|UpTo(r.processing, now)|, n) + |Stuck(r.processing, now, clock(n))| < BATCH
  {
    RoundsCount(r, now, clock, n);
    assert now <= clock(0) <= clock(n);
    RoundCounts(Rounds(r, now, clock, n), now, clock(n));
  }

  /** Whatever the clock does between the fetches, the loop ever reaches a short batch exactly under
      that condition; otherwise it spins for ever. With a standing clock nothing is stuck. */
  lemma SweepStopsExactly(r: Redis, now: int, clock: nat -> int)
    requires Readings(now, clock)
    ensures (exists n: nat :: StopsAt(r, now, clock, n)) <==> Stops(r.processing, now, clock)
    ensures (forall n: nat :: clock(n) == now) ==> Stops(r.processing, now, clock)
  {
    var z, due := r.processing, |UpTo(r.processing, now)|;
    var full := due / BATCH;
    StopsAtByCount(r, now, clock, full);
    StopsAtByCount(r, now, clock, full + 1);
    if !Stops(z, now, clock) {
      forall n: nat ensures !StopsAt(r, now, clock, n) {
        StopsAtByCount(r, now, clock, n);
        if n > full {
          StuckGrows(z, now, clock, full + 1, n);
        }
      }
    }
    if forall n: nat :: clock(n) == now {
      assert Stuck(z, now, now) == {};
    }
  }

  /** The loop, started on `first`, is about to fetch for the n-th time and finds `r`. */
  ghost predicate Underway(first: Redis, r: Redis, now: int, clock: nat -> int, n: nat) {
    var full := |UpTo(first.processing, now)| / BATCH;
    && Sweep(r, now) == Sweep(first, now)
    && |UpTo(r.processing, now)| == DueAfter(|UpTo(first.processing, now)|, n)
    && (forall t :: Stuck(r.processing, now, t) == Stuck(first.processing, now, t))
    && n <= full + 1
    && (n == full + 1 ==> |Stuck(first.processing, now, clock(n))| < BATCH)
  }

  /** A short batch leaves nothing due; after a full one the loop goes on, and not for ever. */
  lemma NextRound(first: Redis, r: Redis, now: int, clock: nat -> int, n: nat)
    requires Readings(now, clock) && Stops(first.processing, now, clock) && Underway(first, r, now, clock, n)
    ensures var after := Round(r, now, clock(n));
            if LastRound(r, clock(n)) then Sweep(first, now) == after
            else n <= |UpTo(first.processing, now)| / BATCH && Underway(first, after, now, clock, n + 1)
  {
    assert now <= clock(0) <= clock(n);
    RoundStep(r, now, clock(n));
    RoundCounts(r, now, clock(n));
    if LastRound(r, clock(n)) {
      NothingDue(Round(r, now, clock(n)), now);
    }
  }

  /** A sweep takes exactly the leases that are due, each once, and puts them behind the ids
      already listed in the order of the scored set; sweeping again changes nothing. */
  lemma SweepIsExact(r: Redis, now: int, earlier: int)
    requires earlier <= now
    ensures var after := Sweep(r, now);
            && (forall id :: id in after.processing <==> id in r.processing && r.processing[id] > now)
            && |after.queued| == |r.queued| + |UpTo(r.processing, now)|
            && after.queued[|UpTo(r.processing, now)|..] == r.queued
            && Sweep(after, earlier) == after
  {
    var after := Sweep(r, now);
    RankedIsRanking(r.processing, UpTo(r.processing, now));
    NothingDue(after, earlier);
  }

  lemma {:induction false} ReverseAt(s: seq<Id>, k: nat)
    requires k < |s|
    ensures Reverse(s)[k] == s[|s| - 1 - k]
  {
    if k < |s| - 1 {
      ReverseAt(s[1..], k);
    }
  }

  /** The ids a sweep moved are popped after all older ones, in the order of the scored set. */
  lemma SweptPopOrder(r: Redis, now: int, s: seq<Id>, i: nat)
    requires s == Ranked(r.processing, UpTo(r.processing, now)) && i < |s|
    ensures IsRanking(r.processing, s, UpTo(r.processing, now))
    ensures |Sweep(r, now).queued| == |s| + |r.queued| && Sweep(r, now).queued[|s| - 1 - i] == s[i]
  {
    RankedIsRanking(r.processing, UpTo(r.processing, now));
    ReverseAt(s, |s| - 1 - i);
  }
}
