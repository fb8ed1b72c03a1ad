/** The four Redis keys behind the job queue and the effect of every command,
    script and transaction the queue issues on them. Each function below is one
    atomic step of the server. */
module RedisStore {
  import opened JobTypes

  /** `queued` is the list from left (newest push) to right (next pop); `processing`
      and `dead` are scored sets; scores are Unix seconds. */
  datatype Redis = Redis(
    queued: seq<Id>,
    processing: map<Id, int>,
    dead: map<Id, int>,
    payloads: map<Id, Payload>
  )

  const EMPTY := Redis([], map[], map[], map[])

  /** How many members one ZRANGEBYSCORE of a sweep asks for. */
  const BATCH: nat := 100

  function LPush(r: Redis, id: Id): Redis {
    r.(queued := [id] + r.queued)
  }

  /** RPOP and BRPOP take the rightmost id. */
  function RPop(r: Redis): Redis
    requires r.queued != []
  {
    r.(queued := r.queued[..|r.queued| - 1])
  }

  function NextPop(r: Redis): Id
    requires r.queued != []
  {
    r.queued[|r.queued| - 1]
  }

  function ZAdd(r: Redis, id: Id, score: int): Redis {
    r.(processing := r.processing[id := score])
  }

  /** The transaction of Enqueue: store the payload, then either list the id or, for a
      delayed job, park it with the second at which it becomes visible. */
  function Enqueue(r: Redis, p: Payload, now: Time, delay: int): Redis {
    var stored := r.(payloads := r.payloads[p.job := p]);
    if delay > 0 then ZAdd(stored, p.job, Unix(now + delay)) else LPush(stored, p.job)
  }

  /** The Lua claim: pop and lease in one step. */
  function Claim(r: Redis, deadline: int): Redis
    requires r.queued != []
  {
    ZAdd(RPop(r), NextPop(r), deadline)
  }

  function Ack(r: Redis, id: Id): Redis {
    r.(processing := r.processing - {id}, payloads := r.payloads - {id}, dead := r.dead - {id})
  }

  /** Fail: bury the id, or list it again at once. */
  function Fail(r: Redis, id: Id, permanent: bool, now: Time): Redis {
    var released := r.(processing := r.processing - {id});
    if permanent then released.(dead := released.dead[id := Unix(now)]) else LPush(released, id)
  }

  /** The sweep's per-id script moves an id only while its score is not later than `now`. */
  predicate Due(r: Redis, id: Id, now: int) {
    id in r.processing && r.processing[id] <= now
  }

  function PushBack(r: Redis, id: Id): Redis {
    LPush(r.(processing := r.processing - {id}), id)
  }

  function SweepOne(r: Redis, id: Id, now: int): Redis {
    if Due(r, id, now) then PushBack(r, id) else r
  }

  // ---------------------------------------------------------------- ranking

  /** Order of members in a scored set: by score, then by member. */
  predicate Before(z: map<Id, int>, a: Id, b: Id)
    requires a in z && b in z
  {
    z[a] < z[b] || (z[a] == z[b] && a <= b)
  }

  lemma LeastExists(z: map<Id, int>, ids: set<Id>) returns (a: Id)
    requires ids != {} && ids <= z.Keys
    ensures a in ids && forall b | b in ids :: Before(z, a, b)
    decreases |ids|
  {
    a :| a in ids;
    var rest := ids - {a};
    assert forall b | b in ids :: b == a || b in rest;
    if rest != {} {
      var y := LeastExists(z, rest);
      if !Before(z, a, y) {
        a := y;
      }
    }
  }

  function Least(z: map<Id, int>, ids: set<Id>): (a: Id)
    requires ids != {} && ids <= z.Keys
    ensures a in ids && forall b | b in ids :: Before(z, a, b)
  {
    assert exists a :: a in ids && forall b | b in ids :: Before(z, a, b) by {
      var a := LeastExists(z, ids);
    }
    var a :| a in ids && forall b | b in ids :: Before(z, a, b);
    a
  }

  /** `ids` listed in the order of the scored set `z`. */
  function Ranked(z: map<Id, int>, ids: set<Id>): seq<Id>
    requires ids <= z.Keys
    decreases |ids|
  {
    if ids == {} then [] else
      var a := Least(z, ids);
      [a] + Ranked(z, ids - {a})
  }

  ghost predicate IsRanking(z: map<Id, int>, s: seq<Id>, ids: set<Id>)
    requires ids <= z.Keys
  {
    && (forall a :: a in s <==> a in ids)
    && (forall i, j | 0 <= i < j < |s| :: s[i] != s[j] && Before(z, s[i], s[j]))
  }

  lemma {:induction false} RankedMembers(z: map<Id, int>, ids: set<Id>)
    requires ids <= z.Keys
    ensures |Ranked(z, ids)| == |ids| && forall a :: a in Ranked(z, ids) <==> a in ids
    decreases |ids|
  {
    if ids != {} {
      var a := Least(z, ids);
      RankedMembers(z, ids - {a});
      assert Ranked(z, ids) == [a] + Ranked(z, ids - {a});
    }
  }

  lemma {:induction false} RankedIsRanking(z: map<Id, int>, ids: set<Id>)
    requires ids <= z.Keys
    ensures IsRanking(z, Ranked(z, ids), ids) && |Ranked(z, ids)| == |ids|
    decreases |ids|
  {
    RankedMembers(z, ids);
    if ids != {} {
      var s, a := Ranked(z, ids), Least(z, ids);
      var rest := Ranked(z, ids - {a});
      RankedIsRanking(z, ids - {a});
      assert s == [a] + rest;
      forall i, j | 0 <= i < j < |s| ensures s[i] in z && s[j] in z && s[i] != s[j] && Before(z, s[i], s[j]) {
        assert s[j] == rest[j - 1] && rest[j - 1] in rest;
        if i > 0 {
          assert s[i] == rest[i - 1];
        }
      }
    }
  }

  function UpTo(z: map<Id, int>, max: int): set<Id> {
    set id | id in z && z[id] <= max
  }

  function ZRangeByScore(z: map<Id, int>, max: int, count: nat): seq<Id> {
    var all := Ranked(z, UpTo(z, max));
    if |all| <= count then all else all[..count]
  }

  /** A ranking is determined by its members and the order: there is only one. */
  lemma {:induction false} RankedUnique(z: map<Id, int>, s: seq<Id>, ids: set<Id>)
    requires ids <= z.Keys && IsRanking(z, s, ids)
    ensures s == Ranked(z, ids)
    decreases |s|
  {
    if s == [] {
      assert ids == {};
    } else {
      var a := s[0];
      assert a in ids;
      assert Least(z, ids) == a by {
        assert Before(z, a, Least(z, ids)) && Before(z, Least(z, ids), a);
      }
      var rest := s[1..];
      forall b ensures b in rest <==> b in ids - {a} {
        if b in ids - {a} {
          var i :| 0 <= i < |s| && s[i] == b;
          assert rest[i - 1] == b;
        }
      }
      RankedUnique(z, rest, ids - {a});
    }
  }

  function Reverse(s: seq<Id>): (r: seq<Id>)
    ensures |r| == |s|
  {
    if s == [] then [] else Reverse(s[1..]) + [s[0]]
  }

  /** What a sweep is for, in one step: every lease not later than `now` returns to the
      list, behind the ids already there, in the order of the scored set. */
  function Sweep(r: Redis, now: int): Redis {
    r.(
      processing := r.processing - UpTo(r.processing, now),
      queued := Reverse(Ranked(r.processing, UpTo(r.processing, now))) + r.queued
    )
  }

  /** The per-id script run over a list of ids, in order. */
  function SweepAll(r: Redis, ids: seq<Id>, now: int): Redis {
    if ids == [] then r else SweepOne(SweepAll(r, ids[..|ids| - 1], now), ids[|ids| - 1], now)
  }

  /** One round of the sweep loop. The ids are fetched against the clock reading `later`,
      but moved against the reading `now` taken before the loop. */
  function Round(r: Redis, now: int, later: int): Redis {
    SweepAll(r, ZRangeByScore(r.processing, later, BATCH), now)
  }

  predicate LastRound(r: Redis, later: int) {
    |ZRangeByScore(r.processing, later, BATCH)| < BATCH
  }

  /** Leases the fetch returns but the script refuses. */
  function Stuck(z: map<Id, int>, now: int, later: int): set<Id> {
    set id | id in z && now < z[id] <= later
  }
}
