/** Keyset pagination: the four cursor queries and what a client that follows next_cursor sees
    while the table changes. */
module Keyset {
  import opened JobTypes

  datatype Key = Key(created: int, id: Id)

  predicate Older(a: Key, b: Key) {
    a.created < b.created || (a.created == b.created && a.id < b.id)
  }

  /** The columns the list queries filter and order by; `parent` is the project or the owner. */
  datatype Row = Row(created: int, parent: Id, status: JobStatus)

  type Table = map<Id, Row>

  /** Models are listed without a filter, projects and assets by owner or project, jobs also by status. */
  datatype Query = Everything | ChildrenOf(parent: Id) | JobsOf(project: Id, statuses: seq<JobStatus>)

  predicate Wanted(q: Query, row: Row) {
    match q
    case Everything => true
    case ChildrenOf(parent) => row.parent == parent
    case JobsOf(project, statuses) => row.parent == project && (statuses == [] || row.status in statuses)
  }

  function Matching(t: Table, q: Query): set<Key> {
    set id | id in t && Wanted(q, t[id]) :: Key(t[id].created, id)
  }

  /** A cursor row that is gone compares with NULL (or joins with nothing), which no row satisfies. */
  function Candidates(t: Table, q: Query, cursor: Option<Id>): set<Key> {
    match cursor
    case None => Matching(t, q)
    case Some(c) =>
      if c in t then set k | k in Matching(t, q) && Older(k, Key(t[c].created, c)) else {}
  }

  function PageSize(limit: int): nat {
    if limit <= 0 || limit > 200 then 50 else limit
  }

  // ---------------------------------------------------------------- newest first

  lemma {:induction false} NewestExists(s: set<Key>) returns (a: Key)
    requires s != {}
    ensures a in s && forall b | b in s :: b == a || Older(b, a)
    decreases |s|
  {
    a :| a in s;
    var rest := s - {a};
    assert forall b | b in s :: b == a || b in rest;
    if rest != {} {
      var y := NewestExists(rest);
      if Older(a, y) {
        a := y;
      }
    }
  }

  function Newest(s: set<Key>): (a: Key)
    requires s != {}
    ensures a in s && forall b | b in s :: b == a || Older(b, a)
  {
    assert exists a :: a in s && forall b | b in s :: b == a || Older(b, a) by {
      var a := NewestExists(s);
    }
    var a :| a in s && forall b | b in s :: b == a || Older(b, a);
    a
  }

  /** ORDER BY created_at DESC, id DESC. */
  function Listed(s: set<Key>): (r: seq<Key>)
    ensures |r| == |s|
    decreases |s|
  {
    if s == {} then [] else [Newest(s)] + Listed(s - {Newest(s)})
  }

  predicate NewestFirst(r: seq<Key>) {
    forall i, j | 0 <= i < j < |r| :: Older(r[j], r[i])
  }

  lemma {:induction false} ListedInOrder(s: set<Key>)
    ensures NewestFirst(Listed(s)) && forall k :: k in Listed(s) <==> k in s
    decreases |s|
  {
    if s == {} {
    } else {
      var a := Newest(s);
      ListedInOrder(s - {a});
      var rest := Listed(s - {a});
      assert Listed(s) == [a] + rest;
      assert forall i | 0 <= i < |rest| :: rest[i] in s - {a};
    }
  }

  /** Newest first is only one list. */
  lemma {:induction false} ListedUnique(r: seq<Key>, s: set<Key>)
    requires NewestFirst(r) && forall k :: k in r <==> k in s
    ensures r == Listed(s)
    decreases |r|
  {
    if r == [] {
      assert s == {};
    } else {
      var a := r[0];
      assert a in s;
      assert Newest(s) == a;
      forall k ensures k in r[1..] <==> k in s - {a} {
        if k in r[1..] {
          var i :| 0 <= i < |r| - 1 && r[1..][i] == k;
          assert r[i + 1] == k && Older(k, a);
        }
      }
      ListedUnique(r[1..], s - {a});
    }
  }

  function First(r: seq<Key>, n: nat): seq<Key> {
    if |r| <= n then r else r[..n]
  }

  // ---------------------------------------------------------------- one page

  datatype Page = Page(rows: seq<Key>, next: Option<Id>)

  function PageOf(t: Table, q: Query, cursor: Option<Id>, limit: int): Page {
    var all := Listed(Candidates(t, q, cursor));
    var size := PageSize(limit);
    if |all| <= size then Page(all, None) else Page(all[..size], Some(all[size - 1].id))
  }

  lemma PageSplits(t: Table, q: Query, cursor: Option<Id>, limit: int, k: Key)
    requires k in Candidates(t, q, cursor)
    ensures var p := PageOf(t, q, cursor, limit);
            k in p.rows || (p.next.Some? && Older(k, p.rows[|p.rows| - 1]))
  {
    var all, size := Listed(Candidates(t, q, cursor)), PageSize(limit);
    var p := PageOf(t, q, cursor, limit);
    ListedInOrder(Candidates(t, q, cursor));
    var i :| 0 <= i < |all| && all[i] == k;
    if |all| <= size {
      assert p.rows == all;
    } else {
      assert p.rows == all[..size] && p.rows[size - 1] == all[size - 1];
      if i < size {
        assert all[..size][i] == k;
      } else {
        assert Older(all[i], all[size - 1]);
      }
    }
  }

  lemma PageInOrder(t: Table, q: Query, cursor: Option<Id>, limit: int)
    ensures var p := PageOf(t, q, cursor, limit);
            NewestFirst(p.rows)
            && (forall k | k in p.rows :: k in Candidates(t, q, cursor))
            && (p.next.Some? ==> p.rows != [] && p.next.value == p.rows[|p.rows| - 1].id
                                 && forall k | k in p.rows ::
                                      k == p.rows[|p.rows| - 1] || Older(p.rows[|p.rows| - 1], k))
  {
    ListedInOrder(Candidates(t, q, cursor));
  }

  /** The row is one the query asks for: of the project or owner, and of one of the statuses if any are
      given. */
  predicate AskedFor(row: Row, q: Query) {
    && (q.ChildrenOf? ==> row.parent == q.parent)
    && (q.JobsOf? ==> row.parent == q.project)
    && (q.JobsOf? && |q.statuses| > 0 ==> exists i :: 0 <= i < |q.statuses| && q.statuses[i] == row.status)
  }

  /** Row `a` comes after row `b` when the newest come first, rows of one moment by descending id. */
  predicate ComesAfter(t: Table, a: Id, b: Id)
    requires a in t && b in t
  {
    t[a].created < t[b].created || (t[a].created == t[b].created && a < b)
  }

  predicate BehindCursor(t: Table, id: Id, cursor: Option<Id>)
    requires id in t
  {
    cursor.Some? ==> cursor.value in t && ComesAfter(t, id, cursor.value)
  }

  lemma CandidatesInColumns(t: Table, q: Query, cursor: Option<Id>, k: Key)
    ensures k in Candidates(t, q, cursor)
            <==> k.id in t && k.created == t[k.id].created && AskedFor(t[k.id], q) && BehindCursor(t, k.id, cursor)
  {
    if q.JobsOf? && k.id in t {
      assert t[k.id].status in q.statuses <==> exists i :: 0 <= i < |q.statuses| && q.statuses[i] == t[k.id].status;
    }
  }

  /** The row belongs to the list that begins at the cursor. */
  predicate OnList(t: Table, q: Query, cursor: Option<Id>, id: Id) {
    id in t && AskedFor(t[id], q) && BehindCursor(t, id, cursor)
  }

  ghost predicate OnlyFromList(t: Table, q: Query, cursor: Option<Id>, out: seq<Key>) {
    && (forall k | k in out :: OnList(t, q, cursor, k.id) && k.created == t[k.id].created)
    && forall i, j | 0 <= i < j < |out| :: out[i].id in t && out[j].id in t && ComesAfter(t, out[j].id, out[i].id)
  }

  ghost predicate NothingSkipped(t: Table, q: Query, cursor: Option<Id>, out: seq<Key>, hasMore: bool) {
    forall id | OnList(t, q, cursor, id) ::
      || Key(t[id].created, id) in out
      || (hasMore && out != [] && out[|out| - 1].id in t && ComesAfter(t, id, out[|out| - 1].id))
  }

  /** There is a row of the list that is not on the page. */
  ghost predicate MoreToCome(t: Table, q: Query, cursor: Option<Id>, out: seq<Key>) {
    exists id :: OnList(t, q, cursor, id) && Key(t[id].created, id) !in out
  }

  lemma PageFromList(t: Table, q: Query, cursor: Option<Id>, limit: int)
    ensures OnlyFromList(t, q, cursor, PageOf(t, q, cursor, limit).rows)
  {
    var p := PageOf(t, q, cursor, limit);
    PageInOrder(t, q, cursor, limit);
    forall k | k in p.rows ensures OnList(t, q, cursor, k.id) && k.created == t[k.id].created {
      CandidatesInColumns(t, q, cursor, k);
    }
    assert forall i | 0 <= i < |p.rows| :: p.rows[i] in p.rows;
  }

  lemma PageSkipsNothing(t: Table, q: Query, cursor: Option<Id>, limit: int)
    ensures var p := PageOf(t, q, cursor, limit); NothingSkipped(t, q, cursor, p.rows, p.next.Some?)
  {
    var p := PageOf(t, q, cursor, limit);
    PageFromList(t, q, cursor, limit);
    forall id | OnList(t, q, cursor, id)
      ensures Key(t[id].created, id) in p.rows
              || (p.next.Some? && p.rows != [] && p.rows[|p.rows| - 1].id in t
                  && ComesAfter(t, id, p.rows[|p.rows| - 1].id))
    {
      CandidatesInColumns(t, q, cursor, Key(t[id].created, id));
      PageSplits(t, q, cursor, limit, Key(t[id].created, id));
      assert p.rows != [] ==> p.rows[|p.rows| - 1] in p.rows;
    }
  }

  lemma PageIsShort(t: Table, q: Query, cursor: Option<Id>, limit: int)
    ensures var p := PageOf(t, q, cursor, limit); p.next.Some? <==> MoreToCome(t, q, cursor, p.rows)
  {
    var p, all, size := PageOf(t, q, cursor, limit), Listed(Candidates(t, q, cursor)), PageSize(limit);
    ListedInOrder(Candidates(t, q, cursor));
    if p.next.Some? {
      var k := all[size];
      CandidatesInColumns(t, q, cursor, k);
      assert k in all && forall i | 0 <= i < size :: Older(k, all[i]);
    } else {
      forall id | OnList(t, q, cursor, id) ensures Key(t[id].created, id) in p.rows {
        CandidatesInColumns(t, q, cursor, Key(t[id].created, id));
      }
    }
  }

  /** The list methods: one row more than the page is fetched to learn whether there are more. */
  method List(t: Table, q: Query, cursor: Option<Id>, limit: int)
    returns (out: seq<Key>, next: Option<Id>, hasMore: bool)
    ensures OnlyFromList(t, q, cursor, out) && NothingSkipped(t, q, cursor, out, hasMore)
    ensures hasMore <==> MoreToCome(t, q, cursor, out)
    ensures |out| <= if 1 <= limit <= 200 then limit else 50
    ensures hasMore ==> |out| == if 1 <= limit <= 200 then limit else 50
    ensures hasMore ==> out != [] && next == Some(out[|out| - 1].id)
    ensures !hasMore ==> next == None
    ensures Page(out, next) == PageOf(t, q, cursor, limit)
  {
    var size := PageSize(limit);
    var rows := First(Listed(Candidates(t, q, cursor)), size + 1);
    out := [];
    for i := 0 to |rows|
      invariant out == rows[..i]
    {
      out := out + [rows[i]];
    }
    assert out == rows;
    hasMore := |out| > size;
    next := None;
    if hasMore {
      assert out[..size] == Listed(Candidates(t, q, cursor))[..size];
      out := out[..size];
      next := Some(out[|out| - 1].id);
    }
    assert Page(out, next) == PageOf(t, q, cursor, limit);
    PageFromList(t, q, cursor, limit);
    PageSkipsNothing(t, q, cursor, limit);
    PageIsShort(t, q, cursor, limit);
  }

  // ---------------------------------------------------------------- following the cursor

  /** One call of a list method: the table as it is at that moment, and the limit asked for. */
  datatype Request = Request(table: Table, limit: int)

  /** All rows a client receives that asks until there are no more. */
  function Walk(rs: seq<Request>, q: Query, cursor: Option<Id>): seq<Key> {
    if rs == [] then [] else
      var p := PageOf(rs[0].table, q, cursor, rs[0].limit);
      p.rows + if p.next.Some? then Walk(rs[1..], q, p.next) else []
  }

  /** Some page had no successor. */
  predicate Finished(rs: seq<Request>, q: Query, cursor: Option<Id>) {
    rs != [] &&
    var p := PageOf(rs[0].table, q, cursor, rs[0].limit);
    p.next.None? || Finished(rs[1..], q, p.next)
  }

  /** The cursor, if any, whose row was gone when its page was asked for. */
  function BrokenCursor(rs: seq<Request>, q: Query, cursor: Option<Id>): Option<Id> {
    if rs == [] then None
    else if cursor.Some? && cursor.value !in rs[0].table then cursor
    else
      var p := PageOf(rs[0].table, q, cursor, rs[0].limit);
      if p.next.Some? then BrokenCursor(rs[1..], q, p.next) else None
  }

  /** Rows come, go and change status between the calls, but created_at is written once. */
  ghost predicate WrittenOnce(rs: seq<Request>, created: Id -> int) {
    forall i, id | 0 <= i < |rs| && id in rs[i].table :: rs[i].table[id].created == created(id)
  }

  function KeyOf(created: Id -> int, id: Id): Key {
    Key(created(id), id)
  }

  lemma CandidateKeys(t: Table, q: Query, cursor: Option<Id>, created: Id -> int, k: Key)
    requires forall id | id in t :: t[id].created == created(id)
    requires k in Candidates(t, q, cursor)
    ensures k == KeyOf(created, k.id) && k in Matching(t, q)
    ensures cursor.Some? ==> Older(k, KeyOf(created, cursor.value))
  {}

  lemma {:induction false} WalkGoesDown(rs: seq<Request>, q: Query, cursor: Option<Id>, created: Id -> int)
    requires WrittenOnce(rs, created)
    ensures NewestFirst(Walk(rs, q, cursor))
    ensures cursor.Some? ==> forall k | k in Walk(rs, q, cursor) :: Older(k, KeyOf(created, cursor.value))
  {
    if rs == [] {
    } else {
      var t := rs[0].table;
      var p := PageOf(t, q, cursor, rs[0].limit);
      PageInOrder(t, q, cursor, rs[0].limit);
      forall k | k in p.rows
        ensures k == KeyOf(created, k.id) && (cursor.Some? ==> Older(k, KeyOf(created, cursor.value)))
      {
        CandidateKeys(t, q, cursor, created, k);
      }
      if p.next.Some? {
        var rest := Walk(rs[1..], q, p.next);
        WalkGoesDown(rs[1..], q, p.next, created);
        Appended(p.rows, rest, KeyOf(created, p.next.value));
      }
    }
  }

  lemma Appended(a: seq<Key>, b: seq<Key>, last: Key)
    requires NewestFirst(a) && NewestFirst(b)
    requires forall k | k in a :: k == last || Older(last, k)
    requires forall k | k in b :: Older(k, last)
    ensures NewestFirst(a + b)
  {
    var s := a + b;
    forall i, j | 0 <= i < j < |s| ensures Older(s[j], s[i]) {
      if i < |a| <= j {
        assert a[i] in a && b[j - |a|] in b;
      }
    }
  }

  /** Whatever happens to the table between the pages, the rows received go strictly down in
      (created_at, id): no row comes twice. */
  lemma NoRowComesTwice(rs: seq<Request>, q: Query, created: Id -> int)
    requires WrittenOnce(rs, created)
    ensures forall i, j | 0 <= i < j < |Walk(rs, q, None)| ::
              Older(Walk(rs, q, None)[j], Walk(rs, q, None)[i])
              && Walk(rs, q, None)[i].id != Walk(rs, q, None)[j].id
  {
    var w := Walk(rs, q, None);
    WalkGoesDown(rs, q, None, created);
    forall i, j | 0 <= i < j < |w| ensures w[i].id != w[j].id {
      WalkKeys(rs, q, None, created, w[i]);
      WalkKeys(rs, q, None, created, w[j]);
    }
  }

  lemma {:induction false} WalkKeys(rs: seq<Request>, q: Query, cursor: Option<Id>, created: Id -> int, k: Key)
    requires WrittenOnce(rs, created) && k in Walk(rs, q, cursor)
    ensures k == KeyOf(created, k.id)
  {
    var p := PageOf(rs[0].table, q, cursor, rs[0].limit);
    if k in p.rows {
      PageInOrder(rs[0].table, q, cursor, rs[0].limit);
      CandidateKeys(rs[0].table, q, cursor, created, k);
    } else {
      WalkKeys(rs[1..], q, p.next, created, k);
    }
  }

  lemma {:induction false} BrokenIsNoNewer(rs: seq<Request>, q: Query, cursor: Option<Id>, created: Id -> int)
    requires WrittenOnce(rs, created) && cursor.Some? && BrokenCursor(rs, q, cursor).Some?
    ensures var b := BrokenCursor(rs, q, cursor).value;
            b == cursor.value || Older(KeyOf(created, b), KeyOf(created, cursor.value))
  {
    if cursor.value in rs[0].table {
      var p := PageOf(rs[0].table, q, cursor, rs[0].limit);
      PageInOrder(rs[0].table, q, cursor, rs[0].limit);
      CandidateKeys(rs[0].table, q, cursor, created, p.rows[|p.rows| - 1]);
      BrokenIsNoNewer(rs[1..], q, p.next, created);
    }
  }

  ghost predicate LostBehind(broken: Option<Id>, created: Id -> int, k: Key) {
    broken.Some? && Older(k, KeyOf(created, broken.value))
  }

  /** The row of key `k` is there, and wanted, at every request. */
  ghost predicate Throughout(rs: seq<Request>, q: Query, k: Key) {
    forall i | 0 <= i < |rs| :: k in Matching(rs[i].table, q)
  }

  /** A row a page could have returned is on it, or older than the cursor it hands out. */
  lemma OnPageOrOlder(t: Table, q: Query, cursor: Option<Id>, limit: int, created: Id -> int, k: Key)
    requires forall id | id in t :: t[id].created == created(id)
    requires k in Matching(t, q)
    requires cursor.Some? ==> cursor.value in t && Older(k, KeyOf(created, cursor.value))
    ensures var p := PageOf(t, q, cursor, limit);
            if k in p.rows
            then p.next.Some? ==> k == KeyOf(created, p.next.value) || Older(KeyOf(created, p.next.value), k)
            else p.next.Some? && Older(k, KeyOf(created, p.next.value))
  {
    var p := PageOf(t, q, cursor, limit);
    assert k in Candidates(t, q, cursor);
    PageInOrder(t, q, cursor, limit);
    PageSplits(t, q, cursor, limit, k);
    if p.next.Some? {
      CandidateKeys(t, q, cursor, created, p.rows[|p.rows| - 1]);
    }
  }

  lemma {:induction false} ReceivedBelow(rs: seq<Request>, q: Query, cursor: Option<Id>, created: Id -> int, k: Key)
    requires WrittenOnce(rs, created) && Throughout(rs, q, k) && Finished(rs, q, cursor)
    requires cursor.Some? ==> Older(k, KeyOf(created, cursor.value))
    ensures k in Walk(rs, q, cursor) <==> !LostBehind(BrokenCursor(rs, q, cursor), created, k)
  {
    var t := rs[0].table;
    var p := PageOf(t, q, cursor, rs[0].limit);
    if cursor.Some? && cursor.value !in t {
      assert p.rows == [];
    } else {
      OnPageOrOlder(t, q, cursor, rs[0].limit, created, k);
      if p.next.Some? {
        if k !in p.rows {
          ReceivedBelow(rs[1..], q, p.next, created, k);
        } else if BrokenCursor(rs[1..], q, p.next).Some? {
          BrokenIsNoNewer(rs[1..], q, p.next, created);
        }
      }
    }
  }

  /** A finished walk has received a row that was there throughout exactly when the row is not older
      than a cursor row that was deleted before its page was asked for. */
  lemma ReceivedExactlyWhen(rs: seq<Request>, q: Query, created: Id -> int, k: Key)
    requires WrittenOnce(rs, created) && Throughout(rs, q, k) && Finished(rs, q, None)
    ensures k in Walk(rs, q, None) <==> !LostBehind(BrokenCursor(rs, q, None), created, k)
  {
    ReceivedBelow(rs, q, None, created, k);
  }

  lemma MatchingOfTwo(a: Row, b: Row)
    requires a.created == 1 && b.created == 2
    ensures Listed(Matching(map[1 := a, 2 := b], Everything)) == [Key(2, 2), Key(1, 1)]
  {
    var t := map[1 := a, 2 := b];
    forall k ensures k in Matching(t, Everything) <==> k in [Key(2, 2), Key(1, 1)] {
      if k == Key(1, 1) || k == Key(2, 2) {
        assert k.id in t && k == Key(t[k.id].created, k.id);
      }
    }
    ListedUnique([Key(2, 2), Key(1, 1)], Matching(t, Everything));
  }

  /** Deleting the last row of a page ends the walk early: a row that is there throughout is never seen. */
  lemma DeletedCursorLosesRows() returns (rs: seq<Request>, created: Id -> int, k: Key)
    ensures WrittenOnce(rs, created) && Throughout(rs, Everything, k) && Finished(rs, Everything, None)
    ensures k !in Walk(rs, Everything, None)
  {
    var one, two := Row(1, 0, Created), Row(2, 0, Created);
    var before, after := Request(map[1 := one, 2 := two], 1), Request(map[1 := one], 1);
    rs, created, k := [before, after], id => id, Key(1, 1);
    MatchingOfTwo(one, two);
    assert PageOf(before.table, Everything, None, 1) == Page([Key(2, 2)], Some(2));
    assert PageOf(after.table, Everything, Some(2), 1) == Page([], None);
    assert rs[1..] == [after];
    assert 1 in before.table && 1 in after.table;
  }

  // ---------------------------------------------------------------- a quiet table

  function Again(r: Request, n: nat): seq<Request> {
    seq(n, _ => r)
  }

  lemma CandidatesAfter(t: Table, q: Query, cursor: Option<Id>, last: Key)
    requires last in Candidates(t, q, cursor)
    ensures forall k :: k in Candidates(t, q, Some(last.id)) <==> k in Candidates(t, q, cursor) && Older(k, last)
  {
    assert last.id in t && last == Key(t[last.id].created, last.id);
  }

  lemma DropInOrder(r: seq<Key>, n: nat)
    requires NewestFirst(r) && 0 < n <= |r|
    ensures NewestFirst(r[n..]) && forall k :: k in r[n..] <==> k in r && Older(k, r[n - 1])
  {
    forall k | k in r && Older(k, r[n - 1]) ensures k in r[n..] {
      var i :| 0 <= i < |r| && r[i] == k;
      assert i >= n;
      assert r[n..][i - n] == k;
    }
  }

  lemma NextCandidates(t: Table, q: Query, cursor: Option<Id>, limit: int)
    requires PageOf(t, q, cursor, limit).next.Some?
    ensures Listed(Candidates(t, q, PageOf(t, q, cursor, limit).next))
            == Listed(Candidates(t, q, cursor))[PageSize(limit)..]
  {
    var all, size := Listed(Candidates(t, q, cursor)), PageSize(limit);
    ListedInOrder(Candidates(t, q, cursor));
    CandidatesAfter(t, q, cursor, all[size - 1]);
    DropInOrder(all, size);
    ListedUnique(all[size..], Candidates(t, q, Some(all[size - 1].id)));
  }

  /** n * size, page by page. */
  ghost function RowsOf(size: nat, n: nat): nat {
    if n == 0 then 0 else size + RowsOf(size, n - 1)
  }

  lemma {:induction false} RowsOfIsProduct(size: nat, n: nat)
    ensures RowsOf(size, n) == n * size
  {
    if n > 0 {
      RowsOfIsProduct(size, n - 1);
    }
  }

  lemma FirstOfTwo(r: seq<Key>, a: nat, b: nat)
    requires |r| > a
    ensures First(r, a + b) == r[..a] + First(r[a..], b)
  {}

  lemma WalkAgain(r: Request, q: Query, cursor: Option<Id>, n: nat)
    requires n > 0
    ensures var p, rest := PageOf(r.table, q, cursor, r.limit), Again(r, n - 1);
            Walk(Again(r, n), q, cursor) == p.rows + (if p.next.Some? then Walk(rest, q, p.next) else [])
            && (Finished(Again(r, n), q, cursor) <==> p.next.None? || Finished(rest, q, p.next))
  {
    assert Again(r, n)[0] == r && Again(r, n)[1..] == Again(r, n - 1);
  }

  /** What the first of `n` equal requests leaves to the others. */
  lemma QuietStep(t: Table, q: Query, cursor: Option<Id>, limit: int, n: nat, all: seq<Key>)
    returns (next: Option<Id>, rest: seq<Key>)
    requires n > 0 && all == Listed(Candidates(t, q, cursor))
    ensures var r, size := Request(t, limit), PageSize(limit);
            if |all| <= size
            then Walk(Again(r, n), q, cursor) == all && Finished(Again(r, n), q, cursor)
            else Walk(Again(r, n), q, cursor) == all[..size] + Walk(Again(r, n - 1), q, next)
                 && Finished(Again(r, n), q, cursor) == Finished(Again(r, n - 1), q, next)
                 && rest == all[size..] == Listed(Candidates(t, q, next))
  {
    next := PageOf(t, q, cursor, limit).next;
    rest := Listed(Candidates(t, q, next));
    WalkAgain(Request(t, limit), q, cursor, n);
    if |all| > PageSize(limit) {
      NextCandidates(t, q, cursor, limit);
    }
  }

  /** The first `n` pages of a list. */
  ghost function Pages(all: seq<Key>, size: nat, n: nat): seq<Key> {
    if n == 0 then []
    else if |all| <= size then all
    else all[..size] + Pages(all[size..], size, n - 1)
  }

  lemma {:induction false} PagesAreAPrefix(all: seq<Key>, size: nat, n: nat)
    ensures Pages(all, size, n) == First(all, RowsOf(size, n))
  {
    if n > 0 && |all| > size {
      PagesAreAPrefix(all[size..], size, n - 1);
      FirstOfTwo(all, size, RowsOf(size, n - 1));
    }
  }

  /** `n` pages are all there are of `rows` rows. */
  ghost predicate Exhausted(rows: nat, size: nat, n: nat) {
    n > 0 && (rows <= size || Exhausted(rows - size, size, n - 1))
  }

  lemma {:induction false} ExhaustedWhenCovered(rows: nat, size: nat, n: nat)
    ensures Exhausted(rows, size, n) <==> n >= 1 && RowsOf(size, n) >= rows
  {
    if n > 0 && rows > size {
      ExhaustedWhenCovered(rows - size, size, n - 1);
    }
  }

  lemma OnePage(all: seq<Key>, rest: seq<Key>, size: nat, n: nat)
    requires n > 0 && |all| > size && rest == all[size..]
    ensures Pages(all, size, n) == all[..size] + Pages(rest, size, n - 1)
  {}

  lemma {:induction false} QuietPages(t: Table, q: Query, cursor: Option<Id>, limit: int, n: nat, all: seq<Key>)
    requires all == Listed(Candidates(t, q, cursor))
    ensures Walk(Again(Request(t, limit), n), q, cursor) == Pages(all, PageSize(limit), n)
    decreases n
  {
    if n > 0 {
      var next, rest := QuietStep(t, q, cursor, limit, n, all);
      if |all| > PageSize(limit) {
        QuietPages(t, q, next, limit, n - 1, rest);
        OnePage(all, rest, PageSize(limit), n);
      }
    }
  }

  /** The same step in terms of the number of rows left. */
  lemma QuietCount(t: Table, q: Query, cursor: Option<Id>, limit: int, n: nat, rows: nat) returns (next: Option<Id>)
    requires n > 0 && rows == |Candidates(t, q, cursor)|
    ensures var r, size := Request(t, limit), PageSize(limit);
            if rows <= size then Finished(Again(r, n), q, cursor)
            else Finished(Again(r, n), q, cursor) == Finished(Again(r, n - 1), q, next)
                 && |Candidates(t, q, next)| == rows - size
  {
    var all := Listed(Candidates(t, q, cursor));
    var rest;
    next, rest := QuietStep(t, q, cursor, limit, n, all);
  }

  lemma {:induction false} QuietEnd(t: Table, q: Query, cursor: Option<Id>, limit: int, n: nat, rows: nat)
    requires rows == |Candidates(t, q, cursor)|
    ensures Finished(Again(Request(t, limit), n), q, cursor) <==> Exhausted(rows, PageSize(limit), n)
    decreases n
  {
    if n > 0 {
      var next := QuietCount(t, q, cursor, limit, n, rows);
      if rows > PageSize(limit) {
        QuietEnd(t, q, next, limit, n - 1, rows - PageSize(limit));
      }
    }
  }

  /** On a quiet table the pages read one after the other are the whole order, newest first, and the
      walk is over with the n-th page exactly when n >= 1 pages hold all rows: there are
      max(1, ceil(rows / size)) of them. */
  lemma QuietTableIsReadInOrder(t: Table, q: Query, limit: int, n: nat)
    ensures Walk(Again(Request(t, limit), n), q, None) == First(Listed(Matching(t, q)), n * PageSize(limit))
    ensures Finished(Again(Request(t, limit), n), q, None) <==> n >= 1 && n * PageSize(limit) >= |Matching(t, q)|
  {
    QuietPages(t, q, None, limit, n, Listed(Matching(t, q)));
    PagesAreAPrefix(Listed(Matching(t, q)), PageSize(limit), n);
    QuietEnd(t, q, None, limit, n, |Matching(t, q)|);
    ExhaustedWhenCovered(|Matching(t, q)|, PageSize(limit), n);
    RowsOfIsProduct(PageSize(limit), n);
  }
}
