/** The migration runner: numbered scripts applied and reverted one transaction at a time. */
module Migrate {
  import opened JobTypes

  /** What a script does to a schema, if it does not fail on it. */
  type Script<!S> = S -> Option<S>

  datatype File<!S> = File(version: int, script: Script<S>)

  datatype Db<S> = Db(schema: S, applied: set<int>)

  datatype Outcome<S> = Outcome(db: Db<S>, ok: bool)

  lemma {:induction false} LargestExists(s: set<int>) returns (v: int)
    requires s != {}
    ensures v in s && forall w | w in s :: w <= v
    decreases |s|
  {
    assert exists w :: w in s by {
      if forall w :: w !in s {
        assert false;
      }
    }
    v :| v in s;
    if s != {v} {
      var rest := s - {v};
      assert rest != {};
      var m := LargestExists(rest);
      assert forall w | w in s :: w == v || w in rest;
      v := if m > v then m else v;
    }
  }

  function Largest(s: set<int>): (v: int)
    requires s != {}
    ensures v in s && forall w | w in s :: w <= v
  {
    assert exists v :: v in s && forall w | w in s :: w <= v by {
      var v := LargestExists(s);
    }
    var v :| v in s && forall w | w in s :: w <= v;
    v
  }

  /** SELECT MAX(version); 0 for an empty table. */
  function Version(applied: set<int>): int {
    if applied == {} then 0 else Largest(applied)
  }

  /** One up transaction. It rolls back when the script fails, when the version is recorded already,
      and when it is among the transactions `lost` to other causes. */
  function Commit<S>(db: Db<S>, f: File<S>, lost: set<int>): Option<Db<S>> {
    if f.version in lost || f.version in db.applied || f.script(db.schema).None? then None
    else Some(Db(f.script(db.schema).value, db.applied + {f.version}))
  }

  function Revert<S>(db: Db<S>, version: int, script: Script<S>, lost: set<int>): Option<Db<S>> {
    if version in lost || script(db.schema).None? then None
    else Some(Db(script(db.schema).value, db.applied - {version}))
  }

  /** The loop of Up over the files not yet looked at. */
  function UpFrom<S>(db: Db<S>, files: seq<File<S>>, current: int, n: int, applied: nat, lost: set<int>): Outcome<S>
    decreases |files|
  {
    if files == [] then Outcome(db, true)
    else if files[0].version <= current then UpFrom(db, files[1..], current, n, applied, lost)
    else match Commit(db, files[0], lost)
      case None => Outcome(db, false)
      case Some(next) =>
        if n > 0 && applied + 1 >= n then Outcome(next, true)
        else UpFrom(next, files[1..], current, n, applied + 1, lost)
  }

  /** The loop of Down over the files not yet looked at, last to first. */
  function DownFrom<S>(db: Db<S>, ups: seq<File<S>>, downs: map<int, Script<S>>, current: int, n: int,
      lost: set<int>): Outcome<S>
    decreases |ups|
  {
    if ups == [] || n <= 0 then Outcome(db, true)
    else
      var f, earlier := ups[|ups| - 1], ups[..|ups| - 1];
      if f.version > current then DownFrom(db, earlier, downs, current, n, lost)
      else if f.version !in downs then Outcome(db, false)
      else match Revert(db, f.version, downs[f.version], lost)
        case None => Outcome(db, false)
        case Some(next) => DownFrom(next, earlier, downs, current, n - 1, lost)
  }

  function UpSpec<S>(db: Db<S>, files: seq<File<S>>, n: int, lost: set<int>): Outcome<S> {
    UpFrom(db, files, Version(db.applied), n, 0, lost)
  }

  function DownSpec<S>(db: Db<S>, files: seq<File<S>>, downs: map<int, Script<S>>, n: int, lost: set<int>): Outcome<S> {
    DownFrom(db, files, downs, Version(db.applied), n, lost)
  }

  /** The database, changed in place one committed transaction at a time. */
  class Database<S> {
    var schema: S
    var applied: set<int>

    constructor (initial: S)
      ensures schema == initial && applied == {}
    {
      schema := initial;
      applied := {};
    }

    function View(): Db<S>
      reads this
    {
      Db(schema, applied)
    }

    method Up(files: seq<File<S>>, n: int, lost: set<int>) returns (ok: bool)
      modifies this
      ensures Outcome(View(), ok) == UpSpec(old(View()), files, n, lost)
    {
      var current := Version(applied);
      var count := 0;
      var i := 0;
      while i < |files|
        invariant 0 <= i <= |files|
        invariant UpFrom(View(), files[i..], current, n, count, lost) == UpSpec(old(View()), files, n, lost)
      {
        var f := files[i];
        i := i + 1;
        if f.version <= current {
          continue;
        }
        var result := f.script(schema);
        if f.version in lost || result.None? || f.version in applied {
          return false;
        }
        schema := result.value;
        applied := applied + {f.version};
        count := count + 1;
        if n > 0 && count >= n {
          return true;
        }
      }
      return true;
    }

    method Down(files: seq<File<S>>, downs: map<int, Script<S>>, steps: int, lost: set<int>) returns (ok: bool)
      modifies this
      ensures Outcome(View(), ok) == DownSpec(old(View()), files, downs, steps, lost)
    {
      var current := Version(applied);
      var n := steps;
      var i := |files|;
      assert files[..i] == files;
      while i > 0 && n > 0
        invariant 0 <= i <= |files|
        invariant DownFrom(View(), files[..i], downs, current, n, lost)
                  == DownSpec(old(View()), files, downs, steps, lost)
      {
        assert files[..i][..i - 1] == files[..i - 1];
        i := i - 1;
        var f := files[i];
        if f.version > current {
          continue;
        }
        if f.version !in downs {
          return false;
        }
        var result := downs[f.version](schema);
        if f.version in lost || result.None? {
          return false;
        }
        schema := result.value;
        applied := applied - {f.version};
        n := n - 1;
      }
      return true;
    }
  }

  // ---------------------------------------------------------------- the prefix invariant

  /** The listing: distinct versions from 1 up, sorted. */
  ghost predicate Listing<S(!new)>(files: seq<File<S>>) {
    (forall i | 0 <= i < |files| :: files[i].version >= 1)
    && forall i, j | 0 <= i < j < |files| :: files[i].version < files[j].version
  }

  /** The versions of the first `k` files. */
  ghost function Versions<S>(files: seq<File<S>>, k: nat): set<int>
    requires k <= |files|
  {
    set i | 0 <= i < k :: files[i].version
  }

  /** The recorded versions are those of the first so many files. */
  ghost predicate IsPrefix<S(!new)>(files: seq<File<S>>, applied: set<int>) {
    exists k: nat | k <= |files| :: applied == Versions(files, k)
  }

  lemma VersionOfPrefix<S(!new)>(files: seq<File<S>>, k: nat)
    requires Listing(files) && k <= |files|
    ensures Version(Versions(files, k)) == if k == 0 then 0 else files[k - 1].version
  {
    if k > 0 {
      assert files[k - 1].version in Versions(files, k);
    } else {
      assert Versions(files, 0) == {};
    }
  }

  lemma OneFileMore<S(!new)>(files: seq<File<S>>, k: nat)
    requires Listing(files) && k < |files|
    ensures Versions(files, k + 1) == Versions(files, k) + {files[k].version}
    ensures Versions(files, k) == Versions(files, k + 1) - {files[k].version}
    ensures files[k].version !in Versions(files, k)
  {}

  /** Applying file after file from the k-th on: at most `n` of them, or all for n <= 0. */
  function Apply<S>(db: Db<S>, files: seq<File<S>>, k: nat, n: int, lost: set<int>): Outcome<S>
    requires k <= |files|
    decreases |files| - k
  {
    if k == |files| then Outcome(db, true)
    else match Commit(db, files[k], lost)
      case None => Outcome(db, false)
      case Some(next) => if n == 1 then Outcome(next, true) else Apply(next, files, k + 1, n - 1, lost)
  }

  /** Past the applied files the loop of Up is `Apply`; the ones before are skipped. */
  lemma {:induction false} LoopIsApply<S(!new)>(db: Db<S>, files: seq<File<S>>, current: int, i: nat, n: int,
      count: nat, lost: set<int>)
    requires Listing(files) && i <= |files| && (n > 0 ==> count < n)
    requires forall j | i <= j < |files| :: files[j].version > current
    ensures UpFrom(db, files[i..], current, n, count, lost)
            == Apply(db, files, i, n - count, lost)
    decreases |files| - i
  {
    if i < |files| && Commit(db, files[i], lost).Some? {
      assert files[i..][1..] == files[i + 1..];
      if n <= 0 || count + 1 < n {
        LoopIsApply(Commit(db, files[i], lost).value, files, current, i + 1, n, count + 1, lost);
      }
    }
  }

  lemma {:induction false} LoopSkips<S(!new)>(db: Db<S>, files: seq<File<S>>, current: int, i: nat, k: nat, n: int,
      lost: set<int>)
    requires i <= k <= |files| && forall j | 0 <= j < k :: files[j].version <= current
    ensures UpFrom(db, files[i..], current, n, 0, lost) == UpFrom(db, files[k..], current, n, 0, lost)
    decreases k - i
  {
    if i < k {
      assert files[i..][1..] == files[i + 1..];
      LoopSkips(db, files, current, i + 1, k, n, lost);
    }
  }

  /** With `k` files recorded, Up continues with the k-th. */
  lemma UpContinues<S(!new)>(db: Db<S>, files: seq<File<S>>, k: nat, n: int, lost: set<int>)
    requires Listing(files) && k <= |files| && db.applied == Versions(files, k)
    ensures UpSpec(db, files, n, lost) == Apply(db, files, k, n, lost)
  {
    var current := Version(db.applied);
    VersionOfPrefix(files, k);
    LoopSkips(db, files, current, 0, k, n, lost);
    LoopIsApply(db, files, current, k, n, 0, lost);
    assert files[0..] == files;
  }

  /** How many files `Apply` gets through. */
  function Steps<S>(db: Db<S>, files: seq<File<S>>, k: nat, n: int, lost: set<int>): (steps: nat)
    requires k <= |files|
    ensures k + steps <= |files|
    decreases |files| - k
  {
    if k == |files| then 0
    else match Commit(db, files[k], lost)
      case None => 0
      case Some(next) => if n == 1 then 1 else 1 + Steps(next, files, k + 1, n - 1, lost)
  }

  lemma {:induction false} ApplyExtendsPrefix<S(!new)>(db: Db<S>, files: seq<File<S>>, k: nat, n: int, lost: set<int>)
    requires Listing(files) && k <= |files| && db.applied == Versions(files, k)
    ensures Apply(db, files, k, n, lost).db.applied == Versions(files, k + Steps(db, files, k, n, lost))
    decreases |files| - k
  {
    if k < |files| && Commit(db, files[k], lost).Some? {
      OneFileMore(files, k);
      if n != 1 {
        ApplyExtendsPrefix(Commit(db, files[k], lost).value, files, k + 1, n - 1, lost);
      }
    }
  }

  /** Reverting file after file from the one before the k-th on. */
  function Undo<S>(db: Db<S>, files: seq<File<S>>, downs: map<int, Script<S>>, k: nat, n: int,
      lost: set<int>): Outcome<S>
    requires k <= |files|
    decreases k
  {
    if k == 0 || n <= 0 then Outcome(db, true)
    else if files[k - 1].version !in downs then Outcome(db, false)
    else match Revert(db, files[k - 1].version, downs[files[k - 1].version], lost)
      case None => Outcome(db, false)
      case Some(next) => Undo(next, files, downs, k - 1, n - 1, lost)
  }

  lemma {:induction false} LoopIsUndo<S(!new)>(db: Db<S>, files: seq<File<S>>, downs: map<int, Script<S>>,
      current: int, i: nat, k: nat, n: int, lost: set<int>)
    requires k <= i <= |files|
    requires forall j | 0 <= j < i :: files[j].version <= current <==> j < k
    ensures DownFrom(db, files[..i], downs, current, n, lost) == Undo(db, files, downs, k, n, lost)
    decreases i
  {
    if i > 0 && n > 0 {
      assert files[..i][..i - 1] == files[..i - 1];
      if k < i {
        LoopIsUndo(db, files, downs, current, i - 1, k, n, lost);
      } else if files[k - 1].version in downs {
        var next := Revert(db, files[k - 1].version, downs[files[k - 1].version], lost);
        if next.Some? {
          LoopIsUndo(next.value, files, downs, current, i - 1, k - 1, n - 1, lost);
        }
      }
    }
  }

  lemma DownContinues<S(!new)>(db: Db<S>, files: seq<File<S>>, downs: map<int, Script<S>>, k: nat, n: int,
      lost: set<int>)
    requires Listing(files) && k <= |files| && db.applied == Versions(files, k)
    ensures DownSpec(db, files, downs, n, lost) == Undo(db, files, downs, k, n, lost)
  {
    VersionOfPrefix(files, k);
    assert files[..|files|] == files;
    LoopIsUndo(db, files, downs, Version(db.applied), |files|, k, n, lost);
  }

  /** Up takes file after file: with `k` of them recorded it runs the k-th script. If that fails, or its
      transaction does, Up reports it and leaves schema and record as they were; otherwise schema and record
      change together, and Up goes on with one file less to apply. */
  lemma UpFileByFile<S(!new)>(db: Db<S>, files: seq<File<S>>, k: nat, n: int, lost: set<int>)
    requires Listing(files) && k < |files| && db.applied == Versions(files, k)
    ensures var v, result := files[k].version, files[k].script(db.schema);
            UpSpec(db, files, n, lost) ==
              if result.None? || v in lost then Outcome(db, false)
              else
                var next := Db(result.value, db.applied + {v});
                if n == 1 then Outcome(next, true) else UpSpec(next, files, n - 1, lost)
  {
    UpContinues(db, files, k, n, lost);
    OneFileMore(files, k);
    if files[k].script(db.schema).Some? {
      UpContinues(Db(files[k].script(db.schema).value, db.applied + {files[k].version}), files, k + 1, n - 1, lost);
    }
  }

  /** Down likewise, from the last file recorded; without a down script for it Down fails. */
  lemma DownFileByFile<S(!new)>(db: Db<S>, files: seq<File<S>>, downs: map<int, Script<S>>, k: nat, n: int,
      lost: set<int>)
    requires Listing(files) && k < |files| && db.applied == Versions(files, k + 1) && n > 0
    ensures var v := files[k].version;
            DownSpec(db, files, downs, n, lost) ==
              if v !in downs || v in lost || downs[v](db.schema).None? then Outcome(db, false)
              else DownSpec(Db(downs[v](db.schema).value, db.applied - {v}), files, downs, n - 1, lost)
  {
    var v := files[k].version;
    DownContinues(db, files, downs, k + 1, n, lost);
    OneFileMore(files, k);
    if v in downs && downs[v](db.schema).Some? {
      DownContinues(Db(downs[v](db.schema).value, db.applied - {v}), files, downs, k, n - 1, lost);
    }
  }

  /** There is nothing to apply after the last file, and nothing to revert before the first. */
  lemma NothingLeft<S(!new)>(db: Db<S>, files: seq<File<S>>, downs: map<int, Script<S>>, n: int, lost: set<int>)
    requires Listing(files)
    ensures db.applied == Versions(files, |files|) ==> UpSpec(db, files, n, lost) == Outcome(db, true)
    ensures db.applied == {} || n <= 0 ==> DownSpec(db, files, downs, n, lost) == Outcome(db, true)
  {
    if db.applied == Versions(files, |files|) {
      UpContinues(db, files, |files|, n, lost);
    }
    if db.applied == {} {
      assert Versions(files, 0) == {};
      DownContinues(db, files, downs, 0, n, lost);
    }
  }

  lemma {:induction false} UndoKeepsPrefix<S(!new)>(db: Db<S>, files: seq<File<S>>, downs: map<int, Script<S>>, k: nat,
      n: int, lost: set<int>)
    requires Listing(files) && k <= |files| && db.applied == Versions(files, k)
    ensures IsPrefix(files, Undo(db, files, downs, k, n, lost).db.applied)
    decreases k
  {
    if k > 0 && n > 0 && files[k - 1].version in downs {
      var next := Revert(db, files[k - 1].version, downs[files[k - 1].version], lost);
      if next.Some? {
        OneFileMore(files, k - 1);
        UndoKeepsPrefix(next.value, files, downs, k - 1, n - 1, lost);
      }
    }
  }

  // ---------------------------------------------------------------- the three laws

  datatype Command = Up(n: int, lost: set<int>) | Down(n: int, lost: set<int>)

  function Execute<S>(db: Db<S>, files: seq<File<S>>, downs: map<int, Script<S>>, commands: seq<Command>): Db<S> {
    if commands == [] then db
    else
      var before := Execute(db, files, downs, commands[..|commands| - 1]);
      match commands[|commands| - 1]
      case Up(n, lost) => UpSpec(before, files, n, lost).db
      case Down(n, lost) => DownSpec(before, files, downs, n, lost).db
  }

  /** Whatever the sequence of Up and Down, and at whatever file any of them fails, the recorded
      versions are those of the first so many files. */
  lemma {:induction false} RecordedVersionsAreAPrefix<S(!new)>(db: Db<S>, files: seq<File<S>>,
      downs: map<int, Script<S>>, commands: seq<Command>)
    requires Listing(files) && IsPrefix(files, db.applied)
    ensures IsPrefix(files, Execute(db, files, downs, commands).applied)
    decreases |commands|
  {
    if commands == [] {
    } else {
      var before := Execute(db, files, downs, commands[..|commands| - 1]);
      RecordedVersionsAreAPrefix(db, files, downs, commands[..|commands| - 1]);
      var k: nat :| k <= |files| && before.applied == Versions(files, k);
      match commands[|commands| - 1]
      case Up(n, lost) =>
        UpContinues(before, files, k, n, lost);
        ApplyExtendsPrefix(before, files, k, n, lost);
      case Down(n, lost) =>
        DownContinues(before, files, downs, k, n, lost);
        UndoKeepsPrefix(before, files, downs, k, n, lost);
    }
  }

  lemma {:induction false} ApplyInTwoParts<S(!new)>(db: Db<S>, files: seq<File<S>>, k: nat, a: nat, b: nat,
      lost: set<int>)
    requires Listing(files) && k <= |files| && a > 0 && b > 0
    ensures Apply(Apply(db, files, k, a, lost).db, files, k + Steps(db, files, k, a, lost), b, lost)
            == Apply(db, files, k, a + b, lost)
    decreases a
  {
    if k < |files| && Commit(db, files[k], lost).Some? && a > 1 {
      ApplyInTwoParts(Commit(db, files[k], lost).value, files, k + 1, a - 1, b, lost);
    }
  }

  /** Where an Up from `k` files on ends. */
  lemma UpReaches<S(!new)>(db: Db<S>, files: seq<File<S>>, k: nat, n: int, lost: set<int>)
      returns (up: Db<S>, steps: nat)
    requires Listing(files) && k <= |files| && db.applied == Versions(files, k)
    ensures up == UpSpec(db, files, n, lost).db == Apply(db, files, k, n, lost).db
    ensures steps == Steps(db, files, k, n, lost) && k + steps <= |files| && up.applied == Versions(files, k + steps)
  {
    up, steps := UpSpec(db, files, n, lost).db, Steps(db, files, k, n, lost);
    UpContinues(db, files, k, n, lost);
    ApplyExtendsPrefix(db, files, k, n, lost);
  }

  /** Up(a) and then Up(b) ends as Up(a + b) does: same schema, same record, same success or failure. */
  lemma UpInTwoParts<S(!new)>(db: Db<S>, files: seq<File<S>>, a: nat, b: nat, lost: set<int>)
    requires Listing(files) && IsPrefix(files, db.applied) && a > 0 && b > 0
    ensures UpSpec(UpSpec(db, files, a, lost).db, files, b, lost) == UpSpec(db, files, a + b, lost)
  {
    var k: nat :| k <= |files| && db.applied == Versions(files, k);
    var up, steps := UpReaches(db, files, k, a, lost);
    UpContinues(up, files, k + steps, b, lost);
    UpContinues(db, files, k, a + b, lost);
    ApplyInTwoParts(db, files, k, a, b, lost);
  }

  /** Every file has a down script that takes back whatever its up script did. */
  ghost predicate Reversible<S(!new)>(files: seq<File<S>>, downs: map<int, Script<S>>) {
    forall i | 0 <= i < |files| ::
      files[i].version in downs
      && forall s | files[i].script(s).Some? :: downs[files[i].version](files[i].script(s).value) == Some(s)
  }

  lemma {:induction false} UndoIsStepwise<S(!new)>(db: Db<S>, files: seq<File<S>>, downs: map<int, Script<S>>, k: nat,
      n: nat)
    requires k <= |files| && n < k && Undo(db, files, downs, k, n, {}).ok
    ensures Undo(db, files, downs, k, n + 1, {})
            == Undo(Undo(db, files, downs, k, n, {}).db, files, downs, k - n, 1, {})
    decreases n
  {
    if n > 0 {
      var next := Revert(db, files[k - 1].version, downs[files[k - 1].version], {}).value;
      UndoIsStepwise(next, files, downs, k - 1, n - 1);
    }
  }

  lemma UndoUndoesCommit<S(!new)>(db: Db<S>, files: seq<File<S>>, downs: map<int, Script<S>>, k: nat, lost: set<int>)
    requires Listing(files) && Reversible(files, downs) && k < |files| && db.applied == Versions(files, k)
    requires Commit(db, files[k], lost).Some?
    ensures Undo(Commit(db, files[k], lost).value, files, downs, k + 1, 1, {}) == Outcome(db, true)
  {
    var next := Commit(db, files[k], lost).value;
    assert next.applied - {files[k].version} == db.applied;
    assert Revert(next, files[k].version, downs[files[k].version], {}) == Some(db);
  }

  lemma UndoOneMore<S(!new)>(after: Db<S>, next: Db<S>, db: Db<S>, files: seq<File<S>>, downs: map<int, Script<S>>,
      k: nat, steps: nat)
    requires k + 1 + steps <= |files|
    requires Undo(after, files, downs, k + 1 + steps, steps, {}) == Outcome(next, true)
    requires Undo(next, files, downs, k + 1, 1, {}) == Outcome(db, true)
    ensures Undo(after, files, downs, k + 1 + steps, steps + 1, {}) == Outcome(db, true)
  {
    UndoIsStepwise(after, files, downs, k + 1 + steps, steps);
  }

  lemma ApplyStep<S(!new)>(db: Db<S>, files: seq<File<S>>, k: nat, n: int, lost: set<int>)
    requires k < |files| && Commit(db, files[k], lost).Some? && n != 1
    ensures var next := Commit(db, files[k], lost).value;
            Apply(db, files, k, n, lost) == Apply(next, files, k + 1, n - 1, lost)
            && Steps(db, files, k, n, lost) == 1 + Steps(next, files, k + 1, n - 1, lost)
  {}

  lemma {:induction false} UndoUndoesApply<S(!new)>(db: Db<S>, up: Db<S>, files: seq<File<S>>,
      downs: map<int, Script<S>>, k: nat, n: int, lost: set<int>, steps: nat)
    requires Listing(files) && Reversible(files, downs) && k <= |files| && db.applied == Versions(files, k)
    requires up == Apply(db, files, k, n, lost).db && steps == Steps(db, files, k, n, lost)
    ensures Undo(up, files, downs, k + steps, steps, {}) == Outcome(db, true)
    decreases |files| - k
  {
    if k < |files| && Commit(db, files[k], lost).Some? {
      var next := Commit(db, files[k], lost).value;
      OneFileMore(files, k);
      UndoUndoesCommit(db, files, downs, k, lost);
      if n != 1 {
        ApplyStep(db, files, k, n, lost);
        UndoUndoesApply(next, up, files, downs, k + 1, n - 1, lost, steps - 1);
        UndoOneMore(up, next, db, files, downs, k, steps - 1);
      }
    }
  }

  lemma {:induction false} PrefixSize<S(!new)>(files: seq<File<S>>, k: nat)
    requires Listing(files) && k <= |files|
    ensures |Versions(files, k)| == k
  {
    if k == 0 {
      assert Versions(files, 0) == {};
    } else {
      PrefixSize(files, k - 1);
      OneFileMore(files, k - 1);
    }
  }

  lemma DownIsUndo<S(!new)>(up: Db<S>, db: Db<S>, files: seq<File<S>>, downs: map<int, Script<S>>, k: nat, steps: nat)
    requires Listing(files) && k + steps <= |files| && up.applied == Versions(files, k + steps)
    requires Undo(up, files, downs, k + steps, steps, {}) == Outcome(db, true)
    ensures |up.applied| == k + steps
    ensures DownSpec(up, files, downs, steps, {}) == Outcome(db, true)
  {
    PrefixSize(files, k + steps);
    DownContinues(up, files, downs, k + steps, steps, {});
  }

  /** Down by as many files as an Up has applied, whether the Up failed half way or not, restores the
      schema and the record, provided each down script takes back its up script. */
  lemma DownRestoresWhatUpApplied<S(!new)>(db: Db<S>, up: Db<S>, files: seq<File<S>>, downs: map<int, Script<S>>,
      n: int, lost: set<int>)
    requires Listing(files) && IsPrefix(files, db.applied) && Reversible(files, downs)
    requires up == UpSpec(db, files, n, lost).db
    ensures DownSpec(up, files, downs, |up.applied| - |db.applied|, {}) == Outcome(db, true)
  {
    var k: nat :| k <= |files| && db.applied == Versions(files, k);
    var _, steps := UpReaches(db, files, k, n, lost);
    PrefixSize(files, k);
    UndoUndoesApply(db, up, files, downs, k, n, lost, steps);
    DownIsUndo(up, db, files, downs, k, steps);
  }

  // ---------------------------------------------------------------- which listings are applied in full

  /** Every script succeeds on every schema. */
  ghost predicate NeverFail<S(!new)>(files: seq<File<S>>) {
    forall i, s | 0 <= i < |files| :: files[i].script(s).Some?
  }

  lemma {:induction false} ApplyReachesTheEnd<S(!new)>(db: Db<S>, files: seq<File<S>>, k: nat, n: int)
    requires Listing(files) && NeverFail(files) && k <= |files| && db.applied == Versions(files, k) && n <= 0
    ensures Apply(db, files, k, n, {}).ok && Apply(db, files, k, n, {}).db.applied == Versions(files, |files|)
    decreases |files| - k
  {
    if k < |files| {
      OneFileMore(files, k);
      ApplyReachesTheEnd(Commit(db, files[k], {}).value, files, k + 1, n - 1);
    }
  }

  /** A complete pass records only versions above the one it started from, and none of them twice. */
  lemma {:induction false} CompletePass<S(!new)>(db: Db<S>, files: seq<File<S>>, current: int, count: nat)
    requires UpFrom(db, files, current, 0, count, {}).ok
    ensures forall v | v in UpFrom(db, files, current, 0, count, {}).db.applied :: v in db.applied || v > current
    ensures forall i | 0 <= i < |files| && files[i].version > current :: files[i].version !in db.applied
    ensures forall i, j | 0 <= i < j < |files| && files[j].version > current :: files[i].version != files[j].version
    decreases |files|
  {
    if files != [] {
      var rest := files[1..];
      assert forall j | 1 <= j < |files| :: files[j] == rest[j - 1];
      if files[0].version <= current {
        CompletePass(db, rest, current, count);
      } else {
        CompletePass(Commit(db, files[0], {}).value, rest, current, count + 1);
      }
    }
  }

  /** From an empty database, scripts that cannot fail are all applied exactly when the sorted listing
      has distinct versions from 1 up: version 0 is skipped silently, a second file of one version
      makes the run fail. */
  lemma AllAreAppliedExactlyWhen<S(!new)>(schema: S, files: seq<File<S>>)
    requires NeverFail(files) && forall i, j | 0 <= i < j < |files| :: files[i].version <= files[j].version
    ensures UpSpec(Db(schema, {}), files, 0, {}).ok
            && UpSpec(Db(schema, {}), files, 0, {}).db.applied == Versions(files, |files|)
            <==> Listing(files)
  {
    var db := Db(schema, {});
    var up := UpSpec(db, files, 0, {});
    if Listing(files) {
      assert Versions(files, 0) == {};
      UpContinues(db, files, 0, 0, {});
      ApplyReachesTheEnd(db, files, 0, 0);
    } else if up.ok && up.db.applied == Versions(files, |files|) {
      CompletePass(db, files, 0, 0);
      forall i | 0 <= i < |files| ensures files[i].version >= 1 {
        assert files[i].version in up.db.applied;
      }
      assert false;
    }
  }
}
