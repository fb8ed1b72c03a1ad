/** The job repository while no other client interferes: each Mark* method issues its
    compare-and-set updates one after the other, and is proved to do what its name says. The database may fail
    at any statement: `up` is the number of statements that a call gets executed before the first that fails,
    and `works` says whether its only one is. */
module JobRepository {
  import opened JobTypes
  import opened JobStore

  datatype Failure = Conflict | Unavailable

  class JobRepo {
    var jobs: Jobs

    constructor ()
      ensures jobs == map[]
    {
      jobs := map[];
    }

    method Transition(id: Id, current: JobStatus, next: JobStatus, stamp: Stamp, works: bool)
      returns (r: Result<bool, Failure>)
      modifies this
      ensures r == if works then Ok(CanMove(old(jobs), id, current)) else Err(Unavailable)
      ensures jobs == if works then Update(old(jobs), id, current, next, stamp) else old(jobs)
    {
      if !works {
        return Err(Unavailable);
      }
      r := Ok(CanMove(jobs, id, current));
      jobs := Update(jobs, id, current, next, stamp);
    }

    /** `id` is the UUID the database draws. */
    method Create(id: Id, row: JobRow, works: bool) returns (r: Result<Id, Failure>)
      requires id !in jobs
      modifies this
      ensures r == if !works then Err(Unavailable) else if Clashes(old(jobs), row) then Err(Conflict) else Ok(id)
      ensures jobs == if r.Ok? then old(jobs)[id := row] else old(jobs)
    {
      if !works {
        return Err(Unavailable);
      }
      if row.key.Some?
         && exists other | other in jobs :: jobs[other].project == row.project && jobs[other].key == row.key {
        return Err(Conflict);
      }
      jobs := jobs[id := row];
      return Ok(id);
    }

    /** For a key that is not empty. */
    method FindByIdempotencyKey(project: Id, key: string, works: bool) returns (found: Option<Id>)
      ensures found.Some? ==>
                works && found.value in jobs && jobs[found.value].project == project
                && jobs[found.value].key == Some(key)
      ensures works && found.None? ==>
                forall id | id in jobs :: !(jobs[id].project == project && jobs[id].key == Some(key))
    {
      if !works {
        return None;
      }
      var left := jobs.Keys;
      while left != {}
        invariant left <= jobs.Keys
        invariant forall id | id in jobs && id !in left :: !(jobs[id].project == project && jobs[id].key == Some(key))
        decreases |left|
      {
        var id :| id in left;
        if jobs[id].project == project && jobs[id].key == Some(key) {
          return Some(id);
        }
        left := left - {id};
      }
      return None;
    }

    method MarkQueued(id: Id, attempts: nat, at: Time, up: nat) returns (r: Result<(), Failure>)
      modifies this
      ensures r.Ok? <==> (CanMove(old(jobs), id, Created) && up >= 1) || (CanMove(old(jobs), id, Retrying) && up >= 2)
      ensures r.Err? ==> r.error == if up == 0 then Unavailable else Conflict
      ensures jobs == if r.Err? then old(jobs)
              else old(jobs)[id := old(jobs)[id].(status := Queued, queuedAt := Some(at), attempts := attempts,
                  error := if old(jobs)[id].status == Retrying then None else old(jobs)[id].error)]
    {
      var created := Transition(id, Created, Queued, QueuedStamp(at, attempts, false), up >= 1);
      if created.Err? {
        return Err(created.error);
      }
      if created.value {
        return Ok(());
      }
      var retrying := Transition(id, Retrying, Queued, QueuedStamp(at, attempts, true), up >= 2);
      return if retrying == Ok(true) then Ok(()) else Err(Conflict);
    }

    method MarkRunning(id: Id, at: Time, works: bool) returns (ok: bool)
      modifies this
      ensures ok <==> works && CanMove(old(jobs), id, Queued)
      ensures jobs == if !ok then old(jobs)
              else old(jobs)[id := old(jobs)[id].(status := Running, startedAt := Some(at), error := None)]
    {
      var r := Transition(id, Queued, Running, StartedStamp(at), works);
      ok := r == Ok(true);
    }

    method MarkSucceeded(id: Id, at: Time, works: bool) returns (r: Result<(), Failure>)
      modifies this
      ensures r.Ok? <==> works && CanMove(old(jobs), id, Running)
      ensures jobs == if r.Err? then old(jobs)
              else old(jobs)[id := old(jobs)[id].(status := Success, completedAt := Some(at), error := None)]
    {
      var done := Transition(id, Running, Success, DoneStamp(at), works);
      return if done == Ok(true) then Ok(()) else Err(Conflict);
    }

    method MarkFailed(id: Id, error: JobError, at: Option<Time>, up: nat) returns (r: Result<(), Failure>)
      modifies this
      ensures r.Ok? <==>
              || (CanMove(old(jobs), id, Running) && up >= 1) || (CanMove(old(jobs), id, Created) && up >= 2)
              || (CanMove(old(jobs), id, Queued) && up >= 3)
      ensures jobs == if r.Err? then old(jobs)
              else old(jobs)[id := old(jobs)[id].(status := Failed, error := Some(error),
                  completedAt := if at.Some? then at else old(jobs)[id].completedAt)]
    {
      var running := Transition(id, Running, Failed, ErrorStamp(error, at), up >= 1);
      if running.Err? {
        return Err(running.error);
      }
      if running.value {
        return Ok(());
      }
      var froms := [Created, Queued];
      for i := 0 to |froms|
        invariant jobs == old(jobs) && up > i
        invariant id in jobs ==> jobs[id].status != Running && forall k | 0 <= k < i :: jobs[id].status != froms[k]
      {
        var other := Transition(id, froms[i], Failed, ErrorStamp(error, at), up >= i + 2);
        if other.Err? {
          return Err(other.error);
        }
        if other.value {
          return Ok(());
        }
      }
      assert froms[0] == Created && froms[1] == Queued;
      return Err(Conflict);
    }

    method MarkRetrying(id: Id, up: nat) returns (r: Result<(), Failure>)
      modifies this
      ensures r.Ok? <==> (CanMove(old(jobs), id, Failed) && up >= 1) || (CanMove(old(jobs), id, Running) && up >= 2)
      ensures r.Err? ==> r.error == if up == 0 then Unavailable else Conflict
      ensures jobs == if r.Err? then old(jobs)
              else old(jobs)[id := old(jobs)[id].(status := Retrying)]
    {
      var failed := Transition(id, Failed, Retrying, Plain, up >= 1);
      if failed.Err? {
        return Err(failed.error);
      }
      if failed.value {
        return Ok(());
      }
      var running := Transition(id, Running, Retrying, Plain, up >= 2);
      return if running == Ok(true) then Ok(()) else Err(Conflict);
    }

    method MarkDead(id: Id, error: JobError, at: Time, works: bool) returns (r: Result<(), Failure>)
      modifies this
      ensures r.Ok? <==> works && CanMove(old(jobs), id, Retrying)
      ensures jobs == if r.Err? then old(jobs)
              else old(jobs)[id := old(jobs)[id].(status := Dead, error := Some(error), completedAt := Some(at))]
    {
      var dead := Transition(id, Retrying, Dead, ErrorStamp(error, Some(at)), works);
      return if dead == Ok(true) then Ok(()) else Err(Conflict);
    }
  }

  class ResultRepo {
    var rows: seq<ResultRow>

    ghost predicate Valid()
      reads this
    {
      forall i, j | 0 <= i < j < |rows| :: rows[i].job != rows[j].job
    }

    constructor ()
      ensures Valid() && rows == []
    {
      rows := [];
    }

    method Create(row: ResultRow, works: bool) returns (r: Result<(), Failure>)
      requires Valid()
      modifies this
      ensures Valid()
      ensures r.Err? <==> !works || HasResult(old(rows), row.job)
      ensures rows == if r.Ok? then old(rows) + [row] else old(rows)
    {
      if !works {
        return Err(Unavailable);
      }
      for i := 0 to |rows|
        invariant rows == old(rows)
        invariant forall k | 0 <= k < i :: rows[k].job != row.job
      {
        if rows[i].job == row.job {
          return Err(Conflict);
        }
      }
      rows := rows + [row];
      return Ok(());
    }

    method FindByJobID(job: Id) returns (found: Option<ResultRow>)
      requires Valid()
      ensures found.Some? <==> HasResult(rows, job)
      ensures found.Some? ==> found.value in rows && found.value.job == job
    {
      for i := 0 to |rows|
        invariant forall k | 0 <= k < i :: rows[k].job != job
      {
        if rows[i].job == job {
          return Some(rows[i]);
        }
      }
      return None;
    }
  }
}
