/** The two Postgres tables behind a job, and the effect of every statement issued on them. */
module JobStore {
  import opened JobTypes

  datatype JobError = JobError(code: ErrorCode, message: string)

  datatype JobRow = JobRow(
    project: Id,
    key: Option<string>,
    status: JobStatus,
    attempts: nat,
    maxAttempts: nat,
    error: Option<JobError>,
    queuedAt: Option<Time>,
    startedAt: Option<Time>,
    completedAt: Option<Time>
  )

  type Jobs = map<Id, JobRow>

  datatype ResultRow = ResultRow(job: Id, status: JobStatus)

  // ---------------------------------------------------------------- inference_jobs

  /** An empty idempotency key is stored as NULL. */
  function StoredKey(key: string): Option<string> {
    if key == "" then None else Some(key)
  }

  function NewRow(project: Id, key: Option<string>, status: JobStatus, attempts: nat, maxAttempts: int): JobRow {
    JobRow(project, key, status, attempts, if maxAttempts <= 0 then 5 else maxAttempts, None, None, None, None)
  }

  /** What an INSERT stores: five attempts unless some are asked for, and no time stamps yet. */
  lemma NewRowColumns(project: Id, key: Option<string>, status: JobStatus, attempts: nat, maxAttempts: int)
    ensures var row := NewRow(project, key, status, attempts, maxAttempts);
            && row.project == project && row.key == key && row.status == status && row.attempts == attempts
            && row.maxAttempts > 0 && (maxAttempts > 0 ==> row.maxAttempts == maxAttempts)
            && (maxAttempts <= 0 ==> row.maxAttempts == 5)
            && row.error == None && row.queuedAt == None && row.startedAt == None && row.completedAt == None
  {}

  /** The partial unique index on (project_id, idempotency_key): NULL keys never clash. */
  predicate Clashes(jobs: Jobs, row: JobRow) {
    row.key.Some? && exists id | id in jobs :: jobs[id].project == row.project && jobs[id].key == row.key
  }

  /** The columns a status update sets besides the status. */
  datatype Stamp =
    | Plain
    | QueuedStamp(at: Time, attempts: nat, clearError: bool)
    | StartedStamp(at: Time)
    | DoneStamp(at: Time)
    | ErrorStamp(error: JobError, completedAt: Option<Time>)

  function Stamped(row: JobRow, stamp: Stamp): JobRow {
    match stamp
    case Plain => row
    case QueuedStamp(at, attempts, clear) =>
      row.(queuedAt := Some(at), attempts := attempts, error := if clear then None else row.error)
    case StartedStamp(at) => row.(startedAt := Some(at), error := None)
    case DoneStamp(at) => row.(completedAt := Some(at), error := None)
    case ErrorStamp(error, at) => row.(error := Some(error), completedAt := if at.Some? then at else row.completedAt)
  }

  /** `UPDATE ... WHERE id = $ AND status = $` touches a row exactly when this holds. */
  predicate CanMove(jobs: Jobs, id: Id, from: JobStatus) {
    id in jobs && jobs[id].status == from
  }

  function Move(jobs: Jobs, id: Id, from: JobStatus, to: JobStatus, stamp: Stamp): Jobs
    requires CanMove(jobs, id, from)
  {
    jobs[id := Stamped(jobs[id], stamp).(status := to)]
  }

  /** Issuing the update: it may touch nothing. */
  function Update(jobs: Jobs, id: Id, from: JobStatus, to: JobStatus, stamp: Stamp): Jobs {
    if CanMove(jobs, id, from) then Move(jobs, id, from, to, stamp) else jobs
  }

  // ---------------------------------------------------------------- inference_results

  /** The unique job_id of inference_results. */
  predicate HasResult(results: seq<ResultRow>, job: Id) {
    exists i :: 0 <= i < |results| && results[i].job == job
  }
}
