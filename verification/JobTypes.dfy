/** The vocabulary shared by the API, the worker and the queue: job states and
    their transition table, failure kinds and codes, and the queue payload. */
module JobTypes {

  datatype Option<+T> = None | Some(value: T)

  datatype Result<+T, +E> = Ok(value: T) | Err(error: E)

  /** Row ids are UUIDs: fixed-width numbers, so their byte order is the order of numbers. */
  type Id = nat

  /** Nanoseconds since the epoch, as Go's clock counts them. */
  type Time = nat

  const SECOND: nat := 1_000_000_000

  /** Whole seconds since the epoch, rounded down. */
  function Unix(t: Time): nat {
    t / SECOND
  }

  datatype JobStatus = Created | Queued | Running | Success | Failed | Retrying | Dead | Cancelled

  const ALLOWED: map<JobStatus, set<JobStatus>> :=
    map[
      Created := {Queued, Cancelled, Failed},
      Queued := {Running, Retrying, Dead, Cancelled},
      Running := {Success, Failed, Retrying},
      Retrying := {Queued, Dead},
      Failed := {Retrying, Dead, Cancelled},
      Success := {},
      Dead := {},
      Cancelled := {}
    ]

  predicate ValidTransition(current: JobStatus, next: JobStatus) {
    current in ALLOWED && next in ALLOWED[current]
  }

  predicate IsTerminal(s: JobStatus) {
    s == Success || s == Dead || s == Cancelled
  }

  /** The states called terminal are exactly the ones the table gives no way out of. */
  lemma TerminalIffNoWayOut(s: JobStatus)
    ensures IsTerminal(s) <==> forall next :: !ValidTransition(s, next)
  {
    if !IsTerminal(s) {
      assert exists next :: ValidTransition(s, next) by {
        match s
        case Created => assert ValidTransition(s, Queued);
        case Queued => assert ValidTransition(s, Running);
        case Running => assert ValidTransition(s, Success);
        case Failed => assert ValidTransition(s, Retrying);
        case Retrying => assert ValidTransition(s, Queued);
      }
    }
  }

  /** A job can be cancelled before it runs and after it has failed, never while it is RUNNING or RETRYING. */
  lemma CancellableExactlyWhen(s: JobStatus)
    ensures ValidTransition(s, Cancelled) <==> s in {Created, Queued, Failed}
  {}

  /** Error kinds of the Go application, and the codes a worker derives from them. */
  datatype ErrorKind =
    | KValidation | KUnauthorized | KForbidden | KNotFound | KConflict | KRateLimited
    | KStorage | KDatabase | KModel | KInference | KQueue | KInternal

  datatype ErrorCode =
    | InvalidInput | Unauthorized | NotFound | UnsupportedModel | CorruptFile | StorageError
    | DatabaseError | QueueError | MLServiceError | Timeout | RateLimited | InternalError

  predicate Retriable(c: ErrorCode) {
    match c
    case StorageError | DatabaseError | QueueError | MLServiceError | Timeout => true
    case _ => false
  }

  function ClassifyErrorCode(k: ErrorKind): ErrorCode {
    match k
    case KValidation => InvalidInput
    case KStorage => StorageError
    case KDatabase => DatabaseError
    case KQueue => QueueError
    case KInference | KModel => MLServiceError
    case KInternal => InternalError
    case KNotFound => NotFound
    case _ => InternalError
  }

  /** What travels through Redis. The fields no protocol step reads are not kept. */
  datatype Payload = Payload(job: Id, attempt: nat)
}
