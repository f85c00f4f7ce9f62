/** Records of the durable job protocol: jobs, numbered attempts and outbox events. */
module ControlPlaneSchemas {
  import opened Wrappers

  datatype JobStatus =
    | Queued | Dispatching | Dispatched | Running | RetryWait | Cancelling
    | Completed | Partial | Failed | Cancelled | Dead

  datatype AttemptStatus =
    | Created | AttemptDispatched | Claimed | AttemptRunning
    | Succeeded | FailedRetryable | FailedTerminal | AttemptCancelled | Lost | Superseded

  datatype EventStatus = Pending | Publishing | Published | EventFailed

  // Ids are row numbers, so an id is never reused. A secret is a draw from a
  // counter, so a secret is never drawn twice.
  type JobId = nat
  type AttemptId = nat
  type EventId = nat
  type Secret = nat

  // The idempotency key of a manual retry carries a fresh nonce.
  datatype Key = ClientKey(text: string) | ManualRetryKey(job: JobId, nonce: Secret)

  datatype Job = Job(
    workspace: string,
    key: Key,
    request: string,
    retryOf: Option<JobId>,
    maxAttempts: int,
    status: JobStatus,
    current: nat,
    cancelRequested: bool,
    retryable: bool,
    error: Option<string>,
    results: seq<string>,
    startedAt: Option<int>,
    finishedAt: Option<int>,
    createdAt: int,
    updatedAt: int,
    revision: nat)

  datatype Attempt = Attempt(
    job: JobId,
    number: nat,
    status: AttemptStatus,
    token: Digest<Secret>,
    worker: Option<string>,
    retryable: bool,
    error: Option<string>,
    heartbeatAt: Option<int>,
    startedAt: Option<int>,
    finishedAt: Option<int>,
    createdAt: int,
    updatedAt: int)

  // A message consumed without a broker is named by its deduplication key.
  datatype Message = BrokerMessage(id: string) | LocalMessage(job: JobId, number: nat)

  datatype Event = Event(
    job: JobId,
    attempt: AttemptId,
    number: nat,
    status: EventStatus,
    claim: Option<Digest<Secret>>,
    owner: Option<string>,
    leaseUntil: Option<int>,
    publishAttempts: nat,
    error: Option<string>,
    message: Option<Message>,
    nextRetryAt: Option<int>,
    createdAt: int,
    updatedAt: int)

  // The columns SQL filters on. They are written next to the JSON record by
  // each statement, so their agreement with it has to be proved.
  datatype JobColumns = JobColumns(status: JobStatus, current: nat, revision: nat)

  datatype EventColumns = EventColumns(
    status: EventStatus,
    claim: Option<Digest<Secret>>,
    owner: Option<string>,
    leaseUntil: Option<int>,
    publishAttempts: nat,
    error: Option<string>,
    nextRetryAt: Option<int>)

  function ColumnsOfJob(job: Job): JobColumns {
    JobColumns(job.status, job.current, job.revision)
  }

  function ColumnsOfEvent(event: Event): EventColumns {
    EventColumns(event.status, event.claim, event.owner, event.leaseUntil,
                 event.publishAttempts, event.error, event.nextRetryAt)
  }

  predicate TerminalJob(s: JobStatus) {
    s.Completed? || s.Partial? || s.Failed? || s.Cancelled? || s.Dead?
  }

  predicate LiveAttempt(s: AttemptStatus) {
    s.Created? || s.AttemptDispatched? || s.Claimed? || s.AttemptRunning?
  }

  function JobTransitions(s: JobStatus): set<JobStatus> {
    match s
    case Queued => {Dispatching, Cancelling, Failed}
    case Dispatching => {Dispatched, Queued, Failed}
    case Dispatched => {Running, Queued, Cancelling}
    case Running => {Completed, Partial, RetryWait, Cancelling, Failed}
    case RetryWait => {Queued, Dead, Cancelling}
    case Cancelling => {Cancelled, Failed}
    case _ => {}
  }

  function AttemptTransitions(s: AttemptStatus): set<AttemptStatus> {
    match s
    case Created => {AttemptDispatched, AttemptCancelled, Superseded}
    case AttemptDispatched => {Claimed, Lost, AttemptCancelled, Superseded}
    case Claimed => {AttemptRunning, Lost, AttemptCancelled, Superseded}
    case AttemptRunning =>
      {Succeeded, FailedRetryable, FailedTerminal, AttemptCancelled, Lost, Superseded}
    case _ => {}
  }
}
