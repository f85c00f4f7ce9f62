/**
 The control plane store. Every public call is one SQLite transaction, so it is
 specified by a function from the database (and the arguments) to the new database
 and a result; a call that raises after committing is a new database with an error.
 Class LocalControlPlaneStore performs the same calls on mutable tables.
 */
module ControlPlaneStore {
  import opened Wrappers
  import opened ControlPlaneSchemas

  datatype Code =
    | IdempotencyKeyConflict | InvalidRecord
    | JobNotFound | StaleJobRevision | InvalidJobTransition | JobNotRetryWait
    | JobAttemptsExhausted | JobCannotCancel | ManualRetryRequiresTerminalJob
    | AttemptNotFound | StaleExecutionToken | InvalidAttemptTransition
    | InvalidAttemptTerminalStatus | AttemptNotHeartbeatEligible | LateAttemptResult
    | OutboxNotFound | OutboxNotClaimed | OutboxClaimLost | OutboxNotPending

  datatype Outcome<+T> = Outcome(db: Db, result: Result<T, Code>)

  /** What a caller holds after a job or a new attempt was created. The token is
      missing when an idempotent request found the job already there. */
  datatype CreatedJob = CreatedJob(job: JobId, attempt: AttemptId, event: EventId, token: Option<Secret>)

  datatype Claim = Claim(event: EventId, token: Secret)

  /** The tables. `index` is UNIQUE(job_id, attempt_number) of job_attempts. */
  datatype Db = Db(
    jobs: seq<Job>,
    jobColumns: seq<JobColumns>,
    attempts: seq<Attempt>,
    index: map<(JobId, nat), AttemptId>,
    events: seq<Event>,
    eventColumns: seq<EventColumns>,
    nextSecret: Secret)

  const EmptyDb := Db([], [], [], map[], [], [], 0)

  /** Foreign keys hold, every attempt was inserted together with its dispatch event,
      and the current attempt of every job can be looked up. */
  ghost predicate Closed(db: Db) {
    && |db.jobColumns| == |db.jobs|
    && |db.events| == |db.eventColumns| == |db.attempts|
    && (forall k :: k in db.index ==> db.index[k] < |db.attempts|)
    && (forall a :: 0 <= a < |db.attempts| ==> db.attempts[a].job < |db.jobs|)
    && (forall e :: 0 <= e < |db.events| ==> db.events[e].attempt == e)
    && (forall j :: 0 <= j < |db.jobs| ==> (j, db.jobs[j].current) in db.index)
  }

  // ------------------------------------------------------------------ lookups

  function FindJob(jobs: seq<Job>, workspace: string, key: Key): (found: Option<JobId>)
    ensures found.Some? ==>
              found.value < |jobs| && jobs[found.value].workspace == workspace && jobs[found.value].key == key
    ensures found.None? ==> forall j :: 0 <= j < |jobs| ==> !(jobs[j].workspace == workspace && jobs[j].key == key)
  {
    if |jobs| == 0 then None
    else
      var last := |jobs| - 1;
      if jobs[last].workspace == workspace && jobs[last].key == key then Some(last)
      else FindJob(jobs[..last], workspace, key)
  }

  function FindEvent(events: seq<Event>, attempt: AttemptId): (found: Option<EventId>)
    ensures found.Some? ==> found.value < |events| && events[found.value].attempt == attempt
    ensures found.None? ==> forall e :: 0 <= e < |events| ==> events[e].attempt != attempt
  {
    if |events| == 0 then None
    else
      var last := |events| - 1;
      if events[last].attempt == attempt then Some(last) else FindEvent(events[..last], attempt)
  }

  function CurrentAttempt(db: Db, j: JobId): (a: AttemptId)
    requires Closed(db) && j < |db.jobs|
    ensures a < |db.attempts|
  {
    db.index[(j, db.jobs[j].current)]
  }

  // --------------------------------------------------------------- statements

  function PutJob(db: Db, j: JobId, job: Job): Db
    requires j < |db.jobs| == |db.jobColumns|
  {
    db.(jobs := db.jobs[j := job], jobColumns := db.jobColumns[j := ColumnsOfJob(job)])
  }

  function PutAttempt(db: Db, a: AttemptId, attempt: Attempt): Db
    requires a < |db.attempts|
  {
    db.(attempts := db.attempts[a := attempt])
  }

  function PutEvent(db: Db, e: EventId, event: Event, columns: EventColumns): Db
    requires e < |db.events| == |db.eventColumns|
  {
    db.(events := db.events[e := event], eventColumns := db.eventColumns[e := columns])
  }

  function NewAttempt(j: JobId, number: nat, token: Secret, now: int): Attempt {
    Attempt(j, number, Created, Sha256(token), None, false, None, None, None, None, now, now)
  }

  function NewEvent(j: JobId, a: AttemptId, number: nat, now: int): Event {
    Event(j, a, number, Pending, None, None, None, 0, None, None, None, now, now)
  }

  /** Inserts an attempt and its dispatch event, drawing a fresh execution token. */
  function InsertAttempt(db: Db, j: JobId, number: nat, now: int): Db {
    var a := |db.attempts|;
    var event := NewEvent(j, a, number, now);
    db.(attempts := db.attempts + [NewAttempt(j, number, db.nextSecret, now)],
        index := db.index[(j, number) := a],
        events := db.events + [event],
        eventColumns := db.eventColumns + [ColumnsOfEvent(event)],
        nextSecret := db.nextSecret + 1)
  }

  // --------------------------------------------------------------------- jobs

  function CreateJob(db: Db, now: int, workspace: string, key: Key, request: string,
                     retryOf: Option<JobId>, maxAttempts: int): (o: Outcome<CreatedJob>)
    requires Closed(db)
    ensures Closed(o.db)
  {
    match FindJob(db.jobs, workspace, key)
    case Some(j) =>
      if db.jobs[j].request != request then Outcome(db, Err(IdempotencyKeyConflict))
      else
        var a := CurrentAttempt(db, j);
        (match FindEvent(db.events, a)
         case Some(e) => Outcome(db, Ok(CreatedJob(j, a, e, None)))
         case None => assert db.events[a].attempt == a; Outcome(db, Err(OutboxNotFound)))
    case None =>
      if !(1 <= maxAttempts <= 100) then Outcome(db, Err(InvalidRecord))
      else
        var j := |db.jobs|;
        var job := Job(workspace, key, request, retryOf, maxAttempts, Queued, 1, false, false,
                       None, [], None, None, now, now, 1);
        var inserted := InsertAttempt(
          db.(jobs := db.jobs + [job], jobColumns := db.jobColumns + [ColumnsOfJob(job)]), j, 1, now);
        Outcome(inserted, Ok(CreatedJob(j, |db.attempts|, |db.events|, Some(db.nextSecret))))
  }

  function TransitionJob(db: Db, now: int, j: JobId, target: JobStatus, error: Option<string>,
                         expectedRevision: Option<nat>): (o: Outcome<Job>)
    requires Closed(db)
    ensures Closed(o.db)
  {
    if j >= |db.jobs| then Outcome(db, Err(JobNotFound))
    else
      var job := db.jobs[j];
      if expectedRevision.Some? && job.revision != expectedRevision.value then Outcome(db, Err(StaleJobRevision))
      else if TerminalJob(job.status) || target !in JobTransitions(job.status) then
        Outcome(db, Err(InvalidJobTransition))
      else
        var updated := job.(
          status := target, error := error, updatedAt := now,
          finishedAt := if TerminalJob(target) then Some(now) else None,
          revision := job.revision + 1,
          startedAt := if target == Running && job.startedAt.None? then Some(now) else job.startedAt);
        Outcome(PutJob(db, j, updated), Ok(updated))
  }

  function RequestCancel(db: Db, now: int, j: JobId): (o: Outcome<Job>)
    requires Closed(db)
    ensures Closed(o.db)
  {
    if j >= |db.jobs| then Outcome(db, Err(JobNotFound))
    else
      var job := db.jobs[j];
      if TerminalJob(job.status) then Outcome(db, Ok(job))
      else if Cancelling !in JobTransitions(job.status) then Outcome(db, Err(JobCannotCancel))
      else
        var updated := job.(status := Cancelling, cancelRequested := true, updatedAt := now,
                            revision := job.revision + 1);
        Outcome(PutJob(db, j, updated), Ok(updated))
  }

  /** An exhausted job is committed as dead and the call still raises. */
  function CreateRetryAttempt(db: Db, now: int, j: JobId): (o: Outcome<CreatedJob>)
    requires Closed(db)
    ensures Closed(o.db)
  {
    if j >= |db.jobs| then Outcome(db, Err(JobNotFound))
    else
      var job := db.jobs[j];
      if job.status != RetryWait then Outcome(db, Err(JobNotRetryWait))
      else if job.current >= job.maxAttempts then
        var dead := job.(status := Dead, finishedAt := Some(now), updatedAt := now,
                         revision := job.revision + 1);
        Outcome(PutJob(db, j, dead), Err(JobAttemptsExhausted))
      else
        var queued := job.(status := Queued, current := job.current + 1, retryable := false,
                           error := None, updatedAt := now, revision := job.revision + 1);
        Outcome(PutJob(InsertAttempt(db, j, job.current + 1, now), j, queued),
                Ok(CreatedJob(j, |db.attempts|, |db.events|, Some(db.nextSecret))))
  }

  function CreateManualRetry(db: Db, now: int, j: JobId): (o: Outcome<CreatedJob>)
    requires Closed(db)
    ensures Closed(o.db)
  {
    if j >= |db.jobs| then Outcome(db, Err(JobNotFound))
    else
      var job := db.jobs[j];
      if !TerminalJob(job.status) then Outcome(db, Err(ManualRetryRequiresTerminalJob))
      else
        CreateJob(db.(nextSecret := db.nextSecret + 1), now, job.workspace,
                  ManualRetryKey(j, db.nextSecret), job.request, Some(j), job.maxAttempts)
  }

  // ----------------------------------------------------------------- attempts

  function TransitionAttempt(db: Db, now: int, a: AttemptId, token: Secret, target: AttemptStatus,
                             worker: Option<string>): (o: Outcome<Attempt>)
    requires Closed(db)
    ensures Closed(o.db)
  {
    if a >= |db.attempts| then Outcome(db, Err(AttemptNotFound))
    else
      var attempt := db.attempts[a];
      if attempt.token != Sha256(token) then Outcome(db, Err(StaleExecutionToken))
      else if target !in AttemptTransitions(attempt.status) then Outcome(db, Err(InvalidAttemptTransition))
      else
        var updated := attempt.(
          status := target, updatedAt := now,
          worker := if worker.Some? then worker else attempt.worker,
          heartbeatAt := if target in {Claimed, AttemptRunning} then Some(now) else attempt.heartbeatAt,
          startedAt := if target == AttemptRunning then Some(now) else attempt.startedAt);
        Outcome(PutAttempt(db, a, updated), Ok(updated))
  }

  function HeartbeatAttempt(db: Db, now: int, a: AttemptId, token: Secret): (o: Outcome<Attempt>)
    requires Closed(db)
    ensures Closed(o.db)
  {
    if a >= |db.attempts| then Outcome(db, Err(AttemptNotFound))
    else
      var attempt := db.attempts[a];
      if attempt.token != Sha256(token) then Outcome(db, Err(StaleExecutionToken))
      else if attempt.status !in {Claimed, AttemptRunning} then Outcome(db, Err(AttemptNotHeartbeatEligible))
      else
        var updated := attempt.(heartbeatAt := Some(now), updatedAt := now);
        Outcome(PutAttempt(db, a, updated), Ok(updated))
  }

  /** The job status written for each final attempt status. */
  function JobStatusAfter(s: AttemptStatus): JobStatus
    requires s in {Succeeded, FailedRetryable, FailedTerminal, AttemptCancelled, Lost}
  {
    match s
    case Succeeded => Completed
    case FailedRetryable => RetryWait
    case FailedTerminal => Failed
    case AttemptCancelled => Cancelled
    case Lost => RetryWait
  }

  /** Finishes an attempt and its job. The job status is overwritten without
      consulting the job transition table. */
  function CompleteAttempt(db: Db, now: int, a: AttemptId, token: Secret, status: AttemptStatus,
                           error: Option<string>, results: seq<string>): (o: Outcome<Job>)
    requires Closed(db)
    ensures Closed(o.db)
  {
    if status !in {Succeeded, FailedRetryable, FailedTerminal, AttemptCancelled, Lost} then
      Outcome(db, Err(InvalidAttemptTerminalStatus))
    else if a >= |db.attempts| then Outcome(db, Err(AttemptNotFound))
    else
      var attempt := db.attempts[a];
      if attempt.token != Sha256(token) then Outcome(db, Err(StaleExecutionToken))
      else
        var j := attempt.job;
        var job := db.jobs[j];
        if job.current != attempt.number then Outcome(db, Err(LateAttemptResult))
        else if status !in AttemptTransitions(attempt.status) && attempt.status != Created then
          Outcome(db, Err(InvalidAttemptTransition))
        else if |results| > 200 then Outcome(db, Err(InvalidRecord))
        else
          var finished := attempt.(status := status, error := error,
                                   retryable := status == FailedRetryable,
                                   finishedAt := Some(now), updatedAt := now);
          var target := JobStatusAfter(status);
          var updated := job.(status := target, retryable := target == RetryWait, error := error,
                              finishedAt := if TerminalJob(target) then Some(now) else None,
                              updatedAt := now, revision := job.revision + 1,
                              results := if results != [] then results else job.results);
          Outcome(PutJob(PutAttempt(db, a, finished), j, updated), Ok(updated))
  }

  // ----------------------------------------------------------------- recovery

  /** The rows SELECTed by recovery: jobs whose status column is not terminal. */
  function IncompleteJobs(columns: seq<JobColumns>): (rows: seq<JobId>)
    ensures forall x :: 0 <= x < |rows| ==> rows[x] < |columns| && !TerminalJob(columns[rows[x]].status)
    ensures forall j :: 0 <= j < |columns| && !TerminalJob(columns[j].status) ==> j in rows
    ensures forall x, y :: 0 <= x < y < |rows| ==> rows[x] < rows[y]
  {
    if |columns| == 0 then []
    else
      var last := |columns| - 1;
      IncompleteJobs(columns[..last]) + (if TerminalJob(columns[last].status) then [] else [last])
  }

  function SweepAttempt(attempt: Attempt, now: int): Attempt {
    if !LiveAttempt(attempt.status) then attempt
    else attempt.(status := if attempt.status == Created then Superseded else Lost,
                  error := Some("application_restart"), retryable := true,
                  finishedAt := Some(now), updatedAt := now)
  }

  /** Fails the event row of an attempt; a row that failed before is left alone. */
  function SweepEvent(db: Db, a: AttemptId, now: int): (swept: Db)
    requires Closed(db)
    ensures Closed(swept)
    ensures swept == db.(events := swept.events, eventColumns := swept.eventColumns)
    ensures |swept.events| == |db.events|
  {
    match FindEvent(db.events, a)
    case None => db
    case Some(e) =>
      if db.events[e].status == EventFailed then db
      else
        var error := Some("attempt_superseded_on_restart");
        PutEvent(db, e,
                 db.events[e].(status := EventFailed, claim := None, owner := None, leaseUntil := None,
                               error := error, updatedAt := now),
                 db.eventColumns[e].(status := EventFailed, claim := None, owner := None,
                                     leaseUntil := None, error := error))
  }

  /** The current attempt of a job and its event as recovery leaves them. */
  function SweepCurrent(db: Db, now: int, j: JobId): (swept: Db)
    requires Closed(db) && j < |db.jobs|
    ensures Closed(swept) && swept.jobs == db.jobs
  {
    var a := CurrentAttempt(db, j);
    SweepEvent(PutAttempt(db, a, SweepAttempt(db.attempts[a], now)), a, now)
  }

  predicate Requeues(job: Job) {
    job.status != Cancelling && job.current < job.maxAttempts
  }

  function RecoveredJob(job: Job, now: int): Job {
    if job.status == Cancelling then
      job.(status := Cancelled, cancelRequested := true, retryable := false,
           error := Some("job_cancelled_during_restart"), finishedAt := Some(now),
           updatedAt := now, revision := job.revision + 1)
    else if job.current >= job.maxAttempts then
      job.(status := Dead, retryable := false,
           error := Some("job_attempts_exhausted_after_restart"), finishedAt := Some(now),
           updatedAt := now, revision := job.revision + 1)
    else
      job.(status := Queued, current := job.current + 1, cancelRequested := false,
           retryable := false, error := None, finishedAt := None, updatedAt := now,
           revision := job.revision + 1)
  }

  /** Gives a swept job up, or queues it again with its next attempt. */
  function Requeue(swept: Db, now: int, j: JobId): (r: (Db, Option<CreatedJob>))
    requires Closed(swept) && j < |swept.jobs|
    ensures Closed(r.0) && |r.0.jobs| == |swept.jobs|
  {
    var job := swept.jobs[j];
    if Requeues(job) then
      (PutJob(InsertAttempt(swept, j, job.current + 1, now), j, RecoveredJob(job, now)),
       Some(CreatedJob(j, |swept.attempts|, |swept.events|, Some(swept.nextSecret))))
    else (PutJob(swept, j, RecoveredJob(job, now)), None)
  }

  /** The body of the recovery loop for one incomplete job. */
  function RecoverJob(db: Db, now: int, j: JobId): (r: (Db, Option<CreatedJob>))
    requires Closed(db) && j < |db.jobs|
    ensures Closed(r.0) && |r.0.jobs| == |db.jobs|
  {
    Requeue(SweepCurrent(db, now, j), now, j)
  }

  function RecoverJobs(db: Db, now: int, rows: seq<JobId>): (r: (Db, seq<CreatedJob>))
    requires Closed(db) && forall x :: 0 <= x < |rows| ==> rows[x] < |db.jobs|
    ensures Closed(r.0) && |r.0.jobs| == |db.jobs|
  {
    if |rows| == 0 then (db, [])
    else
      var last := |rows| - 1;
      var before := RecoverJobs(db, now, rows[..last]);
      var (after, created) := RecoverJob(before.0, now, rows[last]);
      (after, before.1 + (if created.Some? then [created.value] else []))
  }

  /** One more row is one more loop iteration. */
  lemma RecoverNextJob(db: Db, now: int, rows: seq<JobId>, i: nat)
    requires Closed(db) && forall x :: 0 <= x < |rows| ==> rows[x] < |db.jobs|
    requires i < |rows|
    ensures var before := RecoverJobs(db, now, rows[..i]);
            var (after, created) := RecoverJob(before.0, now, rows[i]);
            RecoverJobs(db, now, rows[..i + 1])
            == (after, before.1 + (if created.Some? then [created.value] else []))
  {
    assert rows[..i + 1][..i] == rows[..i];
  }

  function RecoverIncompleteJobs(db: Db, now: int): (r: (Db, seq<CreatedJob>))
    requires Closed(db)
    ensures Closed(r.0) && |r.0.jobs| == |db.jobs|
  {
    RecoverJobs(db, now, IncompleteJobs(db.jobColumns))
  }

  // ------------------------------------------------------------------- outbox

  predicate Claimable(c: EventColumns, now: int) {
    && (c.status == Pending
        || (c.status == Publishing && c.leaseUntil.Some? && c.leaseUntil.value < now))
    && (c.nextRetryAt.None? || c.nextRetryAt.value <= now)
  }

  /** The first `limit` claimable rows at or after row `from`, in insertion order. */
  function ClaimableEvents(columns: seq<EventColumns>, now: int, from: nat, limit: nat): (rows: seq<EventId>)
    requires from <= |columns|
    decreases |columns| - from
    ensures |rows| <= limit
    ensures forall x :: 0 <= x < |rows| ==> from <= rows[x] < |columns| && Claimable(columns[rows[x]], now)
    ensures forall x, y :: 0 <= x < y < |rows| ==> rows[x] < rows[y]
  {
    if limit == 0 || from == |columns| then []
    else if Claimable(columns[from], now) then
      [from] + ClaimableEvents(columns, now, from + 1, limit - 1)
    else ClaimableEvents(columns, now, from + 1, limit)
  }

  function ClaimEvent(db: Db, now: int, owner: string, leaseSeconds: int, e: EventId): (claimed: Db)
    requires Closed(db) && e < |db.events|
    ensures Closed(claimed) && |claimed.events| == |db.events|
  {
    var event := db.events[e];
    var claim := Some(Sha256(db.nextSecret));
    var leaseUntil := Some(now + leaseSeconds);
    PutEvent(db, e,
             event.(status := Publishing, claim := claim, owner := Some(owner), leaseUntil := leaseUntil,
                    publishAttempts := event.publishAttempts + 1, updatedAt := now),
             db.eventColumns[e].(status := Publishing, claim := claim, owner := Some(owner),
                                 leaseUntil := leaseUntil, publishAttempts := event.publishAttempts + 1))
    .(nextSecret := db.nextSecret + 1)
  }

  function ClaimEvents(db: Db, now: int, owner: string, leaseSeconds: int, rows: seq<EventId>)
    : (r: (Db, seq<Claim>))
    requires Closed(db) && forall x :: 0 <= x < |rows| ==> rows[x] < |db.events|
    ensures Closed(r.0) && |r.0.events| == |db.events|
  {
    if |rows| == 0 then (db, [])
    else
      var last := |rows| - 1;
      var before := ClaimEvents(db, now, owner, leaseSeconds, rows[..last]);
      (ClaimEvent(before.0, now, owner, leaseSeconds, rows[last]),
       before.1 + [Claim(rows[last], before.0.nextSecret)])
  }

  function ClaimOutbox(db: Db, now: int, owner: string, batchSize: nat, leaseSeconds: int)
    : (r: (Db, seq<Claim>))
    requires Closed(db)
    ensures Closed(r.0) && |r.0.events| == |db.events|
  {
    ClaimEvents(db, now, owner, leaseSeconds, ClaimableEvents(db.eventColumns, now, 0, batchSize))
  }

  function MarkOutboxPublished(db: Db, now: int, e: EventId, token: Secret, message: string): (o: Outcome<Event>)
    requires Closed(db)
    ensures Closed(o.db)
  {
    if e >= |db.events| then Outcome(db, Err(OutboxNotFound))
    else
      var event := db.events[e];
      if event.status != Publishing || event.claim.None? then Outcome(db, Err(OutboxNotClaimed))
      else if event.claim.value != Sha256(token) then Outcome(db, Err(OutboxClaimLost))
      else
        var updated := event.(status := Published, message := Some(BrokerMessage(message)), claim := None,
                              owner := None, leaseUntil := None, updatedAt := now);
        Outcome(PutEvent(db, e, updated,
                         db.eventColumns[e].(status := Published, claim := None, owner := None,
                                             leaseUntil := None)),
                Ok(updated))
  }

  function MarkOutboxPublishFailed(db: Db, now: int, e: EventId, token: Secret, error: string,
                                   retrySeconds: int): (o: Outcome<Event>)
    requires Closed(db)
    ensures Closed(o.db)
  {
    if e >= |db.events| then Outcome(db, Err(OutboxNotFound))
    else
      var event := db.events[e];
      if event.status != Publishing || event.claim.None? || event.claim.value != Sha256(token) then
        Outcome(db, Err(OutboxClaimLost))
      else
        var retryAt := Some(now + (if retrySeconds < 1 then 1 else retrySeconds));
        var updated := event.(status := Pending, claim := None, owner := None, leaseUntil := None,
                              error := Some(error), nextRetryAt := retryAt, updatedAt := now);
        Outcome(PutEvent(db, e, updated,
                         db.eventColumns[e].(status := Pending, claim := None, owner := None,
                                             leaseUntil := None, error := Some(error),
                                             nextRetryAt := retryAt)),
                Ok(updated))
  }

  /** The local profile consumes a pending event without a broker; the statement
      writes only the status column. */
  function MarkOutboxConsumedLocal(db: Db, now: int, e: EventId): (o: Outcome<Event>)
    requires Closed(db)
    ensures Closed(o.db)
  {
    if e >= |db.events| then Outcome(db, Err(OutboxNotFound))
    else
      var event := db.events[e];
      if event.status == Published then Outcome(db, Ok(event))
      else if event.status != Pending then Outcome(db, Err(OutboxNotPending))
      else
        var updated := event.(status := Published, message := Some(LocalMessage(event.job, event.number)), updatedAt := now);
        Outcome(PutEvent(db, e, updated, db.eventColumns[e].(status := Published)), Ok(updated))
  }
}
