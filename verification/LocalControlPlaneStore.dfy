/** The store as an object over mutable tables, each call proved to be its specification. */
module LocalControlPlane {
  import opened Wrappers
  import opened ControlPlaneSchemas
  import opened ControlPlaneStore

  class LocalControlPlaneStore {
    var jobs: seq<Job>
    var jobColumns: seq<JobColumns>
    var attempts: seq<Attempt>
    var index: map<(JobId, nat), AttemptId>
    var events: seq<Event>
    var eventColumns: seq<EventColumns>
    var nextSecret: Secret

    ghost function Contents(): Db
      reads this
    {
      Db(jobs, jobColumns, attempts, index, events, eventColumns, nextSecret)
    }

    ghost predicate Valid()
      reads this
    {
      Closed(Contents())
    }

    constructor ()
      ensures Valid() && Contents() == EmptyDb
    {
      jobs, jobColumns, attempts, index := [], [], [], map[];
      events, eventColumns, nextSecret := [], [], 0;
    }

    method DrawSecret() returns (secret: Secret)
      requires Valid()
      modifies this`nextSecret
      ensures Valid() && secret == old(nextSecret)
      ensures Contents() == old(Contents()).(nextSecret := secret + 1)
    {
      secret := nextSecret;
      nextSecret := nextSecret + 1;
    }

    method UpdateJob(j: JobId, job: Job)
      requires j < |jobs| == |jobColumns|
      modifies this`jobs, this`jobColumns
      ensures Contents() == PutJob(old(Contents()), j, job)
    {
      jobs := jobs[j := job];
      jobColumns := jobColumns[j := JobColumns(job.status, job.current, job.revision)];
    }

    method AddAttempt(j: JobId, number: nat, now: int) returns (a: AttemptId, e: EventId, token: Secret)
      modifies this`attempts, this`index, this`events, this`eventColumns, this`nextSecret
      ensures Contents() == InsertAttempt(old(Contents()), j, number, now)
      ensures a == |old(attempts)| && e == |old(events)| && token == old(nextSecret)
    {
      a, e, token := |attempts|, |events|, nextSecret;
      nextSecret := nextSecret + 1;
      attempts := attempts + [NewAttempt(j, number, token, now)];
      index := index[(j, number) := a];
      var event := NewEvent(j, a, number, now);
      events := events + [event];
      eventColumns := eventColumns + [ColumnsOfEvent(event)];
    }

    method CreateJob(now: int, workspace: string, key: Key, request: string,
                     retryOf: Option<JobId>, maxAttempts: int)
      returns (r: Result<CreatedJob, Code>)
      requires Valid()
      modifies this
      ensures Valid()
      ensures Outcome(Contents(), r)
           == ControlPlaneStore.CreateJob(old(Contents()), now, workspace, key, request, retryOf, maxAttempts)
    {
      var existing := FindJob(jobs, workspace, key);
      if existing.Some? {
        var j := existing.value;
        if jobs[j].request != request {
          return Err(IdempotencyKeyConflict);
        }
        var a := index[(j, jobs[j].current)];
        var e := FindEvent(events, a);
        if e.None? {
          return Err(OutboxNotFound);
        }
        return Ok(CreatedJob(j, a, e.value, None));
      }
      if !(1 <= maxAttempts <= 100) {
        return Err(InvalidRecord);
      }
      var j := |jobs|;
      var job := Job(workspace, key, request, retryOf, maxAttempts, Queued, 1, false, false,
                     None, [], None, None, now, now, 1);
      jobs := jobs + [job];
      jobColumns := jobColumns + [ColumnsOfJob(job)];
      var a, e, token := AddAttempt(j, 1, now);
      r := Ok(CreatedJob(j, a, e, Some(token)));
    }

    method GetJob(j: JobId) returns (r: Result<Job, Code>)
      ensures r == if j < |jobs| then Ok(jobs[j]) else Err(JobNotFound)
    {
      if j >= |jobs| {
        return Err(JobNotFound);
      }
      r := Ok(jobs[j]);
    }

    method TransitionJob(now: int, j: JobId, target: JobStatus, error: Option<string>,
                         expectedRevision: Option<nat>)
      returns (r: Result<Job, Code>)
      requires Valid()
      modifies this
      ensures Valid()
      ensures Outcome(Contents(), r)
           == ControlPlaneStore.TransitionJob(old(Contents()), now, j, target, error, expectedRevision)
    {
      if j >= |jobs| {
        return Err(JobNotFound);
      }
      var job := jobs[j];
      if expectedRevision.Some? && job.revision != expectedRevision.value {
        return Err(StaleJobRevision);
      }
      if TerminalJob(job.status) || target !in JobTransitions(job.status) {
        return Err(InvalidJobTransition);
      }
      var finishedAt := if TerminalJob(target) then Some(now) else None;
      var updated := job.(status := target, error := error, updatedAt := now,
                          finishedAt := finishedAt, revision := job.revision + 1);
      if target == Running && job.startedAt.None? {
        updated := updated.(startedAt := Some(now));
      }
      UpdateJob(j, updated);
      r := Ok(updated);
    }

    method RequestCancel(now: int, j: JobId) returns (r: Result<Job, Code>)
      requires Valid()
      modifies this
      ensures Valid()
      ensures Outcome(Contents(), r) == ControlPlaneStore.RequestCancel(old(Contents()), now, j)
    {
      if j >= |jobs| {
        return Err(JobNotFound);
      }
      var job := jobs[j];
      if TerminalJob(job.status) {
        return Ok(job);
      }
      if Cancelling !in JobTransitions(job.status) {
        return Err(JobCannotCancel);
      }
      var updated := job.(status := Cancelling, cancelRequested := true, updatedAt := now,
                          revision := job.revision + 1);
      UpdateJob(j, updated);
      r := Ok(updated);
    }

    method CreateRetryAttempt(now: int, j: JobId) returns (r: Result<CreatedJob, Code>)
      requires Valid()
      modifies this
      ensures Valid()
      ensures Outcome(Contents(), r) == ControlPlaneStore.CreateRetryAttempt(old(Contents()), now, j)
    {
      if j >= |jobs| {
        return Err(JobNotFound);
      }
      var job := jobs[j];
      if job.status != RetryWait {
        return Err(JobNotRetryWait);
      }
      if job.current >= job.maxAttempts {
        UpdateJob(j, job.(status := Dead, finishedAt := Some(now), updatedAt := now,
                          revision := job.revision + 1));
        return Err(JobAttemptsExhausted);
      }
      var number := job.current + 1;
      var a, e, token := AddAttempt(j, number, now);
      UpdateJob(j, job.(status := Queued, current := number, retryable := false, error := None,
                        updatedAt := now, revision := job.revision + 1));
      r := Ok(CreatedJob(j, a, e, Some(token)));
    }

    method CreateManualRetry(now: int, j: JobId) returns (r: Result<CreatedJob, Code>)
      requires Valid()
      modifies this
      ensures Valid()
      ensures Outcome(Contents(), r) == ControlPlaneStore.CreateManualRetry(old(Contents()), now, j)
    {
      var found := GetJob(j);
      if found.Err? {
        return Err(found.error);
      }
      var job := found.value;
      if !TerminalJob(job.status) {
        return Err(ManualRetryRequiresTerminalJob);
      }
      var nonce := DrawSecret();
      r := CreateJob(now, job.workspace, ManualRetryKey(j, nonce), job.request, Some(j), job.maxAttempts);
    }

    method TransitionAttempt(now: int, a: AttemptId, token: Secret, target: AttemptStatus,
                             worker: Option<string>)
      returns (r: Result<Attempt, Code>)
      requires Valid()
      modifies this
      ensures Valid()
      ensures Outcome(Contents(), r)
           == ControlPlaneStore.TransitionAttempt(old(Contents()), now, a, token, target, worker)
    {
      if a >= |attempts| {
        return Err(AttemptNotFound);
      }
      var attempt := attempts[a];
      if attempt.token != Sha256(token) {
        return Err(StaleExecutionToken);
      }
      if target !in AttemptTransitions(attempt.status) {
        return Err(InvalidAttemptTransition);
      }
      var updated := attempt.(status := target, updatedAt := now);
      if worker.Some? {
        updated := updated.(worker := worker);
      }
      if target == Claimed || target == AttemptRunning {
        updated := updated.(heartbeatAt := Some(now));
      }
      if target == AttemptRunning {
        updated := updated.(startedAt := Some(now));
      }
      attempts := attempts[a := updated];
      r := Ok(updated);
    }

    method HeartbeatAttempt(now: int, a: AttemptId, token: Secret) returns (r: Result<Attempt, Code>)
      requires Valid()
      modifies this
      ensures Valid()
      ensures Outcome(Contents(), r) == ControlPlaneStore.HeartbeatAttempt(old(Contents()), now, a, token)
    {
      if a >= |attempts| {
        return Err(AttemptNotFound);
      }
      var attempt := attempts[a];
      if attempt.token != Sha256(token) {
        return Err(StaleExecutionToken);
      }
      if attempt.status != Claimed && attempt.status != AttemptRunning {
        return Err(AttemptNotHeartbeatEligible);
      }
      var updated := attempt.(heartbeatAt := Some(now), updatedAt := now);
      attempts := attempts[a := updated];
      r := Ok(updated);
    }

    method CompleteAttempt(now: int, a: AttemptId, token: Secret, status: AttemptStatus,
                           error: Option<string>, results: seq<string>)
      returns (r: Result<Job, Code>)
      requires Valid()
      modifies this
      ensures Valid()
      ensures Outcome(Contents(), r)
           == ControlPlaneStore.CompleteAttempt(old(Contents()), now, a, token, status, error, results)
    {
      if status !in {Succeeded, FailedRetryable, FailedTerminal, AttemptCancelled, Lost} {
        return Err(InvalidAttemptTerminalStatus);
      }
      if a >= |attempts| {
        return Err(AttemptNotFound);
      }
      var attempt := attempts[a];
      if attempt.token != Sha256(token) {
        return Err(StaleExecutionToken);
      }
      var job := jobs[attempt.job];
      if job.current != attempt.number {
        return Err(LateAttemptResult);
      }
      if status !in AttemptTransitions(attempt.status) && attempt.status != Created {
        return Err(InvalidAttemptTransition);
      }
      if |results| > 200 {
        return Err(InvalidRecord);
      }
      attempts := attempts[a := attempt.(status := status, error := error,
                                         retryable := status == FailedRetryable,
                                         finishedAt := Some(now), updatedAt := now)];
      var target := JobStatusAfter(status);
      var finishedAt := if TerminalJob(target) then Some(now) else None;
      var updated := job.(status := target, retryable := target == RetryWait, error := error,
                          finishedAt := finishedAt, updatedAt := now, revision := job.revision + 1);
      if results != [] {
        updated := updated.(results := results);
      }
      UpdateJob(attempt.job, updated);
      r := Ok(updated);
    }

    method SweepCurrentAttempt(now: int, j: JobId)
      requires Valid() && j < |jobs|
      modifies this`attempts, this`events, this`eventColumns
      ensures Valid()
      ensures Contents() == SweepCurrent(old(Contents()), now, j)
    {
      var a := index[(j, jobs[j].current)];
      var attempt := attempts[a];
      if LiveAttempt(attempt.status) {
        var status := if attempt.status == Created then Superseded else Lost;
        attempts := attempts[a := attempt.(status := status, error := Some("application_restart"),
                                           retryable := true, finishedAt := Some(now), updatedAt := now)];
      }
      assert Contents() == PutAttempt(old(Contents()), a, SweepAttempt(attempt, now));
      var found := FindEvent(events, a);
      if found.Some? && events[found.value].status != EventFailed {
        var e := found.value;
        var error := Some("attempt_superseded_on_restart");
        events := events[e := events[e].(status := EventFailed, claim := None, owner := None,
                                         leaseUntil := None, error := error, updatedAt := now)];
        eventColumns := eventColumns[e := eventColumns[e].(status := EventFailed, claim := None,
                                                          owner := None, leaseUntil := None, error := error)];
      }
    }

    /** The recovery of one incomplete job. */
    method RecoverOne(now: int, j: JobId) returns (created: Option<CreatedJob>)
      requires Valid() && j < |jobs|
      modifies this
      ensures Valid()
      ensures (Contents(), created) == RecoverJob(old(Contents()), now, j)
    {
      var job := jobs[j];
      SweepCurrentAttempt(now, j);
      if job.status == Cancelling {
        UpdateJob(j, job.(status := Cancelled, cancelRequested := true, retryable := false,
                          error := Some("job_cancelled_during_restart"), finishedAt := Some(now),
                          updatedAt := now, revision := job.revision + 1));
        return None;
      }
      if job.current >= job.maxAttempts {
        UpdateJob(j, job.(status := Dead, retryable := false,
                          error := Some("job_attempts_exhausted_after_restart"), finishedAt := Some(now),
                          updatedAt := now, revision := job.revision + 1));
        return None;
      }
      var number := job.current + 1;
      var a, e, token := AddAttempt(j, number, now);
      UpdateJob(j, job.(status := Queued, current := number, cancelRequested := false,
                        retryable := false, error := None, finishedAt := None, updatedAt := now,
                        revision := job.revision + 1));
      created := Some(CreatedJob(j, a, e, Some(token)));
    }

    /** One iteration of the recovery loop. */
    method RecoverNext(ghost db: Db, now: int, rows: seq<JobId>, i: nat, recovered: seq<CreatedJob>)
      returns (more: seq<CreatedJob>)
      requires Closed(db) && forall x :: 0 <= x < |rows| ==> rows[x] < |db.jobs|
      requires Valid() && i < |rows|
      requires (Contents(), recovered) == RecoverJobs(db, now, rows[..i])
      modifies this
      ensures Valid()
      ensures (Contents(), more) == RecoverJobs(db, now, rows[..i + 1])
    {
      RecoverNextJob(db, now, rows, i);
      var created := RecoverOne(now, rows[i]);
      more := recovered + (if created.Some? then [created.value] else []);
    }

    method RecoverIncompleteJobs(now: int) returns (recovered: seq<CreatedJob>)
      requires Valid()
      modifies this
      ensures Valid()
      ensures (Contents(), recovered) == ControlPlaneStore.RecoverIncompleteJobs(old(Contents()), now)
    {
      var rows := IncompleteJobs(jobColumns);
      ghost var db := Contents();
      recovered := [];
      for i := 0 to |rows|
        invariant Valid() && |jobs| == |db.jobs|
        invariant (Contents(), recovered) == RecoverJobs(db, now, rows[..i])
      {
        recovered := RecoverNext(db, now, rows, i, recovered);
      }
      assert rows[..|rows|] == rows;
    }

    /** The claim of one selected event under a fresh claim token. */
    method ClaimOne(now: int, owner: string, leaseSeconds: int, e: EventId) returns (token: Secret)
      requires Valid() && e < |events|
      modifies this
      ensures Valid() && token == old(nextSecret)
      ensures Contents() == ClaimEvent(old(Contents()), now, owner, leaseSeconds, e)
    {
      token := DrawSecret();
      var leaseUntil := Some(now + leaseSeconds);
      var published := events[e].publishAttempts + 1;
      events := events[e := events[e].(status := Publishing, claim := Some(Sha256(token)),
                                       owner := Some(owner), leaseUntil := leaseUntil,
                                       publishAttempts := published, updatedAt := now)];
      eventColumns := eventColumns[e := eventColumns[e].(
        status := Publishing, claim := Some(Sha256(token)), owner := Some(owner),
        leaseUntil := leaseUntil, publishAttempts := published)];
    }

    method ClaimOutbox(now: int, owner: string, batchSize: nat, leaseSeconds: int)
      returns (claims: seq<Claim>)
      requires Valid()
      modifies this
      ensures Valid()
      ensures (Contents(), claims)
           == ControlPlaneStore.ClaimOutbox(old(Contents()), now, owner, batchSize, leaseSeconds)
    {
      var rows := ClaimableEvents(eventColumns, now, 0, batchSize);
      claims := [];
      for i := 0 to |rows|
        invariant Valid() && |events| == |old(events)|
        invariant (Contents(), claims) == ClaimEvents(old(Contents()), now, owner, leaseSeconds, rows[..i])
      {
        assert rows[..i + 1][..i] == rows[..i];
        var token := ClaimOne(now, owner, leaseSeconds, rows[i]);
        claims := claims + [Claim(rows[i], token)];
      }
      assert rows[..|rows|] == rows;
    }

    method MarkOutboxPublished(now: int, e: EventId, token: Secret, message: string)
      returns (r: Result<Event, Code>)
      requires Valid()
      modifies this
      ensures Valid()
      ensures Outcome(Contents(), r)
           == ControlPlaneStore.MarkOutboxPublished(old(Contents()), now, e, token, message)
    {
      if e >= |events| {
        return Err(OutboxNotFound);
      }
      var event := events[e];
      if event.status != Publishing || event.claim.None? {
        return Err(OutboxNotClaimed);
      }
      if event.claim.value != Sha256(token) {
        return Err(OutboxClaimLost);
      }
      var updated := event.(status := Published, message := Some(BrokerMessage(message)), claim := None,
                            owner := None, leaseUntil := None, updatedAt := now);
      events := events[e := updated];
      eventColumns := eventColumns[e := eventColumns[e].(status := Published, claim := None,
                                                        owner := None, leaseUntil := None)];
      r := Ok(updated);
    }

    method MarkOutboxPublishFailed(now: int, e: EventId, token: Secret, error: string, retrySeconds: int)
      returns (r: Result<Event, Code>)
      requires Valid()
      modifies this
      ensures Valid()
      ensures Outcome(Contents(), r)
           == ControlPlaneStore.MarkOutboxPublishFailed(old(Contents()), now, e, token, error, retrySeconds)
    {
      if e >= |events| {
        return Err(OutboxNotFound);
      }
      var event := events[e];
      if event.status != Publishing || event.claim.None? || event.claim.value != Sha256(token) {
        return Err(OutboxClaimLost);
      }
      var delay := if retrySeconds < 1 then 1 else retrySeconds;
      var updated := event.(status := Pending, claim := None, owner := None, leaseUntil := None,
                            error := Some(error), nextRetryAt := Some(now + delay), updatedAt := now);
      events := events[e := updated];
      eventColumns := eventColumns[e := eventColumns[e].(
        status := Pending, claim := None, owner := None, leaseUntil := None,
        error := Some(error), nextRetryAt := Some(now + delay))];
      r := Ok(updated);
    }

    method MarkOutboxConsumedLocal(now: int, e: EventId) returns (r: Result<Event, Code>)
      requires Valid()
      modifies this
      ensures Valid()
      ensures Outcome(Contents(), r) == ControlPlaneStore.MarkOutboxConsumedLocal(old(Contents()), now, e)
    {
      if e >= |events| {
        return Err(OutboxNotFound);
      }
      var event := events[e];
      if event.status == Published {
        return Ok(event);
      }
      if event.status != Pending {
        return Err(OutboxNotPending);
      }
      var updated := event.(status := Published, message := Some(LocalMessage(event.job, event.number)),
                            updatedAt := now);
      events := events[e := updated];
      eventColumns := eventColumns[e := eventColumns[e].(status := Published)];
      r := Ok(updated);
    }
  }
}
