/** Everything a restart writes on the records of the jobs it recovers. */
module RecoveryRecords {
  import opened Wrappers
  import opened ControlPlaneSchemas
  import opened ControlPlaneStore
  import opened ControlPlaneRuns
  import opened Recovery

  /** What nobody changes of a job that is recovered. */
  predicate SameRequest(job: Job, next: Job) {
    && next.workspace == job.workspace && next.key == job.key && next.request == job.request
    && next.retryOf == job.retryOf && next.maxAttempts == job.maxAttempts && next.results == job.results
    && next.startedAt == job.startedAt && next.createdAt == job.createdAt
  }

  /** A job to be cancelled is cancelled, one without attempts left is dead, any other is queued. */
  predicate RestartedJob(job: Job, next: Job, now: int) {
    && SameRequest(job, next) && next.revision == job.revision + 1 && next.updatedAt == now && !next.retryable
    && if job.status == Cancelling then
         && next.status == Cancelled && next.cancelRequested && next.current == job.current
         && next.error == Some("job_cancelled_during_restart") && next.finishedAt == Some(now)
       else if job.maxAttempts <= job.current then
         && next.status == Dead && next.cancelRequested == job.cancelRequested && next.current == job.current
         && next.error == Some("job_attempts_exhausted_after_restart") && next.finishedAt == Some(now)
       else
         && next.status == Queued && !next.cancelRequested && next.current == job.current + 1
         && next.error.None? && next.finishedAt.None?
  }

  /** An attempt that was at work is lost, one not yet dispatched superseded. */
  predicate RestartedAttempt(attempt: Attempt, next: Attempt, now: int) {
    if attempt.status in {Created, AttemptDispatched, Claimed, AttemptRunning} then
      && next.status == (if attempt.status == Created then Superseded else Lost)
      && next.error == Some("application_restart") && next.retryable
      && next.finishedAt == Some(now) && next.updatedAt == now && SameAttempt(attempt, next)
      && next.worker == attempt.worker && next.heartbeatAt == attempt.heartbeatAt
      && next.startedAt == attempt.startedAt && next.createdAt == attempt.createdAt
    else next == attempt
  }

  /** Its event can no longer be claimed by anybody. */
  predicate RestartedEvent(event: Event, next: Event, now: int) {
    if event.status == EventFailed then next == event
    else
      && next.status == EventFailed && next.error == Some("attempt_superseded_on_restart")
      && next.claim.None? && next.owner.None? && next.leaseUntil.None? && next.updatedAt == now
      && next.job == event.job && next.attempt == event.attempt && next.number == event.number
      && next.publishAttempts == event.publishAttempts && next.message == event.message
      && next.nextRetryAt == event.nextRetryAt && next.createdAt == event.createdAt
  }

  ghost predicate Restarted(db: Db, after: Db, j: JobId, now: int)
    requires Extends(db, after) && j < |db.jobs|
  {
    var a := CurrentAttempt(db, j);
    && RestartedJob(db.jobs[j], after.jobs[j], now)
    && RestartedAttempt(db.attempts[a], after.attempts[a], now)
    && RestartedEvent(db.events[a], after.events[a], now)
  }

  lemma SweptRecords(db: Db, now: int, j: JobId)
    requires Closed(db) && Numbered(db) && j < |db.jobs|
    ensures var a, swept := CurrentAttempt(db, j), SweepCurrent(db, now, j);
            && |swept.attempts| == |db.attempts|
            && RestartedAttempt(db.attempts[a], swept.attempts[a], now)
            && RestartedEvent(db.events[a], swept.events[a], now)
  {
    var a := CurrentAttempt(db, j);
    var found := FindEvent(db.events, a);
    assert db.events[a].attempt == a;
  }

  /** One iteration of the recovery loop. */
  lemma RecoverJobRecords(db: Db, now: int, j: JobId)
    requires Closed(db) && Numbered(db) && j < |db.jobs|
    requires Extends(db, RecoverJob(db, now, j).0)
    ensures Restarted(db, RecoverJob(db, now, j).0, j, now)
  {
    var swept := SweepCurrent(db, now, j);
    var a := CurrentAttempt(db, j);
    SweepEffect(db, now, j);
    SweptRecords(db, now, j);
    RequeueEffect(swept, now, j);
    var after := Requeue(swept, now, j).0;
    assert after.attempts[a] == swept.attempts[a] && after.events[a] == swept.events[a];
  }

  lemma RestartedStays(db: Db, mid: Db, after: Db, k: JobId, j: JobId, now: int)
    requires Extends(db, mid) && Extends(mid, after) && Numbered(db) && Numbered(mid)
    requires k < |db.jobs| && j < |db.jobs| && k != j && mid.jobs[j].current == db.jobs[j].current
    requires OnlyJob(mid, after, j) && Restarted(db, mid, k, now)
    ensures Restarted(db, after, k, now)
  {
    var a, c := CurrentAttempt(db, k), CurrentAttempt(mid, j);
    assert (k, db.jobs[k].current) in db.index && (j, db.jobs[j].current) in db.index;
    assert db.attempts[a].job == k && db.attempts[CurrentAttempt(db, j)].job == j;
    assert c == CurrentAttempt(db, j);
    assert after.attempts[a] == mid.attempts[a] && after.events[a] == mid.events[a];
  }

  ghost predicate AllRestarted(db: Db, after: Db, rows: seq<JobId>, now: int) {
    Extends(db, after) && forall j :: j in rows ==> j < |db.jobs| && Restarted(db, after, j, now)
  }

  /** A row the scan has not come to is as it was. */
  lemma NotYetThere(db: Db, mid: Db, rows: seq<JobId>, j: JobId)
    requires Closed(db) && Numbered(db) && j < |db.jobs| && j !in rows && RowsDone(db, mid, rows)
    ensures var a := CurrentAttempt(db, j);
            && mid.jobs[j] == db.jobs[j] && CurrentAttempt(mid, j) == a
            && mid.attempts[a] == db.attempts[a] && mid.events[a] == db.events[a]
  {
    var a := CurrentAttempt(db, j);
    assert (j, db.jobs[j].current) in db.index && db.attempts[a].job == j;
    assert !Swept(db, rows, a);
  }

  lemma RestartedStep(db: Db, mid: Db, after: Db, rows: seq<JobId>, j: JobId, now: int)
    requires Closed(db) && Numbered(db) && Closed(mid) && Numbered(mid) && j < |db.jobs| && j !in rows
    requires AllRestarted(db, mid, rows, now) && Extends(mid, after) && OnlyJob(mid, after, j)
    requires mid.jobs[j] == db.jobs[j] && CurrentAttempt(mid, j) == CurrentAttempt(db, j)
    requires Restarted(db, after, j, now)
    ensures AllRestarted(db, after, rows + [j], now)
  {
    forall k | k in rows ensures Restarted(db, after, k, now) {
      RestartedStays(db, mid, after, k, j, now);
    }
  }

  lemma RestartedNext(db: Db, mid: Db, done: seq<CreatedJob>, now: int, rows: seq<JobId>, j: JobId)
    requires Closed(db) && Numbered(db) && Closed(mid) && Numbered(mid) && j < |db.jobs| && j !in rows
    requires Progress(db, mid, done, rows) && AllRestarted(db, mid, rows, now)
    ensures AllRestarted(db, RecoverJob(mid, now, j).0, rows + [j], now)
  {
    NotYetThere(db, mid, rows, j);
    RecoverJobFrame(mid, now, j);
    RecoverJobRecords(mid, now, j);
    RestartedStep(db, mid, RecoverJob(mid, now, j).0, rows, j, now);
  }

  lemma {:induction false} RowsRestarted(db: Db, now: int, rows: seq<JobId>)
    requires Closed(db) && Numbered(db)
    requires Increasing(rows) && forall x :: 0 <= x < |rows| ==> rows[x] < |db.jobs|
    ensures AllRestarted(db, RecoverJobs(db, now, rows).0, rows, now)
  {
    if |rows| > 0 {
      var before, j := rows[..|rows| - 1], rows[|rows| - 1];
      SplitLast(rows);
      RowsRestarted(db, now, before);
      RecoverJobsEffect(db, now, before);
      RecoverNextJob(db, now, rows, |rows| - 1);
      RestartedNext(db, RecoverJobs(db, now, before).0, RecoverJobs(db, now, before).1, now, before, j);
    }
  }

  /** A restart of any sound database writes exactly this on every job that is not terminal, its
      attempt and its event, and nothing on a terminal one. */
  lemma RestartExact(db: Db, now: int)
    requires Closed(db) && Numbered(db) && ColumnsAgree(db)
    ensures Extends(db, RecoverIncompleteJobs(db, now).0)
    ensures forall j :: 0 <= j < |db.jobs| ==>
              if db.jobs[j].status in {Completed, Partial, Failed, Cancelled, Dead}
              then RecoverIncompleteJobs(db, now).0.jobs[j] == db.jobs[j]
              else Restarted(db, RecoverIncompleteJobs(db, now).0, j, now)
  {
    ScanIsExact(db);
    RowsRestarted(db, now, IncompleteJobs(db.jobColumns));
    TerminalKept(db, now);
    EachByStatus(db, RecoverIncompleteJobs(db, now).0, IncompleteJobs(db.jobColumns), now);
  }

  lemma EachByStatus(db: Db, after: Db, rows: seq<JobId>, now: int)
    requires AllRestarted(db, after, rows, now)
    requires forall j :: 0 <= j < |db.jobs| ==> (j in rows <==> !TerminalJob(db.jobs[j].status))
    requires forall j :: 0 <= j < |db.jobs| && TerminalJob(db.jobs[j].status) ==> after.jobs[j] == db.jobs[j]
    ensures forall j :: 0 <= j < |db.jobs| ==>
              if db.jobs[j].status in {Completed, Partial, Failed, Cancelled, Dead} then after.jobs[j] == db.jobs[j]
              else Restarted(db, after, j, now)
  {
  }

  lemma TerminalKept(db: Db, now: int)
    requires Closed(db) && Numbered(db) && ColumnsAgree(db)
    ensures forall j :: 0 <= j < |db.jobs| && TerminalJob(db.jobs[j].status) ==>
              RecoverIncompleteJobs(db, now).0.jobs[j] == db.jobs[j]
  {
    RecoveryTheorem(db, now);
  }
}
