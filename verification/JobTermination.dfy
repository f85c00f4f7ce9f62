/** Every job stops changing: a bound on its state changes that no backend run exceeds. */
module JobTermination {
  import opened Wrappers
  import opened ControlPlaneSchemas
  import opened ControlPlaneStore
  import opened ControlPlaneRuns
  import opened Recovery
  import opened JobProtocol
  import opened JobTheorems

  function AttemptRank(s: AttemptStatus): nat {
    match s
    case Created => 4
    case AttemptDispatched => 3
    case Claimed => 2
    case AttemptRunning => 1
    case _ => 0
  }

  // Cancelling ranks below RetryWait; the way back from Cancelling to RetryWait is
  // paid for by the attempt that finishes.
  function JobRank(s: JobStatus): nat {
    match s
    case Queued => 6
    case Dispatching => 5
    case Dispatched => 4
    case Running => 3
    case RetryWait => 2
    case Cancelling => 1
    case _ => 0
  }

  /** Attempts left, then the rank of the current attempt, then the rank of the job. */
  function Measure(db: Db, j: JobId): int
    requires Closed(db) && j < |db.jobs|
  {
    (db.jobs[j].maxAttempts - db.jobs[j].current) * 35
    + AttemptRank(Current(db, j).status) * 7 + JobRank(db.jobs[j].status)
  }

  /** The protocol state of a job. */
  function View(db: Db, j: JobId): (JobStatus, nat, AttemptStatus)
    requires Closed(db) && j < |db.jobs|
  {
    (db.jobs[j].status, db.jobs[j].current, Current(db, j).status)
  }

  ghost predicate Descends(db: Db, after: Db, j: JobId)
    requires Closed(db) && Closed(after) && j < |db.jobs| && j < |after.jobs|
  {
    after.jobs[j].maxAttempts == db.jobs[j].maxAttempts
    && if View(after, j) == View(db, j) then Measure(after, j) == Measure(db, j)
       else Measure(after, j) < Measure(db, j)
  }

  lemma RecoveredDescends(db: Db, after: Db, j: JobId)
    requires Extends(db, after) && j < |db.jobs|
    requires db.jobs[j].current <= db.jobs[j].maxAttempts && !TerminalJob(db.jobs[j].status)
    requires after.jobs[j].current == db.jobs[j].current ==> CurrentAttempt(after, j) == CurrentAttempt(db, j)
    requires Recovered(db, after, j)
    ensures Descends(db, after, j)
  {
  }

  lemma UntouchedDescends(db: Db, after: Db, j: JobId)
    requires Extends(db, after) && j < |db.jobs|
    requires after.jobs[j] == db.jobs[j] && Current(after, j) == Current(db, j)
    ensures Descends(db, after, j)
  {
  }

  lemma RecoverDescends(db: Db, now: int, j: JobId)
    requires Closed(db) && Numbered(db) && ColumnsAgree(db) && j < |db.jobs|
    ensures Descends(db, RecoverIncompleteJobs(db, now).0, j)
  {
    RecoveryTheorem(db, now);
    RowsDoneDescend(db, RecoverIncompleteJobs(db, now).0, IncompleteJobs(db.jobColumns), j);
  }

  lemma RowsDoneDescend(db: Db, after: Db, rows: seq<JobId>, j: JobId)
    requires Closed(db) && Numbered(db) && RowsDone(db, after, rows) && j < |db.jobs|
    requires j in rows ==> !TerminalJob(db.jobs[j].status)
    ensures Descends(db, after, j)
  {
    var a := CurrentAttempt(db, j);
    assert (j, db.jobs[j].current) in db.index && db.attempts[a].job == j;
    if j in rows {
      assert after.index[(j, db.jobs[j].current)] == a;
      RecoveredDescends(db, after, j);
    } else {
      assert !Swept(db, rows, a);
      UntouchedDescends(db, after, j);
    }
  }

  lemma TransitionsDescend(s: JobStatus, target: JobStatus)
    requires target in JobTransitions(s)
    requires target.Dispatching? || target.Dispatched? || target.Running? || target.Cancelling?
    ensures JobRank(target) < JobRank(s)
  {
  }

  lemma StatusDescends(db: Db, j: JobId, job: Job, k: JobId)
    requires Closed(db) && j < |db.jobs| && k < |db.jobs|
    requires job.current == db.jobs[k].current && job.maxAttempts == db.jobs[k].maxAttempts
    requires JobRank(job.status) < JobRank(db.jobs[k].status)
    ensures Descends(db, PutJob(db, k, job), j)
  {
  }

  lemma JobCallDescends(db: Db, t: Timed, j: JobId)
    requires Closed(db) && j < |db.jobs| && BackendCall(t.call)
    requires t.call.CallTransitionJob? || t.call.CallRequestCancel?
    ensures j < |Apply(db, t).jobs| && Descends(db, Apply(db, t), j)
  {
    var after, k := Apply(db, t), t.call.job;
    if after != db {
      TransitionsDescend(db.jobs[k].status, after.jobs[k].status);
      StatusDescends(db, j, after.jobs[k], k);
      assert after == PutJob(db, k, after.jobs[k]);
    }
  }

  lemma AttemptCallDescends(db: Db, t: Timed, j: JobId)
    requires Closed(db) && Numbered(db) && j < |db.jobs| && BackendCall(t.call)
    requires t.call.CallTransitionAttempt? || t.call.CallHeartbeatAttempt?
    ensures j < |Apply(db, t).jobs| && Descends(db, Apply(db, t), j)
  {
    var after := Apply(db, t);
    assert after.jobs == db.jobs && after.index == db.index;
  }

  lemma CompleteDescends(db: Db, t: Timed, j: JobId)
    requires Closed(db) && Numbered(db) && j < |db.jobs| && t.call.CallCompleteAttempt?
    ensures j < |Apply(db, t).jobs| && Descends(db, Apply(db, t), j)
  {
  }

  lemma CreateJobDescends(db: Db, now: int, w: string, key: Key, request: string, retryOf: Option<JobId>,
                          max: int, j: JobId)
    requires Closed(db) && j < |db.jobs|
    ensures var after := CreateJob(db, now, w, key, request, retryOf, max).db;
            j < |after.jobs| && Descends(db, after, j)
  {
  }

  lemma RetryAttemptDescends(db: Db, now: int, k: JobId, j: JobId)
    requires Closed(db) && Numbered(db) && j < |db.jobs|
    ensures var after := CreateRetryAttempt(db, now, k).db;
            j < |after.jobs| && Descends(db, after, j)
  {
  }

  lemma ManualRetryDescends(db: Db, now: int, k: JobId, j: JobId)
    requires Closed(db) && j < |db.jobs|
    ensures var after := CreateManualRetry(db, now, k).db;
            j < |after.jobs| && Descends(db, after, j)
  {
    if k < |db.jobs| && TerminalJob(db.jobs[k].status) {
      ManualRetryIsCreate(db, now, k);
      var drawn := db.(nextSecret := db.nextSecret + 1);
      var job := db.jobs[k];
      CreateJobDescends(drawn, now, job.workspace, ManualRetryKey(k, db.nextSecret), job.request,
                        Some(k), job.maxAttempts, j);
      assert Measure(drawn, j) == Measure(db, j) && View(drawn, j) == View(db, j);
    }
  }

  lemma OutboxCallDescends(db: Db, t: Timed, j: JobId)
    requires Closed(db) && j < |db.jobs| && OutboxCall(t.call)
    ensures j < |Apply(db, t).jobs| && Descends(db, Apply(db, t), j)
  {
    OutboxCallsKeepJobs(db, t);
  }

  lemma CallDescends(db: Db, t: Timed, j: JobId)
    requires Closed(db) && Numbered(db) && ColumnsAgree(db) && j < |db.jobs| && BackendCall(t.call)
    ensures j < |Apply(db, t).jobs| && Descends(db, Apply(db, t), j)
  {
    match t.call
    case CallRecover => RecoverDescends(db, t.now, j);
    case CallCreateJob(w, k, r, m) => CreateJobDescends(db, t.now, w, ClientKey(k), r, None, m, j);
    case CallCreateManualRetry(k) => ManualRetryDescends(db, t.now, k, j);
    case CallCreateRetryAttempt(k) => RetryAttemptDescends(db, t.now, k, j);
    case CallTransitionJob(_, _, _, _) => JobCallDescends(db, t, j);
    case CallRequestCancel(_) => JobCallDescends(db, t, j);
    case CallTransitionAttempt(_, _, _, _) => AttemptCallDescends(db, t, j);
    case CallHeartbeatAttempt(_, _) => AttemptCallDescends(db, t, j);
    case CallCompleteAttempt(_, _, _, _, _) => CompleteDescends(db, t, j);
    case CallClaimOutbox(_, _, _) => OutboxCallDescends(db, t, j);
    case CallMarkPublished(_, _, _) => OutboxCallDescends(db, t, j);
    case CallMarkPublishFailed(_, _, _, _) => OutboxCallDescends(db, t, j);
    case CallMarkConsumedLocal(_) => OutboxCallDescends(db, t, j);
  }

  /** The number of calls of the run that change the protocol state of job j. */
  function Changes(db: Db, trace: seq<Timed>, j: JobId): nat
    requires Closed(db) && j < |db.jobs|
    decreases |trace|
  {
    if trace == [] then 0
    else
      var next := Apply(db, trace[0]);
      if j >= |next.jobs| then 0
      else (if View(next, j) != View(db, j) then 1 else 0) + Changes(next, trace[1..], j)
  }

  lemma {:induction false} ChangesBounded(db: Db, trace: seq<Timed>, j: JobId)
    requires Sound(db) && j < |db.jobs| && BackendRun(trace)
    ensures Changes(db, trace, j) <= Measure(db, j)
    decreases |trace|
  {
    MeasureBounded(db, j);
    if trace != [] {
      CallDescends(db, trace[0], j);
      ApplySound(db, trace[0]);
      ChangesBounded(Apply(db, trace[0]), trace[1..], j);
    }
  }

  lemma MeasureBounded(db: Db, j: JobId)
    requires Closed(db) && Numbered(db) && j < |db.jobs|
    ensures 0 <= Measure(db, j) < 35 * db.jobs[j].maxAttempts
  {
  }

  /** Termination: however long the run and however its calls interleave, a job changes
      its protocol state fewer than 35 times per allowed attempt. */
  lemma JobsTerminate(db: Db, trace: seq<Timed>, j: JobId)
    requires Sound(db) && j < |db.jobs| && BackendRun(trace)
    ensures Changes(db, trace, j) < 35 * db.jobs[j].maxAttempts
  {
    ChangesBounded(db, trace, j);
    MeasureBounded(db, j);
  }
}
