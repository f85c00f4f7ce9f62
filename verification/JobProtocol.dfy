/**
 Jobs against attempts. The completion call overwrites the job status without
 consulting the job transition table, so its safety rests on a coupling between the
 status of a job and the statuses of its attempts that every backend call keeps.
 */
module JobProtocol {
  import opened Wrappers
  import opened ControlPlaneSchemas
  import opened ControlPlaneStore
  import opened ControlPlaneRuns
  import opened Recovery

  /** The statuses an attempt can have when a job moved on without its result. */
  predicate GivenUp(s: AttemptStatus) {
    s.FailedRetryable? || s.Lost? || s.Superseded?
  }

  predicate Coupling(job: JobStatus, current: AttemptStatus) {
    match job
    case Queued => LiveAttempt(current)
    case Dispatching => LiveAttempt(current)
    case Dispatched => LiveAttempt(current)
    case Running => LiveAttempt(current)
    case RetryWait => current.FailedRetryable? || current.Lost?
    case Cancelling => LiveAttempt(current) || current.FailedRetryable? || current.Lost?
    case Completed => current.Succeeded?
    case Failed => current.FailedTerminal?
    case Cancelled => current.AttemptCancelled? || GivenUp(current)
    case Dead => GivenUp(current)
    case Partial => false
  }

  /** How an attempt fits its job: the current attempt is coupled to the job status,
      every earlier attempt was given up. */
  predicate Fits(job: Job, attempt: Attempt) {
    if attempt.number == job.current then Coupling(job.status, attempt.status)
    else GivenUp(attempt.status)
  }

  ghost predicate Coupled(db: Db)
    requires Closed(db)
  {
    forall a :: 0 <= a < |db.attempts| ==> Fits(db.jobs[db.attempts[a].job], db.attempts[a])
  }

  /** The coupling of every attempt except the current one of job j, which a call
      may break between two statements. */
  ghost predicate CoupledBut(db: Db, j: JobId)
    requires Closed(db)
  {
    forall a :: 0 <= a < |db.attempts| ==>
      (db.attempts[a].job == j && db.attempts[a].number == db.jobs[j].current)
      || Fits(db.jobs[db.attempts[a].job], db.attempts[a])
  }

  // ------------------------------------------------- statements keep the coupling

  function Current(db: Db, j: JobId): Attempt
    requires Closed(db) && j < |db.jobs|
  {
    db.attempts[CurrentAttempt(db, j)]
  }

  lemma PutJobCoupled(db: Db, j: JobId, job: Job)
    requires Closed(db) && Numbered(db) && j < |db.jobs| && CoupledBut(db, j)
    requires job.current == db.jobs[j].current && Coupling(job.status, Current(db, j).status)
    ensures Coupled(PutJob(db, j, job))
  {
  }

  lemma PutAttemptCoupled(db: Db, a: AttemptId, attempt: Attempt)
    requires Closed(db) && Coupled(db) && a < |db.attempts|
    requires attempt.job == db.attempts[a].job && attempt.number == db.attempts[a].number
    ensures Fits(db.jobs[attempt.job], attempt) ==> Coupled(PutAttempt(db, a, attempt))
    ensures attempt.number == db.jobs[attempt.job].current ==> CoupledBut(PutAttempt(db, a, attempt), attempt.job)
  {
  }

  /** A job moves to a fresh attempt once its current attempt is given up. */
  lemma NextAttemptCoupled(db: Db, j: JobId, job: Job, now: int)
    requires Closed(db) && Numbered(db) && j < |db.jobs| && CoupledBut(db, j)
    requires job.current == db.jobs[j].current + 1 && job.status == Queued
    requires GivenUp(Current(db, j).status)
    ensures Coupled(PutJob(InsertAttempt(db, j, job.current, now), j, job))
  {
    var after := PutJob(InsertAttempt(db, j, job.current, now), j, job);
    assert forall a :: 0 <= a < |db.attempts| ==> after.attempts[a] == db.attempts[a];
  }

  // ------------------------------------------------------ calls keep the coupling

  lemma CreateJobCoupled(db: Db, now: int, w: string, key: Key, request: string, retryOf: Option<JobId>, max: int)
    requires Closed(db) && Coupled(db)
    ensures Coupled(CreateJob(db, now, w, key, request, retryOf, max).db)
  {
    var after := CreateJob(db, now, w, key, request, retryOf, max).db;
    assert forall a :: 0 <= a < |db.attempts| ==> after.attempts[a] == db.attempts[a];
  }

  lemma CreateRetryAttemptCoupled(db: Db, now: int, j: JobId)
    requires Closed(db) && Numbered(db) && Coupled(db)
    ensures Coupled(CreateRetryAttempt(db, now, j).db)
  {
    if j < |db.jobs| && db.jobs[j].status == RetryWait {
      var after := CreateRetryAttempt(db, now, j).db;
      assert Fits(db.jobs[j], Current(db, j));
      if db.jobs[j].current >= db.jobs[j].maxAttempts {
        PutJobCoupled(db, j, after.jobs[j]);
        assert after == PutJob(db, j, after.jobs[j]);
      } else {
        NextAttemptCoupled(db, j, after.jobs[j], now);
        assert after == PutJob(InsertAttempt(db, j, after.jobs[j].current, now), j, after.jobs[j]);
      }
    }
  }

  /** A transition of the job alone keeps the coupling exactly when the new status
      suits the current attempt as it stands. */
  lemma TransitionJobCoupledIff(db: Db, now: int, j: JobId, target: JobStatus, error: Option<string>,
                                revision: Option<nat>)
    requires Closed(db) && Numbered(db) && Coupled(db) && j < |db.jobs|
    ensures var o := TransitionJob(db, now, j, target, error, revision);
            o.result.Ok? ==> (Coupled(o.db) <==> Coupling(target, Current(db, j).status))
  {
    var o := TransitionJob(db, now, j, target, error, revision);
    if o.result.Ok? {
      var a := CurrentAttempt(db, j);
      assert o.db == PutJob(db, j, o.db.jobs[j]);
      if Coupling(target, Current(db, j).status) {
        PutJobCoupled(db, j, o.db.jobs[j]);
      } else {
        assert !Fits(o.db.jobs[j], o.db.attempts[a]);
      }
    }
  }

  lemma JobStatusCallsCoupled(db: Db, t: Timed)
    requires Closed(db) && Numbered(db) && Coupled(db) && BackendCall(t.call)
    requires t.call.CallTransitionJob? || t.call.CallRequestCancel?
    ensures Coupled(Apply(db, t))
  {
    var after := Apply(db, t);
    var j := t.call.job;
    if after != db {
      assert Fits(db.jobs[j], Current(db, j));
      PutJobCoupled(db, j, after.jobs[j]);
      assert after == PutJob(db, j, after.jobs[j]);
    }
  }

  lemma AttemptCallsCoupled(db: Db, t: Timed)
    requires Closed(db) && Numbered(db) && Coupled(db) && BackendCall(t.call)
    requires t.call.CallTransitionAttempt? || t.call.CallHeartbeatAttempt?
    ensures Coupled(Apply(db, t))
  {
    var after := Apply(db, t);
    var a := t.call.attempt;
    if after != db {
      assert Fits(db.jobs[db.attempts[a].job], db.attempts[a]);
      PutAttemptCoupled(db, a, after.attempts[a]);
      assert after == PutAttempt(db, a, after.attempts[a]);
    }
  }

  lemma CompleteAttemptCoupled(db: Db, t: Timed)
    requires Closed(db) && Numbered(db) && Coupled(db) && t.call.CallCompleteAttempt?
    ensures Coupled(Apply(db, t))
  {
    var after := Apply(db, t);
    var a := t.call.attempt;
    if after != db {
      var j := db.attempts[a].job;
      var finished := PutAttempt(db, a, after.attempts[a]);
      PutAttemptCoupled(db, a, after.attempts[a]);
      PutJobCoupled(finished, j, after.jobs[j]);
      assert after == PutJob(finished, j, after.jobs[j]);
    }
  }

  /** Sweeping touches the current attempt of one job, and leaves it given up
      unless it had already finished. */
  lemma SweepCoupled(db: Db, now: int, j: JobId)
    requires Closed(db) && Numbered(db) && Coupled(db) && j < |db.jobs|
    ensures var swept := SweepCurrent(db, now, j);
            && Numbered(swept) && CoupledBut(swept, j) && swept.jobs == db.jobs
            && Current(swept, j).status
               == (match Current(db, j).status
                   case Created => Superseded
                   case AttemptDispatched => Lost
                   case Claimed => Lost
                   case AttemptRunning => Lost
                   case other => other)
  {
    PutAttemptCoupled(db, CurrentAttempt(db, j), SweepAttempt(Current(db, j), now));
  }

  lemma RecoverJobCoupled(db: Db, now: int, j: JobId)
    requires Closed(db) && Numbered(db) && Coupled(db) && j < |db.jobs|
    requires !TerminalJob(db.jobs[j].status)
    ensures Coupled(RecoverJob(db, now, j).0)
  {
    var swept := SweepCurrent(db, now, j);
    SweepCoupled(db, now, j);
    assert Fits(db.jobs[j], Current(db, j));
    var next := RecoveredJob(db.jobs[j], now);
    if Requeues(db.jobs[j]) {
      NextAttemptCoupled(swept, j, next, now);
      assert Requeue(swept, now, j).0 == PutJob(InsertAttempt(swept, j, next.current, now), j, next);
    } else {
      PutJobCoupled(swept, j, next);
      assert Requeue(swept, now, j).0 == PutJob(swept, j, next);
    }
  }

  lemma {:induction false} RecoverJobsCoupled(db: Db, now: int, rows: seq<JobId>)
    requires Closed(db) && Numbered(db) && Coupled(db)
    requires Increasing(rows)
    requires forall x :: 0 <= x < |rows| ==> rows[x] < |db.jobs| && !TerminalJob(db.jobs[rows[x]].status)
    ensures Coupled(RecoverJobs(db, now, rows).0)
  {
    if |rows| > 0 {
      var before, j := rows[..|rows| - 1], rows[|rows| - 1];
      SplitLast(rows);
      RecoverJobsCoupled(db, now, before);
      RecoverJobsEffect(db, now, before);
      RecoverJobCoupled(RecoverJobs(db, now, before).0, now, j);
      RecoverNextJob(db, now, rows, |rows| - 1);
    }
  }

  lemma RecoverCoupled(db: Db, now: int)
    requires Closed(db) && Numbered(db) && ColumnsAgree(db) && Coupled(db)
    ensures Coupled(RecoverIncompleteJobs(db, now).0)
  {
    ScanIsExact(db);
    RecoverJobsCoupled(db, now, IncompleteJobs(db.jobColumns));
  }

  lemma {:induction false} ClaimEventsKeepJobs(db: Db, now: int, owner: string, leaseSeconds: int, rows: seq<EventId>)
    requires Closed(db) && forall x :: 0 <= x < |rows| ==> rows[x] < |db.events|
    ensures var after := ClaimEvents(db, now, owner, leaseSeconds, rows).0;
            after == db.(events := after.events, eventColumns := after.eventColumns, nextSecret := after.nextSecret)
  {
    if |rows| > 0 {
      ClaimEventsKeepJobs(db, now, owner, leaseSeconds, rows[..|rows| - 1]);
    }
  }

  predicate OutboxCall(call: Call) {
    call.CallClaimOutbox? || call.CallMarkPublished? || call.CallMarkPublishFailed? || call.CallMarkConsumedLocal?
  }

  /** The outbox calls write nothing but events. */
  lemma OutboxCallsKeepJobs(db: Db, t: Timed)
    requires Closed(db) && OutboxCall(t.call)
    ensures var after := Apply(db, t);
            after == db.(events := after.events, eventColumns := after.eventColumns, nextSecret := after.nextSecret)
  {
    if t.call.CallClaimOutbox? {
      ClaimEventsKeepJobs(db, t.now, t.call.owner, t.call.leaseSeconds,
                          ClaimableEvents(db.eventColumns, t.now, 0, t.call.batchSize));
    }
  }

  lemma ApplyCoupled(db: Db, t: Timed)
    requires Closed(db) && Numbered(db) && ColumnsAgree(db) && Coupled(db) && BackendCall(t.call)
    ensures Coupled(Apply(db, t))
  {
    match t.call
    case CallCreateJob(w, k, r, m) => CreateJobCoupled(db, t.now, w, ClientKey(k), r, None, m);
    case CallCreateRetryAttempt(j) => CreateRetryAttemptCoupled(db, t.now, j);
    case CallCreateManualRetry(j) => ManualRetryCoupled(db, t.now, j);
    case CallTransitionJob(_, _, _, _) => JobStatusCallsCoupled(db, t);
    case CallRequestCancel(_) => JobStatusCallsCoupled(db, t);
    case CallTransitionAttempt(_, _, _, _) => AttemptCallsCoupled(db, t);
    case CallHeartbeatAttempt(_, _) => AttemptCallsCoupled(db, t);
    case CallCompleteAttempt(_, _, _, _, _) => CompleteAttemptCoupled(db, t);
    case CallRecover => RecoverCoupled(db, t.now);
    case CallClaimOutbox(_, _, _) => OutboxCallsKeepJobs(db, t);
    case CallMarkPublished(_, _, _) => OutboxCallsKeepJobs(db, t);
    case CallMarkPublishFailed(_, _, _, _) => OutboxCallsKeepJobs(db, t);
    case CallMarkConsumedLocal(_) => OutboxCallsKeepJobs(db, t);
  }

  lemma ManualRetryCoupled(db: Db, now: int, j: JobId)
    requires Closed(db) && Coupled(db)
    ensures Coupled(CreateManualRetry(db, now, j).db)
  {
    if j < |db.jobs| && TerminalJob(db.jobs[j].status) {
      var job := db.jobs[j];
      ManualRetryIsCreate(db, now, j);
      CreateJobCoupled(db.(nextSecret := db.nextSecret + 1), now, job.workspace,
                       ManualRetryKey(j, db.nextSecret), job.request, Some(j), job.maxAttempts);
    }
  }

  /** Every run of the backends keeps jobs coupled to their attempts. */
  lemma {:induction false} RunCoupled(db: Db, trace: seq<Timed>)
    requires Sound(db) && Coupled(db) && BackendRun(trace)
    ensures Sound(Run(db, trace)) && Coupled(Run(db, trace))
    decreases |trace|
  {
    if trace != [] {
      ApplySound(db, trace[0]);
      ApplyCoupled(db, trace[0]);
      RunCoupled(Apply(db, trace[0]), trace[1..]);
    }
  }

  lemma EmptyIsCoupled()
    ensures Sound(EmptyDb) && Coupled(EmptyDb)
  {
  }
}
