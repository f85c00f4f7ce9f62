/** Safety and termination of jobs over whole runs. */
module JobTheorems {
  import opened Wrappers
  import opened ControlPlaneSchemas
  import opened ControlPlaneStore
  import opened ControlPlaneRuns
  import opened Recovery
  import opened JobProtocol

  // ------------------------------------------------------------ what a call keeps

  /** No call removes a job, lowers its attempt number, or rewrites it under the same revision. */
  ghost predicate JobKept(db: Db, after: Db, j: JobId)
    requires j < |db.jobs|
  {
    && j < |after.jobs|
    && after.jobs[j].maxAttempts == db.jobs[j].maxAttempts
    && db.jobs[j].current <= after.jobs[j].current
    && (after.jobs[j] == db.jobs[j] || after.jobs[j].revision == db.jobs[j].revision + 1)
  }

  /** No call moves an attempt to another job, number or token, or writes a finished one. */
  ghost predicate AttemptKept(db: Db, after: Db, a: AttemptId)
    requires a < |db.attempts|
  {
    && a < |after.attempts|
    && SameAttempt(db.attempts[a], after.attempts[a])
    && (!LiveAttempt(db.attempts[a].status) ==> after.attempts[a] == db.attempts[a])
  }

  ghost predicate Kept(db: Db, after: Db) {
    && (forall j :: 0 <= j < |db.jobs| ==> JobKept(db, after, j))
    && (forall a :: 0 <= a < |db.attempts| ==> AttemptKept(db, after, a))
  }

  lemma RecoverKeeps(db: Db, now: int)
    requires Closed(db) && Numbered(db) && ColumnsAgree(db)
    ensures Kept(db, RecoverIncompleteJobs(db, now).0)
    ensures forall j :: 0 <= j < |db.jobs| && TerminalJob(db.jobs[j].status) ==>
              RecoverIncompleteJobs(db, now).0.jobs[j] == db.jobs[j]
  {
    RecoveryTheorem(db, now);
    var after, rows := RecoverIncompleteJobs(db, now).0, IncompleteJobs(db.jobColumns);
    forall j | 0 <= j < |db.jobs| ensures JobKept(db, after, j) {
      assert j in rows ==> Recovered(db, after, j);
    }
    forall a | 0 <= a < |db.attempts| ensures AttemptKept(db, after, a) {
      if Swept(db, rows, a) {
        assert Recovered(db, after, db.attempts[a].job);
        assert (db.attempts[a].job, db.attempts[a].number) in db.index;
      }
    }
  }

  lemma CreateJobKeeps(db: Db, now: int, w: string, key: Key, request: string, retryOf: Option<JobId>, max: int)
    requires Closed(db)
    ensures Kept(db, CreateJob(db, now, w, key, request, retryOf, max).db)
  {
  }

  lemma ManualRetryKeeps(db: Db, now: int, j: JobId)
    requires Closed(db)
    ensures Kept(db, CreateManualRetry(db, now, j).db)
  {
    if j < |db.jobs| && TerminalJob(db.jobs[j].status) {
      var job := db.jobs[j];
      ManualRetryIsCreate(db, now, j);
      CreateJobKeeps(db.(nextSecret := db.nextSecret + 1), now, job.workspace,
                     ManualRetryKey(j, db.nextSecret), job.request, Some(j), job.maxAttempts);
    }
  }

  lemma RetryAttemptKeeps(db: Db, now: int, j: JobId)
    requires Closed(db)
    ensures Kept(db, CreateRetryAttempt(db, now, j).db)
  {
  }

  lemma JobCallsKeep(db: Db, t: Timed)
    requires Closed(db) && (t.call.CallTransitionJob? || t.call.CallRequestCancel?)
    ensures Kept(db, Apply(db, t))
  {
  }

  lemma AttemptCallsKeep(db: Db, t: Timed)
    requires Closed(db) && (t.call.CallTransitionAttempt? || t.call.CallHeartbeatAttempt?)
    ensures Kept(db, Apply(db, t))
  {
  }

  lemma CompletionKeeps(db: Db, t: Timed)
    requires Closed(db) && t.call.CallCompleteAttempt?
    ensures Kept(db, Apply(db, t))
  {
  }

  lemma StatusCallsKeep(db: Db, t: Timed)
    requires Closed(db)
    requires t.call.CallTransitionJob? || t.call.CallRequestCancel? || t.call.CallTransitionAttempt?
             || t.call.CallHeartbeatAttempt? || t.call.CallCompleteAttempt?
    ensures Kept(db, Apply(db, t))
  {
    if t.call.CallCompleteAttempt? {
      CompletionKeeps(db, t);
    } else if t.call.CallTransitionJob? || t.call.CallRequestCancel? {
      JobCallsKeep(db, t);
    } else {
      AttemptCallsKeep(db, t);
    }
  }

  lemma OutboxCallsKeep(db: Db, t: Timed)
    requires Closed(db) && OutboxCall(t.call)
    ensures Kept(db, Apply(db, t))
  {
    OutboxCallsKeepJobs(db, t);
  }

  lemma CreateCallsKeep(db: Db, t: Timed)
    requires Closed(db)
    requires t.call.CallCreateJob? || t.call.CallCreateManualRetry? || t.call.CallCreateRetryAttempt?
    ensures Kept(db, Apply(db, t))
  {
    match t.call
    case CallCreateJob(w, k, r, m) => CreateJobKeeps(db, t.now, w, ClientKey(k), r, None, m);
    case CallCreateManualRetry(j) => ManualRetryKeeps(db, t.now, j);
    case CallCreateRetryAttempt(j) => RetryAttemptKeeps(db, t.now, j);
  }

  lemma CallKeeps(db: Db, t: Timed)
    requires Closed(db) && Numbered(db) && ColumnsAgree(db)
    ensures Kept(db, Apply(db, t))
  {
    if OutboxCall(t.call) {
      OutboxCallsKeep(db, t);
    } else if t.call.CallRecover? {
      RecoverKeeps(db, t.now);
    } else if t.call.CallCreateJob? || t.call.CallCreateManualRetry? || t.call.CallCreateRetryAttempt? {
      CreateCallsKeep(db, t);
    } else {
      StatusCallsKeep(db, t);
    }
  }

  /** Over any run a job with the same revision is the same job, so the expected-revision
      check detects every change in between; and a finished attempt is never written. */
  lemma {:induction false} RunKeeps(db: Db, trace: seq<Timed>, j: JobId, a: AttemptId)
    requires Sound(db) && j < |db.jobs| && a < |db.attempts|
    ensures AttemptKept(db, Run(db, trace), a)
    ensures var after := Run(db, trace);
            && j < |after.jobs| && after.jobs[j].maxAttempts == db.jobs[j].maxAttempts
            && db.jobs[j].current <= after.jobs[j].current
            && db.jobs[j].revision <= after.jobs[j].revision
            && (after.jobs[j].revision == db.jobs[j].revision ==> after.jobs[j] == db.jobs[j])
    decreases |trace|
  {
    if trace != [] {
      var next := Apply(db, trace[0]);
      CallKeeps(db, trace[0]);
      ApplySound(db, trace[0]);
      assert JobKept(db, next, j) && AttemptKept(db, next, a);
      RunKeeps(next, trace[1..], j, a);
    }
  }

  // ------------------------------------------------------------------ fencing

  /** Fencing: once an attempt has finished, whether completed or swept by a restart,
      no later call in any run is accepted for it, whoever holds its token. */
  lemma Fenced(db: Db, trace: seq<Timed>, a: AttemptId, now: int, token: Secret, to: AttemptStatus,
               worker: Option<string>, error: Option<string>, results: seq<string>)
    requires Sound(db) && a < |db.attempts| && !LiveAttempt(db.attempts[a].status)
    ensures var later := Run(db, trace);
            && TransitionAttempt(later, now, a, token, to, worker).result.Err?
            && TransitionAttempt(later, now, a, token, to, worker).db == later
            && HeartbeatAttempt(later, now, a, token).result.Err?
            && HeartbeatAttempt(later, now, a, token).db == later
            && CompleteAttempt(later, now, a, token, to, error, results).result.Err?
            && CompleteAttempt(later, now, a, token, to, error, results).db == later
  {
    RunKeeps(db, trace, db.attempts[a].job, a);
  }

  /** An attempt that was retried over can never complete, even while it is still live. */
  lemma RetriedOverIsLate(db: Db, trace: seq<Timed>, a: AttemptId, now: int, token: Secret,
                          status: AttemptStatus, error: Option<string>, results: seq<string>)
    requires Sound(db) && a < |db.attempts| && db.attempts[a].number < db.jobs[db.attempts[a].job].current
    ensures var o := CompleteAttempt(Run(db, trace), now, a, token, status, error, results);
            o.db == Run(db, trace) && o.result.Err?
  {
    RunKeeps(db, trace, db.attempts[a].job, a);
  }

  /** A caller without the token of an attempt changes nothing through it. */
  lemma WrongTokenRejected(db: Db, now: int, a: AttemptId, token: Secret, to: AttemptStatus,
                           worker: Option<string>, error: Option<string>, results: seq<string>)
    requires Closed(db) && a < |db.attempts| && db.attempts[a].token != Sha256(token)
    ensures TransitionAttempt(db, now, a, token, to, worker) == Outcome(db, Err(StaleExecutionToken))
    ensures HeartbeatAttempt(db, now, a, token) == Outcome(db, Err(StaleExecutionToken))
    ensures var o := CompleteAttempt(db, now, a, token, to, error, results);
            o.db == db && o.result.Err?
  {
  }

  /** An accepted completion of attempt a. */
  predicate Completes(db: Db, t: Timed, a: AttemptId)
    requires Closed(db)
  {
    t.call.CallCompleteAttempt? && t.call.attempt == a
    && CompleteAttempt(db, t.now, a, t.call.token, t.call.status, t.call.error, t.call.results).result.Ok?
  }

  function Completions(db: Db, trace: seq<Timed>, a: AttemptId): nat
    requires Closed(db)
    decreases |trace|
  {
    if trace == [] then 0
    else (if Completes(db, trace[0], a) then 1 else 0) + Completions(Apply(db, trace[0]), trace[1..], a)
  }

  lemma CompletionFinishes(db: Db, t: Timed, a: AttemptId)
    requires Closed(db)
    ensures a < |db.attempts| && !LiveAttempt(db.attempts[a].status) ==> !Completes(db, t, a)
    ensures Completes(db, t, a) ==> a < |Apply(db, t).attempts| && !LiveAttempt(Apply(db, t).attempts[a].status)
  {
  }

  /** Each attempt publishes at most one result in any run, and none once it has finished. */
  lemma {:induction false} AtMostOneResult(db: Db, trace: seq<Timed>, a: AttemptId)
    requires Sound(db)
    ensures Completions(db, trace, a) <= 1
    ensures a < |db.attempts| && !LiveAttempt(db.attempts[a].status) ==> Completions(db, trace, a) == 0
    decreases |trace|
  {
    if trace != [] {
      var next := Apply(db, trace[0]);
      CompletionFinishes(db, trace[0], a);
      CallKeeps(db, trace[0]);
      ApplySound(db, trace[0]);
      if a < |db.attempts| {
        assert AttemptKept(db, next, a);
      }
      AtMostOneResult(next, trace[1..], a);
    }
  }

  // -------------------------------------------------------- terminal is terminal

  /** No backend call changes a terminal job. */
  lemma TerminalStays(db: Db, t: Timed, j: JobId)
    requires Closed(db) && Numbered(db) && ColumnsAgree(db) && Coupled(db) && BackendCall(t.call)
    requires j < |db.jobs| && TerminalJob(db.jobs[j].status)
    ensures j < |Apply(db, t).jobs| && Apply(db, t).jobs[j] == db.jobs[j]
  {
    match t.call
    case CallRecover => RecoverKeeps(db, t.now);
    case CallCompleteAttempt(a, _, _, _, _) => CompletionKeepsTerminal(db, t, j);
    case CallCreateManualRetry(k) => ManualRetryAppends(db, t.now, k);
    case _ => OtherCallsKeepTerminal(db, t, j);
  }

  lemma CompletionKeepsTerminal(db: Db, t: Timed, j: JobId)
    requires Closed(db) && Coupled(db) && t.call.CallCompleteAttempt?
    requires j < |db.jobs| && TerminalJob(db.jobs[j].status)
    ensures j < |Apply(db, t).jobs| && Apply(db, t).jobs[j] == db.jobs[j]
  {
    var a := t.call.attempt;
    if a < |db.attempts| {
      assert Fits(db.jobs[db.attempts[a].job], db.attempts[a]);
    }
  }

  lemma ManualRetryAppends(db: Db, now: int, j: JobId)
    requires Closed(db)
    ensures db.jobs <= CreateManualRetry(db, now, j).db.jobs
  {
    if j < |db.jobs| && TerminalJob(db.jobs[j].status) {
      ManualRetryIsCreate(db, now, j);
    }
  }

  lemma OtherCallsKeepTerminal(db: Db, t: Timed, j: JobId)
    requires Closed(db) && j < |db.jobs| && TerminalJob(db.jobs[j].status)
    requires !t.call.CallRecover? && !t.call.CallCompleteAttempt? && !t.call.CallCreateManualRetry?
    ensures j < |Apply(db, t).jobs| && Apply(db, t).jobs[j] == db.jobs[j]
  {
    if OutboxCall(t.call) {
      OutboxCallsKeepJobs(db, t);
    }
  }

  /** In every backend run a terminal job never changes again. */
  lemma {:induction false} TerminalForever(db: Db, trace: seq<Timed>, j: JobId)
    requires Sound(db) && Coupled(db) && BackendRun(trace)
    requires j < |db.jobs| && TerminalJob(db.jobs[j].status)
    ensures j < |Run(db, trace).jobs| && Run(db, trace).jobs[j] == db.jobs[j]
    decreases |trace|
  {
    if trace != [] {
      TerminalStays(db, trace[0], j);
      ApplySound(db, trace[0]);
      ApplyCoupled(db, trace[0]);
      TerminalForever(Apply(db, trace[0]), trace[1..], j);
    }
  }

  // ------------------------------------------------- cancelled without an attempt

  /** A cancelling job whose current attempt has finished: nobody is left to end it. */
  ghost predicate Stranded(db: Db, j: JobId)
    requires Closed(db)
  {
    j < |db.jobs| && db.jobs[j].status == Cancelling && !LiveAttempt(Current(db, j).status)
  }

  lemma StrandedStays(db: Db, t: Timed, j: JobId)
    requires Sound(db) && Coupled(db) && BackendCall(t.call) && !t.call.CallRecover? && Stranded(db, j)
    ensures Stranded(Apply(db, t), j) && Apply(db, t).jobs[j] == db.jobs[j]
  {
    StrandedJobStays(db, t, j);
    CallKeeps(db, t);
    var c := CurrentAttempt(db, j);
    assert (j, db.jobs[j].current) in db.index && AttemptKept(db, Apply(db, t), c);
    ApplySound(db, t);
    assert (Apply(db, t).attempts[c].job, Apply(db, t).attempts[c].number) in Apply(db, t).index;
  }

  lemma StrandedJobStays(db: Db, t: Timed, j: JobId)
    requires Closed(db) && Numbered(db) && BackendCall(t.call) && !t.call.CallRecover? && Stranded(db, j)
    ensures j < |Apply(db, t).jobs| && Apply(db, t).jobs[j] == db.jobs[j]
  {
    match t.call
    case CallCompleteAttempt(a, _, _, _, _) => StrandedCompletion(db, t, j);
    case CallCreateManualRetry(k) => ManualRetryAppends(db, t.now, k);
    case _ => OtherCallsKeepStranded(db, t, j);
  }

  lemma StrandedCompletion(db: Db, t: Timed, j: JobId)
    requires Closed(db) && Numbered(db) && t.call.CallCompleteAttempt? && Stranded(db, j)
    ensures j < |Apply(db, t).jobs| && Apply(db, t).jobs[j] == db.jobs[j]
  {
    var a := t.call.attempt;
    if a < |db.attempts| && db.attempts[a].job == j {
      assert (j, db.attempts[a].number) in db.index;
    }
  }

  lemma OtherCallsKeepStranded(db: Db, t: Timed, j: JobId)
    requires Closed(db) && BackendCall(t.call) && Stranded(db, j)
    requires !t.call.CallRecover? && !t.call.CallCompleteAttempt? && !t.call.CallCreateManualRetry?
    ensures j < |Apply(db, t).jobs| && Apply(db, t).jobs[j] == db.jobs[j]
  {
    if OutboxCall(t.call) {
      OutboxCallsKeepJobs(db, t);
    }
  }

  predicate NoRestart(trace: seq<Timed>) {
    forall i :: 0 <= i < |trace| ==> !trace[i].call.CallRecover?
  }

  lemma {:induction false} StrandedUntilRestart(db: Db, trace: seq<Timed>, j: JobId)
    requires Sound(db) && Coupled(db) && BackendRun(trace) && NoRestart(trace) && Stranded(db, j)
    ensures Sound(Run(db, trace)) && Stranded(Run(db, trace), j) && Run(db, trace).jobs[j] == db.jobs[j]
    decreases |trace|
  {
    if trace != [] {
      StrandedStays(db, trace[0], j);
      ApplySound(db, trace[0]);
      ApplyCoupled(db, trace[0]);
      StrandedUntilRestart(Apply(db, trace[0]), trace[1..], j);
    }
  }

  /** A cancellation strands exactly the jobs that wait for their retry. */
  lemma CancelStrandsIff(db: Db, now: int, j: JobId)
    requires Sound(db) && Coupled(db) && j < |db.jobs|
    ensures Stranded(RequestCancel(db, now, j).db, j) <==> db.jobs[j].status == RetryWait || Stranded(db, j)
  {
    var c := CurrentAttempt(db, j);
    assert (j, db.jobs[j].current) in db.index;
    assert Fits(db.jobs[j], db.attempts[c]);
  }

  /** A job cancelled while it waits for its retry stays cancelling through every backend run,
      until a restart cancels it. */
  lemma CancelledWaitsForRestart(db: Db, now: int, j: JobId, trace: seq<Timed>, restart: int)
    requires Sound(db) && Coupled(db) && BackendRun(trace) && NoRestart(trace)
    requires j < |db.jobs| && db.jobs[j].status == RetryWait
    ensures var cancelled := RequestCancel(db, now, j);
            var at := Run(cancelled.db, trace);
            && cancelled.result.Ok? && j < |at.jobs| && at.jobs[j] == cancelled.result.value
            && at.jobs[j].status == Cancelling
            && j < |RecoverIncompleteJobs(at, restart).0.jobs|
            && RecoverIncompleteJobs(at, restart).0.jobs[j].status == Cancelled
  {
    var cancel := At(now, CallRequestCancel(j));
    CancelStrandsIff(db, now, j);
    ApplySound(db, cancel);
    ApplyCoupled(db, cancel);
    StrandedUntilRestart(Apply(db, cancel), trace, j);
    RestartCancels(Run(Apply(db, cancel), trace), restart, j);
  }

  lemma RestartCancels(db: Db, now: int, j: JobId)
    requires Sound(db) && j < |db.jobs| && db.jobs[j].status == Cancelling
    ensures RecoverIncompleteJobs(db, now).0.jobs[j].status == Cancelled
  {
    RecoveryTheorem(db, now);
    assert Recovered(db, RecoverIncompleteJobs(db, now).0, j);
  }

  /** A job of a coupled database and its attempts. */
  ghost predicate JobIntact(db: Db, j: JobId)
    requires Closed(db) && j < |db.jobs|
  {
    var job := db.jobs[j];
    && 1 <= job.current <= job.maxAttempts
    && (forall n: nat :: 1 <= n <= job.current ==>
          (j, n) in db.index && db.attempts[db.index[(j, n)]].job == j && db.attempts[db.index[(j, n)]].number == n)
    && (job.finishedAt.Some? <==> TerminalJob(job.status))
    && (job.status == Completed <==>
          exists a :: 0 <= a < |db.attempts| && db.attempts[a].job == j && db.attempts[a].status == Succeeded)
    && (forall a :: 0 <= a < |db.attempts| && db.attempts[a].job == j ==>
          && 1 <= db.attempts[a].number <= job.current
          && (db.attempts[a].number == job.current <==> a == CurrentAttempt(db, j))
          && (db.attempts[a].number < job.current ==> GivenUp(db.attempts[a].status)))
    && (job.status.Queued? || job.status.Dispatching? || job.status.Dispatched? || job.status.Running? ==>
          LiveAttempt(Current(db, j).status))
    && (job.status.RetryWait? || TerminalJob(job.status) ==> !LiveAttempt(Current(db, j).status))
  }

  lemma CoupledIsIntact(db: Db, j: JobId)
    requires Sound(db) && Coupled(db) && j < |db.jobs|
    ensures JobIntact(db, j)
  {
    var c := CurrentAttempt(db, j);
    assert (j, db.jobs[j].current) in db.index;
    assert Fits(db.jobs[j], db.attempts[c]);
    forall a | 0 <= a < |db.attempts| && db.attempts[a].job == j
      ensures 1 <= db.attempts[a].number <= db.jobs[j].current
      ensures db.attempts[a].number == db.jobs[j].current <==> a == c
      ensures Fits(db.jobs[j], db.attempts[a])
    {
      assert (j, db.attempts[a].number) in db.index;
    }
  }

  /** In the database any backend run reaches from the empty one, every job is intact: a
      job is completed exactly when one of its attempts succeeded, that attempt is the
      current one, and all earlier attempts were given up. */
  lemma ReachableJobs(trace: seq<Timed>, j: JobId)
    requires BackendRun(trace) && j < |Run(EmptyDb, trace).jobs|
    ensures JobIntact(Run(EmptyDb, trace), j)
  {
    EmptyIsCoupled();
    RunCoupled(EmptyDb, trace);
    CoupledIsIntact(Run(EmptyDb, trace), j);
  }
}
