/** Idempotent creation and manual retries over whole runs. */
module JobCreation {
  import opened Wrappers
  import opened ControlPlaneSchemas
  import opened ControlPlaneStore
  import opened ControlPlaneRuns
  import opened JobProtocol

  /** What a job was created with. */
  predicate SameOrigin(a: Job, b: Job) {
    && a.workspace == b.workspace && a.key == b.key && a.request == b.request
    && a.retryOf == b.retryOf && a.maxAttempts == b.maxAttempts
  }

  /** No job is removed, and none changes what it was created with. */
  ghost predicate OriginsKept(db: Db, after: Db) {
    |db.jobs| <= |after.jobs| && forall j :: 0 <= j < |db.jobs| ==> SameOrigin(db.jobs[j], after.jobs[j])
  }

  lemma {:induction false} RecoverJobsOrigins(db: Db, now: int, rows: seq<JobId>)
    requires Closed(db) && forall x :: 0 <= x < |rows| ==> rows[x] < |db.jobs|
    ensures OriginsKept(db, RecoverJobs(db, now, rows).0)
  {
    if |rows| > 0 {
      var last := |rows| - 1;
      RecoverJobsOrigins(db, now, rows[..last]);
      RecoverJobOrigins(RecoverJobs(db, now, rows[..last]).0, now, rows[last]);
    }
  }

  lemma RecoverJobOrigins(db: Db, now: int, j: JobId)
    requires Closed(db) && j < |db.jobs|
    ensures OriginsKept(db, RecoverJob(db, now, j).0)
  {
    var swept := SweepCurrent(db, now, j);
    assert Requeue(swept, now, j).0.jobs == db.jobs[j := RecoveredJob(db.jobs[j], now)];
  }

  lemma CreateJobOrigins(db: Db, now: int, w: string, key: Key, request: string, retryOf: Option<JobId>, max: int)
    requires Closed(db)
    ensures OriginsKept(db, CreateJob(db, now, w, key, request, retryOf, max).db)
  {
  }

  lemma ManualRetryOrigins(db: Db, now: int, j: JobId)
    requires Closed(db)
    ensures OriginsKept(db, CreateManualRetry(db, now, j).db)
  {
    if j < |db.jobs| && TerminalJob(db.jobs[j].status) {
      var job := db.jobs[j];
      ManualRetryIsCreate(db, now, j);
      CreateJobOrigins(db.(nextSecret := db.nextSecret + 1), now, job.workspace, ManualRetryKey(j, db.nextSecret),
                       job.request, Some(j), job.maxAttempts);
    }
  }

  lemma OutboxCallOrigins(db: Db, t: Timed)
    requires Closed(db) && OutboxCall(t.call)
    ensures OriginsKept(db, Apply(db, t))
  {
    OutboxCallsKeepJobs(db, t);
  }

  lemma StatusCallOrigins(db: Db, t: Timed)
    requires Closed(db) && !OutboxCall(t.call)
    requires !t.call.CallRecover? && !t.call.CallCreateJob? && !t.call.CallCreateManualRetry?
    ensures OriginsKept(db, Apply(db, t))
  {
  }

  lemma CallOrigins(db: Db, t: Timed)
    requires Closed(db)
    ensures OriginsKept(db, Apply(db, t))
  {
    if OutboxCall(t.call) {
      OutboxCallOrigins(db, t);
    } else if t.call.CallRecover? {
      RecoverJobsOrigins(db, t.now, IncompleteJobs(db.jobColumns));
    } else if t.call.CallCreateManualRetry? {
      ManualRetryOrigins(db, t.now, t.call.job);
    } else if t.call.CallCreateJob? {
      CreateCallOrigins(db, t);
    } else {
      StatusCallOrigins(db, t);
    }
  }

  lemma CreateCallOrigins(db: Db, t: Timed)
    requires Closed(db) && t.call.CallCreateJob?
    ensures OriginsKept(db, Apply(db, t))
  {
    match t.call
    case CallCreateJob(w, k, r, m) => CreateJobOrigins(db, t.now, w, ClientKey(k), r, None, m);
  }

  lemma {:induction false} RunOrigins(db: Db, trace: seq<Timed>)
    requires Closed(db)
    ensures OriginsKept(db, Run(db, trace))
    decreases |trace|
  {
    if trace != [] {
      CallOrigins(db, trace[0]);
      RunOrigins(Apply(db, trace[0]), trace[1..]);
    }
  }

  /** In a sound database the job a workspace and key lead to is the only one there is. */
  lemma KeyFindsJob(db: Db, j: JobId)
    requires Sound(db) && j < |db.jobs|
    ensures FindJob(db.jobs, db.jobs[j].workspace, db.jobs[j].key) == Some(j)
  {
    var found := FindJob(db.jobs, db.jobs[j].workspace, db.jobs[j].key);
    assert found.Some? && !(found.value < j) && !(j < found.value);
  }

  /** What a creation leads to: a job under its workspace, key and request. */
  lemma CreatedOrigin(db: Db, now: int, w: string, key: Key, request: string, retryOf: Option<JobId>, max: int)
    requires Closed(db)
    ensures var o := CreateJob(db, now, w, key, request, retryOf, max);
            o.result.Ok? ==>
              && o.result.value.job < |o.db.jobs|
              && var job := o.db.jobs[o.result.value.job];
                 job.workspace == w && job.key == key && job.request == request
  {
  }

  lemma EventOfAttempt(db: Db, a: AttemptId)
    requires Closed(db) && a < |db.attempts|
    ensures FindEvent(db.events, a) == Some(a)
  {
    assert db.events[a].attempt == a;
  }

  /** Creating under the key of a job that exists. */
  lemma KeyReplays(db: Db, j: JobId, now: int, request: string, retryOf: Option<JobId>, max: int)
    requires Sound(db) && j < |db.jobs|
    ensures var a := CurrentAttempt(db, j);
            CreateJob(db, now, db.jobs[j].workspace, db.jobs[j].key, request, retryOf, max)
            == Outcome(db, if request == db.jobs[j].request then Ok(CreatedJob(j, a, a, None))
                           else Err(IdempotencyKeyConflict))
  {
    KeyFindsJob(db, j);
    EventOfAttempt(db, CurrentAttempt(db, j));
  }

  lemma CreatedStays(db: Db, now: int, w: string, key: string, request: string, max: int, trace: seq<Timed>)
    requires Sound(db) && CreateJob(db, now, w, ClientKey(key), request, None, max).result.Ok?
    ensures var first := CreateJob(db, now, w, ClientKey(key), request, None, max);
            var at := Run(first.db, trace);
            && Sound(at) && first.result.value.job < |at.jobs|
            && at.jobs[first.result.value.job].workspace == w
            && at.jobs[first.result.value.job].key == ClientKey(key)
            && at.jobs[first.result.value.job].request == request
  {
    var first := CreateJob(db, now, w, ClientKey(key), request, None, max);
    CreatedOrigin(db, now, w, ClientKey(key), request, None, max);
    CreateJobSound(db, now, w, ClientKey(key), request, None, max);
    RunSound(first.db, trace);
    RunOrigins(first.db, trace);
    assert SameOrigin(first.db.jobs[first.result.value.job], Run(first.db, trace).jobs[first.result.value.job]);
  }

  /** Creating a job is idempotent over any run: whatever was called since, the same key leads
      back to the same job, with its present attempt and no token, and changes nothing; with
      another request it is a conflict. */
  lemma CreationIsIdempotent(db: Db, now: int, w: string, key: string, request: string, max: int, trace: seq<Timed>,
                             later: int, again: string, limit: int)
    requires Sound(db) && CreateJob(db, now, w, ClientKey(key), request, None, max).result.Ok?
    ensures var first := CreateJob(db, now, w, ClientKey(key), request, None, max);
            var at, j := Run(first.db, trace), first.result.value.job;
            && j < |at.jobs|
            && CreateJob(at, later, w, ClientKey(key), again, None, limit)
               == Outcome(at, if again != request then Err(IdempotencyKeyConflict)
                              else Ok(CreatedJob(j, CurrentAttempt(at, j), CurrentAttempt(at, j), None)))
  {
    var first := CreateJob(db, now, w, ClientKey(key), request, None, max);
    CreatedStays(db, now, w, key, request, max, trace);
    KeyReplays(Run(first.db, trace), first.result.value.job, later, again, None, limit);
  }

  lemma ClientMissesRetry(db: Db, j: JobId, now: int, w: string, key: string, request: string, max: int)
    requires Closed(db) && j < |db.jobs| && !db.jobs[j].key.ClientKey?
    ensures var o := CreateJob(db, now, w, ClientKey(key), request, None, max);
            o.result.Ok? ==> o.result.value.job != j
  {
    CreatedOrigin(db, now, w, ClientKey(key), request, None, max);
    CreateJobOrigins(db, now, w, ClientKey(key), request, None, max);
    assert SameOrigin(db.jobs[j], CreateJob(db, now, w, ClientKey(key), request, None, max).db.jobs[j]);
  }

  /** A manual retry stands for itself: whatever was called since, the job it made is still
      there with its request and its link to the old one, no client leads back to it by any
      key, and every further manual retry makes yet another job. */
  lemma RetryStandsAlone(db: Db, now: int, j: JobId, trace: seq<Timed>, later: int, w: string, key: string,
                         request: string, max: int, k: JobId)
    requires Sound(db) && j < |db.jobs| && TerminalJob(db.jobs[j].status)
    ensures CreateManualRetry(db, now, j).result.Ok?
    ensures var at, made := Run(CreateManualRetry(db, now, j).db, trace), CreateManualRetry(db, now, j).result.value.job;
            && |db.jobs| <= made < |at.jobs|
            && at.jobs[made].request == db.jobs[j].request && at.jobs[made].retryOf == Some(j)
            && (CreateJob(at, later, w, ClientKey(key), request, None, max).result.Ok? ==>
                  CreateJob(at, later, w, ClientKey(key), request, None, max).result.value.job != made)
            && (k < |at.jobs| && TerminalJob(at.jobs[k].status) ==>
                  && CreateManualRetry(at, later, k).result.Ok?
                  && CreateManualRetry(at, later, k).result.value.job == |at.jobs|)
  {
    var after := CreateManualRetry(db, now, j).db;
    ManualRetryIsNew(db, now, j);
    CreateManualRetrySound(db, now, j);
    RunOrigins(after, trace);
    RunSound(after, trace);
    var at := Run(after, trace);
    assert SameOrigin(after.jobs[|db.jobs|], at.jobs[|db.jobs|]);
    ClientMissesRetry(at, |db.jobs|, later, w, key, request, max);
    if k < |at.jobs| && TerminalJob(at.jobs[k].status) {
      ManualRetryIsNew(at, later, k);
    }
  }
}
