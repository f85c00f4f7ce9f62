/** Runs of the store: any calls, in any order, from any number of callers. */
module ControlPlaneRuns {
  import opened Wrappers
  import opened ControlPlaneSchemas
  import opened ControlPlaneStore

  datatype Call =
    | CallCreateJob(workspace: string, key: string, request: string, maxAttempts: int)
    | CallTransitionJob(job: JobId, target: JobStatus, error: Option<string>, revision: Option<nat>)
    | CallRequestCancel(job: JobId)
    | CallCreateRetryAttempt(job: JobId)
    | CallCreateManualRetry(job: JobId)
    | CallTransitionAttempt(attempt: AttemptId, token: Secret, to: AttemptStatus, worker: Option<string>)
    | CallHeartbeatAttempt(attempt: AttemptId, token: Secret)
    | CallCompleteAttempt(attempt: AttemptId, token: Secret, status: AttemptStatus,
                          error: Option<string>, results: seq<string>)
    | CallRecover
    | CallClaimOutbox(owner: string, batchSize: nat, leaseSeconds: int)
    | CallMarkPublished(event: EventId, token: Secret, message: string)
    | CallMarkPublishFailed(event: EventId, token: Secret, code: string, retrySeconds: int)
    | CallMarkConsumedLocal(event: EventId)

  datatype Timed = At(now: int, call: Call)

  function Apply(db: Db, t: Timed): (after: Db)
    requires Closed(db)
    ensures Closed(after)
  {
    match t.call
    case CallCreateJob(w, k, r, m) => CreateJob(db, t.now, w, ClientKey(k), r, None, m).db
    case CallTransitionJob(j, target, error, revision) =>
      TransitionJob(db, t.now, j, target, error, revision).db
    case CallRequestCancel(j) => RequestCancel(db, t.now, j).db
    case CallCreateRetryAttempt(j) => CreateRetryAttempt(db, t.now, j).db
    case CallCreateManualRetry(j) => CreateManualRetry(db, t.now, j).db
    case CallTransitionAttempt(a, token, to, worker) => TransitionAttempt(db, t.now, a, token, to, worker).db
    case CallHeartbeatAttempt(a, token) => HeartbeatAttempt(db, t.now, a, token).db
    case CallCompleteAttempt(a, token, status, error, results) =>
      CompleteAttempt(db, t.now, a, token, status, error, results).db
    case CallRecover => RecoverIncompleteJobs(db, t.now).0
    case CallClaimOutbox(owner, batchSize, leaseSeconds) =>
      ClaimOutbox(db, t.now, owner, batchSize, leaseSeconds).0
    case CallMarkPublished(e, token, message) => MarkOutboxPublished(db, t.now, e, token, message).db
    case CallMarkPublishFailed(e, token, code, seconds) =>
      MarkOutboxPublishFailed(db, t.now, e, token, code, seconds).db
    case CallMarkConsumedLocal(e) => MarkOutboxConsumedLocal(db, t.now, e).db
  }

  function Run(db: Db, trace: seq<Timed>): (after: Db)
    requires Closed(db)
    ensures Closed(after)
    decreases |trace|
  {
    if trace == [] then db else Run(Apply(db, trace[0]), trace[1..])
  }

  /** The calls made by the job backends: they move jobs and attempts forward only,
      and leave every other job status to the completion, cancel and retry calls. */
  predicate BackendCall(call: Call) {
    match call
    case CallTransitionJob(_, target, _, _) => target in {Dispatching, Dispatched, Running}
    case CallTransitionAttempt(_, _, to, _) => to in {AttemptDispatched, Claimed, AttemptRunning}
    case _ => true
  }

  predicate BackendRun(trace: seq<Timed>) {
    forall i :: 0 <= i < |trace| ==> BackendCall(trace[i].call)
  }

  // ---------------------------------------------------------------- soundness

  /** The columns SQL filters on agree with the JSON records. */
  ghost predicate ColumnsAgree(db: Db)
    requires Closed(db)
  {
    && (forall j :: 0 <= j < |db.jobs| ==> db.jobColumns[j] == ColumnsOfJob(db.jobs[j]))
    && (forall e :: 0 <= e < |db.events| ==> db.eventColumns[e] == ColumnsOfEvent(db.events[e]))
  }

  /** Attempts are numbered exactly 1..current <= max_attempts, and the index is exact. */
  ghost predicate Numbered(db: Db)
    requires Closed(db)
  {
    && (forall j :: 0 <= j < |db.jobs| ==> 1 <= db.jobs[j].current <= db.jobs[j].maxAttempts <= 100)
    && (forall j: JobId, n: nat :: (j, n) in db.index <==> j < |db.jobs| && 1 <= n <= db.jobs[j].current)
    && (forall j: JobId, n: nat :: (j, n) in db.index ==>
          db.attempts[db.index[(j, n)]].job == j && db.attempts[db.index[(j, n)]].number == n)
    && (forall a :: 0 <= a < |db.attempts| ==>
          (db.attempts[a].job, db.attempts[a].number) in db.index
          && db.index[(db.attempts[a].job, db.attempts[a].number)] == a)
  }

  /** Every execution token and every claim was drawn, and no token was drawn twice. */
  ghost predicate TokensDrawn(db: Db)
    requires Closed(db)
  {
    && (forall a :: 0 <= a < |db.attempts| ==> db.attempts[a].token.preimage < db.nextSecret)
    && (forall a, b :: 0 <= a < b < |db.attempts| ==> db.attempts[a].token != db.attempts[b].token)
    && (forall e :: 0 <= e < |db.events| && db.events[e].claim.Some? ==>
          db.events[e].claim.value.preimage < db.nextSecret)
  }

  /** finished_at is set exactly for the terminal jobs, and an event carries a claim,
      an owner and a lease exactly while it is being published. */
  ghost predicate RecordsValid(db: Db)
    requires Closed(db)
  {
    && (forall j :: 0 <= j < |db.jobs| ==> (db.jobs[j].finishedAt.Some? <==> TerminalJob(db.jobs[j].status)))
    && (forall e :: 0 <= e < |db.events| ==>
          && db.events[e].job == db.attempts[e].job && db.events[e].number == db.attempts[e].number
          && (db.events[e].claim.Some? <==> db.events[e].status == Publishing)
          && (db.events[e].owner.Some? <==> db.events[e].status == Publishing)
          && (db.events[e].leaseUntil.Some? <==> db.events[e].status == Publishing))
  }

  /** One job per workspace and idempotency key, and every nonce of a manual retry was drawn. */
  ghost predicate KeysUnique(db: Db)
    requires Closed(db)
  {
    && (forall i, j :: 0 <= i < j < |db.jobs| ==>
          db.jobs[i].workspace != db.jobs[j].workspace || db.jobs[i].key != db.jobs[j].key)
    && (forall j :: 0 <= j < |db.jobs| ==> KeyDrawn(db, db.jobs[j].key))
  }

  predicate KeyDrawn(db: Db, key: Key) {
    key.ManualRetryKey? ==> key.nonce < db.nextSecret
  }

  ghost predicate Sound(db: Db) {
    && Closed(db)
    && ColumnsAgree(db)
    && Numbered(db)
    && TokensDrawn(db)
    && RecordsValid(db)
    && KeysUnique(db)
  }

  // Each call is built from a few statements; each statement keeps the database sound.

  lemma PutJobSound(db: Db, j: JobId, job: Job)
    requires Sound(db) && j < |db.jobs|
    requires job.workspace == db.jobs[j].workspace && job.key == db.jobs[j].key
    requires job.maxAttempts == db.jobs[j].maxAttempts && job.current == db.jobs[j].current
    requires job.finishedAt.Some? <==> TerminalJob(job.status)
    ensures Sound(PutJob(db, j, job))
  {
    PutJobNumbered(db, j, job);
    PutJobKeys(db, j, job);
  }

  lemma PutJobKeys(db: Db, j: JobId, job: Job)
    requires Closed(db) && KeysUnique(db) && j < |db.jobs| && Closed(PutJob(db, j, job))
    requires job.workspace == db.jobs[j].workspace && job.key == db.jobs[j].key
    ensures KeysUnique(PutJob(db, j, job))
  {
  }

  lemma PutJobNumbered(db: Db, j: JobId, job: Job)
    requires Closed(db) && Numbered(db) && j < |db.jobs|
    requires job.maxAttempts == db.jobs[j].maxAttempts && job.current == db.jobs[j].current
    ensures Closed(PutJob(db, j, job)) && Numbered(PutJob(db, j, job))
  {
  }

  lemma PutAttemptSound(db: Db, a: AttemptId, attempt: Attempt)
    requires Sound(db) && a < |db.attempts|
    requires attempt.job == db.attempts[a].job && attempt.number == db.attempts[a].number
    requires attempt.token == db.attempts[a].token
    ensures Sound(PutAttempt(db, a, attempt))
  {
    PutAttemptNumbered(db, a, attempt);
    var after := PutAttempt(db, a, attempt);
    assert forall b :: 0 <= b < |db.attempts| ==> after.attempts[b].token == db.attempts[b].token;
  }

  lemma PutAttemptNumbered(db: Db, a: AttemptId, attempt: Attempt)
    requires Closed(db) && Numbered(db) && a < |db.attempts|
    requires attempt.job == db.attempts[a].job && attempt.number == db.attempts[a].number
    ensures Closed(PutAttempt(db, a, attempt)) && Numbered(PutAttempt(db, a, attempt))
  {
  }

  lemma PutEventSound(db: Db, e: EventId, event: Event, columns: EventColumns)
    requires Sound(db) && e < |db.events|
    requires event.job == db.events[e].job && event.attempt == e && event.number == db.events[e].number
    requires columns == ColumnsOfEvent(event)
    requires event.claim.Some? <==> event.status == Publishing
    requires event.owner.Some? <==> event.status == Publishing
    requires event.leaseUntil.Some? <==> event.status == Publishing
    requires event.claim.Some? ==> event.claim.value.preimage < db.nextSecret
    ensures Sound(PutEvent(db, e, event, columns))
  {
  }

  lemma DrawSound(db: Db)
    requires Sound(db)
    ensures Sound(db.(nextSecret := db.nextSecret + 1))
  {
  }

  /** Appending attempt `number` of job j, either the first attempt of a new last
      job or the next attempt of an old one, keeps the numbering exact. */
  lemma InsertNumbered(db: Db, after: Db, j: JobId, number: nat)
    requires Closed(db) && Numbered(db) && Closed(after)
    requires if j < |db.jobs| then |after.jobs| == |db.jobs| && number == db.jobs[j].current + 1
             else j == |db.jobs| && |after.jobs| == j + 1 && number == 1
    requires after.jobs[j].current == number <= after.jobs[j].maxAttempts <= 100
    requires forall k :: 0 <= k < |db.jobs| && k != j ==> after.jobs[k] == db.jobs[k]
    requires |after.attempts| == |db.attempts| + 1 && after.attempts[..|db.attempts|] == db.attempts
    requires after.attempts[|db.attempts|].job == j && after.attempts[|db.attempts|].number == number
    requires after.index == db.index[(j, number) := |db.attempts|]
    ensures Numbered(after)
  {
    assert forall a :: 0 <= a < |db.attempts| ==> after.attempts[a] == db.attempts[a];
  }

  /** The part of soundness that does not speak of numbering. */
  ghost predicate SoundRecords(db: Db) {
    Closed(db) && ColumnsAgree(db) && TokensDrawn(db) && RecordsValid(db) && KeysUnique(db)
  }

  lemma InsertJobRecords(db: Db, job: Job, now: int)
    requires SoundRecords(db) && KeyDrawn(db, job.key)
    requires FindJob(db.jobs, job.workspace, job.key).None?
    requires job.current == 1 && job.status == Queued && job.finishedAt.None?
    ensures SoundRecords(InsertAttempt(
              db.(jobs := db.jobs + [job], jobColumns := db.jobColumns + [ColumnsOfJob(job)]),
              |db.jobs|, 1, now))
  {
    var wider := db.(jobs := db.jobs + [job], jobColumns := db.jobColumns + [ColumnsOfJob(job)]);
    var after := InsertAttempt(wider, |db.jobs|, 1, now);
    InsertJobClosed(db, after, job);
    NewJobKeys(db, after, job);
    NewEventsAgree(db, after);
  }

  lemma NewJobKeys(db: Db, after: Db, job: Job)
    requires Closed(db) && KeysUnique(db) && Closed(after) && after.jobs == db.jobs + [job]
    requires KeyDrawn(db, job.key) && db.nextSecret <= after.nextSecret
    requires FindJob(db.jobs, job.workspace, job.key).None?
    ensures KeysUnique(after)
  {
  }

  /** Appending an attempt with its fresh token and pending event keeps the events valid. */
  lemma NewEventsAgree(db: Db, after: Db)
    requires SoundRecords(db) && Closed(after) && after.nextSecret == db.nextSecret + 1
    requires |after.attempts| == |after.events| == |after.eventColumns| == |db.attempts| + 1
    requires after.attempts[..|db.attempts|] == db.attempts && after.events[..|db.events|] == db.events
    requires after.eventColumns[..|db.events|] == db.eventColumns
    requires var a := |db.attempts|;
             && after.attempts[a].token == Sha256(db.nextSecret)
             && after.events[a].job == after.attempts[a].job && after.events[a].number == after.attempts[a].number
             && after.events[a].status == Pending && after.events[a].claim.None?
             && after.events[a].owner.None? && after.events[a].leaseUntil.None?
             && after.eventColumns[a] == ColumnsOfEvent(after.events[a])
    ensures TokensDrawn(after)
    ensures forall e :: 0 <= e < |after.events| ==>
              && after.eventColumns[e] == ColumnsOfEvent(after.events[e])
              && after.events[e].job == after.attempts[e].job && after.events[e].number == after.attempts[e].number
              && (after.events[e].claim.Some? <==> after.events[e].status == Publishing)
              && (after.events[e].owner.Some? <==> after.events[e].status == Publishing)
              && (after.events[e].leaseUntil.Some? <==> after.events[e].status == Publishing)
  {
    assert forall e :: 0 <= e < |db.events| ==>
        after.events[e] == db.events[e] && after.attempts[e] == db.attempts[e]
        && after.eventColumns[e] == db.eventColumns[e];
  }

  lemma InsertJobClosed(db: Db, after: Db, job: Job)
    requires Closed(db) && job.current == 1
    requires |after.jobs| == |after.jobColumns| == |db.jobs| + 1
    requires after.jobs == db.jobs + [job]
    requires |after.attempts| == |after.events| == |after.eventColumns| == |db.attempts| + 1
    requires after.index == db.index[(|db.jobs|, 1) := |db.attempts|]
    requires after.attempts[..|db.attempts|] == db.attempts && after.events[..|db.events|] == db.events
    requires after.attempts[|db.attempts|].job == |db.jobs| && after.events[|db.events|].attempt == |db.events|
    ensures Closed(after)
  {
    assert forall a :: 0 <= a < |db.attempts| ==>
        after.attempts[a] == db.attempts[a] && after.events[a] == db.events[a];
  }

  lemma InsertJobSound(db: Db, job: Job, now: int)
    requires Sound(db) && KeyDrawn(db, job.key)
    requires FindJob(db.jobs, job.workspace, job.key).None?
    requires job.current == 1 <= job.maxAttempts <= 100
    requires job.status == Queued && job.finishedAt.None?
    ensures Sound(InsertAttempt(db.(jobs := db.jobs + [job], jobColumns := db.jobColumns + [ColumnsOfJob(job)]),
                                |db.jobs|, 1, now))
  {
    InsertJobRecords(db, job, now);
    InsertNumbered(db, InsertAttempt(db.(jobs := db.jobs + [job], jobColumns := db.jobColumns + [ColumnsOfJob(job)]),
                                     |db.jobs|, 1, now), |db.jobs|, 1);
  }

  lemma NextAttemptRecords(db: Db, j: JobId, job: Job, now: int)
    requires SoundRecords(db) && j < |db.jobs|
    requires job.workspace == db.jobs[j].workspace && job.key == db.jobs[j].key
    requires job.finishedAt.Some? <==> TerminalJob(job.status)
    ensures SoundRecords(PutJob(InsertAttempt(db, j, job.current, now), j, job))
  {
  }

  lemma NextAttemptSound(db: Db, j: JobId, job: Job, now: int)
    requires Sound(db) && j < |db.jobs|
    requires job.workspace == db.jobs[j].workspace && job.key == db.jobs[j].key
    requires job.current == db.jobs[j].current + 1 <= job.maxAttempts == db.jobs[j].maxAttempts
    requires job.finishedAt.Some? <==> TerminalJob(job.status)
    ensures Sound(PutJob(InsertAttempt(db, j, job.current, now), j, job))
  {
    NextAttemptRecords(db, j, job, now);
    InsertNumbered(db, PutJob(InsertAttempt(db, j, job.current, now), j, job), j, job.current);
  }

  // Recovery and claiming are loops of such statements.

  lemma SweepSound(db: Db, now: int, j: JobId)
    requires Sound(db) && j < |db.jobs|
    ensures Sound(SweepCurrent(db, now, j))
  {
    var a := CurrentAttempt(db, j);
    var swept := PutAttempt(db, a, SweepAttempt(db.attempts[a], now));
    PutAttemptSound(db, a, SweepAttempt(db.attempts[a], now));
    var found := FindEvent(swept.events, a);
    if found.Some? {
      var e := found.value;
      var event := swept.events[e].(status := EventFailed, claim := None, owner := None, leaseUntil := None,
                                    error := Some("attempt_superseded_on_restart"), updatedAt := now);
      PutEventSound(swept, e, event, ColumnsOfEvent(event));
    }
  }

  lemma RequeueSound(swept: Db, now: int, j: JobId)
    requires Sound(swept) && j < |swept.jobs|
    ensures Sound(Requeue(swept, now, j).0)
  {
    var job := swept.jobs[j];
    var next := RecoveredJob(job, now);
    if Requeues(job) {
      NextAttemptSound(swept, j, next, now);
      assert Requeue(swept, now, j).0 == PutJob(InsertAttempt(swept, j, next.current, now), j, next);
    } else {
      PutJobSound(swept, j, next);
      assert Requeue(swept, now, j).0 == PutJob(swept, j, next);
    }
  }

  lemma RecoverJobSound(db: Db, now: int, j: JobId)
    requires Sound(db) && j < |db.jobs|
    ensures Sound(RecoverJob(db, now, j).0)
  {
    SweepSound(db, now, j);
    RequeueSound(SweepCurrent(db, now, j), now, j);
  }

  lemma {:induction false} RecoverJobsSound(db: Db, now: int, rows: seq<JobId>)
    requires Sound(db) && forall x :: 0 <= x < |rows| ==> rows[x] < |db.jobs|
    ensures Sound(RecoverJobs(db, now, rows).0)
  {
    if |rows| > 0 {
      var last := |rows| - 1;
      var before := RecoverJobs(db, now, rows[..last]).0;
      RecoverJobsSound(db, now, rows[..last]);
      RecoverJobSound(before, now, rows[last]);
      assert RecoverJobs(db, now, rows).0 == RecoverJob(before, now, rows[last]).0;
    }
  }

  lemma ClaimEventSound(db: Db, now: int, owner: string, leaseSeconds: int, e: EventId)
    requires Sound(db) && e < |db.events|
    ensures Sound(ClaimEvent(db, now, owner, leaseSeconds, e))
  {
    var after := ClaimEvent(db, now, owner, leaseSeconds, e);
    var drawn := db.(nextSecret := db.nextSecret + 1);
    DrawSound(db);
    PutEventSound(drawn, e, after.events[e], after.eventColumns[e]);
    assert after == PutEvent(drawn, e, after.events[e], after.eventColumns[e]);
  }

  lemma {:induction false} ClaimEventsSound(db: Db, now: int, owner: string, leaseSeconds: int, rows: seq<EventId>)
    requires Sound(db) && forall x :: 0 <= x < |rows| ==> rows[x] < |db.events|
    ensures Sound(ClaimEvents(db, now, owner, leaseSeconds, rows).0)
  {
    if |rows| > 0 {
      var last := |rows| - 1;
      ClaimEventsSound(db, now, owner, leaseSeconds, rows[..last]);
      ClaimEventSound(ClaimEvents(db, now, owner, leaseSeconds, rows[..last]).0, now, owner, leaseSeconds, rows[last]);
    }
  }

  // One lemma for each call that writes.

  lemma CreateJobSound(db: Db, now: int, w: string, key: Key, request: string, retryOf: Option<JobId>, max: int)
    requires Sound(db) && KeyDrawn(db, key)
    ensures Sound(CreateJob(db, now, w, key, request, retryOf, max).db)
  {
    if FindJob(db.jobs, w, key).None? && 1 <= max <= 100 {
      var job := Job(w, key, request, retryOf, max, Queued, 1, false, false, None, [], None, None, now, now, 1);
      InsertJobSound(db, job, now);
    }
  }

  lemma ManualRetryIsCreate(db: Db, now: int, j: JobId)
    requires Closed(db) && j < |db.jobs| && TerminalJob(db.jobs[j].status)
    ensures var job := db.jobs[j];
            CreateManualRetry(db, now, j)
            == CreateJob(db.(nextSecret := db.nextSecret + 1), now, job.workspace,
                         ManualRetryKey(j, db.nextSecret), job.request, Some(j), job.maxAttempts)
  {
  }

  /** A manual retry of a terminal job always makes a job that was not there before: its key is
      neither a client's nor that of an earlier retry, so it never conflicts and never returns
      an existing job. The new job is queued with attempt 1 and a token of its own and carries
      the request of the old one, and no job is changed. */
  lemma ManualRetryIsNew(db: Db, now: int, j: JobId)
    requires Sound(db) && j < |db.jobs| && TerminalJob(db.jobs[j].status)
    ensures var o := CreateManualRetry(db, now, j);
            && o.result.Ok? && o.result.value.job == |db.jobs| && o.result.value.token.Some?
            && |o.db.jobs| == |db.jobs| + 1 && o.db.jobs[..|db.jobs|] == db.jobs
            && var made := o.db.jobs[|db.jobs|];
               && made.status == Queued && made.current == 1 && made.retryOf == Some(j)
               && made.request == db.jobs[j].request && made.workspace == db.jobs[j].workspace
               && made.maxAttempts == db.jobs[j].maxAttempts && !made.key.ClientKey?
               && forall i :: 0 <= i < |db.jobs| ==> db.jobs[i].key != made.key
  {
    ManualRetryIsCreate(db, now, j);
    var key := ManualRetryKey(j, db.nextSecret);
    assert forall i :: 0 <= i < |db.jobs| ==> db.jobs[i].key != key by {
      assert forall i :: 0 <= i < |db.jobs| ==> KeyDrawn(db, db.jobs[i].key);
    }
    assert FindJob(db.jobs, db.jobs[j].workspace, key).None?;
  }

  lemma CreateManualRetrySound(db: Db, now: int, j: JobId)
    requires Sound(db)
    ensures Sound(CreateManualRetry(db, now, j).db)
  {
    if j < |db.jobs| && TerminalJob(db.jobs[j].status) {
      DrawSound(db);
      CreateJobSound(db.(nextSecret := db.nextSecret + 1), now, db.jobs[j].workspace,
                     ManualRetryKey(j, db.nextSecret), db.jobs[j].request, Some(j), db.jobs[j].maxAttempts);
      ManualRetryIsCreate(db, now, j);
    } else {
      assert CreateManualRetry(db, now, j).db == db;
    }
  }

  lemma CreateRetryAttemptSound(db: Db, t: Timed)
    requires Sound(db) && t.call.CallCreateRetryAttempt?
    ensures Sound(Apply(db, t))
  {
    var j := t.call.job;
    var now, after := t.now, Apply(db, t);
    if j < |db.jobs| && db.jobs[j].status == RetryWait {
      if db.jobs[j].current >= db.jobs[j].maxAttempts {
        PutJobSound(db, j, after.jobs[j]);
        assert after == PutJob(db, j, after.jobs[j]);
      } else {
        NextAttemptSound(db, j, after.jobs[j], now);
        assert after == PutJob(InsertAttempt(db, j, after.jobs[j].current, now), j, after.jobs[j]);
      }
    }
  }

  lemma JobStatusCallsSound(db: Db, t: Timed)
    requires Sound(db) && (t.call.CallTransitionJob? || t.call.CallRequestCancel?)
    ensures Sound(Apply(db, t))
  {
    var after := Apply(db, t);
    var j := t.call.job;
    if after != db {
      PutJobSound(db, j, after.jobs[j]);
      assert after == PutJob(db, j, after.jobs[j]);
    }
  }

  lemma AttemptCallsSound(db: Db, t: Timed)
    requires Sound(db) && (t.call.CallTransitionAttempt? || t.call.CallHeartbeatAttempt?)
    ensures Sound(Apply(db, t))
  {
    var after := Apply(db, t);
    var a := t.call.attempt;
    if after != db {
      PutAttemptSound(db, a, after.attempts[a]);
      assert after == PutAttempt(db, a, after.attempts[a]);
    }
  }

  lemma CompleteAttemptSound(db: Db, t: Timed)
    requires Sound(db) && t.call.CallCompleteAttempt?
    ensures Sound(Apply(db, t))
  {
    var a := t.call.attempt;
    var after := Apply(db, t);
    if after != db {
      var j := db.attempts[a].job;
      var finished := PutAttempt(db, a, after.attempts[a]);
      PutAttemptSound(db, a, after.attempts[a]);
      PutJobSound(finished, j, after.jobs[j]);
      assert after == PutJob(finished, j, after.jobs[j]);
    }
  }

  lemma EventCallsSound(db: Db, t: Timed)
    requires Sound(db)
    requires t.call.CallMarkPublished? || t.call.CallMarkPublishFailed? || t.call.CallMarkConsumedLocal?
    ensures Sound(Apply(db, t))
  {
    var after := Apply(db, t);
    var e := t.call.event;
    if after != db {
      PutEventSound(db, e, after.events[e], after.eventColumns[e]);
      assert after == PutEvent(db, e, after.events[e], after.eventColumns[e]);
    }
  }

  lemma RecoverSound(db: Db, now: int)
    requires Sound(db)
    ensures Sound(RecoverIncompleteJobs(db, now).0)
  {
    RecoverJobsSound(db, now, IncompleteJobs(db.jobColumns));
  }

  lemma ClaimOutboxSound(db: Db, now: int, owner: string, batchSize: nat, leaseSeconds: int)
    requires Sound(db)
    ensures Sound(ClaimOutbox(db, now, owner, batchSize, leaseSeconds).0)
  {
    ClaimEventsSound(db, now, owner, leaseSeconds, ClaimableEvents(db.eventColumns, now, 0, batchSize));
  }

  lemma ApplySound(db: Db, t: Timed)
    requires Sound(db)
    ensures Sound(Apply(db, t))
  {
    match t.call
    case CallCreateJob(w, k, r, m) => CreateJobSound(db, t.now, w, ClientKey(k), r, None, m);
    case CallCreateRetryAttempt(j) => CreateRetryAttemptSound(db, t);
    case CallCreateManualRetry(j) => CreateManualRetrySound(db, t.now, j);
    case CallTransitionJob(_, _, _, _) => JobStatusCallsSound(db, t);
    case CallRequestCancel(_) => JobStatusCallsSound(db, t);
    case CallTransitionAttempt(_, _, _, _) => AttemptCallsSound(db, t);
    case CallHeartbeatAttempt(_, _) => AttemptCallsSound(db, t);
    case CallCompleteAttempt(_, _, _, _, _) => CompleteAttemptSound(db, t);
    case CallRecover => RecoverSound(db, t.now);
    case CallClaimOutbox(owner, batchSize, leaseSeconds) =>
      ClaimOutboxSound(db, t.now, owner, batchSize, leaseSeconds);
    case CallMarkPublished(_, _, _) => EventCallsSound(db, t);
    case CallMarkPublishFailed(_, _, _, _) => EventCallsSound(db, t);
    case CallMarkConsumedLocal(_) => EventCallsSound(db, t);
  }

  /** Whatever calls are made, in whatever order, the database stays sound. */
  lemma {:induction false} RunSound(db: Db, trace: seq<Timed>)
    requires Sound(db)
    ensures Sound(Run(db, trace))
    decreases |trace|
  {
    if trace != [] {
      ApplySound(db, trace[0]);
      RunSound(Apply(db, trace[0]), trace[1..]);
    }
  }
}
