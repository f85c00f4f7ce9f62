/** What a caller is handed with a new attempt can be executed, whichever call made it. */
module JobHandover {
  import opened Wrappers
  import opened ControlPlaneSchemas
  import opened ControlPlaneStore
  import opened ControlPlaneRuns
  import opened Recovery
  import opened JobProtocol
  import opened JobTheorems
  import opened JobExecution

  function HeldBy(c: CreatedJob): Held
    requires c.token.Some?
  {
    Held(c.job, c.attempt, c.event, c.token.value)
  }

  /** The job is queued with this attempt, which is just created, under this token, and its
      dispatch event is pending. */
  ghost predicate HandedOver(db: Db, c: CreatedJob) {
    && c.token.Some? && Starts(db, HeldBy(c)) && c.event < |db.events|
    && db.jobs[c.job].status == Queued
    && db.attempts[c.attempt].number == db.jobs[c.job].current
    && db.events[c.event].attempt == c.attempt && db.events[c.event].status == Pending
    && db.events[c.event].publishAttempts == 0 && db.events[c.event].claim.None?
    && (forall now: int :: Claimable(db.eventColumns[c.event], now))
  }

  /** Job, attempt and event, or the last two, are rows this call inserted, and it drew the token. */
  predicate NewRows(db: Db, after: Db, c: CreatedJob) {
    && c.attempt == |db.attempts| && |after.attempts| == |db.attempts| + 1
    && c.event == |db.events| && |after.events| == |db.events| + 1
    && c.token.Some? && db.nextSecret <= c.token.value < after.nextSecret
    && db.attempts <= after.attempts && db.events <= after.events
    && Blank(after.attempts[c.attempt], after.events[c.event])
  }

  /** Nothing has happened to them yet. */
  predicate Blank(attempt: Attempt, event: Event) {
    && !attempt.retryable && attempt.error.None? && attempt.worker.None? && attempt.heartbeatAt.None?
    && attempt.startedAt.None? && attempt.finishedAt.None?
    && event.publishAttempts == 0 && event.error.None? && event.message.None? && event.claim.None?
    && event.owner.None? && event.leaseUntil.None? && event.nextRetryAt.None?
  }

  lemma CreateCoupled(db: Db, now: int, w: string, key: Key, request: string, retryOf: Option<JobId>, max: int)
    requires Good(db) && KeyDrawn(db, key)
    ensures Good(CreateJob(db, now, w, key, request, retryOf, max).db)
  {
    CreateJobSound(db, now, w, key, request, retryOf, max);
    CreateJobCoupled(db, now, w, key, request, retryOf, max);
  }

  /** Some job of the workspace has the key, and was asked for with the request if one is given. */
  ghost predicate Taken(db: Db, w: string, key: Key, request: Option<string>) {
    exists j :: 0 <= j < |db.jobs| && db.jobs[j].workspace == w && db.jobs[j].key == key
                && (request.Some? ==> db.jobs[j].request == request.value)
  }

  /** A creation succeeds for a new key and one to a hundred attempts, and for a known key with the
      request it came with; it hands out a token exactly if it made a new job. */
  lemma CreationIff(db: Db, now: int, w: string, key: Key, request: string, retryOf: Option<JobId>, max: int)
    requires Sound(db)
    ensures var o := CreateJob(db, now, w, key, request, retryOf, max);
            && (o.result.Ok? <==> if Taken(db, w, key, None) then Taken(db, w, key, Some(request)) else 1 <= max <= 100)
            && (o.result.Ok? ==> (o.result.value.token.Some? <==> !Taken(db, w, key, None)))
            && (o.result.Err? || Taken(db, w, key, None) ==> o.db == db)
  {
    TakenIff(db, w, key, request);
    var found := FindJob(db.jobs, w, key);
    if found.Some? {
      assert db.events[CurrentAttempt(db, found.value)].attempt == CurrentAttempt(db, found.value);
    }
  }

  lemma TakenIff(db: Db, w: string, key: Key, request: string)
    requires Sound(db)
    ensures var found := FindJob(db.jobs, w, key);
            && (Taken(db, w, key, None) <==> found.Some?)
            && (Taken(db, w, key, Some(request)) <==> found.Some? && db.jobs[found.value].request == request)
  {
  }

  /** A new job is made as it was asked for. */
  lemma CreatedAsAsked(db: Db, now: int, w: string, key: Key, request: string, retryOf: Option<JobId>, max: int)
    requires Closed(db)
    requires var r := CreateJob(db, now, w, key, request, retryOf, max).result; r.Ok? && r.value.token.Some?
    ensures var o := CreateJob(db, now, w, key, request, retryOf, max);
            && NewRows(db, o.db, o.result.value)
            && o.result.value.job == |db.jobs| && db.jobs <= o.db.jobs && |o.db.jobs| == |db.jobs| + 1
            && var job := o.db.jobs[|db.jobs|];
               job.workspace == w && job.key == key && job.request == request && job.retryOf == retryOf
               && job.maxAttempts == max && job.current == 1 && !job.cancelRequested && job.createdAt == now
               && job.results == []
  {
  }

  lemma InsertedAttempt(db: Db, now: int, w: string, key: Key, request: string, retryOf: Option<JobId>, max: int)
    requires Closed(db)
    requires var r := CreateJob(db, now, w, key, request, retryOf, max).result; r.Ok? && r.value.token.Some?
    ensures var o := CreateJob(db, now, w, key, request, retryOf, max);
            var c := o.result.value;
            && c.job < |o.db.jobs| && c.attempt < |o.db.attempts| && c.event < |o.db.events|
            && Phase(o.db, HeldBy(c), Queued, Created)
            && o.db.attempts[c.attempt].number == o.db.jobs[c.job].current
            && o.db.events[c.event] == NewEvent(c.job, c.attempt, 1, now)
            && o.db.eventColumns[c.event] == ColumnsOfEvent(o.db.events[c.event])
  {
  }

  /** It can be executed by who made it. */
  lemma CreatedIsHandedOver(db: Db, now: int, w: string, key: Key, request: string, retryOf: Option<JobId>, max: int)
    requires Good(db) && KeyDrawn(db, key)
    requires var r := CreateJob(db, now, w, key, request, retryOf, max).result; r.Ok? && r.value.token.Some?
    ensures var o := CreateJob(db, now, w, key, request, retryOf, max);
            HandedOver(o.db, o.result.value)
  {
    CreateCoupled(db, now, w, key, request, retryOf, max);
    InsertedAttempt(db, now, w, key, request, retryOf, max);
  }

  /** A retry hands over the next attempt of the same job. */
  lemma RetryIsHandedOver(db: Db, now: int, j: JobId)
    requires Good(db) && j < |db.jobs| && db.jobs[j].status == RetryWait
    requires db.jobs[j].current < db.jobs[j].maxAttempts
    ensures var o := CreateRetryAttempt(db, now, j);
            && o.result.Ok? && HandedOver(o.db, o.result.value) && NewRows(db, o.db, o.result.value)
            && o.result.value.job == j && o.db.jobs[j].current == db.jobs[j].current + 1
            && (forall k :: 0 <= k < |db.jobs| && k != j ==> o.db.jobs[k] == db.jobs[k])
  {
    RetryGood(db, now, j);
  }

  /** A manual retry hands over the first attempt of the job it makes. */
  lemma ManualRetryIsHandedOver(db: Db, now: int, j: JobId)
    requires Good(db) && j < |db.jobs| && TerminalJob(db.jobs[j].status)
    ensures var o := CreateManualRetry(db, now, j);
            && o.result.Ok? && HandedOver(o.db, o.result.value) && NewRows(db, o.db, o.result.value)
            && o.result.value.job == |db.jobs|
  {
    ManualRetryIsNew(db, now, j);
    ManualRetryIsCreate(db, now, j);
    var drawn, job := db.(nextSecret := db.nextSecret + 1), db.jobs[j];
    DrawSound(db);
    assert Good(drawn);
    CreatedAsAsked(drawn, now, job.workspace, ManualRetryKey(j, db.nextSecret), job.request, Some(j), job.maxAttempts);
    CreatedIsHandedOver(drawn, now, job.workspace, ManualRetryKey(j, db.nextSecret), job.request, Some(j), job.maxAttempts);
  }

  lemma ReturnedIsHandedOver(db: Db, after: Db, created: seq<CreatedJob>, rows: seq<JobId>, x: nat)
    requires Closed(db) && Good(after) && Progress(db, after, created, rows) && x < |created|
    ensures HandedOver(after, created[x])
  {
    RequeuedFrom(db.jobs, rows);
    var j := created[x].job;
    assert j == RequeuedRows(db.jobs, rows)[x] && j in RequeuedRows(db.jobs, rows);
    assert Recovered(db, after, j) && Requeued(db, after, created[x]);
    RequeuedIsHandedOver(db, after, created[x]);
  }

  /** Recovery hands over every attempt it returns. */
  lemma RecoveredIsHandedOver(db: Db, now: int, x: nat)
    requires Good(db) && x < |RecoverIncompleteJobs(db, now).1|
    ensures var (after, created) := RecoverIncompleteJobs(db, now); HandedOver(after, created[x])
  {
    ApplySound(db, At(now, CallRecover));
    ApplyCoupled(db, At(now, CallRecover));
    RecoveryTheorem(db, now);
    ReturnedIsHandedOver(db, RecoverIncompleteJobs(db, now).0, RecoverIncompleteJobs(db, now).1,
                         IncompleteJobs(db.jobColumns), x);
  }

  lemma RequeuedIsHandedOver(db: Db, after: Db, c: CreatedJob)
    requires Extends(db, after) && Good(after) && Requeued(db, after, c) && FreshAttempt(db, after, c.job)
    ensures HandedOver(after, c)
  {
    assert (c.job, after.jobs[c.job].current) in after.index;
  }

  /** An execution that was handed over reaches its handler, and decides its job if nobody else
      ends the attempt while the handler runs. */
  lemma HandedOverDecides(db: Db, c: CreatedJob, env: Environment)
    requires HandedOver(db, c) && BackendRun(env.during) && env.handler.Some?
    ensures var h := HeldBy(c);
            h.job < |Run(RunUntilRaise(db, DispatchCalls(env.started, h)).0, env.during).jobs|
    ensures var h := HeldBy(c);
            var reached := RunUntilRaise(db, DispatchCalls(env.started, h));
            var at := Run(reached.0, env.during);
            && !reached.1 && Phase(reached.0, h, Running, AttemptRunning) && h.attempt < |at.attempts|
            && if LiveAttempt(at.attempts[h.attempt].status) then
                 Decided(Execute(db, h, env), h, Verdict(at.jobs[h.job], env.handler.value, env.shutdown))
               else Execute(db, h, env).db == at && Execute(db, h, env).retry.None?
  {
    DispatchEffect(db, env.started, HeldBy(c));
    ExecutionDecides(db, HeldBy(c), env);
  }

  /** Handed over and executed undisturbed by a handler that returns, the job is completed with
      its results. */
  lemma HandedOverCompletes(db: Db, c: CreatedJob, started: int, ended: int, results: seq<string>)
    requires HandedOver(db, c) && 0 < |results| <= 200
    ensures c.job < |Run(RunUntilRaise(db, DispatchCalls(started, HeldBy(c))).0, []).jobs|
    ensures var e := Execute(db, HeldBy(c), Environment(started, ended, Some(Returns(results)), [], false));
            && e.raised.None? && e.retry.None? && Phase(e.db, HeldBy(c), Completed, Succeeded)
            && e.db.jobs[c.job].results == results
  {
    var h := HeldBy(c);
    DispatchHolds(db, started, h);
    DispatchEffect(db, started, h);
    CompletionDecides(RunUntilRaise(db, DispatchCalls(started, h)).0, ended, h, Succeeded, None, results);
  }

  /** The retry that a failed execution asks for is handed over in turn. */
  lemma FailedIsHandedOn(db: Db, now: int, h: Held, code: string)
    requires Good(db) && Holds(db, h) && LiveAttempt(db.attempts[h.attempt].status)
    requires db.jobs[h.job].current < db.jobs[h.job].maxAttempts
    ensures var e := RetryAfter(db, now, h, code);
            && e.raised.None? && e.retry.Some? && HandedOver(e.db, e.retry.value)
            && e.retry.value.job == h.job && e.db.attempts[e.retry.value.attempt].number == db.jobs[h.job].current + 1
            && e.db.attempts[h.attempt].status == FailedRetryable
  {
    CompletionDecides(db, now, h, FailedRetryable, Some(code), []);
    CompleteGood(db, now, h, FailedRetryable, Some(code), []);
    RetryIsHandedOver(Complete(db, now, h, FailedRetryable, Some(code), []).db, now, h.job);
  }

  /** A completion of an attempt that exists, with a status that ends it, is never an error to the
      execution: one that came too late or with an old token is passed over. */
  lemma SwallowedIff(db: Db, now: int, h: Held, status: AttemptStatus, error: string)
    requires Closed(db)
    ensures FinishSafely(db, now, h, status, error).raised.None?
            <==> h.attempt < |db.attempts|
                 && status in {Succeeded, FailedRetryable, FailedTerminal, AttemptCancelled, Lost}
  {
  }

  /** What an attempt is noted to have ended with. */
  predicate EndedAs(attempt: Attempt, now: int, status: AttemptStatus, error: Option<string>) {
    && attempt.status == status && attempt.error == error && attempt.finishedAt == Some(now)
    && (attempt.retryable <==> status == FailedRetryable)
  }

  /** How the attempt ends that is still running when its handler ends: cancelled if its job was to
      be cancelled and the handler returned anyway, succeeded with its results, lost in a shutdown,
      cancelled, or failed with the code of the error. */
  lemma AttemptEndsAs(db: Db, now: int, h: Held, outcome: HandlerOutcome, shutdown: bool)
    requires Holds(db, h) && db.attempts[h.attempt].status == AttemptRunning
    ensures var e := Conclude(db, now, h, outcome, shutdown);
            h.attempt < |e.db.attempts| && h.job < |e.db.jobs|
            && match outcome
               case Returns(results) =>
                 if db.jobs[h.job].status == Cancelling then
                   EndedAs(e.db.attempts[h.attempt], now, AttemptCancelled, Some("job_cancelled"))
                 else if |results| > 200 then
                   EndedAs(e.db.attempts[h.attempt], now, FailedTerminal, Some("store_error"))
                 else EndedAs(e.db.attempts[h.attempt], now, Succeeded, None)
                      && (results != [] ==> e.db.jobs[h.job].results == results)
               case RaisesError(retryable, code) =>
                 EndedAs(e.db.attempts[h.attempt], now, if retryable then FailedRetryable else FailedTerminal, Some(code))
               case _ =>
                 if outcome.RaisesShutdown? || shutdown then
                   EndedAs(e.db.attempts[h.attempt], now, Lost, Some("application_shutdown"))
                 else EndedAs(e.db.attempts[h.attempt], now, AttemptCancelled, Some("job_cancelled"))
  {
  }

  /** A completion that ends the attempt notes why, also if its errors are swallowed. */
  lemma FinishEndsAs(db: Db, now: int, h: Held, status: AttemptStatus, error: string)
    requires Holds(db, h) && LiveAttempt(db.attempts[h.attempt].status) && Final(status)
    ensures var e, f := Finish(db, now, h, status, Some(error), []), FinishSafely(db, now, h, status, error);
            && h.attempt < |e.db.attempts| && EndedAs(e.db.attempts[h.attempt], now, status, Some(error))
            && h.attempt < |f.db.attempts| && EndedAs(f.db.attempts[h.attempt], now, status, Some(error))
  {
  }

  /** An execution that does not come to its handler ends its attempt all the same: cancelled for
      a job to be cancelled, failed if a dispatch call raised or there is no handler. */
  lemma UnstartedEndsAs(db: Db, h: Held, env: Environment)
    requires Starts(db, h)
    requires h.job < |Run(RunUntilRaise(db, DispatchCalls(env.started, h)).0, env.during).jobs|
    requires db.jobs[h.job].status == Cancelling || RunUntilRaise(db, DispatchCalls(env.started, h)).1
             || env.handler.None?
    ensures var after, raised := Execute(db, h, env).db, RunUntilRaise(db, DispatchCalls(env.started, h)).1;
            h.attempt < |after.attempts|
            && if db.jobs[h.job].status == Cancelling then
                 EndedAs(after.attempts[h.attempt], env.started, AttemptCancelled, Some("job_cancelled"))
               else EndedAs(after.attempts[h.attempt], env.started, FailedTerminal,
                            Some(if raised then "store_error" else "job_handler_missing"))
  {
    StartHolds(db, h);
    DispatchHolds(db, env.started, h);
    var (dispatched, raised) := RunUntilRaise(db, DispatchCalls(env.started, h));
    if db.jobs[h.job].status == Cancelling {
      FinishEndsAs(db, env.started, h, AttemptCancelled, "job_cancelled");
    } else {
      RaisedIsLive(db, env.started, h);
      FinishEndsAs(dispatched, env.started, h, FailedTerminal, if raised then "store_error" else "job_handler_missing");
    }
  }

  lemma RaisedIsLive(db: Db, now: int, h: Held)
    requires Starts(db, h)
    ensures var dispatched := RunUntilRaise(db, DispatchCalls(now, h)).0;
            h.attempt < |dispatched.attempts| && LiveAttempt(dispatched.attempts[h.attempt].status)
  {
    DispatchEffect(db, now, h);
  }
}
