/** One execution of a job by the in-process backend, as a function of the database, the
    handler's outcome and whatever other calls reach the store while the handler runs. */
module JobExecution {
  import opened Wrappers
  import opened ControlPlaneSchemas
  import opened ControlPlaneStore
  import opened ControlPlaneRuns
  import opened Recovery
  import opened JobProtocol
  import opened JobTheorems

  /** How a handler ends. Other exceptions are classified as retryable or terminal. */
  datatype HandlerOutcome =
    | Returns(results: seq<string>)
    | RaisesShutdown
    | RaisesCancelled
    | RaisesError(retryable: bool, code: string)

  /** The attempt an execution holds. */
  datatype Held = Held(job: JobId, attempt: AttemptId, event: EventId, token: Secret)

  datatype Execution = Execution(db: Db, retry: Option<CreatedJob>, raised: Option<Code>)

  datatype Environment = Environment(
    started: int,
    ended: int,
    handler: Option<HandlerOutcome>,
    during: seq<Timed>,
    shutdown: bool)

  function Complete(db: Db, now: int, h: Held, status: AttemptStatus, error: Option<string>, results: seq<string>)
    : (o: Outcome<Job>)
    requires Closed(db)
    ensures Closed(o.db)
  {
    CompleteAttempt(db, now, h.attempt, h.token, status, error, results)
  }

  /** Late, stale and invalid completions are swallowed. */
  function FinishSafely(db: Db, now: int, h: Held, status: AttemptStatus, error: string): (e: Execution)
    requires Closed(db)
    ensures Closed(e.db)
  {
    var o := Complete(db, now, h, status, Some(error), []);
    var swallowed := o.result.Ok? || o.result.error == LateAttemptResult || o.result.error == StaleExecutionToken
                     || o.result.error == InvalidAttemptTransition;
    Execution(o.db, None, if swallowed then None else Some(o.result.error))
  }

  /** An exception of the store inside the try block is classified as terminal. */
  function Finish(db: Db, now: int, h: Held, status: AttemptStatus, error: Option<string>, results: seq<string>)
    : (e: Execution)
    requires Closed(db)
    ensures Closed(e.db)
  {
    var o := Complete(db, now, h, status, error, results);
    if o.result.Ok? then Execution(o.db, None, None) else FinishSafely(o.db, now, h, FailedTerminal, "store_error")
  }

  /** A retryable failure asks for the next attempt; for an exhausted job the request is
      made all the same, for the dead record it leaves, and its error is ignored. */
  function RetryAfter(db: Db, now: int, h: Held, code: string): (e: Execution)
    requires Closed(db)
    ensures Closed(e.db)
  {
    var o := Complete(db, now, h, FailedRetryable, Some(code), []);
    if o.result.Err? then Execution(o.db, None, Some(o.result.error))
    else
      var r := CreateRetryAttempt(o.db, now, h.job);
      if o.result.value.current < o.result.value.maxAttempts then
        match r.result
        case Ok(created) => Execution(r.db, Some(created), None)
        case Err(error) => Execution(r.db, None, Some(error))
      else Execution(r.db, None, None)
  }

  /** The calls that take an attempt from its creation to the handler. */
  function DispatchCalls(now: int, h: Held): seq<Timed> {
    [ At(now, CallTransitionJob(h.job, Dispatching, None, None)),
      At(now, CallMarkConsumedLocal(h.event)),
      At(now, CallTransitionJob(h.job, Dispatched, None, None)),
      At(now, CallTransitionAttempt(h.attempt, h.token, AttemptDispatched, None)),
      At(now, CallTransitionAttempt(h.attempt, h.token, Claimed, Some("local-in-process"))),
      At(now, CallTransitionAttempt(h.attempt, h.token, AttemptRunning, None)),
      At(now, CallTransitionJob(h.job, Running, None, None)) ]
  }

  /** Whether one of the dispatch calls raises. */
  function Raises(db: Db, t: Timed): bool
    requires Closed(db)
  {
    match t.call
    case CallTransitionJob(j, target, error, revision) =>
      TransitionJob(db, t.now, j, target, error, revision).result.Err?
    case CallMarkConsumedLocal(e) => MarkOutboxConsumedLocal(db, t.now, e).result.Err?
    case CallTransitionAttempt(a, token, to, worker) => TransitionAttempt(db, t.now, a, token, to, worker).result.Err?
    case _ => false
  }

  /** Makes the calls in order up to the first that raises. */
  function RunUntilRaise(db: Db, trace: seq<Timed>): (r: (Db, bool))
    requires Closed(db)
    ensures Closed(r.0)
    decreases |trace|
  {
    if trace == [] then (db, false)
    else if Raises(db, trace[0]) then (Apply(db, trace[0]), true)
    else RunUntilRaise(Apply(db, trace[0]), trace[1..])
  }

  /** After the handler, with `db` the database the other calls left behind. */
  function Conclude(db: Db, now: int, h: Held, outcome: HandlerOutcome, shutdown: bool): (e: Execution)
    requires Closed(db) && h.job < |db.jobs|
    ensures Closed(e.db)
  {
    match outcome
    case Returns(results) =>
      if db.jobs[h.job].status == Cancelling then
        Finish(db, now, h, AttemptCancelled, Some("job_cancelled"), [])
      else Finish(db, now, h, Succeeded, None, results)
    case RaisesShutdown => FinishSafely(db, now, h, Lost, "application_shutdown")
    case RaisesCancelled =>
      if shutdown then FinishSafely(db, now, h, Lost, "application_shutdown")
      else FinishSafely(db, now, h, AttemptCancelled, "job_cancelled")
    case RaisesError(retryable, code) =>
      if retryable then RetryAfter(db, now, h, code) else FinishSafely(db, now, h, FailedTerminal, code)
  }

  function Execute(db: Db, h: Held, env: Environment): (e: Execution)
    requires Closed(db) && h.job < |db.jobs|
    requires h.job < |Run(RunUntilRaise(db, DispatchCalls(env.started, h)).0, env.during).jobs|
    ensures Closed(e.db)
  {
    if db.jobs[h.job].status == Cancelling then
      Finish(db, env.started, h, AttemptCancelled, Some("job_cancelled"), [])
    else
      var (dispatched, raised) := RunUntilRaise(db, DispatchCalls(env.started, h));
      if raised then FinishSafely(dispatched, env.started, h, FailedTerminal, "store_error")
      else if env.handler.None? then
        Finish(dispatched, env.started, h, FailedTerminal, Some("job_handler_missing"), [])
      else Conclude(Run(dispatched, env.during), env.ended, h, env.handler.value, env.shutdown)
  }

  // ------------------------------------------------------------------- dispatching

  /** The held attempt and its job in given statuses. */
  ghost predicate Phase(db: Db, h: Held, job: JobStatus, attempt: AttemptStatus)
    requires Closed(db)
  {
    && h.job < |db.jobs| && h.attempt < |db.attempts|
    && db.attempts[h.attempt].job == h.job && db.attempts[h.attempt].token == Sha256(h.token)
    && db.jobs[h.job].status == job && db.attempts[h.attempt].status == attempt
  }

  lemma JobMoves(db: Db, now: int, h: Held, from: JobStatus, to: JobStatus, s: AttemptStatus)
    requires Closed(db) && Phase(db, h, from, s) && !TerminalJob(from) && to in JobTransitions(from)
    ensures var t := At(now, CallTransitionJob(h.job, to, None, None));
            !Raises(db, t) && Phase(Apply(db, t), h, to, s)
  {
  }

  lemma AttemptMoves(db: Db, now: int, h: Held, j: JobStatus, from: AttemptStatus, to: AttemptStatus,
                     worker: Option<string>)
    requires Closed(db) && Phase(db, h, j, from) && to in AttemptTransitions(from)
    ensures var t := At(now, CallTransitionAttempt(h.attempt, h.token, to, worker));
            !Raises(db, t) && Phase(Apply(db, t), h, j, to)
  {
  }

  lemma ConsumeKeeps(db: Db, now: int, h: Held, j: JobStatus, s: AttemptStatus)
    requires Closed(db) && Phase(db, h, j, s)
    ensures Phase(Apply(db, At(now, CallMarkConsumedLocal(h.event))), h, j, s)
  {
  }

  lemma NextCall(db: Db, t: Timed, rest: seq<Timed>)
    requires Closed(db)
    ensures RunUntilRaise(db, [t] + rest)
            == if Raises(db, t) then (Apply(db, t), true) else RunUntilRaise(Apply(db, t), rest)
  {
    assert ([t] + rest)[1..] == rest && ([t] + rest)[0] == t;
  }

  lemma StartRunning(db: Db, now: int, h: Held)
    requires Closed(db) && Phase(db, h, Dispatched, Claimed)
    ensures var r := RunUntilRaise(db, DispatchCalls(now, h)[5..]);
            !r.1 && Phase(r.0, h, Running, AttemptRunning)
  {
    var attempt := At(now, CallTransitionAttempt(h.attempt, h.token, AttemptRunning, None));
    var job := At(now, CallTransitionJob(h.job, Running, None, None));
    assert DispatchCalls(now, h)[5..] == [attempt] + [job] && [job] == [job] + [];
    AttemptMoves(db, now, h, Dispatched, Claimed, AttemptRunning, None);
    JobMoves(Apply(db, attempt), now, h, Dispatched, Running, AttemptRunning);
    NextCall(db, attempt, [job]);
    NextCall(Apply(db, attempt), job, []);
  }

  lemma ClaimAndRun(db: Db, now: int, h: Held)
    requires Closed(db) && Phase(db, h, Dispatched, AttemptDispatched)
    ensures var r := RunUntilRaise(db, DispatchCalls(now, h)[4..]);
            !r.1 && Phase(r.0, h, Running, AttemptRunning)
  {
    var t := DispatchCalls(now, h);
    AttemptMoves(db, now, h, Dispatched, AttemptDispatched, Claimed, Some("local-in-process"));
    assert t[4..] == [t[4]] + t[5..];
    NextCall(db, t[4], t[5..]);
    StartRunning(Apply(db, t[4]), now, h);
  }

  /** From a dispatched job, the remaining calls of the prefix cannot fail. */
  lemma LastCallsSucceed(db: Db, now: int, h: Held)
    requires Closed(db) && Phase(db, h, Dispatched, Created)
    ensures var r := RunUntilRaise(db, DispatchCalls(now, h)[3..]);
            !r.1 && Phase(r.0, h, Running, AttemptRunning)
  {
    var t := DispatchCalls(now, h);
    AttemptMoves(db, now, h, Dispatched, Created, AttemptDispatched, None);
    assert t[3..] == [t[3]] + t[4..];
    NextCall(db, t[3], t[4..]);
    ClaimAndRun(Apply(db, t[3]), now, h);
  }

  predicate Consumable(db: Db, e: EventId) {
    e < |db.events| && (db.events[e].status.Pending? || db.events[e].status.Published?)
  }

  lemma FirstRaisesIff(db: Db, now: int, h: Held)
    requires Closed(db) && h.job < |db.jobs|
    ensures var t := At(now, CallTransitionJob(h.job, Dispatching, None, None));
            && (Raises(db, t) <==> db.jobs[h.job].status != Queued)
            && Apply(db, t).events == db.events
  {
    OnlyQueuedDispatches(db.jobs[h.job].status);
  }

  lemma OnlyQueuedDispatches(s: JobStatus)
    ensures !TerminalJob(s) && Dispatching in JobTransitions(s) <==> s == Queued
  {
  }

  lemma ConsumeRaisesIff(db: Db, now: int, h: Held)
    requires Closed(db)
    ensures Raises(db, At(now, CallMarkConsumedLocal(h.event))) <==> !Consumable(db, h.event)
    ensures Raises(db, At(now, CallMarkConsumedLocal(h.event))) ==>
              Apply(db, At(now, CallMarkConsumedLocal(h.event))) == db
  {
  }

  lemma ConsumeAndRun(db: Db, now: int, h: Held)
    requires Closed(db) && Phase(db, h, Dispatching, Created)
    ensures var r := RunUntilRaise(db, DispatchCalls(now, h)[1..]);
            && (r.1 <==> !Consumable(db, h.event))
            && if r.1 then r.0 == db else Phase(r.0, h, Running, AttemptRunning)
  {
    var t := DispatchCalls(now, h);
    assert t[1..] == [t[1]] + t[2..] && t[2..] == [t[2]] + t[3..];
    ConsumeRaisesIff(db, now, h);
    ConsumeKeeps(db, now, h, Dispatching, Created);
    NextCall(db, t[1], t[2..]);
    var consumed := Apply(db, t[1]);
    JobMoves(consumed, now, h, Dispatching, Dispatched, Created);
    NextCall(consumed, t[2], t[3..]);
    LastCallsSucceed(Apply(consumed, t[2]), now, h);
  }

  /** Dispatching reaches the handler, with a running job and attempt, exactly when the job
      is queued and its event not in the hands of a broker; otherwise it fails while the
      attempt is as it was created. */
  lemma DispatchEffect(db: Db, now: int, h: Held)
    requires Closed(db) && h.job < |db.jobs| && Phase(db, h, db.jobs[h.job].status, Created)
    ensures var r := RunUntilRaise(db, DispatchCalls(now, h));
            && (r.1 <==> db.jobs[h.job].status != Queued || !Consumable(db, h.event))
            && if r.1 then h.job < |r.0.jobs| && Phase(r.0, h, r.0.jobs[h.job].status, Created)
               else Phase(r.0, h, Running, AttemptRunning)
  {
    var t := DispatchCalls(now, h);
    FirstRaisesIff(db, now, h);
    assert t == [t[0]] + t[1..];
    NextCall(db, t[0], t[1..]);
    if db.jobs[h.job].status == Queued {
      FirstCall(db, now, h);
      ConsumeAndRun(Apply(db, t[0]), now, h);
    } else {
      FirstRaisesQuietly(db, now, h);
    }
  }

  lemma FirstRaisesQuietly(db: Db, now: int, h: Held)
    requires Closed(db) && Raises(db, At(now, CallTransitionJob(h.job, Dispatching, None, None)))
    ensures Apply(db, At(now, CallTransitionJob(h.job, Dispatching, None, None))) == db
  {
  }

  lemma FirstCall(db: Db, now: int, h: Held)
    requires Closed(db) && h.job < |db.jobs| && Phase(db, h, db.jobs[h.job].status, Created)
    requires !Raises(db, At(now, CallTransitionJob(h.job, Dispatching, None, None)))
    ensures Phase(Apply(db, At(now, CallTransitionJob(h.job, Dispatching, None, None))), h, Dispatching, Created)
  {
  }

  lemma {:induction false} UntilRaiseSound(db: Db, trace: seq<Timed>)
    requires Sound(db) && Coupled(db) && BackendRun(trace)
    ensures Sound(RunUntilRaise(db, trace).0) && Coupled(RunUntilRaise(db, trace).0)
    decreases |trace|
  {
    if trace != [] {
      ApplySound(db, trace[0]);
      ApplyCoupled(db, trace[0]);
      if !Raises(db, trace[0]) {
        UntilRaiseSound(Apply(db, trace[0]), trace[1..]);
      }
    }
  }

  // ------------------------------------------------------- while the handler runs

  /** Another call leaves a running attempt running, or finishes it. */
  lemma CallKeepsRunning(db: Db, t: Timed, a: AttemptId)
    requires Closed(db) && Numbered(db) && ColumnsAgree(db) && BackendCall(t.call)
    requires a < |db.attempts| && db.attempts[a].status == AttemptRunning
    ensures a < |Apply(db, t).attempts|
    ensures Apply(db, t).attempts[a].status == AttemptRunning || !LiveAttempt(Apply(db, t).attempts[a].status)
    ensures SameAttempt(db.attempts[a], Apply(db, t).attempts[a])
  {
    CallKeeps(db, t);
    assert AttemptKept(db, Apply(db, t), a);
    if t.call.CallRecover? {
      RecoverEnds(db, t.now, a);
    } else if t.call.CallCreateManualRetry? {
      ManualRetryKeepsAttempts(db, t.now, t.call.job);
    } else {
      OtherCallKeepsRunning(db, t, a);
    }
  }

  lemma RecoverEnds(db: Db, now: int, a: AttemptId)
    requires Closed(db) && Numbered(db) && ColumnsAgree(db) && a < |db.attempts|
    ensures var after := RecoverIncompleteJobs(db, now).0;
            a < |after.attempts| && (after.attempts[a] == db.attempts[a] || !LiveAttempt(after.attempts[a].status))
  {
    RecoveryTheorem(db, now);
    var after, rows := RecoverIncompleteJobs(db, now).0, IncompleteJobs(db.jobColumns);
    if Swept(db, rows, a) {
      assert Recovered(db, after, db.attempts[a].job);
      assert (db.attempts[a].job, db.attempts[a].number) in db.index;
    }
  }

  lemma ManualRetryKeepsAttempts(db: Db, now: int, j: JobId)
    requires Closed(db)
    ensures db.attempts <= CreateManualRetry(db, now, j).db.attempts
  {
    if j < |db.jobs| && TerminalJob(db.jobs[j].status) {
      ManualRetryIsCreate(db, now, j);
    }
  }

  lemma OtherCallKeepsRunning(db: Db, t: Timed, a: AttemptId)
    requires Closed(db) && BackendCall(t.call) && !t.call.CallRecover? && !t.call.CallCreateManualRetry?
    requires a < |db.attempts| && db.attempts[a].status == AttemptRunning
    ensures a < |Apply(db, t).attempts|
    ensures Apply(db, t).attempts[a].status == AttemptRunning || !LiveAttempt(Apply(db, t).attempts[a].status)
  {
    if OutboxCall(t.call) {
      OutboxCallsKeepJobs(db, t);
    }
  }

  lemma {:induction false} RunKeepsRunning(db: Db, trace: seq<Timed>, a: AttemptId)
    requires Sound(db) && Coupled(db) && BackendRun(trace)
    requires a < |db.attempts|
    requires db.attempts[a].status == AttemptRunning || !LiveAttempt(db.attempts[a].status)
    ensures var after := Run(db, trace);
            && a < |after.attempts| && SameAttempt(db.attempts[a], after.attempts[a])
            && (after.attempts[a].status == AttemptRunning || !LiveAttempt(after.attempts[a].status))
    decreases |trace|
  {
    if trace != [] {
      var next := Apply(db, trace[0]);
      CallKeeps(db, trace[0]);
      assert AttemptKept(db, next, a);
      if db.attempts[a].status == AttemptRunning {
        CallKeepsRunning(db, trace[0], a);
      }
      ApplySound(db, trace[0]);
      ApplyCoupled(db, trace[0]);
      RunKeepsRunning(next, trace[1..], a);
    }
  }

  // ------------------------------------------------- the end of an execution is sound

  ghost predicate Good(db: Db) {
    Sound(db) && Coupled(db)
  }

  lemma CompleteGood(db: Db, now: int, h: Held, status: AttemptStatus, error: Option<string>, results: seq<string>)
    requires Good(db)
    ensures Good(Complete(db, now, h, status, error, results).db)
  {
    var t := At(now, CallCompleteAttempt(h.attempt, h.token, status, error, results));
    ApplySound(db, t);
    ApplyCoupled(db, t);
    assert Apply(db, t) == Complete(db, now, h, status, error, results).db;
  }

  lemma FinishSafelyGood(db: Db, now: int, h: Held, status: AttemptStatus, error: string)
    requires Good(db)
    ensures Good(FinishSafely(db, now, h, status, error).db)
  {
    CompleteGood(db, now, h, status, Some(error), []);
  }

  lemma FinishGood(db: Db, now: int, h: Held, status: AttemptStatus, error: Option<string>, results: seq<string>)
    requires Good(db)
    ensures Good(Finish(db, now, h, status, error, results).db)
  {
    CompleteGood(db, now, h, status, error, results);
    FinishSafelyGood(Complete(db, now, h, status, error, results).db, now, h, FailedTerminal, "store_error");
  }

  lemma RetryGood(db: Db, now: int, j: JobId)
    requires Good(db)
    ensures Good(CreateRetryAttempt(db, now, j).db)
  {
    var t := At(now, CallCreateRetryAttempt(j));
    ApplySound(db, t);
    ApplyCoupled(db, t);
    assert Apply(db, t) == CreateRetryAttempt(db, now, j).db;
  }

  lemma RetryAfterGood(db: Db, now: int, h: Held, code: string)
    requires Good(db)
    ensures Good(RetryAfter(db, now, h, code).db)
  {
    CompleteGood(db, now, h, FailedRetryable, Some(code), []);
    RetryGood(Complete(db, now, h, FailedRetryable, Some(code), []).db, now, h.job);
    RetryAfterLeaves(db, now, h, code);
  }

  lemma RetryAfterLeaves(db: Db, now: int, h: Held, code: string)
    requires Closed(db)
    ensures var completed := Complete(db, now, h, FailedRetryable, Some(code), []).db;
            RetryAfter(db, now, h, code).db in {completed, CreateRetryAttempt(completed, now, h.job).db}
  {
  }

  lemma ConcludeGood(db: Db, now: int, h: Held, outcome: HandlerOutcome, shutdown: bool)
    requires Good(db) && h.job < |db.jobs|
    ensures Good(Conclude(db, now, h, outcome, shutdown).db)
  {
    match outcome
    case Returns(results) =>
      FinishGood(db, now, h, AttemptCancelled, Some("job_cancelled"), []);
      FinishGood(db, now, h, Succeeded, None, results);
    case RaisesShutdown => FinishSafelyGood(db, now, h, Lost, "application_shutdown");
    case RaisesCancelled =>
      FinishSafelyGood(db, now, h, Lost, "application_shutdown");
      FinishSafelyGood(db, now, h, AttemptCancelled, "job_cancelled");
    case RaisesError(retryable, code) =>
      RetryAfterGood(db, now, h, code);
      FinishSafelyGood(db, now, h, FailedTerminal, code);
  }

  // ---------------------------------------------------------- what the end decides

  /** What an execution needs of the attempt it holds when it writes its end. */
  ghost predicate Holds(db: Db, h: Held) {
    && Closed(db) && h.job < |db.jobs| && h.attempt < |db.attempts|
    && Phase(db, h, db.jobs[h.job].status, db.attempts[h.attempt].status)
    && (db.attempts[h.attempt].status == Created || db.attempts[h.attempt].status == AttemptRunning
        || !LiveAttempt(db.attempts[h.attempt].status))
    && (LiveAttempt(db.attempts[h.attempt].status) ==> db.attempts[h.attempt].number == db.jobs[h.job].current)
  }

  predicate Final(status: AttemptStatus) {
    status.Succeeded? || status.FailedRetryable? || status.FailedTerminal? || status.AttemptCancelled? || status.Lost?
  }

  ghost predicate Finished(db: Db, h: Held) {
    h.attempt < |db.attempts| && !LiveAttempt(db.attempts[h.attempt].status)
  }

  lemma LiveIsCurrent(db: Db, h: Held)
    requires Good(db) && h.job < |db.jobs| && h.attempt < |db.attempts|
    requires db.attempts[h.attempt].job == h.job && LiveAttempt(db.attempts[h.attempt].status)
    ensures db.attempts[h.attempt].number == db.jobs[h.job].current
  {
    assert Fits(db.jobs[h.job], db.attempts[h.attempt]);
  }

  /** A completion by the holder is accepted exactly while the attempt is live, and then
      decides the job. */
  lemma CompletionDecides(db: Db, now: int, h: Held, status: AttemptStatus, error: Option<string>, results: seq<string>)
    requires Holds(db, h) && Final(status)
    ensures var o, live := Complete(db, now, h, status, error, results), LiveAttempt(db.attempts[h.attempt].status);
            && (o.result.Ok? <==> live && |results| <= 200)
            && (o.result.Err? ==> o.db == db)
            && (o.result.Err? && !live ==>
                  o.result.error == LateAttemptResult || o.result.error == InvalidAttemptTransition)
            && (o.result.Ok? ==>
                  && Phase(o.db, h, JobStatusAfter(status), status) && o.db.jobs[h.job] == o.result.value
                  && o.db.jobs[h.job].current == db.jobs[h.job].current
                  && o.db.jobs[h.job].maxAttempts == db.jobs[h.job].maxAttempts
                  && (results != [] ==> o.db.jobs[h.job].results == results))
  {
  }

  lemma FinishSafelyEffect(db: Db, now: int, h: Held, status: AttemptStatus, error: string)
    requires Holds(db, h) && Final(status)
    ensures var e := FinishSafely(db, now, h, status, error);
            && Finished(e.db, h) && e.retry.None? && e.raised.None?
            && (if LiveAttempt(db.attempts[h.attempt].status) then
                  h.job < |e.db.jobs| && e.db.jobs[h.job].status == JobStatusAfter(status)
                else e.db == db)
  {
    CompletionDecides(db, now, h, status, Some(error), []);
  }

  lemma FinishEffect(db: Db, now: int, h: Held, status: AttemptStatus, error: Option<string>, results: seq<string>)
    requires Holds(db, h) && Final(status)
    ensures var e := Finish(db, now, h, status, error, results);
            && Finished(e.db, h) && e.retry.None? && e.raised.None?
            && (if LiveAttempt(db.attempts[h.attempt].status) then
                  && h.job < |e.db.jobs|
                  && e.db.jobs[h.job].status == (if |results| <= 200 then JobStatusAfter(status) else Failed)
                  && (|results| <= 200 && results != [] ==> e.db.jobs[h.job].results == results)
                else e.db == db)
  {
    CompletionDecides(db, now, h, status, error, results);
    FinishSafelyEffect(db, now, h, FailedTerminal, "store_error");
  }

  /** A job in retry_wait is queued again with its next attempt, or ends dead. */
  lemma RetryDecides(db: Db, now: int, j: JobId)
    requires Closed(db) && j < |db.jobs| && db.jobs[j].status == RetryWait
    ensures var r := CreateRetryAttempt(db, now, j);
            && |r.db.jobs| == |db.jobs| && db.attempts <= r.db.attempts
            && (r.result.Ok? <==> db.jobs[j].current < db.jobs[j].maxAttempts)
            && (r.result.Ok? ==> r.db.jobs[j].status == Queued && r.result.value.job == j)
            && (r.result.Err? ==> r.db.jobs[j].status == Dead)
  {
  }

  lemma RetryAfterEffect(db: Db, now: int, h: Held, code: string)
    requires Holds(db, h)
    ensures var e := RetryAfter(db, now, h, code);
            && Finished(e.db, h)
            && (if LiveAttempt(db.attempts[h.attempt].status) then
                  && e.raised.None? && h.job < |e.db.jobs|
                  && (if db.jobs[h.job].current < db.jobs[h.job].maxAttempts then
                        e.retry.Some? && e.retry.value.job == h.job && e.db.jobs[h.job].status == Queued
                      else e.retry.None? && e.db.jobs[h.job].status == Dead)
                else e.db == db && e.retry.None? && e.raised.Some?)
  {
    CompletionDecides(db, now, h, FailedRetryable, Some(code), []);
    var o := Complete(db, now, h, FailedRetryable, Some(code), []);
    if o.result.Ok? {
      RetryDecides(o.db, now, h.job);
    }
  }

  /** The status a job ends in when its own execution decides it. A job that is cancelled
      while its handler fails retryably is queued again all the same. */
  function Verdict(job: Job, outcome: HandlerOutcome, shutdown: bool): JobStatus {
    match outcome
    case Returns(results) =>
      if job.status == Cancelling then Cancelled else if |results| <= 200 then Completed else Failed
    case RaisesShutdown => RetryWait
    case RaisesCancelled => if shutdown then RetryWait else Cancelled
    case RaisesError(retryable, _) =>
      if !retryable then Failed else if job.current < job.maxAttempts then Queued else Dead
  }

  /** An execution decided its job by the verdict. */
  ghost predicate Decided(e: Execution, h: Held, verdict: JobStatus) {
    && e.raised.None? && h.job < |e.db.jobs| && e.db.jobs[h.job].status == verdict
    && (e.retry.Some? <==> verdict == Queued)
  }

  lemma ConcludeEffect(db: Db, now: int, h: Held, outcome: HandlerOutcome, shutdown: bool)
    requires Holds(db, h)
    ensures var e := Conclude(db, now, h, outcome, shutdown);
            && Finished(e.db, h)
            && if LiveAttempt(db.attempts[h.attempt].status) then
                 Decided(e, h, Verdict(db.jobs[h.job], outcome, shutdown))
               else e.db == db && e.retry.None?
  {
    match outcome
    case Returns(results) =>
      if db.jobs[h.job].status == Cancelling {
        FinishEffect(db, now, h, AttemptCancelled, Some("job_cancelled"), []);
      } else {
        FinishEffect(db, now, h, Succeeded, None, results);
      }
    case RaisesShutdown => FinishSafelyEffect(db, now, h, Lost, "application_shutdown");
    case RaisesCancelled =>
      if shutdown {
        FinishSafelyEffect(db, now, h, Lost, "application_shutdown");
      } else {
        FinishSafelyEffect(db, now, h, AttemptCancelled, "job_cancelled");
      }
    case RaisesError(retryable, code) =>
      if retryable {
        RetryAfterEffect(db, now, h, code);
      } else {
        FinishSafelyEffect(db, now, h, FailedTerminal, code);
      }
  }

  // ----------------------------------------------------------------- the whole execution

  lemma DispatchBackend(now: int, h: Held)
    ensures BackendRun(DispatchCalls(now, h))
  {
  }

  /** What the start of an execution requires: the attempt it holds was just created. */
  ghost predicate Starts(db: Db, h: Held) {
    Good(db) && h.job < |db.jobs| && Phase(db, h, db.jobs[h.job].status, Created)
  }

  lemma StartHolds(db: Db, h: Held)
    requires Starts(db, h)
    ensures Holds(db, h)
  {
    LiveIsCurrent(db, h);
  }

  lemma DispatchHolds(db: Db, now: int, h: Held)
    requires Starts(db, h)
    ensures var (dispatched, raised) := RunUntilRaise(db, DispatchCalls(now, h));
            && Good(dispatched) && Holds(dispatched, h)
            && (!raised ==> dispatched.attempts[h.attempt].status == AttemptRunning)
  {
    DispatchBackend(now, h);
    UntilRaiseSound(db, DispatchCalls(now, h));
    DispatchEffect(db, now, h);
    LiveIsCurrent(RunUntilRaise(db, DispatchCalls(now, h)).0, h);
  }

  /** The state the handler's end finds, whatever other calls came in between. */
  lemma HandlerHolds(db: Db, h: Held, during: seq<Timed>)
    requires Good(db) && Holds(db, h) && BackendRun(during)
    ensures h.job < |Run(db, during).jobs|
    ensures db.attempts[h.attempt].status == AttemptRunning ==> Good(Run(db, during)) && Holds(Run(db, during), h)
  {
    var at := Run(db, during);
    RunKeeps(db, during, h.job, h.attempt);
    if db.attempts[h.attempt].status == AttemptRunning {
      RunCoupled(db, during);
      RunKeepsRunning(db, during, h.attempt);
      if LiveAttempt(at.attempts[h.attempt].status) {
        LiveIsCurrent(at, h);
      }
    }
  }

  /** However an execution goes and whatever reaches the store meanwhile, at its end the
      held attempt has finished and the database is sound and coupled. */
  lemma ExecutionSettles(db: Db, h: Held, env: Environment)
    requires Starts(db, h) && BackendRun(env.during)
    ensures h.job < |Run(RunUntilRaise(db, DispatchCalls(env.started, h)).0, env.during).jobs|
    ensures Good(Execute(db, h, env).db) && Finished(Execute(db, h, env).db, h)
  {
    StartHolds(db, h);
    DispatchHolds(db, env.started, h);
    var (dispatched, raised) := RunUntilRaise(db, DispatchCalls(env.started, h));
    HandlerHolds(dispatched, h, env.during);
    if db.jobs[h.job].status == Cancelling {
      FinishGood(db, env.started, h, AttemptCancelled, Some("job_cancelled"), []);
      FinishEffect(db, env.started, h, AttemptCancelled, Some("job_cancelled"), []);
    } else if raised {
      FinishSafelyGood(dispatched, env.started, h, FailedTerminal, "store_error");
      FinishSafelyEffect(dispatched, env.started, h, FailedTerminal, "store_error");
    } else if env.handler.None? {
      FinishGood(dispatched, env.started, h, FailedTerminal, Some("job_handler_missing"), []);
      FinishEffect(dispatched, env.started, h, FailedTerminal, Some("job_handler_missing"), []);
    } else {
      ConcludeGood(Run(dispatched, env.during), env.ended, h, env.handler.value, env.shutdown);
      ConcludeEffect(Run(dispatched, env.during), env.ended, h, env.handler.value, env.shutdown);
    }
  }

  /** If the attempt is still running when its handler ends, the execution alone decides the
      job, by the verdict; otherwise it changes nothing more. */
  lemma ExecutionDecides(db: Db, h: Held, env: Environment)
    requires Starts(db, h) && BackendRun(env.during) && env.handler.Some?
    requires db.jobs[h.job].status != Cancelling && !RunUntilRaise(db, DispatchCalls(env.started, h)).1
    ensures h.job < |Run(RunUntilRaise(db, DispatchCalls(env.started, h)).0, env.during).jobs|
    ensures var at := Run(RunUntilRaise(db, DispatchCalls(env.started, h)).0, env.during);
            var e := Execute(db, h, env);
            && h.attempt < |at.attempts|
            && if LiveAttempt(at.attempts[h.attempt].status) then
                 Decided(e, h, Verdict(at.jobs[h.job], env.handler.value, env.shutdown))
               else e.db == at && e.retry.None?
  {
    DispatchHolds(db, env.started, h);
    var dispatched := RunUntilRaise(db, DispatchCalls(env.started, h)).0;
    HandlerHolds(dispatched, h, env.during);
    ConcludeEffect(Run(dispatched, env.during), env.ended, h, env.handler.value, env.shutdown);
  }
}
