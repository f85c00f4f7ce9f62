/** The in-process backend and the outbox dispatcher, call by call over the store object. */
module JobBackend {
  import opened Wrappers
  import opened ControlPlaneSchemas
  import opened ControlPlaneStore
  import opened ControlPlaneRuns
  import opened JobTheorems
  import opened JobExecution
  import opened JobInterleaving
  import LocalControlPlane

  type Store = LocalControlPlane.LocalControlPlaneStore

  /** One call of any caller. */
  method Perform(store: Store, t: Timed)
    requires store.Valid()
    modifies store
    ensures store.Valid() && store.Contents() == Apply(old(store.Contents()), t)
  {
    match t.call
    case CallCreateJob(w, k, r, m) => var o := store.CreateJob(t.now, w, ClientKey(k), r, None, m);
    case CallTransitionJob(j, target, error, revision) => var o := store.TransitionJob(t.now, j, target, error, revision);
    case CallRequestCancel(j) => var o := store.RequestCancel(t.now, j);
    case CallCreateRetryAttempt(j) => var o := store.CreateRetryAttempt(t.now, j);
    case CallCreateManualRetry(j) => var o := store.CreateManualRetry(t.now, j);
    case CallTransitionAttempt(a, token, to, worker) => var o := store.TransitionAttempt(t.now, a, token, to, worker);
    case CallHeartbeatAttempt(a, token) => var o := store.HeartbeatAttempt(t.now, a, token);
    case CallCompleteAttempt(a, token, status, error, results) =>
      var o := store.CompleteAttempt(t.now, a, token, status, error, results);
    case CallRecover => var recovered := store.RecoverIncompleteJobs(t.now);
    case CallClaimOutbox(owner, batchSize, leaseSeconds) =>
      var claims := store.ClaimOutbox(t.now, owner, batchSize, leaseSeconds);
    case CallMarkPublished(e, token, message) => var o := store.MarkOutboxPublished(t.now, e, token, message);
    case CallMarkPublishFailed(e, token, code, seconds) =>
      var o := store.MarkOutboxPublishFailed(t.now, e, token, code, seconds);
    case CallMarkConsumedLocal(e) => var o := store.MarkOutboxConsumedLocal(t.now, e);
  }

  class InProcessJobBackend {
    const store: Store

    constructor (store: Store)
      ensures this.store == store
    {
      this.store := store;
    }

    method FinishSafely(now: int, h: Held, status: AttemptStatus, error: string) returns (raised: Option<Code>)
      requires store.Valid()
      modifies store
      ensures store.Valid()
      ensures Execution(store.Contents(), None, raised)
           == JobExecution.FinishSafely(old(store.Contents()), now, h, status, error)
    {
      var o := store.CompleteAttempt(now, h.attempt, h.token, status, Some(error), []);
      if o.Err? && o.error != LateAttemptResult && o.error != StaleExecutionToken
         && o.error != InvalidAttemptTransition {
        return Some(o.error);
      }
      raised := None;
    }

    method Finish(now: int, h: Held, status: AttemptStatus, error: Option<string>, results: seq<string>)
      returns (raised: Option<Code>)
      requires store.Valid()
      modifies store
      ensures store.Valid()
      ensures Execution(store.Contents(), None, raised)
           == JobExecution.Finish(old(store.Contents()), now, h, status, error, results)
    {
      var o := store.CompleteAttempt(now, h.attempt, h.token, status, error, results);
      if o.Ok? {
        return None;
      }
      raised := FinishSafely(now, h, FailedTerminal, "store_error");
    }

    method RetryAfter(now: int, h: Held, code: string) returns (retry: Option<CreatedJob>, raised: Option<Code>)
      requires store.Valid()
      modifies store
      ensures store.Valid()
      ensures Execution(store.Contents(), retry, raised)
           == JobExecution.RetryAfter(old(store.Contents()), now, h, code)
    {
      var o := store.CompleteAttempt(now, h.attempt, h.token, FailedRetryable, Some(code), []);
      if o.Err? {
        return None, Some(o.error);
      }
      var r := store.CreateRetryAttempt(now, h.job);
      if o.value.current < o.value.maxAttempts {
        if r.Ok? {
          return Some(r.value), None;
        }
        return None, Some(r.error);
      }
      return None, None;
    }

    /** The calls up to the handler, stopping at the first that raises. */
    method Dispatch(now: int, h: Held) returns (raised: bool)
      requires store.Valid()
      modifies store
      ensures store.Valid()
      ensures (store.Contents(), raised) == RunUntilRaise(old(store.Contents()), DispatchCalls(now, h))
    {
      var calls := DispatchCalls(now, h);
      for i := 0 to |calls|
        invariant store.Valid()
        invariant RunUntilRaise(old(store.Contents()), calls) == RunUntilRaise(store.Contents(), calls[i..])
      {
        ghost var before := store.Contents();
        assert calls[i..][0] == calls[i] && calls[i..][1..] == calls[i + 1..];
        raised := Call(calls[i]);
        if raised {
          return;
        }
      }
      raised := false;
    }

    /** One of the dispatch calls, and whether it raised. */
    method Call(t: Timed) returns (raised: bool)
      requires store.Valid()
      modifies store
      ensures store.Valid() && store.Contents() == Apply(old(store.Contents()), t)
      ensures raised == Raises(old(store.Contents()), t)
    {
      match t.call
      case CallTransitionJob(j, target, error, revision) =>
        var o := store.TransitionJob(t.now, j, target, error, revision);
        raised := o.Err?;
      case CallMarkConsumedLocal(e) =>
        var o := store.MarkOutboxConsumedLocal(t.now, e);
        raised := o.Err?;
      case CallTransitionAttempt(a, token, to, worker) =>
        var o := store.TransitionAttempt(t.now, a, token, to, worker);
        raised := o.Err?;
      case _ =>
        Perform(store, t);
        raised := false;
    }

    method Conclude(now: int, h: Held, outcome: HandlerOutcome, shutdown: bool)
      returns (retry: Option<CreatedJob>, raised: Option<Code>)
      requires store.Valid() && h.job < |store.jobs|
      modifies store
      ensures store.Valid()
      ensures Execution(store.Contents(), retry, raised)
           == JobExecution.Conclude(old(store.Contents()), now, h, outcome, shutdown)
    {
      retry := None;
      match outcome
      case Returns(results) =>
        if store.jobs[h.job].status == Cancelling {
          raised := Finish(now, h, AttemptCancelled, Some("job_cancelled"), []);
        } else {
          raised := Finish(now, h, Succeeded, None, results);
        }
      case RaisesShutdown => raised := FinishSafely(now, h, Lost, "application_shutdown");
      case RaisesCancelled =>
        if shutdown {
          raised := FinishSafely(now, h, Lost, "application_shutdown");
        } else {
          raised := FinishSafely(now, h, AttemptCancelled, "job_cancelled");
        }
      case RaisesError(retryable, code) =>
        if retryable {
          retry, raised := RetryAfter(now, h, code);
        } else {
          raised := FinishSafely(now, h, FailedTerminal, code);
        }
    }

    /** The calls of the other callers while the handler runs. */
    method RunHandler(during: seq<Timed>)
      requires store.Valid()
      modifies store
      ensures store.Valid() && store.Contents() == Run(old(store.Contents()), during)
    {
      for i := 0 to |during|
        invariant store.Valid()
        invariant Run(old(store.Contents()), during) == Run(store.Contents(), during[i..])
      {
        assert during[i..][0] == during[i] && during[i..][1..] == during[i + 1..];
        Perform(store, during[i]);
      }
    }

    /** One execution of a held attempt. */
    method Execute(h: Held, env: Environment) returns (retry: Option<CreatedJob>, raised: Option<Code>)
      requires store.Valid() && Starts(store.Contents(), h) && BackendRun(env.during)
      modifies store
      ensures h.job < |Run(RunUntilRaise(old(store.Contents()), DispatchCalls(env.started, h)).0, env.during).jobs|
      ensures store.Valid()
      ensures Execution(store.Contents(), retry, raised)
           == JobExecution.Execute(old(store.Contents()), h, env)
      ensures Good(store.Contents()) && Finished(store.Contents(), h)
    {
      ExecutionSettles(store.Contents(), h, env);
      if store.jobs[h.job].status == Cancelling {
        raised := Finish(env.started, h, AttemptCancelled, Some("job_cancelled"), []);
        return None, raised;
      }
      var stopped := Dispatch(env.started, h);
      if stopped {
        raised := FinishSafely(env.started, h, FailedTerminal, "store_error");
        return None, raised;
      }
      if env.handler.None? {
        raised := Finish(env.started, h, FailedTerminal, Some("job_handler_missing"), []);
        return None, raised;
      }
      RunHandler(env.during);
      retry, raised := Conclude(env.ended, h, env.handler.value, env.shutdown);
    }

    // ------------------------------------------- with other callers between the calls

    /** Any calls of others, none of whom knows the token of the attempt. */
    method Others(h: Held, ghost status: AttemptStatus)
      requires store.Valid() && Good(store.Contents()) && AtOrEnded(store.Contents(), h, status)
      modifies store
      ensures store.Valid() && Good(store.Contents()) && AtOrEnded(store.Contents(), h, status)
    {
      var calls: seq<Timed> := *;
      if ForeignRun(calls, h) {
        ForeignRunKeeps(store.Contents(), calls, h, status);
        RunHandler(calls);
      }
    }

    /** One completion by the holder: accepted, it finishes the attempt; refused, it changes nothing. */
    method CompleteAmong(now: int, h: Held, status: AttemptStatus, error: Option<string>, results: seq<string>,
                         ghost at: AttemptStatus)
      returns (o: Result<Job, Code>)
      requires store.Valid() && Good(store.Contents()) && Final(status)
      requires (at == Created || at == AttemptRunning) && AtOrEnded(store.Contents(), h, at)
      modifies store
      ensures store.Valid() && Good(store.Contents())
      ensures if o.Ok? then AtOrEnded(store.Contents(), h, status) && Finished(store.Contents(), h)
              else AtOrEnded(store.Contents(), h, at)
      ensures o.Err? && |results| <= 200 ==> Finished(store.Contents(), h)
    {
      CompletionLeaves(store.Contents(), now, h, status, error, results, at);
      o := store.CompleteAttempt(now, h.attempt, h.token, status, error, results);
    }

    /** Ends the attempt, with a second try after an error of the store. */
    method FinishAmong(now: int, h: Held, status: AttemptStatus, error: Option<string>, results: seq<string>,
                       ghost at: AttemptStatus)
      returns (raised: Option<Code>)
      requires store.Valid() && Good(store.Contents()) && Final(status)
      requires (at == Created || at == AttemptRunning) && AtOrEnded(store.Contents(), h, at)
      modifies store
      ensures store.Valid() && Good(store.Contents()) && Finished(store.Contents(), h)
    {
      Others(h, at);
      var o := CompleteAmong(now, h, status, error, results, at);
      if o.Ok? {
        return None;
      }
      raised := FinishSafelyAmong(now, h, FailedTerminal, "store_error", at);
    }

    method FinishSafelyAmong(now: int, h: Held, status: AttemptStatus, error: string, ghost at: AttemptStatus)
      returns (raised: Option<Code>)
      requires store.Valid() && Good(store.Contents()) && Final(status)
      requires (at == Created || at == AttemptRunning) && AtOrEnded(store.Contents(), h, at)
      modifies store
      ensures store.Valid() && Good(store.Contents()) && Finished(store.Contents(), h) && raised.None?
    {
      Others(h, at);
      GripHolds(store.Contents(), h);
      FinishSafelyGood(store.Contents(), now, h, status, error);
      FinishSafelyEffect(store.Contents(), now, h, status, error);
      raised := FinishSafely(now, h, status, error);
    }

    /** Completes the attempt as retryable and asks for the next one. */
    method RetryAfterAmong(now: int, h: Held, code: string, ghost at: AttemptStatus)
      returns (retry: Option<CreatedJob>, raised: Option<Code>)
      requires store.Valid() && Good(store.Contents())
      requires (at == Created || at == AttemptRunning) && AtOrEnded(store.Contents(), h, at)
      modifies store
      ensures store.Valid() && Good(store.Contents()) && Finished(store.Contents(), h)
    {
      Others(h, at);
      var o := CompleteAmong(now, h, FailedRetryable, Some(code), [], at);
      if o.Err? {
        return None, Some(o.error);
      }
      retry, raised := AskAgain(now, h, o.value);
    }

    /** Asks for the next attempt; for an exhausted job the error is ignored. */
    method AskAgain(now: int, h: Held, job: Job) returns (retry: Option<CreatedJob>, raised: Option<Code>)
      requires store.Valid() && Good(store.Contents()) && AtOrEnded(store.Contents(), h, FailedRetryable)
      modifies store
      ensures store.Valid() && Good(store.Contents()) && Finished(store.Contents(), h)
    {
      Others(h, FailedRetryable);
      RetryLeaves(store.Contents(), now, h);
      var r := store.CreateRetryAttempt(now, h.job);
      retry := if job.current < job.maxAttempts && r.Ok? then Some(r.value) else None;
      raised := if job.current < job.maxAttempts && r.Err? then Some(r.error) else None;
    }

    /** One execution with other callers between any two of its calls, holding an attempt that
        was just created or that somebody finished while it waited. At its end the attempt has
        finished, and the database is sound and coupled. */
    method ExecuteAmong(h: Held, now: int, handler: Option<HandlerOutcome>, ended: int, shutdown: bool)
      returns (retry: Option<CreatedJob>, raised: Option<Code>)
      requires store.Valid() && Good(store.Contents()) && AtOrEnded(store.Contents(), h, Created)
      modifies store
      ensures store.Valid() && Good(store.Contents()) && Finished(store.Contents(), h)
    {
      Others(h, Created);
      if store.jobs[h.job].status == Cancelling {
        raised := FinishAmong(now, h, AttemptCancelled, Some("job_cancelled"), [], Created);
        return None, raised;
      }
      var stopped := DispatchAmong(now, h);
      if stopped {
        return None, None;
      }
      if handler.None? {
        raised := FinishAmong(now, h, FailedTerminal, Some("job_handler_missing"), [], AttemptRunning);
        return None, raised;
      }
      Others(h, AttemptRunning);
      retry, raised := ConcludeAmong(ended, h, handler.value, shutdown);
    }

    /** The dispatch calls; an execution that one of them stopped has ended its attempt. */
    method DispatchAmong(now: int, h: Held) returns (stopped: bool)
      requires store.Valid() && Good(store.Contents()) && AtOrEnded(store.Contents(), h, Created)
      modifies store
      ensures store.Valid() && Good(store.Contents())
      ensures if stopped then Finished(store.Contents(), h) else AtOrEnded(store.Contents(), h, AttemptRunning)
    {
      stopped := false;
      for i := 0 to 7
        invariant store.Valid() && Good(store.Contents()) && AtOrEnded(store.Contents(), h, StatusBefore(i))
      {
        Others(h, StatusBefore(i));
        stopped := DispatchOnce(now, h, i);
        if stopped {
          ghost var at := if AtOrEnded(store.Contents(), h, Created) then Created else AttemptRunning;
          var raised := FinishSafelyAmong(now, h, FailedTerminal, "store_error", at);
          return;
        }
      }
    }

    method DispatchOnce(now: int, h: Held, i: nat) returns (raised: bool)
      requires store.Valid() && Good(store.Contents()) && i < 7 && AtOrEnded(store.Contents(), h, StatusBefore(i))
      modifies store
      ensures store.Valid() && Good(store.Contents())
      ensures if raised then AtOrEnded(store.Contents(), h, Created) || AtOrEnded(store.Contents(), h, AttemptRunning)
              else AtOrEnded(store.Contents(), h, StatusBefore(i + 1))
    {
      DispatchCallMoves(store.Contents(), now, h, i);
      raised := Call(DispatchCalls(now, h)[i]);
    }

    method ConcludeAmong(now: int, h: Held, outcome: HandlerOutcome, shutdown: bool)
      returns (retry: Option<CreatedJob>, raised: Option<Code>)
      requires store.Valid() && Good(store.Contents()) && AtOrEnded(store.Contents(), h, AttemptRunning)
      modifies store
      ensures store.Valid() && Good(store.Contents()) && Finished(store.Contents(), h)
    {
      retry := None;
      match outcome
      case Returns(results) =>
        if store.jobs[h.job].status == Cancelling {
          raised := FinishAmong(now, h, AttemptCancelled, Some("job_cancelled"), [], AttemptRunning);
        } else {
          raised := FinishAmong(now, h, Succeeded, None, results, AttemptRunning);
        }
      case RaisesShutdown => raised := FinishSafelyAmong(now, h, Lost, "application_shutdown", AttemptRunning);
      case RaisesCancelled =>
        if shutdown {
          raised := FinishSafelyAmong(now, h, Lost, "application_shutdown", AttemptRunning);
        } else {
          raised := FinishSafelyAmong(now, h, AttemptCancelled, "job_cancelled", AttemptRunning);
        }
      case RaisesError(retryable, code) =>
        if retryable {
          retry, raised := RetryAfterAmong(now, h, code, AttemptRunning);
        } else {
          raised := FinishSafelyAmong(now, h, FailedTerminal, code, AttemptRunning);
        }
    }
  }
}
