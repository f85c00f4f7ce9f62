/** What other callers can do to an attempt between the store calls of its own execution. */
module JobInterleaving {
  import opened Wrappers
  import opened ControlPlaneSchemas
  import opened ControlPlaneStore
  import opened ControlPlaneRuns
  import opened JobProtocol
  import opened JobTheorems
  import opened JobExecution

  /** The attempt of an execution, in whatever status, and its token. */
  ghost predicate Grips(db: Db, h: Held) {
    && h.job < |db.jobs| && h.attempt < |db.attempts|
    && db.attempts[h.attempt].job == h.job && db.attempts[h.attempt].token == Sha256(h.token)
  }

  /** A call of somebody who does not know the token of the attempt. */
  predicate Foreign(call: Call, h: Held) {
    && BackendCall(call)
    && match call
       case CallTransitionAttempt(a, token, _, _) => a == h.attempt ==> token != h.token
       case CallHeartbeatAttempt(a, token) => a == h.attempt ==> token != h.token
       case CallCompleteAttempt(a, token, _, _, _) => a == h.attempt ==> token != h.token
       case _ => true
  }

  predicate ForeignRun(trace: seq<Timed>, h: Held) {
    forall i :: 0 <= i < |trace| ==> Foreign(trace[i].call, h)
  }

  /** The attempt is in a given status, or has finished. */
  ghost predicate AtOrEnded(db: Db, h: Held, status: AttemptStatus) {
    && Grips(db, h)
    && (db.attempts[h.attempt].status == status || !LiveAttempt(db.attempts[h.attempt].status))
  }

  lemma ForeignCallKeeps(db: Db, t: Timed, h: Held, status: AttemptStatus)
    requires Good(db) && AtOrEnded(db, h, status) && Foreign(t.call, h)
    ensures AtOrEnded(Apply(db, t), h, status)
  {
    var after := Apply(db, t);
    CallKeeps(db, t);
    assert JobKept(db, after, h.job) && AttemptKept(db, after, h.attempt);
    if LiveAttempt(db.attempts[h.attempt].status) {
      if t.call.CallRecover? {
        RecoverEnds(db, t.now, h.attempt);
      } else if t.call.CallCreateManualRetry? {
        ManualRetryKeepsAttempts(db, t.now, t.call.job);
      } else {
        QuietCallKeeps(db, t, h);
      }
    }
  }

  lemma QuietCallKeeps(db: Db, t: Timed, h: Held)
    requires Closed(db) && Grips(db, h) && Foreign(t.call, h)
    requires !t.call.CallRecover? && !t.call.CallCreateManualRetry?
    ensures h.attempt < |Apply(db, t).attempts| && Apply(db, t).attempts[h.attempt] == db.attempts[h.attempt]
  {
    if OutboxCall(t.call) {
      OutboxCallsKeepJobs(db, t);
    }
  }

  /** Others leave the attempt where it is or finish it, whatever and however much they call. */
  lemma {:induction false} ForeignRunKeeps(db: Db, trace: seq<Timed>, h: Held, status: AttemptStatus)
    requires Good(db) && AtOrEnded(db, h, status) && ForeignRun(trace, h)
    ensures Good(Run(db, trace)) && AtOrEnded(Run(db, trace), h, status)
    decreases |trace|
  {
    if trace != [] {
      ApplySound(db, trace[0]);
      ApplyCoupled(db, trace[0]);
      ForeignCallKeeps(db, trace[0], h, status);
      ForeignRunKeeps(Apply(db, trace[0]), trace[1..], h, status);
    }
  }

  /** The status an execution has brought its attempt to before dispatch call i. */
  function StatusBefore(i: nat): AttemptStatus {
    if i <= 3 then Created else if i == 4 then AttemptDispatched else if i == 5 then Claimed else AttemptRunning
  }

  /** A dispatch call moves the attempt on; if it raises, nothing changed, and the attempt is
      as it was created, running, or has finished. */
  lemma DispatchCallMoves(db: Db, now: int, h: Held, i: nat)
    requires Good(db) && i < 7 && AtOrEnded(db, h, StatusBefore(i))
    ensures var t := DispatchCalls(now, h)[i];
            && Good(Apply(db, t))
            && (Raises(db, t) ==>
                  AtOrEnded(Apply(db, t), h, Created) || AtOrEnded(Apply(db, t), h, AttemptRunning))
            && (!Raises(db, t) ==> AtOrEnded(Apply(db, t), h, StatusBefore(i + 1)))
  {
    var t := DispatchCalls(now, h)[i];
    ApplySound(db, t);
    ApplyCoupled(db, t);
    match i
    case 3 => AttemptCallMoves(db, now, h, Created, AttemptDispatched, None);
    case 4 => AttemptCallMoves(db, now, h, AttemptDispatched, Claimed, Some("local-in-process"));
    case 5 => AttemptCallMoves(db, now, h, Claimed, AttemptRunning, None);
    case _ => QuietDispatchCall(db, t, h);
  }

  lemma AttemptCallMoves(db: Db, now: int, h: Held, from: AttemptStatus, to: AttemptStatus, worker: Option<string>)
    requires Closed(db) && AtOrEnded(db, h, from) && LiveAttempt(from) && to in AttemptTransitions(from)
    ensures var t := At(now, CallTransitionAttempt(h.attempt, h.token, to, worker));
            && (Raises(db, t) ==> AtOrEnded(Apply(db, t), h, Created))
            && (!Raises(db, t) ==> AtOrEnded(Apply(db, t), h, to))
  {
  }

  lemma QuietDispatchCall(db: Db, t: Timed, h: Held)
    requires Closed(db) && Grips(db, h) && (t.call.CallTransitionJob? || t.call.CallMarkConsumedLocal?)
    ensures Grips(Apply(db, t), h) && Apply(db, t).attempts == db.attempts
  {
  }

  /** Wherever the interleaving left it, the attempt is one its execution can end. */
  lemma GripHolds(db: Db, h: Held)
    requires Good(db) && (AtOrEnded(db, h, Created) || AtOrEnded(db, h, AttemptRunning))
    ensures Holds(db, h)
  {
    if LiveAttempt(db.attempts[h.attempt].status) {
      LiveIsCurrent(db, h);
    }
  }

  lemma CompletionMoves(db: Db, now: int, h: Held, status: AttemptStatus, error: Option<string>, results: seq<string>,
                        at: AttemptStatus)
    requires Holds(db, h) && Final(status) && AtOrEnded(db, h, at)
    ensures var o := Complete(db, now, h, status, error, results);
            && (if o.result.Ok? then AtOrEnded(o.db, h, status) && Finished(o.db, h) else AtOrEnded(o.db, h, at))
            && (o.result.Err? && |results| <= 200 ==> Finished(o.db, h))
  {
    CompletionDecides(db, now, h, status, error, results);
  }

  /** One completion by the holder: accepted, it finishes the attempt; refused, it changes nothing. */
  lemma CompletionLeaves(db: Db, now: int, h: Held, status: AttemptStatus, error: Option<string>, results: seq<string>,
                         at: AttemptStatus)
    requires Good(db) && Final(status) && (at == Created || at == AttemptRunning) && AtOrEnded(db, h, at)
    ensures var o := Complete(db, now, h, status, error, results);
            && Good(o.db)
            && (if o.result.Ok? then AtOrEnded(o.db, h, status) && Finished(o.db, h) else AtOrEnded(o.db, h, at))
            && (o.result.Err? && |results| <= 200 ==> Finished(o.db, h))
  {
    GripHolds(db, h);
    CompletionMoves(db, now, h, status, error, results, at);
    CompleteGood(db, now, h, status, error, results);
  }

  lemma RetryLeaves(db: Db, now: int, h: Held)
    requires Good(db) && Grips(db, h) && Finished(db, h)
    ensures Good(CreateRetryAttempt(db, now, h.job).db) && Finished(CreateRetryAttempt(db, now, h.job).db, h)
  {
    RetryGood(db, now, h.job);
    CallKeeps(db, At(now, CallCreateRetryAttempt(h.job)));
    assert AttemptKept(db, CreateRetryAttempt(db, now, h.job).db, h.attempt);
  }
}
