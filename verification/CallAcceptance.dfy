/** When each call of the store is accepted, and what it then leaves. The transition tables are
    read here the other way round, by target. */
module CallAcceptance {
  import opened Wrappers
  import opened ControlPlaneSchemas
  import opened ControlPlaneStore
  import opened ControlPlaneRuns

  /** The statuses from which a job may be moved to a given one. */
  function JobSources(to: JobStatus): set<JobStatus> {
    match to
    case Queued => {Dispatching, Dispatched, RetryWait}
    case Dispatching => {Queued}
    case Dispatched => {Dispatching}
    case Running => {Dispatched}
    case RetryWait => {Running}
    case Cancelling => {Queued, Dispatched, Running, RetryWait}
    case Completed => {Running}
    case Partial => {Running}
    case Failed => {Queued, Dispatching, Running, Cancelling}
    case Cancelled => {Cancelling}
    case Dead => {RetryWait}
  }

  function AttemptSources(to: AttemptStatus): set<AttemptStatus> {
    match to
    case Created => {}
    case AttemptDispatched => {Created}
    case Claimed => {AttemptDispatched}
    case AttemptRunning => {Claimed}
    case Succeeded => {AttemptRunning}
    case FailedRetryable => {AttemptRunning}
    case FailedTerminal => {AttemptRunning}
    case AttemptCancelled => {Created, AttemptDispatched, Claimed, AttemptRunning}
    case Lost => {AttemptDispatched, Claimed, AttemptRunning}
    case Superseded => {Created, AttemptDispatched, Claimed, AttemptRunning}
  }

  lemma SourcesExact(from: JobStatus, to: JobStatus)
    ensures to in JobTransitions(from) <==> from in JobSources(to)
    ensures to in JobTransitions(from) ==> !TerminalJob(from)
  {
  }

  lemma AttemptSourcesExact(from: AttemptStatus, to: AttemptStatus)
    ensures to in AttemptTransitions(from) <==> from in AttemptSources(to)
  {
  }

  /** Only job j changed, and only in its status, error, times and revision. */
  predicate JobMoved(db: Db, after: Db, j: JobId, to: JobStatus)
    requires j < |db.jobs|
  {
    && after == db.(jobs := after.jobs, jobColumns := after.jobColumns) && |after.jobs| == |db.jobs|
    && (forall k :: 0 <= k < |db.jobs| && k != j ==> after.jobs[k] == db.jobs[k])
    && after.jobs[j].status == to && after.jobs[j].revision == db.jobs[j].revision + 1
    && after.jobs[j] == db.jobs[j].(status := to, revision := after.jobs[j].revision, error := after.jobs[j].error,
                                    cancelRequested := after.jobs[j].cancelRequested,
                                    startedAt := after.jobs[j].startedAt, finishedAt := after.jobs[j].finishedAt,
                                    updatedAt := after.jobs[j].updatedAt)
  }

  lemma TransitionJobIff(db: Db, now: int, j: JobId, to: JobStatus, error: Option<string>, revision: Option<nat>)
    requires Closed(db)
    ensures var o := TransitionJob(db, now, j, to, error, revision);
            && (o.result.Ok? <==> j < |db.jobs| && db.jobs[j].status in JobSources(to)
                                  && (revision.None? || revision.value == db.jobs[j].revision))
            && (o.result.Err? ==> o.db == db)
            && (o.result.Ok? ==>
                  && JobMoved(db, o.db, j, to) && o.result.value == o.db.jobs[j]
                  && o.db.jobs[j].error == error && o.db.jobs[j].updatedAt == now
                  && o.db.jobs[j].finishedAt == (if to in {Completed, Partial, Failed, Cancelled, Dead} then Some(now) else None)
                  && o.db.jobs[j].startedAt == (if to == Running && db.jobs[j].startedAt.None? then Some(now)
                                                else db.jobs[j].startedAt)
                  && o.db.jobs[j].cancelRequested == db.jobs[j].cancelRequested)
  {
    if j < |db.jobs| {
      SourcesExact(db.jobs[j].status, to);
    }
  }

  /** A job is cancelled from queued, dispatched, running and retry_wait, but not while it is being
      dispatched; a terminal job is returned as it is. */
  lemma CancelIff(db: Db, now: int, j: JobId)
    requires Closed(db)
    ensures var o := RequestCancel(db, now, j);
            && (o.result.Ok? <==> j < |db.jobs| && db.jobs[j].status != Dispatching && db.jobs[j].status != Cancelling)
            && (o.result.Ok? ==> o.result.value == o.db.jobs[j])
            && (if o.result.Ok? && db.jobs[j].status in {Queued, Dispatched, Running, RetryWait} then
                  && JobMoved(db, o.db, j, Cancelling) && o.db.jobs[j].cancelRequested && o.db.jobs[j].updatedAt == now
                  && o.db.jobs[j].error == db.jobs[j].error && o.db.jobs[j].finishedAt == db.jobs[j].finishedAt
                  && o.db.jobs[j].startedAt == db.jobs[j].startedAt
                else o.db == db)
            && (o.result.Err? ==> o.result.error == if j < |db.jobs| then JobCannotCancel else JobNotFound)
  {
    if j < |db.jobs| {
      SourcesExact(db.jobs[j].status, Cancelling);
    }
  }

  /** A retry is accepted if and only if the job waits for one and has attempts left, and then queues
      it with its next attempt; without attempts left the job is dead and the call fails. */
  lemma RetryIff(db: Db, now: int, j: JobId)
    requires Closed(db)
    ensures var o := CreateRetryAttempt(db, now, j);
            && (o.result.Ok? <==> j < |db.jobs| && db.jobs[j].status == RetryWait
                                  && db.jobs[j].current < db.jobs[j].maxAttempts)
            && (j < |db.jobs| && db.jobs[j].status == RetryWait ==>
                  && (forall k :: 0 <= k < |db.jobs| && k != j ==> o.db.jobs[k] == db.jobs[k])
                  && var job, next := db.jobs[j], o.db.jobs[j];
                     if o.result.Ok? then
                       next == Job(job.workspace, job.key, job.request, job.retryOf, job.maxAttempts, Queued,
                                   job.current + 1, job.cancelRequested, false, None, job.results, job.startedAt,
                                   job.finishedAt, job.createdAt, now, job.revision + 1)
                     else
                       && JobMoved(db, o.db, j, Dead) && o.result.error == JobAttemptsExhausted
                       && next.error == job.error && next.updatedAt == now && next.finishedAt == Some(now)
                       && next.cancelRequested == job.cancelRequested && next.startedAt == job.startedAt)
            && (!(j < |db.jobs| && db.jobs[j].status == RetryWait) ==>
                  o == Outcome(db, Err(if j < |db.jobs| then JobNotRetryWait else JobNotFound)))
  {
  }

  /** Only attempt a changed, and neither its job, number nor token. */
  predicate AttemptMoved(db: Db, after: Db, a: AttemptId)
    requires a < |db.attempts|
  {
    && after == db.(attempts := after.attempts) && |after.attempts| == |db.attempts|
    && (forall b :: 0 <= b < |db.attempts| && b != a ==> after.attempts[b] == db.attempts[b])
    && after.attempts[a].job == db.attempts[a].job && after.attempts[a].number == db.attempts[a].number
    && after.attempts[a].token == db.attempts[a].token
  }

  /** Who holds the token moves the attempt along the table; a claim and a start are heartbeats. */
  lemma TransitionAttemptIff(db: Db, now: int, a: AttemptId, token: Secret, to: AttemptStatus, worker: Option<string>)
    requires Closed(db)
    ensures var o := TransitionAttempt(db, now, a, token, to, worker);
            && (o.result.Ok? <==> a < |db.attempts| && db.attempts[a].token.preimage == token
                                  && db.attempts[a].status in AttemptSources(to))
            && (o.result.Err? ==> o.db == db)
            && (o.result.Ok? ==>
                  && AttemptMoved(db, o.db, a) && o.result.value == o.db.attempts[a]
                  && o.db.attempts[a].status == to && o.db.attempts[a].updatedAt == now
                  && o.db.attempts[a].worker == (if worker.Some? then worker else db.attempts[a].worker)
                  && o.db.attempts[a].heartbeatAt == (if to == Claimed || to == AttemptRunning then Some(now)
                                                      else db.attempts[a].heartbeatAt)
                  && o.db.attempts[a].startedAt == (if to == AttemptRunning then Some(now)
                                                    else db.attempts[a].startedAt))
  {
    if a < |db.attempts| {
      AttemptSourcesExact(db.attempts[a].status, to);
    }
  }

  /** Who holds the token of a claimed or running attempt keeps it alive, and changes nothing else. */
  lemma HeartbeatIff(db: Db, now: int, a: AttemptId, token: Secret)
    requires Closed(db)
    ensures var o := HeartbeatAttempt(db, now, a, token);
            && (o.result.Ok? <==> a < |db.attempts| && db.attempts[a].token.preimage == token
                                  && (db.attempts[a].status == Claimed || db.attempts[a].status == AttemptRunning))
            && (o.result.Err? ==> o.db == db)
            && (o.result.Ok? ==>
                  && AttemptMoved(db, o.db, a) && o.result.value == o.db.attempts[a]
                  && o.db.attempts[a] == db.attempts[a].(heartbeatAt := Some(now), updatedAt := now))
  {
  }

  /** The results an attempt can still be given: any while it is created or running, only its loss
      or cancellation in between. */
  predicate MayEnd(from: AttemptStatus, result: AttemptStatus) {
    match from
    case Created => true
    case AttemptRunning => true
    case AttemptDispatched => result == Lost || result == AttemptCancelled
    case Claimed => result == Lost || result == AttemptCancelled
    case _ => false
  }

  /** A completion is accepted from who holds the token of the current attempt of its job, for a
      result the attempt can still be given; a result list may have up to 200 entries. */
  lemma CompletionIff(db: Db, now: int, a: AttemptId, token: Secret, status: AttemptStatus, error: Option<string>,
                      results: seq<string>)
    requires Closed(db)
    ensures CompleteAttempt(db, now, a, token, status, error, results).result.Ok?
            <==> && status in {Succeeded, FailedRetryable, FailedTerminal, AttemptCancelled, Lost}
                 && a < |db.attempts| && db.attempts[a].token.preimage == token
                 && db.attempts[a].number == db.jobs[db.attempts[a].job].current
                 && MayEnd(db.attempts[a].status, status) && |results| <= 200
    ensures CompleteAttempt(db, now, a, token, status, error, results).result.Err? ==>
              CompleteAttempt(db, now, a, token, status, error, results).db == db
  {
    if a < |db.attempts| {
      AttemptSourcesExact(db.attempts[a].status, status);
    }
  }

  /** It ends the attempt and its job together, and nothing else. */
  lemma CompletionEnds(db: Db, now: int, a: AttemptId, token: Secret, status: AttemptStatus, error: Option<string>,
                       results: seq<string>)
    requires Closed(db) && CompleteAttempt(db, now, a, token, status, error, results).result.Ok?
    ensures var o := CompleteAttempt(db, now, a, token, status, error, results);
            var j := db.attempts[a].job;
            var verdict := if status == Succeeded then Completed else if status == FailedTerminal then Failed
                           else if status == AttemptCancelled then Cancelled else RetryWait;
            && o.db == db.(attempts := o.db.attempts, jobs := o.db.jobs, jobColumns := o.db.jobColumns)
            && o.db.attempts == db.attempts[a := db.attempts[a].(status := status, error := error,
                 retryable := status == FailedRetryable, finishedAt := Some(now), updatedAt := now)]
            && o.db.jobs == db.jobs[j := db.jobs[j].(status := verdict, error := error,
                 retryable := verdict == RetryWait,
                 finishedAt := if verdict == RetryWait then None else Some(now),
                 updatedAt := now, revision := db.jobs[j].revision + 1,
                 results := if results == [] then db.jobs[j].results else results)]
            && o.result.value == o.db.jobs[j]
  {
  }

  // ---------------------------------------------------------------------- outbox

  /** Only event e changed, and neither what it dispatches nor how often it was claimed. */
  predicate EventMoved(db: Db, after: Db, e: EventId)
    requires e < |db.events|
  {
    && after == db.(events := after.events, eventColumns := after.eventColumns) && |after.events| == |db.events|
    && (forall k :: 0 <= k < |db.events| && k != e ==> after.events[k] == db.events[k])
    && after.events[e].job == db.events[e].job && after.events[e].attempt == db.events[e].attempt
    && after.events[e].number == db.events[e].number
    && after.events[e].publishAttempts == db.events[e].publishAttempts
    && after.events[e].createdAt == db.events[e].createdAt
  }

  /** Whether a token is the present claim on an event. */
  predicate HoldsClaim(db: Db, e: EventId, token: Secret) {
    e < |db.events| && db.events[e].status == Publishing && db.events[e].claim == Some(Sha256(token))
  }

  /** The holder of a claim acknowledges it with the broker's message. */
  lemma PublishedIff(db: Db, now: int, e: EventId, token: Secret, message: string)
    requires Closed(db)
    ensures var o := MarkOutboxPublished(db, now, e, token, message);
            && (o.result.Ok? <==> HoldsClaim(db, e, token))
            && (o.result.Err? ==> o.db == db)
            && (o.result.Ok? ==>
                  && EventMoved(db, o.db, e) && o.result.value == o.db.events[e] && o.db.events[e].status == Published
                  && o.db.events[e].message == Some(BrokerMessage(message)) && o.db.events[e].claim.None?
                  && o.db.events[e].owner.None? && o.db.events[e].leaseUntil.None? && o.db.events[e].updatedAt == now
                  && o.db.events[e].error == db.events[e].error
                  && o.db.events[e].nextRetryAt == db.events[e].nextRetryAt)
  {
  }

  /** The holder of a claim gives it back; the event can be claimed again from its retry time on,
      which is at least a second away. */
  lemma GivenBackIff(db: Db, now: int, e: EventId, token: Secret, error: string, retrySeconds: int)
    requires Sound(db)
    ensures var o := MarkOutboxPublishFailed(db, now, e, token, error, retrySeconds);
            && (o.result.Ok? <==> HoldsClaim(db, e, token))
            && (o.result.Err? ==> o.db == db)
            && (o.result.Ok? ==>
                  && EventMoved(db, o.db, e) && o.result.value == o.db.events[e] && o.db.events[e].status == Pending
                  && o.db.events[e].error == Some(error) && o.db.events[e].claim.None?
                  && o.db.events[e].owner.None? && o.db.events[e].leaseUntil.None? && o.db.events[e].updatedAt == now
                  && o.db.events[e].message == db.events[e].message
                  && forall later: int :: Claimable(o.db.eventColumns[e], later)
                                          <==> later >= now + 1 && later >= now + retrySeconds)
  {
  }

  /** A pending event is published without a broker; a published one is returned as it is. */
  lemma ConsumedIff(db: Db, now: int, e: EventId)
    requires Closed(db)
    ensures var o := MarkOutboxConsumedLocal(db, now, e);
            && (o.result.Ok? <==> e < |db.events| && (db.events[e].status == Pending || db.events[e].status == Published))
            && (o.result.Ok? ==> o.result.value == o.db.events[e])
            && (if o.result.Ok? && db.events[e].status == Pending then
                  && EventMoved(db, o.db, e)
                  && o.db.events[e] == db.events[e].(status := Published, updatedAt := now,
                       message := Some(LocalMessage(db.events[e].job, db.events[e].number)))
                else o.db == db)
            && (o.result.Err? ==> o.result.error == if e < |db.events| then OutboxNotPending else OutboxNotFound)
  {
  }

  /** Who may claim an event, from its own record. */
  lemma ClaimableIff(db: Db, e: EventId, now: int)
    requires Sound(db) && e < |db.events|
    ensures Claimable(db.eventColumns[e], now)
            <==> && (db.events[e].nextRetryAt.None? || db.events[e].nextRetryAt.value <= now)
                 && (db.events[e].status == Pending
                     || (db.events[e].status == Publishing && db.events[e].leaseUntil.value < now))
  {
  }
}
