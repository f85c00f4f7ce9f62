/** Where the protocol rests on its callers: complete_attempt does not consult the job
    transition table, so the table alone does not keep a terminal job terminal. */
module JobLimits {
  import opened Wrappers
  import opened ControlPlaneSchemas
  import opened ControlPlaneStore
  import opened ControlPlaneRuns
  import opened JobProtocol

  /** A call that would move a terminal job out of its status exists exactly when the
      current attempt of the job is still live. */
  lemma TerminalWritableIff(db: Db, j: JobId)
    requires Closed(db) && Numbered(db) && j < |db.jobs| && TerminalJob(db.jobs[j].status)
    ensures LiveAttempt(Current(db, j).status)
            <==> exists a: AttemptId, token: Secret, status: AttemptStatus ::
                   WouldRewrite(db, j, a, token, status)
  {
    var c := CurrentAttempt(db, j);
    assert (j, db.jobs[j].current) in db.index;
    if LiveAttempt(db.attempts[c].status) {
      assert WouldRewrite(db, j, c, db.attempts[c].token.preimage, AcceptedResult(db.attempts[c].status));
    }
    forall a: AttemptId, token: Secret, status: AttemptStatus | WouldRewrite(db, j, a, token, status)
      ensures a == c && LiveAttempt(db.attempts[c].status)
    {
      assert (db.attempts[a].job, db.attempts[a].number) in db.index;
    }
  }

  function AcceptedResult(s: AttemptStatus): AttemptStatus {
    if s == AttemptRunning then FailedRetryable else Lost
  }

  predicate WouldRewrite(db: Db, j: JobId, a: AttemptId, token: Secret, status: AttemptStatus)
    requires Closed(db)
  {
    a < |db.attempts| && db.attempts[a].job == j
    && CompleteAttempt(db, 0, a, token, status, None, []).result.Ok?
  }

  /** The transition table lets a caller end any running job directly. Its attempt is
      then still live, and a late lost result puts the completed job into retry_wait. */
  lemma CompletedJobRevives(db: Db, now: int, j: JobId, later: int)
    requires Closed(db) && Numbered(db) && Coupled(db) && j < |db.jobs| && db.jobs[j].status == Running
    ensures var ended := TransitionJob(db, now, j, Completed, None, None);
            && ended.result.Ok? && ended.db.jobs[j].status == Completed && !Coupled(ended.db)
            && var a := CurrentAttempt(ended.db, j);
               var revived := CompleteAttempt(ended.db, later, a, ended.db.attempts[a].token.preimage, Lost, None, []);
               revived.result.Ok? && revived.db.jobs[j].status == RetryWait
  {
    var c := CurrentAttempt(db, j);
    assert (j, db.jobs[j].current) in db.index;
    assert Fits(db.jobs[j], db.attempts[c]);
    TransitionJobCoupledIff(db, now, j, Completed, None, None);
  }
}
