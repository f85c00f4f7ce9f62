/** What restart recovery does to every job, attempt and event of the database. */
module Recovery {
  import opened Wrappers
  import opened ControlPlaneSchemas
  import opened ControlPlaneStore
  import opened ControlPlaneRuns

  /** `after` has the rows of `db` and possibly more attempts, in the same places. */
  ghost predicate Extends(db: Db, after: Db) {
    && Closed(db) && Closed(after)
    && |after.jobs| == |db.jobs| && |db.attempts| <= |after.attempts|
    && db.nextSecret <= after.nextSecret
    && (forall k :: k in db.index ==> k in after.index && after.index[k] == db.index[k])
  }

  /** The fields of an attempt that no call may change. */
  predicate SameAttempt(before: Attempt, after: Attempt) {
    after.job == before.job && after.number == before.number && after.token == before.token
  }

  /** An incomplete job and its current attempt and event after recovery. */
  ghost predicate Recovered(db: Db, after: Db, j: JobId)
    requires Extends(db, after) && j < |db.jobs|
  {
    var job, next := db.jobs[j], after.jobs[j];
    var a := CurrentAttempt(db, j);
    && next.revision == job.revision + 1 && next.maxAttempts == job.maxAttempts
    && SameAttempt(db.attempts[a], after.attempts[a])
    && !LiveAttempt(after.attempts[a].status)
    && (LiveAttempt(db.attempts[a].status) ==>
          after.attempts[a].status == if db.attempts[a].status == Created then Superseded else Lost)
    && (!LiveAttempt(db.attempts[a].status) ==> after.attempts[a] == db.attempts[a])
    && after.events[a].status == EventFailed
    && if job.status == Cancelling then
         next.status == Cancelled && next.current == job.current && next.finishedAt.Some?
       else if job.current == job.maxAttempts then
         next.status == Dead && next.current == job.current && next.finishedAt.Some?
       else
         next.status == Queued && next.current == job.current + 1 && !next.cancelRequested
         && FreshAttempt(db, after, j)
  }

  /** The current attempt of a requeued job is new, as are its token and its event. */
  ghost predicate FreshAttempt(db: Db, after: Db, j: JobId)
    requires Extends(db, after) && j < |db.jobs|
  {
    var b := CurrentAttempt(after, j);
    && |db.attempts| <= b
    && after.attempts[b].job == j && after.attempts[b].status == Created
    && db.nextSecret <= after.attempts[b].token.preimage
    && after.events[b].status == Pending && after.events[b].claim.None?
    && after.events[b].publishAttempts == 0 && after.events[b].nextRetryAt.None?
  }

  ghost predicate Requeued(db: Db, after: Db, c: CreatedJob)
    requires Extends(db, after)
  {
    && c.job < |db.jobs| && after.jobs[c.job].status == Queued
    && c.attempt == CurrentAttempt(after, c.job) && c.event == c.attempt
    && c.token.Some? && after.attempts[c.attempt].token == Sha256(c.token.value)
  }

  predicate Increasing(rows: seq<JobId>) {
    forall x, y :: 0 <= x < y < |rows| ==> rows[x] < rows[y]
  }

  /** The rows that are queued again, in the order of the scan. */
  function RequeuedRows(jobs: seq<Job>, rows: seq<JobId>): seq<JobId>
    requires forall x :: 0 <= x < |rows| ==> rows[x] < |jobs|
  {
    if |rows| == 0 then []
    else
      var last := |rows| - 1;
      RequeuedRows(jobs, rows[..last]) + (if Requeues(jobs[rows[last]]) then [rows[last]] else [])
  }

  lemma SplitLast<T>(s: seq<T>)
    requires |s| > 0
    ensures s == s[..|s| - 1] + [s[|s| - 1]] && s == s[..|s|]
  {
  }

  lemma SweepEffect(db: Db, now: int, j: JobId)
    requires Closed(db) && Numbered(db) && j < |db.jobs|
    ensures Numbered(SweepCurrent(db, now, j))
    ensures var a, swept := CurrentAttempt(db, j), SweepCurrent(db, now, j);
            && swept.jobs == db.jobs && swept.index == db.index && swept.nextSecret == db.nextSecret
            && |swept.attempts| == |db.attempts|
            && swept.attempts[a] == SweepAttempt(db.attempts[a], now)
            && swept.events[a].status == EventFailed
            && (forall b :: 0 <= b < |db.attempts| && b != a ==>
                  swept.attempts[b] == db.attempts[b] && swept.events[b] == db.events[b])
  {
    var a := CurrentAttempt(db, j);
    var found := FindEvent(db.events, a);
    assert db.events[a].attempt == a;
  }

  /** `after` differs from `db` only in job j, its current attempt and event, and new attempts. */
  ghost predicate OnlyJob(db: Db, after: Db, j: JobId)
    requires Extends(db, after) && j < |db.jobs|
  {
    var a := CurrentAttempt(db, j);
    && (forall k :: 0 <= k < |db.jobs| && k != j ==> after.jobs[k] == db.jobs[k])
    && (forall b :: 0 <= b < |db.attempts| && b != a ==>
          after.attempts[b] == db.attempts[b] && after.events[b] == db.events[b])
  }

  lemma RequeueEffect(swept: Db, now: int, j: JobId)
    requires Closed(swept) && Numbered(swept) && j < |swept.jobs|
    ensures var job := swept.jobs[j];
            var (after, created) := Requeue(swept, now, j);
            && Numbered(after)
            && Extends(swept, after) && OnlyJob(swept, after, j)
            && after.attempts[..|swept.attempts|] == swept.attempts
            && after.events[..|swept.events|] == swept.events
            && |after.attempts| == |swept.attempts| + (if Requeues(job) then 1 else 0)
            && (created.Some? <==> Requeues(job))
            && (created.Some? ==> created.value.job == j && Requeued(swept, after, created.value)
                                  && FreshAttempt(swept, after, j))
  {
    var job := swept.jobs[j];
    var after := Requeue(swept, now, j).0;
    if Requeues(job) {
      InsertNumbered(swept, after, j, job.current + 1);
    }
  }

  /** One iteration leaves every other row as it is. */
  lemma RecoverJobFrame(db: Db, now: int, j: JobId)
    requires Closed(db) && Numbered(db) && j < |db.jobs|
    ensures var (after, created) := RecoverJob(db, now, j);
            && Numbered(after) && Extends(db, after) && OnlyJob(db, after, j)
            && |after.attempts| == |db.attempts| + (if Requeues(db.jobs[j]) then 1 else 0)
            && (created.Some? <==> Requeues(db.jobs[j]))
            && (created.Some? ==> created.value.job == j && Requeued(db, after, created.value))
  {
    var swept := SweepCurrent(db, now, j);
    var after := Requeue(swept, now, j).0;
    SweepEffect(db, now, j);
    RequeueEffect(swept, now, j);
    assert forall b :: 0 <= b < |db.attempts| ==>
        after.attempts[b] == swept.attempts[b] && after.events[b] == swept.events[b];
  }

  /** A swept job that is then given up or queued again has recovered. */
  lemma SweptRecovers(db: Db, swept: Db, after: Db, now: int, j: JobId)
    requires Closed(db) && Numbered(db) && j < |db.jobs| && Extends(db, swept) && Extends(swept, after)
    requires swept.jobs == db.jobs && swept.index == db.index
    requires |swept.attempts| == |db.attempts| && swept.nextSecret == db.nextSecret
    requires var a := CurrentAttempt(db, j);
             && swept.attempts[a] == SweepAttempt(db.attempts[a], now)
             && swept.events[a].status == EventFailed
             && after.attempts[a] == swept.attempts[a] && after.events[a] == swept.events[a]
    requires after.jobs[j] == RecoveredJob(db.jobs[j], now)
    requires Requeues(db.jobs[j]) ==> FreshAttempt(swept, after, j)
    ensures Recovered(db, after, j)
  {
  }

  /** One iteration recovers its own job. */
  lemma RecoverJobRecovers(db: Db, now: int, j: JobId)
    requires Closed(db) && Numbered(db) && j < |db.jobs|
    requires Extends(db, RecoverJob(db, now, j).0)
    ensures Recovered(db, RecoverJob(db, now, j).0, j)
  {
    var swept := SweepCurrent(db, now, j);
    var after := Requeue(swept, now, j).0;
    var a := CurrentAttempt(db, j);
    SweepEffect(db, now, j);
    RequeueEffect(swept, now, j);
    assert after.attempts[a] == swept.attempts[a] && after.events[a] == swept.events[a];
    SweptRecovers(db, swept, after, now, j);
  }

  /** A recovered job stays recovered while recovery works on another one. */
  lemma RecoveredStays(db: Db, mid: Db, after: Db, k: JobId, j: JobId)
    requires Extends(db, mid) && Extends(mid, after) && Numbered(db) && Numbered(mid)
    requires k < |db.jobs| && j < |db.jobs| && k != j
    requires OnlyJob(mid, after, j)
    requires Recovered(db, mid, k)
    ensures Recovered(db, after, k)
  {
    var a, b, c := CurrentAttempt(db, k), CurrentAttempt(mid, k), CurrentAttempt(mid, j);
    assert db.attempts[a].job == k;
    assert (k, db.jobs[k].current) in db.index;
    assert mid.attempts[b].job == k && mid.attempts[c].job == j;
    assert (k, db.jobs[k].current) in mid.index && mid.attempts[a].job == k;
    assert CurrentAttempt(after, k) == b;
    assert after.attempts[a] == mid.attempts[a] && after.events[a] == mid.events[a];
    assert after.attempts[b] == mid.attempts[b] && after.events[b] == mid.events[b];
    assert after.jobs[k] == mid.jobs[k];
  }

  /** The rows done are recovered; the rest of the database is as it was. */
  ghost predicate RowsDone(db: Db, after: Db, rows: seq<JobId>) {
    && Extends(db, after)
    && (forall j :: j in rows ==> j < |db.jobs| && Recovered(db, after, j))
    && (forall j :: 0 <= j < |db.jobs| && j !in rows ==> after.jobs[j] == db.jobs[j])
    && (forall a :: 0 <= a < |db.attempts| && !Swept(db, rows, a) ==>
          after.attempts[a] == db.attempts[a] && after.events[a] == db.events[a])
  }

  /** Attempt a is the current attempt of one of the rows. */
  ghost predicate Swept(db: Db, rows: seq<JobId>, a: AttemptId)
    requires Closed(db) && a < |db.attempts|
  {
    db.attempts[a].job in rows && db.attempts[a].number == db.jobs[db.attempts[a].job].current
  }

  /** Exactly the requeued rows are returned, in scan order, each with its one new attempt. */
  ghost predicate CreatedFor(db: Db, after: Db, created: seq<CreatedJob>, rows: seq<JobId>)
    requires Extends(db, after) && forall x :: 0 <= x < |rows| ==> rows[x] < |db.jobs|
  {
    var requeued := RequeuedRows(db.jobs, rows);
    && |after.attempts| == |db.attempts| + |created|
    && |created| == |requeued|
    && (forall x :: 0 <= x < |created| ==> created[x].job == requeued[x] && Requeued(db, after, created[x]))
  }

  ghost predicate Progress(db: Db, after: Db, created: seq<CreatedJob>, rows: seq<JobId>) {
    && (forall x :: 0 <= x < |rows| ==> rows[x] < |db.jobs|)
    && RowsDone(db, after, rows) && CreatedFor(db, after, created, rows)
  }

  lemma RowsDoneStep(db: Db, mid: Db, after: Db, rows: seq<JobId>, j: JobId)
    requires Closed(db) && Numbered(db) && Extends(mid, after) && Numbered(mid)
    requires RowsDone(db, mid, rows) && j < |db.jobs| && j !in rows
    requires OnlyJob(mid, after, j) && Recovered(mid, after, j)
    ensures RowsDone(db, after, rows + [j])
  {
    var a := CurrentAttempt(db, j);
    assert (j, db.jobs[j].current) in db.index && db.attempts[a].job == j;
    assert !Swept(db, rows, a) && CurrentAttempt(mid, j) == a;
    forall k | k in rows + [j] ensures k < |db.jobs| && Recovered(db, after, k) {
      if k != j {
        RecoveredStays(db, mid, after, k, j);
      }
    }
    forall b | 0 <= b < |db.attempts| && !Swept(db, rows + [j], b)
      ensures after.attempts[b] == db.attempts[b] && after.events[b] == db.events[b]
    {
      assert !Swept(db, rows, b) && b != a;
    }
  }

  lemma CreatedForStep(db: Db, mid: Db, after: Db, done: seq<CreatedJob>, created: Option<CreatedJob>,
                       rows: seq<JobId>, j: JobId)
    requires Extends(db, mid) && Numbered(mid) && Extends(mid, after)
    requires forall x :: 0 <= x < |rows| ==> rows[x] < |db.jobs| && rows[x] != j
    requires j < |db.jobs| && OnlyJob(mid, after, j) && mid.jobs[j] == db.jobs[j]
    requires CreatedFor(db, mid, done, rows)
    requires |after.attempts| == |mid.attempts| + (if Requeues(mid.jobs[j]) then 1 else 0)
    requires created.Some? <==> Requeues(mid.jobs[j])
    requires created.Some? ==> created.value.job == j && Requeued(mid, after, created.value)
    ensures CreatedFor(db, after, done + (if created.Some? then [created.value] else []), rows + [j])
  {
    assert (rows + [j])[..|rows|] == rows;
    RequeuedFrom(db.jobs, rows);
    forall x | 0 <= x < |done| ensures Requeued(db, after, done[x]) {
      var k := done[x].job;
      assert k in rows;
      assert (k, mid.jobs[k].current) in mid.index && (j, mid.jobs[j].current) in mid.index;
      assert mid.attempts[CurrentAttempt(mid, k)].job == k && mid.attempts[CurrentAttempt(mid, j)].job == j;
    }
  }

  lemma {:induction false} RequeuedFrom(jobs: seq<Job>, rows: seq<JobId>)
    requires forall x :: 0 <= x < |rows| ==> rows[x] < |jobs|
    ensures forall j :: j in RequeuedRows(jobs, rows) <==> j in rows && Requeues(jobs[j])
    ensures |RequeuedRows(jobs, rows)| <= |rows|
  {
    if |rows| > 0 {
      RequeuedFrom(jobs, rows[..|rows| - 1]);
      assert rows == rows[..|rows| - 1] + [rows[|rows| - 1]];
    }
  }

  lemma ProgressStep(db: Db, mid: Db, after: Db, done: seq<CreatedJob>, created: Option<CreatedJob>,
                     rows: seq<JobId>, j: JobId)
    requires Closed(db) && Numbered(db) && Extends(mid, after) && Numbered(mid) && j < |db.jobs|
    requires j !in rows && Progress(db, mid, done, rows)
    requires OnlyJob(mid, after, j) && Recovered(mid, after, j)
    requires |after.attempts| == |mid.attempts| + (if Requeues(mid.jobs[j]) then 1 else 0)
    requires created.Some? <==> Requeues(mid.jobs[j])
    requires created.Some? ==> created.value.job == j && Requeued(mid, after, created.value)
    ensures Progress(db, after, done + (if created.Some? then [created.value] else []), rows + [j])
  {
    RowsDoneStep(db, mid, after, rows, j);
    CreatedForStep(db, mid, after, done, created, rows, j);
  }

  lemma RecoverNext(db: Db, mid: Db, done: seq<CreatedJob>, now: int, rows: seq<JobId>, j: JobId)
    requires Closed(db) && Numbered(db) && Closed(mid) && Numbered(mid) && j < |db.jobs|
    requires j !in rows && Progress(db, mid, done, rows)
    ensures var (after, created) := RecoverJob(mid, now, j);
            && Numbered(after)
            && Progress(db, after, done + (if created.Some? then [created.value] else []), rows + [j])
  {
    var (after, created) := RecoverJob(mid, now, j);
    RecoverJobFrame(mid, now, j);
    RecoverJobRecovers(mid, now, j);
    ProgressStep(db, mid, after, done, created, rows, j);
  }

  lemma {:induction false} RecoverJobsEffect(db: Db, now: int, rows: seq<JobId>)
    requires Closed(db) && Numbered(db)
    requires Increasing(rows) && forall x :: 0 <= x < |rows| ==> rows[x] < |db.jobs|
    ensures var (after, created) := RecoverJobs(db, now, rows);
            Numbered(after) && Progress(db, after, created, rows)
  {
    if |rows| > 0 {
      var before, j := rows[..|rows| - 1], rows[|rows| - 1];
      SplitLast(rows);
      var mid := RecoverJobs(db, now, before);
      RecoverJobsEffect(db, now, before);
      RecoverNext(db, mid.0, mid.1, now, before, j);
      RecoverNextJob(db, now, rows, |rows| - 1);
    }
  }

  lemma ScanIsExact(db: Db)
    requires Closed(db) && ColumnsAgree(db)
    ensures var rows := IncompleteJobs(db.jobColumns);
            && Increasing(rows) && (forall x :: 0 <= x < |rows| ==> rows[x] < |db.jobs|)
            && (forall j :: 0 <= j < |db.jobs| ==> (j in rows <==> !TerminalJob(db.jobs[j].status)))
  {
  }

  /** Restart recovery of any sound database: terminal jobs and finished business are
      untouched, every incomplete job recovers, and the calls returned are exactly the
      requeued jobs in creation order, one new attempt each. */
  lemma RecoveryTheorem(db: Db, now: int)
    requires Closed(db) && Numbered(db) && ColumnsAgree(db)
    ensures var (after, created) := RecoverIncompleteJobs(db, now);
            var rows := IncompleteJobs(db.jobColumns);
            && (forall j :: 0 <= j < |db.jobs| ==> (j in rows <==> !TerminalJob(db.jobs[j].status)))
            && Progress(db, after, created, rows)
  {
    ScanIsExact(db);
    RecoverJobsEffect(db, now, IncompleteJobs(db.jobColumns));
  }
}
