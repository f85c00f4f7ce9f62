/** Leases of outbox events under any number of dispatchers. */
module Outbox {
  import opened Wrappers
  import opened ControlPlaneSchemas
  import opened ControlPlaneStore
  import opened ControlPlaneRuns
  import opened Recovery
  import opened JobProtocol

  // ----------------------------------------------------------- claiming a batch

  /** An event as its claimant holds it. */
  function Claimed(event: Event, now: int, owner: string, leaseSeconds: int, token: Secret): Event {
    event.(status := Publishing, claim := Some(Sha256(token)), owner := Some(owner),
           leaseUntil := Some(now + leaseSeconds), publishAttempts := event.publishAttempts + 1,
           updatedAt := now)
  }

  /** The claims handed out for `rows`, each with a token of its own, and nothing else changed. */
  ghost predicate ClaimsGiven(db: Db, after: Db, claims: seq<Claim>, now: int, owner: string,
                              leaseSeconds: int, rows: seq<EventId>) {
    && |after.events| == |db.events| && |claims| == |rows|
    && after.nextSecret == db.nextSecret + |rows|
    && (forall x :: 0 <= x < |rows| ==>
          && rows[x] < |db.events| && claims[x] == Claim(rows[x], db.nextSecret + x)
          && after.events[rows[x]] == Claimed(db.events[rows[x]], now, owner, leaseSeconds, db.nextSecret + x))
    && (forall e :: 0 <= e < |db.events| && e !in rows ==> after.events[e] == db.events[e])
  }

  lemma ClaimsGivenStep(db: Db, mid: Db, after: Db, claims: seq<Claim>, now: int, owner: string,
                        leaseSeconds: int, rows: seq<EventId>, e: EventId)
    requires ClaimsGiven(db, mid, claims, now, owner, leaseSeconds, rows)
    requires e < |db.events| && forall x :: 0 <= x < |rows| ==> rows[x] < e
    requires after.events == mid.events[e := Claimed(mid.events[e], now, owner, leaseSeconds, mid.nextSecret)]
    requires after.nextSecret == mid.nextSecret + 1
    ensures ClaimsGiven(db, after, claims + [Claim(e, mid.nextSecret)], now, owner, leaseSeconds, rows + [e])
  {
    assert e !in rows;
    assert forall d :: d in rows + [e] <==> d in rows || d == e;
  }

  lemma {:induction false} ClaimEventsEffect(db: Db, now: int, owner: string, leaseSeconds: int, rows: seq<EventId>)
    requires Closed(db) && Increasing(rows) && forall x :: 0 <= x < |rows| ==> rows[x] < |db.events|
    ensures var (after, claims) := ClaimEvents(db, now, owner, leaseSeconds, rows);
            ClaimsGiven(db, after, claims, now, owner, leaseSeconds, rows)
  {
    if |rows| > 0 {
      var before, e := rows[..|rows| - 1], rows[|rows| - 1];
      SplitLast(rows);
      ClaimEventsEffect(db, now, owner, leaseSeconds, before);
      var (mid, claims) := ClaimEvents(db, now, owner, leaseSeconds, before);
      ClaimsGivenStep(db, mid, ClaimEvent(mid, now, owner, leaseSeconds, e), claims, now, owner, leaseSeconds,
                      before, e);
    }
  }

  /** `rows` passes a claimable row by only when it is full of earlier ones. */
  ghost predicate TakesFirst(columns: seq<EventColumns>, now: int, from: nat, limit: nat, rows: seq<EventId>) {
    forall e :: from <= e < |columns| && Claimable(columns[e], now) && e !in rows ==>
      |rows| == limit && forall x :: 0 <= x < |rows| ==> rows[x] < e
  }

  lemma TakesFirstStep(columns: seq<EventColumns>, now: int, from: nat, limit: nat, rest: seq<EventId>)
    requires from < |columns| && limit > 0 && Claimable(columns[from], now)
    requires TakesFirst(columns, now, from + 1, limit - 1, rest)
    ensures TakesFirst(columns, now, from, limit, [from] + rest)
  {
    var rows := [from] + rest;
    assert forall e :: e in rows <==> e == from || e in rest;
  }

  /** The scan takes the first `limit` claimable rows and passes none by. */
  lemma {:induction false} ScanTakesFirst(columns: seq<EventColumns>, now: int, from: nat, limit: nat)
    requires from <= |columns|
    ensures TakesFirst(columns, now, from, limit, ClaimableEvents(columns, now, from, limit))
    decreases |columns| - from
  {
    if limit > 0 && from < |columns| {
      if Claimable(columns[from], now) {
        ScanTakesFirst(columns, now, from + 1, limit - 1);
        TakesFirstStep(columns, now, from, limit, ClaimableEvents(columns, now, from + 1, limit - 1));
      } else {
        ScanTakesFirst(columns, now, from + 1, limit);
      }
    }
  }

  /** The scan selects the first events whose own records are claimable: filtering by
      column misses none and adds none. */
  lemma ScanExact(db: Db, now: int, batchSize: nat)
    requires Closed(db) && ColumnsAgree(db)
    ensures var rows := ClaimableEvents(db.eventColumns, now, 0, batchSize);
            && Increasing(rows) && |rows| <= batchSize
            && (forall x :: 0 <= x < |rows| ==> Claimable(ColumnsOfEvent(db.events[rows[x]]), now))
            && (forall e :: 0 <= e < |db.events| && Claimable(ColumnsOfEvent(db.events[e]), now) && e !in rows ==>
                  |rows| == batchSize && forall x :: 0 <= x < |rows| ==> rows[x] < e)
  {
    ScanTakesFirst(db.eventColumns, now, 0, batchSize);
  }

  /** A batch is leased to the caller as a whole, each event under a token never used before. */
  lemma ClaimOutboxExact(db: Db, now: int, owner: string, batchSize: nat, leaseSeconds: int)
    requires Closed(db)
    ensures var (after, claims) := ClaimOutbox(db, now, owner, batchSize, leaseSeconds);
            ClaimsGiven(db, after, claims, now, owner, leaseSeconds,
                        ClaimableEvents(db.eventColumns, now, 0, batchSize))
  {
    ClaimEventsEffect(db, now, owner, leaseSeconds, ClaimableEvents(db.eventColumns, now, 0, batchSize));
  }

  // ------------------------------------------------------- what one call may do

  predicate SweptOnce(was: Event, next: Event) {
    next == was
    || (was.status != EventFailed && next.status == EventFailed && next.claim.None?
        && next.publishAttempts == was.publishAttempts)
  }

  ghost predicate EventsSwept(db: Db, after: Db) {
    |db.events| <= |after.events| && db.nextSecret <= after.nextSecret
    && forall e :: 0 <= e < |db.events| ==> SweptOnce(db.events[e], after.events[e])
  }

  lemma RecoverJobSweepsEvents(db: Db, now: int, j: JobId)
    requires Closed(db) && j < |db.jobs|
    ensures EventsSwept(db, RecoverJob(db, now, j).0)
  {
    var swept := SweepCurrent(db, now, j);
    assert EventsSwept(db, swept);
    assert EventsSwept(swept, Requeue(swept, now, j).0);
  }

  lemma {:induction false} RecoverySweepsEvents(db: Db, now: int, rows: seq<JobId>)
    requires Closed(db) && forall x :: 0 <= x < |rows| ==> rows[x] < |db.jobs|
    ensures EventsSwept(db, RecoverJobs(db, now, rows).0)
  {
    if |rows| > 0 {
      var before := rows[..|rows| - 1];
      RecoverySweepsEvents(db, now, before);
      RecoverJobSweepsEvents(RecoverJobs(db, now, before).0, now, rows[|rows| - 1]);
    }
  }

  predicate HandsOut(claims: seq<Claim>, e: EventId) {
    exists x :: 0 <= x < |claims| && claims[x].event == e
  }

  /** The call hands out a claim of event e. */
  predicate Claims(db: Db, t: Timed, e: EventId)
    requires Closed(db)
  {
    t.call.CallClaimOutbox?
    && HandsOut(ClaimOutbox(db, t.now, t.call.owner, t.call.batchSize, t.call.leaseSeconds).1, e)
  }

  predicate MarksWith(t: Timed, e: EventId, claim: Option<Digest<Secret>>) {
    (t.call.CallMarkPublished? || t.call.CallMarkPublishFailed?)
    && t.call.event == e && claim == Some(Sha256(t.call.token))
  }

  /** The event is leased once more, under a token drawn by the call. */
  predicate LeasedAnew(was: Event, next: Event, leaseUntil: int, drawnFrom: Secret, drawnTo: Secret) {
    && next.status == Publishing && next.leaseUntil == Some(leaseUntil)
    && next.publishAttempts == was.publishAttempts + 1
    && next.claim.Some? && drawnFrom <= next.claim.value.preimage < drawnTo
  }

  /** Everything a call can do to an event. */
  ghost predicate EventMoves(db: Db, t: Timed, after: Db, e: EventId)
    requires Closed(db) && e < |db.events| && e < |after.events|
  {
    var was, next := db.events[e], after.events[e];
    if Claims(db, t, e) then
      Claimable(ColumnsOfEvent(was), t.now)
      && LeasedAnew(was, next, t.now + t.call.leaseSeconds, db.nextSecret, after.nextSecret)
    else
      || next == was
      || (&& MarksWith(t, e, was.claim) && was.status == Publishing && next.claim.None?
          && next.publishAttempts == was.publishAttempts
          && next.status == if t.call.CallMarkPublished? then Published else Pending)
      || (&& t.call.CallMarkConsumedLocal? && t.call.event == e
          && was.status == Pending && next.status == Published && next.claim == was.claim
          && next.publishAttempts == was.publishAttempts)
      || (t.call.CallRecover? && SweptOnce(was, next))
  }

  lemma GivenIsClaimed(db: Db, after: Db, claims: seq<Claim>, now: int, owner: string, leaseSeconds: int,
                       rows: seq<EventId>, e: EventId)
    requires ClaimsGiven(db, after, claims, now, owner, leaseSeconds, rows) && e < |db.events|
    requires forall x :: 0 <= x < |rows| ==> Claimable(ColumnsOfEvent(db.events[rows[x]]), now)
    ensures if HandsOut(claims, e) then
              Claimable(ColumnsOfEvent(db.events[e]), now)
              && LeasedAnew(db.events[e], after.events[e], now + leaseSeconds, db.nextSecret, after.nextSecret)
            else after.events[e] == db.events[e]
  {
    if e in rows {
      var x :| 0 <= x < |rows| && rows[x] == e;
      assert claims[x].event == e;
    } else {
      assert forall x :: 0 <= x < |claims| ==> claims[x].event == rows[x];
    }
  }

  lemma ClaimOutboxMoves(db: Db, now: int, owner: string, batchSize: nat, leaseSeconds: int, e: EventId)
    requires Closed(db) && ColumnsAgree(db) && e < |db.events|
    ensures var (after, claims) := ClaimOutbox(db, now, owner, batchSize, leaseSeconds);
            && db.nextSecret <= after.nextSecret
            && if HandsOut(claims, e) then
                 Claimable(ColumnsOfEvent(db.events[e]), now)
                 && LeasedAnew(db.events[e], after.events[e], now + leaseSeconds, db.nextSecret, after.nextSecret)
               else after.events[e] == db.events[e]
  {
    var (after, claims) := ClaimOutbox(db, now, owner, batchSize, leaseSeconds);
    var rows := ClaimableEvents(db.eventColumns, now, 0, batchSize);
    ClaimEventsEffect(db, now, owner, leaseSeconds, rows);
    GivenIsClaimed(db, after, claims, now, owner, leaseSeconds, rows, e);
  }

  lemma ClaimMoves(db: Db, t: Timed, e: EventId)
    requires Closed(db) && ColumnsAgree(db) && e < |db.events| && t.call.CallClaimOutbox?
    ensures db.nextSecret <= Apply(db, t).nextSecret
    ensures EventMoves(db, t, Apply(db, t), e)
  {
    ClaimOutboxMoves(db, t.now, t.call.owner, t.call.batchSize, t.call.leaseSeconds, e);
  }

  lemma JobCallMoves(db: Db, t: Timed, e: EventId)
    requires Closed(db) && e < |db.events| && !OutboxCall(t.call) && !t.call.CallRecover?
    ensures e < |Apply(db, t).events| && db.nextSecret <= Apply(db, t).nextSecret
    ensures Apply(db, t).events[e] == db.events[e]
  {
    if t.call.CallCreateManualRetry? && t.call.job < |db.jobs| && TerminalJob(db.jobs[t.call.job].status) {
      ManualRetryIsCreate(db, t.now, t.call.job);
    }
  }

  lemma CallMoves(db: Db, t: Timed, e: EventId)
    requires Closed(db) && ColumnsAgree(db) && e < |db.events|
    ensures e < |Apply(db, t).events| && db.nextSecret <= Apply(db, t).nextSecret
    ensures EventMoves(db, t, Apply(db, t), e)
  {
    if t.call.CallClaimOutbox? {
      ClaimMoves(db, t, e);
    } else if t.call.CallRecover? {
      RecoverySweepsEvents(db, t.now, IncompleteJobs(db.jobColumns));
    } else if !OutboxCall(t.call) {
      JobCallMoves(db, t, e);
    }
  }

  // ------------------------------------------------------------------- theorems

  function ClaimCount(db: Db, trace: seq<Timed>, e: EventId): nat
    requires Closed(db)
    decreases |trace|
  {
    if trace == [] then 0
    else (if Claims(db, trace[0], e) then 1 else 0) + ClaimCount(Apply(db, trace[0]), trace[1..], e)
  }

  /** The number of publish attempts recorded is the number of claims handed out. */
  lemma {:induction false} PublishAttemptsCountClaims(db: Db, trace: seq<Timed>, e: EventId)
    requires Sound(db) && e < |db.events|
    ensures var after := Run(db, trace);
            e < |after.events|
            && after.events[e].publishAttempts == db.events[e].publishAttempts + ClaimCount(db, trace, e)
    decreases |trace|
  {
    if trace != [] {
      CallMoves(db, trace[0], e);
      ApplySound(db, trace[0]);
      PublishAttemptsCountClaims(Apply(db, trace[0]), trace[1..], e);
    }
  }

  /** A failed event never changes again. */
  lemma {:induction false} FailedForever(db: Db, trace: seq<Timed>, e: EventId)
    requires Sound(db) && e < |db.events| && db.events[e].status == EventFailed
    ensures e < |Run(db, trace).events| && Run(db, trace).events[e] == db.events[e]
    ensures ClaimCount(db, trace, e) == 0
    decreases |trace|
  {
    if trace != [] {
      CallMoves(db, trace[0], e);
      ApplySound(db, trace[0]);
      FailedForever(Apply(db, trace[0]), trace[1..], e);
    }
  }

  /** The number of times event e is acknowledged, by a dispatcher or locally. */
  function Acknowledgements(db: Db, trace: seq<Timed>, e: EventId): nat
    requires Closed(db) && e < |db.events|
    decreases |trace|
  {
    if trace == [] then 0
    else
      var next := Apply(db, trace[0]);
      if e >= |next.events| then 0
      else (if db.events[e].status != Published && next.events[e].status == Published then 1 else 0)
           + Acknowledgements(next, trace[1..], e)
  }

  /** An event is acknowledged at most once, and an acknowledged or failed one never again. */
  lemma {:induction false} AcknowledgedOnce(db: Db, trace: seq<Timed>, e: EventId)
    requires Sound(db) && e < |db.events|
    ensures Acknowledgements(db, trace, e)
            <= if db.events[e].status == Published || db.events[e].status == EventFailed then 0 else 1
    decreases |trace|
  {
    if trace != [] {
      CallMoves(db, trace[0], e);
      ApplySound(db, trace[0]);
      AcknowledgedOnce(Apply(db, trace[0]), trace[1..], e);
    }
  }

  /** A call that neither passes the lease, nor uses its token, nor restarts the system. */
  predicate RespectsLease(t: Timed, event: Event, e: EventId) {
    && !t.call.CallRecover? && !MarksWith(t, e, event.claim)
    && event.leaseUntil.Some? && t.now <= event.leaseUntil.value
  }

  /** Exclusivity: until its lease has passed, a claimed event is claimed by nobody else
      and stays exactly as its claimant left it, whatever the other dispatchers do; the
      claimant can still acknowledge it. */
  lemma {:induction false} LeaseIsExclusive(db: Db, trace: seq<Timed>, e: EventId, now: int, message: string)
    requires Sound(db) && e < |db.events| && db.events[e].status == Publishing
    requires forall i :: 0 <= i < |trace| ==> RespectsLease(trace[i], db.events[e], e)
    ensures ClaimCount(db, trace, e) == 0
    ensures e < |Run(db, trace).events| && Run(db, trace).events[e] == db.events[e]
    ensures db.events[e].claim.Some?
            && MarkOutboxPublished(Run(db, trace), now, e, db.events[e].claim.value.preimage, message).result.Ok?
    decreases |trace|
  {
    if trace != [] {
      CallMoves(db, trace[0], e);
      ApplySound(db, trace[0]);
      assert RespectsLease(trace[0], db.events[e], e);
      LeaseIsExclusive(Apply(db, trace[0]), trace[1..], e, now, message);
    }
  }

  /** Only the latest claimant: a token that is not the claim of the event now will never
      be again, and every use of it is rejected without a change. */
  lemma {:induction false} StaleClaimRejected(db: Db, trace: seq<Timed>, e: EventId, token: Secret, now: int,
                                              message: string, error: string, retrySeconds: int)
    requires Sound(db) && e < |db.events| && token < db.nextSecret
    requires db.events[e].claim != Some(Sha256(token))
    ensures var later := Run(db, trace);
            && MarkOutboxPublished(later, now, e, token, message).result.Err?
            && MarkOutboxPublished(later, now, e, token, message).db == later
            && MarkOutboxPublishFailed(later, now, e, token, error, retrySeconds) == Outcome(later, Err(OutboxClaimLost))
    decreases |trace|
  {
    if trace != [] {
      CallMoves(db, trace[0], e);
      ApplySound(db, trace[0]);
      StaleClaimRejected(Apply(db, trace[0]), trace[1..], e, token, now, message, error, retrySeconds);
    }
  }
}
