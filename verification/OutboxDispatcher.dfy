/** One round of a dispatcher: claim a batch, hand each event to the broker, acknowledge. */
module OutboxDispatch {
  import opened Wrappers
  import opened ControlPlaneSchemas
  import opened ControlPlaneStore
  import opened ControlPlaneRuns
  import opened Recovery
  import opened Outbox
  import JobBackend
  import LocalControlPlane

  const LEASE_SECONDS := 30
  const RETRY_SECONDS := 5

  /** An event as its claimant leaves it, given the broker's message id or its failure. */
  function Settled(claimed: Event, delivered: Option<string>, now: int): Event {
    match delivered
    case Some(message) =>
      claimed.(status := Published, message := Some(BrokerMessage(message)), claim := None, owner := None,
               leaseUntil := None, updatedAt := now)
    case None =>
      claimed.(status := Pending, claim := None, owner := None, leaseUntil := None,
               error := Some("broker_publish_failed"), nextRetryAt := Some(now + RETRY_SECONDS), updatedAt := now)
  }

  function Delivered(rows: seq<EventId>, broker: EventId -> Option<string>): nat {
    if rows == [] then 0
    else Delivered(rows[..|rows| - 1], broker) + (if broker(rows[|rows| - 1]).Some? then 1 else 0)
  }

  /** The first `done` of the claimed rows settled, the others still held, the rest untouched. */
  ghost predicate RoundAt(was: Db, at: Db, rows: seq<EventId>, done: nat, broker: EventId -> Option<string>,
                          owner: string, now: int, later: int)
    requires done <= |rows|
  {
    && |at.events| == |was.events| && Increasing(rows)
    && (forall x :: 0 <= x < |rows| ==>
          && rows[x] < |was.events|
          && var claimed := Outbox.Claimed(was.events[rows[x]], now, owner, LEASE_SECONDS, was.nextSecret + x);
             at.events[rows[x]] == if x < done then Settled(claimed, broker(rows[x]), later) else claimed)
    && (forall e :: 0 <= e < |was.events| && e !in rows ==> at.events[e] == was.events[e])
  }

  lemma RoundStep(was: Db, at: Db, after: Db, rows: seq<EventId>, done: nat, broker: EventId -> Option<string>,
                  owner: string, now: int, later: int)
    requires done < |rows| && RoundAt(was, at, rows, done, broker, owner, now, later)
    requires after.events == at.events[rows[done] :=
               Settled(Outbox.Claimed(was.events[rows[done]], now, owner, LEASE_SECONDS, was.nextSecret + done),
                       broker(rows[done]), later)]
    ensures RoundAt(was, after, rows, done + 1, broker, owner, now, later)
  {
    assert rows[done] in rows;
  }

  class OutboxDispatcher {
    const store: LocalControlPlane.LocalControlPlaneStore
    const dispatcherId: string

    constructor (store: LocalControlPlane.LocalControlPlaneStore, dispatcherId: string)
      ensures this.store == store && this.dispatcherId == dispatcherId
    {
      this.store, this.dispatcherId := store, dispatcherId;
    }

    /** Publishes one claim and acknowledges it, or gives it back for a later retry. */
    method Settle(ghost was: Db, ghost rows: seq<EventId>, ghost done: nat, claim: Claim,
                  broker: EventId -> Option<string>, ghost now: int, later: int)
      returns (published: bool)
      requires store.Valid() && done < |rows| && claim == Claim(rows[done], was.nextSecret + done)
      requires RoundAt(was, store.Contents(), rows, done, broker, dispatcherId, now, later)
      modifies store
      ensures store.Valid() && RoundAt(was, store.Contents(), rows, done + 1, broker, dispatcherId, now, later)
      ensures published <==> broker(rows[done]).Some?
    {
      ghost var before := store.Contents();
      var message := broker(claim.event);
      if message.None? {
        var r := store.MarkOutboxPublishFailed(later, claim.event, claim.token, "broker_publish_failed", RETRY_SECONDS);
        published := false;
      } else {
        var r := store.MarkOutboxPublished(later, claim.event, claim.token, message.value);
        published := true;
      }
      RoundStep(was, before, store.Contents(), rows, done, broker, dispatcherId, now, later);
    }

    /** Claims a batch. */
    method ClaimBatch(now: int, batchSize: nat, broker: EventId -> Option<string>, later: int)
      returns (claims: seq<Claim>, ghost rows: seq<EventId>)
      requires store.Valid()
      modifies store
      ensures store.Valid() && rows == ClaimableEvents(old(store.eventColumns), now, 0, batchSize)
      ensures |claims| == |rows|
      ensures forall x :: 0 <= x < |rows| ==> claims[x] == Claim(rows[x], old(store.nextSecret) + x)
      ensures RoundAt(old(store.Contents()), store.Contents(), rows, 0, broker, dispatcherId, now, later)
    {
      rows := ClaimableEvents(store.eventColumns, now, 0, batchSize);
      ClaimEventsEffect(store.Contents(), now, dispatcherId, LEASE_SECONDS, rows);
      claims := store.ClaimOutbox(now, dispatcherId, batchSize, LEASE_SECONDS);
    }

    /** Settles the claims in turn. */
    method SettleAll(ghost was: Db, claims: seq<Claim>, ghost rows: seq<EventId>, broker: EventId -> Option<string>,
                     ghost now: int, later: int)
      returns (published: nat)
      requires store.Valid() && |claims| == |rows|
      requires forall x :: 0 <= x < |rows| ==> claims[x] == Claim(rows[x], was.nextSecret + x)
      requires RoundAt(was, store.Contents(), rows, 0, broker, dispatcherId, now, later)
      modifies store
      ensures store.Valid() && RoundAt(was, store.Contents(), rows, |rows|, broker, dispatcherId, now, later)
      ensures published == Delivered(rows, broker)
    {
      published := 0;
      for i := 0 to |claims|
        invariant store.Valid()
        invariant RoundAt(was, store.Contents(), rows, i, broker, dispatcherId, now, later)
        invariant published == Delivered(rows[..i], broker)
      {
        assert rows[..i + 1][..i] == rows[..i];
        var ok := Settle(was, rows, i, claims[i], broker, now, later);
        published := published + if ok then 1 else 0;
      }
      assert rows[..|rows|] == rows;
    }

    /** A round that nobody interrupts: the claimable events, and only those, end published
        or pending for a later retry as the broker took them or not; the result counts the
        published ones. */
    method DispatchOnce(now: int, later: int, batchSize: nat, broker: EventId -> Option<string>)
      returns (published: nat)
      requires store.Valid()
      modifies store
      ensures store.Valid()
      ensures var rows := ClaimableEvents(old(store.eventColumns), now, 0, batchSize);
              && RoundAt(old(store.Contents()), store.Contents(), rows, |rows|, broker, dispatcherId, now, later)
              && published == Delivered(rows, broker)
    {
      ghost var was := store.Contents();
      var claims, rows := ClaimBatch(now, batchSize, broker, later);
      published := SettleAll(was, claims, rows, broker, now, later);
    }

    // -------------------------------------------- with other callers between the calls

    /** Any calls of any other callers. */
    method Others() returns (ghost trace: seq<Timed>)
      requires store.Valid()
      modifies store
      ensures store.Valid() && store.Contents() == Run(old(store.Contents()), trace)
    {
      var calls: seq<Timed> := *;
      for i := 0 to |calls|
        invariant store.Valid()
        invariant Run(old(store.Contents()), calls) == Run(store.Contents(), calls[i..])
      {
        assert calls[i..][0] == calls[i] && calls[i..][1..] == calls[i + 1..];
        JobBackend.Perform(store, calls[i]);
      }
      trace := calls;
    }

    /** Settles one claim if it is still held; a lost one raises and changes nothing. */
    method SettleAmong(claim: Claim, broker: EventId -> Option<string>, later: int) returns (r: Result<bool, Code>)
      requires store.Valid()
      modifies store
      ensures store.Valid()
      ensures var o := SettleOutcome(old(store.Contents()), claim, broker(claim.event), later);
              store.Contents() == o.db && (r.Ok? <==> o.result.Ok?)
      ensures r.Ok? ==> r.value == broker(claim.event).Some?
    {
      var message := broker(claim.event);
      if message.None? {
        var o := store.MarkOutboxPublishFailed(later, claim.event, claim.token, "broker_publish_failed", RETRY_SECONDS);
        r := if o.Ok? then Ok(false) else Err(o.error);
      } else {
        var o := store.MarkOutboxPublished(later, claim.event, claim.token, message.value);
        r := if o.Ok? then Ok(true) else Err(o.error);
      }
    }

    /** Whatever others do first, claim i is then settled, or found lost. */
    method Turn(claims: seq<Claim>, i: nat, broker: EventId -> Option<string>, later: int,
                ghost start: Db, ghost before: seq<Timed>)
      returns (r: Result<bool, Code>, ghost trace: seq<Timed>)
      requires store.Valid() && Sound(start) && store.Contents() == Run(start, before)
      requires i < |claims| && ClaimsAmong(store.Contents(), claims, i)
      modifies store
      ensures store.Valid() && store.Contents() == Run(start, trace)
      ensures ClaimsAmong(store.Contents(), claims, i + 1)
      ensures r.Ok? ==> r.value == broker(claims[i].event).Some?
    {
      ghost var others := Others();
      RunThenRun(start, before, others);
      RunSound(start, before);
      AmongRun(Run(start, before), others, claims, i);
      RunSound(start, before + others);
      SettleLeaves(store.Contents(), claims, i, broker(claims[i].event), later);
      ghost var settle := SettleCall(claims[i], broker(claims[i].event), later);
      RunThenCall(start, before + others, settle);
      trace := before + others + [settle];
      r := SettleAmong(claims[i], broker, later);
    }

    /** Settles the claims in turn, up to the first that is lost. */
    method SettleHeld(claims: seq<Claim>, broker: EventId -> Option<string>, later: int,
                      ghost start: Db, ghost before: seq<Timed>)
      returns (r: Result<nat, Code>, ghost settled: nat, ghost trace: seq<Timed>)
      requires store.Valid() && Sound(start) && store.Contents() == Run(start, before)
      requires ClaimsAmong(store.Contents(), claims, 0)
      modifies store
      ensures store.Valid() && store.Contents() == Run(start, trace)
      ensures if r.Ok? then settled == |claims| && r.value == DeliveredOf(claims, broker) else settled < |claims|
      ensures ClaimsAmong(store.Contents(), claims, if r.Ok? then settled else settled + 1)
    {
      var published := 0;
      settled, trace := 0, before;
      for i := 0 to |claims|
        invariant store.Valid() && settled == i && store.Contents() == Run(start, trace)
        invariant ClaimsAmong(store.Contents(), claims, i)
        invariant published == DeliveredOf(claims[..i], broker)
      {
        var one;
        one, trace := Turn(claims, i, broker, later, start, trace);
        if one.Err? {
          return Err(one.error), settled, trace;
        }
        assert claims[..i + 1][..i] == claims[..i];
        published, settled := published + if one.value then 1 else 0, i + 1;
      }
      assert claims[..|claims|] == claims;
      r := Ok(published);
    }

    /** A round with other callers, other dispatchers among them, before each of its calls. It
        settles its claims in turn up to the first it has lost, and holds none of those it came
        to any more; if it lost none, the result counts those the broker took. */
    method DispatchAmong(now: int, later: int, batchSize: nat, broker: EventId -> Option<string>)
      returns (r: Result<nat, Code>, ghost claimed: seq<Claim>, ghost settled: nat, ghost trace: seq<Timed>)
      requires store.Valid() && Sound(store.Contents())
      modifies store
      ensures store.Valid() && store.Contents() == Run(old(store.Contents()), trace)
      ensures claimed == ClaimOutbox(old(store.Contents()), now, dispatcherId, batchSize, LEASE_SECONDS).1
      ensures if r.Ok? then settled == |claimed| && r.value == DeliveredOf(claimed, broker) else settled < |claimed|
      ensures forall i :: 0 <= i < |claimed| && (i < settled || (i == settled && r.Err?)) ==>
                Gone(store.Contents(), claimed[i])
    {
      ghost var start := store.Contents();
      BatchDrawn(start, now, dispatcherId, batchSize);
      var claims := store.ClaimOutbox(now, dispatcherId, batchSize, LEASE_SECONDS);
      trace := [At(now, CallClaimOutbox(dispatcherId, batchSize, LEASE_SECONDS))];
      RunThenCall(start, [], trace[0]);
      claimed := claims;
      r, settled, trace := SettleHeld(claims, broker, later, start, trace);
    }
  }

  /** A claim on an event that exists, under a token that was drawn. */
  ghost predicate Drawn(db: Db, claim: Claim) {
    claim.event < |db.events| && claim.token < db.nextSecret
  }

  /** The claim is not, or not any more, the one on its event. */
  ghost predicate Gone(db: Db, claim: Claim) {
    claim.event < |db.events| && db.events[claim.event].claim != Some(Sha256(claim.token))
  }

  /** In the middle of a round: the first n claims are gone for good. */
  ghost predicate ClaimsAmong(db: Db, claims: seq<Claim>, n: nat) {
    && n <= |claims| && (forall k :: 0 <= k < |claims| ==> Drawn(db, claims[k]))
    && (forall k :: 0 <= k < n ==> Gone(db, claims[k]))
  }

  function DeliveredOf(claims: seq<Claim>, broker: EventId -> Option<string>): nat {
    if claims == [] then 0
    else DeliveredOf(claims[..|claims| - 1], broker) + (if broker(claims[|claims| - 1].event).Some? then 1 else 0)
  }

  function SettleCall(claim: Claim, message: Option<string>, later: int): Timed {
    At(later, if message.None? then CallMarkPublishFailed(claim.event, claim.token, "broker_publish_failed", RETRY_SECONDS)
              else CallMarkPublished(claim.event, claim.token, message.value))
  }

  function SettleOutcome(db: Db, claim: Claim, message: Option<string>, later: int): (o: Outcome<Event>)
    requires Closed(db)
    ensures o.db == Apply(db, SettleCall(claim, message, later))
  {
    if message.None? then
      MarkOutboxPublishFailed(db, later, claim.event, claim.token, "broker_publish_failed", RETRY_SECONDS)
    else MarkOutboxPublished(db, later, claim.event, claim.token, message.value)
  }

  lemma BatchDrawn(db: Db, now: int, owner: string, batchSize: nat)
    requires Closed(db)
    ensures var (after, claims) := ClaimOutbox(db, now, owner, batchSize, LEASE_SECONDS);
            ClaimsAmong(after, claims, 0)
  {
    var (after, claims) := ClaimOutbox(db, now, owner, batchSize, LEASE_SECONDS);
    ClaimOutboxExact(db, now, owner, batchSize, LEASE_SECONDS);
    GivenDrawn(db, after, claims, now, owner, ClaimableEvents(db.eventColumns, now, 0, batchSize));
  }

  lemma GivenDrawn(db: Db, after: Db, claims: seq<Claim>, now: int, owner: string, rows: seq<EventId>)
    requires ClaimsGiven(db, after, claims, now, owner, LEASE_SECONDS, rows)
    ensures forall k :: 0 <= k < |claims| ==> Drawn(after, claims[k])
  {
  }

  lemma {:induction false} RunThenRun(db: Db, a: seq<Timed>, b: seq<Timed>)
    requires Closed(db)
    ensures Run(Run(db, a), b) == Run(db, a + b)
    decreases |a|
  {
    if a == [] {
      assert a + b == b;
    } else {
      assert (a + b)[0] == a[0] && (a + b)[1..] == a[1..] + b;
      RunThenRun(Apply(db, a[0]), a[1..], b);
    }
  }

  lemma RunThenCall(db: Db, a: seq<Timed>, t: Timed)
    requires Closed(db)
    ensures Apply(Run(db, a), t) == Run(db, a + [t])
  {
    RunThenRun(db, a, [t]);
    assert [t][1..] == [];
    assert Run(Run(db, a), [t]) == Run(Apply(Run(db, a), t), []);
  }

  lemma AmongStep(db: Db, t: Timed, claims: seq<Claim>, n: nat)
    requires Sound(db) && ClaimsAmong(db, claims, n)
    ensures ClaimsAmong(Apply(db, t), claims, n)
  {
    forall k | 0 <= k < |claims|
      ensures Drawn(Apply(db, t), claims[k]) && (k < n ==> Gone(Apply(db, t), claims[k]))
    {
      CallMoves(db, t, claims[k].event);
    }
  }

  lemma {:induction false} AmongRun(db: Db, trace: seq<Timed>, claims: seq<Claim>, n: nat)
    requires Sound(db) && ClaimsAmong(db, claims, n)
    ensures ClaimsAmong(Run(db, trace), claims, n)
    decreases |trace|
  {
    if trace != [] {
      ApplySound(db, trace[0]);
      AmongStep(db, trace[0], claims, n);
      AmongRun(Apply(db, trace[0]), trace[1..], claims, n);
    }
  }

  /** Settling a claim succeeds exactly while it is held, and then it is gone. */
  lemma HeldSettles(db: Db, claim: Claim, message: Option<string>, later: int)
    requires Closed(db) && RecordsValid(db) && Drawn(db, claim)
    ensures var o := SettleOutcome(db, claim, message, later);
            (o.result.Ok? <==> !Gone(db, claim)) && Gone(o.db, claim) && (o.result.Err? ==> o.db == db)
  {
  }

  lemma SettleLeaves(db: Db, claims: seq<Claim>, i: nat, message: Option<string>, later: int)
    requires i < |claims| && Sound(db) && ClaimsAmong(db, claims, i)
    ensures ClaimsAmong(SettleOutcome(db, claims[i], message, later).db, claims, i + 1)
  {
    AmongStep(db, SettleCall(claims[i], message, later), claims, i);
    HeldSettles(db, claims[i], message, later);
  }
}
