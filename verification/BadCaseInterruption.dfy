/** What a call cut off between its writes leaves behind, and what the next calls make of it. */
module BadCaseInterruption {
  import opened Wrappers
  import opened BadCases
  import opened BadCaseHistory

  // ------------------------------------------------------ which cuts spoil the records

  lemma AnnouncedUnsound(r: Records, f: Finding)
    requires Sound(r) && Reopens(r, f)
    ensures !Sound(Announced(r, f))
  {
    assert Dated(r.badCases[f.fingerprint], r.history[f.fingerprint]);
    assert (f.fingerprint, r.badCases[f.fingerprint].revision + 1) in Announced(r, f).events;
  }

  lemma SavedUnsound(r: Records, f: Finding)
    requires Sound(r)
    ensures !Sound(Saved(r, f))
  {
    SeenSame(r, Saved(r, f));
    if f.fingerprint !in r.badCases {
      NothingSeen(r, f.fingerprint);
    }
  }

  /** An analysis cut off in between its writes always spoils the log or the count. */
  lemma AnalysisCutSoundIff(r: Records, f: Finding, n: nat)
    requires Sound(r) && Unseen(r, f)
    ensures Sound(Cut(r, CallAnalyze(f), n)) <==> n == 0 || n >= |AnalyzeWrites(r, f)|
  {
    AnalyzedSound(r, f);
    AnalyzeStates(r, f, n);
    SavedUnsound(r, f);
    if Reopens(r, f) {
      AnnouncedUnsound(r, f);
    }
  }

  lemma CheckedSound(r: Records, target: Status, request: Request)
    requires Sound(r) && target == Verified && request.verification.Some?
    requires MayPut(r.verifications, request.verification.value.0, request.verification.value.1)
    ensures Sound(Checked(r, target, request))
  {
    PutVerificationKeeps(r, request.verification.value.0, request.verification.value.1);
    SeenSame(r, Checked(r, target, request));
  }

  lemma NotedUnsound(r: Records, id: Fingerprint, target: Status, request: Request, now: int)
    requires Sound(r) && id in r.badCases && (target == Verified ==> request.verification.Some?)
    ensures !Sound(Noted(r, id, target, request, now))
  {
    assert Dated(r.badCases[id], r.history[id]);
    assert (id, r.badCases[id].revision + 1) in Noted(r, id, target, request, now).events;
  }

  /** A transition may be cut off after storing its verification, but not after its event. */
  lemma TransitionCutSoundIff(r: Records, id: Fingerprint, target: Status, request: Request, evidence: Evidence,
                              now: int, n: nat)
    requires Sound(r) && Transition(r, id, target, request, evidence, now).result.Ok?
    ensures Refusal(r, id, target, request, evidence).None?
    ensures Sound(Cut(r, CallTransition(id, target, request, evidence, now), n))
            <==> n == 0 || n >= |TransitionWrites(r, id, target, request, now)| || (target == Verified && n == 1)
  {
    TransitionFailsIff(r, id, target, request, evidence, now);
    var steps := |TransitionWrites(r, id, target, request, now)|;
    TransitionStates(r, id, target, request, evidence, now, n);
    if n >= steps {
      MovedSound(r, id, target, request, evidence, now);
    } else if n == steps - 1 {
      NotedUnsound(r, id, target, request, now);
    } else if n > 0 {
      CheckedSound(r, target, request);
    }
  }

  // ------------------------------------------------------------ analysing once more

  lemma {:induction false} OccurrencesPerformed(r: Records, writes: seq<Write>, k: OccurrenceKey)
    requires k in r.occurrences
    ensures k in PerformAll(r, writes).0.occurrences
    decreases |writes|
  {
    if writes != [] && Perform(r, writes[0]).Ok? {
      OccurrencesPerformed(Perform(r, writes[0]).value, writes[1..], k);
    }
  }

  lemma {:induction false} OccurrenceStays(r: Records, trace: seq<Step>, k: OccurrenceKey)
    requires k in r.occurrences
    ensures k in Run(r, trace).occurrences
    decreases |trace|
  {
    if trace != [] {
      OccurrencesPerformed(r, Take(Writes(r, trace[0].call), trace[0].writes), k);
      OccurrenceStays(Apply(r, trace[0]), trace[1..], k);
    }
  }

  lemma {:induction false} RunOwned(r: Records, trace: seq<Step>)
    requires OccurrencesOwned(r)
    ensures OccurrencesOwned(Run(r, trace))
    decreases |trace|
  {
    if trace != [] {
      StepOwned(r, trace[0]);
      RunOwned(Apply(r, trace[0]), trace[1..]);
    }
  }

  /** Analysing a result again changes nothing, whatever happened in between. */
  lemma ReanalysisIsNoOp(r: Records, f: Finding, trace: seq<Step>, g: Finding)
    requires OccurrencesOwned(r) && Analyze(r, f).result.Ok?
    requires g.fingerprint == f.fingerprint && g.result == f.result
    ensures var later := Run(Analyze(r, f).records, trace);
            g.fingerprint in later.badCases && Analyze(later, g) == Outcome(later, Ok(later.badCases[g.fingerprint]))
  {
    AnalyzeFailsIff(r, f);
    WholeCall(r, CallAnalyze(f), 3);
    AnalysisOwned(r, f, 3);
    var after := Analyze(r, f).records;
    if Unseen(r, f) {
      AnalyzeStates(r, f, 3);
    }
    OccurrenceStays(after, trace, (f.fingerprint, f.result));
    RunOwned(after, trace);
    assert (f.fingerprint, f.result).0 in Run(after, trace).badCases;
  }

  /** An analysis cut off anywhere succeeds when it is done again. Cut off before the bad case
      was saved, the end is that of an uninterrupted call; cut off after, the bad case is
      counted and revised once too often, and nothing else differs. */
  lemma ResumedAnalysis(r: Records, f: Finding, n: nat)
    requires Unseen(r, f) && !Blocked(r, f)
    ensures Analyze(r, f).records == Analyzed(r, f)
    ensures var whole, again := Analyzed(r, f), Analyze(Cut(r, CallAnalyze(f), n), f);
            var b := whole.badCases[f.fingerprint];
            && again.result.Ok?
            && (n + 1 != |AnalyzeWrites(r, f)| ==> again.records == whole)
            && (n + 1 == |AnalyzeWrites(r, f)| ==>
                  && again.records.badCases == whole.badCases[f.fingerprint :=
                       b.(occurrenceCount := b.occurrenceCount + 1, revision := b.revision + 1)]
                  && again.records.occurrences == whole.occurrences && again.records.events == whole.events
                  && again.records.verifications == whole.verifications)
  {
    AnalyzeStates(r, f, n);
    AnalyzedTwice(r, f);
    AnnouncedTwice(r, f);
  }

  lemma AnnouncedTwice(r: Records, f: Finding)
    requires Unseen(r, f) && !Blocked(r, f)
    ensures Analyze(Announced(r, f), f) == Analyze(r, f)
  {
    var mid := Announced(r, f);
    assert Announced(mid, f) == mid && CaseFor(mid, f) == CaseFor(r, f);
    AnalyzeStates(mid, f, 3);
    AnalyzeStates(r, f, 3);
  }

  lemma AnalyzedTwice(r: Records, f: Finding)
    requires Unseen(r, f)
    ensures var b, again := CaseFor(r, f), Analyze(Saved(r, f), f);
            && again.result.Ok?
            && again.records.badCases == Analyzed(r, f).badCases[f.fingerprint :=
                 b.(occurrenceCount := b.occurrenceCount + 1, revision := b.revision + 1)]
            && again.records.occurrences == Analyzed(r, f).occurrences
            && again.records.events == Analyzed(r, f).events
            && again.records.verifications == Analyzed(r, f).verifications
  {
    var saved := Saved(r, f);
    assert !Reopens(saved, f);
    AnalyzeStates(saved, f, 3);
    assert CaseFor(saved, f).updatedAt == CaseFor(r, f).updatedAt;
  }

  /** The cut after the bad case is the one that counts twice, in whatever status it was. */
  lemma InterruptedAnalysisCountsTwice(r: Records, f: Finding)
    requires Sound(r) && Unseen(r, f)
    ensures var again := Analyze(Saved(r, f), f);
            again.result.Ok? && f.fingerprint in again.records.badCases
            && again.records.badCases[f.fingerprint].occurrenceCount == |Seen(again.records, f.fingerprint)| + 1
  {
    AnalyzedSound(r, f);
    var last := |AnalyzeWrites(r, f)| - 1;
    AnalyzeStates(r, f, last);
    ResumedAnalysis(r, f, last);
    SeenSame(Analyzed(r, f), Analyze(Saved(r, f), f).records);
  }

  /** Cut off after the event of a recurrence, the analyzer takes another new finding of the
      bad case if and only if it has the time of the first. */
  lemma RecurrenceCutBlocksIff(r: Records, f: Finding, g: Finding)
    requires Sound(r) && Reopens(r, f) && Unseen(r, f) && Unseen(r, g) && g.fingerprint == f.fingerprint
    ensures Analyze(Cut(r, CallAnalyze(f), 1), g).result.Ok? <==> g.at == f.at
  {
    AnalyzedGenuine(r, f);
    AnalyzeStates(r, f, 1);
    AnalyzeFailsIff(Announced(r, f), g);
  }

  // ------------------------------------------------------------------ stray events

  /** Whether a call writes `event` for the next revision of a bad case. */
  predicate WritesEvent(call: Call, id: Fingerprint, event: Event) {
    match call
    case CallAnalyze(f) => f.fingerprint == id && event == Recurrence(f.at)
    case CallTransition(key, target, request, _, now) =>
      key == id && event == MoveEvent(event.from, target, request, now)
  }

  /** A closed bad case whose next event is already stored. */
  predicate ClosedAhead(r: Records, id: Fingerprint, event: Event) {
    && id in r.badCases && r.badCases[id].status == Closed
    && (id, r.badCases[id].revision + 1) in r.events
    && r.events[(id, r.badCases[id].revision + 1)] == event
  }

  ghost predicate SameOccurrences(r: Records, after: Records, id: Fingerprint) {
    forall x :: (id, x) in after.occurrences <==> (id, x) in r.occurrences
  }

  lemma ForeignCut(r: Records, call: Call, n: nat, id: Fingerprint)
    requires id in r.badCases
    requires match call case CallAnalyze(f) => f.fingerprint != id case CallTransition(key, _, _, _, _) => key != id
    ensures var after := Cut(r, call, n);
            && id in after.badCases && after.badCases[id] == r.badCases[id]
            && (forall k: nat :: (id, k) in r.events ==>
                  (id, k) in after.events && after.events[(id, k)] == r.events[(id, k)])
            && SameOccurrences(r, after, id)
  {
    ForeignWrites(r, Take(Writes(r, call), n), id);
  }

  predicate Foreign(w: Write, id: Fingerprint) {
    match w
    case PutEvent(slot, _) => slot.0 != id
    case PutBadCase(key, _) => key != id
    case PutOccurrence(key, _) => key.0 != id
    case PutVerification(_, _) => true
  }

  lemma {:induction false} ForeignWrites(r: Records, writes: seq<Write>, id: Fingerprint)
    requires id in r.badCases && forall i :: 0 <= i < |writes| ==> Foreign(writes[i], id)
    ensures var after := PerformAll(r, writes).0;
            && id in after.badCases && after.badCases[id] == r.badCases[id]
            && (forall k: nat :: (id, k) in r.events ==>
                  (id, k) in after.events && after.events[(id, k)] == r.events[(id, k)])
            && SameOccurrences(r, after, id)
    decreases |writes|
  {
    if writes != [] && Perform(r, writes[0]).Ok? {
      assert Foreign(writes[0], id);
      ForeignWrites(Perform(r, writes[0]).value, writes[1..], id);
    }
  }

  lemma ClosedAheadStep(r: Records, s: Step, id: Fingerprint, event: Event)
    requires OccurrencesOwned(r) && ClosedAhead(r, id, event) && !WritesEvent(s.call, id, event)
    ensures ClosedAhead(Apply(r, s), id, event) && Apply(r, s).badCases[id] == r.badCases[id]
    ensures SameOccurrences(r, Apply(r, s), id)
  {
    match s.call
    case CallAnalyze(f) =>
      if f.fingerprint != id {
        ForeignCut(r, s.call, s.writes, id);
      } else {
        AnalyzeFailsIff(r, f);
        assert Unseen(r, f) ==> Blocked(r, f);
      }
    case CallTransition(key, target, request, evidence, now) =>
      if key != id {
        ForeignCut(r, s.call, s.writes, id);
      } else {
        BlockedTransition(r, id, target, request, evidence, now, s.writes);
      }
  }

  /** A transition whose event slot is taken leaves bad case and event as they are. */
  lemma BlockedTransition(r: Records, id: Fingerprint, target: Status, request: Request, evidence: Evidence, now: int,
                          n: nat)
    requires id in r.badCases
    requires !MayPut(r.events, (id, r.badCases[id].revision + 1),
                     MoveEvent(r.badCases[id].status, target, request, now))
    ensures var after := Cut(r, CallTransition(id, target, request, evidence, now), n);
            after.badCases == r.badCases && after.events == r.events && after.occurrences == r.occurrences
  {
    if Refusal(r, id, target, request, evidence).None? && n > 0 {
      var writes := TransitionWrites(r, id, target, request, now);
      var some := Take(writes, n);
      assert some[0] == writes[0];
      if target == Verified && Perform(r, some[0]).Ok? {
        var rest, mid := some[1..], Checked(r, target, request);
        assert rest != [] ==> rest[0] == writes[1];
        assert PerformAll(mid, rest).0 == mid;
      }
    }
  }

  lemma {:induction false} NoOccurrenceOwned(r: Records, writes: seq<Write>)
    requires OccurrencesOwned(r) && forall i :: 0 <= i < |writes| ==> !writes[i].PutOccurrence?
    ensures OccurrencesOwned(PerformAll(r, writes).0)
    decreases |writes|
  {
    if writes != [] && Perform(r, writes[0]).Ok? {
      NoOccurrenceOwned(Perform(r, writes[0]).value, writes[1..]);
    }
  }

  lemma StepOwned(r: Records, s: Step)
    requires OccurrencesOwned(r)
    ensures OccurrencesOwned(Apply(r, s))
  {
    if s.call.CallTransition? {
      NoOccurrenceOwned(r, Take(Writes(r, s.call), s.writes));
    } else {
      AnalysisOwned(r, s.call.finding, s.writes);
    }
  }

  lemma AnalysisOwned(r: Records, f: Finding, n: nat)
    requires OccurrencesOwned(r)
    ensures OccurrencesOwned(Cut(r, CallAnalyze(f), n))
  {
    if !Unseen(r, f) {
      assert Take(Writes(r, CallAnalyze(f)), n) == [];
    } else {
      AnalyzeFailsIff(r, f);
      if !Blocked(r, f) {
        AnalyzeStates(r, f, n);
      }
    }
  }

  /** A closed bad case whose next event is stored stays as it is, without another occurrence,
      whatever calls come, until one of them writes that very event, time included. */
  lemma {:induction false} ClosedAheadStays(r: Records, trace: seq<Step>, id: Fingerprint, event: Event)
    requires OccurrencesOwned(r) && ClosedAhead(r, id, event)
    requires forall i :: 0 <= i < |trace| ==> !WritesEvent(trace[i].call, id, event)
    ensures ClosedAhead(Run(r, trace), id, event) && Run(r, trace).badCases[id] == r.badCases[id]
    ensures SameOccurrences(r, Run(r, trace), id)
    decreases |trace|
  {
    if trace != [] {
      ClosedAheadStep(r, trace[0], id, event);
      StepOwned(r, trace[0]);
      ClosedAheadStays(Apply(r, trace[0]), trace[1..], id, event);
    }
  }

  /** After a transition cut off between its event and its bad case, a transition accepted
      before goes through if and only if it writes the very same event, and no other
      verification under an id already taken. */
  lemma CutTransitionBlocksIff(r: Records, id: Fingerprint, target: Status, request: Request, evidence: Evidence,
                               now: int, next: Status, retry: Request, backing: Evidence, later: int)
    requires Sound(r) && Transition(r, id, target, request, evidence, now).result.Ok?
    requires Transition(r, id, next, retry, backing, later).result.Ok?
    ensures Refusal(r, id, target, request, evidence).None? && Refusal(r, id, next, retry, backing).None?
    ensures var cut := Cut(r, CallTransition(id, target, request, evidence, now),
                           |TransitionWrites(r, id, target, request, now)| - 1);
            Transition(cut, id, next, retry, backing, later).result.Ok?
            <==> && MoveEvent(Open, target, request, now) == MoveEvent(Open, next, retry, later)
                 && (next == Verified ==> MayPut(cut.verifications, retry.verification.value.0,
                                                 retry.verification.value.1))
  {
    TransitionFailsIff(r, id, target, request, evidence, now);
    TransitionStates(r, id, target, request, evidence, now, |TransitionWrites(r, id, target, request, now)| - 1);
    NotedBlocksIff(r, id, target, request, now, next, retry, backing, later);
  }

  lemma NotedBlocksIff(r: Records, id: Fingerprint, target: Status, request: Request, now: int,
                       next: Status, retry: Request, backing: Evidence, later: int)
    requires id in r.badCases && (target == Verified ==> request.verification.Some?)
    requires Refusal(r, id, next, retry, backing).None?
    ensures var cut := Noted(r, id, target, request, now);
            Transition(cut, id, next, retry, backing, later).result.Ok?
            <==> && MoveEvent(Open, target, request, now) == MoveEvent(Open, next, retry, later)
                 && (next == Verified ==> MayPut(cut.verifications, retry.verification.value.0,
                                                 retry.verification.value.1))
  {
    var cut := Noted(r, id, target, request, now);
    assert Refusal(cut, id, next, retry, backing) == Refusal(r, id, next, retry, backing);
    TransitionFailsIff(cut, id, next, retry, backing, later);
  }
}
