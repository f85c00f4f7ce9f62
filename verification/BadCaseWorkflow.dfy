/** The analyzer and the transition service over the evaluation store; either may be cut off
    before any of its writes. */
module BadCaseWorkflow {
  import opened Wrappers
  import opened Interferences
  import opened BadCases
  import opened BadCaseHistory
  import opened EvaluationStorage

  class BadCaseAnalyzer {
    const store: InMemoryEvaluationStore

    constructor (store: InMemoryEvaluationStore)
      ensures this.store == store
    {
      this.store := store;
    }

    /** `writes` counts the writes performed. */
    method Analyze(f: Finding, around: Interference)
      returns (stop: bool, r: Result<BadCase, Error>, ghost writes: nat)
      modifies store`badCases, store`occurrences, store`events, store`history
      ensures store.Records() == Cut(old(store.Records()), CallAnalyze(f), writes)
      ensures !stop ==> Outcome(store.Records(), r) == BadCases.Analyze(old(store.Records()), f)
      ensures around.Calm? ==> !stop
    {
      ghost var before := store.Records();
      var key := (f.fingerprint, f.result);
      stop, writes := false, 0;
      if key in store.occurrences {
        r := if f.fingerprint in store.badCases then Ok(store.badCases[f.fingerprint]) else Err(BadCaseNotFound);
        return;
      }
      r := Err(BadCaseNotFound);
      var badCase;
      if f.fingerprint !in store.badCases {
        badCase := BadCase(Open, 0, f.trigger, None, None, None, 1, f.result.run, f.result.run, f.at);
      } else {
        var existing := store.badCases[f.fingerprint];
        var reopened := existing.status == Closed;
        badCase := existing.(status := if reopened then Open else existing.status, lastRun := f.result.run,
                             occurrenceCount := existing.occurrenceCount + 1,
                             revision := existing.revision + 1, updatedAt := f.at);
        if reopened {
          stop := Strikes(around);
          if stop {
            return;
          }
          var appended := store.AppendEvent((f.fingerprint, badCase.revision), Recurrence(f.at));
          if appended.Err? {
            FailedAnalysis(before, f);
            r := Err(appended.error);
            return;
          }
          writes := 1;
        }
      }
      AnnouncedCut(before, f, store.Records(), writes);
      stop, r, writes := Save(f, badCase, around, before, writes);
    }

    /** The bad case and then the occurrence, after the event of a recurrence. */
    method Save(f: Finding, badCase: BadCase, around: Interference, ghost before: Records, ghost announced: nat)
      returns (stop: bool, r: Result<BadCase, Error>, ghost writes: nat)
      requires Unseen(before, f) && !Blocked(before, f) && announced == (if Reopens(before, f) then 1 else 0)
      requires badCase == CaseFor(before, f) && store.Records() == Cut(before, CallAnalyze(f), announced)
      modifies store`badCases, store`occurrences, store`history
      ensures store.Records() == Cut(before, CallAnalyze(f), writes)
      ensures !stop ==> Outcome(store.Records(), r) == BadCases.Analyze(before, f)
      ensures around.Calm? ==> !stop
    {
      NextCuts(before, f, announced);
      writes, r := announced, Ok(badCase);
      stop := Strikes(around);
      if stop {
        return;
      }
      var saved := store.SaveBadCase(f.fingerprint, badCase);
      writes := writes + 1;
      stop := Strikes(around);
      if stop {
        return;
      }
      var occurred := store.AppendOccurrence((f.fingerprint, f.result), Occurrence(f.result.run, f.at));
      writes := writes + 1;
    }

    lemma AnnouncedCut(r: Records, f: Finding, mid: Records, announced: nat)
      requires Unseen(r, f) && !Blocked(r, f) && announced == (if Reopens(r, f) then 1 else 0)
      requires mid == Announced(r, f)
      ensures mid == Cut(r, CallAnalyze(f), announced)
    {
      AnalyzeStates(r, f, announced);
    }

    /** The last two writes of an analysis lead from cut to cut. */
    lemma NextCuts(r: Records, f: Finding, announced: nat)
      requires Unseen(r, f) && !Blocked(r, f) && announced == (if Reopens(r, f) then 1 else 0)
      ensures var mid := Cut(r, CallAnalyze(f), announced);
              var saved := Perform(mid, PutBadCase(f.fingerprint, CaseFor(r, f)));
              && saved.Ok? && saved.value == Cut(r, CallAnalyze(f), announced + 1)
              && var done := Perform(saved.value, PutOccurrence((f.fingerprint, f.result), Occurrence(f.result.run, f.at)));
                 && done.Ok? && done.value == Cut(r, CallAnalyze(f), announced + 2)
                 && BadCases.Analyze(r, f) == Outcome(done.value, Ok(CaseFor(r, f)))
    {
      AnalyzeStates(r, f, announced);
      AnalyzeStates(r, f, announced + 1);
      AnalyzeStates(r, f, announced + 2);
    }

    lemma FailedAnalysis(r: Records, f: Finding)
      requires Blocked(r, f)
      ensures BadCases.Analyze(r, f) == Outcome(r, Err(EventImmutable)) && Cut(r, CallAnalyze(f), 0) == r
    {
      assert PerformAll(r, AnalyzeWrites(r, f)) == (r, Some(EventImmutable));
    }
  }

  class BadCaseService {
    const store: InMemoryEvaluationStore

    constructor (store: InMemoryEvaluationStore)
      ensures this.store == store
    {
      this.store := store;
    }

    /** Whether a verification is good enough to accept. */
    method Check(id: Fingerprint, request: Request, evidence: Evidence) returns (e: Option<Error>)
      ensures e == CheckVerification(id, request, evidence)
    {
      if request.verification.None? || request.verification.value.1.badCase != id {
        return Some(VerificationRequired);
      }
      var v := request.verification.value.1;
      if !(v.casePassed && v.regressionPassed && v.rulesPassed) {
        return Some(VerificationFailed);
      }
      if evidence.passedCase.None? {
        return Some(VerificationResultInvalid);
      }
      var promoted := false;
      for i := 0 to |evidence.promotions|
        invariant promoted <==> exists k :: 0 <= k < i && evidence.promotions[k].badCase == id
                                            && evidence.promotions[k].reproduced
                                            && evidence.promotions[k].newCase == evidence.passedCase.value
      {
        var p := evidence.promotions[i];
        promoted := promoted || (p.badCase == id && p.reproduced && p.newCase == evidence.passedCase.value);
      }
      if !promoted {
        return Some(RegressionCaseMismatch);
      }
      e := if v.ruleIds == [] then Some(HardRulesRequired) else None;
    }

    method Transition(id: Fingerprint, target: Status, request: Request, evidence: Evidence, now: int,
                      around: Interference)
      returns (stop: bool, r: Result<BadCase, Error>, ghost writes: nat)
      modifies store`badCases, store`events, store`verifications, store`history
      ensures store.Records() == Cut(old(store.Records()), CallTransition(id, target, request, evidence, now), writes)
      ensures !stop ==> Outcome(store.Records(), r)
                        == BadCases.Transition(old(store.Records()), id, target, request, evidence, now)
      ensures around.Calm? ==> !stop
    {
      stop, writes := false, 0;
      if id !in store.badCases {
        return stop, Err(BadCaseNotFound), writes;
      }
      var current := store.badCases[id];
      if current.revision != request.basedOn {
        return stop, Err(BadCaseConflict), writes;
      }
      if !Allowed(current.status, target) {
        return stop, Err(TransitionInvalid), writes;
      }
      var rootCause, fix := Or(request.rootCause, current.rootCause), Or(request.fix, current.fix);
      if target == Confirmed && rootCause.None? {
        return stop, Err(RootCauseRequired), writes;
      }
      if target == Fixed && fix.None? {
        return stop, Err(FixReferenceRequired), writes;
      }
      if target == Verified {
        var refused := Check(id, request, evidence);
        if refused.Some? {
          return stop, Err(refused.value), writes;
        }
      }
      if target == Closed && (rootCause.None? || fix.None? || current.verification.None?) {
        return stop, Err(CloseRequirementsMissing), writes;
      }
      stop, r, writes := Write(id, target, request, evidence, now, around);
    }

    /** The writes of a transition that is not refused. */
    method Write(id: Fingerprint, target: Status, request: Request, ghost evidence: Evidence, now: int,
                 around: Interference)
      returns (stop: bool, r: Result<BadCase, Error>, ghost writes: nat)
      requires Refusal(store.Records(), id, target, request, evidence).None?
      modifies store`badCases, store`events, store`verifications, store`history
      ensures store.Records() == Cut(old(store.Records()), CallTransition(id, target, request, evidence, now), writes)
      ensures !stop ==> Outcome(store.Records(), r)
                        == BadCases.Transition(old(store.Records()), id, target, request, evidence, now)
      ensures around.Calm? ==> !stop
    {
      ghost var before := store.Records();
      var current := store.badCases[id];
      var verification := current.verification;
      writes, r := 0, Err(BadCaseNotFound);
      if target == Verified {
        stop := Strikes(around);
        if stop {
          return;
        }
        var (vid, v) := request.verification.value;
        var stored := store.SaveVerification(vid, v);
        if stored.Err? {
          UnverifiedTransition(before, id, target, request, evidence, now);
          return false, Err(stored.error), 0;
        }
        writes, verification := 1, Some(vid);
      }
      assert store.Records() == Checked(before, target, request);
      CheckedCut(before, id, target, request, evidence, now, writes);
      stop := Strikes(around);
      if stop {
        return;
      }
      var event := MoveEvent(current.status, target, request, now);
      var appended := store.AppendEvent((id, current.revision + 1), event);
      if appended.Err? {
        UnnotedTransition(before, id, target, request, evidence, now);
        return false, Err(appended.error), writes;
      }
      var updated := current.(status := target, revision := current.revision + 1,
                              rootCause := Or(request.rootCause, current.rootCause),
                              fix := Or(request.fix, current.fix), verification := verification, updatedAt := now);
      stop, writes := SaveMoved(id, updated, target, request, evidence, now, around, before);
      r := Ok(updated);
    }

    /** The bad case, after its event. */
    method SaveMoved(id: Fingerprint, updated: BadCase, ghost target: Status, ghost request: Request,
                     ghost evidence: Evidence, ghost now: int, around: Interference, ghost before: Records)
      returns (stop: bool, ghost writes: nat)
      requires Refusal(before, id, target, request, evidence).None? && Free(before, id, target, request, now)
      requires updated == Moved(before.badCases[id], target, request, now)
      requires store.Records() == Noted(before, id, target, request, now)
      modifies store`badCases, store`history
      ensures store.Records() == Cut(before, CallTransition(id, target, request, evidence, now), writes)
      ensures !stop ==> Outcome(store.Records(), Ok(updated))
                        == BadCases.Transition(before, id, target, request, evidence, now)
      ensures around.Calm? ==> !stop
    {
      writes := |TransitionWrites(before, id, target, request, now)| - 1;
      TransitionStates(before, id, target, request, evidence, now, writes);
      TransitionStates(before, id, target, request, evidence, now, writes + 1);
      stop := Strikes(around);
      if stop {
        return;
      }
      var saved := store.SaveBadCase(id, updated);
      writes := writes + 1;
    }

    lemma UnverifiedTransition(r: Records, id: Fingerprint, target: Status, request: Request, evidence: Evidence, now: int)
      requires Refusal(r, id, target, request, evidence).None? && target == Verified
      requires !MayPut(r.verifications, request.verification.value.0, request.verification.value.1)
      ensures BadCases.Transition(r, id, target, request, evidence, now) == Outcome(r, Err(VerificationImmutable))
    {
    }

    lemma CheckedCut(r: Records, id: Fingerprint, target: Status, request: Request, evidence: Evidence, now: int, n: nat)
      requires Refusal(r, id, target, request, evidence).None? && n == (if target == Verified then 1 else 0)
      requires target == Verified ==>
                 MayPut(r.verifications, request.verification.value.0, request.verification.value.1)
      ensures Cut(r, CallTransition(id, target, request, evidence, now), n) == Checked(r, target, request)
    {
      var writes := TransitionWrites(r, id, target, request, now);
      if n == 1 {
        assert Take(writes, n) == [writes[0]];
        OneWrite(r, writes[0]);
      }
    }

    lemma UnnotedTransition(r: Records, id: Fingerprint, target: Status, request: Request, evidence: Evidence, now: int)
      requires Refusal(r, id, target, request, evidence).None?
      requires target == Verified ==>
                 MayPut(r.verifications, request.verification.value.0, request.verification.value.1)
      requires !MayPut(r.events, (id, r.badCases[id].revision + 1),
                       MoveEvent(r.badCases[id].status, target, request, now))
      ensures BadCases.Transition(r, id, target, request, evidence, now)
              == Outcome(Checked(r, target, request), Err(EventImmutable))
    {
      var writes := TransitionWrites(r, id, target, request, now);
      if target == Verified {
        FirstWrite(r, writes[0], writes[1..]);
        assert writes == [writes[0]] + writes[1..];
        assert writes[1..][0] == writes[1];
      }
    }
  }
}
