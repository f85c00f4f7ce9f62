/** What a bad case must have been shown to be before it is moved on. */
module BadCaseEvidence {
  import opened Wrappers
  import opened BadCases
  import opened BadCaseHistory

  /** The statuses from which a bad case is moved to a given one. */
  function Sources(target: Status): set<Status> {
    match target
    case Open => {Closed}
    case Triaged => {Open}
    case Confirmed => {Triaged}
    case Fixing => {Confirmed}
    case Fixed => {Fixing}
    case Verified => {Fixed}
    case Closed => {Verified}
    case Rejected => {Open, Triaged, Confirmed, Fixing}
  }

  /** The verification was of a complete passed result of a case that was promoted from this bad
      case after the failure had been reproduced, and everything in it passed. */
  ghost predicate Shown(id: Fingerprint, request: Request, evidence: Evidence) {
    && request.verification.Some? && Passing(request.verification.value.1, id) && evidence.passedCase.Some?
    && exists p :: p in evidence.promotions && p.badCase == id && p.reproduced && p.newCase == evidence.passedCase.value
  }

  /** What each target status asks for. */
  ghost predicate Evidenced(b: BadCase, id: Fingerprint, target: Status, request: Request, evidence: Evidence) {
    match target
    case Confirmed => request.rootCause.Some? || b.rootCause.Some?
    case Fixed => request.fix.Some? || b.fix.Some?
    case Verified => Shown(id, request, evidence)
    case Closed =>
      && (request.rootCause.Some? || b.rootCause.Some?) && (request.fix.Some? || b.fix.Some?) && b.verification.Some?
    case _ => true
  }

  lemma CheckIff(id: Fingerprint, request: Request, evidence: Evidence)
    ensures CheckVerification(id, request, evidence).None? <==> Shown(id, request, evidence)
  {
    if Shown(id, request, evidence) {
      var p :| p in evidence.promotions && p.badCase == id && p.reproduced && p.newCase == evidence.passedCase.value;
      var i :| 0 <= i < |evidence.promotions| && evidence.promotions[i] == p;
    }
  }

  /** A transition is not refused if and only if it is based on the present revision, the step is
      in the table, and the target has its evidence. */
  lemma RefusedIff(r: Records, id: Fingerprint, target: Status, request: Request, evidence: Evidence)
    ensures Refusal(r, id, target, request, evidence).None?
            <==> && id in r.badCases && r.badCases[id].revision == request.basedOn
                 && r.badCases[id].status in Sources(target)
                 && Evidenced(r.badCases[id], id, target, request, evidence)
  {
    CheckIff(id, request, evidence);
  }

  ghost predicate Promoted(id: Fingerprint, evidence: Evidence) {
    && evidence.passedCase.Some?
    && exists p :: p in evidence.promotions && p.badCase == id && p.reproduced && p.newCase == evidence.passedCase.value
  }

  /** Why a transition is refused, by the first reason there is. */
  lemma RefusedWhy(r: Records, id: Fingerprint, target: Status, request: Request, evidence: Evidence)
    ensures var e := Refusal(r, id, target, request, evidence);
            && (id !in r.badCases ==> e == Some(BadCaseNotFound))
            && (id in r.badCases && r.badCases[id].revision != request.basedOn ==> e == Some(BadCaseConflict))
            && (id in r.badCases && r.badCases[id].revision == request.basedOn ==>
                  && (r.badCases[id].status !in Sources(target) ==> e == Some(TransitionInvalid))
                  && (r.badCases[id].status in Sources(target)
                      && !Evidenced(r.badCases[id], id, target, request, evidence) ==>
                        && (target == Confirmed ==> e == Some(RootCauseRequired))
                        && (target == Fixed ==> e == Some(FixReferenceRequired))
                        && (target == Closed ==> e == Some(CloseRequirementsMissing))
                        && (target == Verified ==> e == NotShown(id, request, evidence))))
  {
    CheckIff(id, request, evidence);
    NotShownWhy(id, request, evidence);
  }

  ghost function NotShown(id: Fingerprint, request: Request, evidence: Evidence): Option<Error> {
    match request.verification
    case None => Some(VerificationRequired)
    case Some((_, v)) =>
      if v.badCase != id then Some(VerificationRequired)
      else if [v.casePassed, v.regressionPassed, v.rulesPassed] != [true, true, true] then Some(VerificationFailed)
      else if evidence.passedCase.None? then Some(VerificationResultInvalid)
      else if !Promoted(id, evidence) then Some(RegressionCaseMismatch)
      else if |v.ruleIds| == 0 then Some(HardRulesRequired)
      else None
  }

  lemma NotShownWhy(id: Fingerprint, request: Request, evidence: Evidence)
    ensures CheckVerification(id, request, evidence) == NotShown(id, request, evidence)
  {
    if Promoted(id, evidence) {
      var p :| p in evidence.promotions && p.badCase == id && p.reproduced && p.newCase == evidence.passedCase.value;
      var i :| 0 <= i < |evidence.promotions| && evidence.promotions[i] == p;
    }
    if request.verification.Some? {
      var flags := [request.verification.value.1.casePassed, request.verification.value.1.regressionPassed,
                    request.verification.value.1.rulesPassed];
      assert flags == [true, true, true] <==> flags[0] && flags[1] && flags[2];
    }
  }

  /** What a transition makes of a bad case: the new status at the next revision, and what the
      request brought; nothing it had is lost. */
  lemma MovedExact(r: Records, id: Fingerprint, target: Status, request: Request, evidence: Evidence, now: int)
    requires Transition(r, id, target, request, evidence, now).result.Ok?
    ensures target == Verified ==> request.verification.Some?
    ensures var o := Transition(r, id, target, request, evidence, now);
            && id in r.badCases && id in o.records.badCases && o.result.value == o.records.badCases[id]
            && o.records.badCases == r.badCases[id := o.result.value] && o.records.occurrences == r.occurrences
            && var was, b := r.badCases[id], o.result.value;
               && b.status == target && b.revision == was.revision + 1 && b.updatedAt == now
               && b.rootCause == (if request.rootCause.Some? then request.rootCause else was.rootCause)
               && b.fix == (if request.fix.Some? then request.fix else was.fix)
               && b.verification == (if target == Verified then Some(request.verification.value.0) else was.verification)
               && b.occurrenceCount == was.occurrenceCount && b.trigger == was.trigger
               && b.firstRun == was.firstRun && b.lastRun == was.lastRun
               && (id, b.revision) in o.records.events
               && o.records.events == r.events[(id, b.revision) :=
                    Event(was.status, target, request.actor, request.reason, request.artifacts, now)]
    ensures var o := Transition(r, id, target, request, evidence, now);
            o.records.verifications == if target != Verified then r.verifications
                                       else var (key, v) := request.verification.value; r.verifications[key := v]
  {
    TransitionFailsIff(r, id, target, request, evidence, now);
    TransitionStates(r, id, target, request, evidence, now, 0);
  }

  /** What an analysis makes of a finding. */
  lemma AnalyzedExact(r: Records, f: Finding)
    requires OccurrencesOwned(r) && Unseen(r, f) && Analyze(r, f).result.Ok?
    ensures var o := Analyze(r, f);
            && f.fingerprint in o.records.badCases && o.result.value == o.records.badCases[f.fingerprint]
            && o.records.badCases == r.badCases[f.fingerprint := o.result.value]
            && o.records.occurrences == r.occurrences[(f.fingerprint, f.result) := Occurrence(f.result.run, f.at)]
            && var b := o.result.value;
               if f.fingerprint !in r.badCases then
                 b == BadCase(Open, 0, f.trigger, None, None, None, 1, f.result.run, f.result.run, f.at)
                 && o.records.events == r.events
               else
                 var was := r.badCases[f.fingerprint];
                 && b.status == (if was.status == Closed then Open else was.status) && b.revision == was.revision + 1
                 && b.occurrenceCount == was.occurrenceCount + 1 && b.lastRun == f.result.run && b.updatedAt == f.at
                 && b.rootCause == was.rootCause && b.fix == was.fix && b.verification == was.verification
                 && b.firstRun == was.firstRun && b.trigger == was.trigger
                 && o.records.events == if was.status != Closed then r.events
                      else r.events[(f.fingerprint, b.revision) :=
                             Event(Closed, Open, "automatic-recurrence", "bad_case_recurred", [], f.at)]
  {
    AnalyzeFailsIff(r, f);
    AnalyzeStates(r, f, 0);
  }

  /** In every state reached by calls cut off anywhere, a verified or closed bad case names a
      stored verification of its own in which everything passed, a confirmed one or later has its
      root cause, and a fixed one or later its fix. */
  lemma VerifiedMeansPassed(trace: seq<Step>, id: Fingerprint)
    ensures var r := Run(NoRecords, trace);
            id in r.badCases ==>
              var b := r.badCases[id];
              && (b.status == Verified || b.status == Closed ==>
                    && b.verification.Some? && b.verification.value in r.verifications
                    && var v := r.verifications[b.verification.value];
                       v.badCase == id && v.casePassed && v.regressionPassed && v.rulesPassed && v.ruleIds != [])
              && (b.status in {Confirmed, Fixing, Fixed, Verified, Closed} ==> b.rootCause.Some?)
              && (b.status in {Fixed, Verified, Closed} ==> b.fix.Some?)
  {
    RunKeeps(NoRecords, trace);
    var r := Run(NoRecords, trace);
    if id in r.badCases {
      assert Backed(r, id, r.badCases[id]);
    }
  }
}
