/**
 Bad cases: one per failure fingerprint, with a log of status changes and the occurrences
 seen. A call of the analyzer or of the transition service is a list of writes computed from
 the stored records; a call that is cut off has performed the first few of them.
 */
module BadCases {
  import opened Wrappers

  type RunId = nat
  type CaseId = nat

  // stable_id and stable_hash are injective, so an id is the tuple it was made from: a result
  // is named by its run and its case, a bad case by its fingerprint, an occurrence by its bad
  // case and its result, and an event by its bad case and the revision it leads to.
  datatype ResultId = ResultId(run: RunId, caseId: CaseId)

  datatype Status = Open | Triaged | Confirmed | Fixing | Fixed | Verified | Closed | Rejected

  datatype Trigger = ExecutionError | QualityFailure | NotEvaluableTrigger | TelemetryIncomplete

  datatype Fingerprint = Fingerprint(family: string, component: string, symptom: string, code: string)

  datatype BadCase = BadCase(
    status: Status,
    revision: nat,
    trigger: Trigger,
    rootCause: Option<string>,
    fix: Option<string>,
    verification: Option<nat>,
    occurrenceCount: nat,
    firstRun: RunId,
    lastRun: RunId,
    updatedAt: int)

  datatype Occurrence = Occurrence(run: RunId, at: int)

  datatype Event = Event(from: Status, to: Status, actor: string, reason: string, artifacts: seq<string>, at: int)

  datatype Verification = Verification(
    badCase: Fingerprint,
    run: RunId,
    result: ResultId,
    casePassed: bool,
    regressionPassed: bool,
    rulesPassed: bool,
    ruleIds: seq<string>)

  datatype Promotion = Promotion(badCase: Fingerprint, newCase: CaseId, reproduced: bool)

  type OccurrenceKey = (Fingerprint, ResultId)
  type Slot = (Fingerprint, nat)

  /** The tables, and for the specification every status each bad case was saved with. */
  datatype Records = Records(
    badCases: map<Fingerprint, BadCase>,
    occurrences: map<OccurrenceKey, Occurrence>,
    events: map<Slot, Event>,
    verifications: map<nat, Verification>,
    history: map<Fingerprint, seq<Status>>)

  const NoRecords := Records(map[], map[], map[], map[], map[])

  datatype Error =
    | BadCaseNotFound | BadCaseConflict | TransitionInvalid | RootCauseRequired | FixReferenceRequired
    | VerificationRequired | VerificationFailed | VerificationResultInvalid | RegressionCaseMismatch
    | HardRulesRequired | CloseRequirementsMissing | EventImmutable | VerificationImmutable
    | OccurrenceImmutable

  datatype Outcome = Outcome(records: Records, result: Result<BadCase, Error>)

  predicate Allowed(from: Status, to: Status) {
    match from
    case Open => to == Triaged || to == Rejected
    case Triaged => to == Confirmed || to == Rejected
    case Confirmed => to == Fixing || to == Rejected
    case Fixing => to == Fixed || to == Rejected
    case Fixed => to == Verified
    case Verified => to == Closed
    case Closed => to == Open
    case Rejected => false
  }

  /** _immutable_put: a stored value may only be written again unchanged. */
  predicate MayPut<K, V(==)>(m: map<K, V>, key: K, value: V) {
    key in m ==> m[key] == value
  }

  // -------------------------------------------------------------------- writes

  datatype Write =
    | PutVerification(id: nat, verification: Verification)
    | PutEvent(slot: Slot, event: Event)
    | PutBadCase(fingerprint: Fingerprint, badCase: BadCase)
    | PutOccurrence(key: OccurrenceKey, occurrence: Occurrence)

  function Perform(r: Records, w: Write): Result<Records, Error> {
    match w
    case PutVerification(id, v) =>
      if MayPut(r.verifications, id, v) then Ok(r.(verifications := r.verifications[id := v]))
      else Err(VerificationImmutable)
    case PutEvent(slot, e) =>
      if MayPut(r.events, slot, e) then Ok(r.(events := r.events[slot := e])) else Err(EventImmutable)
    case PutOccurrence(k, o) =>
      if MayPut(r.occurrences, k, o) then Ok(r.(occurrences := r.occurrences[k := o])) else Err(OccurrenceImmutable)
    case PutBadCase(id, b) =>
      if id in r.badCases && r.badCases[id] == b then Ok(r)
      else if id in r.badCases && b.revision != r.badCases[id].revision + 1 then Err(BadCaseConflict)
      else Ok(r.(badCases := r.badCases[id := b],
                 history := r.history[id := (if id in r.history then r.history[id] else []) + [b.status]]))
  }

  /** A store operation did what one write does. */
  ghost predicate Performs(r: Records, w: Write, after: Records, result: Result<(), Error>) {
    && (Perform(r, w).Ok? ==> result.Ok? && after == Perform(r, w).value)
    && (Perform(r, w).Err? ==> result == Err(Perform(r, w).error) && after == r)
  }

  /** The writes one after another, up to the first that fails. */
  function PerformAll(r: Records, writes: seq<Write>): (Records, Option<Error>)
    decreases |writes|
  {
    if writes == [] then (r, None)
    else
      match Perform(r, writes[0])
      case Ok(next) => PerformAll(next, writes[1..])
      case Err(e) => (r, Some(e))
  }

  // ------------------------------------------------------------------ analysis

  datatype Finding = Finding(fingerprint: Fingerprint, result: ResultId, trigger: Trigger, at: int)

  predicate Unseen(r: Records, f: Finding) {
    (f.fingerprint, f.result) !in r.occurrences
  }

  function Recurrence(at: int): Event {
    Event(Closed, Open, "automatic-recurrence", "bad_case_recurred", [], at)
  }

  /** The bad case of a finding, opened or counted on. */
  function CaseFor(r: Records, f: Finding): BadCase {
    if f.fingerprint !in r.badCases then BadCase(Open, 0, f.trigger, None, None, None, 1, f.result.run, f.result.run, f.at)
    else
      var existing := r.badCases[f.fingerprint];
      existing.(status := if existing.status == Closed then Open else existing.status, lastRun := f.result.run,
                occurrenceCount := existing.occurrenceCount + 1,
                revision := existing.revision + 1, updatedAt := f.at)
  }

  predicate Reopens(r: Records, f: Finding) {
    f.fingerprint in r.badCases && r.badCases[f.fingerprint].status == Closed
  }

  /** The event of a recurrence first, then the bad case, then the occurrence. */
  function AnalyzeWrites(r: Records, f: Finding): seq<Write> {
    var badCase := CaseFor(r, f);
    (if Reopens(r, f) then [PutEvent((f.fingerprint, badCase.revision), Recurrence(f.at))] else [])
    + [PutBadCase(f.fingerprint, badCase),
       PutOccurrence((f.fingerprint, f.result), Occurrence(f.result.run, f.at))]
  }

  function Analyze(r: Records, f: Finding): Outcome {
    if !Unseen(r, f) then
      Outcome(r, if f.fingerprint in r.badCases then Ok(r.badCases[f.fingerprint]) else Err(BadCaseNotFound))
    else
      var (after, error) := PerformAll(r, AnalyzeWrites(r, f));
      Outcome(after, if error.None? then Ok(CaseFor(r, f)) else Err(error.value))
  }

  // ---------------------------------------------------------------- transitions

  datatype Request = Request(
    basedOn: nat,
    actor: string,
    reason: string,
    artifacts: seq<string>,
    rootCause: Option<string>,
    fix: Option<string>,
    verification: Option<(nat, Verification)>)

  /** What the service looks up to accept a verification: the case of a passed and complete
      result of the run, if there is one, and the promoted cases. */
  datatype Evidence = Evidence(passedCase: Option<CaseId>, promotions: seq<Promotion>)

  function Or<T>(x: Option<T>, y: Option<T>): Option<T> {
    if x.Some? then x else y
  }

  /** A verification of the bad case whose checks all passed, under at least one rule. */
  predicate Passing(v: Verification, id: Fingerprint) {
    v.badCase == id && v.casePassed && v.regressionPassed && v.rulesPassed && |v.ruleIds| > 0
  }

  function CheckVerification(id: Fingerprint, request: Request, evidence: Evidence): (e: Option<Error>)
    ensures e.None? ==> request.verification.Some? && Passing(request.verification.value.1, id)
  {
    if request.verification.None? || request.verification.value.1.badCase != id then Some(VerificationRequired)
    else
      var v := request.verification.value.1;
      if !(v.casePassed && v.regressionPassed && v.rulesPassed) then Some(VerificationFailed)
      else if evidence.passedCase.None? then Some(VerificationResultInvalid)
      else if !exists i :: 0 <= i < |evidence.promotions| && evidence.promotions[i].badCase == id
                           && evidence.promotions[i].reproduced
                           && evidence.promotions[i].newCase == evidence.passedCase.value then
        Some(RegressionCaseMismatch)
      else if v.ruleIds == [] then Some(HardRulesRequired)
      else None
  }

  /** Why a transition is refused before anything is stored. */
  function Refusal(r: Records, id: Fingerprint, target: Status, request: Request, evidence: Evidence): Option<Error> {
    if id !in r.badCases then Some(BadCaseNotFound)
    else
      var current := r.badCases[id];
      if current.revision != request.basedOn then Some(BadCaseConflict)
      else if !Allowed(current.status, target) then Some(TransitionInvalid)
      else if target == Confirmed && Or(request.rootCause, current.rootCause).None? then Some(RootCauseRequired)
      else if target == Fixed && Or(request.fix, current.fix).None? then Some(FixReferenceRequired)
      else if target == Verified then CheckVerification(id, request, evidence)
      else if target == Closed && (Or(request.rootCause, current.rootCause).None?
                                   || Or(request.fix, current.fix).None? || current.verification.None?) then
        Some(CloseRequirementsMissing)
      else None
  }

  function Moved(current: BadCase, target: Status, request: Request, now: int): BadCase
    requires target == Verified ==> request.verification.Some?
  {
    current.(status := target, revision := current.revision + 1,
             rootCause := Or(request.rootCause, current.rootCause), fix := Or(request.fix, current.fix),
             verification := if target == Verified then Some(request.verification.value.0) else current.verification,
             updatedAt := now)
  }

  function MoveEvent(from: Status, target: Status, request: Request, now: int): Event {
    Event(from, target, request.actor, request.reason, request.artifacts, now)
  }

  /** The verification first, then the event, then the bad case. */
  function TransitionWrites(r: Records, id: Fingerprint, target: Status, request: Request, now: int): seq<Write>
    requires id in r.badCases && (target == Verified ==> request.verification.Some?)
  {
    var current := r.badCases[id];
    (if target == Verified then [PutVerification(request.verification.value.0, request.verification.value.1)] else [])
    + [PutEvent((id, current.revision + 1), MoveEvent(current.status, target, request, now)),
       PutBadCase(id, Moved(current, target, request, now))]
  }

  function Transition(r: Records, id: Fingerprint, target: Status, request: Request, evidence: Evidence, now: int)
    : Outcome
  {
    var refusal := Refusal(r, id, target, request, evidence);
    if refusal.Some? then Outcome(r, Err(refusal.value))
    else
      var (after, error) := PerformAll(r, TransitionWrites(r, id, target, request, now));
      Outcome(after, if error.None? then Ok(Moved(r.badCases[id], target, request, now)) else Err(error.value))
  }

  // ---------------------------------------------------------------------- calls

  datatype Call =
    | CallAnalyze(finding: Finding)
    | CallTransition(id: Fingerprint, target: Status, request: Request, evidence: Evidence, now: int)

  /** What a call is going to write. */
  function Writes(r: Records, call: Call): (writes: seq<Write>)
    ensures |writes| <= 3
  {
    match call
    case CallAnalyze(f) => if Unseen(r, f) then AnalyzeWrites(r, f) else []
    case CallTransition(id, target, request, evidence, now) =>
      if Refusal(r, id, target, request, evidence).None? then TransitionWrites(r, id, target, request, now) else []
  }

  function Take(writes: seq<Write>, n: nat): seq<Write> {
    if n <= |writes| then writes[..n] else writes
  }

  /** A call cut off after its first `n` writes, or whole if it has no more. */
  function Cut(r: Records, call: Call, n: nat): Records {
    PerformAll(r, Take(Writes(r, call), n)).0
  }
}
