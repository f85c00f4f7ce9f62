/** What every run of the analyzer and the transition service keeps, cut off or not. */
module BadCaseHistory {
  import opened Wrappers
  import opened BadCases

  /** A call, cut off after some of its writes; no call makes more than three. */
  datatype Step = Step(call: Call, writes: nat)

  predicate Whole(s: Step) {
    s.writes >= 3
  }

  function Apply(r: Records, s: Step): Records {
    Cut(r, s.call, s.writes)
  }

  function Run(r: Records, trace: seq<Step>): Records
    decreases |trace|
  {
    if trace == [] then r else Run(Apply(r, trace[0]), trace[1..])
  }

  /** A whole call leaves what the analyzer or the service returns with. */
  lemma WholeCall(r: Records, call: Call, n: nat)
    requires n >= 3
    ensures call.CallAnalyze? ==> Cut(r, call, n) == Analyze(r, call.finding).records
    ensures call.CallTransition? ==>
              Cut(r, call, n)
              == Transition(r, call.id, call.target, call.request, call.evidence, call.now).records
  {
    assert Take(Writes(r, call), n) == Writes(r, call);
  }

  // ------------------------------------------------------------------ invariants

  /** An event of a bad case starts from the status before it and is an allowed transition;
      the revision it leads to, if there is one, took its status or kept the old one. */
  predicate Placed(e: Event, k: nat, history: seq<Status>) {
    && 0 < k <= |history| && e.from == history[k - 1] && Allowed(e.from, e.to)
    && (k < |history| ==> history[k] == e.to || history[k] == e.from)
  }

  /** The log explains every change of status. It may hold events whose change never came:
      one ahead of the present revision, or one passed over by a recurrence. */
  ghost predicate Explained(r: Records) {
    && r.history.Keys == r.badCases.Keys
    && (forall id :: id in r.badCases ==> Dated(r.badCases[id], r.history[id]))
    && (forall slot: Slot :: slot in r.events ==>
          slot.0 in r.history && Placed(r.events[slot], slot.1, r.history[slot.0]))
    && (forall slot: Slot :: slot.0 in r.history && 0 < slot.1 < |r.history[slot.0]| && slot !in r.events ==>
          r.history[slot.0][slot.1] == r.history[slot.0][slot.1 - 1])
  }

  predicate Dated(b: BadCase, history: seq<Status>) {
    |history| == b.revision + 1 && history[0] == Open && history[b.revision] == b.status
  }

  /** Every event led to the status it names. */
  ghost predicate Genuine(r: Records) {
    forall slot: Slot :: slot in r.events ==>
      && slot.0 in r.history && slot.1 < |r.history[slot.0]|
      && r.history[slot.0][slot.1] == r.events[slot].to
  }

  ghost predicate OccurrencesOwned(r: Records) {
    forall k :: k in r.occurrences ==> k.0 in r.badCases
  }

  /** The fields each status relies on. */
  predicate FieldsPresent(b: BadCase) {
    && (b.status.Confirmed? || b.status.Fixing? || b.status.Fixed? || b.status.Verified? || b.status.Closed? ==>
          b.rootCause.Some?)
    && (b.status.Fixed? || b.status.Verified? || b.status.Closed? ==> b.fix.Some?)
    && (b.status.Verified? || b.status.Closed? ==> b.verification.Some?)
  }

  /** A bad case has the fields of its status, and a verification it names is stored, its own and
      passed. */
  predicate Backed(r: Records, id: Fingerprint, b: BadCase) {
    && FieldsPresent(b)
    && (b.verification.Some? ==>
          b.verification.value in r.verifications && Passing(r.verifications[b.verification.value], id))
  }

  ghost predicate FieldsExact(r: Records) {
    forall id :: id in r.badCases ==> Backed(r, id, r.badCases[id])
  }

  function Seen(r: Records, id: Fingerprint): set<ResultId> {
    set k | k in r.occurrences && k.0 == id :: k.1
  }

  ghost predicate CountsCover(r: Records) {
    forall id :: id in r.badCases ==> |Seen(r, id)| <= r.badCases[id].occurrenceCount
  }

  ghost predicate CountsExact(r: Records) {
    forall id :: id in r.badCases ==> r.badCases[id].occurrenceCount == |Seen(r, id)|
  }

  /** What survives calls cut off anywhere. */
  ghost predicate Kept(r: Records) {
    Explained(r) && OccurrencesOwned(r) && FieldsExact(r) && CountsCover(r)
  }

  /** What whole calls keep. */
  ghost predicate Sound(r: Records) {
    Kept(r) && Genuine(r) && CountsExact(r)
  }

  // -------------------------------------------------------------------- each write

  /** When a write keeps the records explained. */
  ghost predicate Fits(r: Records, w: Write) {
    match w
    case PutVerification(_, _) => true
    case PutEvent(slot, e) =>
      && slot.0 in r.badCases && slot.1 == r.badCases[slot.0].revision + 1
      && e.from == r.badCases[slot.0].status && Allowed(e.from, e.to)
    case PutBadCase(id, b) =>
      && Backed(r, id, b)
      && (if id in r.badCases then
            var was := r.badCases[id];
            && b.revision == was.revision + 1 && was.occurrenceCount <= b.occurrenceCount
            && (b.status == was.status || ((id, b.revision) in r.events && r.events[(id, b.revision)].to == b.status))
          else b.revision == 0 && b.status == Open)
    case PutOccurrence(k, _) =>
      k.0 in r.badCases && (k !in r.occurrences ==> |Seen(r, k.0)| < r.badCases[k.0].occurrenceCount)
  }

  lemma PutVerificationKeeps(r: Records, id: nat, v: Verification)
    requires Kept(r) && MayPut(r.verifications, id, v)
    ensures Kept(r.(verifications := r.verifications[id := v]))
  {
    var after := r.(verifications := r.verifications[id := v]);
    SeenSame(r, after);
    LogFrame(r, after);
  }

  lemma PutEventKeeps(r: Records, slot: Slot, e: Event)
    requires Kept(r) && Fits(r, PutEvent(slot, e)) && MayPut(r.events, slot, e)
    ensures Kept(r.(events := r.events[slot := e]))
  {
    var after := r.(events := r.events[slot := e]);
    SeenSame(r, after);
    PutEventExplained(r, slot, e, after);
    FieldsFrame(r, after);
  }

  lemma PutEventExplained(r: Records, slot: Slot, e: Event, after: Records)
    requires Explained(r) && Fits(r, PutEvent(slot, e))
    requires after.events == r.events[slot := e] && after.history == r.history && after.badCases == r.badCases
    ensures Explained(after)
  {
    assert Dated(r.badCases[slot.0], r.history[slot.0]);
    forall s: Slot | s in after.events
      ensures s.0 in after.history && Placed(after.events[s], s.1, after.history[s.0])
    {
      assert s != slot ==> Placed(r.events[s], s.1, r.history[s.0]);
    }
  }

  lemma PutBadCaseKeeps(r: Records, id: Fingerprint, b: BadCase)
    requires Kept(r) && Fits(r, PutBadCase(id, b))
    ensures Perform(r, PutBadCase(id, b)).Ok? && Kept(Perform(r, PutBadCase(id, b)).value)
  {
    var after := Perform(r, PutBadCase(id, b)).value;
    PutBadCaseCovers(r, id, b, after);
    PutBadCaseExplained(r, id, b, after);
  }

  lemma PutBadCaseCovers(r: Records, id: Fingerprint, b: BadCase, after: Records)
    requires OccurrencesOwned(r) && CountsCover(r) && FieldsExact(r) && Fits(r, PutBadCase(id, b))
    requires after.occurrences == r.occurrences && after.verifications == r.verifications
    requires after.badCases == r.badCases[id := b]
    ensures OccurrencesOwned(after) && CountsCover(after) && FieldsExact(after)
  {
    SeenSame(r, after);
    if id !in r.badCases {
      NothingSeen(r, id);
    }
    forall k | k in after.badCases ensures Backed(after, k, after.badCases[k]) {
      assert k != id ==> Backed(r, k, r.badCases[k]);
    }
  }

  lemma PutBadCaseExplained(r: Records, id: Fingerprint, b: BadCase, after: Records)
    requires Explained(r) && Fits(r, PutBadCase(id, b)) && after.badCases == r.badCases[id := b]
    requires after.history == r.history[id := (if id in r.history then r.history[id] else []) + [b.status]]
    requires after.events == r.events
    ensures Explained(after)
  {
    assert Dated(b, after.history[id]) by {
      assert id in r.badCases ==> Dated(r.badCases[id], r.history[id]);
    }
    forall slot: Slot | slot in after.events
      ensures slot.0 in after.history && Placed(after.events[slot], slot.1, after.history[slot.0])
    {
      assert Placed(r.events[slot], slot.1, r.history[slot.0]);
      assert id in r.badCases ==> Dated(r.badCases[id], r.history[id]);
    }
    forall slot: Slot | slot.0 in after.history && 0 < slot.1 < |after.history[slot.0]| && slot !in after.events
      ensures after.history[slot.0][slot.1] == after.history[slot.0][slot.1 - 1]
    {
      if slot.0 == id {
        assert Dated(r.badCases[id], r.history[id]);
        assert slot.1 == b.revision ==> (id, b.revision) == slot;
      }
    }
  }

  lemma PutOccurrenceKeeps(r: Records, k: OccurrenceKey, o: Occurrence)
    requires Kept(r) && Fits(r, PutOccurrence(k, o)) && MayPut(r.occurrences, k, o)
    ensures Kept(r.(occurrences := r.occurrences[k := o]))
  {
    var after := r.(occurrences := r.occurrences[k := o]);
    if k in r.occurrences {
      assert after == r;
    } else {
      LogFrame(r, after);
      FieldsFrame(r, after);
      PutOccurrenceCovers(r, k, after);
    }
  }

  lemma LogFrame(r: Records, after: Records)
    requires Explained(r)
    requires after.badCases == r.badCases && after.events == r.events && after.history == r.history
    ensures Explained(after)
  {
  }

  lemma FieldsFrame(r: Records, after: Records)
    requires FieldsExact(r) && after.badCases == r.badCases && after.verifications == r.verifications
    ensures FieldsExact(after)
  {
    forall id | id in after.badCases ensures Backed(after, id, after.badCases[id]) {
      assert Backed(r, id, r.badCases[id]);
    }
  }

  lemma PutOccurrenceCovers(r: Records, k: OccurrenceKey, after: Records)
    requires CountsCover(r) && k !in r.occurrences && k in after.occurrences && after.badCases == r.badCases
    requires after.occurrences == r.occurrences[k := after.occurrences[k]]
    requires k.0 in r.badCases && |Seen(r, k.0)| < r.badCases[k.0].occurrenceCount
    ensures CountsCover(after)
  {
    forall id | id in after.badCases ensures |Seen(after, id)| <= after.badCases[id].occurrenceCount {
      SeenGrows(r, after, k, id);
    }
  }

  lemma WriteKeeps(r: Records, w: Write)
    requires Kept(r) && Fits(r, w)
    ensures Perform(r, w).Ok? ==> Kept(Perform(r, w).value)
  {
    match w
    case PutVerification(id, v) =>
      if MayPut(r.verifications, id, v) { PutVerificationKeeps(r, id, v); }
    case PutEvent(slot, e) =>
      if MayPut(r.events, slot, e) { PutEventKeeps(r, slot, e); }
    case PutBadCase(id, b) => PutBadCaseKeeps(r, id, b);
    case PutOccurrence(k, o) =>
      if MayPut(r.occurrences, k, o) { PutOccurrenceKeeps(r, k, o); }
  }

  lemma SeenSame(r: Records, after: Records)
    requires after.occurrences == r.occurrences
    ensures forall id :: Seen(after, id) == Seen(r, id)
  {
  }

  lemma NothingSeen(r: Records, id: Fingerprint)
    requires OccurrencesOwned(r) && id !in r.badCases
    ensures Seen(r, id) == {}
  {
  }

  /** A new occurrence is seen by its own bad case only. */
  lemma SeenGrows(r: Records, after: Records, k: OccurrenceKey, id: Fingerprint)
    requires k !in r.occurrences && k in after.occurrences
    requires after.occurrences == r.occurrences[k := after.occurrences[k]]
    ensures |Seen(after, id)| == |Seen(r, id)| + if id == k.0 then 1 else 0
  {
    var added := if id == k.0 then {k.1} else {};
    assert k.1 !in Seen(r, k.0);
    assert Seen(after, id) == Seen(r, id) + added by {
      forall x ensures x in Seen(after, id) <==> x in Seen(r, id) + added {
        assert (id, x) in after.occurrences <==> (id, x) in r.occurrences || (id, x) == k;
      }
    }
  }

  // --------------------------------------------------------------------- each call

  ghost predicate FitsAll(r: Records, writes: seq<Write>)
    decreases |writes|
  {
    writes == []
    || (Fits(r, writes[0]) && (Perform(r, writes[0]).Ok? ==> FitsAll(Perform(r, writes[0]).value, writes[1..])))
  }

  lemma {:induction false} PrefixKeeps(r: Records, writes: seq<Write>, n: nat)
    requires Kept(r) && FitsAll(r, writes)
    ensures Kept(PerformAll(r, Take(writes, n)).0)
    decreases |writes|
  {
    if writes != [] && n > 0 {
      WriteKeeps(r, writes[0]);
      var some := Take(writes, n);
      assert some[0] == writes[0] && some[1..] == Take(writes[1..], n - 1);
      if Perform(r, writes[0]).Ok? {
        PrefixKeeps(Perform(r, writes[0]).value, writes[1..], n - 1);
      }
    }
  }

  lemma SaveThenOccurrenceFits(r: Records, f: Finding)
    requires OccurrencesOwned(r) && CountsCover(r) && Unseen(r, f)
    requires Fits(r, PutBadCase(f.fingerprint, CaseFor(r, f)))
    ensures FitsAll(r, [PutBadCase(f.fingerprint, CaseFor(r, f)),
                        PutOccurrence((f.fingerprint, f.result), Occurrence(f.result.run, f.at))])
  {
    var save := PutBadCase(f.fingerprint, CaseFor(r, f));
    var occur := PutOccurrence((f.fingerprint, f.result), Occurrence(f.result.run, f.at));
    var writes := [save, occur];
    var saved := Perform(r, save).value;
    SeenSame(r, saved);
    if f.fingerprint !in r.badCases {
      NothingSeen(r, f.fingerprint);
    }
    assert Fits(saved, occur);
    assert writes[1..] == [occur] && [occur][1..] == [];
    assert FitsAll(saved, writes[1..]);
  }

  lemma AnalyzeFits(r: Records, f: Finding)
    requires OccurrencesOwned(r) && CountsCover(r) && FieldsExact(r) && Unseen(r, f)
    ensures FitsAll(r, AnalyzeWrites(r, f))
  {
    var writes := AnalyzeWrites(r, f);
    var badCase := CaseFor(r, f);
    if Reopens(r, f) {
      var next := Perform(r, writes[0]);
      assert Fits(r, writes[0]);
      if next.Ok? {
        SeenSame(r, next.value);
        assert Backed(r, f.fingerprint, r.badCases[f.fingerprint]);
        assert CaseFor(next.value, f) == badCase;
        SaveThenOccurrenceFits(next.value, f);
        assert writes[1..] == [PutBadCase(f.fingerprint, badCase),
                               PutOccurrence((f.fingerprint, f.result), Occurrence(f.result.run, f.at))];
      }
    } else {
      if f.fingerprint in r.badCases {
        assert Backed(r, f.fingerprint, r.badCases[f.fingerprint]);
      }
      SaveThenOccurrenceFits(r, f);
      assert writes == [PutBadCase(f.fingerprint, badCase),
                        PutOccurrence((f.fingerprint, f.result), Occurrence(f.result.run, f.at))];
    }
  }

  lemma EventThenMoveFits(r: Records, id: Fingerprint, e: Event, b: BadCase)
    requires Fits(r, PutEvent((id, b.revision), e)) && e.to == b.status
    requires id in r.badCases && b.revision == r.badCases[id].revision + 1
    requires b.occurrenceCount == r.badCases[id].occurrenceCount && Backed(r, id, b)
    ensures FitsAll(r, [PutEvent((id, b.revision), e), PutBadCase(id, b)])
  {
    var writes := [PutEvent((id, b.revision), e), PutBadCase(id, b)];
    var next := Perform(r, writes[0]);
    if next.Ok? {
      assert Fits(next.value, writes[1]);
      assert writes[1..] == [PutBadCase(id, b)] && writes[1..][1..] == [];
      assert FitsAll(next.value, writes[1..]);
    }
  }

  lemma TransitionFits(r: Records, id: Fingerprint, target: Status, request: Request, evidence: Evidence, now: int)
    requires FieldsExact(r) && Refusal(r, id, target, request, evidence).None?
    ensures FitsAll(r, TransitionWrites(r, id, target, request, now))
  {
    var writes := TransitionWrites(r, id, target, request, now);
    var current, updated := r.badCases[id], Moved(r.badCases[id], target, request, now);
    var event := MoveEvent(current.status, target, request, now);
    var rest := [PutEvent((id, current.revision + 1), event), PutBadCase(id, updated)];
    assert Backed(r, id, current);
    if target == Verified {
      var next := Perform(r, writes[0]);
      assert writes[1..] == rest;
      if next.Ok? {
        EventThenMoveFits(next.value, id, event, updated);
      }
    } else {
      assert writes == rest;
      EventThenMoveFits(r, id, event, updated);
    }
  }

  lemma StepKeeps(r: Records, s: Step)
    requires Kept(r)
    ensures Kept(Apply(r, s))
  {
    match s.call
    case CallAnalyze(f) =>
      if Unseen(r, f) {
        AnalyzeFits(r, f);
      }
      PrefixKeeps(r, Writes(r, s.call), s.writes);
    case CallTransition(id, target, request, evidence, now) =>
      if Refusal(r, id, target, request, evidence).None? {
        TransitionFits(r, id, target, request, evidence, now);
      }
      PrefixKeeps(r, Writes(r, s.call), s.writes);
  }

  /** Over any run of calls, each cut off anywhere or not. */
  lemma {:induction false} RunKeeps(r: Records, trace: seq<Step>)
    requires Kept(r)
    ensures Kept(Run(r, trace))
    decreases |trace|
  {
    if trace != [] {
      StepKeeps(r, trace[0]);
      RunKeeps(Apply(r, trace[0]), trace[1..]);
    }
  }

  // ------------------------------------------------- the states a call passes through

  /** Another event is stored where a recurrence would write its own. */
  predicate Blocked(r: Records, f: Finding) {
    Unseen(r, f) && Reopens(r, f)
    && !MayPut(r.events, (f.fingerprint, r.badCases[f.fingerprint].revision + 1), Recurrence(f.at))
  }

  /** After the event of a recurrence, if there is one. */
  function Announced(r: Records, f: Finding): Records {
    if Reopens(r, f) then
      r.(events := r.events[(f.fingerprint, r.badCases[f.fingerprint].revision + 1) := Recurrence(f.at)])
    else r
  }

  function Revised(r: Records, id: Fingerprint, b: BadCase): Records {
    r.(badCases := r.badCases[id := b],
       history := r.history[id := (if id in r.history then r.history[id] else []) + [b.status]])
  }

  function Saved(r: Records, f: Finding): Records {
    Revised(Announced(r, f), f.fingerprint, CaseFor(r, f))
  }

  function Analyzed(r: Records, f: Finding): Records {
    Saved(r, f).(occurrences := r.occurrences[(f.fingerprint, f.result) := Occurrence(f.result.run, f.at)])
  }

  /** Performing one write and then the rest. */
  lemma FirstWrite(r: Records, w: Write, rest: seq<Write>)
    ensures PerformAll(r, [w] + rest) == if Perform(r, w).Ok? then PerformAll(Perform(r, w).value, rest)
                                         else (r, Some(Perform(r, w).error))
  {
    assert ([w] + rest)[1..] == rest;
  }

  lemma OneWrite(r: Records, w: Write)
    ensures PerformAll(r, [w]) == if Perform(r, w).Ok? then (Perform(r, w).value, None)
                                  else (r, Some(Perform(r, w).error))
  {
    assert [w] == [w] + [];
    FirstWrite(r, w, []);
  }

  lemma SaveStates(r: Records, f: Finding)
    requires Unseen(r, f)
    ensures var mid, save := Announced(r, f), PutBadCase(f.fingerprint, CaseFor(r, f));
            var occur := PutOccurrence((f.fingerprint, f.result), Occurrence(f.result.run, f.at));
            && PerformAll(mid, []) == (mid, None)
            && PerformAll(mid, [save]) == (Saved(r, f), None)
            && PerformAll(mid, [save, occur]) == (Analyzed(r, f), None)
  {
    var mid, save := Announced(r, f), PutBadCase(f.fingerprint, CaseFor(r, f));
    var occur := PutOccurrence((f.fingerprint, f.result), Occurrence(f.result.run, f.at));
    OneWrite(mid, save);
    OneWrite(Saved(r, f), occur);
    assert [save, occur] == [save] + [occur];
    FirstWrite(mid, save, [occur]);
  }

  /** The states of an analysis: as it was, announced, saved, analysed. */
  lemma AnalyzeStates(r: Records, f: Finding, n: nat)
    requires Unseen(r, f) && !Blocked(r, f)
    ensures var steps := |AnalyzeWrites(r, f)|;
            Cut(r, CallAnalyze(f), n) == if n == 0 then r
                                         else if n >= steps then Analyzed(r, f)
                                         else if n == steps - 1 then Saved(r, f) else Announced(r, f)
    ensures Analyze(r, f) == Outcome(Analyzed(r, f), Ok(CaseFor(r, f)))
  {
    var writes := AnalyzeWrites(r, f);
    var some := Take(writes, n);
    var save := PutBadCase(f.fingerprint, CaseFor(r, f));
    var occur := PutOccurrence((f.fingerprint, f.result), Occurrence(f.result.run, f.at));
    SaveStates(r, f);
    if Reopens(r, f) {
      var announce := PutEvent((f.fingerprint, CaseFor(r, f).revision), Recurrence(f.at));
      FirstWrite(r, announce, [save, occur]);
      FirstWrite(r, announce, [save]);
      FirstWrite(r, announce, []);
      assert writes == [announce] + [save, occur];
      assert some == if n == 0 then [] else if n == 1 then [announce] + []
                     else if n == 2 then [announce] + [save] else writes;
    } else {
      assert writes == [save, occur];
      assert some == if n == 0 then [] else if n == 1 then [save] else writes;
    }
  }

  /** An analysis fails if and only if its recurrence is blocked, and then writes nothing. */
  lemma AnalyzeFailsIff(r: Records, f: Finding)
    requires OccurrencesOwned(r)
    ensures Analyze(r, f).result.Err? <==> Blocked(r, f)
    ensures Blocked(r, f) ==> Analyze(r, f) == Outcome(r, Err(EventImmutable))
    ensures Blocked(r, f) ==> forall n :: Cut(r, CallAnalyze(f), n) == r
  {
    if !Unseen(r, f) {
      assert (f.fingerprint, f.result).0 in r.badCases;
    } else if Blocked(r, f) {
      forall n: nat ensures Cut(r, CallAnalyze(f), n) == r {
        assert n > 0 ==> Take(AnalyzeWrites(r, f), n)[0] == AnalyzeWrites(r, f)[0];
      }
    } else {
      AnalyzeStates(r, f, 0);
    }
  }

  /** After the verification of a transition, if it stores one. */
  function Checked(r: Records, target: Status, request: Request): Records
    requires target == Verified ==> request.verification.Some?
  {
    if target == Verified then
      r.(verifications := r.verifications[request.verification.value.0 := request.verification.value.1])
    else r
  }

  /** After the event of a transition. */
  function Noted(r: Records, id: Fingerprint, target: Status, request: Request, now: int): Records
    requires id in r.badCases && (target == Verified ==> request.verification.Some?)
  {
    var current := r.badCases[id];
    Checked(r, target, request).(
      events := r.events[(id, current.revision + 1) := MoveEvent(current.status, target, request, now)])
  }

  /** Nothing else is stored where a transition writes. */
  predicate Free(r: Records, id: Fingerprint, target: Status, request: Request, now: int)
    requires id in r.badCases && (target == Verified ==> request.verification.Some?)
  {
    && (target == Verified ==>
          MayPut(r.verifications, request.verification.value.0, request.verification.value.1))
    && MayPut(r.events, (id, r.badCases[id].revision + 1),
              MoveEvent(r.badCases[id].status, target, request, now))
  }

  lemma MoveStates(r: Records, id: Fingerprint, target: Status, request: Request, now: int)
    requires id in r.badCases && (target == Verified ==> request.verification.Some?) && Free(r, id, target, request, now)
    ensures var mid, current := Checked(r, target, request), r.badCases[id];
            var note := PutEvent((id, current.revision + 1), MoveEvent(current.status, target, request, now));
            var save := PutBadCase(id, Moved(current, target, request, now));
            && PerformAll(mid, [note]) == (Noted(r, id, target, request, now), None)
            && PerformAll(mid, [note, save])
               == (Revised(Noted(r, id, target, request, now), id, Moved(current, target, request, now)), None)
  {
    var mid, current := Checked(r, target, request), r.badCases[id];
    var note := PutEvent((id, current.revision + 1), MoveEvent(current.status, target, request, now));
    var save := PutBadCase(id, Moved(current, target, request, now));
    OneWrite(mid, note);
    OneWrite(Noted(r, id, target, request, now), save);
    FirstWrite(mid, note, [save]);
    assert [note, save] == [note] + [save];
  }

  /** The states of a transition: as it was, with its verification, with its event, moved. */
  lemma TransitionStates(r: Records, id: Fingerprint, target: Status, request: Request, evidence: Evidence, now: int,
                         n: nat)
    requires Refusal(r, id, target, request, evidence).None? && Free(r, id, target, request, now)
    ensures var steps := |TransitionWrites(r, id, target, request, now)|;
            var moved := Revised(Noted(r, id, target, request, now), id, Moved(r.badCases[id], target, request, now));
            && Transition(r, id, target, request, evidence, now)
               == Outcome(moved, Ok(Moved(r.badCases[id], target, request, now)))
            && Cut(r, CallTransition(id, target, request, evidence, now), n)
               == if n == 0 then r else if n >= steps then moved
                  else if n == steps - 1 then Noted(r, id, target, request, now) else Checked(r, target, request)
  {
    var writes := TransitionWrites(r, id, target, request, now);
    var some := Take(writes, n);
    var mid := Checked(r, target, request);
    var current := r.badCases[id];
    var note := PutEvent((id, current.revision + 1), MoveEvent(current.status, target, request, now));
    var save := PutBadCase(id, Moved(current, target, request, now));
    MoveStates(r, id, target, request, now);
    if target == Verified {
      var check := PutVerification(request.verification.value.0, request.verification.value.1);
      FirstWrite(r, check, [note, save]);
      FirstWrite(r, check, [note]);
      FirstWrite(r, check, []);
      assert writes == [check] + [note, save];
      assert some == if n == 0 then [] else if n == 1 then [check] + []
                     else if n == 2 then [check] + [note] else writes;
    } else {
      assert writes == [note, save];
      assert some == if n == 0 then [] else if n == 1 then [note] else writes;
    }
  }

  /** A transition that is not refused fails if and only if something else is stored where it writes. */
  lemma TransitionFailsIff(r: Records, id: Fingerprint, target: Status, request: Request, evidence: Evidence, now: int)
    requires Refusal(r, id, target, request, evidence).None?
    ensures Transition(r, id, target, request, evidence, now).result.Ok? <==> Free(r, id, target, request, now)
  {
    if Free(r, id, target, request, now) {
      TransitionStates(r, id, target, request, evidence, now, 0);
    } else {
      var writes := TransitionWrites(r, id, target, request, now);
      var mid := Checked(r, target, request);
      if target == Verified && Perform(r, writes[0]).Ok? {
        assert writes[1..][0] == writes[1];
        assert PerformAll(mid, writes[1..]).1.Some?;
      }
    }
  }

  // ------------------------------------------------------------------- whole calls

  /** Saving a bad case with its own event, or with no change of status, keeps the log genuine. */
  lemma GenuineMoves(r: Records, after: Records, id: Fingerprint, b: BadCase, event: Option<Event>)
    requires Explained(r) && Genuine(r) && id in r.badCases && b.revision == r.badCases[id].revision + 1
    requires after.history == r.history[id := r.history[id] + [b.status]]
    requires after.events == if event.None? then r.events else r.events[(id, b.revision) := event.value]
    requires event.Some? ==> event.value.to == b.status
    ensures Genuine(after)
  {
    assert Dated(r.badCases[id], r.history[id]);
    forall slot: Slot | slot in after.events
      ensures slot.0 in after.history && slot.1 < |after.history[slot.0]|
      ensures after.history[slot.0][slot.1] == after.events[slot].to
    {
    }
  }

  /** In sound records the slot of the next event is free. */
  lemma NextSlotFree(r: Records, id: Fingerprint)
    requires Explained(r) && Genuine(r) && id in r.badCases
    ensures (id, r.badCases[id].revision + 1) !in r.events
  {
    assert Dated(r.badCases[id], r.history[id]);
  }

  lemma AnalyzedCounts(r: Records, f: Finding)
    requires OccurrencesOwned(r) && CountsExact(r) && Unseen(r, f)
    ensures CountsExact(Analyzed(r, f))
  {
    var after := Analyzed(r, f);
    forall id | id in after.badCases ensures after.badCases[id].occurrenceCount == |Seen(after, id)| {
      SeenGrows(r, after, (f.fingerprint, f.result), id);
      if id !in r.badCases {
        NothingSeen(r, id);
      }
    }
  }

  lemma AnalyzedKept(r: Records, f: Finding)
    requires Kept(r) && Unseen(r, f) && !Blocked(r, f)
    ensures Kept(Analyzed(r, f))
  {
    StepKeeps(r, Step(CallAnalyze(f), 3));
    AnalyzeStates(r, f, 3);
  }

  lemma AnalyzedGenuine(r: Records, f: Finding)
    requires Explained(r) && Genuine(r)
    ensures !Blocked(r, f) && Genuine(Analyzed(r, f))
  {
    if f.fingerprint in r.badCases {
      NextSlotFree(r, f.fingerprint);
      GenuineMoves(r, Analyzed(r, f), f.fingerprint, CaseFor(r, f),
                   if Reopens(r, f) then Some(Recurrence(f.at)) else None);
    }
  }

  lemma AnalyzedSound(r: Records, f: Finding)
    requires Sound(r) && Unseen(r, f)
    ensures !Blocked(r, f) && Sound(Analyzed(r, f))
  {
    AnalyzedGenuine(r, f);
    AnalyzedKept(r, f);
    AnalyzedCounts(r, f);
  }

  lemma MovedKept(r: Records, id: Fingerprint, target: Status, request: Request, evidence: Evidence, now: int)
    requires Kept(r) && Refusal(r, id, target, request, evidence).None? && Free(r, id, target, request, now)
    ensures Kept(Revised(Noted(r, id, target, request, now), id, Moved(r.badCases[id], target, request, now)))
  {
    StepKeeps(r, Step(CallTransition(id, target, request, evidence, now), 3));
    TransitionStates(r, id, target, request, evidence, now, 3);
  }

  lemma MovedGenuine(r: Records, id: Fingerprint, target: Status, request: Request, now: int)
    requires Explained(r) && Genuine(r) && id in r.badCases && (target == Verified ==> request.verification.Some?)
    ensures Genuine(Revised(Noted(r, id, target, request, now), id, Moved(r.badCases[id], target, request, now)))
  {
    var b := Moved(r.badCases[id], target, request, now);
    GenuineMoves(r, Revised(Noted(r, id, target, request, now), id, b), id, b,
                 Some(MoveEvent(r.badCases[id].status, target, request, now)));
  }

  lemma MovedSound(r: Records, id: Fingerprint, target: Status, request: Request, evidence: Evidence, now: int)
    requires Sound(r) && Refusal(r, id, target, request, evidence).None? && Free(r, id, target, request, now)
    ensures Sound(Revised(Noted(r, id, target, request, now), id, Moved(r.badCases[id], target, request, now)))
  {
    var b := Moved(r.badCases[id], target, request, now);
    MovedKept(r, id, target, request, evidence, now);
    MovedGenuine(r, id, target, request, now);
    MovedCounts(r, Revised(Noted(r, id, target, request, now), id, b), id, b);
  }

  lemma MovedCounts(r: Records, after: Records, id: Fingerprint, b: BadCase)
    requires CountsExact(r) && id in r.badCases && b.occurrenceCount == r.badCases[id].occurrenceCount
    requires after.badCases == r.badCases[id := b] && after.occurrences == r.occurrences
    ensures CountsExact(after)
  {
    SeenSame(r, after);
  }

  lemma TransitionSound(r: Records, id: Fingerprint, target: Status, request: Request, evidence: Evidence, now: int)
    requires Sound(r)
    ensures Sound(Transition(r, id, target, request, evidence, now).records)
  {
    if Refusal(r, id, target, request, evidence).None? {
      if Free(r, id, target, request, now) {
        TransitionStates(r, id, target, request, evidence, now, 3);
        MovedSound(r, id, target, request, evidence, now);
      } else {
        NextSlotFree(r, id);
        NothingWritten(r, id, target, request, evidence, now);
      }
    }
  }

  lemma NothingWritten(r: Records, id: Fingerprint, target: Status, request: Request, evidence: Evidence, now: int)
    requires Refusal(r, id, target, request, evidence).None? && !Free(r, id, target, request, now)
    requires (id, r.badCases[id].revision + 1) !in r.events
    ensures Transition(r, id, target, request, evidence, now).records == r
  {
  }

  lemma WholeStepSound(r: Records, s: Step)
    requires Sound(r) && Whole(s)
    ensures Sound(Apply(r, s))
  {
    WholeCall(r, s.call, s.writes);
    match s.call
    case CallAnalyze(f) =>
      if Unseen(r, f) {
        AnalyzedSound(r, f);
        AnalyzeStates(r, f, 3);
      }
    case CallTransition(id, target, request, evidence, now) =>
      TransitionSound(r, id, target, request, evidence, now);
  }

  /** Over any run of whole calls. */
  lemma {:induction false} RunSound(r: Records, trace: seq<Step>)
    requires Sound(r) && forall i :: 0 <= i < |trace| ==> Whole(trace[i])
    ensures Sound(Run(r, trace))
    decreases |trace|
  {
    if trace != [] {
      WholeStepSound(r, trace[0]);
      RunSound(Apply(r, trace[0]), trace[1..]);
    }
  }

  /** The status the log of a bad case leads to after its events up to a revision. */
  function Replay(r: Records, id: Fingerprint, revision: nat): Status {
    if revision == 0 then Open
    else if (id, revision) in r.events then r.events[(id, revision)].to
    else Replay(r, id, revision - 1)
  }

  /** A genuine log replays to every status the bad case had. */
  lemma {:induction false} ReplayIsHistory(r: Records, id: Fingerprint, k: nat)
    requires Explained(r) && Genuine(r) && id in r.badCases && k <= r.badCases[id].revision
    ensures k < |r.history[id]| && Replay(r, id, k) == r.history[id][k]
  {
    assert Dated(r.badCases[id], r.history[id]);
    if k > 0 {
      ReplayIsHistory(r, id, k - 1);
      assert (id, k) in r.events || r.history[id][k] == r.history[id][k - 1];
    }
  }

  /** After any run of whole calls the log of a bad case replays to its status, each status has
      the fields it relies on, and the occurrence count is the number of occurrences. */
  lemma ReachableBadCases(trace: seq<Step>, id: Fingerprint)
    requires forall i :: 0 <= i < |trace| ==> Whole(trace[i])
    ensures var r := Run(NoRecords, trace);
            id in r.badCases ==>
              && Replay(r, id, r.badCases[id].revision) == r.badCases[id].status
              && FieldsPresent(r.badCases[id])
              && r.badCases[id].occurrenceCount == |Seen(r, id)|
    ensures var r := Run(NoRecords, trace);
            forall k: nat :: (id, k) in r.events ==>
              && id in r.badCases && 0 < k <= r.badCases[id].revision
              && r.events[(id, k)].from == Replay(r, id, k - 1)
              && Allowed(r.events[(id, k)].from, r.events[(id, k)].to)
  {
    RunSound(NoRecords, trace);
    var r := Run(NoRecords, trace);
    if id in r.badCases {
      ReplayIsHistory(r, id, r.badCases[id].revision);
      assert Dated(r.badCases[id], r.history[id]);
      assert Backed(r, id, r.badCases[id]);
    }
    forall k: nat | (id, k) in r.events
      ensures id in r.badCases && 0 < k <= r.badCases[id].revision
      ensures r.events[(id, k)].from == Replay(r, id, k - 1)
      ensures Allowed(r.events[(id, k)].from, r.events[(id, k)].to)
    {
      assert Placed(r.events[(id, k)], k, r.history[id]);
      assert Dated(r.badCases[id], r.history[id]);
      ReplayIsHistory(r, id, k - 1);
    }
  }

  /** Every change of status of a bad case is an event of its log. */
  ghost predicate ChangesLogged(r: Records, id: Fingerprint)
    requires id in r.badCases
  {
    && id in r.history && Dated(r.badCases[id], r.history[id])
    && forall k: nat :: 0 < k <= r.badCases[id].revision && r.history[id][k] != r.history[id][k - 1] ==>
         && (id, k) in r.events && r.events[(id, k)].from == r.history[id][k - 1]
         && r.events[(id, k)].to == r.history[id][k] && Allowed(r.history[id][k - 1], r.history[id][k])
  }

  lemma ExplainedChanges(r: Records, id: Fingerprint)
    requires Explained(r) && id in r.badCases
    ensures ChangesLogged(r, id)
  {
    assert Dated(r.badCases[id], r.history[id]);
    forall k: nat | 0 < k <= r.badCases[id].revision && r.history[id][k] != r.history[id][k - 1]
      ensures (id, k) in r.events && Placed(r.events[(id, k)], k, r.history[id])
    {
      assert (id, k).0 == id && (id, k).1 == k;
    }
  }

  /** After any run of calls cut off anywhere, every change of status a bad case went through
      is an event of its log, no status lacks its fields, and no occurrence is uncounted. */
  lemma InterruptedBadCases(trace: seq<Step>, id: Fingerprint)
    ensures var r := Run(NoRecords, trace);
            id in r.badCases ==>
              && ChangesLogged(r, id) && FieldsPresent(r.badCases[id])
              && |Seen(r, id)| <= r.badCases[id].occurrenceCount
  {
    RunKeeps(NoRecords, trace);
    var r := Run(NoRecords, trace);
    if id in r.badCases {
      ExplainedChanges(r, id);
      assert Backed(r, id, r.badCases[id]);
    }
  }
}
