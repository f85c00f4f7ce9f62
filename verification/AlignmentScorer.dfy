/** Scoring one candidate, and deciding a profile from its scored candidates. */
module AlignmentScorer {
  import opened Wrappers
  import opened RealArithmetic
  import MonotonicCalibrator

  // Ids are compared as text in the program; here they are numbers in the same order.
  type Id = nat

  datatype FeatureStatus = Available | Missing | RequiredMissing | NotApplicable

  datatype Feature = Feature(name: string, value: Option<real>, status: FeatureStatus)

  datatype Candidate = Candidate(id: Id, profile: Id, entity: Id, codeEvidence: seq<string>)

  datatype Vector = Vector(
    profile: Id,
    candidate: Id,
    features: seq<Feature>,
    availableRatio: real,
    requiredRatio: real,
    penalty: real)

  datatype Score = Score(
    profile: Id,
    candidate: Id,
    raw: real,
    availableRatio: real,
    requiredRatio: real,
    penalty: real,
    adjusted: real,
    probability: real,
    requiredMissing: bool)

  function Weight(name: string): (w: real)
    ensures w >= 0.0
  {
    if name == "name" then 0.22
    else if name == "semantic" then 0.16
    else if name == "role" || name == "structure" then 0.12
    else if name == "input_output" then 0.10
    else if name == "shape" || name == "formula_variable" then 0.08
    else if name == "figure_topology" then 0.05
    else if name == "evidence_quality" then 0.07
    else 0.0
  }

  // ------------------------------------------------------------------ features

  const REQUIRED_WEIGHT_RATIO := 0.65

  function WeightWhere(features: seq<Feature>, available: bool): (w: real)
    ensures w >= 0.0
  {
    if features == [] then 0.0
    else
      var f := features[0];
      (if f.status == Available || (!available && f.status != NotApplicable) then Weight(f.name) else 0.0)
      + WeightWhere(features[1..], available)
  }

  /** The vector extracted for a candidate: how much of the applicable weight is available,
      and a penalty below the required ratio. */
  function ExtractVector(profile: Id, candidate: Id, features: seq<Feature>): Vector {
    var applicable := WeightWhere(features, false);
    var ratio := if applicable == 0.0 then 0.0 else WeightWhere(features, true) / applicable;
    var covered := ratio / REQUIRED_WEIGHT_RATIO;
    Vector(profile, candidate, features, ratio, REQUIRED_WEIGHT_RATIO, if covered < 1.0 then covered else 1.0)
  }

  // ------------------------------------------------------------------- scoring

  predicate Counts(f: Feature) {
    f.status == Available && f.value.Some?
  }

  function Denominator(features: seq<Feature>): (d: real)
    ensures d >= 0.0
  {
    if features == [] then 0.0
    else (if Counts(features[0]) then Weight(features[0].name) else 0.0) + Denominator(features[1..])
  }

  /** The dictionary of contributions keeps the last available feature of each name. */
  predicate Shadowed(name: string, later: seq<Feature>) {
    exists i :: 0 <= i < |later| && Counts(later[i]) && later[i].name == name
  }

  function Contributions(features: seq<Feature>): real {
    if features == [] then 0.0
    else
      (if Counts(features[0]) && !Shadowed(features[0].name, features[1..])
       then Weight(features[0].name) * features[0].value.value else 0.0)
      + Contributions(features[1..])
  }

  function RawScore(features: seq<Feature>): real {
    if Denominator(features) == 0.0 then 0.0 else Contributions(features) / Denominator(features)
  }

  function IdentityPredict(score: real): real {
    MonotonicCalibrator.Clamp(score)
  }

  function ScoreVector(v: Vector, predict: real -> real): Score {
    var raw := RawScore(v.features);
    Score(v.profile, v.candidate, raw, v.availableRatio, v.requiredRatio, v.penalty, raw * v.penalty,
          predict(raw * v.penalty),
          exists i :: 0 <= i < |v.features| && v.features[i].status == RequiredMissing)
  }

  /** The same features, some available values raised. */
  ghost predicate Raised(low: seq<Feature>, high: seq<Feature>) {
    |low| == |high| && forall i :: 0 <= i < |low| ==>
      && low[i].name == high[i].name && low[i].status == high[i].status
      && (low[i].value.Some? <==> high[i].value.Some?)
      && (low[i].value.Some? ==> low[i].value.value <= high[i].value.value)
  }

  lemma {:induction false} RaisedContributions(low: seq<Feature>, high: seq<Feature>)
    requires Raised(low, high)
    ensures Denominator(low) == Denominator(high) && Contributions(low) <= Contributions(high)
  {
    if low != [] {
      RaisedContributions(low[1..], high[1..]);
      assert Shadowed(low[0].name, low[1..]) <==> Shadowed(high[0].name, high[1..]) by {
        assert forall i :: 0 <= i < |low[1..]| ==> (Counts(low[1..][i]) <==> Counts(high[1..][i]))
                                                   && low[1..][i].name == high[1..][i].name;
      }
      if Counts(low[0]) {
        ScaleOrder(Weight(low[0].name), low[0].value.value, high[0].value.value);
      }
    }
  }

  lemma ScaleOrder(w: real, x: real, y: real)
    requires 0.0 <= w && x <= y
    ensures w * x <= w * y
  {
  }

  lemma RaisedRaw(low: seq<Feature>, high: seq<Feature>)
    requires Raised(low, high)
    ensures RawScore(low) <= RawScore(high)
  {
    RaisedContributions(low, high);
    if Denominator(low) != 0.0 {
      QuotientOrder(Contributions(low), Contributions(high), Denominator(low));
    }
  }

  lemma QuotientOrder(x: real, y: real, d: real)
    requires x <= y && 0.0 < d
    ensures x / d <= y / d
  {
    DivideThenMultiply(y, d);
    ClearDenominator(x, y / d, d);
  }

  ghost predicate Monotone(predict: real -> real) {
    forall x, y :: x <= y ==> predict(x) <= predict(y)
  }

  /** Raising any available features never lowers the probability of a candidate, under
      any monotone calibrator. */
  lemma RaisedProbability(v: Vector, raised: seq<Feature>, predict: real -> real)
    requires Raised(v.features, raised) && v.penalty >= 0.0 && Monotone(predict)
    ensures ScoreVector(v, predict).probability <= ScoreVector(v.(features := raised), predict).probability
  {
    RaisedRaw(v.features, raised);
    ScaleOrder(v.penalty, RawScore(v.features), RawScore(raised));
  }

  /** The calibrators of the program are monotone. */
  lemma CalibratorsMonotone(bins: seq<MonotonicCalibrator.CalibrationBin>)
    requires MonotonicCalibrator.Ascends(bins)
    ensures Monotone(IdentityPredict)
    ensures Monotone((score: real) => MonotonicCalibrator.Predicted(bins, score))
  {
    forall x: real, y: real | x <= y
      ensures MonotonicCalibrator.Predicted(bins, x) <= MonotonicCalibrator.Predicted(bins, y)
    {
      MonotonicCalibrator.PredictMonotone(bins, x, y);
    }
  }

  ghost predicate UnitValues(features: seq<Feature>) {
    forall i :: 0 <= i < |features| && features[i].value.Some? ==> 0.0 <= features[i].value.value <= 1.0
  }

  lemma {:induction false} ContributionsInUnit(features: seq<Feature>)
    requires UnitValues(features)
    ensures 0.0 <= Contributions(features) <= Denominator(features)
  {
    if features != [] {
      ContributionsInUnit(features[1..]);
      if Counts(features[0]) {
        ScaleUnit(Weight(features[0].name), features[0].value.value);
      }
    }
  }

  lemma ScaleUnit(w: real, x: real)
    requires 0.0 <= w && 0.0 <= x <= 1.0
    ensures 0.0 <= w * x <= w
  {
    ScaleOrder(w, x, 1.0);
  }

  /** With feature values in the unit interval the raw score is there too. */
  lemma RawInUnit(features: seq<Feature>)
    requires UnitValues(features)
    ensures 0.0 <= RawScore(features) <= 1.0
  {
    ContributionsInUnit(features);
    if Denominator(features) != 0.0 {
      ClearDenominator(Contributions(features), 0.0, Denominator(features));
      ClearDenominator(Contributions(features), 1.0, Denominator(features));
    }
  }

  // ------------------------------------------------------------------- ranking

  predicate Before(a: Score, b: Score) {
    a.probability > b.probability || (a.probability == b.probability && a.candidate < b.candidate)
  }

  function Insert(x: Score, sorted: seq<Score>): seq<Score> {
    if sorted == [] || !Before(sorted[0], x) then [x] + sorted
    else [sorted[0]] + Insert(x, sorted[1..])
  }

  /** sorted(scores) by descending probability, then by candidate id. */
  function Ranked(scores: seq<Score>): seq<Score> {
    if scores == [] then [] else Insert(scores[0], Ranked(scores[1..]))
  }

  ghost predicate DistinctCandidates(scores: seq<Score>) {
    forall i, j :: 0 <= i < j < |scores| ==> scores[i].candidate != scores[j].candidate
  }

  ghost predicate Sorted(scores: seq<Score>) {
    forall i, j :: 0 <= i < j < |scores| ==> Before(scores[i], scores[j])
  }

  ghost predicate SameElements<T(!new)>(a: seq<T>, b: seq<T>) {
    forall x :: x in a <==> x in b
  }

  lemma {:induction false} InsertSorts(x: Score, sorted: seq<Score>)
    requires Sorted(sorted) && forall i :: 0 <= i < |sorted| ==> sorted[i].candidate != x.candidate
    ensures Sorted(Insert(x, sorted)) && |Insert(x, sorted)| == |sorted| + 1
    ensures forall y :: y in Insert(x, sorted) <==> y == x || y in sorted
  {
    if sorted != [] {
      if Before(sorted[0], x) {
        InsertSorts(x, sorted[1..]);
        assert forall y :: y in Insert(x, sorted[1..]) ==> Before(sorted[0], y);
        assert forall y :: y in sorted <==> y == sorted[0] || y in sorted[1..];
      } else {
        assert Before(x, sorted[0]);
        assert forall i :: 0 <= i < |sorted| ==> Before(x, sorted[i]);
      }
    }
  }

  lemma {:induction false} RankedSorts(scores: seq<Score>)
    requires DistinctCandidates(scores)
    ensures Sorted(Ranked(scores)) && |Ranked(scores)| == |scores| && SameElements(Ranked(scores), scores)
  {
    if scores != [] {
      RankedSorts(scores[1..]);
      assert forall i :: 0 <= i < |Ranked(scores[1..])| ==> Ranked(scores[1..])[i] in scores[1..];
      InsertSorts(scores[0], Ranked(scores[1..]));
      assert forall y :: y in scores <==> y == scores[0] || y in scores[1..];
    }
  }

  lemma {:induction false} SortedUnique(a: seq<Score>, b: seq<Score>)
    requires Sorted(a) && Sorted(b) && SameElements(a, b)
    ensures a == b
  {
    assert |b| > 0 ==> b[0] in b;
    if |a| > 0 {
      assert a[0] in b && b != [] && b[0] in a;
      assert a[0] == b[0];
      forall x ensures x in a[1..] <==> x in b[1..] {
        assert x in a <==> x == a[0] || x in a[1..];
        assert x in b <==> x == b[0] || x in b[1..];
        assert a[0] !in a[1..] && b[0] !in b[1..];
      }
      SortedUnique(a[1..], b[1..]);
    }
  }

  /** The ranking does not depend on the order the scores arrive in. */
  lemma RankedOrderFree(a: seq<Score>, b: seq<Score>)
    requires DistinctCandidates(a) && DistinctCandidates(b) && SameElements(a, b)
    ensures Ranked(a) == Ranked(b)
  {
    RankedSorts(a);
    RankedSorts(b);
    SortedUnique(Ranked(a), Ranked(b));
  }

  // ------------------------------------------------------------------ decision

  datatype DecisionStatus = Accepted | NoImplementation | NeedsReview | Abstained

  datatype Selection = Selection(candidate: Id, rawScore: real, probability: real, codeEvidence: seq<string>)

  datatype Decision = Decision(
    profile: Id,
    status: DecisionStatus,
    selections: seq<Selection>,
    setScore: Option<real>,
    setCoverage: real,
    margin: real,
    best: real)

  const ACCEPT_THRESHOLD := 0.72
  const REVIEW_THRESHOLD := 0.45
  const ACCEPT_MARGIN := 0.08
  const MAX_SELECTIONS := 5

  function Take<T>(s: seq<T>, n: nat): seq<T> {
    if |s| <= n then s else s[..n]
  }

  predicate EligibleScore(s: Score) {
    s.probability >= ACCEPT_THRESHOLD && s.availableRatio >= s.requiredRatio && !s.requiredMissing
  }

  function Eligible(ranked: seq<Score>): (eligible: seq<Score>)
    ensures forall i :: 0 <= i < |eligible| ==> eligible[i] in ranked && EligibleScore(eligible[i])
    ensures |eligible| > 0 <==> exists i :: 0 <= i < |ranked| && EligibleScore(ranked[i])
  {
    if ranked == [] then []
    else (if EligibleScore(ranked[0]) then [ranked[0]] else []) + Eligible(ranked[1..])
  }

  /** candidate_by_id: the last candidate listed under an id. */
  function CandidateOf(candidates: seq<Candidate>, id: Id): (found: Option<Candidate>)
    ensures found.Some? ==> found.value in candidates && found.value.id == id
    ensures found.None? ==> forall i :: 0 <= i < |candidates| ==> candidates[i].id != id
  {
    if candidates == [] then None
    else
      var last := |candidates| - 1;
      if candidates[last].id == id then Some(candidates[last]) else CandidateOf(candidates[..last], id)
  }

  function Selections(scores: seq<Score>, candidates: seq<Candidate>): (selections: seq<Selection>)
    ensures |selections| <= |scores|
  {
    if scores == [] then []
    else
      var found := CandidateOf(candidates, scores[0].candidate);
      (if found.None? then []
       else [Selection(scores[0].candidate, scores[0].adjusted, scores[0].probability, found.value.codeEvidence)])
      + Selections(scores[1..], candidates)
  }

  predicate Selects(selection: Selection, s: Score) {
    selection.candidate == s.candidate && selection.rawScore == s.adjusted && selection.probability == s.probability
  }

  function SumProbabilities(scores: seq<Score>): real {
    if scores == [] then 0.0 else scores[0].probability + SumProbabilities(scores[1..])
  }

  function Decide(profile: Id, candidates: seq<Candidate>, scores: seq<Score>,
                  strongNegative: bool, confirmedNone: bool): Decision
  {
    var ranked := Ranked(scores);
    var top := if |ranked| > 0 then ranked[0].probability else 0.0;
    var second := if |ranked| > 1 then ranked[1].probability else 0.0;
    var margin := if top - second < 0.0 then 0.0 else top - second;
    var eligible := Take(Eligible(ranked), MAX_SELECTIONS);
    var proposed := Selections(eligible, candidates);
    var (status, selections) :=
      if proposed != [] && margin >= ACCEPT_MARGIN then (Accepted, proposed)
      else if strongNegative && confirmedNone then (NoImplementation, [])
      else if ranked != [] && top >= REVIEW_THRESHOLD then
        (NeedsReview, Selections(Take(ranked, MAX_SELECTIONS), candidates))
      else (Abstained, []);
    var coverage := if |ranked| == 0 then |selections| as real else |selections| as real / |ranked| as real;
    Decision(profile, status, selections,
             if eligible == [] then None else Some(SumProbabilities(eligible) / |eligible| as real),
             if selections == [] then 0.0 else if coverage > 1.0 then 1.0 else coverage,
             margin, MaxProbability(ranked))
  }

  /** The largest probability, or zero for no scores. */
  function MaxProbability(scores: seq<Score>): real {
    if scores == [] then 0.0
    else if |scores| == 1 then scores[0].probability
    else
      var rest := MaxProbability(scores[1..]);
      if rest > scores[0].probability then rest else scores[0].probability
  }

  ghost predicate DistinctIds(candidates: seq<Candidate>) {
    forall i, j :: 0 <= i < j < |candidates| ==> candidates[i].id != candidates[j].id
  }

  lemma CandidateOrderFree(a: seq<Candidate>, b: seq<Candidate>, id: Id)
    requires DistinctIds(a) && DistinctIds(b) && SameElements(a, b)
    ensures CandidateOf(a, id) == CandidateOf(b, id)
  {
    var x, y := CandidateOf(a, id), CandidateOf(b, id);
    if x.Some? {
      assert x.value in b;
    }
    if y.Some? {
      assert y.value in a;
    }
  }

  lemma {:induction false} SelectionsOrderFree(scores: seq<Score>, a: seq<Candidate>, b: seq<Candidate>)
    requires DistinctIds(a) && DistinctIds(b) && SameElements(a, b)
    ensures Selections(scores, a) == Selections(scores, b)
  {
    if scores != [] {
      CandidateOrderFree(a, b, scores[0].candidate);
      SelectionsOrderFree(scores[1..], a, b);
    }
  }

  /** A decision depends only on which candidates and scores there are, not on their order. */
  lemma DecideOrderFree(profile: Id, candidates: seq<Candidate>, scores: seq<Score>,
                        otherCandidates: seq<Candidate>, otherScores: seq<Score>,
                        strongNegative: bool, confirmedNone: bool)
    requires DistinctIds(candidates) && DistinctIds(otherCandidates) && SameElements(candidates, otherCandidates)
    requires DistinctCandidates(scores) && DistinctCandidates(otherScores) && SameElements(scores, otherScores)
    ensures Decide(profile, candidates, scores, strongNegative, confirmedNone)
            == Decide(profile, otherCandidates, otherScores, strongNegative, confirmedNone)
  {
    RankedOrderFree(scores, otherScores);
    var ranked := Ranked(scores);
    SelectionsOrderFree(Take(Eligible(ranked), MAX_SELECTIONS), candidates, otherCandidates);
    SelectionsOrderFree(Take(ranked, MAX_SELECTIONS), candidates, otherCandidates);
  }

  /** A score computed from an extracted vector. */
  ghost predicate FromExtraction(s: Score) {
    exists features: seq<Feature>, predict: real -> real ::
      ScoreVector(ExtractVector(s.profile, s.candidate, features), predict) == s
  }

  lemma CoverageNotPenalised(s: Score)
    requires FromExtraction(s) && s.availableRatio >= s.requiredRatio
    ensures s.penalty == 1.0 && s.adjusted == s.raw
  {
  }

  lemma {:induction false} SelectionsCome(scores: seq<Score>, candidates: seq<Candidate>, i: nat)
    requires i < |Selections(scores, candidates)|
    ensures exists s :: s in scores && Selects(Selections(scores, candidates)[i], s)
    ensures CandidateOf(candidates, Selections(scores, candidates)[i].candidate).Some?
  {
    var head := if CandidateOf(candidates, scores[0].candidate).Some? then 1 else 0;
    if i < head {
      assert Selects(Selections(scores, candidates)[i], scores[0]);
    } else {
      SelectionsCome(scores[1..], candidates, i - head);
      var s :| s in scores[1..] && Selects(Selections(scores[1..], candidates)[i - head], s);
      assert s in scores;
    }
  }

  /** What an accepted decision was made from. */
  lemma AcceptedShape(profile: Id, candidates: seq<Candidate>, scores: seq<Score>,
                      strongNegative: bool, confirmedNone: bool)
    requires Decide(profile, candidates, scores, strongNegative, confirmedNone).status == Accepted
    ensures var d, ranked := Decide(profile, candidates, scores, strongNegative, confirmedNone), Ranked(scores);
            && d.selections == Selections(Take(Eligible(ranked), MAX_SELECTIONS), candidates)
            && 1 <= |d.selections| <= MAX_SELECTIONS && |ranked| > 0
            && (|ranked| > 1 ==> ranked[0].probability - ranked[1].probability >= ACCEPT_MARGIN)
  {
    var d, ranked := Decide(profile, candidates, scores, strongNegative, confirmedNone), Ranked(scores);
    assert d.selections == Selections(Take(Eligible(ranked), MAX_SELECTIONS), candidates);
    assert |Eligible(ranked)| > 0;
  }

  /** The selection has a score that met every gate and was not penalised for coverage. */
  ghost predicate Supported(selection: Selection, scores: seq<Score>) {
    exists s :: s in scores && Selects(selection, s) && s.probability >= ACCEPT_THRESHOLD
                && !s.requiredMissing && s.penalty == 1.0 && s.adjusted == s.raw
  }

  ghost predicate Leads(best: Score, scores: seq<Score>) {
    best in scores && forall s :: s in scores && s != best ==> s.probability + ACCEPT_MARGIN <= best.probability
  }

  lemma EligibleSupported(selection: Selection, ranked: seq<Score>, scores: seq<Score>, s: Score)
    requires SameElements(ranked, scores) && forall x :: x in scores ==> FromExtraction(x)
    requires s in Take(Eligible(ranked), MAX_SELECTIONS) && Selects(selection, s)
    ensures Supported(selection, scores)
  {
    var eligible := Eligible(ranked);
    var i :| 0 <= i < |eligible| && eligible[i] == s;
    assert EligibleScore(s) && s in ranked && s in scores;
    CoverageNotPenalised(s);
  }

  lemma FirstLeads(ranked: seq<Score>, scores: seq<Score>)
    requires Sorted(ranked) && SameElements(ranked, scores) && |ranked| > 0
    requires |ranked| > 1 ==> ranked[0].probability - ranked[1].probability >= ACCEPT_MARGIN
    ensures Leads(ranked[0], scores)
  {
    assert ranked[0] in ranked;
    forall s | s in scores && s != ranked[0] ensures s.probability + ACCEPT_MARGIN <= ranked[0].probability {
      assert s in ranked;
      var i :| 0 <= i < |ranked| && ranked[i] == s;
      assert i == 1 || Before(ranked[1], ranked[i]);
    }
  }

  /** Accepting: one score leads every other by the margin, and each selection is supported. */
  lemma AcceptedIsCovered(profile: Id, candidates: seq<Candidate>, scores: seq<Score>,
                          strongNegative: bool, confirmedNone: bool)
    requires DistinctCandidates(scores) && forall s :: s in scores ==> FromExtraction(s)
    requires Decide(profile, candidates, scores, strongNegative, confirmedNone).status == Accepted
    ensures var d := Decide(profile, candidates, scores, strongNegative, confirmedNone);
            && 1 <= |d.selections| <= MAX_SELECTIONS
            && (forall i :: 0 <= i < |d.selections| ==> Supported(d.selections[i], scores))
            && Leads(Ranked(scores)[0], scores)
  {
    var selections := Decide(profile, candidates, scores, strongNegative, confirmedNone).selections;
    var eligible := Take(Eligible(Ranked(scores)), MAX_SELECTIONS);
    AcceptedShape(profile, candidates, scores, strongNegative, confirmedNone);
    RankedSorts(scores);
    forall i | 0 <= i < |selections| ensures Supported(selections[i], scores) {
      SelectionsCome(eligible, candidates, i);
      var s :| s in eligible && Selects(selections[i], s);
      EligibleSupported(selections[i], Ranked(scores), scores, s);
    }
    FirstLeads(Ranked(scores), scores);
  }

  lemma EligibleFirst(ranked: seq<Score>, s: Score)
    requires Sorted(ranked) && |ranked| > 0 && s in Take(Eligible(ranked), MAX_SELECTIONS)
    requires forall i, j :: 0 <= i < j < |ranked| ==> ranked[i].candidate != ranked[j].candidate
    ensures s.candidate == ranked[0].candidate ==> s == ranked[0] && EligibleScore(s)
  {
    var eligible := Eligible(ranked);
    var k :| 0 <= k < |eligible| && eligible[k] == s;
    assert s in ranked && EligibleScore(s);
  }

  /** Which candidate an accepted decision lists first: the best-ranked one exactly when that
      one is eligible and among the candidates. The margin is measured against the whole
      ranking, so a best score without coverage is passed over, not protected. */
  lemma FirstSelectionIsBestIff(profile: Id, candidates: seq<Candidate>, scores: seq<Score>,
                                strongNegative: bool, confirmedNone: bool)
    requires DistinctCandidates(scores)
    requires Decide(profile, candidates, scores, strongNegative, confirmedNone).status == Accepted
    ensures var d := Decide(profile, candidates, scores, strongNegative, confirmedNone);
            && |d.selections| > 0 && |Ranked(scores)| > 0
            && (d.selections[0].candidate == Ranked(scores)[0].candidate
                <==> EligibleScore(Ranked(scores)[0])
                     && CandidateOf(candidates, Ranked(scores)[0].candidate).Some?)
  {
    var selections := Decide(profile, candidates, scores, strongNegative, confirmedNone).selections;
    var ranked := Ranked(scores);
    var eligible := Take(Eligible(ranked), MAX_SELECTIONS);
    AcceptedShape(profile, candidates, scores, strongNegative, confirmedNone);
    RankedSorts(scores);
    RankedDistinct(scores);
    SelectionsCome(eligible, candidates, 0);
    var s :| s in eligible && Selects(selections[0], s);
    EligibleFirst(ranked, s);
    if EligibleScore(ranked[0]) {
      assert eligible[0] == ranked[0];
    }
  }

  /** A score that leads by the margin but is not eligible leaves the decision to the second. */
  lemma AcceptsSecond(profile: Id, candidates: seq<Candidate>, a: Score, b: Score)
    requires a.probability >= b.probability + ACCEPT_MARGIN && !EligibleScore(a) && EligibleScore(b)
    requires CandidateOf(candidates, b.candidate).Some?
    ensures Ranked([a, b]) == [a, b]
    ensures var d := Decide(profile, candidates, [a, b], false, false);
            d.status == Accepted && |d.selections| == 1 && d.selections[0].candidate == b.candidate
  {
    assert [a, b][1..] == [b] && [b][1..] == [];
    assert Ranked([b]) == [b];
    assert Ranked([a, b]) == [a, b];
    assert Eligible([b]) == [b];
    assert Eligible([a, b]) == [b];
    assert |Selections([b], candidates)| == 1;
  }

  lemma RankedDistinct(scores: seq<Score>)
    requires DistinctCandidates(scores)
    ensures DistinctCandidates(Ranked(scores))
  {
    RankedSorts(scores);
    var ranked := Ranked(scores);
    forall i, j | 0 <= i < j < |ranked| ensures ranked[i].candidate != ranked[j].candidate {
      assert ranked[i] in scores && ranked[j] in scores && Before(ranked[i], ranked[j]);
    }
  }
}
