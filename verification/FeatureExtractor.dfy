/** The nine features of a candidate, and which of them the coverage gate asks for. */
module FeatureExtractor {
  import opened Wrappers
  import opened AlignmentScorer
  import MonotonicCalibrator

  /** What the extractor measures. The profile decides whether there is anything to measure for
      role, inputs and outputs, shape, formula and figure; the structure of a candidate is known
      if it came out of the code graph; name, semantic and evidence are always measured. */
  datatype Measured = Measured(
    name: real,
    semantic: real,
    role: Option<real>,
    structure: Option<real>,
    inputOutput: Option<real>,
    shape: Option<real>,
    formula: Option<real>,
    topology: Option<real>,
    evidence: real)

  predicate Unit(value: Option<real>) {
    value.Some? ==> 0.0 <= value.value <= 1.0
  }

  /** The values the measures can take: a role fits or not, and evidence counts by halves. */
  predicate Possible(m: Measured) {
    && 0.0 <= m.name <= 1.0 && 0.0 <= m.semantic <= 1.0
    && (m.role.Some? ==> m.role.value == 0.0 || m.role.value == 1.0)
    && Unit(m.structure) && Unit(m.inputOutput) && Unit(m.shape) && Unit(m.formula) && Unit(m.topology)
    && (m.evidence == 0.0 || m.evidence == 0.5 || m.evidence == 1.0)
  }

  /** Candidates of one profile differ in what is there at most in their structure. */
  predicate SameProfile(a: Measured, b: Measured) {
    && (a.role.Some? <==> b.role.Some?) && (a.inputOutput.Some? <==> b.inputOutput.Some?)
    && (a.shape.Some? <==> b.shape.Some?) && (a.formula.Some? <==> b.formula.Some?)
    && (a.topology.Some? <==> b.topology.Some?)
  }

  function FeatureOf(name: string, value: Option<real>, otherwise: FeatureStatus): Feature {
    match value
    case Some(v) => Feature(name, Some(MonotonicCalibrator.Clamp(v)), Available)
    case None => Feature(name, None, otherwise)
  }

  function Features(m: Measured): seq<Feature> {
    [FeatureOf("name", Some(m.name), Missing),
     FeatureOf("semantic", Some(m.semantic), Missing),
     FeatureOf("role", m.role, Missing),
     FeatureOf("structure", m.structure, Missing),
     FeatureOf("input_output", m.inputOutput, Missing),
     FeatureOf("shape", m.shape, Missing),
     FeatureOf("formula_variable", m.formula, NotApplicable),
     FeatureOf("figure_topology", m.topology, NotApplicable),
     FeatureOf("evidence_quality", Some(m.evidence), Missing)]
  }

  // ---------------------------------------------------------------------- sums

  lemma Weights()
    ensures Weight("name") == 0.22 && Weight("semantic") == 0.16 && Weight("role") == 0.12
    ensures Weight("structure") == 0.12 && Weight("input_output") == 0.10 && Weight("shape") == 0.08
    ensures Weight("formula_variable") == 0.08 && Weight("figure_topology") == 0.05
    ensures Weight("evidence_quality") == 0.07
  {
  }

  ghost predicate DistinctNames(features: seq<Feature>) {
    forall i, j :: 0 <= i < j < |features| ==> features[i].name != features[j].name
  }

  function Share(f: Feature, available: bool): real {
    if f.status == Available || (!available && f.status != NotApplicable) then Weight(f.name) else 0.0
  }

  function Gain(f: Feature): real {
    if Counts(f) then Weight(f.name) * f.value.value else 0.0
  }

  /** An available feature has a value. */
  predicate Valued(features: seq<Feature>) {
    forall i :: 0 <= i < |features| ==> (features[i].status == Available <==> Counts(features[i]))
  }

  /** The sums over the features from i on. */
  lemma SumsFrom(s: seq<Feature>, available: bool, i: nat)
    requires i < |s| && DistinctNames(s)
    ensures WeightWhere(s[i..], available) == Share(s[i], available) + WeightWhere(s[i + 1..], available)
    ensures Contributions(s[i..]) == Gain(s[i]) + Contributions(s[i + 1..])
  {
    var rest := s[i..][1..];
    assert rest == s[i + 1..];
    assert forall k :: 0 <= k < |rest| ==> rest[k] == s[i + 1 + k];
    assert !Shadowed(s[i].name, rest);
  }

  function Shares(s: seq<Feature>, available: bool, i: nat): real
    requires i + 3 <= |s|
  {
    Share(s[i], available) + Share(s[i + 1], available) + Share(s[i + 2], available)
  }

  function Gains(s: seq<Feature>, i: nat): real
    requires i + 3 <= |s|
  {
    Gain(s[i]) + Gain(s[i + 1]) + Gain(s[i + 2])
  }

  lemma ThreeSums(s: seq<Feature>, available: bool, i: nat)
    requires i + 3 <= |s| && DistinctNames(s)
    ensures WeightWhere(s[i..], available) == Shares(s, available, i) + WeightWhere(s[i + 3..], available)
    ensures Contributions(s[i..]) == Gains(s, i) + Contributions(s[i + 3..])
  {
    SumsFrom(s, available, i);
    SumsFrom(s, available, i + 1);
    SumsFrom(s, available, i + 2);
  }

  lemma NineSums(s: seq<Feature>, available: bool)
    requires |s| == 9 && DistinctNames(s)
    ensures WeightWhere(s, available) == Shares(s, available, 0) + Shares(s, available, 3) + Shares(s, available, 6)
    ensures Contributions(s) == Gains(s, 0) + Gains(s, 3) + Gains(s, 6)
  {
    ThreeSums(s, available, 0);
    ThreeSums(s, available, 3);
    ThreeSums(s, available, 6);
    assert s[0..] == s && s[9..] == [];
  }

  lemma {:induction false} AllValued(s: seq<Feature>)
    requires Valued(s)
    ensures Denominator(s) == WeightWhere(s, true)
  {
    if s != [] {
      AllValued(s[1..]);
    }
  }

  lemma FeaturesListed(m: Measured)
    ensures DistinctNames(Features(m)) && Valued(Features(m))
  {
  }

  function Part(value: Option<real>, weight: real): real {
    if value.Some? then weight else 0.0
  }

  lemma AvailableWeight(m: Measured)
    ensures WeightWhere(Features(m), true)
         == 0.45 + Part(m.role, 0.12) + Part(m.structure, 0.12) + Part(m.inputOutput, 0.10) + Part(m.shape, 0.08)
            + Part(m.formula, 0.08) + Part(m.topology, 0.05)
    ensures Denominator(Features(m)) == WeightWhere(Features(m), true)
  {
    FeaturesListed(m);
    AllValued(Features(m));
    NineSums(Features(m), true);
    Weights();
  }

  lemma ApplicableWeight(m: Measured)
    ensures WeightWhere(Features(m), false) == 0.87 + Part(m.formula, 0.08) + Part(m.topology, 0.05)
  {
    FeaturesListed(m);
    NineSums(Features(m), false);
    Weights();
  }

  function Scaled(value: Option<real>, weight: real): real {
    if value.Some? then weight * MonotonicCalibrator.Clamp(value.value) else 0.0
  }

  lemma GainOf(name: string, value: Option<real>, otherwise: FeatureStatus, weight: real)
    requires Weight(name) == weight && otherwise != Available
    ensures Gain(FeatureOf(name, value, otherwise)) == Scaled(value, weight)
  {
  }

  lemma FirstGains(m: Measured)
    ensures Gains(Features(m), 0) == Scaled(Some(m.name), 0.22) + Scaled(Some(m.semantic), 0.16) + Scaled(m.role, 0.12)
  {
    Weights();
    GainOf("name", Some(m.name), Missing, 0.22);
    GainOf("semantic", Some(m.semantic), Missing, 0.16);
    GainOf("role", m.role, Missing, 0.12);
  }

  lemma NextGains(m: Measured)
    ensures Gains(Features(m), 3) == Scaled(m.structure, 0.12) + Scaled(m.inputOutput, 0.10) + Scaled(m.shape, 0.08)
  {
    Weights();
    GainOf("structure", m.structure, Missing, 0.12);
    GainOf("input_output", m.inputOutput, Missing, 0.10);
    GainOf("shape", m.shape, Missing, 0.08);
  }

  lemma LastGains(m: Measured)
    ensures Gains(Features(m), 6) == Scaled(m.formula, 0.08) + Scaled(m.topology, 0.05) + Scaled(Some(m.evidence), 0.07)
  {
    Weights();
    GainOf("formula_variable", m.formula, NotApplicable, 0.08);
    GainOf("figure_topology", m.topology, NotApplicable, 0.05);
    GainOf("evidence_quality", Some(m.evidence), Missing, 0.07);
  }

  function TotalGain(m: Measured): real {
    Scaled(Some(m.name), 0.22) + Scaled(Some(m.semantic), 0.16) + Scaled(m.role, 0.12)
    + Scaled(m.structure, 0.12) + Scaled(m.inputOutput, 0.10) + Scaled(m.shape, 0.08)
    + Scaled(m.formula, 0.08) + Scaled(m.topology, 0.05) + Scaled(Some(m.evidence), 0.07)
  }

  lemma GainsTotal(m: Measured, features: seq<Feature>)
    requires features == Features(m)
    ensures Contributions(features) == TotalGain(m)
  {
    FeaturesListed(m);
    NineSums(features, true);
    FirstGains(m);
    NextGains(m);
    LastGains(m);
  }

  // ---------------------------------------------------------------------- gate

  lemma RatioAtLeast(weight: real, applicable: real)
    requires applicable > 0.0
    ensures weight / applicable >= REQUIRED_WEIGHT_RATIO <==> weight >= REQUIRED_WEIGHT_RATIO * applicable
  {
    var ratio := weight / applicable;
    assert ratio * applicable == weight;
  }

  /** What it takes to be covered. */
  predicate Covered(m: Measured) {
    || m.structure.Some? || m.role.Some?
    || (m.inputOutput.Some? && (m.shape.Some? || m.formula.Some? || m.topology.Some?))
    || (m.shape.Some? && m.formula.Some? && m.topology.Some?)
  }

  /** The coverage gate asks for the structure of the candidate, a role of the profile, inputs or
      outputs together with a shape, formula or figure, or shape, formula and figure at once. */
  lemma CoverageGateIff(profile: Id, candidate: Id, m: Measured)
    ensures var v := ExtractVector(profile, candidate, Features(m));
            v.availableRatio >= v.requiredRatio <==> Covered(m)
  {
    AvailableWeight(m);
    ApplicableWeight(m);
    RatioAtLeast(WeightWhere(Features(m), true), WeightWhere(Features(m), false));
  }

  lemma TopReachesThreshold(profile: Id, candidates: seq<Candidate>, scores: seq<Score>,
                            strongNegative: bool, confirmedNone: bool)
    requires DistinctCandidates(scores)
    requires Decide(profile, candidates, scores, strongNegative, confirmedNone).status == Accepted
    ensures |Ranked(scores)| > 0 && Ranked(scores)[0].probability >= ACCEPT_THRESHOLD
  {
    AcceptedShape(profile, candidates, scores, strongNegative, confirmedNone);
    RankedSorts(scores);
    var ranked := Ranked(scores);
    var i :| 0 <= i < |ranked| && EligibleScore(ranked[i]);
    assert i == 0 || Before(ranked[0], ranked[i]);
  }

  /** An accepted decision lists its best-ranked candidate first if and only if what was measured
      of that candidate is covered. */
  lemma BestListedFirstIff(profile: Id, candidates: seq<Candidate>, scores: seq<Score>,
                           strongNegative: bool, confirmedNone: bool, best: Id, m: Measured, predict: real -> real)
    requires DistinctCandidates(scores) && CandidateOf(candidates, best).Some?
    requires Decide(profile, candidates, scores, strongNegative, confirmedNone).status == Accepted
    requires |Ranked(scores)| > 0
    requires Ranked(scores)[0] == ScoreVector(ExtractVector(profile, best, Features(m)), predict)
    ensures var d := Decide(profile, candidates, scores, strongNegative, confirmedNone);
            |d.selections| > 0 && (d.selections[0].candidate == best <==> Covered(m))
  {
    TopReachesThreshold(profile, candidates, scores, strongNegative, confirmedNone);
    FirstSelectionIsBestIff(profile, candidates, scores, strongNegative, confirmedNone);
    CoverageGateIff(profile, best, m);
  }

  /** A mean that gives the total back when multiplied with the weight. */
  ghost predicate IsMean(mean: real, total: real, weight: real) {
    mean * weight == total
  }

  lemma MeanOfGains(total: real, weight: real)
    requires weight > 0.0
    ensures IsMean(total / weight, total, weight)
  {
  }

  /** The raw score is the weighted mean of what was measured. */
  lemma RawIsMean(m: Measured, features: seq<Feature>)
    requires features == Features(m)
    ensures WeightWhere(features, true) >= 0.45 && IsMean(RawScore(features), TotalGain(m), WeightWhere(features, true))
  {
    AvailableWeight(m);
    GainsTotal(m, features);
    MeanOfGains(TotalGain(m), WeightWhere(features, true));
  }

  /** The adjusted score is the raw one, scaled down by the part of the required coverage that is
      missing, and the probability what the calibrator makes of it. */
  lemma ScoreExact(profile: Id, candidate: Id, features: seq<Feature>, predict: real -> real)
    ensures var v := ExtractVector(profile, candidate, features);
            var s := ScoreVector(v, predict);
            && s.profile == profile && s.candidate == candidate && s.raw == RawScore(features)
            && s.availableRatio == v.availableRatio && s.requiredRatio == 0.65
            && s.penalty == (if s.availableRatio >= 0.65 then 1.0 else s.availableRatio / 0.65)
            && s.adjusted == s.raw * s.penalty && s.probability == predict(s.adjusted)
            && (s.requiredMissing <==> exists f :: f in features && f.status == RequiredMissing)
  {
  }

  ghost predicate IsWeighted(name: string) {
    name in {"name", "semantic", "role", "structure", "input_output", "shape", "formula_variable", "figure_topology",
             "evidence_quality"}
  }

  /** Features of other names, or without a value, count for nothing: alone they score zero, with no
      coverage. */
  lemma {:induction false} UnweightedScoreZero(features: seq<Feature>)
    requires forall f :: f in features ==> !IsWeighted(f.name) || f.status == NotApplicable
    ensures RawScore(features) == 0.0
    ensures WeightWhere(features, true) == WeightWhere(features, false) == Denominator(features) == 0.0
    ensures forall profile, candidate :: ExtractVector(profile, candidate, features).availableRatio == 0.0
  {
    if features != [] {
      assert features[0] in features;
      UnweightedScoreZero(features[1..]);
    }
  }

  /** A feature listed again counts with its last value only. */
  lemma RepeatedCountsOnce(f: Feature, later: seq<Feature>, g: Feature)
    requires g in later && g.name == f.name && Counts(g) && Counts(f)
    ensures Contributions([f] + later) == Contributions(later)
    ensures Denominator([f] + later) == Denominator(later) + Weight(f.name)
  {
    assert ([f] + later)[1..] == later;
    var i :| 0 <= i < |later| && later[i] == g;
  }

  // ------------------------------------------------------------------- witness

  // A profile without role, inputs, outputs, formulas or figures that speaks of a shape: a
  // candidate that fits it perfectly but is not in the code graph, and a fair one that is.

  const PERFECT := Measured(1.0, 1.0, None, None, None, Some(1.0), None, None, 1.0)

  const FAIR := Measured(0.75, 0.75, None, Some(0.75), None, Some(0.75), None, None, 1.0)

  predicate HasSums(features: seq<Feature>, available: real, applicable: real, gain: real) {
    && WeightWhere(features, true) == available && WeightWhere(features, false) == applicable
    && Denominator(features) == available && Contributions(features) == gain
    && forall i :: 0 <= i < |features| ==> features[i].status != RequiredMissing
  }

  lemma Sums(m: Measured, features: seq<Feature>, available: real, applicable: real)
    requires features == Features(m)
    requires available == 0.45 + Part(m.role, 0.12) + Part(m.structure, 0.12) + Part(m.inputOutput, 0.10)
                          + Part(m.shape, 0.08) + Part(m.formula, 0.08) + Part(m.topology, 0.05)
    requires applicable == 0.87 + Part(m.formula, 0.08) + Part(m.topology, 0.05)
    ensures HasSums(features, available, applicable, TotalGain(m))
  {
    AvailableWeight(m);
    ApplicableWeight(m);
    GainsTotal(m, features);
    NoneRequired(m, features);
  }

  lemma NoneRequired(m: Measured, features: seq<Feature>)
    requires features == Features(m)
    ensures forall i :: 0 <= i < |features| ==> features[i].status != RequiredMissing
  {
  }

  lemma PerfectNumbers(profile: Id, candidate: Id, features: seq<Feature>)
    requires HasSums(features, 0.53, 0.87, 0.53)
    ensures var s := ScoreVector(ExtractVector(profile, candidate, features), IdentityPredict);
            s.candidate == candidate && 0.93 < s.probability <= 1.0 && s.availableRatio < s.requiredRatio
  {
  }

  lemma FairNumbers(profile: Id, candidate: Id, features: seq<Feature>)
    requires HasSums(features, 0.65, 0.87, 0.505)
    ensures var s := ScoreVector(ExtractVector(profile, candidate, features), IdentityPredict);
            s.candidate == candidate && 0.77 < s.probability < 0.78 && EligibleScore(s)
  {
  }

  /** Scored without a calibrator, the better of two candidates is ranked first and the other
      one accepted. */
  predicate Passes(profile: Id, best: Id, second: Id, candidates: seq<Candidate>,
                   better: seq<Feature>, other: seq<Feature>)
  {
    var scores := [ScoreVector(ExtractVector(profile, best, better), IdentityPredict),
                   ScoreVector(ExtractVector(profile, second, other), IdentityPredict)];
    var d := Decide(profile, candidates, scores, false, false);
    && |Ranked(scores)| == 2 && Ranked(scores)[0].candidate == best
    && d.status == Accepted && |d.selections| == 1 && d.selections[0].candidate == second
  }

  lemma SecondAccepted(profile: Id, best: Id, second: Id, candidates: seq<Candidate>,
                       perfect: seq<Feature>, fair: seq<Feature>)
    requires HasSums(perfect, 0.53, 0.87, 0.53) && HasSums(fair, 0.65, 0.87, 0.505)
    requires CandidateOf(candidates, second).Some?
    ensures Passes(profile, best, second, candidates, perfect, fair)
  {
    PerfectNumbers(profile, best, perfect);
    FairNumbers(profile, second, fair);
    AcceptsSecond(profile, candidates, ScoreVector(ExtractVector(profile, best, perfect), IdentityPredict),
                  ScoreVector(ExtractVector(profile, second, fair), IdentityPredict));
  }

  /** An accepted decision can pass its best-ranked candidate over: the perfect candidate lacks
      coverage, leads by the margin, and the fair one is accepted on the strength of it. */
  lemma BestMayBePassedOver(profile: Id, best: Id, second: Id, candidates: seq<Candidate>,
                            perfect: seq<Feature>, fair: seq<Feature>)
    requires perfect == Features(PERFECT) && fair == Features(FAIR)
    requires CandidateOf(candidates, second).Some?
    ensures Possible(PERFECT) && Possible(FAIR) && SameProfile(PERFECT, FAIR)
    ensures Passes(profile, best, second, candidates, perfect, fair)
  {
    Sums(PERFECT, perfect, 0.53, 0.87);
    Sums(FAIR, fair, 0.65, 0.87);
    assert TotalGain(PERFECT) == 0.53 && TotalGain(FAIR) == 0.505;
    SecondAccepted(profile, best, second, candidates, perfect, fair);
  }
}
