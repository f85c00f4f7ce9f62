/** What a profile is decided, from the scores of its candidates alone: no ranking, no list of
    eligible scores, only which score stands before which. */
module DecisionRules {
  import opened Wrappers
  import opened AlignmentScorer
  import opened RealArithmetic

  /** A score that may be accepted. */
  predicate Fit(s: Score) {
    s.probability >= 0.72 && s.availableRatio >= s.requiredRatio && !s.requiredMissing
  }

  predicate AnyScore(s: Score) {
    true
  }

  function FitOnly(s: Score): bool {
    Fit(s)
  }

  ghost function Members(scores: seq<Score>): (members: set<Score>)
    ensures forall s :: s in members <==> s in scores
  {
    set s | s in scores
  }

  /** The scores of a kind that stand before a score: higher, or as high with a lower id. */
  ghost function Ahead(scores: seq<Score>, kind: Score -> bool, s: Score): set<Score> {
    set t | t in scores && kind(t) && Before(t, s)
  }

  /** The best five of a kind. */
  ghost predicate AmongFive(scores: seq<Score>, kind: Score -> bool, s: Score) {
    s in scores && kind(s) && |Ahead(scores, kind, s)| < 5
  }

  ghost predicate Known(candidates: seq<Candidate>, s: Score) {
    exists c :: c in candidates && c.id == s.candidate
  }

  /** The best score, alone or at least 0.08 above every other. */
  ghost predicate LeadsAll(scores: seq<Score>, s: Score) {
    s in scores && s.probability >= 0.08
    && forall t :: t in scores && t != s ==> t.probability + 0.08 <= s.probability
  }

  ghost predicate Accepts(candidates: seq<Candidate>, scores: seq<Score>) {
    && (exists s :: AmongFive(scores, FitOnly, s) && Known(candidates, s))
    && (exists s :: LeadsAll(scores, s))
  }

  // -------------------------------------------------------------------- the ranking

  /** In a sorted list exactly the first i stand before the one at i. */
  lemma AheadInList(scores: seq<Score>, kind: Score -> bool, list: seq<Score>, i: nat)
    requires Sorted(list) && i < |list| && forall s :: s in list <==> s in scores && kind(s)
    ensures |Ahead(scores, kind, list[i])| == i
  {
    var ahead := Ahead(scores, kind, list[i]);
    assert forall k :: i < k < |list| ==> Before(list[i], list[k]);
    forall t ensures t in ahead <==> t in list[..i] {
      if t in ahead {
        var k :| 0 <= k < |list| && list[k] == t;
      }
      if t in list[..i] {
        var k :| 0 <= k < i && list[k] == t;
        assert list[k] in list && Before(list[k], list[i]);
      }
    }
    PrefixCount(list, i, ahead);
  }

  lemma {:induction false} PrefixCount(list: seq<Score>, i: nat, members: set<Score>)
    requires Sorted(list) && i <= |list| && forall t :: t in members <==> t in list[..i]
    ensures |members| == i
  {
    if i == 0 {
      assert members == {};
    } else {
      var last := list[i - 1];
      assert last !in list[..i - 1] by {
        assert forall k :: 0 <= k < i - 1 ==> Before(list[k], last);
      }
      assert list[..i] == list[..i - 1] + [last];
      PrefixCount(list, i - 1, members - {last});
    }
  }

  lemma FirstFive(scores: seq<Score>, kind: Score -> bool, list: seq<Score>, s: Score)
    requires Sorted(list) && forall t :: t in list <==> t in scores && kind(t)
    ensures s in Take(list, 5) <==> AmongFive(scores, kind, s)
  {
    if s in list {
      var i :| 0 <= i < |list| && list[i] == s;
      AheadInList(scores, kind, list, i);
      if i < 5 {
        assert Take(list, 5)[i] == s;
      } else {
        forall k | 0 <= k < |Take(list, 5)| ensures Take(list, 5)[k] != s {
          assert Before(list[k], list[i]);
        }
      }
    } else {
      assert forall k :: 0 <= k < |Take(list, 5)| ==> Take(list, 5)[k] == list[k];
    }
  }

  lemma {:induction false} EligibleList(ranked: seq<Score>)
    requires Sorted(ranked)
    ensures Sorted(Eligible(ranked)) && forall s :: s in Eligible(ranked) <==> s in ranked && Fit(s)
  {
    if ranked != [] {
      var rest := ranked[1..];
      assert Sorted(rest) && forall s :: s in ranked <==> s == ranked[0] || s in rest;
      EligibleList(rest);
      forall s | s in Eligible(rest) ensures Before(ranked[0], s) {
        var k :| 0 <= k < |rest| && rest[k] == s;
        assert Before(ranked[0], ranked[k + 1]);
      }
    }
  }

  lemma SortedTake(list: seq<Score>, n: nat)
    requires Sorted(list)
    ensures Sorted(Take(list, n))
  {
  }

  // ------------------------------------------------------------------ what is selected

  ghost predicate HasEvidence(candidates: seq<Candidate>, id: Id, evidence: seq<string>) {
    exists c :: c in candidates && c.id == id && c.codeEvidence == evidence
  }

  /** A selection says of a score what was scored, with the evidence of its candidate. */
  ghost predicate Describes(x: Selection, s: Score, candidates: seq<Candidate>) {
    && x.candidate == s.candidate && x.rawScore == s.adjusted && x.probability == s.probability
    && HasEvidence(candidates, s.candidate, x.codeEvidence)
  }

  /** The selections describe the chosen scores one by one, best first. */
  ghost predicate Selected(selections: seq<Selection>, chosen: seq<Score>, candidates: seq<Candidate>) {
    && Sorted(chosen) && |selections| == |chosen|
    && forall i :: 0 <= i < |selections| ==> Describes(selections[i], chosen[i], candidates)
  }

  function KnownOf(list: seq<Score>, candidates: seq<Candidate>): seq<Score> {
    if list == [] then []
    else (if CandidateOf(candidates, list[0].candidate).Some? then [list[0]] else []) + KnownOf(list[1..], candidates)
  }

  lemma KnownFound(candidates: seq<Candidate>, s: Score)
    ensures CandidateOf(candidates, s.candidate).Some? <==> Known(candidates, s)
    ensures CandidateOf(candidates, s.candidate).Some? ==>
              HasEvidence(candidates, s.candidate, CandidateOf(candidates, s.candidate).value.codeEvidence)
  {
  }

  lemma {:induction false} KnownExact(list: seq<Score>, candidates: seq<Candidate>)
    requires Sorted(list)
    ensures Sorted(KnownOf(list, candidates))
    ensures forall s :: s in KnownOf(list, candidates) <==> s in list && Known(candidates, s)
  {
    if list != [] {
      var rest := list[1..];
      assert Sorted(rest) && forall s :: s in list <==> s == list[0] || s in rest;
      KnownExact(rest, candidates);
      KnownFound(candidates, list[0]);
      forall s | s in KnownOf(rest, candidates) ensures Before(list[0], s) {
        var k :| 0 <= k < |rest| && rest[k] == s;
        assert Before(list[0], list[k + 1]);
      }
    }
  }

  lemma {:induction false} SelectionsDescribe(list: seq<Score>, candidates: seq<Candidate>)
    ensures |Selections(list, candidates)| == |KnownOf(list, candidates)|
    ensures forall i :: 0 <= i < |Selections(list, candidates)| ==>
              Describes(Selections(list, candidates)[i], KnownOf(list, candidates)[i], candidates)
  {
    if list != [] {
      SelectionsDescribe(list[1..], candidates);
      KnownFound(candidates, list[0]);
    }
  }

  lemma SelectionsSelect(list: seq<Score>, candidates: seq<Candidate>)
    requires Sorted(list)
    ensures Selected(Selections(list, candidates), KnownOf(list, candidates), candidates)
    ensures forall s :: s in KnownOf(list, candidates) <==> s in list && Known(candidates, s)
    ensures Selections(list, candidates) != [] <==> exists s :: s in list && Known(candidates, s)
  {
    KnownExact(list, candidates);
    SelectionsDescribe(list, candidates);
    assert KnownOf(list, candidates) != [] ==> KnownOf(list, candidates)[0] in KnownOf(list, candidates);
  }

  // ---------------------------------------------------------------------- the status

  lemma LeadIff(scores: seq<Score>)
    requires DistinctCandidates(scores)
    ensures var ranked := Ranked(scores);
            var top := if |ranked| > 0 then ranked[0].probability else 0.0;
            var second := if |ranked| > 1 then ranked[1].probability else 0.0;
            (scores != [] && top >= 0.08 && (|ranked| > 1 ==> top - second >= 0.08)) <==> exists s :: LeadsAll(scores, s)
  {
    RankedSorts(scores);
    var ranked := Ranked(scores);
    if scores != [] {
      assert ranked[0] in ranked;
      if ranked[0].probability >= 0.08 && (|ranked| > 1 ==> ranked[0].probability - ranked[1].probability >= 0.08) {
        FirstLeadsAll(ranked, scores);
      }
      if s :| LeadsAll(scores, s) {
        assert s in ranked;
        var k :| 0 <= k < |ranked| && ranked[k] == s;
        assert k > 0 ==> Before(ranked[0], ranked[k]);
        assert |ranked| > 1 ==> ranked[1] in ranked && Before(ranked[0], ranked[1]);
      }
    }
  }

  lemma FirstLeadsAll(ranked: seq<Score>, scores: seq<Score>)
    requires Sorted(ranked) && SameElements(ranked, scores) && |ranked| > 0 && ranked[0].probability >= 0.08
    requires |ranked| > 1 ==> ranked[0].probability - ranked[1].probability >= 0.08
    ensures LeadsAll(scores, ranked[0])
  {
    FirstLeads(ranked, scores);
  }

  /** The four statuses: accepted if a known score among the best five fit ones is there and the
      best score leads; else confirmed as not implemented; else for review if some score is at
      least 0.45; else abstained. */
  lemma StatusIff(profile: Id, candidates: seq<Candidate>, scores: seq<Score>, strongNegative: bool, confirmedNone: bool)
    requires DistinctCandidates(scores)
    ensures Decide(profile, candidates, scores, strongNegative, confirmedNone).status
            == if Accepts(candidates, scores) then Accepted
               else if strongNegative && confirmedNone then NoImplementation
               else if exists s :: s in scores && s.probability >= 0.45 then NeedsReview
               else Abstained
  {
    var ranked := Ranked(scores);
    RankedSorts(scores);
    AcceptedIff(profile, candidates, scores, strongNegative, confirmedNone);
    if |ranked| > 0 {
      assert ranked[0] in ranked;
      forall s | s in scores ensures s.probability <= ranked[0].probability {
        assert s in ranked;
        var k :| 0 <= k < |ranked| && ranked[k] == s;
        assert k > 0 ==> Before(ranked[0], ranked[k]);
      }
    } else {
      assert scores == [];
    }
  }

  /** The best five of the eligible and of all. */
  lemma FivesExact(scores: seq<Score>)
    requires DistinctCandidates(scores)
    ensures var fit := Take(Eligible(Ranked(scores)), 5);
            Sorted(fit) && forall s :: s in fit <==> AmongFive(scores, FitOnly, s)
    ensures var five := Take(Ranked(scores), 5);
            Sorted(five) && forall s :: s in five <==> AmongFive(scores, AnyScore, s)
  {
    var ranked := Ranked(scores);
    RankedSorts(scores);
    EligibleList(ranked);
    SortedTake(Eligible(ranked), 5);
    SortedTake(ranked, 5);
    forall s ensures s in Take(Eligible(ranked), 5) <==> AmongFive(scores, FitOnly, s) {
      FirstFive(scores, FitOnly, Eligible(ranked), s);
    }
    forall s ensures s in Take(ranked, 5) <==> AmongFive(scores, AnyScore, s) {
      FirstFive(scores, AnyScore, ranked, s);
    }
  }

  lemma AcceptedIff(profile: Id, candidates: seq<Candidate>, scores: seq<Score>, strongNegative: bool,
                    confirmedNone: bool)
    requires DistinctCandidates(scores)
    ensures Decide(profile, candidates, scores, strongNegative, confirmedNone).status == Accepted
            <==> Accepts(candidates, scores)
  {
    var fit := Take(Eligible(Ranked(scores)), 5);
    FivesExact(scores);
    SelectionsSelect(fit, candidates);
    LeadIff(scores);
    AcceptedWhen(profile, candidates, scores, strongNegative, confirmedNone);
    assert (exists s :: s in fit && Known(candidates, s))
           <==> exists s :: AmongFive(scores, FitOnly, s) && Known(candidates, s);
  }

  lemma AcceptedWhen(profile: Id, candidates: seq<Candidate>, scores: seq<Score>, strongNegative: bool,
                     confirmedNone: bool)
    requires DistinctCandidates(scores)
    ensures var ranked := Ranked(scores);
            var top := if |ranked| > 0 then ranked[0].probability else 0.0;
            var second := if |ranked| > 1 then ranked[1].probability else 0.0;
            Decide(profile, candidates, scores, strongNegative, confirmedNone).status == Accepted
            <==> && Selections(Take(Eligible(ranked), 5), candidates) != []
                 && scores != [] && top >= 0.08 && (|ranked| > 1 ==> top - second >= 0.08)
  {
    RankedSorts(scores);
    var ranked := Ranked(scores);
    if Selections(Take(Eligible(ranked), 5), candidates) != [] {
      var i :| 0 <= i < |ranked| && EligibleScore(ranked[i]);
      assert i > 0 ==> Before(ranked[0], ranked[i]);
    }
  }

  /** The known ones of the best five of a kind. */
  ghost predicate Chosen(chosen: seq<Score>, scores: seq<Score>, kind: Score -> bool, candidates: seq<Candidate>) {
    forall s :: s in chosen <==> AmongFive(scores, kind, s) && Known(candidates, s)
  }

  /** What is selected: accepted, the known ones of the five best fit scores; for review, the known
      ones of the five best scores; otherwise nothing. */
  lemma SelectionExact(profile: Id, candidates: seq<Candidate>, scores: seq<Score>, strongNegative: bool,
                       confirmedNone: bool)
    requires DistinctCandidates(scores)
    ensures var d := Decide(profile, candidates, scores, strongNegative, confirmedNone);
            match d.status
            case Accepted =>
              exists chosen :: Chosen(chosen, scores, FitOnly, candidates) && Selected(d.selections, chosen, candidates)
            case NeedsReview =>
              exists chosen :: Chosen(chosen, scores, AnyScore, candidates) && Selected(d.selections, chosen, candidates)
            case _ => d.selections == []
  {
    var fit, five := Take(Eligible(Ranked(scores)), 5), Take(Ranked(scores), 5);
    FivesExact(scores);
    SelectionsSelect(fit, candidates);
    SelectionsSelect(five, candidates);
    assert Chosen(KnownOf(fit, candidates), scores, FitOnly, candidates);
    assert Chosen(KnownOf(five, candidates), scores, AnyScore, candidates);
    SelectedFrom(profile, candidates, scores, strongNegative, confirmedNone);
  }

  lemma SelectedFrom(profile: Id, candidates: seq<Candidate>, scores: seq<Score>, strongNegative: bool,
                     confirmedNone: bool)
    ensures var d := Decide(profile, candidates, scores, strongNegative, confirmedNone);
            d.selections == if d.status == Accepted then Selections(Take(Eligible(Ranked(scores)), 5), candidates)
                            else if d.status == NeedsReview then Selections(Take(Ranked(scores), 5), candidates) else []
  {
  }

  // ---------------------------------------------------------------------- the figures

  function Total(list: seq<Score>): real {
    if list == [] then 0.0 else Total(list[..|list| - 1]) + list[|list| - 1].probability
  }

  lemma {:induction false} TotalFront(s: Score, rest: seq<Score>)
    ensures Total([s] + rest) == s.probability + Total(rest)
  {
    if rest == [] {
      assert [s] + rest == [s] && [s][..0] == [];
    } else {
      var n := |rest| - 1;
      TotalFront(s, rest[..n]);
      assert ([s] + rest)[..n + 1] == [s] + rest[..n];
    }
  }

  lemma {:induction false} SumIsTotal(list: seq<Score>)
    ensures SumProbabilities(list) == Total(list)
  {
    if list != [] {
      SumIsTotal(list[1..]);
      TotalFront(list[0], list[1..]);
      assert [list[0]] + list[1..] == list;
    }
  }

  lemma {:induction false} MaxExact(scores: seq<Score>)
    requires scores != []
    ensures exists s :: s in scores && s.probability == MaxProbability(scores)
    ensures forall s :: s in scores ==> s.probability <= MaxProbability(scores)
  {
    assert scores[0] in scores;
    assert forall s :: s in scores <==> s == scores[0] || s in scores[1..];
    if |scores| > 1 {
      MaxExact(scores[1..]);
    }
  }

  /** The set score is the mean probability of the five best fit scores, none without any. */
  lemma SetScoreIsMean(profile: Id, candidates: seq<Candidate>, scores: seq<Score>, strongNegative: bool,
                       confirmedNone: bool)
    requires DistinctCandidates(scores)
    ensures var d := Decide(profile, candidates, scores, strongNegative, confirmedNone);
            && (d.setScore.None? <==> forall s :: s in scores ==> !Fit(s))
            && (d.setScore.Some? ==> exists list :: MeanOf(list, scores, d.setScore.value))
  {
    var fit := Take(Eligible(Ranked(scores)), 5);
    FivesExact(scores);
    NoneFitIff(scores);
    SetScoreOf(profile, candidates, scores, strongNegative, confirmedNone);
    if fit != [] {
      FitMean(scores, fit);
    }
  }

  lemma FitMean(scores: seq<Score>, fit: seq<Score>)
    requires Sorted(fit) && fit != [] && forall s :: s in fit <==> AmongFive(scores, FitOnly, s)
    ensures MeanOf(fit, scores, SumProbabilities(fit) / |fit| as real)
  {
    SumIsTotal(fit);
    DivideThenMultiply(Total(fit), |fit| as real);
  }

  /** The mean probability of the five best fit scores. */
  ghost predicate MeanOf(list: seq<Score>, scores: seq<Score>, mean: real) {
    && Sorted(list) && list != [] && (forall s :: s in list <==> AmongFive(scores, FitOnly, s))
    && mean * |list| as real == Total(list)
  }

  lemma SetScoreOf(profile: Id, candidates: seq<Candidate>, scores: seq<Score>, strongNegative: bool,
                   confirmedNone: bool)
    ensures var fit := Take(Eligible(Ranked(scores)), 5);
            Decide(profile, candidates, scores, strongNegative, confirmedNone).setScore
            == if fit == [] then None else Some(SumProbabilities(fit) / |fit| as real)
  {
  }

  lemma NoneFitIff(scores: seq<Score>)
    requires DistinctCandidates(scores)
    ensures Take(Eligible(Ranked(scores)), 5) == [] <==> forall s :: s in scores ==> !Fit(s)
  {
    RankedSorts(scores);
    EligibleList(Ranked(scores));
    var eligible := Eligible(Ranked(scores));
    assert Take(eligible, 5) == [] <==> eligible == [];
    assert eligible != [] ==> eligible[0] in eligible;
  }

  /** A share of n that makes k of them. */
  ghost predicate ShareOf(share: real, k: nat, n: nat) {
    share * n as real == k as real && 0.0 <= share <= 1.0
  }

  /** The coverage is the share of the scores that is selected. */
  lemma CoverageIsShare(profile: Id, candidates: seq<Candidate>, scores: seq<Score>, strongNegative: bool,
                        confirmedNone: bool)
    requires DistinctCandidates(scores)
    ensures var d := Decide(profile, candidates, scores, strongNegative, confirmedNone);
            ShareOf(d.setCoverage, |d.selections|, |scores|)
  {
    var d := Decide(profile, candidates, scores, strongNegative, confirmedNone);
    FewSelected(profile, candidates, scores, strongNegative, confirmedNone);
    CoverageOf(profile, candidates, scores, strongNegative, confirmedNone);
    Share(|d.selections|, |scores|);
  }

  function Quotient(k: nat, n: nat): real {
    if k == 0 || n == 0 then 0.0 else k as real / n as real
  }

  lemma Share(k: nat, n: nat)
    requires k <= n
    ensures ShareOf(Quotient(k, n), k, n)
  {
    if k > 0 {
      DivideThenMultiply(k as real, n as real);
      ClearDenominator(k as real, 1.0, n as real);
      ClearDenominator(k as real, 0.0, n as real);
    }
  }

  lemma FewSelected(profile: Id, candidates: seq<Candidate>, scores: seq<Score>, strongNegative: bool,
                    confirmedNone: bool)
    requires DistinctCandidates(scores)
    ensures |Decide(profile, candidates, scores, strongNegative, confirmedNone).selections| <= |scores|
  {
    RankedSorts(scores);
    EligibleFewer(Ranked(scores));
    SelectedFrom(profile, candidates, scores, strongNegative, confirmedNone);
  }

  lemma CoverageOf(profile: Id, candidates: seq<Candidate>, scores: seq<Score>, strongNegative: bool,
                   confirmedNone: bool)
    requires DistinctCandidates(scores)
    requires |Decide(profile, candidates, scores, strongNegative, confirmedNone).selections| <= |scores|
    ensures var d := Decide(profile, candidates, scores, strongNegative, confirmedNone);
            d.setCoverage == Quotient(|d.selections|, |scores|)
  {
    RankedSorts(scores);
    Share(|Decide(profile, candidates, scores, strongNegative, confirmedNone).selections|, |scores|);
  }

  lemma {:induction false} EligibleFewer(ranked: seq<Score>)
    ensures |Eligible(ranked)| <= |ranked|
  {
    if ranked != [] {
      EligibleFewer(ranked[1..]);
    }
  }

  /** The best is the highest probability there is, and the margin how far it is ahead of the
      second one, if there are two. */
  lemma MarginIsLead(profile: Id, candidates: seq<Candidate>, scores: seq<Score>, strongNegative: bool,
                     confirmedNone: bool)
    requires DistinctCandidates(scores) && scores != []
    ensures var d := Decide(profile, candidates, scores, strongNegative, confirmedNone);
            && (exists s :: s in scores && s.probability == d.best)
            && (forall s :: s in scores ==> s.probability <= d.best)
            && (|scores| == 1 ==> d.margin == if d.best < 0.0 then 0.0 else d.best)
            && (|scores| > 1 ==> exists s, t :: BestTwo(scores, s, t) && d.margin == s.probability - t.probability)
  {
    var ranked := Ranked(scores);
    RankedSorts(scores);
    BestIsFirst(scores);
    MarginOf(profile, candidates, scores, strongNegative, confirmedNone);
    if |scores| > 1 {
      SecondBest(ranked, scores);
      assert BestTwo(scores, ranked[0], ranked[1]);
    }
  }

  /** The best score and the best of the others. */
  ghost predicate BestTwo(scores: seq<Score>, s: Score, t: Score) {
    && s in scores && t in scores && s != t && t.probability <= s.probability
    && forall u :: u in scores && u != s ==> u.probability <= t.probability
  }

  lemma BestIsFirst(scores: seq<Score>)
    requires DistinctCandidates(scores) && scores != []
    ensures var ranked := Ranked(scores);
            |ranked| == |scores| && MaxProbability(ranked) == ranked[0].probability && ranked[0] in scores
            && forall s :: s in scores ==> s.probability <= ranked[0].probability
  {
    var ranked := Ranked(scores);
    RankedSorts(scores);
    MaxExact(ranked);
    assert ranked[0] in ranked;
    assert forall i :: 0 < i < |ranked| ==> Before(ranked[0], ranked[i]);
  }

  lemma MarginOf(profile: Id, candidates: seq<Candidate>, scores: seq<Score>, strongNegative: bool, confirmedNone: bool)
    ensures var d, ranked := Decide(profile, candidates, scores, strongNegative, confirmedNone), Ranked(scores);
            var top := if |ranked| > 0 then ranked[0].probability else 0.0;
            var second := if |ranked| > 1 then ranked[1].probability else 0.0;
            d.best == MaxProbability(ranked) && d.margin == if top < second then 0.0 else top - second
  {
  }

  lemma SecondBest(ranked: seq<Score>, scores: seq<Score>)
    requires Sorted(ranked) && SameElements(ranked, scores) && |ranked| > 1
    ensures ranked[0] in scores && ranked[1] in scores && ranked[0] != ranked[1]
    ensures ranked[1].probability <= ranked[0].probability
    ensures forall u :: u in scores && u != ranked[0] ==> u.probability <= ranked[1].probability
  {
    assert ranked[0] in ranked && ranked[1] in ranked && Before(ranked[0], ranked[1]);
    forall u | u in scores && u != ranked[0] ensures u.probability <= ranked[1].probability {
      assert u in ranked;
      var k :| 0 <= k < |ranked| && ranked[k] == u;
      assert k > 1 ==> Before(ranked[1], ranked[k]);
    }
  }

  /** Without scores there is nothing to select, to average or to lead with. */
  lemma WithoutScores(profile: Id, candidates: seq<Candidate>, strongNegative: bool, confirmedNone: bool)
    ensures Decide(profile, candidates, [], strongNegative, confirmedNone)
            == Decision(profile, if strongNegative && confirmedNone then NoImplementation else Abstained,
                        [], None, 0.0, 0.0, 0.0)
  {
  }
}
