/** What the plan of an alignment run decides, in terms of what was recalled and scored. */
module PlanMeaning {
  import opened Wrappers
  import opened AlignmentScorer
  import opened AlignmentPlan
  import opened DecisionRules

  /** A candidate was recalled for a profile. */
  ghost predicate RecalledFor(f: Facts, p: Profile, c: Candidate) {
    exists r :: r in f.recall(p) && c == Candidate(r.id, p.id, r.entity, r.codeEvidence)
  }

  /** A score is that of a recalled candidate whose entity is known. */
  ghost predicate ScoredFor(f: Facts, p: Profile, s: Score) {
    exists c :: RecalledFor(f, p, c) && c.entity in f.entities
                && s == ScoreVector(ExtractVector(p.id, c.id, f.features(p, c)), IdentityPredict)
  }

  lemma CandidatesExact(f: Facts, p: Profile)
    ensures forall c :: c in CandidatesFor(f, p) <==> RecalledFor(f, p, c)
  {
    forall c ensures c in CandidatesFor(f, p) <==> RecalledFor(f, p, c) {
      if RecalledFor(f, p, c) {
        var r :| r in f.recall(p) && c == Candidate(r.id, p.id, r.entity, r.codeEvidence);
        var i :| 0 <= i < |f.recall(p)| && f.recall(p)[i] == r;
        assert CandidatesFor(f, p)[i] == c;
      }
      if c in CandidatesFor(f, p) {
        var i :| 0 <= i < |CandidatesFor(f, p)| && CandidatesFor(f, p)[i] == c;
        assert f.recall(p)[i] in f.recall(p);
      }
    }
  }

  lemma {:induction false} OwnScoresExact(f: Facts, p: Profile, candidates: seq<Candidate>)
    ensures forall s :: s in OwnScores(f, p, candidates)
                        <==> exists c :: c in candidates && c.entity in f.entities && s == ScoreFor(VectorFor(f, p, c))
  {
    if candidates != [] {
      var rest, last := candidates[..|candidates| - 1], candidates[|candidates| - 1];
      OwnScoresExact(f, p, rest);
      assert forall c :: c in candidates <==> c in rest || c == last;
    }
  }

  lemma {:induction false} OwnScoresDistinct(f: Facts, p: Profile, candidates: seq<Candidate>)
    requires DistinctIds(candidates)
    ensures DistinctCandidates(OwnScores(f, p, candidates))
  {
    if candidates != [] {
      var rest, last := candidates[..|candidates| - 1], candidates[|candidates| - 1];
      OwnScoresDistinct(f, p, rest);
      OwnScoresExact(f, p, rest);
      var scores := OwnScores(f, p, rest);
      forall i | 0 <= i < |scores| ensures scores[i].candidate != last.id {
        assert scores[i] in scores;
        var c :| c in rest && scores[i] == ScoreFor(VectorFor(f, p, c));
      }
    }
  }

  /** The decision of a profile follows the rules from the scores of its recalled candidates with
      known entities; without a confirmation it never says that there is no implementation, and all
      it selects was recalled for the profile. */
  lemma PlannedDecision(f: Facts, p: Profile)
    requires p in f.profiles && CandidatesKeyed(f)
    ensures var scores, d := OwnScores(f, p, CandidatesFor(f, p)), DecisionFor(f, p);
            && d.profile == p.id && DistinctCandidates(scores)
            && (forall s :: s in scores <==> ScoredFor(f, p, s))
            && d.status == (if Accepts(CandidatesFor(f, p), scores) then Accepted
                            else if exists s :: s in scores && s.probability >= 0.45 then NeedsReview else Abstained)
            && (forall s :: s in scores ==> Known(CandidatesFor(f, p), s))
  {
    var candidates := CandidatesFor(f, p);
    var scores := OwnScores(f, p, candidates);
    CandidatesExact(f, p);
    OwnScoresExact(f, p, candidates);
    OwnScoresDistinct(f, p, candidates);
    StatusIff(p.id, candidates, scores, false, false);
    forall s ensures s in scores <==> ScoredFor(f, p, s) {
      if s in scores {
        var c :| c in candidates && c.entity in f.entities && s == ScoreFor(VectorFor(f, p, c));
        assert RecalledFor(f, p, c);
      }
      if ScoredFor(f, p, s) {
        var c :| RecalledFor(f, p, c) && c.entity in f.entities
                 && s == ScoreVector(ExtractVector(p.id, c.id, f.features(p, c)), IdentityPredict);
        assert c in candidates && s == ScoreFor(VectorFor(f, p, c));
      }
    }
    forall s | s in scores ensures Known(candidates, s) {
      var c :| c in candidates && c.entity in f.entities && s == ScoreFor(VectorFor(f, p, c));
    }
  }

  /** The rows of a finished run are those of the recalled candidates, the vectors those of the
      candidates with known entities, with one decision and one verification for each profile. */
  lemma PlannedRows(f: Facts)
    ensures forall c :: c in CandidateRows(f) <==> exists p :: p in f.profiles && RecalledFor(f, p, c)
    ensures forall v :: v in VectorRows(f) <==>
              exists p, c :: p in f.profiles && RecalledFor(f, p, c) && c.entity in f.entities
                             && v == ExtractVector(p.id, c.id, f.features(p, c))
    ensures forall s :: s in ScoreRows(f) <==> exists p :: p in f.profiles && ScoredFor(f, p, s)
  {
    forall p ensures forall c :: c in CandidatesFor(f, p) <==> RecalledFor(f, p, c) {
      CandidatesExact(f, p);
    }
    forall c ensures c in CandidateRows(f) <==> exists p :: p in f.profiles && RecalledFor(f, p, c) {
      if c in CandidateRows(f) {
        var p :| p in f.profiles && c in CandidatesFor(f, p);
        assert RecalledFor(f, p, c);
      }
      if p :| p in f.profiles && RecalledFor(f, p, c) {
        assert c in CandidatesFor(f, p);
      }
    }
    forall s ensures s in ScoreRows(f) <==> exists p :: p in f.profiles && ScoredFor(f, p, s) {
      if s in ScoreRows(f) {
        var v :| v in VectorRows(f) && s == ScoreFor(v);
        var p, c :| p in f.profiles && c in CandidatesFor(f, p) && c.entity in f.entities && v == VectorFor(f, p, c);
        assert ScoredFor(f, p, s);
      }
      if p :| p in f.profiles && ScoredFor(f, p, s) {
        var c :| RecalledFor(f, p, c) && c.entity in f.entities
                 && s == ScoreVector(ExtractVector(p.id, c.id, f.features(p, c)), IdentityPredict);
        assert VectorFor(f, p, c) in VectorRows(f);
      }
    }
  }

  function HowMany(candidates: seq<Candidate>, id: Id): nat {
    if candidates == [] then 0 else HowMany(candidates[1..], id) + (if candidates[0].id == id then 1 else 0)
  }

  /** The fallback allows every candidate of the profile. */
  lemma {:induction false} FallbackAllowsAll(p: Profile, candidates: seq<Candidate>, id: Id)
    ensures FallbackFor(p, candidates).profile == p.id
    ensures FallbackFor(p, candidates).allowed[id] == HowMany(candidates, id)
  {
    if candidates != [] {
      FallbackAllowsAll(p, candidates[1..], id);
      assert CandidateIds(candidates) == [candidates[0].id] + CandidateIds(candidates[1..]);
    }
  }
}
