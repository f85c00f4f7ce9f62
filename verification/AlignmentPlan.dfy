/** What an alignment run should end up with, independent of how often it was interrupted. */
module AlignmentPlan {
  import opened Wrappers
  import opened AlignmentScorer

  datatype Profile = Profile(id: Id, content: string)

  datatype Recalled = Recalled(id: Id, entity: Id, codeEvidence: seq<string>)

  /** The inputs of a run: extraction, recall and features are deterministic in them. */
  datatype Facts = Facts(
    profiles: seq<Profile>,
    recall: Profile -> seq<Recalled>,
    entities: set<Id>,
    features: (Profile, Candidate) -> seq<Feature>)

  datatype Verification = Verification(profile: Id, allowed: multiset<Id>)

  // --------------------------------------------------------- stages on lists

  function CandidatesFor(f: Facts, p: Profile): (cs: seq<Candidate>)
    ensures |cs| == |f.recall(p)| && forall i :: 0 <= i < |cs| ==> cs[i].profile == p.id
  {
    seq(|f.recall(p)|, i requires 0 <= i < |f.recall(p)| =>
      Candidate(f.recall(p)[i].id, p.id, f.recall(p)[i].entity, f.recall(p)[i].codeEvidence))
  }

  function AllCandidates(f: Facts, profiles: seq<Profile>): seq<Candidate> {
    if profiles == [] then []
    else AllCandidates(f, profiles[..|profiles| - 1]) + CandidatesFor(f, profiles[|profiles| - 1])
  }

  function VectorFor(f: Facts, p: Profile, c: Candidate): Vector {
    ExtractVector(p.id, c.id, f.features(p, c))
  }

  /** profile_map: the last profile listed under an id. */
  function ProfileOf(profiles: seq<Profile>, id: Id): (found: Option<Profile>)
    ensures found.Some? ==> found.value in profiles && found.value.id == id
    ensures found.None? ==> forall i :: 0 <= i < |profiles| ==> profiles[i].id != id
  {
    if profiles == [] then None
    else
      var last := |profiles| - 1;
      if profiles[last].id == id then Some(profiles[last]) else ProfileOf(profiles[..last], id)
  }

  function ScoreFor(v: Vector): Score {
    ScoreVector(v, IdentityPredict)
  }

  function CandidatesOf(all: seq<Candidate>, profile: Id): (of: seq<Candidate>)
    ensures forall c :: c in of <==> c in all && c.profile == profile
  {
    if all == [] then []
    else
      var last := |all| - 1;
      assert forall c :: c in all <==> c in all[..last] || c == all[last];
      CandidatesOf(all[..last], profile) + (if all[last].profile == profile then [all[last]] else [])
  }

  function ScoresOf(all: seq<Score>, profile: Id): (of: seq<Score>)
    ensures forall s :: s in of <==> s in all && s.profile == profile
  {
    if all == [] then []
    else
      var last := |all| - 1;
      assert forall s :: s in all <==> s in all[..last] || s == all[last];
      ScoresOf(all[..last], profile) + (if all[last].profile == profile then [all[last]] else [])
  }

  // ------------------------------------------------------ the rows they stand for

  function Rows<T(==)>(list: seq<T>): set<T> {
    set x | x in list
  }

  function ProfileRows(f: Facts): set<Profile> {
    Rows(f.profiles)
  }

  ghost function CandidateRows(f: Facts): set<Candidate> {
    set p, c | p in f.profiles && c in CandidatesFor(f, p) :: c
  }

  ghost function VectorRows(f: Facts): set<Vector> {
    set p, c | p in f.profiles && c in CandidatesFor(f, p) && c.entity in f.entities :: VectorFor(f, p, c)
  }

  ghost function ScoreRows(f: Facts): set<Score> {
    set v | v in VectorRows(f) :: ScoreFor(v)
  }

  /** The scores of one profile in recall order. */
  function OwnScores(f: Facts, p: Profile, candidates: seq<Candidate>): seq<Score> {
    if candidates == [] then []
    else
      var last := |candidates| - 1;
      OwnScores(f, p, candidates[..last])
      + (if candidates[last].entity in f.entities then [ScoreFor(VectorFor(f, p, candidates[last]))] else [])
  }

  function DecisionFor(f: Facts, p: Profile): Decision {
    Decide(p.id, CandidatesFor(f, p), OwnScores(f, p, CandidatesFor(f, p)), false, false)
  }

  ghost function DecisionRows(f: Facts): set<Decision> {
    set p | p in f.profiles :: DecisionFor(f, p)
  }

  function CandidateIds(candidates: seq<Candidate>): seq<Id> {
    seq(|candidates|, i requires 0 <= i < |candidates| => candidates[i].id)
  }

  /** Without a provider every profile is verified by the fallback. */
  function FallbackFor(p: Profile, candidates: seq<Candidate>): Verification {
    Verification(p.id, multiset(CandidateIds(candidates)))
  }

  ghost function VerificationRows(f: Facts): set<Verification> {
    set p | p in f.profiles :: FallbackFor(p, CandidatesFor(f, p))
  }

  // -------------------------------------------------------------- primary keys

  ghost predicate DistinctProfiles(profiles: seq<Profile>) {
    forall i, j :: 0 <= i < j < |profiles| ==> profiles[i].id != profiles[j].id
  }

  /** No two candidates link the same profile and entity. */
  ghost predicate DistinctTargets(candidates: seq<Candidate>) {
    forall i, j :: 0 <= i < j < |candidates| ==>
      candidates[i].profile != candidates[j].profile || candidates[i].entity != candidates[j].entity
  }

  /** Every candidate belongs to one of the profiles. */
  ghost predicate Owned(profiles: set<Profile>, candidates: seq<Candidate>) {
    forall i :: 0 <= i < |candidates| ==> HasOwner(profiles, candidates[i].profile)
  }

  ghost predicate HasOwner(profiles: set<Profile>, id: Id) {
    exists p :: p in profiles && p.id == id
  }

  /** No two candidates of the run share an id, or link the same profile and entity. */
  ghost predicate CandidatesKeyed(f: Facts) {
    && (forall p :: p in f.profiles ==> DistinctIds(CandidatesFor(f, p)) && DistinctTargets(CandidatesFor(f, p)))
    && (forall p, q, c, d ::
          (p in f.profiles && q in f.profiles && p != q && c in CandidatesFor(f, p) && d in CandidatesFor(f, q))
          ==> c.id != d.id)
  }

  /** `list` holds each of the rows once, under a key of its own. */
  ghost predicate ListsProfiles(list: seq<Profile>, f: Facts) {
    DistinctProfiles(list) && forall p :: p in list <==> p in f.profiles
  }

  lemma SameProfile(f: Facts, p: Profile, q: Profile)
    requires DistinctProfiles(f.profiles) && p in f.profiles && q in f.profiles && p.id == q.id
    ensures p == q
  {
  }

  lemma {:induction false} AllCandidatesAre(f: Facts, profiles: seq<Profile>)
    ensures forall c :: c in AllCandidates(f, profiles) <==> exists p :: p in profiles && c in CandidatesFor(f, p)
  {
    if profiles != [] {
      var rest, last := profiles[..|profiles| - 1], profiles[|profiles| - 1];
      AllCandidatesAre(f, rest);
      forall c ensures c in AllCandidates(f, profiles) <==> exists p :: p in profiles && c in CandidatesFor(f, p) {
        if c in CandidatesFor(f, last) {
          assert last in profiles;
        }
        if p :| p in profiles && c in CandidatesFor(f, p) {
          assert p in rest || p == last;
        }
      }
    }
  }

  /** In whatever order the profiles are read, their candidates are the same rows. */
  lemma CandidatesFromAnyOrder(f: Facts, profiles: seq<Profile>)
    requires forall p :: p in profiles <==> p in f.profiles
    ensures forall c :: c in AllCandidates(f, profiles) <==> c in CandidateRows(f)
  {
    AllCandidatesAre(f, profiles);
    forall c ensures c in AllCandidates(f, profiles) <==> c in CandidateRows(f) {
      if p :| p in profiles && c in CandidatesFor(f, p) {
        assert p in f.profiles;
      }
      if c in CandidateRows(f) {
        var p :| p in f.profiles && c in CandidatesFor(f, p);
        assert p in profiles;
      }
    }
  }

  /** A candidate list accepted by the keys shows the run's candidates are keyed. */
  lemma {:induction false} AcceptedCandidatesKeyed(f: Facts, profiles: seq<Profile>)
    requires DistinctIds(AllCandidates(f, profiles)) && DistinctTargets(AllCandidates(f, profiles))
    ensures forall p :: p in profiles ==> DistinctIds(CandidatesFor(f, p)) && DistinctTargets(CandidatesFor(f, p))
    ensures forall p, q, c, d ::
              (p in profiles && q in profiles && p != q && c in CandidatesFor(f, p) && d in CandidatesFor(f, q))
              ==> c.id != d.id
  {
    if profiles != [] {
      var rest, last := profiles[..|profiles| - 1], profiles[|profiles| - 1];
      var before, own := AllCandidates(f, rest), CandidatesFor(f, last);
      var all := before + own;
      assert all == AllCandidates(f, profiles);
      assert forall i :: 0 <= i < |before| ==> before[i] == all[i];
      assert forall i :: 0 <= i < |own| ==> own[i] == all[|before| + i];
      AcceptedCandidatesKeyed(f, rest);
      AllCandidatesAre(f, rest);
      assert forall p :: p in profiles ==> p in rest || p == last;
      forall p, c, d | p in rest && p != last && c in CandidatesFor(f, p) && d in own ensures c.id != d.id {
        assert c in before;
      }
    }
  }

  // ------------------------------------------------- decisions from any listing

  lemma {:induction false} OwnScoresAre(f: Facts, p: Profile, candidates: seq<Candidate>)
    ensures forall s :: s in OwnScores(f, p, candidates)
              <==> exists c :: c in candidates && c.entity in f.entities && s == ScoreFor(VectorFor(f, p, c))
  {
    if candidates != [] {
      var rest, last := candidates[..|candidates| - 1], candidates[|candidates| - 1];
      OwnScoresAre(f, p, rest);
      assert forall c :: c in candidates <==> c in rest || c == last;
      if last.entity in f.entities {
        assert last in candidates;
      }
    }
  }

  lemma {:induction false} OwnScoresDistinct(f: Facts, p: Profile, candidates: seq<Candidate>)
    requires DistinctIds(candidates)
    ensures DistinctCandidates(OwnScores(f, p, candidates))
  {
    if candidates != [] {
      var rest, last := candidates[..|candidates| - 1], candidates[|candidates| - 1];
      OwnScoresDistinct(f, p, rest);
      OwnScoresAre(f, p, rest);
      var before := OwnScores(f, p, rest);
      forall i | 0 <= i < |before| ensures before[i].candidate != last.id {
        assert before[i] in before;
      }
    }
  }

  /** Scores and candidates in any order the tables give them. */
  ghost predicate ListsScores(scores: seq<Score>, f: Facts) {
    DistinctCandidates(scores) && forall s :: s in scores <==> s in ScoreRows(f)
  }

  ghost predicate ListsCandidates(candidates: seq<Candidate>, f: Facts) {
    DistinctIds(candidates) && forall c :: c in candidates <==> c in CandidateRows(f)
  }

  lemma {:induction false} CandidatesOfDistinct(all: seq<Candidate>, profile: Id)
    requires DistinctIds(all)
    ensures DistinctIds(CandidatesOf(all, profile))
  {
    if all != [] {
      var rest, last := all[..|all| - 1], all[|all| - 1];
      CandidatesOfDistinct(rest, profile);
      var before := CandidatesOf(rest, profile);
      forall i | 0 <= i < |before| ensures before[i].id != last.id {
        assert before[i] in rest;
      }
    }
  }

  lemma {:induction false} ScoresOfDistinct(all: seq<Score>, profile: Id)
    requires DistinctCandidates(all)
    ensures DistinctCandidates(ScoresOf(all, profile))
  {
    if all != [] {
      var rest, last := all[..|all| - 1], all[|all| - 1];
      ScoresOfDistinct(rest, profile);
      var before := ScoresOf(rest, profile);
      forall i | 0 <= i < |before| ensures before[i].candidate != last.candidate {
        assert before[i] in rest;
      }
    }
  }

  lemma CandidatesOfProfile(f: Facts, all: seq<Candidate>, p: Profile)
    requires DistinctProfiles(f.profiles) && p in f.profiles
    requires forall c :: c in all <==> c in CandidateRows(f)
    ensures SameElements(CandidatesOf(all, p.id), CandidatesFor(f, p))
  {
    forall c ensures c in CandidatesOf(all, p.id) <==> c in CandidatesFor(f, p) {
      if c in CandidatesOf(all, p.id) {
        var q :| q in f.profiles && c in CandidatesFor(f, q);
        SameProfile(f, p, q);
      }
      if c in CandidatesFor(f, p) {
        assert c in CandidateRows(f);
      }
    }
  }

  lemma ScoresOfProfile(f: Facts, all: seq<Score>, p: Profile)
    requires DistinctProfiles(f.profiles) && p in f.profiles
    requires forall s :: s in all <==> s in ScoreRows(f)
    ensures SameElements(ScoresOf(all, p.id), OwnScores(f, p, CandidatesFor(f, p)))
  {
    OwnScoresAre(f, p, CandidatesFor(f, p));
    forall s ensures s in ScoresOf(all, p.id) <==> s in OwnScores(f, p, CandidatesFor(f, p)) {
      if s in ScoresOf(all, p.id) {
        var v :| v in VectorRows(f) && s == ScoreFor(v);
        var q, c :| q in f.profiles && c in CandidatesFor(f, q) && c.entity in f.entities && v == VectorFor(f, q, c);
        SameProfile(f, p, q);
      }
      if s in OwnScores(f, p, CandidatesFor(f, p)) {
        var c :| c in CandidatesFor(f, p) && c.entity in f.entities && s == ScoreFor(VectorFor(f, p, c));
        assert VectorFor(f, p, c) in VectorRows(f);
      }
    }
  }

  /** Deciding a profile from the saved rows, read in any order, is deciding it at once. */
  lemma DecisionFromRows(f: Facts, candidates: seq<Candidate>, scores: seq<Score>, p: Profile)
    requires DistinctProfiles(f.profiles) && p in f.profiles && CandidatesKeyed(f)
    requires ListsCandidates(candidates, f) && ListsScores(scores, f)
    ensures Decide(p.id, CandidatesOf(candidates, p.id), ScoresOf(scores, p.id), false, false) == DecisionFor(f, p)
  {
    CandidatesOfProfile(f, candidates, p);
    ScoresOfProfile(f, scores, p);
    CandidatesOfDistinct(candidates, p.id);
    ScoresOfDistinct(scores, p.id);
    OwnScoresDistinct(f, p, CandidatesFor(f, p));
    DecideOrderFree(p.id, CandidatesOf(candidates, p.id), ScoresOf(scores, p.id),
                    CandidatesFor(f, p), OwnScores(f, p, CandidatesFor(f, p)), false, false);
  }

  /** The fallback allows the same candidates in whatever order they are read. */
  lemma FallbackFromRows(f: Facts, candidates: seq<Candidate>, p: Profile)
    requires DistinctProfiles(f.profiles) && p in f.profiles && CandidatesKeyed(f) && ListsCandidates(candidates, f)
    ensures FallbackFor(p, CandidatesOf(candidates, p.id)) == FallbackFor(p, CandidatesFor(f, p))
  {
    CandidatesOfProfile(f, candidates, p);
    CandidatesOfDistinct(candidates, p.id);
    SameIds(CandidatesOf(candidates, p.id), CandidatesFor(f, p));
  }

  lemma {:induction false} DistinctOnce(s: seq<Id>, x: Id)
    requires forall i, j :: 0 <= i < j < |s| ==> s[i] != s[j]
    ensures multiset(s)[x] == if x in s then 1 else 0
  {
    if s != [] {
      var rest, last := s[..|s| - 1], s[|s| - 1];
      assert s == rest + [last];
      DistinctOnce(rest, x);
    }
  }

  lemma SameIds(a: seq<Candidate>, b: seq<Candidate>)
    requires DistinctIds(a) && DistinctIds(b) && SameElements(a, b)
    ensures multiset(CandidateIds(a)) == multiset(CandidateIds(b))
  {
    forall x: Id ensures multiset(CandidateIds(a))[x] == multiset(CandidateIds(b))[x] {
      DistinctOnce(CandidateIds(a), x);
      DistinctOnce(CandidateIds(b), x);
      if x in CandidateIds(a) {
        var i :| 0 <= i < |a| && a[i].id == x;
        assert a[i] in b;
        var j :| 0 <= j < |b| && b[j] == a[i];
        assert CandidateIds(b)[j] == x;
      }
      if x in CandidateIds(b) {
        var i :| 0 <= i < |b| && b[i].id == x;
        assert b[i] in a;
        var j :| 0 <= j < |a| && a[j] == b[i];
        assert CandidateIds(a)[j] == x;
      }
    }
  }

  // ---------------------------------------------------------- one row a profile

  lemma {:induction false} SetOfDistinct<T>(s: seq<T>)
    requires forall i, j :: 0 <= i < j < |s| ==> s[i] != s[j]
    ensures |Rows(s)| == |s|
  {
    if s != [] {
      var rest, last := s[..|s| - 1], s[|s| - 1];
      SetOfDistinct(rest);
      assert Rows(s) == Rows(rest) + {last};
    }
  }

  /** The activation check passes on the tables of a finished run. */
  lemma EveryProfileDecided(f: Facts)
    requires DistinctProfiles(f.profiles)
    ensures |ProfileRows(f)| == |DecisionRows(f)|
  {
    var decisions := seq(|f.profiles|, i requires 0 <= i < |f.profiles| => DecisionFor(f, f.profiles[i]));
    SetOfDistinct(f.profiles);
    SetOfDistinct(decisions);
    assert Rows(decisions) == DecisionRows(f) by {
      forall d ensures d in decisions <==> d in DecisionRows(f) {
        if d in DecisionRows(f) {
          var p :| p in f.profiles && d == DecisionFor(f, p);
          var i :| 0 <= i < |f.profiles| && f.profiles[i] == p;
          assert decisions[i] == d;
        }
      }
    }
  }
}
