/**
 Processing an alignment run. The process may be cut off before any durable write, a stage
 may raise, and a cancellation may arrive at any commit point; the next call resumes from
 the status left behind. Whenever a call reaches the end, the tables are exactly those of
 the plan, however many calls were cut off before it.
 */
module AlignmentRuns {
  import opened Wrappers
  import opened Interferences
  import opened AlignmentScorer
  import opened AlignmentPlan
  import opened AlignmentStorage

  datatype Outcome = RunMissing | Crashed | CancelledRun | FailedRun | Activated

  /** How many groups of tables a status vouches for. */
  function Reached(s: RunStatus): nat {
    match s
    case Recalling => 1
    case Featurizing => 2
    case Scoring => 3
    case Verifying => 4
    case Ready => 5
    case Active => 5
    case _ => 0
  }

  ghost predicate HasProfiles(f: Facts, run: Run) {
    DistinctProfiles(f.profiles) && run.profiles == ProfileRows(f)
  }

  ghost predicate HasCandidates(f: Facts, run: Run) {
    HasProfiles(f, run) && CandidatesKeyed(f) && run.candidates == CandidateRows(f)
  }

  ghost predicate HasVectors(f: Facts, run: Run) {
    HasCandidates(f, run) && run.vectors == VectorRows(f)
  }

  ghost predicate HasDecisions(f: Facts, run: Run) {
    HasVectors(f, run) && run.scores == ScoreRows(f) && run.decisions == DecisionRows(f)
  }

  ghost predicate HasAll(f: Facts, run: Run) {
    HasDecisions(f, run) && (run.verifierEnabled ==> run.verifications == VerificationRows(f))
  }

  /** The ways a call ends before it activates the run. */
  predicate Early(o: Outcome) {
    o.Crashed? || o.CancelledRun? || o.FailedRun?
  }

  /** A run that was left where it stood, or ended, with everything it had saved. */
  predicate Halted(before: Run, after: Run) {
    && after == before.(status := after.status, cancelRequested := after.cancelRequested)
    && (after.status == before.status || after.status == Failed || after.status == Cancelled)
  }

  /** The durable invariant: a status means that every earlier stage is saved correctly. */
  ghost predicate Progress(f: Facts, run: Run) {
    match Reached(run.status)
    case 0 => true
    case 1 => HasProfiles(f, run)
    case 2 => HasCandidates(f, run)
    case 3 => HasVectors(f, run)
    case 4 => HasDecisions(f, run)
    case _ => HasAll(f, run)
  }

  ghost predicate DistinctVectors(vectors: seq<Vector>) {
    forall i, j :: 0 <= i < j < |vectors| ==> vectors[i].candidate != vectors[j].candidate
  }

  ghost predicate ListsVectors(vectors: seq<Vector>, f: Facts) {
    DistinctVectors(vectors) && forall v :: v in vectors <==> v in VectorRows(f)
  }

  ghost predicate DistinctDecisions(decisions: seq<Decision>) {
    forall i, j :: 0 <= i < j < |decisions| ==> decisions[i].profile != decisions[j].profile
  }

  /** Nothing but crashes gets in the way: no exception, no cancellation, and no two rows of
      the plan claim the same key. */
  ghost predicate Quiet(run: Run, f: Facts, around: Interference) {
    !around.Anything? && !run.cancelRequested && HasKeys(f)
  }

  /** Only a crash ended a stage early, and not if the call is calm. */
  predicate OnlyCrashed(stop: Option<Outcome>, run: Run, around: Interference) {
    (stop.None? || (stop.value.Crashed? && !around.Calm?)) && !run.cancelRequested
  }

  ghost predicate HasKeys(f: Facts) {
    DistinctProfiles(f.profiles) && CandidatesKeyed(f)
  }

  class AlignmentService {
    const store: AlignmentStore

    constructor (store: AlignmentStore)
      ensures this.store == store
    {
      this.store := store;
    }

    /** What is saved vouches for the status of the run. */
    ghost predicate Stands(f: Facts, id: RunId)
      reads store
    {
      id in store.runs && Progress(f, store.runs[id])
    }

    // Under `Crashes` the process may die at every Strikes; under `Anything` a stage may also
    // raise, and a cancellation may arrive, at every Disturbs.

    method Fail(id: RunId)
      requires id in store.runs && Build(store.runs[id].status)
      modifies store
      ensures OnlyRun(old(store.runs), store.runs, id)
      ensures Halted(old(store.runs)[id], store.runs[id])
    {
      var r := store.UpdateStatus(id, Failed, {store.runs[id].status});
    }

    /** The commit point of a stage: a requested cancellation ends the run here. */
    method StageCommitGuard(id: RunId, stage: RunStatus, around: Interference) returns (stop: Option<Outcome>)
      requires id in store.runs && store.runs[id].status == stage && Build(stage)
      modifies store
      ensures OnlyRun(old(store.runs), store.runs, id)
      ensures stop.Some? ==> Early(stop.value) && Halted(old(store.runs)[id], store.runs[id])
      ensures stop.Some? && stop.value.Crashed? ==> Build(store.runs[id].status)
      ensures stop.None? ==> store.runs[id] == old(store.runs)[id].(cancelRequested := false)
      ensures !around.Anything? && !old(store.runs)[id].cancelRequested ==> OnlyCrashed(stop, store.runs[id], around)
    {
      var cancelled := Disturbs(around);
      if cancelled {
        var requested := store.RequestCancel(id);
      }
      if store.runs[id].cancelRequested {
        var r := store.UpdateStatus(id, Cancelled, {stage});
        return Some(CancelledRun);
      }
      var crashed := Strikes(around);
      if crashed {
        return Some(Crashed);
      }
      stop := None;
    }

    /** Entering a stage. The stage itself may raise. */
    method Advance(id: RunId, stage: RunStatus, next: RunStatus, around: Interference) returns (stop: Option<Outcome>)
      requires id in store.runs && store.runs[id].status == stage && Build(stage) && Build(next)
      modifies store
      ensures OnlyRun(old(store.runs), store.runs, id)
      ensures stop.Some? ==> Early(stop.value) && (Halted(old(store.runs)[id], store.runs[id])
                                                    || Halted(old(store.runs)[id].(status := next), store.runs[id]))
      ensures stop.Some? && stop.value.Crashed? ==> Build(store.runs[id].status)
      ensures stop.None? ==> store.runs[id] == old(store.runs)[id].(status := next)
      ensures !around.Anything? && !old(store.runs)[id].cancelRequested ==> OnlyCrashed(stop, store.runs[id], around)
    {
      var crashed := Strikes(around);
      if crashed {
        return Some(Crashed);
      }
      var r := store.UpdateStatus(id, next, {stage});
      var raised := Disturbs(around);
      if raised {
        Fail(id);
        return Some(FailedRun);
      }
      stop := None;
    }

    // Each save behind its commit point; a broken key fails the run.

    method CommitProfiles(id: RunId, stage: RunStatus, profiles: seq<Profile>, around: Interference) returns (stop: Option<Outcome>)
      requires id in store.runs && store.runs[id].status == stage && Build(stage)
      modifies store
      ensures OnlyRun(old(store.runs), store.runs, id)
      ensures stop.Some? ==> Early(stop.value) && Halted(old(store.runs)[id], store.runs[id])
      ensures stop.Some? && stop.value.Crashed? ==> Build(store.runs[id].status)
      ensures stop.None? ==>
                && DistinctProfiles(profiles)
                && store.runs[id] == old(store.runs)[id].(cancelRequested := false, profiles := Rows(profiles),
                     candidates := {}, vectors := {}, scores := {}, decisions := {})
      ensures !around.Anything? && !old(store.runs)[id].cancelRequested && DistinctProfiles(profiles) ==>
                OnlyCrashed(stop, store.runs[id], around)
    {
      stop := StageCommitGuard(id, stage, around);
      if stop.Some? {
        return;
      }
      var saved := store.SaveProfiles(id, profiles);
      if !saved {
        Fail(id);
        return Some(FailedRun);
      }
    }

    method CommitCandidates(id: RunId, stage: RunStatus, candidates: seq<Candidate>, around: Interference) returns (stop: Option<Outcome>)
      requires id in store.runs && store.runs[id].status == stage && Build(stage)
      modifies store
      ensures OnlyRun(old(store.runs), store.runs, id)
      ensures stop.Some? ==> Early(stop.value) && Halted(old(store.runs)[id], store.runs[id])
      ensures stop.Some? && stop.value.Crashed? ==> Build(store.runs[id].status)
      ensures stop.None? ==>
                && DistinctIds(candidates) && DistinctTargets(candidates)
                && store.runs[id] == old(store.runs)[id].(cancelRequested := false, candidates := Rows(candidates),
                     vectors := {}, scores := {})
      ensures !around.Anything? && !old(store.runs)[id].cancelRequested && DistinctIds(candidates)
              && DistinctTargets(candidates) && Owned(old(store.runs)[id].profiles, candidates) ==>
                OnlyCrashed(stop, store.runs[id], around)
    {
      stop := StageCommitGuard(id, stage, around);
      if stop.Some? {
        return;
      }
      var saved := store.SaveCandidates(id, candidates);
      if !saved {
        Fail(id);
        return Some(FailedRun);
      }
    }

    method CommitFeatures(id: RunId, stage: RunStatus, vectors: seq<Vector>, around: Interference) returns (stop: Option<Outcome>)
      requires id in store.runs && store.runs[id].status == stage && Build(stage)
      modifies store
      ensures OnlyRun(old(store.runs), store.runs, id)
      ensures stop.Some? ==> Early(stop.value) && Halted(old(store.runs)[id], store.runs[id])
      ensures stop.Some? && stop.value.Crashed? ==> Build(store.runs[id].status)
      ensures stop.None? ==>
                && DistinctVectors(vectors)
                && store.runs[id] == old(store.runs)[id].(cancelRequested := false, vectors := Rows(vectors))
      ensures !around.Anything? && !old(store.runs)[id].cancelRequested && DistinctVectors(vectors) ==>
                OnlyCrashed(stop, store.runs[id], around)
    {
      stop := StageCommitGuard(id, stage, around);
      if stop.Some? {
        return;
      }
      var saved := store.SaveFeatures(id, vectors);
      if !saved {
        Fail(id);
        return Some(FailedRun);
      }
    }

    method CommitScores(id: RunId, stage: RunStatus, scores: seq<Score>, around: Interference) returns (stop: Option<Outcome>)
      requires id in store.runs && store.runs[id].status == stage && Build(stage)
      modifies store
      ensures OnlyRun(old(store.runs), store.runs, id)
      ensures stop.Some? ==> Early(stop.value) && Halted(old(store.runs)[id], store.runs[id])
      ensures stop.Some? && stop.value.Crashed? ==> Build(store.runs[id].status)
      ensures stop.None? ==>
                && DistinctCandidates(scores)
                && store.runs[id] == old(store.runs)[id].(cancelRequested := false, scores := Rows(scores))
      ensures !around.Anything? && !old(store.runs)[id].cancelRequested && DistinctCandidates(scores) ==>
                OnlyCrashed(stop, store.runs[id], around)
    {
      stop := StageCommitGuard(id, stage, around);
      if stop.Some? {
        return;
      }
      var saved := store.SaveScores(id, scores);
      if !saved {
        Fail(id);
        return Some(FailedRun);
      }
    }

    method CommitDecisions(id: RunId, stage: RunStatus, decisions: seq<Decision>, around: Interference) returns (stop: Option<Outcome>)
      requires id in store.runs && store.runs[id].status == stage && Build(stage)
      modifies store
      ensures OnlyRun(old(store.runs), store.runs, id)
      ensures stop.Some? ==> Early(stop.value) && Halted(old(store.runs)[id], store.runs[id])
      ensures stop.Some? && stop.value.Crashed? ==> Build(store.runs[id].status)
      ensures stop.None? ==>
                && DistinctDecisions(decisions)
                && store.runs[id] == old(store.runs)[id].(cancelRequested := false, decisions := Rows(decisions))
      ensures !around.Anything? && !old(store.runs)[id].cancelRequested && DistinctDecisions(decisions) ==>
                OnlyCrashed(stop, store.runs[id], around)
    {
      stop := StageCommitGuard(id, stage, around);
      if stop.Some? {
        return;
      }
      var saved := store.SaveDecisions(id, decisions);
      if !saved {
        Fail(id);
        return Some(FailedRun);
      }
    }

    method ProfileStage(id: RunId, f: Facts, stage: RunStatus, around: Interference) returns (stop: Option<Outcome>, profiles: seq<Profile>)
      requires Stands(f, id) && store.runs[id].status == stage && Build(stage)
      modifies store
      ensures OnlyRun(old(store.runs), store.runs, id) && Stands(f, id) && store.runs[id].status != Active
      ensures stop.Some? ==> Early(stop.value) && (stop.value.Crashed? ==> Build(store.runs[id].status))
      ensures stop.None? ==>
                && store.runs[id].status == (if stage == Queued then Profiling else stage)
                && HasProfiles(f, store.runs[id]) && ListsProfiles(profiles, f)
      ensures Quiet(old(store.runs)[id], f, around) ==> OnlyCrashed(stop, store.runs[id], around)
    {
      if stage == Queued || stage == Profiling {
        profiles := f.profiles;
        stop := Advance(id, stage, Profiling, around);
        if stop.Some? {
          return;
        }
        stop := CommitProfiles(id, Profiling, profiles, around);
        if stop.Some? {
          return;
        }
      } else {
        profiles := ListRows(store.runs[id].profiles);
        stop := None;
        ListedProfiles(f, profiles);
      }
    }

    lemma ListedProfiles(f: Facts, profiles: seq<Profile>)
      requires DistinctProfiles(f.profiles) && forall p :: p in profiles <==> p in ProfileRows(f)
      requires forall i, j :: 0 <= i < j < |profiles| ==> profiles[i] != profiles[j]
      ensures ListsProfiles(profiles, f)
    {
      forall i, j | 0 <= i < j < |profiles| ensures profiles[i].id != profiles[j].id {
        assert profiles[i] in profiles && profiles[j] in profiles;
        assert profiles[i] in f.profiles && profiles[j] in f.profiles;
        if profiles[i].id == profiles[j].id {
          SameProfile(f, profiles[i], profiles[j]);
        }
      }
    }

    /** Recall over the profiles in any order; the result is keyed exactly when the plan is. */
    method GenerateCandidates(f: Facts, profiles: seq<Profile>) returns (candidates: seq<Candidate>)
      requires ListsProfiles(profiles, f)
      ensures candidates == AllCandidates(f, profiles)
      ensures Rows(candidates) == CandidateRows(f)
      ensures DistinctIds(candidates) && DistinctTargets(candidates) <==> CandidatesKeyed(f)
      ensures Owned(ProfileRows(f), candidates)
    {
      candidates := [];
      for i := 0 to |profiles|
        invariant candidates == AllCandidates(f, profiles[..i])
      {
        assert profiles[..i + 1][..i] == profiles[..i];
        candidates := candidates + CandidatesFor(f, profiles[i]);
      }
      assert profiles[..|profiles|] == profiles;
      CandidatesFromAnyOrder(f, profiles);
      KeysAccepted(f, profiles);
      CandidatesOwned(f, candidates);
    }

    method RecallStage(id: RunId, f: Facts, stage: RunStatus, around: Interference, profiles: seq<Profile>)
      returns (stop: Option<Outcome>, candidates: seq<Candidate>)
      requires Stands(f, id) && store.runs[id].status == stage && Build(stage) && stage != Queued
      requires HasProfiles(f, store.runs[id]) && ListsProfiles(profiles, f)
      modifies store
      ensures OnlyRun(old(store.runs), store.runs, id) && Stands(f, id) && store.runs[id].status != Active
      ensures stop.Some? ==> Early(stop.value) && (stop.value.Crashed? ==> Build(store.runs[id].status))
      ensures stop.None? ==>
                && store.runs[id].status == (if stage == Profiling then Recalling else stage)
                && HasCandidates(f, store.runs[id]) && ListsCandidates(candidates, f)
      ensures Quiet(old(store.runs)[id], f, around) ==> OnlyCrashed(stop, store.runs[id], around)
    {
      if stage == Profiling || stage == Recalling {
        candidates := [];
        stop := Advance(id, stage, Recalling, around);
        if stop.Some? {
          return;
        }
        candidates := GenerateCandidates(f, profiles);
        stop := CommitCandidates(id, Recalling, candidates, around);
        if stop.Some? {
          return;
        }
      } else {
        candidates := ListRows(store.runs[id].candidates);
        stop := None;
        ListedCandidates(f, candidates);
      }
    }

    lemma KeysAccepted(f: Facts, profiles: seq<Profile>)
      requires ListsProfiles(profiles, f)
      ensures var all := AllCandidates(f, profiles);
              DistinctIds(all) && DistinctTargets(all) <==> CandidatesKeyed(f)
    {
      var all := AllCandidates(f, profiles);
      if DistinctIds(all) && DistinctTargets(all) {
        AcceptedCandidatesKeyed(f, profiles);
      }
      if CandidatesKeyed(f) {
        KeyedCandidatesAccepted(f, profiles);
      }
    }

    lemma CandidatesOwned(f: Facts, candidates: seq<Candidate>)
      requires forall c :: c in candidates <==> c in CandidateRows(f)
      ensures Owned(ProfileRows(f), candidates)
    {
      forall i | 0 <= i < |candidates| ensures HasOwner(ProfileRows(f), candidates[i].profile) {
        assert candidates[i] in candidates;
        var p, c :| p in f.profiles && c in CandidatesFor(f, p) && c == candidates[i];
        assert p in ProfileRows(f);
      }
    }

    lemma {:induction false} KeyedCandidatesAccepted(f: Facts, profiles: seq<Profile>)
      requires CandidatesKeyed(f) && DistinctProfiles(profiles) && forall p :: p in profiles ==> p in f.profiles
      ensures DistinctIds(AllCandidates(f, profiles)) && DistinctTargets(AllCandidates(f, profiles))
    {
      if profiles != [] {
        var rest, last := profiles[..|profiles| - 1], profiles[|profiles| - 1];
        KeyedCandidatesAccepted(f, rest);
        AllCandidatesAre(f, rest);
        assert last in profiles;
        forall c, d | c in AllCandidates(f, rest) && d in CandidatesFor(f, last)
          ensures c.id != d.id && c.profile != d.profile
        {
          var p :| p in rest && c in CandidatesFor(f, p);
          assert p in profiles;
        }
      }
    }

    lemma ListedCandidates(f: Facts, candidates: seq<Candidate>)
      requires CandidatesKeyed(f) && forall c :: c in candidates <==> c in CandidateRows(f)
      requires forall i, j :: 0 <= i < j < |candidates| ==> candidates[i] != candidates[j]
      ensures ListsCandidates(candidates, f)
    {
      forall i, j | 0 <= i < j < |candidates| ensures candidates[i].id != candidates[j].id {
        KeyedCandidate(f, candidates[i], candidates[j]);
      }
    }

    lemma KeyedCandidate(f: Facts, c: Candidate, d: Candidate)
      requires CandidatesKeyed(f) && c in CandidateRows(f) && d in CandidateRows(f) && c != d
      ensures c.id != d.id
    {
      var p :| p in f.profiles && c in CandidatesFor(f, p);
      var q :| q in f.profiles && d in CandidatesFor(f, q);
      if p == q {
        assert DistinctIds(CandidatesFor(f, p));
      }
    }

    method ExtractVectors(f: Facts, profiles: seq<Profile>, candidates: seq<Candidate>) returns (vectors: seq<Vector>)
      requires HasKeys(f) && ListsProfiles(profiles, f) && ListsCandidates(candidates, f)
      ensures ListsVectors(vectors, f)
    {
      vectors := [];
      for i := 0 to |candidates|
        invariant DistinctVectors(vectors)
        invariant forall k :: 0 <= k < |vectors| ==> exists m :: 0 <= m < i && vectors[k].candidate == candidates[m].id
        invariant forall v :: v in vectors <==>
                    exists k, p :: 0 <= k < i && p in f.profiles && candidates[k] in CandidatesFor(f, p)
                                   && candidates[k].entity in f.entities && v == VectorFor(f, p, candidates[k])
      {
        var c := candidates[i];
        assert c in CandidateRows(f);
        ghost var owner :| owner in f.profiles && c in CandidatesFor(f, owner);
        var found := ProfileOf(profiles, c.profile);
        OwnerFound(f, profiles, c, owner);
        if c.entity in f.entities {
          vectors := vectors + [VectorFor(f, found.value, c)];
        }
        forall p | p in f.profiles && c in CandidatesFor(f, p) ensures p == owner {
          SameProfile(f, p, owner);
        }
      }
      VectorsFromList(f, candidates, vectors);
    }

    lemma OwnerFound(f: Facts, profiles: seq<Profile>, c: Candidate, owner: Profile)
      requires DistinctProfiles(f.profiles) && ListsProfiles(profiles, f)
      requires owner in f.profiles && c in CandidatesFor(f, owner)
      ensures ProfileOf(profiles, c.profile) == Some(owner)
    {
      var found := ProfileOf(profiles, c.profile);
      assert owner in profiles;
      SameProfile(f, found.value, owner);
    }

    lemma VectorsFromList(f: Facts, candidates: seq<Candidate>, vectors: seq<Vector>)
      requires ListsCandidates(candidates, f)
      requires forall v :: v in vectors <==>
                 exists k, p :: 0 <= k < |candidates| && p in f.profiles && candidates[k] in CandidatesFor(f, p)
                                && candidates[k].entity in f.entities && v == VectorFor(f, p, candidates[k])
      ensures forall v :: v in vectors <==> v in VectorRows(f)
    {
      forall v | v in VectorRows(f) ensures v in vectors {
        var p, c :| p in f.profiles && c in CandidatesFor(f, p) && c.entity in f.entities && v == VectorFor(f, p, c);
        assert c in CandidateRows(f);
        var k :| 0 <= k < |candidates| && candidates[k] == c;
      }
    }

    method FeatureStage(id: RunId, f: Facts, stage: RunStatus, around: Interference, profiles: seq<Profile>, candidates: seq<Candidate>)
      returns (stop: Option<Outcome>, vectors: seq<Vector>)
      requires Stands(f, id) && store.runs[id].status == stage && Build(stage) && stage != Queued && stage != Profiling
      requires HasCandidates(f, store.runs[id]) && ListsProfiles(profiles, f) && ListsCandidates(candidates, f)
      modifies store
      ensures OnlyRun(old(store.runs), store.runs, id) && Stands(f, id) && store.runs[id].status != Active
      ensures stop.Some? ==> Early(stop.value) && (stop.value.Crashed? ==> Build(store.runs[id].status))
      ensures stop.None? ==>
                && store.runs[id].status == (if stage == Recalling then Featurizing else stage)
                && HasVectors(f, store.runs[id]) && ListsVectors(vectors, f)
      ensures Quiet(old(store.runs)[id], f, around) ==> OnlyCrashed(stop, store.runs[id], around)
    {
      if stage == Recalling || stage == Featurizing {
        vectors := [];
        stop := Advance(id, stage, Featurizing, around);
        if stop.Some? {
          return;
        }
        vectors := ExtractVectors(f, profiles, candidates);
        stop := CommitFeatures(id, Featurizing, vectors, around);
        if stop.Some? {
          return;
        }
        assert Rows(vectors) == VectorRows(f);
      } else {
        vectors := ListRows(store.runs[id].vectors);
        stop := None;
        ListedVectors(f, vectors);
      }
    }

    lemma ListedVectors(f: Facts, vectors: seq<Vector>)
      requires HasKeys(f) && forall v :: v in vectors <==> v in VectorRows(f)
      requires forall i, j :: 0 <= i < j < |vectors| ==> vectors[i] != vectors[j]
      ensures ListsVectors(vectors, f)
    {
      forall i, j | 0 <= i < j < |vectors| ensures vectors[i].candidate != vectors[j].candidate {
        assert vectors[i] in vectors && vectors[j] in vectors;
        KeyedVector(f, vectors[i], vectors[j]);
      }
    }

    lemma KeyedVector(f: Facts, v: Vector, w: Vector)
      requires HasKeys(f) && v in VectorRows(f) && w in VectorRows(f) && v != w
      ensures v.candidate != w.candidate
    {
      var p, c :| p in f.profiles && c in CandidatesFor(f, p) && c.entity in f.entities && v == VectorFor(f, p, c);
      var q, d :| q in f.profiles && d in CandidatesFor(f, q) && d.entity in f.entities && w == VectorFor(f, q, d);
      if c == d {
        SameProfile(f, p, q);
      } else {
        assert c in CandidateRows(f) && d in CandidateRows(f);
        KeyedCandidate(f, c, d);
      }
    }

    method ScoreVectors(f: Facts, vectors: seq<Vector>) returns (scores: seq<Score>)
      requires ListsVectors(vectors, f)
      ensures ListsScores(scores, f)
    {
      scores := [];
      for i := 0 to |vectors|
        invariant |scores| == i && forall k :: 0 <= k < i ==> scores[k].candidate == vectors[k].candidate
        invariant forall s :: s in scores <==> exists k :: 0 <= k < i && s == ScoreFor(vectors[k])
      {
        scores := scores + [ScoreFor(vectors[i])];
      }
      forall s | s in ScoreRows(f) ensures s in scores {
        var v :| v in VectorRows(f) && s == ScoreFor(v);
        var k :| 0 <= k < |vectors| && vectors[k] == v;
      }
    }

    method BuildDecisions(f: Facts, profiles: seq<Profile>, candidates: seq<Candidate>, scores: seq<Score>)
      returns (decisions: seq<Decision>)
      requires HasKeys(f) && ListsProfiles(profiles, f)
      requires ListsCandidates(candidates, f) && ListsScores(scores, f)
      ensures |decisions| == |profiles| && forall i :: 0 <= i < |profiles| ==> decisions[i] == DecisionFor(f, profiles[i])
      ensures Rows(decisions) == DecisionRows(f)
      ensures forall i, j :: 0 <= i < j < |decisions| ==> decisions[i].profile != decisions[j].profile
    {
      decisions := [];
      for i := 0 to |profiles|
        invariant |decisions| == i && forall k :: 0 <= k < i ==> decisions[k] == DecisionFor(f, profiles[k])
      {
        var d := BuildDecision(f, profiles, candidates, scores, i);
        decisions := decisions + [d];
      }
      DecisionsFromList(f, profiles, decisions);
    }

    method BuildDecision(f: Facts, profiles: seq<Profile>, candidates: seq<Candidate>, scores: seq<Score>, i: nat)
      returns (d: Decision)
      requires HasKeys(f) && ListsProfiles(profiles, f) && i < |profiles|
      requires ListsCandidates(candidates, f) && ListsScores(scores, f)
      ensures d == DecisionFor(f, profiles[i])
    {
      var p := profiles[i];
      assert p in profiles;
      DecisionFromRows(f, candidates, scores, p);
      d := Decide(p.id, CandidatesOf(candidates, p.id), ScoresOf(scores, p.id), false, false);
    }

    lemma DecisionsFromList(f: Facts, profiles: seq<Profile>, decisions: seq<Decision>)
      requires ListsProfiles(profiles, f) && |decisions| == |profiles|
      requires forall i :: 0 <= i < |profiles| ==> decisions[i] == DecisionFor(f, profiles[i])
      ensures Rows(decisions) == DecisionRows(f)
    {
      forall d ensures d in decisions <==> d in DecisionRows(f) {
        if d in DecisionRows(f) {
          var p :| p in f.profiles && d == DecisionFor(f, p);
          assert p in profiles;
          var i :| 0 <= i < |profiles| && profiles[i] == p;
          assert decisions[i] == d;
        }
        if d in decisions {
          var i :| 0 <= i < |decisions| && decisions[i] == d;
          assert profiles[i] in profiles;
        }
      }
    }

    method SaveAllScores(id: RunId, f: Facts, stage: RunStatus, around: Interference, vectors: seq<Vector>)
      returns (stop: Option<Outcome>, scores: seq<Score>)
      requires Stands(f, id) && store.runs[id].status == stage && (stage == Featurizing || stage == Scoring)
      requires HasVectors(f, store.runs[id]) && ListsVectors(vectors, f)
      modifies store
      ensures OnlyRun(old(store.runs), store.runs, id) && Stands(f, id) && store.runs[id].status != Active
      ensures stop.Some? ==> Early(stop.value) && (stop.value.Crashed? ==> Build(store.runs[id].status))
      ensures stop.None? ==>
                && store.runs[id].status == Scoring && HasVectors(f, store.runs[id])
                && store.runs[id].scores == ScoreRows(f) && ListsScores(scores, f)
      ensures Quiet(old(store.runs)[id], f, around) ==> OnlyCrashed(stop, store.runs[id], around)
    {
      scores := [];
      stop := Advance(id, stage, Scoring, around);
      if stop.Some? {
        return;
      }
      scores := ScoreVectors(f, vectors);
      stop := CommitScores(id, Scoring, scores, around);
      assert Rows(scores) == ScoreRows(f);
    }

    method SaveAllDecisions(id: RunId, f: Facts, around: Interference, profiles: seq<Profile>, candidates: seq<Candidate>, scores: seq<Score>)
      returns (stop: Option<Outcome>, decisions: seq<Decision>)
      requires Stands(f, id) && store.runs[id].status == Scoring && HasVectors(f, store.runs[id])
      requires store.runs[id].scores == ScoreRows(f)
      requires ListsProfiles(profiles, f) && ListsCandidates(candidates, f) && ListsScores(scores, f)
      modifies store
      ensures OnlyRun(old(store.runs), store.runs, id) && Stands(f, id) && store.runs[id].status != Active
      ensures stop.Some? ==> Early(stop.value) && (stop.value.Crashed? ==> Build(store.runs[id].status))
      ensures stop.None? ==>
                && store.runs[id].status == Scoring && HasDecisions(f, store.runs[id])
                && forall d :: d in decisions <==> d in DecisionRows(f)
      ensures Quiet(old(store.runs)[id], f, around) ==> OnlyCrashed(stop, store.runs[id], around)
    {
      decisions := BuildDecisions(f, profiles, candidates, scores);
      assert forall d :: d in decisions <==> d in Rows(decisions);
      stop := CommitDecisions(id, Scoring, decisions, around);
    }

    /** Scores and decisions are saved by two transactions of the same stage. */
    method ScoreStage(id: RunId, f: Facts, stage: RunStatus, around: Interference, profiles: seq<Profile>, candidates: seq<Candidate>,
                      vectors: seq<Vector>)
      returns (stop: Option<Outcome>, decisions: seq<Decision>)
      requires Stands(f, id) && store.runs[id].status == stage && Build(stage) && Reached(stage) >= 2
      requires HasVectors(f, store.runs[id]) && ListsProfiles(profiles, f) && ListsCandidates(candidates, f)
      requires ListsVectors(vectors, f)
      modifies store
      ensures OnlyRun(old(store.runs), store.runs, id) && Stands(f, id) && store.runs[id].status != Active
      ensures stop.Some? ==> Early(stop.value) && (stop.value.Crashed? ==> Build(store.runs[id].status))
      ensures stop.None? ==>
                && store.runs[id].status == (if stage == Featurizing then Scoring else stage)
                && HasDecisions(f, store.runs[id]) && forall d :: d in decisions <==> d in DecisionRows(f)
      ensures Quiet(old(store.runs)[id], f, around) ==> OnlyCrashed(stop, store.runs[id], around)
    {
      decisions := [];
      if stage == Featurizing || stage == Scoring {
        var scores;
        stop, scores := SaveAllScores(id, f, stage, around, vectors);
        if stop.Some? {
          return;
        }
        stop, decisions := SaveAllDecisions(id, f, around, profiles, candidates, scores);
      } else {
        decisions := ListRows(store.runs[id].decisions);
        stop := None;
      }
    }

    /** The fallback keeps every decision of the scorer. */
    method Verify(f: Facts, profiles: seq<Profile>, candidates: seq<Candidate>, decisions: seq<Decision>)
      returns (final: seq<Decision>, verifications: seq<Verification>)
      requires HasKeys(f) && ListsProfiles(profiles, f) && ListsCandidates(candidates, f)
      requires forall d :: d in decisions <==> d in DecisionRows(f)
      ensures Rows(final) == DecisionRows(f) && Rows(verifications) == VerificationRows(f)
      ensures forall i, j :: 0 <= i < j < |final| ==> final[i].profile != final[j].profile
      ensures forall i, j :: 0 <= i < j < |verifications| ==> verifications[i].profile != verifications[j].profile
    {
      final, verifications := [], [];
      for i := 0 to |profiles|
        invariant |final| == i && forall k :: 0 <= k < i ==> final[k] == DecisionFor(f, profiles[k])
        invariant |verifications| == i
        invariant forall k :: 0 <= k < i ==> verifications[k] == FallbackFor(profiles[k], CandidatesFor(f, profiles[k]))
      {
        assert profiles[i] in profiles;
        var d, v := VerifyOne(f, profiles[i], candidates, decisions);
        final, verifications := final + [d], verifications + [v];
      }
      DecisionsFromList(f, profiles, final);
      VerificationsFromList(f, profiles, verifications);
    }

    method VerifyOne(f: Facts, p: Profile, candidates: seq<Candidate>, decisions: seq<Decision>)
      returns (d: Decision, v: Verification)
      requires HasKeys(f) && p in f.profiles && ListsCandidates(candidates, f)
      requires forall d :: d in decisions <==> d in DecisionRows(f)
      ensures d == DecisionFor(f, p) && v == FallbackFor(p, CandidatesFor(f, p))
    {
      TheDecision(f, decisions, p);
      FallbackFromRows(f, candidates, p);
      d, v := DecisionOf(decisions, p.id).value, FallbackFor(p, CandidatesOf(candidates, p.id));
    }

    lemma VerificationsFromList(f: Facts, profiles: seq<Profile>, verifications: seq<Verification>)
      requires ListsProfiles(profiles, f) && |verifications| == |profiles|
      requires forall k :: 0 <= k < |profiles| ==>
                 verifications[k] == FallbackFor(profiles[k], CandidatesFor(f, profiles[k]))
      ensures Rows(verifications) == VerificationRows(f)
    {
      forall v ensures v in verifications <==> v in VerificationRows(f) {
        if v in VerificationRows(f) {
          var p :| p in f.profiles && v == FallbackFor(p, CandidatesFor(f, p));
          assert p in profiles;
          var i :| 0 <= i < |profiles| && profiles[i] == p;
          assert verifications[i] == v;
        }
        if v in verifications {
          var i :| 0 <= i < |verifications| && verifications[i] == v;
          assert profiles[i] in profiles;
        }
      }
    }

    /** decision_by_profile: the last decision listed for a profile. */
    function DecisionOf(decisions: seq<Decision>, profile: Id): (found: Option<Decision>)
      ensures found.Some? ==> found.value in decisions && found.value.profile == profile
      ensures found.None? ==> forall i :: 0 <= i < |decisions| ==> decisions[i].profile != profile
    {
      if decisions == [] then None
      else
        var last := |decisions| - 1;
        if decisions[last].profile == profile then Some(decisions[last]) else DecisionOf(decisions[..last], profile)
    }

    lemma TheDecision(f: Facts, decisions: seq<Decision>, p: Profile)
      requires DistinctProfiles(f.profiles) && p in f.profiles
      requires forall d :: d in decisions <==> d in DecisionRows(f)
      ensures DecisionOf(decisions, p.id) == Some(DecisionFor(f, p))
    {
      assert DecisionFor(f, p) in DecisionRows(f);
      var d := DecisionOf(decisions, p.id).value;
      var q :| q in f.profiles && d == DecisionFor(f, q);
      SameProfile(f, p, q);
    }

    method VerifyStage(id: RunId, f: Facts, stage: RunStatus, around: Interference, profiles: seq<Profile>, candidates: seq<Candidate>,
                       decisions: seq<Decision>)
      returns (stop: Option<Outcome>)
      requires Stands(f, id) && store.runs[id].status == stage && (stage == Scoring || stage == Verifying)
      requires HasDecisions(f, store.runs[id]) && ListsProfiles(profiles, f) && ListsCandidates(candidates, f)
      requires forall d :: d in decisions <==> d in DecisionRows(f)
      modifies store
      ensures OnlyRun(old(store.runs), store.runs, id) && Stands(f, id) && store.runs[id].status != Active
      ensures stop.Some? ==> Early(stop.value) && (stop.value.Crashed? ==> Build(store.runs[id].status))
      ensures stop.None? ==>
                && store.runs[id].status == Verifying && HasDecisions(f, store.runs[id])
                && store.runs[id].verifications == VerificationRows(f)
      ensures Quiet(old(store.runs)[id], f, around) ==> OnlyCrashed(stop, store.runs[id], around)
    {
      stop := Advance(id, stage, Verifying, around);
      if stop.Some? {
        return;
      }
      var final, verifications := Verify(f, profiles, candidates, decisions);
      stop := CommitDecisions(id, Verifying, final, around);
      if stop.Some? {
        return;
      }
      var crashed := Strikes(around);
      if crashed {
        return Some(Crashed);
      }
      var saved := store.SaveVerifications(id, verifications);
    }

    /** The tables of this run are those of the plan, and it is the active run of its key. */
    ghost predicate Finished(f: Facts, id: RunId)
      reads store
    {
      id in store.runs && store.runs[id].status == Active && HasAll(f, store.runs[id])
    }

    method FinishRun(id: RunId, f: Facts, stage: RunStatus, around: Interference) returns (outcome: Outcome)
      requires Stands(f, id) && store.runs[id].status == stage
      requires stage == Scoring || stage == Verifying || stage == Ready
      requires HasAll(f, store.runs[id]) && OneActive(store.runs)
      modifies store
      ensures Stands(f, id) && OneActive(store.runs) && OthersKept(old(store.runs), store.runs, id)
      ensures if outcome == Activated then Finished(f, id) else Early(outcome)
      ensures Quiet(old(store.runs)[id], f, around) ==>
                outcome == Activated || (outcome == Crashed && !around.Calm? && !store.runs[id].cancelRequested)
      ensures outcome == Crashed ==> Build(store.runs[id].status)
    {
      var stop := StageCommitGuard(id, stage, around);
      OnlyRunKeepsOne(old(store.runs), store.runs, id);
      if stop.Some? {
        return stop.value;
      }
      ActivateRun(id, f, around);
      outcome := Activated;
    }

    /** Activation does not look at the cancellation flag: a request this late comes to nothing. */
    method ActivateRun(id: RunId, f: Facts, around: Interference)
      requires id in store.runs && HasAll(f, store.runs[id]) && OneActive(store.runs)
      requires store.runs[id].status.Scoring? || store.runs[id].status.Verifying? || store.runs[id].status.Ready?
      modifies store
      ensures Finished(f, id) && OneActive(store.runs) && OthersKept(old(store.runs), store.runs, id)
    {
      var cancelled := Disturbs(around);
      if cancelled {
        var requested := store.RequestCancel(id);
      }
      EveryProfileDecided(f);
      var r := store.MarkReadyAndActivate(id);
    }

    /** The other runs are as they were, except that an active one may be superseded. */
    ghost predicate OthersKept(before: map<RunId, Run>, after: map<RunId, Run>, id: RunId) {
      after.Keys == before.Keys && forall k :: k in before && k != id ==>
        after[k] == before[k] || (before[k].status == Active && after[k] == before[k].(status := Superseded))
    }

    /** The first three stages, each resuming where the status says. */
    method BuildFeatures(id: RunId, f: Facts, stage: RunStatus, around: Interference)
      returns (stop: Option<Outcome>, profiles: seq<Profile>, candidates: seq<Candidate>, vectors: seq<Vector>)
      requires Stands(f, id) && store.runs[id].status == stage && Build(stage) && stage != Ready
      modifies store
      ensures OnlyRun(old(store.runs), store.runs, id) && Stands(f, id) && store.runs[id].status != Active
      ensures stop.Some? ==> Early(stop.value) && (stop.value.Crashed? ==> Build(store.runs[id].status))
      ensures stop.None? ==>
                && HasVectors(f, store.runs[id]) && Build(store.runs[id].status)
                && 2 <= Reached(store.runs[id].status) && store.runs[id].status != Ready
                && ListsProfiles(profiles, f) && ListsCandidates(candidates, f) && ListsVectors(vectors, f)
      ensures Quiet(old(store.runs)[id], f, around) ==> OnlyCrashed(stop, store.runs[id], around)
    {
      candidates, vectors := [], [];
      stop, profiles := ProfileStage(id, f, stage, around);
      if stop.Some? {
        return;
      }
      stop, candidates := RecallStage(id, f, store.runs[id].status, around, profiles);
      if stop.Some? {
        return;
      }
      stop, vectors := FeatureStage(id, f, store.runs[id].status, around, profiles, candidates);
    }

    /** The stages in order. */
    method BuildTables(id: RunId, f: Facts, stage: RunStatus, around: Interference) returns (stop: Option<Outcome>)
      requires Stands(f, id) && store.runs[id].status == stage && Build(stage) && stage != Ready
      modifies store
      ensures OnlyRun(old(store.runs), store.runs, id) && Stands(f, id) && store.runs[id].status != Active
      ensures stop.Some? ==> Early(stop.value) && (stop.value.Crashed? ==> Build(store.runs[id].status))
      ensures stop.None? ==>
                && HasAll(f, store.runs[id])
                && (store.runs[id].status == Scoring || store.runs[id].status == Verifying)
      ensures Quiet(old(store.runs)[id], f, around) ==> OnlyCrashed(stop, store.runs[id], around)
    {
      var profiles, candidates, vectors, decisions;
      stop, profiles, candidates, vectors := BuildFeatures(id, f, stage, around);
      if stop.Some? {
        return;
      }
      stop, decisions := ScoreStage(id, f, store.runs[id].status, around, profiles, candidates, vectors);
      if stop.Some? {
        return;
      }
      if store.runs[id].verifierEnabled {
        stop := VerifyStage(id, f, store.runs[id].status, around, profiles, candidates, decisions);
      }
    }

    /** One call. However it ends the saved work stands; if it ends by activating the run,
        the tables are those of the plan, whatever calls came before it. */
    method ProcessRun(id: RunId, f: Facts, around: Interference) returns (outcome: Outcome)
      requires id in store.runs ==> Build(store.runs[id].status) && Progress(f, store.runs[id])
      requires OneActive(store.runs)
      modifies store
      ensures id !in old(store.runs) ==> outcome == RunMissing && store.runs == old(store.runs)
      ensures id in old(store.runs) ==>
                Stands(f, id) && if outcome == Activated then Finished(f, id) else Early(outcome)
      ensures OneActive(store.runs) && OthersKept(old(store.runs), store.runs, id)
      ensures id in old(store.runs) && !around.Anything? && old(store.runs)[id].cancelRequested ==>
                outcome == CancelledRun || (outcome == Crashed && !around.Calm?)
      ensures id in old(store.runs) && Quiet(old(store.runs)[id], f, around) ==>
                outcome == Activated || (outcome == Crashed && !around.Calm? && !store.runs[id].cancelRequested)
      ensures id in old(store.runs) && outcome == Crashed ==> Build(store.runs[id].status)
    {
      if id !in store.runs {
        return RunMissing;
      }
      var stage := store.runs[id].status;
      if store.runs[id].cancelRequested {
        var crashed := Strikes(around);
        if crashed {
          return Crashed;
        }
        var r := store.UpdateStatus(id, Cancelled, {stage});
        OnlyRunKeepsOne(old(store.runs), store.runs, id);
        return CancelledRun;
      }
      if stage != Ready {
        var stop := BuildTables(id, f, stage, around);
        OnlyRunKeepsOne(old(store.runs), store.runs, id);
        if stop.Some? {
          return stop.value;
        }
      }
      outcome := FinishRun(id, f, store.runs[id].status, around);
    }

    /** Any number of calls, cut off in turn, then a calm one. Nothing shows how often the run
        was interrupted: crashes alone always end exactly as planned, and with cancellations
        and exceptions around the run is cancelled, failed, or ends as planned as well. */
    method ProcessRepeatedly(id: RunId, f: Facts, cuts: nat, around: Interference) returns (outcome: Outcome)
      requires id in store.runs && Build(store.runs[id].status) && Progress(f, store.runs[id])
      requires OneActive(store.runs)
      modifies store
      ensures Stands(f, id) && OneActive(store.runs)
      ensures outcome == Activated ==> Finished(f, id)
      ensures HasKeys(f) ==> outcome == Activated || outcome == CancelledRun || outcome == FailedRun
      ensures Quiet(old(store.runs)[id], f, around) ==> outcome == Activated && Finished(f, id)
    {
      ghost var quiet := Quiet(store.runs[id], f, around);
      outcome := Crashed;
      for n := 0 to cuts
        invariant Stands(f, id) && OneActive(store.runs)
        invariant if outcome == Activated then Finished(f, id) else Early(outcome)
        invariant outcome == Crashed ==> Build(store.runs[id].status)
        invariant quiet ==> outcome == Activated || (outcome == Crashed && !store.runs[id].cancelRequested)
      {
        if outcome == Crashed {
          outcome := ProcessRun(id, f, around);
        }
      }
      if outcome == Crashed {
        outcome := ProcessRun(id, f, Calm);
      }
    }
  }
}
