/** The alignment store: one transaction per method, tables replaced as a whole. */
module AlignmentStorage {
  import opened Wrappers
  import opened AlignmentScorer
  import opened AlignmentPlan

  type RunId = nat

  datatype RunStatus =
    | Queued | Profiling | Recalling | Featurizing | Scoring | Verifying | Ready
    | Active | Failed | Cancelled | Superseded

  datatype RunKey = RunKey(repo: string, index: string, paper: string, modelProfile: string)

  datatype Run = Run(
    key: RunKey,
    verifierEnabled: bool,
    status: RunStatus,
    cancelRequested: bool,
    profiles: set<Profile>,
    candidates: set<Candidate>,
    vectors: set<Vector>,
    scores: set<Score>,
    decisions: set<Decision>,
    verifications: set<Verification>)

  datatype StoreError =
    | RunNotFound | InvalidTransition | CancelNotAllowed | NotReady | IntegrityError | AlignmentCancelled

  predicate Build(s: RunStatus) {
    s.Queued? || s.Profiling? || s.Recalling? || s.Featurizing? || s.Scoring? || s.Verifying? || s.Ready?
  }

  /** Only the row of one run changed, and not what it was created for. */
  ghost predicate OnlyRun(before: map<RunId, Run>, after: map<RunId, Run>, id: RunId) {
    && before.Keys == after.Keys
    && (forall k :: k in before && k != id ==> after[k] == before[k])
    && (id in before ==> after[id].key == before[id].key && after[id].verifierEnabled == before[id].verifierEnabled)
  }

  /** At most one active run for each key. */
  ghost predicate OneActive(runs: map<RunId, Run>) {
    forall i, j ::
      (i in runs && j in runs && runs[i].status == Active && runs[j].status == Active && runs[i].key == runs[j].key)
      ==> i == j
  }

  lemma OnlyRunKeepsOne(before: map<RunId, Run>, after: map<RunId, Run>, id: RunId)
    requires OneActive(before) && OnlyRun(before, after, id) && id in before && after[id].status != Active
    ensures OneActive(after)
  {
  }

  /** Superseding the active runs of a key leaves room for exactly one. */
  function Activate(runs: map<RunId, Run>, id: RunId): (after: map<RunId, Run>)
    requires id in runs
    ensures after.Keys == runs.Keys
  {
    (map k | k in runs :: if runs[k].key == runs[id].key && runs[k].status == Active
                          then runs[k].(status := Superseded) else runs[k])
    [id := runs[id].(status := Active)]
  }

  lemma ActivateKeepsOne(runs: map<RunId, Run>, id: RunId)
    requires id in runs && OneActive(runs)
    ensures OneActive(Activate(runs, id))
    ensures forall k :: k in runs && k != id ==>
              if runs[k].status == Active && runs[k].key == runs[id].key
              then Activate(runs, id)[k] == runs[k].(status := Superseded) else Activate(runs, id)[k] == runs[k]
    ensures Activate(runs, id)[id] == runs[id].(status := Active)
  {
  }

  class AlignmentStore {
    var runs: map<RunId, Run>

    constructor ()
      ensures runs == map[]
    {
      runs := map[];
    }

    method UpdateStatus(id: RunId, status: RunStatus, allowedFrom: set<RunStatus>) returns (r: Result<(), StoreError>)
      modifies this
      ensures id !in old(runs) ==> r == Err(RunNotFound) && runs == old(runs)
      ensures id in old(runs) && old(runs)[id].status in allowedFrom ==>
                r.Ok? && runs == old(runs)[id := old(runs)[id].(status := status)]
      ensures id in old(runs) && old(runs)[id].status !in allowedFrom ==>
                runs == old(runs)
                && r == if old(runs)[id].status == status then Ok(()) else Err(InvalidTransition)
    {
      if id !in runs {
        return Err(RunNotFound);
      }
      if runs[id].status in allowedFrom {
        runs := runs[id := runs[id].(status := status)];
        return Ok(());
      }
      r := if runs[id].status == status then Ok(()) else Err(InvalidTransition);
    }

    method RequestCancel(id: RunId) returns (r: Result<(), StoreError>)
      modifies this
      ensures id in old(runs) && Build(old(runs)[id].status) && old(runs)[id].status != Ready ==>
                r.Ok? && runs == old(runs)[id := old(runs)[id].(cancelRequested := true)]
      ensures !(id in old(runs) && Build(old(runs)[id].status) && old(runs)[id].status != Ready) ==> runs == old(runs)
    {
      if id !in runs {
        return Err(RunNotFound);
      }
      match runs[id].status
      case Ready => return Err(CancelNotAllowed);
      case Active => return Err(CancelNotAllowed);
      case Superseded => return Err(CancelNotAllowed);
      case Failed => return Ok(());
      case Cancelled => return Ok(());
      case _ =>
        runs := runs[id := runs[id].(cancelRequested := true)];
        return Ok(());
    }

    // Replacing a table deletes its rows first, and the delete cascades along the foreign
    // keys: candidates and decisions hang on profiles, vectors and scores on candidates.
    // An insert that breaks a primary key rolls the whole transaction back.

    method SaveProfiles(id: RunId, profiles: seq<Profile>) returns (ok: bool)
      requires id in runs
      modifies this
      ensures ok <==> DistinctProfiles(profiles)
      ensures runs == if !ok then old(runs)
                      else old(runs)[id := old(runs)[id].(profiles := Rows(profiles), candidates := {},
                                                          vectors := {}, scores := {}, decisions := {})]
    {
      ok := forall i, j :: 0 <= i < j < |profiles| ==> profiles[i].id != profiles[j].id;
      if ok {
        runs := runs[id := runs[id].(profiles := Rows(profiles), candidates := {},
                                     vectors := {}, scores := {}, decisions := {})];
      }
    }

    /** Unique ids, unique pairs of profile and entity, and a stored profile for each row. */
    method SaveCandidates(id: RunId, candidates: seq<Candidate>) returns (ok: bool)
      requires id in runs
      modifies this
      ensures ok <==> DistinctIds(candidates) && DistinctTargets(candidates) && Owned(old(runs)[id].profiles, candidates)
      ensures runs == if !ok then old(runs)
                      else old(runs)[id := old(runs)[id].(candidates := Rows(candidates),
                                                          vectors := {}, scores := {})]
    {
      var owners := set p | p in runs[id].profiles :: p.id;
      ok := (forall i, j :: 0 <= i < j < |candidates| ==>
               candidates[i].id != candidates[j].id
               && (candidates[i].profile != candidates[j].profile || candidates[i].entity != candidates[j].entity))
            && forall i :: 0 <= i < |candidates| ==> candidates[i].profile in owners;
      if ok {
        runs := runs[id := runs[id].(candidates := Rows(candidates), vectors := {}, scores := {})];
      }
    }

    method SaveFeatures(id: RunId, vectors: seq<Vector>) returns (ok: bool)
      requires id in runs
      modifies this
      ensures ok <==> forall i, j :: 0 <= i < j < |vectors| ==> vectors[i].candidate != vectors[j].candidate
      ensures runs == if !ok then old(runs)
                      else old(runs)[id := old(runs)[id].(vectors := Rows(vectors))]
    {
      ok := forall i, j :: 0 <= i < j < |vectors| ==> vectors[i].candidate != vectors[j].candidate;
      if ok {
        runs := runs[id := runs[id].(vectors := Rows(vectors))];
      }
    }

    method SaveScores(id: RunId, scores: seq<Score>) returns (ok: bool)
      requires id in runs
      modifies this
      ensures ok <==> DistinctCandidates(scores)
      ensures runs == if !ok then old(runs)
                      else old(runs)[id := old(runs)[id].(scores := Rows(scores))]
    {
      ok := forall i, j :: 0 <= i < j < |scores| ==> scores[i].candidate != scores[j].candidate;
      if ok {
        runs := runs[id := runs[id].(scores := Rows(scores))];
      }
    }

    method SaveDecisions(id: RunId, decisions: seq<Decision>) returns (ok: bool)
      requires id in runs
      modifies this
      ensures ok <==> forall i, j :: 0 <= i < j < |decisions| ==> decisions[i].profile != decisions[j].profile
      ensures runs == if !ok then old(runs)
                      else old(runs)[id := old(runs)[id].(decisions := Rows(decisions))]
    {
      ok := forall i, j :: 0 <= i < j < |decisions| ==> decisions[i].profile != decisions[j].profile;
      if ok {
        runs := runs[id := runs[id].(decisions := Rows(decisions))];
      }
    }

    method SaveVerifications(id: RunId, items: seq<Verification>) returns (ok: bool)
      requires id in runs
      modifies this
      ensures ok <==> forall i, j :: 0 <= i < j < |items| ==> items[i].profile != items[j].profile
      ensures runs == if !ok then old(runs)
                      else old(runs)[id := old(runs)[id].(verifications := Rows(items))]
    {
      ok := forall i, j :: 0 <= i < j < |items| ==> items[i].profile != items[j].profile;
      if ok {
        runs := runs[id := runs[id].(verifications := Rows(items))];
      }
    }

    method MarkReadyAndActivate(id: RunId) returns (r: Result<(), StoreError>)
      modifies this
      ensures OneActive(old(runs)) ==> OneActive(runs)
      ensures r.Err? ==> runs == old(runs)
      ensures r.Ok? ==> id in old(runs) && runs == Activate(old(runs), id)
      ensures id in old(runs) && (old(runs)[id].status.Scoring? || old(runs)[id].status.Verifying?
                                  || old(runs)[id].status.Ready?) ==>
                (r.Ok? <==> |old(runs)[id].profiles| == |old(runs)[id].decisions|)
    {
      if id !in runs || !(runs[id].status.Scoring? || runs[id].status.Verifying? || runs[id].status.Ready?) {
        return Err(NotReady);
      }
      if |runs[id].profiles| != |runs[id].decisions| {
        return Err(IntegrityError);
      }
      if OneActive(runs) {
        ActivateKeepsOne(runs, id);
      }
      runs := Activate(runs, id);
      r := Ok(());
    }
  }

  /** Reading a table back gives its rows in some order; here it may be any. */
  method ListRows<T(==)>(rows: set<T>) returns (list: seq<T>)
    ensures forall x :: x in list <==> x in rows
    ensures forall i, j :: 0 <= i < j < |list| ==> list[i] != list[j]
  {
    list := [];
    var left := rows;
    while left != {}
      invariant left <= rows
      invariant forall x :: x in list <==> x in rows && x !in left
      invariant forall i, j :: 0 <= i < j < |list| ==> list[i] != list[j]
      decreases |left|
    {
      var x :| x in left;
      list, left := list + [x], left - {x};
    }
  }
}
