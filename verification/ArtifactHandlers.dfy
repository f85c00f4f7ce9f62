/** The handlers that publish, delete and clean up artifacts, with every other handler
    running in between and exceptions striking at any point. */
module ArtifactHandlers {
  import opened Wrappers
  import opened ArtifactProtocol

  /** A step of the publication of artifact id. */
  predicate Mine(step: Step, id: ArtifactId) {
    step == Move(id) || step == Abort(id)
    || (step.SaveNext? && step.id == id) || (step.Publish? && step.id == id) || (step.SaveFailure? && step.id == id)
  }

  predicate Foreign(trace: seq<Step>, id: ArtifactId) {
    forall i :: 0 <= i < |trace| ==> !Mine(trace[i], id)
  }

  /** What the steps of the others leave of a publication under way. */
  ghost predicate LeftToMe(s: State, after: State, id: ArtifactId)
    requires id < |s.publications|
  {
    && |s.publications| <= |after.publications| && after.publications[id] == s.publications[id]
    && (id !in s.records ==> id !in after.records)
    && (id in s.records && !Published(s.records[id].status) ==>
          id in after.records && after.records[id] == s.records[id])
    && (id in s.records && Published(s.records[id].status) ==>
          id in after.records && Published(after.records[id].status))
    && (StagingKey(id) !in s.files ==> StagingKey(id) !in after.files)
  }

  lemma ForeignStep(s: State, step: Step, id: ArtifactId)
    requires Sound(s) && id < |s.publications| && !Mine(step, id)
    ensures LeftToMe(s, Apply(s, step), id)
  {
  }

  lemma {:induction false} ForeignRun(s: State, trace: seq<Step>, id: ArtifactId)
    requires Sound(s) && id < |s.publications| && Foreign(trace, id)
    ensures Sound(Run(s, trace)) && LeftToMe(s, Run(s, trace), id)
    decreases |trace|
  {
    if trace != [] {
      ForeignStep(s, trace[0], id);
      StepSound(s, trace[0]);
      ForeignRun(Apply(s, trace[0]), trace[1..], id);
    }
  }

  /** How far the publication of artifact id has come, as its own process knows it. */
  ghost predicate At(s: State, id: ArtifactId, content: Bytes, persisted: Option<Status>, finalized: bool) {
    && id < |s.publications|
    && s.publications[id] == Publication(Sha256(content), |content|, persisted, finalized, false)
    && (persisted.None? ==> id !in s.records)
    && (persisted.Some? ==> !Published(persisted.value) && id in s.records && s.records[id].status == persisted.value)
  }

  /** A publication that has not been given up: no failure is recorded, and what its process noted
      is there. */
  ghost predicate Underway(s: State, id: ArtifactId) {
    && id < |s.publications|
    && (id in s.records ==> !s.records[id].status.Orphaned? && !s.records[id].status.Rejected?)
    && (s.publications[id].persisted.Some? ==> id in s.records)
    && (s.publications[id].persisted.None? && id in s.records ==> s.records[id].status == Staging)
  }

  lemma LeftUnderway(s: State, after: State, id: ArtifactId)
    requires id < |s.publications| && LeftToMe(s, after, id) && Underway(s, id)
    ensures Underway(after, id)
  {
  }

  /** What a publication that failed leaves: its staged file is gone, and a record that its process
      knew of and that was not published is orphaned. */
  ghost predicate GivenUp(s: State, id: ArtifactId) {
    && id < |s.publications| && StagingKey(id) !in s.files
    && (id in s.records ==>
          || Published(s.records[id].status) || s.records[id].status == Orphaned
          || (s.records[id].status == Staging && s.publications[id].persisted.None?))
  }

  lemma StageEffect(s: State, content: Bytes)
    requires Sound(s)
    ensures var after, id := Apply(s, Stage(content)), |s.publications|;
            At(after, id, content, None, false) && StagingKey(id) in after.files && Underway(after, id)
  {
  }

  lemma SaveEffect(s: State, id: ArtifactId, content: Bytes, persisted: Option<Status>, noticed: bool)
    requires At(s, id, content, persisted, false) && NextStatus(persisted).Some?
    ensures var after := Apply(s, SaveNext(id, noticed));
            && |after.publications| == |s.publications| && after.files == s.files && Underway(after, id)
            && (noticed ==> At(after, id, content, NextStatus(persisted), false))
            && (!noticed ==> after.publications[id].aborting)
  {
  }

  lemma MoveEffect(s: State, id: ArtifactId, content: Bytes)
    requires Sound(s) && At(s, id, content, Some(Validating), false)
    ensures var after := Apply(s, Move(id));
            && |after.publications| == |s.publications| && Underway(after, id)
            && (after.publications[id].aborting || At(after, id, content, Some(Validating), true))
            && (StagingKey(id) in s.files ==> At(after, id, content, Some(Validating), true))
  {
  }

  lemma PublishEffect(s: State, id: ArtifactId, content: Bytes, noticed: bool)
    requires Sound(s) && At(s, id, content, Some(Validating), true)
    ensures var after := Apply(s, Publish(id, noticed));
            && id in after.records && after.records[id].status == Available
            && |after.publications| == |s.publications| && Underway(after, id)
            && (noticed ==> after.publications[id] == s.publications[id])
            && (!noticed ==> after.publications[id].aborting)
            && StorageKey(id) in after.files && after.files[StorageKey(id)] == content
  {
    StepSound(s, Publish(id, noticed));
    var after := Apply(s, Publish(id, noticed));
    assert after.records[id].status == Available;
    AvailableIsStored(after, id);
  }

  lemma LeftAt(s: State, after: State, id: ArtifactId, content: Bytes, persisted: Option<Status>, finalized: bool)
    requires id < |s.publications| && LeftToMe(s, after, id) && At(s, id, content, persisted, finalized)
    ensures At(after, id, content, persisted, finalized)
  {
  }

  /** A deletion under way, before or after its file was removed. */
  ghost predicate Deleting(s: State, id: ArtifactId, removed: bool) {
    && id in s.records && s.records[id].status == DeletionRequested && id in s.deleting
    && (removed ==> StorageKey(id) !in s.files)
  }

  /** Nobody else finishes a deletion or brings its file back. */
  lemma DeletingStep(s: State, step: Step, id: ArtifactId, removed: bool)
    requires Sound(s) && Deleting(s, id, removed) && step != ConfirmDeletion(id)
    ensures Deleting(Apply(s, step), id, removed)
  {
    DeletionStuckStep(s, step, id);
  }

  lemma {:induction false} DeletingRun(s: State, trace: seq<Step>, id: ArtifactId, removed: bool)
    requires Sound(s) && Deleting(s, id, removed) && ConfirmDeletion(id) !in trace
    ensures Sound(Run(s, trace)) && Deleting(Run(s, trace), id, removed)
    decreases |trace|
  {
    if trace != [] {
      assert trace[0] in trace;
      StepSound(s, trace[0]);
      DeletingStep(s, trace[0], id, removed);
      DeletingRun(Apply(s, trace[0]), trace[1..], id, removed);
    }
  }

  lemma RequestEffect(s: State, id: ArtifactId)
    requires Sound(s) && id in s.records && s.records[id].status == Available
    ensures Deleting(Apply(s, RequestDeletion(id)), id, false)
  {
  }

  lemma RemoveEffect(s: State, id: ArtifactId)
    requires Deleting(s, id, false)
    ensures Deleting(Apply(s, RemoveFile(id)), id, true)
  {
  }

  lemma ConfirmEffect(s: State, id: ArtifactId)
    requires Deleting(s, id, true)
    ensures var after := Apply(s, ConfirmDeletion(id));
            id in after.records && after.records[id].status == Deleted && StorageKey(id) !in after.files
  {
  }

  /** How a deletion ends: done, cut off, or with the error it raises. */
  datatype DeletionEnd =
    | DeletionDone | CutOff
    | ArtifactNotFound | ArtifactNotDeletable | ArtifactNotAvailable | ArtifactHashMismatch | InvalidArtifactTransition

  class ArtifactHandlers {
    var state: State

    constructor ()
      ensures state == Empty
    {
      state := Empty;
    }

    method Take(step: Step)
      requires Sound(state)
      modifies this
      ensures state == Apply(old(state), step) && Sound(state)
    {
      StepSound(state, step);
      state := Apply(state, step);
    }

    method Strikes(calm: bool) returns (strikes: bool)
      ensures calm ==> !strikes
    {
      if calm {
        return false;
      }
      strikes := *;
    }

    /** Any steps of the other processes. */
    method Others(id: ArtifactId, calm: bool)
      requires Sound(state) && id < |state.publications|
      modifies this
      ensures Sound(state) && LeftToMe(old(state), state, id)
      ensures calm ==> state == old(state)
    {
      var trace: seq<Step> := *;
      if !calm && Foreign(trace, id) {
        ForeignRun(state, trace, id);
        state := Run(state, trace);
      }
    }

    /** Saves the next record of the publication. */
    method SaveRecord(id: ArtifactId, ghost content: Bytes, ghost persisted: Option<Status>, calm: bool)
      returns (failed: bool)
      requires Sound(state) && At(state, id, content, persisted, false) && NextStatus(persisted).Some?
      modifies this
      ensures Sound(state) && Underway(state, id)
      ensures !failed ==> At(state, id, content, NextStatus(persisted), false)
      ensures calm ==> !failed && state.files == old(state.files)
    {
      var struck := Strikes(calm);
      SaveEffect(state, id, content, persisted, !struck);
      Take(SaveNext(id, !struck));
      failed := state.publications[id].aborting;
      ghost var mine := state;
      Others(id, calm);
      LeftUnderway(mine, state, id);
      if !failed {
        LeftAt(mine, state, id, content, NextStatus(persisted), false);
      }
    }

    /** Staging, quarantined, validating: the records saved before the file is moved. */
    method SaveRecords(id: ArtifactId, ghost content: Bytes, calm: bool) returns (failed: bool)
      requires Sound(state) && At(state, id, content, None, false)
      modifies this
      ensures Sound(state) && Underway(state, id)
      ensures !failed ==> At(state, id, content, Some(Validating), false)
      ensures calm ==> !failed && state.files == old(state.files)
    {
      failed := SaveRecord(id, content, None, calm);
      if !failed {
        failed := SaveRecord(id, content, Some(Staging), calm);
      }
      if !failed {
        failed := SaveRecord(id, content, Some(Quarantined), calm);
      }
    }

    /** Moves the file into place and makes the record available. */
    method MoveAndPublish(id: ArtifactId, ghost content: Bytes, calm: bool) returns (failed: bool)
      requires Sound(state) && At(state, id, content, Some(Validating), false)
      modifies this
      ensures Sound(state) && Underway(state, id)
      ensures !failed ==>
                && id in state.records && state.records[id].status == Available
                && StorageKey(id) in state.files && state.files[StorageKey(id)] == content
      ensures calm && StagingKey(id) in old(state.files) ==> !failed
    {
      MoveEffect(state, id, content);
      Take(Move(id));
      failed := state.publications[id].aborting;
      ghost var mine := state;
      Others(id, calm);
      LeftUnderway(mine, state, id);
      if !failed {
        LeftAt(mine, state, id, content, Some(Validating), true);
        failed := Strikes(calm);
        PublishEffect(state, id, content, !failed);
        Take(Publish(id, !failed));
      }
    }

    /** Publishes content under a fresh id. When it returns an id, the artifact was available
        at that moment with exactly this content; whatever goes wrong, nothing available is
        ever unreadable. */
    method PublishFile(content: Bytes, calm: bool) returns (published: Option<ArtifactId>)
      requires Sound(state)
      modifies this
      ensures Sound(state)
      ensures published.Some? ==>
                && published.value == |old(state.publications)|
                && published.value in state.records && state.records[published.value].status == Available
                && StorageKey(published.value) in state.files
                && state.files[StorageKey(published.value)] == content
      ensures published.None? ==> GivenUp(state, |old(state.publications)|)
      ensures calm ==> published.Some?
    {
      var id := |state.publications|;
      StageEffect(state, content);
      Take(Stage(content));
      ghost var mine := state;
      Others(id, calm);
      LeftAt(mine, state, id, content, None, false);
      LeftUnderway(mine, state, id);
      var failed := Strikes(calm);
      if !failed {
        failed := SaveRecords(id, content, calm);
      }
      if !failed {
        failed := Strikes(calm);
      }
      if !failed {
        failed := MoveAndPublish(id, content, calm);
      }
      if failed {
        CleanUp(id, calm);
        return None;
      }
      published := Some(id);
    }

    /** The exception handler of a publication: the staged file goes, and an unpublished record that
        the process knows of is orphaned. */
    method CleanUp(id: ArtifactId, calm: bool)
      requires Sound(state) && Underway(state, id)
      modifies this
      ensures Sound(state) && GivenUp(state, id)
    {
      AbortEffect(state, id);
      Take(Abort(id));
      ghost var mine := state;
      Others(id, calm);
      LeftUnderway(mine, state, id);
      FailureEffect(state, id);
      Take(SaveFailure(id, Orphaned));
    }

    lemma AbortEffect(s: State, id: ArtifactId)
      requires Underway(s, id)
      ensures var after := Apply(s, Abort(id));
              Underway(after, id) && after.publications[id].aborting && StagingKey(id) !in after.files
    {
    }

    lemma FailureEffect(s: State, id: ArtifactId)
      requires Sound(s) && Underway(s, id) && s.publications[id].aborting && StagingKey(id) !in s.files
      ensures GivenUp(Apply(s, SaveFailure(id, Orphaned)), id)
    {
    }

    /** Any steps of the other processes while this one deletes; only this one confirms that. */
    method OthersWhileDeleting(id: ArtifactId, ghost removed: bool, calm: bool)
      requires Sound(state) && Deleting(state, id, removed)
      modifies this
      ensures Sound(state) && Deleting(state, id, removed)
    {
      var trace: seq<Step> := *;
      if !calm && ConfirmDeletion(id) !in trace {
        DeletingRun(state, trace, id, removed);
        state := Run(state, trace);
      }
    }

    /** The record was marked; now the file goes, and the record is marked again. */
    method RemoveArtifact(id: ArtifactId, calm: bool) returns (deleted: bool)
      requires Sound(state) && Deleting(state, id, false)
      modifies this
      ensures Sound(state) && id in state.records
      ensures if deleted then state.records[id].status == Deleted && StorageKey(id) !in state.files
              else state.records[id].status == DeletionRequested
      ensures calm ==> deleted
    {
      OthersWhileDeleting(id, false, calm);
      var struck := Strikes(calm);
      if struck {
        return false;
      }
      RemoveEffect(state, id);
      Take(RemoveFile(id));
      OthersWhileDeleting(id, true, calm);
      struck := Strikes(calm);
      if struck {
        return false;
      }
      ConfirmEffect(state, id);
      Take(ConfirmDeletion(id));
      deleted := true;
    }

    /** LocalArtifactResolver.verify reads the record again and then the file. What it can find
        is another deletion, but never other content. */
    method Verify(id: ArtifactId, expected: Digest<Bytes>, calm: bool) returns (error: Option<DeletionEnd>)
      requires Sound(state) && id in state.records && Published(state.records[id].status)
      requires state.records[id].hash == expected
      modifies this
      ensures Sound(state) && id in state.records && Published(state.records[id].status)
      ensures error.Some? ==> error.value == ArtifactNotAvailable && state.records[id].status != Available
      ensures calm ==> state == old(state) && (error.None? <==> state.records[id].status == Available)
    {
      var record := state.records[id];
      if record.status != Available {
        return Some(ArtifactNotAvailable);
      }
      AvailableIsStored(state, id);
      Others(id, calm);
      if record.key !in state.files {
        return Some(ArtifactNotAvailable);
      }
      var content := state.files[record.key];
      if Sha256(content) != record.hash || |content| != record.size || record.hash != expected {
        return Some(ArtifactHashMismatch);
      }
      error := None;
    }

    /** Deletes an artifact that is available. One already deleted is done, any other is left
        alone with an error; a deletion requested before but cut off is therefore never finished.
        Others may come in everywhere: if another deletion of the artifact was first, this one
        raises. */
    method DeleteArtifact(id: ArtifactId, calm: bool) returns (r: DeletionEnd)
      requires Sound(state)
      modifies this
      ensures Sound(state)
      ensures id in old(state.records) && old(state.records)[id].status == Available ==>
                && id in state.records && (calm ==> r == DeletionDone)
                && (r == DeletionDone || r == CutOff || r == ArtifactNotAvailable || r == InvalidArtifactTransition)
                && (r == DeletionDone ==> state.records[id].status == Deleted && StorageKey(id) !in state.files)
                && (r == CutOff ==> state.records[id].status == DeletionRequested)
                && (r == ArtifactNotAvailable || r == InvalidArtifactTransition ==>
                      state.records[id].status == DeletionRequested || state.records[id].status == Deleted)
      ensures !(id in old(state.records) && old(state.records)[id].status == Available) ==>
                && state == old(state)
                && r == (if id !in state.records then ArtifactNotFound
                         else if state.records[id].status == Deleted then DeletionDone else ArtifactNotDeletable)
    {
      if id !in state.records {
        return ArtifactNotFound;
      }
      var record := state.records[id];
      if record.status == Deleted {
        return DeletionDone;
      }
      if record.status != Available {
        return ArtifactNotDeletable;
      }
      AvailableIsStored(state, id);
      Others(id, calm);
      var error := Verify(id, record.hash, calm);
      if error.Some? {
        return error.value;
      }
      Others(id, calm);
      if state.records[id].status != Available {
        return InvalidArtifactTransition;
      }
      RequestEffect(state, id);
      Take(RequestDeletion(id));
      var deleted := RemoveArtifact(id, calm);
      r := if deleted then DeletionDone else CutOff;
    }

    /** Removes the files of stale records. The list is read once, so it may be out of date
        when a file is removed; it names staging keys only. */
    method Maintain(calm: bool)
      requires Sound(state)
      modifies this
      ensures Sound(state)
      ensures calm ==> forall id :: id in old(state.records) && StaleStatus(old(state.records)[id].status) ==>
                old(state.records)[id].key !in state.files
    {
      var stale := set id | id in state.records && StaleStatus(state.records[id].status) :: state.records[id].key;
      Take(ListStale);
      var left := stale;
      while left != {}
        invariant Sound(state) && left <= stale <= state.listed
        invariant calm ==> forall key :: key in stale && key !in left ==> key !in state.files
        decreases |left|
      {
        var key :| key in left;
        left := left - {key};
        var skipped := Strikes(calm);
        if !skipped {
          RemovesOne(state, key);
          Take(RemoveListed(key));
        }
      }
      assert calm ==> forall key :: key in stale ==> key !in state.files;
    }

    lemma RemovesOne(s: State, key: Key)
      requires key in s.listed
      ensures Apply(s, RemoveListed(key)) == s.(files := s.files - {key})
    {
    }
  }
}
