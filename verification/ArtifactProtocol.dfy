/**
 Artifact records and the files they name. Any number of publications, deletions and
 maintenance runs interleave write by write, and any of them may stop or fail after any
 write. A step that its process cannot take yet changes nothing.
 */
module ArtifactProtocol {
  import opened Wrappers

  type ArtifactId = nat
  type Bytes = seq<nat>

  datatype Status =
    | Staging | Quarantined | Validating | Available | Rejected | Orphaned | DeletionRequested | Deleted

  // A staged file has a key of its own below .staging; a published one is named after its artifact.
  datatype Key = StagingKey(id: ArtifactId) | StorageKey(id: ArtifactId)

  datatype Record = Record(status: Status, key: Key, hash: Digest<Bytes>, size: nat)

  /** What one publication remembers: the last status it knows it saved, whether the file
      was moved to its final place, and whether an exception struck. */
  datatype Publication = Publication(hash: Digest<Bytes>, size: nat, persisted: Option<Status>,
                                     finalized: bool, aborting: bool)

  datatype State = State(
    records: map<ArtifactId, Record>,
    files: map<Key, Bytes>,
    publications: seq<Publication>,
    deleting: set<ArtifactId>,
    listed: set<Key>)

  const Empty := State(map[], map[], [], {}, {})

  // ------------------------------------------------------------------ primitives

  predicate Follows(from: Status, to: Status) {
    match from
    case Staging => to.Quarantined? || to.Rejected? || to.Orphaned?
    case Quarantined => to.Validating? || to.Rejected? || to.Orphaned?
    case Validating => to.Available? || to.Rejected? || to.Orphaned?
    case Available => to.DeletionRequested?
    case DeletionRequested => to.Deleted?
    case _ => false
  }

  /** The statuses from which an artifact may be moved to a given one. */
  function StatusSources(to: Status): set<Status> {
    match to
    case Staging => {}
    case Quarantined => {Staging}
    case Validating => {Quarantined}
    case Available => {Validating}
    case Rejected => {Staging, Quarantined, Validating}
    case Orphaned => {Staging, Quarantined, Validating}
    case DeletionRequested => {Available}
    case Deleted => {DeletionRequested}
  }

  /** A record is saved if and only if it is new and staged, or stands in a source of its target. */
  lemma SavedIff(s: State, id: ArtifactId, record: Record)
    ensures SaveArtifact(s, id, record).Some?
            <==> if id in s.records then s.records[id].status in StatusSources(record.status)
                 else record.status == Staging
    ensures SaveArtifact(s, id, record).Some? ==>
              SaveArtifact(s, id, record).value == s.(records := s.records[id := record])
  {
  }

  /** A record starts in staging and moves along the transitions; the whole record is replaced. */
  function SaveArtifact(s: State, id: ArtifactId, record: Record): Option<State> {
    if (if id in s.records then Follows(s.records[id].status, record.status) else record.status == Staging)
    then Some(s.(records := s.records[id := record])) else None
  }

  /** Moves a staged file to its final key after checking its hash. */
  function Finalize(s: State, from: Key, to: Key, expected: Digest<Bytes>): Option<State> {
    if from in s.files && Sha256(s.files[from]) == expected
    then Some(s.(files := (s.files - {from})[to := s.files[from]])) else None
  }

  function DeleteFile(s: State, key: Key): State {
    s.(files := s.files - {key})
  }

  // ----------------------------------------------------------------------- steps

  datatype Step =
    | Stage(content: Bytes)
    | SaveNext(id: ArtifactId, noticed: bool)
    | Move(id: ArtifactId)
    | Publish(id: ArtifactId, noticed: bool)
    | Abort(id: ArtifactId)
    | SaveFailure(id: ArtifactId, status: Status)
    | RequestDeletion(id: ArtifactId)
    | RemoveFile(id: ArtifactId)
    | ConfirmDeletion(id: ArtifactId)
    | ListStale
    | RemoveListed(key: Key)

  function NextStatus(persisted: Option<Status>): Option<Status> {
    match persisted
    case None => Some(Staging)
    case Some(Staging) => Some(Quarantined)
    case Some(Quarantined) => Some(Validating)
    case _ => None
  }

  function Note(s: State, id: ArtifactId, p: Publication): State
    requires id < |s.publications|
  {
    s.(publications := s.publications[id := p])
  }

  predicate StaleStatus(status: Status) {
    status.Staging? || status.Rejected? || status.Orphaned?
  }

  function StageStep(s: State, content: Bytes): State {
    var id := |s.publications|;
    s.(files := s.files[StagingKey(id) := content],
       publications := s.publications + [Publication(Sha256(content), |content|, None, false, false)])
  }

  /** The next record of a publication. An exception may strike after the commit and before
      the process notes it. */
  function SaveNextStep(s: State, id: ArtifactId, noticed: bool): State
    requires id < |s.publications|
  {
    var p := s.publications[id];
    var next := NextStatus(p.persisted);
    if p.aborting || next.None? then s
    else
      match SaveArtifact(s, id, Record(next.value, StagingKey(id), p.hash, p.size))
      case Some(saved) => Note(saved, id, if noticed then p.(persisted := next) else p.(aborting := true))
      case None => Note(s, id, p.(aborting := true))
  }

  function MoveStep(s: State, id: ArtifactId): State
    requires id < |s.publications|
  {
    var p := s.publications[id];
    if p.aborting || p.finalized || p.persisted != Some(Validating) then s
    else
      match Finalize(s, StagingKey(id), StorageKey(id), p.hash)
      case Some(moved) => Note(moved, id, p.(finalized := true))
      case None => Note(s, id, p.(aborting := true))
  }

  function PublishStep(s: State, id: ArtifactId, noticed: bool): State
    requires id < |s.publications|
  {
    var p := s.publications[id];
    if p.aborting || !p.finalized then s
    else
      match SaveArtifact(s, id, Record(Available, StorageKey(id), p.hash, p.size))
      case Some(saved) => if noticed then saved else Note(saved, id, p.(aborting := true))
      case None => Note(s, id, p.(aborting := true))
  }

  /** The handler of any exception first removes the staged file. */
  function AbortStep(s: State, id: ArtifactId): State
    requires id < |s.publications|
  {
    DeleteFile(Note(s, id, s.publications[id].(aborting := true)), StagingKey(id))
  }

  /** It then tries to save a failure record over the last one it knows of. */
  function SaveFailureStep(s: State, id: ArtifactId, status: Status): State
    requires id < |s.publications|
  {
    var p := s.publications[id];
    if !p.aborting || p.persisted.None? || !(status.Orphaned? || status.Rejected?) then s
    else SavedOr(s, SaveArtifact(s, id, Record(status, StagingKey(id), p.hash, p.size)))
  }

  function SavedOr(s: State, saved: Option<State>): State {
    if saved.Some? then saved.value else s
  }

  function RequestDeletionStep(s: State, id: ArtifactId): State {
    if id !in s.records || s.records[id].status != Available then s
    else s.(records := s.records[id := s.records[id].(status := DeletionRequested)], deleting := s.deleting + {id})
  }

  function ConfirmDeletionStep(s: State, id: ArtifactId): State {
    if id !in s.deleting || id !in s.records then s
    else SavedOr(s, SaveArtifact(s, id, s.records[id].(status := Deleted)))
  }

  function ListStaleStep(s: State): State {
    s.(listed := s.listed + set id | id in s.records && StaleStatus(s.records[id].status) :: s.records[id].key)
  }

  function Apply(s: State, step: Step): State {
    match step
    case Stage(content) => StageStep(s, content)
    case SaveNext(id, noticed) => if id < |s.publications| then SaveNextStep(s, id, noticed) else s
    case Move(id) => if id < |s.publications| then MoveStep(s, id) else s
    case Publish(id, noticed) => if id < |s.publications| then PublishStep(s, id, noticed) else s
    case Abort(id) => if id < |s.publications| then AbortStep(s, id) else s
    case SaveFailure(id, status) => if id < |s.publications| then SaveFailureStep(s, id, status) else s
    case RequestDeletion(id) => RequestDeletionStep(s, id)
    case RemoveFile(id) => if id in s.deleting then DeleteFile(s, StorageKey(id)) else s
    case ConfirmDeletion(id) => ConfirmDeletionStep(s, id)
    case ListStale => ListStaleStep(s)
    case RemoveListed(key) => if key in s.listed then DeleteFile(s, key) else s
  }

  /** A staged file is moved if and only if it is there with the expected hash; then its bytes are at
      the other key and every other file is as it was. */
  lemma MovedIff(s: State, from: Key, to: Key, expected: Digest<Bytes>)
    requires from != to
    ensures var moved := Finalize(s, from, to, expected);
            && (moved.Some? <==> exists content :: from in s.files && s.files[from] == content && expected == Sha256(content))
            && (moved.Some? ==>
                  && moved.value == s.(files := moved.value.files) && from !in moved.value.files
                  && to in moved.value.files && moved.value.files[to] == s.files[from]
                  && forall key :: key != from && key != to ==>
                       && (key in moved.value.files <==> key in s.files)
                       && (key in s.files ==> moved.value.files[key] == s.files[key]))
  {
  }

  /** What is listed for maintenance is the file of each record that is still staged, was rejected
      or is orphaned. */
  lemma ListedExactly(s: State)
    ensures Apply(s, ListStale) == s.(listed := Apply(s, ListStale).listed)
    ensures forall key :: key in Apply(s, ListStale).listed
                          <==> key in s.listed || exists id :: id in s.records && s.records[id].key == key
                                                               && s.records[id].status in {Staging, Rejected, Orphaned}
  {
  }

  /** The steps of a publication come in order: records, then the move, then the available record;
      after an exception only the cleaning up, and a failure record only over a known one. */
  lemma StepsInOrder(s: State, id: ArtifactId, noticed: bool, status: Status)
    requires id < |s.publications|
    ensures var p := s.publications[id];
            && (p.aborting ==> Apply(s, SaveNext(id, noticed)) == Apply(s, Move(id)) == Apply(s, Publish(id, noticed)) == s)
            && (p.persisted != Some(Validating) || p.finalized ==> Apply(s, Move(id)) == s)
            && (!p.finalized ==> Apply(s, Publish(id, noticed)) == s)
            && (!p.aborting || p.persisted.None? || !(status in {Orphaned, Rejected}) ==>
                  Apply(s, SaveFailure(id, status)) == s)
            && (id !in s.deleting ==> Apply(s, RemoveFile(id)) == Apply(s, ConfirmDeletion(id)) == s)
  {
  }

  /** A step of a publication that the store or the file system refuses is an exception. */
  lemma RefusedStepAborts(s: State, id: ArtifactId, noticed: bool)
    requires id < |s.publications| && !s.publications[id].aborting
    ensures var p := s.publications[id];
            var stopped := s.(publications := s.publications[id := p.(aborting := true)]);
            && (p.persisted.None? && id in s.records ==> Apply(s, SaveNext(id, noticed)) == stopped)
            && (p.persisted == Some(Validating) && !p.finalized && StagingKey(id) !in s.files ==>
                  Apply(s, Move(id)) == stopped)
            && (p.finalized && (id !in s.records || s.records[id].status != Validating) ==>
                  Apply(s, Publish(id, noticed)) == stopped)
  {
  }

  function Run(s: State, trace: seq<Step>): State
    decreases |trace|
  {
    if trace == [] then s else Run(Apply(s, trace[0]), trace[1..])
  }

  // ------------------------------------------------------------------- invariant

  predicate Published(status: Status) {
    status.Available? || status.DeletionRequested? || status.Deleted?
  }

  /** Records repeat what was staged, and name a staging key until they are published. */
  ghost predicate RecordsMatch(s: State) {
    forall id :: id in s.records ==>
      && id < |s.publications|
      && s.records[id].hash == s.publications[id].hash && s.records[id].size == s.publications[id].size
      && s.records[id].key == (if Published(s.records[id].status) then StorageKey(id) else StagingKey(id))
      && (Published(s.records[id].status) ==> s.publications[id].finalized)
  }

  /** A file holds what was staged for its artifact, wherever it is. */
  ghost predicate FilesMatch(s: State) {
    && (forall key :: key in s.files ==>
          && key.id < |s.publications|
          && Sha256(s.files[key]) == s.publications[key.id].hash && |s.files[key]| == s.publications[key.id].size)
    && (forall id :: 0 <= id < |s.publications| && s.publications[id].finalized && id !in s.deleting ==>
          StorageKey(id) in s.files)
  }

  /** Only the files of deletions under way and of unpublished artifacts may be removed. */
  ghost predicate RemovalsSafe(s: State) {
    && (forall id :: id in s.deleting ==>
          id in s.records && (s.records[id].status.DeletionRequested? || s.records[id].status.Deleted?))
    && (forall key :: key in s.listed ==> key.StagingKey?)
  }

  ghost predicate Sound(s: State) {
    RecordsMatch(s) && FilesMatch(s) && RemovalsSafe(s)
  }

  /** An available artifact can be read: its file is there, with the recorded hash and size. */
  ghost predicate Readable(s: State, id: ArtifactId) {
    id in s.records && s.records[id].status == Available ==>
      && s.records[id].key in s.files
      && Sha256(s.files[s.records[id].key]) == s.records[id].hash
      && |s.files[s.records[id].key]| == s.records[id].size
  }

  // Each step is built from a few writes; each write keeps the state sound.

  lemma PutRecordSound(s: State, id: ArtifactId, record: Record)
    requires Sound(s) && id < |s.publications|
    requires record.hash == s.publications[id].hash && record.size == s.publications[id].size
    requires record.key == if Published(record.status) then StorageKey(id) else StagingKey(id)
    requires Published(record.status) ==> s.publications[id].finalized
    requires id in s.deleting ==> record.status.DeletionRequested? || record.status.Deleted?
    ensures Sound(s.(records := s.records[id := record]))
  {
  }

  lemma NoteSound(s: State, id: ArtifactId, p: Publication)
    requires Sound(s) && id < |s.publications|
    requires p.hash == s.publications[id].hash && p.size == s.publications[id].size
    requires s.publications[id].finalized ==> p.finalized
    requires p.finalized && !s.publications[id].finalized ==> StorageKey(id) in s.files
    ensures Sound(Note(s, id, p))
  {
  }

  lemma DeleteFileSound(s: State, key: Key)
    requires Sound(s) && (key.StagingKey? || key.id in s.deleting)
    ensures Sound(DeleteFile(s, key))
  {
  }

  lemma StageSound(s: State, content: Bytes)
    requires Sound(s)
    ensures Sound(StageStep(s, content))
  {
  }

  /** A record still named by its staging key was never requested for deletion. */
  lemma SaveSound(s: State, id: ArtifactId, record: Record)
    requires Sound(s) && id < |s.publications|
    requires record.hash == s.publications[id].hash && record.size == s.publications[id].size
    requires record.key == if Published(record.status) then StorageKey(id) else StagingKey(id)
    requires Published(record.status) ==> s.publications[id].finalized
    ensures SaveArtifact(s, id, record).Some? ==> Sound(SaveArtifact(s, id, record).value)
  {
    if SaveArtifact(s, id, record).Some? {
      PutRecordSound(s, id, record);
    }
  }

  lemma SaveNextSound(s: State, id: ArtifactId, noticed: bool)
    requires Sound(s) && id < |s.publications|
    ensures Sound(SaveNextStep(s, id, noticed))
  {
    var p := s.publications[id];
    var next := NextStatus(p.persisted);
    NoteSound(s, id, p.(aborting := true));
    if !p.aborting && next.Some? {
      var saved := SaveArtifact(s, id, Record(next.value, StagingKey(id), p.hash, p.size));
      SaveSound(s, id, Record(next.value, StagingKey(id), p.hash, p.size));
      if saved.Some? {
        NoteSound(saved.value, id, if noticed then p.(persisted := next) else p.(aborting := true));
      }
    }
  }

  lemma MoveSound(s: State, id: ArtifactId)
    requires Sound(s) && id < |s.publications|
    ensures Sound(MoveStep(s, id))
  {
    var p := s.publications[id];
    NoteSound(s, id, p.(aborting := true));
    var moved := Finalize(s, StagingKey(id), StorageKey(id), p.hash);
    if moved.Some? {
      assert Sound(moved.value);
      NoteSound(moved.value, id, p.(finalized := true));
    }
  }

  lemma PublishSound(s: State, id: ArtifactId, noticed: bool)
    requires Sound(s) && id < |s.publications|
    ensures Sound(PublishStep(s, id, noticed))
  {
    var p := s.publications[id];
    NoteSound(s, id, p.(aborting := true));
    if p.finalized {
      var saved := SaveArtifact(s, id, Record(Available, StorageKey(id), p.hash, p.size));
      SaveSound(s, id, Record(Available, StorageKey(id), p.hash, p.size));
      if saved.Some? {
        NoteSound(saved.value, id, p.(aborting := true));
      }
    }
  }

  lemma FailureSound(s: State, id: ArtifactId, status: Status)
    requires Sound(s) && id < |s.publications|
    ensures Sound(AbortStep(s, id)) && Sound(SaveFailureStep(s, id, status))
  {
    var p := s.publications[id];
    NoteSound(s, id, p.(aborting := true));
    DeleteFileSound(Note(s, id, p.(aborting := true)), StagingKey(id));
    if status.Orphaned? || status.Rejected? {
      SaveSound(s, id, Record(status, StagingKey(id), p.hash, p.size));
    }
  }

  lemma DeletionSound(s: State, id: ArtifactId)
    requires Sound(s)
    ensures Sound(RequestDeletionStep(s, id)) && Sound(ConfirmDeletionStep(s, id))
    ensures id in s.deleting ==> Sound(DeleteFile(s, StorageKey(id)))
  {
    if id in s.deleting {
      DeleteFileSound(s, StorageKey(id));
      PutRecordSound(s, id, s.records[id].(status := Deleted));
    }
    if id in s.records && s.records[id].status == Available {
      var requested := s.records[id].(status := DeletionRequested);
      PutRecordSound(s, id, requested);
      assert RequestDeletionStep(s, id) == s.(records := s.records[id := requested]).(deleting := s.deleting + {id});
    }
  }

  lemma MaintenanceSound(s: State, key: Key)
    requires Sound(s)
    ensures Sound(ListStaleStep(s)) && (key in s.listed ==> Sound(DeleteFile(s, key)))
  {
    if key in s.listed {
      DeleteFileSound(s, key);
    }
  }

  lemma StepSound(s: State, step: Step)
    requires Sound(s)
    ensures Sound(Apply(s, step))
  {
    match step
    case Stage(content) => StageSound(s, content);
    case SaveNext(id, noticed) => if id < |s.publications| { SaveNextSound(s, id, noticed); }
    case Move(id) => if id < |s.publications| { MoveSound(s, id); }
    case Publish(id, noticed) => if id < |s.publications| { PublishSound(s, id, noticed); }
    case Abort(id) => if id < |s.publications| { FailureSound(s, id, Orphaned); }
    case SaveFailure(id, status) => if id < |s.publications| { FailureSound(s, id, status); }
    case RequestDeletion(id) => DeletionSound(s, id);
    case RemoveFile(id) => DeletionSound(s, id);
    case ConfirmDeletion(id) => DeletionSound(s, id);
    case ListStale => MaintenanceSound(s, StagingKey(0));
    case RemoveListed(key) => MaintenanceSound(s, key);
  }

  lemma {:induction false} RunSound(s: State, trace: seq<Step>)
    requires Sound(s)
    ensures Sound(Run(s, trace))
    decreases |trace|
  {
    if trace != [] {
      StepSound(s, trace[0]);
      RunSound(Apply(s, trace[0]), trace[1..]);
    }
  }

  /** In every state any interleaving of the processes reaches, whatever failed on the way,
      every available artifact is readable. */
  lemma AvailableIsReadable(trace: seq<Step>, id: ArtifactId)
    ensures Readable(Run(Empty, trace), id)
  {
    RunSound(Empty, trace);
  }

  lemma AvailableIsStored(s: State, id: ArtifactId)
    requires Sound(s) && id in s.records && s.records[id].status == Available
    ensures s.records[id].key == StorageKey(id) && StorageKey(id) in s.files && id !in s.deleting
    ensures id < |s.publications| && s.publications[id].finalized
  {
  }

  lemma StaysAvailable(s: State, step: Step, id: ArtifactId)
    requires Sound(s) && id in s.records && s.records[id].status == Available && step != RequestDeletion(id)
    ensures id in Apply(s, step).records && Apply(s, step).records[id] == s.records[id]
  {
    AvailableIsStored(s, id);
  }

  lemma FileStays(s: State, step: Step, id: ArtifactId)
    requires Sound(s) && id in s.records && s.records[id].status == Available
    ensures StorageKey(id) in s.files && StorageKey(id) in Apply(s, step).files
    ensures Apply(s, step).files[StorageKey(id)] == s.files[StorageKey(id)]
  {
    AvailableIsStored(s, id);
  }

  /** A published artifact keeps its record and its bytes until its deletion is requested. */
  lemma {:induction false} AvailableUntilDeleted(s: State, trace: seq<Step>, id: ArtifactId)
    requires Sound(s) && id in s.records && s.records[id].status == Available
    requires RequestDeletion(id) !in trace
    ensures var after := Run(s, trace);
            && id in after.records && after.records[id] == s.records[id]
            && StorageKey(id) in s.files && StorageKey(id) in after.files
            && after.files[StorageKey(id)] == s.files[StorageKey(id)]
    decreases |trace|
  {
    AvailableIsStored(s, id);
    if trace != [] {
      assert trace[0] in trace;
      StepSound(s, trace[0]);
      StaysAvailable(s, trace[0], id);
      FileStays(s, trace[0], id);
      AvailableUntilDeleted(Apply(s, trace[0]), trace[1..], id);
    }
  }

  lemma DeletionStuckStep(s: State, step: Step, id: ArtifactId)
    requires Sound(s) && id in s.records && s.records[id].status == DeletionRequested && step != ConfirmDeletion(id)
    ensures id in Apply(s, step).records && Apply(s, step).records[id] == s.records[id]
  {
  }

  /** Only the deletion of an artifact removes its published file. */
  lemma PublishedFileStays(s: State, step: Step, id: ArtifactId)
    requires Sound(s) && step != RemoveFile(id) && StorageKey(id) in s.files
    ensures StorageKey(id) in Apply(s, step).files
  {
  }

  /** A deletion cut off after its first write is never taken up: no other process moves the
      record on, and the file stays unless the deletion itself had gone that far. */
  lemma {:induction false} AbandonedDeletionStays(s: State, trace: seq<Step>, id: ArtifactId)
    requires Sound(s) && id in s.records && s.records[id].status == DeletionRequested
    requires ConfirmDeletion(id) !in trace && RemoveFile(id) !in trace
    ensures var after := Run(s, trace);
            && id in after.records && after.records[id] == s.records[id]
            && (StorageKey(id) in s.files ==> StorageKey(id) in after.files)
    decreases |trace|
  {
    if trace != [] {
      assert trace[0] in trace;
      StepSound(s, trace[0]);
      DeletionStuckStep(s, trace[0], id);
      if StorageKey(id) in s.files {
        PublishedFileStays(s, trace[0], id);
      }
      AbandonedDeletionStays(Apply(s, trace[0]), trace[1..], id);
    }
  }
}
