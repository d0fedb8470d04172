/** Client operations and the rows of the sync database, after JSON decoding. */
module SyncModel {
  import opened Wrappers
  import opened TextDeltas

  /** A UUID as the number its sixteen big-endian bytes spell, so that byte order is numeric order. */
  type Id = nat
  const NIL: Id := 0

  const MAX_DEVICE_ID_LENGTH := 30
  const PROTOCOL_VERSION := 1

  predicate ValidDeviceId(device: string) {
    0 < |device| <= MAX_DEVICE_ID_LENGTH
  }

  // ---- client operations ----

  datatype BlockPayload = BlockPayload(id: Id, kind: string, position: string, text: string, properties: string)
  {
    predicate Valid() {
      id != NIL && kind in {"text", "bullet", "todo", "numberedList", "attachment"}
    }
  }

  datatype NotePayload = NotePayload(title: string, properties: string, blocks: seq<BlockPayload>)
  {
    predicate Valid() {
      && (forall b <- blocks :: b.Valid())
      && (forall i, j | 0 <= i < j < |blocks| ::
           blocks[i].id != blocks[j].id && blocks[i].position != blocks[j].position)
    }
  }

  datatype BlockChange = BlockChange(id: Id, properties: Option<string>, delta: Option<TextDelta>)
  {
    predicate Valid() {
      id != NIL && (properties.Some? || delta.Some?)
    }
  }

  datatype CategoryPayload = CategoryPayload(id: Id, name: string)

  /** The operation type with its decoded changeData; None is changeData that does not decode for that type. */
  datatype Mutation =
    | CreateNote(note: Option<NotePayload>)
    | DeleteNote
    | ModifyNoteProperty(noteProperties: Option<string>)
    | ModifyNoteTitle(titleDelta: Option<TextDelta>)
    | CreateBlock(block: Option<BlockPayload>)
    | DeleteBlock(deletedBlock: Option<Id>)
    | ModifyBlock(change: Option<BlockChange>)
    | CreateCategory(created: Option<CategoryPayload>)
    | DeleteCategory(deletedCategory: Option<Id>)
    | ModifyCategory(renamed: Option<CategoryPayload>)
    | Unsupported
  {
    predicate OnCategory() {
      CreateCategory? || DeleteCategory? || ModifyCategory?
    }
  }

  /** changeDecodes: the change format is supported and changeData is absent or a JSON object. */
  datatype ClientOperation = ClientOperation(
    operationId: Id, noteId: Id, sequence: int, baseVersion: int,
    changeDecodes: bool, mutation: Mutation, changeBytes: nat)
  {
    predicate Valid() {
      && operationId != NIL
      && sequence >= 0
      && !mutation.Unsupported?
      && (mutation.OnCategory() <==> noteId == NIL)
      && changeDecodes
    }
  }

  datatype Request = Request(protocolVersion: int, deviceId: string, operations: seq<ClientOperation>)
  {
    predicate Valid(maxOperations: int) {
      protocolVersion == PROTOCOL_VERSION && ValidDeviceId(deviceId) && |operations| <= maxOperations
    }
  }

  // ---- stored rows ----

  datatype Note = Note(owner: Id, title: string, properties: string, version: int, deleted: bool)

  datatype Block = Block(noteId: Id, kind: string, text: string, position: string, properties: string, deleted: bool)

  datatype Category = Category(owner: Id, name: string, deleted: bool)

  datatype Change = Change(
    sequence: nat, owner: Id, noteId: Id, device: string, operationId: Id,
    base: int, resulting: int, mutation: Mutation, changeBytes: nat)

  datatype Device = Device(owner: Id, cursor: int, revoked: bool)

  datatype SnapshotPayload = SnapshotPayload(noteId: Id, owner: Id, expectedVersion: int)

  /** A note with its blocks; Absent is a note that was never created. */
  datatype Document = Absent | Present(note: Note, blocks: map<Id, Block>)

  datatype Snapshot = Snapshot(document: Document, lastAppliedCursor: nat)

  datatype SnapshotRow = SnapshotRow(noteId: Id, owner: Id, version: int, snapshot: Snapshot)

  datatype Tables = Tables(
    notes: map<Id, Note>,
    blocks: map<Id, Block>,
    categories: map<Id, Category>,
    log: seq<Change>,
    nextSequence: nat,
    devices: map<string, Device>,
    jobs: seq<SnapshotPayload>,
    snapshots: seq<SnapshotRow>)

  const EMPTY_TABLES := Tables(map[], map[], map[], [], 1, map[], [], [])

  // ---- queries ----

  function OwnedNote(t: Tables, noteId: Id, owner: Id): Option<Note> {
    if noteId in t.notes && t.notes[noteId].owner == owner then Some(t.notes[noteId]) else None
  }

  function BlockOfNote(t: Tables, blockId: Id, noteId: Id): Option<Block> {
    if blockId in t.blocks && t.blocks[blockId].noteId == noteId then Some(t.blocks[blockId]) else None
  }

  function BlocksOfNote(t: Tables, noteId: Id): map<Id, Block> {
    map b | b in t.blocks && t.blocks[b].noteId == noteId :: t.blocks[b]
  }

  function DocumentOf(t: Tables, noteId: Id): Document {
    if noteId in t.notes then Present(t.notes[noteId], BlocksOfNote(t, noteId)) else Absent
  }

  /** FindProcessedOperation: the log entry with this idempotency key. */
  function FindProcessed(log: seq<Change>, device: string, operationId: Id): (r: Option<Change>)
    ensures r.None? <==> forall c <- log :: c.device != device || c.operationId != operationId
    ensures r.Some? ==> r.value in log && r.value.device == device && r.value.operationId == operationId
  {
    if log == [] then None
    else
      var last := log[|log| - 1];
      if last.device == device && last.operationId == operationId then Some(last)
      else
        assert log == log[..|log| - 1] + [last];
        FindProcessed(log[..|log| - 1], device, operationId)
  }

  /** GetLastAppliedCursorForNote: COALESCE(MAX(global_sequence), 0). */
  function LastCursor(log: seq<Change>, noteId: Id): (r: nat)
    ensures forall c <- log :: c.noteId == noteId ==> c.sequence <= r
    ensures r == 0 || exists c <- log :: c.noteId == noteId && c.sequence == r
  {
    if log == [] then 0
    else
      var last := log[|log| - 1];
      var before := LastCursor(log[..|log| - 1], noteId);
      assert log == log[..|log| - 1] + [last];
      if last.noteId == noteId && last.sequence > before then last.sequence else before
  }

  function LoadDocument(t: Tables, noteId: Id, owner: Id): Option<Snapshot> {
    if OwnedNote(t, noteId, owner).Some? then Some(Snapshot(DocumentOf(t, noteId), LastCursor(t.log, noteId))) else None
  }

  /** COALESCE(MAX(version), 0) over the note's snapshots. */
  function LatestSnapshotVersion(rows: seq<SnapshotRow>, noteId: Id): (r: int)
    ensures r >= 0 && forall row <- rows :: row.noteId == noteId ==> row.version <= r
    ensures r == 0 || exists row <- rows :: row.noteId == noteId && row.version == r
  {
    if rows == [] then 0
    else
      var last := rows[|rows| - 1];
      var before := LatestSnapshotVersion(rows[..|rows| - 1], noteId);
      assert rows == rows[..|rows| - 1] + [last];
      if last.noteId == noteId && last.version > before then last.version else before
  }

  /** CountChangesSinceLastSnapshot, given the version of the latest snapshot. */
  function CountChangesAfter(log: seq<Change>, noteId: Id, version: int): nat {
    if log == [] then 0
    else
      var last := log[|log| - 1];
      CountChangesAfter(log[..|log| - 1], noteId, version)
      + if last.noteId == noteId && last.resulting > version then 1 else 0
  }

  /** SumChangeBytesSinceLastSnapshot, given the version of the latest snapshot. */
  function SumBytesAfter(log: seq<Change>, noteId: Id, version: int): nat {
    if log == [] then 0
    else
      var last := log[|log| - 1];
      SumBytesAfter(log[..|log| - 1], noteId, version)
      + if last.noteId == noteId && last.resulting > version then last.changeBytes else 0
  }
}
