/**
 The reference executor: every operation goes straight to the tables, and the note version is bumped once when
 the batch has been accepted. It has no cache, no dirty set and no flush.
 */
module DirectExecution {
  import opened Wrappers
  import opened TextDeltas
  import opened SyncModel

  datatype Caller = Caller(owner: Id, device: string)

  datatype SnapshotThresholds = SnapshotThresholds(changes: int, bytes: int)

  datatype Reason = InvalidRequest | NotFound | VersionConflict

  datatype Rejection = Rejection(reason: Reason, clientVersion: int, serverVersion: int)

  const INVALID := Rejection(InvalidRequest, 0, 0)
  const NOT_FOUND := Rejection(NotFound, 0, 0)

  function Conflict(op: ClientOperation, serverVersion: int): Rejection {
    Rejection(VersionConflict, op.baseVersion, serverVersion)
  }

  /** One operation: applied, recognised as a retry, refused, or stopped by a database error. */
  datatype Step =
    | Applied(tables: Tables)
    | Replayed(original: Change)
    | Refused(rejection: Rejection)
    | Failed

  // ---- single operations ----

  function AppendChange(t: Tables, who: Caller, op: ClientOperation, base: int, resulting: int): Tables {
    t.(log := t.log + [Change(t.nextSequence, who.owner, op.noteId, who.device, op.operationId,
                              base, resulting, op.mutation, op.changeBytes)],
       nextSequence := t.nextSequence + 1)
  }

  /** acceptOperationChange: an operation on a note moves it from its current version to the next. */
  function Accept(t: Tables, who: Caller, op: ClientOperation, version: int): Step {
    Applied(AppendChange(t, who, op, version, version + 1))
  }

  function NewBlock(noteId: Id, b: BlockPayload): Block {
    Block(noteId, b.kind, b.text, b.position, b.properties, false)
  }

  function NewBlocks(noteId: Id, payloads: seq<BlockPayload>): (r: map<Id, Block>)
    ensures forall id <- r :: r[id].noteId == noteId && !r[id].deleted
  {
    if payloads == [] then map[]
    else
      var n := |payloads| - 1;
      NewBlocks(noteId, payloads[..n])[payloads[n].id := NewBlock(noteId, payloads[n])]
  }

  lemma {:induction false} NewBlockIds(noteId: Id, payloads: seq<BlockPayload>, id: Id)
    ensures id in NewBlocks(noteId, payloads) <==> exists i | 0 <= i < |payloads| :: payloads[i].id == id
  {
    if payloads != [] {
      var n := |payloads| - 1;
      NewBlockIds(noteId, payloads[..n], id);
      assert forall i | 0 <= i < n :: payloads[..n][i] == payloads[i];
    }
  }

  /** A valid new note and its blocks; the note id and every block id must be free. */
  function InsertNoteDirect(t: Tables, who: Caller, op: ClientOperation, payload: NotePayload): Step {
    if op.noteId in t.notes then Refused(Conflict(op, 0))
    else
      var rows := NewBlocks(op.noteId, payload.blocks);
      if rows.Keys !! t.blocks.Keys then
        var note := Note(who.owner, payload.title, payload.properties, 0, false);
        Accept(t.(notes := t.notes[op.noteId := note], blocks := t.blocks + rows), who, op, 0)
      else Refused(INVALID)
  }

  function CreateNoteDirect(t: Tables, who: Caller, first: bool, op: ClientOperation): Step
    requires op.mutation.CreateNote?
  {
    if op.baseVersion != 0 then Refused(Conflict(op, 0))
    else if !first && OwnedNote(t, op.noteId, who.owner).Some? then
      Refused(Conflict(op, t.notes[op.noteId].version))
    else if op.mutation.note.None? || !op.mutation.note.value.Valid() then Refused(INVALID)
    else InsertNoteDirect(t, who, op, op.mutation.note.value)
  }

  function DeleteNoteDirect(t: Tables, who: Caller, op: ClientOperation): Step {
    match OwnedNote(t, op.noteId, who.owner)
    case None => Refused(NOT_FOUND)
    case Some(note) =>
      if note.version != op.baseVersion then Refused(Conflict(op, note.version))
      else Accept(t.(notes := t.notes[op.noteId := note.(deleted := true)]), who, op, note.version)
  }

  /** existingNote: the note must be the caller's and at the version the operation was based on. */
  function ExistingNote(t: Tables, who: Caller, op: ClientOperation): (r: Option<Rejection>)
    ensures r.None? <==> OwnedNote(t, op.noteId, who.owner).Some? && t.notes[op.noteId].version == op.baseVersion
  {
    match OwnedNote(t, op.noteId, who.owner)
    case None => Some(NOT_FOUND)
    case Some(note) => if note.version != op.baseVersion then Some(Conflict(op, note.version)) else None
  }

  function ModifyNotePropertyDirect(t: Tables, who: Caller, op: ClientOperation): Step
    requires op.mutation.ModifyNoteProperty?
  {
    if op.mutation.noteProperties.None? then Refused(INVALID)
    else match ExistingNote(t, who, op)
    case Some(rejection) => Refused(rejection)
    case None =>
      var note := t.notes[op.noteId].(properties := op.mutation.noteProperties.value);
      Accept(t.(notes := t.notes[op.noteId := note]), who, op, note.version)
  }

  function ModifyNoteTitleDirect(t: Tables, who: Caller, op: ClientOperation): Step
    requires op.mutation.ModifyNoteTitle?
  {
    if op.mutation.titleDelta.None? then Refused(INVALID)
    else match ExistingNote(t, who, op)
    case Some(rejection) => Refused(rejection)
    case None =>
      match Splice(t.notes[op.noteId].title, op.mutation.titleDelta.value)
      case None => Refused(INVALID)
      case Some(title) =>
        var note := t.notes[op.noteId].(title := title);
        Accept(t.(notes := t.notes[op.noteId := note]), who, op, note.version)
  }

  function CreateBlockDirect(t: Tables, who: Caller, op: ClientOperation): Step
    requires op.mutation.CreateBlock?
  {
    if op.mutation.block.None? || !op.mutation.block.value.Valid() then Refused(INVALID)
    else match ExistingNote(t, who, op)
    case Some(rejection) => Refused(rejection)
    case None =>
      var payload := op.mutation.block.value;
      if payload.id in t.blocks then Refused(INVALID)
      else
        Accept(t.(blocks := t.blocks[payload.id := NewBlock(op.noteId, payload)]),
               who, op, t.notes[op.noteId].version)
  }

  function DeleteBlockDirect(t: Tables, who: Caller, op: ClientOperation): Step
    requires op.mutation.DeleteBlock?
  {
    if op.mutation.deletedBlock.None? || op.mutation.deletedBlock.value == NIL then Refused(INVALID)
    else match ExistingNote(t, who, op)
    case Some(rejection) => Refused(rejection)
    case None =>
      var id := op.mutation.deletedBlock.value;
      match BlockOfNote(t, id, op.noteId)
      case None => Refused(NOT_FOUND)
      case Some(block) =>
        Accept(t.(blocks := t.blocks[id := block.(deleted := true)]), who, op, t.notes[op.noteId].version)
  }

  /** The block after a modify_block; None when its text delta is out of range. */
  function ChangedBlock(block: Block, change: BlockChange): Option<Block> {
    var restyled := if change.properties.Some? then block.(properties := change.properties.value) else block;
    match change.delta
    case None => Some(restyled)
    case Some(delta) =>
      match Splice(restyled.text, delta)
      case None => None
      case Some(text) => Some(restyled.(text := text))
  }

  function ModifyBlockDirect(t: Tables, who: Caller, op: ClientOperation): Step
    requires op.mutation.ModifyBlock?
  {
    if op.mutation.change.None? || !op.mutation.change.value.Valid() then Refused(INVALID)
    else match ExistingNote(t, who, op)
    case Some(rejection) => Refused(rejection)
    case None =>
      var change := op.mutation.change.value;
      match BlockOfNote(t, change.id, op.noteId)
      case None => Refused(NOT_FOUND)
      case Some(block) =>
        match ChangedBlock(block, change)
        case None => Refused(INVALID)
        case Some(changed) =>
          Accept(t.(blocks := t.blocks[change.id := changed]), who, op, t.notes[op.noteId].version)
  }

  // ---- categories carry no version: their entries move from 0 to 0 ----

  /** UNIQUE (owner_id, name) over the other category rows, deleted ones included. */
  predicate NameFree(t: Tables, owner: Id, name: string, except: Id) {
    forall id <- t.categories :: id != except ==> t.categories[id].owner != owner || t.categories[id].name != name
  }

  predicate LiveCategory(t: Tables, id: Id, owner: Id) {
    id in t.categories && t.categories[id].owner == owner && !t.categories[id].deleted
  }

  predicate Blank(name: string) {
    forall c <- name :: c in {' ', '\t', '\n', '\r'}
  }

  predicate DecodedCategory(payload: Option<CategoryPayload>) {
    payload.Some? && payload.value.id != NIL && !Blank(payload.value.name)
  }

  function CreateCategoryDirect(t: Tables, who: Caller, op: ClientOperation): Step
    requires op.mutation.CreateCategory?
  {
    if !DecodedCategory(op.mutation.created) then Refused(INVALID)
    else
      var c := op.mutation.created.value;
      if c.id in t.categories || !NameFree(t, who.owner, c.name, c.id) then Failed
      else
        Applied(AppendChange(t.(categories := t.categories[c.id := Category(who.owner, c.name, false)]), who, op, 0, 0))
  }

  function DeleteCategoryDirect(t: Tables, who: Caller, op: ClientOperation): Step
    requires op.mutation.DeleteCategory?
  {
    if op.mutation.deletedCategory.None? || op.mutation.deletedCategory.value == NIL then Refused(INVALID)
    else
      var id := op.mutation.deletedCategory.value;
      if !LiveCategory(t, id, who.owner) then Refused(NOT_FOUND)
      else
        Applied(AppendChange(t.(categories := t.categories[id := t.categories[id].(deleted := true)]), who, op, 0, 0))
  }

  function ModifyCategoryDirect(t: Tables, who: Caller, op: ClientOperation): Step
    requires op.mutation.ModifyCategory?
  {
    if !DecodedCategory(op.mutation.renamed) then Refused(INVALID)
    else
      var c := op.mutation.renamed.value;
      if !LiveCategory(t, c.id, who.owner) then Refused(NOT_FOUND)
      else if !NameFree(t, who.owner, c.name, c.id) then Failed
      else
        Applied(AppendChange(t.(categories := t.categories[c.id := t.categories[c.id].(name := c.name)]), who, op, 0,
          0))
  }

  /**
   applyOperation: idempotency lookup, envelope validation, dispatch. first: the batch has not touched the note yet.
   */
  function Apply(t: Tables, who: Caller, first: bool, op: ClientOperation): Step {
    var processed := FindProcessed(t.log, who.device, op.operationId);
    if processed.Some? then Replayed(processed.value)
    else if !op.Valid() then Refused(INVALID)
    else match op.mutation
      case CreateNote(_) => CreateNoteDirect(t, who, first, op)
      case DeleteNote => DeleteNoteDirect(t, who, op)
      case ModifyNoteProperty(_) => ModifyNotePropertyDirect(t, who, op)
      case ModifyNoteTitle(_) => ModifyNoteTitleDirect(t, who, op)
      case CreateBlock(_) => CreateBlockDirect(t, who, op)
      case DeleteBlock(_) => DeleteBlockDirect(t, who, op)
      case ModifyBlock(_) => ModifyBlockDirect(t, who, op)
      case CreateCategory(_) => CreateCategoryDirect(t, who, op)
      case DeleteCategory(_) => DeleteCategoryDirect(t, who, op)
      case ModifyCategory(_) => ModifyCategoryDirect(t, who, op)
      case Unsupported => Refused(INVALID)
  }

  // ---- batches ----

  /** Progress through a batch: the tables so far and, when something was applied, the highest sequence it took. */
  datatype Progress =
    | Running(tables: Tables, changed: bool, cursor: nat)
    | Stopped(tables: Tables, rejection: Rejection)
    | Aborted(tables: Tables)

  function Advance(before: Progress, who: Caller, first: bool, op: ClientOperation): Progress
    requires before.Running?
  {
    match Apply(before.tables, who, first, op)
    case Applied(after) =>
      Running(after, true, if before.tables.nextSequence > before.cursor then before.tables.nextSequence
        else before.cursor)
    case Replayed(_) => before
    case Refused(rejection) => Stopped(before.tables, rejection)
    case Failed => Aborted(before.tables)
  }

  /** The batch up to its first rejection or database error. */
  function ApplyAll(t: Tables, who: Caller, ops: seq<ClientOperation>): Progress {
    if ops == [] then Running(t, false, 0)
    else
      var n := |ops| - 1;
      var before := ApplyAll(t, who, ops[..n]);
      if before.Running? then Advance(before, who, n == 0, ops[n]) else before
  }

  function EnqueueSnapshotIfNeeded(t: Tables, limits: SnapshotThresholds, noteId: Id, owner: Id, version: int): Tables {
    var latest := LatestSnapshotVersion(t.snapshots, noteId);
    if (limits.changes > 0 && CountChangesAfter(t.log, noteId, latest) >= limits.changes)
       || (limits.bytes > 0 && SumBytesAfter(t.log, noteId, latest) >= limits.bytes)
    then t.(jobs := t.jobs + [SnapshotPayload(noteId, owner, version)])
    else t
  }

  datatype BatchRejection = BatchRejection(noteId: Id, reason: Reason, clientVersion: int, serverVersion: int,
    document: Option<Snapshot>)

  /** Sequence numbers taken by a batch stay taken when its writes are rolled back. */
  datatype BatchOutcome =
    | BatchAccepted(tables: Tables, noteVersion: int, cursor: nat)
    | BatchRejected(tables: Tables, rejected: BatchRejection)
    | BatchFailed(tables: Tables)

  /** rejectedBatchDTO: the failed operation's rejection, with the note as the rollback left it. */
  function RejectedBatch(t: Tables, who: Caller, noteId: Id, failed: Rejection): BatchRejection {
    var document := if noteId == NIL then None else LoadDocument(t, noteId, who.owner);
    BatchRejection(noteId, failed.reason, failed.clientVersion,
      if document.Some? && failed.serverVersion == 0 then t.notes[noteId].version else failed.serverVersion,
      document)
  }

  function BumpVersion(t: Tables, noteId: Id): Tables
    requires noteId in t.notes
  {
    t.(notes := t.notes[noteId := t.notes[noteId].(version := t.notes[noteId].version + 1)])
  }

  /** One note's operations, all accepted with a single version bump or all rolled back. */
  function ApplyBatch(t: Tables, limits: SnapshotThresholds, who: Caller, ops: seq<ClientOperation>): BatchOutcome
    requires ops != []
  {
    var noteId := ops[0].noteId;
    match ApplyAll(t, who, ops)
    case Aborted(after) => BatchFailed(t.(nextSequence := after.nextSequence))
    case Stopped(after, rejection) =>
      var back := t.(nextSequence := after.nextSequence);
      BatchRejected(back, RejectedBatch(back, who, noteId, rejection))
    case Running(after, changed, cursor) =>
      if noteId == NIL || OwnedNote(after, noteId, who.owner).None? then BatchAccepted(after, 0, cursor)
      else if !changed then BatchAccepted(after, after.notes[noteId].version, cursor)
      else
        var bumped := BumpVersion(after, noteId);
        var version := bumped.notes[noteId].version;
        BatchAccepted(EnqueueSnapshotIfNeeded(bumped, limits, noteId, who.owner, version), version, cursor)
  }
}
