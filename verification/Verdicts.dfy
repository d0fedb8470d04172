/**
 Exactly when an operation is applied, what it then writes, and why it is refused otherwise; and the same for a batch.
 All of it is said about the rows, column by column, and not through the steps of the executor.
 */
module Verdicts {
  import opened Wrappers
  import opened TextDeltas
  import opened SyncModel
  import opened DirectExecution
  import opened ChangeLog
  import opened Ordering
  import opened Ledger

  // ---- what the envelope and the payload must be ----

  predicate CategoryKind(m: Mutation) {
    m.CreateCategory? || m.DeleteCategory? || m.ModifyCategory?
  }

  /** The fields every operation has: ids set, a note for note operations and none for categories, decodable data. */
  predicate Envelope(op: ClientOperation) {
    && op.operationId != NIL && op.sequence >= 0 && op.changeDecodes && !op.mutation.Unsupported?
    && (op.noteId == NIL <==> CategoryKind(op.mutation))
  }

  predicate SoundBlock(b: BlockPayload) {
    b.id != NIL && (b.kind == "text" || b.kind == "bullet" || b.kind == "todo" || b.kind == "numberedList" ||
      b.kind == "attachment")
  }

  predicate SoundBlocks(blocks: seq<BlockPayload>) {
    && (forall b <- blocks :: SoundBlock(b))
    && (forall i, j | 0 <= i < j < |blocks| :: blocks[i].id != blocks[j].id && blocks[i].position != blocks[j].position)
  }

  predicate SoundCategory(c: CategoryPayload) {
    c.id != NIL && exists ch <- c.name :: ch != ' ' && ch != '\t' && ch != '\n' && ch != '\r'
  }

  /** The data of the operation's own kind is there and sound. */
  predicate Payload(m: Mutation) {
    match m
    case CreateNote(note) => note.Some? && SoundBlocks(note.value.blocks)
    case DeleteNote => true
    case ModifyNoteProperty(properties) => properties.Some?
    case ModifyNoteTitle(delta) => delta.Some?
    case CreateBlock(block) => block.Some? && SoundBlock(block.value)
    case DeleteBlock(id) => id.Some? && id.value != NIL
    case ModifyBlock(change) =>
      change.Some? && change.value.id != NIL && (change.value.properties.Some? || change.value.delta.Some?)
    case CreateCategory(c) => c.Some? && SoundCategory(c.value)
    case DeleteCategory(id) => id.Some? && id.value != NIL
    case ModifyCategory(c) => c.Some? && SoundCategory(c.value)
    case Unsupported => false
  }

  // ---- what the rows must be ----

  /** The idempotency key is in the log. */
  predicate Known(t: Tables, who: Caller, op: ClientOperation) {
    exists c <- t.log :: c.device == who.device && c.operationId == op.operationId
  }

  predicate Mine(t: Tables, who: Caller, n: Id) {
    n in t.notes && t.notes[n].owner == who.owner
  }

  /** The delta lies in the text. */
  predicate Within(text: string, delta: TextDelta) {
    0 <= delta.index && 0 <= delta.deleteCount && delta.index + delta.deleteCount <= |text|
  }

  function Edited(text: string, delta: TextDelta): string
    requires Within(text, delta)
  {
    text[..delta.index] + delta.insertText + text[delta.index + delta.deleteCount..]
  }

  predicate BlockOf(t: Tables, id: Id, n: Id) {
    id in t.blocks && t.blocks[id].noteId == n
  }

  predicate MyCategory(t: Tables, who: Caller, id: Id) {
    id in t.categories && t.categories[id].owner == who.owner && !t.categories[id].deleted
  }

  /** Another category row of the caller, deleted or not, has the name. */
  predicate NameTaken(t: Tables, who: Caller, c: CategoryPayload) {
    exists id <- t.categories :: id != c.id && t.categories[id].owner == who.owner && t.categories[id].name == c.name
  }

  /** The row the operation names is there; a deleted block still is. */
  predicate Target(t: Tables, who: Caller, op: ClientOperation)
    requires Payload(op.mutation)
  {
    match op.mutation
    case DeleteBlock(id) => BlockOf(t, id.value, op.noteId)
    case ModifyBlock(change) => BlockOf(t, change.value.id, op.noteId)
    case DeleteCategory(id) => MyCategory(t, who, id.value)
    case ModifyCategory(c) => MyCategory(t, who, c.value.id)
    case _ => true
  }

  /** Texts are in range and new block ids are free in every note. */
  predicate Room(t: Tables, op: ClientOperation)
    requires Payload(op.mutation)
    requires op.mutation.ModifyNoteTitle? ==> op.noteId in t.notes
    requires op.mutation.ModifyBlock? ==> op.mutation.change.value.id in t.blocks
  {
    match op.mutation
    case CreateNote(note) => forall b <- note.value.blocks :: b.id !in t.blocks
    case ModifyNoteTitle(delta) => Within(t.notes[op.noteId].title, delta.value)
    case CreateBlock(block) => block.value.id !in t.blocks
    case ModifyBlock(change) =>
      change.value.delta.Some? ==> Within(t.blocks[change.value.id].text, change.value.delta.value)
    case _ => true
  }

  predicate NameRoom(t: Tables, who: Caller, m: Mutation)
    requires Payload(m)
  {
    match m
    case CreateCategory(c) => c.value.id !in t.categories && !NameTaken(t, who, c.value)
    case ModifyCategory(c) => !NameTaken(t, who, c.value)
    case _ => true
  }

  /** Everything an operation needs to be applied. */
  predicate Acceptable(t: Tables, who: Caller, op: ClientOperation) {
    && Envelope(op) && Payload(op.mutation)
    && (if CategoryKind(op.mutation) then Target(t, who, op) && NameRoom(t, who, op.mutation)
        else if op.mutation.CreateNote? then op.baseVersion == 0 && op.noteId !in t.notes && Room(t, op)
        else
          && Mine(t, who, op.noteId) && t.notes[op.noteId].version == op.baseVersion
          && Target(t, who, op) && Room(t, op))
  }

  // ---- what an applied operation writes ----

  predicate NoteRow(t: Tables, after: Tables, n: Id, note: Note) {
    after.notes == t.notes[n := note] && after.blocks == t.blocks && after.categories == t.categories
  }

  predicate BlockRow(t: Tables, after: Tables, id: Id, block: Block) {
    after.notes == t.notes && after.blocks == t.blocks[id := block] && after.categories == t.categories
  }

  predicate CategoryRow(t: Tables, after: Tables, id: Id, category: Category) {
    after.notes == t.notes && after.blocks == t.blocks && after.categories == t.categories[id := category]
  }

  /** The rows afterwards, column by column. The note's version stays until the batch ends. */
  predicate Rows(t: Tables, who: Caller, op: ClientOperation, after: Tables)
    requires Acceptable(t, who, op)
  {
    var n := op.noteId;
    match op.mutation
    case CreateNote(note) =>
      && after.categories == t.categories
      && after.notes == t.notes[n := Note(who.owner, note.value.title, note.value.properties, 0, false)]
      && after.blocks.Keys == t.blocks.Keys + (set b <- note.value.blocks :: b.id)
      && (forall id <- t.blocks :: after.blocks[id] == t.blocks[id])
      && (forall b <- note.value.blocks ::
            after.blocks[b.id] == Block(n, b.kind, b.text, b.position, b.properties, false))
    case DeleteNote =>
      var was := t.notes[n];
      NoteRow(t, after, n, Note(was.owner, was.title, was.properties, was.version, true))
    case ModifyNoteProperty(properties) =>
      var was := t.notes[n];
      NoteRow(t, after, n, Note(was.owner, was.title, properties.value, was.version, was.deleted))
    case ModifyNoteTitle(delta) =>
      var was := t.notes[n];
      NoteRow(t, after, n, Note(was.owner, Edited(was.title, delta.value), was.properties, was.version, was.deleted))
    case CreateBlock(block) =>
      var b := block.value;
      BlockRow(t, after, b.id, Block(n, b.kind, b.text, b.position, b.properties, false))
    case DeleteBlock(id) =>
      var was := t.blocks[id.value];
      BlockRow(t, after, id.value, Block(n, was.kind, was.text, was.position, was.properties, true))
    case ModifyBlock(change) =>
      var was, c := t.blocks[change.value.id], change.value;
      BlockRow(t, after, c.id,
        Block(n, was.kind, if c.delta.Some? then Edited(was.text, c.delta.value) else was.text, was.position,
          if c.properties.Some? then c.properties.value else was.properties, was.deleted))
    case CreateCategory(c) => CategoryRow(t, after, c.value.id, Category(who.owner, c.value.name, false))
    case DeleteCategory(id) =>
      CategoryRow(t, after, id.value, Category(who.owner, t.categories[id.value].name, true))
    case ModifyCategory(c) => CategoryRow(t, after, c.value.id, Category(who.owner, c.value.name, false))
    case Unsupported => false
  }

  function BaseOf(op: ClientOperation): int {
    if CategoryKind(op.mutation) then 0 else op.baseVersion
  }

  /** The history row of an applied operation: from the version it was based on to the next, or 0 for a category. */
  function RowFor(sequence: nat, who: Caller, op: ClientOperation): Change {
    Change(sequence, who.owner, op.noteId, who.device, op.operationId,
      BaseOf(op), if CategoryKind(op.mutation) then 0 else op.baseVersion + 1, op.mutation, op.changeBytes)
  }

  /** One more history row, the next sequence number taken, the operation's rows, and nothing else. */
  predicate Wrote(t: Tables, who: Caller, op: ClientOperation, after: Tables)
    requires Acceptable(t, who, op)
  {
    && after.log == t.log + [RowFor(t.nextSequence, who, op)]
    && after.nextSequence == t.nextSequence + 1
    && after.devices == t.devices && after.jobs == t.jobs && after.snapshots == t.snapshots
    && Rows(t, who, op, after)
  }

  // ---- why an operation is refused ----

  predicate AtBase(t: Tables, who: Caller, op: ClientOperation) {
    Mine(t, who, op.noteId) && t.notes[op.noteId].version == op.baseVersion
  }

  /** An earlier operation of the batch has loaded or created the caller's note. */
  predicate Loaded(t: Tables, who: Caller, first: bool, op: ClientOperation) {
    !first && Mine(t, who, op.noteId)
  }

  predicate Invalid(t: Tables, who: Caller, first: bool, op: ClientOperation) {
    || !Envelope(op)
    || (if CategoryKind(op.mutation) then !Payload(op.mutation)
        else if op.mutation.CreateNote? then
          && op.baseVersion == 0 && !Loaded(t, who, first, op)
          && (!Payload(op.mutation) || (op.noteId !in t.notes && !Room(t, op)))
        else
          !Payload(op.mutation) || (AtBase(t, who, op) && Target(t, who, op) && !Room(t, op)))
  }

  predicate Missing(t: Tables, who: Caller, op: ClientOperation) {
    && Envelope(op) && Payload(op.mutation)
    && (if CategoryKind(op.mutation) then !Target(t, who, op)
        else !op.mutation.CreateNote? && (!Mine(t, who, op.noteId) || (AtBase(t, who, op) && !Target(t, who, op))))
  }

  /**
   The version the server reports with a conflict: the stored one, or 0 for a note that is not the caller's to see.
   */
  predicate Outdated(t: Tables, who: Caller, first: bool, op: ClientOperation, server: int) {
    && Envelope(op) && !CategoryKind(op.mutation)
    && (if op.mutation.CreateNote? then
          if op.baseVersion != 0 then server == 0
          else if Loaded(t, who, first, op) then server == t.notes[op.noteId].version
          else Payload(op.mutation) && op.noteId in t.notes && server == 0
        else
          && Payload(op.mutation) && Mine(t, who, op.noteId)
          && t.notes[op.noteId].version != op.baseVersion && server == t.notes[op.noteId].version)
  }

  /** The rejection an operation gets: the reason, and for a conflict both versions. */
  predicate RefusedFor(t: Tables, who: Caller, first: bool, op: ClientOperation, r: Rejection) {
    match r.reason
    case InvalidRequest => Invalid(t, who, first, op) && r.clientVersion == r.serverVersion == 0
    case NotFound => Missing(t, who, op) && r.clientVersion == r.serverVersion == 0
    case VersionConflict => Outdated(t, who, first, op, r.serverVersion) && r.clientVersion == op.baseVersion
  }

  /** A category id or name that is taken ends the whole request. */
  predicate Clashes(t: Tables, who: Caller, op: ClientOperation) {
    && Envelope(op) && Payload(op.mutation) && CategoryKind(op.mutation)
    && Target(t, who, op) && !NameRoom(t, who, op.mutation)
  }

  /** The one answer the rows call for. */
  ghost predicate Deserved(t: Tables, who: Caller, first: bool, op: ClientOperation, step: Step) {
    match step
    case Applied(after) => !Known(t, who, op) && Acceptable(t, who, op) && Wrote(t, who, op, after)
    case Replayed(original) =>
      original in t.log && original.device == who.device && original.operationId == op.operationId
    case Refused(r) => !Known(t, who, op) && RefusedFor(t, who, first, op, r)
    case Failed => !Known(t, who, op) && Clashes(t, who, op)
  }

  // ---- the executor gives that answer ----

  lemma ValidEnvelope(op: ClientOperation)
    ensures op.Valid() <==> Envelope(op)
  {
  }

  lemma SpliceEdits(text: string, delta: TextDelta)
    ensures Splice(text, delta) == if Within(text, delta) then Some(Edited(text, delta)) else None
  {
  }

  lemma NoteEditDeserved(t: Tables, who: Caller, first: bool, op: ClientOperation)
    requires !Known(t, who, op) && Envelope(op)
    requires op.mutation.DeleteNote? || op.mutation.ModifyNoteProperty? || op.mutation.ModifyNoteTitle?
    ensures Deserved(t, who, first, op, Apply(t, who, first, op))
  {
    if op.mutation.ModifyNoteTitle? && op.mutation.titleDelta.Some? && op.noteId in t.notes {
      SpliceEdits(t.notes[op.noteId].title, op.mutation.titleDelta.value);
    }
    hide Splice, Within, Edited;
  }

  lemma BlockEditDeserved(t: Tables, who: Caller, first: bool, op: ClientOperation)
    requires !Known(t, who, op) && Envelope(op)
    requires op.mutation.CreateBlock? || op.mutation.DeleteBlock? || op.mutation.ModifyBlock?
    ensures Deserved(t, who, first, op, Apply(t, who, first, op))
  {
    if op.mutation.ModifyBlock? && op.mutation.change.Some? {
      var change := op.mutation.change.value;
      if change.delta.Some? && change.id in t.blocks {
        SpliceEdits(t.blocks[change.id].text, change.delta.value);
      }
    }
    hide Splice, Within, Edited;
  }

  lemma {:induction false} NewRows(noteId: Id, payloads: seq<BlockPayload>)
    requires forall i, j | 0 <= i < j < |payloads| :: payloads[i].id != payloads[j].id
    ensures NewBlocks(noteId, payloads).Keys == set b <- payloads :: b.id
    ensures forall b <- payloads ::
              b.id in NewBlocks(noteId, payloads) &&
              NewBlocks(noteId, payloads)[b.id] == Block(noteId, b.kind, b.text, b.position, b.properties, false)
  {
    if payloads != [] {
      var front, last := payloads[..|payloads| - 1], payloads[|payloads| - 1];
      assert payloads == front + [last];
      NewRows(noteId, front);
    }
  }

  lemma NoteDecodes(payload: NotePayload)
    ensures payload.Valid() <==> SoundBlocks(payload.blocks)
  {
    assert forall b: BlockPayload :: b.Valid() <==> SoundBlock(b);
  }

  lemma FreeRows(t: Tables, noteId: Id, blocks: seq<BlockPayload>)
    requires SoundBlocks(blocks)
    ensures NewBlocks(noteId, blocks).Keys !! t.blocks.Keys <==> forall b <- blocks :: b.id !in t.blocks
  {
    NewRows(noteId, blocks);
    assert forall b <- blocks :: b.id in NewBlocks(noteId, blocks).Keys;
    hide NewBlocks;
  }

  lemma CreateNoteApplies(t: Tables, who: Caller, first: bool, op: ClientOperation)
    requires !Known(t, who, op) && op.mutation.CreateNote? && Acceptable(t, who, op)
    ensures Apply(t, who, first, op).Applied? && Wrote(t, who, op, Apply(t, who, first, op).tables)
  {
    hide NewBlocks;
    var blocks := op.mutation.note.value.blocks;
    NoteDecodes(op.mutation.note.value);
    NewRows(op.noteId, blocks);
    FreeRows(t, op.noteId, blocks);
    hide SoundBlocks;
  }

  lemma CreateNoteRefused(t: Tables, who: Caller, first: bool, op: ClientOperation)
    requires !Known(t, who, op) && Envelope(op) && op.mutation.CreateNote? && !Acceptable(t, who, op)
    ensures var step := Apply(t, who, first, op); step.Refused? && RefusedFor(t, who, first, op, step.rejection)
  {
    hide NewBlocks;
    if op.mutation.note.Some? {
      var blocks := op.mutation.note.value.blocks;
      NoteDecodes(op.mutation.note.value);
      if SoundBlocks(blocks) {
        FreeRows(t, op.noteId, blocks);
      }
    }
    hide SoundBlocks;
  }

  lemma CreateNoteDeserved(t: Tables, who: Caller, first: bool, op: ClientOperation)
    requires !Known(t, who, op) && Envelope(op) && op.mutation.CreateNote?
    ensures Deserved(t, who, first, op, Apply(t, who, first, op))
  {
    hide Apply, Wrote, Acceptable, RefusedFor, Known;
    if Acceptable(t, who, op) {
      CreateNoteApplies(t, who, first, op);
    } else {
      CreateNoteRefused(t, who, first, op);
    }
  }

  lemma CategoryDecodes(payload: Option<CategoryPayload>)
    ensures DecodedCategory(payload) <==> payload.Some? && SoundCategory(payload.value)
  {
  }

  lemma CategoryDeserved(t: Tables, who: Caller, first: bool, op: ClientOperation)
    requires !Known(t, who, op) && Envelope(op) && CategoryKind(op.mutation)
    ensures Deserved(t, who, first, op, Apply(t, who, first, op))
  {
    match op.mutation {
      case CreateCategory(c) => CategoryDecodes(c);
      case ModifyCategory(c) => CategoryDecodes(c);
      case _ =>
    }
    hide SoundCategory, DecodedCategory;
  }

  /**
   Whatever the tables and the operation, the answer is the one the rows call for: applied exactly when the key is new
   and everything it needs is there, with exactly its rows written; otherwise replayed, refused for its reason, or
   failed.
   */
  lemma ApplyIsDeserved(t: Tables, who: Caller, first: bool, op: ClientOperation)
    ensures var step := Apply(t, who, first, op);
            && Deserved(t, who, first, op, step)
            && (step.Applied? <==> !Known(t, who, op) && Acceptable(t, who, op))
            && (step.Replayed? <==> Known(t, who, op))
            && (forall r :: step == Refused(r) <==> !Known(t, who, op) && RefusedFor(t, who, first, op, r))
            && (step.Failed? <==> !Known(t, who, op) && Clashes(t, who, op))
  {
    ValidEnvelope(op);
    if !Known(t, who, op) && Envelope(op) {
      if CategoryKind(op.mutation) {
        CategoryDeserved(t, who, first, op);
      } else if op.mutation.CreateNote? {
        CreateNoteDeserved(t, who, first, op);
      } else if op.mutation.CreateBlock? || op.mutation.DeleteBlock? || op.mutation.ModifyBlock? {
        BlockEditDeserved(t, who, first, op);
      } else {
        NoteEditDeserved(t, who, first, op);
      }
    }
    OneAnswer(t, who, first, op, Apply(t, who, first, op));
  }

  /** The answers exclude each other. */
  lemma OneAnswer(t: Tables, who: Caller, first: bool, op: ClientOperation, step: Step)
    requires Deserved(t, who, first, op, step)
    ensures step.Applied? <==> !Known(t, who, op) && Acceptable(t, who, op)
    ensures step.Replayed? <==> Known(t, who, op)
    ensures forall r :: step == Refused(r) <==> !Known(t, who, op) && RefusedFor(t, who, first, op, r)
    ensures step.Failed? <==> !Known(t, who, op) && Clashes(t, who, op)
  {
    hide Rows, Room, Payload, Envelope, NameRoom;
  }
}
