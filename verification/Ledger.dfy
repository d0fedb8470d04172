/**
 What every accepted operation and every batch keeps: the history is the state. Folding a note's entries gives exactly
 its row and blocks, versions form a chain, and idempotency keys are unique.
 */
module Ledger {
  import opened Wrappers
  import opened TextDeltas
  import opened SyncModel
  import opened DirectExecution
  import opened ChangeLog
  import opened Ordering

  /** The entry decoded, and the document has what it edits: texts in range, blocks present, or absent when created. */
  predicate Fits(before: Document, c: Change) {
    match before
    case Absent => c.mutation.CreateNote? && c.mutation.note.Some?
    case Present(note, blocks) =>
      match c.mutation
      case DeleteNote => true
      case ModifyNoteProperty(properties) => properties.Some?
      case ModifyNoteTitle(delta) => delta.Some? && InRange(note.title, delta.value)
      case CreateBlock(payload) => payload.Some? && payload.value.id !in blocks
      case DeleteBlock(id) => id.Some? && id.value in blocks
      case ModifyBlock(change) =>
        change.Some? && change.value.id in blocks && ChangedBlock(blocks[change.value.id], change.value).Some?
      case _ => false
  }

  /** How one entry may follow the document its note's earlier entries fold to. */
  predicate Link(before: Document, c: Change) {
    if c.noteId == NIL then c.base == c.resulting == 0
    else if !Fits(before, c) then false
    else match before
      case Absent => c.base == 0 && c.resulting == 1
      case Present(note, _) =>
        && c.owner == note.owner
        && c.base == c.resulting - 1
        && (c.resulting == note.version || c.resulting == note.version + 1)
  }

  /** Every entry links to the entries of its note before it. */
  predicate Chain(log: seq<Change>) {
    log == [] ||
    var front, last := log[..|log| - 1], log[|log| - 1];
    Chain(front) && Link(Folded(front, last.noteId), last)
  }

  predicate UniqueOperations(log: seq<Change>) {
    forall i, j | 0 <= i < j < |log| :: log[i].device != log[j].device || log[i].operationId != log[j].operationId
  }

  ghost predicate Ordered(t: Tables) {
    && t.nextSequence >= 1
    && Increasing(t.log)
    && (forall c <- t.log :: 1 <= c.sequence < t.nextSequence)
    && UniqueOperations(t.log)
    && Chain(t.log)
  }

  ghost predicate BlocksHaveNotes(t: Tables) {
    forall b <- t.blocks :: t.blocks[b].noteId in t.notes
  }

  function Bumped(doc: Document): Document {
    match doc
    case Absent => Absent
    case Present(note, blocks) => Present(note.(version := note.version + 1), blocks)
  }

  /** The stored document of a note, one version ahead if it is the note of a batch that has applied something. */
  function Expected(t: Tables, noteId: Id, batchNote: Id, changed: bool): Document {
    if noteId == batchNote && changed then Bumped(DocumentOf(t, noteId)) else DocumentOf(t, noteId)
  }

  ghost predicate LogIsState(t: Tables, batchNote: Id, changed: bool) {
    forall noteId: Id :: Folded(t.log, noteId) == Expected(t, noteId, batchNote, changed)
  }

  /** The tables in the middle of a batch on batchNote; with changed false, the tables between transactions. */
  ghost predicate Consistent(t: Tables, batchNote: Id, changed: bool) {
    && Ordered(t)
    && NIL !in t.notes
    && BlocksHaveNotes(t)
    && LogIsState(t, batchNote, changed)
  }

  // ---- what one applied operation does ----

  /** The entry an accepted operation appends. */
  function Entry(t: Tables, who: Caller, op: ClientOperation): Change {
    var base := if op.noteId in t.notes then t.notes[op.noteId].version else 0;
    Change(t.nextSequence, who.owner, op.noteId, who.device, op.operationId,
      base, if op.noteId == NIL then 0 else base + 1, op.mutation, op.changeBytes)
  }

  /** An applied operation appends one entry, touches one note, and moves that note as the entry says. */
  ghost predicate Effect(t: Tables, who: Caller, op: ClientOperation, after: Tables) {
    && FindProcessed(t.log, who.device, op.operationId).None?
    && after == t.(notes := after.notes, blocks := after.blocks, categories := after.categories,
                   log := t.log + [Entry(t, who, op)], nextSequence := t.nextSequence + 1)
    && (forall m: Id :: m != op.noteId ==> DocumentOf(after, m) == DocumentOf(t, m))
    && (forall m: Id :: m != op.noteId ==> (m in after.notes <==> m in t.notes))
    && t.blocks.Keys <= after.blocks.Keys
    && BlocksHaveNotes(after)
    && (op.noteId == NIL ==> after.notes == t.notes && after.blocks == t.blocks)
    && (op.noteId != NIL ==>
          && op.baseVersion == Entry(t, who, op).base
          && OwnedNote(after, op.noteId, who.owner).Some?
          && after.notes[op.noteId].version == op.baseVersion
          && (op.noteId in t.notes ==> OwnedNote(t, op.noteId, who.owner).Some?)
          && (op.noteId !in t.notes ==> op.mutation.CreateNote? && op.mutation.note.Some?)
          && after.categories == t.categories
          && Fits(DocumentOf(t, op.noteId), Entry(t, who, op))
          && Bumped(DocumentOf(after, op.noteId)) == ApplyChange(DocumentOf(t, op.noteId), Entry(t, who, op)))
  }

  lemma NoteEffect(t: Tables, who: Caller, op: ClientOperation, note: Note)
    requires FindProcessed(t.log, who.device, op.operationId).None? && BlocksHaveNotes(t)
    requires op.noteId != NIL && OwnedNote(t, op.noteId, who.owner).Some?
    requires note.owner == who.owner && note.version == t.notes[op.noteId].version == op.baseVersion
    requires Fits(DocumentOf(t, op.noteId), Entry(t, who, op))
    requires Present(note.(version := note.version + 1), BlocksOfNote(t, op.noteId))
          == ApplyChange(DocumentOf(t, op.noteId), Entry(t, who, op))
    ensures Effect(t, who, op, AppendChange(t.(notes := t.notes[op.noteId := note]), who, op, note.version,
        note.version + 1))
  {
    var after := t.(notes := t.notes[op.noteId := note]);
    forall m: Id
      ensures BlocksOfNote(after, m) == BlocksOfNote(t, m)
    {
    }
  }

  lemma BlockEffect(t: Tables, who: Caller, op: ClientOperation, id: Id, block: Block)
    requires FindProcessed(t.log, who.device, op.operationId).None? && BlocksHaveNotes(t)
    requires op.noteId != NIL && OwnedNote(t, op.noteId, who.owner).Some?
    requires t.notes[op.noteId].version == op.baseVersion
    requires block.noteId == op.noteId && (id in t.blocks ==> t.blocks[id].noteId == op.noteId)
    requires Fits(DocumentOf(t, op.noteId), Entry(t, who, op))
    requires Present(t.notes[op.noteId].(version := op.baseVersion + 1), BlocksOfNote(t, op.noteId)[id := block])
          == ApplyChange(DocumentOf(t, op.noteId), Entry(t, who, op))
    ensures Effect(t, who, op,
              AppendChange(t.(blocks := t.blocks[id := block]), who, op, op.baseVersion, op.baseVersion + 1))
  {
    var after := t.(blocks := t.blocks[id := block]);
    BlockWritten(t, op.noteId, id, block);
    hide ApplyChange, BlocksOfNote, FindProcessed, Entry;
    EffectOfEdit(t, who, op, after);
    hide *;
  }

  lemma BlockWritten(t: Tables, n: Id, id: Id, block: Block)
    requires block.noteId == n && (id in t.blocks ==> t.blocks[id].noteId == n)
    ensures var after := t.(blocks := t.blocks[id := block]);
            && BlocksOfNote(after, n) == BlocksOfNote(t, n)[id := block]
            && (forall m: Id | m != n :: DocumentOf(after, m) == DocumentOf(t, m))
  {
    var after := t.(blocks := t.blocks[id := block]);
    assert BlocksOfNote(after, n) == BlocksOfNote(t, n)[id := block];
    forall m: Id | m != n
      ensures DocumentOf(after, m) == DocumentOf(t, m)
    {
      assert BlocksOfNote(after, m) == BlocksOfNote(t, m);
    }
  }

  /** An edit of the tables followed by the history row of a note operation. */
  lemma EffectOfEdit(t: Tables, who: Caller, op: ClientOperation, mid: Tables)
    requires FindProcessed(t.log, who.device, op.operationId).None?
    requires op.noteId != NIL && OwnedNote(t, op.noteId, who.owner).Some? && OwnedNote(mid, op.noteId, who.owner).Some?
    requires mid == t.(notes := mid.notes, blocks := mid.blocks)
    requires mid.notes.Keys == t.notes.Keys && t.blocks.Keys <= mid.blocks.Keys && BlocksHaveNotes(mid)
    requires t.notes[op.noteId].version == op.baseVersion == mid.notes[op.noteId].version
    requires forall m: Id :: m != op.noteId ==> DocumentOf(mid, m) == DocumentOf(t, m)
    requires Fits(DocumentOf(t, op.noteId), Entry(t, who, op))
    requires Bumped(DocumentOf(mid, op.noteId)) == ApplyChange(DocumentOf(t, op.noteId), Entry(t, who, op))
    ensures Effect(t, who, op, AppendChange(mid, who, op, op.baseVersion, op.baseVersion + 1))
  {
    var after := AppendChange(mid, who, op, op.baseVersion, op.baseVersion + 1);
    forall m: Id
      ensures DocumentOf(after, m) == DocumentOf(mid, m)
    {
      assert BlocksOfNote(after, m) == BlocksOfNote(mid, m);
    }
    hide BlocksOfNote, ApplyChange;
  }

  lemma NoteCreated(t: Tables, n: Id, note: Note, rows: map<Id, Block>)
    requires BlocksHaveNotes(t) && n !in t.notes && rows.Keys !! t.blocks.Keys
    requires forall b <- rows :: rows[b].noteId == n
    ensures var after := t.(notes := t.notes[n := note], blocks := t.blocks + rows);
            && BlocksHaveNotes(after) && BlocksOfNote(after, n) == rows
            && (forall m: Id | m != n :: DocumentOf(after, m) == DocumentOf(t, m))
  {
    var after := t.(notes := t.notes[n := note], blocks := t.blocks + rows);
    assert BlocksOfNote(after, n) == rows;
    forall m: Id | m != n
      ensures BlocksOfNote(after, m) == BlocksOfNote(t, m)
    {
    }
  }

  lemma CreateNoteEffect(t: Tables, who: Caller, first: bool, op: ClientOperation, after: Tables)
    requires FindProcessed(t.log, who.device, op.operationId).None? && BlocksHaveNotes(t)
    requires op.noteId != NIL && op.mutation.CreateNote?
    requires CreateNoteDirect(t, who, first, op) == Applied(after)
    ensures Effect(t, who, op, after)
  {
    hide FindProcessed, NewBlocks, BlocksOfNote;
    var payload := op.mutation.note.value;
    var mid := t.(notes := after.notes, blocks := after.blocks);
    NoteCreated(t, op.noteId, after.notes[op.noteId], NewBlocks(op.noteId, payload.blocks));
    forall m: Id
      ensures DocumentOf(after, m) == DocumentOf(mid, m)
    {
      SameRows(mid, after, m);
    }
  }

  lemma SameRows(t: Tables, after: Tables, m: Id)
    requires after.notes == t.notes && after.blocks == t.blocks
    ensures DocumentOf(after, m) == DocumentOf(t, m) && BlocksOfNote(after, m) == BlocksOfNote(t, m)
  {
  }

  lemma CategoryEffect(t: Tables, who: Caller, op: ClientOperation, categories: map<Id, Category>)
    requires FindProcessed(t.log, who.device, op.operationId).None? && BlocksHaveNotes(t)
    requires op.noteId == NIL && NIL !in t.notes
    ensures Effect(t, who, op, AppendChange(t.(categories := categories), who, op, 0, 0))
  {
    var after := AppendChange(t.(categories := categories), who, op, 0, 0);
    forall m: Id
      ensures DocumentOf(after, m) == DocumentOf(t, m)
    {
      assert BlocksOfNote(after, m) == BlocksOfNote(t, m);
    }
  }

  lemma NoteOperationEffect(t: Tables, who: Caller, first: bool, op: ClientOperation, after: Tables)
    requires BlocksHaveNotes(t) && EditsNote(op.mutation)
    requires Apply(t, who, first, op) == Applied(after)
    ensures Effect(t, who, op, after)
  {
    hide Effect;
    NoteEffect(t, who, op, after.notes[op.noteId]);
  }

  lemma BlockOperationEffect(t: Tables, who: Caller, first: bool, op: ClientOperation, after: Tables)
    requires BlocksHaveNotes(t) && (op.mutation.CreateBlock? || op.mutation.DeleteBlock? || op.mutation.ModifyBlock?)
    requires Apply(t, who, first, op) == Applied(after)
    ensures Effect(t, who, op, after)
  {
    hide Effect;
    match op.mutation {
      case CreateBlock(payload) =>
        BlockEffect(t, who, op, payload.value.id, after.blocks[payload.value.id]);
      case DeleteBlock(id) =>
        BlockEffect(t, who, op, id.value, after.blocks[id.value]);
      case ModifyBlock(change) =>
        BlockEffect(t, who, op, change.value.id, after.blocks[change.value.id]);
    }
  }

  lemma ApplyEffect(t: Tables, who: Caller, first: bool, op: ClientOperation, after: Tables)
    requires BlocksHaveNotes(t) && NIL !in t.notes
    requires Apply(t, who, first, op) == Applied(after)
    ensures Effect(t, who, op, after)
  {
    hide Effect;
    match op.mutation {
      case CreateNote(_) =>
        CreateNoteEffect(t, who, first, op, after);
      case DeleteNote =>
        NoteOperationEffect(t, who, first, op, after);
      case ModifyNoteProperty(_) =>
        NoteOperationEffect(t, who, first, op, after);
      case ModifyNoteTitle(_) =>
        NoteOperationEffect(t, who, first, op, after);
      case CreateCategory(_) =>
        CategoryEffect(t, who, op, after.categories);
      case DeleteCategory(_) =>
        CategoryEffect(t, who, op, after.categories);
      case ModifyCategory(_) =>
        CategoryEffect(t, who, op, after.categories);
      case _ =>
        BlockOperationEffect(t, who, first, op, after);
    }
  }

  // ---- an applied operation keeps the tables consistent ----

  lemma ChainAppend(log: seq<Change>, c: Change)
    requires Chain(log) && Link(Folded(log, c.noteId), c)
    ensures Chain(log + [c])
  {
    assert (log + [c])[..|log|] == log;
  }

  lemma IncreasingAppend(log: seq<Change>, c: Change)
    requires Increasing(log) && forall e <- log :: e.sequence < c.sequence
    ensures Increasing(log + [c])
  {
    forall i | 0 <= i < |log|
      ensures log[i].sequence < c.sequence
    {
      assert log[i] in log;
    }
  }

  lemma UniqueAppend(log: seq<Change>, c: Change)
    requires UniqueOperations(log) && FindProcessed(log, c.device, c.operationId).None?
    ensures UniqueOperations(log + [c])
  {
    forall i | 0 <= i < |log|
      ensures log[i].device != c.device || log[i].operationId != c.operationId
    {
      assert log[i] in log;
    }
  }

  lemma OrderedAppend(t: Tables, who: Caller, op: ClientOperation)
    requires Ordered(t) && FindProcessed(t.log, who.device, op.operationId).None?
    requires Link(Folded(t.log, op.noteId), Entry(t, who, op))
    ensures Ordered(t.(log := t.log + [Entry(t, who, op)], nextSequence := t.nextSequence + 1))
  {
    var c := Entry(t, who, op);
    IncreasingAppend(t.log, c);
    UniqueAppend(t.log, c);
    ChainAppend(t.log, c);
    hide Increasing, UniqueOperations, Chain;
  }

  lemma OperationKeeps(t: Tables, who: Caller, first: bool, op: ClientOperation, after: Tables, changed: bool)
    requires Consistent(t, op.noteId, changed)
    requires Apply(t, who, first, op) == Applied(after)
    ensures Consistent(after, op.noteId, true)
  {
    AppliedIsValid(t, who, first, op);
    ApplyEffect(t, who, first, op, after);
    FoldsNext(t, who, op, after, changed);
    OrderedNext(t, who, op, after, changed);
    hide Apply, Ordered, LogIsState, DocumentOf, ApplyChange;
  }

  lemma FoldsNext(t: Tables, who: Caller, op: ClientOperation, after: Tables, changed: bool)
    requires NIL !in t.notes && op.Valid() && Effect(t, who, op, after) && LogIsState(t, op.noteId, changed)
    ensures LogIsState(after, op.noteId, true)
  {
    hide Effect, Folded, Expected;
    forall noteId: Id
      ensures Folded(after.log, noteId) == Expected(after, noteId, op.noteId, true)
    {
      assert Folded(t.log, noteId) == Expected(t, noteId, op.noteId, changed);
      FoldNext(t, who, op, after, noteId, changed);
    }
  }

  lemma OrderedNext(t: Tables, who: Caller, op: ClientOperation, after: Tables, changed: bool)
    requires Consistent(t, op.noteId, changed) && Effect(t, who, op, after)
    ensures Ordered(after)
  {
    assert Folded(t.log, op.noteId) == Expected(t, op.noteId, op.noteId, changed);
    OrderedAppend(t, who, op);
    hide Ordered, ApplyChange;
    assert Ordered(t.(log := after.log, nextSequence := after.nextSequence));
    OrderedSame(t.(log := after.log, nextSequence := after.nextSequence), after);
  }

  lemma OrderedSame(t: Tables, after: Tables)
    requires Ordered(t) && after.log == t.log && after.nextSequence == t.nextSequence
    ensures Ordered(after)
  {
  }

  lemma AppliedIsValid(t: Tables, who: Caller, first: bool, op: ClientOperation)
    requires Apply(t, who, first, op).Applied?
    ensures op.Valid()
  {
  }

  lemma FoldNext(t: Tables, who: Caller, op: ClientOperation, after: Tables, noteId: Id, changed: bool)
    requires NIL !in t.notes && op.Valid() && Effect(t, who, op, after)
    requires Folded(t.log, noteId) == Expected(t, noteId, op.noteId, changed)
    ensures Folded(after.log, noteId) == Expected(after, noteId, op.noteId, true)
  {
    var c := Entry(t, who, op);
    FoldedAppend(t.log, c, noteId);
    if noteId == op.noteId && noteId != NIL {
      VersionIsOverwritten(DocumentOf(t, noteId), c);
    }
  }

  /** An entry sets the version outright, so it makes no difference whether the batch had bumped it already. */
  lemma VersionIsOverwritten(doc: Document, c: Change)
    ensures ApplyChange(Bumped(doc), c) == ApplyChange(doc, c)
  {
  }

  // ---- batches ----

  /** Nothing that exists is removed, moved to another note or owner, or brought back from deletion. */
  ghost predicate KeepsRows(t: Tables, after: Tables) {
    && (forall n <- t.notes :: n in after.notes
          && after.notes[n].owner == t.notes[n].owner
          && after.notes[n].version >= t.notes[n].version
          && (t.notes[n].deleted ==> after.notes[n].deleted))
    && (forall b <- t.blocks :: b in after.blocks
          && after.blocks[b].noteId == t.blocks[b].noteId
          && (t.blocks[b].deleted ==> after.blocks[b].deleted))
  }

  lemma NoteWriteKeepsRows(t: Tables, noteId: Id, note: Note, after: Tables)
    requires after.notes == t.notes[noteId := note] && after.blocks == t.blocks
    requires noteId in t.notes ==>
               && note.owner == t.notes[noteId].owner && note.version >= t.notes[noteId].version
               && (t.notes[noteId].deleted ==> note.deleted)
    ensures KeepsRows(t, after)
  {
  }

  lemma BlockWriteKeepsRows(t: Tables, id: Id, block: Block, after: Tables)
    requires after.blocks == t.blocks[id := block] && after.notes == t.notes
    requires id in t.blocks ==> block.noteId == t.blocks[id].noteId && (t.blocks[id].deleted ==> block.deleted)
    ensures KeepsRows(t, after)
  {
  }

  lemma OperationKeepsRows(t: Tables, who: Caller, first: bool, op: ClientOperation, after: Tables)
    requires Apply(t, who, first, op) == Applied(after)
    ensures KeepsRows(t, after)
  {
    hide KeepsRows, NameFree, NewBlocks, FindProcessed;
    match op.mutation {
      case CreateNote(_) =>
        CreateNoteKeepsRows(t, who, first, op, after);
      case DeleteNote =>
        NoteEditKeepsRows(t, who, first, op, after);
      case ModifyNoteProperty(_) =>
        NoteEditKeepsRows(t, who, first, op, after);
      case ModifyNoteTitle(_) =>
        NoteEditKeepsRows(t, who, first, op, after);
      case CreateBlock(payload) =>
        BlockWriteKeepsRows(t, payload.value.id, after.blocks[payload.value.id], after);
      case DeleteBlock(id) =>
        BlockWriteKeepsRows(t, id.value, after.blocks[id.value], after);
      case ModifyBlock(change) =>
        BlockWriteKeepsRows(t, change.value.id, after.blocks[change.value.id], after);
      case _ =>
        RowsUntouched(t, after);
    }
  }

  predicate EditsNote(m: Mutation) {
    m.DeleteNote? || m.ModifyNoteProperty? || m.ModifyNoteTitle?
  }

  lemma NoteEditKeepsRows(t: Tables, who: Caller, first: bool, op: ClientOperation, after: Tables)
    requires Apply(t, who, first, op) == Applied(after) && EditsNote(op.mutation)
    ensures KeepsRows(t, after)
  {
    hide KeepsRows, Splice, FindProcessed;
    NoteWriteKeepsRows(t, op.noteId, after.notes[op.noteId], after);
  }

  lemma RowsUntouched(t: Tables, after: Tables)
    requires after.notes == t.notes && after.blocks == t.blocks
    ensures KeepsRows(t, after)
  {
  }

  lemma CreateNoteKeepsRows(t: Tables, who: Caller, first: bool, op: ClientOperation, after: Tables)
    requires op.mutation.CreateNote? && CreateNoteDirect(t, who, first, op) == Applied(after)
    ensures KeepsRows(t, after)
  {
  }

  function VersionOf(t: Tables, noteId: Id): int {
    if noteId in t.notes then t.notes[noteId].version else 0
  }

  /** The history grew by entries of one caller on one note; every other note is as it was. */
  ghost predicate Extends(t: Tables, who: Caller, noteId: Id, after: Tables) {
    && after.nextSequence >= t.nextSequence
    && after.devices == t.devices && after.snapshots == t.snapshots
    && |t.log| <= |after.log| && after.log[..|t.log|] == t.log
    && (forall i | |t.log| <= i < |after.log| :: NewEntry(after.log[i], t, who, noteId))
    && (forall m: Id :: m != noteId ==> DocumentOf(after, m) == DocumentOf(t, m))
    && KeepsRows(t, after)
    && (noteId != NIL ==> after.categories == t.categories)
  }

  predicate NewEntry(c: Change, t: Tables, who: Caller, noteId: Id) {
    && c.noteId == noteId && c.owner == who.owner && c.device == who.device
    && c.sequence >= t.nextSequence
    && (noteId != NIL ==> c.base == VersionOf(t, noteId) && c.resulting == c.base + 1)
  }

  lemma KeepsRowsTransitive(a: Tables, b: Tables, c: Tables)
    requires KeepsRows(a, b) && KeepsRows(b, c)
    ensures KeepsRows(a, c)
  {
  }

  lemma OperationExtends(t: Tables, who: Caller, first: bool, op: ClientOperation, mid: Tables, after: Tables)
    requires Extends(t, who, op.noteId, mid) && VersionOf(mid, op.noteId) == VersionOf(t, op.noteId)
    requires BlocksHaveNotes(mid) && NIL !in mid.notes
    requires Apply(mid, who, first, op) == Applied(after)
    ensures Extends(t, who, op.noteId, after) && VersionOf(after, op.noteId) == VersionOf(t, op.noteId)
    ensures after.jobs == mid.jobs && |after.log| == |mid.log| + 1
    ensures after.log[|mid.log|].sequence == mid.nextSequence && after.nextSequence == mid.nextSequence + 1
    ensures op.noteId != NIL ==> OwnedNote(after, op.noteId, who.owner).Some?
  {
    hide Apply, KeepsRows, ApplyChange;
    ApplyEffect(mid, who, first, op, after);
    OperationKeepsRows(mid, who, first, op, after);
    KeepsRowsTransitive(t, mid, after);
    assert after.log == mid.log + [Entry(mid, who, op)];
    forall i | |t.log| <= i < |after.log|
      ensures NewEntry(after.log[i], t, who, op.noteId)
    {
      if i < |mid.log| {
        assert after.log[i] == mid.log[i];
      }
    }
  }

  /** A batch that is still running: consistent so far, and only its note has changed. */
  ghost predicate Underway(t: Tables, who: Caller, noteId: Id, p: Progress) {
    && p.tables.nextSequence >= t.nextSequence
    && (p.Running? ==>
          && Consistent(p.tables, noteId, p.changed)
          && Extends(t, who, noteId, p.tables)
          && VersionOf(p.tables, noteId) == VersionOf(t, noteId)
          && p.tables.jobs == t.jobs
          && (p.changed <==> |p.tables.log| > |t.log|)
          && (p.changed && noteId != NIL ==> OwnedNote(p.tables, noteId, who.owner).Some?)
          && (if p.changed then p.cursor == p.tables.log[|p.tables.log| - 1].sequence == p.tables.nextSequence - 1
              else p.tables == t && p.cursor == 0))
  }

  lemma {:induction false} BatchUnderway(t: Tables, who: Caller, ops: seq<ClientOperation>, noteId: Id)
    requires forall op <- ops :: op.noteId == noteId
    requires Consistent(t, noteId, false)
    ensures Underway(t, who, noteId, ApplyAll(t, who, ops))
  {
    if ops != [] {
      var n := |ops| - 1;
      var before, op := ApplyAll(t, who, ops[..n]), ops[n];
      BatchUnderway(t, who, ops[..n], noteId);
      if before.Running? {
        AdvanceUnderway(t, who, n == 0, op, before);
      }
    }
  }

  lemma AppliedUnderway(t: Tables, who: Caller, first: bool, op: ClientOperation, before: Progress, after: Tables,
    cursor: nat)
    requires before.Running? && Underway(t, who, op.noteId, before)
    requires Apply(before.tables, who, first, op) == Applied(after) && cursor == before.tables.nextSequence
    ensures Underway(t, who, op.noteId, Running(after, true, cursor))
  {
    hide Extends, Apply, OwnedNote, KeepsRows, VersionOf, DocumentOf;
    OperationKeeps(before.tables, who, first, op, after, before.changed);
    OperationExtends(t, who, first, op, before.tables, after);
    assert |t.log| <= |before.tables.log|;
  }

  lemma AdvanceUnderway(t: Tables, who: Caller, first: bool, op: ClientOperation, before: Progress)
    requires before.Running? && Underway(t, who, op.noteId, before)
    ensures Underway(t, who, op.noteId, Advance(before, who, first, op))
  {
    var step := Apply(before.tables, who, first, op);
    CursorBehind(t, who, op.noteId, before);
    if step.Applied? {
      AppliedUnderway(t, who, first, op, before, step.tables, before.tables.nextSequence);
    }
    hide Consistent, Extends, Apply;
  }

  lemma CursorBehind(t: Tables, who: Caller, noteId: Id, p: Progress)
    requires p.Running? && Underway(t, who, noteId, p)
    ensures p.cursor < p.tables.nextSequence
  {
  }

  /** The version bump turns the tables of a batch that changed something back into consistent tables. */
  lemma BumpKeeps(t: Tables, noteId: Id)
    requires noteId in t.notes && Consistent(t, noteId, true)
    ensures Consistent(BumpVersion(t, noteId), noteId, false)
  {
    var after := BumpVersion(t, noteId);
    forall m: Id
      ensures Folded(after.log, m) == Expected(after, m, noteId, false)
    {
      assert Folded(t.log, m) == Expected(t, m, noteId, true);
      assert BlocksOfNote(after, m) == BlocksOfNote(t, m);
    }
  }

  /** Everything a batch outcome promises about the tables it leaves. */
  ghost predicate Settled(t: Tables, who: Caller, noteId: Id, outcome: BatchOutcome) {
    && Consistent(outcome.tables, NIL, false)
    && outcome.tables.nextSequence >= t.nextSequence
    && (!outcome.BatchAccepted? ==> outcome.tables == t.(nextSequence := outcome.tables.nextSequence))
    && (outcome.BatchAccepted? ==>
          && Extends(t, who, noteId, outcome.tables)
          && (if |outcome.tables.log| == |t.log| then outcome.tables == t && outcome.cursor == 0
              else
                && outcome.cursor == outcome.tables.log[|outcome.tables.log| - 1].sequence
                && (noteId != NIL ==>
                      && OwnedNote(outcome.tables, noteId, who.owner).Some?
                      && outcome.tables.notes[noteId].version == outcome.noteVersion == VersionOf(t, noteId) + 1))
          && outcome.noteVersion == (if OwnedNote(outcome.tables, noteId, who.owner).Some? then
               outcome.tables.notes[noteId].version else 0)
          && (outcome.tables.jobs == t.jobs
              || (outcome.tables.jobs == t.jobs + [SnapshotPayload(noteId, who.owner, outcome.noteVersion)]
                  && OwnedNote(outcome.tables, noteId, who.owner).Some?)))
  }

  lemma ConsistentAnywhere(t: Tables, a: Id, b: Id)
    requires Consistent(t, a, false)
    ensures Consistent(t, b, false)
  {
    forall noteId: Id
      ensures Folded(t.log, noteId) == Expected(t, noteId, b, false)
    {
      assert Folded(t.log, noteId) == Expected(t, noteId, a, false);
    }
  }

  lemma SequenceOnly(t: Tables, next: nat, noteId: Id)
    requires Consistent(t, noteId, false) && next >= t.nextSequence
    ensures Consistent(t.(nextSequence := next), noteId, false)
  {
    var after := t.(nextSequence := next);
    forall m: Id
      ensures Folded(after.log, m) == Expected(after, m, noteId, false)
    {
      assert Folded(t.log, m) == Expected(t, m, noteId, false);
      assert BlocksOfNote(after, m) == BlocksOfNote(t, m);
    }
  }

  lemma BumpExtends(t: Tables, who: Caller, noteId: Id, mid: Tables)
    requires Extends(t, who, noteId, mid) && noteId in mid.notes && VersionOf(mid, noteId) == VersionOf(t, noteId)
    ensures Extends(t, who, noteId, BumpVersion(mid, noteId))
  {
    var after := BumpVersion(mid, noteId);
    forall m: Id | m != noteId
      ensures DocumentOf(after, m) == DocumentOf(t, m)
    {
      assert BlocksOfNote(after, m) == BlocksOfNote(mid, m);
    }
  }

  lemma JobsOnly(t: Tables, who: Caller, noteId: Id, mid: Tables, jobs: seq<SnapshotPayload>)
    requires Consistent(mid, noteId, false) && Extends(t, who, noteId, mid)
    ensures Consistent(mid.(jobs := jobs), noteId, false) && Extends(t, who, noteId, mid.(jobs := jobs))
  {
    var after := mid.(jobs := jobs);
    forall m: Id
      ensures DocumentOf(after, m) == DocumentOf(mid, m)
    {
      assert BlocksOfNote(after, m) == BlocksOfNote(mid, m);
    }
    forall m: Id
      ensures Folded(after.log, m) == Expected(after, m, noteId, false)
    {
      assert Folded(mid.log, m) == Expected(mid, m, noteId, false);
    }
  }

  /** A batch is all or nothing, leaves the history equal to the state, and touches no other note. */
  lemma BatchSettles(t: Tables, limits: SnapshotThresholds, who: Caller, ops: seq<ClientOperation>)
    requires OneNote(ops)
    requires Consistent(t, NIL, false)
    ensures Settled(t, who, ops[0].noteId, ApplyBatch(t, limits, who, ops))
  {
    hide ApplyAll;
    var noteId := ops[0].noteId;
    ConsistentAnywhere(t, NIL, noteId);
    BatchUnderway(t, who, ops, noteId);
    var p := ApplyAll(t, who, ops);
    if !p.Running? {
      SequenceOnly(t, p.tables.nextSequence, noteId);
      ConsistentAnywhere(t.(nextSequence := p.tables.nextSequence), noteId, NIL);
    } else if noteId == NIL {
      CategoryBatchSettles(t, who, p);
    } else if !p.changed {
      ConsistentAnywhere(p.tables, noteId, NIL);
    } else {
      NoteBatchSettles(t, limits, who, noteId, p);
    }
  }

  lemma CategoryBatchSettles(t: Tables, who: Caller, p: Progress)
    requires p.Running? && Underway(t, who, NIL, p)
    ensures Settled(t, who, NIL, BatchAccepted(p.tables, 0, p.cursor))
  {
    forall m: Id
      ensures Folded(p.tables.log, m) == Expected(p.tables, m, NIL, false)
    {
      assert Folded(p.tables.log, m) == Expected(p.tables, m, NIL, p.changed);
    }
  }

  lemma EnqueueAddsAtMostOneJob(t: Tables, limits: SnapshotThresholds, noteId: Id, owner: Id, version: int)
    ensures var after := EnqueueSnapshotIfNeeded(t, limits, noteId, owner, version);
            && after == t.(jobs := after.jobs)
            && (after.jobs == t.jobs || after.jobs == t.jobs + [SnapshotPayload(noteId, owner, version)])
  {
    assert t == t.(jobs := t.jobs);
  }

  lemma NoteBatchSettles(t: Tables, limits: SnapshotThresholds, who: Caller, noteId: Id, p: Progress)
    requires p.Running? && p.changed && noteId != NIL && Underway(t, who, noteId, p)
    ensures var bumped := BumpVersion(p.tables, noteId);
            var version := bumped.notes[noteId].version;
            Settled(t, who, noteId,
              BatchAccepted(EnqueueSnapshotIfNeeded(bumped, limits, noteId, who.owner, version), version, p.cursor))
  {
    hide Consistent, Extends, EnqueueSnapshotIfNeeded;
    var bumped := BumpVersion(p.tables, noteId);
    var version := bumped.notes[noteId].version;
    BumpKeeps(p.tables, noteId);
    BumpExtends(t, who, noteId, p.tables);
    EnqueueAddsAtMostOneJob(bumped, limits, noteId, who.owner, version);
    var after := EnqueueSnapshotIfNeeded(bumped, limits, noteId, who.owner, version);
    JobsOnly(t, who, noteId, bumped, after.jobs);
    ConsistentAnywhere(after, noteId, NIL);
  }

  // ---- linked histories ----

  /** Each entry links to what the entries before it make of the document. */
  predicate Linked(doc: Document, h: seq<Change>) {
    h == [] || (Linked(doc, h[..|h| - 1]) && Link(Replay(doc, h[..|h| - 1]), h[|h| - 1]))
  }

  lemma LinkedAppend(doc: Document, h: seq<Change>, c: Change)
    requires Linked(doc, h) && Link(Replay(doc, h), c)
    ensures Linked(doc, h + [c])
  {
    assert (h + [c])[..|h|] == h;
  }

  lemma {:induction false} LinkedConcat(doc: Document, a: seq<Change>, b: seq<Change>)
    requires Linked(doc, a) && Linked(Replay(doc, a), b)
    ensures Linked(doc, a + b)
  {
    hide Link, Replay;
    if b == [] {
      assert a + b == a;
      return;
    }
    var front, last := b[..|b| - 1], b[|b| - 1];
    assert Linked(Replay(doc, a), front) && Link(Replay(Replay(doc, a), front), last);
    assert a + b == (a + front) + [last];
    LinkedConcat(doc, a, front);
    ReplayConcat(doc, a, front);
    LinkedAppend(doc, a + front, last);
  }

  /** A later stretch of a linked history is linked to what the earlier one makes of the document. */
  lemma {:induction false} LinkedTail(doc: Document, a: seq<Change>, b: seq<Change>)
    requires Linked(doc, a + b)
    ensures Linked(Replay(doc, a), b)
  {
    if b == [] {
      return;
    }
    var front, last := b[..|b| - 1], b[|b| - 1];
    assert (a + b)[..|a + b| - 1] == a + front && (a + b)[|a + b| - 1] == last;
    assert Linked(doc, a + front) && Link(Replay(doc, a + front), last);
    ReplayConcat(doc, a, front);
    LinkedTail(doc, a, front);
    hide Link, Replay;
  }
}
