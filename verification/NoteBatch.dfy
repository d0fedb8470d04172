/**
 Applying one note's operations through the write-back cache. Creates and deletes are written immediately; title,
 property and block edits stay in NoteBatchState until the batch has been accepted. Every method is proved to do
 what the reference executor does.
 */
module NoteBatch {
  import opened Wrappers
  import opened TextDeltas
  import opened SyncModel
  import opened SyncStore
  import opened DirectExecution
  import opened Ordering

  /** The contents of a NoteBatchState. */
  datatype Cache = Cache(note: Option<Note>, loaded: bool, blocks: map<Id, Block>, missing: set<Id>, dirty: set<Id>)

  /**
   The stored tables t seen through cache c are the tables d of the reference executor. Only the note row and block
   rows of noteId may differ: a clean cached block equals its row, a stale row is covered by a cached one.
   */
  ghost predicate Overlay(t: Tables, c: Cache, noteId: Id, owner: Id, d: Tables) {
    && d == t.(notes := d.notes, blocks := d.blocks)
    && d.notes == (if c.note.Some? then t.notes[noteId := c.note.value] else t.notes)
    && d.blocks == t.blocks + c.blocks
    && NoteCached(t, c, noteId, owner)
    && BlocksCached(t, c, noteId)
  }

  ghost predicate NoteCached(t: Tables, c: Cache, noteId: Id, owner: Id) {
    && (c.note.Some? ==>
          && c.loaded
          && noteId != NIL
          && OwnedNote(t, noteId, owner).Some?
          && c.note.value.owner == owner
          && c.note.value.version == t.notes[noteId].version)
    && (c.loaded && c.note.None? ==> OwnedNote(t, noteId, owner).None?)
  }

  ghost predicate BlocksCached(t: Tables, c: Cache, noteId: Id) {
    && c.dirty <= c.blocks.Keys <= t.blocks.Keys
    && (c.blocks != map[] ==> c.note.Some?)
    && (forall b <- c.blocks :: c.blocks[b].noteId == noteId && t.blocks[b].noteId == noteId)
    && (forall b <- c.blocks :: b !in c.dirty ==> t.blocks[b] == c.blocks[b])
    && (forall b <- c.missing :: b in c.blocks || BlockOfNote(t, b, noteId).None?)
  }

  lemma EmptyOverlay(t: Tables, noteId: Id, owner: Id)
    ensures Overlay(t, Cache(None, false, map[], {}, {}), noteId, owner, t)
  {
    assert t.blocks + map[] == t.blocks;
  }

  /** What the note row looks like from both sides. */
  lemma OverlayNote(t: Tables, c: Cache, noteId: Id, owner: Id, d: Tables)
    requires Overlay(t, c, noteId, owner, d)
    ensures c.note.Some? ==> OwnedNote(d, noteId, owner) == c.note
    ensures c.note.None? ==> d.notes == t.notes
    ensures c.loaded && c.note.None? ==> OwnedNote(d, noteId, owner).None?
    ensures noteId in t.notes <==> noteId in d.notes
    ensures d.blocks.Keys == t.blocks.Keys
    ensures d.nextSequence == t.nextSequence
  {
  }

  /** Without a cached note there is nothing cached at all: both sides are the same tables. */
  lemma OverlayUncached(t: Tables, c: Cache, noteId: Id, owner: Id, d: Tables)
    requires Overlay(t, c, noteId, owner, d)
    ensures c.note.None? ==> d == t
    ensures noteId == NIL ==> c.note.None?
    ensures d.log == t.log && d.categories == t.categories && d.nextSequence == t.nextSequence
  {
    if c.note.None? {
      assert t.blocks + c.blocks == t.blocks;
    }
  }

  /** What one block of the note looks like from both sides. */
  lemma OverlayBlock(t: Tables, c: Cache, noteId: Id, owner: Id, d: Tables, id: Id)
    requires Overlay(t, c, noteId, owner, d)
    ensures BlockOfNote(d, id, noteId) == if id in c.blocks then Some(c.blocks[id]) else BlockOfNote(t, id, noteId)
    ensures id in c.blocks ==> BlockOfNote(t, id, noteId).Some?
    ensures id in d.blocks <==> id in t.blocks
    ensures d.nextSequence == t.nextSequence
  {
  }

  /** An edit kept in the cache reads as the same edit made directly. */
  lemma CacheEdit(t: Tables, c: Cache, noteId: Id, owner: Id, d: Tables, id: Id, block: Block)
    requires Overlay(t, c, noteId, owner, d)
    requires id in c.blocks && block.noteId == noteId
    ensures Overlay(t, c.(blocks := c.blocks[id := block], dirty := c.dirty + {id}), noteId, owner,
                    d.(blocks := d.blocks[id := block]))
  {
    assert d.blocks[id := block] == t.blocks + c.blocks[id := block];
  }

  /** A block written to the tables and to the cache at once reads as written directly. */
  lemma WriteThrough(t: Tables, c: Cache, noteId: Id, owner: Id, d: Tables, id: Id, block: Block, missing: set<Id>)
    requires Overlay(t, c, noteId, owner, d)
    requires c.note.Some? && block.noteId == noteId && missing <= c.missing
    requires id in t.blocks ==> t.blocks[id].noteId == noteId
    ensures Overlay(t.(blocks := t.blocks[id := block]),
                    c.(blocks := c.blocks[id := block], dirty := c.dirty - {id}, missing := missing), noteId, owner,
                    d.(blocks := d.blocks[id := block]))
  {
    assert d.blocks[id := block] == t.blocks[id := block] + c.blocks[id := block];
  }

  /** A new note and its blocks, written to the tables and cached. */
  lemma NoteWritten(t: Tables, c: Cache, noteId: Id, owner: Id, d: Tables, note: Note, rows: map<Id, Block>)
    requires Overlay(t, c, noteId, owner, d)
    requires c.note.None? && noteId != NIL && note.owner == owner
    requires rows.Keys !! d.blocks.Keys && forall b <- rows :: rows[b].noteId == noteId
    ensures Overlay(t.(notes := t.notes[noteId := note], blocks := t.blocks + rows),
                    Cache(Some(note), true, rows, c.missing, {}), noteId, owner,
                    d.(notes := d.notes[noteId := note], blocks := d.blocks + rows))
  {
    assert d.notes[noteId := note] == t.notes[noteId := note][noteId := note];
    assert d.blocks == t.blocks;
    assert d.blocks + rows == (t.blocks + rows) + rows;
  }

  /** Blocks are cached only beside their note. */
  lemma OverlayEmpty(t: Tables, c: Cache, noteId: Id, owner: Id, d: Tables)
    requires Overlay(t, c, noteId, owner, d) && (c.loaded ==> c.note.None?)
    ensures c.note.None? && c.blocks == map[] && c.dirty == {}
  {
  }

  class NoteBatchState {
    var note: Option<Note>
    var noteLoaded: bool
    var blocks: map<Id, Block>
    var missingBlocks: set<Id>
    var dirtyBlocks: set<Id>

    constructor ()
      ensures View() == Cache(None, false, map[], {}, {})
    {
      note := None;
      noteLoaded := false;
      blocks := map[];
      missingBlocks := {};
      dirtyBlocks := {};
    }

    function View(): Cache
      reads this
    {
      Cache(note, noteLoaded, blocks, missingBlocks, dirtyBlocks)
    }

    method EnsureNote(store: Store, owner: Id, noteId: Id, ghost d: Tables)
      requires noteId != NIL
      requires Overlay(store.tables, View(), noteId, owner, d)
      modifies this
      ensures Overlay(store.tables, View(), noteId, owner, d)
      ensures noteLoaded && note == OwnedNote(d, noteId, owner)
    {
      if noteLoaded {
        return;
      }
      note := OwnedNote(store.tables, noteId, owner);
      noteLoaded := true;
      assert d.notes == store.tables.notes;
    }

    method EnsureBlock(store: Store, owner: Id, noteId: Id, blockId: Id, ghost d: Tables) returns (block: Option<Block>)
      requires note.Some?
      requires Overlay(store.tables, View(), noteId, owner, d)
      modifies this`blocks, this`missingBlocks
      ensures Overlay(store.tables, View(), noteId, owner, d)
      ensures block == BlockOfNote(d, blockId, noteId)
      ensures block.Some? ==> blockId in blocks && blocks[blockId] == block.value
    {
      if blockId in blocks {
        return Some(blocks[blockId]);
      }
      if blockId in missingBlocks {
        return None;
      }
      block := BlockOfNote(store.tables, blockId, noteId);
      if block.None? {
        missingBlocks := missingBlocks + {blockId};
        return;
      }
      blocks := blocks[blockId := block.value];
      assert d.blocks == store.tables.blocks + blocks;
    }
  }

  /** What an operation handler reports to the batch loop. */
  datatype Result =
    | Accepted(change: Change, changed: bool)
    | Rejected(rejection: Rejection)
    | Error

  /** The handler's report and the state it left are those of the reference step. */
  ghost predicate Matches(r: Result, step: Step, d: Tables, t: Tables, c: Cache, noteId: Id, owner: Id) {
    match step
    case Applied(after) =>
      && r.Accepted? && r.changed && r.change.sequence == d.nextSequence
      && Overlay(t, c, noteId, owner, after)
      && (noteId != NIL ==> c.loaded)
    case Replayed(original) =>
      && r == Accepted(original, false)
      && Overlay(t, c, noteId, owner, d)
      && (noteId != NIL ==> c.loaded)
    case Refused(rejection) => r == Rejected(rejection) && t.nextSequence == d.nextSequence
    case Failed => r == Error && t.nextSequence == d.nextSequence
  }

  /** The same for the category handlers, which do not use the note cache. */
  ghost predicate Performs(r: Result, step: Step, before: Tables, after: Tables) {
    match step
    case Applied(t) => r.Accepted? && r.changed && r.change.sequence == before.nextSequence && after == t
    case Replayed(original) => r == Accepted(original, false) && after == before
    case Refused(rejection) => r == Rejected(rejection) && after == before
    case Failed => r == Error && after == before
  }

  class Service {
    const limits: SnapshotThresholds

    constructor (limits: SnapshotThresholds)
      ensures this.limits == limits
    {
      this.limits := limits;
    }

    method InsertChange(store: Store, who: Caller, op: ClientOperation, base: int,
      resulting: int) returns (change: Change)
      modifies store`tables
      ensures store.tables == AppendChange(old(store.tables), who, op, base, resulting)
      ensures change.sequence == old(store.tables).nextSequence
    {
      change := store.InsertNoteChange(
        Change(0, who.owner, op.noteId, who.device, op.operationId, base, resulting, op.mutation, op.changeBytes));
    }

    /** Appends the history row of an operation on the cached note; d is the reference tables with its edit made. */
    method AcceptOperationChange(store: Store, who: Caller, state: NoteBatchState, op: ClientOperation, ghost d: Tables)
      returns (r: Result)
      requires Overlay(store.tables, state.View(), op.noteId, who.owner, d)
      requires state.note.Some?
      modifies store`tables
      ensures Matches(r, Accept(d, who, op, state.note.value.version), d, store.tables, state.View(), op.noteId,
          who.owner)
    {
      var version := state.note.value.version;
      var change := InsertChange(store, who, op, version, version + 1);
      return Accepted(change, true);
    }

    method ExistingNoteInBatch(store: Store, who: Caller, state: NoteBatchState, op: ClientOperation, ghost d: Tables)
      returns (rejected: Option<Rejection>)
      requires op.noteId != NIL
      requires Overlay(store.tables, state.View(), op.noteId, who.owner, d)
      modifies state
      ensures Overlay(store.tables, state.View(), op.noteId, who.owner, d)
      ensures state.noteLoaded && state.note == OwnedNote(d, op.noteId, who.owner)
      ensures rejected == ExistingNote(d, who, op)
      ensures d.nextSequence == store.tables.nextSequence
    {
      state.EnsureNote(store, who.owner, op.noteId, d);
      if state.note.None? {
        return Some(NOT_FOUND);
      }
      if state.note.value.version != op.baseVersion {
        return Some(Conflict(op, state.note.value.version));
      }
      return None;
    }

    method ModifyNoteProperty(store: Store, who: Caller, state: NoteBatchState, op: ClientOperation, ghost d: Tables)
      returns (r: Result)
      requires op.mutation.ModifyNoteProperty? && op.noteId != NIL
      requires Overlay(store.tables, state.View(), op.noteId, who.owner, d)
      modifies store`tables, state
      ensures Matches(r, ModifyNotePropertyDirect(d, who, op), d, store.tables, state.View(), op.noteId, who.owner)
    {
      if op.mutation.noteProperties.None? {
        return Rejected(INVALID);
      }
      var rejected := ExistingNoteInBatch(store, who, state, op, d);
      if rejected.Some? {
        return Rejected(rejected.value);
      }
      state.note := Some(state.note.value.(properties := op.mutation.noteProperties.value));
      r := AcceptOperationChange(store, who, state, op, d.(notes := d.notes[op.noteId := state.note.value]));
    }

    method ModifyNoteTitle(store: Store, who: Caller, state: NoteBatchState, op: ClientOperation, ghost d: Tables)
      returns (r: Result)
      requires op.mutation.ModifyNoteTitle? && op.noteId != NIL
      requires Overlay(store.tables, state.View(), op.noteId, who.owner, d)
      modifies store`tables, state
      ensures Matches(r, ModifyNoteTitleDirect(d, who, op), d, store.tables, state.View(), op.noteId, who.owner)
    {
      if op.mutation.titleDelta.None? {
        return Rejected(INVALID);
      }
      var rejected := ExistingNoteInBatch(store, who, state, op, d);
      if rejected.Some? {
        return Rejected(rejected.value);
      }
      var title := ApplyTextDelta(state.note.value.title, op.mutation.titleDelta.value);
      if title.None? {
        return Rejected(INVALID);
      }
      state.note := Some(state.note.value.(title := title.value));
      r := AcceptOperationChange(store, who, state, op, d.(notes := d.notes[op.noteId := state.note.value]));
    }

    method DeleteNote(store: Store, who: Caller, state: NoteBatchState, op: ClientOperation, ghost d: Tables)
      returns (r: Result)
      requires op.mutation.DeleteNote? && op.noteId != NIL
      requires Overlay(store.tables, state.View(), op.noteId, who.owner, d)
      modifies store`tables, state
      ensures Matches(r, DeleteNoteDirect(d, who, op), d, store.tables, state.View(), op.noteId, who.owner)
    {
      var deleted := store.DeleteNote(op.noteId, who.owner, op.baseVersion);
      if deleted.None? {
        var current := OwnedNote(store.tables, op.noteId, who.owner);
        if current.None? {
          return Rejected(NOT_FOUND);
        }
        return Rejected(Conflict(op, current.value.version));
      }
      if state.note.None? {
        state.note := deleted;
      } else {
        // Earlier edits of this batch stay; only the deletion is adopted from the stored row.
        state.note := Some(state.note.value.(deleted := deleted.value.deleted));
      }
      state.noteLoaded := true;
      r := AcceptOperationChange(store, who, state, op, d.(notes := d.notes[op.noteId := state.note.value]));
    }

    /** Inserts the blocks of a new note one by one; false at the first id that is already taken. */
    method InsertBlocks(store: Store, state: NoteBatchState, noteId: Id,
      payloads: seq<BlockPayload>) returns (inserted: bool)
      requires state.blocks == map[]
      requires forall j, k | 0 <= j < k < |payloads| :: payloads[j].id != payloads[k].id
      modifies store`tables, state`blocks
      ensures var rows := NewBlocks(noteId, payloads);
              && (inserted <==> rows.Keys !! old(store.tables).blocks.Keys)
              && (inserted ==> state.blocks == rows)
              && (inserted ==> store.tables == old(store.tables).(blocks := old(store.tables).blocks + rows))
              && store.tables.nextSequence == old(store.tables).nextSequence
    {
      ghost var t := store.tables;
      var i := 0;
      assert NewBlocks(noteId, payloads[..0]) == map[];
      hide NewBlocks;
      while i < |payloads|
        invariant 0 <= i <= |payloads|
        invariant state.blocks == NewBlocks(noteId, payloads[..i])
        invariant state.blocks.Keys !! t.blocks.Keys
        invariant store.tables == t.(blocks := t.blocks + state.blocks)
      {
        var block, row := payloads[i], NewBlock(noteId, payloads[i]);
        hide NewBlock;
        var added := store.CreateBlock(block.id, row);
        NextBlock(noteId, payloads, i);
        if !added {
          return false;
        }
        assert (t.blocks + state.blocks)[block.id := row] == t.blocks + state.blocks[block.id := row];
        state.blocks := state.blocks[block.id := row];
        i := i + 1;
      }
      assert payloads[..i] == payloads;
      return true;
    }

    /** The block checks of a create_note payload: one pass with the ids and positions met so far. */
    method ValidateNote(payload: NotePayload) returns (ok: bool)
      ensures ok <==> payload.Valid()
    {
      var blockIds: set<Id>, positions: set<string> := {}, {};
      for i := 0 to |payload.blocks|
        invariant forall k | 0 <= k < i :: payload.blocks[k].Valid()
        invariant forall j, k | 0 <= j < k < i ::
            payload.blocks[j].id != payload.blocks[k].id && payload.blocks[j].position != payload.blocks[k].position
        invariant forall id :: id in blockIds <==> exists k | 0 <= k < i :: payload.blocks[k].id == id
        invariant forall position :: position in positions <==>
            exists k | 0 <= k < i :: payload.blocks[k].position == position
      {
        var block := payload.blocks[i];
        if !block.Valid() || block.id in blockIds || block.position in positions {
          return false;
        }
        blockIds := blockIds + {block.id};
        positions := positions + {block.position};
      }
      return true;
    }

    method InsertNote(store: Store, who: Caller, state: NoteBatchState, op: ClientOperation, payload: NotePayload,
      ghost d: Tables)
      returns (r: Result)
      requires op.noteId != NIL && payload.Valid() && (state.noteLoaded ==> state.note.None?)
      requires Overlay(store.tables, state.View(), op.noteId, who.owner, d)
      modifies store`tables, state
      ensures Matches(r, InsertNoteDirect(d, who, op, payload), d, store.tables, state.View(), op.noteId, who.owner)
    {
      OverlayNote(store.tables, state.View(), op.noteId, who.owner, d);
      OverlayEmpty(store.tables, state.View(), op.noteId, who.owner, d);
      hide Overlay, NewBlocks;
      var note := Note(who.owner, payload.title, payload.properties, 0, false);
      ghost var before, cache, rows := store.tables, state.View(), NewBlocks(op.noteId, payload.blocks);
      var inserted := store.CreateNote(op.noteId, note);
      if !inserted {
        return Rejected(Conflict(op, 0));
      }
      state.note := Some(note);
      state.noteLoaded := true;
      var added := InsertBlocks(store, state, op.noteId, payload.blocks);
      if !added {
        return Rejected(INVALID);
      }
      NoteWritten(before, cache, op.noteId, who.owner, d, note, rows);
      r := AcceptOperationChange(store, who, state, op,
        d.(notes := d.notes[op.noteId := note], blocks := d.blocks + rows));
    }

    method CreateNote(store: Store, who: Caller, state: NoteBatchState, op: ClientOperation, ghost d: Tables)
      returns (r: Result)
      requires op.mutation.CreateNote? && op.noteId != NIL
      requires Overlay(store.tables, state.View(), op.noteId, who.owner, d)
      modifies store`tables, state
      ensures Matches(r, CreateNoteDirect(d, who, !old(state.noteLoaded), op), d, store.tables, state.View(),
          op.noteId, who.owner)
    {
      OverlayNote(store.tables, state.View(), op.noteId, who.owner, d);
      hide Overlay, InsertNoteDirect;
      if op.baseVersion != 0 {
        return Rejected(Conflict(op, 0));
      }
      if state.noteLoaded && state.note.Some? {
        return Rejected(Conflict(op, state.note.value.version));
      }
      if op.mutation.note.None? {
        return Rejected(INVALID);
      }
      var valid := ValidateNote(op.mutation.note.value);
      if !valid {
        return Rejected(INVALID);
      }
      r := InsertNote(store, who, state, op, op.mutation.note.value, d);
    }

    method CreateBlock(store: Store, who: Caller, state: NoteBatchState, op: ClientOperation, ghost d: Tables)
      returns (r: Result)
      requires op.mutation.CreateBlock? && op.noteId != NIL
      requires Overlay(store.tables, state.View(), op.noteId, who.owner, d)
      modifies store`tables, state
      ensures Matches(r, CreateBlockDirect(d, who, op), d, store.tables, state.View(), op.noteId, who.owner)
    {
      if op.mutation.block.None? || !op.mutation.block.value.Valid() {
        return Rejected(INVALID);
      }
      var block := op.mutation.block.value;
      var row := NewBlock(op.noteId, block);
      hide Overlay;
      var rejected := ExistingNoteInBatch(store, who, state, op, d);
      OverlayBlock(store.tables, state.View(), op.noteId, who.owner, d, block.id);
      if rejected.Some? {
        return Rejected(rejected.value);
      }
      if block.id in state.blocks {
        return Rejected(INVALID);
      }
      ghost var before, cache := store.tables, state.View();
      var inserted := store.CreateBlock(block.id, row);
      if !inserted {
        return Rejected(INVALID);
      }
      state.blocks := state.blocks[block.id := row];
      state.missingBlocks := state.missingBlocks - {block.id};
      WriteThrough(before, cache, op.noteId, who.owner, d, block.id, row, cache.missing - {block.id});
      r := AcceptOperationChange(store, who, state, op, d.(blocks := d.blocks[block.id := row]));
    }

    method DeleteBlock(store: Store, who: Caller, state: NoteBatchState, op: ClientOperation, ghost d: Tables)
      returns (r: Result)
      requires op.mutation.DeleteBlock? && op.noteId != NIL
      requires Overlay(store.tables, state.View(), op.noteId, who.owner, d)
      modifies store`tables, state
      ensures Matches(r, DeleteBlockDirect(d, who, op), d, store.tables, state.View(), op.noteId, who.owner)
    {
      if op.mutation.deletedBlock.None? || op.mutation.deletedBlock.value == NIL {
        return Rejected(INVALID);
      }
      var blockId := op.mutation.deletedBlock.value;
      hide Overlay;
      var rejected := ExistingNoteInBatch(store, who, state, op, d);
      OverlayBlock(store.tables, state.View(), op.noteId, who.owner, d, blockId);
      if rejected.Some? {
        return Rejected(rejected.value);
      }
      ghost var before, cache := store.tables, state.View();
      if blockId in state.blocks {
        state.blocks := state.blocks[blockId := state.blocks[blockId].(deleted := true)];
        store.UpdateBlockState(blockId, state.blocks[blockId]);
        state.dirtyBlocks := state.dirtyBlocks - {blockId};
      } else {
        var deleted := store.DeleteBlock(blockId, op.noteId);
        if deleted.None? {
          return Rejected(NOT_FOUND);
        }
        state.blocks := state.blocks[blockId := deleted.value];
      }
      ghost var row := d.blocks[blockId].(deleted := true);
      WriteThrough(before, cache, op.noteId, who.owner, d, blockId, row, cache.missing);
      r := AcceptOperationChange(store, who, state, op, d.(blocks := d.blocks[blockId := row]));
    }

    method EditBlock(row: Block, change: BlockChange) returns (r: Option<Block>)
      ensures r == ChangedBlock(row, change)
      ensures r.Some? ==> r.value.noteId == row.noteId && r.value.deleted == row.deleted
    {
      var block := row;
      if change.properties.Some? {
        block := block.(properties := change.properties.value);
      }
      if change.delta.Some? {
        var text := ApplyTextDelta(block.text, change.delta.value);
        if text.None? {
          return None;
        }
        block := block.(text := text.value);
      }
      return Some(block);
    }

    method ModifyBlock(store: Store, who: Caller, state: NoteBatchState, op: ClientOperation, ghost d: Tables)
      returns (r: Result)
      requires op.mutation.ModifyBlock? && op.noteId != NIL
      requires Overlay(store.tables, state.View(), op.noteId, who.owner, d)
      modifies store`tables, state
      ensures Matches(r, ModifyBlockDirect(d, who, op), d, store.tables, state.View(), op.noteId, who.owner)
    {
      if op.mutation.change.None? || !op.mutation.change.value.Valid() {
        return Rejected(INVALID);
      }
      var change := op.mutation.change.value;
      hide Overlay;
      var rejected := ExistingNoteInBatch(store, who, state, op, d);
      OverlayBlock(store.tables, state.View(), op.noteId, who.owner, d, change.id);
      if rejected.Some? {
        return Rejected(rejected.value);
      }
      var found := state.EnsureBlock(store, who.owner, op.noteId, change.id, d);
      if found.None? {
        return Rejected(NOT_FOUND);
      }
      var changed := EditBlock(found.value, change);
      if changed.None? {
        return Rejected(INVALID);
      }
      var block := changed.value;
      CacheEdit(store.tables, state.View(), op.noteId, who.owner, d, change.id, block);
      state.blocks := state.blocks[change.id := block];
      state.dirtyBlocks := state.dirtyBlocks + {change.id};
      r := AcceptOperationChange(store, who, state, op, d.(blocks := d.blocks[change.id := block]));
    }

    // ---- categories ----

    method CreateCategory(store: Store, who: Caller, op: ClientOperation) returns (r: Result)
      requires op.mutation.CreateCategory?
      modifies store`tables
      ensures Performs(r, CreateCategoryDirect(old(store.tables), who, op), old(store.tables), store.tables)
    {
      if !DecodedCategory(op.mutation.created) {
        return Rejected(INVALID);
      }
      var c := op.mutation.created.value;
      if c.id in store.tables.categories || !NameFree(store.tables, who.owner, c.name, c.id) {
        return Error;
      }
      store.PutCategory(c.id, Category(who.owner, c.name, false));
      var change := InsertChange(store, who, op, 0, 0);
      return Accepted(change, true);
    }

    method DeleteCategory(store: Store, who: Caller, op: ClientOperation) returns (r: Result)
      requires op.mutation.DeleteCategory?
      modifies store`tables
      ensures Performs(r, DeleteCategoryDirect(old(store.tables), who, op), old(store.tables), store.tables)
    {
      if op.mutation.deletedCategory.None? || op.mutation.deletedCategory.value == NIL {
        return Rejected(INVALID);
      }
      var id := op.mutation.deletedCategory.value;
      if !LiveCategory(store.tables, id, who.owner) {
        return Rejected(NOT_FOUND);
      }
      store.PutCategory(id, store.tables.categories[id].(deleted := true));
      var change := InsertChange(store, who, op, 0, 0);
      return Accepted(change, true);
    }

    method ModifyCategory(store: Store, who: Caller, op: ClientOperation) returns (r: Result)
      requires op.mutation.ModifyCategory?
      modifies store`tables
      ensures Performs(r, ModifyCategoryDirect(old(store.tables), who, op), old(store.tables), store.tables)
    {
      if !DecodedCategory(op.mutation.renamed) {
        return Rejected(INVALID);
      }
      var c := op.mutation.renamed.value;
      if !LiveCategory(store.tables, c.id, who.owner) {
        return Rejected(NOT_FOUND);
      }
      if !NameFree(store.tables, who.owner, c.name, c.id) {
        return Error;
      }
      store.PutCategory(c.id, store.tables.categories[c.id].(name := c.name));
      var change := InsertChange(store, who, op, 0, 0);
      return Accepted(change, true);
    }

    // ---- one operation ----

    /** A retry changes nothing; it only loads the note so that the batch can report its version. */
    method Replay(store: Store, who: Caller, state: NoteBatchState, op: ClientOperation, original: Change,
      ghost d: Tables)
      returns (r: Result)
      requires Overlay(store.tables, state.View(), op.noteId, who.owner, d)
      modifies state
      ensures Matches(r, Replayed(original), d, store.tables, state.View(), op.noteId, who.owner)
    {
      if op.noteId != NIL {
        state.EnsureNote(store, who.owner, op.noteId, d);
      }
      return Accepted(original, false);
    }

    method ApplyOperation(store: Store, who: Caller, state: NoteBatchState, op: ClientOperation, ghost d: Tables)
      returns (r: Result)
      requires Overlay(store.tables, state.View(), op.noteId, who.owner, d)
      modifies store`tables, state
      ensures op.noteId != NIL ==>
                Matches(r, Apply(d, who, !old(state.noteLoaded), op), d, store.tables, state.View(), op.noteId,
                  who.owner)
      ensures op.noteId == NIL ==>
                forall first :: Matches(r, Apply(d, who, first, op), d, store.tables, state.View(), op.noteId,
                  who.owner)
      ensures r.Accepted? && !r.changed ==> store.tables == old(store.tables)
    {
      OverlayUncached(store.tables, state.View(), op.noteId, who.owner, d);
      hide Overlay;
      var processed := FindProcessed(store.tables.log, who.device, op.operationId);
      if processed.Some? {
        r := Replay(store, who, state, op, processed.value, d);
        return;
      }
      if !op.Valid() {
        return Rejected(INVALID);
      }
      if op.mutation.OnCategory() {
        r := ApplyCategoryOperation(store, who, state, op, d);
      } else {
        r := ApplyNoteOperation(store, who, state, op, d);
      }
    }

    method ApplyCategoryOperation(store: Store, who: Caller, state: NoteBatchState, op: ClientOperation,
      ghost d: Tables)
      returns (r: Result)
      requires op.mutation.OnCategory() && op.noteId == NIL
      requires op.Valid() && FindProcessed(d.log, who.device, op.operationId).None?
      requires Overlay(store.tables, state.View(), NIL, who.owner, d)
      modifies store`tables
      ensures forall first :: Matches(r, Apply(d, who, first, op), d, store.tables, state.View(), NIL, who.owner)
      ensures r.Accepted? ==> r.changed
    {
      OverlayUncached(store.tables, state.View(), NIL, who.owner, d);
      match op.mutation {
        case CreateCategory(_) => r := CreateCategory(store, who, op);
        case DeleteCategory(_) => r := DeleteCategory(store, who, op);
        case ModifyCategory(_) => r := ModifyCategory(store, who, op);
      }
    }

    method ApplyNoteOperation(store: Store, who: Caller, state: NoteBatchState, op: ClientOperation, ghost d: Tables)
      returns (r: Result)
      requires !op.mutation.OnCategory() && op.noteId != NIL
      requires op.Valid() && FindProcessed(d.log, who.device, op.operationId).None?
      requires Overlay(store.tables, state.View(), op.noteId, who.owner, d)
      modifies store`tables, state
      ensures Matches(r, Apply(d, who, !old(state.noteLoaded), op), d, store.tables, state.View(), op.noteId, who.owner)
      ensures r.Accepted? ==> r.changed
    {
      hide Overlay;
      match op.mutation {
        case CreateNote(_) => r := CreateNote(store, who, state, op, d);
        case DeleteNote => r := DeleteNote(store, who, state, op, d);
        case ModifyNoteProperty(_) => r := ModifyNoteProperty(store, who, state, op, d);
        case ModifyNoteTitle(_) => r := ModifyNoteTitle(store, who, state, op, d);
        case CreateBlock(_) => r := CreateBlock(store, who, state, op, d);
        case DeleteBlock(_) => r := DeleteBlock(store, who, state, op, d);
        case ModifyBlock(_) => r := ModifyBlock(store, who, state, op, d);
      }
    }

    // ---- the batch ----

    method EnqueueSnapshot(store: Store, noteId: Id, owner: Id, version: int)
      modifies store`tables
      ensures store.tables == EnqueueSnapshotIfNeeded(old(store.tables), limits, noteId, owner, version)
    {
      if limits.changes <= 0 && limits.bytes <= 0 {
        return;
      }
      var latest := LatestSnapshotVersion(store.tables.snapshots, noteId);
      var changeCount := CountChangesAfter(store.tables.log, noteId, latest);
      var changeBytes := SumBytesAfter(store.tables.log, noteId, latest);
      if (limits.changes > 0 && changeCount >= limits.changes) || (limits.bytes > 0 && changeBytes >= limits.bytes) {
        store.EnqueueSnapshotJob(SnapshotPayload(noteId, owner, version));
      }
    }

    /** Writes the cached note with its new version, then the dirty blocks in whatever order they come. */
    method Flush(store: Store, state: NoteBatchState, owner: Id, noteId: Id, ghost d: Tables)
      requires state.note.Some?
      requires Overlay(store.tables, state.View(), noteId, owner, d)
      modifies store`tables, state`note
      ensures OwnedNote(d, noteId, owner).Some?
      ensures store.tables == BumpVersion(d, noteId)
      ensures state.note == Some(store.tables.notes[noteId])
    {
      var note := state.note.value.(version := state.note.value.version + 1);
      BeforeFlush(store.tables, state.View(), noteId, owner, d, note);
      hide Overlay, Flushing;
      state.note := Some(note);
      store.UpdateNoteState(noteId, note);
      var remaining := state.dirtyBlocks;
      while remaining != {}
        invariant remaining <= state.dirtyBlocks && state.note == Some(note)
        invariant store.tables == d.(notes := d.notes[noteId := note], blocks := store.tables.blocks)
        invariant Flushing(store.tables.blocks, d.blocks, remaining, noteId)
        decreases remaining
      {
        var blockId :| blockId in remaining;
        FlushOne(store.tables.blocks, d.blocks, remaining, noteId, blockId);
        store.UpdateBlockState(blockId, state.blocks[blockId]);
        remaining := remaining - {blockId};
      }
      FlushedAll(store.tables.blocks, d.blocks, noteId);
    }

    /** One operation of the batch, after which the cache stands over the reference executor's next tables. */
    method ApplyNext(store: Store, who: Caller, state: NoteBatchState, op: ClientOperation, first: bool,
      ghost before: Progress)
      returns (r: Result, ghost after: Progress)
      requires before.Running?
      requires Overlay(store.tables, state.View(), op.noteId, who.owner, before.tables)
      requires op.noteId != NIL ==> (first <==> !state.noteLoaded)
      modifies store`tables, state
      ensures after == Advance(before, who, first, op)
      ensures Follows(r, before, after, old(store.tables), store.tables, state.View(), op.noteId, who.owner)
    {
      ghost var d := before.tables;
      OverlayUncached(store.tables, state.View(), op.noteId, who.owner, d);
      hide Overlay, Apply;
      r := ApplyOperation(store, who, state, op, d);
      after := Advance(before, who, first, op);
      assert Matches(r, Apply(d, who, first, op), d, store.tables, state.View(), op.noteId, who.owner);
      if after.Running? {
        OverlayUncached(store.tables, state.View(), op.noteId, who.owner, after.tables);
      }
    }

    /** The loop under the savepoint: it stops at the first rejection or database error. */
    method ApplyOperations(store: Store, who: Caller, state: NoteBatchState, operations: seq<ClientOperation>)
      returns (verdict: Verdict, ghost progress: Progress)
      requires OneNote(operations)
      requires state.View() == Cache(None, false, map[], {}, {})
      modifies store`tables, state
      ensures progress == ApplyAll(old(store.tables), who, operations)
      ensures Reports(verdict, progress, store.tables, state.View(), operations[0].noteId, who.owner)
    {
      ghost var t0, noteId := store.tables, operations[0].noteId;
      var changed, latestCursor := false, 0;
      progress := Running(t0, false, 0);
      StartsMidway(t0, who, operations);
      hide Overlay, Apply, ApplyAll, Advance, Follows;
      for k := 0 to |operations|
        invariant progress == ApplyAll(t0, who, operations[..k])
        invariant Midway(progress, changed, latestCursor, store.tables, state.View(), noteId, who.owner, k > 0)
      {
        ghost var before, t := progress, store.tables;
        var r;
        r, progress := ApplyNext(store, who, state, operations[k], k == 0, before);
        LoopStep(t0, who, operations, k, r, before, progress, changed, latestCursor, t, store.tables, state.View());
        if !r.Accepted? {
          return VerdictOf(r), progress;
        }
        changed := changed || r.changed;
        if r.changed && r.change.sequence > latestCursor {
          latestCursor := r.change.sequence;
        }
      }
      verdict := AllAccepted(changed, latestCursor);
    }

    /**
     All of one note's operations under a savepoint. Caching, immediate writes and the final flush come to exactly what
     the reference executor does: the same tables, the same history, the same verdict.
     */
    method ApplyOperationBatch(store: Store, who: Caller, request: seq<ClientOperation>) returns (reply: BatchReply)
      requires OneNote(request)
      modifies store
      ensures reply == ReplyOf(request, ApplyBatch(old(store.tables), limits, who, SortedOperations(request)))
      ensures store.tables == ApplyBatch(old(store.tables), limits, who, SortedOperations(request)).tables
    {
      var operations := SortedOperations(request);
      SortKeepsNote(request);
      var noteId := operations[0].noteId;
      var state := new NoteBatchState();
      var savepoint := store.Savepoint();
      ghost var t0 := store.tables;
      var verdict, progress := ApplyOperations(store, who, state, operations);
      if verdict.AllAborted? {
        store.RollbackTo(savepoint);
        store.Release(savepoint);
        return BatchError;
      }
      if verdict.StoppedAt? {
        store.RollbackTo(savepoint);
        store.Release(savepoint);
        return RejectedReply(RejectedBatch(store.tables, who, noteId, verdict.rejection));
      }
      store.Release(savepoint);
      OverlayUncached(store.tables, state.View(), noteId, who.owner, progress.tables);
      OverlayNote(store.tables, state.View(), noteId, who.owner, progress.tables);
      if verdict.changed && state.note.Some? {
        Flush(store, state, who.owner, noteId, progress.tables);
        EnqueueSnapshot(store, noteId, who.owner, state.note.value.version);
      }
      var noteVersion := 0;
      if state.note.Some? {
        noteVersion := state.note.value.version;
      }
      return AcceptedReply(noteId, noteVersion, verdict.cursor);
    }
  }

  /** Only the rows still to be written differ from the target. */
  ghost predicate Flushing(rows: map<Id, Block>, target: map<Id, Block>, remaining: set<Id>, noteId: Id) {
    && rows.Keys == target.Keys
    && remaining <= rows.Keys
    && (forall b <- target :: b !in remaining ==> rows[b] == target[b])
    && (forall b <- remaining :: rows[b].noteId == noteId)
  }

  lemma BeforeFlush(t: Tables, c: Cache, noteId: Id, owner: Id, d: Tables, note: Note)
    requires Overlay(t, c, noteId, owner, d) && c.note.Some?
    ensures OwnedNote(d, noteId, owner) == c.note && OwnedNote(t, noteId, owner).Some? && c.note.value.owner == owner
    ensures Flushing(t.blocks, d.blocks, c.dirty, noteId)
    ensures c.dirty <= c.blocks.Keys && forall b <- c.dirty ::
        b in d.blocks && c.blocks[b] == d.blocks[b] && d.blocks[b].noteId == noteId
    ensures t.(notes := t.notes[noteId := note]) == d.(notes := d.notes[noteId := note], blocks := t.blocks)
  {
    assert t.notes[noteId := note] == d.notes[noteId := note];
  }

  lemma FlushOne(rows: map<Id, Block>, target: map<Id, Block>, remaining: set<Id>, noteId: Id, b: Id)
    requires Flushing(rows, target, remaining, noteId) && b in remaining && b in target && target[b].noteId == noteId
    ensures b in rows && rows[b].noteId == noteId
    ensures Flushing(rows[b := target[b]], target, remaining - {b}, noteId)
  {
  }

  lemma FlushedAll(rows: map<Id, Block>, target: map<Id, Block>, noteId: Id)
    requires Flushing(rows, target, {}, noteId)
    ensures rows == target
  {
  }

  /** How one reported operation moves the reference executor on. */
  ghost predicate Follows(r: Result, before: Progress, after: Progress, t: Tables, t': Tables, c': Cache, noteId: Id,
    owner: Id)
    requires before.Running?
  {
    && t'.nextSequence == after.tables.nextSequence
    && match r
       case Error => after.Aborted?
       case Rejected(rejection) => after.Stopped? && after.rejection == rejection
       case Accepted(change, changed) =>
         && after.Running?
         && after.changed == (before.changed || changed)
         && after.cursor == (if changed && change.sequence > before.cursor then change.sequence else before.cursor)
         && Overlay(t', c', noteId, owner, after.tables)
         && (noteId != NIL ==> c'.loaded)
         && (!changed ==> t' == t && after.tables == before.tables)
  }

  /** The loop's variables and the cache, against the reference executor's progress. */
  ghost predicate Midway(p: Progress, changed: bool, cursor: nat, t: Tables, c: Cache, noteId: Id, owner: Id,
    started: bool) {
    && p == Running(p.tables, changed, cursor)
    && Overlay(t, c, noteId, owner, p.tables)
    && (noteId != NIL ==> (c.loaded <==> started))
    && (!changed ==> t == p.tables)
    && t.nextSequence == p.tables.nextSequence
  }

  lemma StartsMidway(t: Tables, who: Caller, ops: seq<ClientOperation>)
    requires OneNote(ops)
    ensures ApplyAll(t, who, ops[..0]) == Running(t, false, 0) && ops[..|ops|] == ops
    ensures Midway(Running(t, false, 0), false, 0, t, Cache(None, false, map[], {}, {}), ops[0].noteId, who.owner,
        false)
    ensures forall k | 0 <= k < |ops| :: ops[k].noteId == ops[0].noteId
  {
    EmptyOverlay(t, ops[0].noteId, who.owner);
  }

  lemma FollowsMidway(r: Result, before: Progress, after: Progress, changed: bool, cursor: nat,
                      t: Tables, t': Tables, c': Cache, noteId: Id, owner: Id)
    requires before.Running? && before == Running(before.tables, changed, cursor) && (!changed ==> t == before.tables)
    requires Follows(r, before, after, t, t', c', noteId, owner)
    ensures t'.nextSequence == after.tables.nextSequence
    ensures match r
            case Error => after.Aborted?
            case Rejected(rejection) => after.Stopped? && after.rejection == rejection
            case Accepted(change, moved) =>
              Midway(after, changed || moved, if moved && change.sequence > cursor then change.sequence else cursor,
                t', c', noteId, owner, true)
  {
    hide Overlay;
  }

  function VerdictOf(r: Result): Verdict
    requires !r.Accepted?
  {
    if r.Rejected? then StoppedAt(r.rejection) else AllAborted
  }

  lemma LoopStep(t0: Tables, who: Caller, ops: seq<ClientOperation>, k: nat, r: Result, before: Progress,
    after: Progress,
                 changed: bool, cursor: nat, t: Tables, t': Tables, c': Cache)
    requires OneNote(ops) && k < |ops|
    requires before == ApplyAll(t0, who, ops[..k]) && before == Running(before.tables, changed, cursor)
    requires (!changed ==> t == before.tables)
    requires after == Advance(before, who, k == 0, ops[k])
    requires Follows(r, before, after, t, t', c', ops[k].noteId, who.owner)
    ensures if r.Accepted? then
              && after == ApplyAll(t0, who, ops[..k + 1])
              && Midway(after, changed || r.changed, if r.changed && r.change.sequence > cursor then r.change.sequence
                   else cursor,
                   t', c', ops[0].noteId, who.owner, true)
            else
              after == ApplyAll(t0, who, ops) && Reports(VerdictOf(r), after, t', c', ops[0].noteId, who.owner)
  {
    ApplyAllNext(t0, who, ops, k);
    assert ops[k].noteId == ops[0].noteId;
    hide ApplyAll, Advance, OneNote;
    FollowsMidway(r, before, after, changed, cursor, t, t', c', ops[k].noteId, who.owner);
    if !r.Accepted? {
      StopsHere(t0, who, ops, k + 1);
    }
    hide Follows, Midway;
  }

  /** What the loop reports of a batch. */
  ghost predicate Reports(verdict: Verdict, p: Progress, t: Tables, c: Cache, noteId: Id, owner: Id) {
    && t.nextSequence == p.tables.nextSequence
    && match verdict
       case AllAborted => p.Aborted?
       case StoppedAt(rejection) => p.Stopped? && p.rejection == rejection
       case AllAccepted(changed, cursor) => Midway(p, changed, cursor, t, c, noteId, owner, true)
  }

  datatype Verdict = AllAccepted(changed: bool, cursor: nat) | StoppedAt(rejection: Rejection) | AllAborted

  datatype BatchReply =
    | AcceptedReply(noteId: Id, noteVersion: int, cursor: nat)
    | RejectedReply(rejected: BatchRejection)
    | BatchError

  ghost function ReplyOf(ops: seq<ClientOperation>, outcome: BatchOutcome): BatchReply
    requires ops != []
  {
    match outcome
    case BatchAccepted(_, noteVersion, cursor) => AcceptedReply(ops[0].noteId, noteVersion, cursor)
    case BatchRejected(_, rejected) => RejectedReply(rejected)
    case BatchFailed(_) => BatchError
  }

  lemma ApplyAllNext(t: Tables, who: Caller, ops: seq<ClientOperation>, k: nat)
    requires k < |ops| && ApplyAll(t, who, ops[..k]).Running?
    ensures ApplyAll(t, who, ops[..k + 1]) == Advance(ApplyAll(t, who, ops[..k]), who, k == 0, ops[k])
  {
    hide Advance;
    assert ops[..k + 1][..k] == ops[..k];
  }

  /** Once a prefix has stopped or failed, the rest of the batch is not looked at. */
  lemma {:induction false} StopsHere(t: Tables, who: Caller, ops: seq<ClientOperation>, k: nat)
    requires k <= |ops|
    requires !ApplyAll(t, who, ops[..k]).Running?
    ensures ApplyAll(t, who, ops) == ApplyAll(t, who, ops[..k])
    decreases |ops|
  {
    hide Advance;
    if k == |ops| {
      assert ops[..k] == ops;
    } else {
      var n := |ops| - 1;
      assert ops[..n][..k] == ops[..k];
      StopsHere(t, who, ops[..n], k);
    }
  }

  lemma SortKeepsNote(ops: seq<ClientOperation>)
    requires OneNote(ops)
    ensures OneNote(SortedOperations(ops)) && SortedOperations(ops)[0].noteId == ops[0].noteId
  {
    SortSorts(ops);
    var sorted := SortedOperations(ops);
    assert |multiset(sorted)| == |multiset(ops)|;
    forall op | op in sorted
      ensures op.noteId == ops[0].noteId
    {
      assert op in multiset(ops);
    }
  }

  /** The next new block does not repeat an earlier one, and if its id is taken the whole set collides. */
  lemma NextBlock(noteId: Id, payloads: seq<BlockPayload>, i: nat)
    requires i < |payloads|
    requires forall j, k | 0 <= j < k < |payloads| :: payloads[j].id != payloads[k].id
    ensures payloads[i].id !in NewBlocks(noteId, payloads[..i])
    ensures payloads[i].id in NewBlocks(noteId, payloads)
    ensures NewBlocks(noteId, payloads[..i + 1])
        == NewBlocks(noteId, payloads[..i])[payloads[i].id := NewBlock(noteId, payloads[i])]
  {
    NewBlockIds(noteId, payloads[..i], payloads[i].id);
    NewBlockIds(noteId, payloads, payloads[i].id);
    assert payloads[..i + 1][..i] == payloads[..i];
  }
}
