/** The PostgreSQL store as one transaction sees it: row reads, row writes and savepoints. */
module SyncStore {
  import opened Wrappers
  import opened SyncModel

  class Store {
    var tables: Tables
    var savepointSeq: nat
    var savepoints: map<nat, Tables>

    constructor (tables: Tables)
      ensures this.tables == tables && savepoints == map[]
    {
      this.tables := tables;
      savepointSeq := 0;
      savepoints := map[];
    }

    // ---- savepoints ----

    method Savepoint() returns (name: nat)
      modifies this`savepointSeq, this`savepoints
      ensures name == savepointSeq == old(savepointSeq) + 1
      ensures savepoints == old(savepoints)[name := tables]
    {
      savepointSeq := savepointSeq + 1;
      name := savepointSeq;
      savepoints := savepoints[name := tables];
    }

    /** Restores the saved rows. Identity sequences are not transactional: they keep their position. */
    method RollbackTo(name: nat)
      requires name in savepoints
      modifies this`tables
      ensures tables == savepoints[name].(nextSequence := old(tables.nextSequence))
    {
      tables := savepoints[name].(nextSequence := tables.nextSequence);
    }

    method Release(name: nat)
      modifies this`savepoints
      ensures savepoints == old(savepoints) - {name}
    {
      savepoints := savepoints - {name};
    }

    /** Rolls the whole transaction back to the tables it began with. */
    method Rollback(begin: Tables)
      modifies this`tables
      ensures tables == begin.(nextSequence := old(tables.nextSequence))
    {
      tables := begin.(nextSequence := tables.nextSequence);
    }

    // ---- notes and blocks ----

    /** Inserts a note row; false is a unique violation. */
    method CreateNote(noteId: Id, note: Note) returns (inserted: bool)
      modifies this`tables
      ensures inserted <==> noteId !in old(tables).notes
      ensures tables == if inserted then old(tables).(notes := old(tables).notes[noteId := note.(deleted := false)])
          else old(tables)
    {
      if noteId in tables.notes {
        return false;
      }
      tables := tables.(notes := tables.notes[noteId := note.(deleted := false)]);
      return true;
    }

    method UpdateNoteState(noteId: Id, note: Note)
      modifies this`tables
      ensures tables == if OwnedNote(old(tables), noteId, note.owner).Some?
                        then old(tables).(notes := old(tables).notes[noteId := note]) else old(tables)
    {
      if OwnedNote(tables, noteId, note.owner).Some? {
        tables := tables.(notes := tables.notes[noteId := note]);
      }
    }

    /** Soft-deletes the note only at the expected version and returns the row it left. */
    method DeleteNote(noteId: Id, owner: Id, expectedVersion: int) returns (deleted: Option<Note>)
      modifies this`tables
      ensures deleted.Some? <==>
                OwnedNote(old(tables), noteId, owner).Some? && old(tables).notes[noteId].version == expectedVersion
      ensures deleted.Some? ==> deleted.value == old(tables).notes[noteId].(deleted := true)
      ensures tables == if deleted.Some? then old(tables).(notes := old(tables).notes[noteId := deleted.value])
          else old(tables)
    {
      var row := OwnedNote(tables, noteId, owner);
      if row.None? || row.value.version != expectedVersion {
        return None;
      }
      tables := tables.(notes := tables.notes[noteId := row.value.(deleted := true)]);
      return Some(tables.notes[noteId]);
    }

    /** Inserts a block row; false is a unique violation. */
    method CreateBlock(blockId: Id, block: Block) returns (inserted: bool)
      modifies this`tables
      ensures inserted <==> blockId !in old(tables).blocks
      ensures tables == if inserted
                        then old(tables).(blocks := old(tables).blocks[blockId := block.(deleted := false)])
                        else old(tables)
    {
      if blockId in tables.blocks {
        return false;
      }
      tables := tables.(blocks := tables.blocks[blockId := block.(deleted := false)]);
      return true;
    }

    method UpdateBlockState(blockId: Id, block: Block)
      modifies this`tables
      ensures tables == if BlockOfNote(old(tables), blockId, block.noteId).Some?
                        then old(tables).(blocks := old(tables).blocks[blockId := block]) else old(tables)
    {
      if BlockOfNote(tables, blockId, block.noteId).Some? {
        tables := tables.(blocks := tables.blocks[blockId := block]);
      }
    }

    method DeleteBlock(blockId: Id, noteId: Id) returns (deleted: Option<Block>)
      modifies this`tables
      ensures deleted.Some? <==> BlockOfNote(old(tables), blockId, noteId).Some?
      ensures deleted.Some? ==> deleted.value == old(tables).blocks[blockId].(deleted := true)
      ensures tables == if deleted.Some? then old(tables).(blocks := old(tables).blocks[blockId := deleted.value])
          else old(tables)
    {
      var row := BlockOfNote(tables, blockId, noteId);
      if row.None? {
        return None;
      }
      tables := tables.(blocks := tables.blocks[blockId := row.value.(deleted := true)]);
      return Some(tables.blocks[blockId]);
    }

    // ---- history, jobs and snapshots ----

    /** Appends one history row; the database assigns its global sequence. */
    method InsertNoteChange(change: Change) returns (inserted: Change)
      modifies this`tables
      ensures inserted == change.(sequence := old(tables).nextSequence)
      ensures tables == old(tables).(log := old(tables).log + [inserted], nextSequence := old(tables).nextSequence + 1)
    {
      inserted := change.(sequence := tables.nextSequence);
      tables := tables.(log := tables.log + [inserted], nextSequence := tables.nextSequence + 1);
    }

    method EnqueueSnapshotJob(payload: SnapshotPayload)
      modifies this`tables
      ensures tables == old(tables).(jobs := old(tables).jobs + [payload])
    {
      tables := tables.(jobs := tables.jobs + [payload]);
    }

    method PutCategory(id: Id, category: Category)
      modifies this`tables
      ensures tables == old(tables).(categories := old(tables).categories[id := category])
    {
      tables := tables.(categories := tables.categories[id := category]);
    }

    /**
     The owner's device ends at the larger of its stored cursor and the new one; another owner's device, every other
     device and every other table stay as they were.
     */
    method UpdateDeviceCursor(device: string, owner: Id, cursor: int)
      modifies this`tables
      ensures tables == old(tables).(devices := tables.devices)
      ensures tables.devices.Keys == old(tables).devices.Keys
      ensures forall d <- tables.devices :: d != device ==> tables.devices[d] == old(tables).devices[d]
      ensures device in tables.devices ==>
                var before, after := old(tables).devices[device], tables.devices[device];
                && after == before.(cursor := after.cursor)
                && after.cursor >= before.cursor
                && (if before.owner == owner then after.cursor >= cursor && after.cursor in {before.cursor, cursor}
                    else after.cursor == before.cursor)
      ensures tables == WithDeviceCursor(old(tables), device, owner, cursor)
    {
      if device in tables.devices && tables.devices[device].owner == owner {
        var row := tables.devices[device];
        var greatest := if cursor > row.cursor then cursor else row.cursor;
        tables := tables.(devices := tables.devices[device := row.(cursor := greatest)]);
      }
      assert tables.devices == WithDeviceCursor(old(tables), device, owner, cursor).devices;
    }
  }

  /** The tables once a device has been told a cursor. */
  function WithDeviceCursor(t: Tables, device: string, owner: Id, cursor: int): Tables {
    if device in t.devices && t.devices[device].owner == owner && cursor > t.devices[device].cursor
    then t.(devices := t.devices[device := t.devices[device].(cursor := cursor)])
    else t
  }
}
