/** Runs in which reading without the note's lock, or pulling beside an open transaction, goes wrong. */
module Anomalies {
  import opened Wrappers
  import opened SyncModel
  import opened DirectExecution
  import opened ChangeLog
  import opened Ledger
  import opened Replica
  import opened Locking

  /** A transaction that writes one entry and commits, as the steps it takes. */
  function Whole(e: Event, n: Id): seq<Event>
    requires e.Insert?
  {
    [BeginTx(e.id), LockNote(e.id, n), Grant(e.id), e, Commit(e.id)]
  }

  /** Beginning and locking a free note. */
  lemma Locks(db: Db, id: nat, n: Id)
    requires id !in db.txs && n != NIL && Free(db, n)
    ensures Next(Next(Next(db, BeginTx(id)), LockNote(id, n)), Grant(id))
         == db.(txs := db.txs[id := Tx({n}, None, map[n := DocOf(db, n)], [], Some(n))])
  {
    var waiting := db.(txs := db.txs[id := NEW_TX.(waiting := Some(n))]);
    assert MayLock(NEW_TX, n);
    assert Next(Next(db, BeginTx(id)), LockNote(id, n)) == waiting;
    assert Free(waiting, n);
    assert {} + {n} == {n};
    assert map[][n := DocOf(db, n)] == map[n := DocOf(db, n)];
  }

  /** Its first four steps. */
  lemma Writes(db: Db, e: Event, n: Id)
    requires e.Insert? && e.id !in db.txs && n != NIL && Free(db, n) && Link(DocOf(db, n), EntryFor(db, n, e))
    ensures Next(Next(Next(Next(db, BeginTx(e.id)), LockNote(e.id, n)), Grant(e.id)), e)
         == db.(next := db.next + 1,
                txs := db.txs[e.id := Tx({n}, None, map[n := ApplyChange(DocOf(db, n), EntryFor(db, n, e))],
                  [EntryFor(db, n, e)], Some(n))])
  {
    hide ApplyChange, Link;
    Locks(db, e.id, n);
    var locked := db.(txs := db.txs[e.id := Tx({n}, None, map[n := DocOf(db, n)], [], Some(n))]);
    assert EntryFor(locked, n, e) == EntryFor(db, n, e);
    assert map[n := DocOf(db, n)][n := ApplyChange(DocOf(db, n), EntryFor(db, n, e))]
      == map[n := ApplyChange(DocOf(db, n), EntryFor(db, n, e))];
    assert [] + [EntryFor(db, n, e)] == [EntryFor(db, n, e)];
    assert Next(locked, e) == db.(next := db.next + 1,
      txs := db.txs[e.id := Tx({n}, None, map[n := ApplyChange(DocOf(db, n), EntryFor(db, n, e))],
        [EntryFor(db, n, e)], Some(n))]);
  }

  /** Beside transactions that leave its note alone it is as good as atomic. */
  lemma WholeTransaction(db: Db, e: Event, n: Id)
    requires e.Insert? && e.id !in db.txs && n != NIL && Free(db, n) && Link(DocOf(db, n), EntryFor(db, n, e))
    ensures RunOn(db, Whole(e, n))
         == Db(db.docs[n := ApplyChange(DocOf(db, n), EntryFor(db, n, e))], db.committed + [EntryFor(db, n, e)],
           db.next + 1, db.txs)
  {
    Writes(db, e, n);
    FiveSteps(db, BeginTx(e.id), LockNote(e.id, n), Grant(e.id), e, Commit(e.id));
    Commits(db, e.id, n, ApplyChange(DocOf(db, n), EntryFor(db, n, e)), EntryFor(db, n, e));
    hide RunOn, ApplyChange, Link, EntryFor, Next;
  }

  lemma Commits(db: Db, id: nat, n: Id, doc: Document, c: Change)
    requires id !in db.txs
    ensures Next(db.(next := db.next + 1, txs := db.txs[id := Tx({n}, None, map[n := doc], [c], Some(n))]), Commit(id))
         == Db(db.docs[n := doc], db.committed + [c], db.next + 1, db.txs)
  {
    var tx := Tx({n}, None, map[n := doc], [c], Some(n));
    assert Publish(db.docs, tx) == db.docs[n := doc];
    assert db.txs[id := tx] - {id} == db.txs;
  }

  lemma FiveSteps(db: Db, a: Event, b: Event, c: Event, d: Event, e: Event)
    ensures RunOn(db, [a, b, c, d, e]) == Next(Next(Next(Next(Next(db, a), b), c), d), e)
  {
    hide Next;
    assert [a, b, c, d, e][..4] == [a, b, c, d] && [a, b, c, d][..3] == [a, b, c];
    assert [a, b, c][..2] == [a, b] && [a, b][..1] == [a] && [a][..0] == [];
    assert RunOn(db, []) == db;
    assert RunOn(db, [a]) == Next(db, a);
    assert RunOn(db, [a, b]) == Next(Next(db, a), b);
    assert RunOn(db, [a, b, c]) == Next(Next(Next(db, a), b), c);
  }

  const OWNER: Id := 9
  const CREATED := CreateNote(Some(NotePayload("a", "", [])))
  const BLOCK := BlockPayload(5, "text", "1", "b", "")
  const ADDED := CreateBlock(Some(BLOCK))

  const NOTE_ROW := Note(OWNER, "a", "", 1, false)
  const BLOCK_ROWS := map[5 := NewBlock(1, BLOCK)]

  // ---- a torn document ----

  const CREATE_NOTE := Insert(1, OWNER, "other", 11, CREATED, 0)
  const ADD_BLOCK := Insert(2, OWNER, "other", 12, ADDED, 0)
  const FIRST := Change(1, OWNER, 1, "other", 11, 0, 1, CREATED, 0)
  const SECOND := Change(2, OWNER, 1, "other", 12, 1, 2, ADDED, 0)

  const AFTER_CREATE := Db(map[1 := Present(NOTE_ROW, map[])], [FIRST], 2, map[])
  const AFTER_BLOCK := Db(map[1 := Present(NOTE_ROW.(version := 2), BLOCK_ROWS)], [FIRST, SECOND], 3, map[])

  lemma CreateThenAdd()
    ensures RunOn(EMPTY_DB, Whole(CREATE_NOTE, 1)) == AFTER_CREATE
    ensures RunOn(AFTER_CREATE, Whole(ADD_BLOCK, 1)) == AFTER_BLOCK
  {
    WholeTransaction(EMPTY_DB, CREATE_NOTE, 1);
    WholeTransaction(AFTER_CREATE, ADD_BLOCK, 1);
    assert NewBlocks(1, []) == map[];
    assert EntryFor(EMPTY_DB, 1, CREATE_NOTE) == FIRST && EntryFor(AFTER_CREATE, 1, ADD_BLOCK) == SECOND;
    assert map[][5 := NewBlock(1, BLOCK)] == BLOCK_ROWS;
    assert [FIRST] + [SECOND] == [FIRST, SECOND] && [] + [FIRST] == [FIRST];
    hide RunOn;
  }

  /**
   The row read before another transaction's commit and the blocks after it: a document the note never was, since no
   prefix of its history folds to it. Reads for snapshots and for the note endpoint take no lock.
   */
  lemma UnlockedReadTears()
    ensures var first := RunOn(EMPTY_DB, Whole(CREATE_NOTE, 1));
            var second := RunOn(first, Whole(ADD_BLOCK, 1));
            && DocOf(first, 1).Present? && DocOf(second, 1).Present?
            && var torn := Present(DocOf(first, 1).note, DocOf(second, 1).blocks);
               var h := History(second.committed, 1);
               forall p | 0 <= p <= |h| :: Replay(Absent, h[..p]) != torn
  {
    CreateThenAdd();
    hide RunOn;
    var h := History(AFTER_BLOCK.committed, 1);
    SelectEverything([FIRST, SECOND], OfNote(1));
    assert h == [FIRST, SECOND];
    forall p | 0 <= p <= |h|
      ensures Replay(Absent, h[..p]) != Present(NOTE_ROW, BLOCK_ROWS)
    {
      assert NewBlocks(1, []) == map[];
      assert h[..0] == [] && h[..1] == [FIRST] && h[..2] == h && [FIRST][..0] == [];
      assert Replay(Absent, [FIRST]) == Present(NOTE_ROW, map[]);
      assert 5 in BLOCK_ROWS;
    }
  }

  // ---- a missed entry ----

  const SLOW := Insert(1, OWNER, "other", 11, CREATED, 0)
  const QUICK := Insert(2, OWNER, "other", 12, CREATED, 0)
  const SLOW_ENTRY := Change(1, OWNER, 1, "other", 11, 0, 1, CREATED, 0)
  const QUICK_ENTRY := Change(2, OWNER, 2, "other", 12, 0, 1, CREATED, 0)

  const SLOW_TX := Tx({1}, None, map[1 := Present(NOTE_ROW, map[])], [SLOW_ENTRY], Some(1))
  const SLOW_OPEN := Db(map[], [], 2, map[1 := SLOW_TX])
  const QUICK_DONE := Db(map[2 := Present(NOTE_ROW, map[])], [QUICK_ENTRY], 3, map[1 := SLOW_TX])

  lemma SlowInserts()
    ensures Next(Next(Next(Next(EMPTY_DB, BeginTx(1)), LockNote(1, 1)), Grant(1)), SLOW) == SLOW_OPEN
  {
    Writes(EMPTY_DB, SLOW, 1);
    hide Next;
    assert NewBlocks(1, []) == map[];
    assert EntryFor(EMPTY_DB, 1, SLOW) == SLOW_ENTRY;
  }

  lemma QuickCommits()
    ensures RunOn(SLOW_OPEN, Whole(QUICK, 2)) == QUICK_DONE
  {
    assert Free(SLOW_OPEN, 2);
    WholeTransaction(SLOW_OPEN, QUICK, 2);
    hide RunOn, Next;
    assert NewBlocks(2, []) == map[];
    assert EntryFor(SLOW_OPEN, 2, QUICK) == QUICK_ENTRY;
    assert [] + [QUICK_ENTRY] == [QUICK_ENTRY];
  }

  /**
   A pull between the commits of two transactions takes the client past the smaller sequence, which was inserted first
   and commits last: after that no pull from the client's cursor returns it.
   */
  lemma PullMissesLateCommit()
    ensures var open := Next(Next(Next(Next(EMPTY_DB, BeginTx(1)), LockNote(1, 1)), Grant(1)), SLOW);
            var pulled := RunOn(open, Whole(QUICK, 2));
            var later := Next(pulled, Commit(1));
            && Select(pulled.committed, Feed(OWNER, "me", 0)) == [QUICK_ENTRY]
            && SLOW_ENTRY in later.committed && Feed(OWNER, "me", 0).Admits(SLOW_ENTRY)
            && Select(later.committed, Feed(OWNER, "me", QUICK_ENTRY.sequence)) == []
  {
    SlowInserts();
    QuickCommits();
    hide RunOn, Select;
    SelectEverything([QUICK_ENTRY], Feed(OWNER, "me", 0));
    assert Next(QUICK_DONE, Commit(1)).committed == [QUICK_ENTRY, SLOW_ENTRY];
    SelectNothing([QUICK_ENTRY, SLOW_ENTRY], Feed(OWNER, "me", 2));
  }
}
