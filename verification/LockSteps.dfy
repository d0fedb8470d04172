/**
 What the steps of an interleaved transaction achieve: a lock is granted exactly when the note is free, a rolled-back
 batch leaves no trace, an aborted transaction publishes nothing, and a commit publishes exactly what was written and
 kept.
 */
module LockSteps {
  import opened Wrappers
  import opened SyncModel
  import opened DirectExecution
  import opened ChangeLog
  import opened Ledger
  import opened Replica
  import opened Locking
  import opened Serial

  predicate Holds(db: Db, id: nat, n: Id) {
    id in db.txs && n in db.txs[id].held
  }

  lemma NobodyElse(db: Db, id: nat, n: Id)
    requires Inv(db) && Holds(db, id, n)
    ensures forall other <- db.txs :: other != id ==> n !in db.txs[other].held
  {
    assert forall other <- db.txs :: other != id ==> db.txs[other].held !! db.txs[id].held;
    hide NoteOk, TxOk;
  }

  /**
   A transaction between batches may ask for any note above those it holds; it gets the note exactly when nobody holds
   it, with the note's document as it is committed then.
   */
  lemma LockIsGrantedIff(db: Db, id: nat, n: Id)
    requires Inv(db) && id in db.txs && n != NIL
    requires db.txs[id].batch.None? && db.txs[id].waiting.None? && forall m <- db.txs[id].held :: m < n
    ensures var after := Next(Next(db, LockNote(id, n)), Grant(id));
            && after.docs == db.docs && after.committed == db.committed
            && (n in after.txs[id].held <==> forall other <- db.txs :: n !in db.txs[other].held)
            && (n in after.txs[id].held ==>
                  WorkOf(after.txs[id], n) == DocOf(db, n) && after.txs[id].batch == Some(n))
            && after.txs[id].pending == db.txs[id].pending
  {
    hide Inv, Publish;
    assert MayLock(db.txs[id], n) && n !in db.txs[id].held;
    var asked := Next(db, LockNote(id, n));
    assert forall other :: other in db.txs <==> other in asked.txs;
    assert forall other <- db.txs :: asked.txs[other].held == db.txs[other].held;
  }

  /** The working copy of a batch's note is at the stored version, or one above once the batch has an entry. */
  lemma WorkVersion(db: Db, tx: Tx, n: Id)
    requires NoteOk(db, n) && LockedNoteOk(db, tx, n)
    ensures 0 <= LocalVersion(DocOf(db, n)) <= LocalVersion(WorkOf(tx, n)) <= LocalVersion(DocOf(db, n)) + 1
    ensures WorkOf(tx, n).Absent? ==> LocalVersion(DocOf(db, n)) == 0
  {
    var committed, h := History(db.committed, n), History(tx.pending, n);
    SelectMembers(db.committed, OfNote(n));
    SelectMembers(tx.pending, OfNote(n));
    LinkedVersions(Absent, committed);
    LinkedVersions(DocOf(db, n), h);
    hide Linked, Replay, Select;
  }

  /**
   Inside a batch an entry is inserted exactly when the document as it stands has what it edits and the note, if there
   is one, is the writer's. It takes the next sequence number and leads from the stored version to the next.
   */
  lemma InsertTakesEffect(db: Db, e: Event)
    requires Inv(db) && e.Insert? && e.id in db.txs && db.txs[e.id].batch.Some?
    ensures var tx, after := db.txs[e.id], Next(db, e);
            var n := tx.batch.value;
            var doc, version := WorkOf(tx, n), LocalVersion(DocOf(db, n));
            var c := Change(db.next, e.owner, n, e.device, e.operationId, version, version + 1, e.mutation,
              e.changeBytes);
            && after.docs == db.docs && after.committed == db.committed && e.id in after.txs
            && if Fits(doc, c) && (doc.Present? ==> doc.note.owner == e.owner) then
                 && after.txs[e.id].pending == tx.pending + [c] && after.next == db.next + 1
                 && WorkOf(after.txs[e.id], n) == ApplyChange(doc, c)
               else after == db
  {
    var tx := db.txs[e.id];
    assert TxOk(db, tx) && LockedNoteOk(db, tx, tx.batch.value);
    assert NoteOk(db, tx.batch.value);
    WorkVersion(db, tx, tx.batch.value);
    hide Inv, TxOk, LockedNoteOk, NoteOk, Fits, ApplyChange;
  }

  /** Before its notes a transaction may insert any category entry, which carries no version. */
  lemma CategoryInsertTakesEffect(db: Db, e: Event)
    requires e.InsertCategory? && e.id in db.txs && e.mutation.OnCategory()
    requires db.txs[e.id].held == {} && db.txs[e.id].batch.None? && db.txs[e.id].waiting.None?
    ensures var after := Next(db, e);
            && after == db.(next := db.next + 1, txs := db.txs[e.id := after.txs[e.id]])
            && after.txs[e.id] == db.txs[e.id].(pending := db.txs[e.id].pending +
                 [Change(db.next, e.owner, NIL, e.device, e.operationId, 0, 0, e.mutation, e.changeBytes)])
  {
    assert BeforeNotes(db.txs[e.id]);
  }

  /** Entries of a transaction that leave it, as every note sees it. */
  ghost predicate Dropped(before: seq<Change>, after: seq<Change>, n: Id) {
    History(after, n) == [] && forall m: Id | m != n :: History(after, m) == History(before, m)
  }

  lemma DropsOne(pending: seq<Change>, n: Id)
    ensures Dropped(pending, EarlierEntries(pending, n), n)
  {
    forall m: Id
      ensures History(EarlierEntries(pending, n), m) == if m == n then [] else History(pending, m)
    {
      EarlierHistory(pending, n, m);
    }
    hide History, EarlierEntries;
  }

  /** A rolled-back batch: its entries are gone, the other notes' entries stay, and its note is free for others. */
  lemma RollbackLeavesNoTrace(db: Db, id: nat)
    requires Inv(db) && id in db.txs && db.txs[id].batch.Some?
    ensures var n, after := db.txs[id].batch.value, Next(db, RollbackBatch(id));
            && after.docs == db.docs && after.committed == db.committed && id in after.txs
            && Dropped(db.txs[id].pending, after.txs[id].pending, n)
            && after.txs[id].batch == None && Free(after, n)
            && (forall m <- db.txs[id].held :: m != n ==> m in after.txs[id].held)
  {
    var n := db.txs[id].batch.value;
    assert TxOk(db, db.txs[id]);
    NobodyElse(db, id, n);
    DropsOne(db.txs[id].pending, n);
    hide Inv, TxOk, Dropped, EarlierEntries;
  }

  /** A rolled-back category batch, likewise. */
  lemma CategoryRollbackLeavesNoTrace(db: Db, id: nat)
    requires id in db.txs && BeforeNotes(db.txs[id])
    ensures var after := Next(db, RollbackCategories(id));
            && after.docs == db.docs && after.committed == db.committed && id in after.txs
            && Dropped(db.txs[id].pending, after.txs[id].pending, NIL)
  {
    DropsOne(db.txs[id].pending, NIL);
    hide Dropped, EarlierEntries;
  }

  /** An aborted transaction publishes nothing and frees its notes. */
  lemma AbortPublishesNothing(db: Db, id: nat)
    requires Inv(db) && id in db.txs
    ensures var after := Next(db, Abort(id));
            && after.docs == db.docs && after.committed == db.committed && id !in after.txs
            && forall n <- db.txs[id].held :: Free(after, n)
  {
    forall n | n in db.txs[id].held
      ensures Free(Next(db, Abort(id)), n)
    {
      NobodyElse(db, id, n);
    }
    hide Inv;
  }

  /** A commit publishes the transaction's entries, moves each note by its own entries, and frees its notes. */
  lemma CommitPublishes(db: Db, id: nat)
    requires Inv(db) && id in db.txs
    ensures var pending, after := db.txs[id].pending, Next(db, Commit(id));
            && after.committed == db.committed + pending && id !in after.txs
            && (forall n: Id | n != NIL :: DocOf(after, n) == Replay(DocOf(db, n), History(pending, n)))
            && forall n <- db.txs[id].held :: Free(after, n)
  {
    CommitMoves(db, id);
    forall n | n in db.txs[id].held
      ensures Free(Next(db, Commit(id)), n)
    {
      NobodyElse(db, id, n);
    }
    hide Inv, Publish, Replay, History;
  }
}
