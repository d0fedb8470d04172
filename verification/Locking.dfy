/**
 Transactions interleaved step by step, at the default isolation level. A note's row lock is taken before its batch
 writes and held to commit, or to the batch's rollback; sequences are handed out when an entry is inserted; other
 transactions see nothing of a transaction before it commits.
 */
module Locking {
  import opened Wrappers
  import opened SyncModel
  import opened DirectExecution
  import opened ChangeLog
  import opened Ledger
  import opened Replica

  /**
   One open transaction: the notes it has locked, what it has made of them, the entries it has inserted, and, inside a
   batch, the batch's note.
   */
  datatype Tx = Tx(held: set<Id>, waiting: Option<Id>, work: map<Id, Document>, pending: seq<Change>, batch: Option<Id>)

  const NEW_TX := Tx({}, None, map[], [], None)

  /** committed lists entries in the order their transactions committed. */
  datatype Db = Db(docs: map<Id, Document>, committed: seq<Change>, next: nat, txs: map<nat, Tx>)

  const EMPTY_DB := Db(map[], [], 1, map[])

  function DocOf(db: Db, n: Id): Document {
    if n in db.docs then db.docs[n] else Absent
  }

  function WorkOf(tx: Tx, n: Id): Document {
    if n in tx.work then tx.work[n] else Absent
  }

  datatype Event =
    | BeginTx(id: nat)
    | LockNote(id: nat, noteId: Id)
    | Grant(id: nat)
    | Insert(id: nat, owner: Id, device: string, operationId: Id, mutation: Mutation, changeBytes: nat)
    | AcceptBatch(id: nat)
    | RollbackBatch(id: nat)
    | InsertCategory(id: nat, owner: Id, device: string, operationId: Id, mutation: Mutation, changeBytes: nat)
    | RollbackCategories(id: nat)
    | Commit(id: nat)
    | Abort(id: nat)

  predicate Free(db: Db, n: Id) {
    forall id <- db.txs :: n !in db.txs[id].held
  }

  /** Batches come in increasing note order. */
  predicate MayLock(tx: Tx, n: Id) {
    n != NIL && tx.batch.None? && tx.waiting.None? && forall m <- tx.held :: m < n
  }

  /** The entry an accepted operation of the batch inserts: one version above the stored note. */
  function EntryFor(db: Db, n: Id, e: Event): Change
    requires e.Insert?
  {
    var version := LocalVersion(DocOf(db, n));
    Change(db.next, e.owner, n, e.device, e.operationId, version, version + 1, e.mutation, e.changeBytes)
  }

  /** The category batch has no note and comes before every note batch. */
  predicate BeforeNotes(tx: Tx) {
    tx.held == {} && tx.batch.None? && tx.waiting.None?
  }

  /** A category entry takes a sequence in the same history and carries no version. */
  function CategoryEntry(db: Db, e: Event): Change
    requires e.InsertCategory?
  {
    Change(db.next, e.owner, NIL, e.device, e.operationId, 0, 0, e.mutation, e.changeBytes)
  }

  /** Entries of earlier batches, kept by a rollback to the batch's savepoint. */
  function EarlierEntries(pending: seq<Change>, n: Id): seq<Change> {
    if pending == [] then []
    else
      var last := pending[|pending| - 1];
      if last.noteId == n then EarlierEntries(pending[..|pending| - 1], n)
      else EarlierEntries(pending[..|pending| - 1], n) + [last]
  }

  function Publish(docs: map<Id, Document>, tx: Tx): map<Id, Document> {
    docs + map n | n in tx.work && n in tx.held :: tx.work[n]
  }

  function Next(db: Db, e: Event): Db {
    if e.BeginTx? then
      if e.id in db.txs then db else db.(txs := db.txs[e.id := NEW_TX])
    else if e.id !in db.txs then db
    else
      var tx := db.txs[e.id];
      match e
      case LockNote(id, n) => if MayLock(tx, n) then db.(txs := db.txs[id := tx.(waiting := Some(n))]) else db
      case Grant(id) =>
        if tx.waiting.Some? && Free(db, tx.waiting.value) then
          var n := tx.waiting.value;
          db.(txs := db.txs[id := tx.(held := tx.held + {n}, waiting := None, work := tx.work[n := DocOf(db, n)],
            batch := Some(n))])
        else db
      case Insert(id, _, _, _, _, _) =>
        if tx.batch.Some? && Link(WorkOf(tx, tx.batch.value), EntryFor(db, tx.batch.value, e)) then
          var n, c := tx.batch.value, EntryFor(db, tx.batch.value, e);
          db.(next := db.next + 1,
              txs := db.txs[id := tx.(work := tx.work[n := ApplyChange(WorkOf(tx, n), c)],
                pending := tx.pending + [c])])
        else db
      case AcceptBatch(id) => db.(txs := db.txs[id := tx.(batch := None)])
      // Rolling back to the savepoint also gives up the lock taken since.
      case RollbackBatch(id) =>
        if tx.batch.Some? then
          var n := tx.batch.value;
          db.(txs := db.txs[id := tx.(held := tx.held - {n}, work := tx.work - {n},
            pending := EarlierEntries(tx.pending, n), batch := None)])
        else db
      case InsertCategory(id, _, _, _, mutation, _) =>
        if BeforeNotes(tx) && mutation.OnCategory() then
          db.(next := db.next + 1, txs := db.txs[id := tx.(pending := tx.pending + [CategoryEntry(db, e)])])
        else db
      case RollbackCategories(id) =>
        if BeforeNotes(tx) then db.(txs := db.txs[id := tx.(pending := EarlierEntries(tx.pending, NIL))]) else db
      case Commit(id) => db.(docs := Publish(db.docs, tx), committed := db.committed + tx.pending, txs := db.txs - {id})
      case Abort(id) => db.(txs := db.txs - {id})
  }

  function RunOn(db: Db, events: seq<Event>): Db {
    if events == [] then db else Next(RunOn(db, events[..|events| - 1]), events[|events| - 1])
  }

  // ---- versions along a linked history ----

  lemma LinkRaises(doc: Document, c: Change)
    requires Link(doc, c) && c.noteId != NIL
    ensures LocalVersion(ApplyChange(doc, c)) == c.resulting >= LocalVersion(doc)
  {
  }

  predicate NeverDecreases(h: seq<Change>, least: int) {
    && (forall i, j | 0 <= i < j < |h| :: h[i].resulting <= h[j].resulting)
    && (forall c <- h :: c.resulting >= least)
  }

  lemma NeverDecreasesNext(front: seq<Change>, last: Change, least: int)
    requires NeverDecreases(front, least)
    requires last.resulting >= least && (front != [] ==> last.resulting >= front[|front| - 1].resulting)
    ensures NeverDecreases(front + [last], least)
  {
    var h := front + [last];
    assert forall i | 0 <= i < |front| :: h[i] == front[i] && front[i].resulting <= front[|front| - 1].resulting;
  }

  /** Versions never decrease along a linked history, and the last one is the document's. */
  lemma {:induction false} LinkedVersions(doc: Document, h: seq<Change>)
    requires Linked(doc, h) && forall c <- h :: c.noteId != NIL
    ensures NeverDecreases(h, LocalVersion(doc))
    ensures LocalVersion(Replay(doc, h)) == if h == [] then LocalVersion(doc) else h[|h| - 1].resulting
  {
    hide Link, ApplyChange, LocalVersion, NeverDecreases;
    if h == [] {
      EmptyNeverDecreases(LocalVersion(doc));
      return;
    }
    var front, last := h[..|h| - 1], h[|h| - 1];
    assert h == front + [last];
    assert Linked(doc, front) && Link(Replay(doc, front), last);
    assert Replay(doc, h) == ApplyChange(Replay(doc, front), last);
    hide Linked, Replay;
    LinkedVersions(doc, front);
    LinkRaises(Replay(doc, front), last);
    LeastLast(front, LocalVersion(doc));
    NeverDecreasesNext(front, last, LocalVersion(doc));
  }

  lemma EmptyNeverDecreases(least: int)
    ensures NeverDecreases([], least)
  {
  }

  lemma LeastLast(h: seq<Change>, least: int)
    requires NeverDecreases(h, least)
    ensures h != [] ==> h[|h| - 1].resulting >= least
  {
    assert h != [] ==> h[|h| - 1] in h;
  }

  // ---- what holds at every step ----

  /** The stored note is the fold of its committed entries, which are in sequence order. */
  ghost predicate NoteOk(db: Db, n: Id) {
    var h := History(db.committed, n);
    && DocOf(db, n) == Replay(Absent, h)
    && Linked(Absent, h)
    && Increasing(h)
    && (forall c <- h :: c.sequence < db.next)
  }

  /**
   A locked note: the transaction's entries follow every committed one and carry the stored note to its working copy.
   */
  ghost predicate LockedNoteOk(db: Db, tx: Tx, n: Id) {
    var h := History(tx.pending, n);
    && n != NIL
    && WorkOf(tx, n) == Replay(DocOf(db, n), h)
    && Linked(DocOf(db, n), h)
    && Increasing(h)
    && (forall c <- h :: c.sequence < db.next && c.resulting == LocalVersion(DocOf(db, n)) + 1)
    && (forall b <- History(db.committed, n), c <- h :: b.sequence < c.sequence)
  }

  ghost predicate HeldOk(db: Db, tx: Tx) {
    forall n <- tx.held :: LockedNoteOk(db, tx, n) && n in tx.work
  }

  /** A transaction writes only to notes it has locked. */
  ghost predicate WritesHeld(tx: Tx) {
    forall n: Id | n !in tx.held && n != NIL :: History(tx.pending, n) == []
  }

  ghost predicate TxOk(db: Db, tx: Tx) {
    && HeldOk(db, tx)
    && WritesHeld(tx)
    && (tx.batch.Some? ==> tx.waiting.None? && tx.batch.value in tx.held && forall m <- tx.held :: m <= tx.batch.value)
    && (tx.waiting.Some? ==> tx.waiting.value != NIL && forall m <- tx.held :: m < tx.waiting.value)
  }

  ghost predicate LocksExclusive(db: Db) {
    forall a <- db.txs, b <- db.txs :: a != b ==> db.txs[a].held !! db.txs[b].held
  }

  function Sequences(entries: seq<Change>): set<nat> {
    set c | c in entries :: c.sequence
  }

  /** No sequence is pending twice, or pending and committed. */
  ghost predicate SequencesUnique(db: Db) {
    && (forall id <- db.txs :: Sequences(db.txs[id].pending) !! Sequences(db.committed))
    && (forall x <- db.txs, y <- db.txs | x != y :: Sequences(db.txs[x].pending) !! Sequences(db.txs[y].pending))
  }

  ghost predicate Inv(db: Db) {
    && (forall n: Id | n != NIL :: NoteOk(db, n))
    && (forall id <- db.txs :: TxOk(db, db.txs[id]))
    && LocksExclusive(db)
    && SequencesUnique(db)
    && (forall c <- db.committed :: c.sequence < db.next)
    && (forall id <- db.txs :: forall c <- db.txs[id].pending :: c.sequence < db.next)
  }

  /** A transaction does not notice what happens to notes it has not locked. */
  lemma TxOkFrame(db: Db, after: Db, tx: Tx)
    requires TxOk(db, tx) && after.next >= db.next
    requires forall n <- tx.held ::
        DocOf(after, n) == DocOf(db, n) && History(after.committed, n) == History(db.committed, n)
    ensures TxOk(after, tx)
  {
    forall n <- tx.held
      ensures LockedNoteOk(after, tx, n)
    {
      assert LockedNoteOk(db, tx, n);
    }
  }

  lemma NoteOkFrame(db: Db, after: Db, n: Id)
    requires NoteOk(db, n) && after.next >= db.next && DocOf(after, n) == DocOf(db, n)
    requires History(after.committed, n) == History(db.committed, n)
    ensures NoteOk(after, n)
  {
  }

  /** Steps that leave the committed state alone and change one transaction. */
  lemma OneTxChanges(db: Db, id: nat, tx: Tx, next: nat)
    requires Inv(db) && next >= db.next
    requires TxOk(db.(next := next), tx) && forall c <- tx.pending :: c.sequence < next
    requires forall other <- db.txs | other != id :: db.txs[other].held !! tx.held
    requires forall c <- tx.pending :: c.sequence >= db.next || (id in db.txs && c in db.txs[id].pending)
    ensures Inv(db.(next := next, txs := db.txs[id := tx]))
  {
    hide TxOk, NoteOk, History, SequencesUnique;
    var after := db.(next := next, txs := db.txs[id := tx]);
    forall n: Id | n != NIL
      ensures NoteOk(after, n)
    {
      NoteOkFrame(db, after, n);
    }
    forall other <- after.txs
      ensures TxOk(after, after.txs[other])
    {
      if other == id {
        TxOkFrame(db.(next := next), after, tx);
      } else {
        TxOkFrame(db, after, db.txs[other]);
      }
    }
    UniqueAfter(db, id, tx, next);
  }

  lemma UniqueAfter(db: Db, id: nat, tx: Tx, next: nat)
    requires SequencesUnique(db)
    requires forall c <- db.committed :: c.sequence < db.next
    requires forall other <- db.txs :: forall c <- db.txs[other].pending :: c.sequence < db.next
    requires forall c <- tx.pending :: c.sequence >= db.next || (id in db.txs && c in db.txs[id].pending)
    ensures SequencesUnique(db.(next := next, txs := db.txs[id := tx]))
  {
    var mine := Sequences(tx.pending);
    forall s | s in mine
      ensures s >= db.next || (id in db.txs && s in Sequences(db.txs[id].pending))
    {
    }
    forall other | other in db.txs && other != id
      ensures Sequences(db.txs[other].pending) !! mine
    {
      assert forall s | s in Sequences(db.txs[other].pending) :: s < db.next;
    }
  }

  lemma GrantOk(db: Db, id: nat)
    requires Inv(db) && id in db.txs
    ensures Inv(Next(db, Grant(id)))
  {
    var tx := db.txs[id];
    if tx.waiting.Some? && Free(db, tx.waiting.value) {
      var n := tx.waiting.value;
      var granted := tx.(held := tx.held + {n}, waiting := None, work := tx.work[n := DocOf(db, n)], batch := Some(n));
      assert TxOk(db, tx);
      assert History(tx.pending, n) == [];
      forall m <- granted.held
        ensures LockedNoteOk(db, granted, m)
      {
        assert m != n ==> LockedNoteOk(db, tx, m);
      }
      assert TxOk(db.(next := db.next), granted) by {
        TxOkFrame(db, db.(next := db.next), granted);
      }
      hide TxOk, NoteOk, LockedNoteOk, History;
      OneTxChanges(db, id, granted, db.next);
      assert db.(next := db.next, txs := db.txs[id := granted]) == Next(db, Grant(id));
    }
  }

  lemma InsertOk(db: Db, e: Event)
    requires Inv(db) && e.Insert? && e.id in db.txs
    ensures Inv(Next(db, e))
  {
    hide Linked, Replay, ApplyChange, Link, Select, Increasing, SequencesUnique;
    var tx := db.txs[e.id];
    assert TxOk(db, tx);
    if tx.batch.None? || !Link(WorkOf(tx, tx.batch.value), EntryFor(db, tx.batch.value, e)) {
      return;
    }
    var n, c := tx.batch.value, EntryFor(db, tx.batch.value, e);
    var written := tx.(work := tx.work[n := ApplyChange(WorkOf(tx, n), c)], pending := tx.pending + [c]);
    assert LockedNoteOk(db, tx, n) && NoteOk(db, n);
    assert db.txs[e.id].pending == tx.pending && forall x <- tx.pending :: x.sequence < db.next;
    assert forall other <- db.txs | other != e.id :: db.txs[other].held !! written.held;
    assert Next(db, e) == db.(next := db.next + 1, txs := db.txs[e.id := written]);
    hide TxOk, Inv, Next, LockedNoteOk, Link, ApplyChange, NoteOk;
    InsertedNote(db, tx, e, n, c);
    InsertedTx(db, tx, n, c, written);
    assert forall x <- written.pending :: x == c || x in tx.pending;
    OneTxChanges(db, e.id, written, db.next + 1);
  }

  lemma HistoryAppend(pending: seq<Change>, c: Change)
    ensures History(pending + [c], c.noteId) == History(pending, c.noteId) + [c]
  {
    SelectAppend(pending, c, OfNote(c.noteId));
  }

  /** An entry with the next sequence lies after everything before it. */
  lemma LastSequence(before: seq<Change>, h: seq<Change>, c: Change, next: nat)
    requires (forall b <- before :: b.sequence < next) && (forall x <- h :: x.sequence < next) && c.sequence == next
    requires forall b <- before, x <- h :: b.sequence < x.sequence
    ensures forall x <- h + [c] :: x == c || x in h
    ensures forall b <- before, x <- h + [c] :: b.sequence < x.sequence
  {
  }

  lemma OneIncreases(c: Change)
    ensures Increasing([c])
  {
  }

  lemma InsertedNote(db: Db, tx: Tx, e: Event, n: Id, c: Change)
    requires NoteOk(db, n) && LockedNoteOk(db, tx, n) && e.Insert? && c == EntryFor(db, n, e) && Link(WorkOf(tx, n), c)
    ensures LockedNoteOk(db.(next := db.next + 1),
        tx.(work := tx.work[n := ApplyChange(WorkOf(tx, n), c)], pending := tx.pending + [c]), n)
  {
    hide Linked, Replay, ApplyChange, Link, Increasing, History;
    var h, doc := History(tx.pending, n), DocOf(db, n);
    HistoryAppend(tx.pending, c);
    LinkedAppend(doc, h, c);
    ReplayAppend(doc, h, c);
    OneIncreases(c);
    IncreasingConcat(h, [c]);
    LastSequence(History(db.committed, n), h, c, db.next);
  }

  lemma LockedNoteFrame(db: Db, tx: Tx, after: Db, written: Tx, m: Id)
    requires LockedNoteOk(db, tx, m)
    requires after.next >= db.next && DocOf(after, m) == DocOf(db, m)
    requires History(after.committed, m) == History(db.committed, m)
    requires WorkOf(written, m) == WorkOf(tx, m) && History(written.pending, m) == History(tx.pending, m)
    ensures LockedNoteOk(after, written, m)
  {
    hide Linked, Replay, History;
  }

  lemma InsertedTx(db: Db, tx: Tx, n: Id, c: Change, written: Tx)
    requires TxOk(db, tx) && tx.batch == Some(n) && c.noteId == n
    requires written == tx.(work := written.work, pending := tx.pending + [c]) && n in written.work
    requires written.work == tx.work[n := written.work[n]]
    requires LockedNoteOk(db.(next := db.next + 1), written, n)
    ensures TxOk(db.(next := db.next + 1), written)
  {
    WritesStayHeld(tx, n, c, written);
    InsertedHeld(db, tx, n, c, written);
    hide HeldOk, WritesHeld;
  }

  lemma WritesStayHeld(tx: Tx, n: Id, c: Change, written: Tx)
    requires WritesHeld(tx) && n in tx.held && c.noteId == n && written.held == tx.held
    requires written.pending == tx.pending + [c]
    ensures WritesHeld(written)
  {
    forall m: Id | m !in written.held && m != NIL
      ensures History(written.pending, m) == []
    {
      SelectAppend(tx.pending, c, OfNote(m));
    }
  }

  lemma InsertedHeld(db: Db, tx: Tx, n: Id, c: Change, written: Tx)
    requires HeldOk(db, tx) && n in tx.held && c.noteId == n
    requires written == tx.(work := written.work, pending := tx.pending + [c]) && n in written.work
    requires written.work == tx.work[n := written.work[n]]
    requires LockedNoteOk(db.(next := db.next + 1), written, n)
    ensures HeldOk(db.(next := db.next + 1), written)
  {
    hide LockedNoteOk, Select;
    forall m | m in written.held
      ensures LockedNoteOk(db.(next := db.next + 1), written, m)
    {
      if m != n {
        SelectAppend(tx.pending, c, OfNote(m));
        LockedNoteFrame(db, tx, db.(next := db.next + 1), written, m);
      }
    }
  }

  lemma {:induction false} EarlierHistory(pending: seq<Change>, n: Id, m: Id)
    ensures History(EarlierEntries(pending, n), m) == if m == n then [] else History(pending, m)
    ensures forall c <- EarlierEntries(pending, n) :: c in pending
  {
    if pending != [] {
      var front, last := pending[..|pending| - 1], pending[|pending| - 1];
      assert pending == front + [last];
      EarlierHistory(front, n, m);
      SelectAppend(EarlierEntries(front, n), last, OfNote(m));
    }
  }

  lemma RollbackOk(db: Db, id: nat)
    requires Inv(db) && id in db.txs
    ensures Inv(Next(db, RollbackBatch(id)))
  {
    var tx := db.txs[id];
    if tx.batch.Some? {
      var n := tx.batch.value;
      var back := tx.(held := tx.held - {n}, work := tx.work - {n}, pending := EarlierEntries(tx.pending, n),
        batch := None);
      assert TxOk(db, tx);
      forall m: Id
        ensures History(back.pending, m) == if m == n then [] else History(tx.pending, m)
        ensures forall c <- back.pending :: c in tx.pending
      {
        EarlierHistory(tx.pending, n, m);
      }
      forall m <- back.held
        ensures LockedNoteOk(db, back, m)
      {
        assert LockedNoteOk(db, tx, m);
      }
      assert TxOk(db.(next := db.next), back) by {
        TxOkFrame(db, db.(next := db.next), back);
      }
      EarlierHistory(tx.pending, n, n);
      hide TxOk, NoteOk, LockedNoteOk, History, EarlierEntries;
      OneTxChanges(db, id, back, db.next);
    }
  }

  /** What a commit does to one note. */
  lemma CommittedNote(db: Db, id: nat, n: Id)
    requires Inv(db) && id in db.txs && n != NIL
    ensures var after := Next(db, Commit(id));
            && NoteOk(after, n)
            && (n !in db.txs[id].held ==>
                 DocOf(after, n) == DocOf(db, n) && History(after.committed, n) == History(db.committed, n))
  {
    var tx, after := db.txs[id], Next(db, Commit(id));
    var h, p := History(db.committed, n), History(tx.pending, n);
    SelectConcat(db.committed, tx.pending, OfNote(n));
    assert TxOk(db, tx) && NoteOk(db, n);
    if n in tx.held {
      assert LockedNoteOk(db, tx, n);
      LinkedConcat(Absent, h, p);
      ReplayConcat(Absent, h, p);
      assert DocOf(after, n) == tx.work[n];
      IncreasingConcat(h, p);
    } else {
      assert p == [];
      assert h + p == h;
      assert DocOf(after, n) == DocOf(db, n);
    }
    hide Linked, Replay, History;
  }

  lemma IncreasingConcat(a: seq<Change>, b: seq<Change>)
    requires Increasing(a) && Increasing(b) && forall x <- a, y <- b :: x.sequence < y.sequence
    ensures Increasing(a + b)
  {
    forall i, j | 0 <= i < j < |a + b|
      ensures (a + b)[i].sequence < (a + b)[j].sequence
    {
      if i < |a| <= j {
        assert a[i] in a && b[j - |a|] in b;
      }
    }
  }

  lemma CommitOk(db: Db, id: nat)
    requires Inv(db) && id in db.txs
    ensures Inv(Next(db, Commit(id)))
  {
    var tx, after := db.txs[id], Next(db, Commit(id));
    forall n: Id | n != NIL
      ensures NoteOk(after, n)
    {
      CommittedNote(db, id, n);
    }
    forall other <- after.txs
      ensures TxOk(after, after.txs[other])
    {
      var rest := db.txs[other];
      assert TxOk(db, rest);
      forall n <- rest.held
        ensures DocOf(after, n) == DocOf(db, n) && History(after.committed, n) == History(db.committed, n)
      {
        assert LockedNoteOk(db, rest, n);
        assert n !in tx.held;
        CommittedNote(db, id, n);
      }
      TxOkFrame(db, after, rest);
    }
    CommitUnique(db, id);
    hide TxOk, NoteOk, History, SequencesUnique;
  }

  lemma CommitUnique(db: Db, id: nat)
    requires SequencesUnique(db) && id in db.txs
    ensures SequencesUnique(Next(db, Commit(id)))
  {
    var tx := db.txs[id];
    assert Sequences(db.committed + tx.pending) == Sequences(db.committed) + Sequences(tx.pending);
    hide Sequences;
  }

  /** Category entries leave every note of the transaction and of the database alone. */
  lemma CategoriesOk(db: Db, id: nat, tx: Tx, next: nat)
    requires Inv(db) && id in db.txs && next >= db.next && tx == db.txs[id].(pending := tx.pending)
    requires forall n: Id | n != NIL :: History(tx.pending, n) == History(db.txs[id].pending, n)
    requires forall c <- tx.pending :: c in db.txs[id].pending || db.next <= c.sequence < next
    ensures Inv(db.(next := next, txs := db.txs[id := tx]))
  {
    var was := db.txs[id];
    assert TxOk(db, was);
    forall n | n in tx.held
      ensures LockedNoteOk(db.(next := next), tx, n)
    {
      assert LockedNoteOk(db, was, n);
      LockedNoteFrame(db, was, db.(next := next), tx, n);
    }
    assert TxOk(db.(next := next), tx);
    hide TxOk, NoteOk, History, LockedNoteOk;
    OneTxChanges(db, id, tx, next);
  }

  lemma CategoryHistory(pending: seq<Change>, c: Change)
    requires c.noteId == NIL
    ensures forall n: Id | n != NIL :: History(pending + [c], n) == History(pending, n)
  {
    forall n: Id | n != NIL
      ensures History(pending + [c], n) == History(pending, n)
    {
      SelectAppend(pending, c, OfNote(n));
    }
  }

  lemma InsertCategoryOk(db: Db, e: Event)
    requires Inv(db) && e.InsertCategory? && e.id in db.txs
    ensures Inv(Next(db, e))
  {
    var tx := db.txs[e.id];
    if !(BeforeNotes(tx) && e.mutation.OnCategory()) {
      return;
    }
    hide Inv, History;
    var c := CategoryEntry(db, e);
    var written := tx.(pending := tx.pending + [c]);
    CategoryHistory(tx.pending, c);
    CategoriesOk(db, e.id, written, db.next + 1);
  }

  lemma RollbackCategoriesOk(db: Db, id: nat)
    requires Inv(db) && id in db.txs
    ensures Inv(Next(db, RollbackCategories(id)))
  {
    var tx := db.txs[id];
    if !BeforeNotes(tx) {
      return;
    }
    var back := tx.(pending := EarlierEntries(tx.pending, NIL));
    forall n: Id
      ensures n != NIL ==> History(back.pending, n) == History(tx.pending, n)
      ensures forall c <- back.pending :: c in tx.pending
    {
      EarlierHistory(tx.pending, NIL, n);
    }
    EarlierHistory(tx.pending, NIL, NIL);
    hide Inv, History, EarlierEntries;
    CategoriesOk(db, id, back, db.next);
    assert db.(next := db.next, txs := db.txs[id := back]) == db.(txs := db.txs[id := back]);
  }

  lemma StepKeeps(db: Db, e: Event)
    requires Inv(db)
    ensures Inv(Next(db, e))
  {
    hide TxOk, NoteOk, History, Link;
    if e.id in db.txs {
      var tx := db.txs[e.id];
      assert TxOk(db, tx);
      match e {
        case Grant(id) => GrantOk(db, id);
        case Insert(_, _, _, _, _, _) => InsertOk(db, e);
        case RollbackBatch(id) => RollbackOk(db, id);
        case InsertCategory(_, _, _, _, _, _) => InsertCategoryOk(db, e);
        case RollbackCategories(id) => RollbackCategoriesOk(db, id);
        case Commit(id) => CommitOk(db, id);
        case LockNote(id, n) =>
          if MayLock(tx, n) {
            SimpleOk(db, id, tx.(waiting := Some(n)));
          }
        case AcceptBatch(id) => SimpleOk(db, id, tx.(batch := None));
        case _ =>
          var after := Next(db, e);
          forall n: Id | n != NIL
            ensures NoteOk(after, n)
          {
            NoteOkFrame(db, after, n);
          }
          forall id <- after.txs
            ensures TxOk(after, after.txs[id])
          {
            TxOkFrame(db, after, db.txs[id]);
          }
      }
    } else {
      SimpleOk(db, e.id, NEW_TX);
    }
  }

  /** Changes of a transaction's bookkeeping alone. */
  lemma SimpleOk(db: Db, id: nat, tx: Tx)
    requires Inv(db)
    requires tx == NEW_TX || (id in db.txs && tx == db.txs[id].(waiting := tx.waiting, batch := tx.batch))
    requires tx.batch.Some? ==> id in db.txs && tx.batch == db.txs[id].batch && tx.waiting == db.txs[id].waiting
    requires tx.waiting.Some? ==>
        id in db.txs && (tx.waiting == db.txs[id].waiting || MayLock(db.txs[id], tx.waiting.value))
    ensures Inv(db.(txs := db.txs[id := tx]))
  {
    if id in db.txs && tx != NEW_TX {
      assert TxOk(db, db.txs[id]);
      forall n <- tx.held
        ensures LockedNoteOk(db, tx, n)
      {
        assert LockedNoteOk(db, db.txs[id], n);
      }
    }
    assert TxOk(db.(next := db.next), tx) by {
      TxOkFrame(db, db.(next := db.next), tx);
    }
    hide TxOk, NoteOk, History;
    OneTxChanges(db, id, tx, db.next);
    assert db.(next := db.next, txs := db.txs[id := tx]) == db.(txs := db.txs[id := tx]);
  }

  // ---- every interleaving ----

  lemma {:induction false} RunKeeps(db: Db, events: seq<Event>)
    requires Inv(db)
    ensures Inv(RunOn(db, events)) && RunOn(db, events).next >= db.next
  {
    if events != [] {
      RunKeeps(db, events[..|events| - 1]);
      StepKeeps(RunOn(db, events[..|events| - 1]), events[|events| - 1]);
      SequenceGrows(RunOn(db, events[..|events| - 1]), events[|events| - 1]);
    }
    hide Inv, Next;
  }

  lemma SequenceGrows(db: Db, e: Event)
    ensures Next(db, e).next >= db.next
  {
  }

  lemma EmptyDbInv()
    ensures Inv(EMPTY_DB)
  {
    forall n: Id | n != NIL
      ensures NoteOk(EMPTY_DB, n)
    {
    }
  }

  /**
   However transactions interleave, a note's entries have the same order by sequence, by version and by commit, and fold
   to the stored note.
   */
  lemma SequenceOrderIsVersionOrder(events: seq<Event>, n: Id)
    requires n != NIL
    ensures var db := RunOn(EMPTY_DB, events); var h := History(db.committed, n);
            && (forall i, j | 0 <= i < j < |h| :: h[i].sequence < h[j].sequence && h[i].resulting <= h[j].resulting)
            && DocOf(db, n) == Replay(Absent, h)
            && LocalVersion(DocOf(db, n)) == VersionAt(h, |h|)
  {
    EmptyDbInv();
    RunKeeps(EMPTY_DB, events);
    var db := RunOn(EMPTY_DB, events);
    var h := History(db.committed, n);
    assert NoteOk(db, n);
    SelectMembers(db.committed, OfNote(n));
    LinkedVersions(Absent, h);
    hide RunOn, History, Linked;
  }

  // ---- reading under the lock, and without it ----

  /** The transaction keeps its locks through these events. */
  predicate Holding(events: seq<Event>, id: nat) {
    forall e <- events :: e.id != id || !(e.Commit? || e.Abort? || e.RollbackBatch?)
  }

  lemma HeldStays(db: Db, e: Event, id: nat, n: Id)
    requires Inv(db) && id in db.txs && n in db.txs[id].held && n != NIL
    requires e.id != id || !(e.Commit? || e.Abort? || e.RollbackBatch?)
    ensures var after := Next(db, e);
            && id in after.txs && n in after.txs[id].held
            && DocOf(after, n) == DocOf(db, n) && History(after.committed, n) == History(db.committed, n)
  {
    hide History, Link;
    if e.Commit? && e.id in db.txs {
      assert n !in db.txs[e.id].held;
      CommittedNote(db, e.id, n);
    }
  }

  /** While a transaction holds a note, nobody else changes it. */
  lemma {:induction false} HeldNoteIsStable(db: Db, events: seq<Event>, id: nat, n: Id)
    requires Inv(db) && id in db.txs && n in db.txs[id].held && n != NIL && Holding(events, id)
    ensures var after := RunOn(db, events);
            && id in after.txs && n in after.txs[id].held
            && DocOf(after, n) == DocOf(db, n) && History(after.committed, n) == History(db.committed, n)
  {
    if events != [] {
      var front := events[..|events| - 1];
      HeldNoteIsStable(db, front, id, n);
      RunKeeps(db, front);
      assert events[|events| - 1] in events;
      HeldStays(RunOn(db, front), events[|events| - 1], id, n);
    }
    hide Inv, Next, History, DocOf;
  }

  /**
   A document read under the lock in three statements, with any steps of other transactions in between, is the fold of
   the note's history up to the cursor read last.
   */
  lemma LockedReadIsConsistent(db: Db, id: nat, n: Id, beforeBlocks: seq<Event>, beforeCursor: seq<Event>)
    requires Inv(db) && id in db.txs && n in db.txs[id].held && n != NIL && DocOf(db, n).Present?
    requires Holding(beforeBlocks, id) && Holding(beforeCursor, id)
    ensures var second := RunOn(db, beforeBlocks); var third := RunOn(second, beforeCursor);
            && DocOf(second, n).Present?
            && var document := Present(DocOf(db, n).note, DocOf(second, n).blocks);
               var cursor := LastCursor(third.committed, n);
               && document == Replay(Absent, History(third.committed, n))
               && Select(History(third.committed, n), AfterSequence(cursor)) == []
               && (exists c <- History(third.committed, n) :: c.sequence == cursor)
  {
    HeldNoteIsStable(db, beforeBlocks, id, n);
    RunKeeps(db, beforeBlocks);
    hide RunOn, Holding, Inv;
    var second := RunOn(db, beforeBlocks);
    HeldNoteIsStable(second, beforeCursor, id, n);
    RunKeeps(second, beforeCursor);
    WholeHistoryRead(RunOn(second, beforeCursor), n);
  }

  /** A stored note is the fold of its history, and nothing of it lies after its last cursor. */
  lemma WholeHistoryRead(db: Db, n: Id)
    requires Inv(db) && n != NIL && DocOf(db, n).Present?
    ensures var h, cursor := History(db.committed, n), LastCursor(db.committed, n);
            && DocOf(db, n) == Replay(Absent, h)
            && Select(h, AfterSequence(cursor)) == []
            && exists c <- h :: c.sequence == cursor
  {
    assert NoteOk(db, n);
    hide Inv, Linked;
    var h, cursor := History(db.committed, n), LastCursor(db.committed, n);
    SelectMembers(db.committed, OfNote(n));
    SelectNothing(h, AfterSequence(cursor));
    assert h != [];
    assert h[0] in h;
    LastCursorIsReached(db.committed, n);
  }

  /** Entries that link to a document leave a document. */
  lemma {:induction false} LinkedPresent(doc: Document, h: seq<Change>)
    requires Linked(doc, h) && forall c <- h :: c.noteId != NIL
    ensures doc.Present? || h != [] ==> Replay(doc, h).Present?
  {
    if h != [] {
      var front, last := h[..|h| - 1], h[|h| - 1];
      assert h == front + [last];
      LinkedPresent(doc, front);
    }
  }

  /** A commit that writes a note raises its version; no other step changes the note. */
  lemma StepRaisesVersion(db: Db, e: Event, n: Id)
    requires Inv(db) && n != NIL
    ensures var before, after := DocOf(db, n), DocOf(Next(db, e), n);
            && (after == before || LocalVersion(after) > LocalVersion(before))
            && (before.Present? ==> after.Present?)
  {
    if e.Commit? && e.id in db.txs {
      var tx := db.txs[e.id];
      assert TxOk(db, tx);
      if n in tx.held {
        assert LockedNoteOk(db, tx, n);
        var h := History(tx.pending, n);
        SelectMembers(tx.pending, OfNote(n));
        LinkedVersions(DocOf(db, n), h);
        LinkedPresent(DocOf(db, n), h);
        assert h != [] ==> h[|h| - 1] in h;
      }
    }
    hide NoteOk, Linked, Link, History, LocalVersion;
  }

  lemma {:induction false} RunRaisesVersion(db: Db, events: seq<Event>, n: Id)
    requires Inv(db) && n != NIL
    ensures var before, after := DocOf(db, n), DocOf(RunOn(db, events), n);
            && (after == before || LocalVersion(after) > LocalVersion(before))
            && (before.Present? ==> after.Present?)
  {
    if events != [] {
      var front := events[..|events| - 1];
      RunRaisesVersion(db, front, n);
      RunKeeps(db, front);
      StepRaisesVersion(RunOn(db, front), events[|events| - 1], n);
    }
    hide Inv, Next, DocOf;
  }

  /**
   Exactly when a read without the lock is right: the row, blocks and cursor of three separate statements make the
   note's history up to that cursor if and only if the stored version, read once more at the end, is that of the row.
   */
  lemma UnlockedReadIsRightIff(db: Db, n: Id, beforeBlocks: seq<Event>, beforeCursor: seq<Event>)
    requires Inv(db) && n != NIL && DocOf(db, n).Present?
    ensures var second := RunOn(db, beforeBlocks); var third := RunOn(second, beforeCursor);
            && DocOf(second, n).Present? && DocOf(third, n).Present?
            && var document := Present(DocOf(db, n).note, DocOf(second, n).blocks);
               var h, cursor := History(third.committed, n), LastCursor(third.committed, n);
               && Select(h, AfterSequence(cursor)) == []
               && (document == Replay(Absent, h) <==> DocOf(third, n).note.version == DocOf(db, n).note.version)
  {
    var second := RunOn(db, beforeBlocks);
    var third := RunOn(second, beforeCursor);
    RunRaisesVersion(db, beforeBlocks, n);
    RunKeeps(db, beforeBlocks);
    RunRaisesVersion(second, beforeCursor, n);
    RunKeeps(second, beforeCursor);
    assert NoteOk(third, n);
    SelectMembers(third.committed, OfNote(n));
    SelectNothing(History(third.committed, n), AfterSequence(LastCursor(third.committed, n)));
    hide Inv, RunOn, History, Linked;
  }

  lemma LastCursorIsReached(log: seq<Change>, n: Id)
    requires History(log, n) != []
    ensures exists c <- History(log, n) :: c.sequence == LastCursor(log, n)
  {
    SelectMembers(log, OfNote(n));
    var h := History(log, n);
    assert h[0] in h && h[0] in log;
    if log != [] {
      ReachedFrom(log, n);
    }
  }

  lemma {:induction false} ReachedFrom(log: seq<Change>, n: Id)
    ensures (forall c <- log :: c.noteId != n) || exists c <- log :: c.noteId == n && c.sequence == LastCursor(log, n)
  {
    if log != [] {
      var front, last := log[..|log| - 1], log[|log| - 1];
      assert log == front + [last];
      ReachedFrom(front, n);
    }
  }

  // ---- waiting ----

  /** a waits for a note that b has locked. */
  ghost predicate WaitsFor(db: Db, a: nat, b: nat) {
    && a in db.txs && b in db.txs && a != b
    && db.txs[a].waiting.Some? && db.txs[a].waiting.value in db.txs[b].held
  }

  ghost predicate WaitChain(db: Db, ids: seq<nat>) {
    forall i | 0 <= i < |ids| - 1 :: WaitsFor(db, ids[i], ids[i + 1])
  }

  lemma {:induction false} WaitsIncrease(db: Db, ids: seq<nat>)
    requires Inv(db) && |ids| >= 2 && WaitChain(db, ids) && ids[|ids| - 1] in db.txs
    requires db.txs[ids[|ids| - 1]].waiting.Some?
    ensures ids[0] in db.txs && db.txs[ids[0]].waiting.Some?
    ensures db.txs[ids[0]].waiting.value < db.txs[ids[|ids| - 1]].waiting.value
  {
    var k := |ids| - 1;
    assert WaitsFor(db, ids[k - 1], ids[k]);
    assert TxOk(db, db.txs[ids[k]]);
    if k > 1 {
      assert forall i | 0 <= i < k - 1 :: WaitsFor(db, ids[..k][i], ids[..k][i + 1]) by {
        assert forall i | 0 <= i < k - 1 :: WaitsFor(db, ids[i], ids[i + 1]);
      }
      WaitsIncrease(db, ids[..k]);
    }
    hide Inv, HeldOk, WritesHeld;
  }

  /** Waits on note locks never form a cycle, because every transaction locks notes in increasing order. */
  lemma NoWaitCycle(events: seq<Event>, ids: seq<nat>)
    requires |ids| >= 2
    ensures !(WaitChain(RunOn(EMPTY_DB, events), ids) && ids[0] == ids[|ids| - 1])
  {
    EmptyDbInv();
    RunKeeps(EMPTY_DB, events);
    var db := RunOn(EMPTY_DB, events);
    if WaitChain(db, ids) {
      assert WaitsFor(db, ids[0], ids[1]);
      if ids[|ids| - 1] in db.txs && db.txs[ids[|ids| - 1]].waiting.Some? {
        WaitsIncrease(db, ids);
      }
    }
    hide Inv, RunOn;
  }

  // ---- sequences are handed out before the commit ----

  /** Every entry that is, or may yet be, committed with a sequence up to the cursor. */
  ghost predicate InFlight(db: Db, c: Change) {
    c in db.committed || exists id <- db.txs :: c in db.txs[id].pending
  }

  lemma StepInFlight(db: Db, e: Event, c: Change, cursor: int)
    requires InFlight(Next(db, e), c) && c.sequence <= cursor < db.next
    ensures InFlight(db, c)
  {
    var after := Next(db, e);
    if c !in after.committed {
      var id :| id in after.txs && c in after.txs[id].pending;
      if e.RollbackBatch? && id == e.id && id in db.txs && db.txs[id].batch.Some? {
        EarlierHistory(db.txs[id].pending, db.txs[id].batch.value, NIL);
      }
      if e.RollbackCategories? && id == e.id && id in db.txs {
        EarlierHistory(db.txs[id].pending, NIL, NIL);
      }
      assert id in db.txs && c in db.txs[id].pending;
    }
    hide Link, ApplyChange;
  }

  lemma {:induction false} RunInFlight(db: Db, events: seq<Event>, c: Change, cursor: int)
    requires Inv(db) && cursor < db.next
    requires InFlight(RunOn(db, events), c) && c.sequence <= cursor
    ensures InFlight(db, c)
  {
    if events != [] {
      var front := events[..|events| - 1];
      RunKeeps(db, front);
      StepInFlight(RunOn(db, front), events[|events| - 1], c, cursor);
      RunInFlight(db, front, c, cursor);
    }
    hide Inv, Next, InFlight;
  }

  lemma PendingIsNew(db: Db, id: nat, c: Change)
    requires SequencesUnique(db) && id in db.txs && c in db.txs[id].pending
    ensures c !in db.committed
  {
    assert c.sequence in Sequences(db.txs[id].pending) && c.sequence !in Sequences(db.committed);
  }

  /**
   Exactly when a pull that moves a client to a cursor misses nothing for good: no entry up to that cursor can become
   visible later, if and only if no open transaction has inserted one.
   */
  lemma PullIsCompleteIff(db: Db, cursor: int)
    requires Inv(db) && cursor < db.next
    ensures (forall events: seq<Event>, c: Change | c in RunOn(db, events).committed && c.sequence <= cursor ::
        c in db.committed)
       <==> (forall id <- db.txs :: forall c <- db.txs[id].pending :: c.sequence > cursor)
  {
    if forall id <- db.txs :: forall c <- db.txs[id].pending :: c.sequence > cursor {
      forall events: seq<Event>, c: Change | c in RunOn(db, events).committed && c.sequence <= cursor
        ensures c in db.committed
      {
        RunInFlight(db, events, c, cursor);
      }
    } else {
      var id :| id in db.txs && exists c <- db.txs[id].pending :: c.sequence <= cursor;
      var c :| c in db.txs[id].pending && c.sequence <= cursor;
      PendingIsNew(db, id, c);
      OneEvent(db, Commit(id));
      assert c in RunOn(db, [Commit(id)]).committed;
    }
    hide Inv;
  }

  lemma OneEvent(db: Db, e: Event)
    ensures RunOn(db, [e]) == Next(db, e)
  {
    assert [e][..0] == [];
    assert RunOn(db, []) == db;
  }
}
