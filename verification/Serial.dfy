/**
 Every interleaving amounts to a serial run. The transactions a run commits, run one at a time in the order of their
 commits, leave the same documents and, but for the numbering, the same history.
 */
module Serial {
  import opened Wrappers
  import opened SyncModel
  import opened DirectExecution
  import opened ChangeLog
  import opened Ledger
  import opened Replica
  import opened Locking

  // ---- the transactions of a run, in commit order ----

  /** The entries each commit of a run published. */
  function Commits(db: Db, events: seq<Event>): seq<seq<Change>> {
    if events == [] then []
    else
      var front, e := events[..|events| - 1], events[|events| - 1];
      var before := RunOn(db, front);
      Commits(db, front) + if e.Commit? && e.id in before.txs then [before.txs[e.id].pending] else []
  }

  // ---- the same transactions one at a time ----

  /** The step that writes an entry, with its note's lock where the entry opens a batch. */
  function StepsFor(front: seq<Change>, c: Change): seq<Event> {
    if c.noteId == NIL then [InsertCategory(0, c.owner, c.device, c.operationId, c.mutation, c.changeBytes)]
    else
      var insert := Insert(0, c.owner, c.device, c.operationId, c.mutation, c.changeBytes);
      if front != [] && front[|front| - 1].noteId == c.noteId then [insert]
      else [AcceptBatch(0), LockNote(0, c.noteId), Grant(0), insert]
  }

  function Writing(entries: seq<Change>): seq<Event> {
    if entries == [] then [BeginTx(0)]
    else Writing(entries[..|entries| - 1]) + StepsFor(entries[..|entries| - 1], entries[|entries| - 1])
  }

  function OneByOne(commits: seq<seq<Change>>): seq<Event> {
    if commits == [] then []
    else OneByOne(commits[..|commits| - 1]) + Writing(commits[|commits| - 1]) + [Commit(0)]
  }

  /** The entries in their order, numbered without holes. */
  function Renumber(entries: seq<Change>, next: nat): (r: seq<Change>)
    ensures |r| == |entries|
  {
    if entries == [] then []
    else
      var k := |entries| - 1;
      Renumber(entries[..k], next) + [entries[k].(sequence := next + k)]
  }

  lemma {:induction false} RenumberConcat(a: seq<Change>, b: seq<Change>, next: nat)
    ensures Renumber(a + b, next) == Renumber(a, next) + Renumber(b, next + |a|)
  {
    if b == [] {
      assert a + b == a;
      return;
    }
    var k := |b| - 1;
    assert (a + b)[..|a + b| - 1] == a + b[..k];
    RenumberConcat(a, b[..k], next);
  }

  lemma {:induction false} RunOnConcat(db: Db, a: seq<Event>, b: seq<Event>)
    ensures RunOn(db, a + b) == RunOn(RunOn(db, a), b)
  {
    hide Next;
    if b == [] {
      assert a + b == a;
    } else {
      var k := |b| - 1;
      assert (a + b)[..|a + b| - 1] == a + b[..k];
      RunOnConcat(db, a, b[..k]);
    }
  }

  lemma RunOne(db: Db, e: Event)
    ensures RunOn(db, [e]) == Next(db, e)
  {
    assert [e][..0] == [] && RunOn(db, []) == db;
    hide Next;
  }

  lemma RunFour(db: Db, a: Event, b: Event, c: Event, d: Event)
    ensures RunOn(db, [a, b, c, d]) == Next(Next(Next(Next(db, a), b), c), d)
  {
    RunOnConcat(db, [a], [b]);
    RunOnConcat(db, [a, b], [c]);
    RunOnConcat(db, [a, b, c], [d]);
    assert [a] + [b] == [a, b] && [a, b] + [c] == [a, b, c] && [a, b, c] + [d] == [a, b, c, d];
    RunOne(db, a);
    RunOne(Next(db, a), b);
    RunOne(Next(Next(db, a), b), c);
    RunOne(Next(Next(Next(db, a), b), c), d);
    hide Next, RunOn;
  }

  // ---- entries a transaction could have written against these documents ----

  predicate CanFollow(db: Db, front: seq<Change>, c: Change) {
    && (front != [] ==> front[|front| - 1].noteId <= c.noteId)
    && if c.noteId == NIL then c.mutation.OnCategory() && c.base == c.resulting == 0
       else
         && c.base == LocalVersion(DocOf(db, c.noteId)) && c.resulting == c.base + 1
         && Link(Replay(DocOf(db, c.noteId), History(front, c.noteId)), c)
  }

  predicate Ready(db: Db, entries: seq<Change>) {
    entries == [] ||
    var front, c := entries[..|entries| - 1], entries[|entries| - 1];
    Ready(db, front) && CanFollow(db, front, c)
  }

  ghost predicate AllReady(db: Db) {
    forall id <- db.txs :: Ready(db, db.txs[id].pending)
  }

  lemma {:induction false} ReadyFrame(db: Db, after: Db, entries: seq<Change>)
    requires Ready(db, entries)
    requires forall c <- entries | c.noteId != NIL :: DocOf(after, c.noteId) == DocOf(db, c.noteId)
    ensures Ready(after, entries)
  {
    if entries != [] {
      var front, c := entries[..|entries| - 1], entries[|entries| - 1];
      assert entries == front + [c];
      ReadyFrame(db, after, front);
    }
    hide Link, Replay, History, DocOf;
  }

  lemma ReadyNext(db: Db, entries: seq<Change>, c: Change)
    requires Ready(db, entries) && CanFollow(db, entries, c)
    ensures Ready(db, entries + [c])
  {
    assert (entries + [c])[..|entries|] == entries;
    hide CanFollow;
  }

  /** Taking one note's entries out leaves the others as they followed each other. */
  lemma {:induction false} ReadyWithout(db: Db, entries: seq<Change>, n: Id)
    requires Ready(db, entries)
    ensures var rest := EarlierEntries(entries, n);
            && Ready(db, rest)
            && (rest != [] ==> entries != [] && rest[|rest| - 1].noteId <= entries[|entries| - 1].noteId)
  {
    if entries == [] {
      return;
    }
    hide Link, Replay, History, DocOf;
    var front, c := entries[..|entries| - 1], entries[|entries| - 1];
    ReadyWithout(db, front, n);
    if c.noteId != n {
      EarlierHistory(front, n, c.noteId);
      ReadyNext(db, EarlierEntries(front, n), c);
    }
  }

  /** In a transaction every written note is locked, so only it can move the documents its entries follow. */
  lemma WrittenIsHeld(db: Db, tx: Tx, c: Change)
    requires TxOk(db, tx) && c in tx.pending
    ensures c.noteId == NIL || c.noteId in tx.held
  {
    SelectMembers(tx.pending, OfNote(c.noteId));
    assert c in History(tx.pending, c.noteId);
  }

  lemma InsertReady(db: Db, e: Event)
    requires Inv(db) && AllReady(db) && e.Insert? && e.id in db.txs
    ensures AllReady(Next(db, e))
  {
    hide Link, Replay, History, NoteOk;
    var tx := db.txs[e.id];
    assert TxOk(db, tx);
    if tx.batch.Some? && Link(WorkOf(tx, tx.batch.value), EntryFor(db, tx.batch.value, e)) {
      var n, c := tx.batch.value, EntryFor(db, tx.batch.value, e);
      assert LockedNoteOk(db, tx, n);
      if tx.pending != [] {
        WrittenIsHeld(db, tx, tx.pending[|tx.pending| - 1]);
      }
      ReadyNext(db, tx.pending, c);
      SameDocsReady(db, Next(db, e), e.id);
    }
  }

  /** A step of one transaction that commits nothing leaves the others ready. */
  lemma SameDocsReady(db: Db, after: Db, id: nat)
    requires AllReady(db) && after.docs == db.docs
    requires forall other <- after.txs | other != id :: other in db.txs && after.txs[other] == db.txs[other]
    requires id in after.txs ==> Ready(db, after.txs[id].pending)
    ensures AllReady(after)
  {
    forall other | other in after.txs
      ensures Ready(after, after.txs[other].pending)
    {
      ReadyFrame(db, after, after.txs[other].pending);
    }
    hide Ready;
  }

  lemma CategoryReady(db: Db, e: Event)
    requires Inv(db) && AllReady(db) && e.InsertCategory? && e.id in db.txs
    ensures AllReady(Next(db, e))
  {
    var tx := db.txs[e.id];
    assert TxOk(db, tx);
    hide Link, Inv, Replay, History, NoteOk;
    if BeforeNotes(tx) && e.mutation.OnCategory() {
      var c := CategoryEntry(db, e);
      if tx.pending != [] {
        WrittenIsHeld(db, tx, tx.pending[|tx.pending| - 1]);
      }
      ReadyNext(db, tx.pending, c);
      SameDocsReady(db, Next(db, e), e.id);
    }
  }

  lemma CommitReady(db: Db, id: nat)
    requires Inv(db) && AllReady(db) && id in db.txs
    ensures AllReady(Next(db, Commit(id)))
  {
    var after := Next(db, Commit(id));
    forall other | other in after.txs
      ensures Ready(after, after.txs[other].pending)
    {
      var tx := db.txs[other];
      assert TxOk(db, tx);
      forall c <- tx.pending | c.noteId != NIL
        ensures DocOf(after, c.noteId) == DocOf(db, c.noteId)
      {
        WrittenIsHeld(db, tx, c);
        assert c.noteId !in db.txs[id].held;
      }
      ReadyFrame(db, after, tx.pending);
    }
    hide Ready, TxOk, NoteOk;
  }

  lemma StepReady(db: Db, e: Event)
    requires Inv(db) && AllReady(db)
    ensures AllReady(Next(db, e))
  {
    hide Inv, Ready, Publish;
    match e {
      case Insert(id, _, _, _, _, _) =>
        if id in db.txs {
          InsertReady(db, e);
        }
      case InsertCategory(id, _, _, _, _, _) =>
        if id in db.txs {
          CategoryReady(db, e);
        }
      case Commit(id) =>
        if id in db.txs {
          CommitReady(db, id);
        }
      case _ => QuietReady(db, e);
    }
  }

  /** Steps that add no entry. */
  lemma QuietReady(db: Db, e: Event)
    requires AllReady(db) && !e.Insert? && !e.InsertCategory? && !e.Commit?
    ensures AllReady(Next(db, e))
  {
    hide CanFollow, EarlierEntries;
    if e.id in db.txs {
      var tx := db.txs[e.id];
      ReadyWithout(db, tx.pending, NIL);
      if tx.batch.Some? {
        ReadyWithout(db, tx.pending, tx.batch.value);
      }
    }
    assert Ready(db, []);
    hide Ready;
    SameDocsReady(db, Next(db, e), e.id);
  }

  // ---- writing the entries of one transaction alone ----

  /** A database with one open transaction that has written these entries on top of another database's documents. */
  ghost predicate Written(db: Db, entries: seq<Change>, s: Db) {
    && s.docs == db.docs && s.committed == db.committed && s.next == db.next + |entries|
    && 0 in s.txs && s.txs.Keys == {0}
    && Holds(db, entries, s.txs[0])
  }

  ghost predicate Holds(db: Db, entries: seq<Change>, tx: Tx) {
    && tx.pending == Renumber(entries, db.next)
    && tx.waiting == None
    && tx.batch == (if entries == [] || entries[|entries| - 1].noteId == NIL then None
         else Some(entries[|entries| - 1].noteId))
    && (forall n <- tx.held :: n != NIL && n in tx.work && entries != [] && n <= entries[|entries| - 1].noteId)
    && (entries != [] && entries[|entries| - 1].noteId != NIL ==> entries[|entries| - 1].noteId in tx.held)
    && (forall n: Id | n != NIL :: if n in tx.held then WorkOf(tx, n) == Replay(DocOf(db, n), History(entries, n))
         else History(entries, n) == [])
  }

  /** Documents do not depend on how entries are numbered. */
  lemma LinkIgnoresSequence(doc: Document, c: Change, sequence: nat)
    ensures Link(doc, c.(sequence := sequence)) == Link(doc, c)
    ensures ApplyChange(doc, c.(sequence := sequence)) == ApplyChange(doc, c)
  {
  }

  lemma HistoryNext(entries: seq<Change>, c: Change, doc: Document, n: Id)
    ensures n == c.noteId ==> Replay(doc, History(entries + [c], n)) == ApplyChange(Replay(doc, History(entries, n)), c)
    ensures n != c.noteId ==> History(entries + [c], n) == History(entries, n)
  {
    SelectAppend(entries, c, OfNote(n));
    if n == c.noteId {
      ReplayAppend(doc, History(entries, n), c);
    }
  }

  lemma RenumberNext(entries: seq<Change>, c: Change, next: nat)
    ensures Renumber(entries + [c], next) == Renumber(entries, next) + [c.(sequence := next + |entries|)]
  {
    assert (entries + [c])[..|entries|] == entries;
  }

  lemma CategoryAlone(db: Db, entries: seq<Change>, c: Change, s: Db)
    requires Written(db, entries, s) && CanFollow(db, entries, c) && c.noteId == NIL
    ensures Written(db, entries + [c],
        Next(s, InsertCategory(0, c.owner, c.device, c.operationId, c.mutation, c.changeBytes)))
  {
    hide Replay, History, Link, Renumber;
    RenumberNext(entries, c, db.next);
    forall n: Id | n != NIL
      ensures History(entries + [c], n) == History(entries, n)
    {
      HistoryNext(entries, c, Absent, n);
    }
    assert s.txs[0].held == {};
  }

  /** Inside the batch of the next entry's note, with the entries before it written. */
  ghost predicate InBatch(db: Db, entries: seq<Change>, n: Id, tx: Tx) {
    && tx.pending == Renumber(entries, db.next) && tx.waiting == None && tx.batch == Some(n) && n in tx.held
    && (forall m <- tx.held :: m != NIL && m in tx.work && m <= n)
    && (forall m: Id | m != NIL ::
          if m in tx.held then WorkOf(tx, m) == Replay(DocOf(db, m), History(entries, m))
          else History(entries, m) == [])
  }

  lemma BatchHolds(db: Db, entries: seq<Change>, c: Change, tx: Tx)
    requires c.noteId != NIL && InBatch(db, entries, c.noteId, tx)
    ensures var work := tx.work[c.noteId := ApplyChange(WorkOf(tx, c.noteId), c)];
            Holds(db, entries + [c],
              tx.(work := work, pending := tx.pending + [c.(sequence := db.next + |entries|)]))
  {
    hide Replay, History, Renumber, ApplyChange;
    RenumberNext(entries, c, db.next);
    forall n: Id | n != NIL
      ensures n != c.noteId ==> History(entries + [c], n) == History(entries, n)
      ensures n == c.noteId ==>
                Replay(DocOf(db, n), History(entries + [c], n))
                == ApplyChange(Replay(DocOf(db, n), History(entries, n)), c)
    {
      HistoryNext(entries, c, DocOf(db, n), n);
    }
  }

  lemma Inserted(s: Db, e: Event, n: Id)
    requires e.Insert? && e.id in s.txs && s.txs[e.id].batch == Some(n)
    requires Link(WorkOf(s.txs[e.id], n), EntryFor(s, n, e))
    ensures var tx, c := s.txs[e.id], EntryFor(s, n, e);
            Next(s, e) ==
              s.(next := s.next + 1,
                 txs := s.txs[e.id :=
                   tx.(work := tx.work[n := ApplyChange(WorkOf(tx, n), c)], pending := tx.pending + [c])])
  {
    hide Link, ApplyChange;
  }

  /** Written alone, the entry is the one written before, but for its number. */
  lemma NextEntry(db: Db, entries: seq<Change>, c: Change, s: Db, e: Event)
    requires c.noteId != NIL && CanFollow(db, entries, c)
    requires s.docs == db.docs && s.next == db.next + |entries| && 0 in s.txs
    requires InBatch(db, entries, c.noteId, s.txs[0])
    requires e == Insert(0, c.owner, c.device, c.operationId, c.mutation, c.changeBytes)
    ensures var tx, n := s.txs[0], c.noteId; var entry := EntryFor(s, n, e);
            && tx.batch == Some(n) && entry == c.(sequence := db.next + |entries|)
            && Link(WorkOf(tx, n), entry) && ApplyChange(WorkOf(tx, n), entry) == ApplyChange(WorkOf(tx, n), c)
  {
    hide Replay, History, Link, ApplyChange, Renumber;
    LinkIgnoresSequence(WorkOf(s.txs[0], c.noteId), c, db.next + |entries|);
  }

  lemma InsertAlone(db: Db, entries: seq<Change>, c: Change, s: Db)
    requires c.noteId != NIL && CanFollow(db, entries, c)
    requires s.docs == db.docs && s.committed == db.committed && s.next == db.next + |entries|
    requires 0 in s.txs && s.txs.Keys == {0} && InBatch(db, entries, c.noteId, s.txs[0])
    ensures Written(db, entries + [c],
              Next(s, Insert(0, c.owner, c.device, c.operationId, c.mutation, c.changeBytes)))
  {
    hide Replay, History, Link, ApplyChange, Holds, InBatch, Next, CanFollow, EntryFor, Renumber, WorkOf;
    var tx, e := s.txs[0], Insert(0, c.owner, c.device, c.operationId, c.mutation, c.changeBytes);
    NextEntry(db, entries, c, s, e);
    Inserted(s, e, c.noteId);
    BatchHolds(db, entries, c, tx);
  }

  lemma NoteAlone(db: Db, entries: seq<Change>, c: Change, s: Db)
    requires Written(db, entries, s) && CanFollow(db, entries, c) && c.noteId != NIL
    ensures Written(db, entries + [c], RunOn(s, StepsFor(entries, c)))
  {
    hide Replay, Link, Renumber, Written, RunOn;
    var insert := Insert(0, c.owner, c.device, c.operationId, c.mutation, c.changeBytes);
    if entries != [] && entries[|entries| - 1].noteId == c.noteId {
      RunOne(s, insert);
      SameBatch(db, entries, c, s);
    } else {
      RunFour(s, AcceptBatch(0), LockNote(0, c.noteId), Grant(0), insert);
      NewBatch(db, entries, c, s);
    }
  }

  lemma SameBatch(db: Db, entries: seq<Change>, c: Change, s: Db)
    requires Written(db, entries, s) && CanFollow(db, entries, c) && c.noteId != NIL
    requires entries != [] && entries[|entries| - 1].noteId == c.noteId
    ensures Written(db, entries + [c], Next(s, Insert(0, c.owner, c.device, c.operationId, c.mutation, c.changeBytes)))
  {
    hide Replay, History, Link, Renumber, Next;
    assert InBatch(db, entries, c.noteId, s.txs[0]);
    InsertAlone(db, entries, c, s);
  }

  lemma Granted(s: Db, n: Id)
    requires 0 in s.txs && s.txs.Keys == {0} && s.txs[0].waiting == None && n != NIL
    requires forall m <- s.txs[0].held :: m < n
    ensures Next(Next(Next(s, AcceptBatch(0)), LockNote(0, n)), Grant(0)) ==
              s.(txs := s.txs[0 :=
                s.txs[0].(held := s.txs[0].held + {n}, work := s.txs[0].work[n := DocOf(s, n)], batch := Some(n))])
  {
    hide Publish;
    var accepted := Next(s, AcceptBatch(0));
    assert accepted.txs.Keys == {0} && accepted.txs[0] == s.txs[0].(batch := None);
    assert MayLock(accepted.txs[0], n);
    var waiting := Next(accepted, LockNote(0, n));
    assert waiting.txs.Keys == {0} && Free(waiting, n);
  }

  lemma NewBatchHolds(db: Db, entries: seq<Change>, n: Id, tx: Tx)
    requires Holds(db, entries, tx) && n != NIL && n !in tx.held && forall m <- tx.held :: m < n
    ensures InBatch(db, entries, n, tx.(held := tx.held + {n}, work := tx.work[n := DocOf(db, n)], batch := Some(n)))
  {
    hide Replay, History, Renumber;
    NothingReplayed(DocOf(db, n));
  }

  lemma NewBatch(db: Db, entries: seq<Change>, c: Change, s: Db)
    requires Written(db, entries, s) && CanFollow(db, entries, c) && c.noteId != NIL
    requires entries == [] || entries[|entries| - 1].noteId != c.noteId
    ensures var granted := Next(Next(Next(s, AcceptBatch(0)), LockNote(0, c.noteId)), Grant(0));
            Written(db, entries + [c], Next(granted,
              Insert(0, c.owner, c.device, c.operationId, c.mutation, c.changeBytes)))
  {
    hide Replay, History, Link, Renumber, Next, InBatch;
    var n := c.noteId;
    assert Holds(db, entries, s.txs[0]) && n !in s.txs[0].held;
    Granted(s, n);
    NewBatchHolds(db, entries, n, s.txs[0]);
    InsertAlone(db, entries, c, Next(Next(Next(s, AcceptBatch(0)), LockNote(0, n)), Grant(0)));
  }

  lemma NothingReplayed(doc: Document)
    ensures Replay(doc, []) == doc
  {
  }

  lemma {:induction false} WritingAlone(db: Db, entries: seq<Change>)
    requires db.txs == map[] && Ready(db, entries)
    ensures Written(db, entries, RunOn(db, Writing(entries)))
  {
    if entries == [] {
      RunOne(db, BeginTx(0));
      assert Renumber([], db.next) == [];
      return;
    }
    hide Written, RunOn, CanFollow, StepsFor;
    var front, c := entries[..|entries| - 1], entries[|entries| - 1];
    assert entries == front + [c];
    WritingAlone(db, front);
    RunOnConcat(db, Writing(front), StepsFor(front, c));
    if c.noteId == NIL {
      CategorySteps(db, front, c, RunOn(db, Writing(front)));
    } else {
      NoteAlone(db, front, c, RunOn(db, Writing(front)));
    }
  }

  lemma CategorySteps(db: Db, entries: seq<Change>, c: Change, s: Db)
    requires Written(db, entries, s) && CanFollow(db, entries, c) && c.noteId == NIL
    ensures Written(db, entries + [c], RunOn(s, StepsFor(entries, c)))
  {
    RunOne(s, InsertCategory(0, c.owner, c.device, c.operationId, c.mutation, c.changeBytes));
    CategoryAlone(db, entries, c, s);
    hide Written, RunOn, CanFollow;
  }

  // ---- both ways of committing ----

  /** What a commit makes of a document. */
  ghost predicate Moved(db: Db, entries: seq<Change>, after: Db) {
    forall n: Id | n != NIL :: DocOf(after, n) == Replay(DocOf(db, n), History(entries, n))
  }

  lemma CommitMoves(db: Db, id: nat)
    requires Inv(db) && id in db.txs
    ensures Moved(db, db.txs[id].pending, Next(db, Commit(id)))
  {
    var tx, after := db.txs[id], Next(db, Commit(id));
    assert TxOk(db, tx);
    forall n: Id | n != NIL
      ensures DocOf(after, n) == Replay(DocOf(db, n), History(tx.pending, n))
    {
      if n in tx.held {
        assert LockedNoteOk(db, tx, n);
      } else {
        NothingReplayed(DocOf(db, n));
      }
    }
    hide NoteOk, History, Linked;
  }

  lemma CommitAlone(db: Db, entries: seq<Change>, s: Db)
    requires Written(db, entries, s)
    ensures var after := Next(s, Commit(0));
            && Moved(db, entries, after) && after.txs == map[]
            && after.committed == db.committed + Renumber(entries, db.next) && after.next == db.next + |entries|
  {
    hide Replay, History, Renumber;
    var after := Next(s, Commit(0));
    assert after.txs == map[];
    forall n: Id | n != NIL
      ensures DocOf(after, n) == Replay(DocOf(db, n), History(entries, n))
    {
      NothingReplayed(DocOf(db, n));
    }
  }

  /** The serial database stands for the interleaved one: same documents, same history but for its numbering. */
  ghost predicate SameState(db: Db, s: Db) {
    && s.txs == map[] && s.next == |db.committed| + 1
    && s.committed == Renumber(db.committed, 1)
    && forall n: Id | n != NIL :: DocOf(s, n) == DocOf(db, n)
  }

  lemma SerialCommit(s: Db, entries: seq<Change>)
    requires s.txs == map[] && Ready(s, entries)
    ensures var after := RunOn(s, Writing(entries) + [Commit(0)]);
            && Moved(s, entries, after) && after.txs == map[]
            && after.committed == s.committed + Renumber(entries, s.next) && after.next == s.next + |entries|
  {
    hide Ready, Renumber, Written, RunOn, Moved, Next;
    WritingAlone(s, entries);
    RunOnConcat(s, Writing(entries), [Commit(0)]);
    RunOne(RunOn(s, Writing(entries)), Commit(0));
    CommitAlone(s, entries, RunOn(s, Writing(entries)));
  }

  lemma BothMoved(db: Db, after: Db, s: Db, serial: Db, entries: seq<Change>)
    requires SameState(db, s) && Moved(db, entries, after) && after.committed == db.committed + entries
    requires Moved(s, entries, serial) && serial.txs == map[]
    requires serial.committed == s.committed + Renumber(entries, s.next) && serial.next == s.next + |entries|
    ensures SameState(after, serial)
  {
    hide Renumber, Replay, History;
    RenumberConcat(db.committed, entries, 1);
  }

  lemma SameDocsAreReady(db: Db, s: Db, entries: seq<Change>)
    requires SameState(db, s) && Ready(db, entries)
    ensures Ready(s, entries)
  {
    hide Renumber, Ready;
    ReadyFrame(db, s, entries);
  }

  lemma CommitBoth(db: Db, s: Db, id: nat)
    requires Inv(db) && AllReady(db) && id in db.txs && SameState(db, s)
    ensures SameState(Next(db, Commit(id)), RunOn(s, Writing(db.txs[id].pending) + [Commit(0)]))
  {
    var entries := db.txs[id].pending;
    assert Ready(db, entries) && s.txs == map[] && Next(db, Commit(id)).committed == db.committed + entries;
    hide Inv, Ready, AllReady, SameState, Moved, RunOn, Next, Renumber;
    SameDocsAreReady(db, s, entries);
    SerialCommit(s, entries);
    CommitMoves(db, id);
    BothMoved(db, Next(db, Commit(id)), s, RunOn(s, Writing(entries) + [Commit(0)]), entries);
  }

  lemma OtherStep(db: Db, e: Event)
    requires !(e.Commit? && e.id in db.txs)
    ensures Next(db, e).docs == db.docs && Next(db, e).committed == db.committed
  {
  }

  lemma SerialStart()
    ensures Inv(EMPTY_DB) && AllReady(EMPTY_DB) && SameState(EMPTY_DB, EMPTY_DB)
  {
    EmptyDbInv();
    assert Renumber([], 1) == [];
    hide Inv;
  }

  lemma {:induction false} SerialStep(events: seq<Event>)
    ensures var db := RunOn(EMPTY_DB, events);
            Inv(db) && AllReady(db) && SameState(db, RunOn(EMPTY_DB, OneByOne(Commits(EMPTY_DB, events))))
  {
    hide Inv, AllReady, SameState, Next, Writing;
    if events == [] {
      SerialStart();
      return;
    }
    var front, e := events[..|events| - 1], events[|events| - 1];
    SerialStep(front);
    LastEvent(EMPTY_DB, events);
    hide RunOn, OneByOne;
    var before, commits := RunOn(EMPTY_DB, front), Commits(EMPTY_DB, front);
    StepKeeps(before, e);
    StepReady(before, e);
    if e.Commit? && e.id in before.txs {
      var entries := before.txs[e.id].pending;
      assert Commits(EMPTY_DB, events) == commits + [entries];
      CommitBoth(before, RunOn(EMPTY_DB, OneByOne(commits)), e.id);
      RunOnConcat(EMPTY_DB, OneByOne(commits), Writing(entries) + [Commit(0)]);
      OneMoreCommit(commits, entries);
    } else {
      OtherStep(before, e);
      assert Commits(EMPTY_DB, events) == commits + [] == commits;
      SameStateStays(before, Next(before, e), RunOn(EMPTY_DB, OneByOne(commits)));
    }
  }

  lemma LastEvent(db: Db, events: seq<Event>)
    requires events != []
    ensures RunOn(db, events) == Next(RunOn(db, events[..|events| - 1]), events[|events| - 1])
  {
    hide Next;
  }

  lemma OneMoreCommit(commits: seq<seq<Change>>, entries: seq<Change>)
    ensures OneByOne(commits + [entries]) == OneByOne(commits) + (Writing(entries) + [Commit(0)])
  {
    assert (commits + [entries])[..|commits|] == commits;
    hide Writing;
  }

  lemma SameStateStays(db: Db, after: Db, s: Db)
    requires SameState(db, s) && after.docs == db.docs && after.committed == db.committed
    ensures SameState(after, s)
  {
  }

  /**
   Serializability in commit order: run the committed transactions one at a time, each against what its predecessors
   left; every one of them writes again what it wrote, at the same versions, and the database ends with the same
   documents.
   */
  lemma EveryRunIsSerial(events: seq<Event>)
    ensures var db, serial := RunOn(EMPTY_DB, events), RunOn(EMPTY_DB, OneByOne(Commits(EMPTY_DB, events)));
            && serial.txs == map[]
            && serial.committed == Renumber(db.committed, 1)
            && forall n: Id | n != NIL :: DocOf(serial, n) == DocOf(db, n)
  {
    SerialStep(events);
    hide Inv, AllReady, RunOn, OneByOne, Commits, Renumber;
  }
}
