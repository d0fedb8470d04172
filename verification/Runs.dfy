/** Every run of the server's transactions: what each reachable database satisfies, and what no run ever undoes. */
module Runs {
  import opened Wrappers
  import opened SyncModel
  import opened SyncStore
  import opened DirectExecution
  import opened ChangeLog
  import opened Ordering
  import opened Ledger
  import opened Transactions

  // ---- later tables ----

  /** What every transaction leaves of the tables it began with. */
  ghost predicate Later(t: Tables, after: Tables) {
    && after.nextSequence >= t.nextSequence
    && |t.log| <= |after.log| && after.log[..|t.log|] == t.log
    && (forall i | |t.log| <= i < |after.log| ::
          && after.log[i].sequence >= t.nextSequence
          && (after.log[i].noteId != NIL ==> after.log[i].resulting > VersionOf(t, after.log[i].noteId)))
    && KeepsRows(t, after)
  }

  lemma VersionsGrow(t: Tables, after: Tables, noteId: Id)
    requires KeepsRows(t, after) && noteId in t.notes
    ensures VersionOf(t, noteId) <= VersionOf(after, noteId)
  {
  }

  ghost predicate PositiveVersions(t: Tables) {
    forall n <- t.notes :: t.notes[n].version >= 1
  }

  lemma LaterTransitive(a: Tables, b: Tables, c: Tables)
    requires Later(a, b) && Later(b, c) && PositiveVersions(b)
    ensures Later(a, c)
  {
    forall i | |a.log| <= i < |c.log|
      ensures c.log[i].sequence >= a.nextSequence
      ensures c.log[i].noteId != NIL ==> c.log[i].resulting > VersionOf(a, c.log[i].noteId)
    {
      if i < |b.log| {
        assert c.log[i] == c.log[..|b.log|][i] == b.log[i];
      } else if c.log[i].noteId in a.notes {
        VersionsGrow(a, b, c.log[i].noteId);
      }
    }
    assert c.log[..|a.log|] == c.log[..|b.log|][..|a.log|];
  }

  // ---- versions read off the history ----

  lemma LinkSetsVersion(before: Document, c: Change)
    requires Link(before, c) && c.noteId != NIL
    ensures ApplyChange(before, c).Present?
    ensures ApplyChange(before, c).note.version == c.resulting && ApplyChange(before, c).note.owner == c.owner
  {
  }

  /** The last entry of a chained log, as one note sees it. */
  lemma FoldStep(log: seq<Change>, noteId: Id)
    requires log != [] && Chain(log) && noteId != NIL
    ensures var front, last := log[..|log| - 1], log[|log| - 1];
            && Chain(front)
            && (if last.noteId == noteId then
                  && History(log, noteId) == History(front, noteId) + [last]
                  && Link(Folded(front, noteId), last)
                  && Folded(log, noteId).Present?
                  && Folded(log, noteId).note.version == last.resulting && Folded(log, noteId).note.owner == last.owner
                else History(log, noteId) == History(front, noteId) && Folded(log, noteId) == Folded(front, noteId))
  {
    var front, last := log[..|log| - 1], log[|log| - 1];
    assert log == front + [last];
    FoldedAppend(front, last, noteId);
    SelectAppend(front, last, OfNote(noteId));
    if last.noteId == noteId {
      LinkSetsVersion(Folded(front, noteId), last);
    }
  }

  lemma EmptyFold(noteId: Id)
    ensures History([], noteId) == [] && Folded([], noteId) == Absent
  {
  }

  /** A note's entries never exceed the version they fold to, and a folded note has been through version 1. */
  lemma {:induction false} EntriesBelowVersion(log: seq<Change>, noteId: Id)
    requires Chain(log) && noteId != NIL
    ensures match Folded(log, noteId)
            case Absent => History(log, noteId) == []
            case Present(note, _) =>
              && note.version >= 1
              && (forall c <- History(log, noteId) :: 1 <= c.resulting <= note.version && c.base == c.resulting - 1)
  {
    hide ApplyChange, Folded, History, Chain;
    if log == [] {
      EmptyFold(noteId);
      return;
    }
    FoldStep(log, noteId);
    EntriesBelowVersion(log[..|log| - 1], noteId);
  }

  lemma StoredVersionsPositive(t: Tables)
    requires Consistent(t, NIL, false)
    ensures PositiveVersions(t)
  {
    forall n | n in t.notes
      ensures t.notes[n].version >= 1
    {
      EntriesBelowVersion(t.log, n);
      assert Folded(t.log, n) == Expected(t, n, NIL, false);
    }
  }

  /** Resulting versions never decrease along a note's history. */
  lemma {:induction false} VersionsNeverDecrease(log: seq<Change>, noteId: Id)
    requires Chain(log) && noteId != NIL
    ensures forall i, j | 0 <= i < j < |History(log, noteId)| ::
              History(log, noteId)[i].resulting <= History(log, noteId)[j].resulting
  {
    hide ApplyChange, Folded, History, Chain;
    if log == [] {
      EmptyFold(noteId);
      return;
    }
    var front, last := log[..|log| - 1], log[|log| - 1];
    FoldStep(log, noteId);
    VersionsNeverDecrease(front, noteId);
    EntriesBelowVersion(front, noteId);
    var h := History(front, noteId);
    forall i | 0 <= i < |h|
      ensures last.noteId == noteId ==> h[i].resulting <= last.resulting
    {
      assert h[i] in h;
    }
  }

  predicate ReachesVersion(h: seq<Change>, version: int) {
    exists c <- h :: c.resulting == version
  }

  /** Every version from 1 to the current one was produced by some entry. */
  lemma {:induction false} VersionsHaveNoHoles(log: seq<Change>, noteId: Id, version: int)
    requires Chain(log) && noteId != NIL
    requires Folded(log, noteId).Present? && 1 <= version <= Folded(log, noteId).note.version
    ensures ReachesVersion(History(log, noteId), version)
  {
    hide ApplyChange, Folded, History, Chain;
    EmptyFold(noteId);
    if log != [] {
      var front, last := log[..|log| - 1], log[|log| - 1];
      FoldStep(log, noteId);
      if last.noteId == noteId && last.resulting == version {
        assert last in History(log, noteId);
      } else {
        VersionsHaveNoHoles(front, noteId, version);
        var c :| c in History(front, noteId) && c.resulting == version;
        assert c in History(log, noteId);
      }
    }
  }

  // ---- snapshots and jobs ----

  /** The note's entries up to a version. */
  function HistoryTo(log: seq<Change>, noteId: Id, version: int): seq<Change> {
    Select(History(log, noteId), UpToVersion(version))
  }

  /**
   The backfill formula of the snapshot cursor: the largest sequence among the entries up to the snapshot's version.
   */
  function BackfillCursor(log: seq<Change>, noteId: Id, version: int): nat {
    LastCursor(HistoryTo(log, noteId, version), noteId)
  }

  ghost predicate SnapshotGood(t: Tables, row: SnapshotRow) {
    && OwnedNote(t, row.noteId, row.owner).Some?
    && 1 <= row.version <= t.notes[row.noteId].version
    && row.snapshot == Snapshot(Replay(Absent, HistoryTo(t.log, row.noteId, row.version)),
         BackfillCursor(t.log, row.noteId, row.version))
  }

  ghost predicate SnapshotsGood(t: Tables) {
    && (forall row <- t.snapshots :: SnapshotGood(t, row))
    && (forall i, j | 0 <= i < j < |t.snapshots| ::
          t.snapshots[i].noteId != t.snapshots[j].noteId || t.snapshots[i].version != t.snapshots[j].version)
  }

  ghost predicate JobGood(t: Tables, job: SnapshotPayload) {
    OwnedNote(t, job.noteId, job.owner).Some? && 1 <= job.expectedVersion <= t.notes[job.noteId].version
  }

  ghost predicate Good(t: Tables) {
    && Consistent(t, NIL, false)
    && (forall job <- t.jobs :: JobGood(t, job))
    && SnapshotsGood(t)
  }

  lemma HistoryToStays(t: Tables, after: Tables, noteId: Id, version: int)
    requires Later(t, after) && noteId != NIL && version <= VersionOf(t, noteId)
    ensures HistoryTo(after.log, noteId, version) == HistoryTo(t.log, noteId, version)
  {
    var tail := after.log[|t.log|..];
    assert after.log == t.log + tail;
    SelectConcat(t.log, tail, OfNote(noteId));
    SelectMembers(tail, OfNote(noteId));
    forall c | c in History(tail, noteId)
      ensures c.resulting > version
    {
      var i :| 0 <= i < |tail| && tail[i] == c;
      assert c == after.log[|t.log| + i];
    }
    SelectConcat(History(t.log, noteId), History(tail, noteId), UpToVersion(version));
    SelectNothing(History(tail, noteId), UpToVersion(version));
  }

  lemma RecordsStayGood(t: Tables, after: Tables)
    requires Good(t) && Later(t, after)
    requires after.snapshots == t.snapshots
    ensures SnapshotsGood(after)
    ensures forall job <- t.jobs :: JobGood(after, job)
  {
    forall row | row in after.snapshots
      ensures SnapshotGood(after, row)
    {
      assert SnapshotGood(t, row);
      HistoryToStays(t, after, row.noteId, row.version);
    }
  }

  // ---- push ----

  lemma BatchIsLater(t: Tables, who: Caller, noteId: Id, outcome: BatchOutcome)
    requires Good(t) && Settled(t, who, noteId, outcome)
    ensures Later(t, outcome.tables) && Good(outcome.tables)
  {
    var after := outcome.tables;
    forall i | |t.log| <= i < |after.log|
      ensures after.log[i].sequence >= t.nextSequence
      ensures after.log[i].noteId != NIL ==> after.log[i].resulting > VersionOf(t, after.log[i].noteId)
    {
      assert NewEntry(after.log[i], t, who, noteId);
    }
    RecordsStayGood(t, after);
    StoredVersionsPositive(after);
    forall job | job in after.jobs
      ensures JobGood(after, job)
    {
      if job !in t.jobs {
        assert job == SnapshotPayload(noteId, who.owner, outcome.noteVersion);
      }
    }
  }

  /** What a batch that ends, accepted or rejected, makes of sound tables. */
  lemma BatchKeepsGood(t: Tables, limits: SnapshotThresholds, who: Caller, ops: seq<ClientOperation>)
    requires Good(t) && OneNote(ops)
    ensures var outcome := ApplyBatch(t, limits, who, ops);
            && Good(outcome.tables) && Later(t, outcome.tables) && outcome.tables.nextSequence >= t.nextSequence
            && outcome.tables.devices == t.devices && outcome.tables.snapshots == t.snapshots
  {
    hide ApplyBatch, Later, KeepsRows, DocumentOf;
    BatchSettles(t, limits, who, ops);
    BatchIsLater(t, who, ops[0].noteId, ApplyBatch(t, limits, who, ops));
  }

  lemma {:induction false} PushAllKeeps(t: Tables, limits: SnapshotThresholds, who: Caller,
    batches: seq<seq<ClientOperation>>)
    requires Good(t)
    requires forall i | 0 <= i < |batches| :: batches[i] != [] && OneNote(batches[i])
    ensures var p := PushAll(t, limits, who, batches);
            && p.tables.nextSequence >= t.nextSequence
            && (p.Pushing? ==>
                  && Good(p.tables) && Later(t, p.tables)
                  && p.tables.devices == t.devices && p.tables.snapshots == t.snapshots)
  {
    hide ApplyBatch, Good, Later, PositiveVersions;
    if batches == [] {
      SequencesConsumed(t, t.nextSequence);
      assert t.(nextSequence := t.nextSequence) == t;
      return;
    }
    var n := |batches| - 1;
    PushAllKeeps(t, limits, who, batches[..n]);
    var before := PushAll(t, limits, who, batches[..n]);
    if before.Pushing? {
      var outcome := ApplyBatch(before.tables, limits, who, batches[n]);
      BatchKeepsGood(before.tables, limits, who, batches[n]);
      GoodVersionsPositive(before.tables);
      LaterTransitive(t, before.tables, outcome.tables);
    }
  }

  lemma SequencesConsumed(t: Tables, next: nat)
    requires Good(t) && next >= t.nextSequence
    ensures Good(t.(nextSequence := next)) && Later(t, t.(nextSequence := next))
  {
    var after := t.(nextSequence := next);
    SequenceOnly(t, next, NIL);
    RecordsStayGood(t, after);
  }

  lemma RequestKeeps(t: Tables, limits: SnapshotThresholds, who: Caller, request: Request)
    requires Good(t)
    ensures var batches := RequestBatches(request);
            (forall i | 0 <= i < |batches| :: batches[i] != []) &&
            var p := PushAll(t, limits, who, batches);
            && p.tables.nextSequence >= t.nextSequence
            && (p.Pushing? ==>
                  && Good(p.tables) && Later(t, p.tables)
                  && p.tables.devices == t.devices && p.tables.snapshots == t.snapshots)
  {
    RequestBatchesWellFormed(request);
    PushAllKeeps(t, limits, who, RequestBatches(request));
    hide RequestBatches, PushAll, Good, Later;
  }

  lemma PushKeeps(t: Tables, config: Config, owner: Id, request: Request)
    requires Good(t)
    ensures var result := Push(t, config, owner, request);
            && Good(result.tables) && Later(t, result.tables)
            && result.tables.devices == t.devices && result.tables.snapshots == t.snapshots
            && (result.PushError? ==> result.tables == t.(nextSequence := result.tables.nextSequence))
  {
    hide PushAll, Good, Later, RequestBatches;
    RequestKeeps(t, config.limits, Caller(owner, request.deviceId), request);
    SequencesConsumed(t, PushAll(t, config.limits, Caller(owner, request.deviceId),
      RequestBatches(request)).tables.nextSequence);
    SequencesConsumed(t, t.nextSequence);
    assert t.(nextSequence := t.nextSequence) == t;
  }

  // ---- snapshots ----

  datatype SnapshotResult = Stored(tables: Tables) | NoteMissing | NoteBehind

  function FindRow(rows: seq<SnapshotRow>, noteId: Id, version: int): (r: Option<nat>)
    ensures r.Some? ==> r.value < |rows| && rows[r.value].noteId == noteId && rows[r.value].version == version
    ensures r.None? ==> forall row <- rows :: row.noteId != noteId || row.version != version
  {
    if rows == [] then None
    else
      var n := |rows| - 1;
      assert rows == rows[..n] + [rows[n]];
      if rows[n].noteId == noteId && rows[n].version == version then Some(n) else FindRow(rows[..n], noteId, version)
  }

  /** ON CONFLICT (note_id, version) DO UPDATE. */
  function Upsert(rows: seq<SnapshotRow>, row: SnapshotRow): seq<SnapshotRow> {
    match FindRow(rows, row.noteId, row.version)
    case Some(i) => rows[i := rows[i].(snapshot := row.snapshot)]
    case None => rows + [row]
  }

  /** The worker's transaction for one snapshot job. */
  function CreateSnapshot(t: Tables, payload: SnapshotPayload): SnapshotResult {
    match LoadDocument(t, payload.noteId, payload.owner)
    case None => NoteMissing
    case Some(snapshot) =>
      var version := snapshot.document.note.version;
      if version < payload.expectedVersion then NoteBehind
      else Stored(t.(snapshots := Upsert(t.snapshots, SnapshotRow(payload.noteId, payload.owner, version, snapshot))))
  }

  lemma WholeHistory(t: Tables, noteId: Id)
    requires Consistent(t, NIL, false) && noteId in t.notes
    ensures HistoryTo(t.log, noteId, t.notes[noteId].version) == History(t.log, noteId)
    ensures Replay(Absent, History(t.log, noteId)) == DocumentOf(t, noteId)
  {
    EntriesBelowVersion(t.log, noteId);
    assert Folded(t.log, noteId) == Expected(t, noteId, NIL, false);
    SelectEverything(History(t.log, noteId), UpToVersion(t.notes[noteId].version));
  }

  lemma LastCursorAppend(log: seq<Change>, c: Change, noteId: Id)
    ensures LastCursor(log + [c], noteId) ==
              if c.noteId == noteId && c.sequence > LastCursor(log, noteId) then c.sequence else LastCursor(log, noteId)
  {
    assert (log + [c])[..|log|] == log;
  }

  lemma {:induction false} LastCursorOfHistory(log: seq<Change>, noteId: Id)
    ensures LastCursor(History(log, noteId), noteId) == LastCursor(log, noteId)
  {
    if log == [] {
      return;
    }
    hide Select, LastCursor;
    var front, last := log[..|log| - 1], log[|log| - 1];
    assert log == front + [last];
    LastCursorOfHistory(front, noteId);
    SelectAppend(front, last, OfNote(noteId));
    LastCursorAppend(front, last, noteId);
    LastCursorAppend(History(front, noteId), last, noteId);
  }

  /** The row CreateSnapshot writes for a note. */
  function RowOf(t: Tables, noteId: Id): SnapshotRow
    requires noteId in t.notes
  {
    SnapshotRow(noteId, t.notes[noteId].owner, t.notes[noteId].version,
      Snapshot(DocumentOf(t, noteId), LastCursor(t.log, noteId)))
  }

  lemma RowIsGood(t: Tables, noteId: Id)
    requires Consistent(t, NIL, false) && noteId in t.notes
    ensures SnapshotGood(t, RowOf(t, noteId))
  {
    WholeHistory(t, noteId);
    LastCursorOfHistory(t.log, noteId);
    StoredVersionsPositive(t);
  }

  /**
   A snapshot is a function of the note's version: writing one again rewrites the row that is there. A job the server
   enqueued never finds its note behind.
   */
  lemma CreateSnapshotKeeps(t: Tables, payload: SnapshotPayload)
    requires Good(t)
    ensures JobGood(t, payload) ==> CreateSnapshot(t, payload).Stored?
    ensures match CreateSnapshot(t, payload)
            case NoteMissing => OwnedNote(t, payload.noteId, payload.owner).None?
            case NoteBehind =>
              && OwnedNote(t, payload.noteId, payload.owner).Some?
              && t.notes[payload.noteId].version < payload.expectedVersion
            case Stored(after) =>
              && OwnedNote(t, payload.noteId, payload.owner).Some?
              && t.notes[payload.noteId].version >= payload.expectedVersion
              && Good(after) && Later(t, after)
              && payload.noteId in t.notes
              && after == (if RowOf(t, payload.noteId) in t.snapshots then t
                           else t.(snapshots := t.snapshots + [RowOf(t, payload.noteId)]))
              && RowOf(t, payload.noteId) in after.snapshots
  {
    if CreateSnapshot(t, payload).Stored? {
      var row := RowOf(t, payload.noteId);
      RowIsGood(t, payload.noteId);
      var after := CreateSnapshot(t, payload).tables;
      var found := FindRow(t.snapshots, row.noteId, row.version);
      if found.Some? {
        assert SnapshotGood(t, t.snapshots[found.value]);
        assert t.snapshots[found.value] == row;
        assert after == t;
      } else {
        SnapshotAdded(t, row);
      }
    }
  }

  lemma SnapshotAdded(t: Tables, row: SnapshotRow)
    requires Good(t) && SnapshotGood(t, row)
    requires forall r <- t.snapshots :: r.noteId != row.noteId || r.version != row.version
    ensures Good(t.(snapshots := t.snapshots + [row])) && Later(t, t.(snapshots := t.snapshots + [row]))
  {
    var after := t.(snapshots := t.snapshots + [row]);
    forall noteId: Id
      ensures Folded(after.log, noteId) == Expected(after, noteId, NIL, false)
    {
      assert Folded(t.log, noteId) == Expected(t, noteId, NIL, false);
      assert BlocksOfNote(after, noteId) == BlocksOfNote(t, noteId);
    }
    forall r | r in after.snapshots
      ensures SnapshotGood(after, r)
    {
      assert SnapshotGood(t, r);
    }
    forall i | 0 <= i < |t.snapshots|
      ensures t.snapshots[i].noteId != row.noteId || t.snapshots[i].version != row.version
    {
      assert t.snapshots[i] in t.snapshots;
    }
    forall job | job in after.jobs
      ensures JobGood(after, job)
    {
      assert JobGood(t, job);
    }
  }

  // ---- a snapshot and the rest of the history rebuild the note ----

  /** In a history whose versions never decrease, the entries up to a version are those up to a sequence. */
  lemma {:induction false} HistoryCut(h: seq<Change>, version: int, cursor: int)
    requires Increasing(h)
    requires forall i, j | 0 <= i < j < |h| :: h[i].resulting <= h[j].resulting
    requires forall c <- h :: c.resulting <= version ==> c.sequence <= cursor
    requires cursor == 0 || exists c <- h :: c.resulting <= version && c.sequence == cursor
    requires forall c <- h :: c.sequence >= 1
    ensures h == Select(h, UpToVersion(version)) + Select(h, AfterSequence(cursor))
  {
    forall i | 0 <= i < |h|
      ensures h[i].resulting <= version <==> h[i].sequence <= cursor
    {
      assert h[i] in h;
      if h[i].sequence <= cursor {
        var j :| 0 <= j < |h| && h[j].resulting <= version && h[j].sequence == cursor;
        assert j >= i;
      }
    }
    CutInOrder(h, version, cursor);
  }

  ghost predicate CutsAt(h: seq<Change>, version: int, cursor: int) {
    Increasing(h) && forall c <- h :: c.resulting <= version <==> c.sequence <= cursor
  }

  lemma CutFront(h: seq<Change>, version: int, cursor: int)
    requires h != [] && CutsAt(h, version, cursor)
    ensures var last := h[|h| - 1];
            && CutsAt(h[..|h| - 1], version, cursor) && (last.resulting <= version <==> last.sequence <= cursor)
            && (last.sequence <= cursor ==> forall c <- h :: c.resulting <= version && c.sequence <= cursor)
  {
    assert h[|h| - 1] in h;
    assert forall c <- h[..|h| - 1] :: c in h;
  }

  lemma {:induction false} CutInOrder(h: seq<Change>, version: int, cursor: int)
    requires CutsAt(h, version, cursor)
    ensures h == Select(h, UpToVersion(version)) + Select(h, AfterSequence(cursor))
  {
    hide Select, CutsAt;
    if h == [] {
      SelectNothing(h, UpToVersion(version));
      SelectNothing(h, AfterSequence(cursor));
      return;
    }
    var front, last := h[..|h| - 1], h[|h| - 1];
    assert h == front + [last];
    CutFront(h, version, cursor);
    if last.sequence <= cursor {
      SelectEverything(h, UpToVersion(version));
      SelectNothing(h, AfterSequence(cursor));
    } else {
      CutInOrder(front, version, cursor);
      SelectAppend(front, last, UpToVersion(version));
      SelectAppend(front, last, AfterSequence(cursor));
      var early, late := Select(front, UpToVersion(version)), Select(front, AfterSequence(cursor));
      assert (early + late) + [last] == early + (late + [last]);
    }
  }

  /** A stored snapshot followed by the note's entries after its cursor is the current note. */
  lemma SnapshotPlusSuffix(t: Tables, row: SnapshotRow)
    requires Good(t) && row in t.snapshots
    ensures row.snapshot.document.Present? && row.snapshot.document.note.version == row.version
    ensures Replay(row.snapshot.document,
        Select(History(t.log, row.noteId), AfterSequence(row.snapshot.lastAppliedCursor)))
         == DocumentOf(t, row.noteId)
  {
    assert SnapshotGood(t, row);
    var h, cursor := History(t.log, row.noteId), row.snapshot.lastAppliedCursor;
    var early := HistoryTo(t.log, row.noteId, row.version);
    SelectIncreasing(t.log, OfNote(row.noteId));
    VersionsNeverDecrease(t.log, row.noteId);
    SelectMembers(t.log, OfNote(row.noteId));
    SelectMembers(h, UpToVersion(row.version));
    HistoryCut(h, row.version, cursor);
    ReplayConcat(Absent, early, Select(h, AfterSequence(cursor)));
    WholeHistory(t, row.noteId);
    SnapshotVersion(t.log, row.noteId, row.version);
  }

  /** The entries up to a version that occurs fold to a document at that version. */
  lemma {:induction false} SnapshotVersion(log: seq<Change>, noteId: Id, version: int)
    requires Chain(log) && noteId != NIL
    requires Folded(log, noteId).Present? && 1 <= version <= Folded(log, noteId).note.version
    ensures var doc := Replay(Absent, HistoryTo(log, noteId, version)); doc.Present? && doc.note.version == version
  {
    hide ApplyChange, History, Chain, Select, Replay, Link;
    EntriesBelowVersion(log, noteId);
    EmptyFold(noteId);
    if version == Folded(log, noteId).note.version {
      SelectEverything(History(log, noteId), UpToVersion(version));
    } else if log != [] {
      var front, last := log[..|log| - 1], log[|log| - 1];
      FoldStep(log, noteId);
      SelectAppend(History(front, noteId), last, UpToVersion(version));
      SnapshotVersion(front, noteId, version);
    }
  }

  // ---- runs ----

  datatype Transaction =
    | PushTx(owner: Id, request: Request)
    | PullTx(owner: Id, pull: PullRequest)
    | SnapshotTx(payload: SnapshotPayload)
    | RegisterTx(owner: Id, device: string)
    | RevokeTx(owner: Id, device: string)

  /** The tables a transaction commits, or the tables it began with when it fails. */
  ghost function Execute(t: Tables, config: Config, tx: Transaction): Tables {
    match tx
    case PushTx(owner, request) => Push(t, config, owner, request).tables
    case PullTx(owner, pull) => (match Pull(t, config, owner, pull) case Pulled(after,
      _) => after case PullError(_) => t)
    case SnapshotTx(payload) => (match CreateSnapshot(t, payload) case Stored(after) => after case _ => t)
    case RegisterTx(owner, device) =>
      if device in t.devices then t else t.(devices := t.devices[device := Device(owner, 0, false)])
    case RevokeTx(owner, device) =>
      if device in t.devices && t.devices[device].owner == owner
      then t.(devices := t.devices[device := t.devices[device].(revoked := true)]) else t
  }

  ghost function RunAll(config: Config, txs: seq<Transaction>): Tables {
    if txs == [] then EMPTY_TABLES else Execute(RunAll(config, txs[..|txs| - 1]), config, txs[|txs| - 1])
  }

  lemma DevicesOnly(t: Tables, devices: map<string, Device>)
    requires Good(t)
    ensures Good(t.(devices := devices)) && Later(t, t.(devices := devices))
  {
    var after := t.(devices := devices);
    forall noteId: Id
      ensures Folded(after.log, noteId) == Expected(after, noteId, NIL, false)
    {
      assert Folded(t.log, noteId) == Expected(t, noteId, NIL, false);
      assert BlocksOfNote(after, noteId) == BlocksOfNote(t, noteId);
    }
    RecordsStayGood(t, after);
  }

  lemma ExecuteKeeps(t: Tables, config: Config, tx: Transaction)
    requires Good(t)
    ensures Good(Execute(t, config, tx)) && Later(t, Execute(t, config, tx))
  {
    hide Good, Later;
    DevicesOnly(t, t.devices);
    assert t == t.(devices := t.devices);
    match tx {
      case PushTx(owner, request) => PushKeeps(t, config, owner, request);
      case SnapshotTx(payload) => CreateSnapshotKeeps(t, payload);
      case _ =>
        var after := Execute(t, config, tx);
        assert after == t.(devices := after.devices);
        DevicesOnly(t, after.devices);
    }
  }

  lemma EmptyIsGood()
    ensures Good(EMPTY_TABLES)
  {
    forall noteId: Id
      ensures Folded(EMPTY_TABLES.log, noteId) == Expected(EMPTY_TABLES, noteId, NIL, false)
    {
    }
  }

  /** In every reachable database the history is the state, versions chain, and every job and snapshot is sound. */
  lemma {:induction false} EveryRunIsGood(config: Config, txs: seq<Transaction>)
    ensures Good(RunAll(config, txs))
  {
    if txs == [] {
      EmptyIsGood();
    } else {
      EveryRunIsGood(config, txs[..|txs| - 1]);
      ExecuteKeeps(RunAll(config, txs[..|txs| - 1]), config, txs[|txs| - 1]);
    }
  }

  lemma GoodVersionsPositive(t: Tables)
    requires Good(t)
    ensures PositiveVersions(t)
  {
    StoredVersionsPositive(t);
  }

  /** Whatever follows a run leaves its rows, its owners, its tombstones and its history in place. */
  lemma {:induction false} NothingIsUndone(config: Config, txs: seq<Transaction>, more: seq<Transaction>)
    ensures Later(RunAll(config, txs), RunAll(config, txs + more))
  {
    hide Later, Good, Execute, PositiveVersions;
    EveryRunIsGood(config, txs);
    if more == [] {
      assert txs + more == txs;
      SequencesConsumed(RunAll(config, txs), RunAll(config, txs).nextSequence);
      var t := RunAll(config, txs);
      assert t.(nextSequence := t.nextSequence) == t;
    } else {
      var front, last := more[..|more| - 1], more[|more| - 1];
      NothingIsUndone(config, txs, front);
      assert (txs + more)[..|txs + more| - 1] == txs + front;
      EveryRunIsGood(config, txs + front);
      ExecuteKeeps(RunAll(config, txs + front), config, last);
      GoodVersionsPositive(RunAll(config, txs + front));
      LaterTransitive(RunAll(config, txs), RunAll(config, txs + front), RunAll(config, txs + more));
    }
  }

  /** Once deleted, a note or block stays deleted through every later batch, flush, retry and snapshot. */
  lemma TombstonesArePermanent(config: Config, txs: seq<Transaction>, more: seq<Transaction>)
    ensures var t, after := RunAll(config, txs), RunAll(config, txs + more);
            && (forall n <- t.notes :: t.notes[n].deleted ==> n in after.notes && after.notes[n].deleted)
            && (forall b <- t.blocks :: t.blocks[b].deleted ==> b in after.blocks && after.blocks[b].deleted)
  {
    NothingIsUndone(config, txs, more);
  }

  /** A note's row and blocks are the fold of its entries; its versions run from 1 to the current one without a hole. */
  lemma HistoryIsTheNote(config: Config, txs: seq<Transaction>, noteId: Id)
    ensures var t := RunAll(config, txs); var h := History(t.log, noteId);
            && Replay(Absent, h) == DocumentOf(t, noteId)
            && (noteId in t.notes ==>
                  && t.notes[noteId].version >= 1
                  && (forall c <- h :: c.owner == t.notes[noteId].owner && c.base == c.resulting - 1)
                  && (forall i, j | 0 <= i < j < |h| ::
                       h[i].sequence < h[j].sequence && h[i].resulting <= h[j].resulting)
                  && (forall v | 1 <= v <= t.notes[noteId].version :: ReachesVersion(h, v)))
  {
    var t := RunAll(config, txs);
    EveryRunIsGood(config, txs);
    assert Folded(t.log, noteId) == Expected(t, noteId, NIL, false);
    if noteId in t.notes {
      StoredVersionsPositive(t);
      EntriesBelowVersion(t.log, noteId);
      VersionsNeverDecrease(t.log, noteId);
      SelectIncreasing(t.log, OfNote(noteId));
      OwnersAgree(t.log, noteId);
      forall v | 1 <= v <= t.notes[noteId].version
        ensures ReachesVersion(History(t.log, noteId), v)
      {
        VersionsHaveNoHoles(t.log, noteId, v);
      }
    }
  }

  lemma {:induction false} OwnersAgree(log: seq<Change>, noteId: Id)
    requires Chain(log) && noteId != NIL
    ensures Folded(log, noteId).Present? ==>
        forall c <- History(log, noteId) :: c.owner == Folded(log, noteId).note.owner
  {
    hide ApplyChange, Folded, History, Chain;
    EmptyFold(noteId);
    if log != [] {
      FoldStep(log, noteId);
      OwnersAgree(log[..|log| - 1], noteId);
      EntriesBelowVersion(log[..|log| - 1], noteId);
    }
  }
}
