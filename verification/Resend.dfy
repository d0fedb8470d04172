/**
 Operations a device sent without having the reply. For every note either the server holds none of them, or it holds the
 whole batch on top of the device's copy; the same request can then be sent again, however often.
 */
module Resend {
  import opened Wrappers
  import opened SyncModel
  import opened SyncStore
  import opened DirectExecution
  import opened ChangeLog
  import opened Ordering
  import opened Ledger
  import opened Transactions
  import opened Runs
  import opened Requests
  import opened Retry
  import opened PullFeed
  import opened Replica
  import opened ClientState

  // ---- ids written by a request ----

  ghost predicate InBatches(batches: seq<seq<ClientOperation>>, id: Id) {
    exists i :: 0 <= i < |batches| && OperationIn(batches[i], id)
  }

  /** Everything a request adds to the log carries its device and one of its operation ids. */
  lemma {:induction false} PushRecords(t: Tables, limits: SnapshotThresholds, who: Caller,
    batches: seq<seq<ClientOperation>>)
    requires WellFormed(batches) && PushAll(t, limits, who, batches).Pushing?
    ensures var after := PushAll(t, limits, who, batches).tables;
            && |t.log| <= |after.log| && after.log[..|t.log|] == t.log
            && (forall i | |t.log| <= i < |after.log| ::
                 after.log[i].device == who.device && InBatches(batches, after.log[i].operationId))
  {
    if batches != [] {
      var k := |batches| - 1;
      WellFormedPrefix(batches, k);
      PushAllLast(t, limits, who, batches);
      PushRecords(t, limits, who, batches[..k]);
      var mid := PushAll(t, limits, who, batches[..k]).tables;
      BatchLog(mid, limits, who, batches[k]);
      RecordsJoin(t, mid, PushAll(t, limits, who, batches).tables, who, batches);
    }
    hide Records, WellFormed, ApplyBatch;
  }

  lemma RecordsJoin(t: Tables, mid: Tables, after: Tables, who: Caller, batches: seq<seq<ClientOperation>>)
    requires batches != []
    requires |t.log| <= |mid.log| && mid.log[..|t.log|] == t.log
    requires forall i | |t.log| <= i < |mid.log| ::
        mid.log[i].device == who.device && InBatches(batches[..|batches| - 1], mid.log[i].operationId)
    requires Records(mid, who, batches[|batches| - 1], after) || after.log == mid.log
    ensures |t.log| <= |after.log| && after.log[..|t.log|] == t.log
    ensures forall i | |t.log| <= i < |after.log| ::
        after.log[i].device == who.device && InBatches(batches, after.log[i].operationId)
  {
    assert after.log[..|mid.log|] == mid.log;
    assert after.log[..|t.log|] == after.log[..|mid.log|][..|t.log|];
    forall i | |t.log| <= i < |after.log|
      ensures after.log[i].device == who.device && InBatches(batches, after.log[i].operationId)
    {
      if i < |mid.log| {
        assert after.log[i] == after.log[..|mid.log|][i] == mid.log[i];
        var j :| 0 <= j < |batches| - 1 && OperationIn(batches[..|batches| - 1][j], mid.log[i].operationId);
        assert OperationIn(batches[j], mid.log[i].operationId);
      } else {
        assert OperationIn(batches[|batches| - 1], after.log[i].operationId);
      }
    }
  }

  // ---- ids that differ, sorted and grouped, still differ ----

  predicate DistinctIds(operations: seq<ClientOperation>) {
    forall i, j | 0 <= i < j < |operations| :: operations[i].operationId != operations[j].operationId
  }

  lemma {:induction false} DistinctOnce(ops: seq<ClientOperation>, op: ClientOperation)
    requires DistinctIds(ops)
    ensures multiset(ops)[op] <= 1
  {
    if ops != [] {
      var front, last := ops[..|ops| - 1], ops[|ops| - 1];
      assert ops == front + [last];
      DistinctOnce(front, op);
      if op == last {
        assert op !in front;
      }
    }
  }

  lemma TwiceCounts(ops: seq<ClientOperation>, i: nat, j: nat)
    requires i < j < |ops| && ops[i] == ops[j]
    ensures multiset(ops)[ops[i]] >= 2
  {
    assert ops == ops[..j] + ops[j..];
    assert ops[..j][i] == ops[i] && ops[j..][0] == ops[j];
    assert ops[i] in multiset(ops[..j]) && ops[i] in multiset(ops[j..]);
  }

  lemma DistinctPermuted(ops: seq<ClientOperation>, shuffled: seq<ClientOperation>)
    requires multiset(shuffled) == multiset(ops)
    requires DistinctIds(ops)
    ensures DistinctIds(shuffled)
  {
    forall i, j | 0 <= i < j < |shuffled|
      ensures shuffled[i].operationId != shuffled[j].operationId
    {
      assert shuffled[i] in multiset(ops) && shuffled[j] in multiset(ops);
      DistinctOnce(ops, shuffled[i]);
      if shuffled[i] == shuffled[j] {
        TwiceCounts(shuffled, i, j);
      }
    }
  }

  /** A batch is a contiguous part of the sorted request. */
  lemma {:induction false} FlattenDistinct(batches: seq<seq<ClientOperation>>, k: nat)
    requires k < |batches|
    requires DistinctIds(Flatten(batches))
    ensures DistinctIds(batches[k])
  {
    var rest := Flatten(batches[1..]);
    assert Flatten(batches) == batches[0] + rest;
    if k == 0 {
      assert forall i | 0 <= i < |batches[0]| :: Flatten(batches)[i] == batches[0][i];
    } else {
      assert forall i | 0 <= i < |rest| :: Flatten(batches)[|batches[0]| + i] == rest[i];
      FlattenDistinct(batches[1..], k - 1);
    }
  }

  lemma DistinctNameOneNote(operations: seq<ClientOperation>)
    requires DistinctIds(operations)
    ensures IdsNameOneNote(operations)
  {
    forall x: ClientOperation, y: ClientOperation | x in operations && y in operations && x.operationId == y.operationId
      ensures x == y
    {
      var i :| 0 <= i < |operations| && operations[i] == x;
      var j :| 0 <= j < |operations| && operations[j] == y;
      assert i == j;
    }
  }

  /** Among the batches of a request, ops is the one for the note, and shares no id with another. */
  ghost predicate Sends(batches: seq<seq<ClientOperation>>, ops: seq<ClientOperation>, n: Id) {
    forall i | 0 <= i < |batches| && batches[i] != [] ::
      if batches[i][0].noteId == n then batches[i] == ops else NoSharedIds(ops, batches[i])
  }

  lemma {:induction false} BatchForIs(batches: seq<seq<ClientOperation>>, i: nat)
    requires WellFormed(batches) && i < |batches|
    ensures BatchFor(batches, batches[i][0].noteId) == batches[i]
  {
    var k := |batches| - 1;
    WellFormedPrefix(batches, k);
    if i < k {
      assert batches[i][0].noteId < batches[k][0].noteId;
      BatchForIs(batches[..k], i);
    }
  }

  lemma InBatchesOfRequest(operations: seq<ClientOperation>, id: Id)
    requires InBatches(Batches(SortedOperations(operations)), id)
    ensures OperationIn(operations, id)
  {
    var batches: seq<seq<ClientOperation>> := Batches(SortedOperations(operations));
    RequestMembers(Request(0, "", operations));
    assert batches == RequestBatches(Request(0, "", operations));
    var i :| 0 <= i < |batches| && OperationIn(batches[i], id);
    var op: ClientOperation :| op in batches[i] && op.operationId == id;
    assert op in operations;
  }

  lemma InItsBatch(operations: seq<ClientOperation>, op: ClientOperation)
    requires op in operations
    ensures op in BatchOf(operations, op.noteId)
  {
    var batches: seq<seq<ClientOperation>> := Batches(SortedOperations(operations));
    RequestBatchesWellFormed(Request(0, "", operations));
    SortSorts(operations);
    assert op in multiset(SortedOperations(operations));
    FlattenMembers(batches, op);
    var i: nat :| i < |batches| && op in batches[i];
    BatchForIs(batches, i);
    assert OneNote(batches[i]);
  }

  lemma DistinctBatches(operations: seq<ClientOperation>)
    requires DistinctIds(operations)
    ensures var batches := Batches(SortedOperations(operations));
            && WellFormed(batches) && IdsPerNote(batches)
            && forall k | 0 <= k < |batches| :: DistinctIds(batches[k]) && (forall op <- batches[k] :: op in operations)
  {
    var batches: seq<seq<ClientOperation>> := Batches(SortedOperations(operations));
    RequestBatchesWellFormed(Request(0, "", operations));
    RequestMembers(Request(0, "", operations));
    DistinctNameOneNote(operations);
    RequestIds(Request(0, "", operations));
    SortSorts(operations);
    DistinctPermuted(operations, SortedOperations(operations));
    hide SortedOperations, Batches, DistinctIds, WellFormed, IdsPerNote, Flatten;
    forall k: nat | k < |batches|
      ensures DistinctIds(batches[k])
    {
      FlattenDistinct(batches, k);
    }
  }

  lemma RequestSends(operations: seq<ClientOperation>, n: Id)
    requires DistinctIds(operations)
    ensures var batches, ops := Batches(SortedOperations(operations)), BatchOf(operations, n);
            && WellFormed(batches) && Sends(batches, ops, n)
            && DistinctIds(ops) && (forall op <- ops :: op in operations && op.noteId == n)
  {
    var batches: seq<seq<ClientOperation>>, ops := Batches(SortedOperations(operations)), BatchOf(operations, n);
    DistinctBatches(operations);
    UnnamedHasNoBatch(batches, n);
    hide SortedOperations, Batches, NoSharedIds, BatchFor, DistinctIds;
    if Names(batches, n) {
      var k: nat :| k < |batches| && batches[k] != [] && batches[k][0].noteId == n;
      BatchForIs(batches, k);
      OnlyBatch(batches, k);
    } else {
      NothingShared(batches);
    }
  }

  lemma OnlyBatch(batches: seq<seq<ClientOperation>>, k: nat)
    requires WellFormed(batches) && IdsPerNote(batches) && k < |batches|
    ensures Sends(batches, batches[k], batches[k][0].noteId) && forall op <- batches[k] ::
        op.noteId == batches[k][0].noteId
  {
    hide NoSharedIds;
    assert OneNote(batches[k]);
    forall i: nat | i < |batches| && i != k
      ensures batches[i][0].noteId != batches[k][0].noteId
    {
      if i < k {
        assert batches[i][0].noteId < batches[k][0].noteId;
      } else {
        assert batches[k][0].noteId < batches[i][0].noteId;
      }
    }
  }

  lemma NothingShared(batches: seq<seq<ClientOperation>>)
    ensures forall i | 0 <= i < |batches| :: NoSharedIds([], batches[i])
    ensures DistinctIds([])
  {
  }

  // ---- ids in flight ----

  /** The server has processed the whole batch or nothing of it. */
  ghost predicate AllOrNone(t: Tables, device: string, ops: seq<ClientOperation>) {
    Unsent(t, device, ops) || Processed(t, device, ops)
  }

  /** A note answered by anything but an acceptance has left none of its operations behind. */
  ghost predicate IdsAfter(p: PushProgress, device: string, ops: seq<ClientOperation>, n: Id, answered: bool)
    requires p.Pushing?
  {
    && AllOrNone(p.tables, device, ops)
    && (answered && AnswerFor(p.accepted, p.rejected, n) != AcceptedNote ==> Unsent(p.tables, device, ops))
  }

  ghost predicate SameProcessed(t: Tables, after: Tables, device: string, ops: seq<ClientOperation>) {
    forall op <- ops :: FindProcessed(after.log, device, op.operationId).Some? <==>
      FindProcessed(t.log, device, op.operationId).Some?
  }

  lemma SameIds(t: Tables, after: Tables, device: string, ops: seq<ClientOperation>)
    requires SameProcessed(t, after, device, ops)
    ensures Unsent(after, device, ops) <==> Unsent(t, device, ops)
    ensures Processed(after, device, ops) <==> Processed(t, device, ops)
  {
    hide FindProcessed;
  }

  lemma OtherBatchLeavesIds(t: Tables, limits: SnapshotThresholds, who: Caller, batch: seq<ClientOperation>,
    ops: seq<ClientOperation>, n: Id)
    requires Good(t) && OneNote(batch) && batch[0].noteId != n && NoSharedIds(ops, batch) && forall op <- ops ::
        op.noteId == n
    ensures SameProcessed(t, ApplyBatch(t, limits, who, batch).tables, who.device, ops)
  {
    var after := ApplyBatch(t, limits, who, batch).tables;
    hide ApplyBatch, Good, FindProcessed, Undisturbed;
    forall op | op in ops
      ensures FindProcessed(after.log, who.device, op.operationId).Some? <==>
          FindProcessed(t.log, who.device, op.operationId).Some?
    {
      BatchUndisturbs(t, limits, who, batch, ops, true);
      UndisturbedProcessed(t, after, who.device, op, ops);
    }
  }

  lemma OwnBatchIds(t: Tables, limits: SnapshotThresholds, who: Caller, batch: seq<ClientOperation>)
    requires Good(t) && OneNote(batch) && AllOrNone(t, who.device, batch)
    ensures var outcome := ApplyBatch(t, limits, who, batch);
            && AllOrNone(outcome.tables, who.device, batch)
            && (!outcome.BatchAccepted? ==> Unsent(outcome.tables, who.device, batch))
  {
    var outcome := ApplyBatch(t, limits, who, batch);
    BatchLog(t, limits, who, batch);
    if Processed(t, who.device, batch) {
      AcceptedReplays(t, who, batch);
    } else if !outcome.BatchAccepted? {
      SameIds(t, outcome.tables, who.device, batch);
    }
    hide FindProcessed, Good, ApplyAll;
  }

  lemma IdsNext(before: PushProgress, limits: SnapshotThresholds, who: Caller, batch: seq<ClientOperation>,
    ops: seq<ClientOperation>, n: Id, answered: bool)
    requires before.Pushing? && Good(before.tables) && OneNote(batch) && IdsAfter(before, who.device, ops, n, answered)
    requires forall op <- ops :: op.noteId == n
    requires if batch[0].noteId == n then batch == ops && AnswerFor(before.accepted, before.rejected, n) == NoAnswer
        else NoSharedIds(ops, batch)
    requires PushNext(before, limits, who, batch).Pushing?
    ensures IdsAfter(PushNext(before, limits, who, batch), who.device, ops, n, answered || batch[0].noteId == n)
  {
    AnswerNext(before, limits, who, batch, n);
    var outcome := ApplyBatch(before.tables, limits, who, batch);
    assert PushNext(before, limits, who, batch).tables == outcome.tables;
    hide ApplyBatch, Good, AllOrNone, Unsent, AnswerFor, NoSharedIds;
    if batch[0].noteId == n {
      OwnBatchIds(before.tables, limits, who, batch);
    } else {
      OtherBatchLeavesIds(before.tables, limits, who, batch, ops, n);
      SameIds(before.tables, outcome.tables, who.device, ops);
      AllOrNoneStays(before.tables, outcome.tables, who.device, ops);
    }
  }

  lemma AllOrNoneStays(t: Tables, after: Tables, device: string, ops: seq<ClientOperation>)
    requires SameProcessed(t, after, device, ops) && AllOrNone(t, device, ops)
    ensures AllOrNone(after, device, ops)
  {
    SameIds(t, after, device, ops);
  }

  lemma NobodyNamed(n: Id)
    ensures !Names([], n)
  {
  }

  /** A request up to its last batch. */
  lemma LastBatch(t: Tables, limits: SnapshotThresholds, who: Caller, batches: seq<seq<ClientOperation>>)
    requires Good(t) && WellFormed(batches) && batches != [] && PushAll(t, limits, who, batches).Pushing?
    ensures var k := |batches| - 1;
            && WellFormed(batches[..k]) && OneNote(batches[k]) && PushAll(t, limits, who, batches[..k]).Pushing?
            && Good(PushAll(t, limits, who, batches[..k]).tables)
            && PushAll(t, limits, who, batches)
                 == PushNext(PushAll(t, limits, who, batches[..k]), limits, who, batches[k])
  {
    hide ApplyBatch, Good, Later, PushNext;
    PushAllLast(t, limits, who, batches);
    WellFormedPrefix(batches, |batches| - 1);
    PushAllKeeps(t, limits, who, batches[..|batches| - 1]);
  }

  /** A request, sent for the first time or again, is processed batch by batch, whole or not at all. */
  lemma {:induction false} PushKeepsIds(t: Tables, limits: SnapshotThresholds, who: Caller,
    batches: seq<seq<ClientOperation>>, ops: seq<ClientOperation>, n: Id)
    requires Good(t) && WellFormed(batches) && Sends(batches, ops, n) && AllOrNone(t, who.device, ops)
    requires forall op <- ops :: op.noteId == n
    requires PushAll(t, limits, who, batches).Pushing?
    ensures IdsAfter(PushAll(t, limits, who, batches), who.device, ops, n, Names(batches, n))
  {
    hide Good, OneNote, AllOrNone, PushNext, Names, NoSharedIds, AnswerFor, ApplyBatch;
    if batches == [] {
      NobodyNamed(n);
      assert PushAll(t, limits, who, batches) == Pushing(t, [], [], 0);
      return;
    }
    hide PushAll, IdsAfter;
    var k := |batches| - 1;
    var front, batch := batches[..k], batches[k];
    LastBatch(t, limits, who, batches);
    NamesLast(batches, n);
    if !Names(front, n) {
      UnnamedUnanswered(t, limits, who, front, n);
    }
    PushKeepsIds(t, limits, who, front, ops, n);
    IdsNext(PushAll(t, limits, who, front), limits, who, batch, ops, n, Names(front, n));
  }

  /** Other devices write none of the batch's ids. */
  lemma OthersLeaveIds(t: Tables, after: Tables, device: string, ops: seq<ClientOperation>)
    requires |t.log| <= |after.log| && after.log[..|t.log|] == t.log
    requires forall i | |t.log| <= i < |after.log| :: after.log[i].device != device
    ensures SameProcessed(t, after, device, ops)
  {
    forall op | op in ops
      ensures FindProcessed(after.log, device, op.operationId).Some? <==>
          FindProcessed(t.log, device, op.operationId).Some?
    {
      if FindProcessed(t.log, device, op.operationId).Some? {
        ProcessedStays(t.log, after.log, device, op.operationId);
      } else {
        forall i | 0 <= i < |after.log|
          ensures after.log[i].device != device || after.log[i].operationId != op.operationId
        {
          if i < |t.log| {
            assert after.log[i] == after.log[..|t.log|][i] == t.log[i];
            assert t.log[i] in t.log;
          }
        }
      }
    }
  }

  // ---- one note in flight ----

  ghost predicate InFlight(t: Tables, who: Caller, doc: Document, reach: int, ops: seq<ClientOperation>, n: Id) {
    || (Unsent(t, who.device, ops) && NoteSynced(t, who, doc, reach, true, n))
    || Landed(t, who, doc, reach, ops, n)
  }

  lemma SameNote(t: Tables, after: Tables, who: Caller, doc: Document, reach: int, drained: bool, n: Id)
    requires NoteSynced(t, who, doc, reach, drained, n)
    requires History(after.log, n) == History(t.log, n)
    requires n in after.notes <==> n in t.notes
    requires n in t.notes ==> after.notes[n].owner == t.notes[n].owner
    ensures NoteSynced(after, who, doc, reach, drained, n)
  {
  }

  lemma RejectionCarriesNote(t: Tables, limits: SnapshotThresholds, who: Caller, batch: seq<ClientOperation>)
    requires batch != [] && batch[0].noteId != NIL && ApplyBatch(t, limits, who, batch).BatchRejected?
    ensures var outcome := ApplyBatch(t, limits, who, batch);
            outcome.rejected.document == LoadDocument(outcome.tables, batch[0].noteId, who.owner)
  {
    hide ApplyAll, LoadDocument;
  }

  lemma OthersUntouched(t: Tables, limits: SnapshotThresholds, who: Caller, batch: seq<ClientOperation>, n: Id)
    requires Good(t) && OneNote(batch) && batch[0].noteId != n
    ensures var after := ApplyBatch(t, limits, who, batch).tables;
            && History(after.log, n) == History(t.log, n)
            && (n in after.notes <==> n in t.notes)
            && (n in t.notes ==> after.notes[n].owner == t.notes[n].owner)
  {
    BatchLeavesOthers(t, limits, who, batch, n);
    var after := ApplyBatch(t, limits, who, batch).tables;
    assert DocumentOf(after, n) == DocumentOf(t, n);
    hide ApplyBatch, Good, History;
  }

  lemma SameInFlight(t: Tables, after: Tables, who: Caller, doc: Document, reach: int, ops: seq<ClientOperation>, n: Id)
    requires InFlight(t, who, doc, reach, ops, n)
    requires History(after.log, n) == History(t.log, n)
    requires n in after.notes <==> n in t.notes
    requires n in t.notes ==> after.notes[n].owner == t.notes[n].owner
    requires SameProcessed(t, after, who.device, ops)
    ensures InFlight(after, who, doc, reach, ops, n)
  {
    hide FindProcessed, History, SeenPrefix, BatchEdge, OwnFollow;
  }

  /** Other devices and workers leave a batch in flight as it is. */
  lemma OthersKeepInFlight(t: Tables, after: Tables, who: Caller, doc: Document, reach: int, ops: seq<ClientOperation>,
    n: Id)
    requires Good(t) && Good(after) && Later(t, after) && n != NIL && reach < t.nextSequence
    requires forall i | |t.log| <= i < |after.log| :: after.log[i].device != who.device
    requires InFlight(t, who, doc, reach, ops, n)
    ensures InFlight(after, who, doc, reach, ops, n)
  {
    if Landed(t, who, doc, reach, ops, n) {
      OthersKeepLanded(t, after, who, doc, reach, ops, n);
    } else {
      OthersKeep(t, after, who, doc, reach, true, n);
      OthersLeaveIds(t, after, who.device, ops);
      SameIds(t, after, who.device, ops);
    }
    hide Good, Later, Landed, NoteSynced, Unsent;
  }

  // ---- one note through a request ----

  /** What the device makes of one note, if the reply is lost and, once the note is answered, if it arrives. */
  ghost predicate NoteAfter(p: PushProgress, who: Caller, doc: Document, floor: nat, cursor: int,
    ops: seq<ClientOperation>, n: Id, answered: bool)
    requires p.Pushing?
  {
    var answer := AnswerFor(p.accepted, p.rejected, n);
    && InFlight(p.tables, who, doc, Max(cursor, floor), ops, n)
    && (answered ==> NoteSynced(p.tables, who, PushedDoc(doc, who, ops, answer),
         Max(cursor, PushedFloor(floor, answer)), true, n))
  }

  lemma LandedReplays(t: Tables, limits: SnapshotThresholds, who: Caller, batch: seq<ClientOperation>, doc: Document,
    reach: int)
    requires OneNote(batch) && Landed(t, who, doc, reach, batch, batch[0].noteId)
    ensures var outcome := ApplyBatch(t, limits, who, batch); outcome.BatchAccepted? && outcome.tables == t
  {
    AcceptedReplays(t, who, batch);
    hide FindProcessed, Landed;
  }

  lemma SequencesOnly(t: Tables, next: nat, who: Caller, doc: Document, reach: int, ops: seq<ClientOperation>, n: Id)
    requires InFlight(t, who, doc, reach, ops, n)
    ensures InFlight(t.(nextSequence := next), who, doc, reach, ops, n)
  {
    SameInFlight(t, t.(nextSequence := next), who, doc, reach, ops, n);
    hide InFlight;
  }

  /** The note's own batch, the first time it arrives or again. */
  lemma OwnBatchOnNote(t: Tables, limits: SnapshotThresholds, who: Caller, batch: seq<ClientOperation>, doc: Document,
    floor: nat, cursor: int)
    requires Good(t) && OneNote(batch) && batch[0].noteId != NIL
    requires batch[0].baseVersion == LocalVersion(doc)
    requires InFlight(t, who, doc, Max(cursor, floor), batch, batch[0].noteId)
    requires !ApplyBatch(t, limits, who, batch).BatchFailed?
    ensures var n, outcome := batch[0].noteId, ApplyBatch(t, limits, who, batch); var answer := AnswerOf(outcome);
            && InFlight(outcome.tables, who, doc, Max(cursor, floor), batch, n)
            && NoteSynced(outcome.tables, who, PushedDoc(doc, who, batch, answer),
                 Max(cursor, PushedFloor(floor, answer)), true, n)
  {
    hide ApplyBatch, NoteSynced, Good, Unsent, Landed, LoadDocument;
    var n, outcome, reach := batch[0].noteId, ApplyBatch(t, limits, who, batch), Max(cursor, floor);
    if Landed(t, who, doc, reach, batch, n) {
      LandedReplays(t, limits, who, batch, doc, reach);
      LandedSynced(t, who, doc, reach, batch, n);
    } else if outcome.BatchAccepted? {
      AcceptedPushLands(t, limits, who, doc, reach, batch);
      LandedSynced(outcome.tables, who, doc, reach, batch, n);
    } else {
      RejectionRollsBack(t, limits, who, batch);
      SequencesConsumed(t, outcome.tables.nextSequence);
      SequencesOnly(t, outcome.tables.nextSequence, who, doc, reach, batch, n);
      RejectionCarriesNote(t, limits, who, batch);
      if LoadDocument(outcome.tables, n, who.owner).Some? {
        AdoptKeepsNote(outcome.tables, who, cursor, n);
      } else {
        SameNote(t, outcome.tables, who, doc, reach, true, n);
      }
    }
  }

  /** Another note's batch. */
  lemma OtherBatchKeeps(t: Tables, limits: SnapshotThresholds, who: Caller, batch: seq<ClientOperation>, doc: Document,
    reach: int, ops: seq<ClientOperation>, n: Id)
    requires Good(t) && OneNote(batch) && batch[0].noteId != n && NoSharedIds(ops, batch) && forall op <- ops ::
        op.noteId == n
    requires InFlight(t, who, doc, reach, ops, n)
    ensures InFlight(ApplyBatch(t, limits, who, batch).tables, who, doc, reach, ops, n)
  {
    var after := ApplyBatch(t, limits, who, batch).tables;
    OthersUntouched(t, limits, who, batch, n);
    OtherBatchLeavesIds(t, limits, who, batch, ops, n);
    hide ApplyBatch, Good, InFlight, SameProcessed;
    SameInFlight(t, after, who, doc, reach, ops, n);
  }

  lemma NoteNext(before: PushProgress, limits: SnapshotThresholds, who: Caller, batch: seq<ClientOperation>,
    doc: Document, floor: nat, cursor: int,
    ops: seq<ClientOperation>, n: Id, answered: bool)
    requires before.Pushing? && Good(before.tables) && OneNote(batch) && n != NIL
    requires forall op <- ops :: op.noteId == n && op.baseVersion == LocalVersion(doc)
    requires NoteAfter(before, who, doc, floor, cursor, ops, n, answered)
    requires if batch[0].noteId == n then batch == ops && AnswerFor(before.accepted, before.rejected, n) == NoAnswer
        else NoSharedIds(ops, batch)
    requires PushNext(before, limits, who, batch).Pushing?
    ensures NoteAfter(PushNext(before, limits, who, batch), who, doc, floor, cursor, ops, n, answered ||
        batch[0].noteId == n)
  {
    AnswerNext(before, limits, who, batch, n);
    assert PushNext(before, limits, who, batch).tables == ApplyBatch(before.tables, limits, who, batch).tables;
    hide ApplyBatch, Good, InFlight, NoteSynced, AnswerFor, NoSharedIds;
    if batch[0].noteId == n {
      assert batch[0] in ops;
      OwnBatchOnNote(before.tables, limits, who, batch, doc, floor, cursor);
    } else {
      OtherBatchKeeps(before.tables, limits, who, batch, doc, Max(cursor, floor), ops, n);
      OthersUntouched(before.tables, limits, who, batch, n);
      var answer := AnswerFor(before.accepted, before.rejected, n);
      if answered {
        SameNote(before.tables, ApplyBatch(before.tables, limits, who, batch).tables, who,
          PushedDoc(doc, who, ops, answer), Max(cursor, PushedFloor(floor, answer)), true, n);
      }
    }
  }

  lemma NotAnswered(t: Tables, who: Caller, doc: Document, floor: nat, cursor: int, ops: seq<ClientOperation>, n: Id)
    requires InFlight(t, who, doc, Max(cursor, floor), ops, n)
    ensures NoteAfter(Pushing(t, [], [], 0), who, doc, floor, cursor, ops, n, false)
  {
    hide InFlight;
  }

  /** A request, sent for the first time or again, seen from one note. */
  lemma {:induction false} PushKeepsNote(t: Tables, limits: SnapshotThresholds, who: Caller, doc: Document, floor: nat,
    cursor: int,
    batches: seq<seq<ClientOperation>>, ops: seq<ClientOperation>, n: Id)
    requires Good(t) && WellFormed(batches) && n != NIL && Sends(batches, ops, n)
    requires forall op <- ops :: op.noteId == n && op.baseVersion == LocalVersion(doc)
    requires InFlight(t, who, doc, Max(cursor, floor), ops, n)
    requires PushAll(t, limits, who, batches).Pushing?
    ensures NoteAfter(PushAll(t, limits, who, batches), who, doc, floor, cursor, ops, n, Names(batches, n))
  {
    hide NoteAfter, Good, OneNote, InFlight, PushNext, Names, NoSharedIds, AnswerFor, ApplyBatch;
    if batches == [] {
      NobodyNamed(n);
      assert PushAll(t, limits, who, batches) == Pushing(t, [], [], 0);
      NotAnswered(t, who, doc, floor, cursor, ops, n);
      return;
    }
    hide PushAll;
    var k := |batches| - 1;
    var front, batch := batches[..k], batches[k];
    LastBatch(t, limits, who, batches);
    NamesLast(batches, n);
    if !Names(front, n) {
      UnnamedUnanswered(t, limits, who, front, n);
    }
    PushKeepsNote(t, limits, who, doc, floor, cursor, front, ops, n);
    NoteNext(PushAll(t, limits, who, front), limits, who, batch, doc, floor, cursor, ops, n, Names(front, n));
  }

  // ---- a pull before the reply ----

  /** Entries only move a document to their own version; applied to nothing they may leave nothing. */
  lemma {:induction false} VersionAfter(doc: Document, changes: seq<Change>)
    requires changes != []
    ensures Replay(doc, changes) == Absent || LocalVersion(Replay(doc, changes)) == changes[|changes| - 1].resulting
    ensures doc.Present? ==> Replay(doc, changes).Present?
  {
    hide Replay;
    var k := |changes| - 1;
    assert changes[..k] + [changes[k]] == changes;
    ReplayAppend(doc, changes[..k], changes[k]);
    if k == 0 {
      NoChanges(doc);
    } else {
      VersionAfter(doc, changes[..k]);
    }
  }

  lemma NoChanges(doc: Document)
    ensures Replay(doc, []) == doc
  {
  }

  /** A copy with the device's own batch on top is one version further, or has still not begun. */
  lemma VersionAfterOwn(doc: Document, who: Caller, ops: seq<ClientOperation>)
    requires ops != []
    ensures var now := LocalVersion(Replay(doc, OwnChanges(who, LocalVersion(doc), ops)));
            now == LocalVersion(doc) + 1 || (now == 0 && LocalVersion(doc) == 0)
  {
    var own := OwnChanges(who, LocalVersion(doc), ops);
    VersionAfter(doc, own);
    assert own[|own| - 1] == OwnChange(who, LocalVersion(doc), ops[|ops| - 1]);
    hide Replay, OwnChanges;
  }

  /** The two prefixes a device has seen at one reach are one. */
  lemma SeenOnce(h: seq<Change>, device: string, reach: int, p: nat, q: nat)
    requires SeenPrefix(h, device, reach, p) && SeenPrefix(h, device, reach, q)
    ensures p == q
  {
    var k := if p < q then p else q;
    assert k < |h| ==> (Seen(h[k], device, reach) <==> k < p);
  }

  lemma QuietPageKeepsLanded(t: Tables, who: Caller, doc: Document, cursor: int, floor: int, limit: nat,
    ops: seq<ClientOperation>, n: Id)
    requires Good(t) && n != NIL && Landed(t, who, doc, Max(cursor, floor), ops, n)
    requires PageFor(PageOf(t.log, who.owner, who.device, cursor, limit).changes, n, floor) == []
    ensures Landed(t, who, doc, Max(PageOf(t.log, who.owner, who.device, cursor, limit).nextCursor, floor), ops, n)
  {
    hide Good, PageOf, PageFor, History, Replay, BatchEdge, SeenPrefix, SameEntries, OwnChanges, Processed;
    var h, next := History(t.log, n), Max(PageOf(t.log, who.owner, who.device, cursor, limit).nextCursor, floor);
    var p: nat :| OwnFollow(h, who, doc, Max(cursor, floor), ops, p);
    QuietStretch(t, who, cursor, floor, limit, n, p + |ops|);
    assert OwnFollow(h, who, doc, next, ops, p);
  }

  /** Nothing of the note in the page: the copy and the batch stay as they are. */
  lemma QuietPageKeeps(t: Tables, who: Caller, doc: Document, cursor: int, floor: int, limit: nat,
    ops: seq<ClientOperation>, n: Id)
    requires Good(t) && n != NIL && InFlight(t, who, doc, Max(cursor, floor), ops, n)
    requires PageFor(PageOf(t.log, who.owner, who.device, cursor, limit).changes, n, floor) == []
    ensures InFlight(t, who, doc, Max(PageOf(t.log, who.owner, who.device, cursor, limit).nextCursor, floor), ops, n)
  {
    hide Good, PageOf, PageFor, History, Unsent, Replay, BatchEdge, Landed;
    if Landed(t, who, doc, Max(cursor, floor), ops, n) {
      QuietPageKeepsLanded(t, who, doc, cursor, floor, limit, ops, n);
    } else if MayOwn(t, who.owner, n) {
      var h := History(t.log, n);
      var p: nat :| SeenPrefix(h, who.device, Max(cursor, floor), p) && doc == Replay(Absent, h[..p]) &&
        BatchEdge(h, p);
      QuietStretch(t, who, cursor, floor, limit, n, p);
    }
  }

  lemma QuietStretch(t: Tables, who: Caller, cursor: int, floor: int, limit: nat, n: Id, p: nat)
    requires Good(t) && n != NIL && MayOwn(t, who.owner, n)
    requires SeenPrefix(History(t.log, n), who.device, Max(cursor, floor), p)
    requires PageFor(PageOf(t.log, who.owner, who.device, cursor, limit).changes, n, floor) == []
    ensures SeenPrefix(History(t.log, n), who.device,
        Max(PageOf(t.log, who.owner, who.device, cursor, limit).nextCursor, floor), p)
  {
    var q := PageContinues(t, who, cursor, floor, limit, n, p);
    var h := History(t.log, n);
    assert q <= |h| && |h[p..q]| == q - p;
    hide Good, PageOf, PageFor, History;
  }

  /** The entries a page brings after the device's own batch are at higher versions, the last of them at the highest. */
  lemma LaterVersions(t: Tables, who: Caller, doc: Document, reach: int, ops: seq<ClientOperation>, n: Id, p: nat,
    r: nat)
    requires Good(t) && n != NIL && ops != [] && OwnFollow(History(t.log, n), who, doc, reach, ops, p)
    requires p + |ops| < r <= |History(t.log, n)|
    ensures LocalVersion(Replay(Absent, History(t.log, n)[..r])) == History(t.log, n)[r - 1].resulting >= 2
  {
    var h, q := History(t.log, n), p + |ops|;
    StoredPrefixVersion(t, n, r);
    VersionsNeverDecrease(t.log, n);
    OwnerOfHistory(t, n);
    EntriesPositive(t, n);
    assert h[q - 1] in h;
    assert h[q].resulting > h[q - 1].resulting;
    assert r - 1 > q ==> h[r - 1].resulting >= h[q].resulting;
    hide Good, History, Replay, SameEntries, OwnChanges;
  }

  lemma EntriesPositive(t: Tables, n: Id)
    requires Good(t) && n != NIL
    ensures forall c <- History(t.log, n) :: c.resulting >= 1
  {
    EntriesBelowVersion(t.log, n);
    hide Folded;
  }

  lemma AnyEdge(t: Tables, who: Caller, doc: Document, reach: int, n: Id)
    requires NoteSynced(t, who, doc, reach, true, n)
    ensures NoteSynced(t, who, doc, reach, false, n)
  {
    hide History, Replay, SeenPrefix, BatchEdge;
  }

  lemma SeenWithin(h: seq<Change>, device: string, reach: int, p: nat)
    requires SeenPrefix(h, device, reach, p)
    ensures p <= |h|
  {
  }

  /**
   Exactly when a pull between a lost reply and the resend is harmless. The batch is in the log, the page is applied,
   the resend is answered: the copy is then what the device has seen of the note if and only if the page held nothing of
   it.
   */
  lemma EarlyPullIsSafeIff(t: Tables, who: Caller, doc: Document, cursor: int, floor: int, limit: nat,
    ops: seq<ClientOperation>, n: Id)
    requires Good(t) && n != NIL && ops != [] && Landed(t, who, doc, Max(cursor, floor), ops, n)
    ensures var page := PageOf(t.log, who.owner, who.device, cursor, limit);
            var pulled := PageFor(page.changes, n, floor);
            var copy := Replay(doc, pulled);
            var resent := Replay(copy, OwnChanges(who, LocalVersion(copy), ops));
            NoteSynced(t, who, resent, Max(page.nextCursor, floor), false, n) <==> pulled == []
  {
    hide Good, PageOf, PageFor, History, Replay, OwnChanges, SameEntries, BatchEdge, SeenPrefix, Processed;
    var page, h := PageOf(t.log, who.owner, who.device, cursor, limit), History(t.log, n);
    var pulled, next := PageFor(page.changes, n, floor), Max(page.nextCursor, floor);
    var copy := Replay(doc, pulled);
    if pulled == [] {
      NoChanges(doc);
      QuietPageKeepsLanded(t, who, doc, cursor, floor, limit, ops, n);
      LandedSynced(t, who, doc, next, ops, n);
      AnyEdge(t, who, Replay(doc, OwnChanges(who, LocalVersion(doc), ops)), next, n);
      return;
    }
    var p: nat :| OwnFollow(h, who, doc, Max(cursor, floor), ops, p);
    var r := PageContinues(t, who, cursor, floor, limit, n, p + |ops|);
    SeenWithin(h, who.device, next, r);
    assert |h[p + |ops|..r]| == r - p - |ops| > 0;
    assert pulled[|pulled| - 1] == h[r - 1];
    LaterVersions(t, who, doc, Max(cursor, floor), ops, n, p, r);
    VersionAfter(doc, pulled);
    VersionAfterOwn(copy, who, ops);
    forall q: nat | SeenPrefix(h, who.device, next, q)
      ensures q == r
    {
      SeenOnce(h, who.device, next, q, r);
    }
  }

  /**
   While the server does not hold the batch any early pull is harmless: what it brings makes the server reject the
   resend.
   */
  lemma EarlyPullOfUnsent(t: Tables, limits: SnapshotThresholds, who: Caller, doc: Document, cursor: int, floor: int,
    limit: nat, ops: seq<ClientOperation>)
    requires Good(t) && OneNote(ops) && ops[0].noteId != NIL && Unsent(t, who.device, ops)
    requires NoteSynced(t, who, doc, Max(cursor, floor), true, ops[0].noteId) && ops[0].baseVersion == LocalVersion(doc)
    requires PageFor(PageOf(t.log, who.owner, who.device, cursor, limit).changes, ops[0].noteId, floor) != []
    ensures !ApplyBatch(t, limits, who, ops).BatchAccepted?
  {
    hide Good, PageOf, PageFor, History, Unsent, NoteSynced, SeenPrefix, Replay, SameEntries, OwnChanges, ApplyBatch;
    if ApplyBatch(t, limits, who, ops).BatchAccepted? {
      var n := ops[0].noteId;
      var tail := OwnBatch(t, limits, who, ops);
      assert ops[0] in ops;
      SeenWhole(t, who, doc, Max(cursor, floor), n);
      var h := History(t.log, n);
      var q := PageContinues(t, who, cursor, floor, limit, n, |h|);
      SeenWithin(h, who.device, Max(PageOf(t.log, who.owner, who.device, cursor, limit).nextCursor, floor), q);
      assert false;
    }
  }
}
