/** What one push request does to each note it names, and that it does nothing to any other. */
module Requests {
  import opened Wrappers
  import opened TextDeltas
  import opened SyncModel
  import opened DirectExecution
  import opened ChangeLog
  import opened Ordering
  import opened Ledger
  import opened Transactions
  import opened Runs

  // ---- what a batch records ----

  ghost predicate OperationIn(ops: seq<ClientOperation>, operationId: Id) {
    exists op <- ops :: op.operationId == operationId
  }

  /** The log of a running batch grew by entries of its own operations, and holds an entry for each of them. */
  ghost predicate Records(t: Tables, who: Caller, ops: seq<ClientOperation>, after: Tables) {
    && |t.log| <= |after.log| && after.log[..|t.log|] == t.log
    && (forall i | |t.log| <= i < |after.log| ::
         after.log[i].device == who.device && OperationIn(ops, after.log[i].operationId))
    && (forall op <- ops :: FindProcessed(after.log, who.device, op.operationId).Some?)
  }

  lemma ProcessedStays(log: seq<Change>, more: seq<Change>, device: string, operationId: Id)
    requires |log| <= |more| && more[..|log|] == log
    requires FindProcessed(log, device, operationId).Some?
    ensures FindProcessed(more, device, operationId).Some?
  {
    var c := FindProcessed(log, device, operationId).value;
    var i :| 0 <= i < |log| && log[i] == c;
    assert more[..|log|][i] == more[i];
    assert c in more;
  }

  ghost predicate Appended(t: Tables, who: Caller, op: ClientOperation, after: Tables) {
    && |after.log| == |t.log| + 1 && after.log[..|t.log|] == t.log
    && after.log[|t.log|].device == who.device && after.log[|t.log|].operationId == op.operationId
  }

  lemma AppendChangeAppends(t: Tables, who: Caller, op: ClientOperation)
    ensures forall u: Tables, base: int, resulting: int | u.log == t.log ::
        Appended(t, who, op, AppendChange(u, who, op, base, resulting))
  {
  }

  lemma AppliedAppends(t: Tables, who: Caller, first: bool, op: ClientOperation, after: Tables)
    requires Apply(t, who, first, op) == Applied(after)
    ensures Appended(t, who, op, after)
  {
    if op.mutation.CreateNote? || op.mutation.CreateBlock? || op.mutation.OnCategory() {
      CreationAppends(t, who, first, op, after);
    } else {
      EditAppends(t, who, first, op, after);
    }
    hide Appended, Apply;
  }

  lemma CreationAppends(t: Tables, who: Caller, first: bool, op: ClientOperation, after: Tables)
    requires Apply(t, who, first, op) == Applied(after)
    requires op.mutation.CreateNote? || op.mutation.CreateBlock? || op.mutation.OnCategory()
    ensures Appended(t, who, op, after)
  {
    hide Appended, AppendChange, NewBlocks, ChangedBlock, NameFree;
    AppendChangeAppends(t, who, op);
  }

  lemma EditAppends(t: Tables, who: Caller, first: bool, op: ClientOperation, after: Tables)
    requires Apply(t, who, first, op) == Applied(after)
    requires !(op.mutation.CreateNote? || op.mutation.CreateBlock? || op.mutation.OnCategory())
    ensures Appended(t, who, op, after)
  {
    hide Appended, AppendChange, NewBlocks, ChangedBlock, NameFree;
    AppendChangeAppends(t, who, op);
  }

  lemma {:induction false} BatchRecords(t: Tables, who: Caller, ops: seq<ClientOperation>)
    ensures ApplyAll(t, who, ops).Running? ==> Records(t, who, ops, ApplyAll(t, who, ops).tables)
  {
    if ops != [] {
      var front, op := ops[..|ops| - 1], ops[|ops| - 1];
      var before := ApplyAll(t, who, front);
      BatchRecords(t, who, front);
      assert ops == front + [op];
      if before.Running? {
        RecordsNext(t, who, front, op, before, |front| == 0);
      }
    }
  }

  lemma RecordsNext(t: Tables, who: Caller, front: seq<ClientOperation>, op: ClientOperation, before: Progress,
    first: bool)
    requires before.Running? && Records(t, who, front, before.tables)
    ensures var p := Advance(before, who, first, op); p.Running? ==> Records(t, who, front + [op], p.tables)
  {
    var step := Apply(before.tables, who, first, op);
    if step.Applied? {
      AppliedAppends(before.tables, who, first, op, step.tables);
      hide Apply, Records;
      RecordsAppend(t, who, front, op, before.tables, step.tables);
    } else if step.Replayed? {
      assert FindProcessed(before.tables.log, who.device, op.operationId).Some?;
      hide Apply, Records;
      RecordsReplay(t, who, front, op, before.tables);
    }
  }

  lemma WiderIn(front: seq<ClientOperation>, op: ClientOperation)
    ensures forall id :: OperationIn(front, id) ==> OperationIn(front + [op], id)
    ensures OperationIn(front + [op], op.operationId)
  {
    forall id | OperationIn(front, id)
      ensures OperationIn(front + [op], id)
    {
      var o :| o in front && o.operationId == id;
      assert o in front + [op];
    }
    assert op in front + [op];
  }

  lemma RecordsReplay(t: Tables, who: Caller, front: seq<ClientOperation>, op: ClientOperation, mid: Tables)
    requires Records(t, who, front, mid) && FindProcessed(mid.log, who.device, op.operationId).Some?
    ensures Records(t, who, front + [op], mid)
  {
    WiderIn(front, op);
  }

  lemma RecordsAppend(t: Tables, who: Caller, front: seq<ClientOperation>, op: ClientOperation, mid: Tables,
    after: Tables)
    requires Records(t, who, front, mid)
    requires Appended(mid, who, op, after)
    ensures Records(t, who, front + [op], after)
  {
    WiderIn(front, op);
    hide FindProcessed;
    forall i | |t.log| <= i < |after.log|
      ensures after.log[i].device == who.device && OperationIn(front + [op], after.log[i].operationId)
    {
      if i < |mid.log| {
        assert after.log[i] == after.log[..|mid.log|][i] == mid.log[i];
      }
    }
    assert after.log[..|t.log|] == after.log[..|mid.log|][..|t.log|];
    forall o | o in front + [op]
      ensures FindProcessed(after.log, who.device, o.operationId).Some?
    {
      if o in front {
        ProcessedStays(mid.log, after.log, who.device, o.operationId);
      } else {
        assert after.log[|mid.log|] in after.log;
      }
    }
  }

  // ---- batches of one request ----

  predicate WellFormed(batches: seq<seq<ClientOperation>>) {
    && (forall i | 0 <= i < |batches| :: batches[i] != [])
    && IncreasingNotes(batches)
  }

  lemma WellFormedPrefix(batches: seq<seq<ClientOperation>>, k: nat)
    requires WellFormed(batches) && k <= |batches|
    ensures WellFormed(batches[..k])
  {
  }

  function CountAccepted(accepted: seq<AcceptedBatch>, noteId: Id): nat {
    if accepted == [] then 0
    else CountAccepted(accepted[..|accepted| - 1], noteId) + if accepted[|accepted| - 1].noteId == noteId then 1 else 0
  }

  function CountRejected(rejected: seq<BatchRejection>, noteId: Id): nat {
    if rejected == [] then 0
    else CountRejected(rejected[..|rejected| - 1], noteId) + if rejected[|rejected| - 1].noteId == noteId then 1 else 0
  }

  ghost predicate Names(batches: seq<seq<ClientOperation>>, noteId: Id) {
    exists i :: 0 <= i < |batches| && batches[i] != [] && batches[i][0].noteId == noteId
  }

  lemma NamesLast(batches: seq<seq<ClientOperation>>, noteId: Id)
    requires WellFormed(batches) && batches != []
    ensures var n := |batches| - 1;
            if batches[n][0].noteId == noteId then Names(batches, noteId) && !Names(batches[..n], noteId)
            else Names(batches, noteId) <==> Names(batches[..n], noteId)
  {
    var n := |batches| - 1;
    if Names(batches[..n], noteId) {
      var i :| 0 <= i < n && batches[..n][i] != [] && batches[..n][i][0].noteId == noteId;
      assert batches[i][0].noteId == noteId;
    }
    if Names(batches, noteId) {
      var i :| 0 <= i < |batches| && batches[i] != [] && batches[i][0].noteId == noteId;
      if i < n {
        assert batches[..n][i] == batches[i];
      }
    }
  }

  lemma VerdictOfNext(before: PushProgress, limits: SnapshotThresholds, who: Caller, batch: seq<ClientOperation>,
    noteId: Id)
    requires before.Pushing? && batch != []
    ensures var after := PushNext(before, limits, who, batch);
            after.Pushing? ==>
              CountAccepted(after.accepted, noteId) + CountRejected(after.rejected, noteId)
              == CountAccepted(before.accepted, noteId) + CountRejected(before.rejected, noteId)
                 + if batch[0].noteId == noteId then 1 else 0
  {
    var outcome := ApplyBatch(before.tables, limits, who, batch);
    RejectionNamesNote(before.tables, limits, who, batch);
    hide ApplyBatch;
    if outcome.BatchAccepted? {
      var item := AcceptedBatch(batch[0].noteId, outcome.noteVersion);
      assert (before.accepted + [item])[..|before.accepted|] == before.accepted;
    } else if outcome.BatchRejected? {
      assert (before.rejected + [outcome.rejected])[..|before.rejected|] == before.rejected;
    }
  }

  lemma {:induction false} VerdictPerBatch(t: Tables, limits: SnapshotThresholds, who: Caller,
    batches: seq<seq<ClientOperation>>, noteId: Id)
    requires WellFormed(batches)
    ensures var p := PushAll(t, limits, who, batches);
            p.Pushing? ==>
              CountAccepted(p.accepted, noteId) + CountRejected(p.rejected, noteId)
              == if Names(batches, noteId) then 1 else 0
  {
    if batches != [] {
      var n := |batches| - 1;
      WellFormedPrefix(batches, n);
      NamesLast(batches, noteId);
      VerdictPerBatch(t, limits, who, batches[..n], noteId);
      var before := PushAll(t, limits, who, batches[..n]);
      if before.Pushing? {
        VerdictOfNext(before, limits, who, batches[n], noteId);
        hide PushNext, Names, CountAccepted, CountRejected;
      }
    }
  }

  lemma RejectionNamesNote(t: Tables, limits: SnapshotThresholds, who: Caller, ops: seq<ClientOperation>)
    requires ops != []
    ensures ApplyBatch(t, limits, who, ops).BatchRejected? ==>
        ApplyBatch(t, limits, who, ops).rejected.noteId == ops[0].noteId
  {
    hide ApplyAll;
  }

  lemma {:induction false} FlattenMembers(batches: seq<seq<ClientOperation>>, op: ClientOperation)
    ensures op in Flatten(batches) <==> exists i :: 0 <= i < |batches| && op in batches[i]
  {
    if batches != [] {
      FlattenMembers(batches[1..], op);
      if op in Flatten(batches[1..]) {
        var i :| 0 <= i < |batches[1..]| && op in batches[1..][i];
        assert op in batches[i + 1];
      }
      if exists i :: 0 <= i < |batches| && op in batches[i] {
        var i :| 0 <= i < |batches| && op in batches[i];
        if i > 0 {
          assert op in batches[1..][i - 1];
        }
      }
    }
  }

  lemma RequestNames(request: Request, noteId: Id)
    ensures Names(RequestBatches(request), noteId) <==> exists op <- request.operations :: op.noteId == noteId
  {
    RequestBatchesWellFormed(request);
    SortSorts(request.operations);
    var batches, sorted := RequestBatches(request), SortedOperations(request.operations);
    if Names(batches, noteId) {
      var i :| 0 <= i < |batches| && batches[i] != [] && batches[i][0].noteId == noteId;
      FlattenMembers(batches, batches[i][0]);
      assert batches[i][0] in multiset(sorted);
    }
    if exists op <- request.operations :: op.noteId == noteId {
      var op :| op in request.operations && op.noteId == noteId;
      assert op in multiset(sorted);
      FlattenMembers(batches, op);
      var i :| 0 <= i < |batches| && op in batches[i];
      assert OneNote(batches[i]);
    }
  }

  /** A completed request answers for every distinct note it names exactly once, and for no other. */
  lemma OneVerdictPerNote(t: Tables, config: Config, owner: Id, request: Request, noteId: Id)
    ensures var result := Push(t, config, owner, request);
            result.Pushed? ==>
              CountAccepted(result.accepted, noteId) + CountRejected(result.rejected, noteId)
              == if exists op <- request.operations :: op.noteId == noteId then 1 else 0
  {
    RequestBatchesWellFormed(request);
    VerdictPerBatch(t, config.limits, Caller(owner, request.deviceId), RequestBatches(request), noteId);
    RequestNames(request, noteId);
  }

  // ---- independence ----

  /** A note no batch names keeps its document and its history. */
  lemma {:induction false} UnnamedByBatches(t: Tables, limits: SnapshotThresholds, who: Caller,
    batches: seq<seq<ClientOperation>>, noteId: Id)
    requires Good(t) && WellFormed(batches) && !Names(batches, noteId)
    ensures var p := PushAll(t, limits, who, batches);
            p.Pushing? ==>
              && Good(p.tables)
              && DocumentOf(p.tables, noteId) == DocumentOf(t, noteId)
              && History(p.tables.log, noteId) == History(t.log, noteId)
  {
    PushAllKeeps(t, limits, who, batches);
    if batches != [] {
      var n := |batches| - 1;
      WellFormedPrefix(batches, n);
      NamesLast(batches, noteId);
      UnnamedByBatches(t, limits, who, batches[..n], noteId);
      var before := PushAll(t, limits, who, batches[..n]);
      if before.Pushing? {
        BatchLeavesOthers(before.tables, limits, who, batches[n], noteId);
      }
    }
  }

  /** Whatever a request answers, a note none of its operations name keeps its document and its history. */
  lemma UnnamedUntouched(t: Tables, config: Config, owner: Id, request: Request, noteId: Id)
    requires Good(t) && forall op <- request.operations :: op.noteId != noteId
    ensures var after := Push(t, config, owner, request).tables;
            DocumentOf(after, noteId) == DocumentOf(t, noteId) && History(after.log, noteId) == History(t.log, noteId)
  {
    var result, batches := Push(t, config, owner, request), RequestBatches(request);
    RequestBatchesWellFormed(request);
    RequestNames(request, noteId);
    UnnamedByBatches(t, config.limits, Caller(owner, request.deviceId), batches, noteId);
    PushKeeps(t, config, owner, request);
    if result.PushError? {
      assert BlocksOfNote(result.tables, noteId) == BlocksOfNote(t, noteId);
    }
    hide PushAll, RequestBatches, Good, Later, Names, History;
  }

  lemma BatchLeavesOthers(t: Tables, limits: SnapshotThresholds, who: Caller, ops: seq<ClientOperation>, noteId: Id)
    requires Good(t) && OneNote(ops) && ops[0].noteId != noteId
    ensures var after := ApplyBatch(t, limits, who, ops).tables;
            DocumentOf(after, noteId) == DocumentOf(t, noteId) && History(after.log, noteId) == History(t.log, noteId)
  {
    BatchSettles(t, limits, who, ops);
    var outcome := ApplyBatch(t, limits, who, ops);
    hide ApplyBatch, Consistent, KeepsRows;
    if outcome.BatchAccepted? {
      OthersHistory(t, who, ops[0].noteId, outcome.tables, noteId);
    } else {
      assert BlocksOfNote(outcome.tables, noteId) == BlocksOfNote(t, noteId);
    }
  }

  lemma OthersHistory(t: Tables, who: Caller, batchNote: Id, after: Tables, noteId: Id)
    requires Extends(t, who, batchNote, after) && noteId != batchNote
    ensures History(after.log, noteId) == History(t.log, noteId)
  {
    var tail := after.log[|t.log|..];
    assert after.log == t.log + tail;
    SelectConcat(t.log, tail, OfNote(noteId));
    forall c | c in tail
      ensures c.noteId != noteId
    {
      var i :| 0 <= i < |tail| && tail[i] == c;
      assert NewEntry(after.log[|t.log| + i], t, who, batchNote);
    }
    hide KeepsRows, DocumentOf, VersionOf;
    SelectNothing(tail, OfNote(noteId));
  }

  // ---- what a rejection reports ----

  /** No version, or the one the caller's note has. */
  predicate VersionHeld(t: Tables, n: Id, owner: Id, version: int) {
    version == 0 || (OwnedNote(t, n, owner).Some? && version == t.notes[n].version)
  }

  lemma RefusedVersion(t: Tables, who: Caller, first: bool, op: ClientOperation)
    requires Apply(t, who, first, op).Refused?
    ensures VersionHeld(t, op.noteId, who.owner, Apply(t, who, first, op).rejection.serverVersion)
  {
    hide NewBlocks, FindProcessed, Splice, NameFree;
  }

  lemma {:induction false} StoppedVersion(t: Tables, who: Caller, ops: seq<ClientOperation>, n: Id)
    requires Consistent(t, n, false) && forall op <- ops :: op.noteId == n
    ensures var p := ApplyAll(t, who, ops);
            p.Stopped? ==> VersionHeld(t, n, who.owner, p.rejection.serverVersion)
  {
    hide Apply, Underway, Consistent, VersionHeld;
    if ops != [] {
      var k := |ops| - 1;
      var before, op := ApplyAll(t, who, ops[..k]), ops[k];
      StoppedVersion(t, who, ops[..k], n);
      BatchUnderway(t, who, ops[..k], n);
      if before.Running? && Apply(before.tables, who, k == 0, op).Refused? {
        RefusedVersion(before.tables, who, k == 0, op);
        SameVersion(t, who, n, before, Apply(before.tables, who, k == 0, op).rejection.serverVersion);
      }
    }
  }

  lemma SameVersion(t: Tables, who: Caller, n: Id, p: Progress, version: int)
    requires p.Running? && Underway(t, who, n, p) && VersionHeld(p.tables, n, who.owner, version)
    ensures VersionHeld(t, n, who.owner, version)
  {
    hide Consistent, DocumentOf;
  }

  /**
   Whatever made a batch fail, its rejection carries the caller's note exactly as it is stored, with the version it is
   stored at, and neither for a note the caller does not own.
   */
  lemma RejectionReportsStoredNote(t: Tables, limits: SnapshotThresholds, who: Caller, ops: seq<ClientOperation>)
    requires Good(t) && OneNote(ops)
    ensures var outcome := ApplyBatch(t, limits, who, ops); var n := ops[0].noteId;
            outcome.BatchRejected? ==>
              && outcome.rejected.serverVersion == (if OwnedNote(t, n, who.owner).Some? then t.notes[n].version else 0)
              && outcome.rejected.document == LoadDocument(t, n, who.owner)
  {
    var n, p := ops[0].noteId, ApplyAll(t, who, ops);
    ConsistentAnywhere(t, NIL, n);
    StoppedVersion(t, who, ops, n);
    if p.Stopped? {
      var back := t.(nextSequence := p.tables.nextSequence);
      assert BlocksOfNote(back, n) == BlocksOfNote(t, n);
      assert LoadDocument(back, n, who.owner) == LoadDocument(t, n, who.owner);
    }
    hide ApplyAll, LogIsState, Ordered, LastCursor;
  }
}
