/** Sending the same request again: the second run changes nothing and answers the same. */
module Retry {
  import opened Wrappers
  import opened SyncModel
  import opened DirectExecution
  import opened ChangeLog
  import opened Ordering
  import opened Ledger
  import opened Transactions
  import opened Runs
  import opened Requests

  // ---- an accepted batch replays ----

  ghost predicate Processed(t: Tables, device: string, ops: seq<ClientOperation>) {
    forall op <- ops :: FindProcessed(t.log, device, op.operationId).Some?
  }

  lemma {:induction false} AcceptedReplays(u: Tables, who: Caller, ops: seq<ClientOperation>)
    requires Processed(u, who.device, ops)
    ensures ApplyAll(u, who, ops) == Running(u, false, 0)
  {
    if ops != [] {
      AcceptedReplays(u, who, ops[..|ops| - 1]);
      var op := ops[|ops| - 1];
      assert FindProcessed(u.log, who.device, op.operationId).Some?;
    }
  }

  // ---- a rejected batch stays rejected ----

  /**
   Two databases that a batch cannot tell apart, except that more block ids may be taken in the second: the same
   document of the batch's note, the same categories for a category batch, the same operations already processed.
   */
  ghost predicate Alike(d: Tables, e: Tables, device: string, noteId: Id, ops: seq<ClientOperation>) {
    && NIL !in d.notes && NIL !in e.notes && BlocksHaveNotes(d) && BlocksHaveNotes(e)
    && DocumentOf(d, noteId) == DocumentOf(e, noteId)
    && (noteId == NIL ==> d.categories == e.categories)
    && d.blocks.Keys <= e.blocks.Keys
    && (forall op <- ops :: FindProcessed(d.log, device, op.operationId).Some? <==>
         FindProcessed(e.log, device, op.operationId).Some?)
  }

  lemma AlikeNote(d: Tables, e: Tables, device: string, noteId: Id, ops: seq<ClientOperation>, owner: Id)
    requires Alike(d, e, device, noteId, ops)
    ensures OwnedNote(d, noteId, owner) == OwnedNote(e, noteId, owner)
    ensures noteId in d.notes <==> noteId in e.notes
    ensures forall id :: noteId in d.notes ==> BlockOfNote(d, id, noteId) == BlockOfNote(e, id, noteId)
  {
    forall id | noteId in d.notes
      ensures BlockOfNote(d, id, noteId) == BlockOfNote(e, id, noteId)
    {
      assert id in BlocksOfNote(d, noteId) <==> id in BlocksOfNote(e, noteId);
    }
  }

  lemma AlikeVerdict(d: Tables, e: Tables, who: Caller, first: bool, op: ClientOperation, ops: seq<ClientOperation>)
    requires Alike(d, e, who.device, op.noteId, ops) && op in ops
    ensures VerdictKept(Apply(d, who, first, op), Apply(e, who, first, op))
  {
    hide Apply, Alike;
    if op.mutation.CreateNote? || op.mutation.OnCategory() {
      AlikeCreate(d, e, who, first, op, ops);
    } else {
      AlikeEdit(d, e, who, first, op, ops);
    }
  }

  /** What the verdict on an operation in the second database may be, given the one in the first. */
  predicate VerdictKept(step: Step, again: Step) {
    match step
    case Applied(_) => again.Applied? || again.Refused?
    case Replayed(_) => again.Replayed?
    case Refused(_) => again.Refused?
    case Failed => again.Failed?
  }

  lemma AlikeCreate(d: Tables, e: Tables, who: Caller, first: bool, op: ClientOperation, ops: seq<ClientOperation>)
    requires Alike(d, e, who.device, op.noteId, ops) && op in ops
    requires (op.mutation.CreateNote? || op.mutation.OnCategory())
    ensures VerdictKept(Apply(d, who, first, op), Apply(e, who, first, op))
  {
    AlikeNote(d, e, who.device, op.noteId, ops, who.owner);
    hide BlocksHaveNotes, DocumentOf;
  }

  lemma AlikeEdit(d: Tables, e: Tables, who: Caller, first: bool, op: ClientOperation, ops: seq<ClientOperation>)
    requires Alike(d, e, who.device, op.noteId, ops) && op in ops
    requires !(op.mutation.CreateNote? || op.mutation.OnCategory())
    ensures VerdictKept(Apply(d, who, first, op), Apply(e, who, first, op))
  {
    AlikeNote(d, e, who.device, op.noteId, ops, who.owner);
    hide BlocksHaveNotes, DocumentOf;
  }

  lemma SameEffect(d: Tables, e: Tables, who: Caller, op: ClientOperation, d': Tables, e': Tables,
    ops: seq<ClientOperation>)
    requires Alike(d, e, who.device, op.noteId, ops) && op in ops
    requires Effect(d, who, op, d') && Effect(e, who, op, e')
    requires op.noteId == NIL ==> d'.categories == e'.categories
    ensures Alike(d', e', who.device, op.noteId, ops)
  {
    var n := op.noteId;
    assert DocumentOf(d', n) == DocumentOf(e', n) by {
      SameDocument(d, e, who, op, d', e', ops);
    }
    forall b | b in d'.blocks
      ensures b in e'.blocks
    {
      if b !in d.blocks {
        NewBlocksAreTheNotes(d, who, op, d', b);
        assert b in BlocksOfNote(d', n);
        assert b in BlocksOfNote(e', n);
      }
    }
    forall o | o in ops
      ensures FindProcessed(d'.log, who.device, o.operationId).Some? <==>
          FindProcessed(e'.log, who.device, o.operationId).Some?
    {
      ProcessedAppend(d.log, Entry(d, who, op), who.device, o.operationId);
      ProcessedAppend(e.log, Entry(e, who, op), who.device, o.operationId);
    }
  }

  lemma ProcessedAppend(log: seq<Change>, c: Change, device: string, operationId: Id)
    ensures FindProcessed(log + [c], device, operationId).Some?
       <==> FindProcessed(log, device, operationId).Some? || (c.device == device && c.operationId == operationId)
  {
  }

  lemma SameDocument(d: Tables, e: Tables, who: Caller, op: ClientOperation, d': Tables, e': Tables,
    ops: seq<ClientOperation>)
    requires Alike(d, e, who.device, op.noteId, ops)
    requires Effect(d, who, op, d') && Effect(e, who, op, e')
    ensures DocumentOf(d', op.noteId) == DocumentOf(e', op.noteId)
  {
    AlikeNote(d, e, who.device, op.noteId, ops, who.owner);
    if op.noteId != NIL {
      var a, b := Entry(d, who, op), Entry(e, who, op);
      assert b == a.(sequence := b.sequence);
      SequenceDoesNotMatter(DocumentOf(d, op.noteId), a, b.sequence);
      assert Bumped(DocumentOf(d', op.noteId)) == Bumped(DocumentOf(e', op.noteId));
    }
  }

  lemma SequenceDoesNotMatter(doc: Document, c: Change, sequence: nat)
    ensures ApplyChange(doc, c.(sequence := sequence)) == ApplyChange(doc, c)
  {
  }

  lemma NewBlocksAreTheNotes(t: Tables, who: Caller, op: ClientOperation, after: Tables, b: Id)
    requires BlocksHaveNotes(t) && Effect(t, who, op, after) && b in after.blocks && b !in t.blocks
    ensures op.noteId in after.notes && after.blocks[b].noteId == op.noteId
  {
    var m := after.blocks[b].noteId;
    assert b in BlocksOfNote(after, m) && b !in BlocksOfNote(t, m);
    assert DocumentOf(after, m) != DocumentOf(t, m);
  }

  lemma AlikeStep(d: Tables, e: Tables, who: Caller, first: bool, op: ClientOperation, ops: seq<ClientOperation>)
    requires Alike(d, e, who.device, op.noteId, ops) && op in ops
    requires Apply(d, who, first, op).Applied? && Apply(e, who, first, op).Applied?
    ensures Alike(Apply(d, who, first, op).tables, Apply(e, who, first, op).tables, who.device, op.noteId, ops)
  {
    var d', e' := Apply(d, who, first, op).tables, Apply(e, who, first, op).tables;
    ApplyEffect(d, who, first, op, d');
    ApplyEffect(e, who, first, op, e');
    assert op.noteId == NIL ==> d'.categories == e'.categories;
    hide Apply, Alike, Effect;
    SameEffect(d, e, who, op, d', e', ops);
  }

  lemma {:induction false} RejectedAgain(d: Tables, e: Tables, who: Caller, prefix: seq<ClientOperation>, noteId: Id,
    ops: seq<ClientOperation>)
    requires forall op <- prefix :: op.noteId == noteId && op in ops
    requires Alike(d, e, who.device, noteId, ops)
    ensures var p, q := ApplyAll(d, who, prefix), ApplyAll(e, who, prefix);
            && (p.Running? ==> q.Stopped? || (q.Running? && Alike(p.tables, q.tables, who.device, noteId, ops)))
            && (p.Stopped? ==> q.Stopped?)
  {
    if prefix != [] {
      var front, op := prefix[..|prefix| - 1], prefix[|prefix| - 1];
      RejectedAgain(d, e, who, front, noteId, ops);
      var p, q := ApplyAll(d, who, front), ApplyAll(e, who, front);
      var first := |front| == 0;
      if p.Running? && q.Running? {
        AlikeVerdict(p.tables, q.tables, who, first, op, ops);
        if Apply(p.tables, who, first, op).Applied? && Apply(q.tables, who, first, op).Applied? {
          AlikeStep(p.tables, q.tables, who, first, op, ops);
        }
        hide Apply, Alike;
      }
    }
  }

  // ---- the rest of the request does not disturb a batch ----

  /** From a to b only other notes' operations ran; with ids, none of them wrote an id of this batch. */
  ghost predicate Undisturbed(a: Tables, b: Tables, ops: seq<ClientOperation>, ids: bool)
    requires ops != []
  {
    && DocumentOf(b, ops[0].noteId) == DocumentOf(a, ops[0].noteId)
    && (ops[0].noteId == NIL ==> b.categories == a.categories)
    && a.blocks.Keys <= b.blocks.Keys
    && |a.log| <= |b.log| && b.log[..|a.log|] == a.log
    && (ids ==> forall i | |a.log| <= i < |b.log| :: !OperationIn(ops, b.log[i].operationId))
  }

  lemma UndisturbedTransitive(a: Tables, b: Tables, c: Tables, ops: seq<ClientOperation>, ids: bool)
    requires ops != [] && Undisturbed(a, b, ops, ids) && Undisturbed(b, c, ops, ids)
    ensures Undisturbed(a, c, ops, ids)
  {
    hide DocumentOf;
    forall i | ids && |a.log| <= i < |c.log|
      ensures !OperationIn(ops, c.log[i].operationId)
    {
      if i < |b.log| {
        assert c.log[i] == c.log[..|b.log|][i] == b.log[i];
      }
    }
    assert c.log[..|a.log|] == c.log[..|b.log|][..|a.log|];
  }

  lemma UndisturbedAlike(a: Tables, b: Tables, device: string, ops: seq<ClientOperation>)
    requires ops != [] && Undisturbed(a, b, ops, true) && Good(a) && Good(b)
    ensures Alike(a, b, device, ops[0].noteId, ops)
  {
    forall op | op in ops
      ensures FindProcessed(a.log, device, op.operationId).Some? <==> FindProcessed(b.log, device, op.operationId).Some?
    {
      UndisturbedProcessed(a, b, device, op, ops);
    }
  }

  lemma UndisturbedProcessed(a: Tables, b: Tables, device: string, op: ClientOperation, ops: seq<ClientOperation>)
    requires op in ops && Undisturbed(a, b, ops, true)
    ensures FindProcessed(a.log, device, op.operationId).Some? <==> FindProcessed(b.log, device, op.operationId).Some?
  {
    hide DocumentOf;
    if FindProcessed(a.log, device, op.operationId).Some? {
      ProcessedStays(a.log, b.log, device, op.operationId);
    } else {
      forall i | 0 <= i < |b.log|
        ensures b.log[i].device != device || b.log[i].operationId != op.operationId
      {
        if i < |a.log| {
          assert b.log[i] == b.log[..|a.log|][i] == a.log[i];
          assert a.log[i] in a.log;
        } else {
          assert !OperationIn(ops, b.log[i].operationId);
        }
      }
    }
  }

  ghost predicate NoSharedIds(a: seq<ClientOperation>, b: seq<ClientOperation>) {
    forall x <- a, y <- b :: x.operationId != y.operationId
  }

  lemma BatchUndisturbs(t: Tables, limits: SnapshotThresholds, who: Caller, other: seq<ClientOperation>,
    ops: seq<ClientOperation>, ids: bool)
    requires Good(t) && OneNote(other) && ops != [] && other[0].noteId != ops[0].noteId
    requires ids && ApplyBatch(t, limits, who, other).BatchAccepted? ==> NoSharedIds(ops, other)
    ensures Undisturbed(t, ApplyBatch(t, limits, who, other).tables, ops, ids)
  {
    hide ApplyBatch, DocumentOf, Consistent;
    var outcome := ApplyBatch(t, limits, who, other);
    BatchLeavesOthers(t, limits, who, other, ops[0].noteId);
    BatchSettles(t, limits, who, other);
    BatchLog(t, limits, who, other);
    forall i | ids && |t.log| <= i < |outcome.tables.log|
      ensures !OperationIn(ops, outcome.tables.log[i].operationId)
    {
      assert OperationIn(other, outcome.tables.log[i].operationId);
    }
  }

  /** The log of an accepted batch is the log its operations wrote: the version bump and the job leave it alone. */
  lemma BatchLog(t: Tables, limits: SnapshotThresholds, who: Caller, ops: seq<ClientOperation>)
    requires ops != []
    ensures var outcome := ApplyBatch(t, limits, who, ops);
            && (outcome.BatchAccepted? ==> Records(t, who, ops, outcome.tables))
            && (!outcome.BatchAccepted? ==> outcome.tables.log == t.log)
  {
    BatchRecords(t, who, ops);
    hide ApplyAll, Records;
    var p := ApplyAll(t, who, ops);
    if p.Running? {
      assert ApplyBatch(t, limits, who, ops).tables.log == p.tables.log;
      SameLogRecords(t, who, ops, p.tables, ApplyBatch(t, limits, who, ops).tables);
    }
  }

  lemma SameLogRecords(t: Tables, who: Caller, ops: seq<ClientOperation>, a: Tables, b: Tables)
    requires Records(t, who, ops, a) && a.log == b.log
    ensures Records(t, who, ops, b)
  {
  }

  // ---- the second run ----

  lemma {:induction false} PrefixPushing(t: Tables, limits: SnapshotThresholds, who: Caller,
    batches: seq<seq<ClientOperation>>, k: nat)
    requires WellFormed(batches) && k <= |batches| && PushAll(t, limits, who, batches).Pushing?
    ensures PushAll(t, limits, who, batches[..k]).Pushing?
  {
    hide ApplyBatch, OneNote;
    if k == |batches| {
      assert batches[..k] == batches;
    } else {
      var n := |batches| - 1;
      WellFormedPrefix(batches, n);
      PushAllLast(t, limits, who, batches);
      PrefixPushing(t, limits, who, batches[..n], k);
      assert batches[..n][..k] == batches[..k];
    }
  }

  lemma PushAllLast(t: Tables, limits: SnapshotThresholds, who: Caller, batches: seq<seq<ClientOperation>>)
    requires WellFormed(batches) && batches != [] && PushAll(t, limits, who, batches).Pushing?
    ensures var n := |batches| - 1;
            && PushAll(t, limits, who, batches[..n]).Pushing?
            && PushAll(t, limits, who, batches).tables
                 == ApplyBatch(PushAll(t, limits, who, batches[..n]).tables, limits, who, batches[n]).tables
  {
    hide ApplyBatch;
  }

  /** Batch j of the request is accepted when its turn comes. */
  ghost predicate AcceptedAt(t: Tables, limits: SnapshotThresholds, who: Caller, batches: seq<seq<ClientOperation>>,
    j: nat)
    requires WellFormed(batches) && j < |batches|
  {
    var before := PushAll(t, limits, who, batches[..j]);
    before.Pushing? && ApplyBatch(before.tables, limits, who, batches[j]).BatchAccepted?
  }

  /** No batch accepted after batch k shares an operation id with it. */
  ghost predicate NoneLaterShares(t: Tables, limits: SnapshotThresholds, who: Caller,
    batches: seq<seq<ClientOperation>>, k: nat)
    requires WellFormed(batches) && k < |batches|
  {
    forall j | k < j < |batches| && AcceptedAt(t, limits, who, batches, j) :: NoSharedIds(batches[k], batches[j])
  }

  /** After its own batch, nothing later in the request disturbs a note. */
  lemma {:induction false} SuffixUndisturbs(t: Tables, limits: SnapshotThresholds, who: Caller,
    batches: seq<seq<ClientOperation>>, k: nat, ids: bool)
    requires Good(t) && WellFormed(batches) && k < |batches|
    requires ids ==> NoneLaterShares(t, limits, who, batches, k)
    requires PushAll(t, limits, who, batches).Pushing? && PushAll(t, limits, who, batches[..k + 1]).Pushing?
    ensures Undisturbed(PushAll(t, limits, who, batches[..k + 1]).tables, PushAll(t, limits, who, batches).tables,
        batches[k], ids)
  {
    if k + 1 < |batches| {
      FrontPushing(t, limits, who, batches, k, ids);
    } else {
      assert batches[..k + 1] == batches;
      UndisturbedReflexive(PushAll(t, limits, who, batches).tables, batches[k], ids);
    }
    hide PushAll, Good, WellFormed, NoneLaterShares, Undisturbed;
    if k + 1 < |batches| {
      var front := batches[..|batches| - 1];
      SuffixUndisturbs(t, limits, who, front, k, ids);
      LastBatchUndisturbs(t, limits, who, batches, k, ids);
      UndisturbedTransitive(PushAll(t, limits, who, batches[..k + 1]).tables, PushAll(t, limits, who, front).tables,
        PushAll(t, limits, who, batches).tables, batches[k], ids);
    }
  }

  lemma UndisturbedReflexive(t: Tables, ops: seq<ClientOperation>, ids: bool)
    requires ops != []
    ensures Undisturbed(t, t, ops, ids)
  {
  }

  lemma FrontPushing(t: Tables, limits: SnapshotThresholds, who: Caller, batches: seq<seq<ClientOperation>>, k: nat,
    ids: bool)
    requires WellFormed(batches) && k < |batches| - 1
    requires ids ==> NoneLaterShares(t, limits, who, batches, k)
    requires PushAll(t, limits, who, batches).Pushing?
    ensures var front := batches[..|batches| - 1];
            && WellFormed(front) && (ids ==> NoneLaterShares(t, limits, who, front, k))
            && PushAll(t, limits, who, front).Pushing?
            && front[..k + 1] == batches[..k + 1] && front[k] == batches[k] && batches[k] != []
  {
    hide PushAll, ApplyBatch, NoSharedIds;
    var front := batches[..|batches| - 1];
    WellFormedPrefix(batches, |batches| - 1);
    PushAllLast(t, limits, who, batches);
    forall j: nat | ids && k < j < |front| && AcceptedAt(t, limits, who, front, j)
      ensures NoSharedIds(front[k], front[j])
    {
      assert front[..j] == batches[..j];
      assert AcceptedAt(t, limits, who, batches, j);
    }
  }

  lemma LastBatchUndisturbs(t: Tables, limits: SnapshotThresholds, who: Caller, batches: seq<seq<ClientOperation>>,
    k: nat, ids: bool)
    requires Good(t) && WellFormed(batches) && k < |batches| - 1
    requires ids ==> NoneLaterShares(t, limits, who, batches, k)
    requires PushAll(t, limits, who, batches).Pushing?
    ensures Undisturbed(PushAll(t, limits, who, batches[..|batches| - 1]).tables,
        PushAll(t, limits, who, batches).tables, batches[k], ids)
  {
    var n := |batches| - 1;
    PushAllLast(t, limits, who, batches);
    PushAllKeeps(t, limits, who, batches[..n]);
    assert ids && AcceptedAt(t, limits, who, batches, n) ==> NoSharedIds(batches[k], batches[n]);
    hide Good, PushAll, ApplyBatch, NoSharedIds, Undisturbed;
    BatchUndisturbs(PushAll(t, limits, who, batches[..n]).tables, limits, who, batches[n], batches[k], ids);
  }

  ghost predicate IdsPerNote(batches: seq<seq<ClientOperation>>) {
    forall i, j | 0 <= i < |batches| && 0 <= j < |batches| && i != j :: NoSharedIds(batches[i], batches[j])
  }

  lemma AcceptedBatchAgain(a: Tables, u: Tables, limits: SnapshotThresholds, who: Caller, batch: seq<ClientOperation>)
    requires Good(a) && OneNote(batch)
    requires ApplyBatch(a, limits, who, batch).BatchAccepted?
    requires Undisturbed(ApplyBatch(a, limits, who, batch).tables, u, batch, false)
    ensures ApplyBatch(u, limits, who, batch) == BatchAccepted(u, ApplyBatch(a, limits, who, batch).noteVersion, 0)
  {
    var outcome := ApplyBatch(a, limits, who, batch);
    BatchLog(a, limits, who, batch);
    BatchSettles(a, limits, who, batch);
    forall op | op in batch
      ensures FindProcessed(u.log, who.device, op.operationId).Some?
    {
      ProcessedStays(outcome.tables.log, u.log, who.device, op.operationId);
    }
    AcceptedReplays(u, who, batch);
    var n := batch[0].noteId;
    assert n in outcome.tables.notes <==> n in u.notes;
    hide Consistent, Extends, Records;
  }

  lemma RejectedBatchAgain(a: Tables, u: Tables, limits: SnapshotThresholds, who: Caller, batch: seq<ClientOperation>)
    requires Good(a) && Good(u) && OneNote(batch)
    requires ApplyBatch(a, limits, who, batch).BatchRejected?
    requires Undisturbed(ApplyBatch(a, limits, who, batch).tables, u, batch, true)
    ensures ApplyBatch(u, limits, who, batch).BatchRejected?
  {
    var back := ApplyBatch(a, limits, who, batch).tables;
    assert back == a.(nextSequence := back.nextSequence);
    assert DocumentOf(back, batch[0].noteId) == DocumentOf(a, batch[0].noteId) by {
      assert BlocksOfNote(back, batch[0].noteId) == BlocksOfNote(a, batch[0].noteId);
    }
    assert Undisturbed(a, u, batch, true);
    UndisturbedAlike(a, u, who.device, batch);
    RejectedAgain(a, u, who, batch, batch[0].noteId, batch);
    hide Good, Alike, ApplyAll;
  }

  /** How the answers of the second run relate to those of the first. */
  ghost predicate SameAnswers(first: PushProgress, again: PushProgress, done: Tables) {
    && first.Pushing? && again.Pushing?
    && again.tables == done.(nextSequence := again.tables.nextSequence)
    && again.tables.nextSequence >= done.nextSequence
    && again.cursor == 0
    && again.accepted == first.accepted
    && |again.rejected| == |first.rejected|
    && (forall i | 0 <= i < |first.rejected| :: again.rejected[i].noteId == first.rejected[i].noteId)
  }

  lemma UndisturbedSequence(a: Tables, b: Tables, next: nat, ops: seq<ClientOperation>, ids: bool)
    requires ops != [] && Undisturbed(a, b, ops, ids)
    ensures Undisturbed(a, b.(nextSequence := next), ops, ids)
  {
    assert BlocksOfNote(b.(nextSequence := next), ops[0].noteId) == BlocksOfNote(b, ops[0].noteId);
  }

  lemma SameAnswersNext(first: PushProgress, again: PushProgress, done: Tables, limits: SnapshotThresholds,
    who: Caller, batch: seq<ClientOperation>)
    requires SameAnswers(first, again, done) && OneNote(batch)
    requires Good(first.tables) && Good(done)
    requires PushNext(first, limits, who, batch).Pushing?
    requires Undisturbed(PushNext(first, limits, who, batch).tables, done, batch,
        !ApplyBatch(first.tables, limits, who, batch).BatchAccepted?)
    ensures SameAnswers(PushNext(first, limits, who, batch), PushNext(again, limits, who, batch), done)
  {
    var a, u := first.tables, again.tables;
    hide Good, Undisturbed, ApplyBatch, Consistent, Extends;
    SequencesConsumed(done, u.nextSequence);
    UndisturbedSequence(PushNext(first, limits, who, batch).tables, done, u.nextSequence, batch,
      !ApplyBatch(a, limits, who, batch).BatchAccepted?);
    RejectionNamesNote(a, limits, who, batch);
    RejectionNamesNote(u, limits, who, batch);
    RejectionRollsBack(u, limits, who, batch);
    if ApplyBatch(a, limits, who, batch).BatchAccepted? {
      AcceptedBatchAgain(a, u, limits, who, batch);
    } else {
      RejectedBatchAgain(a, u, limits, who, batch);
    }
  }

  lemma RejectionRollsBack(t: Tables, limits: SnapshotThresholds, who: Caller, ops: seq<ClientOperation>)
    requires Good(t) && OneNote(ops)
    ensures var outcome := ApplyBatch(t, limits, who, ops);
            && outcome.tables.nextSequence >= t.nextSequence
            && (!outcome.BatchAccepted? ==> outcome.tables == t.(nextSequence := outcome.tables.nextSequence))
  {
    BatchSettles(t, limits, who, ops);
    hide ApplyBatch, Consistent;
  }

  /** No batch shares an operation id with one accepted later, unless it was accepted itself. */
  ghost predicate RejectedShareNone(t: Tables, limits: SnapshotThresholds, who: Caller,
    batches: seq<seq<ClientOperation>>)
    requires WellFormed(batches)
  {
    forall k | 0 <= k < |batches| && !AcceptedAt(t, limits, who, batches, k) ::
      NoneLaterShares(t, limits, who, batches, k)
  }

  lemma {:induction false} RetryPrefix(t: Tables, limits: SnapshotThresholds, who: Caller,
    batches: seq<seq<ClientOperation>>, k: nat)
    requires Good(t) && WellFormed(batches) && RejectedShareNone(t, limits, who, batches) && k <= |batches|
    requires PushAll(t, limits, who, batches).Pushing?
    ensures var done := PushAll(t, limits, who, batches).tables;
            SameAnswers(PushAll(t, limits, who, batches[..k]), PushAll(done, limits, who, batches[..k]), done)
  {
    hide Good, Undisturbed, SameAnswers, NoneLaterShares, ApplyBatch, Later, PushNext;
    var done := PushAll(t, limits, who, batches).tables;
    PushAllKeeps(t, limits, who, batches);
    PrefixPushing(t, limits, who, batches, k);
    if k == 0 {
      NothingAnswered(t, done, limits, who);
      assert batches[..k] == [];
    } else {
      RetryPrefix(t, limits, who, batches, k - 1);
      BothPushing(PushAll(t, limits, who, batches[..k - 1]), PushAll(done, limits, who, batches[..k - 1]), done);
      PushAllKeeps(t, limits, who, batches[..k - 1]);
      assert batches[..k][..k - 1] == batches[..k - 1] && batches[..k][k - 1] == batches[k - 1];
      SuffixUndisturbs(t, limits, who, batches, k - 1, !AcceptedAt(t, limits, who, batches, k - 1));
      SameAnswersNext(PushAll(t, limits, who, batches[..k - 1]), PushAll(done, limits, who, batches[..k - 1]), done,
        limits, who, batches[k - 1]);
    }
  }

  lemma BothPushing(first: PushProgress, again: PushProgress, done: Tables)
    requires SameAnswers(first, again, done)
    ensures first.Pushing? && again.Pushing?
  {
  }

  lemma NothingAnswered(t: Tables, done: Tables, limits: SnapshotThresholds, who: Caller)
    ensures SameAnswers(PushAll(t, limits, who, []), PushAll(done, limits, who, []), done)
  {
  }

  // ---- the answers of the first run say which ids matter ----

  predicate IsAccepted(accepted: seq<AcceptedBatch>, noteId: Id) {
    exists a <- accepted :: a.noteId == noteId
  }

  predicate IsRejected(rejected: seq<BatchRejection>, noteId: Id) {
    exists r <- rejected :: r.noteId == noteId
  }

  lemma VerdictNext(before: PushProgress, limits: SnapshotThresholds, who: Caller, batch: seq<ClientOperation>)
    requires before.Pushing? && batch != [] && PushNext(before, limits, who, batch).Pushing?
    ensures var after := PushNext(before, limits, who, batch);
            && before.accepted <= after.accepted && before.rejected <= after.rejected
            && (if ApplyBatch(before.tables, limits, who, batch).BatchAccepted? then
                 IsAccepted(after.accepted, batch[0].noteId)
                else IsRejected(after.rejected, batch[0].noteId))
  {
    var outcome := ApplyBatch(before.tables, limits, who, batch);
    RejectionNamesNote(before.tables, limits, who, batch);
    hide ApplyBatch;
    var after := PushNext(before, limits, who, batch);
    if outcome.BatchAccepted? {
      assert after.accepted[|before.accepted|] in after.accepted;
    } else {
      assert after.rejected[|before.rejected|] in after.rejected;
    }
  }

  lemma PrefixKeepsVerdict(a: seq<AcceptedBatch>, a': seq<AcceptedBatch>, r: seq<BatchRejection>,
    r': seq<BatchRejection>, noteId: Id)
    requires a <= a' && r <= r'
    ensures IsAccepted(a, noteId) ==> IsAccepted(a', noteId)
    ensures IsRejected(r, noteId) ==> IsRejected(r', noteId)
  {
    assert forall x <- a :: x in a';
    assert forall x <- r :: x in r';
  }

  lemma {:induction false} VerdictListed(t: Tables, limits: SnapshotThresholds, who: Caller,
    batches: seq<seq<ClientOperation>>, k: nat)
    requires WellFormed(batches) && k < |batches| && PushAll(t, limits, who, batches).Pushing?
    ensures var p := PushAll(t, limits, who, batches);
            if AcceptedAt(t, limits, who, batches, k) then IsAccepted(p.accepted, batches[k][0].noteId)
            else IsRejected(p.rejected, batches[k][0].noteId)
  {
    hide ApplyBatch, PushNext, IsAccepted, IsRejected, OneNote;
    var n := |batches| - 1;
    var front := batches[..n];
    WellFormedPrefix(batches, n);
    PushAllLast(t, limits, who, batches);
    assert PushAll(t, limits, who, batches) == PushNext(PushAll(t, limits, who, front), limits, who, batches[n]);
    assert k < n ==> front[..k] == batches[..k] && front[k] == batches[k];
    hide PushAll, WellFormed;
    VerdictNext(PushAll(t, limits, who, front), limits, who, batches[n]);
    if k < n {
      VerdictListed(t, limits, who, front, k);
      var p, q := PushAll(t, limits, who, front), PushAll(t, limits, who, batches);
      PrefixKeepsVerdict(p.accepted, q.accepted, p.rejected, q.rejected, batches[k][0].noteId);
    }
  }

  /** Operations of one request that share an id are for the same note. */
  predicate IdsNameOneNote(operations: seq<ClientOperation>) {
    forall x <- operations, y <- operations :: x.operationId == y.operationId ==> x.noteId == y.noteId
  }

  lemma RequestIds(request: Request)
    requires IdsNameOneNote(request.operations)
    ensures WellFormed(RequestBatches(request)) && IdsPerNote(RequestBatches(request))
  {
    RequestBatchesWellFormed(request);
    SortSorts(request.operations);
    hide RequestBatches, SortedOperations;
    var batches, sorted := RequestBatches(request), SortedOperations(request.operations);
    forall i, j, x: ClientOperation, y: ClientOperation | 0 <= i < |batches| && 0 <= j < |batches| && i != j &&
      x in batches[i] && y in batches[j]
      ensures x.operationId != y.operationId
    {
      FlattenMembers(batches, x);
      FlattenMembers(batches, y);
      assert x in multiset(sorted) && y in multiset(sorted);
      assert x.noteId == batches[i][0].noteId && y.noteId == batches[j][0].noteId;
    }
  }

  /**
   No operation of a note rejected by the first run shares its id with an operation of a note accepted after it. Notes
   are applied in increasing order, so the answers and the request show it.
   */
  predicate IdsSettle(operations: seq<ClientOperation>, accepted: seq<AcceptedBatch>, rejected: seq<BatchRejection>) {
    forall x <- operations, y <- operations ::
      x.operationId == y.operationId && IsRejected(rejected, x.noteId) && IsAccepted(accepted, y.noteId) ==>
        y.noteId <= x.noteId
  }

  lemma IdsSettleBatches(t: Tables, limits: SnapshotThresholds, who: Caller, request: Request)
    requires WellFormed(RequestBatches(request))
    requires PushAll(t, limits, who, RequestBatches(request)).Pushing?
    requires var p := PushAll(t, limits, who, RequestBatches(request)); IdsSettle(request.operations, p.accepted,
        p.rejected)
    ensures RejectedShareNone(t, limits, who, RequestBatches(request))
  {
    var batches := RequestBatches(request);
    var p := PushAll(t, limits, who, batches);
    hide RequestBatches, PushAll, AcceptedAt, IdsSettle, NoSharedIds;
    forall k: nat, j: nat | k < j < |batches| && !AcceptedAt(t, limits, who, batches, k) &&
      AcceptedAt(t, limits, who, batches, j)
      ensures NoSharedIds(batches[k], batches[j])
    {
      VerdictListed(t, limits, who, batches, k);
      VerdictListed(t, limits, who, batches, j);
      SettledPair(request, p.accepted, p.rejected, k, j);
    }
  }

  lemma SettledPair(request: Request, accepted: seq<AcceptedBatch>, rejected: seq<BatchRejection>, k: nat, j: nat)
    requires IdsSettle(request.operations, accepted, rejected) && WellFormed(RequestBatches(request))
    requires k < j < |RequestBatches(request)|
    requires IsRejected(rejected, RequestBatches(request)[k][0].noteId)
    requires IsAccepted(accepted, RequestBatches(request)[j][0].noteId)
    ensures NoSharedIds(RequestBatches(request)[k], RequestBatches(request)[j])
  {
    var batches: seq<seq<ClientOperation>> := RequestBatches(request);
    RequestMembers(request);
    hide RequestBatches, IsAccepted, IsRejected;
    forall x, y | x in batches[k] && y in batches[j]
      ensures x.operationId != y.operationId
    {
      assert x.noteId == batches[k][0].noteId < batches[j][0].noteId == y.noteId;
    }
  }

  lemma RequestMembers(request: Request)
    ensures forall i | 0 <= i < |RequestBatches(request)| :: forall op <- RequestBatches(request)[i] ::
        op in request.operations
  {
    var batches: seq<seq<ClientOperation>> := RequestBatches(request);
    RequestBatchesWellFormed(request);
    SortSorts(request.operations);
    forall i, op: ClientOperation | 0 <= i < |batches| && op in batches[i]
      ensures op in request.operations
    {
      FlattenMembers(batches, op);
      assert op in multiset(SortedOperations(request.operations));
    }
  }

  /**
   The second run changes nothing but the sequence counter, answers for the same notes and versions, publishes nothing.
   */
  ghost predicate NoOp(result: PushResult, again: PushResult) {
    && result.Pushed? && again.Pushed?
    && again.tables == result.tables.(nextSequence := again.tables.nextSequence)
    && again.accepted == result.accepted
    && |again.rejected| == |result.rejected|
    && (forall i | 0 <= i < |result.rejected| :: again.rejected[i].noteId == result.rejected[i].noteId)
    && again.published == None
  }

  /**
   Sending a completed request again changes nothing but the sequence counter, answers with the same accepted notes
   at the same versions and the same rejected notes, and publishes nothing.
   */
  lemma RetryIsNoOp(t: Tables, config: Config, owner: Id, request: Request)
    requires Good(t)
    ensures var result := Push(t, config, owner, request);
            result.Pushed? && IdsSettle(request.operations, result.accepted, result.rejected) ==>
              NoOp(result, Push(result.tables, config, owner, request))
  {
    var result := Push(t, config, owner, request);
    if result.Pushed? && IdsSettle(request.operations, result.accepted, result.rejected) {
      RequestBatchesWellFormed(request);
      var batches, who := RequestBatches(request), Caller(owner, request.deviceId);
      IdsSettleBatches(t, config.limits, who, request);
      PushAllKeeps(t, config.limits, who, batches);
      RetryPrefix(t, config.limits, who, batches, |batches|);
      assert batches[..|batches|] == batches;
      hide Good, PushAll;
    }
  }

  lemma {:induction false} ListedCounts(accepted: seq<AcceptedBatch>, rejected: seq<BatchRejection>, noteId: Id)
    ensures IsAccepted(accepted, noteId) <==> CountAccepted(accepted, noteId) > 0
    ensures IsRejected(rejected, noteId) <==> CountRejected(rejected, noteId) > 0
    decreases |accepted| + |rejected|
  {
    if accepted != [] {
      ListedCounts(accepted[..|accepted| - 1], [], noteId);
      assert accepted == accepted[..|accepted| - 1] + [accepted[|accepted| - 1]];
    }
    if rejected != [] {
      ListedCounts([], rejected[..|rejected| - 1], noteId);
      assert rejected == rejected[..|rejected| - 1] + [rejected[|rejected| - 1]];
    }
  }

  /** Whatever the answers, ids that name one note each settle, because a note is not both accepted and rejected. */
  lemma OneNotePerIdSettles(t: Tables, config: Config, owner: Id, request: Request)
    requires IdsNameOneNote(request.operations)
    ensures var result := Push(t, config, owner, request);
            result.Pushed? ==> IdsSettle(request.operations, result.accepted, result.rejected)
  {
    var result := Push(t, config, owner, request);
    if result.Pushed? {
      forall x <- request.operations
        ensures !(IsRejected(result.rejected, x.noteId) && IsAccepted(result.accepted, x.noteId))
      {
        NotBoth(t, config, owner, request, x.noteId);
      }
    }
    hide Push, IsAccepted, IsRejected;
  }

  // ---- when the retry is not a no-op ----

  lemma BatchKeepsProcessed(t: Tables, limits: SnapshotThresholds, who: Caller, batch: seq<ClientOperation>,
    ops: seq<ClientOperation>)
    requires batch != [] && Processed(t, who.device, ops)
    ensures Processed(ApplyBatch(t, limits, who, batch).tables, who.device, ops)
  {
    var after := ApplyBatch(t, limits, who, batch).tables;
    BatchLog(t, limits, who, batch);
    assert |t.log| <= |after.log| && after.log[..|t.log|] == t.log;
    hide ApplyBatch, FindProcessed, Records;
    forall op | op in ops
      ensures FindProcessed(after.log, who.device, op.operationId).Some?
    {
      ProcessedStays(t.log, after.log, who.device, op.operationId);
    }
  }

  lemma {:induction false} PushKeepsProcessed(t: Tables, limits: SnapshotThresholds, who: Caller,
    batches: seq<seq<ClientOperation>>, ops: seq<ClientOperation>)
    requires WellFormed(batches) && PushAll(t, limits, who, batches).Pushing? && Processed(t, who.device, ops)
    ensures Processed(PushAll(t, limits, who, batches).tables, who.device, ops)
  {
    if batches != [] {
      var k := |batches| - 1;
      WellFormedPrefix(batches, k);
      PushAllLast(t, limits, who, batches);
      PushKeepsProcessed(t, limits, who, batches[..k], ops);
      BatchKeepsProcessed(PushAll(t, limits, who, batches[..k]).tables, limits, who, batches[k], ops);
    }
    hide Processed, WellFormed, ApplyBatch;
  }

  lemma AcceptedRecords(t: Tables, limits: SnapshotThresholds, who: Caller, batch: seq<ClientOperation>)
    requires batch != [] && ApplyBatch(t, limits, who, batch).BatchAccepted?
    ensures Processed(ApplyBatch(t, limits, who, batch).tables, who.device, batch)
  {
    BatchLog(t, limits, who, batch);
    hide ApplyBatch, FindProcessed;
  }

  /** What a request accepted is processed from then on. */
  lemma {:induction false} AcceptedIsProcessed(t: Tables, limits: SnapshotThresholds, who: Caller,
    batches: seq<seq<ClientOperation>>, k: nat)
    requires WellFormed(batches) && k < |batches| && PushAll(t, limits, who, batches).Pushing?
    requires AcceptedAt(t, limits, who, batches, k)
    ensures Processed(PushAll(t, limits, who, batches).tables, who.device, batches[k])
  {
    hide ApplyBatch, PushNext, Processed, OneNote;
    var n := |batches| - 1;
    var front := batches[..n];
    WellFormedPrefix(batches, n);
    PushAllLast(t, limits, who, batches);
    hide PushAll;
    if k == n {
      AcceptedRecords(PushAll(t, limits, who, front).tables, limits, who, batches[n]);
    } else {
      assert front[..k] == batches[..k] && front[k] == batches[k];
      AcceptedIsProcessed(t, limits, who, front, k);
      BatchKeepsProcessed(PushAll(t, limits, who, front).tables, limits, who, batches[n], batches[k]);
    }
  }

  lemma RepliesAccepted(t: Tables, config: Config, owner: Id, request: Request, y: ClientOperation)
    requires var result := Push(t, config, owner, request);
             result.Pushed? && y in request.operations && IsAccepted(result.accepted, y.noteId)
    ensures FindProcessed(Push(t, config, owner, request).tables.log, request.deviceId, y.operationId).Some?
  {
    var who, batches := Caller(owner, request.deviceId), RequestBatches(request);
    var result := Push(t, config, owner, request);
    var j := BatchWith(request, y);
    OneVerdictPerNote(t, config, owner, request, y.noteId);
    ListedCounts(result.accepted, result.rejected, y.noteId);
    hide RequestBatches, PushAll, AcceptedAt, IsAccepted, IsRejected, WellFormed, CountAccepted, CountRejected,
      FindProcessed;
    VerdictListed(t, config.limits, who, batches, j);
    AcceptedIsProcessed(t, config.limits, who, batches, j);
  }

  lemma BatchWith(request: Request, op: ClientOperation) returns (j: nat)
    requires op in request.operations
    ensures var batches := RequestBatches(request);
            WellFormed(batches) && j < |batches| && op in batches[j] && batches[j][0].noteId == op.noteId
  {
    var batches: seq<seq<ClientOperation>> := RequestBatches(request);
    RequestBatchesWellFormed(request);
    SortSorts(request.operations);
    assert op in multiset(SortedOperations(request.operations));
    FlattenMembers(batches, op);
    j :| 0 <= j < |batches| && op in batches[j];
    assert OneNote(batches[j]);
  }

  predicate SharedWithAccepted(operations: seq<ClientOperation>, accepted: seq<AcceptedBatch>, x: ClientOperation) {
    exists y <- operations :: y.operationId == x.operationId && IsAccepted(accepted, y.noteId)
  }

  /**
   Whatever the first answer, a note whose every operation shares its id with an accepted one is accepted on the retry.
   */
  lemma AllSharedIsAccepted(t: Tables, config: Config, owner: Id, request: Request, op: ClientOperation)
    requires op in request.operations
    ensures var result := Push(t, config, owner, request); var again := Push(result.tables, config, owner, request);
            result.Pushed? && again.Pushed?
            && (forall x <- request.operations | x.noteId == op.noteId ::
                 SharedWithAccepted(request.operations, result.accepted, x)) ==>
              IsAccepted(again.accepted, op.noteId)
  {
    var result := Push(t, config, owner, request); var again := Push(result.tables, config, owner, request);
    if result.Pushed? && again.Pushed? && forall x <- request.operations | x.noteId == op.noteId ::
      SharedWithAccepted(request.operations, result.accepted, x) {
      var who, batches: seq<seq<ClientOperation>> := Caller(owner, request.deviceId), RequestBatches(request);
      var k := BatchWith(request, op);
      RequestMembers(request);
      assert OneNote(batches[k]);
      forall x: ClientOperation | x in batches[k]
        ensures FindProcessed(result.tables.log, who.device, x.operationId).Some?
      {
        assert x in request.operations && x.noteId == op.noteId;
        var y :| y in request.operations && y.operationId == x.operationId && IsAccepted(result.accepted, y.noteId);
        RepliesAccepted(t, config, owner, request, y);
      }
      ProcessedIsAccepted(result.tables, config.limits, who, batches, k);
    }
    hide Push, RequestBatches, IsAccepted, FindProcessed, PushAll;
  }

  lemma ProcessedIsAccepted(u: Tables, limits: SnapshotThresholds, who: Caller, batches: seq<seq<ClientOperation>>,
    k: nat)
    requires WellFormed(batches) && k < |batches| && PushAll(u, limits, who, batches).Pushing?
    requires Processed(u, who.device, batches[k])
    ensures IsAccepted(PushAll(u, limits, who, batches).accepted, batches[k][0].noteId)
  {
    PrefixPushing(u, limits, who, batches, k);
    WellFormedPrefix(batches, k);
    PushKeepsProcessed(u, limits, who, batches[..k], batches[k]);
    var before := PushAll(u, limits, who, batches[..k]);
    AcceptedReplays(before.tables, who, batches[k]);
    assert ApplyBatch(before.tables, limits, who, batches[k]).BatchAccepted?;
    hide PushAll, ApplyBatch, IsAccepted, IsRejected, Processed;
    VerdictListed(u, limits, who, batches, k);
  }

  /** All operations of a rejected note carry one id; so it is when such a note has a single operation. */
  predicate OneIdPerRejection(operations: seq<ClientOperation>, rejected: seq<BatchRejection>) {
    forall x <- operations, y <- operations :: x.noteId == y.noteId && IsRejected(rejected, x.noteId) ==>
      x.operationId == y.operationId
  }

  /** Exactly when the retry is a no-op, for requests that reject notes with one operation each only. */
  lemma RetryIsNoOpIff(t: Tables, config: Config, owner: Id, request: Request)
    requires Good(t)
    ensures var result := Push(t, config, owner, request);
            result.Pushed? && OneIdPerRejection(request.operations, result.rejected) ==>
              (NoOp(result, Push(result.tables, config, owner, request)) <==>
                IdsSettle(request.operations, result.accepted, result.rejected))
  {
    var result := Push(t, config, owner, request); var again := Push(result.tables, config, owner, request);
    RetryIsNoOp(t, config, owner, request);
    hide Push, Good, IsAccepted, IsRejected;
    if result.Pushed? && OneIdPerRejection(request.operations, result.rejected) && NoOp(result, again)
       && !IdsSettle(request.operations, result.accepted, result.rejected) {
      var x: ClientOperation, y: ClientOperation :| x in request.operations && y in request.operations &&
        x.operationId == y.operationId
        && IsRejected(result.rejected, x.noteId) && IsAccepted(result.accepted, y.noteId) && y.noteId > x.noteId;
      AllSharedIsAccepted(t, config, owner, request, x);
      assert forall z <- request.operations | z.noteId == x.noteId ::
        SharedWithAccepted(request.operations, result.accepted, z);
      SameRejections(result.rejected, again.rejected, x.noteId);
      NotBoth(result.tables, config, owner, request, x.noteId);
      assert false;
    }
  }

  lemma SameRejections(a: seq<BatchRejection>, b: seq<BatchRejection>, noteId: Id)
    requires |b| == |a| && (forall i | 0 <= i < |a| :: b[i].noteId == a[i].noteId) && IsRejected(a, noteId)
    ensures IsRejected(b, noteId)
  {
    var i :| 0 <= i < |a| && a[i].noteId == noteId;
    assert b[i] in b;
  }

  lemma NotBoth(t: Tables, config: Config, owner: Id, request: Request, noteId: Id)
    ensures var result := Push(t, config, owner, request);
            result.Pushed? ==> !(IsRejected(result.rejected, noteId) && IsAccepted(result.accepted, noteId))
  {
    var result := Push(t, config, owner, request);
    if result.Pushed? {
      OneVerdictPerNote(t, config, owner, request, noteId);
      ListedCounts(result.accepted, result.rejected, noteId);
    }
    hide Push, IsAccepted, IsRejected, CountAccepted, CountRejected;
  }

  // ---- why the ids of different notes must differ ----

  const SHARED_ID: Id := 7
  const REFUSED_DELETE := ClientOperation(SHARED_ID, 1, 0, 0, true, DeleteNote, 0)
  const ACCEPTED_CREATE := ClientOperation(SHARED_ID, 2, 0, 0, true, CreateNote(Some(NotePayload("", "", []))), 0)

  lemma DeleteRefused(t: Tables, limits: SnapshotThresholds, who: Caller)
    requires t.notes == map[] && t.log == []
    ensures ApplyBatch(t, limits, who, [REFUSED_DELETE]) == BatchRejected(t, BatchRejection(1, NotFound, 0, 0, None))
  {
    assert t == t.(nextSequence := t.nextSequence);
    assert [REFUSED_DELETE][..0] == [];
    assert ApplyAll(t, who, []) == Running(t, false, 0);
    assert Apply(t, who, true, REFUSED_DELETE).Refused?;
  }

  lemma CreateApplies(t: Tables, who: Caller)
    requires t.notes == map[] && t.blocks == map[] && t.log == []
    ensures var step := Apply(t, who, true, ACCEPTED_CREATE);
            && step.Applied? && |step.tables.log| == 1
            && step.tables.log[0].device == who.device && step.tables.log[0].operationId == SHARED_ID
            && step.tables.notes.Keys == {2} && OwnedNote(step.tables, 2, who.owner).Some?
  {
    assert NewBlocks(2, []) == map[];
  }

  lemma CreateAccepted(t: Tables, limits: SnapshotThresholds, who: Caller)
    requires t.notes == map[] && t.blocks == map[] && t.log == []
    ensures ApplyBatch(t, limits, who, [ACCEPTED_CREATE]).BatchAccepted?
    ensures FindProcessed(ApplyBatch(t, limits, who, [ACCEPTED_CREATE]).tables.log, who.device, SHARED_ID).Some?
  {
    CreateApplies(t, who);
    hide Apply;
    assert [ACCEPTED_CREATE][..0] == [];
    assert ApplyAll(t, who, []) == Running(t, false, 0);
    assert ApplyAll(t, who, [ACCEPTED_CREATE]).Running?;
    var step := Apply(t, who, true, ACCEPTED_CREATE);
    assert ApplyAll(t, who, [ACCEPTED_CREATE]).tables == step.tables;
    hide ApplyAll;
    assert step.tables.log[0] in step.tables.log;
    AcceptedRecords(t, limits, who, [ACCEPTED_CREATE]);
    assert ACCEPTED_CREATE in [ACCEPTED_CREATE];
  }

  lemma SharedIdFirstRun(t: Tables, limits: SnapshotThresholds, who: Caller)
    requires t.notes == map[] && t.blocks == map[] && t.log == []
    ensures ApplyBatch(t, limits, who, [REFUSED_DELETE]) == BatchRejected(t, BatchRejection(1, NotFound, 0, 0, None))
    ensures ApplyBatch(t, limits, who, [ACCEPTED_CREATE]).BatchAccepted?
    ensures FindProcessed(ApplyBatch(t, limits, who, [ACCEPTED_CREATE]).tables.log, who.device, SHARED_ID).Some?
  {
    hide ApplyBatch;
    DeleteRefused(t, limits, who);
    CreateAccepted(t, limits, who);
  }

  lemma SharedIdSecondRun(u: Tables, limits: SnapshotThresholds, who: Caller)
    requires FindProcessed(u.log, who.device, SHARED_ID).Some?
    ensures ApplyBatch(u, limits, who, [REFUSED_DELETE]).BatchAccepted?
    ensures ApplyBatch(u, limits, who, [REFUSED_DELETE]).tables == u
    ensures ApplyBatch(u, limits, who, [ACCEPTED_CREATE]).BatchAccepted?
  {
    AcceptedReplays(u, who, [REFUSED_DELETE]);
    AcceptedReplays(u, who, [ACCEPTED_CREATE]);
    hide ApplyAll;
  }

  lemma SharedIdBatches(device: string)
    ensures RequestBatches(Request(PROTOCOL_VERSION, device, [REFUSED_DELETE, ACCEPTED_CREATE]))
        == [[REFUSED_DELETE], [ACCEPTED_CREATE]]
  {
    var ops := [REFUSED_DELETE, ACCEPTED_CREATE];
    assert ops[..1] == [REFUSED_DELETE] && ops[..1][..0] == [];
    assert SortedOperations([REFUSED_DELETE]) == [REFUSED_DELETE];
    assert SortedOperations(ops) == ops;
    assert ops[1..] == [ACCEPTED_CREATE] && [ACCEPTED_CREATE][1..] == [];
    assert [ACCEPTED_CREATE][..1] == [ACCEPTED_CREATE] && Batches([]) == [];
    assert Batches([ACCEPTED_CREATE]) == [[ACCEPTED_CREATE]];
  }

  /**
   The condition is needed: a note rejected the first time is accepted on the retry when another note's accepted
   operation carried the same id, because the idempotency key does not hold the note.
   */
  lemma SharedIdBreaksRetry(config: Config, owner: Id, device: string)
    requires config.maxOperations >= 2 && ValidDeviceId(device)
    ensures var t := EMPTY_TABLES.(devices := map[device := Device(owner, 0, false)]);
            var request := Request(PROTOCOL_VERSION, device, [REFUSED_DELETE, ACCEPTED_CREATE]);
            var first := Push(t, config, owner, request);
            && first.Pushed?
            && |first.rejected| == 1 && first.rejected[0].noteId == 1
            && !IdsSettle(request.operations, first.accepted, first.rejected)
            && var again := Push(first.tables, config, owner, request);
               again.Pushed? && again.rejected == [] && |again.accepted| == 2
  {
    var t := EMPTY_TABLES.(devices := map[device := Device(owner, 0, false)]);
    var request := Request(PROTOCOL_VERSION, device, [REFUSED_DELETE, ACCEPTED_CREATE]);
    var who, limits := Caller(owner, device), config.limits;
    SharedIdBatches(device);
    SharedIdFirstRun(t, limits, who);
    var u := ApplyBatch(t, limits, who, [ACCEPTED_CREATE]).tables;
    SharedIdSecondRun(u, limits, who);
    assert u.devices == t.devices by {
      DevicesStay(t, limits, who, [ACCEPTED_CREATE]);
    }
    hide ApplyBatch, RequestBatches;
    TwoBatches(t, limits, who, [REFUSED_DELETE], [ACCEPTED_CREATE]);
    TwoBatches(u, limits, who, [REFUSED_DELETE], [ACCEPTED_CREATE]);
    var first := Push(t, config, owner, request);
    assert IsRejected(first.rejected, 1) by {
      assert first.rejected[0] in first.rejected;
    }
    assert IsAccepted(first.accepted, 2) by {
      assert first.accepted[0] in first.accepted;
    }
    assert REFUSED_DELETE in request.operations && ACCEPTED_CREATE in request.operations;
  }

  lemma DevicesStay(t: Tables, limits: SnapshotThresholds, who: Caller, ops: seq<ClientOperation>)
    requires t == EMPTY_TABLES.(devices := t.devices) && OneNote(ops)
    ensures ApplyBatch(t, limits, who, ops).tables.devices == t.devices
  {
    EmptyIsGood();
    DevicesOnly(EMPTY_TABLES, t.devices);
    BatchSettles(t, limits, who, ops);
  }

  lemma TwoBatches(t: Tables, limits: SnapshotThresholds, who: Caller, a: seq<ClientOperation>, b: seq<ClientOperation>)
    requires a != [] && b != []
    ensures var one := PushNext(Pushing(t, [], [], 0), limits, who, a);
            PushAll(t, limits, who, [a, b]) == if one.Pushing? then PushNext(one, limits, who, b) else one
  {
    assert [a, b][..1] == [a] && [a][..0] == [];
    assert PushAll(t, limits, who, []) == Pushing(t, [], [], 0);
    assert PushAll(t, limits, who, [a]) == PushNext(Pushing(t, [], [], 0), limits, who, a);
    hide PushNext;
  }
}
