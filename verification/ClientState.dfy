/**
 A device: how it applies the pages it pulls, what it makes of the answers to a request, and which of its operations
 those answers settle.
 */
module ClientState {
  import opened Wrappers
  import opened SyncModel
  import opened SyncStore
  import opened DirectExecution
  import opened ChangeLog
  import opened Ordering
  import opened Ledger
  import opened Transactions
  import opened Runs
  import opened Requests
  import opened Retry
  import opened PullFeed
  import opened Replica

  /**
   A device: its copies of notes; for notes it adopted after a rejection, the cursor the adopted document represents;
   its feed cursor; whether its last page said there was no more; the ids of its accepted operations; and the operations
   it sent without getting a reply.
   */
  datatype Client = Client(
    docs: map<Id, Document>, floors: map<Id, nat>, cursor: int, drained: bool, settled: set<Id>,
      unanswered: Option<seq<ClientOperation>>)

  const NEW_CLIENT := Client(map[], map[], 0, false, {}, None)

  function LocalDoc(docs: map<Id, Document>, n: Id): Document {
    if n in docs then docs[n] else Absent
  }

  function Floor(floors: map<Id, nat>, n: Id): nat {
    if n in floors then floors[n] else 0
  }

  // ---- pulling ----

  /** The page in order, leaving out what an adopted document already contains. */
  function ApplyPage(docs: map<Id, Document>, floors: map<Id, nat>, changes: seq<Change>): map<Id, Document> {
    if changes == [] then docs
    else
      var k := |changes| - 1;
      var before, c := ApplyPage(docs, floors, changes[..k]), changes[k];
      if c.sequence > Floor(floors, c.noteId) then before[c.noteId := ApplyChange(LocalDoc(before, c.noteId), c)]
        else before
  }

  lemma PageForAppend(changes: seq<Change>, c: Change, n: Id, floor: nat)
    ensures PageFor(changes + [c], n, floor)
         == if c.noteId == n && c.sequence > floor then PageFor(changes, n, floor) + [c] else PageFor(changes, n, floor)
  {
    SelectAppend(changes, c, OfNote(n));
    SelectAppend(Select(changes, OfNote(n)), c, AfterSequence(floor));
    hide Select;
  }

  lemma {:induction false} PagePerNote(docs: map<Id, Document>, floors: map<Id, nat>, changes: seq<Change>, n: Id)
    ensures LocalDoc(ApplyPage(docs, floors, changes), n)
        == Replay(LocalDoc(docs, n), PageFor(changes, n, Floor(floors, n)))
  {
    if changes == [] {
      return;
    }
    hide ApplyChange, PageFor, Replay;
    var front, c := changes[..|changes| - 1], changes[|changes| - 1];
    assert changes == front + [c];
    PagePerNote(docs, floors, front, n);
    PageForAppend(front, c, n, Floor(floors, n));
    ReplayAppend(LocalDoc(docs, n), PageFor(front, n, Floor(floors, n)), c);
  }

  function AfterPull(c: Client, page: Page): Client {
    c.(docs := ApplyPage(c.docs, c.floors, page.changes), cursor := page.nextCursor, drained := !page.hasMore)
  }

  // ---- pushing ----

  datatype Answer = AcceptedNote | RejectedNote(document: Option<Snapshot>) | NoAnswer

  function RejectionFor(rejected: seq<BatchRejection>, n: Id): (answer: Answer)
    ensures answer != AcceptedNote
  {
    if rejected == [] then NoAnswer
    else
      var last := rejected[|rejected| - 1];
      if last.noteId == n then RejectedNote(last.document) else RejectionFor(rejected[..|rejected| - 1], n)
  }

  function AnswerFor(accepted: seq<AcceptedBatch>, rejected: seq<BatchRejection>, n: Id): Answer {
    if IsAccepted(accepted, n) then AcceptedNote else RejectionFor(rejected, n)
  }

  /** The operations the device sent for a note, in the order the server applies them. */
  function BatchFor(batches: seq<seq<ClientOperation>>, n: Id): seq<ClientOperation> {
    if batches == [] then []
    else
      var last := batches[|batches| - 1];
      if last != [] && last[0].noteId == n then last else BatchFor(batches[..|batches| - 1], n)
  }

  function BatchOf(operations: seq<ClientOperation>, n: Id): seq<ClientOperation> {
    BatchFor(Batches(SortedOperations(operations)), n)
  }

  function PushedDoc(doc: Document, who: Caller, ops: seq<ClientOperation>, answer: Answer): Document {
    match answer
    case AcceptedNote => Replay(doc, OwnChanges(who, LocalVersion(doc), ops))
    case RejectedNote(Some(snapshot)) => snapshot.document
    case _ => doc
  }

  function PushedFloor(floor: nat, answer: Answer): nat {
    match answer
    case RejectedNote(Some(snapshot)) => snapshot.lastAppliedCursor
    case _ => floor
  }

  /** The operations the server now holds for good. */
  function SettledIds(operations: seq<ClientOperation>, accepted: seq<AcceptedBatch>): set<Id> {
    set op | op in operations && IsAccepted(accepted, op.noteId) :: op.operationId
  }

  function AfterPush(c: Client, who: Caller, operations: seq<ClientOperation>, accepted: seq<AcceptedBatch>,
    rejected: seq<BatchRejection>): Client {
    var notes := set op | op in operations :: op.noteId;
    c.(docs := map n | n in c.docs.Keys + notes ::
         PushedDoc(LocalDoc(c.docs, n), who, BatchOf(operations, n), AnswerFor(accepted, rejected, n)),
       floors := map n | n in c.floors.Keys + notes ::
         PushedFloor(Floor(c.floors, n), AnswerFor(accepted, rejected, n)),
       settled := c.settled + SettledIds(operations, accepted),
       unanswered := None)
  }

  // ---- answers of a completed request ----

  function AnswerOf(outcome: BatchOutcome): Answer {
    match outcome
    case BatchAccepted(_, _, _) => AcceptedNote
    case BatchRejected(_, rejected) => RejectedNote(rejected.document)
    case BatchFailed(_) => NoAnswer
  }

  lemma AnswerNext(before: PushProgress, limits: SnapshotThresholds, who: Caller, batch: seq<ClientOperation>, n: Id)
    requires before.Pushing? && batch != [] && PushNext(before, limits, who, batch).Pushing?
    ensures var after := PushNext(before, limits, who, batch);
            if batch[0].noteId != n then
              AnswerFor(after.accepted, after.rejected, n) == AnswerFor(before.accepted, before.rejected, n)
            else
              AnswerFor(before.accepted, before.rejected, n) == NoAnswer ==>
                AnswerFor(after.accepted, after.rejected, n) == AnswerOf(ApplyBatch(before.tables, limits, who, batch))
  {
    var outcome := ApplyBatch(before.tables, limits, who, batch);
    RejectionNamesNote(before.tables, limits, who, batch);
    hide ApplyBatch;
    if outcome.BatchAccepted? {
      var more := before.accepted + [AcceptedBatch(batch[0].noteId, outcome.noteVersion)];
      assert more[|before.accepted|].noteId == batch[0].noteId;
      assert IsAccepted(more, n) <==> batch[0].noteId == n || IsAccepted(before.accepted, n) by {
        assert forall a <- before.accepted :: a in more;
        assert more[|before.accepted|] in more;
      }
    } else {
      assert (before.rejected + [outcome.rejected])[..|before.rejected|] == before.rejected;
    }
  }

  lemma {:induction false} UnnamedUnanswered(t: Tables, limits: SnapshotThresholds, who: Caller,
    batches: seq<seq<ClientOperation>>, n: Id)
    requires WellFormed(batches) && !Names(batches, n) && PushAll(t, limits, who, batches).Pushing?
    ensures var p := PushAll(t, limits, who, batches); AnswerFor(p.accepted, p.rejected, n) == NoAnswer
  {
    if batches != [] {
      var k := |batches| - 1;
      WellFormedPrefix(batches, k);
      NamesLast(batches, n);
      PushAllLast(t, limits, who, batches);
      UnnamedUnanswered(t, limits, who, batches[..k], n);
      AnswerNext(PushAll(t, limits, who, batches[..k]), limits, who, batches[k], n);
    }
    hide AnswerFor, Names, WellFormed, PushNext, ApplyBatch;
  }

  lemma {:induction false} UnnamedHasNoBatch(batches: seq<seq<ClientOperation>>, n: Id)
    requires WellFormed(batches)
    ensures Names(batches, n) <==> BatchFor(batches, n) != []
  {
    if batches != [] {
      WellFormedPrefix(batches, |batches| - 1);
      NamesLast(batches, n);
      UnnamedHasNoBatch(batches[..|batches| - 1], n);
    }
    hide Names, WellFormed;
  }
}
