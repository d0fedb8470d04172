/**
 Exactly when a batch is accepted, rejected or failed, and what it then leaves: told by the rows its operations meet one
 after the other, and not through the executor.
 */
module BatchVerdicts {
  import opened Wrappers
  import opened SyncModel
  import opened DirectExecution
  import opened ChangeLog
  import opened Ordering
  import opened Ledger
  import opened Verdicts

  // ---- the tables a batch goes through ----

  /** A known operation changes nothing; any other must be acceptable and writes its rows. */
  ghost predicate Goes(t: Tables, who: Caller, op: ClientOperation, after: Tables) {
    if Known(t, who, op) then after == t else Acceptable(t, who, op) && Wrote(t, who, op, after)
  }

  ghost predicate Path(t: Tables, who: Caller, ops: seq<ClientOperation>, states: seq<Tables>) {
    && |states| == |ops| + 1 && states[0] == t
    && forall i | 0 <= i < |ops| :: Goes(states[i], who, ops[i], states[i + 1])
  }

  /** What an operation writes leaves no choice. */
  lemma WroteOnce(t: Tables, who: Caller, op: ClientOperation, a: Tables, b: Tables)
    requires Acceptable(t, who, op) && Wrote(t, who, op, a) && Wrote(t, who, op, b)
    ensures a == b
  {
    hide Edited, Within, Envelope;
    if op.mutation.CreateNote? {
      var blocks := op.mutation.note.value.blocks;
      forall id | id in a.blocks
        ensures a.blocks[id] == b.blocks[id]
      {
        if id !in t.blocks {
          var p :| p in blocks && p.id == id;
        }
      }
      assert a.blocks == b.blocks;
    }
  }

  lemma PathFront(t: Tables, who: Caller, front: seq<ClientOperation>, op: ClientOperation, states: seq<Tables>)
    requires Path(t, who, front + [op], states)
    ensures Path(t, who, front, states[..|states| - 1])
    ensures Goes(states[|front|], who, op, states[|front| + 1])
  {
    hide Goes;
    var ops := front + [op];
    assert ops[|front|] == op;
    forall i | 0 <= i < |front|
      ensures Goes(states[..|states| - 1][i], who, front[i], states[..|states| - 1][i + 1])
    {
      assert ops[i] == front[i];
      assert Goes(states[i], who, ops[i], states[i + 1]);
    }
  }

  lemma PathNext(t: Tables, who: Caller, front: seq<ClientOperation>, op: ClientOperation, states: seq<Tables>,
    after: Tables)
    requires Path(t, who, front, states) && Goes(states[|front|], who, op, after)
    ensures Path(t, who, front + [op], states + [after])
  {
    hide Goes;
    var ops, more := front + [op], states + [after];
    forall i | 0 <= i < |ops|
      ensures Goes(more[i], who, ops[i], more[i + 1])
    {
      if i < |front| {
        assert Goes(states[i], who, front[i], states[i + 1]);
      }
    }
  }

  // ---- the executor walks that path ----

  /** How much of the log is the batch's: all of it after the first tables, with the last sequence handed out. */
  predicate Counted(t: Tables, after: Tables, changed: bool, cursor: nat) {
    && |after.log| >= |t.log| && after.nextSequence >= 1 && cursor < after.nextSequence
    && (changed <==> |after.log| > |t.log|)
    && cursor == if changed then after.log[|after.log| - 1].sequence else 0
  }

  lemma AdvanceGoes(before: Progress, t: Tables, who: Caller, first: bool, op: ClientOperation)
    requires before.Running? && Counted(t, before.tables, before.changed, before.cursor)
    ensures match Advance(before, who, first, op)
            case Running(after, changed, cursor) =>
              Goes(before.tables, who, op, after) && Counted(t, after, changed, cursor)
            case Stopped(after, r) =>
              after == before.tables && !Known(after, who, op) && RefusedFor(after, who, first, op, r)
            case Aborted(after) => after == before.tables && !Known(after, who, op) && Clashes(after, who, op)
  {
    ApplyIsDeserved(before.tables, who, first, op);
    hide Apply, Acceptable, RefusedFor, Clashes, Known, Rows;
  }

  /** The operation that stops the batch, with the tables it meets. */
  ghost predicate StopsAt(t: Tables, who: Caller, ops: seq<ClientOperation>, states: seq<Tables>, r: Rejection) {
    var k := |states| - 1;
    && 0 <= k < |ops| && Path(t, who, ops[..k], states)
    && !Known(states[k], who, ops[k]) && RefusedFor(states[k], who, k == 0, ops[k], r)
  }

  ghost predicate ClashesAt(t: Tables, who: Caller, ops: seq<ClientOperation>, states: seq<Tables>) {
    var k := |states| - 1;
    && 0 <= k < |ops| && Path(t, who, ops[..k], states)
    && !Known(states[k], who, ops[k]) && Clashes(states[k], who, ops[k])
  }

  lemma {:induction false} Walk(t: Tables, who: Caller, ops: seq<ClientOperation>) returns (states: seq<Tables>)
    requires t.nextSequence >= 1
    ensures match ApplyAll(t, who, ops)
            case Running(after, changed, cursor) =>
              Path(t, who, ops, states) && after == states[|ops|] && Counted(t, after, changed, cursor)
            case Stopped(after, r) => StopsAt(t, who, ops, states, r) && after == states[|states| - 1]
            case Aborted(after) => ClashesAt(t, who, ops, states) && after == states[|states| - 1]
  {
    hide Advance, Goes, RefusedFor, Clashes, Known;
    if ops == [] {
      return [t];
    }
    var k := |ops| - 1;
    var front, op, before := ops[..k], ops[k], ApplyAll(t, who, ops[..k]);
    assert ops == front + [op];
    states := Walk(t, who, front);
    if before.Running? {
      AdvanceGoes(before, t, who, k == 0, op);
      var next := Advance(before, who, k == 0, op);
      if next.Running? {
        PathNext(t, who, front, op, states, next.tables);
        states := states + [next.tables];
      }
    } else {
      StoppedEarlier(t, who, front, op, states);
    }
  }

  lemma StoppedEarlier(t: Tables, who: Caller, front: seq<ClientOperation>, op: ClientOperation, states: seq<Tables>)
    ensures forall r :: StopsAt(t, who, front, states, r) ==> StopsAt(t, who, front + [op], states, r)
    ensures ClashesAt(t, who, front, states) ==> ClashesAt(t, who, front + [op], states)
  {
    hide Path, RefusedFor, Clashes, Known;
    var k := |states| - 1;
    assert 0 <= k < |front| ==> (front + [op])[..k] == front[..k] && (front + [op])[k] == front[k];
  }

  /** There is no other path. */
  lemma {:induction false} PathIsRun(t: Tables, who: Caller, ops: seq<ClientOperation>, states: seq<Tables>)
    requires Path(t, who, ops, states)
    ensures ApplyAll(t, who, ops).Running? && ApplyAll(t, who, ops).tables == states[|ops|]
  {
    hide Goes, Apply;
    if ops == [] {
      return;
    }
    var k := |ops| - 1;
    assert ops == ops[..k] + [ops[k]];
    PathFront(t, who, ops[..k], ops[k], states);
    PathIsRun(t, who, ops[..k], states[..k + 1]);
    OneStep(states[k], who, k == 0, ops[k], states[k + 1]);
  }

  lemma OneStep(t: Tables, who: Caller, first: bool, op: ClientOperation, after: Tables)
    requires Goes(t, who, op, after)
    ensures Apply(t, who, first, op).Applied? || Apply(t, who, first, op).Replayed?
    ensures after == match Apply(t, who, first, op) case Applied(next) => next case _ => t
  {
    ApplyIsDeserved(t, who, first, op);
    hide Apply, Wrote, Acceptable, Known;
    if Apply(t, who, first, op).Applied? {
      WroteOnce(t, who, op, after, Apply(t, who, first, op).tables);
    }
  }

  lemma {:induction false} StaysStopped(t: Tables, who: Caller, ops: seq<ClientOperation>, k: nat)
    requires k <= |ops| && !ApplyAll(t, who, ops[..k]).Running?
    ensures ApplyAll(t, who, ops) == ApplyAll(t, who, ops[..k])
  {
    if k == |ops| {
      assert ops[..k] == ops;
    } else {
      assert ops[..|ops| - 1][..k] == ops[..k];
      StaysStopped(t, who, ops[..|ops| - 1], k);
    }
    hide Advance;
  }

  lemma StopsThere(t: Tables, who: Caller, ops: seq<ClientOperation>, states: seq<Tables>)
    ensures forall r :: StopsAt(t, who, ops, states, r) ==> ApplyAll(t, who, ops) == Stopped(states[|states| - 1], r)
    ensures ClashesAt(t, who, ops, states) ==> ApplyAll(t, who, ops) == Aborted(states[|states| - 1])
  {
    hide Path, Apply, RefusedFor, Clashes, Known, ApplyAll;
    var k := |states| - 1;
    if 0 <= k < |ops| && Path(t, who, ops[..k], states) {
      PathLength(t, who, ops[..k], states);
      PathIsRun(t, who, ops[..k], states);
      ApplyIsDeserved(states[k], who, k == 0, ops[k]);
      NextOf(t, who, ops, k);
      if !ApplyAll(t, who, ops[..k + 1]).Running? {
        StaysStopped(t, who, ops, k + 1);
      }
    }
  }

  lemma PathLength(t: Tables, who: Caller, ops: seq<ClientOperation>, states: seq<Tables>)
    requires Path(t, who, ops, states)
    ensures |states| == |ops| + 1
  {
  }

  lemma NextOf(t: Tables, who: Caller, ops: seq<ClientOperation>, k: nat)
    requires k < |ops| && ApplyAll(t, who, ops[..k]).Running?
    ensures ApplyAll(t, who, ops[..k + 1]) == Advance(ApplyAll(t, who, ops[..k]), who, k == 0, ops[k])
  {
    assert ops[..k + 1][..k] == ops[..k];
    hide Advance;
  }

  // ---- the snapshot job ----

  function TotalBytes(entries: seq<Change>): nat {
    if entries == [] then 0 else TotalBytes(entries[..|entries| - 1]) + entries[|entries| - 1].changeBytes
  }

  /** The note's entries above its latest snapshot. */
  function Unsnapshotted(t: Tables, n: Id): seq<Change> {
    Select(History(t.log, n), AboveVersion(LatestSnapshotVersion(t.snapshots, n)))
  }

  /** An enabled threshold is reached by their number or by their bytes. */
  predicate Due(t: Tables, limits: SnapshotThresholds, n: Id) {
    || (limits.changes > 0 && |Unsnapshotted(t, n)| >= limits.changes)
    || (limits.bytes > 0 && TotalBytes(Unsnapshotted(t, n)) >= limits.bytes)
  }

  lemma TotalAppend(entries: seq<Change>, c: Change)
    ensures TotalBytes(entries + [c]) == TotalBytes(entries) + c.changeBytes
  {
    assert (entries + [c])[..|entries|] == entries;
  }

  lemma NothingCounted(n: Id, version: int)
    ensures CountChangesAfter([], n, version) == 0 && SumBytesAfter([], n, version) == 0
    ensures Select(History([], n), AboveVersion(version)) == [] && TotalBytes([]) == 0
  {
  }

  lemma CountAppend(log: seq<Change>, c: Change, n: Id, version: int)
    ensures CountChangesAfter(log + [c], n, version)
         == CountChangesAfter(log, n, version) + if c.noteId == n && c.resulting > version then 1 else 0
    ensures SumBytesAfter(log + [c], n, version)
         == SumBytesAfter(log, n, version) + if c.noteId == n && c.resulting > version then c.changeBytes else 0
  {
    assert (log + [c])[..|log|] == log;
  }

  /** What the two queries count. */
  lemma {:induction false} QueriesCount(log: seq<Change>, n: Id, version: int)
    ensures CountChangesAfter(log, n, version) == |Select(History(log, n), AboveVersion(version))|
    ensures SumBytesAfter(log, n, version) == TotalBytes(Select(History(log, n), AboveVersion(version)))
  {
    hide Select, TotalBytes, CountChangesAfter, SumBytesAfter;
    if log == [] {
      NothingCounted(n, version);
      return;
    }
    var front, last := log[..|log| - 1], log[|log| - 1];
    assert log == front + [last];
    QueriesCount(front, n, version);
    CountAppend(front, last, n, version);
    SelectAppend(front, last, OfNote(n));
    SelectAppend(History(front, n), last, AboveVersion(version));
    TotalAppend(Select(History(front, n), AboveVersion(version)), last);
  }

  lemma EnqueuesWhenDue(t: Tables, limits: SnapshotThresholds, n: Id, owner: Id, version: int)
    ensures EnqueueSnapshotIfNeeded(t, limits, n, owner, version)
         == t.(jobs := if Due(t, limits, n) then t.jobs + [SnapshotPayload(n, owner, version)] else t.jobs)
  {
    QueriesCount(t.log, n, LatestSnapshotVersion(t.snapshots, n));
    hide CountChangesAfter, SumBytesAfter, TotalBytes, Select, LatestSnapshotVersion;
  }

  // ---- what a batch leaves ----

  /**
   All its rows; for a note that got an entry, the version once more and a snapshot job when one is due; the note's
   version and the last sequence as the answer.
   */
  predicate Finished(t: Tables, limits: SnapshotThresholds, who: Caller, n: Id, last: Tables, outcome: BatchOutcome) {
    var written := |last.log| > |t.log|;
    && outcome.BatchAccepted?
    && (if n != NIL && written then
          && Mine(last, who, n)
          && var version := last.notes[n].version + 1;
             outcome.tables == last.(
               notes := last.notes[n := last.notes[n].(version := version)],
               jobs := if Due(last, limits, n) then last.jobs + [SnapshotPayload(n, who.owner, version)] else last.jobs)
        else outcome.tables == last)
    && outcome.noteVersion == (if n != NIL && Mine(outcome.tables, who, n) then outcome.tables.notes[n].version else 0)
    && outcome.cursor == (if written then last.log[|last.log| - 1].sequence else 0)
  }

  /** Nothing but consumed sequences, and the rejection with the caller's note as it is stored. */
  predicate TurnedDown(t: Tables, who: Caller, n: Id, last: Tables, r: Rejection, outcome: BatchOutcome) {
    var mine := n != NIL && Mine(t, who, n);
    && outcome.BatchRejected? && outcome.tables == t.(nextSequence := last.nextSequence)
    && outcome.rejected == BatchRejection(n, r.reason, r.clientVersion,
         if mine && r.serverVersion == 0 then t.notes[n].version else r.serverVersion,
         if mine then Some(Snapshot(Present(t.notes[n], BlocksOfNote(t, n)), LastCursor(t.log, n))) else None)
  }

  /** After an entry of a note batch the note is the caller's. */
  lemma {:induction false} WrittenIsMine(t: Tables, who: Caller, ops: seq<ClientOperation>, states: seq<Tables>, n: Id)
    requires Path(t, who, ops, states) && n != NIL && forall op <- ops :: op.noteId == n
    ensures |states[|ops|].log| >= |t.log| && (|states[|ops|].log| > |t.log| ==> Mine(states[|ops|], who, n))
  {
    if ops == [] {
      return;
    }
    var k := |ops| - 1;
    assert ops == ops[..k] + [ops[k]];
    PathFront(t, who, ops[..k], ops[k], states);
    hide Path;
    WrittenIsMine(t, who, ops[..k], states[..k + 1], n);
    OneWritten(states[k], who, ops[k], states[k + 1]);
  }

  lemma OneWritten(t: Tables, who: Caller, op: ClientOperation, after: Tables)
    requires Goes(t, who, op, after) && op.noteId != NIL
    ensures |after.log| >= |t.log|
    ensures Mine(t, who, op.noteId) || |after.log| > |t.log| ==> Mine(after, who, op.noteId)
  {
    hide Edited, Within, Room;
  }

  lemma AcceptedFinishes(t: Tables, limits: SnapshotThresholds, who: Caller, ops: seq<ClientOperation>,
    states: seq<Tables>)
    requires t.nextSequence >= 1 && OneNote(ops) && Path(t, who, ops, states)
    ensures Finished(t, limits, who, ops[0].noteId, states[|ops|], ApplyBatch(t, limits, who, ops))
  {
    var n, last := ops[0].noteId, states[|ops|];
    PathIsRun(t, who, ops, states);
    var walked := Walk(t, who, ops);
    if n != NIL {
      WrittenIsMine(t, who, ops, states, n);
      if n in last.notes {
        EnqueuesWhenDue(BumpVersion(last, n), limits, n, who.owner, last.notes[n].version + 1);
      }
    }
    hide Path, ApplyAll, Due, EnqueueSnapshotIfNeeded;
    if n in last.notes {
      DueUnbumped(last, limits, n);
    }
  }

  lemma DueUnbumped(t: Tables, limits: SnapshotThresholds, n: Id)
    requires n in t.notes
    ensures Due(BumpVersion(t, n), limits, n) == Due(t, limits, n)
  {
  }

  lemma RejectedTurnsDown(t: Tables, limits: SnapshotThresholds, who: Caller, ops: seq<ClientOperation>, last: Tables,
    r: Rejection)
    requires ops != [] && ApplyAll(t, who, ops) == Stopped(last, r)
    ensures TurnedDown(t, who, ops[0].noteId, last, r, ApplyBatch(t, limits, who, ops))
  {
    var n := ops[0].noteId;
    assert BlocksOfNote(t.(nextSequence := last.nextSequence), n) == BlocksOfNote(t, n);
    hide ApplyAll;
  }

  /**
   Whatever the tables and the operations, the batch is accepted exactly when each operation in turn is known or
   acceptable, rejected exactly when one is refused, and failed exactly when a category clashes; and it leaves exactly
   that.
   */
  lemma BatchIsDeserved(t: Tables, limits: SnapshotThresholds, who: Caller, ops: seq<ClientOperation>)
    requires t.nextSequence >= 1 && OneNote(ops)
    ensures var outcome, n := ApplyBatch(t, limits, who, ops), ops[0].noteId;
            && (outcome.BatchAccepted? <==> exists states :: Path(t, who, ops, states))
            && (forall states :: Path(t, who, ops, states) ==> Finished(t, limits, who, n, states[|ops|], outcome))
            && (outcome.BatchRejected? <==> exists states, r :: StopsAt(t, who, ops, states, r))
            && (forall states, r :: StopsAt(t, who, ops, states, r) ==>
                  TurnedDown(t, who, n, states[|states| - 1], r, outcome))
            && (outcome.BatchFailed? <==> exists states :: ClashesAt(t, who, ops, states))
            && (outcome.BatchFailed? ==> outcome.tables == t.(nextSequence := outcome.tables.nextSequence))
  {
    var outcome, n := ApplyBatch(t, limits, who, ops), ops[0].noteId;
    var walked := Walk(t, who, ops);
    OutcomeOf(t, limits, who, ops);
    hide ApplyBatch, ApplyAll, Path, StopsAt, ClashesAt, Finished, TurnedDown;
    forall states | Path(t, who, ops, states)
      ensures Finished(t, limits, who, n, states[|ops|], outcome) && outcome.BatchAccepted?
    {
      AcceptedFinishes(t, limits, who, ops, states);
      PathIsRun(t, who, ops, states);
    }
    forall states, r | StopsAt(t, who, ops, states, r)
      ensures TurnedDown(t, who, n, states[|states| - 1], r, outcome) && outcome.BatchRejected?
    {
      StopsThere(t, who, ops, states);
      RejectedTurnsDown(t, limits, who, ops, states[|states| - 1], r);
    }
    forall states | ClashesAt(t, who, ops, states)
      ensures outcome.BatchFailed?
    {
      StopsThere(t, who, ops, states);
    }
  }

  lemma OutcomeOf(t: Tables, limits: SnapshotThresholds, who: Caller, ops: seq<ClientOperation>)
    requires ops != []
    ensures var outcome := ApplyBatch(t, limits, who, ops);
            && (outcome.BatchAccepted? <==> ApplyAll(t, who, ops).Running?)
            && (outcome.BatchRejected? <==> ApplyAll(t, who, ops).Stopped?)
            && (outcome.BatchFailed? <==> ApplyAll(t, who, ops).Aborted?)
            && (outcome.BatchFailed? ==> outcome.tables == t.(nextSequence := outcome.tables.nextSequence))
  {
    hide ApplyAll;
  }
}
