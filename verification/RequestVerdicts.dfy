/**
 What a whole request is answered: which error and when, what a push reports and publishes, what a page holds; and what
 a revoked device can still do, in every run.
 */
module RequestVerdicts {
  import opened Wrappers
  import opened SyncModel
  import opened SyncStore
  import opened DirectExecution
  import opened ChangeLog
  import opened Ordering
  import opened Ledger
  import opened Transactions
  import opened Runs
  import opened Requests
  import opened Retry
  import opened PullFeed
  import opened Resend
  import opened Verdicts
  import opened BatchVerdicts

  // ---- errors ----

  predicate SoundDevice(device: string) {
    0 < |device| <= 30
  }

  /** The device row is there and the caller's. */
  predicate MyDevice(t: Tables, owner: Id, device: string) {
    device in t.devices && t.devices[device].owner == owner
  }

  /** The error that the request's own fields and the device row call for, if any. */
  predicate Refuses(t: Tables, owner: Id, device: string, sound: bool, error: RequestError) {
    match error
    case BadRequest => !sound
    case Forbidden => sound && !MyDevice(t, owner, device)
    case DeviceRevoked => sound && MyDevice(t, owner, device) && t.devices[device].revoked
    case ServerError => false
  }

  predicate SoundPush(config: Config, request: Request) {
    request.protocolVersion == 1 && SoundDevice(request.deviceId) && |request.operations| <= config.maxOperations
  }

  /** The request's first batch, the one of its category operations, meets a category id or name that is taken. */
  ghost predicate CategoriesClash(t: Tables, owner: Id, request: Request) {
    var batches := RequestBatches(request);
    && batches != []
    && exists states :: ClashesAt(t, Caller(owner, request.deviceId), batches[0], states)
  }

  lemma LaterNotes(batches: seq<seq<ClientOperation>>, k: nat)
    requires WellFormed(batches) && 0 < k < |batches|
    ensures batches[k] != [] && batches[k][0].noteId != NIL
  {
    assert batches[0][0].noteId < batches[k][0].noteId;
  }

  lemma ClashIsFirst(t: Tables, who: Caller, batches: seq<seq<ClientOperation>>, k: nat, u: Tables, states: seq<Tables>)
    requires WellFormed(batches) && k < |batches| && ClashesAt(u, who, batches[k], states)
    ensures k == 0
  {
    hide Path, Target, NameRoom, Payload;
    var op := batches[k][|states| - 1];
    assert op in batches[k] && OneNote(batches[k]) && op.noteId == NIL;
    if k > 0 {
      LaterNotes(batches, k);
    }
  }

  /** Only the first batch can fail. */
  lemma {:induction false} FailsFirst(t: Tables, limits: SnapshotThresholds, who: Caller,
    batches: seq<seq<ClientOperation>>)
    requires Good(t) && WellFormed(batches)
    ensures PushAll(t, limits, who, batches).PushFailed?
       <==> batches != [] && ApplyBatch(t, limits, who, batches[0]).BatchFailed?
  {
    hide ApplyBatch, Good, OneNote;
    if batches == [] {
      return;
    }
    var k := |batches| - 1;
    var front := batches[..k];
    WellFormedPrefix(batches, k);
    FailsFirst(t, limits, who, front);
    PushAllKeeps(t, limits, who, front);
    var before := PushAll(t, limits, who, front);
    if k == 0 {
      assert before == Pushing(t, [], [], 0);
    } else {
      assert front[0] == batches[0];
      if before.Pushing? {
        LaterBatchEnds(before.tables, limits, who, batches, k);
      }
    }
  }

  lemma LaterBatchEnds(t: Tables, limits: SnapshotThresholds, who: Caller, batches: seq<seq<ClientOperation>>, k: nat)
    requires Good(t) && WellFormed(batches) && 0 < k < |batches|
    ensures !ApplyBatch(t, limits, who, batches[k]).BatchFailed?
  {
    assert OneNote(batches[k]);
    BatchIsDeserved(t, limits, who, batches[k]);
    hide ApplyBatch, ClashesAt, Good, Finished, TurnedDown, Path, StopsAt;
    if ApplyBatch(t, limits, who, batches[k]).BatchFailed? {
      var states :| ClashesAt(t, who, batches[k], states);
      ClashIsFirst(t, who, batches, k, t, states);
    }
  }

  lemma ClashFails(t: Tables, config: Config, owner: Id, request: Request)
    requires Good(t)
    ensures var batches := RequestBatches(request);
            && WellFormed(batches)
            && var p := PushAll(t, config.limits, Caller(owner, request.deviceId), batches);
               p.PushFailed? <==> CategoriesClash(t, owner, request)
  {
    hide PushAll, ApplyBatch, RequestBatches, ClashesAt, Finished, TurnedDown, Path, StopsAt;
    var who, batches := Caller(owner, request.deviceId), RequestBatches(request);
    RequestBatchesWellFormed(request);
    FailsFirst(t, config.limits, who, batches);
    if batches != [] {
      assert OneNote(batches[0]);
      BatchIsDeserved(t, config.limits, who, batches[0]);
    }
  }

  /** Exactly which error a push gets: for its fields, for its device, or for a category that clashes. */
  lemma PushErrors(t: Tables, config: Config, owner: Id, request: Request)
    requires Good(t)
    ensures var result, sound := Push(t, config, owner, request), SoundPush(config, request);
            forall error ::
              (result.PushError? && result.error == error) <==>
                || Refuses(t, owner, request.deviceId, sound, error)
                || (error == ServerError && sound && MyDevice(t, owner, request.deviceId)
                    && !t.devices[request.deviceId].revoked && CategoriesClash(t, owner, request))
  {
    hide PushAll, RequestBatches, CategoriesClash, Good;
    ClashFails(t, config, owner, request);
  }

  predicate SoundPull(request: PullRequest) {
    request.protocolVersion == 1 && SoundDevice(request.deviceId) && request.cursor >= 0
  }

  function Least(a: nat, b: nat): nat {
    if a <= b then a else b
  }

  function Most(a: int, b: int): int {
    if a >= b then a else b
  }

  /** Exactly which error a pull gets. */
  lemma PullErrors(t: Tables, config: Config, owner: Id, request: PullRequest)
    ensures var result := Pull(t, config, owner, request);
            forall error ::
              (result.PullError? && result.error == error) <==>
                Refuses(t, owner, request.deviceId, SoundPull(request), error)
  {
    hide PageOf, WithDeviceCursor;
  }

  /**
   What a pull gets otherwise: the window of the caller's feed without its own entries, as many as the configured limits
   allow, with the device's cursor moved forward and nothing else written.
   */
  lemma PullAnswers(t: Tables, config: Config, owner: Id, request: PullRequest)
    requires Good(t) && Pull(t, config, owner, request).Pulled?
    ensures var result, device := Pull(t, config, owner, request), request.deviceId;
            var page, feed := result.page, Select(t.log, Feed(owner, device, request.cursor));
            && MyDevice(t, owner, device)
            && page.changes == Select(t.log, Window(owner, device, request.cursor, page.nextCursor))
            && |page.changes| == Least(|feed|, Least(config.defaultPullLimit, config.maxPullLimit))
            && (page.hasMore <==> |feed| > |page.changes|)
            && var row := t.devices[device];
               result.tables == t.(devices :=
                 t.devices[device := Device(owner, Most(row.cursor, page.nextCursor), row.revoked)])
  {
    hide PageOf, Select;
    PagePart(t, owner, request.deviceId, request.cursor, config.PullLimit());
    var device := request.deviceId;
    assert device in t.devices ==> t.devices == t.devices[device := t.devices[device]];
  }

  /**
   The same on the entries themselves: a page holds, in rising order, exactly the caller's entries by other devices
   between the two cursors; the new cursor is the last one's sequence; and there is more exactly when such an entry lies
   beyond it.
   */
  lemma PullServes(t: Tables, config: Config, owner: Id, request: PullRequest)
    requires Good(t) && Pull(t, config, owner, request).Pulled?
    ensures Serves(t.log, owner, request.deviceId, request.cursor, Pull(t, config, owner, request).page)
  {
    PageServes(t.log, owner, request.deviceId, request.cursor, config.PullLimit());
    hide PageOf, Serves;
  }

  ghost predicate Serves(log: seq<Change>, owner: Id, device: string, cursor: int, page: Page) {
    && (forall i, j | 0 <= i < j < |page.changes| :: page.changes[i].sequence < page.changes[j].sequence)
    && (forall c :: c in page.changes <==>
          c in log && c.owner == owner && c.device != device && cursor < c.sequence <= page.nextCursor)
    && page.nextCursor == (if page.changes == [] then cursor else page.changes[|page.changes| - 1].sequence)
    && (page.hasMore <==> exists c <- log :: c.owner == owner && c.device != device && c.sequence > page.nextCursor)
  }

  lemma PageServes(log: seq<Change>, owner: Id, device: string, cursor: int, limit: nat)
    requires Increasing(log)
    ensures Serves(log, owner, device, cursor, PageOf(log, owner, device, cursor, limit))
  {
    var page := PageOf(log, owner, device, cursor, limit);
    assert page.nextCursor == NextCursor(cursor, page.changes);
    hide PageOf, NextCursor, Select, Serves;
    PageIsWindow(log, owner, device, cursor, limit);
    WindowServes(log, owner, device, cursor, page);
  }

  lemma WindowServes(log: seq<Change>, owner: Id, device: string, cursor: int, page: Page)
    requires Increasing(log) && page.nextCursor == NextCursor(cursor, page.changes)
    requires page.changes == Select(log, Window(owner, device, cursor, page.nextCursor))
    requires page.hasMore <==> Select(log, Feed(owner, device, page.nextCursor)) != []
    ensures Serves(log, owner, device, cursor, page)
  {
    hide Select, NextCursor;
    var rest := Feed(owner, device, page.nextCursor);
    SelectMembers(log, Window(owner, device, cursor, page.nextCursor));
    SelectMembers(log, rest);
    SelectIncreasing(log, Window(owner, device, cursor, page.nextCursor));
    LastIsCursor(page.changes, cursor);
    assert page.hasMore ==> Select(log, rest)[0] in Select(log, rest);
  }

  lemma LastIsCursor(changes: seq<Change>, cursor: int)
    requires Increasing(changes) && forall c <- changes :: c.sequence > cursor
    ensures NextCursor(cursor, changes) == if changes == [] then cursor else changes[|changes| - 1].sequence
  {
    var next := NextCursor(cursor, changes);
    if changes != [] {
      assert changes[|changes| - 1] in changes && next > cursor;
      var c :| c in changes && c.sequence == next;
    }
  }

  lemma PagePart(t: Tables, owner: Id, device: string, cursor: int, limit: nat)
    requires Good(t)
    ensures var page, feed := PageOf(t.log, owner, device, cursor, limit), Select(t.log, Feed(owner, device, cursor));
            && page.changes == Select(t.log, Window(owner, device, cursor, page.nextCursor))
            && |page.changes| == Least(|feed|, limit) && (page.hasMore <==> |feed| > |page.changes|)
  {
    PageIsWindow(t.log, owner, device, cursor, limit);
    hide Select;
  }

  /** Exactly which error the availability check gives, and that it answers whether a later entry is there. */
  lemma CheckAnswers(t: Tables, owner: Id, request: CheckRequest)
    ensures var result, device := Check(t, owner, request), request.deviceId;
            var sound := request.protocolVersion == 1 && SoundDevice(device);
            && (forall error ::
                  (result.CheckError? && result.error == error) <==> Refuses(t, owner, device, sound, error))
            && (result.Checked? ==>
                  && MyDevice(t, owner, device)
                  && (result.available <==>
                        exists c <- t.log :: c.owner == owner && c.device != device &&
                          c.sequence > t.devices[device].cursor))
  {
    var device := request.deviceId;
    if device in t.devices {
      assert UpdatesAvailable(t, owner, device) <==>
          exists c <- t.log :: c.owner == owner && c.device != device && c.sequence > t.devices[device].cursor;
    }
  }

  // ---- what a push reports ----

  /** The cursor to publish so far: the last sequence the request has taken. */
  predicate PublishesLast(t: Tables, p: PushProgress) {
    p.Pushing? ==>
      && |p.tables.log| >= |t.log| && p.tables.log[..|t.log|] == t.log
      && p.cursor == if |p.tables.log| > |t.log| then p.tables.log[|p.tables.log| - 1].sequence else 0
  }

  /** Appending entries with larger sequences moves the last sequence forward. */
  lemma LastMoves(first: seq<Change>, log: seq<Change>, after: seq<Change>, cursor: nat, taken: nat)
    requires |first| <= |log| <= |after| && log[..|first|] == first && after[..|log|] == log
    requires cursor == if |log| > |first| then log[|log| - 1].sequence else 0
    requires taken == if |after| > |log| then after[|after| - 1].sequence else 0
    requires |log| > 0 && |after| > |log| ==> after[|after| - 1].sequence > log[|log| - 1].sequence
    ensures after[..|first|] == first
    ensures (if taken > cursor then taken else cursor)
         == if |after| > |first| then after[|after| - 1].sequence else 0
  {
    assert after[..|first|] == after[..|log|][..|first|];
  }

  lemma TakenSequences(t: Tables, limits: SnapshotThresholds, who: Caller, batch: seq<ClientOperation>)
    requires Good(t) && OneNote(batch) && ApplyBatch(t, limits, who, batch).BatchAccepted?
    ensures var outcome := ApplyBatch(t, limits, who, batch); var after := outcome.tables.log;
            && |after| >= |t.log| && after[..|t.log|] == t.log
            && outcome.cursor == (if |after| > |t.log| then after[|after| - 1].sequence else 0)
            && (|t.log| > 0 && |after| > |t.log| ==> after[|after| - 1].sequence > t.log[|t.log| - 1].sequence)
  {
    hide ApplyBatch, DocumentOf, KeepsRows;
    BatchSettles(t, limits, who, batch);
    var after := ApplyBatch(t, limits, who, batch).tables.log;
    if |after| > |t.log| {
      assert NewEntry(after[|after| - 1], t, who, batch[0].noteId);
    }
    if |t.log| > 0 {
      assert t.log[|t.log| - 1] in t.log;
    }
  }

  lemma PublishNext(t: Tables, before: PushProgress, limits: SnapshotThresholds, who: Caller,
    batch: seq<ClientOperation>)
    requires before.Pushing? && Good(before.tables) && OneNote(batch) && PublishesLast(t, before)
    ensures PublishesLast(t, PushNext(before, limits, who, batch))
  {
    hide ApplyBatch, Good;
    var outcome := ApplyBatch(before.tables, limits, who, batch);
    if outcome.BatchAccepted? {
      TakenSequences(before.tables, limits, who, batch);
      LastMoves(t.log, before.tables.log, outcome.tables.log, before.cursor, outcome.cursor);
    } else {
      RejectionRollsBack(before.tables, limits, who, batch);
    }
  }

  lemma {:induction false} PushPublishesLast(t: Tables, limits: SnapshotThresholds, who: Caller,
    batches: seq<seq<ClientOperation>>)
    requires Good(t) && WellFormed(batches)
    ensures PublishesLast(t, PushAll(t, limits, who, batches))
  {
    hide ApplyBatch, Good, OneNote, PublishesLast, PushNext;
    if batches == [] {
      NothingPublished(t);
      return;
    }
    var k := |batches| - 1;
    WellFormedPrefix(batches, k);
    PushPublishesLast(t, limits, who, batches[..k]);
    PushAllKeeps(t, limits, who, batches[..k]);
    if PushAll(t, limits, who, batches[..k]).Pushing? {
      PublishNext(t, PushAll(t, limits, who, batches[..k]), limits, who, batches[k]);
    } else {
      FailedPublishes(t, PushAll(t, limits, who, batches[..k]));
    }
  }

  lemma NothingPublished(t: Tables)
    ensures PublishesLast(t, Pushing(t, [], [], 0))
  {
  }

  lemma FailedPublishes(t: Tables, p: PushProgress)
    requires p.PushFailed?
    ensures PublishesLast(t, p)
  {
  }

  /** A push publishes the last sequence it committed, and nothing when it committed none. */
  lemma PublishedIsLast(t: Tables, config: Config, owner: Id, request: Request)
    requires Good(t)
    ensures var result := Push(t, config, owner, request);
            result.Pushed? ==>
              var log := result.tables.log;
              && |log| >= |t.log| && log[..|t.log|] == t.log
              && result.published == if |log| > |t.log| then Some(log[|log| - 1].sequence) else None
  {
    hide PushAll, RequestBatches, Good, Later;
    RequestBatchesWellFormed(request);
    PushPublishesLast(t, config.limits, Caller(owner, request.deviceId), RequestBatches(request));
    PushKeeps(t, config, owner, request);
    var result := Push(t, config, owner, request);
    if result.Pushed? && |result.tables.log| > |t.log| {
      SequencePositive(result.tables);
    }
  }

  lemma SequencePositive(t: Tables)
    requires Good(t) && t.log != []
    ensures t.log[|t.log| - 1].sequence >= 1
  {
    assert t.log[|t.log| - 1] in t.log;
  }

  // ---- the answers, note by note ----

  /** The version of a note as its owner sees it. */
  function VersionSeen(t: Tables, owner: Id, n: Id): int {
    if n in t.notes && t.notes[n].owner == owner then t.notes[n].version else 0
  }

  /** The answers so far: each list in note order, all below the next note, accepted versions as stored. */
  ghost predicate AnswersSoFar(p: PushProgress, owner: Id, next: Id) {
    p.Pushing? ==>
      && (forall i, j | 0 <= i < j < |p.accepted| :: p.accepted[i].noteId < p.accepted[j].noteId)
      && (forall i, j | 0 <= i < j < |p.rejected| :: p.rejected[i].noteId < p.rejected[j].noteId)
      && (forall a <- p.accepted ::
            a.noteId < next && a.serverNoteVersion == if a.noteId == NIL then 0
              else VersionSeen(p.tables, owner, a.noteId))
      && (forall r <- p.rejected :: r.noteId < next)
  }

  lemma AnswerAdded(before: PushProgress, limits: SnapshotThresholds, who: Caller, batch: seq<ClientOperation>,
    next: Id)
    requires before.Pushing? && Good(before.tables) && OneNote(batch) && batch[0].noteId < next
    requires AnswersSoFar(before, who.owner, batch[0].noteId)
    ensures AnswersSoFar(PushNext(before, limits, who, batch), who.owner, next)
  {
    hide ApplyBatch, Good, DocumentOf, History;
    var n, outcome := batch[0].noteId, ApplyBatch(before.tables, limits, who, batch);
    var after := PushNext(before, limits, who, batch);
    RejectionNamesNote(before.tables, limits, who, batch);
    forall a | a in before.accepted
      ensures VersionSeen(outcome.tables, who.owner, a.noteId) == VersionSeen(before.tables, who.owner, a.noteId)
    {
      BatchLeavesOthers(before.tables, limits, who, batch, a.noteId);
      SameVersionSeen(before.tables, outcome.tables, who.owner, a.noteId);
    }
    if outcome.BatchAccepted? {
      AcceptedVersion(before.tables, limits, who, batch);
      var last := AcceptedBatch(n, outcome.noteVersion);
      assert after.accepted == before.accepted + [last];
      assert forall i | 0 <= i < |before.accepted| ::
        after.accepted[i] == before.accepted[i] && before.accepted[i] in before.accepted;
    } else if outcome.BatchRejected? {
      assert after.rejected == before.rejected + [outcome.rejected];
      assert forall i | 0 <= i < |before.rejected| ::
        after.rejected[i] == before.rejected[i] && before.rejected[i] in before.rejected;
    }
  }

  lemma SameVersionSeen(t: Tables, after: Tables, owner: Id, n: Id)
    requires DocumentOf(after, n) == DocumentOf(t, n)
    ensures VersionSeen(after, owner, n) == VersionSeen(t, owner, n)
  {
  }

  lemma AcceptedVersion(t: Tables, limits: SnapshotThresholds, who: Caller, batch: seq<ClientOperation>)
    requires Good(t) && OneNote(batch) && ApplyBatch(t, limits, who, batch).BatchAccepted?
    ensures var outcome, n := ApplyBatch(t, limits, who, batch), batch[0].noteId;
            outcome.noteVersion == if n == NIL then 0 else VersionSeen(outcome.tables, who.owner, n)
  {
    hide Path, Finished, StopsAt, TurnedDown, ClashesAt, ApplyBatch;
    BatchIsDeserved(t, limits, who, batch);
    var states :| Path(t, who, batch, states);
    PathLength(t, who, batch, states);
    FinishedVersion(t, limits, who, batch[0].noteId, states[|batch|], ApplyBatch(t, limits, who, batch));
  }

  lemma FinishedVersion(t: Tables, limits: SnapshotThresholds, who: Caller, n: Id, last: Tables, outcome: BatchOutcome)
    requires Finished(t, limits, who, n, last, outcome)
    ensures outcome.BatchAccepted? && outcome.noteVersion == if n == NIL then 0
        else VersionSeen(outcome.tables, who.owner, n)
  {
  }

  lemma {:induction false} AnswersInOrder(t: Tables, limits: SnapshotThresholds, who: Caller,
    batches: seq<seq<ClientOperation>>, next: Id)
    requires Good(t) && WellFormed(batches) && (batches != [] ==> batches[|batches| - 1][0].noteId < next)
    ensures AnswersSoFar(PushAll(t, limits, who, batches), who.owner, next)
  {
    hide ApplyBatch, Good, OneNote, AnswersSoFar, PushNext;
    if batches == [] {
      NoAnswers(t, who.owner, next);
      return;
    }
    var k := |batches| - 1;
    WellFormedPrefix(batches, k);
    AnswersInOrder(t, limits, who, batches[..k], batches[k][0].noteId);
    PushAllKeeps(t, limits, who, batches[..k]);
    if PushAll(t, limits, who, batches[..k]).Pushing? {
      AnswerAdded(PushAll(t, limits, who, batches[..k]), limits, who, batches[k], next);
    } else {
      FailedAnswers(PushAll(t, limits, who, batches[..k]), who.owner, next);
    }
  }

  lemma NoAnswers(t: Tables, owner: Id, next: Id)
    ensures AnswersSoFar(Pushing(t, [], [], 0), owner, next)
  {
  }

  lemma FailedAnswers(p: PushProgress, owner: Id, next: Id)
    requires p.PushFailed?
    ensures AnswersSoFar(p, owner, next)
  {
  }

  /** The accepted and the rejected notes come in note order, and an accepted note is reported at its stored version. */
  lemma PushReports(t: Tables, config: Config, owner: Id, request: Request)
    requires Good(t)
    ensures var result := Push(t, config, owner, request);
            result.Pushed? ==>
              && (forall i, j | 0 <= i < j < |result.accepted| :: result.accepted[i].noteId < result.accepted[j].noteId)
              && (forall i, j | 0 <= i < j < |result.rejected| :: result.rejected[i].noteId < result.rejected[j].noteId)
              && (forall a <- result.accepted ::
                    a.serverNoteVersion == if a.noteId == NIL then 0 else VersionSeen(result.tables, owner, a.noteId))
  {
    hide PushAll, RequestBatches, Good;
    RequestBatchesWellFormed(request);
    var batches: seq<seq<ClientOperation>> := RequestBatches(request);
    var next := if batches == [] then 1 else batches[|batches| - 1][0].noteId + 1;
    AnswersInOrder(t, config.limits, Caller(owner, request.deviceId), batches, next);
  }

  // ---- devices over runs ----

  /** A registration adds a device of the caller at cursor 0, or leaves a device of that id alone. */
  lemma RegisterTakesEffect(t: Tables, config: Config, owner: Id, device: string)
    ensures Execute(t, config, RegisterTx(owner, device))
         == t.(devices := t.devices[device := if device in t.devices then t.devices[device]
           else Device(owner, 0, false)])
  {
    assert device in t.devices ==> t.devices == t.devices[device := t.devices[device]];
  }

  /** A revocation takes effect on the caller's own device only, and keeps its cursor. */
  lemma RevokeTakesEffect(t: Tables, config: Config, owner: Id, device: string)
    ensures var after := Execute(t, config, RevokeTx(owner, device));
            if MyDevice(t, owner, device)
            then after == t.(devices := t.devices[device := Device(owner, t.devices[device].cursor, true)])
            else after == t
  {
  }

  /** What one transaction does about a device that is already revoked: nothing. */
  lemma RevokedStep(t: Tables, config: Config, tx: Transaction, device: string)
    requires Good(t) && device in t.devices && t.devices[device].revoked
    ensures var after := Execute(t, config, tx);
            && device in after.devices && after.devices[device] == t.devices[device]
            && |t.log| <= |after.log| && after.log[..|t.log|] == t.log
            && forall i | |t.log| <= i < |after.log| :: after.log[i].device != device
  {
    hide PushAll, Good, RequestBatches, PageOf, CreateSnapshot, InBatches, Later;
    match tx {
      case PushTx(owner, request) =>
        PushKeeps(t, config, owner, request);
        if Push(t, config, owner, request).Pushed? {
          RequestBatchesWellFormed(request);
          PushRecords(t, config.limits, Caller(owner, request.deviceId), RequestBatches(request));
        }
      case SnapshotTx(payload) => CreateSnapshotKeeps(t, payload);
      case _ =>
    }
  }

  /** In every run: once a device is revoked, no transaction moves its cursor, frees it, or adds an entry of its. */
  lemma {:induction false} RevokedStaysOut(config: Config, txs: seq<Transaction>, more: seq<Transaction>,
    device: string)
    requires device in RunAll(config, txs).devices && RunAll(config, txs).devices[device].revoked
    ensures var t, after := RunAll(config, txs), RunAll(config, txs + more);
            && device in after.devices && after.devices[device] == t.devices[device]
            && |t.log| <= |after.log| && after.log[..|t.log|] == t.log
            && forall i | |t.log| <= i < |after.log| :: after.log[i].device != device
  {
    hide Execute, Good;
    if more == [] {
      assert txs + more == txs;
      return;
    }
    var front, last := more[..|more| - 1], more[|more| - 1];
    assert (txs + more)[..|txs + more| - 1] == txs + front;
    RevokedStaysOut(config, txs, front, device);
    EveryRunIsGood(config, txs + front);
    var t, mid, after := RunAll(config, txs), RunAll(config, txs + front), RunAll(config, txs + more);
    RevokedStep(mid, config, last, device);
    hide RunAll;
    LogsJoin(t.log, mid.log, after.log, device);
  }

  lemma LogsJoin(a: seq<Change>, b: seq<Change>, c: seq<Change>, device: string)
    requires |a| <= |b| <= |c| && b[..|a|] == a && c[..|b|] == b
    requires forall i | |a| <= i < |b| :: b[i].device != device
    requires forall i | |b| <= i < |c| :: c[i].device != device
    ensures c[..|a|] == a && forall i | |a| <= i < |c| :: c[i].device != device
  {
    assert c[..|a|] == c[..|b|][..|a|];
    forall i | |a| <= i < |c|
      ensures c[i].device != device
    {
      assert i < |b| ==> c[i] == c[..|b|][i];
    }
  }
}
