/**
 Devices converge. One device pushes, pulls, adopts rejected notes and resends what was not answered, by the documented
 protocol, while the server runs any other transactions and requests and replies get lost; whenever a pull says there is
 no more, the device's copy of every note is the server's.
 */
module Convergence {
  import opened Wrappers
  import opened SyncModel
  import opened SyncStore
  import opened DirectExecution
  import opened ChangeLog
  import opened Ordering
  import opened Ledger
  import opened Transactions
  import opened Runs
  import opened Requests
  import opened Retry
  import opened PullFeed
  import opened Replica
  import opened ClientState
  import opened Resend

  // ---- the device and the server together ----

  datatype System = System(tables: Tables, client: Client)

  /** How far a request gets: not to the server, there but without its reply, or there and back. */
  datatype Delivery = RequestLost | ReplyLost | Answered

  /** Any other transaction of the server, the device's next pull, or the device sending operations. */
  datatype Action =
    | Others(tx: Transaction)
    | PullNext
    | Send(operations: seq<ClientOperation>, delivery: Delivery)

  function RequestOf(who: Caller, operations: seq<ClientOperation>): Request {
    Request(PROTOCOL_VERSION, who.device, operations)
  }

  /** An error reply says nothing about an earlier, unanswered delivery of the same operations. */
  function AfterReply(c: Client, who: Caller, operations: seq<ClientOperation>, result: PushResult): Client {
    match result
    case Pushed(_, accepted, rejected, _) => AfterPush(c, who, operations, accepted, rejected)
    case PushError(_, _) => c
  }

  ghost function Act(config: Config, who: Caller, s: System, a: Action): System {
    match a
    case Others(tx) => s.(tables := Execute(s.tables, config, tx))
    case PullNext =>
      (match PullOf(config, who, s)
       case Pulled(after, page) => System(after, AfterPull(s.client, page))
       case PullError(_) => s)
    case Send(operations, delivery) =>
      var result := Push(s.tables, config, who.owner, RequestOf(who, operations));
      match delivery
      case RequestLost => s.(client := s.client.(unanswered := Some(operations)))
      case ReplyLost => System(result.tables, s.client.(unanswered := Some(operations)))
      case Answered => System(result.tables, AfterReply(s.client, who, operations, result))
  }

  /** Ids of operations the server has not accepted, all different. */
  predicate FreshIds(operations: seq<ClientOperation>, settled: set<Id>) {
    DistinctIds(operations) && forall op <- operations :: op.operationId !in settled
  }

  /** The server checks the version of note operations only. */
  predicate BasedOnCopies(docs: map<Id, Document>, operations: seq<ClientOperation>) {
    forall op <- operations | op.noteId != NIL :: op.baseVersion == LocalVersion(LocalDoc(docs, op.noteId))
  }

  /** The device has no reply to an operation of the note. */
  predicate Waits(c: Client, n: Id) {
    c.unanswered.Some? && exists op <- c.unanswered.value :: op.noteId == n
  }

  /** The page brings nothing new of a note the device waits for; the device sees that before it applies the page. */
  predicate Quiet(c: Client, page: Page) {
    forall e <- page.changes | e.noteId != NIL && e.sequence > Floor(c.floors, e.noteId) :: !Waits(c, e.noteId)
  }

  function PullOf(config: Config, who: Caller, s: System): PullResult {
    Pull(s.tables, config, who.owner, PullRequest(PROTOCOL_VERSION, who.device, s.client.cursor))
  }

  /**
   The device's side of the protocol: nobody else sends with its id. It sends operations that were not accepted yet, on
   the version of its own copy, when its last page said there was no more; as long as they are unanswered it resends the
   same and applies no page with entries of their notes. A page it does not apply is a pull by others.
   */
  predicate Allowed(config: Config, who: Caller, s: System, a: Action) {
    match a
    case Others(tx) => !(tx.PushTx? && tx.request.deviceId == who.device)
    case PullNext => PullOf(config, who, s).Pulled? ==> Quiet(s.client, PullOf(config, who, s).page)
    case Send(operations, _) =>
      match s.client.unanswered
      case Some(sent) => operations == sent
      case None =>
        && s.client.drained
        && FreshIds(operations, s.client.settled)
        && BasedOnCopies(s.client.docs, operations)
  }

  // ---- what every step keeps ----

  function Reach(c: Client, n: Id): int {
    Max(c.cursor, Floor(c.floors, n))
  }

  ghost predicate NotesSynced(t: Tables, who: Caller, c: Client) {
    forall n: Id | n != NIL :: NoteSynced(t, who, LocalDoc(c.docs, n), Reach(c, n), c.drained, n)
  }

  /** A note the device waits for ends its seen prefix at a batch's end, whatever pages came since. */
  ghost predicate NoteWaits(t: Tables, who: Caller, c: Client, sent: seq<ClientOperation>, n: Id) {
    if BatchOf(sent, n) == [] then NoteSynced(t, who, LocalDoc(c.docs, n), Reach(c, n), c.drained, n)
    else InFlight(t, who, LocalDoc(c.docs, n), Reach(c, n), BatchOf(sent, n), n)
  }

  ghost predicate NotesInFlight(t: Tables, who: Caller, c: Client, sent: seq<ClientOperation>) {
    && DistinctIds(sent) && BasedOnCopies(c.docs, sent)
    && (forall n: Id :: AllOrNone(t, who.device, BatchOf(sent, n)))
    && forall n: Id | n != NIL :: NoteWaits(t, who, c, sent, n)
  }

  /** The device's own entries are of operations it knows accepted, or has no reply to. */
  ghost predicate OwnEntriesKnown(log: seq<Change>, device: string, c: Client) {
    forall e <- log | e.device == device ::
      e.operationId in c.settled || (c.unanswered.Some? && OperationIn(c.unanswered.value, e.operationId))
  }

  /**
   The device has seen a prefix of every note's history and its copy of the note is the fold of that prefix; a batch it
   has no reply to is either unknown to the server or follows that prefix.
   */
  ghost predicate Synced(who: Caller, s: System) {
    && Good(s.tables)
    && 0 <= s.client.cursor < s.tables.nextSequence
    && (forall n <- s.client.floors :: s.client.floors[n] < s.tables.nextSequence)
    && OwnEntriesKnown(s.tables.log, who.device, s.client)
    && match s.client.unanswered
       case None => NotesSynced(s.tables, who, s.client)
       case Some(sent) => NotesInFlight(s.tables, who, s.client, sent)
  }

  // ---- other transactions ----

  lemma OthersDevice(t: Tables, config: Config, tx: Transaction, device: string)
    requires !(tx.PushTx? && tx.request.deviceId == device)
    ensures var after := Execute(t, config, tx);
            |t.log| <= |after.log| && forall i | |t.log| <= i < |after.log| :: after.log[i].device != device
  {
    if tx.PushTx? && Push(t, config, tx.owner, tx.request).Pushed? {
      RequestBatchesWellFormed(tx.request);
      PushRecords(t, config.limits, Caller(tx.owner, tx.request.deviceId), RequestBatches(tx.request));
    }
    hide PushAll, InBatches;
  }

  lemma SameOwnEntries(log: seq<Change>, after: seq<Change>, device: string, c: Client)
    requires |log| <= |after| && after[..|log|] == log && OwnEntriesKnown(log, device, c)
    requires forall i | |log| <= i < |after| :: after[i].device != device
    ensures OwnEntriesKnown(after, device, c)
  {
    hide OperationIn;
    forall e | e in after && e.device == device
      ensures e in log
    {
      var i :| 0 <= i < |after| && after[i] == e;
      assert after[..|log|][i] == log[i];
    }
  }

  /** What one transaction of anybody else leaves of the tables this device relies on. */
  ghost predicate ByOthers(t: Tables, after: Tables, device: string) {
    && Good(t) && Good(after) && Later(t, after)
    && forall i | |t.log| <= i < |after.log| :: after.log[i].device != device
  }

  lemma OthersKeepNotes(t: Tables, after: Tables, who: Caller, c: Client)
    requires ByOthers(t, after, who.device) && NotesSynced(t, who, c)
    requires forall n :: Reach(c, n) < t.nextSequence
    ensures NotesSynced(after, who, c)
  {
    hide NoteSynced, Good, Later;
    forall n: Id | n != NIL
      ensures NoteSynced(after, who, LocalDoc(c.docs, n), Reach(c, n), c.drained, n)
    {
      OthersKeep(t, after, who, LocalDoc(c.docs, n), Reach(c, n), c.drained, n);
    }
  }

  lemma OthersKeepSent(t: Tables, after: Tables, who: Caller, c: Client, sent: seq<ClientOperation>)
    requires ByOthers(t, after, who.device) && NotesInFlight(t, who, c, sent)
    requires forall n :: Reach(c, n) < t.nextSequence
    ensures NotesInFlight(after, who, c, sent)
  {
    assert |t.log| <= |after.log| && after.log[..|t.log|] == t.log;
    hide InFlight, NoteSynced, Good, Later, AllOrNone, BatchOf, DistinctIds, BasedOnCopies;
    forall n: Id
      ensures AllOrNone(after, who.device, BatchOf(sent, n))
      ensures n != NIL ==> NoteWaits(after, who, c, sent, n)
    {
      OthersLeaveIds(t, after, who.device, BatchOf(sent, n));
      AllOrNoneStays(t, after, who.device, BatchOf(sent, n));
      if n != NIL {
        assert NoteWaits(t, who, c, sent, n);
        if BatchOf(sent, n) == [] {
          OthersKeep(t, after, who, LocalDoc(c.docs, n), Reach(c, n), c.drained, n);
        } else {
          OthersKeepInFlight(t, after, who, LocalDoc(c.docs, n), Reach(c, n), BatchOf(sent, n), n);
        }
      }
    }
  }

  lemma OthersStep(config: Config, who: Caller, s: System, tx: Transaction)
    requires Synced(who, s) && Allowed(config, who, s, Others(tx))
    ensures Synced(who, Act(config, who, s, Others(tx)))
  {
    var t, after, c := s.tables, Execute(s.tables, config, tx), s.client;
    ExecuteKeeps(t, config, tx);
    OthersDevice(t, config, tx, who.device);
    assert after.nextSequence >= t.nextSequence && after.log[..|t.log|] == t.log;
    assert ByOthers(t, after, who.device);
    SameOwnEntries(t.log, after.log, who.device, c);
    hide Execute, Good, Later, NotesSynced, NotesInFlight, OwnEntriesKnown, ByOthers;
    if c.unanswered.None? {
      OthersKeepNotes(t, after, who, c);
    } else {
      OthersKeepSent(t, after, who, c, c.unanswered.value);
    }
  }

  // ---- pulling ----

  /** The server's note as this owner may see it. */
  function ServerDoc(t: Tables, owner: Id, n: Id): Document {
    if n in t.notes && t.notes[n].owner != owner then Absent else DocumentOf(t, n)
  }

  /**
   A pull keeps every copy right; one that says there is no more makes the copies the device does not wait for the
   server's notes.
   */
  lemma PullStep(config: Config, who: Caller, s: System)
    requires Synced(who, s) && Allowed(config, who, s, PullNext)
    ensures var after := Act(config, who, s, PullNext);
            && Synced(who, after)
            && (PullOf(config, who, s).Pulled? && after.client.drained ==>
                  forall n: Id | n != NIL && !Waits(s.client, n) ::
                    LocalDoc(after.client.docs, n) == ServerDoc(after.tables, who.owner, n))
  {
    hide Good, NotesSynced, NotesInFlight, PageOf, ServerDoc, ApplyPage, Waits, Quiet, OwnEntriesKnown;
    var t, c := s.tables, s.client;
    var pulled := PullOf(config, who, s);
    if pulled.PullError? {
      return;
    }
    var page, after, limit := pulled.page, pulled.tables, config.PullLimit();
    assert page == PageOf(t.log, who.owner, who.device, c.cursor, limit);
    assert after == t.(devices := after.devices);
    DevicesOnly(t, after.devices);
    CursorBelowNext(t, who, c.cursor, limit);
    if c.unanswered.None? {
      PullAllNotes(t, after, who, c, limit);
    } else {
      PullWaiting(t, after, who, c, limit, c.unanswered.value);
    }
    SameEntriesKnown(t.log, who.device, c, page);
  }

  lemma SameEntriesKnown(log: seq<Change>, device: string, c: Client, page: Page)
    requires OwnEntriesKnown(log, device, c)
    ensures OwnEntriesKnown(log, device, AfterPull(c, page))
  {
    hide OperationIn, ApplyPage;
  }

  lemma PullAllNotes(t: Tables, after: Tables, who: Caller, c: Client, limit: nat)
    requires Good(t) && after == t.(devices := after.devices) && NotesSynced(t, who, c)
    ensures var page := PageOf(t.log, who.owner, who.device, c.cursor, limit); var now := AfterPull(c, page);
            && NotesSynced(after, who, now)
            && (now.drained ==> forall n: Id | n != NIL :: LocalDoc(now.docs, n) == ServerDoc(after, who.owner, n))
  {
    hide Good, NoteSynced, PageOf, ServerDoc, ApplyPage;
    var page := PageOf(t.log, who.owner, who.device, c.cursor, limit);
    forall n: Id | n != NIL
      ensures NoteSynced(after, who, LocalDoc(AfterPull(c, page).docs, n), Max(page.nextCursor, Floor(c.floors, n)),
          !page.hasMore, n)
      ensures !page.hasMore ==> LocalDoc(AfterPull(c, page).docs, n) == ServerDoc(after, who.owner, n)
    {
      PullNote(t, after, who, c, limit, n);
    }
  }

  lemma PullWaiting(t: Tables, after: Tables, who: Caller, c: Client, limit: nat, sent: seq<ClientOperation>)
    requires Good(t) && after == t.(devices := after.devices) && c.unanswered == Some(sent)
    requires NotesInFlight(t, who, c, sent)
    requires Quiet(c, PageOf(t.log, who.owner, who.device, c.cursor, limit))
    ensures var page := PageOf(t.log, who.owner, who.device, c.cursor, limit); var now := AfterPull(c, page);
            && NotesInFlight(after, who, now, sent)
            && (now.drained ==> forall n: Id | n != NIL && !Waits(c, n) ::
                 LocalDoc(now.docs, n) == ServerDoc(after, who.owner, n))
  {
    hide Good, NoteSynced, InFlight, PageOf, ServerDoc, ApplyPage, Waits, Quiet, BatchOf, AllOrNone, DistinctIds;
    var page := PageOf(t.log, who.owner, who.device, c.cursor, limit);
    var now := AfterPull(c, page);
    forall n: Id
      ensures AllOrNone(after, who.device, BatchOf(sent, n))
      ensures n != NIL ==> NoteWaits(after, who, now, sent, n)
      ensures n != NIL && Waits(c, n) ==> LocalDoc(now.docs, n) == LocalDoc(c.docs, n)
      ensures n != NIL && !Waits(c, n) && !page.hasMore ==> LocalDoc(now.docs, n) == ServerDoc(after, who.owner, n)
    {
      AllOrNoneStays(t, after, who.device, BatchOf(sent, n));
      WaitsForBatch(c, sent, n);
      if n != NIL {
        assert NoteWaits(t, who, c, sent, n);
        if Waits(c, n) {
          QuietNote(t, after, who, c, limit, sent, n);
        } else {
          PullNote(t, after, who, c, limit, n);
        }
      }
    }
    forall op <- sent | op.noteId != NIL
      ensures op.baseVersion == LocalVersion(LocalDoc(now.docs, op.noteId))
    {
      SentIsWaited(c, op);
    }
  }

  lemma SentIsWaited(c: Client, op: ClientOperation)
    requires c.unanswered.Some? && op in c.unanswered.value
    ensures Waits(c, op.noteId)
  {
  }

  lemma WaitsForBatch(c: Client, sent: seq<ClientOperation>, n: Id)
    requires c.unanswered == Some(sent) && DistinctIds(sent)
    ensures Waits(c, n) <==> BatchOf(sent, n) != []
  {
    RequestSends(sent, n);
    if Waits(c, n) {
      var op :| op in sent && op.noteId == n;
      InItsBatch(sent, op);
    } else if BatchOf(sent, n) != [] {
      assert BatchOf(sent, n)[0] in BatchOf(sent, n);
      SentIsWaited(c, BatchOf(sent, n)[0]);
    }
    hide BatchOf, Batches, SortedOperations, DistinctIds;
  }

  lemma QuietPage(c: Client, page: Page, n: Id)
    requires Quiet(c, page) && Waits(c, n) && n != NIL
    ensures PageFor(page.changes, n, Floor(c.floors, n)) == []
  {
    hide Waits;
    SelectMembers(page.changes, OfNote(n));
    SelectNothing(Select(page.changes, OfNote(n)), AfterSequence(Floor(c.floors, n)));
  }

  lemma QuietNote(t: Tables, after: Tables, who: Caller, c: Client, limit: nat, sent: seq<ClientOperation>, n: Id)
    requires Good(t) && n != NIL && after == t.(devices := after.devices) && Waits(c, n)
    requires Quiet(c, PageOf(t.log, who.owner, who.device, c.cursor, limit))
    requires InFlight(t, who, LocalDoc(c.docs, n), Reach(c, n), BatchOf(sent, n), n)
    ensures var page := PageOf(t.log, who.owner, who.device, c.cursor, limit);
            var doc := LocalDoc(AfterPull(c, page).docs, n);
            && doc == LocalDoc(c.docs, n)
            && InFlight(after, who, doc, Max(page.nextCursor, Floor(c.floors, n)), BatchOf(sent, n), n)
  {
    hide Good, InFlight, PageOf, ApplyPage, PageFor, Waits, Quiet, BatchOf, History;
    var page := PageOf(t.log, who.owner, who.device, c.cursor, limit);
    QuietPage(c, page, n);
    PagePerNote(c.docs, c.floors, page.changes, n);
    NoChanges(LocalDoc(c.docs, n));
    QuietPageKeeps(t, who, LocalDoc(c.docs, n), c.cursor, Floor(c.floors, n), limit, BatchOf(sent, n), n);
    SameInFlight(t, after, who, LocalDoc(c.docs, n), Max(page.nextCursor, Floor(c.floors, n)), BatchOf(sent, n), n);
  }

  lemma CursorBelowNext(t: Tables, who: Caller, cursor: int, limit: nat)
    requires Good(t) && 0 <= cursor < t.nextSequence
    ensures var next := PageOf(t.log, who.owner, who.device, cursor, limit).nextCursor; cursor <= next < t.nextSequence
  {
    PageIsWindow(t.log, who.owner, who.device, cursor, limit);
    hide PageOf;
  }

  lemma PullNote(t: Tables, after: Tables, who: Caller, c: Client, limit: nat, n: Id)
    requires Good(t) && n != NIL && after == t.(devices := after.devices)
    requires NoteSynced(t, who, LocalDoc(c.docs, n), Max(c.cursor, Floor(c.floors, n)), c.drained, n)
    ensures var page := PageOf(t.log, who.owner, who.device, c.cursor, limit);
            var doc := LocalDoc(AfterPull(c, page).docs, n);
            && NoteSynced(after, who, doc, Max(page.nextCursor, Floor(c.floors, n)), !page.hasMore, n)
            && (!page.hasMore ==> doc == ServerDoc(after, who.owner, n))
  {
    var page := PageOf(t.log, who.owner, who.device, c.cursor, limit);
    PagePerNote(c.docs, c.floors, page.changes, n);
    PullKeepsNote(t, who, LocalDoc(c.docs, n), c.cursor, Floor(c.floors, n), c.drained, limit, n);
    assert DocumentOf(after, n) == DocumentOf(t, n) by {
      assert BlocksOfNote(after, n) == BlocksOfNote(t, n);
    }
    hide PageOf, Good, NoteSynced, DocumentOf, ApplyPage, PageFor;
    SameNote(t, after, who, LocalDoc(AfterPull(c, page).docs, n), Max(page.nextCursor, Floor(c.floors, n)),
      !page.hasMore, n);
  }

  // ---- sending ----

  /** What a device may send, for the first time or again, is in flight from then on. */
  lemma ReadyToSend(config: Config, who: Caller, s: System, operations: seq<ClientOperation>, delivery: Delivery)
    requires Synced(who, s) && Allowed(config, who, s, Send(operations, delivery))
    ensures NotesInFlight(s.tables, who, s.client, operations)
  {
    var t, c := s.tables, s.client;
    if c.unanswered.None? {
      hide Good, NoteSynced, BatchOf;
      forall n: Id
        ensures AllOrNone(t, who.device, BatchOf(operations, n))
        ensures n != NIL ==> NoteWaits(t, who, c, operations, n)
      {
        RequestSends(operations, n);
        FreshIsUnsent(t, who, c, operations, BatchOf(operations, n));
      }
    }
  }

  lemma FreshIsUnsent(t: Tables, who: Caller, c: Client, operations: seq<ClientOperation>, ops: seq<ClientOperation>)
    requires OwnEntriesKnown(t.log, who.device, c) && c.unanswered.None?
    requires FreshIds(operations, c.settled) && DistinctIds(ops) && forall op <- ops :: op in operations
    ensures Unsent(t, who.device, ops)
  {
  }

  /** One note after a completed request the device sent: the note without the reply, and with it. */
  lemma SentNote(config: Config, who: Caller, s: System, operations: seq<ClientOperation>, n: Id)
    requires n != NIL && Good(s.tables) && NotesInFlight(s.tables, who, s.client, operations)
    requires Push(s.tables, config, who.owner, RequestOf(who, operations)).Pushed?
    ensures var result, c := Push(s.tables, config, who.owner, RequestOf(who, operations)), s.client;
            var after := AfterReply(c, who, operations, result);
            && NoteWaits(result.tables, who, c, operations, n)
            && NoteSynced(result.tables, who, LocalDoc(after.docs, n), Reach(after, n), c.drained, n)
  {
    hide Good, NoteSynced, InFlight, Push, AfterReply, BatchOf;
    if BatchOf(operations, n) == [] {
      UnsentNote(config, who, s, operations, n);
    } else {
      NamedNote(config, who, s, operations, n);
    }
  }

  lemma NamedNote(config: Config, who: Caller, s: System, operations: seq<ClientOperation>, n: Id)
    requires n != NIL && Good(s.tables) && NotesInFlight(s.tables, who, s.client, operations)
    requires BatchOf(operations, n) != []
    requires Push(s.tables, config, who.owner, RequestOf(who, operations)).Pushed?
    ensures var result, c := Push(s.tables, config, who.owner, RequestOf(who, operations)), s.client;
            var after := AfterReply(c, who, operations, result);
            && InFlight(result.tables, who, LocalDoc(c.docs, n), Reach(c, n), BatchOf(operations, n), n)
            && NoteSynced(result.tables, who, LocalDoc(after.docs, n), Reach(after, n), c.drained, n)
  {
    var t, c, result := s.tables, s.client, Push(s.tables, config, who.owner, RequestOf(who, operations));
    var batches, ops := Batches(SortedOperations(operations)), BatchOf(operations, n);
    RequestSends(operations, n);
    assert NoteWaits(t, who, c, operations, n);
    assert forall op <- ops :: op.baseVersion == LocalVersion(LocalDoc(c.docs, n));
    UnnamedHasNoBatch(batches, n);
    hide Good, NoteSynced, InFlight, Batches, SortedOperations, PushAll, Names, Sends, WellFormed;
    PushKeepsNote(t, config.limits, who, LocalDoc(c.docs, n), Floor(c.floors, n), c.cursor, batches, ops, n);
    SentDoc(config, who, s, operations, n);
    EitherEdge(result.tables, who, LocalDoc(AfterReply(c, who, operations, result).docs, n),
      Reach(AfterReply(c, who, operations, result), n), c.drained, n);
  }

  lemma EitherEdge(t: Tables, who: Caller, doc: Document, reach: int, drained: bool, n: Id)
    requires NoteSynced(t, who, doc, reach, true, n)
    ensures NoteSynced(t, who, doc, reach, drained, n)
  {
    AnyEdge(t, who, doc, reach, n);
    hide NoteSynced;
  }

  lemma UnsentNote(config: Config, who: Caller, s: System, operations: seq<ClientOperation>, n: Id)
    requires n != NIL && Good(s.tables) && NotesInFlight(s.tables, who, s.client, operations)
    requires BatchOf(operations, n) == []
    requires Push(s.tables, config, who.owner, RequestOf(who, operations)).Pushed?
    ensures var result, c := Push(s.tables, config, who.owner, RequestOf(who, operations)), s.client;
            var after := AfterReply(c, who, operations, result);
            && NoteSynced(result.tables, who, LocalDoc(c.docs, n), Reach(c, n), c.drained, n)
            && NoteSynced(result.tables, who, LocalDoc(after.docs, n), Reach(after, n), c.drained, n)
  {
    var t, c, result := s.tables, s.client, Push(s.tables, config, who.owner, RequestOf(who, operations));
    assert NoteWaits(t, who, c, operations, n);
    hide Good, NoteSynced, BatchOf, Push, AfterReply, DocumentOf, History;
    NotNamed(operations, n);
    UnnamedUntouched(t, config, who.owner, RequestOf(who, operations), n);
    SameDocumentOf(t, result.tables, n);
    SameNote(t, result.tables, who, LocalDoc(c.docs, n), Reach(c, n), c.drained, n);
    UnnamedReply(config, who, s, operations, n);
  }

  lemma SameDocumentOf(t: Tables, after: Tables, n: Id)
    requires DocumentOf(after, n) == DocumentOf(t, n)
    ensures (n in after.notes <==> n in t.notes) && (n in t.notes ==> after.notes[n].owner == t.notes[n].owner)
  {
  }

  lemma NotNamed(operations: seq<ClientOperation>, n: Id)
    requires BatchOf(operations, n) == []
    ensures forall op <- operations :: op.noteId != n
  {
    forall op <- operations | op.noteId == n
      ensures false
    {
      InItsBatch(operations, op);
    }
    hide BatchOf;
  }

  lemma UnnamedReply(config: Config, who: Caller, s: System, operations: seq<ClientOperation>, n: Id)
    requires Push(s.tables, config, who.owner, RequestOf(who, operations)).Pushed? && BatchOf(operations, n) == []
    ensures var after := AfterReply(s.client, who, operations,
        Push(s.tables, config, who.owner, RequestOf(who, operations)));
            LocalDoc(after.docs, n) == LocalDoc(s.client.docs, n) && Reach(after, n) == Reach(s.client, n)
  {
    NotNamed(operations, n);
    RequestNames(RequestOf(who, operations), n);
    SentDoc(config, who, s, operations, n);
    hide Push, BatchOf, AfterReply, Names, RequestBatches, PushAll;
  }

  lemma SentDoc(config: Config, who: Caller, s: System, operations: seq<ClientOperation>, n: Id)
    requires Push(s.tables, config, who.owner, RequestOf(who, operations)).Pushed?
    ensures var batches, c, result := RequestBatches(RequestOf(who, operations)), s.client,
        Push(s.tables, config, who.owner, RequestOf(who, operations));
            WellFormed(batches) &&
            var p := PushAll(s.tables, config.limits, who, batches);
            var after := AfterReply(c, who, operations, result);
            && p.Pushing? && result.tables == p.tables && result.accepted == p.accepted
            && result.rejected == p.rejected && after.cursor == c.cursor
            && var answer := AnswerFor(p.accepted, p.rejected, n);
               && LocalDoc(after.docs, n) == PushedDoc(LocalDoc(c.docs, n), who, BatchOf(operations, n), answer)
               && Floor(after.floors, n) == PushedFloor(Floor(c.floors, n), answer)
               && (!Names(batches, n) ==> answer == NoAnswer)
  {
    hide PushAll, Names, AnswerFor, BatchOf;
    var request := RequestOf(who, operations);
    var batches := RequestBatches(request);
    RequestBatchesWellFormed(request);
    RequestNames(request, n);
    if !Names(batches, n) {
      UnnamedUnanswered(s.tables, config.limits, who, batches, n);
    }
  }

  /** The request reached the server: its entries are of these operations. */
  lemma SentIds(config: Config, who: Caller, s: System, operations: seq<ClientOperation>, e: Change)
    requires OwnEntriesKnown(s.tables.log, who.device, s.client)
    requires s.client.unanswered.Some? ==> s.client.unanswered.value == operations
    requires e in Push(s.tables, config, who.owner, RequestOf(who, operations)).tables.log && e.device == who.device
    ensures e.operationId in s.client.settled || OperationIn(operations, e.operationId)
    ensures Push(s.tables, config, who.owner, RequestOf(who, operations)).PushError? ==> e in s.tables.log
  {
    var t, request := s.tables, RequestOf(who, operations);
    var result, batches := Push(t, config, who.owner, request), RequestBatches(request);
    if result.Pushed? {
      RequestBatchesWellFormed(request);
      PushRecords(t, config.limits, who, batches);
      var log := result.tables.log;
      var i :| 0 <= i < |log| && log[i] == e;
      if i < |t.log| {
        assert log[..|t.log|][i] == t.log[i];
      } else {
        InBatchesOfRequest(operations, e.operationId);
      }
    }
    hide PushAll, InBatches, OperationIn;
  }

  /** An operation the server holds after the request has its note accepted. */
  lemma HeldIsAccepted(config: Config, who: Caller, t: Tables, operations: seq<ClientOperation>, op: ClientOperation)
    requires Good(t) && DistinctIds(operations) && AllOrNone(t, who.device, BatchOf(operations, op.noteId))
    requires op in operations
    requires Push(t, config, who.owner, RequestOf(who, operations)).Pushed?
    requires FindProcessed(Push(t, config, who.owner, RequestOf(who, operations)).tables.log, who.device,
        op.operationId).Some?
    ensures IsAccepted(Push(t, config, who.owner, RequestOf(who, operations)).accepted, op.noteId)
  {
    var n, batches, ops := op.noteId, Batches(SortedOperations(operations)), BatchOf(operations, op.noteId);
    InItsBatch(operations, op);
    RequestSends(operations, n);
    RequestNames(RequestOf(who, operations), n);
    assert Names(batches, n);
    hide Good, AllOrNone, Batches, SortedOperations, PushAll, BatchOf, Sends, WellFormed, Names, FindProcessed,
      IsAccepted;
    PushKeepsIds(t, config.limits, who, batches, ops, n);
  }

  /** The reply says which of the device's entries are there: exactly those of the operations it accepts. */
  lemma SettledEntries(config: Config, who: Caller, s: System, operations: seq<ClientOperation>, e: Change)
    requires Good(s.tables) && OwnEntriesKnown(s.tables.log, who.device, s.client)
    requires NotesInFlight(s.tables, who, s.client, operations)
    requires s.client.unanswered.Some? ==> s.client.unanswered.value == operations
    requires Push(s.tables, config, who.owner, RequestOf(who, operations)).Pushed?
    requires e in Push(s.tables, config, who.owner, RequestOf(who, operations)).tables.log && e.device == who.device
    ensures e.operationId in AfterReply(s.client, who, operations,
        Push(s.tables, config, who.owner, RequestOf(who, operations))).settled
  {
    SentIds(config, who, s, operations, e);
    hide Push, Good, OwnEntriesKnown, AllOrNone, BatchOf, IsAccepted, PushedDoc, PushedFloor, AnswerFor;
    if e.operationId !in s.client.settled {
      var op: ClientOperation :| op in operations && op.operationId == e.operationId;
      HeldIsAccepted(config, who, s.tables, operations, op);
    }
  }

  lemma RejectionAmong(rejected: seq<BatchRejection>, n: Id)
    ensures RejectionFor(rejected, n).RejectedNote? ==>
        exists r <- rejected :: r.document == RejectionFor(rejected, n).document
  {
    if rejected != [] && rejected[|rejected| - 1].noteId != n {
      RejectionAmong(rejected[..|rejected| - 1], n);
    }
  }

  ghost predicate CursorsBelow(rejected: seq<BatchRejection>, next: nat) {
    forall r <- rejected :: r.document.Some? ==> r.document.value.lastAppliedCursor < next
  }

  lemma {:induction false} RejectedCursors(t: Tables, limits: SnapshotThresholds, who: Caller,
    batches: seq<seq<ClientOperation>>)
    requires Good(t) && WellFormed(batches) && PushAll(t, limits, who, batches).Pushing?
    ensures var p := PushAll(t, limits, who, batches); CursorsBelow(p.rejected, p.tables.nextSequence)
  {
    if batches != [] {
      var k := |batches| - 1;
      WellFormedPrefix(batches, k);
      PushAllLast(t, limits, who, batches);
      RejectedCursors(t, limits, who, batches[..k]);
      PushAllKeeps(t, limits, who, batches[..k]);
      RejectedCursorNext(PushAll(t, limits, who, batches[..k]), limits, who, batches[k]);
    }
    hide Good, WellFormed, ApplyBatch, PushNext, CursorsBelow;
    if batches == [] {
      NoCursors(PushAll(t, limits, who, batches).tables.nextSequence);
    }
  }

  lemma NoCursors(next: nat)
    ensures CursorsBelow([], next)
  {
  }

  lemma RejectedCursorNext(before: PushProgress, limits: SnapshotThresholds, who: Caller, batch: seq<ClientOperation>)
    requires before.Pushing? && Good(before.tables) && OneNote(batch)
    requires CursorsBelow(before.rejected, before.tables.nextSequence)
    ensures var after := PushNext(before, limits, who, batch);
            after.Pushing? ==> CursorsBelow(after.rejected, after.tables.nextSequence)
  {
    var t, outcome := before.tables, ApplyBatch(before.tables, limits, who, batch);
    BatchSettles(t, limits, who, batch);
    if outcome.BatchRejected? {
      RejectedDocument(t, limits, who, batch);
      LastCursorBelow(outcome.tables, batch[0].noteId);
    }
    hide ApplyBatch, Good, Consistent, OneNote, Extends;
  }

  lemma RejectedDocument(t: Tables, limits: SnapshotThresholds, who: Caller, batch: seq<ClientOperation>)
    requires batch != [] && ApplyBatch(t, limits, who, batch).BatchRejected?
    ensures var outcome := ApplyBatch(t, limits, who, batch);
            outcome.rejected.document.Some? ==>
              outcome.rejected.document.value.lastAppliedCursor == LastCursor(outcome.tables.log, batch[0].noteId)
  {
    hide ApplyAll, DocumentOf, LastCursor;
  }

  lemma LastCursorBelow(t: Tables, n: Id)
    requires Consistent(t, NIL, false)
    ensures LastCursor(t.log, n) < t.nextSequence
  {
  }

  lemma FloorsBelowNext(config: Config, who: Caller, s: System, operations: seq<ClientOperation>)
    requires Good(s.tables) && s.tables.nextSequence >= 1
    requires forall n <- s.client.floors :: s.client.floors[n] < s.tables.nextSequence
    ensures var result := Push(s.tables, config, who.owner, RequestOf(who, operations));
            var after := AfterReply(s.client, who, operations, result);
            forall n <- after.floors :: after.floors[n] < result.tables.nextSequence
  {
    var request := RequestOf(who, operations);
    var result := Push(s.tables, config, who.owner, request);
    RequestBatchesWellFormed(request);
    PushKeeps(s.tables, config, who.owner, request);
    if result.Pushed? {
      RejectedCursors(s.tables, config.limits, who, RequestBatches(request));
    }
    hide PushAll, Good, RequestBatches, BatchOf, PushedDoc;
    if result.Pushed? {
      var after := AfterReply(s.client, who, operations, result);
      forall n | n in after.floors
        ensures after.floors[n] < result.tables.nextSequence
      {
        RejectionAmong(result.rejected, n);
      }
    }
  }

  /** A request that fails changes no copy and no note. */
  lemma FailedRequest(t: Tables, next: nat, who: Caller, c: Client)
    requires next >= t.nextSequence && Good(t)
    ensures NotesSynced(t, who, c) ==> NotesSynced(t.(nextSequence := next), who, c)
    ensures forall sent :: NotesInFlight(t, who, c, sent) ==> NotesInFlight(t.(nextSequence := next), who, c, sent)
  {
    var after := t.(nextSequence := next);
    hide NoteSynced, InFlight, BatchOf, AllOrNone, Good, BasedOnCopies, DistinctIds;
    forall n: Id | n != NIL && NotesSynced(t, who, c)
      ensures NoteSynced(after, who, LocalDoc(c.docs, n), Reach(c, n), c.drained, n)
    {
      SameNote(t, after, who, LocalDoc(c.docs, n), Reach(c, n), c.drained, n);
    }
    forall sent: seq<ClientOperation>, n: Id | NotesInFlight(t, who, c, sent)
      ensures AllOrNone(after, who.device, BatchOf(sent, n))
      ensures n != NIL ==> NoteWaits(after, who, c, sent, n)
    {
      AllOrNoneStays(t, after, who.device, BatchOf(sent, n));
      if n != NIL {
        assert NoteWaits(t, who, c, sent, n);
        if BatchOf(sent, n) == [] {
          SameNote(t, after, who, LocalDoc(c.docs, n), Reach(c, n), c.drained, n);
        } else {
          SequencesOnly(t, next, who, LocalDoc(c.docs, n), Reach(c, n), BatchOf(sent, n), n);
        }
      }
    }
  }

  /** Whatever the server does with the request, a device without the reply may send it again. */
  lemma RequestArrives(config: Config, who: Caller, s: System, operations: seq<ClientOperation>)
    requires Good(s.tables) && NotesInFlight(s.tables, who, s.client, operations)
    ensures NotesInFlight(Push(s.tables, config, who.owner, RequestOf(who, operations)).tables, who, s.client,
        operations)
  {
    var t, c, result := s.tables, s.client, Push(s.tables, config, who.owner, RequestOf(who, operations));
    PushKeeps(t, config, who.owner, RequestOf(who, operations));
    hide Push, Good, NoteWaits, BatchOf, AllOrNone, Later, AfterReply;
    if result.PushError? {
      FailedRequest(t, result.tables.nextSequence, who, c);
    } else {
      forall n: Id
        ensures AllOrNone(result.tables, who.device, BatchOf(operations, n))
        ensures n != NIL ==> NoteWaits(result.tables, who, c, operations, n)
      {
        SentAllOrNone(config, who, s, operations, n);
        if n != NIL {
          SentNote(config, who, s, operations, n);
        }
      }
    }
  }

  lemma SentAllOrNone(config: Config, who: Caller, s: System, operations: seq<ClientOperation>, n: Id)
    requires Good(s.tables) && NotesInFlight(s.tables, who, s.client, operations)
    requires Push(s.tables, config, who.owner, RequestOf(who, operations)).Pushed?
    ensures AllOrNone(Push(s.tables, config, who.owner, RequestOf(who, operations)).tables, who.device,
        BatchOf(operations, n))
  {
    RequestSends(operations, n);
    assert AllOrNone(s.tables, who.device, BatchOf(operations, n));
    hide Good, AllOrNone, Batches, SortedOperations, PushAll, BatchOf, Sends, WellFormed, Names;
    PushKeepsIds(s.tables, config.limits, who, Batches(SortedOperations(operations)), BatchOf(operations, n), n);
  }

  /** The reply brings every copy of the device up to date with what it has seen, however often it sent the request. */
  lemma ReplyArrives(config: Config, who: Caller, s: System, operations: seq<ClientOperation>)
    requires Good(s.tables) && NotesInFlight(s.tables, who, s.client, operations)
    requires Push(s.tables, config, who.owner, RequestOf(who, operations)).Pushed?
    ensures var result := Push(s.tables, config, who.owner, RequestOf(who, operations));
            NotesSynced(result.tables, who, AfterReply(s.client, who, operations, result))
  {
    var c, result := s.client, Push(s.tables, config, who.owner, RequestOf(who, operations));
    var after := AfterReply(c, who, operations, result);
    assert after.drained == c.drained;
    hide Push, Good, NoteSynced, NotesInFlight, AfterReply;
    forall n: Id | n != NIL
      ensures NoteSynced(result.tables, who, LocalDoc(after.docs, n), Reach(after, n), after.drained, n)
    {
      SentNote(config, who, s, operations, n);
    }
  }

  lemma EntriesKnownAfter(config: Config, who: Caller, s: System, operations: seq<ClientOperation>)
    requires Good(s.tables) && OwnEntriesKnown(s.tables.log, who.device, s.client)
    requires NotesInFlight(s.tables, who, s.client, operations)
    requires s.client.unanswered.Some? ==> s.client.unanswered.value == operations
    ensures var result := Push(s.tables, config, who.owner, RequestOf(who, operations));
            && OwnEntriesKnown(s.tables.log, who.device, s.client.(unanswered := Some(operations)))
            && OwnEntriesKnown(result.tables.log, who.device, s.client.(unanswered := Some(operations)))
            && OwnEntriesKnown(result.tables.log, who.device, AfterReply(s.client, who, operations, result))
  {
    var c, result := s.client, Push(s.tables, config, who.owner, RequestOf(who, operations));
    hide Push, Good, NotesInFlight, OperationIn, AfterPush;
    forall e | e in result.tables.log && e.device == who.device
      ensures e.operationId in c.settled || OperationIn(operations, e.operationId)
      ensures result.PushError? ==> e in s.tables.log
      ensures result.Pushed? ==> e.operationId in AfterReply(c, who, operations, result).settled
    {
      SentIds(config, who, s, operations, e);
      if result.Pushed? {
        SettledEntries(config, who, s, operations, e);
      }
    }
  }

  lemma SameUnanswered(t: Tables, who: Caller, c: Client, operations: seq<ClientOperation>)
    requires NotesInFlight(t, who, c, operations)
    ensures NotesInFlight(t, who, c.(unanswered := Some(operations)), operations)
  {
    hide InFlight, NoteSynced, AllOrNone, BatchOf, DistinctIds, BasedOnCopies;
    var after := c.(unanswered := Some(operations));
    forall n: Id | n != NIL
      ensures NoteWaits(t, who, after, operations, n)
    {
      assert NoteWaits(t, who, c, operations, n);
      assert Reach(after, n) == Reach(c, n);
    }
  }

  lemma ReplyFields(c: Client, who: Caller, operations: seq<ClientOperation>, result: PushResult)
    ensures var after := AfterReply(c, who, operations, result);
            after.cursor == c.cursor && if result.Pushed? then after.unanswered == None else after == c
  {
  }

  lemma SendStep(config: Config, who: Caller, s: System, operations: seq<ClientOperation>, delivery: Delivery)
    requires Synced(who, s) && Allowed(config, who, s, Send(operations, delivery))
    ensures Synced(who, Act(config, who, s, Send(operations, delivery)))
  {
    hide Push, Good, NotesSynced, NotesInFlight, OwnEntriesKnown, AfterPush;
    var t, c := s.tables, s.client;
    var result := Push(t, config, who.owner, RequestOf(who, operations));
    PushKeeps(t, config, who.owner, RequestOf(who, operations));
    assert result.tables.nextSequence >= t.nextSequence >= 1;
    ReadyToSend(config, who, s, operations, delivery);
    EntriesKnownAfter(config, who, s, operations);
    RequestArrives(config, who, s, operations);
    FloorsBelowNext(config, who, s, operations);
    if result.Pushed? {
      ReplyArrives(config, who, s, operations);
    } else {
      FailedRequest(t, result.tables.nextSequence, who, c);
    }
    SameUnanswered(t, who, c, operations);
    SameUnanswered(result.tables, who, c, operations);
    ReplyFields(c, who, operations, result);
  }

  // ---- runs of the protocol ----

  ghost function RunSystem(config: Config, who: Caller, start: System, actions: seq<Action>): System {
    if actions == [] then start
    else Act(config, who, RunSystem(config, who, start, actions[..|actions| - 1]), actions[|actions| - 1])
  }

  ghost predicate Protocol(config: Config, who: Caller, start: System, actions: seq<Action>) {
    actions == [] ||
    var front := actions[..|actions| - 1];
    Protocol(config, who, start, front) &&
      Allowed(config, who, RunSystem(config, who, start, front), actions[|actions| - 1])
  }

  /** A database some run reached, and a device that has not sent anything yet. */
  ghost predicate Starts(who: Caller, s: System) {
    Good(s.tables) && s.client == NEW_CLIENT && forall c <- s.tables.log :: c.device != who.device
  }

  lemma NewClientSynced(who: Caller, s: System)
    requires Starts(who, s)
    ensures Synced(who, s)
  {
    forall n: Id | n != NIL
      ensures NoteSynced(s.tables, who, LocalDoc(s.client.docs, n), Max(s.client.cursor, Floor(s.client.floors, n)),
          s.client.drained, n)
    {
      var h := History(s.tables.log, n);
      SelectMembers(s.tables.log, OfNote(n));
      assert SeenPrefix(h, who.device, 0, 0) by {
        assert forall i | 0 <= i < |h| :: h[i] in h;
      }
      assert h[..0] == [];
    }
  }

  /** At every moment of every run the device's copy of each note is the fold of a prefix of the note's history. */
  lemma {:induction false} EveryCopyIsAPrefix(config: Config, who: Caller, start: System, actions: seq<Action>)
    requires Starts(who, start) && Protocol(config, who, start, actions)
    ensures Synced(who, RunSystem(config, who, start, actions))
  {
    if actions == [] {
      NewClientSynced(who, start);
    } else {
      var front, a := actions[..|actions| - 1], actions[|actions| - 1];
      EveryCopyIsAPrefix(config, who, start, front);
      var s := RunSystem(config, who, start, front);
      match a {
        case Others(tx) => OthersStep(config, who, s, tx);
        case PullNext => PullStep(config, who, s);
        case Send(operations, delivery) => SendStep(config, who, s, operations, delivery);
      }
    }
    hide Synced, Act, Starts;
  }

  /**
   Convergence: whatever the server, the other devices and this one did, once a pull the protocol allows says there is
   no more, the device's copy of every note it has no unanswered operation of is the server's note.
   */
  lemma DevicesConverge(config: Config, who: Caller, start: System, actions: seq<Action>, n: Id)
    requires Starts(who, start) && Protocol(config, who, start, actions) && n != NIL
    ensures var s := RunSystem(config, who, start, actions);
            match PullOf(config, who, s)
            case PullError(_) => true
            case Pulled(_, page) =>
              Quiet(s.client, page) && !page.hasMore && !Waits(s.client, n) ==>
                LocalDoc(AfterPull(s.client, page).docs, n) == ServerDoc(s.tables, who.owner, n)
  {
    hide RunSystem, Synced, Quiet, Waits, ApplyPage;
    EveryCopyIsAPrefix(config, who, start, actions);
    var s := RunSystem(config, who, start, actions);
    var pulled := PullOf(config, who, s);
    if pulled.Pulled? && Quiet(s.client, pulled.page) {
      PullStep(config, who, s);
      assert pulled.tables == s.tables.(devices := pulled.tables.devices);
      assert BlocksOfNote(pulled.tables, n) == BlocksOfNote(s.tables, n);
    }
  }
}
