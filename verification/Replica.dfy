/**
 A device's copy of its notes: which entries of a note it has seen, and what pulling a page, pushing a batch and other
 devices' pushes do to that. The copy is right as long as the seen entries are a prefix of the note's history.
 */
module Replica {
  import opened Wrappers
  import opened SyncModel
  import opened SyncStore
  import opened DirectExecution
  import opened ChangeLog
  import opened Ordering
  import opened Ledger
  import opened Transactions
  import opened Runs
  import opened Requests
  import opened Retry
  import opened PullFeed

  // ---- seen entries ----

  /** An entry the device wrote itself, or one at or below the cursor it holds for the note. */
  predicate Seen(c: Change, device: string, reach: int) {
    c.device == device || c.sequence <= reach
  }

  ghost predicate SeenPrefix(h: seq<Change>, device: string, reach: int, p: nat) {
    && p <= |h|
    && forall i | 0 <= i < |h| :: i < p <==> Seen(h[i], device, reach)
  }

  function VersionAt(h: seq<Change>, p: nat): int
    requires p <= |h|
  {
    if p == 0 then 0 else h[p - 1].resulting
  }

  /** The prefix does not end inside a batch: entries of one batch share their resulting version. */
  predicate BatchEdge(h: seq<Change>, p: nat)
    requires p <= |h|
  {
    p == |h| || h[p].resulting > VersionAt(h, p)
  }

  ghost predicate NoteSynced(t: Tables, who: Caller, doc: Document, reach: int, drained: bool, n: Id) {
    if n in t.notes && t.notes[n].owner != who.owner then doc == Absent
    else
      var h := History(t.log, n);
      exists p: nat :: SeenPrefix(h, who.device, reach, p) && doc == Replay(Absent, h[..p]) &&
        (drained ==> BatchEdge(h, p))
  }

  function LocalVersion(doc: Document): int {
    match doc case Absent => 0 case Present(note, _) => note.version
  }

  /** What a prefix of a note's history says the version is. */
  lemma {:induction false} PrefixVersion(log: seq<Change>, n: Id, p: nat)
    requires Chain(log) && n != NIL && p <= |History(log, n)|
    ensures LocalVersion(Replay(Absent, History(log, n)[..p])) == VersionAt(History(log, n), p)
  {
    if log != [] {
      var front, last := log[..|log| - 1], log[|log| - 1];
      FoldStep(log, n);
      var h := History(log, n);
      if p == |h| {
        assert h[..p] == h;
        if last.noteId != n {
          PrefixVersion(front, n, p);
        }
      } else {
        assert last.noteId == n ==> h[..p] == History(front, n)[..p];
        PrefixVersion(front, n, p);
      }
    }
    hide ApplyChange, Chain, History, Replay;
  }

  // ---- other devices push ----

  lemma NoHistory(t: Tables, n: Id)
    requires Good(t) && n != NIL && n !in t.notes
    ensures History(t.log, n) == []
  {
    assert Folded(t.log, n) == Expected(t, n, NIL, false);
    EntriesBelowVersion(t.log, n);
  }

  /**
   A device that has seen everything it should stays so while others push: their entries are new and at new versions.
   */
  lemma OthersKeep(t: Tables, after: Tables, who: Caller, doc: Document, reach: int, drained: bool, n: Id)
    requires Good(t) && Good(after) && Later(t, after) && n != NIL && reach < t.nextSequence
    requires forall i | |t.log| <= i < |after.log| :: after.log[i].device != who.device
    requires NoteSynced(t, who, doc, reach, drained, n)
    ensures NoteSynced(after, who, doc, reach, drained, n)
  {
    var h, tail := History(t.log, n), History(after.log[|t.log|..], n);
    if n !in t.notes {
      NoHistory(t, n);
    } else {
      assert n in after.notes && after.notes[n].owner == t.notes[n].owner;
    }
    HistoryGrows(t, after, who.device, n);
    VersionOfHistory(t, n);
    hide Good, Later, History, VersionAt, VersionOf, SeenPrefix, BatchEdge;
    if n in t.notes && t.notes[n].owner != who.owner {
    } else {
      var p: nat :| SeenPrefix(h, who.device, reach, p) && doc == Replay(Absent, h[..p]) &&
        (drained ==> BatchEdge(h, p));
      PrefixSurvives(h, tail, who.device, reach, p);
      if n in after.notes && after.notes[n].owner != who.owner {
        EmptyPrefix(h, who.device, reach, p);
      }
    }
  }

  lemma EmptyPrefix(h: seq<Change>, device: string, reach: int, p: nat)
    requires SeenPrefix(h, device, reach, p)
    ensures h == [] ==> p == 0 && Replay(Absent, h[..p]) == Absent
  {
  }

  lemma PrefixSurvives(h: seq<Change>, tail: seq<Change>, device: string, reach: int, p: nat)
    requires SeenPrefix(h, device, reach, p)
    requires forall c <- tail :: !Seen(c, device, reach) && c.resulting > VersionAt(h, |h|)
    ensures SeenPrefix(h + tail, device, reach, p) && (h + tail)[..p] == h[..p]
    ensures BatchEdge(h, p) ==> BatchEdge(h + tail, p)
  {
    assert forall i | |h| <= i < |h + tail| :: (h + tail)[i] in tail;
    assert p == |h| && tail != [] ==> tail[0] in tail;
  }

  lemma HistoryGrows(t: Tables, after: Tables, device: string, n: Id)
    requires Later(t, after) && n != NIL
    requires forall i | |t.log| <= i < |after.log| :: after.log[i].device != device
    ensures var tail := History(after.log[|t.log|..], n);
            && History(after.log, n) == History(t.log, n) + tail
            && (forall c <- tail :: c.sequence >= t.nextSequence && c.resulting > VersionOf(t, n) && c.device != device)
  {
    var tail := after.log[|t.log|..];
    assert after.log == t.log + tail;
    SelectConcat(t.log, tail, OfNote(n));
    NewEntriesOf(t, after, n);
    forall c <- tail
      ensures c.device != device
    {
      var i :| 0 <= i < |tail| && tail[i] == c;
      assert after.log[|t.log| + i] == c;
    }
    hide History;
  }

  lemma NewEntriesOf(t: Tables, after: Tables, n: Id)
    requires Later(t, after) && n != NIL
    ensures forall c <- History(after.log[|t.log|..], n) ::
              c.sequence >= t.nextSequence && c.resulting > VersionOf(t, n) && c in after.log[|t.log|..]
  {
    var tail := after.log[|t.log|..];
    SelectMembers(tail, OfNote(n));
    forall c <- tail | c.noteId == n
      ensures c.sequence >= t.nextSequence && c.resulting > VersionOf(t, n)
    {
      var i :| 0 <= i < |tail| && tail[i] == c;
      assert after.log[|t.log| + i] == c;
    }
  }

  /** A stored note's version is that of its last entry. */
  lemma VersionOfHistory(t: Tables, n: Id)
    requires Good(t) && n != NIL
    ensures VersionAt(History(t.log, n), |History(t.log, n)|) == VersionOf(t, n)
  {
    var h := History(t.log, n);
    assert h[..|h|] == h;
    PrefixVersion(t.log, n, |h|);
    assert Folded(t.log, n) == Expected(t, n, NIL, false);
  }

  // ---- a pulled page ----

  function Max(a: int, b: int): int {
    if a >= b then a else b
  }

  /** The entries of a page that concern a note and lie above the floor the device holds for it. */
  function PageFor(changes: seq<Change>, n: Id, floor: int): seq<Change> {
    Select(Select(changes, OfNote(n)), AfterSequence(floor))
  }

  /**
   In an increasing history a device that wrote none of the unseen entries sees a longer prefix from a larger cursor.
   */
  lemma {:induction false} SeenGrows(h: seq<Change>, device: string, reach: int, next: int, p: nat) returns (q: nat)
    requires Increasing(h) && reach <= next && SeenPrefix(h, device, reach, p)
    ensures p <= q && SeenPrefix(h, device, next, q)
    decreases |h| - p
  {
    q := p;
    while q < |h| && h[q].sequence <= next
      invariant p <= q <= |h|
      invariant forall i | p <= i < q :: h[i].sequence <= next
    {
      q := q + 1;
    }
  }

  lemma StretchSeen(h: seq<Change>, device: string, reach: int, next: int, p: nat, q: nat)
    requires SeenPrefix(h, device, reach, p) && SeenPrefix(h, device, next, q) && p <= q
    ensures p <= q <= |h|
    ensures forall c <- h[..p] :: Seen(c, device, reach)
    ensures forall c <- h[p..q] :: Seen(c, device, next) && !Seen(c, device, reach) && c in h
    ensures forall c <- h[q..] :: !Seen(c, device, next) && c in h
  {
  }

  /** What a page holds for one note is exactly the stretch of its history the page makes visible. */
  lemma PageStretch(h: seq<Change>, owner: Id, device: string, cursor: int, next: int, floor: int, p: nat, q: nat)
    requires p <= q && cursor <= next
    requires forall c <- h :: c.owner == owner
    requires SeenPrefix(h, device, Max(cursor, floor), p) && SeenPrefix(h, device, Max(next, floor), q)
    ensures Select(Select(h, Window(owner, device, cursor, next)), AfterSequence(floor)) == h[p..q]
  {
    hide Select;
    var w, above := Window(owner, device, cursor, next), AfterSequence(floor);
    var early, mid, late := h[..p], h[p..q], h[q..];
    StretchSeen(h, device, Max(cursor, floor), Max(next, floor), p, q);
    hide SeenPrefix;
    SelectMembers(early, w);
    SelectNothing(late, w);
    SelectEverything(mid, w);
    SelectNothing(Select(early, w), above);
    SelectEverything(mid, above);
    hide Seen;
    assert h == (early + mid) + late;
    SelectConcat(early + mid, late, w);
    SelectConcat(early, mid, w);
    SelectConcat(Select(early, w), mid, above);
    assert Select(h, w) == Select(early, w) + mid;
  }

  lemma PageForNote(log: seq<Change>, n: Id, owner: Id, device: string, cursor: int, next: int, floor: int)
    ensures PageFor(Select(log, Window(owner, device, cursor, next)), n, floor)
         == Select(Select(History(log, n), Window(owner, device, cursor, next)), AfterSequence(floor))
  {
    SelectCommutes(log, Window(owner, device, cursor, next), OfNote(n));
  }

  lemma ForeignPage(log: seq<Change>, n: Id, owner: Id, device: string, cursor: int, next: int, floor: int)
    requires forall c <- History(log, n) :: c.owner != owner
    ensures PageFor(Select(log, Window(owner, device, cursor, next)), n, floor) == []
  {
    PageForNote(log, n, owner, device, cursor, next, floor);
    SelectNothing(History(log, n), Window(owner, device, cursor, next));
  }

  lemma OwnerOfHistory(t: Tables, n: Id)
    requires Good(t) && n != NIL
    ensures n in t.notes ==> forall c <- History(t.log, n) :: c.owner == t.notes[n].owner
    ensures n !in t.notes ==> History(t.log, n) == []
  {
    assert Folded(t.log, n) == Expected(t, n, NIL, false);
    OwnersAgree(t.log, n);
    EntriesBelowVersion(t.log, n);
  }

  /** The note is not somebody else's, as far as the database knows. */
  predicate MayOwn(t: Tables, owner: Id, n: Id) {
    n in t.notes ==> t.notes[n].owner == owner
  }

  /** What a page holds for a note of the device's owner continues the prefix the device has seen. */
  lemma PageContinues(t: Tables, who: Caller, cursor: int, floor: int, limit: nat, n: Id, p: nat) returns (q: nat)
    requires Good(t) && n != NIL && MayOwn(t, who.owner, n)
    requires SeenPrefix(History(t.log, n), who.device, Max(cursor, floor), p)
    ensures var h, page := History(t.log, n), PageOf(t.log, who.owner, who.device, cursor, limit);
            && p <= q && SeenPrefix(h, who.device, Max(page.nextCursor, floor), q)
            && PageFor(page.changes, n, floor) == h[p..q]
            && (!page.hasMore ==> q == |h|)
  {
    hide History, PageOf, Select, Good, PageFor;
    var page := PageOf(t.log, who.owner, who.device, cursor, limit);
    HistoryIncreases(t, n);
    PageIsWindow(t.log, who.owner, who.device, cursor, limit);
    OwnerOfHistory(t, n);
    q := PageStretchFor(t.log, who, n, cursor, page.nextCursor, floor, p);
    if !page.hasMore {
      NothingUnseen(t.log, who, page.nextCursor, floor, n, q);
    }
  }

  lemma HistoryIncreases(t: Tables, n: Id)
    requires Good(t)
    ensures Increasing(t.log) && Increasing(History(t.log, n))
  {
    SelectIncreasing(t.log, OfNote(n));
  }

  lemma PageStretchFor(log: seq<Change>, who: Caller, n: Id, cursor: int, next: int, floor: int,
    p: nat) returns (q: nat)
    requires Increasing(History(log, n)) && cursor <= next
    requires forall c <- History(log, n) :: c.owner == who.owner
    requires SeenPrefix(History(log, n), who.device, Max(cursor, floor), p)
    ensures var h := History(log, n);
            && p <= q && SeenPrefix(h, who.device, Max(next, floor), q)
            && PageFor(Select(log, Window(who.owner, who.device, cursor, next)), n, floor) == h[p..q]
  {
    hide History, Select, Increasing, SeenPrefix, PageFor;
    var h := History(log, n);
    q := SeenGrows(h, who.device, Max(cursor, floor), Max(next, floor), p);
    PageForNote(log, n, who.owner, who.device, cursor, next, floor);
    PageStretch(h, who.owner, who.device, cursor, next, floor, p, q);
  }

  /**
   Applying a page keeps the copy of a note right, and a page with nothing after it leaves nothing of the note unseen.
   */
  lemma PullKeepsNote(t: Tables, who: Caller, doc: Document, cursor: int, floor: int, was: bool, limit: nat, n: Id)
    requires Good(t) && n != NIL
    requires NoteSynced(t, who, doc, Max(cursor, floor), was, n)
    ensures var page := PageOf(t.log, who.owner, who.device, cursor, limit);
            var now := Replay(doc, PageFor(page.changes, n, floor));
            && NoteSynced(t, who, now, Max(page.nextCursor, floor), !page.hasMore, n)
            && (!page.hasMore ==> now == if MayOwn(t, who.owner, n) then DocumentOf(t, n) else Absent)
  {
    hide PageOf, Good, PageFor, History, DocumentOf, BatchEdge;
    var page, h := PageOf(t.log, who.owner, who.device, cursor, limit), History(t.log, n);
    if !MayOwn(t, who.owner, n) {
      ForeignNote(t, who, cursor, floor, limit, n);
      return;
    }
    WholeFold(t, n);
    hide Replay, SeenPrefix;
    var p: nat :| SeenPrefix(h, who.device, Max(cursor, floor), p) && doc == Replay(Absent, h[..p]);
    var q := PageContinues(t, who, cursor, floor, limit, n, p);
    PrefixJoins(h, who.device, Max(cursor, floor), Max(page.nextCursor, floor), p, q);
    assert !page.hasMore ==> h[..q] == h;
    EdgeAtEnd(h);
  }

  lemma PrefixJoins(h: seq<Change>, device: string, reach: int, next: int, p: nat, q: nat)
    requires SeenPrefix(h, device, reach, p) && SeenPrefix(h, device, next, q) && p <= q
    ensures p <= q <= |h| && Replay(Replay(Absent, h[..p]), h[p..q]) == Replay(Absent, h[..q])
  {
    ReplayConcat(Absent, h[..p], h[p..q]);
    assert h[..p] + h[p..q] == h[..q];
    hide Replay;
  }

  lemma ForeignNote(t: Tables, who: Caller, cursor: int, floor: int, limit: nat, n: Id)
    requires Good(t) && n != NIL && !MayOwn(t, who.owner, n)
    ensures PageFor(PageOf(t.log, who.owner, who.device, cursor, limit).changes, n, floor) == []
  {
    hide PageOf, Good, PageFor, History;
    OwnerOfHistory(t, n);
    HistoryIncreases(t, n);
    PageIsWindow(t.log, who.owner, who.device, cursor, limit);
    ForeignPage(t.log, n, who.owner, who.device, cursor,
      PageOf(t.log, who.owner, who.device, cursor, limit).nextCursor, floor);
  }

  lemma WholeFold(t: Tables, n: Id)
    requires Good(t)
    ensures Replay(Absent, History(t.log, n)) == DocumentOf(t, n)
  {
    assert Folded(t.log, n) == Expected(t, n, NIL, false);
  }

  lemma NothingUnseen(log: seq<Change>, who: Caller, next: int, floor: int, n: Id, q: nat)
    requires Select(log, Feed(who.owner, who.device, next)) == []
    requires forall c <- History(log, n) :: c.owner == who.owner
    requires SeenPrefix(History(log, n), who.device, Max(next, floor), q)
    ensures q == |History(log, n)|
  {
    var h := History(log, n);
    SelectMembers(log, OfNote(n));
    SelectMembers(log, Feed(who.owner, who.device, next));
    forall i | 0 <= i < |h|
      ensures Seen(h[i], who.device, Max(next, floor))
    {
      assert h[i] in h;
      assert !Feed(who.owner, who.device, next).Admits(h[i]);
    }
    assert q < |h| ==> Seen(h[q], who.device, Max(next, floor));
  }

  // ---- pushing a batch ----

  /** The entry the device expects for an operation it sent; the server alone knows the sequence. */
  function OwnChange(who: Caller, base: int, op: ClientOperation): Change {
    Change(0, who.owner, op.noteId, who.device, op.operationId, base, base + 1, op.mutation, op.changeBytes)
  }

  function OwnChanges(who: Caller, base: int, ops: seq<ClientOperation>): (r: seq<Change>)
    ensures |r| == |ops|
  {
    if ops == [] then []
    else OwnChanges(who, base, ops[..|ops| - 1]) + [OwnChange(who, base, ops[|ops| - 1])]
  }

  ghost predicate SameEntries(a: seq<Change>, b: seq<Change>) {
    |a| == |b| && forall i | 0 <= i < |a| :: a[i].(sequence := 0) == b[i].(sequence := 0)
  }

  lemma {:induction false} SameEntriesReplay(doc: Document, a: seq<Change>, b: seq<Change>)
    requires SameEntries(a, b)
    ensures Replay(doc, a) == Replay(doc, b)
  {
    if a != [] {
      var n := |a| - 1;
      SameEntriesReplay(doc, a[..n], b[..n]);
      SequenceDoesNotMatter(Replay(doc, a[..n]), a[n], 0);
      SequenceDoesNotMatter(Replay(doc, b[..n]), b[n], 0);
      assert a[n].(sequence := 0) == b[n].(sequence := 0);
    }
    hide ApplyChange;
  }

  /** Operations of one note whose ids the server has not seen and that differ from each other. */
  ghost predicate Unsent(t: Tables, device: string, ops: seq<ClientOperation>) {
    && (forall op <- ops :: FindProcessed(t.log, device, op.operationId).None?)
    && (forall i, j | 0 <= i < j < |ops| :: ops[i].operationId != ops[j].operationId)
  }

  /** A running batch of unsent operations has written one entry for each of them, on the note's version. */
  ghost predicate Wrote(t: Tables, who: Caller, n: Id, ops: seq<ClientOperation>, after: Tables) {
    && |t.log| <= |after.log| && after.log[..|t.log|] == t.log
    && SameEntries(after.log[|t.log|..], OwnChanges(who, VersionOf(t, n), ops))
    && (forall op <- ops :: op.baseVersion == VersionOf(t, n))
    && (ops != [] && n in t.notes ==> t.notes[n].owner == who.owner)
  }

  lemma {:induction false} BatchWrites(t: Tables, who: Caller, n: Id, ops: seq<ClientOperation>)
    requires n != NIL && Consistent(t, n, false) && Unsent(t, who.device, ops)
    requires forall op <- ops :: op.noteId == n
    ensures ApplyAll(t, who, ops).Running? ==> Wrote(t, who, n, ops, ApplyAll(t, who, ops).tables)
  {
    hide Consistent, Wrote, Underway, Advance, Unsent;
    if ops == [] {
      NothingWritten(t, who, n);
    } else {
      var front, op := ops[..|ops| - 1], ops[|ops| - 1];
      var before := ApplyAll(t, who, front);
      assert ops == front + [op];
      UnsentFront(t, who.device, front, op);
      BatchWrites(t, who, n, front);
      BatchUnderway(t, who, front, n);
      if before.Running? {
        StillUnsent(t, who, n, front, op, before.tables);
        WritesNext(t, who, n, front, op, before);
      }
    }
  }

  lemma NothingWritten(t: Tables, who: Caller, n: Id)
    ensures Wrote(t, who, n, [], t)
  {
  }

  lemma UnsentFront(t: Tables, device: string, front: seq<ClientOperation>, op: ClientOperation)
    requires Unsent(t, device, front + [op])
    ensures Unsent(t, device, front)
  {
    assert forall i | 0 <= i < |front| :: (front + [op])[i] == front[i];
    assert forall o <- front :: o in front + [op];
  }

  lemma {:induction false} OwnIds(who: Caller, base: int, ops: seq<ClientOperation>)
    ensures forall i | 0 <= i < |ops| ::
              var c := OwnChanges(who, base, ops)[i];
              c.operationId == ops[i].operationId && c.device == who.device && c.noteId == ops[i].noteId
  {
    if ops != [] {
      OwnIds(who, base, ops[..|ops| - 1]);
    }
  }

  lemma StillUnsent(t: Tables, who: Caller, n: Id, front: seq<ClientOperation>, op: ClientOperation, mid: Tables)
    requires Unsent(t, who.device, front + [op]) && Wrote(t, who, n, front, mid)
    ensures FindProcessed(mid.log, who.device, op.operationId).None?
  {
    var own := OwnChanges(who, VersionOf(t, n), front);
    OwnIds(who, VersionOf(t, n), front);
    assert op in front + [op];
    forall i | 0 <= i < |mid.log|
      ensures mid.log[i].device != who.device || mid.log[i].operationId != op.operationId
    {
      if i < |t.log| {
        assert mid.log[i] == mid.log[..|t.log|][i] == t.log[i];
        assert t.log[i] in t.log;
      } else {
        var k := i - |t.log|;
        assert mid.log[|t.log|..][k].(sequence := 0) == own[k].(sequence := 0);
        assert (front + [op])[k] == front[k] && (front + [op])[|front|] == op;
      }
    }
  }

  lemma NotReplayed(t: Tables, who: Caller, first: bool, op: ClientOperation)
    requires FindProcessed(t.log, who.device, op.operationId).None?
    ensures !Apply(t, who, first, op).Replayed?
  {
  }

  lemma UnderwayParts(t: Tables, who: Caller, n: Id, p: Progress)
    requires p.Running? && Underway(t, who, n, p)
    ensures BlocksHaveNotes(p.tables) && NIL !in p.tables.notes && KeepsRows(t, p.tables)
    ensures VersionOf(p.tables, n) == VersionOf(t, n)
  {
  }

  lemma WritesNext(t: Tables, who: Caller, n: Id, front: seq<ClientOperation>, op: ClientOperation, before: Progress)
    requires n != NIL && op.noteId == n && before.Running? && Underway(t, who, n, before)
    requires Wrote(t, who, n, front, before.tables)
    requires FindProcessed(before.tables.log, who.device, op.operationId).None?
    ensures var after := Advance(before, who, |front| == 0, op);
            after.Running? ==> Wrote(t, who, n, front + [op], after.tables)
  {
    hide Apply, Extends, ApplyChange, Wrote, Effect, FindProcessed;
    var mid, first := before.tables, |front| == 0;
    var step := Apply(mid, who, first, op);
    NotReplayed(mid, who, first, op);
    if step.Applied? {
      UnderwayParts(t, who, n, before);
      ApplyEffect(mid, who, first, op, step.tables);
      EntryWrites(t, who, n, front, op, mid, step.tables);
    }
  }

  lemma SameAppend(a: seq<Change>, b: seq<Change>, x: Change, y: Change)
    requires SameEntries(a, b) && x.(sequence := 0) == y.(sequence := 0)
    ensures SameEntries(a + [x], b + [y])
  {
  }

  lemma EntryWrites(t: Tables, who: Caller, n: Id, front: seq<ClientOperation>, op: ClientOperation, mid: Tables,
    after: Tables)
    requires n != NIL && op.noteId == n && VersionOf(mid, n) == VersionOf(t, n) && KeepsRows(t, mid)
    requires Wrote(t, who, n, front, mid) && Effect(mid, who, op, after)
    ensures Wrote(t, who, n, front + [op], after)
  {
    var base, entry := VersionOf(t, n), Entry(mid, who, op);
    OneEntry(mid, who, op, after);
    assert n in t.notes ==> t.notes[n].owner == who.owner;
    hide Effect, KeepsRows, Entry, VersionOf;
    LogGrows(t.log, mid.log, entry);
    SameAppend(mid.log[|t.log|..], OwnChanges(who, base, front), entry, OwnChange(who, base, op));
    assert (front + [op])[..|front|] == front;
    assert OwnChanges(who, base, front + [op]) == OwnChanges(who, base, front) + [OwnChange(who, base, op)];
    hide OwnChanges, SameEntries, OwnChange;
  }

  lemma OneEntry(mid: Tables, who: Caller, op: ClientOperation, after: Tables)
    requires Effect(mid, who, op, after) && op.noteId != NIL
    ensures after.log == mid.log + [Entry(mid, who, op)]
    ensures Entry(mid, who, op).(sequence := 0) == OwnChange(who, VersionOf(mid, op.noteId), op)
    ensures op.baseVersion == VersionOf(mid, op.noteId)
    ensures op.noteId in mid.notes ==> mid.notes[op.noteId].owner == who.owner
  {
    hide ApplyChange, DocumentOf;
  }

  lemma LogGrows(log: seq<Change>, mid: seq<Change>, c: Change)
    requires |log| <= |mid| && mid[..|log|] == log
    ensures (mid + [c])[..|log|] == log && (mid + [c])[|log|..] == mid[|log|..] + [c]
  {
  }

  /** An accepted batch of unsent operations extends its note's history by exactly the entries the device expects. */
  lemma OwnBatch(t: Tables, limits: SnapshotThresholds, who: Caller,
    ops: seq<ClientOperation>) returns (tail: seq<Change>)
    requires Good(t) && OneNote(ops) && ops[0].noteId != NIL && Unsent(t, who.device, ops)
    requires ApplyBatch(t, limits, who, ops).BatchAccepted?
    ensures var n := ops[0].noteId; var after := ApplyBatch(t, limits, who, ops).tables;
            && after.log == t.log + tail
            && History(after.log, n) == History(t.log, n) + tail
            && SameEntries(tail, OwnChanges(who, VersionOf(t, n), ops))
            && (forall c <- tail :: c.device == who.device)
            && (forall op <- ops :: op.baseVersion == VersionOf(t, n))
            && (n in t.notes ==> t.notes[n].owner == who.owner)
            && n in after.notes && after.notes[n].owner == who.owner
  {
    hide ApplyBatch, Consistent, Extends, SameEntries, OwnChanges;
    var n, after := ops[0].noteId, ApplyBatch(t, limits, who, ops).tables;
    AcceptedLog(t, limits, who, ops);
    tail := after.log[|t.log|..];
    assert after.log == t.log + tail;
    OwnIds(who, VersionOf(t, n), ops);
    TailIsOwn(tail, who, VersionOf(t, n), ops, n);
    SelectConcat(t.log, tail, OfNote(n));
    SelectEverything(tail, OfNote(n));
    BatchSettles(t, limits, who, ops);
    assert |tail| == |ops|;
  }

  lemma AcceptedLog(t: Tables, limits: SnapshotThresholds, who: Caller, ops: seq<ClientOperation>)
    requires Good(t) && OneNote(ops) && ops[0].noteId != NIL && Unsent(t, who.device, ops)
    requires ApplyBatch(t, limits, who, ops).BatchAccepted?
    ensures Wrote(t, who, ops[0].noteId, ops, ApplyBatch(t, limits, who, ops).tables)
  {
    hide Wrote, ApplyAll, Unsent;
    var n := ops[0].noteId;
    ConsistentAnywhere(t, NIL, n);
    BatchWrites(t, who, n, ops);
    var p, after := ApplyAll(t, who, ops), ApplyBatch(t, limits, who, ops).tables;
    assert p.Running? && after.log == p.tables.log;
    WroteLog(t, who, n, ops, p.tables, after);
  }

  lemma WroteLog(t: Tables, who: Caller, n: Id, ops: seq<ClientOperation>, a: Tables, b: Tables)
    requires Wrote(t, who, n, ops, a) && a.log == b.log
    ensures Wrote(t, who, n, ops, b)
  {
  }

  lemma TailIsOwn(tail: seq<Change>, who: Caller, base: int, ops: seq<ClientOperation>, n: Id)
    requires SameEntries(tail, OwnChanges(who, base, ops)) && forall op <- ops :: op.noteId == n
    ensures |tail| == |ops| && forall c <- tail :: c.device == who.device && c.noteId == n
  {
    OwnIds(who, base, ops);
    forall i | 0 <= i < |tail|
      ensures tail[i].device == who.device && tail[i].noteId == n
    {
      assert tail[i].(sequence := 0) == OwnChanges(who, base, ops)[i].(sequence := 0);
      assert ops[i] in ops;
    }
  }

  lemma OwnTail(h: seq<Change>, tail: seq<Change>, device: string, reach: int, p: nat)
    requires SeenPrefix(h, device, reach, p) && tail != []
    requires forall c <- tail :: c.device == device
    ensures (exists q: nat :: SeenPrefix(h + tail, device, reach, q)) <==> p == |h|
    ensures p == |h| ==> SeenPrefix(h + tail, device, reach, |h + tail|)
  {
    assert forall i | |h| <= i < |h + tail| :: (h + tail)[i] in tail;
    forall i | 0 <= i < |h|
      ensures Seen((h + tail)[i], device, reach) <==> i < p
    {
      assert (h + tail)[i] == h[i];
    }
    forall q: nat | SeenPrefix(h + tail, device, reach, q)
      ensures p == |h|
    {
      assert Seen((h + tail)[|h|], device, reach);
      assert |h| > 0 ==> Seen((h + tail)[|h| - 1], device, reach);
    }
    assert p == |h| ==> SeenPrefix(h + tail, device, reach, |h + tail|);
  }

  /** A prefix at the stored version that ends at a batch edge is the whole history, and only then. */
  lemma EdgeAtVersion(t: Tables, n: Id, p: nat)
    requires Good(t) && n != NIL && p <= |History(t.log, n)|
    requires VersionAt(History(t.log, n), p) == VersionOf(t, n)
    ensures BatchEdge(History(t.log, n), p) <==> p == |History(t.log, n)|
  {
    var h := History(t.log, n);
    VersionOfHistory(t, n);
    VersionsNeverDecrease(t.log, n);
    assert p < |h| ==> h[p].resulting <= h[|h| - 1].resulting;
  }

  /**
   Exactly when an accepted push is safe. The server accepts a batch at the device's version; what the device has seen
   of the note is then still a prefix of its history if and only if its copy did not stop inside another device's batch.
   */
  lemma AcceptedPushIsSafeIff(t: Tables, limits: SnapshotThresholds, who: Caller, reach: int, p: nat,
    ops: seq<ClientOperation>)
    requires Good(t) && OneNote(ops) && ops[0].noteId != NIL && Unsent(t, who.device, ops)
    requires ApplyBatch(t, limits, who, ops).BatchAccepted?
    requires SeenPrefix(History(t.log, ops[0].noteId), who.device, reach, p)
    requires ops[0].baseVersion == LocalVersion(Replay(Absent, History(t.log, ops[0].noteId)[..p]))
    ensures var n := ops[0].noteId; var after := ApplyBatch(t, limits, who, ops).tables;
            (exists q: nat :: SeenPrefix(History(after.log, n), who.device, reach, q)) <==>
              BatchEdge(History(t.log, n), p)
  {
    var n := ops[0].noteId;
    var tail := OwnBatch(t, limits, who, ops);
    PrefixVersion(t.log, n, p);
    assert ops[0] in ops;
    EdgeAtVersion(t, n, p);
    hide ApplyBatch, Good, History, Replay, SeenPrefix, BatchEdge, Unsent;
    OwnTail(History(t.log, n), tail, who.device, reach, p);
  }

  // ---- a batch the server accepted, whatever the device knows of it ----

  /**
   Up to p the history is the device's copy; the device's own entries for the batch follow directly, and end a batch.
   */
  ghost predicate OwnFollow(h: seq<Change>, who: Caller, doc: Document, reach: int, ops: seq<ClientOperation>, p: nat) {
    var q := p + |ops|;
    && SeenPrefix(h, who.device, reach, q) && BatchEdge(h, q)
    && doc == Replay(Absent, h[..p])
    && SameEntries(h[p..q], OwnChanges(who, LocalVersion(doc), ops))
  }

  /** The batch is in the log, on top of the copy the device made it from. */
  ghost predicate Landed(t: Tables, who: Caller, doc: Document, reach: int, ops: seq<ClientOperation>, n: Id) {
    && Processed(t, who.device, ops)
    && n in t.notes && t.notes[n].owner == who.owner
    && exists p: nat :: OwnFollow(History(t.log, n), who, doc, reach, ops, p)
  }

  lemma OwnFollowWhole(h: seq<Change>, tail: seq<Change>, who: Caller, doc: Document, reach: int,
    ops: seq<ClientOperation>)
    requires SeenPrefix(h, who.device, reach, |h|) && doc == Replay(Absent, h)
    requires tail != [] && SameEntries(tail, OwnChanges(who, LocalVersion(doc), ops)) && forall c <- tail ::
        c.device == who.device
    ensures OwnFollow(h + tail, who, doc, reach, ops, |h|)
  {
    OwnTail(h, tail, who.device, reach, |h|);
    EdgeAtEnd(h + tail);
    assert |tail| == |ops|;
    assert (h + tail)[..|h|] == h && (h + tail)[|h|..|h| + |ops|] == tail;
    hide SeenPrefix, BatchEdge, Replay, SameEntries, OwnChanges;
  }

  lemma StoredPrefixVersion(t: Tables, n: Id, p: nat)
    requires Good(t) && n != NIL && p <= |History(t.log, n)|
    ensures LocalVersion(Replay(Absent, History(t.log, n)[..p])) == VersionAt(History(t.log, n), p)
  {
    PrefixVersion(t.log, n, p);
  }

  /** What a device at the server's version has seen is everything. */
  lemma SeenWhole(t: Tables, who: Caller, doc: Document, reach: int, n: Id)
    requires Good(t) && n != NIL && NoteSynced(t, who, doc, reach, true, n) && LocalVersion(doc) == VersionOf(t, n)
    requires n in t.notes ==> t.notes[n].owner == who.owner
    ensures var h := History(t.log, n); SeenPrefix(h, who.device, reach, |h|) && doc == Replay(Absent, h)
  {
    var h := History(t.log, n);
    hide Good, History, Replay;
    var p: nat :| SeenPrefix(h, who.device, reach, p) && doc == Replay(Absent, h[..p]) && BatchEdge(h, p);
    assert p <= |h|;
    hide SeenPrefix, BatchEdge;
    StoredPrefixVersion(t, n, p);
    EdgeAtVersion(t, n, p);
    assert h[..|h|] == h;
  }

  lemma AcceptedPushLands(t: Tables, limits: SnapshotThresholds, who: Caller, doc: Document, reach: int,
    ops: seq<ClientOperation>)
    requires Good(t) && OneNote(ops) && ops[0].noteId != NIL && Unsent(t, who.device, ops)
    requires ApplyBatch(t, limits, who, ops).BatchAccepted?
    requires NoteSynced(t, who, doc, reach, true, ops[0].noteId)
    requires ops[0].baseVersion == LocalVersion(doc)
    ensures Landed(ApplyBatch(t, limits, who, ops).tables, who, doc, reach, ops, ops[0].noteId)
  {
    hide ApplyBatch, Good, Unsent, NoteSynced, History, Replay, SeenPrefix, OwnChanges, OwnFollow;
    var n, after := ops[0].noteId, ApplyBatch(t, limits, who, ops).tables;
    var tail := OwnBatch(t, limits, who, ops);
    BatchLog(t, limits, who, ops);
    assert ops[0] in ops;
    SeenWhole(t, who, doc, reach, n);
    assert |tail| == |ops|;
    OwnFollowWhole(History(t.log, n), tail, who, doc, reach, ops);
  }

  /** The device's own operations, applied to its own copy, are then the fold of what it has seen. */
  lemma LandedSynced(t: Tables, who: Caller, doc: Document, reach: int, ops: seq<ClientOperation>, n: Id)
    requires Landed(t, who, doc, reach, ops, n)
    ensures NoteSynced(t, who, Replay(doc, OwnChanges(who, LocalVersion(doc), ops)), reach, true, n)
  {
    var h := History(t.log, n);
    hide Replay, OwnChanges, SameEntries, History, FindProcessed;
    var p: nat :| OwnFollow(h, who, doc, reach, ops, p);
    var q := p + |ops|;
    assert SeenPrefix(h, who.device, reach, q) && BatchEdge(h, q);
    ReplayConcat(Absent, h[..p], h[p..q]);
    assert h[..p] + h[p..q] == h[..q];
    SameEntriesReplay(doc, h[p..q], OwnChanges(who, LocalVersion(doc), ops));
    hide SeenPrefix, BatchEdge;
  }

  /** After an accepted push the device's own operations, applied to its own copy, are the note. */
  lemma AcceptedPushKeepsNote(t: Tables, limits: SnapshotThresholds, who: Caller, doc: Document, reach: int,
    ops: seq<ClientOperation>)
    requires Good(t) && OneNote(ops) && ops[0].noteId != NIL && Unsent(t, who.device, ops)
    requires ApplyBatch(t, limits, who, ops).BatchAccepted?
    requires NoteSynced(t, who, doc, reach, true, ops[0].noteId)
    requires ops[0].baseVersion == LocalVersion(doc)
    ensures NoteSynced(ApplyBatch(t, limits, who, ops).tables, who,
              Replay(doc, OwnChanges(who, LocalVersion(doc), ops)), reach, true, ops[0].noteId)
  {
    AcceptedPushLands(t, limits, who, doc, reach, ops);
    LandedSynced(ApplyBatch(t, limits, who, ops).tables, who, doc, reach, ops, ops[0].noteId);
    hide ApplyBatch, Landed;
  }

  lemma OwnFollowGrows(h: seq<Change>, tail: seq<Change>, who: Caller, doc: Document, reach: int,
    ops: seq<ClientOperation>, p: nat)
    requires OwnFollow(h, who, doc, reach, ops, p)
    requires forall c <- tail :: !Seen(c, who.device, reach) && c.resulting > VersionAt(h, |h|)
    ensures OwnFollow(h + tail, who, doc, reach, ops, p)
  {
    var q := p + |ops|;
    PrefixSurvives(h, tail, who.device, reach, q);
    assert q <= |h|;
    assert (h + tail)[..p] == h[..p] && (h + tail)[p..q] == h[p..q];
    hide SeenPrefix, BatchEdge, Replay, SameEntries, OwnChanges;
  }

  /** Whatever else the server runs, a batch that landed stays landed. */
  lemma OthersKeepLanded(t: Tables, after: Tables, who: Caller, doc: Document, reach: int, ops: seq<ClientOperation>,
    n: Id)
    requires Good(t) && Later(t, after) && n != NIL && reach < t.nextSequence
    requires forall i | |t.log| <= i < |after.log| :: after.log[i].device != who.device
    requires Landed(t, who, doc, reach, ops, n)
    ensures Landed(after, who, doc, reach, ops, n)
  {
    var h, tail := History(t.log, n), History(after.log[|t.log|..], n);
    HistoryGrows(t, after, who.device, n);
    VersionOfHistory(t, n);
    forall op | op in ops
      ensures FindProcessed(after.log, who.device, op.operationId).Some?
    {
      ProcessedStays(t.log, after.log, who.device, op.operationId);
    }
    assert n in after.notes && after.notes[n].owner == t.notes[n].owner;
    hide Good, Later, History, VersionAt, VersionOf, OwnFollow, FindProcessed;
    var p: nat :| OwnFollow(h, who, doc, reach, ops, p);
    OwnFollowGrows(h, tail, who, doc, reach, ops, p);
  }

  lemma EdgeAtEnd(h: seq<Change>)
    ensures BatchEdge(h, |h|)
  {
  }

  /** Adopting the document that comes with a rejection leaves nothing of the note unseen. */
  lemma AdoptKeepsNote(t: Tables, who: Caller, cursor: int, n: Id)
    requires Good(t) && n != NIL && LoadDocument(t, n, who.owner).Some?
    ensures var snapshot := LoadDocument(t, n, who.owner).value;
            NoteSynced(t, who, snapshot.document, Max(cursor, snapshot.lastAppliedCursor), true, n)
  {
    var h, reach := History(t.log, n), Max(cursor, LastCursor(t.log, n));
    SelectMembers(t.log, OfNote(n));
    WholeFold(t, n);
    assert SeenPrefix(h, who.device, reach, |h|) by {
      assert forall i | 0 <= i < |h| :: h[i] in h;
    }
    assert h[..|h|] == h;
    EdgeAtEnd(h);
    hide Good, History;
  }
}
