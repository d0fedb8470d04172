/** The append-only history as data: selections from it, and the document a note's entries fold to. */
module ChangeLog {
  import opened Wrappers
  import opened TextDeltas
  import opened SyncModel
  import opened DirectExecution

  /** The row filters used on note_changes. */
  datatype Selection =
    | OfNote(noteId: Id)
    | UpToVersion(version: int)
    | AboveVersion(version: int)
    | AfterSequence(sequence: int)
    | Feed(owner: Id, device: string, after: int)
    | Window(owner: Id, device: string, after: int, upTo: int)
  {
    predicate Admits(c: Change) {
      match this
      case OfNote(noteId) => c.noteId == noteId
      case UpToVersion(version) => c.resulting <= version
      case AboveVersion(version) => c.resulting > version
      case AfterSequence(sequence) => c.sequence > sequence
      case Feed(owner, device, after) => c.owner == owner && c.sequence > after && c.device != device
      case Window(owner, device, after, upTo) => c.owner == owner && after < c.sequence <= upTo && c.device != device
    }
  }

  function Select(log: seq<Change>, which: Selection): seq<Change> {
    if log == [] then []
    else
      var n := |log| - 1;
      if which.Admits(log[n]) then Select(log[..n], which) + [log[n]] else Select(log[..n], which)
  }

  function History(log: seq<Change>, noteId: Id): seq<Change> {
    Select(log, OfNote(noteId))
  }

  predicate Increasing(log: seq<Change>) {
    forall i, j | 0 <= i < j < |log| :: log[i].sequence < log[j].sequence
  }

  lemma SelectAppend(log: seq<Change>, c: Change, which: Selection)
    ensures Select(log + [c], which) == if which.Admits(c) then Select(log, which) + [c] else Select(log, which)
  {
    assert (log + [c])[..|log|] == log;
  }

  lemma NothingSelected(which: Selection)
    ensures Select([], which) == []
  {
  }

  lemma {:induction false} SelectConcat(a: seq<Change>, b: seq<Change>, which: Selection)
    ensures Select(a + b, which) == Select(a, which) + Select(b, which)
  {
    hide Select;
    if b == [] {
      NothingSelected(which);
      assert a + b == a;
      return;
    }
    var front, last := b[..|b| - 1], b[|b| - 1];
    var x, y := Select(a, which), Select(front, which);
    assert a + b == (a + front) + [last] by {
      assert b == front + [last];
    }
    SelectConcat(a, front, which);
    SelectAppend(a + front, last, which);
    assert b == front + [last];
    SelectAppend(front, last, which);
    if which.Admits(last) {
      assert (x + y) + [last] == x + (y + [last]);
    }
  }

  lemma {:induction false} SelectMembers(log: seq<Change>, which: Selection)
    ensures forall c :: c in Select(log, which) <==> c in log && which.Admits(c)
  {
    if log != [] {
      SelectMembers(log[..|log| - 1], which);
      assert log == log[..|log| - 1] + [log[|log| - 1]];
    }
  }

  lemma {:induction false} SelectIncreasing(log: seq<Change>, which: Selection)
    requires Increasing(log)
    ensures Increasing(Select(log, which))
  {
    if log != [] {
      var front := log[..|log| - 1];
      SelectIncreasing(front, which);
      SelectMembers(front, which);
      forall c <- Select(front, which)
        ensures c.sequence < log[|log| - 1].sequence
      {
        var i :| 0 <= i < |front| && front[i] == c;
      }
    }
  }

  lemma {:induction false} SelectNothing(log: seq<Change>, which: Selection)
    requires forall c <- log :: !which.Admits(c)
    ensures Select(log, which) == []
  {
    if log != [] {
      SelectNothing(log[..|log| - 1], which);
    }
  }

  lemma {:induction false} SelectEverything(log: seq<Change>, which: Selection)
    requires forall c <- log :: which.Admits(c)
    ensures Select(log, which) == log
  {
    if log != [] {
      SelectEverything(log[..|log| - 1], which);
      assert log == log[..|log| - 1] + [log[|log| - 1]];
    }
  }

  /** Selections that admit the same entries of a log select the same list. */
  lemma {:induction false} SelectAgree(log: seq<Change>, a: Selection, b: Selection)
    requires forall c <- log :: a.Admits(c) <==> b.Admits(c)
    ensures Select(log, a) == Select(log, b)
  {
    if log != [] {
      SelectAgree(log[..|log| - 1], a, b);
    }
  }

  /** The order two filters are applied in does not matter. */
  lemma {:induction false} SelectCommutes(log: seq<Change>, a: Selection, b: Selection)
    ensures Select(Select(log, a), b) == Select(Select(log, b), a)
  {
    if log != [] {
      var front, last := log[..|log| - 1], log[|log| - 1];
      SelectCommutes(front, a, b);
      SelectAppend(Select(front, a), last, b);
      SelectAppend(Select(front, b), last, a);
    }
  }

  /** In an increasing log a feed is the window up to any cursor followed by the feed after it. */
  lemma {:induction false} FeedSplits(log: seq<Change>, owner: Id, device: string, after: int, upTo: int)
    requires Increasing(log) && after <= upTo
    ensures Select(log, Feed(owner, device, after))
         == Select(log, Window(owner, device, after, upTo)) + Select(log, Feed(owner, device, upTo))
  {
    if log != [] {
      var front, last := log[..|log| - 1], log[|log| - 1];
      FeedSplits(front, owner, device, after, upTo);
      if last.sequence <= upTo {
        SelectNothing(front, Feed(owner, device, upTo));
      }
    }
  }

  // ---- folding a history into a document ----

  function ApplyChange(doc: Document, c: Change): Document {
    match doc
    case Absent =>
      if c.mutation.CreateNote? && c.mutation.note.Some? then
        var payload := c.mutation.note.value;
        Present(Note(c.owner, payload.title, payload.properties, c.resulting, false),
          NewBlocks(c.noteId, payload.blocks))
      else Absent
    case Present(note, blocks) =>
      var next := note.(version := c.resulting);
      match c.mutation
      case DeleteNote => Present(next.(deleted := true), blocks)
      case ModifyNoteProperty(Some(properties)) => Present(next.(properties := properties), blocks)
      case ModifyNoteTitle(Some(delta)) =>
        Present(match Splice(note.title, delta) case Some(title) => next.(title := title) case None => next, blocks)
      case CreateBlock(Some(payload)) => Present(next, blocks[payload.id := NewBlock(c.noteId, payload)])
      case DeleteBlock(Some(id)) =>
        Present(next, if id in blocks then blocks[id := blocks[id].(deleted := true)] else blocks)
      case ModifyBlock(Some(change)) =>
        Present(next,
          if change.id in blocks && ChangedBlock(blocks[change.id], change).Some?
          then blocks[change.id := ChangedBlock(blocks[change.id], change).value]
          else blocks)
      case _ => Present(next, blocks)
  }

  function Replay(doc: Document, changes: seq<Change>): Document {
    if changes == [] then doc
    else ApplyChange(Replay(doc, changes[..|changes| - 1]), changes[|changes| - 1])
  }

  /** What a note's own history says it is. */
  function Folded(log: seq<Change>, noteId: Id): Document {
    Replay(Absent, History(log, noteId))
  }

  lemma ReplayAppend(doc: Document, changes: seq<Change>, c: Change)
    ensures Replay(doc, changes + [c]) == ApplyChange(Replay(doc, changes), c)
  {
    assert (changes + [c])[..|changes|] == changes;
  }

  lemma {:induction false} ReplayConcat(doc: Document, a: seq<Change>, b: seq<Change>)
    ensures Replay(doc, a + b) == Replay(Replay(doc, a), b)
  {
    if b == [] {
      assert a + b == a;
    } else {
      var front, last := b[..|b| - 1], b[|b| - 1];
      ReplayConcat(doc, a, front);
      ReplayAppend(doc, a + front, last);
      assert a + b == (a + front) + [last];
    }
  }

  lemma FoldedAppend(log: seq<Change>, c: Change, noteId: Id)
    ensures Folded(log + [c], noteId)
         == if c.noteId == noteId then ApplyChange(Folded(log, noteId), c) else Folded(log, noteId)
  {
    SelectAppend(log, c, OfNote(noteId));
    if c.noteId == noteId {
      ReplayAppend(Absent, History(log, noteId), c);
    }
  }
}
