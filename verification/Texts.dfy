/** Titles and block texts are what the accepted text deltas make of them. */
module Texts {
  import opened Wrappers
  import opened TextDeltas
  import opened SyncModel
  import opened DirectExecution
  import opened ChangeLog
  import opened Ordering
  import opened Ledger
  import opened Transactions
  import opened Runs

  function TitleDeltas(h: seq<Change>): seq<TextDelta> {
    if h == [] then []
    else
      var before, m := TitleDeltas(h[..|h| - 1]), h[|h| - 1].mutation;
      if m.ModifyNoteTitle? && m.titleDelta.Some? then before + [m.titleDelta.value] else before
  }

  function BlockDeltas(h: seq<Change>, id: Id): seq<TextDelta> {
    if h == [] then []
    else
      var before, c := BlockDeltas(h[..|h| - 1], id), h[|h| - 1];
      if Edits(c, id) then before + [c.mutation.change.value.delta.value] else before
  }

  predicate Creates(c: Change, id: Id) {
    c.mutation.CreateBlock? && c.mutation.block.Some? && c.mutation.block.value.id == id
  }

  lemma SpliceNext(text: string, deltas: seq<TextDelta>, delta: TextDelta)
    ensures SpliceAll(text, deltas + [delta])
         == match Splice(SpliceAll(text, deltas), delta) case Some(after) => after case None => SpliceAll(text, deltas)
  {
    assert (deltas + [delta])[..|deltas|] == deltas;
  }

  lemma TitleNext(doc: Document, c: Change, text: string, deltas: seq<TextDelta>)
    requires doc.Present? && doc.note.title == SpliceAll(text, deltas)
    ensures ApplyChange(doc, c).Present?
    ensures ApplyChange(doc, c).note.title
         == SpliceAll(text, if c.mutation.ModifyNoteTitle? && c.mutation.titleDelta.Some? then
           deltas + [c.mutation.titleDelta.value] else deltas)
  {
    if c.mutation.ModifyNoteTitle? && c.mutation.titleDelta.Some? {
      SpliceNext(text, deltas, c.mutation.titleDelta.value);
    }
    hide SpliceAll;
  }

  lemma {:induction false} TitleComposes(doc: Document, h: seq<Change>)
    requires doc.Present?
    ensures Replay(doc, h).Present? && Replay(doc, h).note.title == SpliceAll(doc.note.title, TitleDeltas(h))
  {
    if h == [] {
      assert SpliceAll(doc.note.title, []) == doc.note.title;
      return;
    }
    hide SpliceAll, ApplyChange;
    var front, c := h[..|h| - 1], h[|h| - 1];
    TitleComposes(doc, front);
    TitleNext(Replay(doc, front), c, doc.note.title, TitleDeltas(front));
  }

  predicate Edits(c: Change, id: Id) {
    && c.mutation.ModifyBlock? && c.mutation.change.Some?
    && c.mutation.change.value.id == id && c.mutation.change.value.delta.Some?
  }

  lemma BlockNext(doc: Document, c: Change, id: Id, text: string, deltas: seq<TextDelta>)
    requires doc.Present? && id in doc.blocks && !Creates(c, id) && doc.blocks[id].text == SpliceAll(text, deltas)
    ensures ApplyChange(doc, c).Present? && id in ApplyChange(doc, c).blocks
    ensures ApplyChange(doc, c).blocks[id].text
         == SpliceAll(text, if Edits(c, id) then deltas + [c.mutation.change.value.delta.value] else deltas)
  {
    if Edits(c, id) {
      SpliceNext(text, deltas, c.mutation.change.value.delta.value);
    }
    hide SpliceAll;
  }

  lemma {:induction false} BlockComposes(doc: Document, h: seq<Change>, id: Id)
    requires doc.Present? && id in doc.blocks
    requires forall c <- h :: !Creates(c, id)
    ensures var after := Replay(doc, h);
            after.Present? && id in after.blocks &&
              after.blocks[id].text == SpliceAll(doc.blocks[id].text, BlockDeltas(h, id))
  {
    if h == [] {
      assert SpliceAll(doc.blocks[id].text, []) == doc.blocks[id].text;
      return;
    }
    hide SpliceAll, ApplyChange;
    var front, c := h[..|h| - 1], h[|h| - 1];
    assert h == front + [c];
    BlockComposes(doc, front, id);
    BlockNext(Replay(doc, front), c, id, doc.blocks[id].text, BlockDeltas(front, id));
  }

  // ---- a block is created once ----

  /** What has been logged since creates no block that was already there. */
  ghost predicate CreatesOnce(t: Tables, after: Tables) {
    && |t.log| <= |after.log| && after.log[..|t.log|] == t.log
    && t.blocks.Keys <= after.blocks.Keys
    && (forall i, id | |t.log| <= i < |after.log| && id in t.blocks :: !Creates(after.log[i], id))
  }

  lemma CreatesOnceTransitive(a: Tables, b: Tables, c: Tables)
    requires CreatesOnce(a, b) && CreatesOnce(b, c)
    ensures CreatesOnce(a, c)
  {
    assert c.log[..|a.log|] == c.log[..|b.log|][..|a.log|];
    forall i, id | |a.log| <= i < |c.log| && id in a.blocks
      ensures !Creates(c.log[i], id)
    {
      assert i < |b.log| ==> c.log[i] == c.log[..|b.log|][i] == b.log[i];
    }
  }

  lemma SameLog(t: Tables, after: Tables)
    requires after.log == t.log && t.blocks.Keys <= after.blocks.Keys
    ensures CreatesOnce(t, after)
  {
  }

  lemma OperationCreatesOnce(t: Tables, who: Caller, first: bool, op: ClientOperation, after: Tables)
    requires BlocksHaveNotes(t) && NIL !in t.notes && Apply(t, who, first, op) == Applied(after)
    ensures CreatesOnce(t, after)
  {
    ApplyEffect(t, who, first, op, after);
    NewBlockIsNew(t, who, first, op);
    hide Apply, ApplyChange, DocumentOf;
    assert after.log == t.log + [Entry(t, who, op)];
  }

  lemma NewBlockIsNew(t: Tables, who: Caller, first: bool, op: ClientOperation)
    requires Apply(t, who, first, op).Applied?
    ensures op.mutation.CreateBlock? ==> op.mutation.block.Some? && op.mutation.block.value.id !in t.blocks
  {
  }

  lemma {:induction false} BatchCreatesOnce(t: Tables, who: Caller, ops: seq<ClientOperation>, n: Id)
    requires Consistent(t, n, false) && forall op <- ops :: op.noteId == n
    ensures ApplyAll(t, who, ops).Running? ==> CreatesOnce(t, ApplyAll(t, who, ops).tables)
  {
    if ops == [] {
      SameLog(t, t);
      return;
    }
    var k := |ops| - 1;
    var before, op := ApplyAll(t, who, ops[..k]), ops[k];
    BatchCreatesOnce(t, who, ops[..k], n);
    BatchUnderway(t, who, ops[..k], n);
    hide CreatesOnce, Apply, Underway, Consistent;
    if before.Running? {
      StepCreatesOnce(t, who, k == 0, op, before);
    }
  }

  lemma StepCreatesOnce(t: Tables, who: Caller, first: bool, op: ClientOperation, before: Progress)
    requires before.Running? && Underway(t, who, op.noteId, before) && CreatesOnce(t, before.tables)
    ensures var p := Advance(before, who, first, op); p.Running? ==> CreatesOnce(t, p.tables)
  {
    assert BlocksHaveNotes(before.tables) && NIL !in before.tables.notes;
    hide CreatesOnce, Apply, Underway, Consistent, BlocksHaveNotes;
    var step := Apply(before.tables, who, first, op);
    if step.Applied? {
      OperationCreatesOnce(before.tables, who, first, op, step.tables);
      CreatesOnceTransitive(t, before.tables, step.tables);
    }
  }

  lemma WholeBatchCreatesOnce(t: Tables, limits: SnapshotThresholds, who: Caller, ops: seq<ClientOperation>)
    requires Good(t) && OneNote(ops)
    ensures CreatesOnce(t, ApplyBatch(t, limits, who, ops).tables)
  {
    ConsistentAnywhere(t, NIL, ops[0].noteId);
    BatchCreatesOnce(t, who, ops, ops[0].noteId);
    BatchBlocks(t, limits, who, ops);
    hide ApplyBatch, ApplyAll, Good;
  }

  lemma BatchBlocks(t: Tables, limits: SnapshotThresholds, who: Caller, ops: seq<ClientOperation>)
    requires ops != []
    ensures var p, after := ApplyAll(t, who, ops), ApplyBatch(t, limits, who, ops).tables;
            if p.Running? then after.log == p.tables.log && after.blocks == p.tables.blocks
            else after.log == t.log && after.blocks == t.blocks
  {
    hide ApplyAll;
  }

  lemma {:induction false} PushCreatesOnce(t: Tables, limits: SnapshotThresholds, who: Caller,
    batches: seq<seq<ClientOperation>>)
    requires Good(t)
    requires forall i | 0 <= i < |batches| :: batches[i] != [] && OneNote(batches[i])
    ensures var p := PushAll(t, limits, who, batches); p.Pushing? ==> CreatesOnce(t, p.tables)
  {
    if batches == [] {
      SameLog(t, t);
      return;
    }
    var k := |batches| - 1;
    PushCreatesOnce(t, limits, who, batches[..k]);
    PushAllKeeps(t, limits, who, batches[..k]);
    var before := PushAll(t, limits, who, batches[..k]);
    if before.Pushing? {
      WholeBatchCreatesOnce(before.tables, limits, who, batches[k]);
      CreatesOnceTransitive(t, before.tables, ApplyBatch(before.tables, limits, who, batches[k]).tables);
    }
    hide CreatesOnce, ApplyBatch, Good, OneNote;
  }

  lemma ExecuteCreatesOnce(t: Tables, config: Config, tx: Transaction)
    requires Good(t)
    ensures CreatesOnce(t, Execute(t, config, tx))
  {
    hide PushAll, RequestBatches, Good, PageOf, CreateSnapshot;
    SameLog(t, t);
    match tx {
      case PushTx(owner, request) =>
        RequestBatchesWellFormed(request);
        PushCreatesOnce(t, config.limits, Caller(owner, request.deviceId), RequestBatches(request));
      case SnapshotTx(payload) => CreateSnapshotKeeps(t, payload);
      case _ =>
    }
  }

  lemma {:induction false} RunCreatesOnce(config: Config, txs: seq<Transaction>, more: seq<Transaction>)
    ensures CreatesOnce(RunAll(config, txs), RunAll(config, txs + more))
  {
    if more == [] {
      assert txs + more == txs;
      SameLog(RunAll(config, txs), RunAll(config, txs));
      return;
    }
    var front, last := more[..|more| - 1], more[|more| - 1];
    assert (txs + more)[..|txs + more| - 1] == txs + front;
    RunCreatesOnce(config, txs, front);
    EveryRunIsGood(config, txs + front);
    ExecuteCreatesOnce(RunAll(config, txs + front), config, last);
    hide CreatesOnce, Good, Execute;
    CreatesOnceTransitive(RunAll(config, txs), RunAll(config, txs + front), RunAll(config, txs + more));
  }

  // ---- logged deltas are in range ----

  lemma {:induction false} ChainLinked(log: seq<Change>, n: Id)
    requires Chain(log) && n != NIL
    ensures Linked(Absent, History(log, n))
  {
    if log == [] {
      return;
    }
    FoldStep(log, n);
    var front, last := log[..|log| - 1], log[|log| - 1];
    hide Link, ApplyChange, Chain, History, Linked;
    ChainLinked(front, n);
    if last.noteId == n {
      LinkedAppend(Absent, History(front, n), last);
    }
  }

  /** No linked entry creates a block that is there, and none takes it away. */
  lemma {:induction false} BlockNotRecreated(doc: Document, h: seq<Change>, id: Id)
    requires doc.Present? && id in doc.blocks && Linked(doc, h) && forall c <- h :: c.noteId != NIL
    ensures forall c <- h :: !Creates(c, id)
    ensures Replay(doc, h).Present? && id in Replay(doc, h).blocks
  {
    if h != [] {
      var front, last := h[..|h| - 1], h[|h| - 1];
      assert h == front + [last];
      BlockNotRecreated(doc, front, id);
    }
  }

  lemma InRangeNext(text: string, deltas: seq<TextDelta>, delta: TextDelta)
    requires AllInRange(text, deltas) && InRange(SpliceAll(text, deltas), delta)
    ensures AllInRange(text, deltas + [delta])
  {
    assert (deltas + [delta])[..|deltas|] == deltas;
  }

  /** Every logged title delta was in range of the title it met. */
  lemma {:induction false} TitlesInRange(doc: Document, h: seq<Change>)
    requires doc.Present? && Linked(doc, h) && forall c <- h :: c.noteId != NIL
    ensures AllInRange(doc.note.title, TitleDeltas(h))
  {
    if h == [] {
      return;
    }
    var front, last := h[..|h| - 1], h[|h| - 1];
    assert h == front + [last];
    assert Linked(doc, front) && Link(Replay(doc, front), last);
    hide ApplyChange, Linked, AllInRange, SpliceAll;
    TitlesInRange(doc, front);
    TitleComposes(doc, front);
    if last.mutation.ModifyNoteTitle? && last.mutation.titleDelta.Some? {
      InRangeNext(doc.note.title, TitleDeltas(front), last.mutation.titleDelta.value);
    }
  }

  lemma EditInRange(doc: Document, c: Change, id: Id)
    requires doc.Present? && id in doc.blocks && c.noteId != NIL && Link(doc, c) && Edits(c, id)
    ensures InRange(doc.blocks[id].text, c.mutation.change.value.delta.value)
  {
  }

  /** Every logged text delta of a block was in range of the text it met. */
  lemma {:induction false} BlocksInRange(doc: Document, h: seq<Change>, id: Id)
    requires doc.Present? && id in doc.blocks && Linked(doc, h) && forall c <- h :: c.noteId != NIL
    ensures AllInRange(doc.blocks[id].text, BlockDeltas(h, id))
  {
    if h == [] {
      return;
    }
    hide ApplyChange, AllInRange, SpliceAll, Creates, Link, Replay;
    var front, last := h[..|h| - 1], h[|h| - 1];
    assert h == front + [last];
    assert Linked(doc, front) && Link(Replay(doc, front), last);
    hide Linked;
    BlockNotRecreated(doc, front, id);
    BlocksInRange(doc, front, id);
    BlockComposes(doc, front, id);
    if Edits(last, id) {
      EditInRange(Replay(doc, front), last, id);
      InRangeNext(doc.blocks[id].text, BlockDeltas(front, id), last.mutation.change.value.delta.value);
    }
  }

  /** What runs after a note exists, as a linked stretch of its history. */
  lemma TailLinked(t: Tables, after: Tables, n: Id, tail: seq<Change>)
    requires Good(t) && Good(after) && n in t.notes && History(after.log, n) == History(t.log, n) + tail
    ensures Linked(DocumentOf(t, n), tail) && (forall c <- tail :: c.noteId == n != NIL)
    ensures Replay(DocumentOf(t, n), tail) == DocumentOf(after, n)
  {
    assert Folded(t.log, n) == Expected(t, n, NIL, false);
    assert Folded(after.log, n) == Expected(after, n, NIL, false);
    ChainLinked(after.log, n);
    LinkedTail(Absent, History(t.log, n), tail);
    ReplayConcat(Absent, History(t.log, n), tail);
    SelectMembers(after.log, OfNote(n));
    forall c <- tail
      ensures c.noteId == n
    {
      assert c in History(after.log, n);
    }
    hide Linked, History, DocumentOf, Replay;
  }

  /**
   Whatever transactions run after a note exists, every title delta accepted since was in range of the title it met, the
   title is the old one with them applied in order, and their inverses, last first, bring the old title back; and so for
   the text of every block the note then had.
   */
  lemma TextsAreCompositions(config: Config, txs: seq<Transaction>, more: seq<Transaction>, n: Id, tail: seq<Change>,
    id: Id)
    requires n in RunAll(config, txs).notes
    requires History(RunAll(config, txs + more).log, n) == History(RunAll(config, txs).log, n) + tail
    ensures var t, after := RunAll(config, txs), RunAll(config, txs + more);
            var title, titles := t.notes[n].title, TitleDeltas(tail);
            && n in after.notes
            && AllInRange(title, titles)
            && after.notes[n].title == SpliceAll(title, titles)
            && SpliceAll(after.notes[n].title, Inverses(title, titles)) == title
            && (BlockOfNote(t, id, n).Some? ==>
                  var text, edits := BlockOfNote(t, id, n).value.text, BlockDeltas(tail, id);
                  && BlockOfNote(after, id, n).Some?
                  && AllInRange(text, edits)
                  && BlockOfNote(after, id, n).value.text == SpliceAll(text, edits)
                  && SpliceAll(BlockOfNote(after, id, n).value.text, Inverses(text, edits)) == text)
  {
    var t, after := RunAll(config, txs), RunAll(config, txs + more);
    EveryRunIsGood(config, txs);
    EveryRunIsGood(config, txs + more);
    TailLinked(t, after, n, tail);
    var doc := DocumentOf(t, n);
    hide RunAll, Good, Linked, Replay, AllInRange, Inverses;
    TitleComposes(doc, tail);
    TitlesInRange(doc, tail);
    UndoAll(doc.note.title, TitleDeltas(tail));
    if BlockOfNote(t, id, n).Some? {
      assert id in doc.blocks;
      BlockNotRecreated(doc, tail, id);
      BlockComposes(doc, tail, id);
      BlocksInRange(doc, tail, id);
      UndoAll(doc.blocks[id].text, BlockDeltas(tail, id));
      assert id in BlocksOfNote(after, n);
    }
  }

  // ---- from the entry that created the text ----

  /** The entry brings a block of this id with this text: alone, or with its note. */
  predicate Gives(c: Change, id: Id, text: string) {
    match c.mutation
    case CreateBlock(Some(payload)) => payload.id == id && payload.text == text
    case CreateNote(Some(payload)) => exists b <- payload.blocks :: b.id == id && b.text == text
    case _ => false
  }

  lemma {:induction false} NewBlockText(noteId: Id, payloads: seq<BlockPayload>, id: Id)
    requires id in NewBlocks(noteId, payloads)
    ensures exists b <- payloads :: b.id == id && b.text == NewBlocks(noteId, payloads)[id].text
  {
    var k := |payloads| - 1;
    if payloads[k].id == id {
      assert payloads[k] in payloads;
    } else {
      NewBlockText(noteId, payloads[..k], id);
    }
  }

  /** A block an entry adds is one it gives. */
  lemma Added(doc: Document, c: Change, id: Id)
    requires ApplyChange(doc, c).Present? && id in ApplyChange(doc, c).blocks
    requires doc.Present? ==> id !in doc.blocks
    ensures Gives(c, id, ApplyChange(doc, c).blocks[id].text)
  {
    if doc.Absent? {
      NewBlockText(c.noteId, c.mutation.note.value.blocks, id);
    }
    hide Splice, NewBlocks;
  }

  /** What a text has become since an entry: its deltas were in range, make it what it is, and can be undone. */
  ghost predicate Written(first: string, deltas: seq<TextDelta>, now: string) {
    AllInRange(first, deltas) && now == SpliceAll(first, deltas) && SpliceAll(now, Inverses(first, deltas)) == first
  }

  ghost predicate BornAt(h: seq<Change>, id: Id, k: nat, now: string) {
    k < |h| && (exists first :: Gives(h[k], id, first) && Written(first, BlockDeltas(h[k + 1..], id), now))
  }

  predicate HoldsBlock(doc: Document, id: Id) {
    doc.Present? && id in doc.blocks
  }

  lemma {:induction false} BlockAppears(h: seq<Change>, id: Id) returns (k: nat)
    requires HoldsBlock(Replay(Absent, h), id)
    ensures k < |h| && HoldsBlock(Replay(Absent, h[..k + 1]), id)
    ensures Gives(h[k], id, Replay(Absent, h[..k + 1]).blocks[id].text)
  {
    var last := |h| - 1;
    if HoldsBlock(Replay(Absent, h[..last]), id) {
      k := BlockAppears(h[..last], id);
      assert h[..last][..k + 1] == h[..k + 1];
    } else {
      Added(Replay(Absent, h[..last]), h[last], id);
      k := last;
      assert h[..k + 1] == h;
    }
    hide Gives, ApplyChange;
  }

  lemma BlockSince(h: seq<Change>, id: Id)
    requires Linked(Absent, h) && (forall c <- h :: c.noteId != NIL) && HoldsBlock(Replay(Absent, h), id)
    ensures exists k: nat :: BornAt(h, id, k, Replay(Absent, h).blocks[id].text)
  {
    hide Linked, Replay, AllInRange, Inverses, Gives, SpliceAll;
    var k := BlockAppears(h, id);
    var doc, tail := Replay(Absent, h[..k + 1]), h[k + 1..];
    assert h[..k + 1] + tail == h;
    LinkedTail(Absent, h[..k + 1], tail);
    ReplayConcat(Absent, h[..k + 1], tail);
    BlockNotRecreated(doc, tail, id);
    BlockComposes(doc, tail, id);
    BlocksInRange(doc, tail, id);
    UndoAll(doc.blocks[id].text, BlockDeltas(tail, id));
    assert BornAt(h, id, k, Replay(Absent, h).blocks[id].text);
  }

  lemma TitleSince(h: seq<Change>)
    requires Linked(Absent, h) && (forall c <- h :: c.noteId != NIL) && Replay(Absent, h).Present?
    ensures h != [] && h[0].mutation.CreateNote? && h[0].mutation.note.Some?
    ensures Written(h[0].mutation.note.value.title, TitleDeltas(h[1..]), Replay(Absent, h).note.title)
  {
    assert h != [];
    var tail := h[1..];
    assert [h[0]] + tail == h && [h[0]][..0] == [];
    LinkedHead(h);
    LinkedTail(Absent, [h[0]], tail);
    ReplayConcat(Absent, [h[0]], tail);
    assert Replay(Absent, [h[0]]) == ApplyChange(Replay(Absent, []), h[0]) && Replay(Absent, []) == Absent;
    var doc := Replay(Absent, [h[0]]);
    hide Linked, Replay, AllInRange, Inverses, SpliceAll;
    TitleComposes(doc, tail);
    TitlesInRange(doc, tail);
    UndoAll(doc.note.title, TitleDeltas(tail));
  }

  lemma {:induction false} LinkedHead(h: seq<Change>)
    requires Linked(Absent, h) && h != [] && h[0].noteId != NIL
    ensures h[0].mutation.CreateNote? && h[0].mutation.note.Some?
  {
    if |h| > 1 {
      LinkedHead(h[..|h| - 1]);
    } else {
      assert h[..0] == [];
      assert Replay(Absent, h[..0]) == Absent;
    }
    hide ApplyChange;
  }

  /**
   From the very entry that created it, in the same request or any later one: a title is that of the note's creation
   with every title delta logged since applied in order, and a block's text is what its creation gave it with every
   delta of the block since; each was in range, and their inverses, last first, bring back the created text.
   */
  lemma TextsFromCreation(config: Config, txs: seq<Transaction>, n: Id, id: Id)
    requires n in RunAll(config, txs).notes
    ensures var t := RunAll(config, txs); var h := History(t.log, n);
            && h != [] && h[0].mutation.CreateNote? && h[0].mutation.note.Some?
            && Written(h[0].mutation.note.value.title, TitleDeltas(h[1..]), t.notes[n].title)
            && (BlockOfNote(t, id, n).Some? ==> exists k: nat :: BornAt(h, id, k, BlockOfNote(t, id, n).value.text))
  {
    var t := RunAll(config, txs);
    EveryRunIsGood(config, txs);
    assert Folded(t.log, n) == Expected(t, n, NIL, false);
    ChainLinked(t.log, n);
    SelectMembers(t.log, OfNote(n));
    hide RunAll, Good, Linked, Replay, Written;
    TitleSince(History(t.log, n));
    if BlockOfNote(t, id, n).Some? {
      assert id in BlocksOfNote(t, n);
      BlockSince(History(t.log, n), id);
    }
  }
}
