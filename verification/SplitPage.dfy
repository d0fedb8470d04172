/**
 Why a device waits for hasMore = false before it pushes: a page may end inside another device's batch, whose entries
 share one version, so the version check does not notice that the device has seen only part of it.
 */
module SplitPage {
  import opened Wrappers
  import opened TextDeltas
  import opened SyncModel
  import opened SyncStore
  import opened DirectExecution
  import opened ChangeLog
  import opened Ordering
  import opened Transactions
  import opened Runs
  import opened Requests
  import opened Retry
  import opened Replica
  import opened ClientState
  import opened Resend
  import opened Convergence

  const OWNER: Id := 9
  const ME := Caller(OWNER, "me")
  const OTHER := Caller(OWNER, "other")
  const CONFIG := Config(10, 1, 1, SnapshotThresholds(0, 0))

  const CREATE := ClientOperation(11, 1, 0, 0, true, CreateNote(Some(NotePayload("a", "", []))), 0)
  const THEIRS := ClientOperation(12, 1, 1, 0, true, ModifyNoteTitle(Some(TextDelta(0, 0, "X"))), 0)
  const MINE := ClientOperation(13, 1, 0, 1, true, ModifyNoteTitle(Some(TextDelta(0, 0, "Y"))), 0)

  const START := EMPTY_TABLES.(devices := map["me" := Device(OWNER, 0, false), "other" := Device(OWNER, 0, false)])

  function Titled(title: string, version: int): Note {
    Note(OWNER, title, "", version, false)
  }

  const FIRST := Change(1, OWNER, 1, "other", 11, 0, 1, CREATE.mutation, 0)
  const SECOND := Change(2, OWNER, 1, "other", 12, 0, 1, THEIRS.mutation, 0)
  const THIRD := Change(3, OWNER, 1, "me", 13, 1, 2, MINE.mutation, 0)

  const AFTER_THEIRS := START.(notes := map[1 := Titled("Xa", 1)], log := [FIRST, SECOND], nextSequence := 3)
  const AFTER_MINE := START.(notes := map[1 := Titled("YXa", 2)], log := [FIRST, SECOND, THIRD], nextSequence := 4)

  lemma Prepended(text: string, more: string)
    ensures Splice(text, TextDelta(0, 0, more)) == Some(more + text)
  {
    assert text[..0] + more + text[0..] == more + text;
  }

  lemma Titles()
    ensures Splice("a", TextDelta(0, 0, "X")) == Some("Xa")
    ensures Splice("a", TextDelta(0, 0, "Y")) == Some("Ya")
    ensures Splice("Xa", TextDelta(0, 0, "Y")) == Some("YXa")
    ensures Splice("Ya", TextDelta(0, 0, "X")) == Some("XYa")
  {
    Prepended("a", "X");
    Prepended("a", "Y");
    Prepended("Xa", "Y");
    Prepended("Ya", "X");
    assert "X" + "a" == "Xa" && "Y" + "a" == "Ya" && "Y" + "Xa" == "YXa" && "X" + "Ya" == "XYa";
  }

  const CREATED := START.(notes := map[1 := Titled("a", 0)], log := [FIRST], nextSequence := 2)
  const RETITLED := START.(notes := map[1 := Titled("Xa", 0)], log := [FIRST, SECOND], nextSequence := 3)

  lemma TheirCreate()
    ensures Apply(START, OTHER, true, CREATE) == Applied(CREATED)
  {
    assert NewBlocks(1, []) == map[];
    assert START.blocks + map[] == START.blocks;
    assert [] + [FIRST] == [FIRST];
    assert START.notes[1 := Titled("a", 0)] == CREATED.notes;
  }

  lemma TheirTitle()
    ensures Apply(CREATED, OTHER, false, THEIRS) == Applied(RETITLED)
  {
    Titles();
    assert FindProcessed(CREATED.log, "other", 12).None?;
    assert [FIRST] + [SECOND] == [FIRST, SECOND];
    assert CREATED.notes[1 := Titled("Xa", 0)] == RETITLED.notes;
  }

  lemma TheirBatch()
    ensures ApplyBatch(START, CONFIG.limits, OTHER, [CREATE, THEIRS]) == BatchAccepted(AFTER_THEIRS, 1, 2)
  {
    hide Apply;
    var ops := [CREATE, THEIRS];
    assert ops[..1] == [CREATE] && [CREATE][..0] == [];
    TheirCreate();
    TheirTitle();
    assert ApplyAll(START, OTHER, []) == Running(START, false, 0);
    assert ApplyAll(START, OTHER, [CREATE]) == Running(CREATED, true, 1);
    assert ApplyAll(START, OTHER, ops) == Running(RETITLED, true, 2);
    assert RETITLED.notes[1 := Titled("Xa", 1)] == AFTER_THEIRS.notes;
  }

  lemma MyApply(t: Tables, end: Tables)
    requires t == AFTER_THEIRS.(devices := t.devices)
    requires end == t.(notes := map[1 := Titled("YXa", 1)], log := [FIRST, SECOND, THIRD], nextSequence := 4)
    ensures Apply(t, ME, true, MINE) == Applied(end)
  {
    Titles();
    assert FindProcessed(t.log, "me", 13).None?;
    assert t.log + [THIRD] == end.log;
    assert t.notes[1 := Titled("YXa", 1)] == end.notes;
  }

  lemma MyBatch(t: Tables)
    requires t == AFTER_THEIRS.(devices := t.devices)
    ensures ApplyBatch(t, CONFIG.limits, ME, [MINE]) == BatchAccepted(AFTER_MINE.(devices := t.devices), 2, 3)
  {
    assert [MINE][..0] == [];
    var end := t.(notes := map[1 := Titled("YXa", 1)], log := [FIRST, SECOND, THIRD], nextSequence := 4);
    assert t.log + [THIRD] == end.log;
    assert t.notes[1 := Titled("YXa", 1)] == end.notes;
    MyApply(t, end);
    hide Apply;
    assert ApplyAll(t, ME, []) == Running(t, false, 0);
    assert ApplyAll(t, ME, [MINE]) == Running(end, true, 3);
    hide ApplyAll;
    assert end.notes[1 := Titled("YXa", 2)] == AFTER_MINE.notes;
  }

  lemma OneBatch(batch: seq<ClientOperation>, device: string)
    requires OneNote(batch) && Sorted(batch) && |batch| <= 2
    ensures RequestBatches(Request(PROTOCOL_VERSION, device, batch)) == [batch]
  {
    SortIdempotent(batch);
    assert SortedOperations(batch) == batch;
    assert batch[..|batch|] == batch && batch[|batch|..] == [];
    assert RunLength(batch) == |batch|;
    assert Batches(batch[RunLength(batch)..]) == [];
  }

  lemma PushOne(t: Tables, who: Caller, batch: seq<ClientOperation>)
    requires OneNote(batch) && Sorted(batch) && |batch| <= 2 && ValidDeviceId(who.device)
    requires DeviceProblem(t, who.device, who.owner).None?
    requires ApplyBatch(t, CONFIG.limits, who, batch).BatchAccepted?
    ensures var outcome := ApplyBatch(t, CONFIG.limits, who, batch);
            var result := Push(t, CONFIG, who.owner, Request(PROTOCOL_VERSION, who.device, batch));
            && result.Pushed? && result.tables == outcome.tables
            && result.accepted == [AcceptedBatch(batch[0].noteId, outcome.noteVersion)] && result.rejected == []
  {
    OneBatch(batch, who.device);
    assert [batch][..0] == [];
    assert PushAll(t, CONFIG.limits, who, []) == Pushing(t, [], [], 0);
    hide ApplyBatch;
    assert PushAll(t, CONFIG.limits, who, [batch]) == PushNext(Pushing(t, [], [], 0), CONFIG.limits, who, batch);
  }

  lemma Feeds()
    ensures Select([FIRST, SECOND], Feed(OWNER, "me", 0)) == [FIRST, SECOND]
    ensures Select([FIRST, SECOND, THIRD], Feed(OWNER, "me", 1)) == [SECOND]
  {
    assert [FIRST, SECOND][..1] == [FIRST] && [FIRST][..0] == [];
    assert [FIRST] + [SECOND] == [FIRST, SECOND];
    assert [FIRST, SECOND, THIRD][..2] == [FIRST, SECOND];
    assert Select([FIRST], Feed(OWNER, "me", 1)) == [];
    assert Select([FIRST], Feed(OWNER, "me", 0)) == [FIRST];
    assert Select([FIRST, SECOND], Feed(OWNER, "me", 1)) == [] + [SECOND] == [SECOND];
  }

  lemma Pages()
    ensures PageOf([FIRST, SECOND], OWNER, "me", 0, 1) == Page([FIRST], true, 1)
    ensures PageOf([FIRST, SECOND, THIRD], OWNER, "me", 1, 1) == Page([SECOND], false, 2)
  {
    Feeds();
    assert [FIRST, SECOND][..1] == [FIRST];
    assert [FIRST][..0] == [] && [SECOND][..0] == [];
    hide Select;
  }

  lemma NoteOne(t: Tables, note: Note)
    requires t.notes == map[1 := note] && t.blocks == map[] && note.owner == OWNER
    ensures ServerDoc(t, OWNER, 1) == Present(note, map[])
  {
    assert BlocksOfNote(t, 1) == map[];
  }

  const HALF := Client(map[1 := Present(Titled("a", 1), map[])], map[], 1, false, {}, None)

  /** My first page holds only the first entry of their batch, and says there is more. */
  lemma HalfSeen(t: Tables)
    requires t == AFTER_THEIRS
    ensures var s := Act(CONFIG, ME, System(t, NEW_CLIENT), PullNext);
            s.client == HALF && s.tables == AFTER_THEIRS.(devices := s.tables.devices) &&
              DeviceProblem(s.tables, "me", OWNER).None?
  {
    Pages();
    hide PageOf;
    assert [FIRST][..0] == [];
    assert NewBlocks(1, []) == map[];
    assert ApplyPage(map[], map[], []) == map[];
    assert ApplyPage(map[], map[], [FIRST]) == HALF.docs;
  }

  const SENT := Client(map[1 := Present(Titled("Ya", 2), map[])], map[1 := 0], 1, false, {13}, None)

  /** The server accepts my edit: it is based on version 1, which is the note's version. */
  lemma Accepted(t: Tables)
    requires t == AFTER_THEIRS.(devices := t.devices) && DeviceProblem(t, "me", OWNER).None?
    ensures Act(CONFIG, ME, System(t, HALF), Send([MINE], Answered)) == System(AFTER_MINE.(devices := t.devices), SENT)
  {
    hide ApplyBatch, Push, AfterPush, DeviceProblem;
    MyBatch(t);
    PushOne(t, ME, [MINE]);
    MyCopy();
  }

  lemma MyCopy()
    ensures AfterPush(HALF, ME, [MINE], [AcceptedBatch(1, 2)], []) == SENT
  {
    OneBatch([MINE], "me");
    MyDoc();
    hide Replay, OwnChanges, BatchFor, SortedOperations, Batches;
    var answers := [AcceptedBatch(1, 2)];
    assert answers[0] in answers;
    assert AnswerFor(answers, [], 1) == AcceptedNote;
    var after := AfterPush(HALF, ME, [MINE], answers, []);
    assert after.docs == SENT.docs;
    assert after.floors == SENT.floors;
    assert after.settled == SENT.settled;
  }

  lemma MyDoc()
    ensures BatchFor([[MINE]], 1) == [MINE]
    ensures Replay(Present(Titled("a", 1), map[]), OwnChanges(ME, 1, [MINE])) == Present(Titled("Ya", 2), map[])
  {
    Titles();
    assert [MINE][..0] == [];
    assert OwnChanges(ME, 1, []) == [];
    assert OwnChanges(ME, 1, [MINE]) == [OwnChange(ME, 1, MINE)];
    assert [OwnChange(ME, 1, MINE)][..0] == [];
  }

  /** My last page holds the rest of their batch, too late, and says there is no more. */
  lemma RestSeen(t: Tables)
    requires t == AFTER_MINE.(devices := t.devices) && DeviceProblem(t, "me", OWNER).None?
    ensures var s := Act(CONFIG, ME, System(t, SENT), PullNext);
            && s.client.drained && LocalDoc(s.client.docs, 1) == Present(Titled("XYa", 1), map[])
            && s.tables == AFTER_MINE.(devices := s.tables.devices)
  {
    Pages();
    Titles();
    hide PageOf;
    assert [SECOND][..0] == [];
    assert ApplyPage(SENT.docs, SENT.floors, []) == SENT.docs;
    assert LocalDoc(ApplyPage(SENT.docs, SENT.floors, [SECOND]), 1) == Present(Titled("XYa", 1), map[]);
  }

  /**
   With everything else the protocol asks for, a push after a page that said there was more leaves the device with a
   different note: nothing is left to pull, and the copies differ.
   */
  lemma PushAfterSplitPageDiverges()
    ensures var theirs := Others(PushTx(OWNER, Request(PROTOCOL_VERSION, "other", [CREATE, THEIRS])));
            var half := RunSystem(CONFIG, ME, System(START, NEW_CLIENT), [theirs, PullNext]);
            var end := RunSystem(CONFIG, ME, half, [Send([MINE], Answered), PullNext]);
            && !half.client.drained
            && FreshIds([MINE], half.client.settled)
            && MINE.baseVersion == LocalVersion(LocalDoc(half.client.docs, 1))
            && end.client.drained
            && LocalDoc(end.client.docs, 1) == Present(Titled("XYa", 1), map[])
            && ServerDoc(end.tables, OWNER, 1) == Present(Titled("YXa", 2), map[])
  {
    hide ApplyBatch, Push, PageOf, ApplyPage, AfterPush, Pull;
    var theirs := Others(PushTx(OWNER, Request(PROTOCOL_VERSION, "other", [CREATE, THEIRS])));
    var start := System(START, NEW_CLIENT);
    TheirBatch();
    PushOne(START, OTHER, [CREATE, THEIRS]);
    HalfSeen(AFTER_THEIRS);
    assert Act(CONFIG, ME, start, theirs) == System(AFTER_THEIRS, NEW_CLIENT);
    var half := Act(CONFIG, ME, System(AFTER_THEIRS, NEW_CLIENT), PullNext);
    Accepted(half.tables);
    RestSeen(AFTER_MINE.(devices := half.tables.devices));
    NoteOne(AFTER_MINE, Titled("YXa", 2));
    TwoSteps(start, theirs, PullNext);
    TwoSteps(half, Send([MINE], Answered), PullNext);
    var end := RunSystem(CONFIG, ME, half, [Send([MINE], Answered), PullNext]);
    NoteOne(end.tables, Titled("YXa", 2));
  }

  lemma TwoSteps(s: System, a: Action, b: Action)
    ensures RunSystem(CONFIG, ME, s, [a, b]) == Act(CONFIG, ME, Act(CONFIG, ME, s, a), b)
  {
    assert [a, b][..1] == [a] && [a][..0] == [];
    hide Act;
    assert RunSystem(CONFIG, ME, s, []) == s;
    assert RunSystem(CONFIG, ME, s, [a]) == Act(CONFIG, ME, s, a);
  }
}
