/**
 Why a device resends what was not answered before it pulls: its own entries are never in its feed, so a pull after a
 lost reply brings other devices' edits of a note without the entries they were made on.
 */
module EarlyPull {
  import opened Wrappers
  import opened TextDeltas
  import opened SyncModel
  import opened SyncStore
  import opened DirectExecution
  import opened ChangeLog
  import opened Ordering
  import opened Transactions
  import opened Runs
  import opened Requests
  import opened Retry
  import opened Replica
  import opened ClientState
  import opened Resend
  import opened Convergence
  import opened SplitPage

  const MY_CREATE := ClientOperation(21, 1, 0, 0, true, CreateNote(Some(NotePayload("a", "", []))), 0)
  const THEIR_TITLE := ClientOperation(22, 1, 0, 1, true, ModifyNoteTitle(Some(TextDelta(0, 0, "X"))), 0)

  const MY_ENTRY := Change(1, OWNER, 1, "me", 21, 0, 1, MY_CREATE.mutation, 0)
  const THEIR_ENTRY := Change(2, OWNER, 1, "other", 22, 1, 2, THEIR_TITLE.mutation, 0)

  const MINE_STORED := START.(notes := map[1 := Titled("a", 1)], log := [MY_ENTRY], nextSequence := 2)
  const THEIRS_STORED := START.(notes := map[1 := Titled("Xa", 2)], log := [MY_ENTRY, THEIR_ENTRY], nextSequence := 3)

  predicate BothRegistered(t: Tables) {
    DeviceProblem(t, "me", OWNER).None? && DeviceProblem(t, "other", OWNER).None?
  }

  lemma MyCreate(t: Tables)
    requires t == START.(devices := t.devices)
    ensures ApplyBatch(t, CONFIG.limits, ME, [MY_CREATE]) == BatchAccepted(MINE_STORED.(devices := t.devices), 1, 1)
  {
    assert [MY_CREATE][..0] == [];
    assert NewBlocks(1, []) == map[];
    assert t.blocks + map[] == t.blocks;
    var end := t.(notes := map[1 := Titled("a", 0)], log := [MY_ENTRY], nextSequence := 2);
    assert t.log + [MY_ENTRY] == end.log;
    assert t.notes[1 := Titled("a", 0)] == end.notes;
    assert Apply(t, ME, true, MY_CREATE) == Applied(end);
    assert ApplyAll(t, ME, [MY_CREATE]) == Running(end, true, 1);
    assert end.notes[1 := Titled("a", 1)] == MINE_STORED.notes;
  }

  lemma TheirEdit(t: Tables)
    requires t == MINE_STORED.(devices := t.devices)
    ensures ApplyBatch(t, CONFIG.limits, OTHER, [THEIR_TITLE])
        == BatchAccepted(THEIRS_STORED.(devices := t.devices), 2, 2)
  {
    assert [THEIR_TITLE][..0] == [];
    Titles();
    assert FindProcessed(t.log, "other", 22).None?;
    var end := t.(notes := map[1 := Titled("Xa", 1)], log := [MY_ENTRY, THEIR_ENTRY], nextSequence := 3);
    assert t.log + [THEIR_ENTRY] == end.log;
    assert t.notes[1 := Titled("Xa", 1)] == end.notes;
    assert Apply(t, OTHER, true, THEIR_TITLE) == Applied(end);
    assert ApplyAll(t, OTHER, [THEIR_TITLE]) == Running(end, true, 2);
    assert end.notes[1 := Titled("Xa", 2)] == THEIRS_STORED.notes;
  }

  lemma MyCreateAgain(t: Tables)
    requires t == THEIRS_STORED.(devices := t.devices)
    ensures ApplyBatch(t, CONFIG.limits, ME, [MY_CREATE]) == BatchAccepted(t, 2, 0)
  {
    assert MY_ENTRY in t.log;
    AcceptedReplays(t, ME, [MY_CREATE]);
    hide ApplyAll;
  }

  lemma MyFeed()
    ensures PageOf([], OWNER, "me", 0, 1) == Page([], false, 0)
    ensures PageOf([MY_ENTRY, THEIR_ENTRY], OWNER, "me", 0, 1) == Page([THEIR_ENTRY], false, 2)
    ensures PageOf([MY_ENTRY, THEIR_ENTRY], OWNER, "me", 2, 1) == Page([], false, 2)
  {
    assert [MY_ENTRY, THEIR_ENTRY][..1] == [MY_ENTRY] && [MY_ENTRY][..0] == [];
    assert Select([MY_ENTRY], Feed(OWNER, "me", 0)) == [] && Select([MY_ENTRY], Feed(OWNER, "me", 2)) == [];
    assert Select([MY_ENTRY, THEIR_ENTRY], Feed(OWNER, "me", 0)) == [] + [THEIR_ENTRY] == [THEIR_ENTRY];
    assert Select([MY_ENTRY, THEIR_ENTRY], Feed(OWNER, "me", 2)) == [];
    assert [THEIR_ENTRY][..0] == [];
    hide Select;
  }

  const DRAINED := NEW_CLIENT.(drained := true)
  const WAITING := DRAINED.(unanswered := Some([MY_CREATE]))
  const PULLED := WAITING.(docs := map[1 := Absent], cursor := 2)
  const RESENT := Client(map[1 := Present(Titled("a", 1), map[])], map[1 := 0], 2, true, {21}, None)

  /** A pull of a page without more leaves everything but the devices. */
  lemma LastPage(t: Tables, c: Client, page: Page)
    requires BothRegistered(t) && page == PageOf(t.log, OWNER, "me", c.cursor, 1) && c.cursor >= 0
    ensures var s := Act(CONFIG, ME, System(t, c), PullNext);
            && PullOf(CONFIG, ME, System(t, c)).Pulled? && PullOf(CONFIG, ME, System(t, c)).page == page
            && s.client == AfterPull(c, page) && s.tables == t.(devices := s.tables.devices) && BothRegistered(s.tables)
  {
    hide PageOf, AfterPull;
  }

  lemma NothingPulled()
    ensures AfterPull(NEW_CLIENT, Page([], false, 0)) == DRAINED
    ensures AfterPull(WAITING, Page([THEIR_ENTRY], false, 2)) == PULLED
    ensures AfterPull(RESENT, Page([], false, 2)) == RESENT
  {
    assert [THEIR_ENTRY][..0] == [];
    assert ApplyPage(map[], map[], []) == map[];
    assert ApplyPage(map[], map[], [THEIR_ENTRY]) == map[1 := Absent];
  }

  lemma NotQuiet()
    ensures !Quiet(WAITING, Page([THEIR_ENTRY], false, 2))
  {
    assert MY_CREATE in WAITING.unanswered.value;
    assert Waits(WAITING, 1);
    assert THEIR_ENTRY in [THEIR_ENTRY];
  }

  lemma Resent()
    ensures AfterPush(PULLED, ME, [MY_CREATE], [AcceptedBatch(1, 2)], []) == RESENT
  {
    OneBatch([MY_CREATE], "me");
    var answers := [AcceptedBatch(1, 2)];
    assert answers[0] in answers;
    assert AnswerFor(answers, [], 1) == AcceptedNote;
    Rebuilt();
    var after := AfterPush(PULLED, ME, [MY_CREATE], answers, []);
    hide Replay, OwnChanges, BatchFor;
    assert after.docs == RESENT.docs;
    assert after.floors == RESENT.floors;
    assert after.settled == RESENT.settled;
  }

  lemma Rebuilt()
    ensures BatchFor([[MY_CREATE]], 1) == [MY_CREATE]
    ensures Replay(Absent, OwnChanges(ME, 0, [MY_CREATE])) == Present(Titled("a", 1), map[])
  {
    assert [MY_CREATE][..0] == [];
    assert OwnChanges(ME, 0, []) == [];
    assert OwnChanges(ME, 0, [MY_CREATE]) == [OwnChange(ME, 0, MY_CREATE)];
    assert [OwnChange(ME, 0, MY_CREATE)][..0] == [];
    assert NewBlocks(1, []) == map[];
  }

  lemma LoseReply(t: Tables)
    requires t == START.(devices := t.devices) && BothRegistered(t)
    ensures Act(CONFIG, ME, System(t, DRAINED), Send([MY_CREATE], ReplyLost))
        == System(MINE_STORED.(devices := t.devices), WAITING)
  {
    MyCreate(t);
    PushOne(t, ME, [MY_CREATE]);
    hide ApplyBatch, Push;
  }

  lemma Edit(t: Tables, c: Client)
    requires t == MINE_STORED.(devices := t.devices) && BothRegistered(t)
    ensures Act(CONFIG, ME, System(t, c), Others(PushTx(OWNER, Request(PROTOCOL_VERSION, "other", [THEIR_TITLE]))))
         == System(THEIRS_STORED.(devices := t.devices), c)
  {
    TheirEdit(t);
    PushOne(t, OTHER, [THEIR_TITLE]);
    hide ApplyBatch, Push;
  }

  lemma SendAgain(t: Tables)
    requires t == THEIRS_STORED.(devices := t.devices) && BothRegistered(t)
    ensures Act(CONFIG, ME, System(t, PULLED), Send([MY_CREATE], Answered)) == System(t, RESENT)
  {
    hide ApplyBatch, Push, AfterPush;
    MyCreateAgain(t);
    PushOne(t, ME, [MY_CREATE]);
    Resent();
  }

  /**
   The device creates a note and loses the reply; another device edits its title; this one pulls before it resends. From
   then on nothing is unanswered and nothing is left to pull, and the copies differ.
   */
  lemma PullBeforeResendDiverges()
    ensures var lost := RunSystem(CONFIG, ME, System(START, NEW_CLIENT), [PullNext, Send([MY_CREATE], ReplyLost)]);
            var theirs := Others(PushTx(OWNER, Request(PROTOCOL_VERSION, "other", [THEIR_TITLE])));
            var early := RunSystem(CONFIG, ME, lost, [theirs, PullNext]);
            var end := RunSystem(CONFIG, ME, early, [Send([MY_CREATE], Answered), PullNext]);
            && lost.client.unanswered == Some([MY_CREATE])
            && !Allowed(CONFIG, ME, Act(CONFIG, ME, lost, theirs), PullNext)
            && Allowed(CONFIG, ME, early, Send([MY_CREATE], Answered))
            && end.client.unanswered == None && end.client.drained
            && LocalDoc(end.client.docs, 1) == Present(Titled("a", 1), map[])
            && ServerDoc(end.tables, OWNER, 1) == Present(Titled("Xa", 2), map[])
  {
    var theirs := Others(PushTx(OWNER, Request(PROTOCOL_VERSION, "other", [THEIR_TITLE])));
    MyFeed();
    NothingPulled();
    NotQuiet();
    hide Quiet, ApplyBatch, Push, PageOf, ApplyPage, AfterPush, AfterPull, Pull;
    var begin := System(START, NEW_CLIENT);
    LastPage(START, NEW_CLIENT, Page([], false, 0));
    var first := Act(CONFIG, ME, begin, PullNext);
    LoseReply(first.tables);
    TwoSteps(begin, PullNext, Send([MY_CREATE], ReplyLost));
    var lost := System(MINE_STORED.(devices := first.tables.devices), WAITING);
    Edit(lost.tables, WAITING);
    var edited := System(THEIRS_STORED.(devices := first.tables.devices), WAITING);
    LastPage(edited.tables, WAITING, Page([THEIR_ENTRY], false, 2));
    TwoSteps(lost, theirs, PullNext);
    var early := Act(CONFIG, ME, edited, PullNext);
    SendAgain(early.tables);
    LastPage(early.tables, RESENT, Page([], false, 2));
    TwoSteps(early, Send([MY_CREATE], Answered), PullNext);
    var end := Act(CONFIG, ME, System(early.tables, RESENT), PullNext);
    NoteOne(end.tables, Titled("Xa", 2));
    hide Act, RunSystem;
  }
}
