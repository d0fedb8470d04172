/**
 What a device may rely on when its operations are accepted: they are in the history under its name, in every run of the
 protocol, whichever requests and replies were lost.
 */
module Deliveries {
  import opened Wrappers
  import opened SyncModel
  import opened DirectExecution
  import opened ChangeLog
  import opened Ordering
  import opened Ledger
  import opened Transactions
  import opened Runs
  import opened Requests
  import opened Retry
  import opened Replica
  import opened ClientState
  import opened Resend
  import opened Convergence

  /** The history has an entry of this device for the operation. */
  ghost predicate Recorded(log: seq<Change>, device: string, operationId: Id) {
    exists c <- log :: c.device == device && c.operationId == operationId
  }

  lemma RecordedStays(log: seq<Change>, after: seq<Change>, device: string, operationId: Id)
    requires |log| <= |after| && after[..|log|] == log && Recorded(log, device, operationId)
    ensures Recorded(after, device, operationId)
  {
    var c: Change :| c in log && c.device == device && c.operationId == operationId;
    assert c in after[..|log|] && c in after;
  }

  /**
   How far a request gets: a lost one changes nothing at the server; any other records the operations of every note it
   accepts, and only an answer lets the device count them as accepted and stop waiting.
   */
  lemma SendDelivers(config: Config, who: Caller, s: System, operations: seq<ClientOperation>, delivery: Delivery,
    op: ClientOperation)
    requires op in operations
    ensures var result := Push(s.tables, config, who.owner, RequestOf(who, operations));
            var after := Act(config, who, s, Send(operations, delivery));
            && (delivery.RequestLost? ==> after.tables == s.tables)
            && (!delivery.Answered? ==>
                  after.client.settled == s.client.settled && after.client.unanswered == Some(operations))
            && (result.Pushed? && IsAccepted(result.accepted, op.noteId) ==>
                  && (!delivery.RequestLost? ==> Recorded(after.tables.log, who.device, op.operationId))
                  && (delivery.Answered? ==>
                        op.operationId in after.client.settled && after.client.unanswered == None))
  {
    var result := Push(s.tables, config, who.owner, RequestOf(who, operations));
    hide Push, IsAccepted, PushedDoc, PushedFloor, AnswerFor, BatchOf;
    if result.Pushed? && IsAccepted(result.accepted, op.noteId) {
      RepliesAccepted(s.tables, config, who.owner, RequestOf(who, operations), op);
    }
  }

  lemma SettledGrows(c: Client, who: Caller, operations: seq<ClientOperation>, result: PushResult, id: Id)
    requires id in AfterReply(c, who, operations, result).settled
    ensures id in c.settled ||
            exists op <- operations :: op.operationId == id && result.Pushed? && IsAccepted(result.accepted, op.noteId)
  {
    hide IsAccepted, PushedDoc, PushedFloor, AnswerFor, BatchOf;
  }

  lemma StepKeepsSettled(config: Config, who: Caller, s: System, a: Action)
    requires Good(s.tables) && forall id <- s.client.settled :: Recorded(s.tables.log, who.device, id)
    ensures var after := Act(config, who, s, a);
            forall id <- after.client.settled :: Recorded(after.tables.log, who.device, id)
  {
    var after := Act(config, who, s, a);
    ActAppends(config, who, s, a);
    hide Recorded, Good;
    forall id | id in after.client.settled
      ensures Recorded(after.tables.log, who.device, id)
    {
      if id in s.client.settled {
        RecordedStays(s.tables.log, after.tables.log, who.device, id);
      } else {
        NewlySettled(config, who, s, a, id);
      }
    }
  }

  lemma NewlySettled(config: Config, who: Caller, s: System, a: Action, id: Id)
    requires id in Act(config, who, s, a).client.settled && id !in s.client.settled
    ensures Recorded(Act(config, who, s, a).tables.log, who.device, id)
  {
    hide Execute, Push, Pull, Recorded, IsAccepted, ApplyPage, AfterPush;
    assert a.Send? && a.delivery.Answered?;
    var result := Push(s.tables, config, who.owner, RequestOf(who, a.operations));
    SettledGrows(s.client, who, a.operations, result, id);
    var op: ClientOperation :| op in a.operations && op.operationId == id && IsAccepted(result.accepted, op.noteId);
    SendDelivers(config, who, s, a.operations, a.delivery, op);
  }

  lemma ActAppends(config: Config, who: Caller, s: System, a: Action)
    requires Good(s.tables)
    ensures var log, after := s.tables.log, Act(config, who, s, a).tables.log;
            |log| <= |after| && after[..|log|] == log
  {
    hide Execute, Push, Good, ApplyPage;
    match a {
      case Others(tx) => ExecuteKeeps(s.tables, config, tx);
      case PullNext => assert s.tables.log[..|s.tables.log|] == s.tables.log;
      case Send(operations, _) =>
        PushKeeps(s.tables, config, who.owner, RequestOf(who, operations));
        assert s.tables.log[..|s.tables.log|] == s.tables.log;
    }
  }

  lemma {:induction false} SettledIsRecorded(config: Config, who: Caller, start: System, actions: seq<Action>)
    requires Starts(who, start) && Protocol(config, who, start, actions)
    ensures var s := RunSystem(config, who, start, actions);
            forall id <- s.client.settled :: Recorded(s.tables.log, who.device, id)
  {
    hide Recorded, Act, Good;
    if actions != [] {
      var front, a := actions[..|actions| - 1], actions[|actions| - 1];
      SettledIsRecorded(config, who, start, front);
      EveryCopyIsAPrefix(config, who, start, front);
      StepKeepsSettled(config, who, RunSystem(config, who, start, front), a);
    }
  }

  /**
   Nothing accepted is lost: in every run of the protocol the operations a device counts as accepted are in the history
   under its name, and while it waits for no reply these are all the history has of it.
   */
  lemma NothingAcceptedIsLost(config: Config, who: Caller, start: System, actions: seq<Action>, id: Id)
    requires Starts(who, start) && Protocol(config, who, start, actions)
    ensures var s := RunSystem(config, who, start, actions);
            && (id in s.client.settled ==> Recorded(s.tables.log, who.device, id))
            && (s.client.unanswered.None? && Recorded(s.tables.log, who.device, id) ==> id in s.client.settled)
  {
    SettledIsRecorded(config, who, start, actions);
    EveryCopyIsAPrefix(config, who, start, actions);
    hide RunSystem, Protocol, Good, NotesSynced, NotesInFlight, Starts;
  }
}
