/**
 What the upload requests achieve: each of them alone, from any world, when its calls work; and in every run, why a row
 has the status it has and why a caller was told what it was told.
 */
module UploadAnswers {
  import opened Wrappers
  import opened Uploads

  // ---- a request on its own ----

  /** A request that starts and makes calls, all of which work, while nothing else happens. */
  function Alone(id: nat, first: Process, targetValid: bool, calls: nat): seq<Event> {
    if calls == 0 then [Start(id, first)]
    else Alone(id, first, targetValid, calls - 1) + [Call(id, Works, targetValid)]
  }

  /** The row, the object and the process after working calls of that process only. */
  function Carry(w: World, p: Process, targetValid: bool, calls: nat): (Upload, Option<Info>, Process)
    decreases calls
  {
    if calls == 0 then (w.row, w.stored, p)
    else
      var (row, stored, next) := Carry(w, p, targetValid, calls - 1);
      Advance(w.(row := row, stored := stored), next, Works, targetValid)
  }

  lemma LastEvent(w: World, events: seq<Event>, e: Event)
    ensures RunFrom(w, events + [e]) == Next(RunFrom(w, events), e)
  {
    hide Next;
    assert (events + [e])[..|events|] == events;
  }

  /** One working call of a process, which does not look at the other processes. */
  lemma CallIs(w: World, now: World, id: nat, targetValid: bool)
    requires id in now.processes && now == w.(row := now.row, stored := now.stored, processes := now.processes)
    ensures var (row, stored, process) :=
              Advance(w.(row := now.row, stored := now.stored), now.processes[id], Works, targetValid);
            Next(now, Call(id, Works, targetValid)) ==
              now.(row := row, stored := stored, processes := now.processes[id := process])
  {
  }

  lemma {:induction false} RunsAlone(w: World, id: nat, first: Process, targetValid: bool, calls: nat)
    requires id !in w.processes && Initial(first)
    ensures var (row, stored, process) := Carry(w, first, targetValid, calls);
            RunFrom(w, Alone(id, first, targetValid, calls)) ==
              w.(row := row, stored := stored, processes := w.processes[id := process])
  {
    hide Advance, RunFrom, Next;
    if calls == 0 {
      Starts(w, id, first);
    } else {
      var front := Alone(id, first, targetValid, calls - 1);
      RunsAlone(w, id, first, targetValid, calls - 1);
      LastEvent(w, front, Call(id, Works, targetValid));
      CallIs(w, RunFrom(w, front), id, targetValid);
      var process := RunFrom(w, Alone(id, first, targetValid, calls)).processes[id];
      assert w.processes[id := RunFrom(w, front).processes[id]][id := process] == w.processes[id := process];
    }
  }

  lemma Starts(w: World, id: nat, first: Process)
    requires id !in w.processes && Initial(first)
    ensures RunFrom(w, [Start(id, first)]) == w.(processes := w.processes[id := first])
  {
    assert RunFrom(w, []) == w;
    LastEvent(w, [], Start(id, first));
    assert [] + [Start(id, first)] == [Start(id, first)];
  }

  /** The first call, and then the others. */
  lemma {:induction false} CarryFirst(w: World, p: Process, targetValid: bool, calls: nat)
    requires calls >= 1
    ensures var (row, stored, next) := Advance(w, p, Works, targetValid);
            Carry(w, p, targetValid, calls) == Carry(w.(row := row, stored := stored), next, targetValid, calls - 1)
  {
    hide Advance;
    assert w.(row := w.row, stored := w.stored) == w;
    if calls > 1 {
      CarryFirst(w, p, targetValid, calls - 1);
    } else {
      assert Carry(w, p, targetValid, 0) == (w.row, w.stored, p);
    }
  }

  lemma {:induction false} FinishedStays(w: World, answer: Answer, targetValid: bool, calls: nat)
    ensures Carry(w, Finished(answer), targetValid, calls) == (w.row, w.stored, Finished(answer))
  {
    if calls > 0 {
      FinishedStays(w, answer, targetValid, calls - 1);
    }
  }

  /** The object in storage has the declared size and type. */
  predicate Declared(w: World) {
    w.stored.Some? && w.stored.value.size == w.row.expectedSize && w.stored.value.contentType == w.row.contentType
  }

  function Completed(row: Upload): Upload {
    row.(status := COMPLETED, verified := Some(Info(row.expectedSize, row.contentType)))
  }

  /** What Complete makes of the row, and what it answers. */
  function CompleteResult(w: World, targetValid: bool): (Upload, Answer) {
    var row := w.row;
    if row.status == COMPLETED then (row, CompletedUpload)
    else if row.status != PENDING then (row, Conflict)
    else if w.now > row.expiresAt then (row, NotReady)
    else if !targetValid then (row, Forbidden)
    else if w.stored == None then (row, NotReady)
    else if Declared(w) then (Completed(row), CompletedUpload)
    else (row.(status := FAILED), Invalid)
  }

  lemma CompleteInspects(w: World, targetValid: bool, calls: nat)
    requires calls >= 2 && w.row.status == PENDING && w.row.contentType.Media?
    ensures Carry(w, CompleteInspecting, targetValid, calls) ==
              if w.stored == None then (w.row, w.stored, Finished(NotReady))
              else if Declared(w) then (Completed(w.row), w.stored, Finished(CompletedUpload))
              else (w.row.(status := FAILED), w.stored, Finished(Invalid))
  {
    hide Carry;
    if w.stored.Some? {
      AcceptedAlike(w.row, w.stored.value);
    }
    assert w.(row := w.row, stored := w.stored) == w;
    var next := Advance(w, CompleteInspecting, Works, targetValid).2;
    CarryFirst(w, CompleteInspecting, targetValid, calls);
    if next.Finished? {
      FinishedStays(w, next.answer, targetValid, calls - 1);
    } else {
      CarryFirst(w, next, targetValid, calls - 1);
      var (row, stored, last) := Advance(w, next, Works, targetValid);
      FinishedStays(w.(row := row, stored := stored), last.answer, targetValid, calls - 2);
    }
  }

  lemma CompleteCarries(w: World, targetValid: bool, calls: nat)
    requires calls >= 4 && w.row.contentType.Media?
    ensures var (row, answer) := CompleteResult(w, targetValid);
            Carry(w, CompleteReading, targetValid, calls) == (row, w.stored, Finished(answer))
  {
    hide Carry, Declared, Completed;
    assert w.(row := w.row, stored := w.stored) == w;
    var next := Advance(w, CompleteReading, Works, targetValid).2;
    CarryFirst(w, CompleteReading, targetValid, calls);
    if next.Finished? {
      FinishedStays(w, next.answer, targetValid, calls - 1);
    } else {
      CarryFirst(w, CompleteValidating, targetValid, calls - 1);
      if targetValid {
        CompleteInspects(w, targetValid, calls - 2);
      } else {
        FinishedStays(w, Forbidden, targetValid, calls - 2);
      }
    }
  }

  /**
   Complete by itself: an unexpired pending row whose object is as declared is completed with that object verified; any
   other object fails it; and every other answer leaves the row alone. The object stays in any case.
   */
  lemma CompleteAlone(w: World, id: nat, targetValid: bool, calls: nat)
    requires id !in w.processes && w.row.contentType.Media? && calls >= 4
    ensures var after := RunFrom(w, Alone(id, CompleteReading, targetValid, calls));
            var (row, answer) := CompleteResult(w, targetValid);
            after == w.(row := row, processes := w.processes[id := Finished(answer)])
  {
    hide RunFrom, Alone, Carry, Advance;
    RunsAlone(w, id, CompleteReading, targetValid, calls);
    CompleteCarries(w, targetValid, calls);
  }

  /** Delete by itself: the object is gone, the row is deleted, and the caller is told so. */
  lemma DeleteAlone(w: World, id: nat, targetValid: bool, calls: nat)
    requires id !in w.processes && calls >= 4
    ensures RunFrom(w, Alone(id, DeleteReading, targetValid, calls)) ==
              w.(row := w.row.(status := DELETED), stored := if w.row.status == DELETED then w.stored else None,
                 processes := w.processes[id := Finished(DeletedUpload)])
  {
    hide RunFrom, Alone, Carry;
    RunsAlone(w, id, DeleteReading, targetValid, calls);
    assert w.(row := w.row, stored := w.stored) == w;
    CarryFirst(w, DeleteReading, targetValid, calls);
    if w.row.status == DELETED {
      FinishedStays(w, DeletedUpload, targetValid, calls - 1);
      return;
    }
    var cancelled := w.(row := w.row.(status := CANCELLED));
    var removed := cancelled.(stored := None);
    CarryFirst(w, DeleteCancelling, targetValid, calls - 1);
    CarryFirst(cancelled, DeleteRemoving, targetValid, calls - 2);
    CarryFirst(removed, DeleteUpdating, targetValid, calls - 3);
    FinishedStays(removed.(row := removed.row.(status := DELETED)), DeletedUpload, targetValid, calls - 4);
  }

  /** What a cleanup pass makes of a row, and of its object. */
  function CleanerResult(w: World): (Upload, Option<Info>) {
    var row := w.row;
    if !(row.status == PENDING && row.expiresAt < w.now - w.grace) then (row, w.stored)
    else if Declared(w) then (Completed(row), w.stored)
    else (row.(status := EXPIRED), None)
  }

  lemma CleanerInspects(w: World, targetValid: bool, calls: nat)
    requires calls >= 3 && w.row.status == PENDING && w.row.contentType.Media?
    ensures Carry(w, CleanerInspecting, targetValid, calls) ==
              if Declared(w) then (Completed(w.row), w.stored, Finished(PassEnded))
              else (w.row.(status := EXPIRED), None, Finished(PassEnded))
  {
    hide Carry;
    if w.stored.Some? {
      AcceptedAlike(w.row, w.stored.value);
    }
    assert w.(row := w.row, stored := w.stored) == w;
    CarryFirst(w, CleanerInspecting, targetValid, calls);
    if Declared(w) {
      CarryFirst(w, CleanerUpdating(w.stored.value), targetValid, calls - 1);
      FinishedStays(w.(row := Completed(w.row)), PassEnded, targetValid, calls - 2);
    } else {
      var gone := w.(stored := None);
      if w.stored.Some? {
        CarryFirst(w, CleanerRemoving, targetValid, calls - 1);
      }
      var left := if w.stored.Some? then calls - 2 else calls - 1;
      CarryFirst(gone, CleanerExpiring, targetValid, left);
      FinishedStays(gone.(row := w.row.(status := EXPIRED)), PassEnded, targetValid, left - 1);
    }
  }

  /**
   A cleanup pass by itself: past the grace period a pending row is completed if its object is as declared, and expired
   with any other object removed if not; every other row is left alone.
   */
  lemma CleanerAlone(w: World, id: nat, targetValid: bool, calls: nat)
    requires id !in w.processes && w.row.contentType.Media? && calls >= 4
    ensures var after := RunFrom(w, Alone(id, CleanerListing, targetValid, calls));
            var (row, stored) := CleanerResult(w);
            after == w.(row := row, stored := stored, processes := w.processes[id := Finished(PassEnded)])
  {
    hide RunFrom, Alone, Carry, Declared, Completed;
    RunsAlone(w, id, CleanerListing, targetValid, calls);
    assert w.(row := w.row, stored := w.stored) == w;
    CarryFirst(w, CleanerListing, targetValid, calls);
    if w.row.status == PENDING && w.row.expiresAt < w.now - w.grace {
      CleanerInspects(w, targetValid, calls - 1);
    } else {
      FinishedStays(w, PassEnded, targetValid, calls - 1);
    }
  }

  /** Initiate: a refused authorization fails the pending row, and a granted one leaves it alone. */
  lemma AuthorizationDecides(w: World, id: nat, effect: Effect, targetValid: bool)
    requires id in w.processes && w.processes[id] == SigningUrl
    ensures Next(w, Call(id, Works, targetValid)) == w.(processes := w.processes[id := Finished(PassEnded)])
    ensures Next(Next(w, Call(id, Fails(effect), targetValid)), Call(id, Works, targetValid)) ==
              w.(row := if w.row.status == PENDING then w.row.(status := FAILED) else w.row,
                 processes := w.processes[id := Finished(Failure)])
  {
    assert w.(row := w.row, stored := w.stored, late := w.late) == w;
    assert w.processes[id := FailingInitiate][id := Finished(Failure)] == w.processes[id := Finished(Failure)];
  }

  // ---- why a row has its status ----

  /** The call that decides a status: what it met when it was made. */
  predicate Decides(w: World, e: Event, status: Status) {
    && e.Call? && e.id in w.processes
    && var p := w.processes[e.id];
       match status
       case PENDING => false
       case COMPLETED => (p.CompleteInspecting? || p.CleanerInspecting?) && Declared(w)
       case FAILED => (p.CompleteInspecting? && w.stored.Some? && !Declared(w)) || (p.SigningUrl? && e.reply.Fails?)
       case EXPIRED => p.CleanerInspecting? && !Declared(w)
       case CANCELLED => p.DeleteReading?
       case DELETED => p.DeleteReading?
  }

  /** The status a process is about to write, if it is past its decision. */
  predicate Heads(p: Process, status: Status) {
    match p
    case FailingInitiate => status == FAILED
    case CompleteRejecting => status == FAILED
    case CompleteUpdating(_) => status == COMPLETED
    case CleanerUpdating(_) => status == COMPLETED
    case CleanerRemoving => status == EXPIRED
    case CleanerExpiring => status == EXPIRED
    case DeleteCancelling => status == CANCELLED || status == DELETED
    case DeleteRemoving => status == DELETED
    case DeleteUpdating => status == DELETED
    case _ => false
  }

  ghost predicate Decided(w: World, events: seq<Event>, status: Status) {
    exists k: nat :: k < |events| && Decides(RunFrom(w, events[..k]), events[k], status)
  }

  /** What a step adds: a status, or a process heading for one, is old or decided by this very call. */
  lemma StepDecides(w: World, e: Event, status: Status)
    requires w.row.contentType.Media?
    ensures Next(w, e).row.status == status ==>
              w.row.status == status || (e.Call? && e.id in w.processes && Heads(w.processes[e.id], status))
    ensures forall id | id in Next(w, e).processes && Heads(Next(w, e).processes[id], status) ::
              (id in w.processes && Heads(w.processes[id], status)) || Decides(w, e, status)
  {
    if w.stored.Some? {
      AcceptedAlike(w.row, w.stored.value);
    }
    if e.Call? && e.id in w.processes {
      AdvanceDecides(w, w.processes[e.id], e.reply, e.targetValid, status);
    }
    hide Advance, ServiceAccepts, CleanerAccepts, Heads;
  }

  ghost predicate Leads(w: World, p: Process, reply: Reply, targetValid: bool, status: Status) {
    var (row, stored, next) := Advance(w, p, reply, targetValid);
    && (row.status == status ==> w.row.status == status || Heads(p, status))
    && (Heads(next, status) ==>
          Heads(p, status) || Decides(w.(processes := map[0 := p]), Call(0, reply, targetValid), status))
  }

  lemma AdvanceDecides(w: World, p: Process, reply: Reply, targetValid: bool, status: Status)
    requires w.row.contentType.Media?
    ensures Leads(w, p, reply, targetValid, status)
  {
    if p.CompleteInspecting? || p.CleanerInspecting? {
      InspectionDecides(w, p, reply, targetValid, status);
    } else {
      OtherCallDecides(w, p, reply, targetValid, status);
    }
    hide Leads;
  }

  lemma InspectionDecides(w: World, p: Process, reply: Reply, targetValid: bool, status: Status)
    requires w.row.contentType.Media? && (p.CompleteInspecting? || p.CleanerInspecting?)
    ensures Leads(w, p, reply, targetValid, status)
  {
    if w.stored.Some? {
      AcceptedAlike(w.row, w.stored.value);
    }
    hide ServiceAccepts, CleanerAccepts, ServiceType;
  }

  lemma OtherCallDecides(w: World, p: Process, reply: Reply, targetValid: bool, status: Status)
    requires !p.CompleteInspecting? && !p.CleanerInspecting?
    ensures Leads(w, p, reply, targetValid, status)
  {
    hide ServiceAccepts, CleanerAccepts, ServiceType, Declared;
  }

  lemma {:induction false} EveryStatusIsDecided(w: World, events: seq<Event>, status: Status)
    requires Created(w) && status != PENDING
    ensures var after := RunFrom(w, events);
            && after.row.contentType.Media?
            && (after.row.status == status ==> Decided(w, events, status))
            && (forall id <- after.processes :: Heads(after.processes[id], status) ==> Decided(w, events, status))
  {
    hide Next, Heads, Decides;
    if events == [] {
      return;
    }
    var k := |events| - 1;
    var front, e, before := events[..k], events[k], RunFrom(w, events[..k]);
    EveryStatusIsDecided(w, front, status);
    StepDecides(before, e, status);
    KeepsMedia(before, e);
    hide RunFrom;
    LastEvent(w, front, e);
    assert front + [e] == events;
    if Decided(w, front, status) {
      DecidedEarlier(w, events, status);
    } else if Decides(before, e, status) {
      assert Decided(w, events, status);
    }
  }

  lemma KeepsMedia(w: World, e: Event)
    requires w.row.contentType.Media?
    ensures Next(w, e).row.contentType.Media?
  {
  }

  lemma DecidedEarlier(w: World, events: seq<Event>, status: Status)
    requires events != [] && Decided(w, events[..|events| - 1], status)
    ensures Decided(w, events, status)
  {
    hide Decides, RunFrom;
    var front := events[..|events| - 1];
    var k: nat :| k < |front| && Decides(RunFrom(w, front[..k]), front[k], status);
    assert front[..k] == events[..k] && front[k] == events[k];
  }

  /**
   In every run a status other than pending was decided by a call that met what calls for it: completed by an inspection
   that found the declared object, failed by one that found another or by a refused authorization, expired by a cleanup
   pass that did not find it, cancelled or deleted by a delete request.
   */
  lemma StatusHasItsReason(w: World, events: seq<Event>)
    requires Created(w)
    ensures var status := RunFrom(w, events).row.status; status != PENDING ==> Decided(w, events, status)
  {
    var status := RunFrom(w, events).row.status;
    if status != PENDING {
      EveryStatusIsDecided(w, events, status);
    }
    hide Decided;
  }

  // ---- why a caller was told what it was told ----

  /** The call after which a process answers, with what the answer says being so. */
  predicate Answers(w: World, e: Event, id: nat, answer: Answer) {
    && e.Call? && e.id == id && id in w.processes && !w.processes[id].Finished?
    && var after := Next(w, e);
       && after.processes[id] == Finished(answer)
       && match answer
          case CompletedUpload => after.row.status == COMPLETED
          case DeletedUpload => after.row.status == DELETED
          case Conflict => w.row.status != PENDING && w.row.status != COMPLETED
          case NotReady => w.now > w.row.expiresAt || w.stored == None
          case Forbidden => !e.targetValid
          case Invalid => w.processes[id].CompleteRejecting?
          case Failure => e.reply.Fails? || w.processes[id].FailingInitiate? || w.row.status == DELETED
          case PassEnded => true
  }

  /** Who reads the row again has found it settled before. */
  predicate Rereads(w: World, p: Process) {
    (p.CompleteRereading? ==> w.row.status != PENDING) && (p.DeleteRereading? ==> w.row.status == DELETED)
  }

  ghost predicate AllReread(w: World) {
    forall id <- w.processes :: Rereads(w, w.processes[id])
  }

  lemma StepAnswers(w: World, e: Event)
    requires AllReread(w)
    ensures AllReread(Next(w, e))
    ensures forall id <- Next(w, e).processes | Next(w, e).processes[id].Finished? ::
              (id in w.processes && w.processes[id] == Next(w, e).processes[id])
              || Answers(w, e, id, Next(w, e).processes[id].answer)
  {
    hide ServiceAccepts, CleanerAccepts, ServiceType;
    var after := Next(w, e);
    if e.Call? && e.id in w.processes {
      assert Rereads(w, w.processes[e.id]);
    }
    forall id | id in after.processes
      ensures Rereads(after, after.processes[id])
    {
      assert id in w.processes ==> Rereads(w, w.processes[id]);
    }
  }

  ghost predicate Answered(w: World, events: seq<Event>, id: nat, answer: Answer) {
    exists k: nat :: k < |events| && Answers(RunFrom(w, events[..k]), events[k], id, answer)
  }

  lemma AnsweredEarlier(w: World, events: seq<Event>, id: nat, answer: Answer)
    requires events != [] && Answered(w, events[..|events| - 1], id, answer)
    ensures Answered(w, events, id, answer)
  {
    hide Answers, RunFrom;
    var front := events[..|events| - 1];
    var k: nat :| k < |front| && Answers(RunFrom(w, front[..k]), front[k], id, answer);
    assert front[..k] == events[..k] && front[k] == events[k];
  }

  lemma {:induction false} EveryAnswerIsTrue(w: World, events: seq<Event>)
    requires Created(w)
    ensures var after := RunFrom(w, events);
            && AllReread(after)
            && (forall id <- after.processes | after.processes[id].Finished? ::
                  Answered(w, events, id, after.processes[id].answer))
  {
    hide Next, Answers, Rereads;
    if events == [] {
      return;
    }
    hide AllReread;
    var k := |events| - 1;
    var front, e, before := events[..k], events[k], RunFrom(w, events[..k]);
    EveryAnswerIsTrue(w, front);
    StepAnswers(before, e);
    LastEvent(w, front, e);
    assert front + [e] == events;
    hide RunFrom;
    var after := RunFrom(w, events);
    forall id | id in after.processes && after.processes[id].Finished?
      ensures Answered(w, events, id, after.processes[id].answer)
    {
      if id in before.processes && before.processes[id] == after.processes[id] {
        AnsweredEarlier(w, events, id, after.processes[id].answer);
      } else {
        assert Answers(RunFrom(w, events[..k]), events[k], id, after.processes[id].answer);
      }
    }
  }

  /**
   In every run an answer was true at the call that gave it: a caller told completed or deleted is told the status of
   the row then, one told of a conflict met a settled row, one told to wait met an expired authorization or no object.
   */
  lemma AnswersAreTrue(w: World, events: seq<Event>, id: nat)
    requires Created(w) && id in RunFrom(w, events).processes && RunFrom(w, events).processes[id].Finished?
    ensures Answered(w, events, id, RunFrom(w, events).processes[id].answer)
  {
    EveryAnswerIsTrue(w, events);
    hide Answered, RunFrom;
  }
}
