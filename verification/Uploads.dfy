/**
 The life of one upload row and its storage object under any number of concurrent requests and cleanup passes. Every
 repository and storage call is one step, any two of them may be separated by any other process's steps, and any call
 may fail with or without having taken effect. Each row has a path of its own, so rows do not interfere.
 */
module Uploads {
  import opened Wrappers

  /** Media(m): a value that parses as media type m, normalised. Opaque: one that does not parse. */
  datatype ContentType = Media(normal: string) | Opaque(text: string)

  const NO_TYPE := Opaque("")

  /** normalizedContentType: empty for anything that does not parse. */
  function ServiceType(value: ContentType): ContentType {
    if value.Media? then value else NO_TYPE
  }

  /** normalizedType: the value itself for anything that does not parse. */
  function CleanerType(value: ContentType): ContentType {
    value
  }

  datatype Info = Info(size: int, contentType: ContentType)

  datatype Status = PENDING | COMPLETED | FAILED | EXPIRED | CANCELLED | DELETED

  datatype Upload = Upload(
    contentType: ContentType, expectedSize: int, expiresAt: int, status: Status, verified: Option<Info>)

  predicate ServiceAccepts(row: Upload, info: Info) {
    && info.size == row.expectedSize
    && ServiceType(info.contentType) != NO_TYPE
    && ServiceType(info.contentType) == row.contentType
  }

  predicate CleanerAccepts(row: Upload, info: Info) {
    info.size == row.expectedSize && CleanerType(info.contentType) == CleanerType(row.contentType)
  }

  // ---- conditional updates: None when no row matched ----

  function MarkFailed(row: Upload): Option<Upload> {
    if row.status == PENDING then Some(row.(status := FAILED)) else None
  }

  function MarkCompleted(row: Upload, info: Info): Option<Upload> {
    if row.status == PENDING then Some(row.(status := COMPLETED, verified := Some(info))) else None
  }

  function MarkExpired(row: Upload): Option<Upload> {
    if row.status == PENDING then Some(row.(status := EXPIRED)) else None
  }

  function MarkCancelled(row: Upload): Option<Upload> {
    if row.status != DELETED then Some(row.(status := CANCELLED)) else None
  }

  function MarkDeleted(row: Upload): Option<Upload> {
    if row.status != DELETED then Some(row.(status := DELETED)) else None
  }

  // ---- processes ----

  datatype Answer = CompletedUpload | DeletedUpload | Conflict | NotReady | Forbidden | Invalid | Failure | PassEnded

  /** The next call a process makes. Finished keeps what it answered. */
  datatype Process =
    | SigningUrl
    | FailingInitiate
    | CompleteReading
    | CompleteValidating
    | CompleteInspecting
    | CompleteRejecting
    | CompleteUpdating(found: Info)
    | CompleteRereading
    | DeleteReading
    | DeleteCancelling
    | DeleteRemoving
    | DeleteUpdating
    | DeleteRereading
    | CleanerListing
    | CleanerInspecting
    | CleanerUpdating(matched: Info)
    | CleanerRemoving
    | CleanerExpiring
    | Finished(answer: Answer)

  /** A call that fails may have taken effect, and a removal that timed out may still do so at any later moment. */
  datatype Effect = Never | AtOnce | Later

  datatype Reply = Works | Fails(effect: Effect)

  /** late: removals that timed out and are still under way to the storage. */
  datatype World = World(row: Upload, stored: Option<Info>, late: nat, now: int, grace: int, processes: map<nat,
    Process>)

  datatype Event =
    | Tick(elapsed: nat)
    | Store(info: Info)
    | Start(id: nat, process: Process)
    | Call(id: nat, reply: Reply, targetValid: bool)
    | Land

  predicate Initial(p: Process) {
    p.SigningUrl? || p.CompleteReading? || p.DeleteReading? || p.CleanerListing?
  }

  predicate Effective(reply: Reply) {
    reply.Works? || reply.effect.AtOnce?
  }

  /** A row write: on failure the row may or may not have changed, and the caller learns nothing. */
  function Write(row: Upload, update: Option<Upload>, reply: Reply): Upload {
    if update.Some? && Effective(reply) then update.value else row
  }

  predicate RemovesObject(p: Process) {
    p.DeleteRemoving? || p.CleanerRemoving?
  }

  /** The row, the object and the process's next call after one call. */
  function Advance(w: World, p: Process, reply: Reply, targetValid: bool): (Upload, Option<Info>, Process) {
    var row, stored := w.row, w.stored;
    match p
    case Finished(_) => (row, stored, p)

    case SigningUrl => (row, stored, if reply.Works? then Finished(PassEnded) else FailingInitiate)
    case FailingInitiate => (Write(row, MarkFailed(row), reply), stored, Finished(Failure))

    case CompleteReading =>
      (row, stored,
       if reply.Fails? then Finished(Failure)
       else if row.status == COMPLETED then Finished(CompletedUpload)
       else if row.status != PENDING then Finished(Conflict)
       else if w.now > row.expiresAt then Finished(NotReady)
       else CompleteValidating)
    case CompleteValidating =>
      (row, stored,
       if reply.Fails? then Finished(Failure) else if !targetValid then Finished(Forbidden) else CompleteInspecting)
    case CompleteInspecting =>
      (row, stored,
       if reply.Fails? then Finished(Failure)
       else if stored.None? then Finished(NotReady)
       else if ServiceAccepts(row, stored.value) then
         CompleteUpdating(Info(stored.value.size, ServiceType(stored.value.contentType)))
       else CompleteRejecting)
    case CompleteRejecting => (Write(row, MarkFailed(row), reply), stored, Finished(Invalid))
    case CompleteUpdating(found) =>
      (Write(row, MarkCompleted(row, found), reply), stored,
       if reply.Fails? then Finished(Failure)
       else if MarkCompleted(row, found).Some? then Finished(CompletedUpload)
       else CompleteRereading)
    case CompleteRereading =>
      (row, stored,
       if reply.Fails? then Finished(Failure)
       else if row.status == COMPLETED then Finished(CompletedUpload)
       else Finished(Conflict))

    case DeleteReading =>
      (row, stored,
       if reply.Fails? then Finished(Failure)
       else if row.status == DELETED then Finished(DeletedUpload)
       else DeleteCancelling)
    // A cancel that finds no row leaves the caller without its id, so its second read finds nothing and it reports the
    // error.
    case DeleteCancelling =>
      (Write(row, MarkCancelled(row), reply), stored,
       if reply.Works? && MarkCancelled(row).Some? then DeleteRemoving else Finished(Failure))
    case DeleteRemoving =>
      (row, if Effective(reply) then None else stored, if reply.Works? then DeleteUpdating else Finished(Failure))
    case DeleteUpdating =>
      (Write(row, MarkDeleted(row), reply), stored,
       if reply.Fails? then Finished(Failure)
       else if MarkDeleted(row).Some? then Finished(DeletedUpload)
       else DeleteRereading)
    case DeleteRereading =>
      (row, stored, if reply.Works? && row.status == DELETED then Finished(DeletedUpload) else Finished(Failure))

    case CleanerListing =>
      (row, stored,
       if reply.Works? && row.status == PENDING && row.expiresAt < w.now - w.grace then CleanerInspecting
       else Finished(PassEnded))
    case CleanerInspecting =>
      (row, stored,
       if reply.Fails? then Finished(Failure)
       else if stored.None? then CleanerExpiring
       else if CleanerAccepts(row, stored.value) then
         CleanerUpdating(Info(stored.value.size, CleanerType(stored.value.contentType)))
       else CleanerRemoving)
    case CleanerUpdating(matched) => (Write(row, MarkCompleted(row, matched), reply), stored, Finished(PassEnded))
    case CleanerRemoving =>
      (row, if Effective(reply) then None else stored, if reply.Works? then CleanerExpiring else Finished(Failure))
    case CleanerExpiring => (Write(row, MarkExpired(row), reply), stored, Finished(PassEnded))
  }

  function Next(w: World, e: Event): World {
    match e
    case Tick(elapsed) => w.(now := w.now + elapsed)
    // Signed uploads do not overwrite: storage refuses one to a path that holds an object.
    case Store(info) => if w.stored.None? then w.(stored := Some(info)) else w
    case Start(id, process) =>
      if id !in w.processes && Initial(process) then w.(processes := w.processes[id := process]) else w
    case Call(id, reply, targetValid) =>
      if id in w.processes then
        var (row, stored, process) := Advance(w, w.processes[id], reply, targetValid);
        var late := if RemovesObject(w.processes[id]) && reply == Fails(Later) then w.late + 1 else w.late;
        w.(row := row, stored := stored, late := late, processes := w.processes[id := process])
      else w
    case Land => if w.late > 0 then w.(stored := None, late := w.late - 1) else w
  }

  function RunFrom(w: World, events: seq<Event>): World {
    if events == [] then w else Next(RunFrom(w, events[..|events| - 1]), events[|events| - 1])
  }

  /** A world in which Initiate has just created the row. */
  predicate Created(w: World) {
    && w.row.status == PENDING && w.row.contentType.Media? && w.row.verified.None?
    && w.stored.None? && w.late == 0 && w.processes == map[]
  }

  /** A cleanup pass is about to remove an object, or a removal that timed out may still land. */
  predicate Removing(w: World) {
    w.late > 0 || exists id <- w.processes :: w.processes[id].CleanerRemoving?
  }

  /** No object arrives while one is about to be removed. */
  predicate UploadsAvoidRemovals(w: World, events: seq<Event>) {
    events == [] ||
    var front := events[..|events| - 1];
    UploadsAvoidRemovals(w, front) && (events[|events| - 1].Store? ==> !Removing(RunFrom(w, front)))
  }

  // ---- the lifecycle order, in every run ----

  /** Where a row can get from a status in any number of updates. */
  predicate Reaches(a: Status, b: Status) {
    match a
    case PENDING => true
    case COMPLETED => b in {COMPLETED, CANCELLED, DELETED}
    case FAILED => b in {FAILED, CANCELLED, DELETED}
    case EXPIRED => b in {EXPIRED, CANCELLED, DELETED}
    case CANCELLED => b in {CANCELLED, DELETED}
    case DELETED => b == DELETED
  }

  /** A process that is past its cancellation. */
  predicate Deleting(p: Process) {
    p.DeleteRemoving? || p.DeleteUpdating? || p.DeleteRereading?
  }

  /** Whoever removes the object for a deletion has the row cancelled. */
  ghost predicate DeletersHold(w: World) {
    forall id <- w.processes :: Deleting(w.processes[id]) ==> w.row.status in {CANCELLED, DELETED}
  }

  lemma StepStatus(w: World, e: Event)
    requires DeletersHold(w)
    ensures var after := Next(w, e);
            && DeletersHold(after)
            && Reaches(w.row.status, after.row.status)
            && (after.row.status == DELETED && w.row.status != DELETED ==> w.row.status == CANCELLED)
            && after.row.(status := w.row.status, verified := w.row.verified) == w.row
  {
    var after := Next(w, e);
    forall id | id in after.processes
      ensures Deleting(after.processes[id]) ==> after.row.status in {CANCELLED, DELETED}
    {
      if id in w.processes {
        assert Deleting(w.processes[id]) ==> w.row.status in {CANCELLED, DELETED};
      }
    }
  }

  lemma {:induction false} RunHolds(w: World, events: seq<Event>)
    requires DeletersHold(w)
    ensures DeletersHold(RunFrom(w, events)) && Reaches(w.row.status, RunFrom(w, events).row.status)
  {
    if events != [] {
      RunHolds(w, events[..|events| - 1]);
      StepStatus(RunFrom(w, events[..|events| - 1]), events[|events| - 1]);
    }
    hide Next, DeletersHold;
  }

  /**
   In every run: a completed, failed or expired row can only be cancelled, a cancelled row can only be deleted, a
   deleted row stays deleted, and no row is deleted without having been cancelled.
   */
  lemma Lifecycle(w: World, events: seq<Event>, more: seq<Event>)
    requires Created(w)
    ensures var before, after := RunFrom(w, events), RunFrom(w, events + more);
            && Reaches(before.row.status, after.row.status)
            && (more != [] && after.row.status == DELETED ==>
                  RunFrom(w, events + more[..|more| - 1]).row.status in {CANCELLED, DELETED})
  {
    RunHolds(w, events);
    RunHolds(RunFrom(w, events), more);
    RunConcat(w, events, more);
    if more != [] {
      var front := more[..|more| - 1];
      RunHolds(w, events + front);
      assert (events + more)[..|events + more| - 1] == events + front;
      StepStatus(RunFrom(w, events + front), more[|more| - 1]);
    }
    hide Next, Reaches;
  }

  lemma {:induction false} RunConcat(w: World, a: seq<Event>, b: seq<Event>)
    ensures RunFrom(w, a + b) == RunFrom(RunFrom(w, a), b)
  {
    if b == [] {
      assert a + b == a;
    } else {
      RunConcat(w, a, b[..|b| - 1]);
      assert (a + b)[..|a + b| - 1] == a + b[..|b| - 1];
    }
    hide Next;
  }

  // ---- a completed row and its object ----

  predicate Match(row: Upload, info: Info) {
    info.size == row.expectedSize && info.contentType == row.contentType
  }

  lemma AcceptedAlike(row: Upload, info: Info)
    requires row.contentType.Media?
    ensures ServiceAccepts(row, info) <==> Match(row, info)
    ensures CleanerAccepts(row, info) <==> Match(row, info)
    ensures ServiceAccepts(row, info) ==> ServiceType(info.contentType) == info.contentType
  {
  }

  /** The object a process found is still there, unless the row has been cancelled since. */
  predicate StillThere(w: World, found: Info) {
    Match(w.row, found) && (w.stored == Some(found) || w.row.status in {CANCELLED, DELETED})
  }

  /** What a process's next call says about the object. */
  predicate Knows(w: World, p: Process) {
    && (p.CompleteUpdating? ==> StillThere(w, p.found))
    && (p.CleanerUpdating? ==> StillThere(w, p.matched))
    && (p.CleanerRemoving? ==> !(w.stored.Some? && Match(w.row, w.stored.value)))
  }

  /** The row, the object and the removals under way. */
  predicate ObjectSafe(w: World) {
    && w.row.contentType.Media?
    && (w.late > 0 && w.row.status !in {CANCELLED, DELETED} ==> !(w.stored.Some? && Match(w.row, w.stored.value)))
    && (w.row.status == COMPLETED ==>
          w.row.verified.Some? && Match(w.row, w.row.verified.value) && w.stored == w.row.verified)
  }

  ghost predicate Safe(w: World) {
    DeletersHold(w) && ObjectSafe(w) && forall id <- w.processes :: Knows(w, w.processes[id])
  }

  /** What one call does under the other processes: a declared object only goes once the row is cancelled. */
  predicate Moves(w: World, after: World) {
    && after.row.(status := w.row.status, verified := w.row.verified) == w.row
    && (w.row.status in {CANCELLED, DELETED} ==> after.row.status in {CANCELLED, DELETED})
    && (after.stored != w.stored ==>
          after.stored.None? && (w.row.status in {CANCELLED, DELETED} || !Match(w.row, w.stored.value)))
  }

  lemma AdvanceSafe(w: World, p: Process, reply: Reply, targetValid: bool)
    requires ObjectSafe(w) && Knows(w, p) && (Deleting(p) ==> w.row.status in {CANCELLED, DELETED})
    ensures var (row, stored, process) := Advance(w, p, reply, targetValid);
            var late := if RemovesObject(p) && reply == Fails(Later) then w.late + 1 else w.late;
            var after := w.(row := row, stored := stored, late := late);
            ObjectSafe(after) && Knows(after, process) && Moves(w, after)
  {
    hide ServiceAccepts, CleanerAccepts, ServiceType;
    if w.stored.Some? {
      AcceptedAlike(w.row, w.stored.value);
    }
  }

  lemma StillKnows(w: World, after: World, p: Process)
    requires Knows(w, p) && Moves(w, after)
    ensures Knows(after, p)
  {
  }

  lemma CallSafe(w: World, id: nat, reply: Reply, targetValid: bool)
    requires Safe(w) && id in w.processes && DeletersHold(Next(w, Call(id, reply, targetValid)))
    ensures Safe(Next(w, Call(id, reply, targetValid)))
  {
    hide Advance, Knows, ObjectSafe, Moves;
    var after := Next(w, Call(id, reply, targetValid));
    assert Knows(w, w.processes[id]);
    AdvanceSafe(w, w.processes[id], reply, targetValid);
    var moved := w.(row := after.row, stored := after.stored, late := after.late);
    forall other | other in after.processes
      ensures Knows(after, after.processes[other])
    {
      if other != id {
        StillKnows(w, moved, w.processes[other]);
      }
      KnowsWorld(moved, after, after.processes[other]);
    }
    ObjectWorld(moved, after);
  }

  /** What a process knows and what is stored do not depend on the other processes. */
  lemma KnowsWorld(w: World, after: World, p: Process)
    requires after == w.(processes := after.processes) && Knows(w, p)
    ensures Knows(after, p)
  {
  }

  lemma ObjectWorld(w: World, after: World)
    requires after == w.(processes := after.processes) && ObjectSafe(w)
    ensures ObjectSafe(after)
  {
  }

  lemma StepSafe(w: World, e: Event)
    requires Safe(w) && (e.Store? ==> !Removing(w))
    ensures Safe(Next(w, e))
  {
    StepStatus(w, e);
    if e.Call? && e.id in w.processes {
      CallSafe(w, e.id, e.reply, e.targetValid);
    } else {
      QuietSafe(w, e);
    }
    hide Safe, Next;
  }

  lemma QuietSafe(w: World, e: Event)
    requires Safe(w) && (e.Store? ==> !Removing(w)) && !(e.Call? && e.id in w.processes) && DeletersHold(Next(w, e))
    ensures Safe(Next(w, e))
  {
    hide DeletersHold;
    var after := Next(w, e);
    forall id | id in after.processes
      ensures Knows(after, after.processes[id])
    {
      assert id in w.processes ==> Knows(w, w.processes[id]);
    }
  }

  lemma {:induction false} EveryRunIsSafe(w: World, events: seq<Event>)
    requires Created(w) && UploadsAvoidRemovals(w, events)
    ensures Safe(RunFrom(w, events))
  {
    if events != [] {
      EveryRunIsSafe(w, events[..|events| - 1]);
      StepSafe(RunFrom(w, events[..|events| - 1]), events[|events| - 1]);
    }
    hide Next, Safe, Removing;
  }

  /**
   When no object arrives while one is about to be removed, a completed row has its object in storage, as it was
   verified, with nobody about to remove it. The path may be uploaded to again after a removal.
   */
  lemma CompletedHasItsObject(w: World, events: seq<Event>)
    requires Created(w) && UploadsAvoidRemovals(w, events)
    ensures var after := RunFrom(w, events);
            after.row.status == COMPLETED ==>
              && after.stored == after.row.verified == Some(Info(w.row.expectedSize, w.row.contentType))
              && after.late == 0
              && (forall id <- after.processes ::
                   !Deleting(after.processes[id]) && !after.processes[id].CleanerRemoving?)
  {
    EveryRunIsSafe(w, events);
    RowIsFixed(w, events);
    var after := RunFrom(w, events);
    assert forall id <- after.processes :: Knows(after, after.processes[id]);
  }

  // ---- what was verified, whatever happens to the object ----

  predicate FoundMatch(row: Upload, p: Process) {
    (p.CompleteUpdating? ==> Match(row, p.found)) && (p.CleanerUpdating? ==> Match(row, p.matched))
  }

  ghost predicate Checked(w: World) {
    && w.row.contentType.Media?
    && (forall id <- w.processes :: FoundMatch(w.row, w.processes[id]))
    && (w.row.verified.Some? ==> Match(w.row, w.row.verified.value))
    && (w.row.status == COMPLETED ==> w.row.verified.Some?)
  }

  lemma StepChecked(w: World, e: Event)
    requires Checked(w)
    ensures Checked(Next(w, e))
    ensures Next(w, e).row.(status := w.row.status, verified := w.row.verified) == w.row
  {
    var after := Next(w, e);
    forall id | id in after.processes
      ensures FoundMatch(after.row, after.processes[id])
    {
      assert id in w.processes ==> FoundMatch(w.row, w.processes[id]);
    }
  }

  /**
   In every run, whatever is uploaded when, what is recorded as verified has the declared size and type; a completed row
   has it.
   */
  lemma {:induction false} VerifiedAsDeclared(w: World, events: seq<Event>)
    requires Created(w)
    ensures var row := RunFrom(w, events).row;
            && Checked(RunFrom(w, events))
            && row.(status := w.row.status, verified := w.row.verified) == w.row
            && (row.verified.Some? ==> row.verified.value == Info(w.row.expectedSize, w.row.contentType))
            && (row.status == COMPLETED ==> row.verified.Some?)
  {
    if events != [] {
      VerifiedAsDeclared(w, events[..|events| - 1]);
      StepChecked(RunFrom(w, events[..|events| - 1]), events[|events| - 1]);
    }
    hide Next;
  }

  // ---- exactly when a completed row keeps its object ----

  /** A completed row with the declared object, as the source would have verified it. */
  ghost predicate HasObject(w: World) {
    && DeletersHold(w)
    && w.row.contentType.Media? && w.row.status == COMPLETED
    && w.stored.Some? && Match(w.row, w.stored.value)
  }

  /** Still completed with the same object and no pass about to remove it, or on the way to deletion. */
  ghost predicate Keeps(w: World, after: World) {
    && DeletersHold(after)
    && Reaches(COMPLETED, after.row.status)
    && (after.row.status == COMPLETED ==> after.row == w.row && after.stored == w.stored && !Removing(after))
  }

  lemma StepKeepsObject(w: World, now: World, e: Event)
    requires HasObject(w) && Keeps(w, now)
    ensures Keeps(w, Next(now, e))
  {
    var after := Next(now, e);
    StepStatus(now, e);
    AcceptedAlike(w.row, w.stored.value);
    if after.row.status == COMPLETED {
      forall id | id in after.processes
        ensures !after.processes[id].CleanerRemoving?
      {
        assert id in now.processes ==> !now.processes[id].CleanerRemoving?;
      }
    }
  }

  lemma {:induction false} RunKeepsObject(w: World, events: seq<Event>)
    requires HasObject(w) && !Removing(w)
    ensures Keeps(w, RunFrom(w, events))
  {
    if events != [] {
      RunKeepsObject(w, events[..|events| - 1]);
      StepKeepsObject(w, RunFrom(w, events[..|events| - 1]), events[|events| - 1]);
    }
    hide Next;
  }

  /** After these events the row, if still completed, has the object it has now. */
  predicate ObjectStays(w: World, events: seq<Event>) {
    RunFrom(w, events).row.status == COMPLETED ==> RunFrom(w, events).stored == w.stored
  }

  /**
   Exactly when a completed row keeps its object for as long as it is completed, whatever any process or uploader does:
   if and only if no cleanup pass that found another object is about to remove it, and no removal that timed out may
   still land.
   */
  lemma CompletedKeepsObjectIff(w: World)
    requires HasObject(w)
    ensures (forall events: seq<Event> :: ObjectStays(w, events))
       <==> !Removing(w)
  {
    if Removing(w) {
      var remove := if w.late > 0 then Land
        else var id :| id in w.processes && w.processes[id].CleanerRemoving?; Call(id, Works, true);
      assert [remove][..0] == [];
      assert RunFrom(w, []) == w;
      assert RunFrom(w, [remove]) == Next(w, remove);
      assert !ObjectStays(w, [remove]);
    } else {
      forall events: seq<Event>
        ensures ObjectStays(w, events)
      {
        RunKeepsObject(w, events);
      }
    }
  }

  lemma {:induction false} RowIsFixed(w: World, events: seq<Event>)
    requires DeletersHold(w)
    ensures var row := RunFrom(w, events).row;
            row.expectedSize == w.row.expectedSize && row.contentType == w.row.contentType &&
              row.expiresAt == w.row.expiresAt
  {
    if events != [] {
      RowIsFixed(w, events[..|events| - 1]);
      RunHolds(w, events[..|events| - 1]);
      StepStatus(RunFrom(w, events[..|events| - 1]), events[|events| - 1]);
    }
    hide Next;
  }

  // ---- a run that loses the object ----

  const SMALL := Info(1, Media("image/png"))
  const RIGHT := Info(2, Media("image/png"))

  lemma OneMore(w: World, events: seq<Event>, k: nat)
    requires k < |events|
    ensures RunFrom(w, events[..k + 1]) == Next(RunFrom(w, events[..k]), events[k])
  {
    assert events[..k + 1][..k] == events[..k];
  }

  const NEW_UPLOAD := World(Upload(Media("image/png"), 2, 0, PENDING, None), None, 0, 10, 0, map[])

  const UPLOAD_AGAIN := [
    Store(SMALL),
    Start(0, CleanerListing), Call(0, Works, true), Call(0, Works, true),
    Start(1, CleanerListing), Call(1, Works, true), Call(1, Works, true),
    Call(0, Works, true),
    Store(RIGHT),
    Start(2, CleanerListing), Call(2, Works, true), Call(2, Works, true), Call(2, Works, true),
    Call(1, Works, true)]

  /** The world after k of these events. */
  function Moment(k: nat): World {
    var w := NEW_UPLOAD;
    var first := if k < 3 then CleanerListing else if k < 4 then CleanerInspecting else if k < 8 then CleanerRemoving
      else CleanerExpiring;
    var second := if k < 6 then CleanerListing else if k < 7 then CleanerInspecting else if k < 14 then CleanerRemoving
      else CleanerExpiring;
    var third := if k < 11 then CleanerListing else if k < 12 then CleanerInspecting
      else if k < 13 then CleanerUpdating(RIGHT) else Finished(PassEnded);
    World(
      if k < 13 then w.row else w.row.(status := COMPLETED, verified := Some(RIGHT)),
      if k == 0 || k == 8 || k == 14 then None else if k < 8 then Some(SMALL) else Some(RIGHT),
      0, 10, 0,
      if k < 2 then map[] else if k < 5 then map[0 := first] else if k < 10 then map[0 := first, 1 := second]
      else map[0 := first, 1 := second, 2 := third])
  }

  lemma MomentNext(k: nat)
    requires k < |UPLOAD_AGAIN|
    ensures Next(Moment(k), UPLOAD_AGAIN[k]) == Moment(k + 1)
  {
    if k < 4 {
      FirstMoments(k);
    } else if k < 9 {
      NextMoments(k);
    } else {
      LastMoments(k);
    }
    hide Next, Moment;
  }

  lemma FirstMoments(k: nat)
    requires k < 4
    ensures Next(Moment(k), UPLOAD_AGAIN[k]) == Moment(k + 1)
  {
    assert Next(Moment(k), UPLOAD_AGAIN[k]).processes == Moment(k + 1).processes;
  }

  lemma NextMoments(k: nat)
    requires 4 <= k < 9
    ensures Next(Moment(k), UPLOAD_AGAIN[k]) == Moment(k + 1)
  {
    assert Next(Moment(k), UPLOAD_AGAIN[k]).processes == Moment(k + 1).processes;
  }

  lemma LastMoments(k: nat)
    requires 9 <= k < |UPLOAD_AGAIN|
    ensures Next(Moment(k), UPLOAD_AGAIN[k]) == Moment(k + 1)
  {
    assert Next(Moment(k), UPLOAD_AGAIN[k]).processes == Moment(k + 1).processes;
  }

  /**
   The condition is needed although nothing is ever overwritten. Two passes find the wrong object; one removes it; the
   signed upload is used again with the right one; a third pass completes the row; the second then removes its object.
   */
  lemma UploadAgainLosesObject()
    ensures Created(NEW_UPLOAD)
    ensures RunFrom(NEW_UPLOAD, UPLOAD_AGAIN).row.status == COMPLETED
    ensures RunFrom(NEW_UPLOAD, UPLOAD_AGAIN).stored == None
  {
    for k := 0 to |UPLOAD_AGAIN|
      invariant RunFrom(NEW_UPLOAD, UPLOAD_AGAIN[..k]) == Moment(k)
    {
      OneMore(NEW_UPLOAD, UPLOAD_AGAIN, k);
      MomentNext(k);
    }
    assert UPLOAD_AGAIN[..|UPLOAD_AGAIN|] == UPLOAD_AGAIN;
  }
}
