/** The request-level transactions as functions on the tables: push, pull and the availability check. */
module Transactions {
  import opened Wrappers
  import opened SyncModel
  import opened SyncStore
  import opened DirectExecution
  import opened ChangeLog
  import opened Ordering

  datatype Config = Config(maxOperations: int, defaultPullLimit: nat, maxPullLimit: nat, limits: SnapshotThresholds)
  {
    /** The limits the configuration loader accepts. */
    predicate Valid() {
      maxOperations >= 1 && 1 <= defaultPullLimit <= maxPullLimit
    }

    function PullLimit(): nat {
      if defaultPullLimit > maxPullLimit then maxPullLimit else defaultPullLimit
    }
  }

  datatype RequestError = BadRequest | Forbidden | DeviceRevoked | ServerError

  /** Ownership and revocation, as every sync endpoint checks them. */
  function DeviceProblem(t: Tables, device: string, owner: Id): Option<RequestError> {
    if device !in t.devices || t.devices[device].owner != owner then Some(Forbidden)
    else if t.devices[device].revoked then Some(DeviceRevoked)
    else None
  }

  // ---- push ----

  datatype AcceptedBatch = AcceptedBatch(noteId: Id, serverNoteVersion: int)

  datatype PushProgress =
    | Pushing(tables: Tables, accepted: seq<AcceptedBatch>, rejected: seq<BatchRejection>, cursor: nat)
    | PushFailed(tables: Tables)

  function PushNext(before: PushProgress, limits: SnapshotThresholds, who: Caller,
    batch: seq<ClientOperation>): PushProgress
    requires before.Pushing? && batch != []
  {
    match ApplyBatch(before.tables, limits, who, batch)
    case BatchAccepted(after, version, cursor) =>
      Pushing(after, before.accepted + [AcceptedBatch(batch[0].noteId, version)], before.rejected,
        if cursor > before.cursor then cursor else before.cursor)
    case BatchRejected(after, rejected) => before.(tables := after, rejected := before.rejected + [rejected])
    case BatchFailed(after) => PushFailed(after)
  }

  function PushAll(t: Tables, limits: SnapshotThresholds, who: Caller, batches: seq<seq<ClientOperation>>): PushProgress
    requires forall i | 0 <= i < |batches| :: batches[i] != []
  {
    if batches == [] then Pushing(t, [], [], 0)
    else
      var n := |batches| - 1;
      var before := PushAll(t, limits, who, batches[..n]);
      if before.Pushing? then PushNext(before, limits, who, batches[n]) else before
  }

  datatype PushResult =
    | Pushed(tables: Tables, accepted: seq<AcceptedBatch>, rejected: seq<BatchRejection>, published: Option<nat>)
    | PushError(tables: Tables, error: RequestError)

  /** The batches of a request in the order they are applied. */
  function RequestBatches(request: Request): seq<seq<ClientOperation>> {
    Batches(SortedOperations(request.operations))
  }

  lemma RequestBatchesWellFormed(request: Request)
    ensures IncreasingNotes(RequestBatches(request))
    ensures forall i | 0 <= i < |RequestBatches(request)| ::
        RequestBatches(request)[i] != [] && Sorted(RequestBatches(request)[i])
    ensures Flatten(RequestBatches(request)) == SortedOperations(request.operations)
  {
    SortSorts(request.operations);
    BatchesPartition(SortedOperations(request.operations));
  }

  ghost function Push(t: Tables, config: Config, owner: Id, request: Request): PushResult {
    if !request.Valid(config.maxOperations) then PushError(t, BadRequest)
    else match DeviceProblem(t, request.deviceId, owner)
    case Some(error) => PushError(t, error)
    case None =>
      RequestBatchesWellFormed(request);
      match PushAll(t, config.limits, Caller(owner, request.deviceId), RequestBatches(request))
      case Pushing(after, accepted, rejected, cursor) =>
        Pushed(after, accepted, rejected, if cursor > 0 then Some(cursor) else None)
      case PushFailed(after) => PushError(t.(nextSequence := after.nextSequence), ServerError)
  }

  // ---- pull ----

  datatype PullRequest = PullRequest(protocolVersion: int, deviceId: string, cursor: int)
  {
    predicate Valid() {
      protocolVersion == PROTOCOL_VERSION && ValidDeviceId(deviceId) && cursor >= 0
    }
  }

  datatype Page = Page(changes: seq<Change>, hasMore: bool, nextCursor: int)

  datatype PullResult =
    | Pulled(tables: Tables, page: Page)
    | PullError(error: RequestError)

  /** The largest sequence of the entries, or the start when none is larger. */
  function NextCursor(start: int, changes: seq<Change>): (next: int)
    ensures next >= start
    ensures forall c <- changes :: c.sequence <= next
    ensures next == start || exists c <- changes :: c.sequence == next
  {
    if changes == [] then start
    else
      var n := |changes| - 1;
      var before := NextCursor(start, changes[..n]);
      assert changes == changes[..n] + [changes[n]];
      if changes[n].sequence > before then changes[n].sequence else before
  }

  /** One page of the feed: at most limit entries, and whether the query found one more. */
  function PageOf(log: seq<Change>, owner: Id, device: string, cursor: int, limit: nat): Page {
    var feed := Select(log, Feed(owner, device, cursor));
    var changes := if |feed| > limit then feed[..limit] else feed;
    Page(changes, |feed| > limit, NextCursor(cursor, changes))
  }

  function Pull(t: Tables, config: Config, owner: Id, request: PullRequest): PullResult {
    if !request.Valid() then PullError(BadRequest)
    else match DeviceProblem(t, request.deviceId, owner)
    case Some(error) => PullError(error)
    case None =>
      var page := PageOf(t.log, owner, request.deviceId, request.cursor, config.PullLimit());
      Pulled(WithDeviceCursor(t, request.deviceId, owner, page.nextCursor), page)
  }

  /** HasChangesAfterCursor at the stored cursor. */
  function UpdatesAvailable(t: Tables, owner: Id, device: string): bool
    requires device in t.devices
  {
    exists c <- t.log :: Feed(owner, device, t.devices[device].cursor).Admits(c)
  }

  /** The availability check goes by the stored cursor, so its request carries none. */
  datatype CheckRequest = CheckRequest(protocolVersion: int, deviceId: string)
  {
    predicate Valid() {
      protocolVersion == PROTOCOL_VERSION && ValidDeviceId(deviceId)
    }
  }

  datatype CheckResult = Checked(available: bool) | CheckError(error: RequestError)

  function Check(t: Tables, owner: Id, request: CheckRequest): CheckResult {
    if !request.Valid() then CheckError(BadRequest)
    else match DeviceProblem(t, request.deviceId, owner)
    case Some(error) => CheckError(error)
    case None => Checked(UpdatesAvailable(t, owner, request.deviceId))
  }
}
