/** Sync and Pull as the service runs them, each proved to be its transaction on the tables. */
module SyncService {
  import opened Wrappers
  import opened SyncModel
  import opened SyncStore
  import opened DirectExecution
  import opened ChangeLog
  import opened Ordering
  import opened NoteBatch
  import opened Transactions

  datatype SyncReply =
    | SyncResponse(accepted: seq<AcceptedBatch>, rejected: seq<BatchRejection>, published: Option<nat>)
    | SyncError(error: RequestError)

  class Server {
    const config: Config
    const service: Service

    constructor (config: Config)
      ensures this.config == config && service.limits == config.limits
    {
      this.config := config;
      this.service := new Service(config.limits);
    }

    /** The end of the run of one note that begins at start. */
    method FindRunEnd(operations: seq<ClientOperation>, start: nat) returns (end: nat)
      requires start < |operations| && Sorted(operations)
      ensures start < end <= |operations|
      ensures Batches(operations[start..]) == [operations[start..end]] + Batches(operations[end..])
      ensures OneNote(operations[start..end]) && SortedOperations(operations[start..end]) == operations[start..end]
    {
      var noteId := operations[start].noteId;
      end := start + 1;
      while end < |operations| && operations[end].noteId == noteId
        invariant start < end <= |operations|
        invariant forall i | start <= i < end :: operations[i].noteId == noteId
      {
        end := end + 1;
      }
      RunEnds(operations, start, end);
    }

    /** Applies one batch and adds its verdict to the response. */
    method ApplyRun(store: Store, who: Caller, batch: seq<ClientOperation>, accepted: seq<AcceptedBatch>,
                    rejected: seq<BatchRejection>, committedCursor: nat)
      returns (failed: bool, accepted': seq<AcceptedBatch>, rejected': seq<BatchRejection>, cursor: nat)
      requires service.limits == config.limits
      requires OneNote(batch) && SortedOperations(batch) == batch
      modifies store
      ensures PushNext(Pushing(old(store.tables), accepted, rejected, committedCursor), config.limits, who, batch)
           == if failed then PushFailed(store.tables) else Pushing(store.tables, accepted', rejected', cursor)
    {
      failed, accepted', rejected', cursor := false, accepted, rejected, committedCursor;
      var reply := service.ApplyOperationBatch(store, who, batch);
      match reply {
        case BatchError =>
          failed := true;
        case RejectedReply(rejection) =>
          rejected' := rejected + [rejection];
        case AcceptedReply(note, version, batchCursor) =>
          accepted' := accepted + [AcceptedBatch(note, version)];
          if batchCursor > committedCursor {
            cursor := batchCursor;
          }
      }
    }

    /** The grouping loop: each run of one note is independently accepted or rejected. */
    method ApplyRuns(store: Store, who: Caller, operations: seq<ClientOperation>) returns (reply: SyncReply)
      requires service.limits == config.limits
      requires Sorted(operations)
      requires forall i | 0 <= i < |Batches(operations)| :: Batches(operations)[i] != []
      modifies store
      ensures match PushAll(old(store.tables), config.limits, who, Batches(operations))
              case Pushing(after, accepted, rejected, cursor) =>
                && store.tables == after
                && reply == SyncResponse(accepted, rejected, if cursor > 0 then Some(cursor) else None)
              case PushFailed(after) => store.tables == after && reply == SyncError(ServerError)
    {
      ghost var t0, batches, k := store.tables, Batches(operations), 0;
      var accepted, rejected, committedCursor := [], [], 0;
      var start := 0;
      assert operations[0..] == operations;
      PushNone(t0, config.limits, who, batches);
      hide PushAll, PushNext, Sorted;
      while start < |operations|
        invariant 0 <= start <= |operations| && 0 <= k <= |batches|
        invariant batches[k..] == Batches(operations[start..])
        invariant PushAll(t0, config.limits, who, batches[..k])
            == Pushing(store.tables, accepted, rejected, committedCursor)
      {
        var end := FindRunEnd(operations, start);
        assert batches[k] == batches[k..][0] == operations[start..end];
        assert batches[k + 1..] == batches[k..][1..] == Batches(operations[end..]);
        PushAllNext(t0, config.limits, who, batches, k);
        var failed;
        failed, accepted, rejected, committedCursor :=
          ApplyRun(store, who, operations[start..end], accepted, rejected, committedCursor);
        k := k + 1;
        if failed {
          PushStopsHere(t0, config.limits, who, batches, k);
          return SyncError(ServerError);
        }
        start := end;
      }
      assert batches[..k] == batches by {
        assert batches[k..] == [];
      }
      reply := SyncResponse(accepted, rejected, if committedCursor > 0 then Some(committedCursor) else None);
    }

    method Sync(store: Store, owner: Id, request: Request) returns (reply: SyncReply)
      requires service.limits == config.limits
      modifies store
      ensures match Push(old(store.tables), config, owner, request)
              case Pushed(after, accepted, rejected, published) =>
                store.tables == after && reply == SyncResponse(accepted, rejected, published)
              case PushError(after, error) => store.tables == after && reply == SyncError(error)
    {
      if !request.Valid(config.maxOperations) {
        return SyncError(BadRequest);
      }
      var begin := store.tables;
      var problem := DeviceProblem(store.tables, request.deviceId, owner);
      if problem.Some? {
        store.Rollback(begin);
        return SyncError(problem.value);
      }
      RequestBatchesWellFormed(request);
      SortSorts(request.operations);
      reply := ApplyRuns(store, Caller(owner, request.deviceId), SortedOperations(request.operations));
      if reply.SyncError? {
        store.Rollback(begin);
      }
    }

    /** nextCursor: a running maximum over the page. */
    method CursorAfter(start: int, changes: seq<Change>) returns (next: int)
      ensures next == NextCursor(start, changes)
    {
      next := start;
      for i := 0 to |changes|
        invariant next == NextCursor(start, changes[..i])
      {
        assert changes[..i + 1][..i] == changes[..i];
        if changes[i].sequence > next {
          next := changes[i].sequence;
        }
      }
      assert changes[..|changes|] == changes;
    }

    method PullPage(store: Store, owner: Id, request: PullRequest) returns (reply: Option<Page>,
      error: Option<RequestError>)
      modifies store`tables
      ensures match Pull(old(store.tables), config, owner, request)
              case Pulled(after, page) => store.tables == after && reply == Some(page) && error == None
              case PullError(problem) => store.tables == old(store.tables) && reply == None && error == Some(problem)
    {
      if !request.Valid() {
        return None, Some(BadRequest);
      }
      var limit := config.defaultPullLimit;
      if limit > config.maxPullLimit {
        limit := config.maxPullLimit;
      }
      var problem := DeviceProblem(store.tables, request.deviceId, owner);
      if problem.Some? {
        return None, problem;
      }
      ghost var feed := Select(store.tables.log, Feed(owner, request.deviceId, request.cursor));
      var changes := QueryFeed(store.tables.log, owner, request.deviceId, request.cursor, limit + 1);
      var hasMore := false;
      if |changes| > limit {
        hasMore := true;
        changes := changes[..limit];
        assert changes == feed[..limit];
      }
      hide Select;
      var next := CursorAfter(request.cursor, changes);
      store.UpdateDeviceCursor(request.deviceId, owner, next);
      return Some(Page(changes, hasMore, next)), None;
    }
  }

  /** GetChangesAfterCursor with its LIMIT. */
  function QueryFeed(log: seq<Change>, owner: Id, device: string, cursor: int, limit: nat): seq<Change> {
    var feed := Select(log, Feed(owner, device, cursor));
    if |feed| > limit then feed[..limit] else feed
  }

  lemma {:induction false} RunLengthIs(s: seq<ClientOperation>, n: nat)
    requires 1 <= n <= |s|
    requires forall i | 0 <= i < n :: s[i].noteId == s[0].noteId
    requires n < |s| ==> s[n].noteId != s[0].noteId
    ensures RunLength(s) == n
  {
    if n > 1 {
      assert s[1].noteId == s[0].noteId;
      RunLengthIs(s[1..], n - 1);
    }
  }

  /** The inner loop stops exactly at the end of the run. */
  lemma RunEnds(operations: seq<ClientOperation>, start: nat, end: nat)
    requires start < end <= |operations|
    requires forall i | start <= i < end :: operations[i].noteId == operations[start].noteId
    requires end < |operations| ==> operations[end].noteId != operations[start].noteId
    requires Sorted(operations)
    ensures Batches(operations[start..]) == [operations[start..end]] + Batches(operations[end..])
    ensures OneNote(operations[start..end]) && SortedOperations(operations[start..end]) == operations[start..end]
  {
    var rest := operations[start..];
    RunLengthIs(rest, end - start);
    assert rest[..end - start] == operations[start..end];
    assert rest[end - start..] == operations[end..];
    SortIdempotent(operations[start..end]);
  }

  lemma PushNone(t: Tables, limits: SnapshotThresholds, who: Caller, batches: seq<seq<ClientOperation>>)
    requires forall i | 0 <= i < |batches| :: batches[i] != []
    ensures PushAll(t, limits, who, batches[..0]) == Pushing(t, [], [], 0)
  {
  }

  lemma PushAllNext(t: Tables, limits: SnapshotThresholds, who: Caller, batches: seq<seq<ClientOperation>>, k: nat)
    requires k < |batches|
    requires forall i | 0 <= i < |batches| :: batches[i] != []
    requires PushAll(t, limits, who, batches[..k]).Pushing?
    ensures PushAll(t, limits, who, batches[..k + 1])
         == PushNext(PushAll(t, limits, who, batches[..k]), limits, who, batches[k])
  {
    hide PushNext;
    assert batches[..k + 1][..k] == batches[..k];
  }

  lemma {:induction false} PushStopsHere(t: Tables, limits: SnapshotThresholds, who: Caller,
    batches: seq<seq<ClientOperation>>, k: nat)
    requires k <= |batches|
    requires forall i | 0 <= i < |batches| :: batches[i] != []
    requires !PushAll(t, limits, who, batches[..k]).Pushing?
    ensures PushAll(t, limits, who, batches) == PushAll(t, limits, who, batches[..k])
    decreases |batches|
  {
    hide PushNext;
    if k == |batches| {
      assert batches[..k] == batches;
    } else {
      var n := |batches| - 1;
      assert batches[..n][..k] == batches[..k];
      PushStopsHere(t, limits, who, batches[..n], k);
    }
  }
}
