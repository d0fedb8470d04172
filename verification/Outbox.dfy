/**
 The snapshot outbox: any number of workers claim jobs under leases, write snapshots, complete, fail, lose replies and
 crash, while the server runs its other transactions. Nothing below relies on a job being held by one worker only.
 */
module Outbox {
  import opened Wrappers
  import opened SyncModel
  import opened SyncStore
  import opened DirectExecution
  import opened ChangeLog
  import opened Ordering
  import opened Ledger
  import opened Transactions
  import opened Runs

  /** The part of an outbox row that workers change. Times are in seconds. */
  datatype Job = Job(completed: bool, lockedAt: Option<int>, attempts: int, availableAt: int)

  /** What a worker holds: nothing, a claimed job, or a processed one and its outcome. */
  datatype Worker =
    | Idle
    | Processing(job: nat)
    | Completing(job: nat)
    | Failing(job: nat, attempts: int)

  /** jobs[i] is the row of the payload tables.jobs[i]. */
  datatype World = World(tables: Tables, jobs: seq<Job>, workers: map<nat, Worker>, now: int)

  const MAX_RETRY_DELAY := 60

  /** retryDelay in seconds. */
  function RetryDelay(attempts: int): int {
    if attempts < 1 then 1
    else if attempts * 5 > MAX_RETRY_DELAY then MAX_RETRY_DELAY
    else attempts * 5
  }

  /** The claim query's filter. */
  predicate Claimable(j: Job, now: int, lease: int) {
    && !j.completed
    && j.availableAt <= now
    && (j.lockedAt.None? || j.lockedAt.value < now - lease)
  }

  /** How a database call ends for the worker: it works, or it fails with or without having taken effect. */
  datatype Reply = Works | Fails(tookEffect: bool)

  datatype Event =
    | Tick(elapsed: nat)
    | Server(config: Config, tx: Transaction)
    | Claim(worker: nat, job: nat)
    | Process(worker: nat, reply: Reply)
    | Finish(worker: nat, reply: Reply)
    | Crash(worker: nat)

  function NewJob(now: int): Job {
    Job(false, None, 0, now)
  }

  /** Rows for the jobs a transaction enqueued. */
  function WithNewJobs(jobs: seq<Job>, count: nat, now: int): seq<Job> {
    if |jobs| < count then jobs + seq(count - |jobs|, _ => NewJob(now)) else jobs
  }

  function SnapshotTables(t: Tables, payload: SnapshotPayload): Tables {
    match CreateSnapshot(t, payload) case Stored(after) => after case _ => t
  }

  ghost function Next(w: World, lease: int, e: Event): World {
    match e
    case Tick(elapsed) => w.(now := w.now + elapsed)
    case Server(config, tx) =>
      var after := Execute(w.tables, config, tx);
      w.(tables := after, jobs := WithNewJobs(w.jobs, |after.jobs|, w.now))
    case Claim(worker, job) =>
      if (worker in w.workers ==> w.workers[worker].Idle?) && job < |w.jobs| &&
        Claimable(w.jobs[job], w.now, lease) then
        w.(jobs := w.jobs[job := w.jobs[job].(lockedAt := Some(w.now), attempts := w.jobs[job].attempts + 1)],
           workers := w.workers[worker := Processing(job)])
      else w
    case Process(worker, reply) =>
      if worker in w.workers && w.workers[worker].Processing? && w.workers[worker].job < |w.jobs| &&
        w.workers[worker].job < |w.tables.jobs| then
        var job := w.workers[worker].job;
        var result := CreateSnapshot(w.tables, w.tables.jobs[job]);
        var failed := Failing(job, w.jobs[job].attempts);
        match reply
        case Works =>
          w.(tables := SnapshotTables(w.tables, w.tables.jobs[job]),
             workers := w.workers[worker := if result.Stored? then Completing(job) else failed])
        case Fails(tookEffect) =>
          w.(tables := if tookEffect then SnapshotTables(w.tables, w.tables.jobs[job]) else w.tables,
             workers := w.workers[worker := failed])
      else w
    case Finish(worker, reply) =>
      if worker in w.workers && !w.workers[worker].Idle? && w.workers[worker].job < |w.jobs| then
        var job := w.workers[worker].job;
        var row := w.jobs[job];
        match w.workers[worker]
        case Completing(_) =>
          w.(jobs := if reply.Works? || reply.tookEffect
                     then w.jobs[job := row.(completed := true, lockedAt := None)]
                     else w.jobs,
             workers := w.workers[worker := Idle])
        case Failing(_, attempts) =>
          w.(jobs := if reply.Works? || reply.tookEffect
                     then w.jobs[job := row.(lockedAt := None, availableAt := w.now + RetryDelay(attempts))]
                     else w.jobs,
             workers := w.workers[worker := Idle])
        case _ => w
      else w
    case Crash(worker) => w.(workers := w.workers[worker := Idle])
  }

  ghost function RunWorkers(w: World, lease: int, events: seq<Event>): World {
    if events == [] then w else Next(RunWorkers(w, lease, events[..|events| - 1]), lease, events[|events| - 1])
  }

  /** A stored snapshot of the job's note, of the expected version or a later one. */
  predicate SnapshotFor(t: Tables, payload: SnapshotPayload) {
    exists row <- t.snapshots :: row.noteId == payload.noteId && row.version >= payload.expectedVersion
  }

  /** A finished job, or one a worker is about to complete, has its snapshot. */
  ghost predicate Delivered(w: World) {
    && Good(w.tables)
    && |w.jobs| == |w.tables.jobs|
    && (forall i | 0 <= i < |w.jobs| && w.jobs[i].completed :: SnapshotFor(w.tables, w.tables.jobs[i]))
    && (forall id <- w.workers | w.workers[id].Completing? ::
          w.workers[id].job < |w.jobs| && SnapshotFor(w.tables, w.tables.jobs[w.workers[id].job]))
  }

  /** Transactions only append jobs and snapshots. */
  ghost predicate Appends(t: Tables, after: Tables) {
    && |t.jobs| <= |after.jobs| && after.jobs[..|t.jobs|] == t.jobs
    && (forall row <- t.snapshots :: row in after.snapshots)
  }

  lemma {:induction false} PushAllAppendsJobs(t: Tables, limits: SnapshotThresholds, who: Caller,
    batches: seq<seq<ClientOperation>>)
    requires Good(t)
    requires forall i | 0 <= i < |batches| :: batches[i] != [] && OneNote(batches[i])
    ensures var p := PushAll(t, limits, who, batches);
            p.Pushing? ==> |t.jobs| <= |p.tables.jobs| && p.tables.jobs[..|t.jobs|] == t.jobs
  {
    if batches != [] {
      var n := |batches| - 1;
      PushAllAppendsJobs(t, limits, who, batches[..n]);
      PushAllKeeps(t, limits, who, batches[..n]);
      var before := PushAll(t, limits, who, batches[..n]);
      if before.Pushing? {
        BatchAppendsJobs(before.tables, limits, who, batches[n]);
      }
    }
    hide ApplyBatch, Good, OneNote;
  }

  lemma BatchAppendsJobs(t: Tables, limits: SnapshotThresholds, who: Caller, ops: seq<ClientOperation>)
    requires Good(t) && OneNote(ops)
    ensures var after := ApplyBatch(t, limits, who, ops).tables;
            |t.jobs| <= |after.jobs| && after.jobs[..|t.jobs|] == t.jobs
  {
    BatchSettles(t, limits, who, ops);
    hide ApplyBatch, Good, Consistent, Extends;
  }

  lemma ExecuteAppends(t: Tables, config: Config, tx: Transaction)
    requires Good(t)
    ensures Appends(t, Execute(t, config, tx))
  {
    hide PushAll, RequestBatches, Good, Later, PageOf, CreateSnapshot;
    match tx {
      case PushTx(owner, request) =>
        RequestBatchesWellFormed(request);
        PushAllAppendsJobs(t, config.limits, Caller(owner, request.deviceId), RequestBatches(request));
        PushKeeps(t, config, owner, request);
      case SnapshotTx(payload) => CreateSnapshotKeeps(t, payload);
      case _ =>
    }
  }

  lemma JobsAreGood(t: Tables, payload: SnapshotPayload)
    requires Good(t)
    ensures payload in t.jobs ==> JobGood(t, payload)
  {
  }

  lemma BehindNever(t: Tables, payload: SnapshotPayload)
    requires CreateSnapshot(t, payload).Stored? && payload.noteId in t.notes
    ensures t.notes[payload.noteId].version >= payload.expectedVersion
  {
  }

  lemma SnapshotAppends(t: Tables, payload: SnapshotPayload)
    requires Good(t)
    ensures Good(SnapshotTables(t, payload)) && Appends(t, SnapshotTables(t, payload))
    ensures SnapshotTables(t, payload).jobs == t.jobs
    ensures CreateSnapshot(t, payload).Stored? ==> SnapshotFor(SnapshotTables(t, payload), payload)
    ensures payload in t.jobs ==> CreateSnapshot(t, payload).Stored?
  {
    JobsAreGood(t, payload);
    hide Good, DocumentOf, LastCursor, JobGood, Later, CreateSnapshot;
    CreateSnapshotKeeps(t, payload);
    if CreateSnapshot(t, payload).Stored? {
      assert RowOf(t, payload.noteId) in SnapshotTables(t, payload).snapshots;
      BehindNever(t, payload);
    }
  }

  lemma StillDelivered(t: Tables, after: Tables, payload: SnapshotPayload)
    requires Appends(t, after) && SnapshotFor(t, payload)
    ensures SnapshotFor(after, payload)
  {
  }

  lemma TablesMove(w: World, after: Tables, jobs: seq<Job>)
    requires Delivered(w) && Good(after) && Appends(w.tables, after)
    requires |jobs| == |after.jobs| && |w.jobs| <= |jobs| && jobs[..|w.jobs|] == w.jobs
    requires forall i | |w.jobs| <= i < |jobs| :: !jobs[i].completed
    ensures Delivered(w.(tables := after, jobs := jobs))
  {
    forall i | 0 <= i < |w.jobs|
      ensures after.jobs[i] == w.tables.jobs[i] && jobs[i] == w.jobs[i]
      ensures SnapshotFor(w.tables, w.tables.jobs[i]) ==> SnapshotFor(after, after.jobs[i])
    {
      assert after.jobs[i] == after.jobs[..|w.tables.jobs|][i];
      assert jobs[i] == jobs[..|w.jobs|][i];
      if SnapshotFor(w.tables, w.tables.jobs[i]) {
        StillDelivered(w.tables, after, w.tables.jobs[i]);
      }
    }
    hide SnapshotFor, Good, Appends;
  }

  lemma ServerStep(w: World, lease: int, config: Config, tx: Transaction)
    requires Delivered(w)
    ensures var after := Next(w, lease, Server(config, tx));
            Delivered(after) && |after.jobs| >= |w.jobs| && after.jobs[..|w.jobs|] == w.jobs
  {
    ExecuteKeeps(w.tables, config, tx);
    ExecuteAppends(w.tables, config, tx);
    var after := Execute(w.tables, config, tx);
    assert |w.tables.jobs| <= |after.jobs|;
    TablesMove(w, after, WithNewJobs(w.jobs, |after.jobs|, w.now));
    hide Execute, Good, SnapshotFor, Delivered;
  }

  lemma DeliveredParts(w: World)
    requires Delivered(w)
    ensures Good(w.tables) && |w.jobs| == |w.tables.jobs|
  {
  }

  lemma WorkersMove(w: World, worker: nat, state: Worker)
    requires Delivered(w)
    requires state.Completing? ==>
        state.job < |w.jobs| && state.job < |w.tables.jobs| && SnapshotFor(w.tables, w.tables.jobs[state.job])
    ensures Delivered(w.(workers := w.workers[worker := state]))
  {
    hide Good, SnapshotFor;
  }

  lemma ProcessStep(w: World, lease: int, worker: nat, reply: Reply)
    requires Delivered(w)
    ensures Delivered(Next(w, lease, Process(worker, reply)))
    ensures Next(w, lease, Process(worker, reply)).jobs == w.jobs
  {
    hide Good, SnapshotFor, SnapshotTables, CreateSnapshot, Appends, Delivered;
    if !(worker in w.workers && w.workers[worker].Processing? && w.workers[worker].job < |w.jobs|) {
      return;
    }
    assert |w.jobs| == |w.tables.jobs| && Good(w.tables) by {
      DeliveredParts(w);
    }
    var payload := w.tables.jobs[w.workers[worker].job];
    var after := Next(w, lease, Process(worker, reply));
    SnapshotAppends(w.tables, payload);
    TablesMove(w, SnapshotTables(w.tables, payload), w.jobs);
    WorkersMove(w.(tables := after.tables), worker, after.workers[worker]);
  }

  /** No step undoes a completion, and no completed job is without its snapshot. */
  lemma StepDelivers(w: World, lease: int, e: Event)
    requires Delivered(w)
    ensures var after := Next(w, lease, e);
            && Delivered(after)
            && |after.jobs| >= |w.jobs|
            && (forall i | 0 <= i < |w.jobs| :: w.jobs[i].completed ==> after.jobs[i].completed)
  {
    hide Execute, Good, SnapshotFor, SnapshotTables, CreateSnapshot;
    match e {
      case Server(config, tx) =>
        ServerStep(w, lease, config, tx);
        var after := Next(w, lease, e);
        assert forall i | 0 <= i < |w.jobs| :: after.jobs[i] == after.jobs[..|w.jobs|][i];
      case Process(worker, reply) => ProcessStep(w, lease, worker, reply);
      case _ =>
    }
  }

  lemma {:induction false} RunDelivers(w: World, lease: int, events: seq<Event>)
    requires Delivered(w)
    ensures var after := RunWorkers(w, lease, events);
            && Delivered(after)
            && |after.jobs| >= |w.jobs|
            && (forall i | 0 <= i < |w.jobs| :: w.jobs[i].completed ==> after.jobs[i].completed)
  {
    if events != [] {
      RunDelivers(w, lease, events[..|events| - 1]);
      StepDelivers(RunWorkers(w, lease, events[..|events| - 1]), lease, events[|events| - 1]);
    }
    hide Delivered, Next;
  }

  const NO_JOBS := World(EMPTY_TABLES, [], map[], 0)

  /**
   In every run of the server and any number of workers, a completed job's note has a stored snapshot of the expected
   version or a later one, and what is completed stays completed.
   */
  lemma CompletedJobsHaveSnapshots(lease: int, events: seq<Event>, more: seq<Event>, i: nat)
    requires i < |RunWorkers(NO_JOBS, lease, events).jobs|
    ensures var before, after := RunWorkers(NO_JOBS, lease, events), RunWorkers(NO_JOBS, lease, events + more);
            before.jobs[i].completed ==>
              && i < |after.jobs| == |after.tables.jobs|
              && after.jobs[i].completed
              && SnapshotFor(after.tables, after.tables.jobs[i])
  {
    EmptyIsGood();
    RunDelivers(NO_JOBS, lease, events);
    RunDelivers(RunWorkers(NO_JOBS, lease, events), lease, more);
    RunWorkersConcat(NO_JOBS, lease, events, more);
  }

  lemma {:induction false} RunWorkersConcat(w: World, lease: int, a: seq<Event>, b: seq<Event>)
    ensures RunWorkers(w, lease, a + b) == RunWorkers(RunWorkers(w, lease, a), lease, b)
  {
    if b == [] {
      assert a + b == a;
    } else {
      RunWorkersConcat(w, lease, a, b[..|b| - 1]);
      assert (a + b)[..|a + b| - 1] == a + b[..|b| - 1];
    }
    hide Next;
  }

  /** Processing an enqueued job never finds its note missing or behind: without a database error it succeeds. */
  lemma EnqueuedJobsSucceed(lease: int, events: seq<Event>, i: nat)
    requires i < |RunWorkers(NO_JOBS, lease, events).tables.jobs|
    ensures CreateSnapshot(RunWorkers(NO_JOBS, lease, events).tables,
        RunWorkers(NO_JOBS, lease, events).tables.jobs[i]).Stored?
  {
    EmptyIsGood();
    RunDelivers(NO_JOBS, lease, events);
    var t := RunWorkers(NO_JOBS, lease, events).tables;
    assert t.jobs[i] in t.jobs;
    SnapshotAppends(t, t.jobs[i]);
  }
}
