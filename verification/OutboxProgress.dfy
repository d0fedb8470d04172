/**
 What the outbox achieves: every enqueued job can be done within a bounded wait, and a lease keeps other workers out.
 */
module OutboxProgress {
  import opened Wrappers
  import opened SyncModel
  import opened SyncStore
  import opened DirectExecution
  import opened Transactions
  import opened Runs
  import opened Outbox

  predicate Free(w: World, worker: nat) {
    worker in w.workers ==> w.workers[worker] == Idle
  }

  /** Exactly when a free worker gets a job: not done, its time has come, and no lease on it is running. */
  predicate Open(w: World, lease: int, i: nat) {
    && i < |w.jobs| && !w.jobs[i].completed && w.now >= w.jobs[i].availableAt
    && (w.jobs[i].lockedAt.Some? ==> w.now > w.jobs[i].lockedAt.value + lease)
  }

  lemma ClaimTakesOpen(w: World, lease: int, worker: nat, i: nat)
    requires Free(w, worker)
    ensures Next(w, lease, Claim(worker, i)) ==
              if Open(w, lease, i) then
                w.(jobs := w.jobs[i := Job(false, Some(w.now), w.jobs[i].attempts + 1, w.jobs[i].availableAt)],
                   workers := w.workers[worker := Processing(i)])
              else w
  {
  }

  // ---- waits are bounded ----

  /** No retry is scheduled more than a minute ahead, and no lease begins in the future. */
  ghost predicate Timely(w: World) {
    forall i | 0 <= i < |w.jobs| ::
      w.jobs[i].availableAt <= w.now + 60 && (w.jobs[i].lockedAt.Some? ==> w.jobs[i].lockedAt.value <= w.now)
  }

  lemma StepTimely(w: World, lease: int, e: Event)
    requires Timely(w)
    ensures Timely(Next(w, lease, e)) && Next(w, lease, e).now >= w.now
  {
    hide Execute, SnapshotTables, CreateSnapshot;
  }

  lemma {:induction false} RunTimely(w: World, lease: int, events: seq<Event>)
    requires Timely(w)
    ensures Timely(RunWorkers(w, lease, events)) && RunWorkers(w, lease, events).now >= w.now
  {
    hide Next, Timely;
    if events != [] {
      RunTimely(w, lease, events[..|events| - 1]);
      StepTimely(RunWorkers(w, lease, events[..|events| - 1]), lease, events[|events| - 1]);
    }
  }

  lemma RunNext(w: World, lease: int, events: seq<Event>, e: Event)
    ensures RunWorkers(w, lease, events + [e]) == Next(RunWorkers(w, lease, events), lease, e)
  {
    hide Next;
    assert (events + [e])[..|events|] == events;
  }

  /** A wait, and then one worker's claim, snapshot and completion. */
  function Attempt(worker: nat, i: nat, wait: nat): seq<Event> {
    [Tick(wait), Claim(worker, i), Process(worker, Works), Finish(worker, Works)]
  }

  lemma AttemptSteps(w: World, lease: int, worker: nat, i: nat, wait: nat)
    ensures RunWorkers(w, lease, Attempt(worker, i, wait)) ==
              Next(Next(Next(Next(w, lease, Tick(wait)), lease, Claim(worker, i)), lease, Process(worker, Works)),
                lease, Finish(worker, Works))
  {
    hide Next;
    var events := Attempt(worker, i, wait);
    assert RunWorkers(w, lease, []) == w;
    RunNext(w, lease, [], events[0]);
    RunNext(w, lease, [events[0]], events[1]);
    RunNext(w, lease, [events[0], events[1]], events[2]);
    RunNext(w, lease, [events[0], events[1], events[2]], events[3]);
    assert [] + [events[0]] == [events[0]] && [events[0]] + [events[1]] == [events[0], events[1]];
    assert [events[0], events[1]] + [events[2]] == [events[0], events[1], events[2]];
    assert [events[0], events[1], events[2]] + [events[3]] == events;
  }

  /** A worker that has a job whose note is there does it. */
  lemma ClaimedIsDone(w: World, lease: int, worker: nat, i: nat)
    requires Delivered(w) && i < |w.jobs| && worker in w.workers && w.workers[worker] == Processing(i)
    ensures Next(Next(w, lease, Process(worker, Works)), lease, Finish(worker, Works)).jobs
         == w.jobs[i := w.jobs[i].(completed := true, lockedAt := None)]
  {
    hide Good, SnapshotFor, SnapshotTables, CreateSnapshot;
    assert w.tables.jobs[i] in w.tables.jobs;
    SnapshotAppends(w.tables, w.tables.jobs[i]);
  }

  /**
   In every run, whatever workers and replies were lost before: a minute and a lease later any free worker that claims
   an enqueued job and whose calls work completes it, with its snapshot stored.
   */
  lemma JobsCanBeDone(lease: int, events: seq<Event>, worker: nat, i: nat, wait: nat)
    requires wait >= 60 && wait > lease
    requires var w := RunWorkers(NO_JOBS, lease, events); Free(w, worker) && i < |w.jobs|
    ensures var after := RunWorkers(RunWorkers(NO_JOBS, lease, events), lease, Attempt(worker, i, wait));
            && i < |after.jobs| && after.jobs[i].completed
            && i < |after.tables.jobs| && SnapshotFor(after.tables, after.tables.jobs[i])
  {
    hide Next, Delivered, SnapshotFor, Timely;
    var w := RunWorkers(NO_JOBS, lease, events);
    EmptyIsGood();
    NoJobsYet();
    RunTimely(NO_JOBS, lease, events);
    RunDelivers(NO_JOBS, lease, events);
    RunDelivers(w, lease, Attempt(worker, i, wait));
    AttemptSteps(w, lease, worker, i, wait);
    var waited := Next(w, lease, Tick(wait));
    StepDelivers(w, lease, Tick(wait));
    if w.jobs[i].completed {
      DoneHasSnapshot(RunWorkers(w, lease, Attempt(worker, i, wait)), i);
      return;
    }
    WaitOpens(w, lease, worker, i, wait);
    ClaimTakesOpen(waited, lease, worker, i);
    var claimed := Next(waited, lease, Claim(worker, i));
    StepDelivers(waited, lease, Claim(worker, i));
    ClaimedIsDone(claimed, lease, worker, i);
    DoneHasSnapshot(RunWorkers(w, lease, Attempt(worker, i, wait)), i);
  }

  lemma NoJobsYet()
    ensures Timely(NO_JOBS) && (Good(EMPTY_TABLES) ==> Delivered(NO_JOBS))
  {
  }

  lemma DoneHasSnapshot(w: World, i: nat)
    requires Delivered(w) && i < |w.jobs| && w.jobs[i].completed
    ensures i < |w.tables.jobs| && SnapshotFor(w.tables, w.tables.jobs[i])
  {
  }

  lemma WaitOpens(w: World, lease: int, worker: nat, i: nat, wait: nat)
    requires Timely(w) && Free(w, worker) && i < |w.jobs| && !w.jobs[i].completed && wait >= 60 && wait > lease
    ensures Open(Next(w, lease, Tick(wait)), lease, i) && Free(Next(w, lease, Tick(wait)), worker)
  {
  }

  // ---- leases and retries ----

  predicate NoFinish(events: seq<Event>) {
    forall e <- events :: !e.Finish?
  }

  /** From a claim until its lease has run out, and as long as no worker reports, nobody else gets the job. */
  lemma {:induction false} LeaseExcludes(w: World, lease: int, events: seq<Event>, i: nat)
    requires i < |w.jobs| && w.jobs[i].lockedAt == Some(w.now) && NoFinish(events)
    requires RunWorkers(w, lease, events).now <= w.now + lease
    ensures var after := RunWorkers(w, lease, events); i < |after.jobs| && after.jobs[i] == w.jobs[i]
  {
    hide Next;
    if events != [] {
      var front, e := events[..|events| - 1], events[|events| - 1];
      assert events == front + [e];
      TimePasses(RunWorkers(w, lease, front), lease, e);
      LeaseExcludes(w, lease, front, i);
      LockedStays(RunWorkers(w, lease, front), lease, e, i);
    }
  }

  lemma TimePasses(w: World, lease: int, e: Event)
    ensures Next(w, lease, e).now >= w.now
  {
    hide Execute, SnapshotTables, CreateSnapshot;
  }

  lemma LockedStays(w: World, lease: int, e: Event, i: nat)
    requires i < |w.jobs| && w.jobs[i].lockedAt.Some? && w.now <= w.jobs[i].lockedAt.value + lease && !e.Finish?
    ensures i < |Next(w, lease, e).jobs| && Next(w, lease, e).jobs[i] == w.jobs[i]
  {
    hide Execute, SnapshotTables, CreateSnapshot;
  }

  function Delay(attempts: int): int {
    if attempts <= 0 then 1 else if attempts >= 12 then 60 else 5 * attempts
  }

  /**
   A reported failure frees the job but not yet: it opens again after five seconds for each attempt, at most a minute.
   */
  lemma FailureDelays(w: World, lease: int, worker: nat, i: nat, attempts: int)
    requires worker in w.workers && w.workers[worker] == Failing(i, attempts) && i < |w.jobs| && !w.jobs[i].completed
    ensures var after := Next(w, lease, Finish(worker, Works));
            && after.jobs == w.jobs[i := Job(false, None, w.jobs[i].attempts, w.now + Delay(attempts))]
            && after.workers == w.workers[worker := Idle]
            && (forall wait: nat :: Open(Next(after, lease, Tick(wait)), lease, i) <==> wait >= Delay(attempts))
  {
  }

  /** A failed call makes the worker report a failure, with the attempts of its claim; a crash only leaves the lease. */
  lemma FailuresAreReported(w: World, lease: int, worker: nat, i: nat, tookEffect: bool)
    requires worker in w.workers && w.workers[worker] == Processing(i) && i < |w.jobs| && i < |w.tables.jobs|
    ensures Next(w, lease, Process(worker, Fails(tookEffect))).workers
         == w.workers[worker := Failing(i, w.jobs[i].attempts)]
    ensures Next(w, lease, Crash(worker)) == w.(workers := w.workers[worker := Idle])
  {
    hide SnapshotTables, CreateSnapshot;
  }
}
