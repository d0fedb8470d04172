/** Pulling page after page: nothing is missed, nothing comes twice, and the pages end. */
module PullFeed {
  import opened Wrappers
  import opened SyncModel
  import opened SyncStore
  import opened ChangeLog
  import opened Ledger
  import opened Transactions
  import opened Runs

  // ---- one page ----

  lemma CutUnique(feed: seq<Change>, early: seq<Change>, late: seq<Change>, k: nat, cut: int)
    requires feed == early + late && k <= |feed|
    requires forall c <- early :: c.sequence <= cut
    requires forall c <- late :: c.sequence > cut
    requires forall i | 0 <= i < |feed| :: i < k <==> feed[i].sequence <= cut
    ensures early == feed[..k] && late == feed[k..]
  {
    assert |early| > 0 ==> feed[|early| - 1] in early;
    assert |early| < |feed| ==> feed[|early|] in late;
  }

  /**
   A page is the window of the feed up to the cursor it returns; the rest of the feed is the feed after that cursor.
   */
  lemma PageIsWindow(log: seq<Change>, owner: Id, device: string, cursor: int, limit: nat)
    requires Increasing(log)
    ensures var feed := Select(log, Feed(owner, device, cursor)); var page := PageOf(log, owner, device, cursor, limit);
            && page.nextCursor >= cursor
            && page.changes == Select(log, Window(owner, device, cursor, page.nextCursor))
            && feed == page.changes + Select(log, Feed(owner, device, page.nextCursor))
            && |page.changes| == (if |feed| > limit then limit else |feed|)
            && (page.hasMore <==> Select(log, Feed(owner, device, page.nextCursor)) != [])
            && (page.nextCursor == cursor || exists c <- log :: c.sequence == page.nextCursor)
  {
    var feed := Select(log, Feed(owner, device, cursor));
    var page := PageOf(log, owner, device, cursor, limit);
    var k, next := |page.changes|, page.nextCursor;
    SelectMembers(log, Feed(owner, device, cursor));
    SelectMembers(log, Window(owner, device, cursor, next));
    SelectMembers(log, Feed(owner, device, next));
    SelectIncreasing(log, Feed(owner, device, cursor));
    FeedSplits(log, owner, device, cursor, next);
    assert page.changes == feed[..k];
    hide Select;
    CursorCuts(feed, cursor, k);
    CutUnique(feed, Select(log, Window(owner, device, cursor, next)), Select(log, Feed(owner, device, next)), k, next);
    assert k > 0 ==> feed[k - 1] in feed;
  }

  /** The cursor after the first k entries separates them from the rest. */
  lemma CursorCuts(feed: seq<Change>, start: int, k: nat)
    requires Increasing(feed) && k <= |feed|
    requires forall c <- feed :: c.sequence > start
    ensures forall i | 0 <= i < |feed| :: i < k <==> feed[i].sequence <= NextCursor(start, feed[..k])
    ensures NextCursor(start, feed[..k]) == if k == 0 then start else feed[k - 1].sequence
  {
    hide NextCursor;
    forall i | 0 <= i < |feed|
      ensures feed[i].sequence > start
    {
      assert feed[i] in feed;
    }
    if k > 0 {
      LastIsLargest(start, feed[..k]);
    } else {
      EmptyCursor(start);
    }
  }

  lemma EmptyCursor(start: int)
    ensures NextCursor(start, []) == start
  {
  }

  lemma LastIsLargest(start: int, changes: seq<Change>)
    requires changes != [] && Increasing(changes) && changes[0].sequence > start
    ensures NextCursor(start, changes) == changes[|changes| - 1].sequence
  {
    assert changes[|changes| - 1] in changes;
    forall c <- changes
      ensures start < c.sequence <= changes[|changes| - 1].sequence
    {
      var i :| 0 <= i < |changes| && changes[i] == c;
    }
  }

  // ---- chains of pages ----

  /** Logs a client may see from one pull to the next: entries are only appended, with larger sequences. */
  ghost predicate Growing(logs: seq<seq<Change>>) {
    && (forall i | 0 <= i < |logs| :: Increasing(logs[i]))
    && (forall i | 0 < i < |logs| :: Extended(logs[i - 1], logs[i]))
  }

  predicate Extended(log: seq<Change>, more: seq<Change>) {
    |log| <= |more| && more[..|log|] == log
  }

  /** What a client has received, and the cursor it holds, after pulling once from each log in turn. */
  function Received(logs: seq<seq<Change>>, owner: Id, device: string, cursor: int, limit: nat): (seq<Change>, int) {
    if logs == [] then ([], cursor)
    else
      var n := |logs| - 1;
      var before := Received(logs[..n], owner, device, cursor, limit);
      var page := PageOf(logs[n], owner, device, before.1, limit);
      (before.0 + page.changes, page.nextCursor)
  }

  /** Up to a cursor already reached, later entries change nothing. */
  lemma WindowStays(log: seq<Change>, more: seq<Change>, owner: Id, device: string, after: int, upTo: int)
    requires Increasing(log) && Increasing(more) && Extended(log, more)
    requires upTo <= after || exists c <- log :: upTo <= c.sequence
    ensures Select(more, Window(owner, device, after, upTo)) == Select(log, Window(owner, device, after, upTo))
  {
    var tail := more[|log|..];
    assert more == log + tail;
    SelectConcat(log, tail, Window(owner, device, after, upTo));
    forall c <- tail
      ensures !Window(owner, device, after, upTo).Admits(c)
    {
      var i :| 0 <= i < |tail| && tail[i] == c;
      assert more[|log| + i] == c;
      if upTo > after {
        var e :| e in log && upTo <= e.sequence;
        var j :| 0 <= j < |log| && log[j] == e;
        assert more[..|log|][j] == more[j];
      }
    }
    SelectNothing(tail, Window(owner, device, after, upTo));
  }

  ghost predicate ReachedIn(log: seq<Change>, start: int, cursor: int) {
    start <= cursor && (cursor <= start || exists c <- log :: cursor <= c.sequence)
  }

  /** Whatever is pushed between the pages, they join up to one window of the last log. */
  lemma {:induction false} ReceivedIsWindow(logs: seq<seq<Change>>, owner: Id, device: string, cursor: int, limit: nat)
    requires Growing(logs) && logs != []
    ensures var (changes, reached) := Received(logs, owner, device, cursor, limit); var log := logs[|logs| - 1];
            && ReachedIn(log, cursor, reached)
            && changes == Select(log, Window(owner, device, cursor, reached))
  {
    var n := |logs| - 1;
    var log := logs[n];
    var (front, at) := Received(logs[..n], owner, device, cursor, limit);
    if n > 0 {
      assert forall i | 0 <= i < n :: logs[..n][i] == logs[i];
      ReceivedIsWindow(logs[..n], owner, device, cursor, limit);
      StillReached(logs[n - 1], log, owner, device, cursor, at);
    } else {
      NothingBetween(log, owner, device, cursor);
    }
    hide Select, ReachedIn;
    OnePageFurther(log, owner, device, cursor, at, limit);
  }

  lemma StillReached(log: seq<Change>, more: seq<Change>, owner: Id, device: string, cursor: int, at: int)
    requires Increasing(log) && Increasing(more) && Extended(log, more) && ReachedIn(log, cursor, at)
    ensures ReachedIn(more, cursor, at)
    ensures Select(more, Window(owner, device, cursor, at)) == Select(log, Window(owner, device, cursor, at))
  {
    WindowStays(log, more, owner, device, cursor, at);
    if at > cursor {
      var c :| c in log && at <= c.sequence;
      var i :| 0 <= i < |log| && log[i] == c;
      assert more[..|log|][i] == more[i];
      assert c in more;
    }
  }

  lemma OnePageFurther(log: seq<Change>, owner: Id, device: string, cursor: int, at: int, limit: nat)
    requires Increasing(log) && ReachedIn(log, cursor, at)
    ensures var page := PageOf(log, owner, device, at, limit);
            && ReachedIn(log, cursor, page.nextCursor)
            && Select(log, Window(owner, device, cursor, at)) + page.changes
                 == Select(log, Window(owner, device, cursor, page.nextCursor))
  {
    PageIsWindow(log, owner, device, at, limit);
    WindowsJoin(log, owner, device, cursor, at, PageOf(log, owner, device, at, limit).nextCursor);
    hide Select, PageOf;
  }

  lemma NothingBetween(log: seq<Change>, owner: Id, device: string, cursor: int)
    ensures Select(log, Window(owner, device, cursor, cursor)) == []
  {
    SelectNothing(log, Window(owner, device, cursor, cursor));
  }

  /** Adjacent windows make one. */
  lemma {:induction false} WindowsJoin(log: seq<Change>, owner: Id, device: string, a: int, b: int, c: int)
    requires Increasing(log) && a <= b <= c
    ensures Select(log, Window(owner, device, a, b)) + Select(log, Window(owner, device, b, c))
        == Select(log, Window(owner, device, a, c))
  {
    if log != [] {
      var front, last := log[..|log| - 1], log[|log| - 1];
      WindowsJoin(front, owner, device, a, b, c);
      if last.sequence <= b {
        SelectNothing(front, Window(owner, device, b, c));
      }
    }
  }

  /**
   A drained pull is exact: the pages so far and what is still to come are the whole feed after the first cursor, in
   ascending order; once a page says there is no more, the pages alone are.
   */
  lemma DrainedPull(logs: seq<seq<Change>>, owner: Id, device: string, cursor: int, limit: nat)
    requires Growing(logs) && logs != []
    ensures var (changes, reached) := Received(logs, owner, device, cursor, limit); var log := logs[|logs| - 1];
            && changes + Select(log, Feed(owner, device, reached)) == Select(log, Feed(owner, device, cursor))
            && Increasing(changes)
            && (LastPage(logs, owner, device, cursor, limit).hasMore <==>
                 changes != Select(log, Feed(owner, device, cursor)))
  {
    var log := logs[|logs| - 1];
    var (changes, reached) := Received(logs, owner, device, cursor, limit);
    ReceivedIsWindow(logs, owner, device, cursor, limit);
    FeedSplits(log, owner, device, cursor, reached);
    SelectIncreasing(log, Window(owner, device, cursor, reached));
    var at := Received(logs[..|logs| - 1], owner, device, cursor, limit).1;
    PageIsWindow(log, owner, device, at, limit);
    var rest := Select(log, Feed(owner, device, reached));
    assert |changes + rest| == |changes| + |rest|;
    hide Select, PageOf, Growing;
  }

  function LastPage(logs: seq<seq<Change>>, owner: Id, device: string, cursor: int, limit: nat): Page
    requires logs != []
  {
    var n := |logs| - 1;
    PageOf(logs[n], owner, device, Received(logs[..n], owner, device, cursor, limit).1, limit)
  }

  // ---- the pages end ----

  /** A client pulling until there is no more, while nothing is pushed. */
  function Drain(log: seq<Change>, owner: Id, device: string, cursor: int, limit: nat): (r: seq<Change>)
    requires Increasing(log) && limit >= 1
    ensures r == Select(log, Feed(owner, device, cursor))
    decreases |Select(log, Feed(owner, device, cursor))|
  {
    PageIsWindow(log, owner, device, cursor, limit);
    var page := PageOf(log, owner, device, cursor, limit);
    if page.hasMore then page.changes + Drain(log, owner, device, page.nextCursor, limit) else page.changes
  }

  // ---- the availability check ----

  lemma SelectNonEmpty(log: seq<Change>, which: Selection)
    ensures Select(log, which) != [] <==> exists c <- log :: which.Admits(c)
  {
    SelectMembers(log, which);
    if Select(log, which) != [] {
      assert Select(log, which)[0] in log;
    }
    if exists c <- log :: which.Admits(c) {
      var c :| c in log && which.Admits(c);
      assert c in Select(log, which);
    }
  }

  /** There is nothing to fetch exactly when a pull at the stored cursor would be empty. */
  lemma AvailableIffPullNonEmpty(t: Tables, config: Config, owner: Id, device: string)
    requires config.Valid() && device in t.devices
    ensures UpdatesAvailable(t, owner, device)
       <==> PageOf(t.log, owner, device, t.devices[device].cursor, config.PullLimit()).changes != []
  {
    SelectNonEmpty(t.log, Feed(owner, device, t.devices[device].cursor));
  }

  /**
   After a pull that says there is no more, the check says so too; for a client at its stored cursor the two agree.
   */
  lemma DrainedIsUpToDate(t: Tables, config: Config, owner: Id, request: PullRequest)
    requires Increasing(t.log)
    ensures match Pull(t, config, owner, request)
            case Pulled(after, page) =>
              && request.deviceId in after.devices
              && (!page.hasMore ==> !UpdatesAvailable(after, owner, request.deviceId))
              && (request.cursor >= t.devices[request.deviceId].cursor ==>
                    (page.hasMore <==> UpdatesAvailable(after, owner, request.deviceId)))
            case PullError(_) => true
  {
    PageIsWindow(t.log, owner, request.deviceId, request.cursor, config.PullLimit());
    var page := PageOf(t.log, owner, request.deviceId, request.cursor, config.PullLimit());
    SelectNonEmpty(t.log, Feed(owner, request.deviceId, page.nextCursor));
  }

  // ---- over runs of the server ----

  /** The log at each pull when some transactions run before each of them. */
  ghost function LogsOf(config: Config, txs: seq<Transaction>, between: seq<seq<Transaction>>): (seq<seq<Change>>,
    seq<Transaction>) {
    if between == [] then ([], txs)
    else
      var n := |between| - 1;
      var (logs, sofar) := LogsOf(config, txs, between[..n]);
      (logs + [RunAll(config, sofar + between[n]).log], sofar + between[n])
  }

  lemma {:induction false} RunLogsGrow(config: Config, txs: seq<Transaction>, between: seq<seq<Transaction>>)
    ensures var (logs, sofar) := LogsOf(config, txs, between);
            && |logs| == |between| && Growing(logs)
            && (logs != [] ==> logs[|logs| - 1] == RunAll(config, sofar).log)
  {
    if between != [] {
      var n := |between| - 1;
      RunLogsGrow(config, txs, between[..n]);
      var (logs, sofar) := LogsOf(config, txs, between[..n]);
      hide RunAll, Growing;
      RunsAppend(config, sofar, between[n]);
      GrowingAppend(logs, RunAll(config, sofar + between[n]).log);
    } else {
      assert Growing([]);
    }
  }

  lemma RunsAppend(config: Config, txs: seq<Transaction>, more: seq<Transaction>)
    ensures RunAll(config, txs).log <= RunAll(config, txs + more).log && Increasing(RunAll(config, txs + more).log)
  {
    EveryRunIsGood(config, txs + more);
    NothingIsUndone(config, txs, more);
    hide RunAll, KeepsRows;
  }

  lemma GrowingAppend(logs: seq<seq<Change>>, log: seq<Change>)
    requires Growing(logs) && Increasing(log) && (logs != [] ==> logs[|logs| - 1] <= log)
    ensures Growing(logs + [log])
  {
    hide Increasing;
  }

  /** In every run of the server, with any transactions between the pages, the drained pull is exact. */
  lemma DrainedPullInEveryRun(config: Config, txs: seq<Transaction>, between: seq<seq<Transaction>>, owner: Id,
    device: string, cursor: int)
    requires between != []
    ensures var logs := LogsOf(config, txs, between).0;
            && |logs| == |between|
            && var (changes, reached) := Received(logs, owner, device, cursor, config.PullLimit());
               var log := logs[|logs| - 1];
               && Increasing(changes)
               && changes + Select(log, Feed(owner, device, reached)) == Select(log, Feed(owner, device, cursor))
               && (LastPage(logs, owner, device, cursor, config.PullLimit()).hasMore <==>
                    changes != Select(log, Feed(owner, device, cursor)))
  {
    RunLogsGrow(config, txs, between);
    DrainedPull(LogsOf(config, txs, between).0, owner, device, cursor, config.PullLimit());
  }
}
