/**
 Who waits for whom. Transactions lock their device's row first, then the categories they change in the order their
 client gave, then the notes in increasing order; inserting a block's id waits for any open transaction that inserted
 it.
 */
module LockOrder {
  import opened Wrappers
  import opened SyncModel

  /** BlockKey: the primary key of a block another transaction has inserted and not committed. */
  datatype Row = DeviceRow(device: string) | CategoryRow(id: Id) | NoteRow(id: Id) | BlockKey(id: Id)

  datatype Holder = Holder(held: set<Row>, wants: Option<Row>)

  type Locks = map<nat, Holder>

  datatype Event =
    | Begin(id: nat)
    | Want(id: nat, row: Row)
    | Take(id: nat)
    | GiveBack(id: nat, rows: set<Row>)
    | End(id: nat)

  predicate Free(s: Locks, row: Row) {
    forall id <- s :: row !in s[id].held
  }

  /** A row is taken as soon as nobody holds it; a rollback to a savepoint gives rows back, the end gives back all. */
  function Next(s: Locks, e: Event): Locks {
    if e.Begin? then if e.id in s then s else s[e.id := Holder({}, None)]
    else if e.id !in s then s
    else
      var h := s[e.id];
      match e
      case Want(id, row) => if h.wants.None? && row !in h.held then s[id := h.(wants := Some(row))] else s
      case Take(id) => if h.wants.Some? && Free(s, h.wants.value) then s[id := Holder(h.held + {h.wants.value}, None)]
        else s
      case GiveBack(id, rows) => if h.wants.None? then s[id := h.(held := h.held - rows)] else s
      case End(id) => s - {id}
  }

  function RunLocks(events: seq<Event>): Locks {
    if events == [] then map[] else Next(RunLocks(events[..|events| - 1]), events[|events| - 1])
  }

  /** The order in which the sync transactions ask for rows. */
  predicate InSourceOrder(h: Holder, row: Row) {
    match row
    case DeviceRow(_) => h.held == {}
    case CategoryRow(_) => forall r <- h.held :: r.DeviceRow? || r.CategoryRow?
    case NoteRow(n) => forall r <- h.held :: r.NoteRow? ==> r.id < n
    case BlockKey(_) => true
  }

  predicate SourceRun(events: seq<Event>) {
    events == [] ||
    var front, e := events[..|events| - 1], events[|events| - 1];
    SourceRun(front) && (e.Want? && e.id in RunLocks(front) ==> InSourceOrder(RunLocks(front)[e.id], e.row))
  }

  // ---- waits on devices and notes ----

  /** Nothing is held twice, and whoever waits asked in order. */
  ghost predicate Orderly(s: Locks) {
    && (forall a <- s, b <- s :: a != b ==> s[a].held !! s[b].held)
    && (forall id <- s :: s[id].wants.Some? ==> InSourceOrder(s[id], s[id].wants.value))
  }

  lemma StepOrderly(s: Locks, e: Event)
    requires Orderly(s) && (e.Want? && e.id in s ==> InSourceOrder(s[e.id], e.row))
    ensures Orderly(Next(s, e))
  {
    var after := Next(s, e);
    forall a, b | a in after && b in after && a != b
      ensures after[a].held !! after[b].held
    {
      assert a in s && b in s ==> s[a].held !! s[b].held;
    }
  }

  lemma {:induction false} RunOrderly(events: seq<Event>)
    requires SourceRun(events)
    ensures Orderly(RunLocks(events))
  {
    hide Next, Orderly, InSourceOrder;
    if events == [] {
      NobodyYet();
    } else {
      var front, e := events[..|events| - 1], events[|events| - 1];
      RunOrderly(front);
      StepOrderly(RunLocks(front), e);
    }
  }

  lemma NobodyYet()
    ensures Orderly(map[])
  {
  }

  /** A waiting transaction gets its row exactly when nobody holds it; whoever ends or gives rows back frees them. */
  lemma RowsMove(s: Locks, id: nat, rows: set<Row>)
    requires Orderly(s) && id in s
    ensures var taken := Next(s, Take(id));
            s[id].wants.Some? ==>
              (s[id].wants.value in taken[id].held <==> Free(s, s[id].wants.value) || s[id].wants.value in s[id].held)
    ensures forall row <- s[id].held :: Free(Next(s, End(id)), row)
    ensures s[id].wants.None? ==> forall row <- s[id].held * rows :: Free(Next(s, GiveBack(id, rows)), row)
  {
    forall row | row in s[id].held
      ensures forall other <- s :: other != id ==> row !in s[other].held
    {
      assert forall other <- s :: other != id ==> s[other].held !! s[id].held;
    }
  }

  predicate WaitsFor(s: Locks, a: nat, b: nat) {
    a in s && b in s && a != b && s[a].wants.Some? && s[a].wants.value in s[b].held
  }

  predicate WaitChain(s: Locks, ids: seq<nat>) {
    forall i | 0 <= i < |ids| - 1 :: WaitsFor(s, ids[i], ids[i + 1])
  }

  predicate WaitsOnOrdered(s: Locks, id: nat) {
    id in s && s[id].wants.Some? && (s[id].wants.value.DeviceRow? || s[id].wants.value.NoteRow?)
  }

  predicate WantsNote(s: Locks, id: nat) {
    id in s && s[id].wants.Some? && s[id].wants.value.NoteRow?
  }

  function NoteWanted(s: Locks, id: nat): Id
    requires WantsNote(s, id)
  {
    s[id].wants.value.id
  }

  /**
   Along a chain of waits on device and note rows the notes waited for increase, and only the first may be a device.
   */
  lemma {:induction false} NotesIncrease(s: Locks, ids: seq<nat>)
    requires Orderly(s) && |ids| >= 2 && WaitChain(s, ids) && forall i | 0 <= i < |ids| :: WaitsOnOrdered(s, ids[i])
    ensures WantsNote(s, ids[|ids| - 1])
    ensures WantsNote(s, ids[0]) ==> NoteWanted(s, ids[0]) < NoteWanted(s, ids[|ids| - 1])
  {
    var k := |ids| - 1;
    var front := ids[..k];
    assert WaitsFor(s, ids[k - 1], ids[k]);
    if k > 1 {
      forall i | 0 <= i < |front| - 1
        ensures WaitsFor(s, front[i], front[i + 1])
      {
        assert WaitsFor(s, ids[i], ids[i + 1]);
      }
      NotesIncrease(s, front);
      assert front[|front| - 1] == ids[k - 1];
    }
  }

  /**
   However transactions interleave, whatever categories and blocks they also hold, waits on device and note rows alone
   never form a cycle: every deadlock of sync transactions goes through a category or a block id.
   */
  lemma DeviceAndNoteWaitsEnd(events: seq<Event>, ids: seq<nat>)
    requires SourceRun(events) && |ids| >= 2
    requires WaitChain(RunLocks(events), ids) && ids[|ids| - 1] == ids[0]
    ensures exists i | 0 <= i < |ids| :: !WaitsOnOrdered(RunLocks(events), ids[i])
  {
    RunOrderly(events);
    hide RunLocks, Orderly, WaitsFor;
    if forall i | 0 <= i < |ids| :: WaitsOnOrdered(RunLocks(events), ids[i]) {
      NotesIncrease(RunLocks(events), ids);
      assert false;
    }
  }

  // ---- what closes the gap ----

  /** A rank under which every request of a run climbs: above everything its transaction holds. */
  predicate Climbs(h: Holder, row: Row, rank: Row -> int) {
    forall r <- h.held :: rank(r) < rank(row)
  }

  predicate ClimbingRun(events: seq<Event>, rank: Row -> int) {
    events == [] ||
    var front, e := events[..|events| - 1], events[|events| - 1];
    ClimbingRun(front, rank) && (e.Want? && e.id in RunLocks(front) ==> Climbs(RunLocks(front)[e.id], e.row, rank))
  }

  ghost predicate AllClimb(s: Locks, rank: Row -> int) {
    forall id <- s :: s[id].wants.Some? ==> Climbs(s[id], s[id].wants.value, rank)
  }

  lemma {:induction false} RunClimbs(events: seq<Event>, rank: Row -> int)
    requires ClimbingRun(events, rank)
    ensures AllClimb(RunLocks(events), rank)
  {
    if events != [] {
      RunClimbs(events[..|events| - 1], rank);
    }
    hide Free;
  }

  lemma {:induction false} RanksIncrease(s: Locks, ids: seq<nat>, rank: Row -> int)
    requires AllClimb(s, rank) && |ids| >= 2 && WaitChain(s, ids) && ids[|ids| - 1] in s
    requires s[ids[|ids| - 1]].wants.Some?
    ensures ids[0] in s && s[ids[0]].wants.Some? && rank(s[ids[0]].wants.value) < rank(s[ids[|ids| - 1]].wants.value)
  {
    var k := |ids| - 1;
    var front := ids[..k];
    assert WaitsFor(s, ids[k - 1], ids[k]);
    if k > 1 {
      forall i | 0 <= i < |front| - 1
        ensures WaitsFor(s, front[i], front[i + 1])
      {
        assert WaitsFor(s, ids[i], ids[i + 1]);
      }
      RanksIncrease(s, front, rank);
    }
  }

  /** Whatever the rows are, transactions that all ask in one rising order never deadlock. */
  lemma ClimbingNeverDeadlocks(events: seq<Event>, rank: Row -> int, ids: seq<nat>)
    requires ClimbingRun(events, rank) && |ids| >= 2 && WaitChain(RunLocks(events), ids)
    ensures ids[|ids| - 1] != ids[0]
  {
    RunClimbs(events, rank);
    if ids[|ids| - 1] == ids[0] {
      assert WaitsFor(RunLocks(events), ids[0], ids[1]);
      RanksIncrease(RunLocks(events), ids, rank);
    }
    hide RunLocks, AllClimb;
  }

  // ---- deadlocks the source order allows ----

  /** Two transactions that ask for x and y in opposite order, after a row of their own. */
  function Crossing(p: Row, q: Row, x: Row, y: Row): seq<Event> {
    [Begin(0), Want(0, p), Take(0), Begin(1), Want(1, q), Take(1),
     Want(0, x), Take(0), Want(1, y), Take(1), Want(0, y), Want(1, x)]
  }

  function CrossingAt(p: Row, q: Row, x: Row, y: Row, k: nat): Locks {
    var first :=
      if k < 2 then Holder({}, None) else if k < 3 then Holder({}, Some(p)) else if k < 7 then Holder({p}, None)
      else if k < 8 then Holder({p}, Some(x)) else if k < 11 then Holder({p, x}, None) else Holder({p, x}, Some(y));
    var second :=
      if k < 5 then Holder({}, None) else if k < 6 then Holder({}, Some(q)) else if k < 9 then Holder({q}, None)
      else if k < 10 then Holder({q}, Some(y)) else if k < 12 then Holder({q, y}, None) else Holder({q, y}, Some(x));
    if k == 0 then map[] else if k < 4 then map[0 := first] else map[0 := first, 1 := second]
  }

  predicate Different(p: Row, q: Row, x: Row, y: Row) {
    p != q && p != x && p != y && q != x && q != y && x != y
  }

  lemma CrossingNext(p: Row, q: Row, x: Row, y: Row, k: nat)
    requires k < |Crossing(p, q, x, y)| && Different(p, q, x, y)
    ensures Next(CrossingAt(p, q, x, y, k), Crossing(p, q, x, y)[k]) == CrossingAt(p, q, x, y, k + 1)
  {
    var next, after := Next(CrossingAt(p, q, x, y, k), Crossing(p, q, x, y)[k]), CrossingAt(p, q, x, y, k + 1);
    assert next.Keys == after.Keys;
    assert 0 in after ==> next[0] == after[0];
    assert 1 in after ==> next[1] == after[1];
  }

  /** Rows both transactions may ask for in the source's order: categories after devices, block ids after notes. */
  predicate MayCross(p: Row, q: Row, x: Row, y: Row) {
    || (p.DeviceRow? && q.DeviceRow? && x.CategoryRow? && y.CategoryRow?)
    || (p.NoteRow? && q.NoteRow? && x.BlockKey? && y.BlockKey?)
  }

  lemma {:induction false} CrossingRun(p: Row, q: Row, x: Row, y: Row, k: nat)
    requires k <= |Crossing(p, q, x, y)| && Different(p, q, x, y) && MayCross(p, q, x, y)
    ensures RunLocks(Crossing(p, q, x, y)[..k]) == CrossingAt(p, q, x, y, k) && SourceRun(Crossing(p, q, x, y)[..k])
  {
    if k > 0 {
      CrossingRun(p, q, x, y, k - 1);
      CrossingNext(p, q, x, y, k - 1);
      assert Crossing(p, q, x, y)[..k][..k - 1] == Crossing(p, q, x, y)[..k - 1];
    }
    hide Next;
  }

  /**
   Both gaps are real: for any two categories, and any two new block ids, two transactions that keep to the source's
   order but meet the two in opposite order wait for each other.
   */
  lemma CrossingDeadlocks(p: Row, q: Row, x: Row, y: Row)
    requires Different(p, q, x, y) && MayCross(p, q, x, y)
    ensures var s := RunLocks(Crossing(p, q, x, y));
            SourceRun(Crossing(p, q, x, y)) && WaitsFor(s, 0, 1) && WaitsFor(s, 1, 0)
  {
    CrossingRun(p, q, x, y, |Crossing(p, q, x, y)|);
    assert Crossing(p, q, x, y)[..|Crossing(p, q, x, y)|] == Crossing(p, q, x, y);
    hide RunLocks, SourceRun;
  }
}
