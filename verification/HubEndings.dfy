/**
 How the hub's calls end, in any interleaving: a Close that gets to wait has closed every client it found, and a Serve
 that was let in ends with its client taken off the map and closed.
 */
module HubEndings {
  import opened Wrappers
  import opened RealtimeHub
  import opened HubCalls

  // ---- Close ----

  /** The closing goroutine still has these clients to close, or has closed them. */
  ghost predicate ClosingAll(h: Hub, id: nat, all: seq<Client>) {
    && h.closed && id in h.goroutines
    && match h.goroutines[id]
       case HubClosingClients(open) => forall c <- all :: c in open || c in h.closedClients
       case HubWaiting => forall c <- all :: c in h.closedClients
       case Ended => h.returned && forall c <- all :: c in h.closedClients
       case _ => false
  }

  lemma ClosingStarts(h: Hub, id: nat, after: Hub) returns (all: seq<Client>)
    requires Possible(h, Step(id), after) && h.goroutines[id].HubClosing? && !h.closed
    ensures Lists(all, h.clients) && after.clients == map[] && ClosingAll(after, id, all)
  {
    hide Lists;
    var listed: seq<Client>, taken: bool :|
      Copied(h, h.goroutines[id], listed) &&
      var (next, goroutine) := Run(h, h.goroutines[id], listed, taken);
      after == next.(goroutines := h.goroutines[id := goroutine]);
    all := listed;
  }

  lemma ClosingGoesOn(h: Hub, e: Event, after: Hub, id: nat, all: seq<Client>)
    requires Possible(h, e, after) && ClosingAll(h, id, all)
    ensures ClosingAll(after, id, all)
  {
    if e == Step(id) {
      ClosingStep(h, after, id, all);
    } else {
      OthersStep(h, e, after, id);
    }
    hide Possible;
  }

  lemma ClosingStep(h: Hub, after: Hub, id: nat, all: seq<Client>)
    requires Possible(h, Step(id), after) && ClosingAll(h, id, all)
    ensures ClosingAll(after, id, all)
  {
    hide Put, Remove, Lookup, Lists, Recipients;
  }

  lemma {:induction false} ClosingRun(states: seq<Hub>, events: seq<Event>, id: nat, i: nat, m: nat)
    returns (all: seq<Client>)
    requires IsRun(states, events) && i < m <= |events| && events[i] == Step(id)
    requires id in states[i].goroutines && states[i].goroutines[id].HubClosing? && !states[i].closed
    ensures Lists(all, states[i].clients) && ClosingAll(states[m], id, all)
  {
    assert Possible(states[m - 1], events[m - 1], states[m]);
    hide Lists, ClosingAll, Possible;
    if m == i + 1 {
      all := ClosingStarts(states[i], id, states[m]);
    } else {
      all := ClosingRun(states, events, id, i, m - 1);
      ClosingGoesOn(states[m - 1], events[m - 1], states[m], id, all);
    }
  }

  /**
   From the moment Close begins on an open hub the hub is closed. Once it waits for the handlers, every client that was
   registered then is closed; once it is over, no handler is served.
   */
  lemma CloseClosesAll(states: seq<Hub>, events: seq<Event>, id: nat, i: nat, j: nat)
    requires IsRun(states, events) && i < j <= |events| && events[i] == Step(id)
    requires id in states[i].goroutines && states[i].goroutines[id].HubClosing? && !states[i].closed
    ensures states[j].closed && id in states[j].goroutines
    ensures states[j].goroutines[id] == HubWaiting || states[j].goroutines[id] == Ended ==>
              forall c: Client | Lookup(states[i].clients, c.user, c.device) == Some(c) :: c in states[j].closedClients
    ensures states[j].goroutines[id] == Ended ==> states[j].returned && states[j].serving == 0
  {
    var all := ClosingRun(states, events, id, i, j);
    RunPrefix(states, events, j);
    hide IsRun, Lookup, WellKept, ToBeClosed, ServedWasRegistered, CountedGoroutines;
  }

  // ---- Serve ----

  /** Since state i the client has been off the map, if only for a moment. */
  ghost predicate WasOff(states: seq<Hub>, i: nat, m: nat, c: Client)
    requires m < |states|
  {
    exists k :: i < k <= m && Lookup(states[k].clients, c.user, c.device) != Some(c)
  }

  ghost predicate Serving(states: seq<Hub>, id: nat, i: nat, m: nat, c: Client)
    requires m < |states|
  {
    && id in states[m].goroutines
    && match states[m].goroutines[id]
       case ServeReading(served) => served == c
       case ServeUnregistering(served) => served == c
       case ServeClosing(served) => served == c && WasOff(states, i, m, c)
       case ServeAwaitingWriter(served) =>
         served == c && WasOff(states, i, m, c) && c in states[m].closedClients
       case Ended => WasOff(states, i, m, c) && c in states[m].closedClients
       case _ => false
  }

  lemma ServingNext(states: seq<Hub>, events: seq<Event>, id: nat, i: nat, m: nat, c: Client)
    requires IsRun(states, events) && i < m < |events| && Serving(states, id, i, m, c)
    ensures Serving(states, id, i, m + 1, c)
  {
    assert Possible(states[m], events[m], states[m + 1]);
    assert WasOff(states, i, m, c) ==> WasOff(states, i, m + 1, c);
    RunPrefix(states, events, m);
    hide IsRun, Sound, Possible;
    if events[m] != Step(id) {
      OthersStep(states[m], events[m], states[m + 1], id);
    } else if states[m].goroutines[id] == ServeUnregistering(c) {
      RemovalRemoves(states[m], id, states[m + 1], c);
      assert WasOff(states, i, m + 1, c);
    }
    hide WasOff, Lookup;
    if events[m] == Step(id) {
      HandlerStep(states[m], states[m + 1], id);
    }
  }

  predicate Handler(goroutine: Goroutine) {
    goroutine.ServeReading? || goroutine.ServeUnregistering? || goroutine.ServeClosing? ||
      goroutine.ServeAwaitingWriter? || goroutine.Ended?
  }

  /** A handler's own step: at most one on, and its client is closed before it waits for the writer. */
  lemma HandlerStep(h: Hub, after: Hub, id: nat)
    requires Possible(h, Step(id), after) && Handler(h.goroutines[id])
    ensures id in after.goroutines && h.closedClients <= after.closedClients
    ensures var now := after.goroutines[id];
            match h.goroutines[id]
            case ServeReading(c) => now == ServeUnregistering(c)
            case ServeUnregistering(c) => now == ServeClosing(c)
            case ServeClosing(c) => now == ServeAwaitingWriter(c) && c in after.closedClients
            case ServeAwaitingWriter(c) => now == Ended || now == ServeAwaitingWriter(c)
            case _ => now == Ended
  {
    hide Put, Remove, Lookup, Lists, Recipients;
  }

  /** A handler let in on an open hub ends only after its client was taken off the map, and with it closed. */
  lemma {:induction false} ServeTakesOff(states: seq<Hub>, events: seq<Event>, id: nat, i: nat, j: nat, c: Client)
    requires IsRun(states, events) && i < j <= |events| && events[i] == Step(id)
    requires id in states[i].goroutines && states[i].goroutines[id] == ServeEntering(c) && !states[i].closed
    ensures Serving(states, id, i, j, c)
    ensures states[j].goroutines[id] == Ended ==>
              c in states[j].closedClients &&
              exists k :: i < k <= j && Lookup(states[k].clients, c.user, c.device) != Some(c)
  {
    if j == i + 1 {
      assert Possible(states[i], events[i], states[j]);
      ServeEnters(states[i], id, states[j]);
      hide Possible, Lookup;
    } else {
      ServeTakesOff(states, events, id, i, j - 1, c);
      ServingNext(states, events, id, i, j - 1, c);
      hide IsRun, Lookup;
    }
  }
}
