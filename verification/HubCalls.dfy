/**
 What the hub's calls achieve, in any interleaving: a registered client stays reachable until something displaces it, a
 removal removes, and a published hint is offered to exactly the user's other clients.
 */
module HubCalls {
  import opened Wrappers
  import opened RealtimeHub

  lemma RunPrefix(states: seq<Hub>, events: seq<Event>, k: nat)
    requires IsRun(states, events) && k <= |events|
    ensures IsRun(states[..k + 1], events[..k]) && Sound(states[k])
  {
    assert IsRun(states[..k + 1], events[..k]) by {
      hide Possible;
      forall i | 0 <= i < k
        ensures Possible(states[..k + 1][i], events[..k][i], states[..k + 1][i + 1])
      {
        assert Possible(states[i], events[i], states[i + 1]);
      }
    }
    EveryRunIsSound(states[..k + 1], events[..k]);
    hide Sound, Possible;
  }

  // ---- Register ----

  /**
   Registering on an open hub puts the client under its user and device, leaves every other entry in place, and closes
   the client it replaces; on a closed hub it changes nothing.
   */
  lemma RegisterTakesPlace(h: Hub, id: nat, after: Hub)
    requires Sound(h) && Possible(h, Step(id), after) && h.goroutines[id].Registering?
    ensures var c := h.goroutines[id].client;
            var previous := Lookup(h.clients, c.user, c.device);
            if h.closed then after == h.(goroutines := h.goroutines[id := Ended])
            else
              && (forall user, device :: Lookup(after.clients, user, device) ==
                    if user == c.user && device == c.device then Some(c) else Lookup(h.clients, user, device))
              && c in after.registered
              && after.goroutines == h.goroutines[id :=
                   if previous.Some? && previous.value != c then ClosingPrevious(previous.value) else Ended]
  {
    PutKeeps(h.clients, h.goroutines[id].client);
    hide Put, Sound;
  }

  /** What can end a client's registration: its own removal, another client in its place, or the hub closing. */
  ghost predicate Displaces(h: Hub, e: Event, c: Client) {
    && e.Step? && e.id in h.goroutines
    && var goroutine := h.goroutines[e.id];
       || goroutine == ServeUnregistering(c) || goroutine == Unregistering(c)
       || (goroutine.OfferRefused? && goroutine.refused == c)
       || (goroutine.Registering? && goroutine.client.user == c.user && goroutine.client.device == c.device
           && goroutine.client != c)
       || goroutine.HubClosing?
  }

  /** Once registered on an open hub, a client is found in every later state until something displaces it. */
  lemma {:induction false} RegisteredStays(states: seq<Hub>, events: seq<Event>, i: nat, j: nat, c: Client)
    requires IsRun(states, events) && i < j <= |events|
    requires events[i].Step? && events[i].id in states[i].goroutines && !states[i].closed
    requires states[i].goroutines[events[i].id] == Registering(c)
    requires forall k | i < k < j :: !Displaces(states[k], events[k], c)
    ensures Lookup(states[j].clients, c.user, c.device) == Some(c)
  {
    hide Sound;
    RunPrefix(states, events, j - 1);
    assert Possible(states[j - 1], events[j - 1], states[j]);
    hide Possible;
    if j == i + 1 {
      RegisterTakesPlace(states[i], events[i].id, states[j]);
    } else {
      RegisteredStays(states, events, i, j - 1, c);
      assert !Displaces(states[j - 1], events[j - 1], c);
      if Lookup(states[j].clients, c.user, c.device) != Some(c) {
        OnlyItselfLeaves(states[j - 1], events[j - 1], states[j], c);
      }
    }
  }

  // ---- Unregister and Serve ----

  /** A goroutine that is about to take this client off the map. */
  predicate Removes(goroutine: Goroutine, c: Client) {
    || goroutine == ServeUnregistering(c) || goroutine == Unregistering(c)
    || (goroutine.OfferRefused? && goroutine.refused == c)
  }

  /** Removing a client takes exactly its own entry away, if it still is its own, and is followed by closing it. */
  lemma RemovalRemoves(h: Hub, id: nat, after: Hub, c: Client)
    requires Sound(h) && Possible(h, Step(id), after) && Removes(h.goroutines[id], c)
    ensures Lookup(after.clients, c.user, c.device) != Some(c)
    ensures forall user, device | Lookup(h.clients, user, device) != Some(c) ::
              Lookup(after.clients, user, device) == Lookup(h.clients, user, device)
    ensures Owes(after.goroutines[id], c)
  {
    assert WellKept(h.clients);
    hide Sound;
    RemovalIs(h, id, after, c);
    RemoveKeeps(h.clients, c);
    hide Possible, Removes, Remove, Lookup, Owes, WellKept;
  }

  lemma RemovalIs(h: Hub, id: nat, after: Hub, c: Client)
    requires Possible(h, Step(id), after) && Removes(h.goroutines[id], c)
    ensures after.clients == Remove(h.clients, c) && id in after.goroutines && Owes(after.goroutines[id], c)
  {
    hide Remove, Lookup, Put, Lists, Recipients;
  }

  /** A handler is served, and counted, exactly on an open hub; on a closed one its client is closed. */
  lemma ServeEnters(h: Hub, id: nat, after: Hub)
    requires Possible(h, Step(id), after) && h.goroutines[id].ServeEntering?
    ensures var c := h.goroutines[id].served;
            if h.closed then after == h.(goroutines := h.goroutines[id := ServeRefused(c)])
            else after == h.(serving := h.serving + 1, goroutines := h.goroutines[id := ServeReading(c)])
  {
  }

  /** Another goroutine's step leaves this one alone, and closes clients or the hub but opens none. */
  lemma OthersStep(h: Hub, e: Event, after: Hub, id: nat)
    requires Possible(h, e, after) && id in h.goroutines && e != Step(id)
    ensures id in after.goroutines && after.goroutines[id] == h.goroutines[id]
    ensures h.closedClients <= after.closedClients && (h.closed ==> after.closed) && (h.returned ==> after.returned)
  {
    hide Run, Copied;
    if e.Step? {
      var listed: seq<Client>, taken: bool :|
        Copied(h, h.goroutines[e.id], listed) &&
        var (next, goroutine) := Run(h, h.goroutines[e.id], listed, taken);
        after == next.(goroutines := h.goroutines[e.id := goroutine]);
      RunOpensNone(h, h.goroutines[e.id], listed, taken);
    }
  }

  lemma RunOpensNone(h: Hub, goroutine: Goroutine, listed: seq<Client>, taken: bool)
    ensures var next := Run(h, goroutine, listed, taken).0;
            h.closedClients <= next.closedClients && (h.closed ==> next.closed) && (h.returned ==> next.returned)
  {
    hide Put, Remove, Lookup;
  }

  // ---- PublishSyncAvailable ----

  /** At this step the publisher sends the hint to a client. */
  predicate Offers(h: Hub, e: Event, id: nat, c: Client) {
    && e == Step(id) && id in h.goroutines
    && h.goroutines[id].Offering? && h.goroutines[id].remaining != [] && h.goroutines[id].remaining[0] == c
  }

  function Rest(goroutine: Goroutine): seq<Client> {
    match goroutine
    case Offering(remaining) => remaining
    case OfferRefused(_, remaining) => remaining
    case ClosingRefused(_, remaining) => remaining
    case _ => []
  }

  predicate IsPublisher(goroutine: Goroutine) {
    goroutine.Offering? || goroutine.OfferRefused? || goroutine.ClosingRefused? || goroutine.Ended?
  }

  /** A client that did not take the hint is closed, or the publisher is about to remove and close it. */
  predicate Dropped(h: Hub, id: nat, c: Client) {
    || c in h.closedClients
    || (id in h.goroutines &&
          ((h.goroutines[id].OfferRefused? && h.goroutines[id].refused == c)
           || (h.goroutines[id].ClosingRefused? && h.goroutines[id].refused == c)))
  }

  /** At step k the publisher sent the client the hint; it took it, or it is dropped in state m. */
  ghost predicate OfferedAt(states: seq<Hub>, events: seq<Event>, id: nat, i: nat, m: nat, c: Client, k: nat)
    requires m <= |events| && |states| == |events| + 1
  {
    i < k < m && Offers(states[k], events[k], id, c) && (Took(states[k + 1], id) || Dropped(states[m], id, c))
  }

  ghost predicate Offered(states: seq<Hub>, events: seq<Event>, id: nat, i: nat, m: nat, c: Client)
    requires m <= |events| && |states| == |events| + 1
  {
    exists k: nat :: OfferedAt(states, events, id, i, m, c, k)
  }

  predicate Took(h: Hub, id: nat) {
    id in h.goroutines && h.goroutines[id].Offering?
  }

  ghost predicate Progress(states: seq<Hub>, events: seq<Event>, id: nat, i: nat, m: nat, all: seq<Client>)
    requires m <= |events| && |states| == |events| + 1
  {
    && id in states[m].goroutines && IsPublisher(states[m].goroutines[id])
    && (forall c <- Rest(states[m].goroutines[id]) :: c in all)
    && (forall c <- all :: c in Rest(states[m].goroutines[id]) || Offered(states, events, id, i, m, c))
  }

  lemma StillDropped(h: Hub, e: Event, after: Hub, id: nat, c: Client)
    requires Possible(h, e, after) && id in h.goroutines && IsPublisher(h.goroutines[id]) && Dropped(h, id, c)
    ensures Dropped(after, id, c)
  {
    if e == Step(id) {
      DropStep(h, after, id, c);
    } else {
      OthersStep(h, e, after, id);
    }
    hide Possible, IsPublisher;
  }

  lemma DropStep(h: Hub, after: Hub, id: nat, c: Client)
    requires Possible(h, Step(id), after) && IsPublisher(h.goroutines[id]) && Dropped(h, id, c)
    ensures Dropped(after, id, c)
  {
    hide Put, Remove, Lookup, Lists, Recipients;
  }

  lemma OneStep(states: seq<Hub>, events: seq<Event>, m: nat)
    requires IsRun(states, events) && m < |events|
    ensures |states| == |events| + 1 && Possible(states[m], events[m], states[m + 1])
  {
  }

  lemma StillOffered(states: seq<Hub>, events: seq<Event>, id: nat, i: nat, m: nat, c: Client)
    requires IsRun(states, events) && m < |events| && Offered(states, events, id, i, m, c)
    requires id in states[m].goroutines && IsPublisher(states[m].goroutines[id])
    ensures Offered(states, events, id, i, m + 1, c)
  {
    OneStep(states, events, m);
    hide Possible, IsRun, OfferedAt;
    var k: nat :| OfferedAt(states, events, id, i, m, c, k);
    StillOfferedAt(states, events, id, i, m, c, k);
  }

  lemma StillOfferedAt(states: seq<Hub>, events: seq<Event>, id: nat, i: nat, m: nat, c: Client, k: nat)
    requires |states| == |events| + 1 && m < |events| && Possible(states[m], events[m], states[m + 1])
    requires id in states[m].goroutines && IsPublisher(states[m].goroutines[id])
    requires OfferedAt(states, events, id, i, m, c, k)
    ensures OfferedAt(states, events, id, i, m + 1, c, k)
  {
    hide Offers, Dropped, Took, Possible, IsPublisher;
    if !Took(states[k + 1], id) {
      StillDropped(states[m], events[m], states[m + 1], id, c);
    }
  }

  /** How a publisher moves on. */
  lemma PublisherMoves(h: Hub, e: Event, after: Hub, id: nat)
    requires Possible(h, e, after) && id in h.goroutines && IsPublisher(h.goroutines[id])
    ensures id in after.goroutines && IsPublisher(after.goroutines[id])
    ensures var was, now := h.goroutines[id], after.goroutines[id];
            if e == Step(id) && was.Offering? && was.remaining != [] then
              && Rest(was) == [was.remaining[0]] + Rest(now) && Offers(h, e, id, was.remaining[0])
              && (Took(after, id) || Dropped(after, id, was.remaining[0]))
            else Rest(now) == Rest(was)
  {
    hide Put, Remove, Lookup, Lists, Recipients;
  }

  lemma ProgressNext(states: seq<Hub>, events: seq<Event>, id: nat, i: nat, m: nat, all: seq<Client>)
    requires IsRun(states, events) && i < m < |events| && Progress(states, events, id, i, m, all)
    ensures Progress(states, events, id, i, m + 1, all)
  {
    hide Dropped, Offers, Took;
    assert Possible(states[m], events[m], states[m + 1]);
    hide Possible;
    PublisherMoves(states[m], events[m], states[m + 1], id);
    var was, now := states[m].goroutines[id], states[m + 1].goroutines[id];
    forall c | c in all && c !in Rest(now)
      ensures Offered(states, events, id, i, m + 1, c)
    {
      if c in Rest(was) {
        assert OfferedAt(states, events, id, i, m + 1, c, m);
      } else {
        StillOffered(states, events, id, i, m, c);
      }
    }
    assert forall c <- Rest(now) :: c in Rest(was);
  }

  lemma {:induction false} PublishProgress(states: seq<Hub>, events: seq<Event>, id: nat, i: nat, m: nat,
    user: nat, origin: string) returns (all: seq<Client>)
    requires IsRun(states, events) && i < m <= |events| && events[i] == Step(id)
    requires id in states[i].goroutines && states[i].goroutines[id] == Publishing(user, origin)
    ensures Recipients(all, states[i].clients, user, origin) && Progress(states, events, id, i, m, all)
  {
    hide Recipients, Offered;
    if m == i + 1 {
      all := FirstLook(states[i], id, states[m], user, origin) by {
        assert Possible(states[i], events[i], states[m]);
      }
    } else {
      all := PublishProgress(states, events, id, i, m - 1, user, origin);
      hide Progress;
      ProgressNext(states, events, id, i, m - 1, all);
    }
  }

  lemma FirstLook(h: Hub, id: nat, after: Hub, user: nat, origin: string) returns (all: seq<Client>)
    requires Possible(h, Step(id), after) && h.goroutines[id] == Publishing(user, origin)
    ensures Recipients(all, h.clients, user, origin)
    ensures id in after.goroutines && after.goroutines[id] == Offering(all)
  {
    hide Recipients;
    var listed: seq<Client>, taken: bool :|
      Copied(h, h.goroutines[id], listed) &&
      var (next, goroutine) := Run(h, h.goroutines[id], listed, taken);
      after == next.(goroutines := h.goroutines[id := goroutine]);
    all := listed;
  }

  /**
   Once a publish has ended, every client of the user that was registered on another device when it looked has been sent
   the hint, and has taken it or is closed; and nobody else is ever sent it.
   */
  lemma PublishReachesAll(states: seq<Hub>, events: seq<Event>, id: nat, i: nat, j: nat, user: nat, origin: string)
    requires IsRun(states, events) && i < j <= |events| && events[i] == Step(id)
    requires id in states[i].goroutines && states[i].goroutines[id] == Publishing(user, origin)
    requires id in states[j].goroutines && states[j].goroutines[id] == Ended
    ensures forall c: Client | IsRecipient(states[i].clients, user, origin, c) :: Reached(states, events, id, i, j, c)
    ensures forall k, c: Client | i < k < j && Offers(states[k], events[k], id, c) ::
              IsRecipient(states[i].clients, user, origin, c)
  {
    assert |states| == |events| + 1;
    hide Offers, IsRecipient, IsRun, Reached;
    forall c: Client | IsRecipient(states[i].clients, user, origin, c)
      ensures Reached(states, events, id, i, j, c)
    {
      ReachesRecipient(states, events, id, i, j, user, origin, c);
    }
    forall k, c: Client | i < k < j && Offers(states[k], events[k], id, c)
      ensures IsRecipient(states[i].clients, user, origin, c)
    {
      OffersOnlyRecipients(states, events, id, i, k, user, origin, c);
    }
  }

  predicate IsRecipient(r: Registry, user: nat, origin: string, c: Client) {
    c.user == user && c.device != origin && Lookup(r, user, c.device) == Some(c)
  }

  /** At step k the client was sent the hint, and took it or is closed in state j. */
  predicate ReachedAt(states: seq<Hub>, events: seq<Event>, id: nat, i: nat, j: nat, c: Client, k: nat)
    requires j <= |events| && |states| == |events| + 1
  {
    i < k < j && Offers(states[k], events[k], id, c) && (Took(states[k + 1], id) || c in states[j].closedClients)
  }

  ghost predicate Reached(states: seq<Hub>, events: seq<Event>, id: nat, i: nat, j: nat, c: Client)
    requires j <= |events| && |states| == |events| + 1
  {
    exists k: nat :: ReachedAt(states, events, id, i, j, c, k)
  }

  lemma ReachesRecipient(states: seq<Hub>, events: seq<Event>, id: nat, i: nat, j: nat, user: nat, origin: string,
    c: Client)
    requires IsRun(states, events) && i < j <= |events| && events[i] == Step(id)
    requires id in states[i].goroutines && states[i].goroutines[id] == Publishing(user, origin)
    requires id in states[j].goroutines && states[j].goroutines[id] == Ended
    requires IsRecipient(states[i].clients, user, origin, c)
    ensures Reached(states, events, id, i, j, c)
  {
    assert |states| == |events| + 1;
    hide OfferedAt, Lookup, IsRun;
    var all := PublishProgress(states, events, id, i, j, user, origin);
    assert c in all && Offered(states, events, id, i, j, c);
    hide Progress, Recipients;
    var k: nat :| OfferedAt(states, events, id, i, j, c, k);
    EndedReaches(states, events, id, i, j, c, k);
  }

  lemma EndedReaches(states: seq<Hub>, events: seq<Event>, id: nat, i: nat, j: nat, c: Client, k: nat)
    requires |states| == |events| + 1 && j <= |events| && OfferedAt(states, events, id, i, j, c, k)
    requires id in states[j].goroutines && states[j].goroutines[id] == Ended
    ensures ReachedAt(states, events, id, i, j, c, k)
  {
  }

  lemma OffersOnlyRecipients(states: seq<Hub>, events: seq<Event>, id: nat, i: nat, k: nat, user: nat, origin: string,
    c: Client)
    requires IsRun(states, events) && i < k < |events| && events[i] == Step(id)
    requires id in states[i].goroutines && states[i].goroutines[id] == Publishing(user, origin)
    requires Offers(states[k], events[k], id, c)
    ensures IsRecipient(states[i].clients, user, origin, c)
  {
    assert |states| == |events| + 1;
    hide Took, Lookup, IsRun, Offered;
    var all := PublishProgress(states, events, id, i, k, user, origin);
    OfferedIsNext(states[k], events[k], id, c);
  }

  lemma OfferedIsNext(h: Hub, e: Event, id: nat, c: Client)
    requires Offers(h, e, id, c)
    ensures c in Rest(h.goroutines[id])
  {
  }
}
