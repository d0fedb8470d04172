/**
 The connection hub under any interleaving of Register, Serve, Unregister, PublishSyncAvailable and Close. A step is one
 section under the hub's lock or one call made outside it, so other goroutines run between a removal and the Close that
 follows it, and between a publisher's look at the map and its sends.
 */
module RealtimeHub {
  import opened Wrappers

  /** A client object: its routing identity and which object it is. */
  datatype Client = Client(user: nat, device: string, serial: nat)

  type Registry = map<nat, map<string, Client>>

  /** What a goroutine does next. */
  datatype Goroutine =
    | Registering(client: Client)
    | ClosingPrevious(previous: Client)
    | ServeEntering(served: Client)
    | ServeRefused(served: Client)
    | ServeReading(served: Client)
    | ServeUnregistering(served: Client)
    | ServeClosing(served: Client)
    | ServeAwaitingWriter(served: Client)
    | Unregistering(removed: Client)
    | ClosingRemoved(removed: Client)
    | Publishing(user: nat, origin: string)
    | Offering(remaining: seq<Client>)
    | OfferRefused(refused: Client, remaining: seq<Client>)
    | ClosingRefused(refused: Client, remaining: seq<Client>)
    | HubClosing
    | HubClosingClients(open: seq<Client>)
    | HubWaiting
    | Ended

  /** registered and returned only record history: the clients Register accepted, and that Close has returned. */
  datatype Hub = Hub(
    clients: Registry, closed: bool, serving: nat,
    closedClients: set<Client>, goroutines: map<nat, Goroutine>, registered: set<Client>, returned: bool)

  const NEW_HUB := Hub(map[], false, 0, {}, map[], {}, false)

  // ---- the locked sections ----

  function Lookup(r: Registry, user: nat, device: string): Option<Client> {
    if user in r && device in r[user] then Some(r[user][device]) else None
  }

  function Put(r: Registry, c: Client): Registry {
    r[c.user := (if c.user in r then r[c.user] else map[])[c.device := c]]
  }

  /** The entry goes only if it still is this client; an emptied inner map goes with it. */
  function Remove(r: Registry, c: Client): Registry {
    if Lookup(r, c.user, c.device) == Some(c) then
      var rest := r[c.user] - {c.device};
      if rest == map[] then r - {c.user} else r[c.user := rest]
    else r
  }

  ghost predicate Lists(all: seq<Client>, r: Registry) {
    forall c :: c in all <==> Lookup(r, c.user, c.device) == Some(c)
  }

  /** The user's clients on other devices than the origin. */
  ghost predicate Recipients(all: seq<Client>, r: Registry, user: nat, origin: string) {
    forall c :: c in all <==> c.user == user && c.device != origin && Lookup(r, user, c.device) == Some(c)
  }

  // ---- steps ----

  datatype Event =
    | Begin(id: nat, goroutine: Goroutine)
    | Step(id: nat)

  /** The calls other code makes: the handler serves only clients it has registered. */
  predicate Callable(h: Hub, goroutine: Goroutine) {
    goroutine.Registering? || (goroutine.ServeEntering? && goroutine.served in h.registered) ||
      goroutine.Unregistering? || goroutine.HubClosing? || goroutine.Publishing?
  }

  /**
   listed is the order in which Close or a publisher copies clients out of the map, which Go leaves open; taken is
   whether the client's queue takes the message.
   */
  function Run(h: Hub, goroutine: Goroutine, listed: seq<Client>, taken: bool): (Hub, Goroutine) {
    match goroutine
    case Registering(c) =>
      if h.closed then (h, Ended)
      else
        var previous := Lookup(h.clients, c.user, c.device);
        (h.(clients := Put(h.clients, c), registered := h.registered + {c}),
         if previous.Some? && previous.value != c then ClosingPrevious(previous.value) else Ended)
    case ClosingPrevious(c) => (h.(closedClients := h.closedClients + {c}), Ended)

    case ServeEntering(c) => if h.closed then (h, ServeRefused(c)) else (h.(serving := h.serving + 1), ServeReading(c))
    case ServeRefused(c) => (h.(closedClients := h.closedClients + {c}), Ended)
    case ServeReading(c) => (h, ServeUnregistering(c))
    case ServeUnregistering(c) => (h.(clients := Remove(h.clients, c)), ServeClosing(c))
    case ServeClosing(c) => (h.(closedClients := h.closedClients + {c}), ServeAwaitingWriter(c))
    case ServeAwaitingWriter(c) =>
      if c in h.closedClients && h.serving > 0 then (h.(serving := h.serving - 1), Ended) else (h, goroutine)

    case Unregistering(c) => (h.(clients := Remove(h.clients, c)), ClosingRemoved(c))
    case ClosingRemoved(c) => (h.(closedClients := h.closedClients + {c}), Ended)

    case Publishing(_, _) => (h, Offering(listed))
    case Offering(remaining) =>
      if remaining == [] then (h, Ended)
      else (h, if taken then Offering(remaining[1..]) else OfferRefused(remaining[0], remaining[1..]))
    case OfferRefused(c, remaining) => (h.(clients := Remove(h.clients, c)), ClosingRefused(c, remaining))
    case ClosingRefused(c, remaining) => (h.(closedClients := h.closedClients + {c}), Offering(remaining))

    case HubClosing => if h.closed then (h, Ended)
      else (h.(closed := true, clients := map[]), HubClosingClients(listed))
    case HubClosingClients(open) =>
      if open == [] then (h, HubWaiting)
      else (h.(closedClients := h.closedClients + {open[0]}), HubClosingClients(open[1..]))
    case HubWaiting => if h.serving == 0 then (h.(returned := true), Ended) else (h, goroutine)
    case Ended => (h, Ended)
  }

  /** What a goroutine copies out of the map under the lock. */
  ghost predicate Copied(h: Hub, goroutine: Goroutine, listed: seq<Client>) {
    && (goroutine.HubClosing? ==> Lists(listed, h.clients))
    && (goroutine.Publishing? ==> Recipients(listed, h.clients, goroutine.user, goroutine.origin))
  }

  ghost predicate Possible(h: Hub, e: Event, after: Hub) {
    match e
    case Begin(id, goroutine) => id !in h.goroutines && Callable(h, goroutine) &&
      after == h.(goroutines := h.goroutines[id := goroutine])
    case Step(id) =>
      id in h.goroutines &&
      exists listed: seq<Client>, taken: bool ::
        Copied(h, h.goroutines[id], listed) &&
        var (next, goroutine) := Run(h, h.goroutines[id], listed, taken);
        after == next.(goroutines := h.goroutines[id := goroutine])
  }

  /** A run: the states it goes through, from an empty hub. */
  ghost predicate IsRun(states: seq<Hub>, events: seq<Event>) {
    && |states| == |events| + 1
    && states[0] == NEW_HUB
    && forall i | 0 <= i < |events| :: Possible(states[i], events[i], states[i + 1])
  }

  // ---- what holds in every state ----

  predicate Counted(goroutine: Goroutine) {
    goroutine.ServeReading? || goroutine.ServeUnregistering? || goroutine.ServeClosing? ||
      goroutine.ServeAwaitingWriter?
  }

  function CountedGoroutines(goroutines: map<nat, Goroutine>): set<nat> {
    set id | id in goroutines && Counted(goroutines[id])
  }

  /** A goroutine that is going to close this client. */
  predicate Owes(goroutine: Goroutine, c: Client) {
    match goroutine
    case ClosingPrevious(previous) => previous == c
    case ServeClosing(served) => served == c
    case ClosingRemoved(removed) => removed == c
    case ClosingRefused(refused, _) => refused == c
    case HubClosingClients(open) => c in open
    case _ => false
  }

  ghost predicate ToBeClosed(h: Hub, c: Client) {
    exists id <- h.goroutines :: Owes(h.goroutines[id], c)
  }

  predicate WellKept(r: Registry) {
    forall user <- r :: r[user] != map[] && forall device <- r[user] ::
      r[user][device].user == user && r[user][device].device == device
  }

  predicate ServedWasRegistered(h: Hub, goroutine: Goroutine) {
    && (goroutine.ServeEntering? || Counted(goroutine) ==> goroutine.served in h.registered)
    && (goroutine.ServeAwaitingWriter? ==> goroutine.served in h.closedClients)
    && (goroutine.HubClosingClients? || goroutine.HubWaiting? ==> h.closed)
  }

  ghost predicate Sound(h: Hub) {
    && WellKept(h.clients)
    && (h.closed ==> h.clients == map[])
    && h.serving == |CountedGoroutines(h.goroutines)|
    && (h.returned ==> h.closed && h.serving == 0)
    && (forall id <- h.goroutines :: ServedWasRegistered(h, h.goroutines[id]))
    && (forall c <- h.registered ::
         Lookup(h.clients, c.user, c.device) == Some(c) || c in h.closedClients || ToBeClosed(h, c))
  }

  lemma PutKeeps(r: Registry, c: Client)
    requires WellKept(r)
    ensures WellKept(Put(r, c))
    ensures forall user, device ::
              Lookup(Put(r, c), user, device) ==
                if user == c.user && device == c.device then Some(c) else Lookup(r, user, device)
  {
    var inner := (if c.user in r then r[c.user] else map[])[c.device := c];
    assert c.device in inner;
  }

  /** Removing a client touches no entry but its own, and leaves no empty inner map. */
  lemma RemoveKeeps(r: Registry, c: Client)
    requires WellKept(r)
    ensures WellKept(Remove(r, c))
    ensures forall user, device ::
              Lookup(Remove(r, c), user, device) == if Lookup(r, user, device) == Some(c) then None
                else Lookup(r, user, device)
  {
    var after := Remove(r, c);
    forall user, device
      ensures Lookup(after, user, device) == if Lookup(r, user, device) == Some(c) then None
          else Lookup(r, user, device)
    {
      if Lookup(r, c.user, c.device) == Some(c) && user == c.user {
        var rest := r[user] - {c.device};
        assert device in r[user] && device != c.device ==> device in rest;
      }
    }
  }

  lemma CountedUpdate(goroutines: map<nat, Goroutine>, id: nat, goroutine: Goroutine)
    ensures |CountedGoroutines(goroutines[id := goroutine])|
         == |CountedGoroutines(goroutines)|
           + (if Counted(goroutine) then 1 else 0) - (if id in goroutines && Counted(goroutines[id]) then 1 else 0)
  {
    var before, after := CountedGoroutines(goroutines), CountedGoroutines(goroutines[id := goroutine]);
    var rest := before - {id};
    assert before == if id in goroutines && Counted(goroutines[id]) then rest + {id} else rest;
    assert after == if Counted(goroutine) then rest + {id} else rest;
    assert |rest + {id}| == |rest| + 1;
  }

  /** Whoever owed a close before still does, unless it is the goroutine that ran. */
  lemma StillOwed(h: Hub, after: Hub, id: nat, c: Client)
    requires id in after.goroutines && after.goroutines == h.goroutines[id := after.goroutines[id]]
    requires ToBeClosed(h, c) && !(id in h.goroutines && Owes(h.goroutines[id], c) && !Owes(after.goroutines[id], c))
    ensures ToBeClosed(after, c)
  {
    var p :| p in h.goroutines && Owes(h.goroutines[p], c);
    assert Owes(after.goroutines[p], c);
  }

  lemma NowOwed(after: Hub, id: nat, c: Client)
    requires id in after.goroutines && Owes(after.goroutines[id], c)
    ensures ToBeClosed(after, c)
  {
  }

  /** What running one goroutine does to the registry and to the clients that leave it. */
  ghost predicate Effect(h: Hub, goroutine: Goroutine, next: Hub, then_: Goroutine) {
    && WellKept(next.clients)
    && (h.closed ==> next.closed) && (next.closed ==> next.clients == map[])
    && h.registered <= next.registered && h.closedClients <= next.closedClients
    && (forall c :: Owes(goroutine, c) ==> c in next.closedClients || Owes(then_, c))
    && (forall c <- next.registered :: c in h.registered || Lookup(next.clients, c.user, c.device) == Some(c))
    && (forall user, device :: Lookup(h.clients, user, device).Some? ==>
          var c := Lookup(h.clients, user, device).value;
          Lookup(next.clients, user, device) == Some(c) || c in next.closedClients || Owes(then_, c))
    && ServedWasRegistered(next, then_)
    && next.serving == h.serving + (if Counted(then_) then 1 else 0) - (if Counted(goroutine) then 1 else 0)
    && (next.returned ==> h.returned || (next.closed && next.serving == 0))
    && (h.closed ==> next.serving <= h.serving)
  }

  lemma RunEffect(h: Hub, goroutine: Goroutine, listed: seq<Client>, taken: bool)
    requires WellKept(h.clients) && (h.closed ==> h.clients == map[]) && ServedWasRegistered(h, goroutine)
    requires Counted(goroutine) ==> h.serving > 0
    requires goroutine.HubClosing? ==> Lists(listed, h.clients)
    ensures var (next, then_) := Run(h, goroutine, listed, taken); Effect(h, goroutine, next, then_)
  {
    match goroutine {
      case Registering(_) => MapEffect(h, goroutine, listed, taken);
      case ServeUnregistering(_) => MapEffect(h, goroutine, listed, taken);
      case Unregistering(_) => MapEffect(h, goroutine, listed, taken);
      case OfferRefused(_, _) => MapEffect(h, goroutine, listed, taken);
      case HubClosing => MapEffect(h, goroutine, listed, taken);
      case _ => OtherEffect(h, goroutine, listed, taken);
    }
    hide Effect, Run;
  }

  predicate ChangesMap(goroutine: Goroutine) {
    || goroutine.Registering? || goroutine.ServeUnregistering? || goroutine.Unregistering? || goroutine.OfferRefused?
    || goroutine.HubClosing?
  }

  lemma MapEffect(h: Hub, goroutine: Goroutine, listed: seq<Client>, taken: bool)
    requires WellKept(h.clients) && (h.closed ==> h.clients == map[]) && ServedWasRegistered(h, goroutine)
    requires ChangesMap(goroutine) && (Counted(goroutine) ==> h.serving > 0)
    requires goroutine.HubClosing? ==> Lists(listed, h.clients)
    ensures var (next, then_) := Run(h, goroutine, listed, taken); Effect(h, goroutine, next, then_)
  {
    if goroutine.Registering? || goroutine.HubClosing? {
      AddOrClear(h, goroutine, listed, taken);
    } else {
      TakeOff(h, goroutine, listed, taken);
    }
    hide Effect, Run;
  }

  lemma AddOrClear(h: Hub, goroutine: Goroutine, listed: seq<Client>, taken: bool)
    requires WellKept(h.clients) && (h.closed ==> h.clients == map[]) && ServedWasRegistered(h, goroutine)
    requires goroutine.Registering? || (goroutine.HubClosing? && Lists(listed, h.clients))
    ensures var (next, then_) := Run(h, goroutine, listed, taken); Effect(h, goroutine, next, then_)
  {
    hide Put, Lists, WellKept, Remove;
    if goroutine.Registering? {
      PutKeeps(h.clients, goroutine.client);
    } else {
      ListedAll(h.clients, listed);
      EmptyIsWellKept();
    }
  }

  lemma TakeOff(h: Hub, goroutine: Goroutine, listed: seq<Client>, taken: bool)
    requires WellKept(h.clients) && (h.closed ==> h.clients == map[]) && ServedWasRegistered(h, goroutine)
    requires goroutine.ServeUnregistering? || goroutine.Unregistering? || goroutine.OfferRefused?
    requires Counted(goroutine) ==> h.serving > 0
    ensures var (next, then_) := Run(h, goroutine, listed, taken); Effect(h, goroutine, next, then_)
  {
    hide Put, Lists, WellKept;
    match goroutine {
      case ServeUnregistering(c) => RemoveKeeps(h.clients, c);
      case Unregistering(c) => RemoveKeeps(h.clients, c);
      case OfferRefused(c, _) => RemoveKeeps(h.clients, c);
    }
  }

  lemma OtherEffect(h: Hub, goroutine: Goroutine, listed: seq<Client>, taken: bool)
    requires WellKept(h.clients) && (h.closed ==> h.clients == map[]) && ServedWasRegistered(h, goroutine)
    requires !ChangesMap(goroutine) && (Counted(goroutine) ==> h.serving > 0)
    ensures var (next, then_) := Run(h, goroutine, listed, taken); Effect(h, goroutine, next, then_)
  {
    hide Put, Lists, WellKept, Lookup, Remove;
  }

  lemma EmptyIsWellKept()
    ensures WellKept(map[])
  {
  }

  lemma ListedAll(r: Registry, listed: seq<Client>)
    requires WellKept(r) && Lists(listed, r)
    ensures forall user, device :: Lookup(r, user, device).Some? ==> Lookup(r, user, device).value in listed
  {
    forall user, device | Lookup(r, user, device).Some?
      ensures Lookup(r, user, device).value in listed
    {
      var c := Lookup(r, user, device).value;
      assert Lookup(r, c.user, c.device) == Some(c);
    }
  }

  lemma EffectSound(h: Hub, id: nat, next: Hub, then_: Goroutine)
    requires Sound(h) && id in h.goroutines && Effect(h, h.goroutines[id], next, then_)
    requires next.goroutines == h.goroutines
    ensures Sound(next.(goroutines := h.goroutines[id := then_]))
  {
    var after := next.(goroutines := h.goroutines[id := then_]);
    CountedUpdate(h.goroutines, id, then_);
    forall c <- after.registered
      ensures Lookup(after.clients, c.user, c.device) == Some(c) || c in after.closedClients || ToBeClosed(after, c)
    {
      if Owes(then_, c) {
        NowOwed(after, id, c);
      } else if c in h.registered && ToBeClosed(h, c) && !Owes(h.goroutines[id], c) {
        StillOwed(h, after, id, c);
      }
    }
    forall p <- after.goroutines
      ensures ServedWasRegistered(after, after.goroutines[p])
    {
      assert p != id ==> ServedWasRegistered(h, h.goroutines[p]);
    }
  }

  lemma BeginSound(h: Hub, id: nat, goroutine: Goroutine)
    requires Sound(h) && id !in h.goroutines && Callable(h, goroutine)
    ensures Sound(h.(goroutines := h.goroutines[id := goroutine]))
  {
    var after := h.(goroutines := h.goroutines[id := goroutine]);
    CountedUpdate(h.goroutines, id, goroutine);
    forall c <- after.registered | ToBeClosed(h, c)
      ensures ToBeClosed(after, c)
    {
      StillOwed(h, after, id, c);
    }
    assert forall p <- h.goroutines :: ServedWasRegistered(h, h.goroutines[p]);
    hide CountedGoroutines, ToBeClosed, WellKept, Lookup;
  }

  lemma StepSound(h: Hub, id: nat, listed: seq<Client>, taken: bool)
    requires Sound(h) && id in h.goroutines && (h.goroutines[id].HubClosing? ==> Lists(listed, h.clients))
    ensures var (next, goroutine) := Run(h, h.goroutines[id], listed, taken);
            Sound(next.(goroutines := h.goroutines[id := goroutine]))
  {
    CountedIsServing(h, id);
    assert ServedWasRegistered(h, h.goroutines[id]);
    RunEffect(h, h.goroutines[id], listed, taken);
    RunKeepsGoroutines(h, h.goroutines[id], listed, taken);
    hide Effect, Run;
    EffectSound(h, id, Run(h, h.goroutines[id], listed, taken).0, Run(h, h.goroutines[id], listed, taken).1);
  }

  lemma RunKeepsGoroutines(h: Hub, goroutine: Goroutine, listed: seq<Client>, taken: bool)
    ensures Run(h, goroutine, listed, taken).0.goroutines == h.goroutines
  {
  }

  lemma SoundStep(h: Hub, e: Event, after: Hub)
    requires Sound(h) && Possible(h, e, after)
    ensures Sound(after)
  {
    hide Sound, Run;
    match e {
      case Begin(id, goroutine) => BeginSound(h, id, goroutine);
      case Step(id) =>
        var listed: seq<Client>, taken: bool :|
          Copied(h, h.goroutines[id], listed) &&
          var (next, goroutine) := Run(h, h.goroutines[id], listed, taken);
          after == next.(goroutines := h.goroutines[id := goroutine]);
        StepSound(h, id, listed, taken);
    }
  }

  lemma CountedIsServing(h: Hub, id: nat)
    requires h.serving == |CountedGoroutines(h.goroutines)| && id in h.goroutines
    ensures Counted(h.goroutines[id]) ==> h.serving > 0
  {
    assert Counted(h.goroutines[id]) ==> id in CountedGoroutines(h.goroutines);
  }

  lemma {:induction false} EveryRunIsSound(states: seq<Hub>, events: seq<Event>)
    requires IsRun(states, events)
    ensures Sound(states[|events|])
  {
    if events == [] {
      assert CountedGoroutines(NEW_HUB.goroutines) == {};
    } else {
      var n := |events| - 1;
      assert IsRun(states[..n + 1], events[..n]);
      EveryRunIsSound(states[..n + 1], events[..n]);
      SoundStep(states[n], events[n], states[n + 1]);
    }
    hide Sound, Possible;
  }

  /**
   In every run: each user and device maps to at most one client, stored under its own identity; no empty inner map
   remains; and once no goroutine owes a close, every client that was replaced or removed is closed.
   */
  lemma RegistryIsWellKept(states: seq<Hub>, events: seq<Event>)
    requires IsRun(states, events)
    ensures var h := states[|events|];
            && WellKept(h.clients)
            && (forall c <- h.registered | !ToBeClosed(h, c) ::
                 Lookup(h.clients, c.user, c.device) == Some(c) || c in h.closedClients)
  {
    EveryRunIsSound(states, events);
  }

  /** After Close has returned the registry is empty and every counted Serve has ended; neither changes again. */
  lemma ClosedStaysClosed(states: seq<Hub>, events: seq<Event>, i: nat)
    requires IsRun(states, events) && i <= |events|
    ensures states[i].closed ==> states[|events|].closed && states[|events|].clients == map[]
    ensures states[i].returned ==>
              forall id <- states[|events|].goroutines :: !Counted(states[|events|].goroutines[id])
  {
    EveryRunIsSound(states, events);
    ClosedPersists(states, events, i);
    var h := states[|events|];
    if states[i].returned {
      assert CountedGoroutines(h.goroutines) == {};
      forall id <- h.goroutines
        ensures !Counted(h.goroutines[id])
      {
        assert id !in CountedGoroutines(h.goroutines);
      }
    }
  }

  lemma {:induction false} ClosedPersists(states: seq<Hub>, events: seq<Event>, i: nat)
    requires IsRun(states, events) && i <= |events|
    ensures states[i].closed ==> states[|events|].closed
    ensures states[i].returned ==> states[|events|].returned
  {
    if i < |events| {
      var n := |events| - 1;
      assert IsRun(states[..n + 1], events[..n]);
      ClosedPersists(states[..n + 1], events[..n], i);
    }
  }

  /**
   While Close waits, the client of every counted Serve is closed or about to be, so no Serve keeps it waiting for good.
   */
  lemma CloseReachesEveryServe(states: seq<Hub>, events: seq<Event>, id: nat)
    requires IsRun(states, events)
    requires states[|events|].closed && id in states[|events|].goroutines && Counted(states[|events|].goroutines[id])
    ensures var h := states[|events|]; var c := h.goroutines[id].served; c in h.closedClients || ToBeClosed(h, c)
  {
    EveryRunIsSound(states, events);
    var h := states[|events|];
    assert ServedWasRegistered(h, h.goroutines[id]);
  }

  /**
   An entry leaves the registry only by its own client being removed, by another client of the same user and device
   taking its place, or by the hub closing: a replaced client's late Unregister never removes its successor.
   */
  lemma OnlyItselfLeaves(h: Hub, e: Event, after: Hub, c: Client)
    requires Sound(h) && Possible(h, e, after)
    requires Lookup(h.clients, c.user, c.device) == Some(c) && Lookup(after.clients, c.user, c.device) != Some(c)
    ensures e.Step? && e.id in h.goroutines
    ensures var goroutine := h.goroutines[e.id];
            || goroutine == ServeUnregistering(c) || goroutine == Unregistering(c)
            || (goroutine.OfferRefused? && goroutine.refused == c)
            || (goroutine.Registering? && goroutine.client.user == c.user && goroutine.client.device == c.device &&
                 goroutine.client != c)
            || goroutine.HubClosing?
  {
    if e.Step? {
      match h.goroutines[e.id] {
        case Registering(d) => PutKeeps(h.clients, d);
        case ServeUnregistering(d) => RemoveKeeps(h.clients, d);
        case Unregistering(d) => RemoveKeeps(h.clients, d);
        case OfferRefused(d, _) => RemoveKeeps(h.clients, d);
        case _ =>
      }
    }
    hide Put, Remove, Lists;
  }
}
