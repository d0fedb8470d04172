/**
 The bounded send queue of one websocket client. Producers hold the queue mutex for a whole Enqueue, so they exclude
 each other and Close; the writer goroutine takes messages without it, at any moment between two channel operations.
 */
module RealtimeClient {
  import opened Wrappers

  datatype Message = SyncAvailable(latestCursor: nat) | Other(payload: string)

  const SEND_QUEUE_SIZE: nat := 8

  // ---- what a list of messages amounts to ----

  /** The highest cursor hinted at, or -1. */
  function Top(ms: seq<Message>): int {
    if ms == [] then -1
    else
      var last, before := ms[|ms| - 1], Top(ms[..|ms| - 1]);
      if last.SyncAvailable? && last.latestCursor > before then last.latestCursor else before
  }

  /** The messages that are not hints, with their number. */
  function Others(ms: seq<Message>): multiset<Message> {
    if ms == [] then multiset{}
    else
      var last := ms[|ms| - 1];
      Others(ms[..|ms| - 1]) + if last.SyncAvailable? then multiset{} else multiset{last}
  }

  /** How many hints wait. */
  function Hints(ms: seq<Message>): nat {
    if ms == [] then 0
    else Hints(ms[..|ms| - 1]) + if ms[|ms| - 1].SyncAvailable? then 1 else 0
  }

  lemma {:induction false} HintsConcat(a: seq<Message>, b: seq<Message>)
    ensures Hints(a + b) == Hints(a) + Hints(b)
  {
    if b == [] {
      assert a + b == a;
      return;
    }
    var k := |b| - 1;
    assert (a + b)[..|a + b| - 1] == a + b[..k];
    HintsConcat(a, b[..k]);
  }

  lemma HintsOf(m: Message)
    ensures Hints([m]) == if m.SyncAvailable? then 1 else 0
  {
  }

  predicate OnlyHints(ms: seq<Message>) {
    forall m <- ms :: m.SyncAvailable?
  }

  function Max(a: int, b: int): int {
    if a >= b then a else b
  }

  lemma {:induction false} TopIsHighest(ms: seq<Message>)
    ensures Top(ms) >= -1
    ensures forall m <- ms :: m.SyncAvailable? ==> m.latestCursor <= Top(ms)
    ensures Top(ms) != -1 ==> Top(ms) >= 0 && SyncAvailable(Top(ms)) in ms
  {
    if ms != [] {
      TopIsHighest(ms[..|ms| - 1]);
      assert ms == ms[..|ms| - 1] + [ms[|ms| - 1]];
    }
  }

  lemma OneMore(ms: seq<Message>, m: Message)
    ensures Top(ms + [m]) == if m.SyncAvailable? then Max(Top(ms), m.latestCursor) else Top(ms)
    ensures Others(ms + [m]) == if m.SyncAvailable? then Others(ms) else Others(ms) + multiset{m}
  {
    assert (ms + [m])[..|ms|] == ms;
  }

  lemma Concat(a: seq<Message>, b: seq<Message>)
    ensures Top(a + b) == Max(Top(a), Top(b))
    ensures Others(a + b) == Others(a) + Others(b)
  {
    TopConcat(a, b);
    OthersConcat(a, b);
  }

  lemma {:induction false} TopConcat(a: seq<Message>, b: seq<Message>)
    ensures Top(a + b) == Max(Top(a), Top(b))
  {
    TopIsHighest(a);
    if b == [] {
      assert a + b == a;
      return;
    }
    hide Top;
    var front, last := b[..|b| - 1], b[|b| - 1];
    assert a + b == (a + front) + [last] && b == front + [last];
    TopConcat(a, front);
    OneMore(a + front, last);
    OneMore(front, last);
  }

  lemma {:induction false} OthersConcat(a: seq<Message>, b: seq<Message>)
    ensures Others(a + b) == Others(a) + Others(b)
  {
    if b == [] {
      assert a + b == a;
      return;
    }
    hide Others;
    var front, last := b[..|b| - 1], b[|b| - 1];
    assert a + b == (a + front) + [last] && b == front + [last];
    OthersConcat(a, front);
    OneMore(a + front, last);
    OneMore(front, last);
  }

  lemma {:induction false} HintsHaveNoOthers(ms: seq<Message>)
    ensures OnlyHints(ms) <==> Others(ms) == multiset{}
  {
    if ms != [] {
      var front, last := ms[..|ms| - 1], ms[|ms| - 1];
      HintsHaveNoOthers(front);
      assert ms == front + [last];
    }
  }

  /**
   Of everything taken in, the highest hint and every other message are delivered, in a producer's hands, or queued; and
   nothing else is.
   */
  ghost predicate Conserved(takenIn: seq<Message>, delivered: seq<Message>, held: seq<Message>, queued: seq<Message>) {
    && Top(takenIn) == Max(Max(Top(delivered), Top(held)), Top(queued))
    && Others(takenIn) == Others(delivered) + Others(held) + Others(queued)
    && (forall m | m in delivered + held + queued :: m in takenIn)
  }

  /** Moving messages between the three places changes nothing. */
  lemma Delivered(takenIn: seq<Message>, delivered: seq<Message>, held: seq<Message>, part: seq<Message>,
    rest: seq<Message>)
    requires Conserved(takenIn, delivered, held, part + rest)
    ensures Conserved(takenIn, delivered + part, held, rest)
  {
    hide Top, Others;
    Concat(delivered, part);
    Concat(part, rest);
    SameMembers(takenIn, delivered + held + (part + rest), delivered + part + held + rest);
  }

  lemma Held(takenIn: seq<Message>, delivered: seq<Message>, held: seq<Message>, m: Message, rest: seq<Message>)
    requires Conserved(takenIn, delivered, held, [m] + rest)
    ensures Conserved(takenIn, delivered, held + [m], rest)
  {
    hide Top, Others;
    Concat(held, [m]);
    Concat([m], rest);
    SameMembers(takenIn, delivered + held + ([m] + rest), delivered + (held + [m]) + rest);
  }

  lemma PutBack(takenIn: seq<Message>, delivered: seq<Message>, m: Message, held: seq<Message>, queued: seq<Message>)
    requires Conserved(takenIn, delivered, [m] + held, queued)
    ensures Conserved(takenIn, delivered, held, queued + [m])
  {
    hide Top, Others;
    Concat([m], held);
    Concat(queued, [m]);
    SameMembers(takenIn, delivered + ([m] + held) + queued, delivered + held + (queued + [m]));
  }

  lemma SameMembers(takenIn: seq<Message>, a: seq<Message>, b: seq<Message>)
    requires multiset(a) == multiset(b)
    requires forall m <- a :: m in takenIn
    ensures forall m <- b :: m in takenIn
  {
    forall m <- b
      ensures m in takenIn
    {
      assert m in multiset(b);
      assert m in a;
    }
  }

  lemma AddedToQueue(takenIn: seq<Message>, delivered: seq<Message>, queued: seq<Message>, m: Message)
    requires Conserved(takenIn, delivered, [], queued)
    ensures Conserved(takenIn + [m], delivered, [], queued + [m])
  {
    hide Top, Others;
    Concat(takenIn, [m]);
    Concat(queued, [m]);
    forall x | x in delivered + [] + (queued + [m])
      ensures x in takenIn + [m]
    {
      assert x == m || x in delivered + [] + queued;
    }
  }

  /** Hints coalesced into the highest of them and a new one. */
  lemma Coalesced(takenIn: seq<Message>, delivered: seq<Message>, held: seq<Message>, m: Message, highest: Message)
    requires Conserved(takenIn, delivered, held, []) && OnlyHints(held)
    requires m.SyncAvailable? && highest.SyncAvailable? && highest.latestCursor == Max(m.latestCursor, Top(held))
    ensures Conserved(takenIn + [m], delivered, [], [highest])
  {
    HintsHaveNoOthers(held);
    OneMore(takenIn, m);
    OneMore([], highest);
    TopIsHighest(held);
    TopIsHighest(delivered);
    assert [] + [highest] == [highest];
    assert Top([]) == -1 && Others([]) == multiset{};
    hide Top, Others;
    assert highest == m || highest in held;
    forall x | x in delivered + [] + [highest]
      ensures x in takenIn + [m]
    {
      assert x == m || x in delivered + held + [];
    }
  }

  /**
   Once nothing is waiting, the client has heard the highest cursor and every other message, each exactly as often.
   */
  lemma NothingWaiting(takenIn: seq<Message>, delivered: seq<Message>)
    requires Conserved(takenIn, delivered, [], [])
    ensures Top(delivered) == Top(takenIn) && Others(delivered) == Others(takenIn)
  {
    TopIsHighest(delivered);
  }

  lemma HintsNext(held: seq<Message>, m: Message, queued: seq<Message>)
    ensures OnlyHints(held + [m]) <==> OnlyHints(held) && m.SyncAvailable?
    ensures OnlyHints([m] + queued) <==> m.SyncAvailable? && OnlyHints(queued)
  {
    assert (held + [m])[|held|] == m && ([m] + queued)[0] == m;
    assert forall x <- held :: x in held + [m];
    assert forall x <- queued :: x in [m] + queued;
  }

  lemma EmptyHints(m: Message)
    requires m.SyncAvailable?
    ensures OnlyHints([]) && Hints([]) == 0 && Top([]) == -1 && m.latestCursor == Max(m.latestCursor, Top([]))
  {
  }

  class Client {
    var send: seq<Message>
    var closed: bool
    ghost var delivered: seq<Message>
    ghost var takenIn: seq<Message>

    /** Among everything else it holds, the queue never holds two hints. */
    ghost predicate Valid()
      reads this
    {
      |send| <= SEND_QUEUE_SIZE && Hints(send) <= 1 && Conserved(takenIn, delivered, [], send)
    }

    constructor ()
      ensures Valid() && !closed && send == [] && takenIn == [] && delivered == []
    {
      send, closed, delivered, takenIn := [], false, [], [];
      assert Hints([]) == 0;
    }

    /** The writer goroutine takes any number of messages off the front of the queue. */
    method WriterTakes(ghost held: seq<Message>)
      requires Conserved(takenIn, delivered, held, send)
      modifies this`send, this`delivered
      ensures Conserved(takenIn, delivered, held, send)
      ensures |send| <= |old(send)| && send == old(send)[|old(send)| - |send|..]
      ensures delivered == old(delivered) + old(send)[..|old(send)| - |send|]
      ensures OnlyHints(old(send)) ==> OnlyHints(send)
      ensures Hints(send) <= Hints(old(send))
    {
      var k :| 0 <= k <= |send|;
      assert send == send[..k] + send[k..];
      HintsConcat(send[..k], send[k..]);
      Delivered(takenIn, delivered, held, send[..k], send[k..]);
      delivered := delivered + send[..k];
      send := send[k..];
    }

    /** A channel send that gives up when the buffer is full. */
    method TrySend(m: Message) returns (sent: bool)
      modifies this`send
      ensures sent <==> |old(send)| < SEND_QUEUE_SIZE
      ensures send == if sent then old(send) + [m] else old(send)
    {
      sent := |send| < SEND_QUEUE_SIZE;
      if sent {
        send := send + [m];
      }
    }

    /** A channel receive that gives up when the buffer is empty. */
    method TryReceive() returns (m: Option<Message>)
      modifies this`send
      ensures m.None? <==> old(send) == []
      ensures m.Some? ==> old(send) == [m.value] + send
      ensures m.None? ==> send == old(send)
    {
      if send == [] {
        return None;
      }
      m := Some(send[0]);
      send := send[1..];
    }

    method Close()
      requires Valid()
      modifies this`closed
      ensures Valid() && closed
    {
      closed := true;
    }

    /** Takes everything off the queue, racing the writer, and remembers the highest hint. */
    method Drain(message: Message) returns (pending: seq<Message>, highest: Message, allSyncHints: bool)
      requires message.SyncAvailable? && |send| <= SEND_QUEUE_SIZE && Conserved(takenIn, delivered, [], send)
      modifies this`send, this`delivered
      ensures send == [] && |pending| <= |old(send)| && Conserved(takenIn, delivered, pending, [])
      ensures OnlyHints(old(send)) ==> OnlyHints(pending)
      ensures Hints(pending) <= Hints(old(send))
      ensures allSyncHints <==> OnlyHints(pending)
      ensures highest.SyncAvailable? && highest.latestCursor == Max(message.latestCursor, Top(pending))
    {
      hide Conserved, Hints, Top, Others;
      EmptyHints(message);
      pending, highest, allSyncHints := [], message, true;
      var queued: Option<Message> := Some(message);
      while queued.Some?
        invariant |pending| + |send| <= |old(send)|
        invariant Conserved(takenIn, delivered, pending, send)
        invariant Hints(pending) + Hints(send) <= Hints(old(send))
        invariant OnlyHints(old(send)) ==> OnlyHints(pending) && OnlyHints(send)
        invariant allSyncHints <==> OnlyHints(pending)
        invariant highest.SyncAvailable? && highest.latestCursor == Max(message.latestCursor, Top(pending))
        invariant queued.None? ==> send == []
        decreases if queued.Some? then 1 + |send| else 0
      {
        WriterTakes(pending);
        queued := TryReceive();
        if queued.Some? {
          Held(takenIn, delivered, pending, queued.value, send);
          OneMore(pending, queued.value);
          HintsNext(pending, queued.value, send);
          HintsConcat(pending, [queued.value]);
          HintsConcat([queued.value], send);
          pending := pending + [queued.value];
          if queued.value.Other? {
            allSyncHints := false;
          }
          if queued.value.SyncAvailable? && queued.value.latestCursor > highest.latestCursor {
            highest := queued.value;
          }
        }
      }
    }

    /** Puts drained messages back; there is room for all of them, since nobody else may send. */
    method Restore(pending: seq<Message>)
      requires |pending| + |send| <= SEND_QUEUE_SIZE && Conserved(takenIn, delivered, pending, send)
      modifies this`send, this`delivered
      ensures Hints(send) <= Hints(pending) + Hints(old(send))
      ensures |send| <= old(|send|) + |pending| && Conserved(takenIn, delivered, [], send)
    {
      hide Conserved, Hints;
      assert pending[0..] == pending;
      for i := 0 to |pending|
        invariant |pending| - i + |send| <= |pending| + old(|send|)
        invariant |send| <= old(|send|) + i
        invariant Hints(pending[i..]) + Hints(send) <= Hints(pending) + Hints(old(send))
        invariant Conserved(takenIn, delivered, pending[i..], send)
      {
        WriterTakes(pending[i..]);
        assert pending[i..] == [pending[i]] + pending[i + 1..];
        HintsConcat([pending[i]], pending[i + 1..]);
        HintsConcat(send, [pending[i]]);
        PutBack(takenIn, delivered, pending[i], pending[i + 1..], send);
        var _ := TrySend(pending[i]);
      }
    }

    /**
     Whatever the writer does meanwhile, nothing that was taken in is lost except hints a higher one replaces. A hint is
     refused only by a closed client or when something that is not a hint was waiting; an accepted hint waits alone.
     */
    method Enqueue(message: Message) returns (ok: bool)
      requires Valid()
      modifies this
      ensures Valid() && closed == old(closed)
      ensures takenIn == if ok then old(takenIn) + [message] else old(takenIn)
      ensures old(closed) ==> !ok
      ensures !old(closed) && message.Other? && |old(send)| < SEND_QUEUE_SIZE ==> ok
      ensures !old(closed) && message.SyncAvailable? && OnlyHints(old(send)) ==> ok
      ensures ok && message.SyncAvailable? ==> |send| <= 1 && OnlyHints(send)
    {
      hide Conserved, Hints;
      HintsOf(message);
      if closed {
        return false;
      }
      if message.Other? {
        WriterTakes([]);
        HintsConcat(send, [message]);
        AddedToQueue(takenIn, delivered, send, message);
        ok := TrySend(message);
        takenIn := if ok then takenIn + [message] else takenIn;
        return;
      }
      if |send| == 0 {
        assert send + [message] == [message];
        AddedToQueue(takenIn, delivered, send, message);
        ok := TrySend(message);
        takenIn := takenIn + [message];
        return;
      }
      var pending, highest, allSyncHints := Drain(message);
      if !allSyncHints {
        EmptyHints(message);
        Restore(pending);
        return false;
      }
      Coalesced(takenIn, delivered, pending, message, highest);
      HintsOf(highest);
      ok := TrySend(highest);
      takenIn := takenIn + [message];
      assert [] + [highest] == [highest];
    }
  }
}
