/** The order operations are applied in, and the cut of a sorted request into one batch per note. */
module Ordering {
  import opened SyncModel

  predicate Less(a: ClientOperation, b: ClientOperation) {
    a.noteId < b.noteId || (a.noteId == b.noteId && a.sequence < b.sequence)
  }

  predicate Sorted(s: seq<ClientOperation>) {
    forall i, j | 0 <= i < j < |s| :: !Less(s[j], s[i])
  }

  function Insert(s: seq<ClientOperation>, op: ClientOperation): seq<ClientOperation> {
    if s == [] then [op]
    else
      var n := |s| - 1;
      if Less(op, s[n]) then Insert(s[..n], op) + [s[n]] else s + [op]
  }

  /** A copy ordered by note and then sequence; operations with equal keys keep request order. */
  function SortedOperations(s: seq<ClientOperation>): seq<ClientOperation> {
    if s == [] then [] else Insert(SortedOperations(s[..|s| - 1]), s[|s| - 1])
  }

  lemma {:induction false} InsertPermutes(s: seq<ClientOperation>, op: ClientOperation)
    ensures multiset(Insert(s, op)) == multiset(s) + multiset{op}
  {
    if s != [] {
      var n := |s| - 1;
      if Less(op, s[n]) {
        InsertPermutes(s[..n], op);
      }
      assert s == s[..n] + [s[n]];
    }
  }

  lemma {:induction false} InsertSorts(s: seq<ClientOperation>, op: ClientOperation)
    requires Sorted(s)
    ensures Sorted(Insert(s, op))
  {
    if s != [] {
      var n := |s| - 1;
      if Less(op, s[n]) {
        InsertSorts(s[..n], op);
        InsertPermutes(s[..n], op);
        var front := Insert(s[..n], op);
        forall i | 0 <= i < |front|
          ensures !Less(s[n], front[i])
        {
          assert front[i] in multiset(front);
        }
      }
    }
  }

  lemma {:induction false} SortSorts(s: seq<ClientOperation>)
    ensures Sorted(SortedOperations(s))
    ensures multiset(SortedOperations(s)) == multiset(s)
  {
    if s != [] {
      var n := |s| - 1;
      SortSorts(s[..n]);
      InsertSorts(SortedOperations(s[..n]), s[n]);
      InsertPermutes(SortedOperations(s[..n]), s[n]);
      assert s == s[..n] + [s[n]];
    }
  }

  /** Sorted means by note, and by client sequence within a note. */
  lemma SortOrders(s: seq<ClientOperation>)
    ensures multiset(SortedOperations(s)) == multiset(s) && |SortedOperations(s)| == |s|
    ensures forall i, j | 0 <= i < j < |SortedOperations(s)| ::
              var a, b := SortedOperations(s)[i], SortedOperations(s)[j];
              a.noteId < b.noteId || (a.noteId == b.noteId && a.sequence <= b.sequence)
  {
    SortSorts(s);
    assert |multiset(SortedOperations(s))| == |SortedOperations(s)| && |multiset(s)| == |s|;
  }

  /** The operations with one (note, sequence) key, in the order they stand. */
  function WithKey(s: seq<ClientOperation>, noteId: Id, sequence: int): seq<ClientOperation> {
    if s == [] then []
    else
      var last := s[|s| - 1];
      var before := WithKey(s[..|s| - 1], noteId, sequence);
      if last.noteId == noteId && last.sequence == sequence then before + [last] else before
  }

  lemma {:induction false} WithKeyAppend(s: seq<ClientOperation>, op: ClientOperation, noteId: Id, sequence: int)
    ensures WithKey(s + [op], noteId, sequence)
         == WithKey(s, noteId, sequence) + if op.noteId == noteId && op.sequence == sequence then [op] else []
  {
    assert (s + [op])[..|s|] == s;
  }

  lemma {:induction false} InsertStable(s: seq<ClientOperation>, op: ClientOperation, noteId: Id, sequence: int)
    requires Sorted(s)
    ensures WithKey(Insert(s, op), noteId, sequence) == WithKey(s + [op], noteId, sequence)
  {
    hide WithKey;
    if s == [] {
      assert s + [op] == [op];
      return;
    }
    var n := |s| - 1;
    if Less(op, s[n]) {
      InsertStable(s[..n], op, noteId, sequence);
      WithKeyAppend(Insert(s[..n], op), s[n], noteId, sequence);
      WithKeyAppend(s[..n], s[n], noteId, sequence);
      WithKeyAppend(s[..n], op, noteId, sequence);
      assert s == s[..n] + [s[n]];
      WithKeyAppend(s, op, noteId, sequence);
    }
  }

  /** Sorting never reorders operations that share a note and a sequence. */
  lemma {:induction false} SortStable(s: seq<ClientOperation>, noteId: Id, sequence: int)
    ensures WithKey(SortedOperations(s), noteId, sequence) == WithKey(s, noteId, sequence)
  {
    if s != [] {
      var front, last := s[..|s| - 1], s[|s| - 1];
      SortStable(front, noteId, sequence);
      SortSorts(front);
      hide Sorted;
      InsertStable(SortedOperations(front), last, noteId, sequence);
      WithKeyAppend(SortedOperations(front), last, noteId, sequence);
      WithKeyAppend(front, last, noteId, sequence);
      assert s == front + [last];
    }
  }

  /** Sorting a sorted list changes nothing, so sorting a batch again is the identity. */
  lemma {:induction false} SortIdempotent(s: seq<ClientOperation>)
    requires Sorted(s)
    ensures SortedOperations(s) == s
  {
    if s != [] {
      var n := |s| - 1;
      SortIdempotent(s[..n]);
      assert s == s[..n] + [s[n]];
      if n > 0 {
        assert s[..n][n - 1] == s[n - 1];
      }
    }
  }

  lemma {:induction false} WithKeyKeys(s: seq<ClientOperation>, noteId: Id, sequence: int)
    ensures forall op <- WithKey(s, noteId, sequence) :: op.noteId == noteId && op.sequence == sequence && op in s
    ensures WithKey(s, noteId, sequence) == [] <==> forall op <- s :: op.noteId != noteId || op.sequence != sequence
  {
    if s != [] {
      WithKeyKeys(s[..|s| - 1], noteId, sequence);
      assert s == s[..|s| - 1] + [s[|s| - 1]];
    }
  }

  ghost predicate SameWithinKeys(a: seq<ClientOperation>, b: seq<ClientOperation>) {
    forall noteId: Id, sequence: int :: WithKey(a, noteId, sequence) == WithKey(b, noteId, sequence)
  }

  lemma LastKeysAgree(a: seq<ClientOperation>, b: seq<ClientOperation>)
    requires Sorted(a) && Sorted(b) && SameWithinKeys(a, b) && a != []
    ensures b != [] && a[|a| - 1] == b[|b| - 1]
  {
    var x := a[|a| - 1];
    WithKeyKeys(a, x.noteId, x.sequence);
    WithKeyKeys(b, x.noteId, x.sequence);
    var y := b[|b| - 1];
    WithKeyKeys(a, y.noteId, y.sequence);
    WithKeyKeys(b, y.noteId, y.sequence);
    var i :| 0 <= i < |a| && a[i].noteId == y.noteId && a[i].sequence == y.sequence;
    var j :| 0 <= j < |b| && b[j].noteId == x.noteId && b[j].sequence == x.sequence;
    assert !Less(x, y) && !Less(y, x);
    var ka, kb := WithKey(a, x.noteId, x.sequence), WithKey(b, x.noteId, x.sequence);
    assert ka == kb;
    assert ka[|ka| - 1] == x && kb[|kb| - 1] == y;
  }

  lemma CancelSuffix(a: seq<ClientOperation>, b: seq<ClientOperation>, suffix: seq<ClientOperation>)
    requires a + suffix == b + suffix
    ensures a == b
  {
    assert |a| == |b|;
    assert a == (a + suffix)[..|a|] && b == (b + suffix)[..|b|];
  }

  /** Two sorted lists that agree within every key are the same list. */
  lemma {:induction false} SortedUnique(a: seq<ClientOperation>, b: seq<ClientOperation>)
    requires Sorted(a) && Sorted(b) && SameWithinKeys(a, b)
    ensures a == b
  {
    if a == [] {
      if b != [] {
        LastKeysAgree(b, a);
      }
    } else {
      LastKeysAgree(a, b);
      var m, n := |a| - 1, |b| - 1;
      assert a == a[..m] + [a[m]] && b == b[..n] + [a[m]];
      forall noteId: Id, sequence: int
        ensures WithKey(a[..m], noteId, sequence) == WithKey(b[..n], noteId, sequence)
      {
        WithKeyAppend(a[..m], a[m], noteId, sequence);
        WithKeyAppend(b[..n], a[m], noteId, sequence);
        assert WithKey(a, noteId, sequence) == WithKey(b, noteId, sequence);
        CancelSuffix(WithKey(a[..m], noteId, sequence), WithKey(b[..n], noteId, sequence),
          if a[m].noteId == noteId && a[m].sequence == sequence then [a[m]] else []);
      }
      SortedUnique(a[..m], b[..n]);
    }
  }

  /** Exactly what of the request order survives: the order within each (note, sequence) key. */
  lemma SortDependsOnKeysOnly(s: seq<ClientOperation>, other: seq<ClientOperation>)
    ensures SortedOperations(s) == SortedOperations(other) <==> SameWithinKeys(s, other)
  {
    SortSorts(s);
    SortSorts(other);
    forall noteId: Id, sequence: int
      ensures WithKey(SortedOperations(s), noteId, sequence) == WithKey(s, noteId, sequence)
           && WithKey(SortedOperations(other), noteId, sequence) == WithKey(other, noteId, sequence)
    {
      SortStable(s, noteId, sequence);
      SortStable(other, noteId, sequence);
    }
    if SameWithinKeys(s, other) {
      SortedUnique(SortedOperations(s), SortedOperations(other));
    }
  }

  lemma {:induction false} WithKeyCounts(s: seq<ClientOperation>, noteId: Id, sequence: int, op: ClientOperation)
    ensures multiset(WithKey(s, noteId, sequence))[op]
         == if op.noteId == noteId && op.sequence == sequence then multiset(s)[op] else 0
  {
    if s != [] {
      WithKeyCounts(s[..|s| - 1], noteId, sequence, op);
      assert s == s[..|s| - 1] + [s[|s| - 1]];
    }
  }

  lemma WithKeyPermuted(s: seq<ClientOperation>, shuffled: seq<ClientOperation>, noteId: Id, sequence: int)
    requires multiset(s) == multiset(shuffled)
    ensures multiset(WithKey(s, noteId, sequence)) == multiset(WithKey(shuffled, noteId, sequence))
  {
    forall op: ClientOperation
      ensures multiset(WithKey(s, noteId, sequence))[op] == multiset(WithKey(shuffled, noteId, sequence))[op]
    {
      WithKeyCounts(s, noteId, sequence, op);
      WithKeyCounts(shuffled, noteId, sequence, op);
    }
  }

  lemma SingletonPermutation(a: seq<ClientOperation>, b: seq<ClientOperation>)
    requires multiset(a) == multiset(b) && |a| <= 1
    ensures a == b
  {
    assert |multiset(a)| == |a| && |multiset(b)| == |b|;
    if |a| == 1 {
      assert b[0] in multiset(a);
    }
  }

  /** When no two operations of a request share a key, its order does not matter. */
  lemma SortIgnoresRequestOrder(s: seq<ClientOperation>, shuffled: seq<ClientOperation>)
    requires multiset(s) == multiset(shuffled)
    requires forall noteId: Id, sequence: int :: |WithKey(s, noteId, sequence)| <= 1
    ensures SortedOperations(s) == SortedOperations(shuffled)
  {
    forall noteId: Id, sequence: int
      ensures WithKey(s, noteId, sequence) == WithKey(shuffled, noteId, sequence)
    {
      WithKeyPermuted(s, shuffled, noteId, sequence);
      SingletonPermutation(WithKey(s, noteId, sequence), WithKey(shuffled, noteId, sequence));
    }
    SortDependsOnKeysOnly(s, shuffled);
  }

  // ---- batches ----

  /** How many operations at the front share the first operation's note. */
  function RunLength(s: seq<ClientOperation>): (n: nat)
    requires s != []
    ensures 1 <= n <= |s|
    ensures forall i | 0 <= i < n :: s[i].noteId == s[0].noteId
    ensures n < |s| ==> s[n].noteId != s[0].noteId
  {
    if |s| == 1 || s[1].noteId != s[0].noteId then 1 else 1 + RunLength(s[1..])
  }

  /** The request cut into maximal runs of one note. */
  function Batches(s: seq<ClientOperation>): seq<seq<ClientOperation>> {
    if s == [] then [] else [s[..RunLength(s)]] + Batches(s[RunLength(s)..])
  }

  function Flatten(batches: seq<seq<ClientOperation>>): seq<ClientOperation> {
    if batches == [] then [] else batches[0] + Flatten(batches[1..])
  }

  predicate OneNote(batch: seq<ClientOperation>) {
    batch != [] && forall op <- batch :: op.noteId == batch[0].noteId
  }

  predicate IncreasingNotes(batches: seq<seq<ClientOperation>>) {
    && (forall i | 0 <= i < |batches| :: OneNote(batches[i]))
    && (forall i, j | 0 <= i < j < |batches| :: batches[i][0].noteId < batches[j][0].noteId)
  }

  lemma FlattenCons(batch: seq<ClientOperation>, rest: seq<seq<ClientOperation>>)
    ensures Flatten([batch] + rest) == batch + Flatten(rest)
  {
    assert ([batch] + rest)[1..] == rest;
  }

  lemma NothingFlattened()
    ensures Flatten([]) == [] && Batches([]) == []
  {
  }

  lemma {:induction false} BatchesFlatten(s: seq<ClientOperation>)
    ensures Flatten(Batches(s)) == s
    ensures s != [] ==> |Batches(s)| > 0 && Batches(s)[0] == s[..RunLength(s)]
  {
    hide Flatten;
    if s == [] {
      NothingFlattened();
      return;
    }
    var front, back := s[..RunLength(s)], s[RunLength(s)..];
    BatchesFlatten(back);
    FlattenCons(front, Batches(back));
    assert Batches(s) == [front] + Batches(back);
    assert s == front + back;
  }

  lemma SortedParts(s: seq<ClientOperation>, n: nat)
    requires Sorted(s) && n <= |s|
    ensures Sorted(s[..n]) && Sorted(s[n..])
    ensures forall i | 0 < i < |s| :: !Less(s[i], s[0])
  {
    hide Less;
  }

  /** The first run of a sorted request is one note's, and what follows it belongs to larger notes. */
  lemma RunIsOneNote(s: seq<ClientOperation>)
    requires Sorted(s) && s != []
    ensures var n := RunLength(s);
            && 0 < n <= |s| && OneNote(s[..n]) && Sorted(s[..n]) && Sorted(s[n..])
            && (n < |s| ==> s[0].noteId < s[n].noteId && RunLength(s[n..]) > 0)
  {
    var n := RunLength(s);
    SortedParts(s, n);
    hide Sorted;
    assert n < |s| ==> !Less(s[n], s[0]);
  }

  lemma BatchPrepended(first: seq<ClientOperation>, rest: seq<seq<ClientOperation>>)
    requires OneNote(first) && Sorted(first) && IncreasingNotes(rest)
    requires forall i | 0 <= i < |rest| :: Sorted(rest[i])
    requires rest != [] ==> first[0].noteId < rest[0][0].noteId
    ensures IncreasingNotes([first] + rest) && forall i | 0 <= i < |[first] + rest| :: Sorted(([first] + rest)[i])
  {
    hide Sorted;
    var batches := [first] + rest;
    assert forall i | 0 < i < |batches| :: batches[i] == rest[i - 1];
    assert forall i | 0 <= i < |rest| :: first[0].noteId < rest[i][0].noteId;
  }

  /**
   The batches of a sorted request partition it in order, hold one note each, and come in strictly increasing note
   order: no note has two batches, and note rows are locked in increasing order.
   */
  lemma {:induction false} BatchesPartition(s: seq<ClientOperation>)
    requires Sorted(s)
    ensures Flatten(Batches(s)) == s
    ensures IncreasingNotes(Batches(s))
    ensures forall i | 0 <= i < |Batches(s)| :: Sorted(Batches(s)[i])
    decreases |s|
  {
    BatchesFlatten(s);
    hide Flatten;
    if s == [] {
      return;
    }
    hide Less, OneNote, Sorted;
    var n := RunLength(s);
    var first, rest := s[..n], Batches(s[n..]);
    RunIsOneNote(s);
    BatchesPartition(s[n..]);
    BatchesFlatten(s[n..]);
    assert Batches(s) == [first] + rest;
    BatchPrepended(first, rest);
  }
}
