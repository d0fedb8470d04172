/** Text deltas: the splice carried by modify_note_title and modify_block. Text is a sequence of runes. */
module TextDeltas {
  import opened Wrappers

  datatype TextDelta = TextDelta(index: int, deleteCount: int, insertText: string)

  predicate InRange(text: string, delta: TextDelta) {
    && 0 <= delta.index <= |text|
    && 0 <= delta.deleteCount <= |text| - delta.index
  }

  /** The text after an accepted delta; None is the out-of-range error. */
  function Splice(text: string, delta: TextDelta): (r: Option<string>)
    ensures r.Some? <==> InRange(text, delta)
    ensures r.Some? ==> |r.value| == |text| - delta.deleteCount + |delta.insertText|
  {
    if InRange(text, delta) then
      Some(text[..delta.index] + delta.insertText + text[delta.index + delta.deleteCount..])
    else None
  }

  method ApplyTextDelta(text: string, delta: TextDelta) returns (r: Option<string>)
    ensures r.Some? <==> InRange(text, delta)
    ensures r == Splice(text, delta)
  {
    if delta.index < 0 || delta.index > |text| {
      return None;
    }
    if delta.deleteCount < 0 {
      return None;
    }
    if delta.deleteCount > |text| - delta.index {
      return None;
    }
    var end := delta.index + delta.deleteCount;
    var result: string := [];
    result := result + text[..delta.index];
    result := result + delta.insertText;
    result := result + text[end..];
    assert result == text[..delta.index] + delta.insertText + text[end..];
    return Some(result);
  }

  /** The delta that undoes an accepted delta. */
  function Inverse(text: string, delta: TextDelta): TextDelta
    requires InRange(text, delta)
  {
    TextDelta(delta.index, |delta.insertText|, text[delta.index..delta.index + delta.deleteCount])
  }

  lemma SpliceInverse(text: string, delta: TextDelta)
    requires InRange(text, delta)
    ensures Splice(Splice(text, delta).value, Inverse(text, delta)) == Some(text)
  {
    var middle := Splice(text, delta).value;
    assert middle[..delta.index] == text[..delta.index];
    assert middle[delta.index + |delta.insertText|..] == text[delta.index + delta.deleteCount..];
    assert text[..delta.index] + text[delta.index..delta.index + delta.deleteCount]
        + text[delta.index + delta.deleteCount..] == text;
  }

  /** Every accepted delta in turn; an out-of-range delta leaves the text as it is. */
  function SpliceAll(text: string, deltas: seq<TextDelta>): string {
    if deltas == [] then text
    else
      var before := SpliceAll(text, deltas[..|deltas| - 1]);
      match Splice(before, deltas[|deltas| - 1])
      case Some(after) => after
      case None => before
  }

  /** Each delta is in range of the text the ones before it leave. */
  predicate AllInRange(text: string, deltas: seq<TextDelta>) {
    deltas == [] ||
    var front := deltas[..|deltas| - 1];
    AllInRange(text, front) && InRange(SpliceAll(text, front), deltas[|deltas| - 1])
  }

  /** The deltas that undo a list of them, last first. */
  function Inverses(text: string, deltas: seq<TextDelta>): seq<TextDelta>
    requires AllInRange(text, deltas)
  {
    if deltas == [] then []
    else
      var front := deltas[..|deltas| - 1];
      [Inverse(SpliceAll(text, front), deltas[|deltas| - 1])] + Inverses(text, front)
  }

  lemma {:induction false} SpliceAllCons(text: string, first: TextDelta, rest: seq<TextDelta>)
    requires InRange(text, first)
    ensures SpliceAll(text, [first] + rest) == SpliceAll(Splice(text, first).value, rest)
  {
    if rest == [] {
      assert [first] + rest == [first] && [first][..0] == [];
      assert SpliceAll(text, []) == text;
    } else {
      SpliceAllCons(text, first, rest[..|rest| - 1]);
      assert ([first] + rest)[..|rest|] == [first] + rest[..|rest| - 1];
    }
  }

  /** Accepted deltas can all be undone. */
  lemma {:induction false} UndoAll(text: string, deltas: seq<TextDelta>)
    requires AllInRange(text, deltas)
    ensures SpliceAll(SpliceAll(text, deltas), Inverses(text, deltas)) == text
  {
    if deltas != [] {
      var front, last := deltas[..|deltas| - 1], deltas[|deltas| - 1];
      var before := SpliceAll(text, front);
      SpliceInverse(before, last);
      SpliceAllCons(SpliceAll(text, deltas), Inverse(before, last), Inverses(text, front));
      UndoAll(text, front);
    }
  }

  /** Deltas at or after the end of an earlier splice commute with it, once shifted by what it grew. */
  lemma DisjointSplicesCommute(text: string, left: TextDelta, right: TextDelta)
    requires InRange(text, left) && InRange(text, right)
    requires left.index + left.deleteCount <= right.index
    ensures var shifted := right.(index := right.index + |left.insertText| - left.deleteCount);
            && InRange(Splice(text, left).value, shifted)
            && InRange(Splice(text, right).value, left)
            && Splice(Splice(text, left).value, shifted) == Splice(Splice(text, right).value, left)
  {
    var l, r := Splice(text, left).value, Splice(text, right).value;
    var shift := |left.insertText| - left.deleteCount;
    var leftEnd, rightEnd := left.index + left.deleteCount, right.index + right.deleteCount;
    var between := text[leftEnd..right.index];
    assert l[..right.index + shift] == text[..left.index] + left.insertText + between;
    assert l[rightEnd + shift..] == text[rightEnd..];
    assert r[..left.index] == text[..left.index];
    assert r[leftEnd..] == between + right.insertText + text[rightEnd..];
    assert text[..left.index] + left.insertText + between + right.insertText + text[rightEnd..]
        == text[..left.index] + left.insertText + (between + right.insertText + text[rightEnd..]);
  }
}
