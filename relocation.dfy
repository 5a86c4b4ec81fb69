/** Relocation by left-to-right selection, the repair `getChanges` evidently means to
    perform: at every position that does not yet hold the target's item, the item that
    belongs there is taken from further right and inserted at that position. Replaying the
    moves on the playlist gives the target order. */
module Relocation {
  import opened JsArray

  /** Take the item at position `from` out and insert it at position `to`. */
  datatype Step = Step(from: nat, to: nat)

  function Relocate<T(==)>(s: seq<T>, from: nat, to: nat): (r: seq<T>)
    requires from < |s| && to < |s|
    ensures |r| == |s| && r[to] == s[from]
  {
    var rest := s[..from] + s[from + 1..];
    rest[..to] + [s[from]] + rest[to..]
  }

  /** Relocating an item keeps the multiset of the list. */
  lemma RelocatePermutes<T>(s: seq<T>, from: nat, to: nat)
    requires from < |s| && to < |s|
    ensures multiset(Relocate(s, from, to)) == multiset(s)
  {
    var rest := s[..from] + s[from + 1..];
    assert s == s[..from] + [s[from]] + s[from + 1..];
    assert rest == rest[..to] + rest[to..];
    assert multiset(rest) + multiset{s[from]} == multiset(s);
  }

  /** Relocating shifts only the items between the two positions: they move one place toward
      the vacated position `from`, and every item outside that range stays where it was. */
  lemma RelocatePositions<T>(s: seq<T>, from: nat, to: nat)
    requires from < |s| && to < |s|
    ensures forall k :: 0 <= k < |s| && k < from && k < to ==> Relocate(s, from, to)[k] == s[k]
    ensures forall k :: from < k < |s| && to < k ==> Relocate(s, from, to)[k] == s[k]
    ensures forall k :: from <= k < to ==> Relocate(s, from, to)[k] == s[k + 1]
    ensures forall k :: to < k <= from ==> Relocate(s, from, to)[k] == s[k - 1]
  {
  }

  /** The moves applied one after the other; `None` when a move names a missing position. */
  function Replay<T(==)>(s: seq<T>, ops: seq<Step>): Option<seq<T>>
    decreases |ops|
  {
    if ops == [] then Some(s)
    else if ops[0].from < |s| && ops[0].to < |s| then Replay(Relocate(s, ops[0].from, ops[0].to), ops[1..])
    else None
  }

  /** The first position at or after `j` holding `x`. */
  function IndexFrom<T(==)>(s: seq<T>, x: T, j: nat): (k: nat)
    requires j <= |s| && x in s[j..]
    ensures j <= k < |s| && s[k] == x
    decreases |s| - j
  {
    if s[j] == x then j
    else
      assert s[j..] == [s[j]] + s[j + 1..];
      IndexFrom(s, x, j + 1)
  }

  /** The prefix up to `i` is in place, and the rest holds the items the target still needs. */
  predicate Placed<T(==)>(work: seq<T>, target: seq<T>, i: nat)
  {
    |work| == |target| && i <= |work| &&
    work[..i] == target[..i] && multiset(work[i..]) == multiset(target[i..])
  }

  /** Moving the item the target wants at `i` there, from position `from` further right,
      keeps the invariant one position further on. */
  lemma PlacedStep<T>(work: seq<T>, target: seq<T>, i: nat, from: nat)
    requires Placed(work, target, i) && i < from < |work| && work[from] == target[i]
    ensures Placed(Relocate(work, from, i), target, i + 1)
  {
    var w := Relocate(work, from, i);
    var rest := work[..from] + work[from + 1..];
    assert w == rest[..i] + [work[from]] + rest[i..];
    assert rest[..i] == work[..i];
    assert w[..i + 1] == target[..i + 1] by {
      assert target[..i + 1] == target[..i] + [target[i]];
    }
    assert work[i..] == work[i..from] + [work[from]] + work[from + 1..];
    assert rest[i..] == work[i..from] + work[from + 1..];
    assert w[i + 1..] == rest[i..];
    assert target[i..] == [target[i]] + target[i + 1..];
    assert multiset(work[i..]) == multiset(work[i..from]) + multiset{work[from]} + multiset(work[from + 1..]);
    assert multiset(target[i..]) == multiset(target[i + 1..]) + multiset{target[i]};
    assert multiset(w[i + 1..]) == multiset(work[i..from]) + multiset(work[from + 1..]);
    assert multiset(w[i + 1..]) + multiset{target[i]} == multiset(work[i..]);
    MultisetCancel(multiset(w[i + 1..]), multiset(target[i + 1..]), target[i]);
  }

  /** `target[i]` is still to be found right of `i` when position `i` holds another item. */
  lemma Missing<T>(work: seq<T>, target: seq<T>, i: nat)
    requires Placed(work, target, i) && i < |work| && work[i] != target[i]
    ensures target[i] in work[i + 1..]
  {
    assert target[i..] == [target[i]] + target[i + 1..];
    assert target[i] in multiset(work[i..]);
    assert work[i..] == [work[i]] + work[i + 1..];
  }

  lemma Kept<T>(work: seq<T>, target: seq<T>, i: nat)
    requires Placed(work, target, i) && i < |work| && work[i] == target[i]
    ensures Placed(work, target, i + 1)
  {
    assert work[..i + 1] == work[..i] + [work[i]];
    assert target[..i + 1] == target[..i] + [target[i]];
    assert work[i..] == [work[i]] + work[i + 1..];
    assert target[i..] == [target[i]] + target[i + 1..];
    assert multiset(work[i..]) == multiset(work[i + 1..]) + multiset{work[i]};
    assert multiset(target[i..]) == multiset(target[i + 1..]) + multiset{target[i]};
    MultisetCancel(multiset(work[i + 1..]), multiset(target[i + 1..]), target[i]);
  }

  /** The moves that turn `work` into `target` from position `i` on: positions already
      holding the right item cost nothing, every other position one move, whose source lies
      right of it. Replaying the moves gives the target. */
  function Plan<T(==)>(work: seq<T>, target: seq<T>, i: nat): (ops: seq<Step>)
    requires Placed(work, target, i)
    ensures Replay(work, ops) == Some(target)
    ensures |ops| <= |work| - i
    ensures forall k :: 0 <= k < |ops| ==> i <= ops[k].to < ops[k].from < |work|
    decreases |work| - i
  {
    if i == |work| then
      assert work == work[..i] && target == target[..i];
      []
    else if work[i] == target[i] then
      Kept(work, target, i);
      Plan(work, target, i + 1)
    else
      Missing(work, target, i);
      var from := IndexFrom(work, target[i], i + 1);
      PlacedStep(work, target, i, from);
      var rest := Plan(Relocate(work, from, i), target, i + 1);
      var ops := [Step(from, i)] + rest;
      assert ops[0] == Step(from, i) && ops[1..] == rest;
      assert Replay(work, ops) == Replay(Relocate(work, from, i), rest);
      ops
  }

  /** A list already in the target order needs no move. */
  lemma {:induction false} PlanOfSorted<T>(s: seq<T>, i: nat)
    requires i <= |s|
    ensures Placed(s, s, i) && Plan(s, s, i) == []
    decreases |s| - i
  {
    if i < |s| {
      PlanOfSorted(s, i + 1);
    }
  }
}
