/** The JavaScript array primitives the reordering code relies on, with the index
    clamping that `Array.prototype.slice` and `Array.prototype.splice` apply to their
    position arguments. A slot holding `undefined` is `None`. */
module JsArray {

  datatype Option<T> = None | Some(value: T)

  /** The position that a relative index `k` denotes in an array of length `len`:
      a negative `k` counts back from the end, and the result is clamped to `0..len`. */
  function RelativeIndex(k: int, len: nat): (p: nat)
    ensures p <= len
  {
    if k < 0 then (if len + k < 0 then 0 else len + k)
    else if k > len then len else k
  }

  /** `s.slice(begin, end)`. */
  function Slice<T>(s: seq<T>, begin: int, end: int): (r: seq<T>)
    ensures |r| <= |s|
  {
    var b, e := RelativeIndex(begin, |s|), RelativeIndex(end, |s|);
    if b < e then s[b..e] else []
  }

  /** `slice(-1)` is the last element, and `slice(0, -1)` all the others. */
  lemma SliceLast<T>(s: seq<T>)
    requires s != []
    ensures Slice(s, -1, |s|) == [s[|s| - 1]]
    ensures Slice(s, 0, -1) == s[..|s| - 1]
  {
  }

  /** `s.splice(k, 1)`, read through `[0]`: the element removed (`undefined` when `k`
      denotes no element) paired with what is left of `s`. */
  function RemoveAt<T>(s: seq<Option<T>>, k: int): (r: (Option<T>, seq<Option<T>>))
    ensures RelativeIndex(k, |s|) < |s| ==> |r.1| == |s| - 1
    ensures RelativeIndex(k, |s|) == |s| ==> r == (None, s)
  {
    var p := RelativeIndex(k, |s|);
    if p < |s| then
      assert s == s[..p] + [s[p]] + s[p + 1..];
      (s[p], s[..p] + s[p + 1..])
    else (None, s)
  }

  /** `s.splice(k, 0, x)`: `x` inserted before the element at relative index `k`. */
  function InsertAt<T>(s: seq<T>, k: int, x: T): (r: seq<T>)
    ensures |r| == |s| + 1
    ensures r[RelativeIndex(k, |s|)] == x
  {
    var p := RelativeIndex(k, |s|);
    assert s == s[..p] + s[p..];
    s[..p] + [x] + s[p..]
  }

  /** The element `splice(k, 1)` takes out and what it leaves are the array's multiset. */
  lemma RemoveAtPermutes<T>(s: seq<Option<T>>, k: int)
    requires RelativeIndex(k, |s|) < |s|
    ensures multiset(RemoveAt(s, k).1) + multiset{RemoveAt(s, k).0} == multiset(s)
  {
    var p := RelativeIndex(k, |s|);
    assert s == s[..p] + [s[p]] + s[p + 1..];
  }

  /** `splice(k, 0, x)` adds `x` to the array's multiset. */
  lemma InsertAtPermutes<T>(s: seq<T>, k: int, x: T)
    ensures multiset(InsertAt(s, k, x)) == multiset(s) + multiset{x}
  {
    var p := RelativeIndex(k, |s|);
    assert s == s[..p] + s[p..];
  }

  lemma SplitLast<T>(s: seq<T>)
    requires s != []
    ensures s == s[..|s| - 1] + [s[|s| - 1]]
  {
  }

  lemma AppendEmpty<T>(a: seq<T>)
    ensures a + [] == a && [] + a == a
  {
  }

  lemma AppendAssoc<T>(a: seq<T>, b: seq<T>, c: seq<T>)
    ensures a + (b + c) == (a + b) + c
  {
  }

  /** Taking the element at `j` out of `s`. */
  lemma SplitAt<T>(s: seq<T>, j: nat)
    requires j < |s|
    ensures s == s[..j] + [s[j]] + s[j + 1..]
    ensures multiset(s) == multiset(s[..j] + s[j + 1..]) + multiset{s[j]}
  {
    assert s == s[..j] + [s[j]] + s[j + 1..];
  }

  lemma TakeSnoc<T>(s: seq<T>, j: nat)
    requires j < |s|
    ensures s[..j + 1] == s[..j] + [s[j]]
  {
  }

  lemma ConcatParts<T>(a: seq<T>, b: seq<T>)
    ensures (a + b)[..|a|] == a && (a + b)[|a|..] == b
  {
  }

  lemma SplitFirst<T>(s: seq<T>)
    requires s != []
    ensures s == [s[0]] + s[1..]
    ensures multiset(s) == multiset(s[1..]) + multiset{s[0]}
  {
    assert s == [s[0]] + s[1..];
  }

  lemma MultisetCancel<T>(a: multiset<T>, b: multiset<T>, x: T)
    requires a + multiset{x} == b + multiset{x}
    ensures a == b
  {
    assert a == a + multiset{x} - multiset{x};
    assert b == b + multiset{x} - multiset{x};
  }
}
