/** The relocation list (`getChanges`) and the in-place repair of the working list
    (`fixOldArray`), as the code does them: a change is emitted wherever the working
    list's tag at position `i` differs from the target's, and the working list is then
    spliced so that the entry at position `endIndex` moves to position `startIndex + 1`. */
module Diff {
  import opened JsArray
  import opened Tracks

  /** One emitted pair `[oldList[i].index, newList[i].index]`. */
  datatype Change = Change(from: int, to: int)

  /** Reading `.index` of an `undefined` slot throws a `TypeError`. */
  datatype Error = UndefinedEntry

  datatype Result<T> = Ok(value: T) | Err(error: Error)

  /** What `getChanges` leaves behind: the change list it returns and the working list as
      its in-place repairs left it. */
  datatype Outcome = Outcome(changes: seq<Change>, list: seq<Slot>)

  /** The splice `oldList.splice(startIndex + 1, 0, oldList.splice(endIndex, 1)[0])`: the
      element at relative position `endIndex` (or `undefined` when there is none) is taken
      out and put back at relative position `startIndex + 1` of what is left. */
  function Move(s: seq<Slot>, startIndex: int, endIndex: int): (r: seq<Slot>)
    ensures RelativeIndex(endIndex, |s|) < |s| ==> |r| == |s|
    ensures RelativeIndex(endIndex, |s|) == |s| ==> |r| == |s| + 1 && r[RelativeIndex(startIndex + 1, |s|)] == None
  {
    var removed := RemoveAt(s, endIndex);
    InsertAt(removed.1, startIndex + 1, removed.0)
  }

  /** The nested splice keeps the multiset of the list when `endIndex` denotes an element,
      and adds one `undefined` when it denotes none. */
  lemma MovePermutes(s: seq<Slot>, startIndex: int, endIndex: int)
    ensures RelativeIndex(endIndex, |s|) < |s| ==> multiset(Move(s, startIndex, endIndex)) == multiset(s)
    ensures RelativeIndex(endIndex, |s|) == |s| ==>
              multiset(Move(s, startIndex, endIndex)) == multiset(s) + multiset{None}
  {
    var removed := RemoveAt(s, endIndex);
    InsertAtPermutes(removed.1, startIndex + 1, removed.0);
    if RelativeIndex(endIndex, |s|) < |s| {
      RemoveAtPermutes(s, endIndex);
    }
  }

  /** The `for` loop of `fixOldArray` reads `oldList[i].index` for every `i` from
      `startIndex + 1` up to `endIndex`; each of those slots must hold an entry. */
  predicate ShiftReadable(s: seq<Slot>, startIndex: int, endIndex: int)
  {
    forall k :: startIndex + 1 <= k < endIndex ==> Readable(s, k)
  }

  /** `s[k].index` can be read: position `k` holds an entry. */
  predicate Readable(s: seq<Slot>, k: int)
  {
    0 <= k < |s| && s[k].Some?
  }

  /** Every slot holds an entry, so `oldList.map((item) => item.index)` (line 66, whose
      result is logged) can read every tag. */
  predicate Filled(s: seq<Slot>)
  {
    forall k :: 0 <= k < |s| ==> s[k].Some?
  }

  /** `fixOldArray`: the loop's self-assignments change nothing, so when it does not throw
      the working list is only spliced. */
  function FixOld(s: seq<Slot>, startIndex: int, endIndex: int): Result<seq<Slot>>
  {
    if ShiftReadable(s, startIndex, endIndex) then Ok(Move(s, startIndex, endIndex))
    else Err(UndefinedEntry)
  }

  /** `cs` placed in front of the changes of a successful result. */
  function After(cs: seq<Change>, r: Result<Outcome>): Result<Outcome>
  {
    match r
    case Ok(d) => Ok(Outcome(cs + d.changes, d.list))
    case Err(e) => Err(e)
  }

  /** The `for` loop of `getChanges` from position `i` on, with `work` the working list at
      that point. The bound `oldList.length` is read afresh on every iteration, and after
      each repair the logging `map` over the working list throws on an `undefined` slot. */
  function Scan(work: seq<Slot>, newList: seq<Slot>, i: nat): Result<Outcome>
    decreases |newList| - i
  {
    if i >= |work| then Ok(Outcome([], work))
    else if i >= |newList| || work[i].None? || newList[i].None? then Err(UndefinedEntry)
    else
      var a, b := work[i].value.index, newList[i].value.index;
      if a == b then Scan(work, newList, i + 1)
      else
        match FixOld(work, a, b)
        case Err(e) => Err(e)
        case Ok(w) =>
          if !Filled(w) then Err(UndefinedEntry)
          else After([Change(a, b)], Scan(w, newList, i + 1))
  }

  /** `getChanges(oldList, newList)`. */
  function Changes(oldList: seq<Slot>, newList: seq<Slot>): Result<Outcome>
  {
    Scan(oldList, newList, 0)
  }

  /** `fixOldArray(oldList, startIndex, endIndex)` step by step, on the working list
      passed in and handed back. */
  method FixOldArray(oldList: seq<Slot>, startIndex: int, endIndex: int) returns (r: Result<seq<Slot>>)
    ensures r == FixOld(oldList, startIndex, endIndex)
  {
    var list := oldList;
    var i := startIndex + 1;
    while i < endIndex
      invariant list == oldList
      invariant startIndex + 1 <= i
      invariant startIndex + 1 < endIndex ==> i <= endIndex
      invariant forall k :: startIndex + 1 <= k < i ==> Readable(list, k)
      decreases endIndex - i
    {
      if i < 0 || i >= |list| || list[i].None? {
        assert !Readable(oldList, i);
        assert !ShiftReadable(oldList, startIndex, endIndex);
        return Err(UndefinedEntry);
      }
      var e := list[i].value;
      if e.index >= startIndex {
        // `oldList[i].index = oldList[i].index++`: the increment stores `index + 1`, then
        // the assignment stores the value the increment returned, the old one.
        var v := e.index;
        list := list[i := Some(e.(index := v + 1))];
        list := list[i := Some(list[i].value.(index := v))];
        assert list[i] == oldList[i];
        assert list == oldList;
      }
      assert Readable(list, i);
      i := i + 1;
    }
    var removed := RemoveAt(list, endIndex);
    list := InsertAt(removed.1, startIndex + 1, removed.0);
    r := Ok(list);
  }

  /** `oldList.map((item) => item.index)` on line 66: the tag of every slot in order, and a
      `TypeError` at the first `undefined` one. */
  method ReadIndices(list: seq<Slot>) returns (r: Result<seq<int>>)
    ensures r.Ok? <==> Filled(list)
    ensures r.Ok? ==> |r.value| == |list| && forall k :: 0 <= k < |list| ==> r.value[k] == list[k].value.index
  {
    var tags: seq<int> := [];
    for k := 0 to |list|
      invariant |tags| == k
      invariant forall j :: 0 <= j < k ==> list[j].Some? && tags[j] == list[j].value.index
    {
      if list[k].None? {
        return Err(UndefinedEntry);
      }
      tags := tags + [list[k].value.index];
    }
    r := Ok(tags);
  }

  lemma AfterNil(r: Result<Outcome>)
    ensures After([], r) == r
  {
    if r.Ok? {
      assert [] + r.value.changes == r.value.changes;
    }
  }

  lemma AfterAfter(cs: seq<Change>, ds: seq<Change>, r: Result<Outcome>)
    ensures After(cs, After(ds, r)) == After(cs + ds, r)
  {
    if r.Ok? {
      assert cs + (ds + r.value.changes) == (cs + ds) + r.value.changes;
    }
  }

  /** `getChanges(oldList, newList)` step by step: the change list it builds and the
      working list it repairs in place, handed back. */
  method GetChanges(oldList: seq<Slot>, newList: seq<Slot>) returns (r: Result<Outcome>)
    ensures r == Changes(oldList, newList)
  {
    var work := oldList;
    var changes: seq<Change> := [];
    var i := 0;
    AfterNil(Changes(oldList, newList));
    while i < |work|
      invariant i <= |newList|
      invariant Changes(oldList, newList) == After(changes, Scan(work, newList, i))
      decreases |newList| - i
    {
      if i >= |newList| || work[i].None? || newList[i].None? {
        assert Scan(work, newList, i) == Err(UndefinedEntry);
        return Err(UndefinedEntry);
      }
      var a := work[i].value.index;
      var b := newList[i].value.index;
      if a == b {
        assert Scan(work, newList, i) == Scan(work, newList, i + 1);
      } else {
        var fixed := FixOldArray(work, a, b);
        if fixed.Err? {
          assert Scan(work, newList, i) == Err(fixed.error);
          return Err(fixed.error);
        }
        // console.log(oldList.map((item) => item.index))
        var logged := ReadIndices(fixed.value);
        if logged.Err? {
          assert Scan(work, newList, i) == Err(UndefinedEntry);
          return Err(UndefinedEntry);
        }
        assert Scan(work, newList, i) == After([Change(a, b)], Scan(fixed.value, newList, i + 1));
        AfterAfter(changes, [Change(a, b)], Scan(fixed.value, newList, i + 1));
        changes := changes + [Change(a, b)];
        work := fixed.value;
      }
      i := i + 1;
    }
    assert Scan(work, newList, i) == Ok(Outcome([], work));
    assert changes + [] == changes;
    r := Ok(Outcome(changes, work));
  }

  // ---------------------------------------------------------------------------------
  // The splice

  /** Moving forward: with `startIndex < endIndex` inside the list, the entry at `endIndex`
      lands at `startIndex + 1`, the ones from `startIndex + 1` up to `endIndex - 1` shift one
      place up, and everything else stays where it was. */
  lemma MoveForward(s: seq<Slot>, startIndex: int, endIndex: int)
    requires -1 <= startIndex < endIndex < |s|
    ensures var r := Move(s, startIndex, endIndex);
      |r| == |s| && r[startIndex + 1] == s[endIndex] &&
      (forall k :: 0 <= k <= startIndex ==> r[k] == s[k]) &&
      (forall k :: startIndex + 1 < k <= endIndex ==> r[k] == s[k - 1]) &&
      (forall k :: endIndex < k < |s| ==> r[k] == s[k])
  {
  }

  /** Moving backward: with `endIndex <= startIndex` and `startIndex + 1` inside the list,
      the entry at `endIndex` lands at `startIndex + 1` and the ones after it up to
      `startIndex + 1` shift one place down. */
  lemma MoveBackward(s: seq<Slot>, startIndex: int, endIndex: int)
    requires 0 <= endIndex <= startIndex && startIndex + 1 < |s|
    ensures var r := Move(s, startIndex, endIndex);
      |r| == |s| && r[startIndex + 1] == s[endIndex] &&
      (forall k :: 0 <= k < endIndex ==> r[k] == s[k]) &&
      (forall k :: endIndex <= k <= startIndex ==> r[k] == s[k + 1]) &&
      (forall k :: startIndex + 1 < k < |s| ==> r[k] == s[k])
  {
  }

  /** Moving backward onto the end: when `startIndex + 1` lies past the shortened list, the
      outer splice clamps to its end, so the entry at `endIndex` becomes the last one and
      the entries after it shift one place down. */
  lemma MoveBackwardClamped(s: seq<Slot>, startIndex: int, endIndex: int)
    requires 0 <= endIndex <= startIndex && |s| <= startIndex + 1 && endIndex < |s|
    ensures Move(s, startIndex, endIndex) == s[..endIndex] + s[endIndex + 1..] + [s[endIndex]]
  {
  }

  // ---------------------------------------------------------------------------------
  // The change list

  /** Every slot holds an entry whose tag lies in `-1 .. n - 1`, the tags a pass hands out
      (`-1` for the last track when the playing one is not found). */
  predicate Tagged(s: seq<Slot>, n: int)
  {
    forall k :: 0 <= k < |s| ==> s[k].Some? && -1 <= s[k].value.index < n
  }

  /** The tags of `s` and `t` agree at every position from `i` up to the end of `s`. */
  predicate AgreeFrom(s: seq<Slot>, t: seq<Slot>, i: nat)
  {
    forall k :: i <= k < |s| ==> SameTag(s, t, k)
  }

  /** Position `k` of both lists holds an entry, and the two tags are equal. */
  predicate SameTag(s: seq<Slot>, t: seq<Slot>, k: int)
  {
    0 <= k < |s| && k < |t| && s[k].Some? && t[k].Some? && s[k].value.index == t[k].value.index
  }

  /** The tags the target list carries. */
  function Tags(t: seq<Slot>): set<int>
  {
    set k | 0 <= k < |t| && t[k].Some? :: t[k].value.index
  }

  lemma TaggedPermuted(s: seq<Slot>, t: seq<Slot>, n: int)
    requires Tagged(s, n) && multiset(t) == multiset(s)
    ensures Tagged(t, n)
  {
    forall k | 0 <= k < |t| ensures t[k].Some? && -1 <= t[k].value.index < n {
      assert t[k] in multiset(s);
      var j :| 0 <= j < |s| && s[j] == t[k];
    }
  }

  /** On a list of playlist tags, a repair with two such tags neither throws nor changes
      which entries the list holds. */
  lemma FixOldTagged(s: seq<Slot>, startIndex: int, endIndex: int)
    requires Tagged(s, |s|) && -1 <= startIndex && -1 <= endIndex < |s| && |s| > 0
    ensures FixOld(s, startIndex, endIndex) == Ok(Move(s, startIndex, endIndex))
    ensures var w := Move(s, startIndex, endIndex);
      |w| == |s| && multiset(w) == multiset(s) && Tagged(w, |s|)
  {
    forall k | startIndex + 1 <= k < endIndex ensures Readable(s, k) {
      assert s[k].Some?;
    }
    MovePermutes(s, startIndex, endIndex);
    TaggedPermuted(s, Move(s, startIndex, endIndex), |s|);
  }

  /** A position whose two tags agree is skipped. */
  lemma ScanKeep(work: seq<Slot>, newList: seq<Slot>, i: nat)
    requires SameTag(work, newList, i)
    ensures Scan(work, newList, i) == Scan(work, newList, i + 1)
  {
  }

  /** A position whose tags differ records one change and goes on with the repaired list. */
  lemma ScanFix(work: seq<Slot>, newList: seq<Slot>, i: nat, w: seq<Slot>)
    requires i < |work| && i < |newList| && work[i].Some? && newList[i].Some?
    requires work[i].value.index != newList[i].value.index
    requires FixOld(work, work[i].value.index, newList[i].value.index) == Ok(w) && Filled(w)
    ensures Scan(work, newList, i) ==
      After([Change(work[i].value.index, newList[i].value.index)], Scan(w, newList, i + 1))
  {
  }

  lemma {:induction false} ScanSucceeds(work: seq<Slot>, newList: seq<Slot>, i: nat)
    requires Tagged(work, |work|)
    requires |newList| >= |work| && Tagged(newList[..|work|], |work|)
    requires i <= |work|
    ensures var r := Scan(work, newList, i);
      r.Ok? && |r.value.list| == |work| && multiset(r.value.list) == multiset(work) &&
      |r.value.changes| + i <= |work|
    decreases |work| - i
  {
    var n := |work|;
    if i < n {
      assert newList[..n][i] == newList[i];
      var a, b := work[i].value.index, newList[i].value.index;
      if a == b {
        ScanKeep(work, newList, i);
        ScanSucceeds(work, newList, i + 1);
      } else {
        var w := Move(work, a, b);
        FixOldTagged(work, a, b);
        ScanFix(work, newList, i, w);
        ScanSucceeds(w, newList, i + 1);
      }
    } else {
      assert Scan(work, newList, i) == Ok(Outcome([], work));
    }
  }

  /** With every slot of both lists holding a tag of the playlist, and the target at
      least as long, `getChanges` never throws: the working list stays a permutation of
      the playlist and there is at most one change per position. */
  lemma ChangesSucceed(oldList: seq<Slot>, newList: seq<Slot>)
    requires Tagged(oldList, |oldList|)
    requires |newList| >= |oldList| && Tagged(newList[..|oldList|], |oldList|)
    ensures var r := Changes(oldList, newList);
      r.Ok? && |r.value.list| == |oldList| && multiset(r.value.list) == multiset(oldList) &&
      |r.value.changes| <= |oldList|
  {
    ScanSucceeds(oldList, newList, 0);
  }

  lemma {:induction false} ScanNoChanges(work: seq<Slot>, newList: seq<Slot>, i: nat)
    ensures Scan(work, newList, i) == Ok(Outcome([], work)) <==> AgreeFrom(work, newList, i)
    ensures Scan(work, newList, i).Ok? && Scan(work, newList, i).value.changes == [] ==>
              Scan(work, newList, i) == Ok(Outcome([], work))
    decreases |newList| - i
  {
    if i < |work| {
      if i >= |newList| || work[i].None? || newList[i].None? {
        assert !SameTag(work, newList, i);
      } else {
        var a, b := work[i].value.index, newList[i].value.index;
        if a == b {
          assert Scan(work, newList, i) == Scan(work, newList, i + 1);
          ScanNoChanges(work, newList, i + 1);
          if AgreeFrom(work, newList, i + 1) {
            assert AgreeFrom(work, newList, i);
          }
          assert SameTag(work, newList, i);
        } else {
          assert !SameTag(work, newList, i);
        }
      }
    }
  }

  /** `getChanges` returns no change exactly when the two lists carry the same tags,
      position by position, over the length of the old list; the old list is then left
      as it was. */
  lemma NoChangesIffTagsAgree(oldList: seq<Slot>, newList: seq<Slot>)
    ensures Changes(oldList, newList) == Ok(Outcome([], oldList)) <==> AgreeFrom(oldList, newList, 0)
    ensures Changes(oldList, newList).Ok? && Changes(oldList, newList).value.changes == [] ==>
              AgreeFrom(oldList, newList, 0) && Changes(oldList, newList).value.list == oldList
  {
    ScanNoChanges(oldList, newList, 0);
  }

  lemma {:induction false} ScanBound(work: seq<Slot>, newList: seq<Slot>, i: nat)
    requires i <= |work|
    ensures var r := Scan(work, newList, i);
      r.Ok? ==> |r.value.list| == |work| && |r.value.changes| + i <= |work|
    decreases |newList| - i
  {
    if i < |work| && i < |newList| && work[i].Some? && newList[i].Some? {
      var a, b := work[i].value.index, newList[i].value.index;
      if a == b {
        ScanBound(work, newList, i + 1);
      } else if FixOld(work, a, b).Ok? && Filled(FixOld(work, a, b).value) {
        FilledMoveKeepsLength(work, a, b);
        ScanBound(FixOld(work, a, b).value, newList, i + 1);
      }
    }
  }

  /** A splice that leaves no `undefined` behind took an entry out, so it kept the length. */
  lemma FilledMoveKeepsLength(s: seq<Slot>, startIndex: int, endIndex: int)
    requires Filled(Move(s, startIndex, endIndex))
    ensures |Move(s, startIndex, endIndex)| == |s|
  {
  }

  /** A successful `getChanges` keeps the length of the list and emits at most one change
      per position: a splice of a missing entry would insert `undefined`, on which the
      logging `map` of line 66 throws. */
  lemma ChangesBound(oldList: seq<Slot>, newList: seq<Slot>)
    ensures var r := Changes(oldList, newList);
      r.Ok? ==> |r.value.list| == |oldList| && |r.value.changes| <= |oldList|
  {
    ScanBound(oldList, newList, 0);
  }

  lemma {:induction false} ScanMismatches(work: seq<Slot>, newList: seq<Slot>, i: nat)
    ensures var r := Scan(work, newList, i);
      r.Ok? ==> forall j :: 0 <= j < |r.value.changes| ==>
        r.value.changes[j].from != r.value.changes[j].to && r.value.changes[j].to in Tags(newList)
    decreases |newList| - i
  {
    if i < |work| && i < |newList| && work[i].Some? && newList[i].Some? {
      var a, b := work[i].value.index, newList[i].value.index;
      assert b in Tags(newList);
      if a == b {
        assert Scan(work, newList, i) == Scan(work, newList, i + 1);
        ScanMismatches(work, newList, i + 1);
      } else if FixOld(work, a, b).Ok? && Filled(FixOld(work, a, b).value) {
        var rest := Scan(FixOld(work, a, b).value, newList, i + 1);
        assert Scan(work, newList, i) == After([Change(a, b)], rest);
        ScanMismatches(FixOld(work, a, b).value, newList, i + 1);
        if rest.Ok? {
          var cs := [Change(a, b)] + rest.value.changes;
          forall j | 0 <= j < |cs| ensures cs[j].from != cs[j].to && cs[j].to in Tags(newList) {
            if j == 0 {
              assert cs[j] == Change(a, b);
              assert b in Tags(newList);
            } else {
              var c := rest.value.changes[j - 1];
              assert cs[j] == c;
              assert c.from != c.to && c.to in Tags(newList);
            }
          }
        }
      }
    }
  }

  /** Every change pairs two different tags, the second one read from the target list. */
  lemma ChangesAreMismatches(oldList: seq<Slot>, newList: seq<Slot>)
    ensures var r := Changes(oldList, newList);
      r.Ok? ==> forall j :: 0 <= j < |r.value.changes| ==>
        r.value.changes[j].from != r.value.changes[j].to && r.value.changes[j].to in Tags(newList)
  {
    ScanMismatches(oldList, newList, 0);
  }

  /** Positions whose tags already agree are passed over without a change. */
  lemma {:induction false} ScanSkips(work: seq<Slot>, newList: seq<Slot>, i: nat, k: nat)
    requires i <= k <= |work|
    requires forall t :: i <= t < k ==> SameTag(work, newList, t)
    ensures Scan(work, newList, i) == Scan(work, newList, k)
    decreases k - i
  {
    if i < k {
      assert SameTag(work, newList, i);
      ScanSkips(work, newList, i + 1, k);
    }
  }
}
