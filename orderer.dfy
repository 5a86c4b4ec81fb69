/** One reordering pass of `playlistOrder.js`, with the module's two variables,
    `previousSongIndex` and `usersTracksMap`, as the fields of an `Orderer` that lives
    from one pass to the next. */
module PlaylistOrder {
  import opened JsArray
  import opened Tracks
  import opened Grouping
  import opened Merge
  import opened Diff
  import opened Playback
  import opened Relocation

  /** What one call of `orderPlaylist` leaves behind: the contributor map, the remembered
      playing position, and the result of `getChanges` (a thrown `TypeError` is `Err`). */
  datatype PassResult = PassResult(queues: seq<Queue>, previousSongIndex: int, outcome: Result<Outcome>)

  /** The target list of a pass: the tagged playlist up to the playing position, then the
      round-robin merge of the map. */
  function NewOrder(tagged: seq<Entry>, currentIndex: int, queues: seq<Queue>): seq<Slot>
  {
    Defined(Slice(tagged, 0, currentIndex)) + RoundRobin(queues)
  }

  /** The composition `orderPlaylist` performs on the playlist `tracksInfo` once the player
      reports `currentId`, starting from the map `queues` and the remembered position
      `previousSongIndex`. */
  function Pass(queues: seq<Queue>, previousSongIndex: int, tracksInfo: seq<TrackInfo>, currentId: string): PassResult
  {
    var currentIndex := FindFrom(tracksInfo, currentId, previousSongIndex);
    var collected := Collect(queues, Slice(tracksInfo, currentIndex, |tracksInfo|), currentIndex);
    var tagged := CreateListWithOldOrder(tracksInfo);
    PassResult(Drained(collected), currentIndex,
      Changes(Defined(tagged), NewOrder(tagged, currentIndex, collected)))
  }

  /** A pass that starts from an empty contributor map, as a pass that builds its queues
      and discards them would. */
  function FreshPass(previousSongIndex: int, tracksInfo: seq<TrackInfo>, currentId: string): PassResult
  {
    Pass([], previousSongIndex, tracksInfo, currentId)
  }

  /** The entries a pass tags lie in `-1 .. n - 1` when the tagging starts at `-1` with at
      most one item, or at a position with the items running to the end of the playlist. */
  lemma TagBounds(ts: seq<TrackInfo>, start: int, n: int)
    requires -1 <= start && start + |ts| <= n && (start == -1 ==> |ts| <= 1)
    ensures forall x :: x in multiset(Tag(ts, start)) ==> -1 <= x.index < n
  {
    forall x | x in multiset(Tag(ts, start)) ensures -1 <= x.index < n {
      var i :| 0 <= i < |ts| && Tag(ts, start)[i] == x;
    }
  }

  /** The played part and the unplayed part of a pass cover the playlist: the unplayed
      part starts at the playing position, or is the last item when none is playing. */
  lemma SplitCovers(tracksInfo: seq<TrackInfo>, currentIndex: int)
    requires -1 <= currentIndex < |tracksInfo|
    ensures var played := Slice(CreateListWithOldOrder(tracksInfo), 0, currentIndex);
      var rest := Slice(tracksInfo, currentIndex, |tracksInfo|);
      && |played| + |rest| == |tracksInfo|
      && played == CreateListWithOldOrder(tracksInfo)[..|played|]
      && rest == tracksInfo[|played|..]
      && (currentIndex == -1 ==> |rest| <= 1)
      && (currentIndex != -1 ==> |played| == currentIndex)
  {
  }

  /** Merging the queues a fresh map collects gives every unplayed item once, tagged,
      and no `undefined`. */
  lemma FreshMerge(rest: seq<TrackInfo>, start: int)
    ensures var rr := RoundRobin(Collect([], rest, start));
      rr == Defined(Present(rr)) && |rr| == |rest| && multiset(Present(rr)) == multiset(Tag(rest, start))
  {
    var collected := Collect([], rest, start);
    var rr := RoundRobin(collected);
    CollectNonEmpty([], rest, start);
    CollectFlatten([], rest, start);
    RoundRobinPermutation(collected);
    assert |multiset(Present(rr))| == |multiset(Tag(rest, start))|;
  }

  /** With a fresh map, the target list of a pass holds an entry in every slot, each
      tagged with a position of the playlist or `-1`, and is as long as the playlist. */
  lemma FreshTarget(previousSongIndex: int, tracksInfo: seq<TrackInfo>, currentId: string)
    ensures var c := FindFrom(tracksInfo, currentId, previousSongIndex);
      var collected := Collect([], Slice(tracksInfo, c, |tracksInfo|), c);
      var newList := NewOrder(CreateListWithOldOrder(tracksInfo), c, collected);
      |newList| == |tracksInfo| && Tagged(newList, |tracksInfo|)
  {
    var n := |tracksInfo|;
    var c := FindFrom(tracksInfo, currentId, previousSongIndex);
    var rest := Slice(tracksInfo, c, n);
    var tagged := CreateListWithOldOrder(tracksInfo);
    var played := Slice(tagged, 0, c);
    SplitCovers(tracksInfo, c);
    FreshMerge(rest, c);
    TagBounds(rest, c, n);
    assert IdentityTagged(played) by {
      assert played == tagged[..|played|];
    }
    TaggedConcat(played, RoundRobin(Collect([], rest, c)), n);
  }

  lemma TaggedConcat(played: seq<Entry>, rr: seq<Slot>, n: int)
    requires IdentityTagged(played) && |played| <= n
    requires rr == Defined(Present(rr))
    requires forall x :: x in multiset(Present(rr)) ==> -1 <= x.index < n
    ensures Tagged(Defined(played) + rr, n)
  {
    var newList := Defined(played) + rr;
    forall k | 0 <= k < |newList| ensures newList[k].Some? && -1 <= newList[k].value.index < n {
      if k < |played| {
        assert newList[k] == Some(played[k]);
      } else {
        var x := Present(rr)[k - |played|];
        assert newList[k] == Some(x);
        assert x in multiset(Present(rr));
      }
    }
  }

  /** A pass that starts from an empty map never throws: it returns at most one change
      per track and leaves the working list a permutation of the tagged playlist. */
  lemma FreshPassSucceeds(previousSongIndex: int, tracksInfo: seq<TrackInfo>, currentId: string)
    ensures var r := FreshPass(previousSongIndex, tracksInfo, currentId).outcome;
      var tagged := Defined(CreateListWithOldOrder(tracksInfo));
      r.Ok? && |r.value.changes| <= |tracksInfo| &&
      |r.value.list| == |tracksInfo| && multiset(r.value.list) == multiset(tagged)
  {
    var n := |tracksInfo|;
    var c := FindFrom(tracksInfo, currentId, previousSongIndex);
    var tagged := CreateListWithOldOrder(tracksInfo);
    var newList := NewOrder(tagged, c, Collect([], Slice(tracksInfo, c, n), c));
    FreshTarget(previousSongIndex, tracksInfo, currentId);
    assert newList[..n] == newList;
    assert Tagged(Defined(tagged), n);
    ChangesSucceed(Defined(tagged), newList);
  }

  /** A first pass (from the empty map of module load) that finds no playing track reorders
      only the last track: it is the whole
      unplayed part, tagged `-1`, so the pass emits the single change `[n - 1, -1]`, whose
      splice puts the track back where it was. */
  lemma NotFoundMovesLastTrack(previousSongIndex: int, tracksInfo: seq<TrackInfo>, currentId: string)
    requires FindFrom(tracksInfo, currentId, previousSongIndex) == -1 && tracksInfo != []
    ensures var tagged := Defined(CreateListWithOldOrder(tracksInfo));
      FreshPass(previousSongIndex, tracksInfo, currentId).outcome ==
        Ok(Outcome([Change(|tracksInfo| - 1, -1)], tagged))
  {
    var n := |tracksInfo|;
    var tagged := CreateListWithOldOrder(tracksInfo);
    var last := tracksInfo[n - 1];
    NotFoundTarget(tracksInfo);
    LastRetagged(tagged, Entry(-1, last.addedBy, last.trackId));
  }

  /** With no playing track, the target is the playlist with its last entry retagged `-1`. */
  lemma NotFoundTarget(tracksInfo: seq<TrackInfo>)
    requires tracksInfo != []
    ensures var n := |tracksInfo|;
      var tagged := CreateListWithOldOrder(tracksInfo);
      var last := tracksInfo[n - 1];
      NewOrder(tagged, -1, Collect([], Slice(tracksInfo, -1, n), -1)) ==
        Defined(tagged[..n - 1]) + [Some(Entry(-1, last.addedBy, last.trackId))]
  {
    var tagged := CreateListWithOldOrder(tracksInfo);
    SliceLast(tracksInfo);
    SliceLast(tagged);
    LastOnlyMerge(tracksInfo[|tracksInfo| - 1]);
  }

  /** The diff of a playlist against itself with the last entry retagged `-1`. */
  lemma LastRetagged(tagged: seq<Entry>, e: Entry)
    requires IdentityTagged(tagged) && tagged != [] && e.index == -1
    ensures var n := |tagged|;
      Changes(Defined(tagged), Defined(tagged[..n - 1]) + [Some(e)]) ==
        Ok(Outcome([Change(n - 1, -1)], Defined(tagged)))
  {
    var n := |tagged|;
    var start := Defined(tagged);
    var newList := Defined(tagged[..n - 1]) + [Some(e)];
    assert Scan(start, newList, 0) == Scan(start, newList, n - 1) by {
      forall t | 0 <= t < n - 1 ensures SameTag(start, newList, t) {
        assert newList[t] == Some(tagged[t]);
      }
      ScanSkips(start, newList, 0, n - 1);
    }
    var c := Change(n - 1, -1);
    assert Scan(start, newList, n - 1) == Ok(Outcome([c], start)) by {
      LastStaysLast(start);
      assert Scan(start, newList, n) == Ok(Outcome([], start));
      assert [c] + [] == [c];
    }
  }

  /** The splice of a change `[n - 1, -1]` takes the last entry out and appends it again. */
  lemma LastStaysLast(s: seq<Slot>)
    requires s != []
    ensures FixOld(s, |s| - 1, -1) == Ok(s)
  {
    assert s == s[..|s| - 1] + [s[|s| - 1]];
    assert Move(s, |s| - 1, -1) == s;
  }

  lemma LastOnlyMerge(last: TrackInfo)
    ensures RoundRobin(Collect([], [last], -1)) == [Some(Entry(-1, last.addedBy, last.trackId))]
  {
    var e := Entry(-1, last.addedBy, last.trackId);
    assert [last][..0] == [];
    assert Collect([], [last][..0], -1) == [];
    assert [] + [e] == [e];
    var collected := Collect([], [last], -1);
    assert collected == Add([], e);
    assert collected == [Queue(last.addedBy, [e])];
    assert Survivors(collected) == [] by {
      SurvivorsSnoc([], collected[0]);
      assert [] + [collected[0]] == collected;
    }
  }

  /** Two tracks by two contributors: the fresh map and its merge, which puts both back
      where they were. */
  lemma TwoTrackMerge(t: seq<TrackInfo>, e0: Entry, e1: Entry)
    requires t == [TrackInfo("A", "a0"), TrackInfo("B", "b0")]
    requires e0 == Entry(0, "A", "a0") && e1 == Entry(1, "B", "b0")
    ensures Collect([], t, 0) == [Queue("A", [e0]), Queue("B", [e1])]
    ensures RoundRobin([Queue("A", [e0]), Queue("B", [e1])]) == [Some(e0), Some(e1)]
  {
    var qa, qb := Queue("A", [e0]), Queue("B", [e1]);
    assert Collect([], t[..1], 0) == [qa] by {
      assert t[..1][..0] == [];
      assert Collect([], t[..1][..0], 0) == [];
      assert [] + [e0] == [e0];
    }
    assert Collect([], t, 0) == [qa, qb] by {
      assert t[..1] == t[..|t| - 1];
      assert IndexOf([qa], "B") == 1;
      assert [] + [e1] == [e1];
    }
    assert Survivors([qa, qb]) == [] by {
      SurvivorsSnoc([qa], qb);
      SurvivorsSnoc([], qa);
      assert [] + [qa] == [qa] && [qa] + [qb] == [qa, qb];
    }
  }

  /** A playlist compared with itself gives no changes. */
  lemma SelfNoChanges(tagged: seq<Entry>)
    ensures Changes(Defined(tagged), Defined(tagged)) == Ok(Outcome([], Defined(tagged)))
  {
    var o := Defined(tagged);
    forall k | 0 <= k < |o| ensures SameTag(o, o, k) {
      assert o[k] == Some(tagged[k]);
    }
    ScanSkips(o, o, 0, |o|);
  }

  /** The first pass on that playlist, playing a0: nothing to change, and the map is left
      with both keys and both queues drained. */
  lemma TwoTrackFirstPass(t: seq<TrackInfo>)
    requires t == [TrackInfo("A", "a0"), TrackInfo("B", "b0")]
    ensures Pass([], 0, t, "a0") ==
      PassResult([Queue("A", []), Queue("B", [])], 0, Ok(Outcome([], Defined(CreateListWithOldOrder(t)))))
  {
    var tagged := CreateListWithOldOrder(t);
    var e0, e1 := Entry(0, "A", "a0"), Entry(1, "B", "b0");
    TwoTrackStart(t, e0, e1);
    TwoTrackMerge(t, e0, e1);
    var collected := [Queue("A", [e0]), Queue("B", [e1])];
    assert Drained(collected) == [Queue("A", []), Queue("B", [])];
    TwoTrackTarget(tagged, e0, e1);
    SelfNoChanges(tagged);
  }

  /** Playing a0 in that playlist: position 0, and the whole playlist is unplayed. */
  lemma TwoTrackStart(t: seq<TrackInfo>, e0: Entry, e1: Entry)
    requires t == [TrackInfo("A", "a0"), TrackInfo("B", "b0")]
    requires e0 == Entry(0, "A", "a0") && e1 == Entry(1, "B", "b0")
    ensures CreateListWithOldOrder(t) == [e0, e1]
    ensures FindFrom(t, "a0", 0) == 0 && Slice(t, 0, |t|) == t
  {
    assert FindAt(t, "a0", 0, 0) == 0;
  }

  /** With nothing played, the target is the merge, here the tagged playlist itself. */
  lemma TwoTrackTarget(tagged: seq<Entry>, e0: Entry, e1: Entry)
    requires tagged == [e0, e1]
    requires RoundRobin([Queue("A", [e0]), Queue("B", [e1])]) == [Some(e0), Some(e1)]
    ensures NewOrder(tagged, 0, [Queue("A", [e0]), Queue("B", [e1])]) == Defined(tagged)
  {
    assert Slice(tagged, 0, 0) == [] && Defined([]) == [];
    assert Defined(tagged) == [Some(e0), Some(e1)];
  }

  /** The second pass regroups b0 alone into the drained map. */
  lemma TwoTrackRecollect(t: seq<TrackInfo>, e1: Entry)
    requires t == [TrackInfo("A", "a0"), TrackInfo("B", "b0")] && e1 == Entry(1, "B", "b0")
    ensures FindFrom(t, "b0", 0) == 1 && Slice(t, 1, 2) == [t[1]]
    ensures Collect([Queue("A", []), Queue("B", [])], [t[1]], 1) == [Queue("A", []), Queue("B", [e1])]
  {
    var drained := [Queue("A", []), Queue("B", [])];
    assert !Accepts(t, "b0", 0, 0);
    assert FindAt(t, "b0", 0, 1) == 1;
    assert [t[1]][..0] == [];
    assert IndexOf(drained, "B") == 1;
    assert [] + [e1] == [e1];
  }

  /** The second pass, playing b0, from the drained map: "A" is still a key with nothing
      queued, so the merge pushes `undefined` at position 1. */
  lemma TwoTrackSecondPass(t: seq<TrackInfo>)
    requires t == [TrackInfo("A", "a0"), TrackInfo("B", "b0")]
    ensures Pass([Queue("A", []), Queue("B", [])], 0, t, "b0").outcome == Err(UndefinedEntry)
  {
    var tagged := CreateListWithOldOrder(t);
    var e0, e1 := Entry(0, "A", "a0"), Entry(1, "B", "b0");
    assert tagged == [e0, e1];
    TwoTrackRecollect(t, e1);
    TwoTrackStaleTarget(tagged, e0, e1);
    assert Scan(Defined(tagged), [Some(e0), None, Some(e1)], 1) == Err(UndefinedEntry);
  }

  /** The target of that second pass: a0 played, then `undefined` for A's drained queue,
      then b0. */
  lemma TwoTrackStaleTarget(tagged: seq<Entry>, e0: Entry, e1: Entry)
    requires tagged == [e0, e1]
    ensures NewOrder(tagged, 1, [Queue("A", []), Queue("B", [e1])]) == [Some(e0), None, Some(e1)]
  {
    var qa, qb := Queue("A", []), Queue("B", [e1]);
    assert RoundRobin([qa, qb]) == [None, Some(e1)] by {
      SurvivorsSnoc([qa], qb);
      SurvivorsSnoc([], qa);
      assert [] + [qa] == [qa] && [qa] + [qb] == [qa, qb];
    }
    assert Slice(tagged, 0, 1) == [e0];
  }

  /** The map outlives a pass with every queue drained. When a contributor whose queue
      was drained has no unplayed track in the next pass, the merge pushes `undefined`
      for that queue and `getChanges` throws on reading its `index`. */
  lemma StaleMapBreaksNextPass()
    ensures var tracksInfo := [TrackInfo("A", "a0"), TrackInfo("B", "b0")];
      var first := Pass([], 0, tracksInfo, "a0");
      first.outcome == Ok(Outcome([], Defined(CreateListWithOldOrder(tracksInfo)))) &&
      Pass(first.queues, first.previousSongIndex, tracksInfo, "b0").outcome == Err(UndefinedEntry)
  {
    var tracksInfo := [TrackInfo("A", "a0"), TrackInfo("B", "b0")];
    TwoTrackFirstPass(tracksInfo);
    TwoTrackSecondPass(tracksInfo);
  }

  /** The order a pass aims at, as playlist items: the played part as it stands, then
      the round-robin merge of the unplayed part, with queues built afresh. It rearranges
      only the unplayed part. */
  function FairOrder(previousSongIndex: int, tracksInfo: seq<TrackInfo>, currentId: string): (r: seq<TrackInfo>)
    ensures var c := FindFrom(tracksInfo, currentId, previousSongIndex);
      var p := |Slice(CreateListWithOldOrder(tracksInfo), 0, c)|;
      |r| == |tracksInfo| && p <= |r| && (c != -1 ==> p == c) &&
      r[..p] == tracksInfo[..p] && multiset(r[p..]) == multiset(tracksInfo[p..])
  {
    var c := FindFrom(tracksInfo, currentId, previousSongIndex);
    FairOrderShape(tracksInfo, c);
    Untag(Present(NewOrder(CreateListWithOldOrder(tracksInfo), c,
      Collect([], Slice(tracksInfo, c, |tracksInfo|), c))))
  }

  lemma FairOrderShape(tracksInfo: seq<TrackInfo>, c: int)
    requires -1 <= c < |tracksInfo|
    ensures var tagged := CreateListWithOldOrder(tracksInfo);
      var rest := Slice(tracksInfo, c, |tracksInfo|);
      var r := Untag(Present(NewOrder(tagged, c, Collect([], rest, c))));
      var p := |Slice(tagged, 0, c)|;
      |r| == |tracksInfo| && p <= |r| && (c != -1 ==> p == c) &&
      r[..p] == tracksInfo[..p] && multiset(r[p..]) == multiset(tracksInfo[p..])
  {
    var tagged := CreateListWithOldOrder(tracksInfo);
    var rest := Slice(tracksInfo, c, |tracksInfo|);
    var played := Slice(tagged, 0, c);
    var p := |played|;
    var mine := Present(RoundRobin(Collect([], rest, c)));
    SplitCovers(tracksInfo, c);
    FreshMerge(rest, c);
    PresentNewOrder(tagged, c, Collect([], rest, c));
    UntagAppend(played, mine);
    UntagPrefix(tagged, p);
    UntagPermutation(mine, Tag(rest, c));
    UntagTag(rest, c);
    ConcatParts(Untag(played), Untag(mine));
  }

  /** The entries of a target list: the played ones, then those of the merge. */
  lemma PresentNewOrder(tagged: seq<Entry>, currentIndex: int, queues: seq<Queue>)
    ensures Present(NewOrder(tagged, currentIndex, queues)) ==
      Slice(tagged, 0, currentIndex) + Present(RoundRobin(queues))
  {
    var played := Slice(tagged, 0, currentIndex);
    PresentAppend(Defined(played), RoundRobin(queues));
    PresentDefined(played);
  }

  /** The repair `getChanges` evidently intends: moves that turn the playlist into the
      fair order, at most one per track, none of them touching a played position. */
  function FairPlan(previousSongIndex: int, tracksInfo: seq<TrackInfo>, currentId: string): (ops: seq<Step>)
    ensures Replay(tracksInfo, ops) == Some(FairOrder(previousSongIndex, tracksInfo, currentId))
    ensures |ops| <= |tracksInfo|
    ensures var c := FindFrom(tracksInfo, currentId, previousSongIndex);
      forall k :: 0 <= k < |ops| ==> (c != -1 ==> c <= ops[k].to) && ops[k].to < ops[k].from
  {
    var c := FindFrom(tracksInfo, currentId, previousSongIndex);
    var p := |Slice(CreateListWithOldOrder(tracksInfo), 0, c)|;
    Plan(tracksInfo, FairOrder(previousSongIndex, tracksInfo, currentId), p)
  }

  /** Four tracks, three by "A" and then one by "B": the fresh map. */
  lemma FourTrackCollect(t: seq<TrackInfo>, e: seq<Entry>)
    requires t == [TrackInfo("A", "a0"), TrackInfo("A", "a1"), TrackInfo("A", "a2"), TrackInfo("B", "b0")]
    requires e == [Entry(0, "A", "a0"), Entry(1, "A", "a1"), Entry(2, "A", "a2"), Entry(3, "B", "b0")]
    ensures Collect([], t, 0) == [Queue("A", [e[0], e[1], e[2]]), Queue("B", [e[3]])]
  {
    ThreeThenOne(t, e[0], e[1], e[2], e[3]);
  }

  /** Three items of one contributor followed by one of another give two queues. */
  lemma ThreeThenOne(t: seq<TrackInfo>, e0: Entry, e1: Entry, e2: Entry, e3: Entry)
    requires |t| == 4
    requires e0 == Entry(0, t[0].addedBy, t[0].trackId) && e1 == Entry(1, t[1].addedBy, t[1].trackId)
    requires e2 == Entry(2, t[2].addedBy, t[2].trackId) && e3 == Entry(3, t[3].addedBy, t[3].trackId)
    requires t[1].addedBy == t[0].addedBy && t[2].addedBy == t[0].addedBy && t[3].addedBy != t[0].addedBy
    ensures Collect([], t, 0) == [Queue(t[0].addedBy, [e0, e1, e2]), Queue(t[3].addedBy, [e3])]
  {
    CollectFirst(t, 0);
    CollectSameKey([], t, 0, 1, [e0]);
    CollectSameKey([], t, 0, 2, [e0] + [e1]);
    CollectOtherKey([], t, 0, 3, Queue(t[0].addedBy, [e0] + [e1] + [e2]));
    assert t[..4] == t;
    assert [e0] + [e1] + [e2] == [e0, e1, e2];
  }

  /** The merge of that map: a0, b0, a1, a2. */
  lemma FourTrackMerge(e: seq<Entry>)
    requires |e| == 4
    ensures RoundRobin([Queue("A", [e[0], e[1], e[2]]), Queue("B", [e[3]])]) ==
      [Some(e[0]), Some(e[3]), Some(e[1]), Some(e[2])]
  {
    var qs := [Queue("A", [e[0], e[1], e[2]]), Queue("B", [e[3]])];
    var s1 := Queue("A", [e[1], e[2]]);
    RoundRobinUnfold(qs);
    assert Heads(qs) == [Some(e[0]), Some(e[3])];
    FourTrackSurvivors(e);
    SingleQueueMerge(s1);
    assert Defined(s1.tracks) == [Some(e[1]), Some(e[2])];
  }

  /** After the first round only the rest of A's queue is in play. */
  lemma FourTrackSurvivors(e: seq<Entry>)
    requires |e| == 4
    ensures Survivors([Queue("A", [e[0], e[1], e[2]]), Queue("B", [e[3]])]) == [Queue("A", [e[1], e[2]])]
  {
    var qa, qb := Queue("A", [e[0], e[1], e[2]]), Queue("B", [e[3]]);
    SurvivorsSnoc([qa], qb);
    SurvivorsSnoc([], qa);
    assert [] + [qa] == [qa] && [qa] + [qb] == [qa, qb];
    assert [e[0], e[1], e[2]][1..] == [e[1], e[2]];
  }

  lemma MoveBack(a: Slot, b: Slot, c: Slot, d: Slot)
    ensures Move([a, b, c, d], 1, 3) == [a, b, d, c]
  {
    var s := [a, b, c, d];
    MoveForward(s, 1, 3);
    var r := Move(s, 1, 3);
    assert r[0] == a && r[1] == b && r[2] == d && r[3] == c;
  }

  lemma MoveToEnd(a: Slot, b: Slot, c: Slot, d: Slot)
    ensures Move([a, b, c, d], 3, 1) == [a, c, d, b]
  {
    var s := [a, b, c, d];
    var removed := RemoveAt(s, 1);
    assert removed.0 == b && removed.1 == s[..1] + s[2..];
    var rest := removed.1;
    assert |rest| == 3 && rest[0] == a && rest[1] == c && rest[2] == d;
    var r := InsertAt(rest, 4, b);
    assert r == rest[..3] + [b] + rest[3..];
    assert r[0] == a && r[1] == c && r[2] == d && r[3] == b;
  }

  lemma MoveInPlace(a: Slot, b: Slot, c: Slot, d: Slot)
    ensures Move([a, b, c, d], 1, 2) == [a, b, c, d]
  {
    var s := [a, b, c, d];
    var removed := RemoveAt(s, 2);
    assert removed.0 == c && removed.1 == s[..2] + s[3..];
    var rest := removed.1;
    assert |rest| == 3 && rest[0] == a && rest[1] == b && rest[2] == d;
    var r := InsertAt(rest, 2, c);
    assert r == rest[..2] + [c] + rest[2..];
    assert r[0] == a && r[1] == b && r[2] == c && r[3] == d;
  }

  /** One iteration of the `getChanges` loop that emits a change, followed by the rest
      of the loop. */
  lemma ScanEmits(work: seq<Slot>, newList: seq<Slot>, i: nat, w: seq<Slot>, cs: seq<Change>, fin: seq<Slot>)
    requires i < |work| && i < |newList| && work[i].Some? && newList[i].Some?
    requires work[i].value.index != newList[i].value.index
    requires FixOld(work, work[i].value.index, newList[i].value.index) == Ok(w) && Filled(w)
    requires Scan(w, newList, i + 1) == Ok(Outcome(cs, fin))
    ensures Scan(work, newList, i) ==
      Ok(Outcome([Change(work[i].value.index, newList[i].value.index)] + cs, fin))
  {
  }

  lemma FirstRepair(f0: Slot, f1: Slot, f2: Slot, f3: Slot)
    requires f2.Some?
    ensures FixOld([f0, f1, f2, f3], 1, 3) == Ok([f0, f1, f3, f2])
  {
    assert Readable([f0, f1, f2, f3], 2);
    assert ShiftReadable([f0, f1, f2, f3], 1, 3);
    MoveBack(f0, f1, f2, f3);
  }

  lemma SecondRepair(f0: Slot, f1: Slot, f2: Slot, f3: Slot)
    ensures FixOld([f0, f1, f3, f2], 3, 1) == Ok([f0, f3, f2, f1])
  {
    MoveToEnd(f0, f1, f3, f2);
  }

  lemma ThirdRepair(f0: Slot, f1: Slot, f2: Slot, f3: Slot)
    ensures FixOld([f0, f3, f2, f1], 1, 2) == Ok([f0, f3, f2, f1])
  {
    MoveInPlace(f0, f3, f2, f1);
  }

  lemma LastRepairStep(x0: Entry, x1: Entry, x2: Entry, x3: Entry)
    requires x1.index == 1 && x2.index == 2
    ensures var w := [Some(x0), Some(x3), Some(x2), Some(x1)];
      Scan(w, [Some(x0), Some(x3), Some(x1), Some(x2)], 3) == Ok(Outcome([Change(1, 2)] + [], w))
  {
    var w := [Some(x0), Some(x3), Some(x2), Some(x1)];
    var newList := [Some(x0), Some(x3), Some(x1), Some(x2)];
    ThirdRepair(Some(x0), Some(x1), Some(x2), Some(x3));
    assert Scan(w, newList, 4) == Ok(Outcome([], w));
    ScanEmits(w, newList, 3, w, [], w);
  }

  lemma MiddleRepairStep(x0: Entry, x1: Entry, x2: Entry, x3: Entry)
    requires x1.index == 1 && x2.index == 2 && x3.index == 3
    ensures var w := [Some(x0), Some(x3), Some(x2), Some(x1)];
      Scan([Some(x0), Some(x1), Some(x3), Some(x2)], [Some(x0), Some(x3), Some(x1), Some(x2)], 2) ==
        Ok(Outcome([Change(3, 1)] + ([Change(1, 2)] + []), w))
  {
    var w := [Some(x0), Some(x3), Some(x2), Some(x1)];
    var newList := [Some(x0), Some(x3), Some(x1), Some(x2)];
    SecondRepair(Some(x0), Some(x1), Some(x2), Some(x3));
    LastRepairStep(x0, x1, x2, x3);
    ScanEmits([Some(x0), Some(x1), Some(x3), Some(x2)], newList, 2, w, [Change(1, 2)] + [], w);
  }

  lemma FirstRepairStep(x0: Entry, x1: Entry, x2: Entry, x3: Entry)
    requires x1.index == 1 && x2.index == 2 && x3.index == 3
    ensures Scan([Some(x0), Some(x1), Some(x2), Some(x3)], [Some(x0), Some(x3), Some(x1), Some(x2)], 1) ==
      Ok(Outcome([Change(1, 3)] + ([Change(3, 1)] + ([Change(1, 2)] + [])), [Some(x0), Some(x3), Some(x2), Some(x1)]))
  {
    var cs := [Change(3, 1)] + ([Change(1, 2)] + []);
    FirstRepair(Some(x0), Some(x1), Some(x2), Some(x3));
    MiddleRepairStep(x0, x1, x2, x3);
    ScanEmits([Some(x0), Some(x1), Some(x2), Some(x3)], [Some(x0), Some(x3), Some(x1), Some(x2)], 1,
      [Some(x0), Some(x1), Some(x3), Some(x2)], cs, [Some(x0), Some(x3), Some(x2), Some(x1)]);
  }

  /** The repair loop on that playlist: three changes, after which the working list holds
      the last two tracks by "A" the wrong way round. */
  lemma FourTrackRepair(x0: Entry, x1: Entry, x2: Entry, x3: Entry)
    requires x0.index == 0 && x1.index == 1 && x2.index == 2 && x3.index == 3
    ensures Changes([Some(x0), Some(x1), Some(x2), Some(x3)], [Some(x0), Some(x3), Some(x1), Some(x2)]) ==
      Ok(Outcome([Change(1, 3), Change(3, 1), Change(1, 2)], [Some(x0), Some(x3), Some(x2), Some(x1)]))
  {
    var w0 := [Some(x0), Some(x1), Some(x2), Some(x3)];
    var newList := [Some(x0), Some(x3), Some(x1), Some(x2)];
    var cs := [Change(1, 3)] + ([Change(3, 1)] + ([Change(1, 2)] + []));
    assert cs == [Change(1, 3), Change(3, 1), Change(1, 2)];
    FirstRepairStep(x0, x1, x2, x3);
    assert Scan(w0, newList, 0) == Scan(w0, newList, 1);
  }

  lemma FourTrackTarget(t: seq<TrackInfo>, e: seq<Entry>)
    requires t == [TrackInfo("A", "a0"), TrackInfo("A", "a1"), TrackInfo("A", "a2"), TrackInfo("B", "b0")]
    requires e == [Entry(0, "A", "a0"), Entry(1, "A", "a1"), Entry(2, "A", "a2"), Entry(3, "B", "b0")]
    ensures CreateListWithOldOrder(t) == e && FindFrom(t, "a0", 0) == 0
    ensures NewOrder(e, 0, Collect([], Slice(t, 0, |t|), 0)) == [Some(e[0]), Some(e[3]), Some(e[1]), Some(e[2])]
  {
    assert FindAt(t, "a0", 0, 0) == 0;
    assert Slice(t, 0, |t|) == t;
    assert Slice(e, 0, 0) == [];
    FourTrackCollect(t, e);
    FourTrackMerge(e);
    assert Defined([]) == [];
  }

  lemma UntagFour(a: Entry, b: Entry, c: Entry, d: Entry)
    ensures Untag(Present([Some(a), Some(b), Some(c), Some(d)])) ==
      [TrackInfo(a.addedBy, a.trackId), TrackInfo(b.addedBy, b.trackId),
       TrackInfo(c.addedBy, c.trackId), TrackInfo(d.addedBy, d.trackId)]
  {
    assert [Some(a), Some(b), Some(c), Some(d)] == Defined([a, b, c, d]);
    PresentDefined([a, b, c, d]);
  }

  /** The repair loop of `getChanges` does not always reach its own target. With three
      tracks by "A" followed by one by "B" and the first one playing, the target is
      a0, b0, a1, a2; the three splices leave a0, b0, a2, a1. */
  lemma RepairMissesFairOrder()
    ensures var t := [TrackInfo("A", "a0"), TrackInfo("A", "a1"), TrackInfo("A", "a2"), TrackInfo("B", "b0")];
      var r := FreshPass(0, t, "a0").outcome;
      r.Ok? && r.value.changes == [Change(1, 3), Change(3, 1), Change(1, 2)] &&
      Untag(Present(r.value.list)) == [t[0], t[3], t[2], t[1]] &&
      FairOrder(0, t, "a0") == [t[0], t[3], t[1], t[2]]
  {
    var t := [TrackInfo("A", "a0"), TrackInfo("A", "a1"), TrackInfo("A", "a2"), TrackInfo("B", "b0")];
    var e := [Entry(0, "A", "a0"), Entry(1, "A", "a1"), Entry(2, "A", "a2"), Entry(3, "B", "b0")];
    FourTrackTarget(t, e);
    var newList := [Some(e[0]), Some(e[3]), Some(e[1]), Some(e[2])];
    assert FreshPass(0, t, "a0").outcome == Changes(Defined(e), newList);
    assert Defined(e) == [Some(e[0]), Some(e[1]), Some(e[2]), Some(e[3])];
    FourTrackRepair(e[0], e[1], e[2], e[3]);
    UntagFour(e[0], e[3], e[2], e[1]);
    assert FairOrder(0, t, "a0") == Untag(Present(newList));
    UntagFour(e[0], e[3], e[1], e[2]);
  }

  /** The queues a merge still has in play, read through their positions in the map:
      `Array.from(usersTracksMap.values())` holds the map's own arrays, not copies. */
  function View(m: seq<Queue>, ps: seq<nat>): seq<Queue>
    requires forall t :: 0 <= t < |ps| ==> ps[t] < |m|
  {
    seq(|ps|, t requires 0 <= t < |ps| => m[ps[t]])
  }

  /** Positions into a map of `n` keys, each at most once, in map order. */
  predicate InPlay(ps: seq<nat>, n: nat)
  {
    (forall t :: 0 <= t < |ps| ==> ps[t] < n) &&
    (forall s, t :: 0 <= s < t < |ps| ==> ps[s] < ps[t])
  }

  function Positions(n: nat): (ps: seq<nat>)
    ensures InPlay(ps, n)
  {
    seq(n, k requires 0 <= k < n => k)
  }

  lemma ViewAll(m: seq<Queue>)
    ensures View(m, Positions(|m|)) == m
  {
  }

  lemma ViewSnoc(m: seq<Queue>, ps: seq<nat>, p: nat)
    requires InPlay(ps, |m|) && p < |m|
    ensures View(m, ps + [p]) == View(m, ps) + [m[p]]
  {
  }

  lemma ViewUpdate(m: seq<Queue>, ps: seq<nat>, p: nat, q: Queue)
    requires InPlay(ps, |m|) && p < |m|
    requires forall t :: 0 <= t < |ps| ==> ps[t] < p
    ensures View(m[p := q], ps) == View(m, ps)
  {
  }

  lemma DrainedWellKeyed(qs: seq<Queue>)
    requires WellKeyed(qs)
    ensures WellKeyed(Drained(qs)) && Users(Drained(qs)) == Users(qs)
  {
    var d := Drained(qs);
    forall x | x in Users(qs) ensures x in Users(d) {
      var q :| q in qs && q.user == x;
      var k :| 0 <= k < |qs| && qs[k] == q;
      assert d[k] in d;
    }
    forall x | x in Users(d) ensures x in Users(qs) {
      var q :| q in d && q.user == x;
      var k :| 0 <= k < |d| && d[k] == q;
      assert qs[k] in qs;
    }
  }

  /** The first `j` callbacks of a round over the queues at positions `ps` of the map
      `before` have run: `m` is the map now, `kept` the positions the filter keeps so far
      and `pushed` what has been pushed. */
  ghost predicate Partial(before: seq<Queue>, ps: seq<nat>, j: nat, m: seq<Queue>, kept: seq<nat>, pushed: seq<Slot>)
  {
    InPlay(ps, |before|) && j <= |ps| &&
    Untouched(before, ps, j, m) && ShiftedPrefix(before, ps, j, m) && Filtered(ps, j, m, kept) &&
    View(m, kept) == Survivors(View(before, ps[..j])) &&
    pushed == Heads(View(before, ps[..j]))
  }

  /** The map after one round: every queue in play has lost its front entry, if it had one,
      and every other queue is as it was. */
  ghost predicate RoundShifted(before: seq<Queue>, ps: seq<nat>, after: seq<Queue>)
    requires InPlay(ps, |before|) && |after| == |before|
  {
    (forall t :: 0 <= t < |ps| ==> after[ps[t]] == Queue(before[ps[t]].user, Rest(before[ps[t]].tracks))) &&
    (forall p :: 0 <= p < |after| && p !in ps ==> after[p] == before[p])
  }

  /** The queues visited so far have lost their front entry, if they had one. */
  ghost predicate ShiftedPrefix(before: seq<Queue>, ps: seq<nat>, j: nat, m: seq<Queue>)
    requires InPlay(ps, |before|) && j <= |ps| && |m| == |before|
  {
    forall t :: 0 <= t < j ==> m[ps[t]] == Queue(before[ps[t]].user, Rest(before[ps[t]].tracks))
  }

  /** The callbacks so far changed no key and no queue they have not reached. */
  ghost predicate Untouched(before: seq<Queue>, ps: seq<nat>, j: nat, m: seq<Queue>)
    requires InPlay(ps, |before|) && j <= |ps|
  {
    |m| == |before| &&
    (forall p :: 0 <= p < |before| ==> m[p].user == before[p].user) &&
    (forall t :: j <= t < |ps| ==> m[ps[t]] == before[ps[t]]) &&
    (forall p :: 0 <= p < |before| && p !in ps ==> m[p] == before[p])
  }

  /** The filter so far kept, in map order, the queues it reached that still hold entries. */
  ghost predicate Filtered(ps: seq<nat>, j: nat, m: seq<Queue>, kept: seq<nat>)
    requires j <= |ps|
  {
    (forall t :: 0 <= t < j && t < |ps| && ps[t] < |m| && m[ps[t]].tracks != [] ==> ps[t] in kept) &&
    InPlay(kept, |m|) &&
    (j < |ps| ==> forall t :: 0 <= t < |kept| ==> kept[t] < ps[j])
  }

  /** The map and the filter's list after callback `j`. */
  function StepMap(ps: seq<nat>, j: nat, m: seq<Queue>): seq<Queue>
    requires j < |ps| && ps[j] < |m|
  {
    var p := ps[j];
    if m[p].tracks != [] then m[p := Queue(m[p].user, m[p].tracks[1..])] else m
  }

  function StepKept(ps: seq<nat>, j: nat, m: seq<Queue>, kept: seq<nat>): seq<nat>
    requires j < |ps| && ps[j] < |m|
  {
    if |StepMap(ps, j, m)[ps[j]].tracks| > 0 then kept + [ps[j]] else kept
  }

  lemma UntouchedStep(before: seq<Queue>, ps: seq<nat>, j: nat, m: seq<Queue>)
    requires InPlay(ps, |before|) && j < |ps| && Untouched(before, ps, j, m)
    ensures Untouched(before, ps, j + 1, StepMap(ps, j, m))
  {
  }

  lemma ShiftedPrefixStep(before: seq<Queue>, ps: seq<nat>, j: nat, m: seq<Queue>)
    requires InPlay(ps, |before|) && j < |ps| && Untouched(before, ps, j, m) && ShiftedPrefix(before, ps, j, m)
    ensures |StepMap(ps, j, m)| == |before| && ShiftedPrefix(before, ps, j + 1, StepMap(ps, j, m))
  {
    var m' := StepMap(ps, j, m);
    forall t | 0 <= t < j + 1 ensures m'[ps[t]] == Queue(before[ps[t]].user, Rest(before[ps[t]].tracks)) {
      if t < j {
        assert ps[t] < ps[j];
      }
    }
  }

  lemma FilteredStep(ps: seq<nat>, j: nat, m: seq<Queue>, kept: seq<nat>)
    requires j < |ps| && ps[j] < |m| && InPlay(ps, |m|) && Filtered(ps, j, m, kept)
    ensures Filtered(ps, j + 1, StepMap(ps, j, m), StepKept(ps, j, m, kept))
  {
    var m', kept' := StepMap(ps, j, m), StepKept(ps, j, m, kept);
    forall t | 0 <= t < j + 1 && t < |ps| && ps[t] < |m'| && m'[ps[t]].tracks != [] ensures ps[t] in kept' {
      if t < j {
        assert ps[t] != ps[j];
        assert ps[t] in kept;
      }
    }
  }

  lemma PartialStep(before: seq<Queue>, ps: seq<nat>, j: nat, m: seq<Queue>, kept: seq<nat>, pushed: seq<Slot>)
    requires Partial(before, ps, j, m, kept, pushed) && j < |ps|
    ensures Partial(before, ps, j + 1, StepMap(ps, j, m), StepKept(ps, j, m, kept),
                    pushed + [Front(m[ps[j]].tracks)])
  {
    assert m[ps[j]] == before[ps[j]];
    UntouchedStep(before, ps, j, m);
    ShiftedPrefixStep(before, ps, j, m);
    FilteredStep(ps, j, m, kept);
    SurvivorsStep(before, ps, j, m, kept);
    HeadsStep(before, ps, j, pushed);
  }

  /** After callback `j` the queues the filter kept are the survivors of one more queue. */
  lemma SurvivorsStep(before: seq<Queue>, ps: seq<nat>, j: nat, m: seq<Queue>, kept: seq<nat>)
    requires InPlay(ps, |before|) && j < |ps|
    requires Untouched(before, ps, j, m) && Filtered(ps, j, m, kept)
    requires View(m, kept) == Survivors(View(before, ps[..j]))
    ensures View(StepMap(ps, j, m), StepKept(ps, j, m, kept)) == Survivors(View(before, ps[..j + 1]))
  {
    var p := ps[j];
    var q := before[p];
    var m' := StepMap(ps, j, m);
    TakeSnoc(ps, j);
    ViewSnoc(before, ps[..j], p);
    SurvivorsSnoc(View(before, ps[..j]), q);
    if q.tracks != [] {
      ViewUpdate(m, kept, p, m'[p]);
    }
    if |m'[p].tracks| > 0 {
      ViewSnoc(m', kept, p);
    }
  }

  /** After callback `j` one more front has been pushed. */
  lemma HeadsStep(before: seq<Queue>, ps: seq<nat>, j: nat, pushed: seq<Slot>)
    requires InPlay(ps, |before|) && j < |ps|
    requires pushed == Heads(View(before, ps[..j]))
    ensures pushed + [Front(before[ps[j]].tracks)] == Heads(View(before, ps[..j + 1]))
  {
    TakeSnoc(ps, j);
    ViewSnoc(before, ps[..j], ps[j]);
    HeadsSnoc(View(before, ps[..j]), before[ps[j]]);
  }

  lemma PartialDone(before: seq<Queue>, ps: seq<nat>, m: seq<Queue>, kept: seq<nat>, pushed: seq<Slot>)
    requires Partial(before, ps, |ps|, m, kept, pushed)
    ensures forall p :: 0 <= p < |m| && m[p].tracks != [] ==> p in kept || (p !in ps && m[p] == before[p])
    ensures |m| == |before| && RoundShifted(before, ps, m)
    ensures View(m, kept) == Survivors(View(before, ps)) && pushed == Heads(View(before, ps))
  {
    assert ps[..|ps|] == ps;
    forall p | 0 <= p < |m| && m[p].tracks != [] && p in ps ensures p in kept {
      var t :| 0 <= t < |ps| && ps[t] == p;
    }
  }

  class Orderer {
    /** The position the player was last found at. */
    var previousSongIndex: int
    /** Contributor id to queue of entries, oldest key first. */
    var usersTracksMap: seq<Queue>

    ghost predicate Valid()
      reads this
    {
      WellKeyed(usersTracksMap)
    }

    /** The module is loaded: nothing remembered yet, and an empty map. */
    constructor ()
      ensures previousSongIndex == 0 && usersTracksMap == []
      ensures Valid()
    {
      previousSongIndex := 0;
      usersTracksMap := [];
    }

    /** `collectTracksByUsers(tracksInfo, startIndex)`: the `forEach` over the items. */
    method CollectTracksByUsers(tracksInfo: seq<TrackInfo>, startIndex: int)
      requires Valid()
      modifies this
      ensures Valid()
      ensures usersTracksMap == Collect(old(usersTracksMap), tracksInfo, startIndex)
      ensures previousSongIndex == old(previousSongIndex)
    {
      for index := 0 to |tracksInfo|
        invariant usersTracksMap == Collect(old(usersTracksMap), tracksInfo[..index], startIndex)
        invariant WellKeyed(usersTracksMap)
        invariant previousSongIndex == old(previousSongIndex)
      {
        var trackInfo := tracksInfo[index];
        var addedBy := trackInfo.addedBy;
        var e := Entry(index + startIndex, addedBy, trackInfo.trackId);
        CollectStep(old(usersTracksMap), tracksInfo, startIndex, index);
        if Get(usersTracksMap, addedBy).None? {
          usersTracksMap := Set(usersTracksMap, addedBy, []);
        }
        usersTracksMap := Set(usersTracksMap, addedBy, Get(usersTracksMap, addedBy).value + [e]);
      }
      assert tracksInfo[..|tracksInfo|] == tracksInfo;
    }

    /** `createListWithNewOrder(playedTracks)`: rounds of `shift`s over the queues still in
        play, which drain the map's own queues; the played entries come first. */
    method CreateListWithNewOrder(playedTracks: seq<Entry>) returns (r: seq<Slot>)
      requires Valid()
      modifies this
      ensures Valid()
      ensures r == Defined(playedTracks) + RoundRobin(old(usersTracksMap))
      ensures usersTracksMap == Drained(old(usersTracksMap))
      ensures previousSongIndex == old(previousSongIndex)
    {
      ghost var start := usersTracksMap;
      var usersTracks := Positions(|usersTracksMap|);
      ViewAll(usersTracksMap);
      var newList: seq<Slot> := [];
      while |usersTracks| > 0
        invariant |usersTracksMap| == |start|
        invariant forall p :: 0 <= p < |start| ==> usersTracksMap[p].user == start[p].user
        invariant InPlay(usersTracks, |usersTracksMap|)
        invariant forall p :: 0 <= p < |usersTracksMap| && usersTracksMap[p].tracks != [] ==> p in usersTracks
        invariant RoundRobin(start) == newList + RoundRobin(View(usersTracksMap, usersTracks))
        invariant previousSongIndex == old(previousSongIndex)
        decreases Weight(View(usersTracksMap, usersTracks))
      {
        ghost var inPlay := View(usersTracksMap, usersTracks);
        RoundRobinUnfold(inPlay);
        SurvivorsLighter(inPlay);
        var pushed;
        usersTracks, pushed := ShiftRound(usersTracks);
        AppendAssoc(newList, pushed, RoundRobin(Survivors(inPlay)));
        newList := newList + pushed;
      }
      forall p | 0 <= p < |start| ensures usersTracksMap[p] == Drained(start)[p] {
        assert usersTracksMap[p].tracks == [];
      }
      DrainedWellKeyed(start);
      // playedTracks.concat(newList)
      r := Defined(playedTracks) + newList;
    }

    /** One `usersTracks.filter(...)` of `createListWithNewOrder`: the front of every queue
        in play is pushed, in map order, and the queues that still hold entries stay in play. */
    method ShiftRound(usersTracks: seq<nat>) returns (kept: seq<nat>, pushed: seq<Slot>)
      requires InPlay(usersTracks, |usersTracksMap|)
      modifies this
      ensures |usersTracksMap| == |old(usersTracksMap)|
      ensures forall p :: 0 <= p < |usersTracksMap| ==> usersTracksMap[p].user == old(usersTracksMap)[p].user
      ensures forall p :: 0 <= p < |usersTracksMap| && usersTracksMap[p].tracks != [] ==>
                p in kept || (p !in usersTracks && usersTracksMap[p] == old(usersTracksMap)[p])
      ensures RoundShifted(old(usersTracksMap), usersTracks, usersTracksMap)
      ensures InPlay(kept, |usersTracksMap|)
      ensures View(usersTracksMap, kept) == Survivors(View(old(usersTracksMap), usersTracks))
      ensures pushed == Heads(View(old(usersTracksMap), usersTracks))
      ensures previousSongIndex == old(previousSongIndex)
    {
      ghost var before := usersTracksMap;
      kept := [];
      pushed := [];
      // The callback shifts the map's own arrays; no one else looks at the map meanwhile.
      var m := usersTracksMap;
      for j := 0 to |usersTracks|
        invariant Partial(before, usersTracks, j, m, kept, pushed)
        invariant previousSongIndex == old(previousSongIndex) && usersTracksMap == before
      {
        var p := usersTracks[j];
        PartialStep(before, usersTracks, j, m, kept, pushed);
        var userTracks := m[p].tracks;
        // newList.push(userTracks.shift())
        pushed := pushed + [Front(userTracks)];
        if userTracks != [] {
          m := m[p := Queue(m[p].user, userTracks[1..])];
        }
        // return userTracks.length > 0
        if |m[p].tracks| > 0 {
          kept := kept + [p];
        }
      }
      PartialDone(before, usersTracks, m, kept, pushed);
      usersTracksMap := m;
    }

    /** The search of `getCurrentlyPlayingIndex` once the player has reported `currentId`;
        the answer, `-1` included, is remembered for the next pass. */
    method GetCurrentlyPlayingIndex(tracksInfo: seq<TrackInfo>, currentId: string) returns (currentIndex: int)
      modifies this
      ensures currentIndex == FindFrom(tracksInfo, currentId, old(previousSongIndex))
      ensures previousSongIndex == currentIndex
      ensures usersTracksMap == old(usersTracksMap)
    {
      currentIndex := FindFrom(tracksInfo, currentId, previousSongIndex);
      previousSongIndex := currentIndex;
    }

    /** The body of `orderPlaylist` after the playlist has been fetched and the player has
        reported `currentId`; the relocation list is returned rather than dropped. */
    method OrderPlaylist(tracksInfo: seq<TrackInfo>, currentId: string) returns (result: Result<Outcome>)
      requires Valid()
      modifies this
      ensures Valid()
      ensures var p := Pass(old(usersTracksMap), old(previousSongIndex), tracksInfo, currentId);
        result == p.outcome && usersTracksMap == p.queues && previousSongIndex == p.previousSongIndex
    {
      var currentIndex := GetCurrentlyPlayingIndex(tracksInfo, currentId);
      var notPlayedTracks := Slice(tracksInfo, currentIndex, |tracksInfo|);
      CollectTracksByUsers(notPlayedTracks, currentIndex);
      var tagged := CreateListWithOldOrder(tracksInfo);
      var newList := CreateListWithNewOrder(Slice(tagged, 0, currentIndex));
      result := GetChanges(Defined(tagged), newList);
    }
  }
}
