/** Contributor grouping (`collectTracksByUsers`): the map from contributor id to the
    queue of that contributor's entries. A JavaScript `Map` iterates in insertion order,
    so the map is the sequence of its keys with their queues, oldest key first. */
module Grouping {
  import opened JsArray
  import opened Tracks

  /** One key of the contributor map together with its queue. */
  datatype Queue = Queue(user: string, tracks: seq<Entry>)

  /** Where `u` is a key of the map; `|qs|` when it is not (`Map.get` returns `undefined`). */
  function IndexOf(qs: seq<Queue>, u: string): (k: nat)
    ensures k <= |qs|
    ensures k < |qs| ==> qs[k].user == u
    ensures forall j :: 0 <= j < k ==> qs[j].user != u
  {
    if qs == [] then 0
    else if qs[0].user == u then 0
    else 1 + IndexOf(qs[1..], u)
  }

  /** `u`'s queue; a contributor that is not a key has nothing queued. */
  function QueueOf(qs: seq<Queue>, u: string): seq<Entry>
  {
    var k := IndexOf(qs, u);
    if k < |qs| then qs[k].tracks else []
  }

  /** The keys of the map. */
  function Users(qs: seq<Queue>): set<string>
  {
    set q | q in qs :: q.user
  }

  /** The contributors of a list of items. */
  function Contributors(ts: seq<TrackInfo>): set<string>
  {
    set t | t in ts :: t.addedBy
  }

  /** All queued entries, queue after queue in map order. */
  function Flatten(qs: seq<Queue>): seq<Entry>
  {
    if qs == [] then [] else qs[0].tracks + Flatten(qs[1..])
  }

  predicate DistinctUsers(qs: seq<Queue>)
  {
    forall i, j :: 0 <= i < j < |qs| ==> qs[i].user != qs[j].user
  }

  /** A map keyed once per contributor, whose queues hold entries of that contributor only. */
  predicate WellKeyed(qs: seq<Queue>)
  {
    DistinctUsers(qs) &&
    forall k, j :: 0 <= k < |qs| && 0 <= j < |qs[k].tracks| ==> qs[k].tracks[j].addedBy == qs[k].user
  }

  predicate NonEmpty(qs: seq<Queue>)
  {
    forall k :: 0 <= k < |qs| ==> qs[k].tracks != []
  }

  /** One step of the scan: a contributor not yet in the map gets an empty queue as its
      newest key, and then `e` is concatenated to the end of that contributor's queue. */
  function Add(qs: seq<Queue>, e: Entry): seq<Queue>
  {
    var k := IndexOf(qs, e.addedBy);
    if k == |qs| then qs + [Queue(e.addedBy, [] + [e])]
    else qs[k := Queue(e.addedBy, qs[k].tracks + [e])]
  }

  /** `Map.prototype.get`: `u`'s queue, `undefined` when `u` is not a key. */
  function Get(qs: seq<Queue>, u: string): (r: Option<seq<Entry>>)
    ensures r.Some? <==> u in Users(qs)
    ensures r.Some? ==> r.value == QueueOf(qs, u)
  {
    IndexOfUsers(qs, u);
    var k := IndexOf(qs, u);
    if k < |qs| then Some(qs[k].tracks) else None
  }

  /** `Map.prototype.set`: an existing key keeps its place and gets the new queue; a new
      key is added last. */
  function Set(qs: seq<Queue>, u: string, v: seq<Entry>): (r: seq<Queue>)
    ensures |r| == |qs| + (if u in Users(qs) then 0 else 1)
    ensures IndexOf(r, u) == IndexOf(qs, u) && r[IndexOf(qs, u)] == Queue(u, v)
    ensures forall k :: 0 <= k < |qs| && k != IndexOf(qs, u) ==> r[k] == qs[k]
  {
    IndexOfUsers(qs, u);
    var k := IndexOf(qs, u);
    var r := if k < |qs| then qs[k := Queue(u, v)] else qs + [Queue(u, v)];
    IndexOfUnique(r, u, k);
    r
  }

  /** One scan step is the two map updates of `collectTracksByUsers`: an empty queue for a
      contributor not yet a key (an empty array is truthy, so an existing empty queue is
      kept), then the queue with `e` concatenated. */
  lemma AddIsGetThenSet(qs: seq<Queue>, e: Entry)
    ensures var u := e.addedBy;
      var m := if Get(qs, u).None? then Set(qs, u, []) else qs;
      Get(m, u).Some? && Add(qs, e) == Set(m, u, Get(m, u).value + [e])
  {
    var u := e.addedBy;
    IndexOfUsers(qs, u);
    var m := if Get(qs, u).None? then Set(qs, u, []) else qs;
    IndexOfUsers(m, u);
    if Get(qs, u).None? {
      assert IndexOf(m, u) == |qs|;
    }
  }

  /** The entries the scan creates from `ts`, in scan order: item `i` tagged `i + start`. */
  function Tag(ts: seq<TrackInfo>, start: int): (r: seq<Entry>)
  {
    seq(|ts|, i requires 0 <= i < |ts| => Entry(i + start, ts[i].addedBy, ts[i].trackId))
  }

  /** Forgetting the tags the scan gives gives the scanned items back. */
  lemma UntagTag(ts: seq<TrackInfo>, start: int)
    ensures Untag(Tag(ts, start)) == ts
  {
  }

  /** `collectTracksByUsers(ts, start)` applied to the map `qs`. */
  function Collect(qs: seq<Queue>, ts: seq<TrackInfo>, start: int): seq<Queue>
    decreases |ts|
  {
    if ts == [] then qs
    else
      var n := |ts| - 1;
      Add(Collect(qs, ts[..n], start), Entry(n + start, ts[n].addedBy, ts[n].trackId))
  }

  lemma IndexOfUnique(qs: seq<Queue>, u: string, k: nat)
    requires k <= |qs|
    requires k < |qs| ==> qs[k].user == u
    requires forall j :: 0 <= j < k ==> qs[j].user != u
    ensures IndexOf(qs, u) == k
  {
  }

  lemma IndexOfUsers(qs: seq<Queue>, u: string)
    ensures u in Users(qs) <==> IndexOf(qs, u) < |qs|
  {
    var k := IndexOf(qs, u);
    if k < |qs| {
      assert qs[k] in qs;
    } else {
      forall q | q in qs ensures q.user != u {
        var j :| 0 <= j < |qs| && qs[j] == q;
      }
    }
  }

  /** The position of a key depends only on the sequence of keys. */
  lemma SameUsersSameIndex(qs: seq<Queue>, rs: seq<Queue>, u: string)
    requires |qs| == |rs|
    requires forall j :: 0 <= j < |qs| ==> qs[j].user == rs[j].user
    ensures IndexOf(qs, u) == IndexOf(rs, u)
  {
    IndexOfUnique(rs, u, IndexOf(qs, u));
  }

  lemma {:induction false} FlattenAppend(a: seq<Queue>, b: seq<Queue>)
    ensures Flatten(a + b) == Flatten(a) + Flatten(b)
  {
    if a == [] {
      assert a + b == b;
    } else {
      assert (a + b)[0] == a[0] && (a + b)[1..] == a[1..] + b;
      FlattenAppend(a[1..], b);
    }
  }

  lemma FlattenUpdate(qs: seq<Queue>, k: nat, q: Queue)
    requires k < |qs|
    ensures multiset(Flatten(qs[k := q])) + multiset(qs[k].tracks) == multiset(Flatten(qs)) + multiset(q.tracks)
  {
    var pre, post := qs[..k], qs[k + 1..];
    assert qs == pre + ([qs[k]] + post);
    assert qs[k := q] == pre + ([q] + post);
    FlattenAppend(pre, [qs[k]] + post);
    FlattenAppend(pre, [q] + post);
    FlattenAppend([qs[k]], post);
    FlattenAppend([q], post);
    assert Flatten([q]) == q.tracks;
    assert Flatten([qs[k]]) == qs[k].tracks;
  }

  /** One scan step never moves a key and only lengthens a queue at its tail: `e`'s
      contributor's queue grows, every other queue stays as it was, and a contributor that
      was not a key becomes the last key, with `e` as its only entry. */
  lemma AddShape(qs: seq<Queue>, e: Entry)
    ensures var r := Add(qs, e);
      && |r| == |qs| + (if e.addedBy in Users(qs) then 0 else 1)
      && (forall k :: 0 <= k < |qs| ==> r[k].user == qs[k].user && qs[k].tracks <= r[k].tracks)
      && (forall k :: 0 <= k < |qs| && qs[k].user != e.addedBy ==> r[k] == qs[k])
      && (e.addedBy !in Users(qs) ==> r[|qs|] == Queue(e.addedBy, [e]))
  {
    IndexOfUsers(qs, e.addedBy);
  }

  /** One scan step appends `e` to its contributor's queue and to no other. */
  lemma AddQueueOf(qs: seq<Queue>, e: Entry, v: string)
    ensures QueueOf(Add(qs, e), v) == if v == e.addedBy then QueueOf(qs, v) + [e] else QueueOf(qs, v)
  {
    var u := e.addedBy;
    var r := Add(qs, e);
    var k := IndexOf(qs, u);
    if k == |qs| {
      if v == u {
        IndexOfUnique(r, v, |qs|);
      } else if IndexOf(qs, v) < |qs| {
        IndexOfUnique(r, v, IndexOf(qs, v));
      } else {
        IndexOfUnique(r, v, |r|);
      }
    } else {
      SameUsersSameIndex(qs, r, v);
    }
  }

  lemma AddUsers(qs: seq<Queue>, e: Entry)
    ensures Users(Add(qs, e)) == Users(qs) + {e.addedBy}
  {
    var u := e.addedBy;
    var r := Add(qs, e);
    AddShape(qs, e);
    forall x | x in Users(r) ensures x in Users(qs) + {u} {
      var q :| q in r && q.user == x;
      var j :| 0 <= j < |r| && r[j] == q;
      if j < |qs| {
        assert qs[j] in qs;
      }
    }
    forall x | x in Users(qs) + {u} ensures x in Users(r) {
      if x == u {
        var k := IndexOf(r, u);
        assert r[k] in r;
      } else {
        var q :| q in qs && q.user == x;
        var j :| 0 <= j < |qs| && qs[j] == q;
        assert r[j] in r;
      }
    }
  }

  lemma AddNew(qs: seq<Queue>, e: Entry)
    requires IndexOf(qs, e.addedBy) == |qs|
    ensures Add(qs, e) == qs + [Queue(e.addedBy, [e])]
  {
    assert [] + [e] == [e];
  }

  lemma AddExisting(qs: seq<Queue>, e: Entry, k: nat)
    requires k == IndexOf(qs, e.addedBy) && k < |qs|
    ensures Add(qs, e) == qs[k := Queue(e.addedBy, qs[k].tracks + [e])]
  {
  }

  lemma FlattenOne(q: Queue)
    ensures Flatten([q]) == q.tracks
  {
    assert Flatten([q]) == q.tracks + Flatten([]);
  }

  /** Cancelling the old tracks `t` of the updated queue from both sides. */
  lemma CancelTracks<T>(a: multiset<T>, f: multiset<T>, t: multiset<T>, x: T)
    requires a + t == f + t + multiset{x}
    ensures a == f + multiset{x}
  {
    assert a == a + t - t;
    assert f + multiset{x} == f + t + multiset{x} - t;
  }

  lemma AddFlatten(qs: seq<Queue>, e: Entry)
    ensures multiset(Flatten(Add(qs, e))) == multiset(Flatten(qs)) + multiset{e}
  {
    var u := e.addedBy;
    var k := IndexOf(qs, u);
    if k == |qs| {
      AddNew(qs, e);
      FlattenAppend(qs, [Queue(u, [e])]);
      FlattenOne(Queue(u, [e]));
    } else {
      var q := Queue(u, qs[k].tracks + [e]);
      AddExisting(qs, e, k);
      FlattenUpdate(qs, k, q);
      CancelTracks(multiset(Flatten(qs[k := q])), multiset(Flatten(qs)), multiset(qs[k].tracks), e);
    }
  }

  lemma AddWellKeyed(qs: seq<Queue>, e: Entry)
    requires WellKeyed(qs)
    ensures WellKeyed(Add(qs, e))
  {
    var r := Add(qs, e);
    AddShape(qs, e);
    IndexOfUsers(qs, e.addedBy);
    var k := IndexOf(qs, e.addedBy);
    if k == |qs| {
      forall j | 0 <= j < |qs| ensures qs[j].user != e.addedBy {
        assert qs[j] in qs;
      }
    }
  }

  lemma TagSnoc(ts: seq<TrackInfo>, start: int)
    requires ts != []
    ensures Tag(ts, start) == Tag(ts[..|ts| - 1], start)
      + [Entry(|ts| - 1 + start, ts[|ts| - 1].addedBy, ts[|ts| - 1].trackId)]
  {
  }

  /** The scan of `ts` is the scan of all but its last item, then one `Add`. */
  lemma CollectSnoc(qs: seq<Queue>, ts: seq<TrackInfo>, start: int)
    requires ts != []
    ensures Collect(qs, ts, start) ==
      Add(Collect(qs, ts[..|ts| - 1], start), Entry(|ts| - 1 + start, ts[|ts| - 1].addedBy, ts[|ts| - 1].trackId))
  {
  }

  /** The scan of the first `i + 1` items is the scan of the first `i`, then one `Add`. */
  lemma CollectPrefixSnoc(qs: seq<Queue>, ts: seq<TrackInfo>, start: int, i: nat)
    requires i < |ts|
    ensures Collect(qs, ts[..i + 1], start) ==
      Add(Collect(qs, ts[..i], start), Entry(i + start, ts[i].addedBy, ts[i].trackId))
  {
    assert ts[..i + 1][..i] == ts[..i];
  }

  /** The first item of a scan from an empty map opens its contributor's queue. */
  lemma CollectFirst(ts: seq<TrackInfo>, start: int)
    requires ts != []
    ensures Collect([], ts[..1], start) == [Queue(ts[0].addedBy, [Entry(start, ts[0].addedBy, ts[0].trackId)])]
  {
    CollectPrefixSnoc([], ts, start, 0);
    assert ts[..0] == [];
    AddNew([], Entry(start, ts[0].addedBy, ts[0].trackId));
  }

  /** An item of the only key so far joins the end of its queue. */
  lemma CollectSameKey(qs: seq<Queue>, ts: seq<TrackInfo>, start: int, i: nat, es: seq<Entry>)
    requires i < |ts| && Collect(qs, ts[..i], start) == [Queue(ts[i].addedBy, es)]
    ensures Collect(qs, ts[..i + 1], start) ==
      [Queue(ts[i].addedBy, es + [Entry(i + start, ts[i].addedBy, ts[i].trackId)])]
  {
    var e := Entry(i + start, ts[i].addedBy, ts[i].trackId);
    CollectPrefixSnoc(qs, ts, start, i);
    AddExisting([Queue(ts[i].addedBy, es)], e, 0);
  }

  /** An item of another contributor than the only key so far opens a second key. */
  lemma CollectOtherKey(qs: seq<Queue>, ts: seq<TrackInfo>, start: int, i: nat, q: Queue)
    requires i < |ts| && Collect(qs, ts[..i], start) == [q] && q.user != ts[i].addedBy
    ensures Collect(qs, ts[..i + 1], start) ==
      [q, Queue(ts[i].addedBy, [Entry(i + start, ts[i].addedBy, ts[i].trackId)])]
  {
    var e := Entry(i + start, ts[i].addedBy, ts[i].trackId);
    CollectPrefixSnoc(qs, ts, start, i);
    assert IndexOf([q], e.addedBy) == 1;
    AddNew([q], e);
  }

  /** One iteration of the scan over `ts[..i + 1]`: the map after `ts[..i]`, then the two
      map updates `collectTracksByUsers` makes for item `i`; a well-keyed map stays so. */
  lemma CollectStep(qs: seq<Queue>, ts: seq<TrackInfo>, start: int, i: nat)
    requires i < |ts| && WellKeyed(Collect(qs, ts[..i], start))
    ensures var m0 := Collect(qs, ts[..i], start);
      var e := Entry(i + start, ts[i].addedBy, ts[i].trackId);
      var m1 := if Get(m0, e.addedBy).None? then Set(m0, e.addedBy, []) else m0;
      Get(m1, e.addedBy).Some? &&
      Collect(qs, ts[..i + 1], start) == Set(m1, e.addedBy, Get(m1, e.addedBy).value + [e]) &&
      WellKeyed(Collect(qs, ts[..i + 1], start))
  {
    var m0 := Collect(qs, ts[..i], start);
    var e := Entry(i + start, ts[i].addedBy, ts[i].trackId);
    CollectPrefixSnoc(qs, ts, start, i);
    AddIsGetThenSet(m0, e);
    AddWellKeyed(m0, e);
  }

  /** After the scan, every contributor's queue is its old queue followed by exactly the
      entries made from that contributor's items, in scan order, each tagged with its
      position in the scanned list plus `start`. */
  lemma {:induction false} CollectQueueOf(qs: seq<Queue>, ts: seq<TrackInfo>, start: int, u: string)
    ensures QueueOf(Collect(qs, ts, start), u) == QueueOf(qs, u) + Only(Tag(ts, start), u)
    decreases |ts|
  {
    if ts == [] {
      assert Tag(ts, start) == [];
    } else {
      var n := |ts| - 1;
      CollectQueueOf(qs, ts[..n], start, u);
      CollectSnoc(qs, ts, start);
      TagSnoc(ts, start);
      AddOnly(Collect(qs, ts[..n], start), Entry(n + start, ts[n].addedBy, ts[n].trackId), u,
        QueueOf(qs, u), Tag(ts[..n], start));
    }
  }

  /** One scan step keeps a queue of the form "old queue, then `u`'s entries of a list"
      when the entry is appended to the list. */
  lemma AddOnly(m: seq<Queue>, e: Entry, u: string, base: seq<Entry>, pre: seq<Entry>)
    requires QueueOf(m, u) == base + Only(pre, u)
    ensures QueueOf(Add(m, e), u) == base + Only(pre + [e], u)
  {
    AddQueueOf(m, e, u);
    OnlyAppend(pre, [e], u);
    OnlyOne(e, u);
    AppendAssoc(base, Only(pre, u), Only([e], u));
    AppendEmpty(base + Only(pre, u));
  }

  /** The scan never moves or removes a key and only lengthens queues at their tail. */
  lemma {:induction false} CollectShape(qs: seq<Queue>, ts: seq<TrackInfo>, start: int)
    ensures var r := Collect(qs, ts, start);
      && |qs| <= |r|
      && (forall k :: 0 <= k < |qs| ==> r[k].user == qs[k].user && qs[k].tracks <= r[k].tracks)
    decreases |ts|
  {
    if ts != [] {
      var n := |ts| - 1;
      var e := Entry(n + start, ts[n].addedBy, ts[n].trackId);
      var before := Collect(qs, ts[..n], start);
      assert Collect(qs, ts, start) == Add(before, e);
      CollectShape(qs, ts[..n], start);
      AddShape(before, e);
    }
  }

  lemma ContributorsSnoc(ts: seq<TrackInfo>)
    requires ts != []
    ensures Contributors(ts) == Contributors(ts[..|ts| - 1]) + {ts[|ts| - 1].addedBy}
  {
    var n := |ts| - 1;
    forall x | x in Contributors(ts) ensures x in Contributors(ts[..n]) + {ts[n].addedBy} {
      var t :| t in ts && t.addedBy == x;
      var j :| 0 <= j < |ts| && ts[j] == t;
      if j < n {
        assert ts[..n][j] == t;
      }
    }
    assert ts[n] in ts;
    forall x | x in Contributors(ts[..n]) ensures x in Contributors(ts) {
      var t :| t in ts[..n] && t.addedBy == x;
      var j :| 0 <= j < n && ts[..n][j] == t;
      assert ts[j] == t;
    }
  }

  /** The keys after the scan are the old keys and the contributors of the scanned items. */
  lemma {:induction false} CollectUsers(qs: seq<Queue>, ts: seq<TrackInfo>, start: int)
    ensures Users(Collect(qs, ts, start)) == Users(qs) + Contributors(ts)
    decreases |ts|
  {
    if ts == [] {
      assert Contributors(ts) == {};
    } else {
      var n := |ts| - 1;
      var e := Entry(n + start, ts[n].addedBy, ts[n].trackId);
      var before := Collect(qs, ts[..n], start);
      assert Collect(qs, ts, start) == Add(before, e);
      CollectUsers(qs, ts[..n], start);
      AddUsers(before, e);
      ContributorsSnoc(ts);
    }
  }

  /** The scan keeps the map keyed once per contributor, each queue holding only entries
      of its own contributor. */
  lemma {:induction false} CollectWellKeyed(qs: seq<Queue>, ts: seq<TrackInfo>, start: int)
    requires WellKeyed(qs)
    ensures WellKeyed(Collect(qs, ts, start))
    decreases |ts|
  {
    if ts != [] {
      var n := |ts| - 1;
      CollectWellKeyed(qs, ts[..n], start);
      AddWellKeyed(Collect(qs, ts[..n], start), Entry(n + start, ts[n].addedBy, ts[n].trackId));
    }
  }

  /** The keys the scan adds come after the old ones, in the order in which their
      contributors first appear in the scanned list: the first entry of each new queue is
      the contributor's first item, and these first entries are increasingly tagged. */
  lemma {:induction false} CollectNewKeysInScanOrder(qs: seq<Queue>, ts: seq<TrackInfo>, start: int)
    ensures var r := Collect(qs, ts, start);
      && (forall k :: |qs| <= k < |r| ==>
            r[k].tracks != [] && start <= r[k].tracks[0].index < start + |ts|)
      && (forall k1, k2 :: |qs| <= k1 < k2 < |r| ==>
            r[k1].tracks != [] && r[k2].tracks != [] && r[k1].tracks[0].index < r[k2].tracks[0].index)
    decreases |ts|
  {
    if ts != [] {
      var n := |ts| - 1;
      var e := Entry(n + start, ts[n].addedBy, ts[n].trackId);
      var before := Collect(qs, ts[..n], start);
      CollectNewKeysInScanOrder(qs, ts[..n], start);
      CollectShape(qs, ts[..n], start);
      AddShape(before, e);
    }
  }

  /** The scan queues exactly the entries it creates: the queued entries afterwards are,
      as a multiset, the old ones plus one tagged entry per scanned item. */
  lemma {:induction false} CollectFlatten(qs: seq<Queue>, ts: seq<TrackInfo>, start: int)
    ensures multiset(Flatten(Collect(qs, ts, start))) == multiset(Flatten(qs)) + multiset(Tag(ts, start))
    decreases |ts|
  {
    if ts == [] {
      assert Tag(ts, start) == [];
    } else {
      var n := |ts| - 1;
      var e := Entry(n + start, ts[n].addedBy, ts[n].trackId);
      var before := Collect(qs, ts[..n], start);
      assert Collect(qs, ts, start) == Add(before, e);
      CollectFlatten(qs, ts[..n], start);
      AddFlatten(before, e);
      TagSnoc(ts, start);
      assert multiset(Tag(ts, start)) == multiset(Tag(ts[..n], start)) + multiset{e};
    }
  }

  /** The scan never leaves a queue empty that was not empty before. */
  lemma {:induction false} CollectNonEmpty(qs: seq<Queue>, ts: seq<TrackInfo>, start: int)
    requires NonEmpty(qs)
    ensures NonEmpty(Collect(qs, ts, start))
    decreases |ts|
  {
    if ts != [] {
      var n := |ts| - 1;
      CollectNonEmpty(qs, ts[..n], start);
      AddShape(Collect(qs, ts[..n], start), Entry(n + start, ts[n].addedBy, ts[n].trackId));
    }
  }
}
