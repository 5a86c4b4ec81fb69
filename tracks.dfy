/** The values the reordering works on: playlist items as the provider returns them,
    and entries tagged with a position (`{index, added_by: {id}, track: {id}}`). */
module Tracks {
  import opened JsArray

  /** A playlist item: the id of the user who added it and the id of the track. */
  datatype TrackInfo = TrackInfo(addedBy: string, trackId: string)

  /** A playlist item tagged with a position in some reference ordering. */
  datatype Entry = Entry(index: int, addedBy: string, trackId: string)

  /** A slot of a JavaScript array of entries; `None` is `undefined`. */
  type Slot = Option<Entry>

  /** The slots of an array that holds exactly the entries `es`. */
  function Defined(es: seq<Entry>): (r: seq<Slot>)
  {
    seq(|es|, i requires 0 <= i < |es| => Some(es[i]))
  }

  lemma DefinedCons(es: seq<Entry>)
    requires es != []
    ensures Defined(es) == [Some(es[0])] + Defined(es[1..])
  {
  }

  /** The entries of `s` with the `undefined` slots left out. */
  function Present(s: seq<Slot>): (r: seq<Entry>)
  {
    if s == [] then []
    else (if s[0].Some? then [s[0].value] else []) + Present(s[1..])
  }

  /** The number of `undefined` slots in `s`. */
  function Holes(s: seq<Slot>): nat
  {
    if s == [] then 0 else (if s[0].None? then 1 else 0) + Holes(s[1..])
  }

  /** The entries of `es` added by user `u`, in order. */
  function Only(es: seq<Entry>, u: string): (r: seq<Entry>)
  {
    if es == [] then []
    else (if es[0].addedBy == u then [es[0]] else []) + Only(es[1..], u)
  }

  lemma OnlyOne(e: Entry, u: string)
    ensures Only([e], u) == if e.addedBy == u then [e] else []
  {
    assert [e][1..] == [];
  }

  /** The items an entry list describes, with the position tags forgotten. */
  function Untag(es: seq<Entry>): (r: seq<TrackInfo>)
  {
    seq(|es|, i requires 0 <= i < |es| => TrackInfo(es[i].addedBy, es[i].trackId))
  }

  /** Every entry is tagged with its own position. */
  predicate IdentityTagged(es: seq<Entry>)
  {
    forall i :: 0 <= i < |es| ==> es[i].index == i
  }

  /** `createListWithOldOrder`: a copy of the playlist in which every entry is tagged
      with its position; forgetting the tags gives the playlist back. */
  function CreateListWithOldOrder(tracksInfo: seq<TrackInfo>): (r: seq<Entry>)
    ensures |r| == |tracksInfo|
    ensures IdentityTagged(r)
    ensures Untag(r) == tracksInfo
  {
    seq(|tracksInfo|, i requires 0 <= i < |tracksInfo| =>
      Entry(i, tracksInfo[i].addedBy, tracksInfo[i].trackId))
  }

  lemma {:induction false} PresentAppend(a: seq<Slot>, b: seq<Slot>)
    ensures Present(a + b) == Present(a) + Present(b)
  {
    if a == [] {
      assert a + b == b;
    } else {
      assert (a + b)[0] == a[0] && (a + b)[1..] == a[1..] + b;
      PresentAppend(a[1..], b);
      assert Present(a + b) == (if a[0].Some? then [a[0].value] else []) + Present(a[1..] + b);
    }
  }

  lemma {:induction false} HolesAppend(a: seq<Slot>, b: seq<Slot>)
    ensures Holes(a + b) == Holes(a) + Holes(b)
  {
    if a == [] {
      assert a + b == b;
    } else {
      assert (a + b)[0] == a[0] && (a + b)[1..] == a[1..] + b;
      HolesAppend(a[1..], b);
      assert Holes(a + b) == (if a[0].None? then 1 else 0) + Holes(a[1..] + b);
    }
  }

  lemma {:induction false} OnlyAppend(a: seq<Entry>, b: seq<Entry>, u: string)
    ensures Only(a + b, u) == Only(a, u) + Only(b, u)
  {
    if a == [] {
      assert a + b == b;
    } else {
      assert (a + b)[0] == a[0] && (a + b)[1..] == a[1..] + b;
      OnlyAppend(a[1..], b, u);
      assert Only(a + b, u) == (if a[0].addedBy == u then [a[0]] else []) + Only(a[1..] + b, u);
    }
  }

  /** Every slot is either an entry that `Present` keeps or a hole that `Holes` counts. */
  lemma {:induction false} PresentAndHoles(s: seq<Slot>)
    ensures |Present(s)| + Holes(s) == |s|
    ensures Holes(s) == 0 ==> s == Defined(Present(s))
  {
    if s != [] {
      PresentAndHoles(s[1..]);
      if Holes(s) == 0 {
        assert s[0].Some?;
        assert s == [s[0]] + s[1..];
      }
    }
  }

  lemma UntagAppend(a: seq<Entry>, b: seq<Entry>)
    ensures Untag(a + b) == Untag(a) + Untag(b)
  {
  }

  lemma UntagPrefix(es: seq<Entry>, p: nat)
    requires p <= |es|
    ensures Untag(es[..p]) == Untag(es)[..p]
  {
  }

  lemma {:induction false} PresentDefined(es: seq<Entry>)
    ensures Present(Defined(es)) == es
  {
    if es != [] {
      assert Defined(es)[1..] == Defined(es[1..]);
      PresentDefined(es[1..]);
      assert es == [es[0]] + es[1..];
    }
  }

  /** Forgetting the tags of two permutations of each other gives two permutations of
      each other. */
  lemma {:induction false} UntagPermutation(a: seq<Entry>, b: seq<Entry>)
    requires multiset(a) == multiset(b)
    ensures multiset(Untag(a)) == multiset(Untag(b))
    decreases |a|
  {
    if a != [] {
      assert a[0] in multiset(b);
      var j :| 0 <= j < |b| && b[j] == a[0];
      var b' := b[..j] + b[j + 1..];
      SplitFirst(a);
      SplitAt(b, j);
      MultisetCancel(multiset(a[1..]), multiset(b'), a[0]);
      UntagPermutation(a[1..], b');
      UntagAppend([a[0]], a[1..]);
      UntagAppend(b[..j], [b[j]]);
      UntagAppend(b[..j] + [b[j]], b[j + 1..]);
      UntagAppend(b[..j], b[j + 1..]);
    } else {
      assert b == [] by {
        assert |multiset(b)| == 0;
      }
    }
  }
}
