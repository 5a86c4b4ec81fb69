/** Round-robin merge (`createListWithNewOrder`): every round takes the front of each
    queue still in play, in map order, and drops the queues that this leaves empty. */
module Merge {
  import opened JsArray
  import opened Tracks
  import opened Grouping

  /** `queue.shift()`: the front entry, `undefined` for an empty queue. */
  function Front(q: seq<Entry>): Slot
  {
    if q == [] then None else Some(q[0])
  }

  /** What one round pushes: the front of every queue in play, in map order. */
  function Heads(qs: seq<Queue>): seq<Slot>
  {
    seq(|qs|, k requires 0 <= k < |qs| => Front(qs[k].tracks))
  }

  /** What the `filter` callback keeps of one queue: the queue after its `shift`, unless
      that left it empty. */
  function Shifted(q: Queue): seq<Queue>
  {
    if |q.tracks| > 1 then [Queue(q.user, q.tracks[1..])] else []
  }

  /** The queues one round keeps, in map order. */
  function Survivors(qs: seq<Queue>): seq<Queue>
  {
    if qs == [] then [] else Survivors(qs[..|qs| - 1]) + Shifted(qs[|qs| - 1])
  }

  /** Entries still queued plus queues still in play: what every round strictly reduces. */
  function Weight(qs: seq<Queue>): nat
  {
    if qs == [] then 0 else Weight(qs[..|qs| - 1]) + |qs[|qs| - 1].tracks| + 1
  }

  /** The number of queues that are empty. */
  function EmptyCount(qs: seq<Queue>): nat
  {
    if qs == [] then 0 else EmptyCount(qs[..|qs| - 1]) + (if qs[|qs| - 1].tracks == [] then 1 else 0)
  }

  /** The merged list the `while` loop of `createListWithNewOrder` pushes: a round of
      fronts followed by the rounds of the survivors, until no queue is left in play. */
  function RoundRobin(qs: seq<Queue>): seq<Slot>
    decreases Weight(qs)
  {
    if qs == [] then []
    else
      SurvivorsLighter(qs);
      Heads(qs) + RoundRobin(Survivors(qs))
  }

  /** The map after the merge: the same keys, every queue shifted until empty. */
  function Drained(qs: seq<Queue>): seq<Queue>
  {
    seq(|qs|, k requires 0 <= k < |qs| => Queue(qs[k].user, []))
  }

  /** A map whose queues are all empty keeps none of them in play after a round. */
  lemma {:induction false} SurvivorsOfEmpty(qs: seq<Queue>)
    requires forall k :: 0 <= k < |qs| ==> qs[k].tracks == []
    ensures Survivors(qs) == []
    decreases |qs|
  {
    if qs != [] {
      SurvivorsOfEmpty(qs[..|qs| - 1]);
    }
  }

  /** Merging the map a pass leaves behind pushes one `undefined` per key and nothing else:
      every `shift` of a drained queue gives `undefined`, and no queue survives the round. */
  lemma DrainedMerge(qs: seq<Queue>)
    ensures RoundRobin(Drained(qs)) == seq(|qs|, k => None)
  {
    var d := Drained(qs);
    if d != [] {
      SurvivorsOfEmpty(d);
      RoundRobinUnfold(d);
      AppendEmpty(Heads(d));
    }
  }

  /** What queue `q` contributes to round `r`: its `r`-th entry if it has one, and
      `undefined` in the first round when it starts out empty. */
  function Cell(q: seq<Entry>, r: nat): seq<Slot>
  {
    if r < |q| then [Some(q[r])] else if r == 0 then [None] else []
  }

  /** Round `r` read off the queues as they were before the merge, in map order. */
  function Round(qs: seq<Queue>, r: nat): seq<Slot>
  {
    if qs == [] then [] else Round(qs[..|qs| - 1], r) + Cell(qs[|qs| - 1].tracks, r)
  }

  /** Rounds `0` up to `n - 1`, one after the other. */
  function Rounds(qs: seq<Queue>, n: nat): seq<Slot>
  {
    if n == 0 then [] else Rounds(qs, n - 1) + Round(qs, n - 1)
  }

  /** The number of rounds: the length of the longest queue, an empty queue counting one. */
  function Height(qs: seq<Queue>): nat
  {
    if qs == [] then 0
    else
      var q := qs[|qs| - 1];
      var h := Height(qs[..|qs| - 1]);
      var own := if q.tracks == [] then 1 else |q.tracks|;
      if h < own then own else h
  }

  /** The first entry of a queue, as a list. */
  function First(s: seq<Entry>): seq<Entry>
  {
    if s == [] then [] else [s[0]]
  }

  /** A queue after one `shift`. */
  function Rest(s: seq<Entry>): seq<Entry>
  {
    if s == [] then [] else s[1..]
  }

  lemma SnocInit<T>(a: seq<T>, x: T)
    ensures (a + [x])[..|a|] == a && (a + [x])[|a|] == x
  {
  }

  lemma SurvivorsSnoc(init: seq<Queue>, q: Queue)
    ensures Survivors(init + [q]) == Survivors(init) + Shifted(q)
  {
    SnocInit(init, q);
  }

  lemma WeightSnoc(init: seq<Queue>, q: Queue)
    ensures Weight(init + [q]) == Weight(init) + |q.tracks| + 1
  {
    SnocInit(init, q);
  }

  lemma WeightShifted(s: seq<Queue>, q: Queue)
    ensures Weight(s + Shifted(q)) == Weight(s) + (if |q.tracks| > 1 then |q.tracks| else 0)
  {
    if |q.tracks| > 1 {
      WeightSnoc(s, Queue(q.user, q.tracks[1..]));
    } else {
      assert s + Shifted(q) == s;
    }
  }

  /** Each round takes at least one unit of weight from every queue in play, so the
      merge loop terminates. */
  lemma {:induction false} SurvivorsLighter(qs: seq<Queue>)
    ensures Weight(Survivors(qs)) + |qs| <= Weight(qs)
  {
    if qs != [] {
      var init, q := qs[..|qs| - 1], qs[|qs| - 1];
      SplitLast(qs);
      SurvivorsLighter(init);
      SurvivorsSnoc(init, q);
      WeightShifted(Survivors(init), q);
      WeightSnoc(init, q);
    }
  }

  lemma HeadsSnoc(init: seq<Queue>, q: Queue)
    ensures Heads(init + [q]) == Heads(init) + [Front(q.tracks)]
  {
  }

  /** One queue's share of a round: its front, then what is kept of it. */
  lemma FrontShifted(q: Queue)
    ensures Present([Front(q.tracks)]) + Flatten(Shifted(q)) == q.tracks
  {
    if q.tracks == [] {
      assert Present([None]) == [];
    } else {
      assert Present([Front(q.tracks)]) == [q.tracks[0]] by {
        assert [Some(q.tracks[0])][1..] == [];
      }
      if |q.tracks| > 1 {
        assert Flatten(Shifted(q)) == q.tracks[1..] + Flatten([]);
      }
      assert q.tracks == [q.tracks[0]] + q.tracks[1..];
    }
  }

  lemma {:induction false} HeadsSurvivors(qs: seq<Queue>)
    ensures multiset(Present(Heads(qs))) + multiset(Flatten(Survivors(qs))) == multiset(Flatten(qs))
  {
    if qs == [] {
      assert Heads(qs) == [];
    } else {
      var init, q := qs[..|qs| - 1], qs[|qs| - 1];
      SplitLast(qs);
      HeadsSurvivors(init);
      HeadsSnoc(init, q);
      SurvivorsSnoc(init, q);
      PresentAppend(Heads(init), [Front(q.tracks)]);
      FlattenAppend(Survivors(init), Shifted(q));
      FlattenAppend(init, [q]);
      FlattenOne(q);
      FrontShifted(q);
      assert multiset(Present([Front(q.tracks)])) + multiset(Flatten(Shifted(q))) == multiset(q.tracks);
    }
  }

  lemma {:induction false} HolesHeads(qs: seq<Queue>)
    ensures Holes(Heads(qs)) == EmptyCount(qs)
  {
    if qs == [] {
      assert Heads(qs) == [];
    } else {
      var init, q := qs[..|qs| - 1], qs[|qs| - 1];
      SplitLast(qs);
      HolesHeads(init);
      HeadsSnoc(init, q);
      HolesAppend(Heads(init), [Front(q.tracks)]);
    }
  }

  lemma {:induction false} SurvivorsNonEmpty(qs: seq<Queue>)
    ensures NonEmpty(Survivors(qs))
  {
    if qs != [] {
      SurvivorsNonEmpty(qs[..|qs| - 1]);
    }
  }

  lemma {:induction false} EmptyCountZero(qs: seq<Queue>)
    requires NonEmpty(qs)
    ensures EmptyCount(qs) == 0
  {
    if qs != [] {
      EmptyCountZero(qs[..|qs| - 1]);
    }
  }

  lemma {:induction false} RoundRobinEntries(qs: seq<Queue>)
    ensures multiset(Present(RoundRobin(qs))) == multiset(Flatten(qs))
    ensures Holes(RoundRobin(qs)) == EmptyCount(qs)
    decreases Weight(qs)
  {
    if qs != [] {
      var s := Survivors(qs);
      SurvivorsLighter(qs);
      RoundRobinEntries(s);
      PresentAppend(Heads(qs), RoundRobin(s));
      HolesAppend(Heads(qs), RoundRobin(s));
      HeadsSurvivors(qs);
      HolesHeads(qs);
      SurvivorsNonEmpty(qs);
      EmptyCountZero(s);
    }
  }

  /** The merged list holds every queued entry exactly once, and one `undefined` for
      each queue that was empty to begin with; when no queue starts empty it is a
      permutation of the queued entries. */
  lemma RoundRobinPermutation(qs: seq<Queue>)
    ensures multiset(Present(RoundRobin(qs))) == multiset(Flatten(qs))
    ensures |RoundRobin(qs)| == |Flatten(qs)| + EmptyCount(qs)
    ensures NonEmpty(qs) ==>
      RoundRobin(qs) == Defined(Present(RoundRobin(qs))) && |RoundRobin(qs)| == |Flatten(qs)|
  {
    RoundRobinEntries(qs);
    PresentAndHoles(RoundRobin(qs));
    if NonEmpty(qs) {
      EmptyCountZero(qs);
    }
    assert |multiset(Present(RoundRobin(qs)))| == |multiset(Flatten(qs))|;
  }

  lemma QueueOfSnoc(init: seq<Queue>, q: Queue, u: string)
    ensures QueueOf(init + [q], u) ==
      if u in Users(init) then QueueOf(init, u) else if q.user == u then q.tracks else []
  {
    var qs := init + [q];
    IndexOfUsers(init, u);
    var k := IndexOf(init, u);
    if k < |init| {
      IndexOfUnique(qs, u, k);
    } else if q.user == u {
      IndexOfUnique(qs, u, |init|);
    } else {
      IndexOfUnique(qs, u, |qs|);
    }
  }

  lemma WellKeyedSnoc(init: seq<Queue>, q: Queue)
    ensures WellKeyed(init + [q]) <==>
      WellKeyed(init) && q.user !in Users(init) &&
      forall j :: 0 <= j < |q.tracks| ==> q.tracks[j].addedBy == q.user
  {
    var qs := init + [q];
    var n := |init|;
    assert forall i :: 0 <= i < n ==> qs[i] == init[i];
    assert qs[n] == q;
    if WellKeyed(qs) {
      forall p | p in init ensures p.user != q.user {
        var i :| 0 <= i < |init| && init[i] == p;
        assert qs[i] == p;
      }
      assert forall j :: 0 <= j < |q.tracks| ==> qs[n].tracks[j].addedBy == qs[n].user;
    }
    if WellKeyed(init) && q.user !in Users(init) &&
       forall j :: 0 <= j < |q.tracks| ==> q.tracks[j].addedBy == q.user
    {
      forall i | 0 <= i < n ensures qs[i].user != qs[n].user {
        assert init[i] in init;
      }
      forall i, j | 0 <= i < j < |qs| ensures qs[i].user != qs[j].user {
        if j < n {
          assert init[i].user != init[j].user;
        }
      }
      forall k, j | 0 <= k < |qs| && 0 <= j < |qs[k].tracks|
        ensures qs[k].tracks[j].addedBy == qs[k].user
      {
        if k < n {
          assert init[k].tracks[j].addedBy == init[k].user;
        }
      }
    }
  }

  lemma {:induction false} OnlyHeads(qs: seq<Queue>, u: string)
    requires WellKeyed(qs)
    ensures Only(Present(Heads(qs)), u) == First(QueueOf(qs, u))
  {
    if qs == [] {
      assert Heads(qs) == [];
    } else {
      var init, q := qs[..|qs| - 1], qs[|qs| - 1];
      SplitLast(qs);
      WellKeyedSnoc(init, q);
      OnlyHeads(init, u);
      HeadsSnoc(init, q);
      PresentAppend(Heads(init), [Front(q.tracks)]);
      OnlyAppend(Present(Heads(init)), Present([Front(q.tracks)]), u);
      QueueOfSnoc(init, q, u);
      IndexOfUsers(init, u);
    }
  }

  lemma UsersSnoc(init: seq<Queue>, q: Queue)
    ensures Users(init + [q]) == Users(init) + {q.user}
  {
    var qs := init + [q];
    forall x | x in Users(qs) ensures x in Users(init) + {q.user} {
      var p :| p in qs && p.user == x;
      var i :| 0 <= i < |qs| && qs[i] == p;
      if i < |init| {
        assert init[i] == p;
      }
    }
    forall x | x in Users(init) ensures x in Users(qs) {
      var p :| p in init && p.user == x;
      assert p in qs;
    }
    assert q in qs;
  }

  lemma {:induction false} SurvivorsWellKeyed(qs: seq<Queue>)
    requires WellKeyed(qs)
    ensures WellKeyed(Survivors(qs)) && Users(Survivors(qs)) <= Users(qs)
  {
    if qs != [] {
      var init, q := qs[..|qs| - 1], qs[|qs| - 1];
      SplitLast(qs);
      WellKeyedSnoc(init, q);
      SurvivorsWellKeyed(init);
      SurvivorsSnoc(init, q);
      UsersSnoc(init, q);
      var s := Survivors(init);
      if |q.tracks| > 1 {
        var p := Queue(q.user, q.tracks[1..]);
        WellKeyedSnoc(s, p);
        UsersSnoc(s, p);
      } else {
        assert Survivors(qs) == s;
      }
    }
  }

  lemma {:induction false} SurvivorsQueueOf(qs: seq<Queue>, u: string)
    requires WellKeyed(qs)
    ensures QueueOf(Survivors(qs), u) == Rest(QueueOf(qs, u))
  {
    if qs != [] {
      var init, q := qs[..|qs| - 1], qs[|qs| - 1];
      SplitLast(qs);
      var s := Survivors(init);
      WellKeyedSnoc(init, q);
      SurvivorsQueueOf(init, u);
      SurvivorsWellKeyed(init);
      SurvivorsSnoc(init, q);
      QueueOfSnoc(init, q, u);
      IndexOfUsers(init, u);
      IndexOfUsers(s, u);
      if |q.tracks| > 1 {
        QueueOfSnoc(s, Queue(q.user, q.tracks[1..]), u);
      } else {
        assert Survivors(qs) == s;
      }
    }
  }

  lemma FirstRest(q: seq<Entry>)
    ensures First(q) + Rest(q) == q
  {
    if q != [] {
      assert q == [q[0]] + q[1..];
    }
  }

  /** A map with a single non-empty queue merges to that queue. */
  lemma {:induction false} SingleQueueMerge(q: Queue)
    requires q.tracks != []
    ensures RoundRobin([q]) == Defined(q.tracks)
    decreases |q.tracks|
  {
    RoundRobinUnfold([q]);
    SurvivorsSnoc([], q);
    AppendEmpty([q]);
    assert Heads([q]) == [Some(q.tracks[0])];
    DefinedCons(q.tracks);
    if |q.tracks| > 1 {
      SingleQueueMerge(Queue(q.user, q.tracks[1..]));
    } else {
      assert q.tracks[1..] == [];
    }
  }

  /** Round-robin never reorders two entries of one contributor: the entries of user `u`
      in the merged list are exactly `u`'s queue, in queue order. */
  lemma {:induction false} RoundRobinContributorOrder(qs: seq<Queue>, u: string)
    requires WellKeyed(qs)
    ensures Only(Present(RoundRobin(qs)), u) == QueueOf(qs, u)
    decreases Weight(qs)
  {
    if qs == [] {
    } else {
      var s := Survivors(qs);
      SurvivorsLighter(qs);
      SurvivorsWellKeyed(qs);
      RoundRobinContributorOrder(s, u);
      RoundRobinUnfold(qs);
      PresentAppend(Heads(qs), RoundRobin(s));
      OnlyAppend(Present(Heads(qs)), Present(RoundRobin(s)), u);
      OnlyHeads(qs, u);
      SurvivorsQueueOf(qs, u);
      FirstRest(QueueOf(qs, u));
    }
  }

  lemma {:induction false} HeadsRoundZero(qs: seq<Queue>)
    ensures Heads(qs) == Round(qs, 0)
  {
    if qs == [] {
      assert Heads(qs) == [];
    } else {
      var init, q := qs[..|qs| - 1], qs[|qs| - 1];
      SplitLast(qs);
      HeadsRoundZero(init);
      HeadsSnoc(init, q);
    }
  }

  lemma RoundSnoc(init: seq<Queue>, q: Queue, r: nat)
    ensures Round(init + [q], r) == Round(init, r) + Cell(q.tracks, r)
  {
    SnocInit(init, q);
  }

  lemma ShiftedCell(q: Queue, r: nat)
    ensures Round(Shifted(q), r) == Cell(q.tracks, r + 1)
  {
    if |q.tracks| > 1 {
      RoundSnoc([], Queue(q.user, q.tracks[1..]), r);
      assert [] + [Queue(q.user, q.tracks[1..])] == Shifted(q);
    }
  }

  lemma RoundAppendShifted(s: seq<Queue>, q: Queue, r: nat)
    ensures Round(s + Shifted(q), r) == Round(s, r) + Round(Shifted(q), r)
  {
    if |q.tracks| > 1 {
      RoundSnoc(s, Queue(q.user, q.tracks[1..]), r);
      RoundSnoc([], Queue(q.user, q.tracks[1..]), r);
      assert [] + [Queue(q.user, q.tracks[1..])] == Shifted(q);
    } else {
      assert s + Shifted(q) == s;
    }
  }

  /** Round `r + 1` of the queues is round `r` of their survivors. */
  lemma {:induction false} RoundSurvivors(qs: seq<Queue>, r: nat)
    ensures Round(Survivors(qs), r) == Round(qs, r + 1)
  {
    if qs != [] {
      var init, q := qs[..|qs| - 1], qs[|qs| - 1];
      SplitLast(qs);
      RoundSurvivors(init, r);
      SurvivorsSnoc(init, q);
      RoundAppendShifted(Survivors(init), q, r);
      ShiftedCell(q, r);
      RoundSnoc(init, q, r + 1);
    }
  }

  lemma HeightSnoc(init: seq<Queue>, q: Queue)
    ensures Height(init + [q]) ==
      var own := if q.tracks == [] then 1 else |q.tracks|;
      if Height(init) < own then own else Height(init)
  {
    SnocInit(init, q);
  }

  lemma {:induction false} HeightSurvivors(qs: seq<Queue>)
    requires qs != []
    ensures Height(qs) >= 1
    ensures Height(Survivors(qs)) == Height(qs) - 1
  {
    var init, q := qs[..|qs| - 1], qs[|qs| - 1];
    SplitLast(qs);
    var s := Survivors(init);
    if init != [] {
      HeightSurvivors(init);
    }
    HeightSnoc(init, q);
    SurvivorsSnoc(init, q);
    if |q.tracks| > 1 {
      HeightSnoc(s, Queue(q.user, q.tracks[1..]));
    } else {
      assert Survivors(qs) == s;
    }
  }

  /** The base case of `RoundsShift`, kept apart: with the literal arguments `0` and `1` in
      the same proof as the inductive step, the solver unfolds `Rounds` far too eagerly. */
  lemma RoundsZero(qs: seq<Queue>, s: seq<Queue>)
    ensures Round(qs, 0) + Rounds(s, 0) == Rounds(qs, 1)
  {
    assert Rounds(qs, 1) == Rounds(qs, 0) + Round(qs, 0);
  }

  /** One unfolding of `Rounds`, as a fact callers can cite at a chosen `n`. */
  lemma RoundsSnoc(qs: seq<Queue>, n: nat)
    requires n > 0
    ensures Rounds(qs, n) == Rounds(qs, n - 1) + Round(qs, n - 1)
  {
  }

  /** Round 0 followed by the first `n` rounds of the survivors is the first `n + 1`
      rounds of the queues. */
  lemma {:induction false} RoundsShift(qs: seq<Queue>, n: nat)
    ensures Round(qs, 0) + Rounds(Survivors(qs), n) == Rounds(qs, n + 1)
  {
    var s := Survivors(qs);
    if n == 0 {
      RoundsZero(qs, s);
    } else {
      var m := n - 1;
      RoundsShift(qs, m);
      assert m + 1 == n;
      RoundSurvivors(qs, m);
      RoundsSnoc(s, n);
      RoundsSnoc(qs, n + 1);
      AppendAssoc(Round(qs, 0), Rounds(s, m), Round(s, m));
    }
  }

  lemma RoundRobinUnfold(qs: seq<Queue>)
    requires qs != []
    ensures RoundRobin(qs) == Heads(qs) + RoundRobin(Survivors(qs))
  {
  }

  /** The merged list read round by round: round `r` holds, for every queue in map order,
      its `r`-th entry when it has one (and `undefined` in round 0 for a queue that starts
      empty); there are as many rounds as the longest queue has entries. */
  lemma {:induction false} RoundRobinByRounds(qs: seq<Queue>)
    ensures RoundRobin(qs) == Rounds(qs, Height(qs))
    decreases Weight(qs)
  {
    if qs != [] {
      SurvivorsLighter(qs);
      RoundRobinByRounds(Survivors(qs));
      ByRoundsStep(qs);
    }
  }

  lemma ByRoundsStep(qs: seq<Queue>)
    requires qs != []
    requires RoundRobin(Survivors(qs)) == Rounds(Survivors(qs), Height(Survivors(qs)))
    ensures RoundRobin(qs) == Rounds(qs, Height(qs))
  {
    HeightSurvivors(qs);
    RoundRobinUnfold(qs);
    HeadsRoundZero(qs);
    RoundsShiftTo(qs, Height(Survivors(qs)), Height(qs));
  }

  /** `RoundsShift` restated with `n + 1` passed in as `h`, so that its conclusion mentions
      `Height(qs)` itself rather than `Height(Survivors(qs)) + 1`, which the solver would
      otherwise have to rewrite inside a sequence equality. */
  lemma RoundsShiftTo(qs: seq<Queue>, n: nat, h: nat)
    requires h == n + 1
    ensures Round(qs, 0) + Rounds(Survivors(qs), n) == Rounds(qs, h)
  {
    RoundsShift(qs, n);
  }
}
