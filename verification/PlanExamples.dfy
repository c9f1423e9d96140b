/** Tables on which the planner does not do what one might expect of it. */
module PlanExamples {
  import opened Ordered
  import opened Sums
  import opened Levelling
  import opened ShardModel
  import opened Rebalancing
  import opened PlanProperties

  // ---------------------------------------------------------------- outside the band

  /** Ids from low up to high. */
  function Span(low: nat, high: nat): (s: set<ShardId>)
    requires low <= high
    ensures |s| == high - low && forall x :: x in s <==> low <= x < high
  {
    if low == high then {} else Span(low, high - 1) + {high - 1}
  }

  /** Three pods that share n shards in order. */
  function ThreePods(x: nat, y: nat, n: nat): Table
    requires x <= y <= n
  {
    Table(n, map[0 := Span(0, x), 1 := Span(x, y), 2 := Span(y, n)])
  }

  lemma SpansApart(x: nat, y: nat, n: nat)
    requires x <= y <= n
    ensures Span(0, x) !! Span(x, y) && Span(0, x) !! Span(y, n) && Span(x, y) !! Span(y, n)
  {
  }

  lemma SpansCover(x: nat, y: nat, n: nat, s: ShardId)
    requires x <= y <= n
    ensures s in Below(n) <==> s in Span(0, x) || s in Span(x, y) || s in Span(y, n)
  {
  }

  ghost predicate Shares(t: Table, a: set<ShardId>, b: set<ShardId>, c: set<ShardId>) {
    && t.owned.Keys == {0, 1, 2}
    && t.owned[0] == a && t.owned[1] == b && t.owned[2] == c
  }

  lemma SharesAreExclusive(t: Table, a: set<ShardId>, b: set<ShardId>, c: set<ShardId>)
    requires Shares(t, a, b, c) && a !! b && a !! c && b !! c
    ensures Exclusive(t.owned)
  {
    forall p, q | p in t.owned && q in t.owned && p != q ensures t.owned[p] !! t.owned[q] {
      assert p in {0, 1, 2} && q in {0, 1, 2};
    }
  }

  lemma SharesAreAll(t: Table, a: set<ShardId>, b: set<ShardId>, c: set<ShardId>, all: set<ShardId>)
    requires Shares(t, a, b, c) && all == Below(t.numberOfShards)
    requires forall s :: s in all <==> s in a || s in b || s in c
    ensures Unassigned(t) == {} && |t.owned| == 3
    ensures forall p :: p in t.owned ==> t.owned[p] <= all
  {
    assert |t.owned| == |t.owned.Keys|;
    forall s | s in all ensures s !in Unassigned(t) {
      if s in a { assert s in t.owned[0]; } else if s in b { assert s in t.owned[1]; } else { assert s in t.owned[2]; }
    }
    forall p | p in t.owned ensures t.owned[p] <= all {
      assert p in {0, 1, 2};
    }
  }

  lemma ThreePodsAreFull(x: nat, y: nat, n: nat, t: Table)
    requires x <= y <= n && t == ThreePods(x, y, n)
    ensures Valid(t) && |t.owned| == 3 && Unassigned(t) == {}
  {
    SpansApart(x, y, n);
    forall s ensures s in Below(n) <==> s in Span(0, x) || s in Span(x, y) || s in Span(y, n) { SpansCover(x, y, n, s); }
    SharesAreExclusive(t, Span(0, x), Span(x, y), Span(y, n));
    SharesAreAll(t, Span(0, x), Span(x, y), Span(y, n), Below(n));
  }

  lemma OneOfThree(t: Table, a: set<ShardId>, b: set<ShardId>, c: set<ShardId>, p: Pod, lower: nat)
    requires Shares(t, a, b, c) && lower <= |a| && lower <= |b| && lower <= |c| && p in t.owned
    ensures |t.owned[p]| >= lower
  {
    assert p in {0, 1, 2};
  }

  lemma SharesAreSettled(t: Table, a: set<ShardId>, b: set<ShardId>, c: set<ShardId>, lower: nat)
    requires Shares(t, a, b, c) && lower <= |a| && lower <= |b| && lower <= |c|
    ensures Settled(EntriesVec(t), lower)
  {
    forall i | 0 <= i < |EntriesVec(t)| ensures |EntriesVec(t)[i]| >= lower {
      OneOfThree(t, a, b, c, Pods(t)[i], lower);
    }
  }

  lemma IdleWhenSettled(t: Table, threshold: real, lower: nat)
    requires Valid(t) && |t.owned| > 0 && Unassigned(t) == {} && lower == LowerThreshold(t, threshold)
    requires Settled(EntriesVec(t), lower)
    ensures Planned(t, threshold).owned == t.owned
  {
    NothingToMove(t, threshold);
    EmptyPlan(t);
  }

  lemma UnevenThresholds(t: Table)
    requires t.numberOfShards == 30 && |t.owned| == 3
    ensures LowerThreshold(t, 0.1) == 9 && UpperThreshold(t, 0.1) == 11
  {
    assert OptimalCount(t) == 10;
  }

  /** A pod with 12 of 30 shards, beside two with 9: none is below the lower threshold of 9, so nothing moves. */
  lemma UnevenStays(t: Table)
    requires Valid(t) && t.numberOfShards == 30 && |t.owned| == 3 && Unassigned(t) == {}
    requires Settled(EntriesVec(t), 9)
    ensures Planned(t, 0.1).owned == t.owned && UpperThreshold(t, 0.1) == 11
  {
    UnevenThresholds(t);
    IdleWhenSettled(t, 0.1, 9);
  }

  lemma AreShares(x: nat, y: nat, n: nat, t: Table, a: set<ShardId>, b: set<ShardId>, c: set<ShardId>)
    requires x <= y <= n && t == ThreePods(x, y, n) && a == Span(0, x) && b == Span(x, y) && c == Span(y, n)
    ensures Shares(t, a, b, c) && 0 in t.owned && t.owned[0] == a
  {
  }

  lemma SettledThreePods(x: nat, y: nat, n: nat, lower: nat) returns (t: Table)
    requires x <= y <= n && lower <= x && lower <= y - x && lower <= n - y
    ensures Valid(t) && t.numberOfShards == n && |t.owned| == 3 && Unassigned(t) == {} && Settled(EntriesVec(t), lower)
    ensures 0 in t.owned && |t.owned[0]| == x
  {
    t := ThreePods(x, y, n);
    ThreePodsAreFull(x, y, n, t);
    AreShares(x, y, n, t, Span(0, x), Span(x, y), Span(y, n));
    SharesAreSettled(t, Span(0, x), Span(x, y), Span(y, n), lower);
  }

  /** There is such a table, and 12 is above the upper threshold of 11. */
  lemma UpperBoundCanFail() returns (t: Table)
    ensures Valid(t) && |t.owned| > 0 && 0 in Planned(t, 0.1).owned
    ensures |Planned(t, 0.1).owned[0]| == 12 && UpperThreshold(t, 0.1) == 11
  {
    t := SettledThreePods(12, 21, 30, 9);
    UnevenStays(t);
  }

  lemma BelowDemand(t: Table)
    requires Valid(t) && t.numberOfShards == 3 && |t.owned| == 3
    ensures LowerThreshold(t, -1.0) == 2
    ensures exists p :: p in t.owned && |Held(Planned(t, -1.0).owned, p)| < LowerThreshold(t, -1.0)
  {
    assert OptimalCount(t) == 1;
    BalanceIsExact(t, -1.0);
  }

  /** With a threshold of -1 three pods with one shard each are to have two. */
  lemma LowerBoundCanFail() returns (t: Table)
    ensures Valid(t) && |t.owned| > 0 && LowerThreshold(t, -1.0) == 2
    ensures exists p :: p in t.owned && |Held(Planned(t, -1.0).owned, p)| < LowerThreshold(t, -1.0)
  {
    t := SettledThreePods(1, 2, 3, 1);
    BelowDemand(t);
  }

  // ---------------------------------------------------------------- a shard taken away although none need be

  lemma DealtInTurn(t: Table, j: nat)
    requires |t.owned| == 2 && j < |Deck(t)| && EmptyPods(EntriesVec(t)) == []
    ensures Destination(t, j) == j % 2
  {
  }

  lemma NoEmptyPods(e: Entries)
    requires forall i :: 0 <= i < |e| ==> e[i] != {}
    ensures EmptyPods(e) == []
  {
    FirstIn(EmptyPods(e));
  }

  lemma FirstIn(xs: seq<nat>)
    ensures xs != [] ==> xs[0] in xs
  {
  }

  /** Two pods with shards, and two shards to deal: one goes to each. */
  lemma OneEach(t: Table)
    requires |t.owned| == 2 && |Deck(t)| == 2 && forall i :: 0 <= i < 2 ==> EntriesVec(t)[i] != {}
    ensures |Placed(t)[0]| == |EntriesVec(t)[0]| + 1 && |Placed(t)[1]| == |EntriesVec(t)[1]| + 1
  {
    NoEmptyPods(EntriesVec(t));
    DealtInTurn(t, 0);
    DealtInTurn(t, 1);
    OneReceived(t, 0);
    OneReceived(t, 1);
  }

  lemma OneReceived(t: Table, i: nat)
    requires |t.owned| == 2 && |Deck(t)| == 2 && i < 2 && Destination(t, 0) == 0 && Destination(t, 1) == 1
    ensures |Placed(t)[i]| == |EntriesVec(t)[i]| + 1
  {
    var s := Deck(t)[i];
    OnlyReceived(t, i, s, Received(t, 2, i));
    DeckIsUnowned(t, i, i);
    assert Placed(t)[i] == EntriesVec(t)[i] + {s};
  }

  lemma OnlyReceived(t: Table, i: nat, s: ShardId, received: set<ShardId>)
    requires |t.owned| == 2 && |Deck(t)| == 2 && i < 2 && Destination(t, 0) == 0 && Destination(t, 1) == 1
    requires s == Deck(t)[i] && received == Received(t, 2, i)
    ensures received == {s}
  {
    forall x | x in received ensures x == s {
      var j :| 0 <= j < 2 && Destination(t, j) == i && Deck(t)[j] == x;
      assert j == 0 || j == 1;
    }
    assert Destination(t, i) == i;
    assert s in received;
  }

  ghost predicate ThreeAndOne(t: Table, a: set<ShardId>, b: set<ShardId>) {
    && t.numberOfShards == 6 && t.owned.Keys == {0, 1} && t.owned[0] == a && t.owned[1] == b
    && a !! b && |a| == 3 && |b| == 1 && a <= Below(t.numberOfShards) && b <= Below(t.numberOfShards)
  }

  lemma TwoOwnersUnassigned(t: Table, a: set<ShardId>, b: set<ShardId>)
    requires t.owned.Keys == {0, 1} && t.owned[0] == a && t.owned[1] == b
    ensures Unassigned(t) == Below(t.numberOfShards) - a - b
  {
    forall s | s in Below(t.numberOfShards) ensures s in Unassigned(t) <==> s !in a && s !in b {
      if s !in a && s !in b {
        forall p | p in t.owned ensures s !in t.owned[p] { assert p in {0, 1}; }
      }
    }
  }

  lemma TwoLeft(a: set<ShardId>, b: set<ShardId>, all: set<ShardId>)
    requires a !! b && a <= all && b <= all && |a| == 3 && |b| == 1 && |all| == 6
    ensures |all - a - b| == 2
  {
    var rest := all - a - b;
    assert all == (a + b) + rest;
    assert |a + b| == 4;
  }

  lemma TwoPods(xs: seq<int>, s: set<int>)
    requires Increasing(xs) && |xs| == |s| && (forall x :: x in xs <==> x in s) && s == {0, 1}
    ensures xs == [0, 1]
  {
    IdsInOrder(xs, 2, 0);
    IdsInOrder(xs, 2, 1);
  }

  lemma TwoOwnersValid(t: Table, a: set<ShardId>, b: set<ShardId>)
    requires t.owned.Keys == {0, 1} && t.owned[0] == a && t.owned[1] == b
    requires a !! b && a <= Below(t.numberOfShards) && b <= Below(t.numberOfShards)
    ensures Valid(t) && |t.owned| == 2 && EntriesVec(t) == [a, b]
  {
    assert |t.owned| == |t.owned.Keys|;
    forall p | p in t.owned ensures t.owned[p] <= Below(t.numberOfShards) { assert p in {0, 1}; }
    forall p, q | p in t.owned && q in t.owned && p != q ensures t.owned[p] !! t.owned[q] {
      assert p in {0, 1} && q in {0, 1};
    }
    TwoPods(Pods(t), t.owned.Keys);
    assert EntriesVec(t)[0] == t.owned[Pods(t)[0]] && EntriesVec(t)[1] == t.owned[Pods(t)[1]];
  }

  /** Two pods with 3 and 1 of 6 shards: the plan takes one away, although dealing the others to the second pod takes none. */
  lemma DealingCanWaste(t: Table, a: set<ShardId>, b: set<ShardId>)
    requires ThreeAndOne(t, a, b)
    ensures Valid(t) && |t.owned| == 2 && LowerThreshold(t, 0.0) == 3 && |Revoked(PlanOf(t, 0.0))| == 1
    ensures var r := [a, b + Unassigned(t)];
            && |EntriesVec(t)| == 2 && Disjoint(r) && Union(r) == Below(t.numberOfShards)
            && (forall i :: 0 <= i < 2 ==> |r[i]| == 3) && Taken(EntriesVec(t), r) == {}
  {
    TwoOwnersValid(t, a, b);
    TwoOwnersUnassigned(t, a, b);
    TwoLeft(a, b, Below(t.numberOfShards));
    ThreeIsLower(t);
    OneRevoked(t, a, b);
    KeepsOwners(a, b, Unassigned(t), Below(t.numberOfShards));
  }

  lemma ThreeIsLower(t: Table)
    requires t.numberOfShards == 6 && |t.owned| == 2
    ensures LowerThreshold(t, 0.0) == 3
  {
    assert OptimalCount(t) == 3;
  }

  lemma OneRevoked(t: Table, a: set<ShardId>, b: set<ShardId>)
    requires Valid(t) && |t.owned| == 2 && |Unassigned(t)| == 2 && LowerThreshold(t, 0.0) == 3
    requires EntriesVec(t) == [a, b] && |a| == 3 && |b| == 1
    ensures |Revoked(PlanOf(t, 0.0))| == 1
  {
    OneEachPlaced(t, a, b, Placed(t));
    OneRevokedAt(t, 0.0, Placed(t), 3);
  }

  lemma OneEachPlaced(t: Table, a: set<ShardId>, b: set<ShardId>, placed: Entries)
    requires Valid(t) && |t.owned| == 2 && |Unassigned(t)| == 2 && placed == Placed(t)
    requires EntriesVec(t) == [a, b] && |a| == 3 && |b| == 1
    ensures |placed| == 2 && |placed[0]| == 4 && |placed[1]| == 2
  {
    assert |Deck(t)| == 2 && a != {} && b != {};
    OneEach(t);
  }

  lemma OneRevokedAt(t: Table, threshold: real, placed: Entries, lower: nat)
    requires Valid(t) && |t.owned| > 0 && threshold >= 0.0 && lower == LowerThreshold(t, threshold) && lower == 3
    requires placed == Placed(t) && |placed| == 2 && |placed[0]| == 4 && |placed[1]| == 2
    ensures |Revoked(PlanOf(t, threshold))| == 1
  {
    RevokedCount(t, threshold);
    OneMissing(placed);
  }

  lemma OneMissing(placed: Entries)
    requires |placed| == 2 && |placed[0]| == 4 && |placed[1]| == 2
    ensures Deficit(placed, 3) == 1
  {
    assert Under(placed, 3) == [0, 1];
    assert Sum([0, 1]) == 1 by { assert [0, 1][1..] == [1] && [1][1..] == []; }
  }

  lemma NothingTaken(e0: Entries, r: Entries)
    requires |e0| == |r| == 2 && e0[0] == r[0] && e0[1] <= r[1]
    ensures Taken(e0, r) == {}
  {
  }

  lemma UnionOfTwo(a: set<ShardId>, b: set<ShardId>, all: set<ShardId>)
    requires a + b == all
    ensures Union([a, b]) == all
  {
    forall s ensures s in Union([a, b]) <==> s in all {
      if s in all { assert s in [a, b][if s in a then 0 else 1]; }
    }
  }

  lemma KeepsOwners(a: set<ShardId>, b: set<ShardId>, u: set<ShardId>, all: set<ShardId>)
    requires a !! b && u == all - a - b && |u| == 2 && |a| == 3 && |b| == 1 && a <= all && b <= all
    ensures var r := [a, b + u];
            && Disjoint(r) && Union(r) == all && (forall i :: 0 <= i < 2 ==> |r[i]| == 3) && Taken([a, b], r) == {}
  {
    var r := [a, b + u];
    assert |b + u| == 3;
    UnionOfTwo(a, b + u, all);
    NothingTaken([a, b], r);
  }

  // ---------------------------------------------------------------- a peak that dealing makes

  ghost predicate FourAndOne(t: Table, a: set<ShardId>, b: set<ShardId>) {
    && t.numberOfShards == 8 && t.owned.Keys == {0, 1} && t.owned[0] == a && t.owned[1] == b
    && a !! b && |a| == 4 && |b| == 1 && a <= Below(t.numberOfShards) && b <= Below(t.numberOfShards)
  }

  lemma TwoForFirst(t: Table, received: set<ShardId>)
    requires |t.owned| == 2 && |Deck(t)| == 3 && Destination(t, 0) == 0 && Destination(t, 1) == 1 && Destination(t, 2) == 0
    requires received == Received(t, 3, 0)
    ensures received == {Deck(t)[0], Deck(t)[2]}
  {
    forall x | x in received ensures x == Deck(t)[0] || x == Deck(t)[2] {
      var j :| 0 <= j < 3 && Destination(t, j) == 0 && Deck(t)[j] == x;
      assert j == 0 || j == 1 || j == 2;
    }
  }

  lemma OneForSecond(t: Table, received: set<ShardId>)
    requires |t.owned| == 2 && |Deck(t)| == 3 && Destination(t, 0) == 0 && Destination(t, 1) == 1 && Destination(t, 2) == 0
    requires received == Received(t, 3, 1)
    ensures received == {Deck(t)[1]}
  {
    forall x | x in received ensures x == Deck(t)[1] {
      var j :| 0 <= j < 3 && Destination(t, j) == 1 && Deck(t)[j] == x;
      assert j == 0 || j == 1 || j == 2;
    }
  }

  /** Two pods with shards, and three shards to deal: two go to the first. */
  lemma TwoAndOne(t: Table)
    requires |t.owned| == 2 && |Deck(t)| == 3 && forall i :: 0 <= i < 2 ==> EntriesVec(t)[i] != {}
    ensures |Placed(t)[0]| == |EntriesVec(t)[0]| + 2 && |Placed(t)[1]| == |EntriesVec(t)[1]| + 1
  {
    NoEmptyPods(EntriesVec(t));
    DealtInTurn(t, 0);
    DealtInTurn(t, 1);
    DealtInTurn(t, 2);
    TwoForFirst(t, Received(t, 3, 0));
    OneForSecond(t, Received(t, 3, 1));
    AddsTwo(EntriesVec(t)[0], Placed(t)[0], t, 0, 2);
    DeckIsUnowned(t, 1, 1);
    assert Placed(t)[1] == EntriesVec(t)[1] + {Deck(t)[1]};
  }

  lemma AddsTwo(before: set<ShardId>, after: set<ShardId>, t: Table, j: nat, k: nat)
    requires j < k < |Deck(t)| && |EntriesVec(t)| > 0 && before == EntriesVec(t)[0]
    requires after == before + {Deck(t)[j], Deck(t)[k]}
    ensures |after| == |before| + 2
  {
    DeckIsUnowned(t, j, 0);
    DeckIsUnowned(t, k, 0);
    assert after == before + {Deck(t)[j]} + {Deck(t)[k]};
  }

  lemma ThreeOfFour(t: Table)
    requires t.numberOfShards == 8 && |t.owned| == 2
    ensures LowerThreshold(t, 0.25) == 3
  {
    assert OptimalCount(t) == 4;
  }

  lemma SixAndTwo(placed: Entries)
    requires |placed| == 2 && |placed[0]| == 6 && |placed[1]| == 2
    ensures Deficit(placed, 3) == 1 && Excess(placed, 4) == 2
  {
    assert Under(placed, 3) == [0, 1] && Over(placed, 4) == [2, 0];
    assert [0, 1][1..] == [1] && [1][1..] == [] && [2, 0][1..] == [0] && [0][1..] == [];
    assert Sum([1]) == 1 && Sum([0]) == 0;
  }

  lemma AllEnough(t: Table, threshold: real, e: Entries, lower: nat)
    requires Valid(t) && |t.owned| > 0 && threshold >= 0.0
    requires e == Simulated(t, threshold) && lower == LowerThreshold(t, threshold)
    ensures Reached(Placed(t), e, lower) && forall i :: 0 <= i < |e| ==> |e[i]| >= lower
  {
    LevelledIsPartition(t, threshold);
    SimulatedIsSettled(t, threshold);
    ThresholdIsAffordable(t, threshold);
    SettledIsBalanced(e, t.numberOfShards, lower);
  }

  lemma PeakStays(placed: Entries, e: Entries, lower: nat)
    requires Reached(placed, e, lower) && lower == 3 && forall i :: 0 <= i < |e| ==> |e[i]| >= lower
    requires |placed| == 2 && |placed[0]| == 6 && |placed[1]| == 2
    ensures !AtMost(e, 4)
  {
    SixAndTwo(placed);
    PeakIffEnoughMoves(placed, e, lower, 4);
  }

  /**
   * Two pods with 4 and 1 of 8 shards, and a threshold of a quarter: the plan ends with a pod above 4, although dealing the
   * others to the second pod changes no owner and leaves both with 4.
   */
  lemma DealingCanPeak(t: Table, a: set<ShardId>, b: set<ShardId>)
    requires FourAndOne(t, a, b)
    ensures Valid(t) && |t.owned| == 2 && !AtMost(Simulated(t, 0.25), 4)
    ensures var r := [a, b + Unassigned(t)];
            && |EntriesVec(t)| == 2 && Disjoint(r) && Union(r) == Below(t.numberOfShards)
            && AtMost(r, 4) && Taken(EntriesVec(t), r) == {}
  {
    TwoOwnersValid(t, a, b);
    TwoOwnersUnassigned(t, a, b);
    ThreeLeft(a, b, Below(t.numberOfShards));
    ThreeOfFour(t);
    PeakAfterDealing(t, a, b);
    KeepsFour(a, b, Unassigned(t), Below(t.numberOfShards));
  }

  lemma DealtSixAndTwo(t: Table, a: set<ShardId>, b: set<ShardId>)
    requires |t.owned| == 2 && EntriesVec(t) == [a, b] && |a| == 4 && |b| == 1 && |Unassigned(t)| == 3
    ensures |Placed(t)[0]| == 6 && |Placed(t)[1]| == 2
  {
    assert |Deck(t)| == 3 && a != {} && b != {};
    TwoAndOne(t);
  }

  lemma PeakAfterDealing(t: Table, a: set<ShardId>, b: set<ShardId>)
    requires Valid(t) && |t.owned| == 2 && EntriesVec(t) == [a, b] && |a| == 4 && |b| == 1
    requires |Unassigned(t)| == 3 && LowerThreshold(t, 0.25) == 3
    ensures !AtMost(Simulated(t, 0.25), 4)
  {
    DealtSixAndTwo(t, a, b);
    PeakOf(t, 0.25, Simulated(t, 0.25), LowerThreshold(t, 0.25));
  }

  lemma PeakOf(t: Table, threshold: real, e: Entries, lower: nat)
    requires Valid(t) && |t.owned| == 2 && threshold >= 0.0 && e == Simulated(t, threshold)
    requires lower == LowerThreshold(t, threshold) == 3 && |Placed(t)[0]| == 6 && |Placed(t)[1]| == 2
    ensures !AtMost(e, 4)
  {
    AllEnough(t, threshold, e, lower);
    PeakStays(Placed(t), e, lower);
  }

  lemma ThreeLeft(a: set<ShardId>, b: set<ShardId>, all: set<ShardId>)
    requires a !! b && a <= all && b <= all && |a| == 4 && |b| == 1 && |all| == 8
    ensures |all - a - b| == 3
  {
    var rest := all - a - b;
    assert all == (a + b) + rest;
    assert |a + b| == 5;
  }

  lemma KeepsFour(a: set<ShardId>, b: set<ShardId>, u: set<ShardId>, all: set<ShardId>)
    requires a !! b && u == all - a - b && |u| == 3 && |a| == 4 && |b| == 1 && a <= all && b <= all
    ensures var r := [a, b + u]; Disjoint(r) && Union(r) == all && AtMost(r, 4) && Taken([a, b], r) == {}
  {
    var r := [a, b + u];
    assert |b + u| == 4;
    UnionOfTwo(a, b + u, all);
    NothingTaken([a, b], r);
  }

  /** There are tables of both kinds. */
  lemma SuchTables() returns (t: Table, u: Table, a: set<ShardId>, b: set<ShardId>, c: set<ShardId>)
    ensures ThreeAndOne(t, a, c) && FourAndOne(u, b, c)
  {
    a, b, c := Span(0, 3), Span(0, 4), Span(4, 5);
    t, u := TwoTables(a, b, c, 6, 8);
  }

  lemma TwoTables(a: set<ShardId>, b: set<ShardId>, c: set<ShardId>, n: nat, m: nat) returns (t: Table, u: Table)
    requires a !! c && b !! c && |a| == 3 && |b| == 4 && |c| == 1 && n == 6 && m == 8
    requires forall s :: s in a || s in b || s in c ==> 0 <= s < n
    ensures ThreeAndOne(t, a, c) && FourAndOne(u, b, c)
  {
    t, u := Table(n, map[0 := a, 1 := c]), Table(m, map[0 := b, 1 := c]);
    assert t.owned.Keys == {0, 1} && u.owned.Keys == {0, 1};
  }
}
