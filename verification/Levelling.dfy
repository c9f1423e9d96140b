/**
 The move phase of the planner, seen as a function on the pods' shard sets: while a pod holds
 fewer shards than the lower threshold, the first shard of the fullest pod above the threshold
 moves to it.
 */
module Levelling {
  import opened Ordered
  import opened Sums

  type Entries = seq<set<int>>

  ghost predicate Disjoint(e: Entries) {
    forall i, j :: 0 <= i < j < |e| ==> e[i] !! e[j]
  }

  ghost function Union(e: Entries): set<int> {
    set i, s | 0 <= i < |e| && s in e[i] :: s
  }

  function Pos(x: int): nat { if x > 0 then x else 0 }

  // ---------------------------------------------------------------- the algorithm

  /** A pod that may give a shard away: not the target, and above the threshold. */
  predicate MayGive(e: Entries, i: nat, target: nat, lower: nat)
    requires i < |e|
  {
    i != target && |e[i]| > lower
  }

  /** Among the first k pods, the last of the largest that may give (Rust's `max_by` keeps the last maximum); -1 if none. */
  function SourceAmong(e: Entries, target: nat, lower: nat, k: nat): (r: int)
    requires k <= |e|
    ensures -1 <= r < k
    ensures r == -1 <==> forall i :: 0 <= i < k ==> !MayGive(e, i, target, lower)
    ensures r >= 0 ==> MayGive(e, r, target, lower)
    ensures r >= 0 ==> forall i :: 0 <= i < k && MayGive(e, i, target, lower) ==>
                |e[i]| <= |e[r]| && (r < i ==> |e[i]| < |e[r]|)
  {
    if k == 0 then -1 else
      var best := SourceAmong(e, target, lower, k - 1);
      if MayGive(e, k - 1, target, lower) && (best == -1 || |e[k - 1]| >= |e[best]|) then k - 1 else best
  }

  function Source(e: Entries, target: nat, lower: nat): (r: int)
    ensures -1 <= r < |e|
  {
    SourceAmong(e, target, lower, |e|)
  }

  /** The source's first shard goes to the target. */
  function MoveFirst(e: Entries, source: nat, target: nat): Entries
    requires source < |e| && target < |e| && source != target && e[source] != {}
  {
    var s := Min(e[source]);
    e[source := e[source] - {s}][target := e[target] + {s}]
  }

  /** The loop over targets, from the given target on. */
  function Level(e: Entries, target: nat, lower: nat): Entries
    requires Disjoint(e) && target <= |e|
    decreases |e| - target, if target < |e| then lower - |e[target]| else 0
  {
    if target == |e| then e
    else if |e[target]| < lower && Source(e, target, lower) >= 0 then
      var source := Source(e, target, lower);
      MoveFacts(e, source, target);
      Level(MoveFirst(e, source, target), target, lower)
    else Level(e, target + 1, lower)
  }

  // ---------------------------------------------------------------- one move

  lemma MoveFacts(e: Entries, source: nat, target: nat)
    requires Disjoint(e)
    requires source < |e| && target < |e| && source != target && e[source] != {}
    ensures var e1 := MoveFirst(e, source, target);
            && |e1| == |e| && Disjoint(e1) && Union(e1) == Union(e)
            && |e1[source]| == |e[source]| - 1 && |e1[target]| == |e[target]| + 1
            && Min(e[source]) !in e[target]
  {
    var s := Min(e[source]);
    var e1 := MoveFirst(e, source, target);
    assert s !in e[target] by { assert e[source] !! e[target]; }
    forall i, j | 0 <= i < j < |e1| ensures e1[i] !! e1[j] {
      assert e[i] !! e[j];
      assert forall k :: 0 <= k < |e| && k != source ==> s !in e[k];
    }
    forall x ensures x in Union(e1) <==> x in Union(e) {
      if x in Union(e) {
        var i :| 0 <= i < |e| && x in e[i];
        assert x in e1[if x == s then target else i];
      }
      if x in Union(e1) {
        var i :| 0 <= i < |e1| && x in e1[i];
        assert x in e[if x == s then source else i];
      }
    }
  }

  // ---------------------------------------------------------------- measures

  function Sizes(e: Entries): seq<int> { seq(|e|, i requires 0 <= i < |e| => |e[i]|) }

  function Over(e: Entries, m: int): seq<int> { seq(|e|, i requires 0 <= i < |e| => Pos(|e[i]| - m)) }

  function Under(e: Entries, m: int): seq<int> { seq(|e|, i requires 0 <= i < |e| => Pos(m - |e[i]|)) }

  function Gains(e0: Entries, e: Entries): Entries
    requires |e0| == |e|
  {
    seq(|e|, i requires 0 <= i < |e| => e[i] - e0[i])
  }

  /** How many shards lie above level m, over all pods. */
  function Excess(e: Entries, m: int): int { Sum(Over(e, m)) }

  /** How many shards the pods below level m lack. */
  function Deficit(e: Entries, m: int): int { Sum(Under(e, m)) }

  /** How many shards have another owner in e than in e0. */
  function Changed(e0: Entries, e: Entries): int
    requires |e0| == |e|
  {
    Sum(Sizes(Gains(e0, e)))
  }

  // ---------------------------------------------------------------- what every move keeps

  /** A pod either only gave, ending at the threshold or above, or only received, ending at the threshold or below. */
  predicate OneWay(before: set<int>, after: set<int>, lower: nat) {
    || after == before
    || (after < before && |after| >= lower)
    || (before < after && |after| <= lower)
  }

  /** e can be on the way from e0: shards conserved, pods one way, and every move accounted for. */
  ghost predicate Reached(e0: Entries, e: Entries, lower: nat) {
    && |e| == |e0| && Disjoint(e) && Disjoint(e0) && Union(e) == Union(e0)
    && (forall i :: 0 <= i < |e| ==> OneWay(e0[i], e[i], lower))
    && Changed(e0, e) + Deficit(e, lower) == Deficit(e0, lower)
    && (forall m: int :: lower <= m ==> Excess(e, m) == Pos(Excess(e0, m) - Changed(e0, e)))
  }

  lemma ReachedStart(e: Entries, lower: nat)
    requires Disjoint(e)
    ensures Reached(e, e, lower)
  {
    SumZero(Sizes(Gains(e, e)));
    forall m: int ensures Excess(e, m) >= 0 { SumZero(Over(e, m)); }
  }

  /** The source is not a pod that received, the target not one that gave. */
  lemma MoveSides(e0: Entries, e: Entries, source: nat, target: nat, lower: nat)
    requires Reached(e0, e, lower)
    requires target < |e| && |e[target]| < lower && source as int == Source(e, target, lower)
    ensures e[source] <= e0[source] && e0[target] <= e[target]
    ensures var s := Min(e[source]);
            s in e0[source] && s !in e0[target]
  {
    assert |e[source]| > lower;
    assert OneWay(e0[source], e[source], lower) && OneWay(e0[target], e[target], lower);
    assert e0[source] !! e0[target];
  }

  lemma MoveOneWay(e0: Entries, e: Entries, source: nat, target: nat, lower: nat)
    requires Reached(e0, e, lower)
    requires target < |e| && |e[target]| < lower && source as int == Source(e, target, lower)
    ensures forall i :: 0 <= i < |e| ==> OneWay(e0[i], MoveFirst(e, source, target)[i], lower)
  {
    MoveSides(e0, e, source, target, lower);
    MoveFacts(e, source, target);
    var s := Min(e[source]);
    var e1 := MoveFirst(e, source, target);
    assert s in e0[source] && s !in e1[source];
    assert s in e1[target] && s !in e0[target];
    forall i | 0 <= i < |e| ensures OneWay(e0[i], e1[i], lower) {
      assert OneWay(e0[i], e[i], lower);
      if i == source { assert e1[i] < e0[i]; }
      if i == target { assert e0[i] < e1[i]; }
    }
  }

  lemma MoveChanged(e0: Entries, e: Entries, source: nat, target: nat, lower: nat)
    requires Reached(e0, e, lower)
    requires target < |e| && |e[target]| < lower && source as int == Source(e, target, lower)
    ensures Changed(e0, MoveFirst(e, source, target)) == Changed(e0, e) + 1
  {
    MoveSides(e0, e, source, target, lower);
    var s := Min(e[source]);
    var e1 := MoveFirst(e, source, target);
    assert s !in e[target] by { MoveFacts(e, source, target); }
    GainOne(e0[target], e[target], s);
    GainNone(e0[source], e[source], s);
    SumChange(Sizes(Gains(e0, e)), Sizes(Gains(e0, e1)), source, target);
  }

  lemma GainOne(before: set<int>, now: set<int>, s: int)
    requires s !in before && s !in now
    ensures |(now + {s}) - before| == |now - before| + 1
  {
    assert (now + {s}) - before == (now - before) + {s};
  }

  lemma GainNone(before: set<int>, now: set<int>, s: int)
    requires now <= before
    ensures (now - {s}) - before == {} == now - before
  {
  }

  lemma MoveDeficit(e: Entries, source: nat, target: nat, lower: nat)
    requires Disjoint(e)
    requires target < |e| && |e[target]| < lower && source as int == Source(e, target, lower)
    ensures Deficit(MoveFirst(e, source, target), lower) == Deficit(e, lower) - 1
  {
    MoveFacts(e, source, target);
    SumChange(Under(e, lower), Under(MoveFirst(e, source, target), lower), source, target);
  }

  lemma MoveOver(e: Entries, source: nat, target: nat, lower: nat, m: int)
    requires Disjoint(e) && lower <= m
    requires target < |e| && |e[target]| < lower && source as int == Source(e, target, lower)
    ensures Excess(MoveFirst(e, source, target), m) == Excess(e, m) - if |e[source]| > m then 1 else 0
  {
    MoveFacts(e, source, target);
    SumChange(Over(e, m), Over(MoveFirst(e, source, target), m), source, target);
  }

  /** The source is the fullest pod: if it is not above a level, none is. */
  lemma NoneOver(e: Entries, source: nat, target: nat, lower: nat, m: int)
    requires lower <= m && target < |e| && |e[target]| < lower && source as int == Source(e, target, lower)
    ensures |e[source]| <= m ==> Excess(e, m) == 0
    ensures |e[source]| > m ==> Excess(e, m) > 0
  {
    var over := Over(e, m);
    SumZero(over);
    if |e[source]| <= m {
      forall i | 0 <= i < |e| ensures over[i] == 0 {
        assert MayGive(e, i, target, lower) || |e[i]| <= m;
      }
    } else {
      assert over[source] > 0;
    }
  }

  lemma MoveExcess(e: Entries, source: nat, target: nat, lower: nat, m: int)
    requires Disjoint(e) && lower <= m
    requires target < |e| && |e[target]| < lower && source as int == Source(e, target, lower)
    ensures Excess(MoveFirst(e, source, target), m) == Pos(Excess(e, m) - 1)
  {
    MoveOver(e, source, target, lower, m);
    NoneOver(e, source, target, lower, m);
  }

  lemma MoveKeepsReached(e0: Entries, e: Entries, source: nat, target: nat, lower: nat)
    requires Reached(e0, e, lower)
    requires target < |e| && |e[target]| < lower && source as int == Source(e, target, lower)
    ensures Reached(e0, MoveFirst(e, source, target), lower)
  {
    MoveFacts(e, source, target);
    MoveOneWay(e0, e, source, target, lower);
    MoveChanged(e0, e, source, target, lower);
    MoveDeficit(e, source, target, lower);
    var e1 := MoveFirst(e, source, target);
    forall m: int | lower <= m ensures Excess(e1, m) == Pos(Excess(e0, m) - Changed(e0, e1)) {
      MoveExcess(e, source, target, lower, m);
    }
  }

  lemma {:induction false} LevelReaches(e0: Entries, e: Entries, target: nat, lower: nat)
    requires Reached(e0, e, lower) && target <= |e|
    ensures Reached(e0, Level(e, target, lower), lower)
    decreases |e| - target, if target < |e| then lower - |e[target]| else 0
  {
    if target == |e| {
    } else if |e[target]| < lower && Source(e, target, lower) >= 0 {
      var source := Source(e, target, lower);
      MoveFacts(e, source, target);
      MoveKeepsReached(e0, e, source, target, lower);
      LevelReaches(e0, MoveFirst(e, source, target), target, lower);
    } else {
      LevelReaches(e0, e, target + 1, lower);
    }
  }

  // ---------------------------------------------------------------- where it stops

  /** No pod needs a shard, or no pod may give one. */
  ghost predicate Settled(e: Entries, lower: nat) {
    || (forall i :: 0 <= i < |e| ==> |e[i]| >= lower)
    || (forall i :: 0 <= i < |e| ==> |e[i]| <= lower)
  }

  lemma {:induction false} LevelSettles(e: Entries, target: nat, lower: nat)
    requires Disjoint(e) && target <= |e|
    requires (forall j :: 0 <= j < target ==> |e[j]| >= lower) || (forall i :: 0 <= i < |e| ==> |e[i]| <= lower)
    ensures Settled(Level(e, target, lower), lower)
    decreases |e| - target, if target < |e| then lower - |e[target]| else 0
  {
    if target == |e| {
    } else if |e[target]| < lower && Source(e, target, lower) >= 0 {
      var source := Source(e, target, lower);
      MoveFacts(e, source, target);
      LevelSettles(MoveFirst(e, source, target), target, lower);
    } else {
      if |e[target]| < lower {
        forall i | 0 <= i < |e| ensures |e[i]| <= lower {
          assert !MayGive(e, i, target, lower);
        }
      }
      LevelSettles(e, target + 1, lower);
    }
  }

  lemma {:induction false} LevelOfSettled(e: Entries, target: nat, lower: nat)
    requires Disjoint(e) && target <= |e| && Settled(e, lower)
    ensures Level(e, target, lower) == e
    decreases |e| - target
  {
    if target < |e| {
      assert Source(e, target, lower) >= 0 ==> |e[Source(e, target, lower)]| > lower;
      LevelOfSettled(e, target + 1, lower);
    }
  }

  // ---------------------------------------------------------------- counting shards

  lemma UnionSplits(e: Entries, rest: Entries)
    requires e != [] && rest == e[1..]
    ensures Union(e) == e[0] + Union(rest)
  {
    forall s ensures s in Union(e) <==> s in e[0] + Union(rest) {
      if s in Union(e) {
        var i :| 0 <= i < |e| && s in e[i];
        assert i > 0 ==> s in rest[i - 1];
      }
      if s in Union(rest) {
        var i :| 0 <= i < |rest| && s in rest[i];
        assert s in e[i + 1];
      }
    }
  }

  lemma FirstApart(e: Entries, rest: Entries)
    requires Disjoint(e) && e != [] && rest == e[1..]
    ensures Disjoint(rest) && e[0] !! Union(rest)
  {
    forall s | s in Union(rest) ensures s !in e[0] {
      var i :| 0 <= i < |rest| && s in rest[i];
      assert e[0] !! e[i + 1];
    }
  }

  lemma {:induction false} SizesCountUnion(e: Entries)
    requires Disjoint(e)
    ensures Sum(Sizes(e)) == |Union(e)|
  {
    if e == [] {
      assert Union(e) == {};
    } else {
      var rest := e[1..];
      FirstApart(e, rest);
      UnionSplits(e, rest);
      SizesCountUnion(rest);
      assert Sizes(e)[1..] == Sizes(rest);
    }
  }

  /** The shards that have another owner in r than in e0. */
  ghost function MovedShards(e0: Entries, r: Entries): set<int>
    requires |e0| == |r|
  {
    set i, s | 0 <= i < |r| && s in r[i] && s !in e0[i] :: s
  }

  lemma ChangedCountsMoved(e0: Entries, r: Entries)
    requires |e0| == |r| && Disjoint(r)
    ensures Changed(e0, r) == |MovedShards(e0, r)|
  {
    var g := Gains(e0, r);
    forall i, j | 0 <= i < j < |g| ensures g[i] !! g[j] { assert r[i] !! r[j]; }
    SizesCountUnion(g);
    assert Union(g) == MovedShards(e0, r) by {
      forall s | s in MovedShards(e0, r) ensures s in Union(g) {
        var i :| 0 <= i < |r| && s in r[i] && s !in e0[i];
        assert s in g[i];
      }
    }
  }

  lemma SplitSize(a: set<int>, b: set<int>)
    ensures |a| - |b| == |a - b| - |b - a|
    ensures |a| - |b| <= |a - b|
  {
    assert a == (a - b) + a * b && b == (b - a) + a * b;
  }

  // ---------------------------------------------------------------- optimality

  /** Any assignment that brings every pod to the level changes at least the deficit's worth of owners. */
  lemma DeficitIsNeeded(e0: Entries, r: Entries, lower: nat)
    requires |e0| == |r|
    requires forall i :: 0 <= i < |r| ==> |r[i]| >= lower
    ensures Deficit(e0, lower) <= Changed(e0, r)
  {
    forall i | 0 <= i < |r| ensures Under(e0, lower)[i] <= Sizes(Gains(e0, r))[i] {
      SplitSize(r[i], e0[i]);
    }
    SumMonotone(Under(e0, lower), Sizes(Gains(e0, r)));
  }

  lemma GainsEqualLosses(e0: Entries, r: Entries)
    requires |e0| == |r| && Disjoint(e0) && Disjoint(r) && Union(e0) == Union(r)
    ensures Changed(e0, r) == Changed(r, e0)
  {
    SizesCountUnion(e0);
    SizesCountUnion(r);
    var total := seq(|r|, i requires 0 <= i < |r| => |r[i]| + |e0[i] - r[i]|);
    SumAdd(Sizes(r), Sizes(Gains(r, e0)), total);
    forall i | 0 <= i < |r| ensures total[i] == Sizes(e0)[i] + Sizes(Gains(e0, r))[i] {
      SplitSize(r[i], e0[i]);
    }
    SumAdd(Sizes(e0), Sizes(Gains(e0, r)), total);
  }

  /** k changes of owner lower the excess above any level by at most k. */
  lemma ExcessDropsSlowly(e0: Entries, r: Entries, m: int)
    requires |e0| == |r| && Disjoint(e0) && Disjoint(r) && Union(e0) == Union(r)
    ensures Excess(e0, m) <= Excess(r, m) + Changed(e0, r)
  {
    GainsEqualLosses(e0, r);
    var bound := seq(|r|, i requires 0 <= i < |r| => Pos(|r[i]| - m) + |e0[i] - r[i]|);
    var over, losses := Over(e0, m), Sizes(Gains(r, e0));
    forall i | 0 <= i < |r| ensures over[i] <= bound[i] && bound[i] == Over(r, m)[i] + losses[i] {
      SplitSize(e0[i], r[i]);
    }
    SumAdd(Over(r, m), losses, bound);
    SumMonotone(over, bound);
  }

  ghost predicate AtMost(e: Entries, m: int) {
    forall i :: 0 <= i < |e| ==> |e[i]| <= m
  }

  lemma AtMostIsNoExcess(e: Entries, m: int)
    ensures AtMost(e, m) <==> Excess(e, m) == 0
  {
    SumZero(Over(e, m));
    if Excess(e, m) == 0 {
      forall i | 0 <= i < |e| ensures |e[i]| <= m { assert Over(e, m)[i] == 0; }
    }
  }

  /**
   * The greedy choice is optimal: whatever peak another assignment of the same shards reaches with no more
   * changes of owner, at or above the threshold, the levelled assignment reaches too.
   */
  lemma PeakIsOptimal(e0: Entries, e: Entries, r: Entries, lower: nat, m: int)
    requires Reached(e0, e, lower) && lower <= m
    requires |r| == |e0| && Disjoint(r) && Union(r) == Union(e0)
    requires Changed(e0, r) <= Changed(e0, e)
    requires AtMost(r, m)
    ensures AtMost(e, m)
  {
    AtMostIsNoExcess(r, m);
    AtMostIsNoExcess(e, m);
    ExcessDropsSlowly(e0, r, m);
  }
}
