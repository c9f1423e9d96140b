/** The move phase as single moves, each said without the algorithm: the planner's result is the only end of their runs. */
module MoveRuns {
  import opened Ordered
  import opened Levelling
  import opened ShardModel
  import opened Rebalancing
  import opened PlanProperties
  import opened PlanThresholds

  // ---------------------------------------------------------------- single moves

  /** The first pod below the threshold. */
  ghost predicate IsFirstNeedy(e: Entries, lower: nat, target: nat) {
    target < |e| && |e[target]| < lower && forall i :: 0 <= i < target ==> |e[i]| >= lower
  }

  /** The last of the fullest pods, above the threshold. */
  ghost predicate IsLastFullest(e: Entries, lower: nat, source: nat) {
    && source < |e| && |e[source]| > lower
    && forall i :: 0 <= i < |e| ==> |e[i]| <= |e[source]| && (source < i ==> |e[i]| < |e[source]|)
  }

  ghost predicate IsLeast(s: int, all: set<int>) { s in all && forall x :: x in all ==> s <= x }

  /** The least shard of the last fullest pod goes to the first needy one. */
  ghost predicate Moves(e: Entries, e': Entries, lower: nat, source: nat, target: nat, s: int) {
    && IsFirstNeedy(e, lower, target) && IsLastFullest(e, lower, source) && IsLeast(s, e[source])
    && |e'| == |e|
    && forall i :: 0 <= i < |e| ==>
         e'[i] == if i == source then e[i] - {s} else if i == target then e[i] + {s} else e[i]
  }

  ghost predicate OneMove(e: Entries, e': Entries, lower: nat) {
    exists source: nat, target: nat, s: int :: Moves(e, e', lower, source, target, s)
  }

  ghost predicate IsMoveRun(run: seq<Entries>, lower: nat) {
    |run| > 0 && forall k :: 0 <= k < |run| - 1 ==> OneMove(run[k], run[k + 1], lower)
  }

  // ---------------------------------------------------------------- the algorithm makes such moves

  lemma SourceIsLastFullest(e: Entries, lower: nat, source: nat, target: nat)
    requires target < |e| && |e[target]| < lower && source as int == Source(e, target, lower)
    ensures IsLastFullest(e, lower, source)
  {
    forall i | 0 <= i < |e| ensures |e[i]| <= |e[source]| && (source < i ==> |e[i]| < |e[source]|) {
      assert MayGive(e, i, target, lower) || |e[i]| <= lower;
    }
  }

  lemma MovesFirst(e: Entries, lower: nat, source: nat, target: nat)
    requires IsFirstNeedy(e, lower, target) && source as int == Source(e, target, lower)
    ensures e[source] != {} && source != target && OneMove(e, MoveFirst(e, source, target), lower)
  {
    SourceIsLastFullest(e, lower, source, target);
    assert Moves(e, MoveFirst(e, source, target), lower, source, target, Min(e[source]));
  }

  lemma RunFrom(e: Entries, rest: seq<Entries>, lower: nat)
    requires IsMoveRun(rest, lower) && OneMove(e, rest[0], lower)
    ensures IsMoveRun([e] + rest, lower)
  {
    var run := [e] + rest;
    forall k | 0 <= k < |run| - 1 ensures OneMove(run[k], run[k + 1], lower) {
      if k > 0 { assert OneMove(rest[k - 1], rest[k], lower); }
    }
  }

  lemma NoneMayGive(e: Entries, target: nat, lower: nat)
    requires target < |e| && |e[target]| < lower ==> Source(e, target, lower) < 0
    ensures target < |e| && |e[target]| < lower ==> forall i :: 0 <= i < |e| ==> |e[i]| <= lower
  {
    if target < |e| && |e[target]| < lower {
      forall i | 0 <= i < |e| ensures |e[i]| <= lower { assert !MayGive(e, i, target, lower); }
    }
  }

  lemma {:induction false} LevelIsMoveRun(e: Entries, target: nat, lower: nat) returns (run: seq<Entries>)
    requires Disjoint(e) && target <= |e|
    requires (forall j :: 0 <= j < target ==> |e[j]| >= lower) || (forall i :: 0 <= i < |e| ==> |e[i]| <= lower)
    ensures IsMoveRun(run, lower) && run[0] == e && run[|run| - 1] == Level(e, target, lower)
    decreases |e| - target, if target < |e| then lower - |e[target]| else 0
  {
    if target == |e| {
      run := [e];
    } else if |e[target]| < lower && Source(e, target, lower) >= 0 {
      var source := Source(e, target, lower);
      MoveFacts(e, source, target);
      MovesFirst(e, lower, source, target);
      var rest := LevelIsMoveRun(MoveFirst(e, source, target), target, lower);
      run := [e] + rest;
      assert run[|run| - 1] == rest[|rest| - 1];
      RunFrom(e, rest, lower);
    } else {
      NoneMayGive(e, target, lower);
      run := LevelIsMoveRun(e, target + 1, lower);
    }
  }

  // ---------------------------------------------------------------- and no others are possible

  lemma SameMove(e: Entries, a: Entries, b: Entries, lower: nat)
    requires OneMove(e, a, lower) && OneMove(e, b, lower)
    ensures a == b
  {
    var source: nat, target: nat, s: int :| Moves(e, a, lower, source, target, s);
    var source': nat, target': nat, s': int :| Moves(e, b, lower, source', target', s');
    assert source == source' && target == target' && s == s';
  }

  lemma SettledStops(e: Entries, e': Entries, lower: nat)
    requires Settled(e, lower)
    ensures !OneMove(e, e', lower)
  {
  }

  lemma {:induction false} SameRuns(a: seq<Entries>, b: seq<Entries>, lower: nat, k: nat)
    requires IsMoveRun(a, lower) && IsMoveRun(b, lower) && a[0] == b[0] && k < |a| && k < |b|
    ensures a[k] == b[k]
  {
    if k > 0 {
      SameRuns(a, b, lower, k - 1);
      SameMove(a[k - 1], a[k], b[k], lower);
    }
  }

  /** Two runs from the same start that end where nothing can move end in the same place. */
  lemma SameEnd(a: seq<Entries>, b: seq<Entries>, lower: nat)
    requires IsMoveRun(a, lower) && IsMoveRun(b, lower) && a[0] == b[0]
    requires Settled(a[|a| - 1], lower) && Settled(b[|b| - 1], lower)
    ensures |a| == |b| && a[|a| - 1] == b[|b| - 1]
  {
    if |a| < |b| {
      SameRuns(a, b, lower, |a| - 1);
      SettledStops(a[|a| - 1], b[|a|], lower);
    } else if |b| < |a| {
      SameRuns(a, b, lower, |b| - 1);
      SettledStops(b[|b| - 1], a[|b|], lower);
    } else {
      SameRuns(a, b, lower, |a| - 1);
    }
  }

  /** From the dealt table the planner's result is where every run of such moves ends, once nothing can move. */
  lemma PlanIsMoveRun(t: Table, threshold: real, lower: nat) returns (run: seq<Entries>)
    requires Valid(t) && |t.owned| > 0 && lower == LowerThreshold(t, threshold)
    ensures IsMoveRun(run, lower) && run[0] == Placed(t) && run[|run| - 1] == Simulated(t, threshold)
    ensures Settled(Simulated(t, threshold), lower)
  {
    PlacedIsPartition(t);
    SimulatedIsSettled(t, threshold);
    run := LevelIsMoveRun(Placed(t), 0, lower);
  }

  lemma EveryMoveRunIsPlanned(t: Table, threshold: real, lower: nat, run: seq<Entries>)
    requires Valid(t) && |t.owned| > 0 && lower == LowerThreshold(t, threshold)
    requires IsMoveRun(run, lower) && run[0] == Placed(t) && Settled(run[|run| - 1], lower)
    ensures run[|run| - 1] == Simulated(t, threshold)
  {
    var planned := PlanIsMoveRun(t, threshold, lower);
    SameEnd(run, planned, lower);
  }

  // ---------------------------------------------------------------- what is given up

  /** What a pod no longer has of its start is smaller than what it still has. */
  ghost predicate GaveSmallest(e0: Entries, e: Entries) {
    |e0| == |e| && forall i :: 0 <= i < |e| ==> forall x, y :: x in e0[i] && x !in e[i] && y in e0[i] && y in e[i] ==> x < y
  }

  lemma MoveGivesSmallest(e0: Entries, e: Entries, source: nat, target: nat, lower: nat)
    requires Reached(e0, e, lower) && GaveSmallest(e0, e)
    requires target < |e| && |e[target]| < lower && source as int == Source(e, target, lower)
    ensures GaveSmallest(e0, MoveFirst(e, source, target))
  {
    MoveSides(e0, e, source, target, lower);
  }

  lemma {:induction false} LevelGivesSmallest(e0: Entries, e: Entries, target: nat, lower: nat)
    requires Reached(e0, e, lower) && target <= |e| && GaveSmallest(e0, e)
    ensures GaveSmallest(e0, Level(e, target, lower))
    decreases |e| - target, if target < |e| then lower - |e[target]| else 0
  {
    if target == |e| {
    } else if |e[target]| < lower && Source(e, target, lower) >= 0 {
      var source := Source(e, target, lower);
      MoveFacts(e, source, target);
      MoveKeepsReached(e0, e, source, target, lower);
      MoveGivesSmallest(e0, e, source, target, lower);
      LevelGivesSmallest(e0, MoveFirst(e, source, target), target, lower);
    } else {
      LevelGivesSmallest(e0, e, target + 1, lower);
    }
  }

  lemma SimulatedGivesSmallest(t: Table, threshold: real, placed: Entries, end: Entries, lower: nat)
    requires Valid(t) && |t.owned| > 0 && placed == Placed(t) && end == Simulated(t, threshold)
    requires lower == LowerThreshold(t, threshold)
    ensures GaveSmallest(placed, end) && Reached(placed, end, lower)
  {
    PlacedIsPartition(t);
    LevelledIsPartition(t, threshold);
    ReachedStart(placed, lower);
    LevelGivesSmallest(placed, placed, 0, lower);
  }

  lemma GivenUpIsSmallest(t: Table, placed: Entries, end: Entries, plan: Plan, lower: nat, i: nat, x: ShardId, y: ShardId)
    requires Records(t, placed, end, plan) && GaveSmallest(placed, end) && Reached(placed, end, lower) && i < |end|
    requires x in Held(plan.unassign, Pods(t)[i]) && y in end[i]
    ensures x < y
  {
    assert x in placed[i] && x !in end[i];
    assert OneWay(placed[i], end[i], lower);
  }

  /** What a pod gives up is smaller than all it keeps. */
  lemma PodsGiveSmallest(t: Table, threshold: real, p: Pod, x: ShardId, y: ShardId)
    requires Valid(t) && p in t.owned && x in Held(PlanOf(t, threshold).unassign, p)
    requires y in Held(Planned(t, threshold).owned, p)
    ensures x < y
  {
    var lower := LowerThreshold(t, threshold);
    PlanRecords(t, threshold);
    SimulatedGivesSmallest(t, threshold, Placed(t), Simulated(t, threshold), lower);
    var i := RecordedEffect(t, Placed(t), Simulated(t, threshold), PlanOf(t, threshold), p);
    GivenUpIsSmallest(t, Placed(t), Simulated(t, threshold), PlanOf(t, threshold), lower, i, x, y);
  }

  // ---------------------------------------------------------------- who gets an entry

  /** A pod has an entry in the assignments if it gains or gives up a shard, and one in the unassignments if it gives up one. */
  lemma EntriesAreNeeded(t: Table, threshold: real, p: Pod)
    requires Valid(t)
    ensures p in PlanOf(t, threshold).unassign <==> Held(PlanOf(t, threshold).unassign, p) != {}
    ensures p in PlanOf(t, threshold).assign <==>
            Held(PlanOf(t, threshold).assign, p) != {} || Held(PlanOf(t, threshold).unassign, p) != {}
  {
    if p in t.owned {
      LevelledIsPartition(t, threshold);
      PlacedIsPartition(t);
      var i := PodAt(t, p);
      NeededAt(t, EntriesVec(t), Placed(t), Simulated(t, threshold), LowerThreshold(t, threshold), i);
    } else {
      PlanIsLegal(t, threshold);
    }
  }

  lemma NeededAt(t: Table, start: Entries, placed: Entries, end: Entries, lower: nat, i: nat)
    requires |start| == |t.owned| && |placed| == |start| && Reached(placed, end, lower) && i < |start| && start[i] <= placed[i]
    ensures var p, g, u := Pods(t)[i], Gained(Pods(t), start, placed, end), GivenUp(Pods(t), placed, end);
            && (p in u <==> Held(u, p) != {})
            && (p in g <==> Held(g, p) != {} || Held(u, p) != {})
  {
    GainedAt(Pods(t), start, placed, end, i);
    GivenUpAt(Pods(t), placed, end, i);
    assert OneWay(placed[i], end[i], lower);
    NeededSets(start[i], placed[i], end[i]);
  }

  lemma NeededSets(start: set<ShardId>, placed: set<ShardId>, end: set<ShardId>)
    requires start <= placed
    ensures placed <= end <==> placed - end == {}
    ensures placed == start && end == placed <==> end - start == {} && placed - end == {}
  {
    if placed - end == {} { WithinIfNoneLeft(placed, end); }
    if end - start == {} { WithinIfNoneLeft(end, start); }
  }
}
