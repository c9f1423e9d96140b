/** What the planner achieves: balance, fewest moves and lowest peak once all shards are dealt, and stability. */
module PlanProperties {
  import opened Ordered
  import opened Sums
  import opened Division
  import opened Levelling
  import opened ShardModel
  import opened Rebalancing

  /** The table the plan leads to. */
  function Planned(t: Table, threshold: real): Table
    requires Valid(t)
  {
    Table(t.numberOfShards, Applied(t.owned, PlanOf(t, threshold)))
  }

  /** The shards some pod is told to give up. */
  ghost function Revoked(plan: Plan): set<ShardId> {
    set p, s | p in plan.unassign && s in plan.unassign[p] :: s
  }

  lemma {:induction false} SumAtMost(xs: seq<int>, high: int)
    requires forall i :: 0 <= i < |xs| ==> xs[i] <= high
    ensures Sum(xs) <= |xs| * high
    ensures forall i :: 0 <= i < |xs| ==> Sum(xs) <= xs[i] + (|xs| - 1) * high
  {
    if xs != [] {
      var rest := xs[1..];
      SumAtMost(rest, high);
      forall i | 0 <= i < |xs| ensures Sum(xs) <= xs[i] + (|xs| - 1) * high {
        if i > 0 { assert rest[i - 1] == xs[i]; }
      }
    }
  }

  // ---------------------------------------------------------------- balance

  lemma FloorAtMost(q: nat, threshold: real)
    requires threshold >= 0.0
    ensures (q as real * (1.0 - threshold)).Floor <= q
  {
    assert q as real * threshold >= 0.0;
    assert q as real * (1.0 - threshold) == q as real - q as real * threshold;
  }

  lemma ShareAtMost(n: nat, p: nat, low: nat)
    requires p > 0 && low <= n / p
    ensures p * low <= n
  {
    var q := n / p;
    assert n == p * q + n % p;
    assert p * low <= p * q;
  }

  /** A non-negative threshold never asks for more than there is. */
  lemma ThresholdIsAffordable(t: Table, threshold: real)
    requires |t.owned| > 0 && threshold >= 0.0
    ensures LowerThreshold(t, threshold) <= OptimalCount(t)
    ensures |t.owned| * LowerThreshold(t, threshold) <= t.numberOfShards
  {
    FloorAtMost(OptimalCount(t), threshold);
    ShareAtMost(t.numberOfShards, |t.owned|, LowerThreshold(t, threshold));
  }

  lemma SizesOfAll(e: Entries, n: nat)
    requires Disjoint(e) && Union(e) == Below(n)
    ensures Sum(Sizes(e)) == n
  {
    SizesCountUnion(e);
  }

  /** A settled distribution of n shards has every pod at the level exactly when the shards suffice for it. */
  lemma SettledIsBalanced(e: Entries, n: nat, lower: nat)
    requires |e| > 0 && Disjoint(e) && Union(e) == Below(n) && Settled(e, lower)
    ensures (forall i :: 0 <= i < |e| ==> |e[i]| >= lower) <==> |e| * lower <= n
    ensures |e| * lower <= n ==> forall i :: 0 <= i < |e| ==> |e[i]| <= n - (|e| - 1) * lower
  {
    SizesOfAll(e, n);
    if forall i :: 0 <= i < |e| ==> |e[i]| >= lower {
      AllHigh(e, lower);
    } else {
      var i :| 0 <= i < |e| && |e[i]| < lower;
      OneLow(e, lower, i);
    }
  }

  lemma AllHigh(e: Entries, lower: nat)
    requires forall i :: 0 <= i < |e| ==> |e[i]| >= lower
    ensures |e| * lower <= Sum(Sizes(e))
    ensures forall i :: 0 <= i < |e| ==> |e[i]| <= Sum(Sizes(e)) - (|e| - 1) * lower
  {
    var sizes := Sizes(e);
    SumAtLeast(sizes, lower);
    forall i | 0 <= i < |e| ensures |e[i]| <= Sum(sizes) - (|e| - 1) * lower { assert sizes[i] == |e[i]|; }
  }

  lemma OneLow(e: Entries, lower: nat, i: nat)
    requires i < |e| && |e[i]| < lower && forall k :: 0 <= k < |e| ==> |e[k]| <= lower
    ensures Sum(Sizes(e)) < |e| * lower
  {
    var sizes := Sizes(e);
    SumAtMost(sizes, lower);
    BelowAverage(|e|, lower, sizes[i]);
  }

  lemma SimulatedIsSettled(t: Table, threshold: real)
    requires Valid(t) && |t.owned| > 0
    ensures var e := Simulated(t, threshold);
            && |e| == |t.owned| && Disjoint(e) && Union(e) == Below(t.numberOfShards)
            && Settled(e, LowerThreshold(t, threshold))
  {
    PlacedIsPartition(t);
    LevelledIsPartition(t, threshold);
    LevelSettles(Placed(t), 0, LowerThreshold(t, threshold));
  }

  lemma PlannedAt(t: Table, threshold: real, p: Pod) returns (i: nat)
    requires Valid(t) && p in t.owned
    ensures i < |Simulated(t, threshold)| && p in Planned(t, threshold).owned
    ensures Planned(t, threshold).owned[p] == Simulated(t, threshold)[i]
  {
    PlanRecords(t, threshold);
    i := RecordedEffect(t, Placed(t), Simulated(t, threshold), PlanOf(t, threshold), p);
  }

  /** With a non-negative threshold every pod ends with at least the lower threshold, and none with more than the others leave. */
  lemma PlanBalances(t: Table, threshold: real, p: Pod)
    requires Valid(t) && threshold >= 0.0 && p in t.owned
    ensures p in Planned(t, threshold).owned
    ensures var lower, size := LowerThreshold(t, threshold), |Planned(t, threshold).owned[p]|;
            lower <= size <= t.numberOfShards - (|t.owned| - 1) * lower
  {
    ThresholdIsAffordable(t, threshold);
    SimulatedIsSettled(t, threshold);
    SettledIsBalanced(Simulated(t, threshold), t.numberOfShards, LowerThreshold(t, threshold));
    var i := PlannedAt(t, threshold, p);
  }

  lemma PlannedOf(t: Table, threshold: real, i: nat)
    requires Valid(t) && i < |t.owned|
    ensures |Simulated(t, threshold)| == |t.owned| && Planned(t, threshold).owned.Keys == t.owned.Keys
    ensures Held(Planned(t, threshold).owned, Pods(t)[i]) == Simulated(t, threshold)[i]
  {
    PlanRecords(t, threshold);
    RecordedAt(t, Placed(t), Simulated(t, threshold), PlanOf(t, threshold), i);
  }

  /** Whatever the threshold, all pods reach the lower bound exactly when there are shards enough for it. */
  lemma BalanceIsExact(t: Table, threshold: real)
    requires Valid(t) && |t.owned| > 0
    ensures (forall p :: p in t.owned ==> |Held(Planned(t, threshold).owned, p)| >= LowerThreshold(t, threshold))
            <==> |t.owned| * LowerThreshold(t, threshold) <= t.numberOfShards
  {
    SimulatedIsSettled(t, threshold);
    PlannedEntries(t, threshold, Simulated(t, threshold), Planned(t, threshold).owned);
    BoundIsExact(t, Simulated(t, threshold), Planned(t, threshold).owned, LowerThreshold(t, threshold));
  }

  lemma PlannedEntries(t: Table, threshold: real, e: Entries, after: Ownership)
    requires Valid(t) && |t.owned| > 0
    requires e == Simulated(t, threshold) && after == Planned(t, threshold).owned
    ensures |e| == |t.owned| && after.Keys == t.owned.Keys
    ensures forall i :: 0 <= i < |e| ==> Held(after, Pods(t)[i]) == e[i]
  {
    PlannedOf(t, threshold, 0);
    forall i | 0 <= i < |e| ensures Held(after, Pods(t)[i]) == e[i] { PlannedOf(t, threshold, i); }
  }

  lemma BoundIsExact(t: Table, e: Entries, after: Ownership, low: nat)
    requires |t.owned| > 0 && |e| == |t.owned| && after.Keys == t.owned.Keys
    requires forall i :: 0 <= i < |e| ==> Held(after, Pods(t)[i]) == e[i]
    requires Disjoint(e) && Union(e) == Below(t.numberOfShards) && Settled(e, low)
    ensures (forall p :: p in t.owned ==> |Held(after, p)| >= low) <==> |t.owned| * low <= t.numberOfShards
  {
    SettledIsBalanced(e, t.numberOfShards, low);
    SameLowerBound(t, e, after, low);
  }

  lemma SameLowerBound(t: Table, e: Entries, after: Ownership, low: nat)
    requires |e| == |t.owned| && after.Keys == t.owned.Keys
    requires forall i :: 0 <= i < |e| ==> Held(after, Pods(t)[i]) == e[i]
    ensures (forall p :: p in t.owned ==> |Held(after, p)| >= low) <==> (forall i :: 0 <= i < |e| ==> |e[i]| >= low)
  {
    var ps := Pods(t);
    assert forall i :: 0 <= i < |ps| ==> ps[i] in ps;
    if forall p :: p in t.owned ==> |Held(after, p)| >= low {
      forall i | 0 <= i < |e| ensures |e[i]| >= low { assert ps[i] in t.owned; }
    }
    if forall i :: 0 <= i < |e| ==> |e[i]| >= low {
      forall p | p in t.owned ensures |Held(after, p)| >= low { var i := PodAt(t, p); }
    }
  }

  // ---------------------------------------------------------------- the upper threshold

  /** The upper end of the band; the source only traces it. */
  function UpperThreshold(t: Table, threshold: real): nat
    requires |t.owned| > 0
  {
    Pos(-(-(OptimalCount(t) as real * (1.0 + threshold))).Floor)
  }

  lemma CeilingAtLeast(q: nat, threshold: real)
    requires threshold >= 0.0
    ensures q <= -(-(q as real * (1.0 + threshold))).Floor
  {
    assert q as real * threshold >= 0.0;
    assert q as real * (1.0 + threshold) == q as real + q as real * threshold;
  }

  /** Moves stop once no pod is below the lower level, so what lies above another level may be left there. */
  lemma PeakIffEnoughMoves(placed: Entries, e: Entries, lower: nat, m: int)
    requires Reached(placed, e, lower) && lower <= m
    requires forall i :: 0 <= i < |e| ==> |e[i]| >= lower
    ensures AtMost(e, m) <==> Excess(placed, m) <= Deficit(placed, lower)
  {
    SumZero(Under(e, lower));
    AtMostIsNoExcess(e, m);
  }

  lemma SameUpperBound(t: Table, e: Entries, after: Ownership, high: nat)
    requires |e| == |t.owned| && after.Keys == t.owned.Keys
    requires forall i :: 0 <= i < |e| ==> Held(after, Pods(t)[i]) == e[i]
    ensures (forall p :: p in t.owned ==> |Held(after, p)| <= high) <==> AtMost(e, high)
  {
    var ps := Pods(t);
    assert forall i :: 0 <= i < |ps| ==> ps[i] in ps;
    if forall p :: p in t.owned ==> |Held(after, p)| <= high {
      forall i | 0 <= i < |e| ensures |e[i]| <= high { assert ps[i] in t.owned; }
    }
    if AtMost(e, high) {
      forall p | p in t.owned ensures |Held(after, p)| <= high { var i := PodAt(t, p); }
    }
  }

  /**
   * With a non-negative threshold no pod ends above the upper threshold if and only if the shards above it, once all are
   * dealt, are no more than the pods below the lower threshold lack.
   */
  lemma UpperBoundIsExact(t: Table, threshold: real)
    requires Valid(t) && |t.owned| > 0 && threshold >= 0.0
    ensures (forall p :: p in t.owned ==> |Held(Planned(t, threshold).owned, p)| <= UpperThreshold(t, threshold))
            <==> Excess(Placed(t), UpperThreshold(t, threshold)) <= Deficit(Placed(t), LowerThreshold(t, threshold))
  {
    var lower, high := LowerThreshold(t, threshold), UpperThreshold(t, threshold);
    var placed, e, after := Placed(t), Simulated(t, threshold), Planned(t, threshold).owned;
    ThresholdIsAffordable(t, threshold);
    CeilingAtLeast(OptimalCount(t), threshold);
    LevelledIsPartition(t, threshold);
    SimulatedIsSettled(t, threshold);
    PlannedEntries(t, threshold, e, after);
    UpperIff(t, placed, e, after, lower, high);
  }

  lemma UpperIff(t: Table, placed: Entries, e: Entries, after: Ownership, lower: nat, high: nat)
    requires |e| == |t.owned| > 0 && after.Keys == t.owned.Keys && lower <= high && |e| * lower <= t.numberOfShards
    requires Reached(placed, e, lower) && Disjoint(e) && Union(e) == Below(t.numberOfShards) && Settled(e, lower)
    requires forall i :: 0 <= i < |e| ==> Held(after, Pods(t)[i]) == e[i]
    ensures (forall p :: p in t.owned ==> |Held(after, p)| <= high) <==> Excess(placed, high) <= Deficit(placed, lower)
  {
    SettledIsBalanced(e, t.numberOfShards, lower);
    PeakIffEnoughMoves(placed, e, lower, high);
    SameUpperBound(t, e, after, high);
  }

  // ---------------------------------------------------------------- sources

  /** While the move phase runs with a non-negative threshold, a pod that needs a shard always finds one that may give. */
  lemma SourceIsAlwaysFound(t: Table, threshold: real, e: Entries, target: nat)
    requires Valid(t) && |t.owned| > 0 && threshold >= 0.0
    requires Reached(Placed(t), e, LowerThreshold(t, threshold))
    requires target < |e| && |e[target]| < LowerThreshold(t, threshold)
    ensures Source(e, target, LowerThreshold(t, threshold)) >= 0
  {
    ThresholdIsAffordable(t, threshold);
    PlacedIsPartition(t);
    SourceExists(e, t.numberOfShards, LowerThreshold(t, threshold), target);
  }

  lemma SourceExists(e: Entries, n: nat, lower: nat, target: nat)
    requires Disjoint(e) && Union(e) == Below(n) && |e| * lower <= n
    requires target < |e| && |e[target]| < lower
    ensures Source(e, target, lower) >= 0
  {
    SizesOfAll(e, n);
    if forall i :: 0 <= i < |e| ==> !MayGive(e, i, target, lower) {
      LowSum(e, lower, target);
    }
  }

  lemma LowSum(e: Entries, lower: nat, target: nat)
    requires target < |e| && |e[target]| < lower
    requires forall i :: 0 <= i < |e| ==> !MayGive(e, i, target, lower)
    ensures Sum(Sizes(e)) < |e| * lower
  {
    var sizes := Sizes(e);
    forall i | 0 <= i < |e| ensures sizes[i] <= lower { assert !MayGive(e, i, target, lower); }
    SumAtMost(sizes, lower);
    BelowAverage(|e|, lower, sizes[target]);
  }

  lemma BelowAverage(k: nat, lower: nat, least: int)
    requires 0 < k && least < lower
    ensures least + (k - 1) * lower < k * lower
  {
    assert k * lower == (k - 1) * lower + lower;
  }

  // ---------------------------------------------------------------- fewest moves

  /** The plan takes away exactly the shards whose owner the move phase changes. */
  lemma RevokedAreMoved(t: Table, threshold: real)
    requires Valid(t) && |t.owned| > 0
    ensures |Simulated(t, threshold)| == |Placed(t)|
    ensures Revoked(PlanOf(t, threshold)) == MovedShards(Placed(t), Simulated(t, threshold))
  {
    PlacedIsPartition(t);
    LevelledIsPartition(t, threshold);
    PlanRecords(t, threshold);
    RecordedMoves(t, Placed(t), Simulated(t, threshold), PlanOf(t, threshold));
  }

  lemma HeldOnce(e: Entries, i: nat, j: nat, s: ShardId)
    requires Disjoint(e) && i < |e| && j < |e|
    ensures s in e[i] && s in e[j] ==> i == j
  {
  }

  lemma HolderOf(e: Entries, s: ShardId) returns (i: nat)
    requires s in Union(e)
    ensures i < |e| && s in e[i]
  {
    i :| 0 <= i < |e| && s in e[i];
  }

  lemma RecordedMove(t: Table, placed: Entries, end: Entries, plan: Plan, p: Pod, s: ShardId)
    requires Records(t, placed, end, plan) && Disjoint(placed) && Union(placed) == Union(end)
    requires p in t.owned && s in Held(plan.unassign, p)
    ensures s in MovedShards(placed, end)
  {
    var i := PodAt(t, p);
    assert s in placed[i] && s !in end[i];
    assert s in Union(placed);
    var j := HolderOf(end, s);
    HeldOnce(placed, i, j, s);
  }

  lemma MoveRecorded(t: Table, placed: Entries, end: Entries, plan: Plan, s: ShardId) returns (p: Pod)
    requires Records(t, placed, end, plan) && Disjoint(end) && Union(placed) == Union(end)
    requires s in MovedShards(placed, end)
    ensures p in plan.unassign && s in plan.unassign[p]
  {
    var j :| 0 <= j < |end| && s in end[j] && s !in placed[j];
    assert s in Union(end);
    var i := HolderOf(placed, s);
    HeldOnce(end, i, j, s);
    p := Pods(t)[i];
    LossRecorded(t, placed, end, plan, i, s);
  }

  lemma LossRecorded(t: Table, placed: Entries, end: Entries, plan: Plan, i: nat, s: ShardId)
    requires Records(t, placed, end, plan) && i < |end| && s in placed[i] && s !in end[i]
    ensures Pods(t)[i] in plan.unassign && s in plan.unassign[Pods(t)[i]]
  {
    var lost := placed[i] - end[i];
    assert s in lost;
    assert Held(plan.unassign, Pods(t)[i]) == lost;
  }

  lemma RecordedMoves(t: Table, placed: Entries, end: Entries, plan: Plan)
    requires Records(t, placed, end, plan) && Disjoint(placed) && Disjoint(end) && Union(placed) == Union(end)
    ensures Revoked(plan) == MovedShards(placed, end)
  {
    forall s | s in Revoked(plan) ensures s in MovedShards(placed, end) {
      var p :| p in plan.unassign && s in plan.unassign[p];
      RecordedMove(t, placed, end, plan, p, s);
    }
    forall s | s in MovedShards(placed, end) ensures s in Revoked(plan) {
      var p := MoveRecorded(t, placed, end, plan, s);
    }
  }

  /**
   * With a non-negative threshold the plan takes away exactly as many shards as the pods below the lower threshold lack
   * once all shards are dealt, and from there no assignment that brings every pod to the threshold changes fewer owners.
   */
  lemma PlanMovesFewest(t: Table, threshold: real, r: Entries)
    requires Valid(t) && |t.owned| > 0 && threshold >= 0.0
    requires |r| == |t.owned| && Disjoint(r)
    requires forall i :: 0 <= i < |r| ==> |r[i]| >= LowerThreshold(t, threshold)
    ensures |Revoked(PlanOf(t, threshold))| == Deficit(Placed(t), LowerThreshold(t, threshold))
    ensures |Revoked(PlanOf(t, threshold))| <= |MovedShards(Placed(t), r)|
  {
    RevokedAreMoved(t, threshold);
    LevelledIsPartition(t, threshold);
    ThresholdIsAffordable(t, threshold);
    SimulatedIsSettled(t, threshold);
    SettledIsBalanced(Simulated(t, threshold), t.numberOfShards, LowerThreshold(t, threshold));
    FewestMoves(Placed(t), Simulated(t, threshold), r, LowerThreshold(t, threshold));
  }

  lemma FewestMoves(placed: Entries, e: Entries, r: Entries, lower: nat)
    requires Reached(placed, e, lower) && |r| == |placed| && Disjoint(r)
    requires forall i :: 0 <= i < |e| ==> |e[i]| >= lower
    requires forall i :: 0 <= i < |r| ==> |r[i]| >= lower
    ensures |MovedShards(placed, e)| == Deficit(placed, lower) <= |MovedShards(placed, r)|
  {
    ChangedCountsMoved(placed, e);
    SumZero(Under(e, lower));
    DeficitIsNeeded(placed, r, lower);
    ChangedCountsMoved(placed, r);
  }

  /** Once all shards are dealt, no assignment that changes at most as many owners has a lower peak than the plan's. */
  lemma PlanPeakIsLowest(t: Table, threshold: real, r: Entries, m: int, p: Pod)
    requires Valid(t) && threshold >= 0.0 && p in t.owned
    requires |r| == |t.owned| && Disjoint(r) && Union(r) == Below(t.numberOfShards)
    requires |MovedShards(Placed(t), r)| <= |Revoked(PlanOf(t, threshold))|
    requires AtMost(r, m)
    ensures p in Planned(t, threshold).owned && |Planned(t, threshold).owned[p]| <= m
  {
    var lower, placed, e := LowerThreshold(t, threshold), Placed(t), Simulated(t, threshold);
    PlacedIsPartition(t);
    LevelledIsPartition(t, threshold);
    RevokedAreMoved(t, threshold);
    ChangedCountsMoved(placed, e);
    ChangedCountsMoved(placed, r);
    PeakReachesLevel(t, threshold, r, m);
    PeakIsOptimal(placed, e, r, lower, m);
    var i := PlannedAt(t, threshold, p);
  }

  /** The average, hence the peak, is not below the threshold. */
  lemma PeakReachesLevel(t: Table, threshold: real, r: Entries, m: int)
    requires |t.owned| > 0 && threshold >= 0.0
    requires |r| == |t.owned| && Disjoint(r) && Union(r) == Below(t.numberOfShards) && AtMost(r, m)
    ensures LowerThreshold(t, threshold) <= m
  {
    var lower := LowerThreshold(t, threshold);
    ThresholdIsAffordable(t, threshold);
    SizesOfAll(r, t.numberOfShards);
    SumAtMost(Sizes(r), m);
    StrictMultiply(|r|, m, lower);
  }

  lemma StrictMultiply(k: nat, a: int, b: int)
    requires k > 0
    ensures a < b ==> k * a < k * b
  {
  }

  // ---------------------------------------------------------------- measured from the table itself

  /** The shards that lose their owner to another pod. */
  ghost function Taken(e0: Entries, r: Entries): set<ShardId>
    requires |e0| == |r|
  {
    set i, s | 0 <= i < |e0| && s in e0[i] && s !in r[i] :: s
  }

  lemma MovedFromOwners(e0: Entries, r: Entries, unowned: set<ShardId>)
    requires |e0| == |r| && Disjoint(r) && unowned == Union(r) - Union(e0)
    ensures MovedShards(e0, r) <= Taken(e0, r) + unowned
    ensures |MovedShards(e0, r)| <= |Taken(e0, r)| + |unowned|
  {
    forall s | s in MovedShards(e0, r) ensures s in Taken(e0, r) + unowned {
      var j :| 0 <= j < |r| && s in r[j] && s !in e0[j];
      assert s in Union(r);
      if s in Union(e0) {
        var i := HolderOf(e0, s);
        HeldOnce(r, i, j, s);
      }
    }
    SubsetSize(MovedShards(e0, r), Taken(e0, r) + unowned);
  }

  lemma OwnedShards(t: Table)
    requires Valid(t) && |t.owned| > 0
    ensures Below(t.numberOfShards) - Union(EntriesVec(t)) == Unassigned(t)
    ensures Union(EntriesVec(t)) <= Below(t.numberOfShards)
  {
    var e := EntriesVec(t);
    forall s | s in Below(t.numberOfShards) ensures s in Unassigned(t) <==> s !in Union(e) {
      if s in Union(e) {
        var i := HolderOf(e, s);
        assert Pods(t)[i] in t.owned;
      }
      if s !in Unassigned(t) {
        var p :| p in t.owned && s in t.owned[p];
        var i := PodAt(t, p);
        assert s in e[i];
      }
    }
    forall s | s in Union(e) ensures s in Below(t.numberOfShards) {
      var i := HolderOf(e, s);
      assert Pods(t)[i] in t.owned;
    }
  }

  /** Any assignment that brings every pod to the lower threshold takes from owners what the unassigned shards cannot fill. */
  lemma FewestTaken(t: Table, threshold: real, r: Entries)
    requires Valid(t) && |t.owned| > 0
    requires |r| == |t.owned| && Disjoint(r) && Union(r) == Below(t.numberOfShards)
    requires forall i :: 0 <= i < |r| ==> |r[i]| >= LowerThreshold(t, threshold)
    ensures Pos(Deficit(EntriesVec(t), LowerThreshold(t, threshold)) - |Unassigned(t)|) <= |Taken(EntriesVec(t), r)|
  {
    OwnedShards(t);
    DeficitIsNeeded(EntriesVec(t), r, LowerThreshold(t, threshold));
    ChangedCountsMoved(EntriesVec(t), r);
    MovedFromOwners(EntriesVec(t), r, Unassigned(t));
  }

  /** No pod that was dealt a shard ends above the level. */
  ghost predicate NothingWasted(e0: Entries, placed: Entries, lower: nat)
    requires |e0| == |placed|
  {
    forall i :: 0 <= i < |placed| ==> |placed[i]| <= lower || placed[i] == e0[i]
  }

  lemma DealtOne(before: set<ShardId>, after: set<ShardId>, lower: nat)
    requires before <= after
    ensures Pos(lower - |before|) - Pos(lower - |after|) <= |after - before|
    ensures Pos(lower - |before|) - Pos(lower - |after|) == |after - before| <==> |after| <= lower || after == before
  {
    assert after == before + (after - before);
    if after - before == {} { assert after == before; }
  }

  /** Each shard dealt lowers the deficit by one at most, and all do exactly when nothing is wasted. */
  lemma DealtDeficit(e0: Entries, placed: Entries, lower: nat)
    requires |e0| == |placed| && forall i :: 0 <= i < |e0| ==> e0[i] <= placed[i]
    ensures Deficit(e0, lower) - Changed(e0, placed) <= Deficit(placed, lower)
    ensures Deficit(e0, lower) - Changed(e0, placed) == Deficit(placed, lower) <==> NothingWasted(e0, placed, lower)
  {
    var dealt := Sizes(Gains(e0, placed));
    var slack := seq(|e0|, i requires 0 <= i < |e0| => dealt[i] - (Under(e0, lower)[i] - Under(placed, lower)[i]));
    var sum := seq(|e0|, i requires 0 <= i < |e0| => slack[i] + Under(e0, lower)[i]);
    SumAdd(slack, Under(e0, lower), sum);
    SumAdd(dealt, Under(placed, lower), sum);
    forall i | 0 <= i < |e0|
      ensures 0 <= slack[i] && (slack[i] == 0 <==> |placed[i]| <= lower || placed[i] == e0[i])
    {
      DealtOne(e0[i], placed[i], lower);
    }
    SumZero(slack);
  }

  lemma DealtShards(e0: Entries, placed: Entries)
    requires |e0| == |placed| && Disjoint(placed) && forall i :: 0 <= i < |e0| ==> e0[i] <= placed[i]
    ensures MovedShards(e0, placed) == Union(placed) - Union(e0)
  {
    forall s | s in MovedShards(e0, placed) ensures s in Union(placed) - Union(e0) {
      var j :| 0 <= j < |placed| && s in placed[j] && s !in e0[j];
      if s in Union(e0) {
        var i := HolderOf(e0, s);
        HeldOnce(placed, i, j, s);
      }
    }
    forall s | s in Union(placed) - Union(e0) ensures s in MovedShards(e0, placed) {
      var j := HolderOf(placed, s);
      assert s !in e0[j];
    }
  }

  lemma DealtCount(t: Table)
    requires Valid(t) && |t.owned| > 0
    ensures Changed(EntriesVec(t), Placed(t)) == |Unassigned(t)|
  {
    PlacedIsPartition(t);
    OwnedShards(t);
    ChangedCountsMoved(EntriesVec(t), Placed(t));
    DealtShards(EntriesVec(t), Placed(t));
  }

  /** Dealing fills every pod to the level, or wastes nothing. */
  ghost predicate DealsWell(e0: Entries, placed: Entries, lower: nat)
    requires |e0| == |placed|
  {
    Deficit(placed, lower) == 0 || NothingWasted(e0, placed, lower)
  }

  lemma FewestIff(e0: Entries, placed: Entries, lower: nat, dealt: int)
    requires |e0| == |placed| && (forall i :: 0 <= i < |e0| ==> e0[i] <= placed[i]) && dealt == Changed(e0, placed)
    ensures Deficit(placed, lower) == Pos(Deficit(e0, lower) - dealt) <==> DealsWell(e0, placed, lower)
  {
    DealtDeficit(e0, placed, lower);
    SumZero(Under(placed, lower));
  }

  /**
   * Measured from the table, with a non-negative threshold, the plan takes away as few shards as any assignment can take
   * from owners if and only if dealing fills every pod to the lower threshold, or no pod it deals to ends above it.
   */
  lemma RevokesAreFewestIff(t: Table, threshold: real, lower: nat)
    requires Valid(t) && |t.owned| > 0 && threshold >= 0.0 && lower == LowerThreshold(t, threshold)
    ensures |Revoked(PlanOf(t, threshold))| == Pos(Deficit(EntriesVec(t), lower) - |Unassigned(t)|)
            <==> DealsWell(EntriesVec(t), Placed(t), lower)
  {
    RevokedCount(t, threshold);
    DealtFewestIff(t, lower, EntriesVec(t), Placed(t), |Unassigned(t)|);
  }

  lemma DealtFewestIff(t: Table, lower: nat, e0: Entries, placed: Entries, dealt: int)
    requires Valid(t) && |t.owned| > 0 && e0 == EntriesVec(t) && placed == Placed(t) && dealt == |Unassigned(t)|
    ensures Deficit(placed, lower) == Pos(Deficit(e0, lower) - dealt) <==> DealsWell(e0, placed, lower)
  {
    DealtAs(t, e0, placed, dealt);
    FewestIff(e0, placed, lower, dealt);
  }

  lemma DealtAs(t: Table, e0: Entries, placed: Entries, dealt: int)
    requires Valid(t) && |t.owned| > 0 && e0 == EntriesVec(t) && placed == Placed(t) && dealt == |Unassigned(t)|
    ensures |e0| == |placed| && (forall i :: 0 <= i < |e0| ==> e0[i] <= placed[i]) && dealt == Changed(e0, placed)
  {
    DealingOnlyAdds(t);
    DealtCount(t);
  }

  lemma DealingOnlyAdds(t: Table)
    requires |t.owned| > 0
    ensures forall i :: 0 <= i < |t.owned| ==> EntriesVec(t)[i] <= Placed(t)[i]
  {
  }

  lemma RevokedCount(t: Table, threshold: real)
    requires Valid(t) && |t.owned| > 0 && threshold >= 0.0
    ensures |Revoked(PlanOf(t, threshold))| == Deficit(Placed(t), LowerThreshold(t, threshold))
  {
    SimulatedIsSettled(t, threshold);
    ThresholdIsAffordable(t, threshold);
    SettledIsBalanced(Simulated(t, threshold), t.numberOfShards, LowerThreshold(t, threshold));
    PlanMovesFewest(t, threshold, Simulated(t, threshold));
  }

  // ---------------------------------------------------------------- stability

  lemma NothingToDeal(t: Table)
    requires |t.owned| > 0 && Unassigned(t) == {}
    ensures Deck(t) == [] && Placed(t) == EntriesVec(t)
  {
    assert |Deck(t)| == |Unassigned(t)| == 0;
    forall i | 0 <= i < |t.owned| ensures Placed(t)[i] == EntriesVec(t)[i] {
      assert Received(t, 0, i) == {};
    }
  }

  lemma NothingToMove(t: Table, threshold: real)
    requires Valid(t) && |t.owned| > 0 && Unassigned(t) == {}
    requires Settled(EntriesVec(t), LowerThreshold(t, threshold))
    ensures PlanOf(t, threshold) == Plan(map[], map[])
  {
    NothingToDeal(t);
    PlacedIsPartition(t);
    LevelOfSettled(Placed(t), 0, LowerThreshold(t, threshold));
    NothingRecorded(Pods(t), EntriesVec(t));
  }

  lemma NothingRecorded(ps: seq<Pod>, e: Entries)
    requires |ps| == |e| && Increasing(ps)
    ensures Gained(ps, e, e, e) == map[] && GivenUp(ps, e, e) == map[]
  {
  }

  lemma SameThreshold(t: Table, after: Table, threshold: real)
    requires |t.owned| > 0 && after.numberOfShards == t.numberOfShards && |after.owned| == |t.owned|
    ensures LowerThreshold(after, threshold) == LowerThreshold(t, threshold)
  {
  }

  lemma IdleAfter(t: Table, after: Table, threshold: real, e: Entries)
    requires |t.owned| > 0 && after.numberOfShards == t.numberOfShards
    requires Valid(after) && Unassigned(after) == {}
    requires Pods(after) == Pods(t) && EntriesVec(after) == e
    requires Settled(e, LowerThreshold(t, threshold))
    ensures PlanOf(after, threshold) == Plan(map[], map[])
  {
    assert |after.owned| == |Pods(after)| == |Pods(t)| == |t.owned|;
    SameThreshold(t, after, threshold);
    NothingToMove(after, threshold);
  }

  /** Planning again on the planned table does nothing, whatever the threshold. */
  lemma PlanningTwiceIsIdle(t: Table, threshold: real)
    requires Valid(t)
    ensures Valid(Planned(t, threshold))
    ensures PlanOf(Planned(t, threshold), threshold) == Plan(map[], map[])
  {
    PlanIsLegal(t, threshold);
    if |t.owned| == 0 {
      EmptyPlan(t);
    } else {
      PlanIsSimulation(t, threshold);
      SimulatedIsSettled(t, threshold);
      IdleAfter(t, Planned(t, threshold), threshold, Simulated(t, threshold));
    }
  }

  // ---------------------------------------------------------------- a fresh table

  /** The ids below n that leave remainder i on division by p. */
  ghost function Residues(n: nat, p: nat, i: nat): set<int>
    requires p > 0
  {
    set s | s in Below(n) && s % p == i
  }

  lemma SubsetSize(a: set<int>, b: set<int>)
    requires a <= b
    ensures |a| <= |b|
  {
    assert b == a + (b - a);
  }

  /** Any p consecutive ids contain one with remainder i. */
  lemma ResidueIn(from: nat, p: nat, i: nat) returns (s: nat)
    requires i < p
    ensures from <= s < from + p && s % p == i
  {
    var x := i - from;
    s := from + x % p;
    assert x == p * (x / p) + x % p;
    QuotientIs(s, -(x / p), p, i);
  }

  lemma OneMoreRound(n: nat, p: nat)
    requires 0 < p <= n
    ensures n / p == (n - p) / p + 1
  {
    var q, r := (n - p) / p, (n - p) % p;
    assert n - p == q * p + r;
    QuotientIs(n, q + 1, p, r);
  }

  lemma {:induction false} ManyResidues(n: nat, p: nat, i: nat)
    requires i < p
    ensures n / p <= |Residues(n, p, i)|
    decreases n
  {
    if n >= p {
      ManyResidues(n - p, p, i);
      OneMoreRound(n, p);
      var s := ResidueIn(n - p, p, i);
      var before, now := Residues(n - p, p, i), Residues(n, p, i);
      assert before + {s} <= now && s !in before;
      SubsetSize(before + {s}, now);
    } else {
      QuotientIs(n, 0, p, n);
    }
  }

  lemma FullRounds(j: nat, p: nat, q: nat)
    requires 0 < p && p * q <= j
    ensures (j - p * q) % p == j % p
  {
    var d := j - p * q;
    assert d == p * (d / p) + d % p;
    assert (d / p + q) * p == p * (d / p) + p * q;
    QuotientIs(j, d / p + q, p, d % p);
  }

  lemma FreshEntries(t: Table)
    requires |t.owned| > 0 && forall p :: p in t.owned ==> t.owned[p] == {}
    ensures forall i :: 0 <= i < |t.owned| ==> EntriesVec(t)[i] == {}
    ensures Valid(t) && Unassigned(t) == Below(t.numberOfShards)
  {
  }

  lemma {:induction false} AllEmpty(e: Entries, k: nat)
    requires k <= |e| && forall i :: 0 <= i < |e| ==> e[i] == {}
    ensures |EmptyAmong(e, k)| == k && forall i :: 0 <= i < k ==> EmptyAmong(e, k)[i] == i
  {
    if k > 0 { AllEmpty(e, k - 1); }
  }

  lemma FreshTurns(t: Table, targets: seq<nat>)
    requires |t.owned| > 0 && forall p :: p in t.owned ==> t.owned[p] == {}
    requires targets == EmptyPods(EntriesVec(t))
    ensures |targets| == |t.owned| && forall i :: 0 <= i < |targets| ==> targets[i] == i
  {
    FreshEntries(t);
    AllEmpty(EntriesVec(t), |t.owned|);
  }

  lemma FreshDeck(t: Table, j: nat)
    requires |t.owned| > 0 && forall p :: p in t.owned ==> t.owned[p] == {}
    requires j < t.numberOfShards
    ensures |Deck(t)| == t.numberOfShards && Deck(t)[j] == j
  {
    FreshEntries(t);
    AscendingBelow(t.numberOfShards, j);
  }

  /** Turns over all pods look the same before and after the first share, whichever ends it. */
  lemma FreshTurn(t: Table, targets: seq<nat>, share: nat, j: nat)
    requires |t.owned| > 0 && targets == EmptyPods(EntriesVec(t)) && share == Share(t)
    requires |targets| == |t.owned| && forall i :: 0 <= i < |targets| ==> targets[i] == i
    requires j < |Deck(t)|
    ensures Destination(t, j) == j % |t.owned|
  {
    if j >= share {
      FullRounds(j, |t.owned|, OptimalCount(t));
    }
  }

  /** On a fresh table shard j is dealt to the (j mod p)-th pod. */
  lemma FreshDestination(t: Table, j: nat)
    requires |t.owned| > 0 && forall p :: p in t.owned ==> t.owned[p] == {}
    requires j < t.numberOfShards
    ensures |Deck(t)| == t.numberOfShards && Deck(t)[j] == j
    ensures Destination(t, j) == j % |t.owned|
  {
    FreshDeck(t, j);
    FreshTurns(t, EmptyPods(EntriesVec(t)));
    FreshTurn(t, EmptyPods(EntriesVec(t)), Share(t), j);
  }

  lemma FreshPlaced(t: Table, i: nat)
    requires |t.owned| > 0 && forall p :: p in t.owned ==> t.owned[p] == {}
    requires i < |t.owned|
    ensures Placed(t)[i] == Residues(t.numberOfShards, |t.owned|, i)
  {
    FreshEntries(t);
    assert |Deck(t)| == t.numberOfShards;
    forall s | s in Placed(t)[i] ensures s in Residues(t.numberOfShards, |t.owned|, i) {
      var j := Origin(t, |Deck(t)|, i, s);
      FreshDestination(t, j);
    }
    forall s | s in Residues(t.numberOfShards, |t.owned|, i) ensures s in Placed(t)[i] {
      FreshDestination(t, s);
      assert s in Received(t, |Deck(t)|, i);
    }
  }

  lemma FreshIsSettled(t: Table, threshold: real, placed: Entries, lower: nat)
    requires |t.owned| > 0 && forall p :: p in t.owned ==> t.owned[p] == {}
    requires threshold >= 0.0 && placed == Placed(t) && lower == LowerThreshold(t, threshold)
    ensures Settled(placed, lower)
  {
    ThresholdIsAffordable(t, threshold);
    forall k | 0 <= k < |placed| ensures |placed[k]| >= lower {
      FreshPlaced(t, k);
      ManyResidues(t.numberOfShards, |t.owned|, k);
    }
  }

  /** On a fresh table with a non-negative threshold, shard s goes to the (s mod p)-th pod and nothing is taken away. */
  lemma FreshPlan(t: Table, threshold: real, i: nat)
    requires |t.owned| > 0 && forall p :: p in t.owned ==> t.owned[p] == {}
    requires threshold >= 0.0 && i < |t.owned|
    ensures Valid(t)
    ensures PlanOf(t, threshold).unassign == map[]
    ensures Held(PlanOf(t, threshold).assign, Pods(t)[i]) == Residues(t.numberOfShards, |t.owned|, i)
  {
    FreshEntries(t);
    var placed, lower := Placed(t), LowerThreshold(t, threshold);
    PlacedIsPartition(t);
    FreshIsSettled(t, threshold, placed, lower);
    LevelOfSettled(placed, 0, lower);
    FreshPlaced(t, i);
    PlanRecords(t, threshold);
    FreshUnassigns(Pods(t), placed);
  }

  lemma FreshUnassigns(ps: seq<Pod>, placed: Entries)
    requires |ps| == |placed| && Increasing(ps)
    ensures GivenUp(ps, placed, placed) == map[]
  {
  }
}
