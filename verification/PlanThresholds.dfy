/** What the threshold asks of a pod, in terms of the table alone. */
module PlanThresholds {
  import opened Ordered
  import opened Levelling
  import opened ShardModel
  import opened Rebalancing
  import opened PlanProperties

  /** A size is enough if it is above the rounded share less the threshold and one. */
  predicate Enough(t: Table, threshold: real, size: nat)
    requires |t.owned| > 0
  {
    size as real > (t.numberOfShards / |t.owned|) as real * (1.0 - threshold) - 1.0
  }

  /** Every pod has enough. */
  ghost predicate AllEnough(t: Table, threshold: real, owned: Ownership)
    requires |t.owned| > 0
  {
    forall p :: p in owned ==> Enough(t, threshold, |owned[p]|)
  }

  /** No pod could give a shard away and still have enough. */
  ghost predicate NoneToSpare(t: Table, threshold: real)
    requires |t.owned| > 0
  {
    forall p :: p in t.owned && t.owned[p] != {} ==> !Enough(t, threshold, |t.owned[p]| - 1)
  }

  lemma FloorIs(x: real, k: nat)
    ensures k >= Pos(x.Floor) <==> k as real > x - 1.0
  {
    assert x.Floor as real <= x < x.Floor as real + 1.0;
    if k >= x.Floor {
      assert k as real >= x.Floor as real;
    } else {
      assert k as real <= (x.Floor - 1) as real;
    }
  }

  lemma CeilingIs(x: real, k: nat)
    ensures k >= Pos(-(-x).Floor) <==> k as real >= x
  {
    var c := -(-x).Floor;
    assert (c - 1) as real < x <= c as real;
    if k >= c {
      assert k as real >= c as real;
    } else {
      assert k as real <= (c - 1) as real;
    }
  }

  /** The lower threshold is the least number that is enough. */
  lemma LowerThresholdIs(t: Table, threshold: real, k: nat)
    requires |t.owned| > 0
    ensures k >= LowerThreshold(t, threshold) <==> Enough(t, threshold, k)
  {
    FloorIs(OptimalCount(t) as real * (1.0 - threshold), k);
  }

  /** The upper threshold is the least number at or above the share plus the threshold. */
  lemma UpperThresholdIs(t: Table, threshold: real, k: nat)
    requires |t.owned| > 0
    ensures k >= UpperThreshold(t, threshold) <==> k as real >= (t.numberOfShards / |t.owned|) as real * (1.0 + threshold)
  {
    CeilingIs(OptimalCount(t) as real * (1.0 + threshold), k);
  }

  /** With a threshold of zero or more every pod ends with enough. */
  lemma PlanIsEnough(t: Table, threshold: real)
    requires Valid(t) && |t.owned| > 0 && threshold >= 0.0
    ensures AllEnough(t, threshold, Planned(t, threshold).owned)
  {
    PlanIsLegal(t, threshold);
    forall p | p in t.owned ensures p in Planned(t, threshold).owned && Enough(t, threshold, |Planned(t, threshold).owned[p]|) {
      PlanBalances(t, threshold, p);
      LowerThresholdIs(t, threshold, |Planned(t, threshold).owned[p]|);
    }
  }

  /** Whatever the threshold, all pods end with enough exactly when there are shards enough for that. */
  lemma PlanIsEnoughIff(t: Table, threshold: real)
    requires Valid(t) && |t.owned| > 0
    ensures AllEnough(t, threshold, Planned(t, threshold).owned)
            <==> exists k: nat :: Enough(t, threshold, k) && |t.owned| * k <= t.numberOfShards
  {
    var after, lower := Planned(t, threshold).owned, LowerThreshold(t, threshold);
    PlanIsLegal(t, threshold);
    BalanceIsExact(t, threshold);
    forall p | p in t.owned ensures |Held(after, p)| >= lower <==> Enough(t, threshold, |Held(after, p)|) {
      LowerThresholdIs(t, threshold, |Held(after, p)|);
    }
    AffordableIff(t, threshold, lower);
  }

  lemma AffordableIff(t: Table, threshold: real, lower: nat)
    requires |t.owned| > 0 && lower == LowerThreshold(t, threshold)
    ensures |t.owned| * lower <= t.numberOfShards
            <==> exists k: nat :: Enough(t, threshold, k) && |t.owned| * k <= t.numberOfShards
  {
    LowerThresholdIs(t, threshold, lower);
    if exists k: nat :: Enough(t, threshold, k) && |t.owned| * k <= t.numberOfShards {
      var k: nat :| Enough(t, threshold, k) && |t.owned| * k <= t.numberOfShards;
      LowerThresholdIs(t, threshold, k);
      assert |t.owned| * lower <= |t.owned| * k;
    }
  }

  // ---------------------------------------------------------------- when there is nothing to do

  lemma AllAbove(t: Table, threshold: real, lower: nat)
    requires |t.owned| > 0 && lower == LowerThreshold(t, threshold)
    ensures AllEnough(t, threshold, t.owned) <==> forall i :: 0 <= i < |t.owned| ==> |EntriesVec(t)[i]| >= lower
  {
    forall p | p in t.owned ensures Enough(t, threshold, |t.owned[p]|) <==> |t.owned[p]| >= lower {
      LowerThresholdIs(t, threshold, |t.owned[p]|);
    }
    EachPod(t, s => s >= lower);
  }

  lemma NoneAbove(t: Table, threshold: real, lower: nat)
    requires |t.owned| > 0 && lower == LowerThreshold(t, threshold)
    ensures NoneToSpare(t, threshold) <==> forall i :: 0 <= i < |t.owned| ==> |EntriesVec(t)[i]| <= lower
  {
    forall p | p in t.owned && t.owned[p] != {} ensures Enough(t, threshold, |t.owned[p]| - 1) <==> |t.owned[p]| > lower {
      LowerThresholdIs(t, threshold, |t.owned[p]| - 1);
    }
    EachPod(t, s => s <= lower);
  }

  /** What holds of the size of each pod's entry holds of each entry in order. */
  lemma EachPod(t: Table, holds: nat -> bool)
    ensures (forall p :: p in t.owned ==> holds(|t.owned[p]|)) <==> forall i :: 0 <= i < |t.owned| ==> holds(|EntriesVec(t)[i]|)
  {
    var e, ps := EntriesVec(t), Pods(t);
    if forall p :: p in t.owned ==> holds(|t.owned[p]|) {
      forall i | 0 <= i < |e| ensures holds(|e[i]|) { assert ps[i] in ps; }
    }
    if forall i :: 0 <= i < |e| ==> holds(|e[i]|) {
      forall p | p in t.owned ensures holds(|t.owned[p]|) {
        var i := PodAt(t, p);
        assert holds(|e[i]|);
      }
    }
  }

  lemma SameAll(start: set<ShardId>, placed: set<ShardId>, end: set<ShardId>)
    requires start <= placed && end - start == {} && placed - end == {}
    ensures start == placed == end
  {
    WithinIfNoneLeft(placed, end);
    WithinIfNoneLeft(end, start);
  }

  lemma WithinIfNoneLeft(a: set<ShardId>, b: set<ShardId>)
    requires a - b == {}
    ensures a <= b
  {
    forall x | x in a ensures x in b { assert x !in a - b; }
  }

  lemma NothingChangesAt(t: Table, placed: Entries, end: Entries, plan: Plan, i: nat)
    requires Records(t, placed, end, plan) && plan == Plan(map[], map[]) && i < |end|
    ensures EntriesVec(t)[i] == placed[i] == end[i]
  {
    assert Held(plan.assign, Pods(t)[i]) == {} && Held(plan.unassign, Pods(t)[i]) == {};
    SameAll(EntriesVec(t)[i], placed[i], end[i]);
  }

  lemma NothingChanges(t: Table, placed: Entries, end: Entries, plan: Plan)
    requires Records(t, placed, end, plan) && plan == Plan(map[], map[])
    ensures EntriesVec(t) == placed == end
  {
    var e := EntriesVec(t);
    forall i | 0 <= i < |end| ensures e[i] == placed[i] == end[i] { NothingChangesAt(t, placed, end, plan, i); }
  }

  lemma AllOwned(t: Table)
    requires |t.owned| > 0 && Union(EntriesVec(t)) == Below(t.numberOfShards)
    ensures Unassigned(t) == {}
  {
    var e := EntriesVec(t);
    forall s | s in Below(t.numberOfShards) ensures s !in Unassigned(t) {
      assert s in Union(e);
      var i := HolderOf(e, s);
      assert Pods(t)[i] in Pods(t);
    }
  }

  lemma IdleIsSettled(t: Table, threshold: real)
    requires Valid(t) && |t.owned| > 0 && PlanOf(t, threshold) == Plan(map[], map[])
    ensures Unassigned(t) == {} && Settled(EntriesVec(t), LowerThreshold(t, threshold))
  {
    PlanRecords(t, threshold);
    NothingChanges(t, Placed(t), Simulated(t, threshold), PlanOf(t, threshold));
    SimulatedIsSettled(t, threshold);
    AllOwned(t);
  }

  /**
   * The plan is empty exactly when every shard has an owner and either every pod has enough or none could give a shard
   * away and still have enough.
   */
  lemma PlanIsEmptyIff(t: Table, threshold: real)
    requires Valid(t) && |t.owned| > 0
    ensures PlanOf(t, threshold) == Plan(map[], map[])
            <==> Unassigned(t) == {} && (AllEnough(t, threshold, t.owned) || NoneToSpare(t, threshold))
  {
    var lower := LowerThreshold(t, threshold);
    AllAbove(t, threshold, lower);
    NoneAbove(t, threshold, lower);
    EmptyIffSettled(t, threshold);
  }

  lemma EmptyIffSettled(t: Table, threshold: real)
    requires Valid(t) && |t.owned| > 0
    ensures PlanOf(t, threshold) == Plan(map[], map[])
            <==> Unassigned(t) == {} && Settled(EntriesVec(t), LowerThreshold(t, threshold))
  {
    if PlanOf(t, threshold) == Plan(map[], map[]) {
      IdleIsSettled(t, threshold);
    }
    if Unassigned(t) == {} && Settled(EntriesVec(t), LowerThreshold(t, threshold)) {
      NothingToMove(t, threshold);
    }
  }
}
