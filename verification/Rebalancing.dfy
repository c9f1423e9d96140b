/**
 The rebalance plan as a function of the table: shards without an owner are dealt out in turn, `Level`
 moves the rest, and the plan is the difference between where shards start and where they end.
 */
module Rebalancing {
  import opened Ordered
  import opened Levelling
  import opened ShardModel

  // ---------------------------------------------------------------- specification

  function OptimalCount(t: Table): nat
    requires |t.owned| > 0
  {
    t.numberOfShards / |t.owned|
  }

  /** Conversion to an unsigned integer saturates at zero. */
  function LowerThreshold(t: Table, threshold: real): nat
    requires |t.owned| > 0
  {
    Pos((OptimalCount(t) as real * (1.0 - threshold)).Floor)
  }

  /** The positions of the empty pods among the first k, in order. */
  function EmptyAmong(e: Entries, k: nat): (r: seq<nat>)
    requires k <= |e|
    ensures forall i :: i in r <==> 0 <= i < k && e[i] == {}
    ensures forall a, b :: 0 <= a < b < |r| ==> r[a] < r[b]
  {
    if k == 0 then [] else
      var before := EmptyAmong(e, k - 1);
      assert forall a :: 0 <= a < |before| ==> before[a] in before;
      if e[k - 1] == {} then before + [k - 1] else before
  }

  function EmptyPods(e: Entries): seq<nat> { EmptyAmong(e, |e|) }

  /** How many of the unassigned shards go to the empty pods before all pods take part. */
  function FirstShare(count: nat, empties: nat, optimal: nat): nat {
    if empties == 0 then 0
    else if optimal == 0 || count <= empties * optimal then count
    else empties * optimal
  }

  /** The unassigned shards in the order they are dealt. */
  function Deck(t: Table): seq<ShardId> { Ascending(Unassigned(t)) }

  function Share(t: Table): nat
    requires |t.owned| > 0
  {
    FirstShare(|Deck(t)|, |EmptyPods(EntriesVec(t))|, OptimalCount(t))
  }

  /** The position of the pod that gets the j-th unassigned shard. */
  function Destination(t: Table, j: nat): (i: nat)
    requires |t.owned| > 0
    ensures i < |t.owned|
  {
    var empties := EmptyPods(EntriesVec(t));
    if j < Share(t) then
      assert empties[j % |empties|] in empties;
      empties[j % |empties|]
    else (j - Share(t)) % |t.owned|
  }

  /** What the i-th pod has received once c shards are dealt. */
  function Received(t: Table, c: nat, i: nat): set<ShardId>
    requires |t.owned| > 0 && c <= |Deck(t)|
  {
    set j | 0 <= j < c && Destination(t, j) == i :: Deck(t)[j]
  }

  function Dealt(t: Table, c: nat): (e: Entries)
    requires |t.owned| > 0 && c <= |Deck(t)|
    ensures |e| == |t.owned|
  {
    seq(|t.owned|, i requires 0 <= i < |t.owned| => EntriesVec(t)[i] + Received(t, c, i))
  }

  /** The shard sets once every unassigned shard is dealt. */
  function Placed(t: Table): (e: Entries)
    requires |t.owned| > 0
    ensures |e| == |t.owned|
  {
    Dealt(t, |Deck(t)|)
  }

  /** The shard sets the simulation ends with. */
  function Simulated(t: Table, threshold: real): Entries
    requires |t.owned| > 0 && Valid(t)
  {
    PlacedIsPartition(t);
    Level(Placed(t), 0, LowerThreshold(t, threshold))
  }

  /** Who gains what, when shards start at `start`, are placed at `placed` and end at `end`. */
  function Gained(ps: seq<Pod>, start: Entries, placed: Entries, end: Entries): Ownership
    requires |ps| == |start| == |placed| == |end| && Increasing(ps)
  {
    map i | 0 <= i < |ps| && (placed[i] != start[i] || end[i] != placed[i]) :: ps[i] := end[i] - start[i]
  }

  function GivenUp(ps: seq<Pod>, placed: Entries, end: Entries): Ownership
    requires |ps| == |placed| == |end| && Increasing(ps)
  {
    map i | 0 <= i < |ps| && !(placed[i] <= end[i]) :: ps[i] := placed[i] - end[i]
  }

  function PlanOf(t: Table, threshold: real): Plan
    requires Valid(t)
  {
    if |t.owned| == 0 then Plan(map[], map[]) else
      LevelledIsPartition(t, threshold);
      Plan(Gained(Pods(t), EntriesVec(t), Placed(t), Simulated(t, threshold)),
           GivenUp(Pods(t), Placed(t), Simulated(t, threshold)))
  }

  // ---------------------------------------------------------------- dealing

  lemma EntriesDisjoint(t: Table)
    requires Valid(t)
    ensures Disjoint(EntriesVec(t))
  {
    var e, ps := EntriesVec(t), Pods(t);
    forall i, j | 0 <= i < j < |e| ensures e[i] !! e[j] {
      assert ps[i] in ps && ps[j] in ps && ps[i] != ps[j];
    }
  }

  lemma DeckIsUnowned(t: Table, j: nat, i: nat)
    requires j < |Deck(t)| && i < |EntriesVec(t)|
    ensures Deck(t)[j] !in EntriesVec(t)[i]
  {
    assert Deck(t)[j] in Deck(t);
  }

  /** A shard comes from the j-th card of the deck, or was owned before (-1). */
  ghost predicate ComesFrom(t: Table, c: nat, i: nat, s: ShardId, j: int)
    requires |t.owned| > 0 && c <= |Deck(t)| && i < |t.owned|
  {
    if j == -1 then s in EntriesVec(t)[i] else 0 <= j < c && Destination(t, j) == i && Deck(t)[j] == s
  }

  lemma Origin(t: Table, c: nat, i: nat, s: ShardId) returns (j: int)
    requires |t.owned| > 0 && c <= |Deck(t)| && i < |t.owned| && s in Dealt(t, c)[i]
    ensures ComesFrom(t, c, i, s, j)
  {
    if s in EntriesVec(t)[i] {
      j := -1;
    } else {
      assert s in Received(t, c, i);
      j :| 0 <= j < c && Destination(t, j) == i && Deck(t)[j] == s;
    }
  }

  lemma OwnedOnce(t: Table, a: nat, b: nat, s: ShardId)
    requires Valid(t) && a < |t.owned| && b < |t.owned| && s in EntriesVec(t)[a] && s in EntriesVec(t)[b]
    ensures a == b
  {
    EntriesDisjoint(t);
  }

  lemma DealtOnce(t: Table, c: nat, a: nat, b: nat, s: ShardId, j: nat, k: nat)
    requires |t.owned| > 0 && c <= |Deck(t)| && a < |t.owned| && b < |t.owned|
    requires ComesFrom(t, c, a, s, j) && ComesFrom(t, c, b, s, k)
    ensures a == b
  {
    SamePlace(Deck(t), j, k);
  }

  lemma SamePlace(xs: seq<int>, j: nat, k: nat)
    requires Increasing(xs) && j < |xs| && k < |xs| && xs[j] == xs[k]
    ensures j == k
  {
  }

  lemma OneOrigin(t: Table, c: nat, a: nat, b: nat, s: ShardId, j: int, k: int)
    requires |t.owned| > 0 && Valid(t) && c <= |Deck(t)| && a < |t.owned| && b < |t.owned|
    requires ComesFrom(t, c, a, s, j) && ComesFrom(t, c, b, s, k)
    ensures a == b
  {
    if j == -1 && k == -1 {
      OwnedOnce(t, a, b, s);
    } else if j == -1 {
      DeckIsUnowned(t, k, a);
    } else if k == -1 {
      DeckIsUnowned(t, j, b);
    } else {
      DealtOnce(t, c, a, b, s, j, k);
    }
  }

  lemma OneHolder(t: Table, c: nat, a: nat, b: nat, s: ShardId)
    requires |t.owned| > 0 && Valid(t) && c <= |Deck(t)| && a < |t.owned| && b < |t.owned|
    requires s in Dealt(t, c)[a] && s in Dealt(t, c)[b]
    ensures a == b
  {
    var j := Origin(t, c, a, s);
    var k := Origin(t, c, b, s);
    OneOrigin(t, c, a, b, s, j, k);
  }

  lemma DealtDisjoint(t: Table, c: nat)
    requires |t.owned| > 0 && Valid(t) && c <= |Deck(t)|
    ensures Disjoint(Dealt(t, c))
  {
    var d := Dealt(t, c);
    forall a, b | 0 <= a < b < |d| ensures d[a] !! d[b] {
      forall s | s in d[a] ensures s !in d[b] {
        if s in d[b] { OneHolder(t, c, a, b, s); }
      }
    }
  }

  lemma PlacedInRange(t: Table, i: nat, s: ShardId)
    requires |t.owned| > 0 && Valid(t) && i < |t.owned| && s in Placed(t)[i]
    ensures s in Below(t.numberOfShards)
  {
    var j := Origin(t, |Deck(t)|, i, s);
    if j == -1 {
      assert Pods(t)[i] in Pods(t);
    } else {
      assert s in Deck(t);
    }
  }

  lemma DealtHas(t: Table, c: nat, j: nat)
    requires |t.owned| > 0 && j < c <= |Deck(t)|
    ensures Deck(t)[j] in Dealt(t, c)[Destination(t, j)]
  {
    assert Deck(t)[j] in Received(t, c, Destination(t, j));
  }

  lemma PlacedCovers(t: Table, s: ShardId) returns (i: nat)
    requires |t.owned| > 0 && s in Below(t.numberOfShards)
    ensures i < |t.owned| && s in Placed(t)[i]
  {
    if s in Unassigned(t) {
      assert s in Deck(t);
      var j :| 0 <= j < |Deck(t)| && Deck(t)[j] == s;
      i := Destination(t, j);
      DealtHas(t, |Deck(t)|, j);
    } else {
      var p :| p in t.owned && s in t.owned[p];
      i := PodAt(t, p);
      assert s in EntriesVec(t)[i];
    }
  }

  /** Dealing gives every shard exactly one owner. */
  lemma PlacedIsPartition(t: Table)
    requires |t.owned| > 0 && Valid(t)
    ensures Disjoint(Placed(t)) && Union(Placed(t)) == Below(t.numberOfShards)
    ensures forall i :: 0 <= i < |t.owned| ==> EntriesVec(t)[i] <= Placed(t)[i]
  {
    DealtDisjoint(t, |Deck(t)|);
    var e := Placed(t);
    forall s | s in Union(e) ensures s in Below(t.numberOfShards) {
      var i :| 0 <= i < |e| && s in e[i];
      PlacedInRange(t, i, s);
    }
    forall s | s in Below(t.numberOfShards) ensures s in Union(e) {
      var i := PlacedCovers(t, s);
      assert s in e[i];
    }
  }

  lemma LevelledIsPartition(t: Table, threshold: real)
    requires |t.owned| > 0 && Valid(t)
    ensures Reached(Placed(t), Simulated(t, threshold), LowerThreshold(t, threshold))
    ensures |Simulated(t, threshold)| == |t.owned|
  {
    PlacedIsPartition(t);
    ReachedStart(Placed(t), LowerThreshold(t, threshold));
    LevelReaches(Placed(t), Placed(t), 0, LowerThreshold(t, threshold));
  }

  // ---------------------------------------------------------------- reading the plan

  lemma GainedAt(ps: seq<Pod>, start: Entries, placed: Entries, end: Entries, i: nat)
    requires |ps| == |start| == |placed| == |end| && Increasing(ps) && i < |ps|
    ensures var g := Gained(ps, start, placed, end);
            && (ps[i] in g <==> placed[i] != start[i] || end[i] != placed[i])
            && Held(g, ps[i]) == end[i] - start[i]
  {
  }

  lemma GivenUpAt(ps: seq<Pod>, placed: Entries, end: Entries, i: nat)
    requires |ps| == |placed| == |end| && Increasing(ps) && i < |ps|
    ensures var u := GivenUp(ps, placed, end);
            && (ps[i] in u <==> !(placed[i] <= end[i]))
            && Held(u, ps[i]) == placed[i] - end[i]
  {
  }

  lemma PodAt(t: Table, p: Pod) returns (i: nat)
    requires p in t.owned
    ensures i < |t.owned| && Pods(t)[i] == p
  {
    assert p in Pods(t);
    i :| 0 <= i < |Pods(t)| && Pods(t)[i] == p;
  }

  /** A pod gains what it ends with beyond its start, and gives up what it was dealt or had and does not keep. */
  ghost predicate Records(t: Table, placed: Entries, end: Entries, plan: Plan) {
    && plan.assign.Keys <= t.owned.Keys && plan.unassign.Keys <= t.owned.Keys
    && |placed| == |end| == |t.owned|
    && (forall i :: 0 <= i < |end| ==> EntriesVec(t)[i] <= placed[i])
    && (forall i :: 0 <= i < |end| ==> Held(plan.assign, Pods(t)[i]) == end[i] - EntriesVec(t)[i])
    && (forall i :: 0 <= i < |end| ==> Held(plan.unassign, Pods(t)[i]) == placed[i] - end[i])
  }

  lemma PlanRecords(t: Table, threshold: real)
    requires Valid(t) && |t.owned| > 0
    ensures Records(t, Placed(t), Simulated(t, threshold), PlanOf(t, threshold))
  {
    PlacedIsPartition(t);
    LevelledIsPartition(t, threshold);
    DifferenceRecords(t, Placed(t), Simulated(t, threshold));
  }

  lemma DifferenceRecords(t: Table, placed: Entries, end: Entries)
    requires |placed| == |end| == |t.owned| && forall i :: 0 <= i < |end| ==> EntriesVec(t)[i] <= placed[i]
    ensures Records(t, placed, end, Plan(Gained(Pods(t), EntriesVec(t), placed, end), GivenUp(Pods(t), placed, end)))
  {
    var ps := Pods(t);
    assert forall i :: 0 <= i < |ps| ==> ps[i] in ps;
    forall i | 0 <= i < |end|
      ensures Held(Gained(ps, EntriesVec(t), placed, end), ps[i]) == end[i] - EntriesVec(t)[i]
      ensures Held(GivenUp(ps, placed, end), ps[i]) == placed[i] - end[i]
    {
      GainedAt(ps, EntriesVec(t), placed, end, i);
      GivenUpAt(ps, placed, end, i);
    }
  }

  lemma ForthAndBack(start: set<ShardId>, placed: set<ShardId>, end: set<ShardId>)
    requires start <= placed
    ensures (start + (end - start)) - (placed - end) == end
  {
  }

  /** A recorded plan has exactly the simulated effect. */
  lemma RecordedAt(t: Table, placed: Entries, end: Entries, plan: Plan, i: nat)
    requires Records(t, placed, end, plan) && i < |end|
    ensures Applied(t.owned, plan).Keys == t.owned.Keys
    ensures Pods(t)[i] in t.owned && Applied(t.owned, plan)[Pods(t)[i]] == end[i]
  {
    var p := Pods(t)[i];
    assert p in Pods(t);
    AppliedAt(t, plan, p);
    assert EntriesVec(t)[i] == t.owned[p];
    ForthAndBack(t.owned[p], placed[i], end[i]);
  }

  lemma RecordedEffect(t: Table, placed: Entries, end: Entries, plan: Plan, p: Pod) returns (i: nat)
    requires Records(t, placed, end, plan) && p in t.owned
    ensures i < |end| && Pods(t)[i] == p
    ensures p in Applied(t.owned, plan) && Applied(t.owned, plan)[p] == end[i]
  {
    i := PodAt(t, p);
    RecordedAt(t, placed, end, plan, i);
  }

  lemma RecordedApart(t: Table, placed: Entries, end: Entries, plan: Plan, p: Pod, q: Pod)
    requires Records(t, placed, end, plan) && Disjoint(placed) && Disjoint(end)
    requires p in t.owned && q in t.owned && p != q
    ensures p in Applied(t.owned, plan) && q in Applied(t.owned, plan)
    ensures Applied(t.owned, plan)[p] !! Applied(t.owned, plan)[q]
    ensures Held(plan.unassign, p) !! Held(plan.unassign, q)
  {
    var i := RecordedEffect(t, placed, end, plan, p);
    var j := RecordedEffect(t, placed, end, plan, q);
    assert end[i] !! end[j] && placed[i] !! placed[j];
    assert Held(plan.unassign, p) == placed[i] - end[i] && Held(plan.unassign, q) == placed[j] - end[j];
  }

  lemma RecordedWithin(t: Table, placed: Entries, end: Entries, plan: Plan, p: Pod)
    requires Records(t, placed, end, plan) && Union(end) == Below(t.numberOfShards)
    requires p in t.owned
    ensures p in Applied(t.owned, plan) && Applied(t.owned, plan)[p] <= Below(t.numberOfShards)
    ensures Held(plan.assign, p) !! Held(plan.unassign, p)
  {
    var i := RecordedEffect(t, placed, end, plan, p);
    assert forall s :: s in end[i] ==> s in Union(end);
    assert Held(plan.assign, p) == end[i] - EntriesVec(t)[i] && Held(plan.unassign, p) == placed[i] - end[i];
  }

  lemma RecordedCovers(t: Table, placed: Entries, end: Entries, plan: Plan, s: ShardId)
    requires Records(t, placed, end, plan) && Union(end) == Below(t.numberOfShards)
    requires s in Below(t.numberOfShards)
    ensures exists p :: p in Applied(t.owned, plan) && s in Applied(t.owned, plan)[p]
  {
    assert s in Union(end);
    var i :| 0 <= i < |end| && s in end[i];
    RecordedAt(t, placed, end, plan, i);
  }

  lemma RecordedIsLegal(t: Table, placed: Entries, end: Entries, plan: Plan)
    requires Valid(t) && Records(t, placed, end, plan)
    requires Disjoint(placed) && Disjoint(end) && Union(end) == Below(t.numberOfShards)
    ensures Legal(t, plan)
    ensures Unassigned(Table(t.numberOfShards, Applied(t.owned, plan))) == {}
  {
    var after := Applied(t.owned, plan);
    assert after.Keys == t.owned.Keys;
    forall p | p in t.owned
      ensures after[p] <= Below(t.numberOfShards) && Held(plan.assign, p) !! Held(plan.unassign, p)
    {
      RecordedWithin(t, placed, end, plan, p);
    }
    forall p, q | p in t.owned && q in t.owned && p != q
      ensures after[p] !! after[q] && Held(plan.unassign, p) !! Held(plan.unassign, q)
    {
      RecordedApart(t, placed, end, plan, p, q);
    }
    forall s | s in Below(t.numberOfShards) ensures s !in Unassigned(Table(t.numberOfShards, after)) {
      RecordedCovers(t, placed, end, plan, s);
    }
  }

  lemma RecordedEntries(t: Table, placed: Entries, end: Entries, plan: Plan, i: nat)
    requires Records(t, placed, end, plan) && i < |end|
    ensures var after := Table(t.numberOfShards, Applied(t.owned, plan));
            Pods(after) == Pods(t) && |EntriesVec(after)| == |end| && EntriesVec(after)[i] == end[i]
  {
    RecordedAt(t, placed, end, plan, i);
    SamePodsEntry(t, Table(t.numberOfShards, Applied(t.owned, plan)), i);
  }

  lemma SamePodsEntry(t: Table, after: Table, i: nat)
    requires after.owned.Keys == t.owned.Keys && i < |Pods(t)|
    ensures Pods(after) == Pods(t) && |EntriesVec(after)| == |t.owned|
    ensures Pods(t)[i] in after.owned && EntriesVec(after)[i] == after.owned[Pods(t)[i]]
  {
  }

  lemma EmptyPlan(t: Table)
    ensures Applied(t.owned, Plan(map[], map[])) == t.owned
  {
  }

  /** Planning keeps the pods, leaves no shard without an owner or with two, and can be carried out. */
  lemma PlanIsLegal(t: Table, threshold: real)
    requires Valid(t)
    ensures Legal(t, PlanOf(t, threshold))
    ensures |t.owned| > 0 ==> Unassigned(Table(t.numberOfShards, Applied(t.owned, PlanOf(t, threshold)))) == {}
  {
    if |t.owned| == 0 {
      EmptyPlan(t);
    } else {
      PlacedIsPartition(t);
      LevelledIsPartition(t, threshold);
      PlanRecords(t, threshold);
      RecordedIsLegal(t, Placed(t), Simulated(t, threshold), PlanOf(t, threshold));
    }
  }

  /** The recorded plan turns the table into the simulation's final one, whatever the threshold. */
  lemma PlanIsSimulation(t: Table, threshold: real)
    requires Valid(t) && |t.owned| > 0
    ensures var after := Table(t.numberOfShards, Applied(t.owned, PlanOf(t, threshold)));
            Pods(after) == Pods(t) && EntriesVec(after) == Simulated(t, threshold)
  {
    PlanRecords(t, threshold);
    RecordedTable(t, Placed(t), Simulated(t, threshold), PlanOf(t, threshold));
  }

  lemma RecordedTable(t: Table, placed: Entries, end: Entries, plan: Plan)
    requires Records(t, placed, end, plan) && |t.owned| > 0
    ensures var after := Table(t.numberOfShards, Applied(t.owned, plan));
            Pods(after) == Pods(t) && EntriesVec(after) == end
  {
    forall i | 0 <= i < |end|
      ensures var after := Table(t.numberOfShards, Applied(t.owned, plan));
              Pods(after) == Pods(t) && |EntriesVec(after)| == |end| && EntriesVec(after)[i] == end[i]
    {
      RecordedEntries(t, placed, end, plan, i);
    }
    RecordedEntries(t, placed, end, plan, 0);
  }
}
