/**
 A late crash after which agreement fails: with one of three pods found unhealthy, the new plan keeps a shard at its old
 owner that another pod has already received.
 */
module LateCrashExample {
  import opened Ordered
  import opened Levelling
  import opened ShardModel
  import opened Rebalancing
  import opened PlanProperties
  import opened PlanExamples
  import opened ShardManagement
  import opened Protocol
  import opened Recovery
  import opened LateCrashes
  import opened LateCrashRuns

  // ---------------------------------------------------------------- the two tables

  /** The four shards, in two pairs. */
  ghost predicate Pairs(t: Table, a: set<ShardId>, b: set<ShardId>) {
    && t.numberOfShards == 4 && a !! b && |a| == 2 && |b| == 2
    && forall s :: s in Below(t.numberOfShards) <==> s in a || s in b
  }

  /** Pods 0 and 1 have two shards each and pod 2 none: it is to get one from pod 1. */
  ghost predicate IsBefore(t: Table, a: set<ShardId>, b: set<ShardId>) { Pairs(t, a, b) && Shares(t, a, b, {}) }

  /** Without pod 0, whose shards are for pod 2, pod 1 keeps both of its own. */
  ghost predicate IsAfter(t: Table, a: set<ShardId>, b: set<ShardId>) {
    && Pairs(t, a, b)
    && t.owned.Keys == {1, 2} && t.owned[1] == b && t.owned[2] == {}
  }

  lemma BeforeIsValid(t: Table, a: set<ShardId>, b: set<ShardId>)
    requires IsBefore(t, a, b)
    ensures Valid(t) && |t.owned| == 3 && Unassigned(t) == {}
  {
    SharesAreExclusive(t, a, b, {});
    SharesAreAll(t, a, b, {}, Below(t.numberOfShards));
  }

  lemma BeforeThreshold(t: Table)
    requires t.numberOfShards == 4 && |t.owned| == 3
    ensures LowerThreshold(t, 0.0) == 1
  {
    assert OptimalCount(t) == 1;
  }

  lemma AfterIsValid(t: Table, a: set<ShardId>, b: set<ShardId>)
    requires IsAfter(t, a, b)
    ensures Valid(t) && |t.owned| == 2 && Unassigned(t) == a
  {
    assert |t.owned| == |t.owned.Keys|;
    forall p | p in t.owned ensures t.owned[p] <= Below(t.numberOfShards) { assert p in {1, 2}; }
    forall p, q | p in t.owned && q in t.owned && p != q ensures t.owned[p] !! t.owned[q] {
      assert p in {1, 2} && q in {1, 2};
    }
    forall s ensures s in Unassigned(t) <==> s in a {
      assert s in b ==> s in t.owned[1];
      assert forall p :: p in t.owned ==> t.owned[p] <= b by {
        forall p | p in t.owned ensures t.owned[p] <= b { assert p in {1, 2}; }
      }
    }
  }

  lemma AfterThreshold(t: Table)
    requires t.numberOfShards == 4 && |t.owned| == 2
    ensures LowerThreshold(t, 0.0) == 2 && OptimalCount(t) == 2
  {
    assert OptimalCount(t) == 2;
  }

  lemma ThreeInOrder(xs: seq<int>, s: set<int>)
    requires Increasing(xs) && |xs| == |s| && (forall x :: x in xs <==> x in s) && s == {0, 1, 2}
    ensures xs == [0, 1, 2]
  {
    IdsInOrder(xs, 3, 0);
    IdsInOrder(xs, 3, 1);
    IdsInOrder(xs, 3, 2);
  }

  lemma TwoInOrder(xs: seq<int>, s: set<int>)
    requires Increasing(xs) && |xs| == |s| && (forall x :: x in xs <==> x in s) && s == {1, 2}
    ensures xs == [1, 2]
  {
    assert xs[0] in xs && xs[1] in xs;
  }

  lemma EntryIs(t: Table, i: nat)
    requires i < |Pods(t)|
    ensures |EntriesVec(t)| == |Pods(t)| && Pods(t)[i] in t.owned && EntriesVec(t)[i] == t.owned[Pods(t)[i]]
  {
  }

  lemma BeforeEntries(t: Table, a: set<ShardId>, b: set<ShardId>)
    requires IsBefore(t, a, b)
    ensures Pods(t) == [0, 1, 2] && EntriesVec(t) == [a, b, {}]
  {
    assert |t.owned| == |t.owned.Keys|;
    ThreeInOrder(Pods(t), t.owned.Keys);
    EntryIs(t, 0);
    EntryIs(t, 1);
    EntryIs(t, 2);
  }

  lemma AfterEntries(t: Table, a: set<ShardId>, b: set<ShardId>)
    requires IsAfter(t, a, b)
    ensures Pods(t) == [1, 2] && EntriesVec(t) == [b, {}]
  {
    assert |t.owned| == |t.owned.Keys|;
    TwoInOrder(Pods(t), t.owned.Keys);
    EntryIs(t, 0);
    EntryIs(t, 1);
  }

  // ---------------------------------------------------------------- the first plan

  ghost predicate Uneven(e: Entries, a: set<ShardId>, b: set<ShardId>) {
    e == [a, b, {}] && a !! b && |a| == 2 && |b| == 2
  }

  lemma FirstSource(e: Entries, a: set<ShardId>, b: set<ShardId>)
    requires Uneven(e, a, b)
    ensures Source(e, 2, 1) == 1
  {
    assert MayGive(e, 0, 2, 1) && MayGive(e, 1, 2, 1) && !MayGive(e, 2, 2, 1);
  }

  lemma FirstMove(e: Entries, a: set<ShardId>, b: set<ShardId>)
    requires Uneven(e, a, b)
    ensures Disjoint(e) && b != {} && MoveFirst(e, 1, 2) == [a, b - {Min(b)}, {Min(b)}]
  {
    assert b != {} && e[1] == b && e[2] == {};
    assert {} + {Min(b)} == {Min(b)};
    var e1 := MoveFirst(e, 1, 2);
    assert e1[0] == a && e1[1] == b - {Min(b)} && e1[2] == {Min(b)};
  }

  lemma Passes(e: Entries, target: nat)
    requires Disjoint(e) && target < |e| && |e[target]| >= 1
    ensures Level(e, target, 1) == Level(e, target + 1, 1)
  {
  }

  lemma LevelledBefore(e: Entries, a: set<ShardId>, b: set<ShardId>)
    requires Uneven(e, a, b)
    ensures b != {} && Disjoint(e) && Level(e, 0, 1) == [a, b - {Min(b)}, {Min(b)}]
  {
    FirstMove(e, a, b);
    FirstSource(e, a, b);
    var e1 := MoveFirst(e, 1, 2);
    MoveFacts(e, 1, 2);
    Passes(e, 0);
    Passes(e, 1);
    assert Level(e, 2, 1) == Level(e1, 2, 1);
    Passes(e1, 2);
    assert Level(e1, 3, 1) == e1;
  }

  lemma FirstRecord(ps: seq<Pod>, e: Entries, end: Entries, a: set<ShardId>, b: set<ShardId>, x: ShardId)
    requires ps == [0, 1, 2] && e == [a, b, {}] && end == [a, b - {x}, {x}] && x in b
    ensures GivenUp(ps, e, end) == map[1 := {x}]
    ensures 2 in Gained(ps, e, e, end) && Held(Gained(ps, e, e, end), 2) == {x}
  {
    GivenUpAt(ps, e, end, 0);
    GivenUpAt(ps, e, end, 1);
    GivenUpAt(ps, e, end, 2);
    GainedAt(ps, e, e, end, 2);
    var u := GivenUp(ps, e, end);
    assert b - (b - {x}) == {x} && {x} - {} == {x};
    forall p | p in u ensures p == 1 {
      assert p in ps;
    }
    assert u.Keys == {1} && u[1] == {x};
  }

  lemma FirstPlan(t: Table, a: set<ShardId>, b: set<ShardId>, x: ShardId)
    requires IsBefore(t, a, b) && b != {} && x == Min(b)
    ensures Valid(t)
    ensures PlanOf(t, 0.0).unassign == map[1 := {x}]
    ensures 2 in PlanOf(t, 0.0).assign && Held(PlanOf(t, 0.0).assign, 2) == {x}
  {
    BeforeIsValid(t, a, b);
    BeforeThreshold(t);
    BeforeEntries(t, a, b);
    NothingToDeal(t);
    LevelledBefore(EntriesVec(t), a, b);
    FirstRecord(Pods(t), EntriesVec(t), Simulated(t, 0.0), a, b, x);
  }

  // ---------------------------------------------------------------- the second plan

  lemma OnlyEmpty(e: Entries, b: set<ShardId>)
    requires e == [b, {}] && b != {}
    ensures EmptyPods(e) == [1]
  {
    assert EmptyAmong(e, 0) == [];
    assert EmptyAmong(e, 1) == [];
  }

  lemma WholeShare(t: Table, empties: seq<nat>, j: nat)
    requires |t.owned| > 0 && OptimalCount(t) == 2 && empties == EmptyPods(EntriesVec(t)) && empties == [1]
    requires |Deck(t)| == 2 && j < 2
    ensures Destination(t, j) == 1
  {
    assert Share(t) == 2;
    assert j % 1 == 0;
  }

  lemma DealtToLast(t: Table, a: set<ShardId>, b: set<ShardId>, j: nat)
    requires IsAfter(t, a, b) && j < 2
    ensures |t.owned| == 2 && |Deck(t)| == 2 && Destination(t, j) == 1
  {
    AfterIsValid(t, a, b);
    AfterThreshold(t);
    AfterEntries(t, a, b);
    OnlyEmpty(EntriesVec(t), b);
    WholeShare(t, EmptyPods(EntriesVec(t)), j);
  }

  lemma TwoSettled(placed: Entries, b: set<ShardId>, x: ShardId, y: ShardId)
    requires |placed| == 2 && b <= placed[0] && |b| == 2 && x in placed[1] && y in placed[1] && x != y
    ensures Settled(placed, 2)
  {
    SubsetSize(b, placed[0]);
    SubsetSize({x, y}, placed[1]);
  }

  lemma AfterIsSettled(t: Table, a: set<ShardId>, b: set<ShardId>)
    requires IsAfter(t, a, b)
    ensures |t.owned| == 2 && Settled(Placed(t), 2)
  {
    AfterIsValid(t, a, b);
    AfterEntries(t, a, b);
    DealtToLast(t, a, b, 0);
    DealtToLast(t, a, b, 1);
    PlacedIsPartition(t);
    DealtHas(t, 2, 0);
    DealtHas(t, 2, 1);
    TwoSettled(Placed(t), b, Deck(t)[0], Deck(t)[1]);
  }

  lemma SecondPlan(t: Table, a: set<ShardId>, b: set<ShardId>)
    requires IsAfter(t, a, b)
    ensures Valid(t) && PlanOf(t, 0.0).unassign == map[]
  {
    AfterIsValid(t, a, b);
    AfterThreshold(t);
    PlacedIsPartition(t);
    AfterIsSettled(t, a, b);
    LevelOfSettled(Placed(t), 0, 2);
    FreshUnassigns(Pods(t), Placed(t));
  }

  // ---------------------------------------------------------------- the two plans do not agree

  lemma FirstWants(t: Table, a: set<ShardId>, b: set<ShardId>, x: ShardId)
    requires IsBefore(t, a, b) && b != {} && x == Min(b)
    ensures Valid(t) && x in Held(Wanted(0.0, t), 2) && t.owned[2] == {}
  {
    FirstPlan(t, a, b, x);
    WantedPods(0.0, t);
  }

  lemma SecondKeeps(n: Table, a: set<ShardId>, b: set<ShardId>, x: ShardId)
    requires IsAfter(n, a, b) && x in b
    ensures Valid(n) && !Covers(0.0, n, 2, {x})
  {
    SecondPlan(n, a, b);
    WantedPods(0.0, n);
    assert x in Held(Wanted(0.0, n), 1);
    WantedApart(0.0, n, 1, 2);
  }

  lemma CoversLess(threshold: real, n: Table, p: Pod, some: set<ShardId>, all: set<ShardId>)
    requires Valid(n) && Covers(threshold, n, p, all) && some <= all
    ensures Covers(threshold, n, p, some)
  {
  }

  lemma WithoutFirstPod(t: Table, a: set<ShardId>, b: set<ShardId>, n: Table)
    requires IsBefore(t, a, b) && n == WithChanges(t, Changes({1, 2}, {0}))
    ensures IsAfter(n, a, b)
  {
    assert n.owned.Keys == {1, 2};
  }

  lemma DoNotAgree(t: Table, a: set<ShardId>, b: set<ShardId>, c: Changes)
    requires IsBefore(t, a, b) && b != {} && c == Changes({1, 2}, {0})
    ensures Valid(t) && !Agrees(0.0, MayHold(0.0, t), t, c)
  {
    var x, n := Min(b), WithChanges(t, c);
    FirstWants(t, a, b, x);
    WithoutFirstPod(t, a, b, n);
    SecondKeeps(n, a, b, x);
    if Agrees(0.0, MayHold(0.0, t), t, c) {
      CoversLess(0.0, n, 2, {x}, Held(MayHold(0.0, t), 2));
    }
  }

  lemma Instance(a: set<ShardId>, b: set<ShardId>) returns (t: Table)
    requires a == {2, 3} && b == {0, 1}
    ensures t == Table(4, map[0 := a, 1 := b, 2 := {}]) && IsBefore(t, a, b)
  {
    t := Table(4, map[0 := a, 1 := b, 2 := {}]);
    assert t.owned.Keys == {0, 1, 2};
  }

  lemma AreChanges(t: Table, c: Changes)
    requires t.owned.Keys == {0, 1, 2} && c == Changes({1, 2}, {0})
    ensures c.added !! c.removed && t.owned.Keys <= c.added + c.removed && c.removed * t.owned.Keys == {0}
  {
  }

  lemma StillDoNotAgree(threshold: real, t: Table, a: set<ShardId>, b: set<ShardId>, c: Changes)
    requires threshold == 0.0 && IsBefore(t, a, b) && b != {} && c == Changes({1, 2}, {0})
    ensures Valid(t) && !Agrees(threshold, MayHold(threshold, t), t, c)
  {
    DoNotAgree(t, a, b, c);
  }

  lemma OverlapAt(threshold: real, t: Table, c: Changes, gone: set<Pod>) returns (states: seq<State>, steps: seq<Step>, k: nat)
    requires Valid(t) && !Agrees(threshold, MayHold(threshold, t), t, c)
    requires c.added !! c.removed && t.owned.Keys <= c.added + c.removed && c.removed * t.owned.Keys == gone
    ensures OneLateCrash(threshold, t, c, states, steps, k) && steps[k] == Restart(gone) && !ExclusivelyHeld(states[|steps|])
  {
    states, steps, k := OverlapIfDisagreed(threshold, t, c);
  }

  lemma OverlapOf(threshold: real, t: Table, a: set<ShardId>, b: set<ShardId>, c: Changes, gone: set<Pod>)
    returns (states: seq<State>, steps: seq<Step>, k: nat)
    requires threshold == 0.0 && IsBefore(t, a, b) && b != {} && c == Changes({1, 2}, {0}) && gone == {0}
    ensures OneLateCrash(threshold, t, c, states, steps, k) && steps[k] == Restart(gone) && !ExclusivelyHeld(states[|steps|])
  {
    AreChanges(t, c);
    StillDoNotAgree(threshold, t, a, b, c);
    states, steps, k := OverlapAt(threshold, t, c, gone);
  }

  lemma Numbers() returns (threshold: real, a: set<ShardId>, b: set<ShardId>, gone: set<Pod>)
    ensures threshold == 0.0 && a == {2, 3} && b == {0, 1} && gone == {0}
  {
    threshold, a, b, gone := 0.0, {2, 3}, {0, 1}, {0};
  }

  /** Pod 0 is found unhealthy, and the others are sent what they own. */
  lemma OnePodGone(gone: set<Pod>) returns (c: Changes)
    ensures c == Changes({1, 2}, gone)
  {
    c := Changes({1, 2}, gone);
  }

  /**
   * Pods 0 and 1 have two of four shards each and pod 2 none; the manager stops after pod 2 has received one, and pod 0 is
   * found unhealthy. Without any failed revoke two registered pods end up holding a shard.
   */
  lemma OverlapAfterLateCrash()
    returns (threshold: real, t: Table, c: Changes, gone: set<Pod>, states: seq<State>, steps: seq<Step>, k: nat)
    ensures threshold == 0.0 && t == Table(4, map[0 := {2, 3}, 1 := {0, 1}, 2 := {}])
    ensures c == Changes({1, 2}, gone) && gone == {0}
    ensures OneLateCrash(threshold, t, c, states, steps, k) && steps[k] == Restart(gone) && !ExclusivelyHeld(states[|steps|])
  {
    var a, b;
    threshold, a, b, gone := Numbers();
    t := Instance(a, b);
    c := OnePodGone(gone);
    states, steps, k := OverlapOf(threshold, t, a, b, c, gone);
  }
}
