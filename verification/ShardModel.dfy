/**
 The routing table and the rebalance plan. Values (Table, Plan) say what the mutable classes hold;
 every method is proved against a function on these values.
 */
module ShardModel {
  import opened Ordered

  // The source orders pods by host, address, port and name, and shard ids by value; only the order matters here.
  type Pod = int
  type ShardId = int
  type Ownership = map<Pod, set<ShardId>>

  datatype Table = Table(numberOfShards: nat, owned: Ownership)

  datatype Plan = Plan(assign: Ownership, unassign: Ownership)

  /** What a map of shard sets holds for a pod; nothing if it has no entry. */
  function Held(m: Ownership, p: Pod): set<ShardId> {
    if p in m then m[p] else {}
  }

  function Put(m: Ownership, p: Pod, s: ShardId): Ownership { m[p := Held(m, p) + {s}] }

  function Drop(m: Ownership, p: Pod, s: ShardId): Ownership { m[p := Held(m, p) - {s}] }

  /** No shard has two owners. */
  ghost predicate Exclusive(m: Ownership) {
    forall p, q :: p in m && q in m && p != q ==> m[p] !! m[q]
  }

  /** Every id is in range and no shard has two owners. */
  ghost predicate Valid(t: Table) {
    && (forall p :: p in t.owned ==> t.owned[p] <= Below(t.numberOfShards))
    && Exclusive(t.owned)
  }

  function Unassigned(t: Table): (r: set<ShardId>) {
    set s | s in Below(t.numberOfShards) && forall p :: p in t.owned ==> s !in t.owned[p]
  }

  /** The table after a plan: a pod keeps what it has and gains, except what it gives up. */
  function Applied(owned: Ownership, plan: Plan): Ownership {
    map p | p in owned.Keys + plan.assign.Keys + plan.unassign.Keys ::
      (Held(owned, p) + Held(plan.assign, p)) - Held(plan.unassign, p)
  }

  /** Pods in their order, as the table's BTreeMap iterates them. */
  function Pods(t: Table): (ps: seq<Pod>)
    ensures |ps| == |t.owned|
    ensures forall p :: p in ps <==> p in t.owned
    ensures Increasing(ps)
  {
    Ascending(t.owned.Keys)
  }

  /** The shard sets in pod order. */
  function EntriesVec(t: Table): (e: seq<set<ShardId>>)
    ensures |e| == |Pods(t)|
    ensures forall i :: 0 <= i < |e| ==> Pods(t)[i] in t.owned && e[i] == t.owned[Pods(t)[i]]
  {
    var ps := Pods(t);
    assert forall i :: 0 <= i < |ps| ==> ps[i] in ps;
    seq(|ps|, i requires 0 <= i < |ps| => t.owned[ps[i]])
  }

  class Assignments {
    var assignments: Ownership

    constructor ()
      ensures assignments == map[]
    {
      assignments := map[];
    }

    method Assign(pod: Pod, shardId: ShardId)
      modifies this
      ensures assignments == Put(old(assignments), pod, shardId)
    {
      assignments := assignments[pod := Held(assignments, pod) + {shardId}];
    }

    // An entry is created even when there is nothing to remove.
    method Unassign(pod: Pod, shardId: ShardId)
      modifies this
      ensures assignments == Drop(old(assignments), pod, shardId)
    {
      assignments := assignments[pod := Held(assignments, pod) - {shardId}];
    }
  }

  class Unassignments {
    var unassignments: Ownership

    constructor ()
      ensures unassignments == map[]
    {
      unassignments := map[];
    }

    method Unassign(pod: Pod, shardId: ShardId)
      modifies this
      ensures unassignments == Put(old(unassignments), pod, shardId)
    {
      unassignments := unassignments[pod := Held(unassignments, pod) + {shardId}];
    }
  }

  function Without(m: Ownership, shards: set<ShardId>): Ownership {
    map p | p in m :: m[p] - shards
  }

  /** A plan without the given shards; entries stay, possibly empty. */
  function WithoutShards(plan: Plan, shards: set<ShardId>): Plan {
    Plan(Without(plan.assign, shards), Without(plan.unassign, shards))
  }

  /** `values_mut` followed by `retain` on every set. */
  method RetainOthers(m: Ownership, shards: set<ShardId>) returns (r: Ownership)
    ensures r == Without(m, shards)
  {
    r := m;
    var rest := m.Keys;
    while rest != {}
      invariant rest <= m.Keys == r.Keys
      invariant forall p :: p in m ==> r[p] == if p in rest then m[p] else m[p] - shards
    {
      ghost var some := Pick(rest);
      var pod :| pod in rest;
      r := r[pod := m[pod] - shards];
      rest := rest - {pod};
    }
    assert forall p :: p in m ==> r[p] == Without(m, shards)[p];
  }

  /** A plan that also assigns the given shards to a pod, except those it takes from that pod. */
  function WithAssignments(plan: Plan, pod: Pod, shards: set<ShardId>): Plan {
    plan.(assign := plan.assign[pod := Held(plan.assign, pod) + (shards - Held(plan.unassign, pod))])
  }

  class Rebalance {
    const assignments: Assignments
    const unassignments: Unassignments

    constructor (assignments: Assignments, unassignments: Unassignments)
      ensures this.assignments == assignments && this.unassignments == unassignments
    {
      this.assignments := assignments;
      this.unassignments := unassignments;
    }

    ghost function View(): Plan
      reads assignments, unassignments
    {
      Plan(assignments.assignments, unassignments.unassignments)
    }

    /** Empty means without entries: an entry with no shards counts. */
    predicate IsEmpty(): (empty: bool)
      reads assignments, unassignments
      ensures empty <==> View() == Plan(map[], map[])
    {
      |assignments.assignments| == 0 && |unassignments.unassignments| == 0
    }

    method RemoveShards(shardIds: set<ShardId>)
      modifies assignments, unassignments
      ensures View() == WithoutShards(old(View()), shardIds)
    {
      assignments.assignments := RetainOthers(assignments.assignments, shardIds);
      unassignments.unassignments := RetainOthers(unassignments.unassignments, shardIds);
    }

    method AddAssignments(pod: Pod, shardIds: set<ShardId>)
      modifies assignments
      ensures View() == WithAssignments(old(View()), pod, shardIds)
    {
      var kept := shardIds - Held(unassignments.unassignments, pod);
      assignments.assignments := assignments.assignments[pod := Held(assignments.assignments, pod) + kept];
    }
  }

  /** Gaining first and giving up then is applying the plan. */
  lemma AppliedInSteps(owned: Ownership, plan: Plan, grown: Ownership, after: Ownership)
    requires grown.Keys == owned.Keys + plan.assign.Keys && after.Keys == grown.Keys + plan.unassign.Keys
    requires forall p :: p in grown ==> grown[p] == Held(owned, p) + Held(plan.assign, p)
    requires forall p :: p in after ==> after[p] == Held(grown, p) - Held(plan.unassign, p)
    ensures after == Applied(owned, plan)
  {
    assert after.Keys == Applied(owned, plan).Keys;
    forall p | p in after ensures after[p] == Applied(owned, plan)[p] {
      assert Held(grown, p) == Held(owned, p) + Held(plan.assign, p);
    }
  }

  class RoutingTable {
    const numberOfShards: nat
    var shardAssignments: Ownership

    constructor (numberOfShards: nat)
      ensures View() == Table(numberOfShards, map[])
    {
      this.numberOfShards := numberOfShards;
      shardAssignments := map[];
    }

    function View(): Table
      reads this
    {
      Table(numberOfShards, shardAssignments)
    }

    method GetUnassignedShards() returns (unassigned: set<ShardId>)
      ensures unassigned == Unassigned(View())
    {
      unassigned := Below(numberOfShards);
      var rest := shardAssignments.Keys;
      while rest != {}
        invariant rest <= shardAssignments.Keys
        invariant unassigned == set s | s in Below(numberOfShards) &&
                                  forall p :: p in shardAssignments && p !in rest ==> s !in shardAssignments[p]
      {
        ghost var some := Pick(rest);
        var pod :| pod in rest;
        unassigned := unassigned - shardAssignments[pod];
        rest := rest - {pod};
      }
    }

    method Rebalance(plan: Rebalance)
      modifies this
      ensures shardAssignments == Applied(old(shardAssignments), plan.View())
    {
      Grow(plan.assignments.assignments);
      ghost var grown := shardAssignments;
      Shrink(plan.unassignments.unassignments);
      AppliedInSteps(old(shardAssignments), plan.View(), grown, shardAssignments);
    }

    method Grow(a: Ownership)
      modifies this
      ensures shardAssignments.Keys == old(shardAssignments).Keys + a.Keys
      ensures forall p :: p in shardAssignments ==> shardAssignments[p] == Held(old(shardAssignments), p) + Held(a, p)
    {
      var rest := a.Keys;
      while rest != {}
        invariant rest <= a.Keys
        invariant shardAssignments.Keys == old(shardAssignments).Keys + (a.Keys - rest)
        invariant forall p :: p in shardAssignments ==>
                    shardAssignments[p] == Held(old(shardAssignments), p) + if p in rest then {} else Held(a, p)
      {
        ghost var some := Pick(rest);
        var pod :| pod in rest;
        shardAssignments := shardAssignments[pod := Held(shardAssignments, pod) + a[pod]];
        rest := rest - {pod};
      }
    }

    method Shrink(u: Ownership)
      modifies this
      ensures shardAssignments.Keys == old(shardAssignments).Keys + u.Keys
      ensures forall p :: p in shardAssignments ==> shardAssignments[p] == Held(old(shardAssignments), p) - Held(u, p)
    {
      ghost var grown := shardAssignments;
      var rest := u.Keys;
      while rest != {}
        invariant rest <= u.Keys
        invariant shardAssignments.Keys == grown.Keys + (u.Keys - rest)
        invariant forall p :: p in shardAssignments ==>
                    shardAssignments[p] == Held(grown, p) - if p in rest then {} else Held(u, p)
      {
        ghost var some := Pick(rest);
        var pod :| pod in rest;
        shardAssignments := shardAssignments[pod := Held(shardAssignments, pod) - u[pod]];
        rest := rest - {pod};
      }
    }

    method AddPod(pod: Pod)
      modifies this
      ensures shardAssignments == old(shardAssignments)[pod := {}]
    {
      shardAssignments := shardAssignments[pod := {}];
    }

    method RemovePod(pod: Pod)
      modifies this
      ensures shardAssignments == old(shardAssignments) - {pod}
    {
      shardAssignments := shardAssignments - {pod};
    }

    predicate HasPod(pod: Pod)
      reads this
    {
      pod in shardAssignments
    }
  }

  // ---------------------------------------------------------------- applying a plan

  /** What a round needs of a plan for a table. */
  ghost predicate Legal(t: Table, plan: Plan) {
    && Valid(t)
    && plan.assign.Keys <= t.owned.Keys && plan.unassign.Keys <= t.owned.Keys
    // no pod both gains and gives up a shard, and no two pods give up the same shard
    && (forall p :: p in t.owned ==> Held(plan.assign, p) !! Held(plan.unassign, p))
    && Exclusive(plan.unassign)
    && Valid(Table(t.numberOfShards, Applied(t.owned, plan)))
  }

  lemma AppliedAt(t: Table, plan: Plan, p: Pod)
    requires plan.assign.Keys <= t.owned.Keys && plan.unassign.Keys <= t.owned.Keys
    ensures Applied(t.owned, plan).Keys == t.owned.Keys
    ensures p in t.owned ==> Applied(t.owned, plan)[p] == (t.owned[p] + Held(plan.assign, p)) - Held(plan.unassign, p)
  {
  }

  /** Without some shards, a plan leaves those where they were and every other shard where it put it. */
  lemma AppliedWithoutShards(t: Table, plan: Plan, shards: set<ShardId>, p: Pod, s: ShardId)
    requires plan.assign.Keys <= t.owned.Keys && plan.unassign.Keys <= t.owned.Keys
    requires p in t.owned
    ensures p in Applied(t.owned, WithoutShards(plan, shards)) && p in Applied(t.owned, plan)
    ensures s in Applied(t.owned, WithoutShards(plan, shards))[p] <==>
            s in if s in shards then t.owned[p] else Applied(t.owned, plan)[p]
  {
    AppliedAt(t, WithoutShards(plan, shards), p);
    AppliedAt(t, plan, p);
  }

  /** Dropping any shards from a legal plan leaves a legal plan. */
  lemma DroppingKeepsLegal(t: Table, plan: Plan, shards: set<ShardId>)
    requires Legal(t, plan)
    ensures Legal(t, WithoutShards(plan, shards))
  {
    var rest := WithoutShards(plan, shards);
    forall p | p in t.owned ensures Held(rest.assign, p) !! Held(rest.unassign, p) {
      assert Held(plan.assign, p) !! Held(plan.unassign, p);
    }
    forall p, q | p in rest.unassign && q in rest.unassign && p != q ensures rest.unassign[p] !! rest.unassign[q] {
      assert plan.unassign[p] !! plan.unassign[q];
    }
    DroppingKeepsValid(t, plan, shards);
  }

  lemma DroppingKeepsValid(t: Table, plan: Plan, shards: set<ShardId>)
    requires Legal(t, plan)
    ensures Valid(Table(t.numberOfShards, Applied(t.owned, WithoutShards(plan, shards))))
  {
    var after, full := Applied(t.owned, WithoutShards(plan, shards)), Applied(t.owned, plan);
    forall p, s | p in after && s in after[p] ensures s in Below(t.numberOfShards) {
      AppliedWithoutShards(t, plan, shards, p, s);
    }
    forall p, q, s | p in after && q in after && p != q && s in after[p] ensures s !in after[q] {
      AppliedWithoutShards(t, plan, shards, p, s);
      AppliedWithoutShards(t, plan, shards, q, s);
      assert t.owned[p] !! t.owned[q] && full[p] !! full[q];
    }
  }

  /** A shard reaches a pod that did not own it only after its owner gave it up. */
  lemma GainNeedsGiveUp(t: Table, plan: Plan, p: Pod, q: Pod, s: ShardId)
    requires Legal(t, plan) && p in t.owned && q in t.owned && p != q
    requires s in t.owned[p] && s in Held(plan.assign, q)
    ensures s in Held(plan.unassign, p)
  {
    var after := Applied(t.owned, plan);
    assert s in after[q] && after[p] !! after[q];
  }
}
