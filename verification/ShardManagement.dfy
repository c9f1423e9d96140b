/** The shard manager's rounds: draining pod changes, planning, persisting, revoking, assigning and applying. */
module ShardManagement {
  import opened Ordered
  import opened ShardModel
  import opened Rebalancing
  import Planner

  // ---------------------------------------------------------------- pending pod changes

  datatype Changes = Changes(added: set<Pod>, removed: set<Pod>)

  datatype Call = Register(pod: Pod) | Unregister(pod: Pod)

  function Noted(c: Changes, call: Call): Changes {
    match call
    case Register(pod) => Changes(c.added + {pod}, c.removed - {pod})
    case Unregister(pod) => Changes(c.added - {pod}, c.removed + {pod})
  }

  function AllNoted(c: Changes, calls: seq<Call>): Changes {
    if calls == [] then c else Noted(AllNoted(c, calls[..|calls| - 1]), calls[|calls| - 1])
  }

  /** The position of the last call about a pod, -1 if there is none. */
  ghost function LastCall(calls: seq<Call>, pod: Pod): (k: int)
    ensures -1 <= k < |calls|
    ensures k == -1 <==> forall i :: 0 <= i < |calls| ==> calls[i].pod != pod
    ensures k >= 0 ==> calls[k].pod == pod && forall i :: k < i < |calls| ==> calls[i].pod != pod
  {
    if calls == [] then -1
    else if calls[|calls| - 1].pod == pod then |calls| - 1
    else LastCall(calls[..|calls| - 1], pod)
  }

  /** The last call about a pod decides: it is pending as new or as removed, never both; without a call nothing changes. */
  lemma {:induction false} LastCallDecides(c: Changes, calls: seq<Call>, pod: Pod)
    requires c.added !! c.removed
    ensures var after, k := AllNoted(c, calls), LastCall(calls, pod);
            && after.added !! after.removed
            && (pod in after.added <==> if k >= 0 then calls[k].Register? else pod in c.added)
            && (pod in after.removed <==> if k >= 0 then calls[k].Unregister? else pod in c.removed)
  {
    if calls != [] {
      LastCallDecides(c, calls[..|calls| - 1], pod);
    }
  }

  class ShardManagementChanges {
    var newPods: set<Pod>
    var removedPods: set<Pod>

    constructor (newPods: set<Pod>, removedPods: set<Pod>)
      ensures View() == Changes(newPods, removedPods)
    {
      this.newPods := newPods;
      this.removedPods := removedPods;
    }

    ghost function View(): Changes
      reads this
    {
      Changes(newPods, removedPods)
    }

    method AddNewPod(pod: Pod)
      modifies this
      ensures View() == Noted(old(View()), Register(pod))
    {
      removedPods := removedPods - {pod};
      newPods := newPods + {pod};
    }

    method RemovePod(pod: Pod)
      modifies this
      ensures View() == Noted(old(View()), Unregister(pod))
    {
      newPods := newPods - {pod};
      removedPods := removedPods + {pod};
    }

    method Reset() returns (added: set<Pod>, removed: set<Pod>)
      modifies this
      ensures Changes(added, removed) == old(View())
      ensures View() == Changes({}, {})
    {
      added, removed := newPods, removedPods;
      newPods, removedPods := {}, {};
    }
  }

  // ---------------------------------------------------------------- one round as functions

  /** Removed pods go, pods the table still has stay as they are, and the others come with no shards. */
  function WithChanges(t: Table, c: Changes): Table {
    t.(owned := map p | p in (t.owned.Keys - c.removed) + c.added :: if p in t.owned && p !in c.removed then t.owned[p] else {})
  }

  /** The pods that register although the table has them: they are sent everything they own. */
  function Returned(t: Table, c: Changes): set<Pod> {
    c.added * (t.owned.Keys - c.removed)
  }

  /** The plan of a round: the planner's, and for each returned pod what it owns and does not give up. */
  function RoundPlan(t: Table, returned: set<Pod>, threshold: real): Plan
    requires Valid(t)
  {
    Resending(PlanOf(t, threshold), t, returned)
  }

  function Resending(plan: Plan, t: Table, returned: set<Pod>): Plan {
    plan.(assign := map p | p in plan.assign.Keys + returned ::
      if p in returned then Held(plan.assign, p) + (Held(t.owned, p) - Held(plan.unassign, p)) else plan.assign[p])
  }

  /** The pods whose revoke request fails come back with the shards asked of them. */
  function RevokeShards(unassignments: Ownership, succeeds: Pod -> bool): Ownership {
    map p | p in unassignments && !succeeds(p) :: unassignments[p]
  }

  function ShardsOf(m: Ownership): set<ShardId> {
    set p, s | p in m && s in m[p] :: s
  }

  /** What is left of the plan once the shards whose revoke failed are dropped. */
  function Surviving(plan: Plan, succeeds: Pod -> bool): Plan {
    WithoutShards(plan, ShardsOf(RevokeShards(plan.unassign, succeeds)))
  }

  // ---------------------------------------------------------------- facts about rounds

  lemma ChangedTable(t: Table, c: Changes, kept: Ownership, after: Table)
    requires kept == t.owned - c.removed && after.numberOfShards == t.numberOfShards
    requires after.owned.Keys == kept.Keys + c.added
    requires forall p :: p in after.owned ==> after.owned[p] == if p in kept then kept[p] else {}
    ensures after == WithChanges(t, c)
  {
    var changed := WithChanges(t, c).owned;
    assert kept.Keys == t.owned.Keys - c.removed;
    assert after.owned.Keys == changed.Keys;
    assert forall p :: p in changed ==> after.owned[p] == changed[p];
  }

  lemma ReturnedPods(t: Table, c: Changes, kept: Ownership)
    requires kept == t.owned - c.removed
    ensures c.added * kept.Keys == Returned(t, c)
  {
  }

  lemma ChangesKeepValid(t: Table, c: Changes)
    requires Valid(t)
    ensures Valid(WithChanges(t, c))
    ensures Returned(t, c) <= WithChanges(t, c).owned.Keys
  {
  }

  lemma ResendNothingNew(owned: set<ShardId>, gain: set<ShardId>, loss: set<ShardId>)
    ensures (owned + (gain + (owned - loss))) - loss == (owned + gain) - loss
  {
  }

  lemma ResendingOneMore(plan: Plan, t: Table, sent: set<Pod>, pod: Pod)
    requires pod !in sent
    ensures WithAssignments(Resending(plan, t, sent), pod, Held(t.owned, pod)) == Resending(plan, t, sent + {pod})
  {
    var one, all := WithAssignments(Resending(plan, t, sent), pod, Held(t.owned, pod)), Resending(plan, t, sent + {pod});
    assert one.assign.Keys == all.assign.Keys;
    assert forall p :: p in all.assign ==> one.assign[p] == all.assign[p];
  }

  lemma ResendingAt(t: Table, plan: Plan, returned: set<Pod>, p: Pod)
    requires Legal(t, plan) && returned <= t.owned.Keys && p in t.owned
    ensures var full := Resending(plan, t, returned);
            && full.assign.Keys <= t.owned.Keys
            && Held(full.assign, p) !! Held(full.unassign, p)
            && Applied(t.owned, full)[p] == Applied(t.owned, plan)[p]
  {
    var full := Resending(plan, t, returned);
    assert full.assign.Keys <= t.owned.Keys;
    AppliedAt(t, plan, p);
    AppliedAt(t, full, p);
    assert Held(plan.assign, p) !! Held(plan.unassign, p);
    assert Held(full.assign, p) == if p in returned then Held(plan.assign, p) + (t.owned[p] - Held(plan.unassign, p)) else Held(plan.assign, p);
    ResendNothingNew(t.owned[p], Held(plan.assign, p), Held(plan.unassign, p));
  }

  /** Resending what pods own changes neither what the plan leads to nor what it takes away, and keeps it fit. */
  lemma ResendingIsHarmless(t: Table, plan: Plan, returned: set<Pod>)
    requires Legal(t, plan) && returned <= t.owned.Keys
    ensures Legal(t, Resending(plan, t, returned))
    ensures Applied(t.owned, Resending(plan, t, returned)) == Applied(t.owned, plan)
  {
    var full := Resending(plan, t, returned);
    ResendingApplied(t, plan, returned);
    forall p | p in t.owned ensures Held(full.assign, p) !! Held(full.unassign, p) {
      ResendingAt(t, plan, returned, p);
    }
    assert full.unassign == plan.unassign && full.assign.Keys <= t.owned.Keys;
  }

  lemma ResendingApplied(t: Table, plan: Plan, returned: set<Pod>)
    requires Legal(t, plan) && returned <= t.owned.Keys
    ensures Applied(t.owned, Resending(plan, t, returned)) == Applied(t.owned, plan)
  {
    var before, after := Applied(t.owned, plan), Applied(t.owned, Resending(plan, t, returned));
    assert after.Keys == t.owned.Keys == before.Keys;
    forall p | p in t.owned ensures after[p] == before[p] { ResendingAt(t, plan, returned, p); }
  }

  lemma RoundPlanIsLegal(t: Table, returned: set<Pod>, threshold: real)
    requires Valid(t) && returned <= t.owned.Keys
    ensures Legal(t, RoundPlan(t, returned, threshold))
    ensures Applied(t.owned, RoundPlan(t, returned, threshold)) == Applied(t.owned, PlanOf(t, threshold))
  {
    PlanIsLegal(t, threshold);
    ResendingIsHarmless(t, PlanOf(t, threshold), returned);
  }

  /** A round leaves a valid table with the same pods, and without an owner exactly those shards that had none and whose revoke failed. */
  lemma RoundKeepsTable(t: Table, returned: set<Pod>, threshold: real, succeeds: Pod -> bool)
    requires Valid(t) && returned <= t.owned.Keys && |t.owned| > 0
    ensures var plan := RoundPlan(t, returned, threshold);
            var after := Table(t.numberOfShards, Applied(t.owned, Surviving(plan, succeeds)));
            && after.owned.Keys == t.owned.Keys && Valid(after)
            && Unassigned(after) == Unassigned(t) * ShardsOf(RevokeShards(plan.unassign, succeeds))
  {
    var plan := RoundPlan(t, returned, threshold);
    RoundPlanIsLegal(t, returned, threshold);
    PlanIsLegal(t, threshold);
    DroppingLeavesUnassigned(t, plan, ShardsOf(RevokeShards(plan.unassign, succeeds)));
    DroppingKeepsLegal(t, plan, ShardsOf(RevokeShards(plan.unassign, succeeds)));
  }

  lemma DroppingLeavesUnassigned(t: Table, plan: Plan, shards: set<ShardId>)
    requires Legal(t, plan) && Unassigned(Table(t.numberOfShards, Applied(t.owned, plan))) == {}
    ensures var after := Table(t.numberOfShards, Applied(t.owned, WithoutShards(plan, shards)));
            after.owned.Keys == t.owned.Keys && Unassigned(after) == Unassigned(t) * shards
  {
    var rest := Applied(t.owned, WithoutShards(plan, shards));
    var after, full := Table(t.numberOfShards, rest), Table(t.numberOfShards, Applied(t.owned, plan));
    assert rest.Keys == t.owned.Keys == full.owned.Keys;
    forall s | s in Below(t.numberOfShards) ensures s in Unassigned(after) <==> s in Unassigned(t) && s in shards {
      if s in shards {
        DroppedStays(t, plan, shards, after, s);
      } else {
        assert s !in Unassigned(full);
        var p :| p in full.owned && s in full.owned[p];
        AppliedWithoutShards(t, plan, shards, p, s);
      }
    }
  }

  lemma DroppedStays(t: Table, plan: Plan, shards: set<ShardId>, after: Table, s: ShardId)
    requires Legal(t, plan) && s in shards && s in Below(t.numberOfShards)
    requires after == Table(t.numberOfShards, Applied(t.owned, WithoutShards(plan, shards)))
    requires after.owned.Keys == t.owned.Keys
    ensures s in Unassigned(after) <==> s in Unassigned(t)
  {
    forall p | p in t.owned ensures s in after.owned[p] <==> s in t.owned[p] {
      AppliedWithoutShards(t, plan, shards, p, s);
    }
  }

  // ---------------------------------------------------------------- what a round changes and sends

  /** A pod that stays keeps its shards, also if it registers again; one that comes, or comes back after its removal, has none. */
  lemma ChangesAt(t: Table, c: Changes, p: Pod)
    ensures WithChanges(t, c).numberOfShards == t.numberOfShards
    ensures p in t.owned && p !in c.removed ==> p in WithChanges(t, c).owned && WithChanges(t, c).owned[p] == t.owned[p]
    ensures p in c.added && (p !in t.owned || p in c.removed) ==> p in WithChanges(t, c).owned && WithChanges(t, c).owned[p] == {}
    ensures p !in c.added && (p !in t.owned || p in c.removed) ==> p !in WithChanges(t, c).owned
    ensures p in Returned(t, c) <==> p in c.added && p in t.owned && p !in c.removed
  {
  }

  lemma GainsAreNew(t: Table, threshold: real, p: Pod)
    requires Valid(t) && p in t.owned
    ensures Held(PlanOf(t, threshold).assign, p) !! t.owned[p]
  {
    PlanRecords(t, threshold);
    var i := PodAt(t, p);
    assert EntriesVec(t)[i] == t.owned[p];
  }

  lemma ResentIsKept(owned: set<ShardId>, gain: set<ShardId>, loss: set<ShardId>)
    requires gain !! loss
    ensures gain + (owned - loss) == (owned + gain) - loss
  {
  }

  /**
   * A pod that did not return is sent what the planner gives it and nothing it owns, and has no entry the planner did not
   * make; a returned pod is sent exactly what it is to have.
   */
  lemma RoundSends(t: Table, returned: set<Pod>, threshold: real, p: Pod)
    requires Valid(t) && returned <= t.owned.Keys && p in t.owned
    ensures var plan, planned := RoundPlan(t, returned, threshold), PlanOf(t, threshold);
            && plan.unassign == planned.unassign && plan.assign.Keys <= t.owned.Keys
            && (p !in returned ==>
                  && (p in plan.assign <==> p in planned.assign)
                  && Held(plan.assign, p) == Held(planned.assign, p) && Held(plan.assign, p) !! t.owned[p])
            && (p in returned ==> p in plan.assign && Held(plan.assign, p) == Held(Applied(t.owned, planned), p))
  {
    PlanIsLegal(t, threshold);
    GainsAreNew(t, threshold, p);
    SendsAt(t, PlanOf(t, threshold), returned, p);
  }

  lemma SendsAt(t: Table, planned: Plan, returned: set<Pod>, p: Pod)
    requires Legal(t, planned) && returned <= t.owned.Keys && p in t.owned
    ensures var plan := Resending(planned, t, returned);
            && plan.unassign == planned.unassign && plan.assign.Keys <= t.owned.Keys
            && (p !in returned ==> (p in plan.assign <==> p in planned.assign) && Held(plan.assign, p) == Held(planned.assign, p))
            && (p in returned ==> p in plan.assign && Held(plan.assign, p) == Held(Applied(t.owned, planned), p))
  {
    AppliedAt(t, planned, p);
    assert Held(planned.assign, p) !! Held(planned.unassign, p);
    ResentIsKept(t.owned[p], Held(planned.assign, p), Held(planned.unassign, p));
  }

  /** Some pod was asked for the shard and did not give it up. */
  ghost predicate AskedInVain(plan: Plan, succeeds: Pod -> bool, s: ShardId) {
    exists f :: s in Held(plan.unassign, f) && !succeeds(f)
  }

  lemma FailedShards(plan: Plan, succeeds: Pod -> bool, s: ShardId)
    ensures s in ShardsOf(RevokeShards(plan.unassign, succeeds)) <==> AskedInVain(plan, succeeds, s)
  {
    var failed := RevokeShards(plan.unassign, succeeds);
    if AskedInVain(plan, succeeds, s) {
      var f :| s in Held(plan.unassign, f) && !succeeds(f);
      assert f in failed && s in failed[f];
    }
  }

  /** A shard asked for in vain is sent to nobody and stays where it was; every other shard goes where the planner wants it. */
  lemma RoundMoves(t: Table, returned: set<Pod>, threshold: real, succeeds: Pod -> bool, p: Pod, s: ShardId)
    requires Valid(t) && returned <= t.owned.Keys && p in t.owned
    ensures var plan := RoundPlan(t, returned, threshold);
            var sent, inVain := Surviving(plan, succeeds), AskedInVain(PlanOf(t, threshold), succeeds, s);
            && (s in Held(sent.assign, p) <==> s in Held(plan.assign, p) && !inVain)
            && p in Applied(t.owned, sent) && p in Applied(t.owned, PlanOf(t, threshold))
            && (s in Applied(t.owned, sent)[p] <==> s in if inVain then t.owned[p] else Applied(t.owned, PlanOf(t, threshold))[p])
  {
    var plan := RoundPlan(t, returned, threshold);
    RoundPlanIsLegal(t, returned, threshold);
    FailedShards(plan, succeeds, s);
    AppliedWithoutShards(t, plan, ShardsOf(RevokeShards(plan.unassign, succeeds)), p, s);
  }

  // ---------------------------------------------------------------- restart

  /** After a restart with all stored pods healthy the table is the stored one, and every pod is sent its full list. */
  lemma RestartReturnsAll(t: Table)
    ensures var healthy := Changes(t.owned.Keys, {});
            WithChanges(t, healthy) == t && Returned(t, healthy) == t.owned.Keys
  {
    assert WithChanges(t, Changes(t.owned.Keys, {})).owned == t.owned;
  }

  /**
   * A restart from the table written at the start of a round, with all its pods healthy, plans the stopped round's
   * moves again and, if no revoke fails, reaches the table that round would have written.
   */
  lemma RestartRepeatsRound(t: Table, returned: set<Pod>, threshold: real)
    requires Valid(t) && returned <= t.owned.Keys
    ensures var stopped, again := RoundPlan(t, returned, threshold), RoundPlan(t, t.owned.Keys, threshold);
            && again.unassign == stopped.unassign
            && Applied(t.owned, again) == Applied(t.owned, stopped)
            && ResendsAll(t, stopped, again)
  {
    RoundPlanIsLegal(t, returned, threshold);
    RoundPlanIsLegal(t, t.owned.Keys, threshold);
    ResentInFull(t, PlanOf(t, threshold), returned);
  }

  /** Each pod is also assigned everything it owns and is not to give up. */
  ghost predicate ResendsAll(t: Table, stopped: Plan, again: Plan) {
    forall p :: p in t.owned ==>
      Held(again.assign, p) == Held(stopped.assign, p) + (t.owned[p] - Held(stopped.unassign, p))
  }

  lemma ResentInFull(t: Table, plan: Plan, returned: set<Pod>)
    requires returned <= t.owned.Keys
    ensures var stopped, again := Resending(plan, t, returned), Resending(plan, t, t.owned.Keys);
            ResendsAll(t, stopped, again)
  {
  }

  // ---------------------------------------------------------------- the round as it runs

  class ShardManagement {
    const routingTable: RoutingTable
    const updates: ShardManagementChanges
    const threshold: real
    // what the persistence service holds
    var stored: Table

    /** Starts from the persisted table: healthy pods count as new, so that they are sent everything they own. */
    constructor (stored: Table, unhealthy: set<Pod>, threshold: real)
      ensures routingTable.View() == this.stored == stored && this.threshold == threshold
      ensures updates.View() == Changes(stored.owned.Keys - unhealthy, unhealthy)
      ensures fresh(routingTable) && fresh(updates)
    {
      var table := new RoutingTable(stored.numberOfShards);
      table.shardAssignments := stored.owned;
      var changes := new ShardManagementChanges(stored.owned.Keys - unhealthy, unhealthy);
      routingTable := table;
      updates := changes;
      this.threshold := threshold;
      this.stored := stored;
    }

    method RegisterPod(pod: Pod)
      modifies updates
      ensures updates.View() == Noted(old(updates.View()), Register(pod))
    {
      updates.AddNewPod(pod);
    }

    method UnregisterPod(pod: Pod)
      modifies updates
      ensures updates.View() == Noted(old(updates.View()), Unregister(pod))
    {
      updates.RemovePod(pod);
    }

    /** Drains the pending changes, updates the table, plans, adds the full lists of returned pods and writes the table. */
    method BeginRound() returns (plan: Rebalance)
      requires Valid(routingTable.View())
      modifies this, updates, routingTable
      ensures fresh(plan) && fresh(plan.assignments) && fresh(plan.unassignments)
      ensures updates.View() == Changes({}, {})
      ensures routingTable.View() == stored == WithChanges(old(routingTable.View()), old(updates.View()))
      ensures Valid(stored)
      ensures plan.View() == RoundPlan(stored, Returned(old(routingTable.View()), old(updates.View())), threshold)
    {
      ghost var before, changes := routingTable.View(), updates.View();
      var newPods, removedPods := updates.Reset();
      var sendFullAssignment := ChangePods(newPods, removedPods);
      ChangesKeepValid(before, changes);
      var view := routingTable.View();
      plan := Planner.FromRoutingTable(routingTable, threshold);
      SendFull(plan, sendFullAssignment);
      stored := view;
    }

    method ChangePods(newPods: set<Pod>, removedPods: set<Pod>) returns (sendFullAssignment: set<Pod>)
      modifies routingTable
      ensures routingTable.View() == WithChanges(old(routingTable.View()), Changes(newPods, removedPods))
      ensures sendFullAssignment == Returned(old(routingTable.View()), Changes(newPods, removedPods))
    {
      ghost var before := routingTable.shardAssignments;
      var rest := removedPods;
      while rest != {}
        invariant rest <= removedPods
        invariant routingTable.shardAssignments == before - (removedPods - rest)
      {
        ghost var some := Pick(rest);
        var pod :| pod in rest;
        routingTable.RemovePod(pod);
        rest := rest - {pod};
      }
      ghost var kept := routingTable.shardAssignments;
      sendFullAssignment := {};
      rest := newPods;
      while rest != {}
        invariant rest <= newPods
        invariant sendFullAssignment == (newPods - rest) * kept.Keys
        invariant routingTable.shardAssignments.Keys == kept.Keys + (newPods - rest)
        invariant forall p :: p in routingTable.shardAssignments ==>
                    routingTable.shardAssignments[p] == if p in kept then kept[p] else {}
      {
        ghost var some := Pick(rest);
        var pod :| pod in rest;
        if routingTable.HasPod(pod) {
          sendFullAssignment := sendFullAssignment + {pod};
        } else {
          routingTable.AddPod(pod);
        }
        rest := rest - {pod};
      }
      ChangedTable(old(routingTable.View()), Changes(newPods, removedPods), kept, routingTable.View());
      ReturnedPods(old(routingTable.View()), Changes(newPods, removedPods), kept);
    }

    method SendFull(plan: Rebalance, returned: set<Pod>)
      requires returned <= routingTable.shardAssignments.Keys
      modifies plan.assignments
      ensures plan.View() == Resending(old(plan.View()), routingTable.View(), returned)
    {
      var rest := returned;
      ghost var before := plan.View();
      assert Resending(before, routingTable.View(), {}).assign == before.assign;
      while rest != {}
        invariant rest <= returned
        invariant plan.View() == Resending(before, routingTable.View(), returned - rest)
      {
        ghost var some := Pick(rest);
        var pod :| pod in rest;
        ResendingOneMore(before, routingTable.View(), returned - rest, pod);
        plan.AddAssignments(pod, Held(routingTable.shardAssignments, pod));
        assert (returned - rest) + {pod} == returned - (rest - {pod});
        rest := rest - {pod};
      }
    }

    /** Sends the revokes, drops the shards of those that failed, and sends the assigns, whose results are ignored. */
    method ExecuteRebalance(plan: Rebalance, succeeds: Pod -> bool)
      modifies plan.assignments, plan.unassignments
      ensures plan.View() == Surviving(old(plan.View()), succeeds)
    {
      var failedUnassignments := RevokeShards(plan.unassignments.unassignments, succeeds);
      plan.RemoveShards(ShardsOf(failedUnassignments));
    }

    method FinishRound(plan: Rebalance)
      modifies this, routingTable
      ensures routingTable.View() == stored
      ensures stored == old(routingTable.View()).(owned := Applied(old(routingTable.View()).owned, plan.View()))
    {
      routingTable.Rebalance(plan);
      stored := routingTable.View();
    }

    /** One whole round: the table stays valid and keeps its pods, and only shards whose revoke failed stay without an owner. */
    method Round(succeeds: Pod -> bool)
      requires Valid(routingTable.View())
      modifies this, updates, routingTable
      ensures updates.View() == Changes({}, {})
      ensures var changed := WithChanges(old(routingTable.View()), old(updates.View()));
              var returned := Returned(old(routingTable.View()), old(updates.View()));
              && Valid(changed)
              && routingTable.View() == stored
              && stored == changed.(owned := Applied(changed.owned, Surviving(RoundPlan(changed, returned, threshold), succeeds)))
              && Valid(stored)
    {
      ghost var returned := Returned(routingTable.View(), updates.View());
      var plan := BeginRound();
      ghost var changed := stored;
      ExecuteRebalance(plan, succeeds);
      FinishRound(plan);
      RoundPlanIsLegal(changed, returned, threshold);
      DroppingKeepsLegal(changed, RoundPlan(changed, returned, threshold),
                         ShardsOf(RevokeShards(RoundPlan(changed, returned, threshold).unassign, succeeds)));
    }
  }
}
