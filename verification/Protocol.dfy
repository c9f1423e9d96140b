/**
 The shard manager, its callers and the executors as one state machine. Every interleaving of calls, wake-ups,
 requests in flight, replies, lost shards and restarts of the manager is a run.
 */
module Protocol {
  import opened ShardModel
  import opened Rebalancing
  import opened ShardManagement

  /** Where the worker loop stands. */
  datatype Phase =
    | Arriving                                                   // about to wait for a notification
    | Waiting
    | Woken                                                      // notified, the changes not yet drained
    | Drained(changes: Changes)
    | Revoking(plan: Plan, pending: set<Pod>, failed: set<Pod>)  // the pods whose reply is pending, or was a failure
    | Assigning(plan: Plan, pending: set<Pod>)
    | Unsaved(plan: Plan)                                        // applied, not yet written

  datatype State = State(
    phase: Phase,
    permit: bool,           // a notification stored while nobody waited
    notifying: nat,         // callers that have changed the pending pods and are about to notify
    pending: Changes,       // the pending pods,
    base: Changes,          // those at the last drain or start,
    calls: seq<Call>,       // and the calls since
    table: Table,
    stored: Table,
    held: Ownership)        // what the executors hold

  datatype Step =
    | Enter(call: Call)
    | Notify
    | Arrive
    | Drain
    | Begin
    | RevokeEffect(pod: Pod, gone: set<ShardId>)
    | RevokeReply(pod: Pod, ok: bool)
    | StartAssigning
    | AssignEffect(pod: Pod, got: set<ShardId>)
    | AssignReply(pod: Pod, ok: bool)
    | Apply
    | Save
    | Lose(pod: Pod, lost: set<ShardId>)
    | Restart(unhealthy: set<Pod>)

  /** What one step does. Revokes and assigns take effect piece by piece; a successful reply means all of it did. */
  ghost predicate Does(threshold: real, s: State, step: Step, s': State) {
    match step
    case Enter(call) =>
      s' == s.(pending := Noted(s.pending, call), calls := s.calls + [call], notifying := s.notifying + 1)
    case Notify =>
      s.notifying > 0 &&
      s' == if s.phase.Waiting? then s.(phase := Woken, notifying := s.notifying - 1)
            else s.(permit := true, notifying := s.notifying - 1)
    case Arrive =>
      s.phase.Arriving? &&
      s' == if s.permit then s.(phase := Woken, permit := false) else s.(phase := Waiting)
    case Drain =>
      s.phase.Woken? &&
      s' == s.(phase := Drained(s.pending), pending := Changes({}, {}), base := Changes({}, {}), calls := [])
    case Begin =>
      && s.phase.Drained? && Valid(s.table)
      && var changed := WithChanges(s.table, s.phase.changes);
      && var returned := Returned(s.table, s.phase.changes);
      && Valid(changed)
      && (forall p :: p in changed.owned && p !in returned && p in s.phase.changes.added ==> Held(s.held, p) == {})
      && var plan := RoundPlan(changed, returned, threshold);
      && s' == s.(table := changed, stored := changed, phase := Revoking(plan, plan.unassign.Keys, {}))
    case RevokeEffect(p, gone) =>
      && s.phase.Revoking? && p in s.phase.pending && gone <= Held(s.phase.plan.unassign, p)
      && s' == s.(held := s.held[p := Held(s.held, p) - gone])
    case RevokeReply(p, ok) =>
      && s.phase.Revoking? && p in s.phase.pending
      && (ok ==> Held(s.held, p) !! Held(s.phase.plan.unassign, p))
      && s' == s.(phase := s.phase.(pending := s.phase.pending - {p}, failed := s.phase.failed + if ok then {} else {p}))
    case StartAssigning =>
      && s.phase.Revoking? && s.phase.pending == {}
      && var failed := s.phase.failed;
      && var plan := Surviving(s.phase.plan, (p: Pod) => p !in failed);
      && s' == s.(phase := Assigning(plan, plan.assign.Keys))
    case AssignEffect(p, got) =>
      && s.phase.Assigning? && p in s.phase.pending && got <= Held(s.phase.plan.assign, p)
      && s' == s.(held := s.held[p := Held(s.held, p) + got])
    case AssignReply(p, ok) =>
      && s.phase.Assigning? && p in s.phase.pending
      && (ok ==> Held(s.phase.plan.assign, p) <= Held(s.held, p))
      && s' == s.(phase := s.phase.(pending := s.phase.pending - {p}))
    case Apply =>
      && s.phase.Assigning? && s.phase.pending == {}
      && s' == s.(phase := Unsaved(s.phase.plan), table := s.table.(owned := Applied(s.table.owned, s.phase.plan)))
    case Save =>
      s.phase.Unsaved? && s' == s.(phase := Arriving, stored := s.table)
    case Lose(p, lost) =>
      s' == s.(held := s.held[p := Held(s.held, p) - lost])
    case Restart(unhealthy) =>
      && unhealthy <= s.stored.owned.Keys
      && var changes := Changes(s.stored.owned.Keys - unhealthy, unhealthy);
      && s' == s.(phase := Arriving, permit := false, notifying := 1, pending := changes, base := changes, calls := [],
                  table := s.stored)
  }

  /** A started manager: it has read a valid table, executors hold no more than it says, and start is about to notify. */
  ghost predicate Init(s: State) {
    && Valid(s.stored) && s.table == s.stored
    && s.phase.Arriving? && !s.permit && s.notifying == 1
    && s.pending == s.base && s.base.added !! s.base.removed && s.calls == []
    && forall p :: p in s.stored.owned ==> Held(s.held, p) <= s.stored.owned[p]
  }

  ghost predicate IsRun(threshold: real, states: seq<State>, steps: seq<Step>) {
    && |states| == |steps| + 1
    && forall i :: 0 <= i < |steps| ==> Does(threshold, states[i], steps[i], states[i + 1])
  }

  // ---------------------------------------------------------------- no change is lost

  /** Pending changes are the calls since the last drain, and someone will wake the worker or it is about to drain. */
  ghost predicate NothingLost(s: State) {
    && s.base.added !! s.base.removed
    && s.pending == AllNoted(s.base, s.calls)
    && (s.phase.Waiting? ==> !s.permit)
    && (s.pending != Changes({}, {}) ==> s.permit || s.notifying > 0 || s.phase.Woken?)
  }

  lemma NothingLostStep(threshold: real, s: State, step: Step, s': State)
    requires NothingLost(s) && Does(threshold, s, step, s')
    ensures NothingLost(s')
  {
    if step.Enter? {
      assert s'.calls[..|s'.calls| - 1] == s.calls;
    }
  }

  // ---------------------------------------------------------------- tables stay valid

  /** A plan that leads each pod somewhere between what it owns and what the planner wants. */
  ghost predicate Between(threshold: real, t: Table, plan: Plan)
    requires Valid(t)
  {
    forall p :: p in t.owned ==>
      Held(Applied(t.owned, plan), p) <= t.owned[p] + Held(Applied(t.owned, PlanOf(t, threshold)), p)
  }

  ghost predicate TablesValid(threshold: real, s: State) {
    && Valid(s.table) && Valid(s.stored)
    && s.table.numberOfShards == s.stored.numberOfShards
    && (!s.phase.Unsaved? ==> s.table == s.stored)
    && (s.phase.Revoking? ==>
          && Legal(s.table, s.phase.plan)
          && Applied(s.table.owned, s.phase.plan) == Applied(s.table.owned, PlanOf(s.table, threshold))
          && s.phase.pending + s.phase.failed <= s.phase.plan.unassign.Keys)
    && (s.phase.Assigning? ==>
          && Legal(s.table, s.phase.plan) && Between(threshold, s.table, s.phase.plan)
          && s.phase.pending <= s.phase.plan.assign.Keys)
    && (s.phase.Unsaved? ==>
          && Legal(s.stored, s.phase.plan) && Between(threshold, s.stored, s.phase.plan)
          && s.table.owned == Applied(s.stored.owned, s.phase.plan) && s.table.owned.Keys == s.stored.owned.Keys)
  }

  lemma SurvivingIsBetween(threshold: real, t: Table, plan: Plan, shards: set<ShardId>)
    requires Legal(t, plan) && Applied(t.owned, plan) == Applied(t.owned, PlanOf(t, threshold))
    ensures Legal(t, WithoutShards(plan, shards)) && Between(threshold, t, WithoutShards(plan, shards))
  {
    DroppingKeepsLegal(t, plan, shards);
    forall p, x | p in t.owned && x in Held(Applied(t.owned, WithoutShards(plan, shards)), p)
      ensures x in t.owned[p] || x in Held(Applied(t.owned, plan), p)
    {
      AppliedWithoutShards(t, plan, shards, p, x);
    }
  }

  lemma TablesValidBegin(threshold: real, s: State, s': State)
    requires TablesValid(threshold, s) && Does(threshold, s, Begin, s')
    ensures TablesValid(threshold, s') && s'.stored.numberOfShards == s.stored.numberOfShards
  {
    ChangesKeepValid(s.table, s.phase.changes);
    RoundPlanIsLegal(s'.table, Returned(s.table, s.phase.changes), threshold);
  }

  lemma TablesValidStartAssigning(threshold: real, s: State, s': State)
    requires TablesValid(threshold, s) && Does(threshold, s, StartAssigning, s')
    ensures TablesValid(threshold, s') && s'.stored.numberOfShards == s.stored.numberOfShards
  {
    var failed := s.phase.failed;
    SurvivingIsBetween(threshold, s.table, s.phase.plan, ShardsOf(RevokeShards(s.phase.plan.unassign, (p: Pod) => p !in failed)));
  }

  lemma TablesValidApply(threshold: real, s: State, s': State)
    requires TablesValid(threshold, s) && Does(threshold, s, Apply, s')
    ensures TablesValid(threshold, s') && s'.stored.numberOfShards == s.stored.numberOfShards
  {
    assert s'.table.owned.Keys == s.table.owned.Keys;
  }

  lemma TablesValidRestart(threshold: real, s: State, unhealthy: set<Pod>, s': State)
    requires TablesValid(threshold, s) && Does(threshold, s, Restart(unhealthy), s')
    ensures TablesValid(threshold, s') && s'.stored.numberOfShards == s.stored.numberOfShards
  {
  }

  lemma OneReplied(pending: set<Pod>, failed: set<Pod>, asked: set<Pod>, p: Pod, ok: bool)
    requires pending + failed <= asked && p in pending
    ensures (pending - {p}) + (failed + if ok then {} else {p}) <= asked
  {
  }

  lemma TablesValidRevokeReply(threshold: real, s: State, p: Pod, ok: bool, s': State)
    requires TablesValid(threshold, s) && Does(threshold, s, RevokeReply(p, ok), s')
    ensures TablesValid(threshold, s')
  {
    OneReplied(s.phase.pending, s.phase.failed, s.phase.plan.unassign.Keys, p, ok);
  }

  lemma TablesValidAssignReply(threshold: real, s: State, p: Pod, ok: bool, s': State)
    requires TablesValid(threshold, s) && Does(threshold, s, AssignReply(p, ok), s')
    ensures TablesValid(threshold, s')
  {
  }

  lemma TablesValidElse(threshold: real, s: State, step: Step, s': State)
    requires TablesValid(threshold, s) && Does(threshold, s, step, s')
    requires s'.table == s.table && s'.stored == s.stored
    requires s'.phase == s.phase || !(s'.phase.Revoking? || s'.phase.Assigning? || s'.phase.Unsaved?)
    requires s.phase.Unsaved? ==> s'.phase.Unsaved?
    ensures TablesValid(threshold, s')
  {
  }

  lemma TablesValidStep(threshold: real, s: State, step: Step, s': State)
    requires TablesValid(threshold, s) && Does(threshold, s, step, s')
    ensures TablesValid(threshold, s') && s'.stored.numberOfShards == s.stored.numberOfShards
  {
    if step.Begin? {
      TablesValidBegin(threshold, s, s');
    } else if step.StartAssigning? {
      TablesValidStartAssigning(threshold, s, s');
    } else if step.Apply? {
      TablesValidApply(threshold, s, s');
    } else if step.Restart? {
      TablesValidRestart(threshold, s, step.unhealthy, s');
    } else if step.RevokeReply? {
      TablesValidRevokeReply(threshold, s, step.pod, step.ok, s');
    } else if step.AssignReply? {
      TablesValidAssignReply(threshold, s, step.pod, step.ok, s');
    } else if !step.Save? {
      TablesValidElse(threshold, s, step, s');
    }
  }

  // ---------------------------------------------------------------- exclusive ownership

  /** What bounds a registered pod's held shards in each phase. */
  ghost predicate Bounded(s: State) {
    match s.phase
    case Revoking(plan, pending, failed) =>
      forall p :: p in s.table.owned ==>
        && Held(s.held, p) <= s.table.owned[p]
        && (p !in pending && p !in failed ==> Held(s.held, p) !! Held(plan.unassign, p))
    case Assigning(plan, _) =>
      forall p :: p in s.table.owned ==> Held(s.held, p) <= Held(Applied(s.table.owned, plan), p)
    case _ =>
      forall p :: p in s.table.owned ==> Held(s.held, p) <= s.table.owned[p]
  }

  /** No shard is held by two registered pods. */
  ghost predicate ExclusivelyHeld(s: State) {
    forall p, q :: p in s.table.owned && q in s.table.owned && p != q ==> Held(s.held, p) !! Held(s.held, q)
  }

  /** Pods that hold no more than a table gives them hold nothing in common. */
  lemma HeldWithin(held: Ownership, owned: Ownership)
    requires Exclusive(owned) && forall p :: p in owned ==> Held(held, p) <= owned[p]
    ensures forall p, q :: p in owned && q in owned && p != q ==> Held(held, p) !! Held(held, q)
  {
    forall p, q | p in owned && q in owned && p != q ensures Held(held, p) !! Held(held, q) {
      assert owned[p] !! owned[q];
    }
  }

  lemma AssigningIsExclusive(threshold: real, s: State)
    requires TablesValid(threshold, s) && Bounded(s) && s.phase.Assigning?
    ensures ExclusivelyHeld(s)
  {
    var after := Applied(s.table.owned, s.phase.plan);
    assert after.Keys == s.table.owned.Keys;
    HeldWithin(s.held, after);
  }

  lemma BoundedIsExclusive(threshold: real, s: State)
    requires TablesValid(threshold, s) && Bounded(s)
    ensures ExclusivelyHeld(s)
  {
    if s.phase.Assigning? {
      AssigningIsExclusive(threshold, s);
    } else {
      HeldWithin(s.held, s.table.owned);
    }
  }

  /** A crash while assigns are out, or before their result is written, is the one case left to recovery. */
  predicate LateCrash(s: State, step: Step) {
    step.Restart? && (s.phase.Assigning? || s.phase.Unsaved?)
  }

  /** A shard a pod holds is not asked back with success, so it is not given up once the failed ones are dropped. */
  lemma HeldIsKept(plan: Plan, failed: set<Pod>, shards: set<ShardId>, p: Pod, x: ShardId)
    requires shards == ShardsOf(RevokeShards(plan.unassign, (p: Pod) => p !in failed))
    requires p !in failed ==> x !in Held(plan.unassign, p)
    ensures x in shards || x !in Held(plan.unassign, p)
  {
    if p in failed && p in plan.unassign && x in plan.unassign[p] {
      assert p in RevokeShards(plan.unassign, (p: Pod) => p !in failed);
    }
  }

  /** Giving up only what is not held, a pod holds no more than the plan leaves it. */
  lemma KeptByPlan(t: Table, plan: Plan, shards: set<ShardId>, p: Pod, x: ShardId)
    requires Legal(t, plan) && p in t.owned && x in t.owned[p]
    requires x in shards || x !in Held(plan.unassign, p)
    ensures x in Held(Applied(t.owned, WithoutShards(plan, shards)), p)
  {
    AppliedWithoutShards(t, plan, shards, p, x);
    AppliedAt(t, plan, p);
  }

  lemma BoundedWithin(s: State, after: Ownership)
    requires s.phase.Assigning? && after == Applied(s.table.owned, s.phase.plan)
    requires forall p, x :: p in s.table.owned && x in Held(s.held, p) ==> x in Held(after, p)
    ensures Bounded(s)
  {
    forall p | p in s.table.owned ensures Held(s.held, p) <= Held(after, p) {
      forall x | x in Held(s.held, p) ensures x in Held(after, p) { }
    }
  }

  /** The assigns start with the plan without the shards asked of pods whose revoke failed. */
  lemma StartsWith(threshold: real, s: State, s': State) returns (shards: set<ShardId>)
    requires Does(threshold, s, StartAssigning, s')
    ensures var failed := s.phase.failed; shards == ShardsOf(RevokeShards(s.phase.plan.unassign, (p: Pod) => p !in failed))
    ensures s'.phase.Assigning? && s'.phase.plan == WithoutShards(s.phase.plan, shards)
    ensures s'.table == s.table && s'.held == s.held
  {
    var failed := s.phase.failed;
    shards := ShardsOf(RevokeShards(s.phase.plan.unassign, (p: Pod) => p !in failed));
  }

  lemma KeptAtStart(threshold: real, s: State, shards: set<ShardId>, p: Pod, x: ShardId)
    requires TablesValid(threshold, s) && Bounded(s) && s.phase.Revoking? && s.phase.pending == {}
    requires var failed := s.phase.failed; shards == ShardsOf(RevokeShards(s.phase.plan.unassign, (p: Pod) => p !in failed))
    requires p in s.table.owned && x in Held(s.held, p)
    ensures x in Held(Applied(s.table.owned, WithoutShards(s.phase.plan, shards)), p)
  {
    HeldIsKept(s.phase.plan, s.phase.failed, shards, p, x);
    KeptByPlan(s.table, s.phase.plan, shards, p, x);
  }

  lemma BoundedStartAssigning(threshold: real, s: State, s': State)
    requires TablesValid(threshold, s) && Bounded(s) && Does(threshold, s, StartAssigning, s')
    ensures Bounded(s')
  {
    var shards := StartsWith(threshold, s, s');
    var after := Applied(s.table.owned, WithoutShards(s.phase.plan, shards));
    forall p, x | p in s.table.owned && x in Held(s.held, p) ensures x in Held(after, p) {
      KeptAtStart(threshold, s, shards, p, x);
    }
    BoundedWithin(s', after);
  }

  lemma AssignIsBounded(t: Table, plan: Plan, p: Pod)
    requires Legal(t, plan) && p in t.owned
    ensures Held(plan.assign, p) <= Held(Applied(t.owned, plan), p)
  {
    AppliedAt(t, plan, p);
    assert Held(plan.assign, p) !! Held(plan.unassign, p);
  }

  lemma BoundedBegin(threshold: real, s: State, s': State)
    requires TablesValid(threshold, s) && Bounded(s) && Does(threshold, s, Begin, s')
    ensures Bounded(s')
  {
    var changes := s.phase.changes;
    forall p | p in s'.table.owned ensures Held(s'.held, p) <= s'.table.owned[p] {
      assert (p in s.table.owned && p !in changes.removed) || p in changes.added;
    }
  }

  lemma HeldAfter(held: Ownership, p: Pod, now: set<ShardId>, q: Pod)
    ensures Held(held[p := now], q) == if q == p then now else Held(held, q)
  {
  }

  /** Executors may hold less at any time. */
  lemma BoundedShrinks(s: State, p: Pod, gone: set<ShardId>)
    requires Bounded(s)
    ensures Bounded(s.(held := s.held[p := Held(s.held, p) - gone]))
  {
    var now := Held(s.held, p) - gone;
    forall q ensures Held(s.held[p := now], q) <= Held(s.held, q) { HeldAfter(s.held, p, now, q); }
  }

  lemma BoundedRevokeReply(threshold: real, s: State, p: Pod, ok: bool, s': State)
    requires Bounded(s) && Does(threshold, s, RevokeReply(p, ok), s')
    ensures Bounded(s')
  {
  }

  lemma BoundedAssignEffect(threshold: real, s: State, p: Pod, got: set<ShardId>, s': State)
    requires TablesValid(threshold, s) && Bounded(s) && Does(threshold, s, AssignEffect(p, got), s')
    ensures Bounded(s')
  {
    var now := Held(s.held, p) + got;
    forall q | q in s.table.owned ensures Held(s'.held, q) <= Held(Applied(s.table.owned, s.phase.plan), q) {
      HeldAfter(s.held, p, now, q);
      if q == p { AssignIsBounded(s.table, s.phase.plan, p); }
    }
  }

  lemma BoundedRequest(threshold: real, s: State, step: Step, s': State)
    requires TablesValid(threshold, s) && Bounded(s) && Does(threshold, s, step, s')
    requires step.RevokeEffect? || step.RevokeReply? || step.AssignEffect? || step.Lose?
    ensures Bounded(s')
  {
    match step
    case RevokeEffect(p, gone) => BoundedShrinks(s, p, gone);
    case Lose(p, lost) => BoundedShrinks(s, p, lost);
    case RevokeReply(p, ok) => BoundedRevokeReply(threshold, s, p, ok, s');
    case AssignEffect(p, got) => BoundedAssignEffect(threshold, s, p, got, s');
  }

  lemma BoundedStep(threshold: real, s: State, step: Step, s': State)
    requires TablesValid(threshold, s) && Bounded(s) && Does(threshold, s, step, s') && !LateCrash(s, step)
    ensures Bounded(s')
  {
    if step.Begin? {
      BoundedBegin(threshold, s, s');
    } else if step.StartAssigning? {
      BoundedStartAssigning(threshold, s, s');
    } else if step.RevokeEffect? || step.RevokeReply? || step.AssignEffect? || step.Lose? {
      BoundedRequest(threshold, s, step, s');
    }
  }

  // ---------------------------------------------------------------- over whole runs

  /**
   * In every run, with any failures and crashes, every table is valid, and what is pending are the calls since the last drain
   * or start, with someone to wake the worker.
   */
  lemma {:induction false} RunKeepsTables(threshold: real, states: seq<State>, steps: seq<Step>, i: nat)
    requires IsRun(threshold, states, steps) && Init(states[0]) && i < |states|
    ensures TablesValid(threshold, states[i]) && NothingLost(states[i])
    ensures states[i].table.numberOfShards == states[0].table.numberOfShards
  {
    if i > 0 {
      RunKeepsTables(threshold, states, steps, i - 1);
      TablesValidStep(threshold, states[i - 1], steps[i - 1], states[i]);
      NothingLostStep(threshold, states[i - 1], steps[i - 1], states[i]);
    }
  }

  /** In every run without a late crash, no two registered pods ever hold the same shard. */
  lemma {:induction false} RunIsExclusive(threshold: real, states: seq<State>, steps: seq<Step>, i: nat)
    requires IsRun(threshold, states, steps) && Init(states[0]) && i < |states|
    requires forall k :: 0 <= k < i ==> !LateCrash(states[k], steps[k])
    ensures Bounded(states[i]) && ExclusivelyHeld(states[i])
  {
    RunKeepsTables(threshold, states, steps, i);
    if i > 0 {
      RunIsExclusive(threshold, states, steps, i - 1);
      RunKeepsTables(threshold, states, steps, i - 1);
      BoundedStep(threshold, states[i - 1], steps[i - 1], states[i]);
    }
    BoundedIsExclusive(threshold, states[i]);
  }

  // ---------------------------------------------------------------- what a crash forgets

  /** The pods a step leaves stored: only the start of a round changes them. */
  ghost function WithBegun(pods: set<Pod>, s: State, step: Step): set<Pod> {
    if step.Begin? && s.phase.Drained? then (pods - s.phase.changes.removed) + s.phase.changes.added else pods
  }

  /** The pods of the first stored table, changed by the rounds begun since: by nothing else. */
  ghost function BegunPods(states: seq<State>, steps: seq<Step>, i: nat): set<Pod>
    requires i <= |steps| < |states|
  {
    if i == 0 then states[0].stored.owned.Keys
    else WithBegun(BegunPods(states, steps, i - 1), states[i - 1], steps[i - 1])
  }

  lemma StoredPodsBegin(threshold: real, s: State, s': State)
    requires TablesValid(threshold, s) && Does(threshold, s, Begin, s')
    ensures s'.stored.owned.Keys == (s.stored.owned.Keys - s.phase.changes.removed) + s.phase.changes.added
  {
  }

  lemma StoredPodsSave(threshold: real, s: State, s': State)
    requires TablesValid(threshold, s) && Does(threshold, s, Save, s')
    ensures s'.stored.owned.Keys == s.stored.owned.Keys
  {
  }

  lemma StoredStays(threshold: real, s: State, step: Step, s': State)
    requires Does(threshold, s, step, s') && !step.Begin? && !step.Save?
    ensures s'.stored == s.stored
  {
  }

  lemma StoredPodsStep(threshold: real, s: State, step: Step, s': State, pods: set<Pod>)
    requires TablesValid(threshold, s) && Does(threshold, s, step, s') && s.stored.owned.Keys == pods
    ensures s'.stored.owned.Keys == WithBegun(pods, s, step)
  {
    if step.Begin? {
      StoredPodsBegin(threshold, s, s');
    } else if step.Save? {
      StoredPodsSave(threshold, s, s');
    } else {
      StoredStays(threshold, s, step, s');
    }
  }

  /** In every run, with any failures and crashes, exactly the pod changes whose round has begun are stored. */
  lemma {:induction false} RunStoresBegun(threshold: real, states: seq<State>, steps: seq<Step>, i: nat)
    requires IsRun(threshold, states, steps) && Init(states[0]) && i < |states|
    ensures states[i].stored.owned.Keys == BegunPods(states, steps, i)
  {
    if i > 0 {
      var j := i - 1;
      RunStoresBegun(threshold, states, steps, j);
      RunKeepsTables(threshold, states, steps, j);
      BegunNext(states, steps, j, i, BegunPods(states, steps, j));
      StoredPodsStep(threshold, states[j], steps[j], states[i], BegunPods(states, steps, j));
    }
  }

  lemma BegunNext(states: seq<State>, steps: seq<Step>, j: nat, i: nat, pods: set<Pod>)
    requires i == j + 1 <= |steps| < |states| && pods == BegunPods(states, steps, j)
    ensures BegunPods(states, steps, i) == WithBegun(pods, states[j], steps[j])
  {
  }

  /** After a restart exactly the stored pods are pending, whatever calls came before. */
  lemma RestartForgetsCalls(threshold: real, s: State, unhealthy: set<Pod>, s': State)
    requires Does(threshold, s, Restart(unhealthy), s')
    ensures s'.pending.added + s'.pending.removed == s.stored.owned.Keys && s'.table == s.stored && s'.calls == []
  {
    assert (s.stored.owned.Keys - unhealthy) + unhealthy == s.stored.owned.Keys;
  }

  /** A pod that registers right before a crash is nowhere afterwards. */
  lemma CallCanBeLost() returns (states: seq<State>, steps: seq<Step>)
    ensures |states| == 3 && IsRun(0.0, states, steps) && Init(states[0])
    ensures steps == [Enter(Register(7)), Restart({})] && 7 in states[1].pending.added
    ensures 7 !in states[2].pending.added && 7 !in states[2].table.owned && 7 !in states[2].stored.owned
  {
    var t, none := Table(0, map[]), Changes({}, {});
    var s0 := State(Arriving, false, 1, none, none, [], t, t, map[]);
    var s1 := s0.(pending := Noted(none, Register(7)), calls := [Register(7)], notifying := 2);
    steps := [Enter(Register(7)), Restart({})];
    states := [s0, s1, s0];
    assert t.owned.Keys - {} == {};
    assert Does(0.0, s0, steps[0], s1) && Does(0.0, s1, steps[1], s0);
  }
}
