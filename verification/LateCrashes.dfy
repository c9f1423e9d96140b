/**
 After a crash while assigns are out, or before their result is written, pods may hold what the stored table gives them
 and what the stopped plan was to. Ownership stays exclusive if the next round asks the difference back or wants it where
 it is.
 */
module LateCrashes {
  import opened Ordered
  import opened ShardModel
  import opened Rebalancing
  import opened ShardManagement
  import opened Protocol
  import opened Recovery

  // ---------------------------------------------------------------- agreement

  /** What the pods of a stored table may hold after a late crash. */
  function MayHold(threshold: real, t: Table): Ownership
    requires Valid(t)
  {
    map p | p in t.owned :: t.owned[p] + Held(Wanted(threshold, t), p)
  }

  /** Each pod that stays is to keep what it may hold, or to give it up. */
  ghost predicate Agrees(threshold: real, bound: Ownership, t: Table, c: Changes) {
    && Valid(WithChanges(t, c))
    && forall p :: p in t.owned && p !in c.removed ==> Covers(threshold, WithChanges(t, c), p, Held(bound, p))
  }

  ghost predicate Covers(threshold: real, t: Table, p: Pod, held: set<ShardId>)
    requires Valid(t)
  {
    held <= Held(Wanted(threshold, t), p) + Held(PlanOf(t, threshold).unassign, p)
  }

  lemma OwnedIsCovered(threshold: real, t: Table, p: Pod)
    requires Valid(t) && p in t.owned
    ensures Covers(threshold, t, p, t.owned[p])
  {
    PlanIsLegal(t, threshold);
    AppliedAt(t, PlanOf(t, threshold), p);
  }

  /** A round for the same table, as after a restart with all stored pods healthy, agrees. */
  lemma SameTableAgrees(threshold: real, t: Table, c: Changes)
    requires Valid(t) && WithChanges(t, c) == t
    ensures Agrees(threshold, MayHold(threshold, t), t, c)
  {
    forall p | p in t.owned ensures Covers(threshold, t, p, Held(MayHold(threshold, t), p)) {
      OwnedIsCovered(threshold, t, p);
    }
  }

  /** No shard the stopped plan was to bring to a pod that stays, and that is not asked back, is planned for another pod. */
  ghost predicate PlansApart(threshold: real, t: Table, c: Changes)
    requires Valid(t) && Valid(WithChanges(t, c))
  {
    var n := WithChanges(t, c);
    forall p, q :: p in t.owned && p !in c.removed && q in n.owned && p != q ==>
      (Held(Wanted(threshold, t), p) - t.owned[p]) - Held(PlanOf(n, threshold).unassign, p) !! Held(Wanted(threshold, n), q)
  }

  lemma WantedInRange(threshold: real, t: Table, p: Pod)
    requires Valid(t) && p in t.owned
    ensures p in Wanted(threshold, t) && Wanted(threshold, t)[p] <= Below(t.numberOfShards)
  {
    PlanIsLegal(t, threshold);
  }

  lemma WantedApart(threshold: real, t: Table, p: Pod, q: Pod)
    requires Valid(t) && p in t.owned && q in t.owned && p != q
    ensures Held(Wanted(threshold, t), p) !! Held(Wanted(threshold, t), q)
  {
    PlanIsLegal(t, threshold);
    WantedPods(threshold, t);
    HeldApart(Wanted(threshold, t), p, q);
  }

  lemma HeldApart(m: Ownership, p: Pod, q: Pod)
    requires Exclusive(m) && p in m && q in m && p != q
    ensures Held(m, p) !! Held(m, q)
  {
    assert m[p] !! m[q];
  }

  /** Every shard is wanted somewhere. */
  lemma WantedBy(threshold: real, t: Table, x: ShardId) returns (q: Pod)
    requires Valid(t) && |t.owned| > 0 && x in Below(t.numberOfShards)
    ensures q in t.owned && x in Held(Wanted(threshold, t), q)
  {
    PlanIsLegal(t, threshold);
    WantedPods(threshold, t);
    assert x !in Unassigned(Table(t.numberOfShards, Wanted(threshold, t)));
    q :| q in Wanted(threshold, t) && x in Wanted(threshold, t)[q];
  }

  lemma ApartCoversAt(threshold: real, t: Table, c: Changes, p: Pod, n: Table, x: ShardId)
    requires Valid(t) && n == WithChanges(t, c) && Valid(n) && PlansApart(threshold, t, c)
    requires p in t.owned && p !in c.removed && p in n.owned
    requires x in Held(Wanted(threshold, t), p) && x !in t.owned[p] && x !in Held(PlanOf(n, threshold).unassign, p)
    ensures x in Held(Wanted(threshold, n), p)
  {
    WantedInRange(threshold, t, p);
    Nonempty(n.owned, p);
    var q := WantedBy(threshold, n, x);
    PlannedFor(threshold, t, c, p, q, n, x);
  }

  lemma PlannedFor(threshold: real, t: Table, c: Changes, p: Pod, q: Pod, n: Table, x: ShardId)
    requires Valid(t) && n == WithChanges(t, c) && Valid(n) && PlansApart(threshold, t, c)
    requires p in t.owned && p !in c.removed && q in n.owned
    requires x in Held(Wanted(threshold, t), p) && x !in t.owned[p] && x !in Held(PlanOf(n, threshold).unassign, p)
    requires x in Held(Wanted(threshold, n), q)
    ensures p == q
  {
  }

  lemma ApartCovers(threshold: real, t: Table, c: Changes, p: Pod, n: Table)
    requires Valid(t) && n == WithChanges(t, c) && Valid(n) && PlansApart(threshold, t, c)
    requires p in t.owned && p !in c.removed
    ensures Covers(threshold, n, p, Held(MayHold(threshold, t), p))
  {
    OwnedIsCovered(threshold, n, p);
    var wanted, asked := Held(Wanted(threshold, n), p), Held(PlanOf(n, threshold).unassign, p);
    forall x | x in Held(Wanted(threshold, t), p) && x !in t.owned[p] && x !in asked ensures x in wanted {
      ApartCoversAt(threshold, t, c, p, n, x);
    }
    SplitCover(Held(MayHold(threshold, t), p), t.owned[p], Held(Wanted(threshold, t), p), wanted, asked);
  }

  lemma SplitCover(all: set<ShardId>, owned: set<ShardId>, more: set<ShardId>, wanted: set<ShardId>, asked: set<ShardId>)
    requires all == owned + more && owned <= wanted + asked
    requires forall x :: x in more && x !in owned && x !in asked ==> x in wanted
    ensures all <= wanted + asked
  {
    forall x | x in all ensures x in wanted + asked {
      assert x in owned ==> x in wanted + asked;
    }
  }

  lemma Nonempty(m: Ownership, p: Pod)
    requires p in m
    ensures |m| > 0
  {
    assert p in m.Keys && |m| == |m.Keys|;
  }

  lemma CoversApart(threshold: real, t: Table, c: Changes, p: Pod, q: Pod, n: Table)
    requires Valid(t) && n == WithChanges(t, c) && Valid(n)
    requires p in t.owned && p !in c.removed && q in n.owned && p != q
    requires Covers(threshold, n, p, Held(MayHold(threshold, t), p))
    ensures (Held(Wanted(threshold, t), p) - t.owned[p]) - Held(PlanOf(n, threshold).unassign, p) !! Held(Wanted(threshold, n), q)
  {
    WantedApart(threshold, n, p, q);
  }

  /** Agreement compares what the planner wants for the two tables. */
  lemma AgreesIffApart(threshold: real, t: Table, c: Changes)
    requires Valid(t)
    ensures Valid(WithChanges(t, c))
    ensures Agrees(threshold, MayHold(threshold, t), t, c) <==> PlansApart(threshold, t, c)
  {
    ChangesKeepValid(t, c);
    var n := WithChanges(t, c);
    if PlansApart(threshold, t, c) {
      forall p | p in t.owned && p !in c.removed ensures Covers(threshold, n, p, Held(MayHold(threshold, t), p)) {
        ApartCovers(threshold, t, c, p, n);
      }
    }
    if Agrees(threshold, MayHold(threshold, t), t, c) {
      forall p, q | p in t.owned && p !in c.removed && q in n.owned && p != q
        ensures (Held(Wanted(threshold, t), p) - t.owned[p]) - Held(PlanOf(n, threshold).unassign, p) !! Held(Wanted(threshold, n), q)
      {
        CoversApart(threshold, t, c, p, q, n);
      }
    }
  }

  // ---------------------------------------------------------------- in doubt

  /** Whether what pods hold is bounded by the table, or after a late crash only by what they may hold. */
  datatype Mode = Certain | InDoubt(bound: Ownership)

  /** Only the pods that stay. */
  function Staying(bound: Ownership, t: Table, c: Changes): Ownership {
    map p | p in bound && p in t.owned && p !in c.removed :: bound[p]
  }

  /** A late crash brings doubt; it ends when the revokes of a later round are done. */
  ghost function NextMode(threshold: real, s: State, step: Step, mode: Mode): Mode {
    if LateCrash(s, step) && Valid(s.stored) then InDoubt(MayHold(threshold, s.stored))
    else if mode.InDoubt? && step.StartAssigning? then Certain
    else if mode.InDoubt? && step.Begin? && s.phase.Drained? then InDoubt(Staying(mode.bound, s.table, s.phase.changes))
    else mode
  }

  ghost function ModeAt(threshold: real, states: seq<State>, steps: seq<Step>, i: nat): Mode
    requires i <= |steps| < |states|
  {
    if i == 0 then Certain
    else NextMode(threshold, states[i - 1], steps[i - 1], ModeAt(threshold, states, steps, i - 1))
  }

  /** No pod may hold any of these shards beyond its entry. */
  ghost predicate Spares(bound: Ownership, t: Table, shards: set<ShardId>) {
    forall p :: p in t.owned ==> Held(bound, p) * shards <= t.owned[p]
  }

  /** In doubt a round that begins agrees with what pods may hold, and a revoke that fails is of shards no pod may hold in excess. */
  ghost predicate Cautious(threshold: real, s: State, step: Step, mode: Mode) {
    mode.InDoubt? ==>
      && (step.RevokeReply? && !step.ok && s.phase.Revoking? ==>
            Spares(mode.bound, s.table, Held(s.phase.plan.unassign, step.pod)))
      && (step.Begin? && s.phase.Drained? ==> Agrees(threshold, mode.bound, s.table, s.phase.changes))
  }

  /** What is known in doubt. */
  ghost predicate Doubtful(threshold: real, bound: Ownership, s: State) {
    && Valid(s.table) && s.table == s.stored && ExclusivelyHeld(s)
    && (forall p :: p in s.table.owned ==> Held(s.held, p) <= Held(bound, p))
    && match s.phase
       case Revoking(plan, pending, failed) =>
         && plan.unassign == PlanOf(s.table, threshold).unassign
         && (forall p :: p in failed ==> Spares(bound, s.table, Held(plan.unassign, p)))
         && (forall p :: p in s.table.owned && p !in pending && p !in failed ==> Held(s.held, p) !! Held(plan.unassign, p))
         && (forall p :: p in s.table.owned ==> Covers(threshold, s.table, p, Held(bound, p)))
       case Assigning(_, _) => false
       case Unsaved(_) => false
       case _ => true
  }

  ghost predicate Safe(threshold: real, s: State, mode: Mode) {
    match mode
    case Certain => Bounded(s)
    case InDoubt(bound) => Doubtful(threshold, bound, s)
  }

  lemma CrashBringsDoubt(threshold: real, s: State, unhealthy: set<Pod>, s': State)
    requires TablesValid(threshold, s) && Bounded(s) && LateCrash(s, Restart(unhealthy))
    requires Does(threshold, s, Restart(unhealthy), s')
    ensures Doubtful(threshold, MayHold(threshold, s.stored), s')
  {
    BoundedIsExclusive(threshold, s);
    forall p | p in s.stored.owned ensures Held(s.held, p) <= Held(MayHold(threshold, s.stored), p) {
      assert Held(s.held, p) <= Held(Applied(s.stored.owned, s.phase.plan), p);
    }
  }

  lemma NewHoldNothing(threshold: real, s: State, s': State, p: Pod)
    requires Does(threshold, s, Begin, s') && p in s'.table.owned
    ensures s'.held == s.held
    ensures (p in s.table.owned && p !in s.phase.changes.removed) || Held(s.held, p) == {}
  {
    var c := s.phase.changes;
    assert (p in s.table.owned && p !in c.removed) || p in c.added;
  }

  lemma StayingIs(bound: Ownership, t: Table, c: Changes, p: Pod)
    ensures Held(Staying(bound, t, c), p) == if p in t.owned && p !in c.removed then Held(bound, p) else {}
  {
  }

  lemma DoubtfulBeginAt(threshold: real, bound: Ownership, s: State, s': State, p: Pod)
    requires Valid(s.table) && Does(threshold, s, Begin, s') && p in s'.table.owned
    requires forall q :: q in s.table.owned ==> Held(s.held, q) <= Held(bound, q)
    requires Agrees(threshold, bound, s.table, s.phase.changes)
    ensures var c := s.phase.changes;
            && Held(s'.held, p) <= Held(Staying(bound, s.table, c), p)
            && Covers(threshold, s'.table, p, Held(Staying(bound, s.table, c), p))
            && (Held(s'.held, p) == {} || (p in s.table.owned && p !in c.removed))
  {
    NewHoldNothing(threshold, s, s', p);
    StayingIs(bound, s.table, s.phase.changes, p);
  }

  lemma DoubtfulBegin(threshold: real, bound: Ownership, s: State, s': State)
    requires TablesValid(threshold, s) && Doubtful(threshold, bound, s) && Does(threshold, s, Begin, s')
    requires Agrees(threshold, bound, s.table, s.phase.changes)
    ensures Doubtful(threshold, Staying(bound, s.table, s.phase.changes), s')
  {
    var now := Staying(bound, s.table, s.phase.changes);
    forall p | p in s'.table.owned
      ensures Held(s'.held, p) <= Held(now, p) && Covers(threshold, s'.table, p, Held(now, p))
      ensures p !in s'.phase.pending ==> Held(s'.held, p) !! Held(s'.phase.plan.unassign, p)
    {
      DoubtfulBeginAt(threshold, bound, s, s', p);
    }
    forall p, q | p in s'.table.owned && q in s'.table.owned && p != q ensures Held(s'.held, p) !! Held(s'.held, q) {
      DoubtfulBeginAt(threshold, bound, s, s', p);
      DoubtfulBeginAt(threshold, bound, s, s', q);
      assert s'.held == s.held;
    }
  }

  lemma LessIsExclusive(s: State, held: Ownership)
    requires ExclusivelyHeld(s) && forall q :: Held(held, q) <= Held(s.held, q)
    ensures ExclusivelyHeld(s.(held := held))
  {
    forall p, q | p in s.table.owned && q in s.table.owned && p != q ensures Held(held, p) !! Held(held, q) {
      assert Held(s.held, p) !! Held(s.held, q);
    }
  }

  lemma DoubtfulLess(threshold: real, bound: Ownership, s: State, held: Ownership)
    requires Doubtful(threshold, bound, s) && forall q :: Held(held, q) <= Held(s.held, q)
    ensures Doubtful(threshold, bound, s.(held := held))
  {
    LessIsExclusive(s, held);
    if s.phase.Revoking? {
      forall p | p in s.table.owned && p !in s.phase.pending && p !in s.phase.failed
        ensures Held(held, p) !! Held(s.phase.plan.unassign, p)
      {
        assert Held(s.held, p) !! Held(s.phase.plan.unassign, p);
      }
    }
  }

  lemma DoubtfulShrinks(threshold: real, bound: Ownership, s: State, p: Pod, gone: set<ShardId>)
    requires Doubtful(threshold, bound, s)
    ensures Doubtful(threshold, bound, s.(held := s.held[p := Held(s.held, p) - gone]))
  {
    var now := Held(s.held, p) - gone;
    forall q ensures Held(s.held[p := now], q) <= Held(s.held, q) { HeldAfter(s.held, p, now, q); }
    DoubtfulLess(threshold, bound, s, s.held[p := now]);
  }

  lemma DoubtfulReply(threshold: real, bound: Ownership, s: State, p: Pod, ok: bool, s': State)
    requires Doubtful(threshold, bound, s) && Does(threshold, s, RevokeReply(p, ok), s')
    requires !ok ==> Spares(bound, s.table, Held(s.phase.plan.unassign, p))
    ensures Doubtful(threshold, bound, s')
  {
    forall f | f in s'.phase.failed ensures Spares(bound, s.table, Held(s.phase.plan.unassign, f)) {
      assert f in s.phase.failed || (f == p && !ok);
    }
  }

  /** A dropped shard was asked of some pod whose revoke failed, so whoever may hold it owns it. */
  lemma DroppedIsOwned(bound: Ownership, t: Table, plan: Plan, failed: set<Pod>, shards: set<ShardId>, p: Pod, x: ShardId)
    requires shards == ShardsOf(RevokeShards(plan.unassign, (p: Pod) => p !in failed))
    requires forall f :: f in failed ==> Spares(bound, t, Held(plan.unassign, f))
    requires p in t.owned && x in Held(bound, p) && x in shards
    ensures x in t.owned[p]
  {
    var rest := RevokeShards(plan.unassign, (p: Pod) => p !in failed);
    var f :| f in rest && x in rest[f];
    assert f in failed && Spares(bound, t, Held(plan.unassign, f));
    assert x in Held(bound, p) * Held(plan.unassign, f);
  }

  lemma DoubtEndsAt(bound: Ownership, t: Table, plan: Plan, failed: set<Pod>, shards: set<ShardId>, p: Pod, x: ShardId)
    requires shards == ShardsOf(RevokeShards(plan.unassign, (p: Pod) => p !in failed))
    requires forall f :: f in failed ==> Spares(bound, t, Held(plan.unassign, f))
    requires Legal(t, plan) && p in t.owned && x in Held(bound, p)
    requires p in failed || x !in Held(plan.unassign, p)
    requires x in Held(Applied(t.owned, plan), p) || x in Held(plan.unassign, p)
    ensures x in Held(Applied(t.owned, WithoutShards(plan, shards)), p)
  {
    AppliedWithoutShards(t, plan, shards, p, x);
    if x in shards {
      DroppedIsOwned(bound, t, plan, failed, shards, p, x);
    } else {
      HeldIsKept(plan, failed, shards, p, x);
    }
  }

  lemma KeptInDoubt(threshold: real, bound: Ownership, s: State, shards: set<ShardId>, p: Pod, x: ShardId)
    requires TablesValid(threshold, s) && Doubtful(threshold, bound, s) && s.phase.Revoking? && s.phase.pending == {}
    requires var failed := s.phase.failed; shards == ShardsOf(RevokeShards(s.phase.plan.unassign, (p: Pod) => p !in failed))
    requires p in s.table.owned && x in Held(s.held, p)
    ensures x in Held(Applied(s.table.owned, WithoutShards(s.phase.plan, shards)), p)
  {
    HeldInDoubt(threshold, bound, s, p, x);
    DoubtEndsAt(bound, s.table, s.phase.plan, s.phase.failed, shards, p, x);
  }

  /** Once all revokes are done each pod holds at most what the plan leaves it. */
  lemma DoubtEnds(threshold: real, bound: Ownership, s: State, s': State)
    requires TablesValid(threshold, s) && Doubtful(threshold, bound, s) && Does(threshold, s, StartAssigning, s')
    ensures Bounded(s')
  {
    var shards := StartsWith(threshold, s, s');
    var after := Applied(s.table.owned, WithoutShards(s.phase.plan, shards));
    forall p, x | p in s.table.owned && x in Held(s.held, p) ensures x in Held(after, p) {
      KeptInDoubt(threshold, bound, s, shards, p, x);
    }
    BoundedWithin(s', after);
  }

  lemma HeldInDoubt(threshold: real, bound: Ownership, s: State, p: Pod, x: ShardId)
    requires TablesValid(threshold, s) && Doubtful(threshold, bound, s) && s.phase.Revoking? && s.phase.pending == {}
    requires p in s.table.owned && x in Held(s.held, p)
    ensures x in Held(bound, p) && (p in s.phase.failed || x !in Held(s.phase.plan.unassign, p))
    ensures x in Held(Applied(s.table.owned, s.phase.plan), p) || x in Held(s.phase.plan.unassign, p)
  {
    assert Covers(threshold, s.table, p, Held(bound, p)) && Held(s.held, p) <= Held(bound, p);
  }

  lemma DoubtfulElse(threshold: real, bound: Ownership, s: State, step: Step, s': State)
    requires Doubtful(threshold, bound, s) && Does(threshold, s, step, s')
    requires step.Enter? || step.Notify? || step.Arrive? || step.Drain? || step.Restart?
    ensures Doubtful(threshold, bound, s')
  {
  }

  lemma NoLaterPhase(threshold: real, bound: Ownership, s: State, step: Step, s': State)
    requires Doubtful(threshold, bound, s) && Does(threshold, s, step, s')
    ensures !s.phase.Assigning? && !s.phase.Unsaved? && !LateCrash(s, step)
    ensures !step.AssignEffect? && !step.AssignReply? && !step.Apply? && !step.Save?
  {
  }

  lemma DoubtGoesOn(threshold: real, bound: Ownership, s: State, step: Step, s': State)
    requires Doubtful(threshold, bound, s) && Does(threshold, s, step, s')
    requires !step.Begin? && !step.StartAssigning? && Cautious(threshold, s, step, InDoubt(bound))
    ensures Doubtful(threshold, bound, s')
  {
    NoLaterPhase(threshold, bound, s, step, s');
    if step.RevokeEffect? {
      DoubtfulShrinks(threshold, bound, s, step.pod, step.gone);
    } else if step.Lose? {
      DoubtfulShrinks(threshold, bound, s, step.pod, step.lost);
    } else if step.RevokeReply? {
      DoubtfulReply(threshold, bound, s, step.pod, step.ok, s');
    } else {
      DoubtfulElse(threshold, bound, s, step, s');
    }
  }

  lemma DoubtfulStep(threshold: real, bound: Ownership, s: State, step: Step, s': State)
    requires TablesValid(threshold, s) && Doubtful(threshold, bound, s) && Does(threshold, s, step, s')
    requires Cautious(threshold, s, step, InDoubt(bound))
    ensures Safe(threshold, s', NextMode(threshold, s, step, InDoubt(bound)))
  {
    NoLaterPhase(threshold, bound, s, step, s');
    if step.Begin? {
      DoubtfulBegin(threshold, bound, s, s');
    } else if step.StartAssigning? {
      DoubtEnds(threshold, bound, s, s');
    } else {
      DoubtGoesOn(threshold, bound, s, step, s');
    }
  }

  lemma SafeStep(threshold: real, s: State, step: Step, s': State, mode: Mode)
    requires TablesValid(threshold, s) && Safe(threshold, s, mode) && Does(threshold, s, step, s')
    requires Cautious(threshold, s, step, mode)
    ensures Safe(threshold, s', NextMode(threshold, s, step, mode))
  {
    match mode
    case InDoubt(bound) => DoubtfulStep(threshold, bound, s, step, s');
    case Certain =>
      if LateCrash(s, step) {
        CrashBringsDoubt(threshold, s, step.unhealthy, s');
      } else {
        BoundedStep(threshold, s, step, s');
      }
  }

  // ---------------------------------------------------------------- over whole runs

  ghost predicate AllCautious(threshold: real, states: seq<State>, steps: seq<Step>, n: nat)
    requires n <= |steps| < |states|
  {
    forall k :: 0 <= k < n ==> Cautious(threshold, states[k], steps[k], ModeAt(threshold, states, steps, k))
  }

  lemma {:induction false} RunIsSafe(threshold: real, states: seq<State>, steps: seq<Step>, i: nat)
    requires IsRun(threshold, states, steps) && Init(states[0]) && i < |states| && AllCautious(threshold, states, steps, i)
    ensures Safe(threshold, states[i], ModeAt(threshold, states, steps, i))
  {
    if i > 0 {
      RunKeepsTables(threshold, states, steps, i - 1);
      RunIsSafe(threshold, states, steps, i - 1);
      SafeStep(threshold, states[i - 1], steps[i - 1], states[i], ModeAt(threshold, states, steps, i - 1));
    }
  }

  /**
   * In every run, with any number of crashes, no two registered pods ever hold the same shard, if after a late crash the
   * rounds agree with what pods may hold, and a revoke that fails is of shards no pod may hold beyond its entry, until the
   * revokes of one round are through.
   */
  lemma RunStaysExclusive(threshold: real, states: seq<State>, steps: seq<Step>, i: nat)
    requires IsRun(threshold, states, steps) && Init(states[0]) && i < |states| && AllCautious(threshold, states, steps, i)
    ensures ExclusivelyHeld(states[i])
  {
    RunKeepsTables(threshold, states, steps, i);
    RunIsSafe(threshold, states, steps, i);
    if ModeAt(threshold, states, steps, i).Certain? {
      BoundedIsExclusive(threshold, states[i]);
    }
  }
}
