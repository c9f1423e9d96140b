/**
 Recovery from a crash: after a restart with every stored pod healthy, the next round repeats the stopped one, through
 further such restarts and with calls that come once the changes are drained.
 */
module Recovery {
  import opened Induction
  import opened ShardModel
  import opened Rebalancing
  import opened ShardManagement
  import opened Protocol

  /** The table the planner wants for t. */
  function Wanted(threshold: real, t: Table): Ownership
    requires Valid(t)
  {
    Applied(t.owned, PlanOf(t, threshold))
  }

  /** The plan of the repeated round. */
  function Repeated(threshold: real, t: Table): Plan
    requires Valid(t)
  {
    RoundPlan(t, t.owned.Keys, threshold)
  }

  /** Every pod holds at most what it owns and what the planner wants it to have. */
  ghost predicate HeldBetween(threshold: real, t: Table, held: Ownership)
    requires Valid(t)
  {
    forall p :: p in t.owned ==> Held(held, p) <= t.owned[p] + Held(Wanted(threshold, t), p)
  }

  ghost predicate HeldWanted(threshold: real, t: Table, held: Ownership)
    requires Valid(t)
  {
    forall p :: p in t.owned ==> Held(held, p) <= Held(Wanted(threshold, t), p)
  }

  /** From the restart up to the moment the repeated round is applied. */
  ghost predicate Recovering(threshold: real, t: Table, s: State) {
    && Valid(t) && s.table == s.stored == t && ExclusivelyHeld(s) && HeldBetween(threshold, t, s.held)
    && match s.phase
       case Drained(changes) => changes == Changes(t.owned.Keys, {})
       case Revoking(plan, pending, failed) =>
         && plan == Repeated(threshold, t) && failed == {}
         && forall p :: p in t.owned && p !in pending ==> Held(s.held, p) !! Held(plan.unassign, p)
       case Assigning(plan, _) => plan == Repeated(threshold, t) && HeldWanted(threshold, t, s.held)
       case Unsaved(_) => false
       case _ => s.pending == Changes(t.owned.Keys, {})
  }

  /** The pod changes of the round are taken; what comes now is for the next one. */
  predicate IsDrained(s: State) { s.phase.Drained? || s.phase.Revoking? || s.phase.Assigning? }

  /**
   * No failed revoke, restarts only with all stored pods healthy, and no pod change for this round: a call comes after the
   * drain, or is from a stored pod that registers.
   */
  predicate Smooth(s: State, step: Step) {
    && (step.Enter? ==> IsDrained(s) || (step.call.Register? && step.call.pod in s.stored.owned))
    && (step.Restart? ==> step.unhealthy == {})
    && (step.RevokeReply? ==> step.ok)
  }

  lemma EarlyRestart(threshold: real, s: State, s': State)
    requires TablesValid(threshold, s) && Bounded(s) && !s.phase.Assigning? && !s.phase.Unsaved?
    requires Does(threshold, s, Restart({}), s')
    ensures Recovering(threshold, s.stored, s')
  {
    BoundedIsExclusive(threshold, s);
  }

  lemma LateRestart(threshold: real, s: State, s': State)
    requires TablesValid(threshold, s) && Bounded(s) && (s.phase.Assigning? || s.phase.Unsaved?)
    requires Does(threshold, s, Restart({}), s')
    ensures Recovering(threshold, s.stored, s')
  {
    BoundedIsExclusive(threshold, s);
    var t := s.stored;
    forall p | p in t.owned ensures Held(s.held, p) <= t.owned[p] + Held(Wanted(threshold, t), p) {
      assert Held(s.held, p) <= Held(Applied(t.owned, s.phase.plan), p);
    }
  }

  /** A restart with all stored pods healthy starts a recovery, whenever the manager stopped. */
  lemma RestartStartsRecovery(threshold: real, s: State, s': State)
    requires TablesValid(threshold, s) && Bounded(s) && Does(threshold, s, Restart({}), s')
    ensures Recovering(threshold, s.stored, s')
  {
    if s.phase.Assigning? || s.phase.Unsaved? {
      LateRestart(threshold, s, s');
    } else {
      EarlyRestart(threshold, s, s');
    }
  }

  lemma WithoutNothing(m: Ownership)
    ensures Without(m, {}) == m
  {
    forall p | p in m ensures Without(m, {})[p] == m[p] { }
  }

  lemma NothingFails(plan: Plan, failed: set<Pod>)
    requires failed == {}
    ensures Surviving(plan, (p: Pod) => p !in failed) == plan
  {
    assert RevokeShards(plan.unassign, (p: Pod) => p !in failed) == map[];
    assert ShardsOf(map[]) == {};
    WithoutNothing(plan.assign);
    WithoutNothing(plan.unassign);
  }

  /** The repeated round sends every pod exactly what the planner wants it to have. */
  lemma RepeatedAt(threshold: real, t: Table, p: Pod)
    requires Valid(t) && p in t.owned
    ensures p in Repeated(threshold, t).assign
    ensures Held(Repeated(threshold, t).assign, p) == Held(Wanted(threshold, t), p)
    ensures forall x :: x in t.owned[p] ==> x in Held(Wanted(threshold, t), p) || x in Held(Repeated(threshold, t).unassign, p)
  {
    PlanIsLegal(t, threshold);
    var plan := PlanOf(t, threshold);
    AppliedAt(t, plan, p);
    ResentIsKept(t.owned[p], Held(plan.assign, p), Held(plan.unassign, p));
  }

  lemma WantedPods(threshold: real, t: Table)
    requires Valid(t)
    ensures Wanted(threshold, t).Keys == t.owned.Keys
  {
    PlanIsLegal(t, threshold);
  }

  lemma WantedIsExclusive(threshold: real, t: Table, held: Ownership)
    requires Valid(t) && HeldWanted(threshold, t, held)
    ensures forall p, q :: p in t.owned && q in t.owned && p != q ==> Held(held, p) !! Held(held, q)
  {
    PlanIsLegal(t, threshold);
    WantedPods(threshold, t);
    HeldWithin(held, Wanted(threshold, t));
  }

  lemma RecoveringBegin(threshold: real, t: Table, s: State, s': State)
    requires Recovering(threshold, t, s) && Does(threshold, s, Begin, s')
    ensures Recovering(threshold, t, s')
  {
    RestartReturnsAll(t);
    forall p | p in t.owned && p !in s'.phase.pending ensures Held(s'.held, p) !! Held(s'.phase.plan.unassign, p) {
    }
  }

  lemma RecoveringStartAssigning(threshold: real, t: Table, s: State, s': State)
    requires Recovering(threshold, t, s) && Does(threshold, s, StartAssigning, s')
    ensures Recovering(threshold, t, s')
  {
    NothingFails(s.phase.plan, s.phase.failed);
    forall p | p in t.owned ensures Held(s.held, p) <= Held(Wanted(threshold, t), p) {
      RepeatedAt(threshold, t, p);
      assert Held(s.held, p) !! Held(s.phase.plan.unassign, p);
    }
  }

  lemma RecoveringShrinks(threshold: real, t: Table, s: State, p: Pod, gone: set<ShardId>)
    requires Recovering(threshold, t, s)
    ensures Recovering(threshold, t, s.(held := s.held[p := Held(s.held, p) - gone]))
  {
    var now := Held(s.held, p) - gone;
    forall q ensures Held(s.held[p := now], q) <= Held(s.held, q) { HeldAfter(s.held, p, now, q); }
  }

  lemma RecoveringAssign(threshold: real, t: Table, s: State, p: Pod, got: set<ShardId>, s': State)
    requires Recovering(threshold, t, s) && Does(threshold, s, AssignEffect(p, got), s')
    ensures Recovering(threshold, t, s')
  {
    forall q | q in t.owned ensures Held(s'.held, q) <= Held(Wanted(threshold, t), q) {
      HeldAfter(s.held, p, Held(s.held, p) + got, q);
      RepeatedAt(threshold, t, q);
    }
    WantedIsExclusive(threshold, t, s'.held);
  }

  lemma RecoveringRestart(threshold: real, t: Table, s: State, s': State)
    requires Recovering(threshold, t, s) && Does(threshold, s, Restart({}), s')
    ensures Recovering(threshold, t, s')
  {
  }

  lemma KnownRegisters(pods: set<Pod>, call: Call)
    requires call.Register? && call.pod in pods
    ensures Noted(Changes(pods, {}), call) == Changes(pods, {})
  {
    assert pods + {call.pod} == pods;
  }

  lemma RecoveringEnter(threshold: real, t: Table, s: State, call: Call, s': State)
    requires Recovering(threshold, t, s) && Does(threshold, s, Enter(call), s') && Smooth(s, Enter(call))
    ensures Recovering(threshold, t, s')
  {
    if !IsDrained(s) { KnownRegisters(t.owned.Keys, call); }
  }

  /** Every smooth step short of applying the round keeps recovery going, hence exclusive ownership. */
  lemma RecoveringStep(threshold: real, t: Table, s: State, step: Step, s': State)
    requires Recovering(threshold, t, s) && Does(threshold, s, step, s') && Smooth(s, step) && !step.Apply?
    ensures Recovering(threshold, t, s')
  {
    match step
    case Enter(call) => RecoveringEnter(threshold, t, s, call, s');
    case Restart(_) => RecoveringRestart(threshold, t, s, s');
    case Begin => RecoveringBegin(threshold, t, s, s');
    case StartAssigning => RecoveringStartAssigning(threshold, t, s, s');
    case RevokeEffect(p, gone) => RecoveringShrinks(threshold, t, s, p, gone);
    case Lose(p, lost) => RecoveringShrinks(threshold, t, s, p, lost);
    case AssignEffect(p, got) => RecoveringAssign(threshold, t, s, p, got, s');
    case _ => RecoveringElse(threshold, t, s, step, s');
  }

  lemma RecoveringElse(threshold: real, t: Table, s: State, step: Step, s': State)
    requires Recovering(threshold, t, s) && Does(threshold, s, step, s') && Smooth(s, step)
    requires step.Notify? || step.Arrive? || step.Drain? || step.RevokeReply? || step.AssignReply? || step.Save?
    ensures Recovering(threshold, t, s')
  {
  }

  /** Applying the repeated round reaches the table the stopped round would have written, and bounds the executors by it. */
  lemma RecoveryEnds(threshold: real, t: Table, s: State, s': State)
    requires Recovering(threshold, t, s) && Does(threshold, s, Apply, s')
    ensures s'.table == t.(owned := Wanted(threshold, t))
    ensures Bounded(s') && ExclusivelyHeld(s')
  {
    RoundPlanIsLegal(t, t.owned.Keys, threshold);
    WantedPods(threshold, t);
    WantedIsExclusive(threshold, t, s.held);
  }

  // ---------------------------------------------------------------- over a whole recovery

  /** A restart with all stored pods healthy at any moment of a run, and smooth steps up to the end of the round or before. */
  ghost predicate IsRecovery(threshold: real, states: seq<State>, steps: seq<Step>, i: nat) {
    && IsRun(threshold, states, steps) && 0 < i < |states|
    && TablesValid(threshold, states[0]) && Bounded(states[0])
    && steps[0] == Restart({})
    && (forall k :: 0 < k < i ==> Smooth(states[k], steps[k]))
    && (forall k :: 0 < k < i - 1 ==> !steps[k].Apply?)
  }

  ghost predicate Ends(steps: seq<Step>, i: nat)
    requires 0 < i <= |steps|
  {
    i > 1 && steps[i - 1].Apply?
  }

  lemma RecoveryShorter(threshold: real, states: seq<State>, steps: seq<Step>, i: nat)
    requires IsRecovery(threshold, states, steps, i) && i > 1
    ensures IsRecovery(threshold, states, steps, i - 1) && !Ends(steps, i - 1)
    ensures Does(threshold, states[i - 1], steps[i - 1], states[i]) && Smooth(states[i - 1], steps[i - 1])
  {
  }

  /** Where one more smooth step of a recovery leads: to the full result if it applies the round. */
  ghost predicate Recovered(threshold: real, t: Table, s: State, ended: bool) {
    && Valid(t) && ExclusivelyHeld(s)
    && if ended then Bounded(s) && s.table == t.(owned := Wanted(threshold, t)) else Recovering(threshold, t, s)
  }

  lemma RecoveredStep(threshold: real, t: Table, s: State, step: Step, s': State)
    requires Recovered(threshold, t, s, false) && Does(threshold, s, step, s') && Smooth(s, step)
    ensures Recovered(threshold, t, s', step.Apply?)
  {
    if step.Apply? {
      RecoveryEnds(threshold, t, s, s');
    } else {
      RecoveringStep(threshold, t, s, step, s');
    }
  }

  /**
   * After a crash at any moment, a restart with all stored pods healthy, and any smooth run of steps, further restarts
   * included: ownership stays exclusive throughout, and the round that is applied reaches what the planner wants for the
   * stored table.
   */
  lemma {:induction false} RecoveryRun(threshold: real, states: seq<State>, steps: seq<Step>, i: nat)
    requires IsRecovery(threshold, states, steps, i)
    ensures Recovered(threshold, states[0].stored, states[i], Ends(steps, i))
  {
    if i == 1 {
      RestartStartsRecovery(threshold, states[0], states[1]);
    } else {
      RecoveryShorter(threshold, states, steps, i);
      RecoveryRun(threshold, states, steps, i - 1);
      RecoveredStep(threshold, states[0].stored, states[i - 1], steps[i - 1], states[i]);
    }
  }

  // ---------------------------------------------------------------- executors catch up

  /** Smooth, with every assign successful and no executor losing shards. */
  predicate Clean(s: State, step: Step) {
    Smooth(s, step) && !step.Lose? && (step.AssignReply? ==> step.ok)
  }

  /** The pods that have replied to their assign hold all they should. */
  ghost predicate CaughtUp(threshold: real, t: Table, s: State)
    requires Valid(t)
  {
    s.phase.Assigning? ==>
      forall p :: p in t.owned && p !in s.phase.pending ==> Held(Wanted(threshold, t), p) <= Held(s.held, p)
  }

  lemma CaughtUpStart(threshold: real, t: Table, s: State, s': State)
    requires Recovering(threshold, t, s) && Does(threshold, s, StartAssigning, s')
    ensures CaughtUp(threshold, t, s')
  {
    NothingFails(s.phase.plan, s.phase.failed);
    forall p | p in t.owned ensures p in s'.phase.pending { RepeatedAt(threshold, t, p); }
  }

  lemma CaughtUpGrows(threshold: real, t: Table, s: State, p: Pod, got: set<ShardId>)
    requires Valid(t) && CaughtUp(threshold, t, s)
    ensures CaughtUp(threshold, t, s.(held := s.held[p := Held(s.held, p) + got]))
  {
    var now := Held(s.held, p) + got;
    forall q ensures Held(s.held, q) <= Held(s.held[p := now], q) { HeldAfter(s.held, p, now, q); }
  }

  lemma CaughtUpAfter(threshold: real, t: Table, s: State, p: Pod)
    requires Valid(t) && CaughtUp(threshold, t, s) && s.phase.Assigning?
    requires p in t.owned ==> Held(Wanted(threshold, t), p) <= Held(s.held, p)
    ensures CaughtUp(threshold, t, s.(phase := s.phase.(pending := s.phase.pending - {p})))
  {
  }

  lemma ReplyMeansAll(threshold: real, t: Table, s: State, p: Pod, s': State)
    requires Recovering(threshold, t, s) && Does(threshold, s, AssignReply(p, true), s') && p in t.owned
    ensures Held(Wanted(threshold, t), p) <= Held(s.held, p)
  {
    RepeatedAt(threshold, t, p);
  }

  lemma CaughtUpReply(threshold: real, t: Table, s: State, p: Pod, s': State)
    requires Recovering(threshold, t, s) && CaughtUp(threshold, t, s)
    requires Does(threshold, s, AssignReply(p, true), s')
    ensures CaughtUp(threshold, t, s')
  {
    if p in t.owned { ReplyMeansAll(threshold, t, s, p, s'); }
    CaughtUpAfter(threshold, t, s, p);
  }

  lemma CaughtUpElse(threshold: real, t: Table, s: State, step: Step, s': State)
    requires Valid(t) && CaughtUp(threshold, t, s) && Does(threshold, s, step, s') && !step.Lose?
    requires !step.StartAssigning? && !step.AssignEffect? && !step.AssignReply?
    ensures CaughtUp(threshold, t, s')
  {
  }

  lemma CaughtUpStep(threshold: real, t: Table, s: State, step: Step, s': State)
    requires Recovering(threshold, t, s) && CaughtUp(threshold, t, s)
    requires Does(threshold, s, step, s') && Clean(s, step) && !step.Apply?
    ensures CaughtUp(threshold, t, s')
  {
    match step
    case StartAssigning => CaughtUpStart(threshold, t, s, s');
    case AssignEffect(p, got) => CaughtUpGrows(threshold, t, s, p, got);
    case AssignReply(p, _) => CaughtUpReply(threshold, t, s, p, s');
    case _ => CaughtUpElse(threshold, t, s, step, s');
  }

  lemma HoldsWanted(t: Table, held: Ownership, wanted: Ownership)
    requires forall p :: p in t.owned ==> Held(held, p) <= Held(wanted, p)
    requires forall p :: p in t.owned ==> Held(wanted, p) <= Held(held, p)
    ensures forall p :: p in t.owned ==> Held(held, p) == Held(wanted, p)
  {
  }

  /** Every executor holds exactly its entry. */
  ghost predicate HoldsAll(s: State) {
    forall p :: p in s.table.owned ==> Held(s.held, p) == s.table.owned[p]
  }

  lemma CaughtUpAtEnd(threshold: real, t: Table, s: State, s': State)
    requires Recovering(threshold, t, s) && CaughtUp(threshold, t, s) && Does(threshold, s, Apply, s')
    ensures HoldsAll(s')
  {
    RecoveryEnds(threshold, t, s, s');
    WantedPods(threshold, t);
    HoldsWanted(t, s.held, Wanted(threshold, t));
  }

  ghost predicate IsCleanRecovery(threshold: real, states: seq<State>, steps: seq<Step>, i: nat) {
    && IsRecovery(threshold, states, steps, i)
    && forall k :: 0 < k < i ==> Clean(states[k], steps[k])
  }

  ghost predicate CaughtUpOrDone(threshold: real, t: Table, s: State, ended: bool) {
    Valid(t) && if ended then HoldsAll(s) else CaughtUp(threshold, t, s)
  }

  lemma CleanStart(threshold: real, s: State, s': State)
    requires TablesValid(threshold, s) && Does(threshold, s, Restart({}), s')
    ensures CaughtUpOrDone(threshold, s.stored, s', false)
  {
  }

  lemma CleanStep(threshold: real, t: Table, s: State, step: Step, s': State)
    requires Recovering(threshold, t, s) && CaughtUp(threshold, t, s)
    requires Does(threshold, s, step, s') && Clean(s, step)
    ensures CaughtUpOrDone(threshold, t, s', step.Apply?)
  {
    if step.Apply? {
      CaughtUpAtEnd(threshold, t, s, s');
    } else {
      CaughtUpStep(threshold, t, s, step, s');
    }
  }

  /** Up to the k-th state. */
  ghost predicate CleanUpTo(threshold: real, states: seq<State>, steps: seq<Step>, k: nat)
    requires |states| == |steps| + 1 && k < |states|
  {
    k > 0 ==> CaughtUpOrDone(threshold, states[0].stored, states[k], Ends(steps, k))
  }

  lemma CleanNext(threshold: real, states: seq<State>, steps: seq<Step>, i: nat, k: nat)
    requires IsCleanRecovery(threshold, states, steps, i) && k < i && CleanUpTo(threshold, states, steps, k)
    ensures CleanUpTo(threshold, states, steps, k + 1)
  {
    if k == 0 {
      CleanStart(threshold, states[0], states[1]);
    } else {
      CleanLater(threshold, states, steps, i, k, states[0].stored, states[k], states[k + 1]);
    }
  }

  lemma CleanPrefix(threshold: real, states: seq<State>, steps: seq<Step>, i: nat, k: nat)
    requires IsCleanRecovery(threshold, states, steps, i) && 0 < k < i
    ensures IsRecovery(threshold, states, steps, k) && !Ends(steps, k)
    ensures Does(threshold, states[k], steps[k], states[k + 1]) && Clean(states[k], steps[k])
  {
  }

  lemma CleanLater(threshold: real, states: seq<State>, steps: seq<Step>, i: nat, k: nat, t: Table, s: State, s': State)
    requires IsCleanRecovery(threshold, states, steps, i) && 0 < k < i
    requires t == states[0].stored && s == states[k] && s' == states[k + 1]
    requires CaughtUpOrDone(threshold, t, s, Ends(steps, k))
    ensures CaughtUpOrDone(threshold, t, s', steps[k].Apply?)
  {
    CleanPrefix(threshold, states, steps, i, k);
    RecoveryRun(threshold, states, steps, k);
    CleanStep(threshold, t, s, steps[k], s');
  }

  /** After a clean recovery every executor holds exactly what the table says. */
  lemma CleanRecoveryRun(threshold: real, states: seq<State>, steps: seq<Step>, i: nat)
    requires IsCleanRecovery(threshold, states, steps, i)
    ensures CaughtUpOrDone(threshold, states[0].stored, states[i], Ends(steps, i))
  {
    var p := (k: nat) => k <= i && CleanUpTo(threshold, states, steps, k);
    forall k: nat | k < i && p(k) ensures p(k + 1) { CleanNext(threshold, states, steps, i, k); }
    Upward(p, i, i);
  }
}
