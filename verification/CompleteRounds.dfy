/** A round can be carried out: from every valid table some run without failures plans, moves, applies and saves. */
module CompleteRounds {
  import opened Ordered
  import opened ShardModel
  import opened Rebalancing
  import opened ShardManagement
  import opened Protocol
  import opened Recovery
  import opened LateCrashRuns

  /** A pod receives all it is sent and says so. */
  lemma {:induction false} TakesAll(w: Setting, r: Run, s: State, plan: Plan, pending: set<Pod>, p: Pod, s': State) returns (r': Run)
    requires Leads(w, r, s) && s.phase == Assigning(plan, pending) && p in pending
    requires s' == s.(held := s.held[p := Held(s.held, p) + Held(plan.assign, p)], phase := Assigning(plan, pending - {p}))
    ensures Leads(w, r', s') && |r'.steps| == |r.steps| + 2
  {
    var sent := Held(plan.assign, p);
    var s1 := s.(held := s.held[p := Held(s.held, p) + sent]);
    r' := Then(w, r, s, AssignEffect(p, sent), s1);
    RepliesTaken(w.threshold, s1, plan, pending, p, s');
    r' := Then(w, r', s1, AssignReply(p, true), s');
  }

  lemma RepliesTaken(threshold: real, s: State, plan: Plan, pending: set<Pod>, p: Pod, s': State)
    requires s.phase == Assigning(plan, pending) && p in pending && Held(plan.assign, p) <= Held(s.held, p)
    requires s' == s.(phase := Assigning(plan, pending - {p}))
    ensures Does(threshold, s, AssignReply(p, true), s')
  {
  }

  /** What pods hold grows, and those in the set hold what they are sent. */
  ghost predicate Received(held: Ownership, held': Ownership, plan: Plan, pods: set<Pod>) {
    && (forall q :: Held(held, q) <= Held(held', q))
    && forall q :: q in pods ==> Held(plan.assign, q) <= Held(held', q)
  }

  lemma ReceivedMore(held: Ownership, held': Ownership, plan: Plan, pods: set<Pod>, p: Pod)
    requires Received(held[p := Held(held, p) + Held(plan.assign, p)], held', plan, pods - {p})
    ensures Received(held, held', plan, pods)
  {
    var now := Held(held, p) + Held(plan.assign, p);
    forall q ensures Held(held, q) <= Held(held', q) { HeldAfter(held, p, now, q); }
    HeldAfter(held, p, now, p);
  }

  lemma {:induction false} AllTake(w: Setting, r: Run, s: State, plan: Plan, pending: set<Pod>) returns (r': Run, s': State)
    requires Leads(w, r, s) && s.phase == Assigning(plan, pending)
    ensures Leads(w, r', s') && |r'.steps| == |r.steps| + 2 * |pending|
    ensures s' == s.(held := s'.held, phase := Assigning(plan, {})) && Received(s.held, s'.held, plan, pending)
    decreases |pending|
  {
    if pending == {} {
      r', s' := r, s;
    } else {
      var o := Pick(pending);
      var now := s.held[o := Held(s.held, o) + Held(plan.assign, o)];
      var s1 := s.(held := now, phase := Assigning(plan, pending - {o}));
      r' := TakesAll(w, r, s, plan, pending, o, s1);
      r', s' := AllTake(w, r', s1, plan, pending - {o});
      ReceivedMore(s.held, s'.held, plan, pending, o);
    }
  }

  lemma {:induction false} AppliesAndSaves(w: Setting, r: Run, s: State, t: Table, plan: Plan, after: Table)
    returns (r': Run, s': State)
    requires Leads(w, r, s) && s.phase == Assigning(plan, {}) && s.table == t
    requires after == t.(owned := Applied(t.owned, plan))
    ensures Leads(w, r', s') && |r'.steps| == |r.steps| + 2
    ensures s'.phase == Arriving && s'.table == s'.stored == after && s'.held == s.held
  {
    var s1 := s.(phase := Unsaved(plan), table := after);
    r' := Then(w, r, s, Apply, s1);
    s' := s1.(phase := Arriving, stored := after);
    r' := Then(w, r', s1, Save, s');
  }

  lemma {:induction false} WholeRound(w: Setting, t: Table, plan: Plan, after: Table) returns (r: Run, s: State)
    requires Valid(t) && plan == Repeated(w.threshold, t) && after == t.(owned := Applied(t.owned, plan))
    requires w.start == Started(t) && w.k == 7 + 2 * |plan.unassign.Keys| + 2 * |plan.assign.Keys|
    ensures Leads(w, r, s) && |r.steps| == w.k && s.phase == Arriving && s.table == s.stored == after
    ensures forall p :: p in plan.assign ==> Held(plan.assign, p) <= Held(s.held, p)
  {
    var r0, s0 := FirstBegin(w, t, plan);
    var r1, s1 := AllGiveUp(w, r0, s0, plan, plan.unassign.Keys, 0, 0);
    var s2 := s1.(phase := Assigning(plan, plan.assign.Keys));
    StartsAssigning(w.threshold, s1, plan, s2);
    var r2 := Then(w, r1, s1, StartAssigning, s2);
    var r3, s3 := AllTake(w, r2, s2, plan, plan.assign.Keys);
    r, s := AppliesAndSaves(w, r3, s3, t, plan, after);
  }

  lemma WantedIsApplied(threshold: real, t: Table, plan: Plan)
    requires Valid(t) && plan == Repeated(threshold, t)
    ensures Applied(t.owned, plan) == Wanted(threshold, t)
  {
    RoundPlanIsLegal(t, t.owned.Keys, threshold);
  }

  /** A run of allowed steps that ends before its crash has none, and no failed revoke. */
  lemma {:induction false} NoCrash(w: Setting, r: Run, s: State)
    requires Leads(w, r, s) && |r.steps| <= w.k
    ensures IsRun(w.threshold, r.states, r.steps) && r.states[0] == w.start && r.states[|r.steps|] == s
    ensures forall i :: 0 <= i < |r.steps| ==> !r.steps[i].Restart? && (r.steps[i].RevokeReply? ==> r.steps[i].ok)
  {
    LeadsIsRun(w, r, s);
    forall i | 0 <= i < |r.steps| ensures !r.steps[i].Restart? && (r.steps[i].RevokeReply? ==> r.steps[i].ok) {
      assert Allowed(w, i, r.states[i], r.steps[i]);
    }
  }

  lemma HoldsExactly(threshold: real, t: Table, s: State, after: Table, p: Pod)
    requires Valid(t) && after == t.(owned := Wanted(threshold, t)) && s.phase == Arriving && s.table == after
    requires Bounded(s) && p in after.owned
    requires forall q :: q in Repeated(threshold, t).assign ==> Held(Repeated(threshold, t).assign, q) <= Held(s.held, q)
    ensures Held(s.held, p) == after.owned[p]
  {
    WantedPods(threshold, t);
    RepeatedAt(threshold, t, p);
    assert Held(s.held, p) <= after.owned[p];
  }

  /**
   * From every valid table, started with healthy pods, some run without a restart or a failed revoke ends with the planned
   * table in memory and stored, every executor holding exactly its entry, and the worker waiting for the next round.
   */
  lemma RoundCompletes(threshold: real, t: Table) returns (states: seq<State>, steps: seq<Step>)
    requires Valid(t)
    ensures IsRun(threshold, states, steps) && states[0] == Started(t) && Init(states[0])
    ensures forall i :: 0 <= i < |steps| ==> !steps[i].Restart? && (steps[i].RevokeReply? ==> steps[i].ok)
    ensures var s := states[|steps|];
            && s.phase == Arriving && s.table == s.stored == t.(owned := Wanted(threshold, t))
            && forall p :: p in s.table.owned ==> Held(s.held, p) == s.table.owned[p]
  {
    var plan := Repeated(threshold, t);
    var after := t.(owned := Applied(t.owned, plan));
    WantedIsApplied(threshold, t, plan);
    var w := Setting(threshold, Started(t), 7 + 2 * |plan.unassign.Keys| + 2 * |plan.assign.Keys|, Changes({}, {}));
    var r, s := WholeRound(w, t, plan, after);
    NoCrash(w, r, s);
    StartedIsInit(t);
    states, steps := r.states, r.steps;
    EndsBounded(threshold, states, steps);
    forall p | p in after.owned ensures Held(s.held, p) == after.owned[p] { HoldsExactly(threshold, t, s, after, p); }
  }

  lemma EndsBounded(threshold: real, states: seq<State>, steps: seq<Step>)
    requires IsRun(threshold, states, steps) && Init(states[0]) && forall i :: 0 <= i < |steps| ==> !steps[i].Restart?
    ensures Bounded(states[|steps|])
  {
    RunIsExclusive(threshold, states, steps, |steps|);
  }
}
