/**
 Agreement is exact: if what pods may hold after a late crash and the next round do not agree, there is a run without any
 failed revoke that ends with two pods holding one shard.
 */
module LateCrashRuns {
  import opened Induction
  import opened Ordered
  import opened ShardModel
  import opened Rebalancing
  import opened ShardManagement
  import opened Protocol
  import opened Recovery
  import opened LateCrashes

  // ---------------------------------------------------------------- runs with one late crash

  /** In doubt, no revoke fails, no restart interrupts the revokes, and the round that begins is for the given changes. */
  predicate IsFor(c: Changes, s: State, step: Step) {
    && (step.RevokeReply? ==> step.ok)
    && (step.Restart? ==> !s.phase.Revoking?)
    && (step.Begin? ==> s.phase == Drained(c))
  }

  /** A run whose only late crash comes at step k, with t stored, and whose next round is for the changes c. */
  ghost predicate OneLateCrash(threshold: real, t: Table, c: Changes, states: seq<State>, steps: seq<Step>, k: nat) {
    && IsRun(threshold, states, steps) && Init(states[0])
    && k < |steps| && LateCrash(states[k], steps[k]) && states[k].stored == t
    && (forall j :: 0 <= j < |steps| && j != k ==> !LateCrash(states[j], steps[j]))
    && (forall j :: k < j < |steps| && ModeAt(threshold, states, steps, j).InDoubt? ==> IsFor(c, states[j], steps[j]))
  }

  // ---------------------------------------------------------------- building a run

  datatype Run = Run(states: seq<State>, steps: seq<Step>)

  predicate Extends(r: Run, r': Run) { r.states <= r'.states && r.steps <= r'.steps }

  /** Where a run starts, the step of its crash and the changes of the round after it. */
  datatype Setting = Setting(threshold: real, start: State, k: nat, c: Changes)

  /** The only restart is the k-th step, no revoke fails, and after the crash a round begins for the changes c alone. */
  predicate Allowed(w: Setting, i: nat, s: State, step: Step) {
    && (step.Restart? ==> i == w.k)
    && (step.RevokeReply? ==> step.ok)
    && (step.Begin? && i > w.k ==> s.phase == Drained(w.c))
  }

  /** A run of allowed steps from the start to a state, one step after the other. */
  ghost predicate Leads(w: Setting, r: Run, s: State)
    decreases |r.steps|
  {
    if r.steps == [] then r.states == [w.start] && s == w.start else
      var n := |r.steps| - 1;
      && |r.states| == n + 2 && r.states[n + 1] == s
      && Does(w.threshold, r.states[n], r.steps[n], s) && Allowed(w, n, r.states[n], r.steps[n])
      && Leads(w, Run(r.states[..n + 1], r.steps[..n]), r.states[n])
  }

  lemma {:induction false} LeadsLength(w: Setting, r: Run, s: State)
    requires Leads(w, r, s)
    ensures |r.states| == |r.steps| + 1 && r.states[|r.steps|] == s
  {
  }

  lemma {:induction false} LeadsFrom(w: Setting, r: Run, s: State)
    requires Leads(w, r, s)
    ensures |r.states| > 0 && r.states[0] == w.start
    decreases |r.steps|
  {
    if r.steps != [] {
      var n := |r.steps| - 1;
      LeadsFrom(w, Run(r.states[..n + 1], r.steps[..n]), r.states[n]);
    }
  }

  lemma {:induction false} LeadsAt(w: Setting, r: Run, s: State, i: nat)
    requires Leads(w, r, s) && i < |r.steps| && |r.states| == |r.steps| + 1
    ensures Does(w.threshold, r.states[i], r.steps[i], r.states[i + 1]) && Allowed(w, i, r.states[i], r.steps[i])
    decreases |r.steps|
  {
    var n := |r.steps| - 1;
    if i < n {
      var before := Run(r.states[..n + 1], r.steps[..n]);
      LeadsAt(w, before, r.states[n], i);
      SameStep(r, before, i);
    }
  }

  lemma SameStep(r: Run, before: Run, i: nat)
    requires i + 1 < |before.states| && i < |before.steps| && Extends(before, r)
    ensures before.states[i] == r.states[i] && before.steps[i] == r.steps[i] && before.states[i + 1] == r.states[i + 1]
  {
  }

  lemma {:induction false} LeadsIsRun(w: Setting, r: Run, s: State)
    requires Leads(w, r, s)
    ensures IsRun(w.threshold, r.states, r.steps) && r.states[0] == w.start && r.states[|r.steps|] == s
    ensures forall i :: 0 <= i < |r.steps| ==> Allowed(w, i, r.states[i], r.steps[i])
  {
    LeadsLength(w, r, s);
    LeadsFrom(w, r, s);
    forall i | 0 <= i < |r.steps|
      ensures Does(w.threshold, r.states[i], r.steps[i], r.states[i + 1]) && Allowed(w, i, r.states[i], r.steps[i])
    {
      LeadsAt(w, r, s, i);
    }
  }

  lemma {:induction false} Then(w: Setting, r: Run, s: State, step: Step, s': State) returns (r': Run)
    requires Leads(w, r, s) && Does(w.threshold, s, step, s') && Allowed(w, |r.steps|, s, step)
    ensures Leads(w, r', s') && Extends(r, r') && |r'.steps| == |r.steps| + 1 && r'.steps[|r.steps|] == step
  {
    LeadsLength(w, r, s);
    r' := Run(r.states + [s'], r.steps + [step]);
    assert r'.states[..|r.steps| + 1] == r.states && r'.steps[..|r.steps|] == r.steps;
  }

  /** A worker that arrives while someone is about to notify gets to the drained changes. */
  lemma {:induction false} WakesUp(w: Setting, r: Run, s: State, s': State) returns (r': Run)
    requires Leads(w, r, s) && s.phase.Arriving? && !s.permit && s.notifying > 0
    requires s' == s.(phase := Drained(s.pending), notifying := s.notifying - 1, pending := Changes({}, {}),
                      base := Changes({}, {}), calls := [])
    ensures Leads(w, r', s') && Extends(r, r') && |r'.steps| == |r.steps| + 3
  {
    var s1 := s.(permit := true, notifying := s.notifying - 1);
    var s2 := s1.(phase := Woken, permit := false);
    r' := Then(w, r, s, Notify, s1);
    r' := Then(w, r', s1, Arrive, s2);
    r' := Then(w, r', s2, Drain, s');
  }

  /** A round begins; pods the table does not have hold nothing. */
  lemma {:induction false} Begins(w: Setting, r: Run, s: State, t: Table, c: Changes, n: Table, plan: Plan, s': State) returns (r': Run)
    requires Leads(w, r, s) && s.phase == Drained(c) && (|r.steps| > w.k ==> c == w.c)
    requires Valid(t) && s.table == t && n == WithChanges(t, c) && Valid(n) && c.added !! c.removed
    requires plan == RoundPlan(n, Returned(t, c), w.threshold)
    requires forall q :: q !in t.owned ==> Held(s.held, q) == {}
    requires s' == s.(table := n, stored := n, phase := Revoking(plan, plan.unassign.Keys, {}))
    ensures Leads(w, r', s') && Extends(r, r') && |r'.steps| == |r.steps| + 1
  {
    r' := Then(w, r, s, Begin, s');
  }

  /** A pod gives up what is asked of it and says so. */
  lemma {:induction false} GivesUp(w: Setting, r: Run, s: State, plan: Plan, pending: set<Pod>, p: Pod, s': State) returns (r': Run)
    requires Leads(w, r, s) && s.phase == Revoking(plan, pending, {}) && p in pending
    requires s' == s.(held := s.held[p := Held(s.held, p) - Held(plan.unassign, p)], phase := Revoking(plan, pending - {p}, {}))
    ensures Leads(w, r', s') && Extends(r, r') && |r'.steps| == |r.steps| + 2
  {
    var asked := Held(plan.unassign, p);
    var s1 := s.(held := s.held[p := Held(s.held, p) - asked]);
    r' := Then(w, r, s, RevokeEffect(p, asked), s1);
    Replies(w.threshold, s1, plan, pending, p, s');
    r' := Then(w, r', s1, RevokeReply(p, true), s');
  }

  lemma Replies(threshold: real, s: State, plan: Plan, pending: set<Pod>, p: Pod, s': State)
    requires s.phase == Revoking(plan, pending, {}) && p in pending && Held(s.held, p) !! Held(plan.unassign, p)
    requires s' == s.(phase := Revoking(plan, pending - {p}, {}))
    ensures Does(threshold, s, RevokeReply(p, true), s')
  {
    assert s.phase.failed + {} == {};
  }

  /** All revokes succeed. What is not asked of a pod it keeps, and nobody gets anything. */
  lemma {:induction false} AllGiveUp(w: Setting, r: Run, s: State, plan: Plan, pending: set<Pod>, p: Pod, x: ShardId)
    returns (r': Run, s': State)
    requires Leads(w, r, s) && s.phase == Revoking(plan, pending, {})
    ensures Leads(w, r', s') && Extends(r, r') && |r'.steps| == |r.steps| + 2 * |pending|
    ensures s' == s.(held := s'.held, phase := Revoking(plan, {}, {}))
    ensures forall q :: Held(s'.held, q) <= Held(s.held, q)
    ensures x in Held(s.held, p) && x !in Held(plan.unassign, p) ==> x in Held(s'.held, p)
    decreases |pending|
  {
    if pending == {} {
      r', s' := r, s;
    } else {
      var o := Pick(pending);
      var s1 := s.(held := s.held[o := Held(s.held, o) - Held(plan.unassign, o)], phase := Revoking(plan, pending - {o}, {}));
      r' := GivesUp(w, r, s, plan, pending, o, s1);
      r', s' := AllGiveUp(w, r', s1, plan, pending - {o}, p, x);
      forall q ensures Held(s'.held, q) <= Held(s.held, q) {
        HeldAfter(s.held, o, Held(s.held, o) - Held(plan.unassign, o), q);
      }
    }
  }

  lemma StartsAssigning(threshold: real, s: State, plan: Plan, s': State)
    requires s.phase == Revoking(plan, {}, {}) && s' == s.(phase := Assigning(plan, plan.assign.Keys))
    ensures Does(threshold, s, StartAssigning, s')
  {
    NothingFails(plan, {});
  }

  /** The assigns start, and that of x takes effect at a pod. */
  lemma {:induction false} Receives(w: Setting, r: Run, s: State, plan: Plan, p: Pod, x: ShardId, s': State) returns (r': Run)
    requires Leads(w, r, s) && s.phase == Revoking(plan, {}, {}) && x in Held(plan.assign, p)
    requires s' == s.(held := s.held[p := Held(s.held, p) + {x}], phase := Assigning(plan, plan.assign.Keys))
    ensures Leads(w, r', s') && Extends(r, r') && |r'.steps| == |r.steps| + 2
  {
    var s1 := s.(phase := Assigning(plan, plan.assign.Keys));
    StartsAssigning(w.threshold, s, plan, s1);
    r' := Then(w, r, s, StartAssigning, s1);
    r' := Then(w, r', s1, AssignEffect(p, {x}), s');
  }

  /** Pod q holds x, and no other pod holds anything new. */
  ghost predicate OnlyGains(held: Ownership, held': Ownership, q: Pod, x: ShardId) {
    x in Held(held', q) && forall o :: o != q ==> Held(held', o) <= Held(held, o)
  }

  /** All revokes succeed, and then the assign of x takes effect at pod q; another pod that held x keeps it if not asked. */
  lemma {:induction false} MovesOne(w: Setting, r: Run, s: State, plan: Plan, p: Pod, q: Pod, x: ShardId) returns (r': Run, s': State)
    requires Leads(w, r, s) && s.phase == Revoking(plan, plan.unassign.Keys, {}) && x in Held(plan.assign, q)
    ensures Leads(w, r', s') && Extends(r, r') && |r'.steps| == |r.steps| + 2 * |plan.unassign.Keys| + 2
    ensures s' == s.(held := s'.held, phase := Assigning(plan, plan.assign.Keys))
    ensures OnlyGains(s.held, s'.held, q, x)
    ensures x in Held(s.held, p) && x !in Held(plan.unassign, p) ==> x in Held(s'.held, p)
  {
    var s1;
    r', s1 := AllGiveUp(w, r, s, plan, plan.unassign.Keys, p, x);
    s' := s1.(held := s1.held[q := Held(s1.held, q) + {x}], phase := Assigning(plan, plan.assign.Keys));
    r' := Receives(w, r', s1, plan, q, x, s');
    forall o ensures Held(s'.held, o) == if o == q then Held(s1.held, q) + {x} else Held(s1.held, o) {
      HeldAfter(s1.held, q, Held(s1.held, q) + {x}, o);
    }
  }

  function CallOf(p: Pod, registers: bool): Call {
    if registers then Register(p) else Unregister(p)
  }

  /** The pending changes once each of the pods has called. */
  function NotedAll(c: Changes, pods: set<Pod>, registers: bool): Changes {
    if registers then Changes(c.added + pods, c.removed - pods) else Changes(c.added - pods, c.removed + pods)
  }

  lemma NotedOneMore(c: Changes, pods: set<Pod>, registers: bool, p: Pod)
    requires p in pods
    ensures NotedAll(Noted(c, CallOf(p, registers)), pods - {p}, registers) == NotedAll(c, pods, registers)
  {
  }

  /** Each of some pods calls. */
  lemma {:induction false} AllCall(w: Setting, r: Run, s: State, pods: set<Pod>, registers: bool) returns (r': Run, s': State)
    requires Leads(w, r, s)
    ensures Leads(w, r', s') && Extends(r, r')
    ensures s' == s.(pending := NotedAll(s.pending, pods, registers), calls := s'.calls, notifying := s.notifying + |pods|)
    decreases |pods|
  {
    if pods == {} {
      r', s' := r, s;
      assert NotedAll(s.pending, pods, registers) == s.pending;
    } else {
      var p := Pick(pods);
      var call := CallOf(p, registers);
      var s1 := s.(pending := Noted(s.pending, call), calls := s.calls + [call], notifying := s.notifying + 1);
      r' := Then(w, r, s, Enter(call), s1);
      r', s' := AllCall(w, r', s1, pods - {p}, registers);
      NotedOneMore(s.pending, pods, registers, p);
    }
  }

  // ---------------------------------------------------------------- up to the crash

  /** A started manager with all pods of the table healthy, and executors that hold what it says. */
  function Started(t: Table): State {
    var changes := Changes(t.owned.Keys, {});
    State(Arriving, false, 1, changes, changes, [], t, t, t.owned)
  }

  /** Assigns are out, and pod p holds x. */
  ghost predicate Stopped(t: Table, p: Pod, x: ShardId, s: State) {
    && s.phase.Assigning? && s.table == s.stored == t && x in Held(s.held, p)
    && forall q :: q !in t.owned ==> Held(s.held, q) == {}
  }

  lemma {:induction false} FirstBegin(w: Setting, t: Table, plan: Plan) returns (r: Run, s: State)
    requires Valid(t) && plan == Repeated(w.threshold, t) && w.start == Started(t) && w.k >= 4
    ensures Leads(w, r, s) && |r.steps| == 4 && s.phase == Revoking(plan, plan.unassign.Keys, {})
    ensures s.table == s.stored == t && s.held == t.owned
  {
    var c, s0 := Changes(t.owned.Keys, {}), Started(t);
    var s1 := s0.(phase := Drained(c), notifying := 0, pending := Changes({}, {}), base := Changes({}, {}));
    r := WakesUp(w, Run([s0], []), s0, s1);
    RestartReturnsAll(t);
    s := s1.(phase := Revoking(plan, plan.unassign.Keys, {}));
    r := Begins(w, r, s1, t, c, t, plan, s);
  }

  /** The first round, up to the point where pod p has received a shard wanted there. */
  lemma {:induction false} FirstHalf(w: Setting, t: Table, plan: Plan, p: Pod, x: ShardId) returns (r: Run, s: State)
    requires Valid(t) && plan == Repeated(w.threshold, t) && w.start == Started(t)
    requires p in t.owned && x in Held(plan.assign, p) && w.k == 6 + 2 * |plan.unassign.Keys|
    ensures Leads(w, r, s) && |r.steps| == w.k && Stopped(t, p, x, s)
  {
    var r0, s0 := FirstBegin(w, t, plan);
    r, s := MovesOne(w, r0, s0, plan, p, p, x);
    StoppedAfter(t, p, x, s0, s);
  }

  lemma StoppedAfter(t: Table, p: Pod, x: ShardId, s: State, s': State)
    requires p in t.owned && s.table == s.stored == t && s.held == t.owned && s'.phase.Assigning?
    requires s' == s.(held := s'.held, phase := s'.phase) && OnlyGains(s.held, s'.held, p, x)
    ensures Stopped(t, p, x, s')
  {
    forall q | q !in t.owned ensures Held(s'.held, q) == {} { assert Held(s'.held, q) <= Held(s.held, q); }
  }

  // ---------------------------------------------------------------- from the crash on

  /** The changes a restart and the calls after it leave pending. */
  lemma CallsGive(keys: set<Pod>, c: Changes)
    requires c.added !! c.removed && keys <= c.added + c.removed
    ensures var gone := c.removed * keys;
            var first := NotedAll(Changes(keys - gone, gone), c.added - keys, true);
            NotedAll(first, c.removed - keys, false) == c
  {
  }

  lemma {:induction false} Crashes(w: Setting, r: Run, s: State, t: Table, gone: set<Pod>, c: Changes, s': State) returns (r': Run)
    requires Leads(w, r, s) && |r.steps| == w.k && s.stored == t && gone <= t.owned.Keys
    requires c == Changes(t.owned.Keys - gone, gone)
    requires s' == s.(phase := Arriving, permit := false, notifying := 1, pending := c, base := c, calls := [], table := t)
    ensures Leads(w, r', s') && Extends(r, r') && |r'.steps| == |r.steps| + 1 && r'.steps[|r.steps|] == Restart(gone)
  {
    r' := Then(w, r, s, Restart(gone), s');
  }

  /** New pods register and some of the healthy pods of the table unregister. */
  lemma {:induction false} CallsCome(w: Setting, r: Run, s: State, c: Changes, news: set<Pod>, olds: set<Pod>) returns (r': Run, s': State)
    requires Leads(w, r, s) && s.phase.Arriving? && !s.permit && s.notifying > 0
    requires NotedAll(NotedAll(s.pending, news, true), olds, false) == c
    ensures Leads(w, r', s') && Extends(r, r') && s'.phase.Arriving? && !s'.permit && s'.notifying > 0 && s'.pending == c
    ensures s'.table == s.table && s'.stored == s.stored && s'.held == s.held
  {
    var s1;
    r', s1 := AllCall(w, r, s, news, true);
    r', s' := AllCall(w, r', s1, olds, false);
  }

  /** The crash, and the calls until exactly the changes c are pending. */
  lemma {:induction false} Restarts(w: Setting, r: Run, s: State, t: Table, p: Pod, x: ShardId) returns (r': Run, s': State)
    requires Leads(w, r, s) && |r.steps| == w.k && Stopped(t, p, x, s)
    requires w.c.added !! w.c.removed && t.owned.Keys <= w.c.added + w.c.removed
    ensures Leads(w, r', s') && Extends(r, r') && |r'.steps| > w.k && r'.steps[w.k] == Restart(w.c.removed * t.owned.Keys)
    ensures s'.phase.Arriving? && !s'.permit && s'.notifying > 0 && s'.pending == w.c
    ensures s'.table == s'.stored == t && s'.held == s.held
  {
    var keys, gone := t.owned.Keys, w.c.removed * t.owned.Keys;
    var c := Changes(keys - gone, gone);
    var s1 := s.(phase := Arriving, permit := false, notifying := 1, pending := c, base := c, calls := [], table := t);
    r' := Crashes(w, r, s, t, gone, c, s1);
    CallsGive(keys, w.c);
    r', s' := CallsCome(w, r', s1, w.c, w.c.added - keys, w.c.removed - keys);
  }

  lemma {:induction false} SecondBegin(w: Setting, r: Run, s: State, t: Table, n: Table, plan: Plan) returns (r': Run, s': State)
    requires Leads(w, r, s) && |r.steps| > w.k
    requires s.phase.Arriving? && !s.permit && s.notifying > 0 && s.pending == w.c && s.table == t
    requires Valid(t) && n == WithChanges(t, w.c) && Valid(n) && w.c.added !! w.c.removed
    requires plan == RoundPlan(n, Returned(t, w.c), w.threshold)
    requires forall q :: q !in t.owned ==> Held(s.held, q) == {}
    ensures Leads(w, r', s') && Extends(r, r') && s'.phase == Revoking(plan, plan.unassign.Keys, {})
    ensures s'.table == n && s'.held == s.held
  {
    var s1 := s.(phase := Drained(s.pending), notifying := s.notifying - 1, pending := Changes({}, {}),
                 base := Changes({}, {}), calls := []);
    r' := WakesUp(w, r, s, s1);
    s' := s1.(table := n, stored := n, phase := Revoking(plan, plan.unassign.Keys, {}));
    r' := Begins(w, r', s1, t, w.c, n, plan, s');
  }

  /** The second round, up to the point where pod q has received x as well. */
  lemma {:induction false} SecondHalf(w: Setting, r: Run, s: State, n: Table, plan: Plan, p: Pod, q: Pod, x: ShardId)
    returns (r': Run, s': State)
    requires Leads(w, r, s) && s.phase == Revoking(plan, plan.unassign.Keys, {}) && s.table == n
    requires p in n.owned && q in n.owned && p != q
    requires x in Held(s.held, p) && x !in Held(plan.unassign, p) && x in Held(plan.assign, q)
    ensures Leads(w, r', s') && Extends(r, r') && !ExclusivelyHeld(s')
  {
    r', s' := MovesOne(w, r, s, plan, p, q, x);
    BothHold(s', p, q, x);
  }

  lemma BothHold(s: State, p: Pod, q: Pod, x: ShardId)
    requires p in s.table.owned && q in s.table.owned && p != q && x in Held(s.held, p) && x in Held(s.held, q)
    ensures !ExclusivelyHeld(s)
  {
  }

  // ---------------------------------------------------------------- what disagreement means for the plans

  /** A shard that pod p has received and keeps although the new plan sends it to pod q. */
  ghost predicate Overlap(threshold: real, t: Table, c: Changes, n: Table, p: Pod, q: Pod, x: ShardId)
    requires Valid(t) && Valid(n)
  {
    && p in t.owned && p in n.owned && q in n.owned && p != q
    && x in Held(Repeated(threshold, t).assign, p)
    && x !in Held(RoundPlan(n, Returned(t, c), threshold).unassign, p)
    && x in Held(RoundPlan(n, Returned(t, c), threshold).assign, q)
  }

  /** A round sends each pod that is new or returned all it is to have. */
  lemma SentInFull(threshold: real, t: Table, c: Changes, n: Table, q: Pod, x: ShardId)
    requires Valid(t) && n == WithChanges(t, c) && Valid(n) && q in n.owned
    requires c.added !! c.removed && t.owned.Keys <= c.added + c.removed
    requires x in Held(Wanted(threshold, n), q)
    ensures x in Held(RoundPlan(n, Returned(t, c), threshold).assign, q)
  {
    var plan := PlanOf(n, threshold);
    PlanIsLegal(n, threshold);
    AppliedAt(n, plan, q);
    SentOne(plan, n, Returned(t, c), q, x);
  }

  lemma SentOne(plan: Plan, n: Table, returned: set<Pod>, q: Pod, x: ShardId)
    requires q in n.owned && x in n.owned[q] + Held(plan.assign, q) && x !in Held(plan.unassign, q)
    requires q !in returned ==> n.owned[q] == {}
    ensures x in Held(Resending(plan, n, returned).assign, q)
  {
  }

  /** What does not agree at pod p is a shard that p was to receive and keeps. */
  lemma Uncovered(threshold: real, t: Table, c: Changes, n: Table, p: Pod) returns (x: ShardId)
    requires Valid(t) && n == WithChanges(t, c) && Valid(n) && p in t.owned && p !in c.removed
    requires !Covers(threshold, n, p, Held(MayHold(threshold, t), p))
    ensures x in Held(Wanted(threshold, t), p) && x in Below(t.numberOfShards)
    ensures x !in Held(Wanted(threshold, n), p) && x !in Held(PlanOf(n, threshold).unassign, p)
  {
    OwnedIsCovered(threshold, n, p);
    WantedInRange(threshold, t, p);
    var more := Held(Wanted(threshold, t), p);
    x := NotCovered(Held(MayHold(threshold, t), p), t.owned[p], more, Held(Wanted(threshold, n), p), Held(PlanOf(n, threshold).unassign, p));
    InRange(x, more, Below(t.numberOfShards));
  }

  lemma NotCovered(all: set<ShardId>, owned: set<ShardId>, more: set<ShardId>, wanted: set<ShardId>, asked: set<ShardId>)
    returns (x: ShardId)
    requires all == owned + more && owned <= wanted + asked && !(all <= wanted + asked)
    ensures x in more && x !in wanted && x !in asked
  {
    var rest := all - (wanted + asked);
    if rest == {} {
      forall y | y in all ensures y in wanted + asked { assert y !in rest; }
    }
    x := Pick(rest);
  }

  lemma InRange(x: ShardId, some: set<ShardId>, all: set<ShardId>)
    requires x in some && some <= all
    ensures x in all
  {
  }

  lemma UncoveredPod(threshold: real, t: Table, c: Changes, n: Table) returns (p: Pod)
    requires Valid(t) && n == WithChanges(t, c) && Valid(n) && !Agrees(threshold, MayHold(threshold, t), t, c)
    ensures p in t.owned && p !in c.removed && !Covers(threshold, n, p, Held(MayHold(threshold, t), p))
  {
    p :| p in t.owned && p !in c.removed && !Covers(threshold, n, p, Held(MayHold(threshold, t), p));
  }

  lemma SentTwice(threshold: real, t: Table, c: Changes, n: Table, p: Pod, x: ShardId) returns (q: Pod)
    requires Valid(t) && n == WithChanges(t, c) && Valid(n) && c.added !! c.removed && t.owned.Keys <= c.added + c.removed
    requires p in t.owned && p in n.owned && x in Below(n.numberOfShards) && x in Held(Wanted(threshold, t), p)
    requires x !in Held(Wanted(threshold, n), p) && x !in Held(PlanOf(n, threshold).unassign, p)
    ensures Overlap(threshold, t, c, n, p, q, x)
  {
    RepeatedAt(threshold, t, p);
    Nonempty(n.owned, p);
    q := WantedBy(threshold, n, x);
    SentInFull(threshold, t, c, n, q, x);
  }

  lemma Disagreement(threshold: real, t: Table, c: Changes, n: Table) returns (p: Pod, q: Pod, x: ShardId)
    requires Valid(t) && n == WithChanges(t, c) && Valid(n) && c.added !! c.removed && t.owned.Keys <= c.added + c.removed
    requires !Agrees(threshold, MayHold(threshold, t), t, c)
    ensures Overlap(threshold, t, c, n, p, q, x)
  {
    p := UncoveredPod(threshold, t, c, n);
    x := Uncovered(threshold, t, c, n, p);
    q := SentTwice(threshold, t, c, n, p, x);
  }

  // ---------------------------------------------------------------- the run

  lemma StartedIsInit(t: Table)
    requires Valid(t)
    ensures Init(Started(t))
  {
  }

  /** After the crash at step k a run of allowed steps is for the changes c. */
  lemma {:induction false} IsOneLateCrash(w: Setting, t: Table, r: Run, s: State)
    requires Leads(w, r, s) && Init(w.start) && w.k < |r.steps| && w.k < |r.states|
    requires LateCrash(r.states[w.k], r.steps[w.k]) && r.states[w.k].stored == t
    ensures OneLateCrash(w.threshold, t, w.c, r.states, r.steps, w.k) && r.states[|r.steps|] == s
  {
    LeadsIsRun(w, r, s);
    forall j | 0 <= j < |r.steps| && j != w.k ensures !LateCrash(r.states[j], r.steps[j]) {
      assert Allowed(w, j, r.states[j], r.steps[j]);
    }
    forall j | w.k < j < |r.steps| ensures IsFor(w.c, r.states[j], r.steps[j]) {
      assert Allowed(w, j, r.states[j], r.steps[j]);
    }
  }

  /** The whole run. */
  lemma OverlapRun(w: Setting, t: Table, n: Table, first: Plan, second: Plan, p: Pod, q: Pod, x: ShardId) returns (r: Run)
    requires Valid(t) && n == WithChanges(t, w.c) && Valid(n)
    requires w.c.added !! w.c.removed && t.owned.Keys <= w.c.added + w.c.removed
    requires first == Repeated(w.threshold, t) && second == RoundPlan(n, Returned(t, w.c), w.threshold)
    requires w.start == Started(t) && w.k == 6 + 2 * |first.unassign.Keys|
    requires p in t.owned && p in n.owned && q in n.owned && p != q
    requires x in Held(first.assign, p) && x !in Held(second.unassign, p) && x in Held(second.assign, q)
    ensures OneLateCrash(w.threshold, t, w.c, r.states, r.steps, w.k) && !ExclusivelyHeld(r.states[|r.steps|])
    ensures r.steps[w.k] == Restart(w.c.removed * t.owned.Keys)
  {
    var r1, stopped := FirstHalf(w, t, first, p, x);
    LeadsLength(w, r1, stopped);
    var r2, s2 := Restarts(w, r1, stopped, t, p, x);
    var r3, s3 := SecondBegin(w, r2, s2, t, n, second);
    var r4, s4 := SecondHalf(w, r3, s3, n, second, p, q, x);
    assert r4.states[w.k] == stopped && r4.steps[w.k] == r2.steps[w.k];
    StartedIsInit(t);
    IsOneLateCrash(w, t, r4, s4);
    r := r4;
  }

  /** A shard that ends up at two pods, if what pods may hold and the next round do not agree. */
  lemma OverlapIfDisagreed(threshold: real, t: Table, c: Changes) returns (states: seq<State>, steps: seq<Step>, k: nat)
    requires Valid(t) && c.added !! c.removed && t.owned.Keys <= c.added + c.removed
    requires !Agrees(threshold, MayHold(threshold, t), t, c)
    ensures OneLateCrash(threshold, t, c, states, steps, k) && !ExclusivelyHeld(states[|steps|])
    ensures steps[k] == Restart(c.removed * t.owned.Keys)
  {
    ChangesKeepValid(t, c);
    var n := WithChanges(t, c);
    var p, q, x := Disagreement(threshold, t, c, n);
    var first, second := Repeated(threshold, t), RoundPlan(n, Returned(t, c), threshold);
    k := 6 + 2 * |first.unassign.Keys|;
    var r := OverlapRun(Setting(threshold, Started(t), k, c), t, n, first, second, p, q, x);
    states, steps := r.states, r.steps;
  }

  // ---------------------------------------------------------------- the other direction

  /** Until the next round begins, what pods may hold is what the stored table and its plan say. */
  ghost predicate Early(threshold: real, t: Table, s: State, mode: Mode)
    requires Valid(t)
  {
    mode.InDoubt? && !s.phase.Revoking? ==> mode.bound == MayHold(threshold, t) && s.table == s.stored == t
  }

  lemma EarlyIsCautious(threshold: real, t: Table, c: Changes, s: State, step: Step, mode: Mode)
    requires Valid(t) && Early(threshold, t, s, mode) && Agrees(threshold, MayHold(threshold, t), t, c)
    requires mode.InDoubt? ==> IsFor(c, s, step)
    ensures Cautious(threshold, s, step, mode)
  {
  }

  lemma EarlyStep(threshold: real, t: Table, c: Changes, s: State, step: Step, s': State, mode: Mode)
    requires Valid(t) && Early(threshold, t, s, mode) && Safe(threshold, s, mode) && Does(threshold, s, step, s')
    requires LateCrash(s, step) ==> s.stored == t
    requires mode.InDoubt? ==> IsFor(c, s, step)
    ensures Early(threshold, t, s', NextMode(threshold, s, step, mode))
  {
  }

  lemma {:induction false} CertainUpTo(threshold: real, states: seq<State>, steps: seq<Step>, i: nat, k: nat)
    requires i <= k < |steps| < |states| && forall j :: 0 <= j < |steps| && j != k ==> !LateCrash(states[j], steps[j])
    ensures ModeAt(threshold, states, steps, i).Certain?
  {
    if i > 0 { CertainUpTo(threshold, states, steps, i - 1, k); }
  }

  /** In such a run every step in doubt is for the changes c. */
  lemma DoubtIsForChanges(threshold: real, t: Table, c: Changes, states: seq<State>, steps: seq<Step>, k: nat, i: nat)
    requires OneLateCrash(threshold, t, c, states, steps, k) && i < |steps|
    ensures ModeAt(threshold, states, steps, i).InDoubt? ==> IsFor(c, states[i], steps[i])
    ensures LateCrash(states[i], steps[i]) ==> states[i].stored == t
  {
    if i <= k { CertainUpTo(threshold, states, steps, i, k); }
  }

  lemma AgreedStep(threshold: real, t: Table, c: Changes, states: seq<State>, steps: seq<Step>, k: nat, i: nat, mode: Mode)
    requires Valid(t) && Agrees(threshold, MayHold(threshold, t), t, c) && OneLateCrash(threshold, t, c, states, steps, k)
    requires i < |steps| && mode == ModeAt(threshold, states, steps, i)
    requires Early(threshold, t, states[i], mode) && Safe(threshold, states[i], mode)
    ensures Cautious(threshold, states[i], steps[i], mode)
    ensures Early(threshold, t, states[i + 1], NextMode(threshold, states[i], steps[i], mode))
  {
    DoubtIsForChanges(threshold, t, c, states, steps, k, i);
    EarlyIsCautious(threshold, t, c, states[i], steps[i], mode);
    EarlyStep(threshold, t, c, states[i], steps[i], states[i + 1], mode);
  }

  lemma OneMoreCautious(threshold: real, states: seq<State>, steps: seq<Step>, i: nat)
    requires i < |steps| < |states| && AllCautious(threshold, states, steps, i)
    requires Cautious(threshold, states[i], steps[i], ModeAt(threshold, states, steps, i))
    ensures AllCautious(threshold, states, steps, i + 1)
  {
  }

  lemma ModeAtNext(threshold: real, states: seq<State>, steps: seq<Step>, i: nat, mode: Mode)
    requires i < |steps| < |states| && mode == ModeAt(threshold, states, steps, i)
    ensures ModeAt(threshold, states, steps, i + 1) == NextMode(threshold, states[i], steps[i], mode)
  {
  }

  lemma CautiousIsSafe(threshold: real, t: Table, c: Changes, states: seq<State>, steps: seq<Step>, k: nat, i: nat)
    requires OneLateCrash(threshold, t, c, states, steps, k) && i <= |steps| && AllCautious(threshold, states, steps, i)
    ensures Safe(threshold, states[i], ModeAt(threshold, states, steps, i))
  {
    RunIsSafe(threshold, states, steps, i);
  }

  /** Up to the i-th step all are cautious, and what is known before the next round holds. */
  ghost predicate AgreedUpTo(threshold: real, t: Table, states: seq<State>, steps: seq<Step>, i: nat)
    requires Valid(t) && i <= |steps| < |states|
  {
    AllCautious(threshold, states, steps, i) && Early(threshold, t, states[i], ModeAt(threshold, states, steps, i))
  }

  lemma AgreedNext(threshold: real, t: Table, c: Changes, states: seq<State>, steps: seq<Step>, k: nat, i: nat)
    requires Valid(t) && Agrees(threshold, MayHold(threshold, t), t, c) && OneLateCrash(threshold, t, c, states, steps, k)
    requires i < |steps| && AgreedUpTo(threshold, t, states, steps, i)
    ensures AgreedUpTo(threshold, t, states, steps, i + 1)
  {
    var mode := ModeAt(threshold, states, steps, i);
    CautiousIsSafe(threshold, t, c, states, steps, k, i);
    AgreedStep(threshold, t, c, states, steps, k, i, mode);
    OneMoreCautious(threshold, states, steps, i);
    ModeAtNext(threshold, states, steps, i, mode);
  }

  lemma AgreedFirst(threshold: real, t: Table, states: seq<State>, steps: seq<Step>)
    requires Valid(t) && |steps| < |states|
    ensures AgreedUpTo(threshold, t, states, steps, 0)
  {
  }

  /** If what pods may hold agrees with the next round, every step of such a run is cautious. */
  lemma AgreedIsCautious(threshold: real, t: Table, c: Changes, states: seq<State>, steps: seq<Step>, k: nat, i: nat)
    requires Valid(t) && Agrees(threshold, MayHold(threshold, t), t, c) && OneLateCrash(threshold, t, c, states, steps, k)
    requires i <= |steps|
    ensures AllCautious(threshold, states, steps, i)
  {
    var p := (j: nat) => j <= |steps| < |states| && AgreedUpTo(threshold, t, states, steps, j);
    AgreedFirst(threshold, t, states, steps);
    forall j: nat | j < |steps| && p(j) ensures p(j + 1) { AgreedNext(threshold, t, c, states, steps, k, j); }
    Upward(p, |steps|, i);
  }

  lemma AgreedIsSafe(threshold: real, t: Table, c: Changes, states: seq<State>, steps: seq<Step>, k: nat)
    requires Valid(t) && Agrees(threshold, MayHold(threshold, t), t, c) && OneLateCrash(threshold, t, c, states, steps, k)
    ensures ExclusivelyHeld(states[|steps|])
  {
    AgreedIsCautious(threshold, t, c, states, steps, k, |steps|);
    RunStaysExclusive(threshold, states, steps, |steps|);
  }

  /** No run ends with a shard held by two pods. */
  ghost predicate NeverOverlaps(threshold: real, t: Table, c: Changes) {
    forall states, steps, k :: OneLateCrash(threshold, t, c, states, steps, k) ==> ExclusivelyHeld(states[|steps|])
  }

  /**
   * After a crash while assigns are out, or before their result is written, with t stored, and with the changes c drained
   * for the next round, ownership stays exclusive in all runs without a failed revoke if and only if what pods may hold
   * and the next round agree. The changes are any that a restart from t and the calls after it can leave.
   */
  lemma LateCrashIsSafeIff(threshold: real, t: Table, c: Changes)
    requires Valid(t) && c.added !! c.removed && t.owned.Keys <= c.added + c.removed
    ensures NeverOverlaps(threshold, t, c) <==> Agrees(threshold, MayHold(threshold, t), t, c)
  {
    if Agrees(threshold, MayHold(threshold, t), t, c) {
      forall states, steps, k | OneLateCrash(threshold, t, c, states, steps, k) ensures ExclusivelyHeld(states[|steps|]) {
        AgreedIsSafe(threshold, t, c, states, steps, k);
      }
    } else {
      var states, steps, k := OverlapIfDisagreed(threshold, t, c);
    }
  }
}
