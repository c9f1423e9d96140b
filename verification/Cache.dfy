/**
 The single-flight cache under concurrency: tasks call it for keys, and every access to the shared map is one
 atomic step, interleaved in any order with removals and evictions.
 */
module SingleFlight {
  import opened Wrappers

  // Keys, values, pending values and errors are only compared.
  type Key = int
  type Value = int
  type PendingValue = int
  type Error = int

  datatype Item = Pending(id: nat, pendingValue: PendingValue) | Cached(value: Value)

  datatype Answer = Final(outcome: Outcome<Value, Error>) | Early(pendingValue: PendingValue)

  datatype Phase =
    | Entering                          // has its id, about to look up the entry
    | Found(id: nat)                    // saw another task's pending entry, about to subscribe
    | Subscribed(id: nat)
    | Received(outcome: Outcome<Value, Error>)
    | Computing                         // owns a pending entry, the computation runs
    | Computed(outcome: Outcome<Value, Error>)
    | Stored(outcome: Outcome<Value, Error>)   // a success is in the map, the waiting tasks are not told yet
    | Done(outcome: Outcome<Value, Error>)     // computed, stored if successful, and told
    | Finished                          // answered without computing

  /** One call; its id is its position. A detached call returns the pending value at once while its computation goes on. */
  datatype Task = Task(key: Key, detached: bool, phase: Phase, answer: Option<Answer>)

  datatype State = State(items: map<Key, Item>, tasks: seq<Task>)

  datatype Step =
    | Call(key: Key, detached: bool)
    | LookUp(task: nat, first: Outcome<PendingValue, Error>)
    | Subscribe(task: nat)
    | Compute(task: nat, outcome: Outcome<Value, Error>)
    | Store(task: nat)
    | Send(task: nat)
    | Receive(task: nat)
    | Remove(key: Key)
    | Evict(keys: set<Key>)

  predicate InFlight(t: Task) { t.phase.Computing? || t.phase.Computed? }

  function With(s: State, i: nat, t: Task): State
    requires i < |s.tasks|
  {
    s.(tasks := s.tasks[i := t])
  }

  /** Looking up the entry, inserting a pending one if there is none and the first function succeeds. */
  function LookedUp(s: State, i: nat, first: Outcome<PendingValue, Error>): State
    requires i < |s.tasks|
  {
    var t := s.tasks[i];
    if t.key in s.items then
      match s.items[t.key]
      case Pending(id, pv) =>
        With(s, i, if t.detached then t.(phase := Finished, answer := Some(Early(pv))) else t.(phase := Found(id)))
      case Cached(v) => With(s, i, t.(phase := Finished, answer := Some(Final(Ok(v)))))
    else
      match first
      case Err(e) => With(s, i, t.(phase := Finished, answer := Some(Final(Err(e)))))
      case Ok(pv) =>
        With(s, i, t.(phase := Computing, answer := if t.detached then Some(Early(pv)) else None))
        .(items := s.items[t.key := Pending(i, pv)])
  }

  /** Telling the tasks subscribed now; the sender is done. */
  function Told(s: State, i: nat, outcome: Outcome<Value, Error>): State
    requires i < |s.tasks|
  {
    s.(tasks := seq(|s.tasks|, j requires 0 <= j < |s.tasks| =>
      if j == i then s.tasks[i].(phase := Done(outcome), answer := if s.tasks[i].detached then s.tasks[i].answer else Some(Final(outcome)))
      else if s.tasks[j].phase == Subscribed(i) then s.tasks[j].(phase := Received(outcome))
      else s.tasks[j]))
  }

  ghost predicate Does(s: State, step: Step, s': State) {
    match step
    case Call(key, detached) => s' == s.(tasks := s.tasks + [Task(key, detached, Entering, None)])
    case LookUp(i, first) => i < |s.tasks| && s.tasks[i].phase.Entering? && s' == LookedUp(s, i, first)
    case Subscribe(i) =>
      i < |s.tasks| && s.tasks[i].phase.Found? &&
      s' == With(s, i, s.tasks[i].(phase := Subscribed(s.tasks[i].phase.id)))
    case Compute(i, outcome) =>
      i < |s.tasks| && s.tasks[i].phase.Computing? && s' == With(s, i, s.tasks[i].(phase := Computed(outcome)))
    case Store(i) =>
      i < |s.tasks| && s.tasks[i].phase.Computed? &&
      var outcome := s.tasks[i].phase.outcome;
      var stored := With(s, i, s.tasks[i].(phase := Stored(outcome)));
      s' == if outcome.Ok? then stored.(items := s.items[s.tasks[i].key := Cached(outcome.value)]) else stored
    case Send(i) => i < |s.tasks| && s.tasks[i].phase.Stored? && s' == Told(s, i, s.tasks[i].phase.outcome)
    case Receive(i) =>
      i < |s.tasks| && s.tasks[i].phase.Received? &&
      s' == With(s, i, s.tasks[i].(phase := Finished, answer := Some(Final(s.tasks[i].phase.outcome))))
    case Remove(key) => s' == s.(items := s.items - {key})
    case Evict(keys) =>
      (forall k :: k in keys ==> k in s.items && s.items[k].Cached?) && s' == s.(items := s.items - keys)
  }

  ghost predicate Init(s: State) { s == State(map[], []) }

  ghost predicate IsRun(states: seq<State>, steps: seq<Step>) {
    && |states| == |steps| + 1
    && forall i :: 0 <= i < |steps| ==> Does(states[i], steps[i], states[i + 1])
  }

  // ---------------------------------------------------------------- one computation at a time

  /** The owner of a pending entry is a task for that key that is computing, or whose computation failed. */
  ghost predicate Owns(s: State, key: Key, i: nat) {
    && i < |s.tasks| && s.tasks[i].key == key
    && var t := s.tasks[i];
    && match t.phase
       case Computing => true
       case Computed(_) => true
       case Stored(outcome) => outcome.Err?
       case Done(outcome) => outcome.Err?
       case _ => false
  }

  /** Every pending entry has an owner, named by its id. */
  ghost predicate Single(s: State) {
    forall k :: k in s.items && s.items[k].Pending? ==> Owns(s, k, s.items[k].id)
  }

  /** The entry of its key is pending and the caller's own, so that no other call computes. */
  ghost predicate Guarded(s: State, i: nat)
    requires i < |s.tasks|
  {
    var key := s.tasks[i].key;
    key in s.items && s.items[key].Pending? && s.items[key].id == i
  }

  ghost predicate Computes(s: State, i: nat, key: Key) {
    i < |s.tasks| && InFlight(s.tasks[i]) && s.tasks[i].key == key
  }

  /** Some computation for the key is in flight. */
  ghost predicate Busy(s: State, key: Key) {
    exists i: nat :: Computes(s, i, key)
  }

  /** The key was removed, and from then on a computation for it was in flight without a gap. */
  ghost predicate RemovedWhileBusy(states: seq<State>, steps: seq<Step>, n: nat, key: Key)
    requires |states| == |steps| + 1 && n < |states|
  {
    exists r: nat :: r < n && steps[r] == Remove(key) && BusySince(states, r, n, key)
  }

  ghost predicate BusySince(states: seq<State>, r: nat, n: nat, key: Key)
    requires r <= n < |states|
  {
    forall k :: r <= k <= n ==> Busy(states[k], key)
  }

  lemma SingleSend(s: State, i: nat, s': State)
    requires Single(s) && Does(s, Send(i), s')
    ensures Single(s')
  {
    forall k | k in s'.items && s'.items[k].Pending? ensures Owns(s', k, s'.items[k].id) {
      assert Owns(s, k, s.items[k].id);
    }
  }

  lemma SingleElse(s: State, step: Step, s': State)
    requires Single(s) && Does(s, step, s') && !step.Send?
    ensures Single(s')
  {
  }

  lemma SingleStep(s: State, step: Step, s': State)
    requires Single(s) && Does(s, step, s')
    ensures Single(s')
  {
    if step.Send? {
      SingleSend(s, step.task, s');
    } else {
      SingleElse(s, step, s');
    }
  }

  /** A computation loses its entry only to a removal, or to one that had lost its own before. */
  lemma GuardedStep(s: State, step: Step, s': State, i: nat, key: Key)
    requires Single(s) && Does(s, step, s') && Computes(s', i, key)
    ensures || Guarded(s', i)
            || (step == Remove(key) && Busy(s, key))
            || (exists j: nat :: Computes(s, j, key) && !Guarded(s, j))
  {
    if !Guarded(s', i) && step != Remove(key) {
      if Computes(s, i, key) && Guarded(s, i) && step.Store? {
        assert Computes(s, step.task, key) && !Guarded(s, step.task);
      }
    } else if step == Remove(key) {
      assert Computes(s, i, key);
    }
  }

  lemma BusyExtends(states: seq<State>, steps: seq<Step>, n: nat, key: Key)
    requires |states| == |steps| + 1 && 0 < n < |states|
    requires Busy(states[n], key)
    requires RemovedWhileBusy(states, steps, n - 1, key) || (steps[n - 1] == Remove(key) && Busy(states[n - 1], key))
    ensures RemovedWhileBusy(states, steps, n, key)
  {
    if RemovedWhileBusy(states, steps, n - 1, key) {
      var r: nat :| r < n - 1 && steps[r] == Remove(key) && BusySince(states, r, n - 1, key);
      assert BusySince(states, r, n, key);
    } else {
      assert BusySince(states, n - 1, n, key);
    }
  }

  lemma {:induction false} RunIsSingle(states: seq<State>, steps: seq<Step>, n: nat)
    requires IsRun(states, steps) && Init(states[0]) && n < |states|
    ensures Single(states[n])
  {
    if n > 0 {
      RunIsSingle(states, steps, n - 1);
      SingleStep(states[n - 1], steps[n - 1], states[n]);
    }
  }

  lemma {:induction false} RunIsGuarded(states: seq<State>, steps: seq<Step>, n: nat, i: nat, key: Key)
    requires IsRun(states, steps) && Init(states[0]) && n < |states| && Computes(states[n], i, key)
    ensures Guarded(states[n], i) || RemovedWhileBusy(states, steps, n, key)
  {
    if n > 0 {
      var s := states[n - 1];
      RunIsSingle(states, steps, n - 1);
      GuardedStep(s, steps[n - 1], states[n], i, key);
      if !Guarded(states[n], i) {
        if exists j: nat :: Computes(s, j, key) && !Guarded(s, j) {
          var j: nat :| Computes(s, j, key) && !Guarded(s, j);
          RunIsGuarded(states, steps, n - 1, j, key);
        }
        BusyExtends(states, steps, n, key);
      }
    }
  }

  /**
   * In every run, two computations for one key are in flight together only if the key was removed and a computation for
   * it has been in flight ever since.
   */
  lemma ComputationsOverlapOnlyAfterRemoval(states: seq<State>, steps: seq<Step>, n: nat, i: nat, j: nat, key: Key)
    requires IsRun(states, steps) && Init(states[0]) && n < |states|
    requires i != j && Computes(states[n], i, key) && Computes(states[n], j, key)
    ensures RemovedWhileBusy(states, steps, n, key)
  {
    RunIsGuarded(states, steps, n, i, key);
    RunIsGuarded(states, steps, n, j, key);
  }

  /** A removal does let two computations for one key overlap. */
  lemma RemovalAllowsOverlap() returns (states: seq<State>, steps: seq<Step>)
    ensures |states| == 6 && IsRun(states, steps) && Init(states[0])
    ensures Computes(states[5], 0, 7) && Computes(states[5], 1, 7)
  {
    var entering, computing := Task(7, false, Entering, None), Task(7, false, Computing, None);
    steps := [Call(7, false), Call(7, false), LookUp(0, Ok(1)), Remove(7), LookUp(1, Ok(1))];
    states := [State(map[], []), State(map[], [entering]), State(map[], [entering, entering]),
               State(map[7 := Pending(0, 1)], [computing, entering]), State(map[], [computing, entering]),
               State(map[7 := Pending(1, 1)], [computing, computing])];
  }

  // ---------------------------------------------------------------- transparency

  /** The computations are functions of the key. */
  ghost predicate Functional(s: State, step: Step, first: Key -> Outcome<PendingValue, Error>, second: Key -> Outcome<Value, Error>) {
    match step
    case LookUp(i, outcome) => i < |s.tasks| ==> outcome == first(s.tasks[i].key)
    case Compute(i, outcome) => i < |s.tasks| ==> outcome == second(s.tasks[i].key)
    case _ => true
  }

  ghost predicate ItemsTrue(s: State, first: Key -> Outcome<PendingValue, Error>, second: Key -> Outcome<Value, Error>) {
    forall k :: k in s.items ==>
      match s.items[k]
      case Pending(id, pv) => id < |s.tasks| && s.tasks[id].key == k && first(k) == Ok(pv)
      case Cached(v) => second(k) == Ok(v)
  }

  ghost predicate PhaseTrue(s: State, t: Task, second: Key -> Outcome<Value, Error>) {
    match t.phase
    case Found(id) => id < |s.tasks| && s.tasks[id].key == t.key
    case Subscribed(id) => id < |s.tasks| && s.tasks[id].key == t.key
    case Received(outcome) => outcome == second(t.key)
    case Computed(outcome) => outcome == second(t.key)
    case Stored(outcome) => outcome == second(t.key)
    case Done(outcome) => outcome == second(t.key)
    case _ => true
  }

  /** An answer is the key's pending value or outcome; an error may also be the first function's. */
  ghost predicate AnswerTrue(t: Task, first: Key -> Outcome<PendingValue, Error>, second: Key -> Outcome<Value, Error>) {
    match t.answer
    case None => true
    case Some(Early(pv)) => first(t.key) == Ok(pv)
    case Some(Final(Ok(v))) => second(t.key) == Ok(v)
    case Some(Final(Err(e))) => second(t.key) == Err(e) || first(t.key) == Err(e)
  }

  ghost predicate Transparent(s: State, first: Key -> Outcome<PendingValue, Error>, second: Key -> Outcome<Value, Error>) {
    && ItemsTrue(s, first, second)
    && forall i :: 0 <= i < |s.tasks| ==> PhaseTrue(s, s.tasks[i], second) && AnswerTrue(s.tasks[i], first, second)
  }

  lemma TransparentLookUp(s: State, i: nat, outcome: Outcome<PendingValue, Error>, s': State,
                          first: Key -> Outcome<PendingValue, Error>, second: Key -> Outcome<Value, Error>)
    requires Transparent(s, first, second) && Does(s, LookUp(i, outcome), s') && outcome == first(s.tasks[i].key)
    ensures Transparent(s', first, second)
  {
    assert forall j :: 0 <= j < |s.tasks| ==> s'.tasks[j].key == s.tasks[j].key;
  }

  lemma TransparentStore(s: State, i: nat, s': State, first: Key -> Outcome<PendingValue, Error>, second: Key -> Outcome<Value, Error>)
    requires Transparent(s, first, second) && Does(s, Store(i), s')
    ensures Transparent(s', first, second)
  {
    assert PhaseTrue(s, s.tasks[i], second);
    assert forall j :: 0 <= j < |s.tasks| ==> s'.tasks[j].key == s.tasks[j].key;
  }

  lemma TransparentSend(s: State, i: nat, s': State, first: Key -> Outcome<PendingValue, Error>, second: Key -> Outcome<Value, Error>)
    requires Transparent(s, first, second) && Does(s, Send(i), s')
    ensures Transparent(s', first, second)
  {
    assert PhaseTrue(s, s.tasks[i], second);
    assert forall j :: 0 <= j < |s.tasks| ==> s'.tasks[j].key == s.tasks[j].key;
    forall j | 0 <= j < |s.tasks|
      ensures PhaseTrue(s', s'.tasks[j], second) && AnswerTrue(s'.tasks[j], first, second)
    {
      assert PhaseTrue(s, s.tasks[j], second) && AnswerTrue(s.tasks[j], first, second);
    }
  }

  lemma TransparentStep(s: State, step: Step, s': State, first: Key -> Outcome<PendingValue, Error>, second: Key -> Outcome<Value, Error>)
    requires Transparent(s, first, second) && Does(s, step, s') && Functional(s, step, first, second)
    ensures Transparent(s', first, second)
  {
    match step
    case LookUp(i, outcome) => TransparentLookUp(s, i, outcome, s', first, second);
    case Store(i) => TransparentStore(s, i, s', first, second);
    case Send(i) => TransparentSend(s, i, s', first, second);
    case _ =>
      assert forall i :: 0 <= i < |s.tasks| ==> i < |s'.tasks| && s'.tasks[i].key == s.tasks[i].key;
      assert forall i :: 0 <= i < |s.tasks| ==> PhaseTrue(s, s.tasks[i], second) && AnswerTrue(s.tasks[i], first, second);
  }

  /** If the computations are functions of the key, every cached value and every answer in every run is the key's. */
  lemma {:induction false} RunIsTransparent(states: seq<State>, steps: seq<Step>, n: nat,
                                            first: Key -> Outcome<PendingValue, Error>, second: Key -> Outcome<Value, Error>)
    requires IsRun(states, steps) && Init(states[0]) && n < |states|
    requires forall k :: 0 <= k < n ==> Functional(states[k], steps[k], first, second)
    ensures Transparent(states[n], first, second)
  {
    if n > 0 {
      RunIsTransparent(states, steps, n - 1, first, second);
      TransparentStep(states[n - 1], steps[n - 1], states[n], first, second);
    }
  }

  // ---------------------------------------------------------------- who is answered, and with what

  /** A task for the key computed this outcome. */
  ghost predicate ComputedFor(s: State, past: seq<Step>, key: Key, outcome: Outcome<Value, Error>) {
    exists j: nat :: j < |s.tasks| && s.tasks[j].key == key && Compute(j, outcome) in past
  }

  /** The first function of a task for the key returned this pending value. */
  ghost predicate LookedUpFor(s: State, past: seq<Step>, key: Key, pv: PendingValue) {
    exists j: nat :: j < |s.tasks| && s.tasks[j].key == key && LookUp(j, Ok(pv)) in past
  }

  ghost predicate ItemExplained(s: State, past: seq<Step>, key: Key, item: Item) {
    match item
    case Pending(id, pv) => id < |s.tasks| && s.tasks[id].key == key && LookUp(id, Ok(pv)) in past
    case Cached(v) => ComputedFor(s, past, key, Ok(v))
  }

  /** The answer of a task that computes: a detached one has the pending value its own first function returned, another none yet. */
  ghost predicate Owing(past: seq<Step>, i: nat, t: Task) {
    if t.detached then t.answer.Some? && t.answer.value.Early? && LookUp(i, Ok(t.answer.value.pendingValue)) in past
    else t.answer == None
  }

  /** A call answered without computing has a value computed for its key, a pending value for it, or an error. */
  ghost predicate AnsweredFor(s: State, past: seq<Step>, i: nat, t: Task) {
    match t.answer
    case None => false
    case Some(Early(pv)) => t.detached && LookedUpFor(s, past, t.key, pv)
    case Some(Final(Ok(v))) => ComputedFor(s, past, t.key, Ok(v))
    case Some(Final(Err(e))) => LookUp(i, Err(e)) in past || ComputedFor(s, past, t.key, Err(e))
  }

  /** A task that waits has no answer, and one that is done or finished has the right one. */
  ghost predicate Explained(s: State, past: seq<Step>, i: nat, t: Task) {
    match t.phase
    case Entering => t.answer == None
    case Found(id) => !t.detached && t.answer == None && id < |s.tasks| && s.tasks[id].key == t.key
    case Subscribed(id) => !t.detached && t.answer == None && id < |s.tasks| && s.tasks[id].key == t.key
    case Received(outcome) => t.answer == None && ComputedFor(s, past, t.key, outcome)
    case Computing => Owing(past, i, t)
    case Computed(outcome) => Owing(past, i, t) && Compute(i, outcome) in past
    case Stored(outcome) => Owing(past, i, t) && Compute(i, outcome) in past
    case Done(outcome) =>
      && Compute(i, outcome) in past
      && if t.detached then Owing(past, i, t) else t.answer == Some(Final(outcome))
    case Finished => AnsweredFor(s, past, i, t)
  }

  ghost predicate AllExplained(s: State, past: seq<Step>) {
    && (forall k :: k in s.items ==> ItemExplained(s, past, k, s.items[k]))
    && forall i :: 0 <= i < |s.tasks| ==> Explained(s, past, i, s.tasks[i])
  }

  /** Tasks stay and keep their keys. */
  ghost predicate TasksStay(s: State, s': State) {
    |s.tasks| <= |s'.tasks| && forall j :: 0 <= j < |s.tasks| ==> s'.tasks[j].key == s.tasks[j].key
  }

  lemma TasksStayStep(s: State, step: Step, s': State)
    requires Does(s, step, s')
    ensures TasksStay(s, s')
  {
  }

  lemma ComputedStays(s: State, past: seq<Step>, step: Step, s': State, key: Key, outcome: Outcome<Value, Error>)
    requires TasksStay(s, s') && ComputedFor(s, past, key, outcome)
    ensures ComputedFor(s', past + [step], key, outcome)
  {
    var j: nat :| j < |s.tasks| && s.tasks[j].key == key && Compute(j, outcome) in past;
    assert s'.tasks[j].key == key;
  }

  lemma LookedUpStays(s: State, past: seq<Step>, step: Step, s': State, key: Key, pv: PendingValue)
    requires TasksStay(s, s') && LookedUpFor(s, past, key, pv)
    ensures LookedUpFor(s', past + [step], key, pv)
  {
    var j: nat :| j < |s.tasks| && s.tasks[j].key == key && LookUp(j, Ok(pv)) in past;
    assert s'.tasks[j].key == key;
  }

  lemma ItemStaysExplained(s: State, past: seq<Step>, step: Step, s': State, key: Key, item: Item)
    requires TasksStay(s, s') && ItemExplained(s, past, key, item)
    ensures ItemExplained(s', past + [step], key, item)
  {
    match item
    case Pending(_, _) =>
    case Cached(v) => ComputedStays(s, past, step, s', key, Ok(v));
  }

  lemma AnswerStays(s: State, past: seq<Step>, step: Step, s': State, i: nat, t: Task)
    requires TasksStay(s, s') && AnsweredFor(s, past, i, t)
    ensures AnsweredFor(s', past + [step], i, t)
  {
    match t.answer
    case Some(Early(pv)) => LookedUpStays(s, past, step, s', t.key, pv);
    case Some(Final(Ok(v))) => ComputedStays(s, past, step, s', t.key, Ok(v));
    case Some(Final(Err(e))) =>
      if ComputedFor(s, past, t.key, Err(e)) { ComputedStays(s, past, step, s', t.key, Err(e)); }
  }

  lemma StaysExplained(s: State, past: seq<Step>, step: Step, s': State, i: nat, t: Task)
    requires TasksStay(s, s') && Explained(s, past, i, t)
    ensures Explained(s', past + [step], i, t)
  {
    match t.phase
    case Received(outcome) => ComputedStays(s, past, step, s', t.key, outcome);
    case Finished => AnswerStays(s, past, step, s', i, t);
    case _ =>
  }

  /** The task that takes the step. */
  lemma LookUpExplained(s: State, past: seq<Step>, i: nat, first: Outcome<PendingValue, Error>, s': State)
    requires AllExplained(s, past) && Does(s, LookUp(i, first), s') && TasksStay(s, s')
    ensures Explained(s', past + [LookUp(i, first)], i, s'.tasks[i])
  {
    var t, step := s.tasks[i], LookUp(i, first);
    assert Explained(s, past, i, t);
    if t.key in s.items {
      ItemStaysExplained(s, past, step, s', t.key, s.items[t.key]);
      match s.items[t.key]
      case Pending(id, pv) => assert s'.tasks[id].key == t.key;
      case Cached(v) =>
    }
  }

  lemma SendExplained(s: State, past: seq<Step>, i: nat, s': State, j: nat)
    requires AllExplained(s, past) && Does(s, Send(i), s') && TasksStay(s, s') && j < |s.tasks|
    ensures Explained(s', past + [Send(i)], j, s'.tasks[j])
  {
    assert Explained(s, past, i, s.tasks[i]) && Explained(s, past, j, s.tasks[j]);
    if j != i && s.tasks[j].phase == Subscribed(i) {
      var outcome := s.tasks[i].phase.outcome;
      assert ComputedFor(s, past, s.tasks[j].key, outcome);
      ComputedStays(s, past, Send(i), s', s.tasks[j].key, outcome);
    } else if j != i {
      StaysExplained(s, past, Send(i), s', j, s.tasks[j]);
    }
  }

  lemma OwnStepExplained(s: State, past: seq<Step>, step: Step, s': State, i: nat)
    requires AllExplained(s, past) && Does(s, step, s') && TasksStay(s, s') && i < |s.tasks|
    requires step == Subscribe(i) || step == Store(i) || step == Receive(i) || (step.Compute? && step.task == i)
    ensures Explained(s', past + [step], i, s'.tasks[i])
  {
    assert Explained(s, past, i, s.tasks[i]);
    if step.Receive? {
      ComputedStays(s, past, step, s', s.tasks[i].key, s.tasks[i].phase.outcome);
    }
  }

  lemma TaskExplained(s: State, past: seq<Step>, step: Step, s': State, j: nat)
    requires AllExplained(s, past) && Does(s, step, s') && TasksStay(s, s') && j < |s'.tasks|
    ensures Explained(s', past + [step], j, s'.tasks[j])
  {
    if j < |s.tasks| && s'.tasks[j] == s.tasks[j] && !step.Send? && !step.LookUp? {
      StaysExplained(s, past, step, s', j, s.tasks[j]);
    } else if step.Send? {
      SendExplained(s, past, step.task, s', j);
    } else if step.LookUp? {
      if j == step.task {
        LookUpExplained(s, past, j, step.first, s');
      } else {
        StaysExplained(s, past, step, s', j, s.tasks[j]);
      }
    } else if j < |s.tasks| {
      OwnStepExplained(s, past, step, s', j);
    }
  }

  lemma ItemsExplained(s: State, past: seq<Step>, step: Step, s': State, k: Key)
    requires AllExplained(s, past) && Does(s, step, s') && TasksStay(s, s') && k in s'.items
    ensures ItemExplained(s', past + [step], k, s'.items[k])
  {
    if k in s.items && s'.items[k] == s.items[k] {
      ItemStaysExplained(s, past, step, s', k, s.items[k]);
    } else if step.Store? {
      assert Explained(s, past, step.task, s.tasks[step.task]);
    }
  }

  lemma ExplainedStep(s: State, past: seq<Step>, step: Step, s': State)
    requires AllExplained(s, past) && Does(s, step, s')
    ensures AllExplained(s', past + [step])
  {
    TasksStayStep(s, step, s');
    forall k | k in s'.items ensures ItemExplained(s', past + [step], k, s'.items[k]) { ItemsExplained(s, past, step, s', k); }
    forall j | 0 <= j < |s'.tasks| ensures Explained(s', past + [step], j, s'.tasks[j]) {
      TaskExplained(s, past, step, s', j);
    }
  }

  /**
   * In every run, whatever the computations return: a call that waits has no answer; one that is done has what it computed
   * or, if detached, its own pending value; one that finished has a value some call computed for its key, a pending value
   * for it, or an error; and every cached value was computed for its key.
   */
  lemma {:induction false} RunIsExplained(states: seq<State>, steps: seq<Step>, n: nat)
    requires IsRun(states, steps) && Init(states[0]) && n < |states|
    ensures AllExplained(states[n], steps[..n])
  {
    if n > 0 {
      RunIsExplained(states, steps, n - 1);
      ExplainedStep(states[n - 1], steps[..n - 1], steps[n - 1], states[n]);
      assert steps[..n] == steps[..n - 1] + [steps[n - 1]];
    }
  }

  // ---------------------------------------------------------------- what single steps change

  /** A call that finds an entry never computes: it has the cached value, or the pending value if detached, or waits for the owner. */
  lemma HitsDoNotCompute(s: State, i: nat, first: Outcome<PendingValue, Error>, s': State)
    requires Does(s, LookUp(i, first), s') && s.tasks[i].key in s.items
    ensures s'.items == s.items && |s'.tasks| == |s.tasks| && forall j :: 0 <= j < |s.tasks| && j != i ==> s'.tasks[j] == s.tasks[j]
    ensures var t, item := s.tasks[i], s.items[s.tasks[i].key];
            if item.Cached? then s'.tasks[i] == Task(t.key, t.detached, Finished, Some(Final(Ok(item.value))))
            else if t.detached then s'.tasks[i] == Task(t.key, true, Finished, Some(Early(item.pendingValue)))
            else s'.tasks[i] == Task(t.key, false, Found(item.id), t.answer)
  {
  }

  /** Sending reaches every task that is subscribed, and no other. */
  lemma SendReachesAll(s: State, i: nat, s': State, j: nat)
    requires Does(s, Send(i), s') && j < |s.tasks| && j != i
    ensures j < |s'.tasks|
    ensures s'.tasks[j] == if s.tasks[j].phase == Subscribed(i) then s.tasks[j].(phase := Received(s.tasks[i].phase.outcome))
                           else s.tasks[j]
    ensures s'.items == s.items
  {
  }

  /** How a key's entry changes: a miss makes it pending, a success cached, a removal takes it, an eviction only if cached. */
  lemma EntriesChange(s: State, step: Step, s': State, k: Key)
    requires Does(s, step, s')
    ensures k !in s.items && k in s'.items ==>
              (step.LookUp? && step.first.Ok? && s.tasks[step.task].key == k && s'.items[k] == Pending(step.task, step.first.value))
              || (step.Store? && s.tasks[step.task].key == k && s'.items[k].Cached?)
    ensures k in s.items && k in s'.items && s'.items[k] != s.items[k] ==>
              step.Store? && s.tasks[step.task].key == k && s.tasks[step.task].phase == Computed(Ok(s'.items[k].value))
              && s'.items[k].Cached?
    ensures k in s.items && k !in s'.items ==> step == Remove(k) || (step.Evict? && k in step.keys && s.items[k].Cached?)
  {
  }

  /** A pending entry stays, whether or not its computation fails, until a success for its key or a removal. */
  lemma {:induction false} PendingStays(states: seq<State>, steps: seq<Step>, n: nat, m: nat, k: Key)
    requires IsRun(states, steps) && n <= m < |states| && k in states[n].items && states[n].items[k].Pending?
    requires forall j :: n <= j < m ==> steps[j] != Remove(k) && !StoresFor(states[j], steps[j], k)
    ensures k in states[m].items && states[m].items[k] == states[n].items[k]
    decreases m
  {
    if n < m {
      PendingStays(states, steps, n, m - 1, k);
      EntriesChange(states[m - 1], steps[m - 1], states[m], k);
    }
  }

  ghost predicate StoresFor(s: State, step: Step, k: Key) {
    step.Store? && step.task < |s.tasks| && s.tasks[step.task].key == k
    && s.tasks[step.task].phase.Computed? && s.tasks[step.task].phase.outcome.Ok?
  }

  /** A run from the first state, up to the point where the first of two calls computes and the second waits for it. */
  lemma SecondCallWaits(s: State) returns (states: seq<State>, steps: seq<Step>)
    requires s == State(map[7 := Pending(0, 1)], [Task(7, false, Computing, None), Task(7, false, Subscribed(0), None)])
    ensures |states| == 6 && IsRun(states, steps) && Init(states[0]) && states[5] == s
    ensures steps == [Call(7, false), Call(7, false), LookUp(0, Ok(1)), LookUp(1, Ok(2)), Subscribe(1)]
  {
    var entering, computing := Task(7, false, Entering, None), Task(7, false, Computing, None);
    var pending, found := map[7 := Pending(0, 1)], Task(7, false, Found(0), None);
    steps := [Call(7, false), Call(7, false), LookUp(0, Ok(1)), LookUp(1, Ok(2)), Subscribe(1)];
    states := [State(map[], []), State(map[], [entering]), State(map[], [entering, entering]),
               State(pending, [computing, entering]), State(pending, [computing, found]), s];
  }

  lemma FirstCallServes(s: State) returns (states: seq<State>, steps: seq<Step>)
    requires s == State(map[7 := Pending(0, 1)], [Task(7, false, Computing, None), Task(7, false, Subscribed(0), None)])
    ensures |states| == 5 && IsRun(states, steps) && states[0] == s
    ensures steps == [Compute(0, Ok(5)), Store(0), Send(0), Receive(1)]
    ensures states[4] == State(map[7 := Cached(5)], [Task(7, false, Done(Ok(5)), Some(Final(Ok(5)))),
                                                     Task(7, false, Finished, Some(Final(Ok(5))))])
  {
    var computed, stored := Task(7, false, Computed(Ok(5)), None), Task(7, false, Stored(Ok(5)), None);
    var done, subscribed := Task(7, false, Done(Ok(5)), Some(Final(Ok(5)))), Task(7, false, Subscribed(0), None);
    var received, finished := Task(7, false, Received(Ok(5)), None), Task(7, false, Finished, Some(Final(Ok(5))));
    var pending, cached := map[7 := Pending(0, 1)], map[7 := Cached(5)];
    steps := [Compute(0, Ok(5)), Store(0), Send(0), Receive(1)];
    states := [s, State(pending, [computed, subscribed]), State(cached, [stored, subscribed]),
               State(cached, [done, received]), State(cached, [done, finished])];
    assert Does(states[1], steps[1], states[2]) && Does(states[2], steps[2], states[3]);
  }

  lemma RunsJoin(states: seq<State>, steps: seq<Step>, states': seq<State>, steps': seq<Step>)
    requires IsRun(states, steps) && IsRun(states', steps') && states[|steps|] == states'[0]
    ensures IsRun(states + states'[1..], steps + steps')
  {
    var all, taken := states + states'[1..], steps + steps';
    forall i | 0 <= i < |taken| ensures Does(all[i], taken[i], all[i + 1]) {
      if i >= |steps| { assert Does(states'[i - |steps|], steps'[i - |steps|], states'[i - |steps| + 1]); }
    }
  }

  /** Two calls for one key: the second waits, and both have what the first computed. */
  lemma OneComputationServesBoth() returns (states: seq<State>, steps: seq<Step>)
    ensures IsRun(states, steps) && Init(states[0])
    ensures steps == [Call(7, false), Call(7, false), LookUp(0, Ok(1)), LookUp(1, Ok(2)), Subscribe(1), Compute(0, Ok(5)),
                      Store(0), Send(0), Receive(1)]
    ensures states[|steps|] == State(map[7 := Cached(5)], [Task(7, false, Done(Ok(5)), Some(Final(Ok(5)))),
                                                           Task(7, false, Finished, Some(Final(Ok(5))))])
  {
    var s := State(map[7 := Pending(0, 1)], [Task(7, false, Computing, None), Task(7, false, Subscribed(0), None)]);
    var before, first := SecondCallWaits(s);
    var after, second := FirstCallServes(s);
    RunsJoin(before, first, after, second);
    states, steps := before + after[1..], first + second;
  }
}
