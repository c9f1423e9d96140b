/**
 The planner as it runs: it simulates the plan on the pods' shard sets and records each step in the
 assignments and unassignments. Its loops are proved against the closed form in Rebalancing.
 */
module Planner {
  import opened Ordered
  import opened Division
  import opened Induction
  import opened Levelling
  import opened ShardModel
  import opened Rebalancing

  // ---------------------------------------------------------------- recording one step

  lemma ReceivedGains(t: Table, c: nat, k: nat, s: ShardId)
    requires |t.owned| > 0 && c < |Deck(t)| && s in Received(t, c + 1, k)
    ensures s in Received(t, c, k) || (k == Destination(t, c) && s == Deck(t)[c])
  {
    var j :| 0 <= j < c + 1 && Destination(t, j) == k && Deck(t)[j] == s;
  }

  lemma ReceivedKeeps(t: Table, c: nat, k: nat, s: ShardId)
    requires |t.owned| > 0 && c < |Deck(t)|
    requires s in Received(t, c, k) || (k == Destination(t, c) && s == Deck(t)[c])
    ensures s in Received(t, c + 1, k)
  {
    if s in Received(t, c, k) {
      var j :| 0 <= j < c && Destination(t, j) == k && Deck(t)[j] == s;
    }
  }

  lemma ReceivedStep(t: Table, c: nat, k: nat)
    requires |t.owned| > 0 && c < |Deck(t)|
    ensures Received(t, c + 1, k) == Received(t, c, k) + if k == Destination(t, c) then {Deck(t)[c]} else {}
  {
    var before, now, last := Received(t, c, k), Received(t, c + 1, k), Deck(t)[c];
    forall s | s in now ensures s in before || (k == Destination(t, c) && s == last) { ReceivedGains(t, c, k, s); }
    forall s | s in before || (k == Destination(t, c) && s == last) ensures s in now { ReceivedKeeps(t, c, k, s); }
  }

  lemma UnionAssociates(a: set<ShardId>, b: set<ShardId>, c: set<ShardId>)
    ensures a + (b + c) == (a + b) + c
  {
  }

  lemma DealStepAt(t: Table, c: nat, k: nat)
    requires |t.owned| > 0 && c < |Deck(t)| && k < |t.owned|
    ensures Dealt(t, c + 1)[k] == Dealt(t, c)[k] + if k == Destination(t, c) then {Deck(t)[c]} else {}
  {
    ReceivedStep(t, c, k);
    UnionAssociates(EntriesVec(t)[k], Received(t, c, k), if k == Destination(t, c) then {Deck(t)[c]} else {});
  }

  lemma DealStep(t: Table, c: nat)
    requires |t.owned| > 0 && c < |Deck(t)|
    ensures var i := Destination(t, c);
            Dealt(t, c + 1) == Dealt(t, c)[i := Dealt(t, c)[i] + {Deck(t)[c]}]
  {
    var i, s, d, d1 := Destination(t, c), Deck(t)[c], Dealt(t, c), Dealt(t, c + 1);
    forall k | 0 <= k < |d| ensures d1[k] == d[k] + if k == i then {s} else {} {
      DealStepAt(t, c, k);
    }
    OneEntryMore(d, d1, i, s);
  }

  lemma OneEntryMore(d: Entries, d1: Entries, i: nat, s: ShardId)
    requires |d| == |d1| && i < |d| && forall k :: 0 <= k < |d| ==> d1[k] == d[k] + if k == i then {s} else {}
    ensures d1 == d[i := d[i] + {s}]
  {
    forall k | 0 <= k < |d| ensures d1[k] == d[i := d[i] + {s}][k] { }
  }

  lemma SameOnPods(ps: seq<Pod>, a: Ownership, b: Ownership)
    requires forall p :: p in a ==> p in ps
    requires forall p :: p in b ==> p in ps
    requires forall k :: 0 <= k < |ps| ==> (ps[k] in a <==> ps[k] in b) && Held(a, ps[k]) == Held(b, ps[k])
    ensures a == b
  {
    forall p ensures p in a <==> p in b {
      if p in a || p in b {
        var k :| 0 <= k < |ps| && ps[k] == p;
      }
    }
    forall p | p in a ensures a[p] == b[p] {
      var k :| 0 <= k < |ps| && ps[k] == p;
    }
  }

  lemma RecordDeal(ps: seq<Pod>, start: Entries, e: Entries, i: nat, s: ShardId)
    requires |ps| == |start| == |e| && Increasing(ps) && i < |ps| && s !in start[i]
    ensures var e1 := e[i := e[i] + {s}];
            Gained(ps, start, e1, e1) == Put(Gained(ps, start, e, e), ps[i], s)
  {
    var e1 := e[i := e[i] + {s}];
    var g, g1 := Gained(ps, start, e, e), Gained(ps, start, e1, e1);
    forall k | 0 <= k < |ps|
      ensures (ps[k] in g1 <==> ps[k] in Put(g, ps[i], s)) && Held(g1, ps[k]) == Held(Put(g, ps[i], s), ps[k])
    {
      GainedAt(ps, start, e, e, k);
      GainedAt(ps, start, e1, e1, k);
    }
    SameOnPods(ps, g1, Put(g, ps[i], s));
  }

  lemma RecordGainAt(ps: seq<Pod>, start: Entries, placed: Entries, e: Entries, source: nat, target: nat, s: ShardId, k: nat)
    requires |ps| == |start| == |placed| == |e| && Increasing(ps)
    requires source < |ps| && target < |ps| && source != target && k < |ps|
    requires start[target] <= placed[target] && e[source] <= placed[source]
    requires s in e[source] && s !in placed[target]
    ensures var g1 := Gained(ps, start, placed, e[source := e[source] - {s}][target := e[target] + {s}]);
            var expected := Drop(Put(Gained(ps, start, placed, e), ps[target], s), ps[source], s);
            (ps[k] in g1 <==> ps[k] in expected) && Held(g1, ps[k]) == Held(expected, ps[k])
  {
    var e1 := e[source := e[source] - {s}][target := e[target] + {s}];
    GainedAt(ps, start, placed, e, k);
    GainedAt(ps, start, placed, e1, k);
    assert ps[source] != ps[target];
    if k == source {
      assert s in placed[k] && s !in e1[k];
    } else if k == target {
      assert s in e1[k];
    } else {
      assert ps[k] != ps[source] && ps[k] != ps[target];
    }
  }

  lemma RecordGain(ps: seq<Pod>, start: Entries, placed: Entries, e: Entries, source: nat, target: nat, s: ShardId)
    requires |ps| == |start| == |placed| == |e| && Increasing(ps)
    requires source < |ps| && target < |ps| && source != target
    requires start[target] <= placed[target] && e[source] <= placed[source]
    requires s in e[source] && s !in placed[target]
    ensures var e1 := e[source := e[source] - {s}][target := e[target] + {s}];
            Gained(ps, start, placed, e1) == Drop(Put(Gained(ps, start, placed, e), ps[target], s), ps[source], s)
  {
    var e1 := e[source := e[source] - {s}][target := e[target] + {s}];
    var expected := Drop(Put(Gained(ps, start, placed, e), ps[target], s), ps[source], s);
    forall k | 0 <= k < |ps|
      ensures (ps[k] in Gained(ps, start, placed, e1) <==> ps[k] in expected)
      ensures Held(Gained(ps, start, placed, e1), ps[k]) == Held(expected, ps[k])
    {
      RecordGainAt(ps, start, placed, e, source, target, s, k);
    }
    SameOnPods(ps, Gained(ps, start, placed, e1), expected);
  }

  lemma RecordGiveUpAt(ps: seq<Pod>, placed: Entries, e: Entries, source: nat, target: nat, s: ShardId, k: nat)
    requires |ps| == |placed| == |e| && Increasing(ps)
    requires source < |ps| && target < |ps| && source != target && k < |ps|
    requires placed[target] <= e[target] && e[source] <= placed[source]
    requires s in e[source] && s !in placed[target]
    ensures var u1 := GivenUp(ps, placed, e[source := e[source] - {s}][target := e[target] + {s}]);
            var expected := Put(GivenUp(ps, placed, e), ps[source], s);
            (ps[k] in u1 <==> ps[k] in expected) && Held(u1, ps[k]) == Held(expected, ps[k])
  {
    var e1 := e[source := e[source] - {s}][target := e[target] + {s}];
    GivenUpAt(ps, placed, e, k);
    GivenUpAt(ps, placed, e1, k);
    if k == source {
      assert s in placed[k] && s !in e1[k];
    } else {
      assert ps[k] != ps[source];
    }
  }

  lemma RecordGiveUp(ps: seq<Pod>, placed: Entries, e: Entries, source: nat, target: nat, s: ShardId)
    requires |ps| == |placed| == |e| && Increasing(ps)
    requires source < |ps| && target < |ps| && source != target
    requires placed[target] <= e[target] && e[source] <= placed[source]
    requires s in e[source] && s !in placed[target]
    ensures var e1 := e[source := e[source] - {s}][target := e[target] + {s}];
            GivenUp(ps, placed, e1) == Put(GivenUp(ps, placed, e), ps[source], s)
  {
    var e1 := e[source := e[source] - {s}][target := e[target] + {s}];
    var u1, expected := GivenUp(ps, placed, e1), Put(GivenUp(ps, placed, e), ps[source], s);
    forall k | 0 <= k < |ps| ensures (ps[k] in u1 <==> ps[k] in expected) && Held(u1, ps[k]) == Held(expected, ps[k]) {
      RecordGiveUpAt(ps, placed, e, source, target, s, k);
    }
    SameOnPods(ps, u1, expected);
  }

  /** The next turn: the position in the round advances, and after the last one a round is complete. */
  lemma NextTurn(c: nat, k: nat)
    requires k > 0
    ensures c % k < k && (c % k + 1) % k == (c + 1) % k
    ensures (c + 1) % k == if c % k + 1 == k then 0 else c % k + 1
    ensures (c + 1) / k == if c % k + 1 == k then c / k + 1 else c / k
  {
    var q, r := c / k, c % k;
    assert c == q * k + r;
    if r + 1 == k {
      assert c + 1 == (q + 1) * k + 0;
      QuotientIs(c + 1, q + 1, k, 0);
      QuotientIs(k, 1, k, 0);
    } else {
      QuotientIs(c + 1, q, k, r + 1);
      QuotientIs(r + 1, 0, k, r + 1);
    }
  }

  /** While no pod in turn has reached the optimal count, the shard dealt next belongs to the first share. */
  lemma TurnsBeforeShare(count: nat, k: nat, optimal: nat, c: nat)
    requires c < count && 0 < k
    requires optimal > 0 ==> c / k < optimal
    ensures c < FirstShare(count, k, optimal)
    ensures c % k + 1 == k && c / k + 1 == optimal ==> c + 1 == FirstShare(count, k, optimal)
  {
    var q, r := c / k, c % k;
    assert c == q * k + r;
    if optimal > 0 {
      Multiply(q + 1, optimal, k);
      assert (q + 1) * k == q * k + k;
    }
  }

  lemma WholeShare(count: nat, k: nat, optimal: nat)
    requires 0 < k && (optimal > 0 ==> count / k < optimal)
    ensures FirstShare(count, k, optimal) == count
  {
    var q, r := count / k, count % k;
    assert count == q * k + r;
    if optimal > 0 {
      Multiply(q + 1, optimal, k);
      assert (q + 1) * k == q * k + k;
    }
  }

  lemma Multiply(a: nat, b: nat, k: nat)
    requires a <= b
    ensures a * k <= b * k
  {
  }

  lemma NotYetDealt(t: Table, c: nat, i: nat)
    requires |t.owned| > 0 && c < |Deck(t)| && i < |t.owned|
    ensures Deck(t)[c] !in Dealt(t, c)[i] && Deck(t)[c] !in EntriesVec(t)[i]
  {
    DeckIsUnowned(t, c, i);
    if Deck(t)[c] in Dealt(t, c)[i] {
      var j := Origin(t, c, i, Deck(t)[c]);
    }
  }

  /** The invariant of both dealing loops: c shards are dealt and recorded. */
  ghost predicate Dealing(t: Table, entries: Entries, record: Ownership, c: nat) {
    && |t.owned| > 0 && c <= |Deck(t)|
    && entries == Dealt(t, c)
    && record == Gained(Pods(t), EntriesVec(t), entries, entries)
  }

  lemma DealingStarts(t: Table)
    requires |t.owned| > 0
    ensures Dealing(t, EntriesVec(t), map[], 0)
  {
    var e := EntriesVec(t);
    forall i | 0 <= i < |e| ensures Dealt(t, 0)[i] == e[i] {
      assert Received(t, 0, i) == {};
    }
  }

  lemma DealingContinues(t: Table, entries: Entries, record: Ownership, c: nat)
    requires Dealing(t, entries, record, c) && c < |Deck(t)|
    ensures var i, s := Destination(t, c), Deck(t)[c];
            && s !in entries[i]
            && Dealing(t, entries[i := entries[i] + {s}], Put(record, Pods(t)[i], s), c + 1)
  {
    var i := Destination(t, c);
    NotYetDealt(t, c, i);
    DealStep(t, c);
    RecordDeal(Pods(t), EntriesVec(t), entries, i, Deck(t)[c]);
  }

  /** The pods in turn hold `rounds` shards, those before idx one more. */
  ghost predicate InTurn(targets: seq<nat>, entries: Entries, rounds: nat, idx: nat) {
    && (forall a :: 0 <= a < |targets| ==> targets[a] < |entries|)
    && (forall a, b :: 0 <= a < b < |targets| ==> targets[a] < targets[b])
    && (forall a :: 0 <= a < |targets| ==> |entries[targets[a]]| == rounds + if a < idx then 1 else 0)
  }

  lemma InTurnContinues(targets: seq<nat>, entries: Entries, rounds: nat, idx: nat, s: ShardId)
    requires InTurn(targets, entries, rounds, idx) && idx < |targets| && s !in entries[targets[idx]]
    ensures var e1 := entries[targets[idx] := entries[targets[idx]] + {s}];
            && |e1[targets[idx]]| == rounds + 1
            && (idx + 1 < |targets| ==> InTurn(targets, e1, rounds, idx + 1))
            && (idx + 1 == |targets| ==> InTurn(targets, e1, rounds + 1, 0))
  {
  }

  // ---------------------------------------------------------------- the dealing loops

  /** One shard after the other goes to its destination. */
  function Hand(start: Entries, deck: seq<ShardId>, dest: seq<nat>, c: nat): (e: Entries)
    requires c <= |deck| == |dest| && forall j :: 0 <= j < |dest| ==> dest[j] < |start|
    ensures |e| == |start|
  {
    if c == 0 then start else
      var e := Hand(start, deck, dest, c - 1);
      e[dest[c - 1] := e[dest[c - 1]] + {deck[c - 1]}]
  }

  function HandRecord(ps: seq<Pod>, deck: seq<ShardId>, dest: seq<nat>, c: nat): Ownership
    requires c <= |deck| == |dest| && forall j :: 0 <= j < |dest| ==> dest[j] < |ps|
  {
    if c == 0 then map[] else Put(HandRecord(ps, deck, dest, c - 1), ps[dest[c - 1]], deck[c - 1])
  }

  /** No shard is handed to a pod that has it. */
  ghost predicate HandsFresh(start: Entries, deck: seq<ShardId>, dest: seq<nat>) {
    && |deck| == |dest|
    && (forall j :: 0 <= j < |dest| ==> dest[j] < |start|)
    && (forall c :: 0 <= c < |deck| ==> FreshAt(start, deck, dest, c))
  }

  ghost predicate FreshAt(start: Entries, deck: seq<ShardId>, dest: seq<nat>, c: nat)
    requires c < |deck| == |dest| && forall j :: 0 <= j < |dest| ==> dest[j] < |start|
  {
    deck[c] !in Hand(start, deck, dest, c)[dest[c]]
  }

  /**
   How k pods take turns: whose turn it is and how many rounds are complete after c shards, and the share at which
   the last of them reaches the optimal count.
   */
  ghost predicate Rounds(k: nat, optimal: nat, count: nat, share: nat, turn: seq<nat>, round: seq<nat>) {
    && 0 < k && share <= count && |turn| == |round| == count + 1
    && turn[0] == round[0] == 0
    && (forall c :: 0 <= c < count ==>
          && turn[c] < k
          && (if turn[c] + 1 == k then turn[c + 1] == 0 && round[c + 1] == round[c] + 1
              else turn[c + 1] == turn[c] + 1 && round[c + 1] == round[c]))
    && (forall c :: 0 <= c < count && (optimal > 0 ==> round[c] < optimal) ==>
          c < share && (turn[c] + 1 == k && round[c] + 1 == optimal ==> c + 1 == share))
    && ((optimal > 0 ==> round[count] < optimal) ==> share == count)
  }

  lemma RoundsAre(k: nat, optimal: nat, count: nat, turn: seq<nat>, round: seq<nat>)
    requires 0 < k && |turn| == |round| == count + 1
    requires forall c :: 0 <= c <= count ==> turn[c] == c % k && round[c] == c / k
    ensures Rounds(k, optimal, count, FirstShare(count, k, optimal), turn, round)
  {
    QuotientIs(0, 0, k, 0);
    forall c | 0 <= c < count
      ensures turn[c] < k
      ensures if turn[c] + 1 == k then turn[c + 1] == 0 && round[c + 1] == round[c] + 1
              else turn[c + 1] == turn[c] + 1 && round[c + 1] == round[c]
    {
      NextTurn(c, k);
    }
    forall c | 0 <= c < count && (optimal > 0 ==> round[c] < optimal)
      ensures c < FirstShare(count, k, optimal)
      ensures turn[c] + 1 == k && round[c] + 1 == optimal ==> c + 1 == FirstShare(count, k, optimal)
    {
      TurnsBeforeShare(count, k, optimal, c);
    }
    if optimal > 0 ==> round[count] < optimal {
      WholeShare(count, k, optimal);
    }
    ShareWithin(count, k, optimal);
  }

  lemma Turns(k: nat, optimal: nat, count: nat) returns (share: nat, turn: seq<nat>, round: seq<nat>)
    requires 0 < k
    ensures share == FirstShare(count, k, optimal) && Rounds(k, optimal, count, share, turn, round)
    ensures forall c :: 0 <= c <= count ==> turn[c] == c % k
  {
    share := FirstShare(count, k, optimal);
    turn, round := seq(count + 1, c requires 0 <= c => c % k), seq(count + 1, c requires 0 <= c => c / k);
    RoundsAre(k, optimal, count, turn, round);
  }

  lemma ShareWithin(count: nat, empties: nat, optimal: nat)
    ensures FirstShare(count, empties, optimal) <= count
    ensures FirstShare(count, empties, optimal) > 0 ==> empties > 0
  {
  }

  lemma WrapAround(idx: nat, k: nat)
    requires idx < k
    ensures (idx + 1) % k == if idx + 1 == k then 0 else idx + 1
  {
    if idx + 1 == k { QuotientIs(k, 1, k, 0); } else { QuotientIs(idx + 1, 0, k, idx + 1); }
  }

  /** First the empty pods take turns, until the last of them reaches the optimal count. */
  method DealToEmptyPods(pods: seq<Pod>, start: Entries, targets: seq<nat>, optimalCount: nat, deck: seq<ShardId>,
                         assignments: Assignments, ghost dest: seq<nat>, ghost share: nat, ghost turn: seq<nat>,
                         ghost round: seq<nat>)
    returns (entries: Entries, next: nat)
    requires |pods| == |start| && HandsFresh(start, deck, dest) && assignments.assignments == map[]
    requires Rounds(|targets|, optimalCount, |deck|, share, turn, round)
    requires forall j :: 0 <= j < share ==> dest[j] == targets[turn[j]]
    requires InTurn(targets, start, 0, 0)
    modifies assignments
    ensures next == share
    ensures entries == Hand(start, deck, dest, next)
    ensures assignments.assignments == HandRecord(pods, deck, dest, next)
  {
    entries, next := start, 0;
    var podCount := |targets|;
    var lastPodIdx := podCount - 1;
    var idx := 0;
    while next < |deck|
      invariant next <= |deck| && idx == turn[next]
      invariant optimalCount > 0 ==> round[next] < optimalCount
      invariant entries == Hand(start, deck, dest, next)
      invariant assignments.assignments == HandRecord(pods, deck, dest, next)
      invariant InTurn(targets, entries, round[next], idx)
    {
      var shard := deck[next];
      var targetIdx := targets[idx];
      assert dest[next] == targetIdx && FreshAt(start, deck, dest, next);
      InTurnContinues(targets, entries, round[next], idx, shard);
      WrapAround(idx, podCount);
      next := next + 1;
      assignments.Assign(pods[targetIdx], shard);
      entries := entries[targetIdx := entries[targetIdx] + {shard}];
      if idx == lastPodIdx && |entries[targetIdx]| == optimalCount {
        break;
      }
      idx := (idx + 1) % podCount;
    }
  }

  /** Then all pods take turns, from the first. */
  method DealToAllPods(pods: seq<Pod>, start: Entries, entries0: Entries, first: nat,
                       deck: seq<ShardId>, assignments: Assignments, ghost dest: seq<nat>)
    returns (entries: Entries)
    requires 0 < |pods| == |start| && first <= |deck| == |dest|
    requires forall j :: 0 <= j < |dest| ==> dest[j] < |start|
    requires forall j :: first <= j < |dest| ==> dest[j] == (j - first) % |pods|
    requires entries0 == Hand(start, deck, dest, first)
    requires assignments.assignments == HandRecord(pods, deck, dest, first)
    modifies assignments
    ensures entries == Hand(start, deck, dest, |deck|)
    ensures assignments.assignments == HandRecord(pods, deck, dest, |deck|)
  {
    entries := entries0;
    var podCount := |pods|;
    var idx, next := 0, first;
    while next < |deck|
      invariant first <= next <= |deck| && idx == (next - first) % podCount
      invariant entries == Hand(start, deck, dest, next)
      invariant assignments.assignments == HandRecord(pods, deck, dest, next)
    {
      var shard := deck[next];
      NextTurn(next - first, podCount);
      next := next + 1;
      assignments.Assign(pods[idx], shard);
      entries := entries[idx := entries[idx] + {shard}];
      idx := (idx + 1) % podCount;
    }
  }

  // ---------------------------------------------------------------- the move loop

  /** The invariant of the move loops: the entries are reachable, and what changed so far is recorded. */
  ghost predicate Moving(ps: seq<Pod>, start: Entries, placed: Entries, lower: nat,
                         e: Entries, gained: Ownership, givenUp: Ownership)
  {
    && |ps| == |start| == |placed| == |e| && Increasing(ps)
    && (forall i :: 0 <= i < |ps| ==> start[i] <= placed[i])
    && Reached(placed, e, lower)
    && gained == Gained(ps, start, placed, e)
    && givenUp == GivenUp(ps, placed, e)
  }

  lemma MovingContinues(ps: seq<Pod>, start: Entries, placed: Entries, lower: nat,
                        e: Entries, gained: Ownership, givenUp: Ownership, source: nat, target: nat)
    requires Moving(ps, start, placed, lower, e, gained, givenUp)
    requires target < |e| && |e[target]| < lower && source as int == Source(e, target, lower)
    ensures var s := Min(e[source]);
            Moving(ps, start, placed, lower, MoveFirst(e, source, target),
                   Drop(Put(gained, ps[target], s), ps[source], s), Put(givenUp, ps[source], s))
  {
    var s := Min(e[source]);
    MoveSides(placed, e, source, target, lower);
    MoveKeepsReached(placed, e, source, target, lower);
    RecordGain(ps, start, placed, e, source, target, s);
    RecordGiveUp(ps, placed, e, source, target, s);
  }

  lemma LevelMoves(e: Entries, target: nat, lower: nat)
    requires Disjoint(e) && target < |e| && |e[target]| < lower && Source(e, target, lower) >= 0
    ensures var e1 := MoveFirst(e, Source(e, target, lower), target);
            |e1| == |e| && Disjoint(e1) && |e1[target]| == |e[target]| + 1 && Level(e, target, lower) == Level(e1, target, lower)
  {
    MoveFacts(e, Source(e, target, lower), target);
  }

  lemma LevelPasses(e: Entries, target: nat, lower: nat)
    requires Disjoint(e) && target < |e| && (|e[target]| >= lower || Source(e, target, lower) < 0)
    ensures Level(e, target, lower) == Level(e, target + 1, lower)
  {
  }

  /** The target takes shards from the fullest pod above the threshold until it has enough or no pod may give. */
  method FillPod(pods: seq<Pod>, ghost start: Entries, ghost placed: Entries, entries0: Entries, targetIdx: nat,
                 lowerThreshold: nat, assignments: Assignments, unassignments: Unassignments)
    returns (entries: Entries)
    requires Moving(pods, start, placed, lowerThreshold, entries0, assignments.assignments, unassignments.unassignments)
    requires targetIdx < |entries0|
    modifies assignments, unassignments
    ensures Moving(pods, start, placed, lowerThreshold, entries, assignments.assignments, unassignments.unassignments)
    ensures Level(entries, targetIdx + 1, lowerThreshold) == Level(entries0, targetIdx, lowerThreshold)
  {
    entries := entries0;
    while true
      invariant |entries| == |entries0|
      invariant Moving(pods, start, placed, lowerThreshold, entries, assignments.assignments, unassignments.unassignments)
      invariant Level(entries, targetIdx, lowerThreshold) == Level(entries0, targetIdx, lowerThreshold)
      decreases lowerThreshold - |entries[targetIdx]|
    {
      if |entries[targetIdx]| < lowerThreshold {
        var sourceIdx := Source(entries, targetIdx, lowerThreshold);
        if sourceIdx >= 0 {
          LevelMoves(entries, targetIdx, lowerThreshold);
          MovingContinues(pods, start, placed, lowerThreshold, entries,
                          assignments.assignments, unassignments.unassignments, sourceIdx, targetIdx);
          var shardId := Min(entries[sourceIdx]);
          entries := entries[sourceIdx := entries[sourceIdx] - {shardId}][targetIdx := entries[targetIdx] + {shardId}];
          assignments.Assign(pods[targetIdx], shardId);
          unassignments.Unassign(pods[sourceIdx], shardId);
          assignments.Unassign(pods[sourceIdx], shardId);
        } else {
          break;
        }
      } else {
        break;
      }
    }
    LevelPasses(entries, targetIdx, lowerThreshold);
  }

  method MoveToNeedyPods(pods: seq<Pod>, ghost start: Entries, placed: Entries, lowerThreshold: nat,
                         assignments: Assignments, unassignments: Unassignments)
    returns (entries: Entries)
    requires Moving(pods, start, placed, lowerThreshold, placed, assignments.assignments, unassignments.unassignments)
    modifies assignments, unassignments
    ensures Disjoint(placed) && entries == Level(placed, 0, lowerThreshold)
    ensures Moving(pods, start, placed, lowerThreshold, entries, assignments.assignments, unassignments.unassignments)
  {
    entries := placed;
    for targetIdx := 0 to |entries|
      invariant |entries| == |placed|
      invariant Moving(pods, start, placed, lowerThreshold, entries, assignments.assignments, unassignments.unassignments)
      invariant Level(entries, targetIdx, lowerThreshold) == Level(placed, 0, lowerThreshold)
    {
      if |entries[targetIdx]| < lowerThreshold {
        entries := FillPod(pods, start, placed, entries, targetIdx, lowerThreshold, assignments, unassignments);
      }
    }
  }

  // ---------------------------------------------------------------- the planner

  function Destinations(t: Table): seq<nat>
    requires |t.owned| > 0
  {
    seq(|Deck(t)|, j requires 0 <= j => Destination(t, j))
  }

  /** Each shard of the deck goes to the pod the closed form says. */
  ghost predicate Follows(t: Table, dest: seq<nat>) {
    && 0 < |t.owned| && |dest| == |Deck(t)|
    && forall j :: 0 <= j < |dest| ==> dest[j] < |t.owned| && dest[j] == Destination(t, j)
  }

  ghost predicate DealtByHand(t: Table, start: Entries, deck: seq<ShardId>, dest: seq<nat>, c: nat)
    requires Follows(t, dest) && |deck| == |Deck(t)| && |start| == |t.owned|
  {
    c <= |deck| && Dealing(t, Hand(start, deck, dest, c), HandRecord(Pods(t), deck, dest, c), c)
  }

  lemma HandContinues(t: Table, start: Entries, deck: seq<ShardId>, dest: seq<nat>, c: nat)
    requires Follows(t, dest) && deck == Deck(t) && |start| == |t.owned| && c < |deck|
    requires DealtByHand(t, start, deck, dest, c)
    ensures DealtByHand(t, start, deck, dest, c + 1)
  {
    DealingContinues(t, Hand(start, deck, dest, c), HandRecord(Pods(t), deck, dest, c), c);
    HandOneMore(Pods(t), start, deck, dest, c);
  }

  lemma HandOneMore(ps: seq<Pod>, start: Entries, deck: seq<ShardId>, dest: seq<nat>, c: nat)
    requires c < |deck| == |dest| && |ps| == |start| && forall j :: 0 <= j < |dest| ==> dest[j] < |start|
    ensures var i, e := dest[c], Hand(start, deck, dest, c);
            && Hand(start, deck, dest, c + 1) == e[i := e[i] + {deck[c]}]
            && HandRecord(ps, deck, dest, c + 1) == Put(HandRecord(ps, deck, dest, c), ps[i], deck[c])
  {
  }

  lemma HandKeepsDealing(t: Table, start: Entries, deck: seq<ShardId>, dest: seq<nat>, c: nat)
    requires Dealing(t, start, map[], 0) && Follows(t, dest) && deck == Deck(t) && |start| == |t.owned| && c <= |deck|
    ensures DealtByHand(t, start, deck, dest, c)
  {
    var p := (j: nat) => DealtByHand(t, start, deck, dest, j);
    forall j: nat | j < |deck| && p(j) ensures p(j + 1) { HandContinues(t, start, deck, dest, j); }
    Upward(p, |deck|, c);
  }

  /** Handing shards out one by one gives the closed form, and records it. */
  lemma HandIsDealt(t: Table, start: Entries, deck: seq<ShardId>, dest: seq<nat>, c: nat)
    requires |t.owned| > 0 && start == EntriesVec(t) && deck == Deck(t) && dest == Destinations(t) && c <= |deck|
    ensures Dealing(t, Hand(start, deck, dest, c), HandRecord(Pods(t), deck, dest, c), c)
  {
    DealingStarts(t);
    assert Follows(t, dest);
    HandKeepsDealing(t, start, deck, dest, c);
  }

  lemma NotInHand(t: Table, start: Entries, deck: seq<ShardId>, dest: seq<nat>, c: nat)
    requires |t.owned| > 0 && start == EntriesVec(t) && deck == Deck(t) && dest == Destinations(t) && c < |deck|
    ensures FreshAt(start, deck, dest, c)
  {
    HandIsDealt(t, start, deck, dest, c);
    NotYetDealt(t, c, dest[c]);
  }

  lemma EmptyPodsInTurn(t: Table)
    ensures InTurn(EmptyPods(EntriesVec(t)), EntriesVec(t), 0, 0)
  {
    var targets := EmptyPods(EntriesVec(t));
    assert forall a :: 0 <= a < |targets| ==> targets[a] in targets;
  }

  lemma PlanStarts(t: Table, threshold: real, record: Ownership)
    requires |t.owned| > 0 && Valid(t)
    requires Dealing(t, Placed(t), record, |Deck(t)|)
    ensures Moving(Pods(t), EntriesVec(t), Placed(t), LowerThreshold(t, threshold), Placed(t), record, map[])
  {
    PlacedIsPartition(t);
    ReachedStart(Placed(t), LowerThreshold(t, threshold));
  }

  lemma LevelOfOne(e: Entries, target: nat, lower: nat)
    requires |e| == 1 && target <= 1
    ensures Level(e, target, lower) == e
  {
  }

  /** The first share goes round the empty pods, the rest round all of them. */
  ghost predicate TakesTurns(pods: nat, targets: seq<nat>, share: nat, dest: seq<nat>) {
    && 0 < pods && share <= |dest|
    && (forall j :: 0 <= j < |dest| ==> dest[j] < pods)
    && (forall j :: 0 <= j < share ==> |targets| > 0 && dest[j] == targets[j % |targets|])
    && (forall j :: share <= j < |dest| ==> dest[j] == (j - share) % pods)
  }

  lemma EmptyPodsFirst(t: Table, j: nat)
    requires |t.owned| > 0 && j < Share(t)
    ensures j < |Destinations(t)| && |EmptyPods(EntriesVec(t))| > 0
    ensures Destinations(t)[j] == EmptyPods(EntriesVec(t))[j % |EmptyPods(EntriesVec(t))|]
  {
    ShareWithin(|Deck(t)|, |EmptyPods(EntriesVec(t))|, OptimalCount(t));
    assert Destinations(t)[j] == Destination(t, j);
  }

  lemma AllPodsNext(t: Table, j: nat)
    requires |t.owned| > 0 && Share(t) <= j < |Deck(t)|
    ensures Destinations(t)[j] == (j - Share(t)) % |t.owned|
  {
    assert Destinations(t)[j] == Destination(t, j);
  }

  lemma DestinationsTakeTurns(t: Table, targets: seq<nat>, share: nat, dest: seq<nat>)
    requires |t.owned| > 0
    requires targets == EmptyPods(EntriesVec(t)) && dest == Destinations(t) && share == Share(t)
    ensures TakesTurns(|t.owned|, targets, share, dest)
  {
    ShareWithin(|Deck(t)|, |targets|, OptimalCount(t));
    forall j | 0 <= j < |dest| ensures dest[j] < |t.owned| {
      assert dest[j] == Destination(t, j);
    }
    forall j | 0 <= j < share ensures |targets| > 0 && dest[j] == targets[j % |targets|] {
      EmptyPodsFirst(t, j);
    }
    forall j | share <= j < |dest| ensures dest[j] == (j - share) % |t.owned| {
      AllPodsNext(t, j);
    }
  }

  lemma DestinationsAreFresh(t: Table)
    requires |t.owned| > 0
    ensures HandsFresh(EntriesVec(t), Deck(t), Destinations(t))
  {
    var start, deck, dest := EntriesVec(t), Deck(t), Destinations(t);
    forall c | 0 <= c < |deck| ensures FreshAt(start, deck, dest, c) {
      NotInHand(t, start, deck, dest, c);
    }
  }

  method DealUnassigned(pods: seq<Pod>, start: Entries, optimalCount: nat, deck: seq<ShardId>,
                        assignments: Assignments, ghost dest: seq<nat>)
    returns (entries: Entries)
    requires |pods| == |start| && HandsFresh(start, deck, dest) && assignments.assignments == map[]
    requires TakesTurns(|start|, EmptyPods(start), FirstShare(|deck|, |EmptyPods(start)|, optimalCount), dest)
    requires InTurn(EmptyPods(start), start, 0, 0)
    modifies assignments
    ensures entries == Hand(start, deck, dest, |deck|)
    ensures assignments.assignments == HandRecord(pods, deck, dest, |deck|)
  {
    var initialTargetPods := EmptyPods(start);
    var next := 0;
    entries := start;
    if initialTargetPods != [] {
      ghost var share, turn, round := Turns(|initialTargetPods|, optimalCount, |deck|);
      entries, next := DealToEmptyPods(pods, start, initialTargetPods, optimalCount, deck, assignments, dest,
                                       share, turn, round);
    }
    entries := DealToAllPods(pods, start, entries, next, deck, assignments, dest);
  }

  lemma DealtAndReady(t: Table, threshold: real, ps: seq<Pod>, start: Entries, deck: seq<ShardId>, dest: seq<nat>,
                      e: Entries, record: Ownership)
    requires |t.owned| > 0 && Valid(t) && ps == Pods(t)
    requires start == EntriesVec(t) && deck == Deck(t) && dest == Destinations(t)
    requires e == Hand(start, deck, dest, |deck|) && record == HandRecord(ps, deck, dest, |deck|)
    ensures e == Placed(t) && Moving(ps, start, e, LowerThreshold(t, threshold), e, record, map[])
  {
    HandIsDealt(t, start, deck, dest, |deck|);
    PlanStarts(t, threshold, record);
  }

  lemma ReadyToDeal(t: Table, start: Entries, deck: seq<ShardId>, dest: seq<nat>)
    requires |t.owned| > 0 && start == EntriesVec(t) && deck == Deck(t) && dest == Destinations(t)
    ensures HandsFresh(start, deck, dest) && InTurn(EmptyPods(start), start, 0, 0)
    ensures TakesTurns(|start|, EmptyPods(start), FirstShare(|deck|, |EmptyPods(start)|, OptimalCount(t)), dest)
  {
    EmptyPodsInTurn(t);
    DestinationsTakeTurns(t, EmptyPods(start), Share(t), dest);
    DestinationsAreFresh(t);
  }

  lemma MovedIsPlanned(t: Table, threshold: real, placed: Entries, lower: nat, e: Entries,
                       gained: Ownership, givenUp: Ownership)
    requires |t.owned| > 0 && Valid(t) && placed == Placed(t) && lower == LowerThreshold(t, threshold)
    requires Moving(Pods(t), EntriesVec(t), placed, lower, e, gained, givenUp)
    requires Disjoint(placed) && e == Level(placed, 0, lower)
    ensures PlanOf(t, threshold) == Plan(gained, givenUp)
  {
  }

  /** The moves, if there is more than one pod; with them the record is the plan. */
  method MoveIfSeveral(ghost t: Table, ghost threshold: real, pods: seq<Pod>, placed: Entries, lowerThreshold: nat,
                       assignments: Assignments, unassignments: Unassignments)
    requires |t.owned| > 0 && Valid(t) && pods == Pods(t) && placed == Placed(t)
    requires lowerThreshold == LowerThreshold(t, threshold)
    requires Moving(pods, EntriesVec(t), placed, lowerThreshold, placed,
                    assignments.assignments, unassignments.unassignments)
    modifies assignments, unassignments
    ensures Plan(assignments.assignments, unassignments.unassignments) == PlanOf(t, threshold)
  {
    var entries := placed;
    if |pods| == 1 {
      LevelOfOne(placed, 0, lowerThreshold);
    } else {
      entries := MoveToNeedyPods(pods, EntriesVec(t), placed, lowerThreshold, assignments, unassignments);
    }
    MovedIsPlanned(t, threshold, placed, lowerThreshold, entries, assignments.assignments, unassignments.unassignments);
  }

  /** The two dealing loops reach the closed form, from which the moves start. */
  method DealAll(ghost t: Table, ghost threshold: real, pods: seq<Pod>, start: Entries, optimalCount: nat,
                 deck: seq<ShardId>, assignments: Assignments)
    returns (placed: Entries)
    requires |t.owned| > 0 && Valid(t) && pods == Pods(t) && start == EntriesVec(t)
    requires deck == Deck(t) && optimalCount == OptimalCount(t) && assignments.assignments == map[]
    modifies assignments
    ensures placed == Placed(t)
    ensures Moving(pods, start, placed, LowerThreshold(t, threshold), placed, assignments.assignments, map[])
  {
    ghost var dest := Destinations(t);
    ReadyToDeal(t, start, deck, dest);
    placed := DealUnassigned(pods, start, optimalCount, deck, assignments, dest);
    DealtAndReady(t, threshold, pods, start, deck, dest, placed, assignments.assignments);
  }

  /** The simulation on a table with pods, recording the plan. */
  method Simulate(routingTable: RoutingTable, threshold: real, assignments: Assignments, unassignments: Unassignments)
    requires Valid(routingTable.View()) && |routingTable.shardAssignments| > 0
    requires assignments.assignments == map[] && unassignments.unassignments == map[]
    modifies assignments, unassignments
    ensures Plan(assignments.assignments, unassignments.unassignments) == PlanOf(routingTable.View(), threshold)
  {
    var table := routingTable.View();
    var pods, start := Pods(table), EntriesVec(table);
    var optimalCount := OptimalCount(table);
    var lowerThreshold := LowerThreshold(table, threshold);
    var unassignedShards := routingTable.GetUnassignedShards();
    var deck := Ascending(unassignedShards);

    var placed := DealAll(table, threshold, pods, start, optimalCount, deck, assignments);
    MoveIfSeveral(table, threshold, pods, placed, lowerThreshold, assignments, unassignments);
  }

  /** Constructs a rebalance plan from the current state of the routing table. */
  method FromRoutingTable(routingTable: RoutingTable, threshold: real) returns (plan: Rebalance)
    requires Valid(routingTable.View())
    ensures fresh(plan) && fresh(plan.assignments) && fresh(plan.unassignments)
    ensures plan.View() == PlanOf(routingTable.View(), threshold)
  {
    var assignments := new Assignments();
    var unassignments := new Unassignments();
    plan := new Rebalance(assignments, unassignments);
    var podCount := |routingTable.shardAssignments|;
    if podCount != 0 {
      Simulate(routingTable, threshold, assignments, unassignments);
    }
  }
}
