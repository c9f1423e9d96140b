/** Where dealing sends each shard, by rank, and how evenly it fills the pods. */
module DealingProperties {
  import opened Ordered
  import opened Division
  import opened Levelling
  import opened ShardModel
  import opened Rebalancing
  import Planner

  // ---------------------------------------------------------------- ranks

  function SmallerIn(u: set<int>, s: int): set<int> { set x | x in u && x < s }

  function RankIn(u: set<int>, s: int): nat { |SmallerIn(u, s)| }

  function Elements(xs: seq<int>): set<int> { set x | x in xs }

  lemma {:induction false} FirstOnes(xs: seq<int>, j: nat)
    requires Increasing(xs) && j <= |xs|
    ensures |Elements(xs[..j])| == j
  {
    if j > 0 {
      FirstOnes(xs, j - 1);
      OneMoreElement(xs, j - 1, Elements(xs[..j - 1]), Elements(xs[..j]));
    }
  }

  lemma OneMoreElement(xs: seq<int>, j: nat, before: set<int>, now: set<int>)
    requires Increasing(xs) && j < |xs| && before == Elements(xs[..j]) && now == Elements(xs[..j + 1])
    ensures |now| == |before| + 1
  {
    var front, x := xs[..j], xs[j];
    assert xs[..j + 1] == front + [x];
    assert x !in front;
    LastElement(front, x, before, now);
  }

  lemma LastElement(front: seq<int>, x: int, before: set<int>, now: set<int>)
    requires x !in front && before == Elements(front) && now == Elements(front + [x])
    ensures |now| == |before| + 1
  {
    assert now == before + {x};
  }

  /** In ascending order an element stands behind the smaller ones. */
  lemma RankOf(xs: seq<int>, u: set<int>, j: nat)
    requires Increasing(xs) && (forall x :: x in xs <==> x in u) && j < |xs|
    ensures |SmallerIn(u, xs[j])| == j
  {
    FirstOnes(xs, j);
    assert SmallerIn(u, xs[j]) == Elements(xs[..j]);
  }

  /** The positions of the pods without shards before a position. */
  function EmptyBefore(e: Entries, i: nat): set<int>
    requires i <= |e|
  {
    set k | 0 <= k < i && e[k] == {}
  }

  lemma AllOnes(xs: seq<int>, u: set<int>)
    requires Increasing(xs) && forall x :: x in xs <==> x in u
    ensures |u| == |xs|
  {
    FirstOnes(xs, |xs|);
    assert xs[..|xs|] == xs;
    forall x ensures x in u <==> x in Elements(xs) { }
    assert u == Elements(xs);
  }

  lemma EmptyRank(e: Entries, xs: seq<int>, a: nat)
    requires Increasing(xs) && (forall i :: i in xs <==> 0 <= i < |e| && e[i] == {}) && a < |xs|
    ensures 0 <= xs[a] < |e| && e[xs[a]] == {} && |EmptyBefore(e, xs[a])| == a
  {
    var all := EmptyBefore(e, |e|);
    RankOf(xs, all, a);
    assert xs[a] in xs;
    assert SmallerIn(all, xs[a]) == EmptyBefore(e, xs[a]);
  }

  lemma EmptyCount(e: Entries)
    ensures |EmptyPods(e)| == |EmptyBefore(e, |e|)|
  {
    var xs: seq<int> := EmptyPods(e);
    AllOnes(xs, EmptyBefore(e, |e|));
  }

  /** Positions with the same number of empty pods before them are the same, if they are empty themselves. */
  lemma EmptyAtRank(e: Entries, xs: seq<int>, a: nat, i: nat)
    requires Increasing(xs) && (forall i :: i in xs <==> 0 <= i < |e| && e[i] == {}) && a < |xs| && i < |e|
    ensures xs[a] == i <==> e[i] == {} && |EmptyBefore(e, i)| == a
  {
    EmptyRank(e, xs, a);
    if e[i] == {} {
      var b :| 0 <= b < |xs| && xs[b] == i;
      EmptyRank(e, xs, b);
    }
  }

  // ---------------------------------------------------------------- where each shard goes

  /**
   * The r-th card goes in turn to one of the k pods without shards while these have less than q each, or whenever q is
   * zero, and in turn to one of all pods from then on.
   */
  ghost predicate TurnIs(e: Entries, n: nat, q: int, r: int, i: nat)
    requires n > 0 && i < |e|
  {
    var k := |EmptyBefore(e, |e|)|;
    if k > 0 && (q == 0 || r < k * q) then e[i] == {} && |EmptyBefore(e, i)| == r % k else i == (r - k * q) % n
  }

  /** The shards without an owner are dealt in this way, the smallest first. */
  ghost predicate GoesTo(t: Table, s: ShardId, i: nat)
    requires |t.owned| > 0 && i < |t.owned|
  {
    var e, n, p := EntriesVec(t), t.numberOfShards, |t.owned|;
    TurnIs(e, p, n / p, RankIn(Unassigned(t), s), i)
  }

  lemma ShareIs(count: nat, k: nat, q: nat, j: nat)
    requires j < count
    ensures j < FirstShare(count, k, q) <==> k > 0 && (q == 0 || j < k * q)
    ensures !(k > 0 && (q == 0 || j < k * q)) ==> FirstShare(count, k, q) == k * q
  {
  }

  lemma DestinationByRank(t: Table, j: nat, i: nat)
    requires |t.owned| > 0 && j < |Deck(t)| && i < |t.owned|
    ensures Destination(t, j) == i <==> GoesTo(t, Deck(t)[j], i)
  {
    RankOf(Deck(t), Unassigned(t), j);
    PlaceByRank(t, EntriesVec(t), EmptyPods(EntriesVec(t)), |Deck(t)|, j, i);
  }

  lemma PlaceByRank(t: Table, e: Entries, targets: seq<nat>, count: nat, j: nat, i: nat)
    requires |t.owned| > 0 && e == EntriesVec(t) && targets == EmptyPods(e) && count == |Deck(t)|
    requires j < count && i < |t.owned|
    ensures Destination(t, j) == i <==> TurnIs(e, |t.owned|, OptimalCount(t), j, i)
  {
    EmptyCount(e);
    var q, share := OptimalCount(t), Share(t);
    ShareIs(count, |targets|, q, j);
    if j < share {
      FirstPlace(t, e, targets, j, i);
    } else {
      LaterPlace(t, j, share);
    }
    TurnOf(e, |t.owned|, q, |targets|, j, i, Destination(t, j), share);
  }

  lemma LaterPlace(t: Table, j: nat, share: nat)
    requires |t.owned| > 0 && share == Share(t) && j >= share
    ensures Destination(t, j) == (j - share) % |t.owned|
  {
  }

  lemma TurnOf(e: Entries, n: nat, q: nat, k: nat, j: nat, i: nat, place: nat, share: nat)
    requires n > 0 && k == |EmptyBefore(e, |e|)| && i < |e|
    requires j < share <==> k > 0 && (q == 0 || j < k * q)
    requires j < share ==> (place == i <==> e[i] == {} && |EmptyBefore(e, i)| == j % k)
    requires j >= share ==> share == k * q && place == (j - share) % n
    ensures place == i <==> TurnIs(e, n, q, j, i)
  {
  }

  lemma FirstPlace(t: Table, e: Entries, targets: seq<nat>, j: nat, i: nat)
    requires |t.owned| > 0 && e == EntriesVec(t) && targets == EmptyPods(e) && j < Share(t) && i < |e|
    ensures Destination(t, j) == i <==> e[i] == {} && |EmptyBefore(e, i)| == j % |targets|
  {
    EmptyAtRank(e, targets, j % |targets|, i);
  }

  lemma OnlyDestination(t: Table, j: nat, i: nat)
    requires |t.owned| > 0 && Valid(t) && j < |Deck(t)| && i < |t.owned|
    ensures Deck(t)[j] in Placed(t)[i] <==> Destination(t, j) == i
  {
    DealtHas(t, |Deck(t)|, j);
    if Deck(t)[j] in Placed(t)[i] { OneHolder(t, |Deck(t)|, i, Destination(t, j), Deck(t)[j]); }
  }

  /** Dealing adds to each pod exactly the shards that go to it. */
  lemma DealtByRank(t: Table, s: ShardId, i: nat)
    requires |t.owned| > 0 && Valid(t) && i < |t.owned|
    ensures s in Placed(t)[i] <==> s in EntriesVec(t)[i] || (s in Unassigned(t) && GoesTo(t, s, i))
  {
    if s in Unassigned(t) {
      assert s in Deck(t);
      var j :| 0 <= j < |Deck(t)| && Deck(t)[j] == s;
      OnlyDestination(t, j, i);
      DestinationByRank(t, j, i);
      DeckIsUnowned(t, j, i);
    } else if s in Placed(t)[i] {
      var j := Origin(t, |Deck(t)|, i, s);
    }
  }

  // ---------------------------------------------------------------- how many each pod is dealt

  /** How often the a-th of k has had its turn after c turns. */
  function TurnsOf(c: nat, k: nat, a: nat): nat
    requires k > 0
  {
    c / k + if a < c % k then 1 else 0
  }

  lemma TurnsStart(k: nat, a: nat)
    requires k > 0
    ensures TurnsOf(0, k, a) == 0
  {
    QuotientIs(0, 0, k, 0);
  }

  lemma TurnsNext(c: nat, k: nat, a: nat)
    requires a < k
    ensures TurnsOf(c + 1, k, a) == TurnsOf(c, k, a) + if c % k == a then 1 else 0
  {
    Planner.NextTurn(c, k);
  }

  lemma TurnsWhole(k: nat, q: nat, a: nat)
    requires k > 0
    ensures TurnsOf(k * q, k, a) == q
  {
    QuotientIs(k * q, q, k, 0);
  }

  lemma ReceivedOneMore(t: Table, c: nat, i: nat)
    requires |t.owned| > 0 && c < |Deck(t)| && i < |t.owned|
    ensures |Received(t, c + 1, i)| == |Received(t, c, i)| + if Destination(t, c) == i then 1 else 0
  {
    Planner.ReceivedStep(t, c, i);
    Planner.NotYetDealt(t, c, i);
    var s := Deck(t)[c];
    assert s !in Received(t, c, i) by { assert s !in Dealt(t, c)[i]; }
  }

  /** How many shards a pod has after each turn. */
  ghost predicate Tallies(sizes: seq<nat>, dest: seq<nat>, i: nat) {
    && |sizes| == |dest| + 1 && sizes[0] == 0
    && forall c :: 0 <= c < |dest| ==> sizes[c + 1] == sizes[c] + if dest[c] == i then 1 else 0
  }

  lemma Tallied(t: Table, i: nat) returns (sizes: seq<nat>, dest: seq<nat>)
    requires |t.owned| > 0 && i < |t.owned|
    ensures dest == Planner.Destinations(t) && Tallies(sizes, dest, i) && sizes[|dest|] == |Received(t, |Deck(t)|, i)|
  {
    dest := Planner.Destinations(t);
    sizes := SizesReceived(t, i);
    assert Received(t, 0, i) == {};
    forall c | 0 <= c < |dest| ensures sizes[c + 1] == sizes[c] + if dest[c] == i then 1 else 0 {
      ReceivedOneMore(t, c, i);
      assert dest[c] == Destination(t, c);
    }
  }

  ghost function SizesReceived(t: Table, i: nat): (sizes: seq<nat>)
    requires |t.owned| > 0
    ensures |sizes| == |Deck(t)| + 1 && forall c :: 0 <= c < |sizes| ==> sizes[c] == |Received(t, c, i)|
  {
    seq(|Deck(t)| + 1, c requires 0 <= c <= |Deck(t)| => |Received(t, c, i)|)
  }

  /** In the first share the a-th empty pod has its turns. */
  lemma {:induction false} FirstTurns(sizes: seq<nat>, dest: seq<nat>, pods: nat, targets: seq<nat>, share: nat, c: nat, a: nat)
    requires a < |targets| && Tallies(sizes, dest, targets[a]) && Planner.TakesTurns(pods, targets, share, dest)
    requires (forall b :: 0 <= b < |targets| && b != a ==> targets[b] != targets[a]) && c <= share
    ensures sizes[c] == TurnsOf(c, |targets|, a)
  {
    if c == 0 {
      TurnsStart(|targets|, a);
    } else {
      FirstTurns(sizes, dest, pods, targets, share, c - 1, a);
      TurnsNext(c - 1, |targets|, a);
    }
  }

  /** The other pods get nothing of it. */
  lemma {:induction false} NoTurns(sizes: seq<nat>, dest: seq<nat>, pods: nat, targets: seq<nat>, share: nat, c: nat, i: nat)
    requires i !in targets && Tallies(sizes, dest, i) && Planner.TakesTurns(pods, targets, share, dest) && c <= share
    ensures sizes[c] == 0
  {
    if c > 0 {
      NoTurns(sizes, dest, pods, targets, share, c - 1, i);
      assert dest[c - 1] in targets;
    }
  }

  /** After the first share all pods have their turns. */
  lemma {:induction false} LaterTurns(sizes: seq<nat>, dest: seq<nat>, pods: nat, targets: seq<nat>, share: nat, c: nat, i: nat)
    requires Tallies(sizes, dest, i) && Planner.TakesTurns(pods, targets, share, dest) && share <= c <= |dest| && i < pods
    ensures sizes[c] == sizes[share] + TurnsOf(c - share, pods, i)
    decreases c
  {
    if c == share {
      TurnsStart(pods, i);
    } else {
      LaterTurns(sizes, dest, pods, targets, share, c - 1, i);
      TurnsNext(c - 1 - share, pods, i);
    }
  }

  lemma PlacedSize(t: Table, i: nat)
    requires |t.owned| > 0 && Valid(t) && i < |t.owned|
    ensures |Placed(t)[i]| == |EntriesVec(t)[i]| + |Received(t, |Deck(t)|, i)|
    ensures EntriesVec(t)[i] !! Received(t, |Deck(t)|, i)
  {
    forall s | s in Received(t, |Deck(t)|, i) ensures s !in EntriesVec(t)[i] {
      var j :| 0 <= j < |Deck(t)| && Destination(t, j) == i && Deck(t)[j] == s;
      DeckIsUnowned(t, j, i);
    }
    DisjointSize(EntriesVec(t)[i], Received(t, |Deck(t)|, i));
  }

  lemma DisjointSize(a: set<int>, b: set<int>)
    requires a !! b
    ensures |a + b| == |a| + |b|
  {
  }

  /** What the two rounds give: an empty pod its turns of the first share, every pod its turns of the rest. */
  ghost predicate TwoRounds(count: nat, pods: nat, k: nat, share: nat, i: nat, empty: bool, dealt: nat)
    requires pods > 0
  {
    && share <= count
    && if empty then k > 0 && exists a :: 0 <= a < k && dealt == TurnsOf(share, k, a) + TurnsOf(count - share, pods, i)
       else dealt == TurnsOf(count - share, pods, i)
  }

  lemma TallyIs(sizes: seq<nat>, dest: seq<nat>, pods: nat, targets: seq<nat>, share: nat, i: nat)
    requires Tallies(sizes, dest, i) && Planner.TakesTurns(pods, targets, share, dest) && i < pods
    requires forall a, b :: 0 <= a < b < |targets| ==> targets[a] < targets[b]
    ensures TwoRounds(|dest|, pods, |targets|, share, i, i in targets, sizes[|dest|])
  {
    LaterTurns(sizes, dest, pods, targets, share, |dest|, i);
    if i in targets {
      var a :| 0 <= a < |targets| && targets[a] == i;
      FirstTurns(sizes, dest, pods, targets, share, share, a);
    } else {
      NoTurns(sizes, dest, pods, targets, share, share, i);
    }
  }

  lemma DealtIn(t: Table, i: nat, e: Entries, k: nat, share: nat, dealt: nat)
    requires |t.owned| > 0 && Valid(t) && i < |t.owned| && e == EntriesVec(t)
    requires k == |EmptyPods(e)| && share == Share(t) && dealt == |Received(t, |Deck(t)|, i)|
    ensures TwoRounds(|Deck(t)|, |t.owned|, k, share, i, e[i] == {}, dealt)
  {
    var targets := EmptyPods(e);
    var sizes, dest := Tallied(t, i);
    Planner.DestinationsTakeTurns(t, targets, share, dest);
    TallyIs(sizes, dest, |t.owned|, targets, share, i);
  }

  // ---------------------------------------------------------------- how evenly the pods are filled

  lemma TurnsEven(c: nat, k: nat, a: nat)
    requires k > 0
    ensures c / k <= TurnsOf(c, k, a) <= c / k + 1
    ensures c == 0 ==> TurnsOf(c, k, a) == 0
  {
    TurnsStart(k, a);
  }

  /** Either nothing is left after the first share, or it gave each empty pod n / p. */
  lemma ShareEnds(count: nat, k: nat, q: nat, a: nat)
    requires k > 0 && FirstShare(count, k, q) < count
    ensures TurnsOf(FirstShare(count, k, q), k, a) == q
  {
    TurnsWhole(k, q, a);
  }

  lemma RoundsEven(count: nat, pods: nat, k: nat, q: nat, i: nat, j: nat, x: nat, y: nat)
    requires pods > 0 && TwoRounds(count, pods, k, FirstShare(count, k, q), i, true, x)
    requires TwoRounds(count, pods, k, FirstShare(count, k, q), j, true, y)
    ensures x <= y + 1
  {
    var share := FirstShare(count, k, q);
    var a :| 0 <= a < k && x == TurnsOf(share, k, a) + TurnsOf(count - share, pods, i);
    var b :| 0 <= b < k && y == TurnsOf(share, k, b) + TurnsOf(count - share, pods, j);
    TurnsEven(share, k, a);
    TurnsEven(share, k, b);
    TurnsEven(count - share, pods, i);
    TurnsEven(count - share, pods, j);
    if share < count {
      ShareEnds(count, k, q, a);
      ShareEnds(count, k, q, b);
    }
  }

  lemma OwnersEven(count: nat, pods: nat, k: nat, share: nat, i: nat, j: nat, x: nat, y: nat)
    requires pods > 0 && TwoRounds(count, pods, k, share, i, false, x) && TwoRounds(count, pods, k, share, j, false, y)
    ensures x <= y + 1
  {
    TurnsEven(count - share, pods, i);
    TurnsEven(count - share, pods, j);
  }

  lemma RoundsFill(count: nat, pods: nat, k: nat, q: nat, i: nat, j: nat, x: nat, y: nat)
    requires pods > 0 && TwoRounds(count, pods, k, FirstShare(count, k, q), i, true, x)
    requires TwoRounds(count, pods, k, FirstShare(count, k, q), j, false, y) && y > 0
    ensures x >= q
  {
    var share := FirstShare(count, k, q);
    var a :| 0 <= a < k && x == TurnsOf(share, k, a) + TurnsOf(count - share, pods, i);
    TurnsEven(count - share, pods, j);
    if share < count { ShareEnds(count, k, q, a); }
  }

  /** How many shards a pod is dealt. */
  lemma DealtTo(t: Table, i: nat) returns (dealt: nat)
    requires |t.owned| > 0 && Valid(t) && i < |t.owned|
    ensures |Placed(t)[i]| == |EntriesVec(t)[i]| + dealt && (dealt == 0 ==> Placed(t)[i] == EntriesVec(t)[i])
    ensures TwoRounds(|Deck(t)|, |t.owned|, |EmptyPods(EntriesVec(t))|, Share(t), i, EntriesVec(t)[i] == {}, dealt)
  {
    dealt := |Received(t, |Deck(t)|, i)|;
    PlacedSize(t, i);
    DealtIn(t, i, EntriesVec(t), |EmptyPods(EntriesVec(t))|, Share(t), dealt);
  }

  /** Pods that start empty end the dealing with sizes at most one apart. */
  lemma EmptyPodsEndEven(t: Table, i: nat, j: nat)
    requires |t.owned| > 0 && Valid(t) && i < |t.owned| && j < |t.owned|
    requires EntriesVec(t)[i] == {} && EntriesVec(t)[j] == {}
    ensures |Placed(t)[i]| <= |Placed(t)[j]| + 1
  {
    var x := DealtTo(t, i);
    var y := DealtTo(t, j);
    RoundsEven(|Deck(t)|, |t.owned|, |EmptyPods(EntriesVec(t))|, OptimalCount(t), i, j, x, y);
  }

  /** Pods that start with shards are dealt numbers at most one apart. */
  lemma OwnersAreDealtEvenly(t: Table, i: nat, j: nat)
    requires |t.owned| > 0 && Valid(t) && i < |t.owned| && j < |t.owned|
    requires EntriesVec(t)[i] != {} && EntriesVec(t)[j] != {}
    ensures |Placed(t)[i]| - |EntriesVec(t)[i]| <= |Placed(t)[j]| - |EntriesVec(t)[j]| + 1
  {
    var x := DealtTo(t, i);
    var y := DealtTo(t, j);
    OwnersEven(|Deck(t)|, |t.owned|, |EmptyPods(EntriesVec(t))|, Share(t), i, j, x, y);
  }

  /** If a pod that owned something is dealt a shard, every pod that was empty ends the dealing with at least n / p. */
  lemma EmptyPodsFillFirst(t: Table, owner: nat, i: nat)
    requires |t.owned| > 0 && Valid(t) && owner < |t.owned| && i < |t.owned|
    requires EntriesVec(t)[owner] != {} && Placed(t)[owner] != EntriesVec(t)[owner]
    requires EntriesVec(t)[i] == {}
    ensures |Placed(t)[i]| >= t.numberOfShards / |t.owned|
  {
    var x := DealtTo(t, i);
    var y := DealtTo(t, owner);
    RoundsFill(|Deck(t)|, |t.owned|, |EmptyPods(EntriesVec(t))|, OptimalCount(t), i, owner, x, y);
  }
}
