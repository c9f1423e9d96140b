/** The stored form of the routing table: its entries ordered by size, then pod. */
module Persistence {
  import opened Ordered
  import opened ShardModel

  datatype RoutingTableEntry = RoutingTableEntry(pod: Pod, shardIds: set<ShardId>)

  datatype ShardManagerState = ShardManagerState(numberOfShards: nat, shardAssignments: seq<(Pod, seq<ShardId>)>)

  /** The entry order compares shard counts, then pods; the shards themselves play no part. */
  predicate Precedes(a: RoutingTableEntry, b: RoutingTableEntry) {
    |a.shardIds| < |b.shardIds| || (|a.shardIds| == |b.shardIds| && a.pod < b.pod)
  }

  /** Insertion into a BTreeSet: an entry that compares equal is already there and stays. */
  function Insert(xs: seq<RoutingTableEntry>, e: RoutingTableEntry): seq<RoutingTableEntry> {
    if xs == [] then [e]
    else if Precedes(e, xs[0]) then [e] + xs
    else if Precedes(xs[0], e) then [xs[0]] + Insert(xs[1..], e)
    else xs
  }

  /** The entries of the given pods as a BTreeSet holds them. */
  function Collect(owned: Ownership, ps: seq<Pod>): seq<RoutingTableEntry>
    requires forall p :: p in ps ==> p in owned
  {
    if ps == [] then [] else
      var p := ps[|ps| - 1];
      Insert(Collect(owned, ps[..|ps| - 1]), RoutingTableEntry(p, owned[p]))
  }

  function GetEntries(t: Table): seq<RoutingTableEntry> { Collect(t.owned, Pods(t)) }

  function EntryOf(e: RoutingTableEntry): (Pod, seq<ShardId>) { (e.pod, Ascending(e.shardIds)) }

  function Encoded(t: Table): ShardManagerState {
    var es := GetEntries(t);
    ShardManagerState(t.numberOfShards,
                      seq(|es|, i requires 0 <= i < |es| => EntryOf(es[i])))
  }

  function SetOf(ids: seq<ShardId>): set<ShardId> { set s | s in ids }

  /** Later entries for a pod replace earlier ones. */
  function FromList(list: seq<(Pod, seq<ShardId>)>): Ownership {
    if list == [] then map[] else
      var last := list[|list| - 1];
      FromList(list[..|list| - 1])[last.0 := SetOf(last.1)]
  }

  function Decoded(state: ShardManagerState): Table {
    Table(state.numberOfShards, FromList(state.shardAssignments))
  }

  method NewShardManagerState(t: Table) returns (state: ShardManagerState)
    ensures state == Encoded(t)
  {
    var entries := GetEntries(t);
    var shardAssignments := [];
    for i := 0 to |entries|
      invariant |shardAssignments| == i
      invariant forall j :: 0 <= j < i ==> shardAssignments[j] == EntryOf(entries[j])
    {
      shardAssignments := shardAssignments + [EntryOf(entries[i])];
    }
    state := ShardManagerState(t.numberOfShards, shardAssignments);
  }

  method GetRoutingTable(state: ShardManagerState) returns (t: Table)
    ensures t == Decoded(state)
  {
    var owned: Ownership := map[];
    var list := state.shardAssignments;
    for i := 0 to |list|
      invariant owned == FromList(list[..i])
    {
      assert list[..i + 1][..i] == list[..i];
      owned := owned[list[i].0 := SetOf(list[i].1)];
    }
    assert list[..|list|] == list;
    t := Table(state.numberOfShards, owned);
  }

  // ---------------------------------------------------------------- nothing is lost

  /** Strictly ordered by size, then pod. */
  ghost predicate EntriesOrdered(xs: seq<RoutingTableEntry>) {
    forall i, j :: 0 <= i < j < |xs| ==> Precedes(xs[i], xs[j])
  }

  ghost predicate Mentions(xs: seq<RoutingTableEntry>, p: Pod) {
    exists i :: 0 <= i < |xs| && xs[i].pod == p
  }

  /** Inserting an entry for a new pod keeps the order and adds exactly that entry. */
  lemma {:induction false} InsertAdds(xs: seq<RoutingTableEntry>, e: RoutingTableEntry)
    requires EntriesOrdered(xs) && !Mentions(xs, e.pod)
    ensures EntriesOrdered(Insert(xs, e))
    ensures forall x :: x in Insert(xs, e) <==> x in xs || x == e
  {
    if xs != [] && !Precedes(e, xs[0]) {
      var rest := xs[1..];
      assert xs == [xs[0]] + rest;
      assert forall i :: 0 <= i < |rest| ==> rest[i] == xs[i + 1];
      InsertAdds(rest, e);
      var now := Insert(rest, e);
      assert forall i :: 0 <= i < |now| ==> now[i] in now;
    } else if xs != [] {
      assert forall x :: x in xs ==> x == xs[0] || x in xs[1..];
    }
  }

  lemma {:induction false} CollectHasAll(owned: Ownership, ps: seq<Pod>)
    requires Increasing(ps) && forall p :: p in ps ==> p in owned
    ensures EntriesOrdered(Collect(owned, ps))
    ensures forall x :: x in Collect(owned, ps) <==> x.pod in ps && x.shardIds == owned[x.pod]
  {
    if ps != [] {
      var before, p := ps[..|ps| - 1], ps[|ps| - 1];
      CollectHasAll(owned, before);
      var xs := Collect(owned, before);
      assert forall i :: 0 <= i < |xs| ==> xs[i] in xs;
      assert p !in before;
      InsertAdds(xs, RoutingTableEntry(p, owned[p]));
      assert forall q :: q in ps <==> q in before || q == p;
    }
  }

  /** Decoding a list that says the same about a pod wherever it mentions it. */
  lemma {:induction false} FromListReads(list: seq<(Pod, seq<ShardId>)>, owned: Ownership)
    requires forall i :: 0 <= i < |list| ==> list[i].0 in owned && SetOf(list[i].1) == owned[list[i].0]
    ensures forall p :: p in FromList(list) <==> exists i :: 0 <= i < |list| && list[i].0 == p
    ensures forall p :: p in FromList(list) ==> p in owned && FromList(list)[p] == owned[p]
  {
    if list != [] {
      var before := list[..|list| - 1];
      FromListReads(before, owned);
      assert forall i :: 0 <= i < |before| ==> before[i] == list[i];
      forall p | exists i :: 0 <= i < |list| && list[i].0 == p ensures p in FromList(list) {
        var i :| 0 <= i < |list| && list[i].0 == p;
        if i < |before| { assert before[i].0 == p; }
      }
    }
  }

  ghost predicate ReadsAs(list: seq<(Pod, seq<ShardId>)>, i: nat, owned: Ownership)
    requires i < |list|
  {
    list[i].0 in owned && SetOf(list[i].1) == owned[list[i].0]
  }

  lemma EntryReads(t: Table, list: seq<(Pod, seq<ShardId>)>, i: nat)
    requires list == Encoded(t).shardAssignments && i < |list|
    ensures ReadsAs(list, i, t.owned)
  {
    var es := GetEntries(t);
    CollectHasAll(t.owned, Pods(t));
    assert es[i] in es;
    assert SetOf(Ascending(es[i].shardIds)) == es[i].shardIds;
  }

  lemma EntryListed(t: Table, list: seq<(Pod, seq<ShardId>)>, p: Pod)
    requires list == Encoded(t).shardAssignments && p in t.owned
    ensures exists i :: 0 <= i < |list| && list[i].0 == p
  {
    var es, e := GetEntries(t), RoutingTableEntry(p, t.owned[p]);
    CollectHasAll(t.owned, Pods(t));
    assert p in Pods(t);
    assert e in es;
    var i :| 0 <= i < |es| && es[i] == e;
    assert list[i].0 == p;
  }

  /** A list that mentions every pod, and never wrongly, reads as the map. */
  lemma FromListIs(list: seq<(Pod, seq<ShardId>)>, owned: Ownership)
    requires forall i :: 0 <= i < |list| ==> ReadsAs(list, i, owned)
    requires forall p :: p in owned ==> exists i :: 0 <= i < |list| && list[i].0 == p
    ensures FromList(list) == owned
  {
    forall i | 0 <= i < |list| ensures list[i].0 in owned && SetOf(list[i].1) == owned[list[i].0] {
      assert ReadsAs(list, i, owned);
    }
    FromListReads(list, owned);
    var read := FromList(list);
    forall p | p in owned ensures p in read {
      var i :| 0 <= i < |list| && list[i].0 == p;
    }
    forall p | p in read ensures p in owned && read[p] == owned[p] {
    }
  }

  /** Writing a table and reading it back gives the table: the ordered set of entries loses none. */
  lemma RoundTrip(t: Table)
    ensures EntriesOrdered(GetEntries(t))
    ensures Decoded(Encoded(t)) == t
  {
    CollectHasAll(t.owned, Pods(t));
    var list := Encoded(t).shardAssignments;
    forall i | 0 <= i < |list| ensures ReadsAs(list, i, t.owned) { EntryReads(t, list, i); }
    forall p | p in t.owned ensures exists i :: 0 <= i < |list| && list[i].0 == p { EntryListed(t, list, p); }
    FromListIs(list, t.owned);
  }

  /** The list is written with the smaller shard lists first, those of one length by pod, and each shard list ascends. */
  lemma StoredOrder(t: Table, i: nat, j: nat)
    requires i < j < |Encoded(t).shardAssignments|
    ensures var list := Encoded(t).shardAssignments;
            && Increasing(list[i].1) && Increasing(list[j].1)
            && (|list[i].1| < |list[j].1| || (|list[i].1| == |list[j].1| && list[i].0 < list[j].0))
  {
    CollectHasAll(t.owned, Pods(t));
    var es := GetEntries(t);
    assert Precedes(es[i], es[j]);
  }
}
