/** Compact display of shard id sets as ranges. */
module ShardIdRanges {
  import opened Ordered
  import opened Wrappers

  type ShardId = int

  datatype ShardIdRange = Range(min: ShardId, max: ShardId) | Single(id: ShardId)

  function Low(r: ShardIdRange): ShardId { if r.Range? then r.min else r.id }

  function High(r: ShardIdRange): ShardId { if r.Range? then r.max else r.id }

  predicate IsLeftNeighbor(a: ShardId, b: ShardId) { b == a + 1 }

  /** The ids a list of ranges stands for. */
  ghost predicate Covers(rs: seq<ShardIdRange>, s: ShardId) {
    exists i :: 0 <= i < |rs| && Low(rs[i]) <= s <= High(rs[i])
  }

  /** Each range is proper, and between two neighbours at least one id is missing: none can be joined. */
  ghost predicate Maximal(rs: seq<ShardIdRange>) {
    && (forall i :: 0 <= i < |rs| ==> (rs[i].Range? ==> rs[i].min < rs[i].max))
    && (forall i, j :: 0 <= i < j < |rs| ==> High(rs[i]) + 1 < Low(rs[j]))
  }

  /** One more id at the end: it extends the last range or starts a new one. */
  function Extended(rs: seq<ShardIdRange>, id: ShardId): seq<ShardIdRange> {
    if rs != [] && IsLeftNeighbor(High(rs[|rs| - 1]), id)
    then rs[..|rs| - 1] + [Range(Low(rs[|rs| - 1]), id)]
    else rs + [Single(id)]
  }

  function RangesOf(ids: seq<ShardId>): seq<ShardIdRange> {
    if ids == [] then [] else Extended(RangesOf(ids[..|ids| - 1]), ids[|ids| - 1])
  }

  function WithCurrent(result: seq<ShardIdRange>, current: Option<ShardIdRange>): seq<ShardIdRange> {
    if current.None? then result else result + [current.value]
  }

  lemma ExtendedCurrent(result: seq<ShardIdRange>, current: ShardIdRange, id: ShardId)
    ensures Extended(result + [current], id) ==
            if IsLeftNeighbor(High(current), id) then result + [Range(Low(current), id)] else (result + [current]) + [Single(id)]
  {
    var rs := result + [current];
    assert rs[..|rs| - 1] == result;
  }

  lemma RangesOfMore(ids: seq<ShardId>, k: nat)
    requires k < |ids|
    ensures RangesOf(ids[..k + 1]) == Extended(RangesOf(ids[..k]), ids[k])
  {
    assert ids[..k + 1][..k] == ids[..k];
  }

  /** The ranges are sorted, disjoint, not adjacent, and stand for exactly the given ids. */
  method ShardIdsToRanges(ids: set<ShardId>) returns (result: seq<ShardIdRange>)
    ensures Maximal(result)
    ensures forall s :: Covers(result, s) <==> s in ids
  {
    var sorted := Ascending(ids);
    result := [];
    var current := None;
    for k := 0 to |sorted|
      invariant WithCurrent(result, current) == RangesOf(sorted[..k])
      invariant current.None? ==> result == []
    {
      var shardId := sorted[k];
      RangesOfMore(sorted, k);
      if current.Some? {
        ExtendedCurrent(result, current.value, shardId);
      }
      match current {
        case Some(Single(prev)) =>
          if IsLeftNeighbor(prev, shardId) {
            current := Some(Range(prev, shardId));
          } else {
            result := result + [Single(prev)];
            current := Some(Single(shardId));
          }
        case Some(Range(min, max)) =>
          if IsLeftNeighbor(max, shardId) {
            current := Some(Range(min, shardId));
          } else {
            result := result + [Range(min, max)];
            current := Some(Single(shardId));
          }
        case None =>
          current := Some(Single(shardId));
      }
    }
    assert sorted[..|sorted|] == sorted;
    result := WithCurrent(result, current);
    RangesAreExact(sorted);
  }

  lemma {:induction false} RangesAreExact(ids: seq<ShardId>)
    requires Increasing(ids)
    ensures var rs := RangesOf(ids);
            && Maximal(rs) && (forall s :: Covers(rs, s) <==> s in ids)
            && (ids != [] ==> rs != [] && High(rs[|rs| - 1]) == ids[|ids| - 1])
  {
    if ids != [] {
      var before, id := ids[..|ids| - 1], ids[|ids| - 1];
      RangesAreExact(before);
      var rs := RangesOf(before);
      assert ids == before + [id];
      if before == [] {
        assert rs == [] && RangesOf(ids) == [Single(id)];
        SingleCovers(id);
      } else {
        CoversOneMore(rs, Extended(rs, id), id);
      }
    }
  }

  lemma SingleCovers(id: ShardId)
    ensures Maximal([Single(id)]) && forall s :: Covers([Single(id)], s) <==> s == id
  {
    assert [Single(id)][0] == Single(id);
  }

  /** Extending the last range by its neighbour, or adding a single, covers one id more. */
  lemma CoversOneMore(before: seq<ShardIdRange>, after: seq<ShardIdRange>, id: ShardId)
    requires before != [] && Maximal(before) && High(before[|before| - 1]) < id
    requires after == Extended(before, id)
    ensures Maximal(after) && High(after[|after| - 1]) == id
    ensures forall s :: Covers(after, s) <==> Covers(before, s) || s == id
  {
    forall s ensures Covers(after, s) <==> Covers(before, s) || s == id {
      if Covers(before, s) {
        var i :| 0 <= i < |before| && Low(before[i]) <= s <= High(before[i]);
        assert i < |before| - 1 ==> after[i] == before[i];
        assert Low(after[i]) <= s <= High(after[i]);
      }
      if s == id {
        assert Low(after[|after| - 1]) <= s <= High(after[|after| - 1]);
      }
      if Covers(after, s) && s != id {
        var i :| 0 <= i < |after| && Low(after[i]) <= s <= High(after[i]);
        assert i < |after| - 1 ==> after[i] == before[i];
        assert Low(before[i]) <= s <= High(before[i]);
      }
    }
  }

  lemma CoversSomething(a: seq<ShardIdRange>)
    requires Maximal(a)
    ensures a == [] <==> forall s :: !Covers(a, s)
  {
    if a != [] {
      assert Low(a[0]) <= High(a[0]);
      assert Covers(a, Low(a[0]));
    }
  }

  /** There is only one such list: two maximal lists for the same ids are equal. */
  lemma {:induction false} RangesAreCanonical(a: seq<ShardIdRange>, b: seq<ShardIdRange>)
    requires Maximal(a) && Maximal(b)
    requires forall s :: Covers(a, s) <==> Covers(b, s)
    ensures a == b
  {
    if a == [] || b == [] {
      CoversSomething(a);
      CoversSomething(b);
    } else {
      SameFirst(a, b);
      forall s ensures Covers(a[1..], s) <==> Covers(b[1..], s) {
        CoversRest(a, s);
        CoversRest(b, s);
      }
      RangesAreCanonical(a[1..], b[1..]);
      assert a == [a[0]] + a[1..] && b == [b[0]] + b[1..];
    }
  }

  lemma CoversRest(a: seq<ShardIdRange>, s: ShardId)
    requires Maximal(a) && a != []
    ensures Maximal(a[1..])
    ensures Covers(a[1..], s) <==> Covers(a, s) && s > High(a[0])
  {
    if Covers(a[1..], s) {
      var i :| 0 <= i < |a[1..]| && Low(a[1..][i]) <= s <= High(a[1..][i]);
      assert Low(a[i + 1]) <= s <= High(a[i + 1]);
    }
    if Covers(a, s) && s > High(a[0]) {
      var i :| 0 <= i < |a| && Low(a[i]) <= s <= High(a[i]);
      assert a[1..][i - 1] == a[i];
    }
  }

  lemma FirstCovered(a: seq<ShardIdRange>, s: ShardId)
    requires Maximal(a) && a != []
    ensures Covers(a, Low(a[0])) && Covers(a, High(a[0])) && !Covers(a, High(a[0]) + 1)
    ensures Covers(a, s) ==> Low(a[0]) <= s
    ensures Low(a[0]) <= s <= High(a[0]) ==> Covers(a, s)
  {
    assert Low(a[0]) <= High(a[0]);
    assert forall i :: 0 < i < |a| ==> High(a[0]) + 1 < Low(a[i]);
  }

  lemma SameFirst(a: seq<ShardIdRange>, b: seq<ShardIdRange>)
    requires Maximal(a) && Maximal(b) && a != [] && b != []
    requires forall s :: Covers(a, s) <==> Covers(b, s)
    ensures a[0] == b[0]
  {
    FirstCovered(a, Low(b[0]));
    FirstCovered(b, Low(a[0]));
    FirstCovered(a, High(b[0]) + 1);
    FirstCovered(b, High(a[0]) + 1);
  }
}
