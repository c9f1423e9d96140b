/** The cache as its calls leave it when they run one after the other, and what its evictions drop. */
module LruCache {
  import opened Wrappers

  /** Counters are 64 bits wide and wrap around. */
  const USIZE_VALUES: nat := 0x1_0000_0000_0000_0000

  type usize = n: nat | n < USIZE_VALUES

  function Increment(n: usize): usize { (n + 1) % USIZE_VALUES }

  function Decrement(n: usize): usize { if n == 0 then USIZE_VALUES - 1 else n - 1 }

  /** Instants in nanoseconds; ages are compared in whole milliseconds. */
  type Instant = nat

  const NANOS_PER_MILLI: nat := 1_000_000

  /** A clock that ran backwards reads as no time. */
  function Elapsed(now: Instant, lastAccess: Instant): nat {
    if now >= lastAccess then now - lastAccess else 0
  }

  function Age(now: Instant, lastAccess: Instant): nat {
    Elapsed(now, lastAccess) / NANOS_PER_MILLI
  }

  datatype Item<PV, V> = Pending(id: nat, pendingValue: PV) | Cached(value: V, lastAccess: Instant)

  datatype FullCacheEvictionMode = NoEviction | LeastRecentlyUsed(count: usize)

  // ---------------------------------------------------------------- keeping the youngest

  type Aged<K> = (K, nat)

  function InsertByAge<K>(x: Aged<K>, xs: seq<Aged<K>>): seq<Aged<K>> {
    if xs == [] || x.1 < xs[0].1 then [x] + xs else [xs[0]] + InsertByAge(x, xs[1..])
  }

  /** Stable: entries of equal age keep their order. */
  function SortByAge<K>(xs: seq<Aged<K>>): seq<Aged<K>> {
    if xs == [] then [] else InsertByAge(xs[|xs| - 1], SortByAge(xs[..|xs| - 1]))
  }

  ghost predicate SortedByAge<K>(xs: seq<Aged<K>>) {
    forall i, j :: 0 <= i < j < |xs| ==> xs[i].1 <= xs[j].1
  }

  ghost predicate Among<K>(xs: seq<Aged<K>>, ys: seq<Aged<K>>) {
    forall i :: 0 <= i < |xs| ==> xs[i] in ys
  }

  lemma AmongExtended<K>(xs: seq<Aged<K>>, ys: seq<Aged<K>>, zs: seq<Aged<K>>, x: Aged<K>)
    requires Among(xs, ys + [x]) && Among(ys, zs)
    ensures Among(xs, zs + [x])
  {
    assert forall i :: 0 <= i < |zs| ==> (zs + [x])[i] == zs[i];
    forall i | 0 <= i < |xs| ensures xs[i] in zs + [x] {
      assert xs[i] in ys + [x];
    }
  }

  lemma {:induction false} InsertAdds<K>(x: Aged<K>, xs: seq<Aged<K>>)
    ensures |InsertByAge(x, xs)| == |xs| + 1
    ensures Among(InsertByAge(x, xs), xs + [x]) && Among(xs + [x], InsertByAge(x, xs))
  {
    if xs != [] && x.1 >= xs[0].1 {
      InsertAdds(x, xs[1..]);
      assert xs + [x] == [xs[0]] + (xs[1..] + [x]);
    }
  }

  lemma {:induction false} InsertKeepsSorted<K>(x: Aged<K>, xs: seq<Aged<K>>)
    requires SortedByAge(xs)
    ensures SortedByAge(InsertByAge(x, xs))
  {
    if xs != [] && x.1 >= xs[0].1 {
      var now := InsertByAge(x, xs[1..]);
      InsertKeepsSorted(x, xs[1..]);
      InsertAdds(x, xs[1..]);
      forall i | 0 <= i < |now| ensures xs[0].1 <= now[i].1 {
        assert now[i] in xs[1..] + [x];
      }
    }
  }

  lemma {:induction false} SortSorts<K>(xs: seq<Aged<K>>)
    ensures SortedByAge(SortByAge(xs)) && |SortByAge(xs)| == |xs|
    ensures Among(SortByAge(xs), xs) && Among(xs, SortByAge(xs))
  {
    if xs != [] {
      var front, last := xs[..|xs| - 1], xs[|xs| - 1];
      SortSorts(front);
      InsertAdds(last, SortByAge(front));
      InsertKeepsSorted(last, SortByAge(front));
      assert xs == front + [last];
      AmongExtended(SortByAge(xs), SortByAge(front), front, last);
      AmongExtended(front + [last], front, SortByAge(front), last);
    }
  }

  // ---------------------------------------------------------------- what an eviction drops

  type Items<K, PV, V> = map<K, Item<PV, V>>

  function CachedKeys<K, PV, V>(items: Items<K, PV, V>): set<K> {
    set key | key in items && items[key].Cached?
  }

  function AgeOf<K, PV, V>(items: Items<K, PV, V>, key: K, now: Instant): nat
    requires key in CachedKeys(items)
  {
    Age(now, items[key].lastAccess)
  }

  /** `count` cached entries are gone, all others are untouched, and no entry gone is younger than a cached one kept. */
  ghost predicate Evicted<K, PV, V>(before: Items<K, PV, V>, after: Items<K, PV, V>, count: nat, now: Instant) {
    && after.Keys <= before.Keys
    && (forall key :: key in after ==> after[key] == before[key])
    && (forall key :: key in before && before[key].Pending? ==> key in after)
    && |CachedKeys(after)| + count == |CachedKeys(before)|
    && KeepsYounger(before, after, now)
  }

  ghost predicate EvictedIfPossible<K, PV, V>(before: Items<K, PV, V>, after: Items<K, PV, V>, count: nat, now: Instant) {
    if count <= |CachedKeys(before)| then Evicted(before, after, count, now) else after == before
  }

  ghost predicate KeepsYounger<K, PV, V>(before: Items<K, PV, V>, after: Items<K, PV, V>, now: Instant) {
    forall gone, kept :: gone in CachedKeys(before) && gone !in after && kept in CachedKeys(before) && kept in after ==>
      AgeOf(before, kept, now) <= AgeOf(before, gone, now)
  }

  /** No entry gone was used after one that is kept. */
  ghost predicate KeepsRecent<K, PV, V>(before: Items<K, PV, V>, after: Items<K, PV, V>) {
    forall gone, kept :: gone in CachedKeys(before) && gone !in after && kept in CachedKeys(before) && kept in after ==>
      before[gone].lastAccess <= before[kept].lastAccess
  }

  ghost function Younger<K, PV, V>(items: Items<K, PV, V>, age: nat, now: Instant): set<K> {
    set key | key in CachedKeys(items) && AgeOf(items, key, now) < age
  }

  ghost function OfAge<K, PV, V>(items: Items<K, PV, V>, age: nat, now: Instant): set<K> {
    set key | key in CachedKeys(items) && AgeOf(items, key, now) == age
  }

  /** The entries kept include all that are younger than this age, and some but not all of this age. */
  ghost predicate CutAt<K, PV, V>(items: Items<K, PV, V>, age: nat, count: nat, now: Instant) {
    |Younger(items, age, now)| < |CachedKeys(items)| - count < |Younger(items, age, now)| + |OfAge(items, age, now)|
  }

  /** Two entries of the age at the cut were last used at different instants. */
  ghost predicate TieAtCut<K, PV, V>(items: Items<K, PV, V>, count: nat, now: Instant) {
    exists a, b :: a in CachedKeys(items) && b in CachedKeys(items) && Tied(items, a, b, now)
                   && CutAt(items, AgeOf(items, a, now), count, now)
  }

  ghost predicate Tied<K, PV, V>(items: Items<K, PV, V>, a: K, b: K, now: Instant)
    requires a in CachedKeys(items) && b in CachedKeys(items)
  {
    AgeOf(items, a, now) == AgeOf(items, b, now) && items[a].lastAccess < items[b].lastAccess
  }

  lemma OlderIsLess(now: Instant, a: Instant, b: Instant)
    requires a <= b
    ensures Age(now, b) <= Age(now, a)
  {
    if now >= b {
      var near, far := now - b, now - a;
      assert near / NANOS_PER_MILLI <= far / NANOS_PER_MILLI;
    }
  }

  lemma UntiedKeepsRecent<K, PV, V>(before: Items<K, PV, V>, after: Items<K, PV, V>, count: nat, now: Instant)
    requires Evicted(before, after, count, now) && !TieAtCut(before, count, now)
    ensures KeepsRecent(before, after)
  {
    forall gone, kept | gone in CachedKeys(before) && gone !in after && kept in CachedKeys(before) && kept in after
      ensures before[gone].lastAccess <= before[kept].lastAccess
    {
      if before[gone].lastAccess > before[kept].lastAccess {
        OlderIsLess(now, before[kept].lastAccess, before[gone].lastAccess);
        CutThrough(before, after, count, now, gone, kept);
        assert Tied(before, kept, gone, now);
      }
    }
  }

  lemma SmallerSet<T>(part: set<T>, whole: set<T>)
    requires part <= whole
    ensures |part| <= |whole|
  {
    assert whole == part + (whole - part);
  }

  /** An eviction that separates two entries of one age cuts at that age. */
  lemma CutThrough<K, PV, V>(before: Items<K, PV, V>, after: Items<K, PV, V>, count: nat, now: Instant, gone: K, kept: K)
    requires Evicted(before, after, count, now)
    requires gone in CachedKeys(before) && gone !in after && kept in CachedKeys(before) && kept in after
    requires AgeOf(before, gone, now) == AgeOf(before, kept, now)
    ensures CutAt(before, AgeOf(before, kept, now), count, now)
  {
    var age, left := AgeOf(before, kept, now), CachedKeys(after);
    var younger, same := Younger(before, age, now), OfAge(before, age, now);
    assert younger + {kept} <= left by {
      forall key | key in younger ensures key in after {
        assert AgeOf(before, key, now) < AgeOf(before, kept, now);
      }
    }
    SmallerSet(younger + {kept}, left);
    assert left <= younger + (same - {gone}) by {
      forall key | key in left ensures AgeOf(before, key, now) <= age {
        assert key in CachedKeys(before);
      }
    }
    SmallerSet(left, younger + (same - {gone}));
  }

  lemma {:induction false} Choose<T>(s: set<T>, a: T, b: T, k: nat) returns (chosen: set<T>)
    requires a in s && b in s && a != b && 1 <= k < |s|
    ensures chosen <= s && a in chosen && b !in chosen && |chosen| == k
  {
    if k == 1 {
      chosen := {a};
    } else {
      chosen := Choose(s, a, b, k - 1);
      var rest := s - chosen - {b};
      assert s == chosen + rest + {b};
      assert |rest| > 0;
      var x :| x in rest;
      chosen := chosen + {x};
    }
  }

  /** With a tie at the cut an eviction may drop the entry of the two that was used last. */
  lemma TieDropped<K, PV, V>(before: Items<K, PV, V>, a: K, b: K, count: nat, now: Instant) returns (after: Items<K, PV, V>)
    requires a in CachedKeys(before) && b in CachedKeys(before) && Tied(before, a, b, now)
    requires CutAt(before, AgeOf(before, a, now), count, now)
    ensures Evicted(before, after, count, now)
    ensures a in after && b !in after
  {
    var age := AgeOf(before, a, now);
    var younger, same := Younger(before, age, now), OfAge(before, age, now);
    var chosen := Choose(same, a, b, |CachedKeys(before)| - count - |younger|);
    after := Retained(before, younger + chosen);
    assert CachedKeys(after) == younger + chosen;
    assert younger !! chosen;
  }

  // ---------------------------------------------------------------- listing, sorting and truncating

  ghost predicate Distinct<K>(xs: seq<Aged<K>>) {
    forall i, j :: 0 <= i < j < |xs| ==> xs[i].0 != xs[j].0
  }

  function KeysOf<K>(xs: seq<Aged<K>>): set<K> {
    set i | 0 <= i < |xs| :: xs[i].0
  }

  lemma KeysWithin<K>(xs: seq<Aged<K>>, ys: seq<Aged<K>>)
    requires Among(xs, ys)
    ensures KeysOf(xs) <= KeysOf(ys)
  {
    forall i | 0 <= i < |xs| ensures xs[i].0 in KeysOf(ys) {
      assert xs[i] in ys;
    }
  }

  lemma KeysOfExtended<K>(xs: seq<Aged<K>>, x: Aged<K>)
    ensures KeysOf(xs + [x]) == KeysOf(xs) + {x.0}
  {
    var all := xs + [x];
    forall key | key in KeysOf(xs) + {x.0} ensures key in KeysOf(all) {
      if key == x.0 {
        assert all[|xs|].0 == key;
      } else {
        var i :| 0 <= i < |xs| && xs[i].0 == key;
        assert all[i].0 == key;
      }
    }
  }

  /** `xs` names each key of `keys` once, with its age. */
  ghost predicate Lists<K, PV, V>(xs: seq<Aged<K>>, keys: set<K>, items: Items<K, PV, V>, now: Instant)
  {
    && Distinct(xs)
    && KeysOf(xs) == keys
    && (forall i :: 0 <= i < |xs| ==> xs[i].0 in CachedKeys(items) && xs[i].1 == AgeOf(items, xs[i].0, now))
  }

  lemma {:induction false} DistinctCount<K>(xs: seq<Aged<K>>)
    requires Distinct(xs)
    ensures |KeysOf(xs)| == |xs|
  {
    if xs != [] {
      var front, last := xs[..|xs| - 1], xs[|xs| - 1];
      DistinctCount(front);
      assert last.0 !in KeysOf(front);
      KeysOfExtended(front, last);
      assert xs == front + [last];
    }
  }

  lemma {:induction false} InsertKeepsDistinct<K>(x: Aged<K>, xs: seq<Aged<K>>)
    requires Distinct(xs) && forall i :: 0 <= i < |xs| ==> xs[i].0 != x.0
    ensures Distinct(InsertByAge(x, xs))
  {
    if xs != [] && x.1 >= xs[0].1 {
      var now := InsertByAge(x, xs[1..]);
      InsertKeepsDistinct(x, xs[1..]);
      InsertAdds(x, xs[1..]);
      forall j | 0 <= j < |now| ensures now[j].0 != xs[0].0 {
        assert now[j] in xs[1..] + [x];
      }
    }
  }

  lemma {:induction false} SortKeepsDistinct<K>(xs: seq<Aged<K>>)
    requires Distinct(xs)
    ensures Distinct(SortByAge(xs))
  {
    if xs != [] {
      var front, last := xs[..|xs| - 1], xs[|xs| - 1];
      SortKeepsDistinct(front);
      SortSorts(front);
      InsertKeepsDistinct(last, SortByAge(front));
    }
  }

  function Retained<K, PV, V>(items: Items<K, PV, V>, keep: set<K>): Items<K, PV, V> {
    map key | key in items && (items[key].Pending? || key in keep) :: items[key]
  }

  lemma AgesWithin<K, PV, V>(items: Items<K, PV, V>, ys: seq<Aged<K>>, xs: seq<Aged<K>>, now: Instant)
    requires Lists(xs, CachedKeys(items), items, now) && Among(ys, xs)
    ensures forall i :: 0 <= i < |ys| ==> ys[i].0 in CachedKeys(items) && ys[i].1 == AgeOf(items, ys[i].0, now)
  {
    forall i | 0 <= i < |ys| ensures ys[i].0 in CachedKeys(items) && ys[i].1 == AgeOf(items, ys[i].0, now) {
      assert ys[i] in xs;
    }
  }

  lemma SortedLists<K, PV, V>(items: Items<K, PV, V>, xs: seq<Aged<K>>, now: Instant)
    requires Lists(xs, CachedKeys(items), items, now)
    ensures Lists(SortByAge(xs), CachedKeys(items), items, now) && |SortByAge(xs)| == |xs| == |CachedKeys(items)|
  {
    SortSorts(xs);
    SortKeepsDistinct(xs);
    KeysWithin(xs, SortByAge(xs));
    KeysWithin(SortByAge(xs), xs);
    DistinctCount(xs);
    AgesWithin(items, SortByAge(xs), xs, now);
  }

  lemma RetainedAre<K, PV, V>(items: Items<K, PV, V>, sorted: seq<Aged<K>>, cut: nat, now: Instant)
    requires Lists(sorted, CachedKeys(items), items, now) && cut <= |sorted|
    ensures CachedKeys(Retained(items, KeysOf(sorted[..cut]))) == KeysOf(sorted[..cut]) && |KeysOf(sorted[..cut])| == cut
  {
    DistinctCount(sorted[..cut]);
    assert KeysOf(sorted[..cut]) <= KeysOf(sorted);
  }

  /** Cutting the last entries off the sorted list keeps the youngest, whatever order the map was read in. */
  lemma CutEvicts<K, PV, V>(items: Items<K, PV, V>, sorted: seq<Aged<K>>, cut: nat, keep: set<K>,
                            after: Items<K, PV, V>, now: Instant)
    requires Lists(sorted, CachedKeys(items), items, now) && SortedByAge(sorted) && cut <= |sorted| == |CachedKeys(items)|
    requires keep == KeysOf(sorted[..cut]) && after == Retained(items, keep)
    ensures Evicted(items, after, |sorted| - cut, now)
  {
    RetainedAre(items, sorted, cut, now);
    forall gone, young | gone in CachedKeys(items) && gone !in after && young in CachedKeys(items) && young in after
      ensures AgeOf(items, young, now) <= AgeOf(items, gone, now)
    {
      KeptIsYounger(items, sorted, cut, keep, gone, young, now);
    }
  }

  lemma CutCounts<K, PV, V>(items: Items<K, PV, V>, sorted: seq<Aged<K>>, evicted: nat, keep: set<K>,
                            after: Items<K, PV, V>, now: Instant)
    requires Lists(sorted, CachedKeys(items), items, now) && SortedByAge(sorted) && |sorted| == |CachedKeys(items)|
    requires keep == KeysOf(sorted[..if evicted <= |sorted| then |sorted| - evicted else |sorted|])
    requires after == Retained(items, keep)
    ensures EvictedIfPossible(items, after, evicted, now) && |keep| == |CachedKeys(after)|
  {
    var cut := if evicted <= |sorted| then |sorted| - evicted else |sorted|;
    RetainedAre(items, sorted, cut, now);
    CutEvicts(items, sorted, cut, keep, after, now);
    if cut == |sorted| {
      assert sorted[..cut] == sorted;
      assert after == items;
    }
  }

  lemma KeptIsYounger<K, PV, V>(items: Items<K, PV, V>, sorted: seq<Aged<K>>, cut: nat, keep: set<K>, gone: K,
                                young: K, now: Instant)
    requires Lists(sorted, CachedKeys(items), items, now) && SortedByAge(sorted) && cut <= |sorted|
    requires keep == KeysOf(sorted[..cut]) && gone in CachedKeys(items) && gone !in keep && young in keep
    ensures young in CachedKeys(items) && AgeOf(items, young, now) <= AgeOf(items, gone, now)
  {
    assert gone in KeysOf(sorted);
    var i :| 0 <= i < |sorted| && sorted[i].0 == gone;
    var j :| 0 <= j < cut && sorted[..cut][j].0 == young;
    assert sorted[..cut][j] == sorted[j];
    assert forall k :: 0 <= k < cut ==> sorted[..cut][k].0 in KeysOf(sorted[..cut]) && sorted[..cut][k] == sorted[k];
  }

  // ---------------------------------------------------------------- every allowed eviction happens

  /** What an eviction leaves if the map is read in the order of `xs`. */
  function Left<K, PV, V>(items: Items<K, PV, V>, xs: seq<Aged<K>>, count: nat): Items<K, PV, V>
    requires count <= |SortByAge(xs)|
  {
    var sorted := SortByAge(xs);
    Retained(items, KeysOf(sorted[..|sorted| - count]))
  }

  /** A reading of the cached entries. */
  ghost predicate Reading<K, PV, V>(xs: seq<Aged<K>>, items: Items<K, PV, V>, count: nat, now: Instant) {
    Lists(xs, CachedKeys(items), items, now) && count <= |SortByAge(xs)|
  }

  lemma ReadingEvicts<K, PV, V>(items: Items<K, PV, V>, xs: seq<Aged<K>>, count: nat, now: Instant)
    requires Reading(xs, items, count, now)
    ensures Evicted(items, Left(items, xs, count), count, now)
  {
    SortSorts(xs);
    SortedLists(items, xs, now);
    SortedEvicts(items, SortByAge(xs), count, now);
  }

  lemma SortedEvicts<K, PV, V>(items: Items<K, PV, V>, sorted: seq<Aged<K>>, count: nat, now: Instant)
    requires Lists(sorted, CachedKeys(items), items, now) && SortedByAge(sorted) && count <= |sorted| == |CachedKeys(items)|
    ensures Evicted(items, Retained(items, KeysOf(sorted[..|sorted| - count])), count, now)
  {
    var keep := KeysOf(sorted[..|sorted| - count]);
    CutEvicts(items, sorted, |sorted| - count, keep, Retained(items, keep), now);
  }

  lemma {:induction false} ReadingOf<K, PV, V>(keys: set<K>, items: Items<K, PV, V>, now: Instant) returns (xs: seq<Aged<K>>)
    requires keys <= CachedKeys(items)
    ensures Lists(xs, keys, items, now)
  {
    if keys == {} {
      xs := [];
    } else {
      var key :| key in keys;
      var before := ReadingOf(keys - {key}, items, now);
      KeysOfExtended(before, (key, AgeOf(items, key, now)));
      xs := before + [(key, AgeOf(items, key, now))];
      assert key !in KeysOf(before);
      assert keys - {key} + {key} == keys;
    }
  }

  ghost predicate NoneOlder<K>(xs: seq<Aged<K>>, ys: seq<Aged<K>>) {
    forall i, j :: 0 <= i < |xs| && 0 <= j < |ys| ==> xs[i].1 <= ys[j].1
  }

  lemma {:induction false} InsertBehind<K>(x: Aged<K>, xs: seq<Aged<K>>, ys: seq<Aged<K>>)
    requires forall i :: 0 <= i < |xs| ==> xs[i].1 <= x.1
    ensures InsertByAge(x, xs + ys) == xs + InsertByAge(x, ys)
  {
    if xs == [] {
      assert xs + ys == ys;
    } else {
      InsertBehind(x, xs[1..], ys);
      assert xs + ys == [xs[0]] + (xs[1..] + ys);
      assert (xs + ys)[1..] == xs[1..] + ys;
      assert xs + InsertByAge(x, ys) == [xs[0]] + (xs[1..] + InsertByAge(x, ys));
    }
  }

  /** Sorting keeps the entries that are not older in front. */
  lemma {:induction false} SortInParts<K>(xs: seq<Aged<K>>, ys: seq<Aged<K>>)
    requires NoneOlder(xs, ys)
    ensures SortByAge(xs + ys) == SortByAge(xs) + SortByAge(ys)
  {
    if ys == [] {
      assert xs + ys == xs;
    } else {
      var before, last := ys[..|ys| - 1], ys[|ys| - 1];
      assert (xs + ys)[..|xs + ys| - 1] == xs + before;
      SortInParts(xs, before);
      SortSorts(xs);
      forall i | 0 <= i < |SortByAge(xs)| ensures SortByAge(xs)[i].1 <= last.1 {
        assert SortByAge(xs)[i] in xs;
      }
      InsertBehind(last, SortByAge(xs), SortByAge(before));
    }
  }

  lemma ListsApart<K, PV, V>(xs: seq<Aged<K>>, ys: seq<Aged<K>>, a: set<K>, b: set<K>, items: Items<K, PV, V>, now: Instant)
    requires Lists(xs, a, items, now) && Lists(ys, b, items, now) && a !! b
    ensures Lists(xs + ys, a + b, items, now)
  {
    var all := xs + ys;
    forall i, j | 0 <= i < j < |all| ensures all[i].0 != all[j].0 {
      assert i < |xs| ==> all[i].0 in KeysOf(xs);
      assert j >= |xs| ==> all[j] == ys[j - |xs|] && ys[j - |xs|].0 in KeysOf(ys);
    }
    forall key | key in a + b ensures key in KeysOf(all) {
      if key in a {
        var i :| 0 <= i < |xs| && xs[i].0 == key;
        assert all[i].0 == key;
      } else {
        var i :| 0 <= i < |ys| && ys[i].0 == key;
        assert all[|xs| + i].0 == key;
      }
    }
    forall i | 0 <= i < |all| ensures all[i].0 in a + b {
      assert all[i].0 in if i < |xs| then KeysOf(xs) else KeysOf(ys);
    }
  }

  lemma KeptFirst<K, PV, V>(before: Items<K, PV, V>, after: Items<K, PV, V>, count: nat, now: Instant,
                            kept: seq<Aged<K>>, gone: seq<Aged<K>>)
    requires Evicted(before, after, count, now)
    requires Lists(kept, CachedKeys(after), before, now) && Lists(gone, CachedKeys(before) - CachedKeys(after), before, now)
    ensures NoneOlder(kept, gone)
  {
    forall i, j | 0 <= i < |kept| && 0 <= j < |gone| ensures kept[i].1 <= gone[j].1 {
      assert kept[i].0 in KeysOf(kept) && gone[j].0 in KeysOf(gone);
      assert AgeOf(before, kept[i].0, now) <= AgeOf(before, gone[j].0, now);
    }
  }

  lemma SortedKeys<K>(xs: seq<Aged<K>>)
    ensures KeysOf(SortByAge(xs)) == KeysOf(xs) && |SortByAge(xs)| == |xs|
  {
    SortSorts(xs);
    KeysWithin(xs, SortByAge(xs));
    KeysWithin(SortByAge(xs), xs);
  }

  /** The entries kept and those gone, read one after the other. */
  lemma InTwoParts<K, PV, V>(before: Items<K, PV, V>, after: Items<K, PV, V>, count: nat, now: Instant)
    returns (kept: seq<Aged<K>>, gone: seq<Aged<K>>)
    requires Evicted(before, after, count, now)
    ensures Lists(kept + gone, CachedKeys(before), before, now) && NoneOlder(kept, gone)
    ensures KeysOf(kept) == CachedKeys(after) && |gone| == count
  {
    var left, rest := CachedKeys(after), CachedKeys(before) - CachedKeys(after);
    assert left <= CachedKeys(before) && left + rest == CachedKeys(before);
    kept := ReadingOf(left, before, now);
    gone := ReadingOf(rest, before, now);
    ListsApart(kept, gone, left, rest, before, now);
    KeptFirst(before, after, count, now, kept, gone);
    DistinctCount(gone);
  }

  /** Every result the eviction's contract allows is what some reading of the map leaves. */
  lemma EvictedIsRead<K, PV, V>(before: Items<K, PV, V>, after: Items<K, PV, V>, count: nat, now: Instant)
    returns (xs: seq<Aged<K>>)
    requires Evicted(before, after, count, now)
    ensures Reading(xs, before, count, now) && after == Left(before, xs, count)
  {
    var kept, gone := InTwoParts(before, after, count, now);
    SortInParts(kept, gone);
    SortedKeys(kept);
    SortedKeys(gone);
    xs := kept + gone;
    LeftIs(before, after, SortByAge(kept), SortByAge(gone), SortByAge(xs), count);
  }

  lemma LeftIs<K, PV, V>(before: Items<K, PV, V>, after: Items<K, PV, V>, front: seq<Aged<K>>, back: seq<Aged<K>>,
                         sorted: seq<Aged<K>>, count: nat)
    requires sorted == front + back && |back| == count && KeysOf(front) == CachedKeys(after)
    requires after.Keys <= before.Keys && (forall key :: key in after ==> after[key] == before[key])
    requires forall key :: key in before && before[key].Pending? ==> key in after
    ensures count <= |sorted| && after == Retained(before, KeysOf(sorted[..|sorted| - count]))
  {
    assert sorted[..|sorted| - count] == front;
    var left := Retained(before, KeysOf(front));
    forall key ensures key in left <==> key in after {
      assert key in CachedKeys(after) <==> key in after && after[key].Cached?;
    }
  }

  /**
   * Ages are cut to whole milliseconds: evicting `count` entries keeps to the order of use for every reading of the map
   * exactly when no two entries tie at the cut.
   */
  lemma RecencyIffNoTie<K(!new), PV, V>(before: Items<K, PV, V>, count: nat, now: Instant)
    requires count <= |CachedKeys(before)|
    ensures (forall xs | Reading(xs, before, count, now) :: KeepsRecent(before, Left(before, xs, count)))
            <==> !TieAtCut(before, count, now)
  {
    if TieAtCut(before, count, now) {
      var a, b :| a in CachedKeys(before) && b in CachedKeys(before) && Tied(before, a, b, now)
                  && CutAt(before, AgeOf(before, a, now), count, now);
      var after := TieDropped(before, a, b, count, now);
      var xs := EvictedIsRead(before, after, count, now);
      assert Reading(xs, before, count, now) && !KeepsRecent(before, Left(before, xs, count));
    } else {
      forall xs | Reading(xs, before, count, now) ensures KeepsRecent(before, Left(before, xs, count)) {
        ReadingEvicts(before, xs, count, now);
        UntiedKeepsRecent(before, Left(before, xs, count), count, now);
      }
    }
  }

  /** An entry that goes was used less than a millisecond after any that is kept. */
  lemma EvictedAreOlder<K, PV, V>(before: Items<K, PV, V>, after: Items<K, PV, V>, count: nat, now: Instant, gone: K, kept: K)
    requires Evicted(before, after, count, now)
    requires gone in before && before[gone].Cached? && gone !in after && before[gone].lastAccess <= now
    requires kept in after && before[kept].Cached? && before[kept].lastAccess <= now
    ensures before[gone].lastAccess < before[kept].lastAccess + 1_000_000
  {
    assert gone in CachedKeys(before) && kept in CachedKeys(before);
    assert AgeOf(before, kept, now) <= AgeOf(before, gone, now);
  }

  lemma SameAge(first: nat, second: nat, now: Instant)
    requires first < second < first + 1_000_000 && now == first + 999_999
    ensures Age(now, first) == Age(now, second) == 0
  {
  }

  /** Of two entries used less than a millisecond apart, read in this order at this instant, the one used last goes. */
  lemma SameMillisecond(before: Items<int, int, int>, xs: seq<Aged<int>>, first: nat, second: nat, now: Instant)
    requires first < second < first + 1_000_000 && now == first + 999_999
    requires before == map[1 := Cached(10, first), 2 := Cached(20, second)] && xs == [(1, 0), (2, 0)]
    ensures Reading(xs, before, 1, now) && Left(before, xs, 1).Keys == {1}
  {
    SameAge(first, second, now);
    assert CachedKeys(before) == {1, 2};
    assert KeysOf(xs) == {1, 2} by { assert xs[0].0 == 1 && xs[1].0 == 2; }
    assert SortByAge(xs) == xs by {
      assert xs[..1] == [(1, 0)] && xs[..1][..0] == [];
      assert SortByAge([(1, 0)]) == [(1, 0)];
      assert InsertByAge((2, 0), [(1, 0)]) == [(1, 0), (2, 0)];
    }
    assert KeysOf(xs[..1]) == {1} by { assert xs[..1] == [(1, 0)]; }
  }

  // ---------------------------------------------------------------- counting

  /** The counter tells the number of cached entries. */
  ghost predicate Counts<K, PV, V>(count: usize, items: Items<K, PV, V>) {
    count == |CachedKeys(items)| % USIZE_VALUES
  }

  lemma CachedMore<K, PV, V>(items: Items<K, PV, V>, key: K, value: V, now: Instant)
    ensures |CachedKeys(items[key := Cached(value, now)])| ==
            |CachedKeys(items)| + if key in CachedKeys(items) then 0 else 1
  {
    var more := CachedKeys(items[key := Cached(value, now)]);
    assert more == CachedKeys(items) + {key};
  }

  lemma CachedLess<K, PV, V>(items: Items<K, PV, V>, key: K)
    ensures |CachedKeys(items - {key})| == |CachedKeys(items)| - if key in CachedKeys(items) then 1 else 0
  {
    assert CachedKeys(items - {key}) == CachedKeys(items) - {key};
  }

  /** The counter is exact below 2 to the power of 64, where it starts again at zero. */
  lemma CounterWraps<K, PV, V>(count: usize, items: Items<K, PV, V>)
    requires Counts(count, items)
    ensures |CachedKeys(items)| < 18_446_744_073_709_551_616 ==> count == |CachedKeys(items)|
    ensures count < 18_446_744_073_709_551_615 ==> Increment(count) == count + 1
    ensures Increment(18_446_744_073_709_551_615) == 0 && Decrement(0) == 18_446_744_073_709_551_615
  {
  }

  lemma CountsMore(count: usize, n: nat)
    requires count == n % USIZE_VALUES
    ensures Increment(count) == (n + 1) % USIZE_VALUES
  {
  }

  lemma CountsLess(count: usize, n: nat)
    requires count == n % USIZE_VALUES
    ensures n > 0 ==> Decrement(count) == (n - 1) % USIZE_VALUES
    ensures Decrement(count) != n % USIZE_VALUES
  {
  }

  lemma AllCounted<K, PV, V>(items: Items<K, PV, V>)
    ensures |items| == |CachedKeys(items)| <==> forall key :: key in items ==> items[key].Cached?
    ensures |CachedKeys(items)| <= |items|
  {
    var pending := items.Keys - CachedKeys(items);
    assert items.Keys == CachedKeys(items) + pending;
    assert |items.Keys| == |items|;
    if |pending| == 0 {
      assert pending == {};
    }
    assert forall key :: key in items && items[key].Pending? ==> key in pending;
  }

  // ---------------------------------------------------------------- the cache

  class Cache<K(==), PV, V, E> {
    var items: Items<K, PV, V>
    var lastId: nat
    var count: usize
    const capacity: Option<usize>
    const fullCacheEviction: FullCacheEvictionMode

    /** Every pending entry is an earlier call's. */
    ghost predicate Valid()
      reads this
    {
      && (forall key :: key in items && items[key].Pending? ==> items[key].id < lastId)
      && (fullCacheEviction.LeastRecentlyUsed? ==> fullCacheEviction.count >= 1)
    }

    ghost predicate Exact()
      reads this
    {
      Counts(count, items)
    }

    /** A full cache that evicts holds at least as many entries as one eviction drops. */
    predicate EvictionFits() {
      fullCacheEviction.LeastRecentlyUsed? && capacity.Some? ==> fullCacheEviction.count <= capacity.value + 1
    }

    ghost predicate WithinCapacity()
      reads this
    {
      fullCacheEviction.LeastRecentlyUsed? && capacity.Some? ==> |CachedKeys(items)| <= capacity.value
    }

    constructor (capacity: Option<usize>, fullCacheEviction: FullCacheEvictionMode)
      requires fullCacheEviction.LeastRecentlyUsed? ==> fullCacheEviction.count >= 1
      ensures Valid() && Exact() && WithinCapacity() && items == map[] && lastId == 0
      ensures this.capacity == capacity && this.fullCacheEviction == fullCacheEviction
    {
      this.capacity := capacity;
      this.fullCacheEviction := fullCacheEviction;
      items, lastId, count := map[], 0, 0;
    }

    /**
     * `first` and `second` are what the two computations return. A call that finds an earlier call's pending entry waits:
     * it has no result.
     */
    method GetOrInsert(key: K, first: Outcome<PV, E>, second: Outcome<V, E>, now: Instant)
      returns (result: Option<Outcome<V, E>>)
      requires Valid()
      modifies this
      ensures Valid() && lastId == old(lastId) + 1
      ensures old(Exact()) ==> Exact()
      ensures old(Exact()) && old(WithinCapacity()) && EvictionFits() ==> WithinCapacity()
      ensures old(key in items && items[key].Cached?) ==>
                && result == Some(Ok(old(items)[key].value)) && count == old(count)
                && items == old(items)[key := Cached(old(items)[key].value, now)]
      ensures old(key in items && items[key].Pending?) ==> result == None && items == old(items) && count == old(count)
      ensures old(key !in items) && first.Err? ==>
                result == Some(Err(first.error)) && items == old(items) && count == old(count)
      ensures old(key !in items) && first.Ok? && second.Err? ==>
                && result == Some(Err(second.error)) && count == old(count)
                && items == old(items)[key := Pending(old(lastId), first.value)]
      ensures old(key !in items) && first.Ok? && second.Ok? ==>
                && result == Some(Ok(second.value))
                && var grown := old(items)[key := Cached(second.value, now)];
                   if Some(old(count)) == capacity && fullCacheEviction.LeastRecentlyUsed?
                   then EvictedIfPossible(grown, items, fullCacheEviction.count, now) && Exact()
                   else items == grown && count == Increment(old(count))
    {
      var evictionNeeded := false;
      var ownId := lastId;
      lastId := lastId + 1;
      if key !in items {
        match first {
          case Err(error) => return Some(Err(error));
          case Ok(pendingValue) => items := items[key := Pending(ownId, pendingValue)];
        }
      }
      match items[key] {
        case Pending(id, _) =>
          if id == ownId {
            match second {
              case Ok(value) =>
                items := items[key := Cached(value, now)];
                assert items == old(items)[key := Cached(value, now)];
                CachedMore(old(items), key, value, now);
                if Counts(old(count), old(items)) {
                  CountsMore(old(count), |CachedKeys(old(items))|);
                }
                var oldCount := count;
                count := Increment(count);
                if Some(oldCount) == capacity {
                  evictionNeeded := true;
                }
              case Err(_) =>
                assert CachedKeys(items) == CachedKeys(old(items));
            }
            result := Some(second);
          } else {
            result := None;
          }
        case Cached(value, _) =>
          CachedMore(items, key, value, now);
          items := items[key := Cached(value, now)];
          result := Some(Ok(value));
      }
      if evictionNeeded {
        Evict(now);
      }
    }

    method Evict(now: Instant)
      requires Valid()
      modifies this`items, this`count
      ensures Valid()
      ensures if fullCacheEviction.LeastRecentlyUsed?
              then EvictedIfPossible(old(items), items, fullCacheEviction.count, now) && Exact()
              else items == old(items) && count == old(count)
    {
      match fullCacheEviction {
        case NoEviction =>
        case LeastRecentlyUsed(evicted) => EvictLeastRecentlyUsed(evicted, now);
      }
    }

    /** The pending entries stay. With fewer cached entries than are to go, the wrapped subtraction cuts nothing off. */
    method EvictLeastRecentlyUsed(evicted: usize, now: Instant)
      requires Valid()
      modifies this`items, this`count
      ensures Valid() && Exact()
      ensures EvictedIfPossible(old(items), items, evicted, now)
    {
      var keysToKeep := ReadAges(now);
      SortSorts(keysToKeep);
      SortedLists(items, keysToKeep, now);
      keysToKeep := SortByAge(keysToKeep);
      ghost var sorted := keysToKeep;
      var length := if evicted <= |keysToKeep| then |keysToKeep| - evicted else |keysToKeep|;
      keysToKeep := keysToKeep[..length];
      var keep := KeysOf(keysToKeep);
      items := Retained(items, keep);
      count := |keep| % USIZE_VALUES;
      CutCounts(old(items), sorted, evicted, keep, items, now);
    }

    /** Reads the cached entries with their ages, in no particular order. */
    method ReadAges(now: Instant) returns (ages: seq<Aged<K>>)
      ensures Lists(ages, CachedKeys(items), items, now)
    {
      ages := [];
      var rest := items.Keys;
      while rest != {}
        invariant rest <= items.Keys && Lists(ages, CachedKeys(items) - rest, items, now)
        decreases |rest|
      {
        var key :| key in rest;
        match items[key] {
          case Cached(_, lastAccess) =>
            KeysOfExtended(ages, (key, Age(now, lastAccess)));
            assert key !in KeysOf(ages);
            ages := ages + [(key, Age(now, lastAccess))];
            assert CachedKeys(items) - (rest - {key}) == CachedKeys(items) - rest + {key};
          case Pending(_, _) =>
            assert CachedKeys(items) - (rest - {key}) == CachedKeys(items) - rest;
        }
        rest := rest - {key};
      }
      assert CachedKeys(items) - rest == CachedKeys(items);
    }

    /** Also a pending entry that goes lowers the counter: it stays exact unless the entry was pending. */
    method Remove(key: K)
      requires Valid()
      modifies this`items, this`count
      ensures Valid() && items == old(items) - {key}
      ensures count == if old(key in items) then Decrement(old(count)) else old(count)
      ensures old(Exact()) ==> (Exact() <==> !old(key in items && items[key].Pending?))
    {
      var removed := key in items;
      items := items - {key};
      CachedLess(old(items), key);
      if removed {
        if Counts(old(count), old(items)) {
          CountsLess(old(count), |CachedKeys(old(items))|);
        }
        count := Decrement(count);
      } else {
        assert items == old(items);
      }
    }

    /** Pending entries stay and are counted: the counter ends exact if and only if there are none. */
    method EvictOlderThan(ttl: nat, now: Instant)
      requires Valid()
      modifies this`items, this`count
      ensures Valid()
      ensures items == map key | key in old(items) && (old(items)[key].Cached? ==>
                         Elapsed(now, old(items)[key].lastAccess) < ttl) :: old(items)[key]
      ensures forall key :: key in old(items) && old(items)[key].Cached? && old(items)[key].lastAccess <= now ==>
                (key in items <==> now - old(items)[key].lastAccess < ttl)
      ensures count == |items| % USIZE_VALUES
      ensures |items| < USIZE_VALUES ==> (Exact() <==> forall key :: key in items ==> items[key].Cached?)
    {
      items := map key | key in items && (items[key].Cached? ==> Elapsed(now, items[key].lastAccess) < ttl) :: items[key];
      count := |items| % USIZE_VALUES;
      AllCounted(items);
    }
  }
}
