/** Ordered sets of integers, as the source's BTreeSet iterates them, and sums of sequences. */
module Ordered {

  /** Some element of a non-empty set. */
  ghost function Pick<T>(s: set<T>): (y: T)
    requires s != {}
    ensures y in s
  {
    var y :| y in s; y
  }

  lemma {:induction false} MinExists(s: set<int>)
    requires s != {}
    ensures exists m :: m in s && forall x :: x in s ==> m <= x
  {
    var y := Pick(s);
    var rest := s - {y};
    if rest == {} {
      assert s == {y};
    } else {
      MinExists(rest);
      var m :| m in rest && forall x :: x in rest ==> m <= x;
      var least := if m <= y then m else y;
      assert least in s && forall x :: x in s ==> x == y || x in rest;
      assert forall x :: x in s ==> least <= x;
    }
  }

  /** The first element a BTreeSet yields. */
  function Min(s: set<int>): (m: int)
    requires s != {}
    ensures m in s && forall x :: x in s ==> m <= x
  {
    MinExists(s);
    var m :| m in s && forall x :: x in s ==> m <= x;
    m
  }

  ghost predicate Increasing(xs: seq<int>) {
    forall i, j :: 0 <= i < j < |xs| ==> xs[i] < xs[j]
  }

  lemma MinFirst(s: set<int>, m: int, rest: seq<int>)
    requires m in s && (forall x :: x in s ==> m <= x)
    requires |rest| == |s - {m}| && Increasing(rest) && (forall x :: x in rest <==> x in s - {m})
    ensures |[m] + rest| == |s| && Increasing([m] + rest) && (forall x :: x in [m] + rest <==> x in s)
  {
    forall i | 0 <= i < |rest| ensures m < rest[i] {
      assert rest[i] in rest;
    }
  }

  /** The elements of a set in ascending order: a BTreeSet's iteration order. */
  function Ascending(s: set<int>): (xs: seq<int>)
    ensures |xs| == |s|
    ensures forall x :: x in xs <==> x in s
    ensures Increasing(xs)
  {
    if s == {} then [] else
      var m := Min(s);
      var rest := Ascending(s - {m});
      MinFirst(s, m, rest);
      [m] + rest
  }

  lemma {:induction false} IncreasingAtLeast(xs: seq<int>, i: nat)
    requires Increasing(xs) && i < |xs| && 0 <= xs[0]
    ensures i <= xs[i]
  {
    if i > 0 { IncreasingAtLeast(xs, i - 1); }
  }

  lemma {:induction false} IncreasingAtMost(xs: seq<int>, i: nat, n: int)
    requires Increasing(xs) && i < |xs| && xs[|xs| - 1] < n
    ensures xs[i] + (|xs| - i) <= n
    decreases |xs| - i
  {
    if i + 1 < |xs| { IncreasingAtMost(xs, i + 1, n); }
  }

  function Below(n: nat): (s: set<int>)
    ensures |s| == n && forall x :: x in s <==> 0 <= x < n
  {
    if n == 0 then {} else Below(n - 1) + {n - 1}
  }

  /** The ids 0..n in ascending order are their own positions. */
  lemma AscendingBelow(n: nat, j: nat)
    requires j < n
    ensures Ascending(Below(n))[j] == j
  {
    IdsInOrder(Ascending(Below(n)), n, j);
  }

  lemma IdsInOrder(xs: seq<int>, n: nat, j: nat)
    requires |xs| == n && Increasing(xs) && (forall x :: x in xs ==> 0 <= x < n) && j < n
    ensures xs[j] == j
  {
    assert xs[0] in xs && xs[n - 1] in xs;
    IncreasingAtLeast(xs, j);
    IncreasingAtMost(xs, j, n);
  }
}

/** Sums of integer sequences. */
module Sums {

  function Sum(xs: seq<int>): int {
    if xs == [] then 0 else xs[0] + Sum(xs[1..])
  }

  lemma {:induction false} SumUpdate(xs: seq<int>, i: nat, v: int)
    requires i < |xs|
    ensures Sum(xs[i := v]) == Sum(xs) - xs[i] + v
  {
    if i == 0 {
      assert xs[0 := v][1..] == xs[1..];
    } else {
      assert xs[i := v][1..] == xs[1..][i - 1 := v];
      SumUpdate(xs[1..], i - 1, v);
    }
  }

  /** Two sequences that differ only at a and b. */
  lemma SumChange(xs: seq<int>, ys: seq<int>, a: nat, b: nat)
    requires |xs| == |ys| && a < |xs| && b < |xs| && a != b
    requires forall i :: 0 <= i < |xs| && i != a && i != b ==> xs[i] == ys[i]
    ensures Sum(ys) == Sum(xs) + (ys[a] - xs[a]) + (ys[b] - xs[b])
  {
    SumUpdate(xs, a, ys[a]);
    SumUpdate(xs[a := ys[a]], b, ys[b]);
    assert ys == xs[a := ys[a]][b := ys[b]];
  }

  lemma {:induction false} SumMonotone(xs: seq<int>, ys: seq<int>)
    requires |xs| == |ys|
    requires forall i :: 0 <= i < |xs| ==> xs[i] <= ys[i]
    ensures Sum(xs) <= Sum(ys)
  {
    if xs != [] { SumMonotone(xs[1..], ys[1..]); }
  }

  lemma {:induction false} SumAdd(xs: seq<int>, ys: seq<int>, zs: seq<int>)
    requires |xs| == |ys| == |zs|
    requires forall i :: 0 <= i < |xs| ==> zs[i] == xs[i] + ys[i]
    ensures Sum(zs) == Sum(xs) + Sum(ys)
  {
    if xs != [] { SumAdd(xs[1..], ys[1..], zs[1..]); }
  }

  /** A lower bound on every element bounds the sum, with one element singled out. */
  lemma {:induction false} SumAtLeast(xs: seq<int>, low: int)
    requires forall i :: 0 <= i < |xs| ==> low <= xs[i]
    ensures |xs| * low <= Sum(xs)
    ensures forall i :: 0 <= i < |xs| ==> xs[i] + (|xs| - 1) * low <= Sum(xs)
  {
    if xs != [] {
      var rest := xs[1..];
      SumAtLeast(rest, low);
      forall i | 0 <= i < |xs| ensures xs[i] + (|xs| - 1) * low <= Sum(xs) {
        if i > 0 { assert rest[i - 1] == xs[i]; }
      }
    }
  }

  lemma {:induction false} SumZero(xs: seq<int>)
    requires forall i :: 0 <= i < |xs| ==> 0 <= xs[i]
    ensures 0 <= Sum(xs)
    ensures Sum(xs) == 0 <==> forall i :: 0 <= i < |xs| ==> xs[i] == 0
  {
    if xs != [] {
      var rest := xs[1..];
      SumZero(rest);
      assert forall i :: 0 < i < |xs| ==> rest[i - 1] == xs[i];
      assert forall i :: 0 <= i < |rest| ==> rest[i] == xs[i + 1];
    }
  }
}

/** Division with remainder. */
module Division {

  lemma ProductAtLeast(d: int, n: int)
    requires n > 0
    ensures d > 0 ==> d * n >= n
    ensures d < 0 ==> d * n <= -n
  {
  }

  lemma QuotientIs(x: int, q: int, n: int, r: int)
    requires 0 <= r < n && x == q * n + r
    ensures x / n == q && x % n == r
  {
    var d := q - x / n;
    assert x == n * (x / n) + x % n;
    assert d * n == x % n - r;
    ProductAtLeast(d, n);
  }
}

/** Induction up to a bound, for claims given as a function. */
module Induction {

  lemma {:induction false} Upward(p: nat -> bool, n: nat, c: nat)
    requires p(0) && c <= n && forall j :: 0 <= j < n && p(j) ==> p(j + 1)
    ensures p(c)
    decreases c
  {
    if c > 0 { Upward(p, n, c - 1); }
  }
}
