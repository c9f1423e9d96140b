/** Exponential backoff in saturating 64-bit arithmetic, and the retry loop. */
module Retries {
  import opened Sums
  import opened Wrappers

  const MAX_U64: nat := 0xFFFF_FFFF_FFFF_FFFF
  const MAX_U32: nat := 0xFFFF_FFFF

  type u64 = n: nat | n <= MAX_U64
  type u32 = n: nat | n <= MAX_U32

  /** Delays in whole milliseconds; the multiplier as a real, its truncation to 64 bits is part of the computation. */
  datatype RetryConfig = RetryConfig(maxAttempts: u32, minDelay: nat, maxDelay: nat, multiplier: real, maxJitterFactor: Option<real>)

  // ---------------------------------------------------------------- 64-bit arithmetic

  function SaturatingMul(a: u64, b: u64): u64 { if a * b <= MAX_U64 then a * b else MAX_U64 }

  function SaturatingAdd(a: u64, b: u64): u64 { if a + b <= MAX_U64 then a + b else MAX_U64 }

  function SaturatingSub(a: u64, b: u64): u64 { if a >= b then a - b else 0 }

  /** Powers over unbounded integers. */
  function Power(m: nat, e: nat): nat { if e == 0 then 1 else m * Power(m, e - 1) }

  function SaturatingPow(m: u64, e: u32): u64 { if Power(m, e) <= MAX_U64 then Power(m, e) else MAX_U64 }

  /** A float converted to an unsigned integer: truncated, and clamped to the range. */
  function RealToU64(r: real): u64 {
    if r < 0.0 then 0 else if r.Floor > MAX_U64 then MAX_U64 else r.Floor
  }

  /** A 128-bit count of milliseconds cast to 64 bits keeps the low bits. */
  function MillisToU64(millis: nat): u64 { millis % (MAX_U64 + 1) }

  // ---------------------------------------------------------------- the delay

  function BaseDelay(config: RetryConfig, attempts: u64): u64 {
    var exponent := SaturatingSub(attempts, 1);
    SaturatingMul(SaturatingPow(RealToU64(config.multiplier), if exponent <= MAX_U32 then exponent else 0),
                  MillisToU64(config.minDelay))
  }

  /** A base delay plus the part of it that the factor drawn adds. */
  function WithJitter(base: u64, jitter: real): u64 {
    SaturatingAdd(base, RealToU64(base as real * jitter))
  }

  /** The delay after the given number of attempts; `jitter` is the factor drawn if the configuration asks for one. */
  function GetDelay(config: RetryConfig, attempts: u64, jitter: real): Option<u64> {
    if attempts >= config.maxAttempts then None else
      var baseDelay := BaseDelay(config, attempts);
      var delay := match config.maxJitterFactor
        case Some(_) => WithJitter(baseDelay, jitter)
        case None => baseDelay;
      var maxDelay := MillisToU64(config.maxDelay);
      Some(if maxDelay <= delay then maxDelay else delay)
  }

  function Min(a: int, b: int): int { if a <= b then a else b }

  /** Exponential growth over unbounded integers. */
  function Grown(config: RetryConfig, attempts: nat): nat {
    MillisToU64(config.minDelay) * Power(RealToU64(config.multiplier), if attempts == 0 then 0 else attempts - 1)
  }

  /** What the delay is meant to be: exponential growth under a cap. */
  function Ideal(config: RetryConfig, attempts: nat): nat { Min(MillisToU64(config.maxDelay), Grown(config, attempts)) }

  lemma Product(a: nat, b: nat)
    requires b > 0
    ensures a * b >= a
  {
  }

  lemma SaturatedProduct(p: nat, d: u64)
    ensures SaturatingMul(if p <= MAX_U64 then p else MAX_U64, d) == Min(d * p, MAX_U64)
  {
    if d == 0 {
    } else if p > MAX_U64 {
      Product(p, d);
      Product(MAX_U64, d);
    }
  }

  /** The base delay is the exponential, saturated once. */
  lemma BaseIsGrown(config: RetryConfig, attempts: u64)
    requires attempts < config.maxAttempts
    ensures BaseDelay(config, attempts) == Min(Grown(config, attempts), MAX_U64)
  {
    SaturatedProduct(Power(RealToU64(config.multiplier), SaturatingSub(attempts, 1)), MillisToU64(config.minDelay));
  }

  /** Under the cap saturation is invisible. */
  lemma BaseIsIdeal(config: RetryConfig, attempts: u64)
    requires attempts < config.maxAttempts
    ensures Ideal(config, attempts) == Min(MillisToU64(config.maxDelay), BaseDelay(config, attempts))
  {
    BaseIsGrown(config, attempts);
  }

  /** Without jitter saturation is invisible: the delay is the capped exponential. */
  lemma DelayIsIdeal(config: RetryConfig, attempts: u64, jitter: real)
    requires attempts < config.maxAttempts && config.maxJitterFactor.None?
    ensures GetDelay(config, attempts, jitter) == Some(Ideal(config, attempts))
  {
    BaseIsIdeal(config, attempts);
  }

  /** With a jitter factor j the delay lies between the capped exponential and (1 + j) times the uncapped one. */
  lemma JitterBounds(config: RetryConfig, attempts: u64, jitter: real)
    requires attempts < config.maxAttempts && config.maxJitterFactor.Some? && 0.0 <= jitter < config.maxJitterFactor.value
    ensures var delay := GetDelay(config, attempts, jitter).value;
            && Ideal(config, attempts) <= delay <= MillisToU64(config.maxDelay)
            && AtMostScaled(delay, BaseDelay(config, attempts), jitter)
  {
    BaseIsIdeal(config, attempts);
    Jittered(BaseDelay(config, attempts), jitter);
    var delay, full := GetDelay(config, attempts, jitter).value, WithJitter(BaseDelay(config, attempts), jitter);
    assert delay == Min(MillisToU64(config.maxDelay), full);
    ScaledMonotone(delay, full, BaseDelay(config, attempts), jitter);
  }

  ghost predicate AtMostScaled(delay: nat, base: nat, jitter: real) {
    delay as real <= base as real * (1.0 + jitter)
  }

  lemma ScaledMonotone(less: nat, more: nat, base: nat, jitter: real)
    requires less <= more && AtMostScaled(more, base, jitter)
    ensures AtMostScaled(less, base, jitter)
  {
  }

  lemma Jittered(base: u64, jitter: real)
    requires jitter >= 0.0
    ensures base <= WithJitter(base, jitter) && AtMostScaled(WithJitter(base, jitter), base, jitter)
  {
    var extra := base as real * jitter;
    assert extra >= 0.0;
    assert base as real * (1.0 + jitter) == base as real + extra;
    TruncatedAtMost(extra);
  }

  lemma TruncatedAtMost(r: real)
    requires r >= 0.0
    ensures RealToU64(r) as real <= r
  {
  }

  // ---------------------------------------------------------------- growth

  lemma {:induction false} PowerGrows(m: nat, a: nat, b: nat)
    requires a <= b && m >= 1
    ensures 1 <= Power(m, a) <= Power(m, b)
    decreases b
  {
    if b > 0 {
      if a == b {
        PowerGrows(m, b - 1, b - 1);
        Product(Power(m, b - 1), m);
      } else {
        PowerGrows(m, a, b - 1);
        Product(Power(m, b - 1), m);
      }
    }
  }

  lemma Scale(a: nat, b: nat, d: nat)
    requires a <= b
    ensures d * a <= d * b
  {
  }

  lemma GrownNext(config: RetryConfig, a: nat)
    requires 1 <= a
    ensures Grown(config, a + 1) == Grown(config, a) * RealToU64(config.multiplier)
  {
    var m, d, p := RealToU64(config.multiplier), MillisToU64(config.minDelay), Power(RealToU64(config.multiplier), a - 1);
    assert d * (m * p) == (d * p) * m;
  }

  /** From the second attempt on the exponential does not shrink: it grows, or it is zero. */
  lemma GrownGrows(config: RetryConfig, a: nat, b: nat)
    requires 1 <= a <= b && (RealToU64(config.multiplier) >= 1 || a >= 2)
    ensures Grown(config, a) <= Grown(config, b)
  {
    var m, d := RealToU64(config.multiplier), MillisToU64(config.minDelay);
    if m >= 1 {
      PowerGrows(m, a - 1, b - 1);
      Scale(Power(m, a - 1), Power(m, b - 1), d);
    } else {
      assert Power(0, a - 1) == 0;
    }
  }

  /** No delay is shorter than one after an earlier attempt of the same loop, whatever factors are drawn from [0, f). */
  ghost predicate NeverShrink(config: RetryConfig, f: real) {
    forall a: u64, b: u64, j: real, k: real ::
      1 <= a < b < config.maxAttempts && 0.0 <= j < f && 0.0 <= k < f ==>
        GetDelay(config, a, j).value <= GetDelay(config, b, k).value
  }

  /**
   * Without jitter, delays never shrink exactly when the truncated multiplier is at least one, the shortest or the longest
   * delay is zero in milliseconds, or there is at most one delay.
   */
  lemma DelaysGrowIff(config: RetryConfig)
    requires config.maxJitterFactor.None?
    ensures NeverShrink(config, 1.0) <==>
            || RealToU64(config.multiplier) >= 1 || config.maxAttempts <= 2
            || MillisToU64(config.minDelay) == 0 || MillisToU64(config.maxDelay) == 0
  {
    var m, d := RealToU64(config.multiplier), MillisToU64(config.minDelay);
    if m >= 1 || config.maxAttempts <= 2 || d == 0 || MillisToU64(config.maxDelay) == 0 {
      forall a: u64, b: u64, j: real, k: real | 1 <= a < b < config.maxAttempts && 0.0 <= j < 1.0 && 0.0 <= k < 1.0
        ensures GetDelay(config, a, j).value <= GetDelay(config, b, k).value
      {
        DelayIsIdeal(config, a, j);
        DelayIsIdeal(config, b, k);
        if m >= 1 { GrownGrows(config, a, b); }
      }
    } else {
      DelayIsIdeal(config, 1, 0.0);
      DelayIsIdeal(config, 2, 0.0);
      assert Grown(config, 1) == d && Grown(config, 2) == 0 by { FirstGrown(config); }
      assert GetDelay(config, 1, 0.0).value > GetDelay(config, 2, 0.0).value;
    }
  }

  lemma FirstGrown(config: RetryConfig)
    ensures Grown(config, 1) == MillisToU64(config.minDelay)
    ensures Grown(config, 2) == MillisToU64(config.minDelay) * RealToU64(config.multiplier)
  {
    assert Power(RealToU64(config.multiplier), 0) == 1;
    GrownNext(config, 1);
  }

  /** A delay with the part of it that a factor adds, over unbounded integers. */
  function Drawn(x: nat, j: real): nat
    requires 0.0 <= j
  {
    assert x as real * j >= 0.0;
    x + (x as real * j).Floor
  }

  lemma DrawnSaturated(x: u64, j: real)
    requires 0.0 <= j
    ensures WithJitter(x, j) == Min(Drawn(x, j), MAX_U64)
  {
  }

  lemma DrawnAtLeast(x: nat, j: real)
    requires 0.0 <= j
    ensures x <= Drawn(x, j) && Drawn(x, 0.0) == x
  {
    assert x as real * j >= 0.0;
  }

  lemma JitteredIdeal(config: RetryConfig, attempts: u64, j: real)
    requires attempts < config.maxAttempts && config.maxJitterFactor.Some? && 0.0 <= j
    ensures GetDelay(config, attempts, j) == Some(Min(MillisToU64(config.maxDelay), Drawn(Grown(config, attempts), j)))
  {
    var base, x := BaseDelay(config, attempts), Grown(config, attempts);
    BaseIsGrown(config, attempts);
    DrawnSaturated(base, j);
    DrawnAtLeast(base, j);
    DrawnAtLeast(x, j);
  }

  /**
   * After each delay there is room for its jitter before the next: the next one is capped, or what a factor below f adds
   * does not take x beyond m * x.
   */
  ghost predicate JitterFits(config: RetryConfig, f: real) {
    forall a: nat {:trigger Grown(config, a)} :: 1 <= a && a + 1 < config.maxAttempts ==>
      || MillisToU64(config.maxDelay) <= Grown(config, a + 1)
      || HasRoom(Grown(config, a), RealToU64(config.multiplier), f)
  }

  ghost predicate HasRoom(x: nat, m: nat, f: real) {
    x as real * (1.0 + f - m as real) <= 1.0
  }

  lemma RoomIs(x: nat, m: nat, f: real)
    ensures HasRoom(x, m, f) <==> x as real * f <= (x * m - x + 1) as real
  {
    assert x as real * (1.0 + f - m as real) == x as real + x as real * f - x as real * m as real;
    assert (x * m) as real == x as real * m as real;
  }

  lemma RoomForAll(x: nat, m: nat, f: real, j: real)
    requires HasRoom(x, m, f) && 0.0 <= j < f
    ensures Drawn(x, j) <= x * m
  {
    RoomIs(x, m, f);
    if x > 0 {
      Scaled(x, j, f);
      FloorBelow(x as real * j, x * m - x);
    } else {
      FloorBelow(x as real * j, 0);
    }
  }

  lemma Scaled(x: nat, j: real, f: real)
    requires x > 0 && j < f
    ensures x as real * j < x as real * f
  {
  }

  lemma FloorBelow(r: real, k: int)
    requires r < (k + 1) as real
    ensures r.Floor <= k
  {
  }

  lemma ScaledOrder(x: nat, j: real, f: real)
    ensures j >= f ==> x as real * j >= x as real * f
  {
  }

  lemma NoRoom(x: nat, m: nat, f: real) returns (j: real)
    requires !HasRoom(x, m, f) && 0.0 < f
    ensures 0.0 <= j < f && Drawn(x, j) > x * m
  {
    RoomIs(x, m, f);
    var needed := x * m - x + 1;
    if needed <= 0 {
      j := 0.0;
    } else {
      assert x > 0;
      j := needed as real / x as real;
      assert x as real * j == needed as real;
      ScaledOrder(x, j, f);
    }
  }

  /** With a jitter factor, delays never shrink, whatever is drawn, exactly when every jitter fits. */
  lemma JitteredDelaysGrowIff(config: RetryConfig)
    requires config.maxJitterFactor.Some? && config.maxJitterFactor.value > 0.0
    ensures NeverShrink(config, config.maxJitterFactor.value) <==> JitterFits(config, config.maxJitterFactor.value)
  {
    var f := config.maxJitterFactor.value;
    if JitterFits(config, f) {
      forall a: u64, b: u64, j: real, k: real | 1 <= a < b < config.maxAttempts && 0.0 <= j < f && 0.0 <= k < f
        ensures GetDelay(config, a, j).value <= GetDelay(config, b, k).value
      {
        FittingDelaysGrow(config, f, a, b, j, k);
      }
    } else {
      var a: nat :| 1 <= a && a + 1 < config.maxAttempts && Grown(config, a + 1) < MillisToU64(config.maxDelay)
                    && !HasRoom(Grown(config, a), RealToU64(config.multiplier), f);
      var j := NoRoom(Grown(config, a), RealToU64(config.multiplier), f);
      GrownNext(config, a);
      JitteredIdeal(config, a, j);
      JitteredIdeal(config, a + 1, 0.0);
      DrawnAtLeast(Grown(config, a + 1), 0.0);
      assert GetDelay(config, a, j).value > GetDelay(config, a + 1, 0.0).value;
    }
  }

  lemma FittingDelaysGrow(config: RetryConfig, f: real, a: u64, b: u64, j: real, k: real)
    requires config.maxJitterFactor.Some? && JitterFits(config, f)
    requires 1 <= a < b < config.maxAttempts && 0.0 <= j < f && 0.0 <= k
    ensures GetDelay(config, a, j).value <= GetDelay(config, b, k).value
  {
    var x, cap := Grown(config, a), MillisToU64(config.maxDelay);
    JitteredIdeal(config, a, j);
    JitteredIdeal(config, b, k);
    GrownNext(config, a);
    GrownGrows(config, a + 1, b);
    DrawnAtLeast(Grown(config, b), k);
    if cap > Grown(config, a + 1) {
      RoomForAll(x, RealToU64(config.multiplier), f, j);
    }
  }

  /** A truncated multiplier that exceeds one by the jitter factor is enough. */
  lemma MultiplierMakesRoom(config: RetryConfig, f: real)
    requires f <= RealToU64(config.multiplier) as real - 1.0
    ensures JitterFits(config, f)
  {
    forall a: nat ensures HasRoom(Grown(config, a), RealToU64(config.multiplier), f) {
      EnoughRoom(Grown(config, a), RealToU64(config.multiplier), f);
    }
  }

  lemma EnoughRoom(x: nat, m: nat, f: real)
    requires f <= m as real - 1.0
    ensures HasRoom(x, m, f)
  {
    NegativeProduct(x, 1.0 + f - m as real);
  }

  lemma NegativeProduct(x: nat, y: real)
    requires y <= 0.0
    ensures x as real * y <= 0.0
  {
  }

  /** A delay can shrink because the multiplier truncates to zero, and because a flat one leaves no room for jitter. */
  lemma DelaysCanShrink()
    ensures var low := RetryConfig(3, 1000, 10000, 0.5, None);
            GetDelay(low, 1, 0.0) == Some(1000) && GetDelay(low, 2, 0.0) == Some(0)
    ensures var flat := RetryConfig(3, 1000, 10000, 1.0, Some(0.5));
            GetDelay(flat, 1, 0.4) == Some(1400) && GetDelay(flat, 2, 0.0) == Some(1000)
  {
    var flat, low := RetryConfig(3, 1000, 10000, 1.0, Some(0.5)), RetryConfig(3, 1000, 10000, 0.5, None);
    FirstGrown(flat);
    FirstGrown(low);
    JitteredIdeal(flat, 1, 0.4);
    JitteredIdeal(flat, 2, 0.0);
    DelayIsIdeal(low, 1, 0.0);
    DelayIsIdeal(low, 2, 0.0);
  }

  // ---------------------------------------------------------------- the loop

  /** The attempt on which the loop stops: the first that succeeds or cannot be retried, or the last allowed. */
  ghost predicate StopsAt<R, E>(config: RetryConfig, outcomes: nat -> Outcome<R, E>, isRetriable: E -> bool, k: nat) {
    && 1 <= k
    && (forall j :: 1 <= j < k ==> j < config.maxAttempts && outcomes(j).Err? && isRetriable(outcomes(j).error))
    && (k < config.maxAttempts ==> outcomes(k).Ok? || !isRetriable(outcomes(k).error))
  }

  /** How long the loop sleeps before its k-th attempt, in all. */
  function TotalSleep(config: RetryConfig, jitters: nat -> real, k: nat): nat
    requires k <= MAX_U64
  {
    if k <= 1 then 0 else
      TotalSleep(config, jitters, k - 1) + Slept(GetDelay(config, k - 1, jitters(k - 1)))
  }

  function Slept(delay: Option<u64>): nat { if delay.Some? then delay.value else 0 }

  lemma {:induction false} TotalSleepIsBounded(config: RetryConfig, jitters: nat -> real, k: nat)
    requires 1 <= k <= MAX_U64
    ensures TotalSleep(config, jitters, k) <= (k - 1) * MillisToU64(config.maxDelay)
  {
    if k > 1 {
      TotalSleepIsBounded(config, jitters, k - 1);
      var cap := MillisToU64(config.maxDelay);
      assert (k - 1) * cap == (k - 2) * cap + cap;
    }
  }

  /** What the first k delays are meant to be, one after the other. */
  function IdealDelays(config: RetryConfig, k: nat): seq<int> {
    seq(k, i requires 0 <= i => Ideal(config, i + 1))
  }

  lemma {:induction false} SumAppend(xs: seq<int>, x: int)
    ensures Sum(xs + [x]) == Sum(xs) + x
  {
    if xs == [] {
      assert xs + [x] == [x] && [x][1..] == [];
    } else {
      SumAppend(xs[1..], x);
      assert (xs + [x])[1..] == xs[1..] + [x];
    }
  }

  /** Without jitter the sleeps before the k-th attempt are the first k - 1 capped exponentials, each in full. */
  lemma {:induction false} TotalSleepIsSum(config: RetryConfig, jitters: nat -> real, k: nat)
    requires config.maxJitterFactor.None? && 1 <= k && (k <= config.maxAttempts || k == 1)
    ensures TotalSleep(config, jitters, k) == Sum(IdealDelays(config, k - 1))
  {
    if k > 1 {
      TotalSleepIsSum(config, jitters, k - 1);
      DelayIsIdeal(config, k - 1, jitters(k - 1));
      SumAppend(IdealDelays(config, k - 2), Ideal(config, k - 1));
      assert IdealDelays(config, k - 1) == IdealDelays(config, k - 2) + [Ideal(config, k - 1)];
    }
  }

  /** While the cap is out of reach, with a whole multiplier m, (m - 1) times their sum is min_delay * (m to the power of k - 1, less one). */
  lemma {:induction false} TotalSleepIsGeometric(config: RetryConfig, jitters: nat -> real, k: nat, m: u64)
    requires config.maxJitterFactor.None? && config.multiplier == m as real && config.minDelay <= MAX_U64
    requires 1 <= k && (k <= config.maxAttempts || k == 1)
    requires forall i: nat {:trigger Power(m, i)} :: i + 1 < k ==> config.minDelay * Power(m, i) <= config.maxDelay <= MAX_U64
    ensures (m - 1) * TotalSleep(config, jitters, k) == config.minDelay * (Power(m, k - 1) - 1)
  {
    if k > 1 {
      var d, p := config.minDelay, Power(m, k - 2);
      TotalSleepIsGeometric(config, jitters, k - 1, m);
      DelayIsIdeal(config, k - 1, jitters(k - 1));
      PlainDelay(config, k - 1, m);
      GeometricStep(d, m, p, TotalSleep(config, jitters, k - 1), TotalSleep(config, jitters, k));
    }
  }

  lemma GeometricStep(d: nat, m: nat, p: nat, before: nat, now: nat)
    requires (m - 1) * before == d * (p - 1) && now == before + d * p
    ensures (m - 1) * now == d * (m * p - 1)
  {
    assert (m - 1) * now == (m - 1) * before + (m - 1) * (d * p);
    assert (m - 1) * (d * p) == d * (m * p) - d * p;
  }

  lemma PlainDelay(config: RetryConfig, attempts: nat, m: u64)
    requires config.multiplier == m as real && config.minDelay <= MAX_U64 && config.maxDelay <= MAX_U64 && attempts >= 1
    ensures Ideal(config, attempts) == Min(config.maxDelay, config.minDelay * Power(m, attempts - 1))
  {
    TruncationIs(config.multiplier, m);
    MillisAreKept(config.minDelay);
    MillisAreKept(config.maxDelay);
  }

  /** Below 2 to the power of 64 a multiplier counts as its whole part; a negative one as zero. */
  lemma TruncationIs(r: real, k: nat)
    ensures r < 18_446_744_073_709_551_616.0 ==>
              (RealToU64(r) == k <==> if r < 0.0 then k == 0 else k as real <= r < (k + 1) as real)
    ensures r >= 18_446_744_073_709_551_616.0 ==> RealToU64(r) == 18_446_744_073_709_551_615
  {
    if 0.0 <= r < 18_446_744_073_709_551_616.0 {
      assert r.Floor as real <= r < (r.Floor + 1) as real;
      assert r.Floor < 18_446_744_073_709_551_616 by { assert r.Floor as real < 18_446_744_073_709_551_616.0; }
      if k as real <= r < (k + 1) as real { WholePart(r, k, r.Floor); }
    } else if r >= 18_446_744_073_709_551_616.0 {
      assert r < (r.Floor + 1) as real;
    }
  }

  lemma WholePart(r: real, a: int, b: int)
    requires a as real <= r < (a + 1) as real && b as real <= r < (b + 1) as real
    ensures a == b
  {
  }

  /** Milliseconds that fit 64 bits are kept. */
  lemma MillisAreKept(millis: nat)
    ensures millis < 18_446_744_073_709_551_616 ==> MillisToU64(millis) == millis
  {
  }

  /** The i-th attempt has the outcome outcomes(i); jitters(i) is the factor drawn after it. */
  method WithRetries<R, E>(config: RetryConfig, outcomes: nat -> Outcome<R, E>, isRetriable: E -> bool, jitters: nat -> real)
    returns (r: Outcome<R, E>, attempts: nat, slept: nat)
    ensures StopsAt(config, outcomes, isRetriable, attempts)
    ensures r == outcomes(attempts)
    ensures attempts <= if config.maxAttempts > 1 then config.maxAttempts else 1
    ensures slept == TotalSleep(config, jitters, attempts)
    ensures slept <= (attempts - 1) * MillisToU64(config.maxDelay)
  {
    attempts, slept := 0, 0;
    while true
      invariant attempts < config.maxAttempts || attempts == 0
      invariant forall j :: 1 <= j <= attempts ==> j < config.maxAttempts && outcomes(j).Err? && isRetriable(outcomes(j).error)
      invariant slept == TotalSleep(config, jitters, attempts + 1)
      decreases config.maxAttempts - attempts
    {
      attempts := attempts + 1;
      TotalSleepIsBounded(config, jitters, attempts);
      r := outcomes(attempts);
      if r.Ok? || !isRetriable(r.error) {
        return;
      }
      var delay := GetDelay(config, attempts, jitters(attempts));
      if delay.None? {
        return;
      }
      slept := slept + delay.value;
    }
  }

  /** The stopping attempt is determined. */
  lemma StopIsUnique<R, E>(config: RetryConfig, outcomes: nat -> Outcome<R, E>, isRetriable: E -> bool, k: nat, l: nat)
    requires StopsAt(config, outcomes, isRetriable, k) && StopsAt(config, outcomes, isRetriable, l)
    ensures k == l
  {
  }

  /** The same rules for callers that drive the attempts themselves. */
  class RetryState {
    var attempts: u64
    const retryConfig: RetryConfig

    constructor (retryConfig: RetryConfig)
      ensures attempts == 0 && this.retryConfig == retryConfig
    {
      attempts := 0;
      this.retryConfig := retryConfig;
    }

    method StartAttempt()
      requires attempts < MAX_U64
      modifies this
      ensures attempts == old(attempts) + 1
    {
      attempts := attempts + 1;
    }

    /** Whether to try again, and how long it slept before saying so. */
    method FailedAttempt(jitter: real) returns (again: bool, slept: nat)
      ensures again <==> attempts < retryConfig.maxAttempts
      ensures slept == Slept(GetDelay(retryConfig, attempts, jitter))
      ensures slept <= MillisToU64(retryConfig.maxDelay)
    {
      match GetDelay(retryConfig, attempts, jitter) {
        case Some(delay) => again, slept := true, delay;
        case None => again, slept := false, 0;
      }
    }
  }
}
