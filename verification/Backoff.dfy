/**
 Retry delays and timeouts in the 64-bit nanosecond arithmetic of `time.Duration`.
 Every product wraps; the cap of two seconds is applied to the wrapped value.
 */
module Backoff {
  import opened Domain

  const SECOND := 1_000_000_000
  const MAX_DELAY := 2 * SECOND
  const FIRST_DELAY := 50_000_000

  /** The largest number of seconds whose nanoseconds fit a signed 64-bit integer. */
  const LARGEST_TIMEOUT := 9_223_372_036

  function Pow2(n: nat): (r: nat)
    ensures r >= 1
  {
    if n == 0 then 1 else 2 * Pow2(n - 1)
  }

  /** Two's complement reduction to the range of a signed 64-bit integer. */
  function Wrap64(x: int): int {
    (x + 0x8000_0000_0000_0000) % 0x1_0000_0000_0000_0000 - 0x8000_0000_0000_0000
  }

  /** The duration handed to the sleep after failed attempt number `attempt`, counted from zero. */
  function Delay(attempt: nat): int {
    var shifted := Wrap64(Pow2(attempt));
    var backoff := Wrap64(Wrap64(shifted * 50) * 1_000_000);
    if backoff > MAX_DELAY then MAX_DELAY else backoff
  }

  /** The delay the code sets out to compute: 50 ms doubled per attempt, capped at two seconds. */
  function Intended(attempt: nat): int {
    var d := FIRST_DELAY * Pow2(attempt);
    if d > MAX_DELAY then MAX_DELAY else d
  }

  /** How long the worker really pauses: sleeping for a negative duration takes no time. */
  function Nap(attempt: nat): int {
    if Delay(attempt) < 0 then 0 else Delay(attempt)
  }

  /** Time asleep before attempt number `n`. */
  function TotalSleep(n: nat): int {
    if n == 0 then 0 else TotalSleep(n - 1) + Nap(n - 1)
  }

  lemma WrapCongruent(x: int, y: int, k: int)
    requires x == y + k * 0x1_0000_0000_0000_0000
    ensures Wrap64(x) == Wrap64(y)
  {
  }

  lemma WrapProduct(x: int, k: int)
    ensures Wrap64(Wrap64(x) * k) == Wrap64(x * k)
  {
    var m := 0x1_0000_0000_0000_0000;
    var h := 0x8000_0000_0000_0000;
    var q := (x + h) / m;
    assert Wrap64(x) == x - q * m;
    assert Wrap64(x) * k == x * k + (-(q * k)) * m by {
      assert (x - q * m) * k == x * k - (q * m) * k;
      assert (q * m) * k == (q * k) * m;
    }
    WrapCongruent(Wrap64(x) * k, x * k, -(q * k));
  }

  /** The three wrapping products are one wrapping product. */
  lemma DelayIsOneProduct(attempt: nat)
    ensures Delay(attempt) ==
            var b := Wrap64(FIRST_DELAY * Pow2(attempt)); if b > MAX_DELAY then MAX_DELAY else b
  {
    var p := Pow2(attempt);
    var shifted := Wrap64(p);
    WrapProduct(shifted * 50, 1_000_000);
    WrapProduct(p, 50_000_000);
    assert shifted * 50 * 1_000_000 == shifted * 50_000_000;
  }

  lemma PowSum(a: nat, b: nat)
    ensures Pow2(a + b) == Pow2(a) * Pow2(b)
  {
    if a > 0 {
      PowSum(a - 1, b);
      assert Pow2(a + b) == 2 * Pow2(a - 1 + b);
      assert 2 * (Pow2(a - 1) * Pow2(b)) == (2 * Pow2(a - 1)) * Pow2(b);
    }
  }

  lemma PowMonotone(a: nat, b: nat)
    requires a <= b
    ensures Pow2(a) <= Pow2(b)
  {
    if a < b { PowMonotone(a, b - 1); }
  }

  /** Bit `k` of 390625; 50 ms is 390625 * 2^7 ns. */
  predicate OddFactorBit(k: nat) {
    (390625 / Pow2(k)) % 2 == 1
  }

  /**
   The code meets its own intent exactly when the doubled product has not been pushed into the sign bit:
   at most 56 doublings, and the bit of 390625 that lands in the sign position is clear.
   */
  lemma DelayKeepsIntent(attempt: nat)
    ensures Delay(attempt) == Intended(attempt) <==> attempt <= 56 && !OddFactorBit(56 - attempt)
    ensures Intended(attempt) == Least(50_000_000 * Pow2(attempt), 2_000_000_000)
    ensures attempt <= 56 && OddFactorBit(56 - attempt) ==> Delay(attempt) < 0
    ensures attempt > 56 ==> Delay(attempt) == 0
    ensures Delay(attempt) <= 2_000_000_000
  {
    DelayIsOneProduct(attempt);
    if attempt > 56 {
      AllBitsGone(attempt);
    } else {
      if attempt <= 37 {
        InRange(attempt);
      } else {
        SignBit(attempt);
        SmallPowers();
        PowMonotone(6, attempt);
      }
    }
  }

  /** The documentation names no cap: the delay is 50 ms doubled per attempt for the first six attempts only. */
  lemma DelayAsDocumented(attempt: nat)
    ensures Delay(attempt) == 50_000_000 * Pow2(attempt) <==> attempt <= 5
    ensures Delay(0) == 50_000_000
    ensures attempt < 5 ==> Delay(attempt + 1) == 2 * Delay(attempt)
    ensures 6 <= attempt <= 37 ==> Delay(attempt) == 2_000_000_000
  {
    SmallPowers();
    DelayExactUpTo37(0);
    DelayExactUpTo37(attempt);
    DelayExactUpTo37(attempt + 1);
    DelayKeepsIntent(attempt);
    if attempt < 5 { PowMonotone(attempt + 1, 5); }
    if attempt <= 5 { PowMonotone(attempt, 5); } else { PowMonotone(6, attempt); }
  }

  lemma AllBitsGone(attempt: nat)
    requires attempt > 56
    ensures Wrap64(FIRST_DELAY * Pow2(attempt)) == 0
  {
    var q := Pow2(attempt - 57);
    PowSum(57, attempt - 57);
    assert Pow2(57) == 0x200_0000_0000_0000 by { SmallPowers(); LargePowers(); PowSum(57, 7); }
    hide Pow2;
    assert Pow2(attempt) == 0x200_0000_0000_0000 * q;
    WrapCongruent(FIRST_DELAY * Pow2(attempt), 0, 390625 * q);
  }

  /** Where the bits of 390625 land when it is multiplied by `m` and `m * p` is the sign bit. */
  lemma SplitAtSignBit(m: nat, p: nat, c: nat, r: nat)
    requires p >= 1 && m * p == 0x8000_0000_0000_0000
    requires c == 390625 / p && r == 390625 % p
    ensures 390625 * m == c * 0x8000_0000_0000_0000 + r * m
    ensures 0 <= r * m <= 0x8000_0000_0000_0000 - m
  {
    assert 390625 == c * p + r;
    Spread(m, p, c, r);
  }

  lemma Spread(m: nat, p: nat, c: nat, r: nat)
    requires r < p
    ensures (c * p + r) * m == c * (m * p) + r * m
    ensures 0 <= r * m <= m * p - m
  {
    Distribute(c * p, r, m);
    Regroup(c, p, m);
    Distribute(p - 1 - r, r, m);
    Distribute(p - 1, 1, m);
    assert (p - 1 - r) * m >= 0;
  }

  lemma Distribute(a: int, b: int, m: int)
    ensures (a + b) * m == a * m + b * m
  {
  }

  lemma Regroup(c: int, p: int, m: int)
    ensures (c * p) * m == c * (m * p)
  {
  }

  /** 390625 is odd, so its remainder modulo an even number is not zero. */
  lemma OddRemainder(h: nat, c: int, r: int)
    requires 390625 == c * (2 * h) + r
    ensures r != 0
  {
    assert c * (2 * h) == 2 * (c * h);
  }

  /** The wrapped product, by the bit in the sign position. */
  lemma WrapBySignBit(m: nat, c: int, r: nat)
    requires c >= 0 && 390625 * m == c * 0x8000_0000_0000_0000 + r * m
    requires r * m <= 0x8000_0000_0000_0000 - m && m >= 1
    ensures c % 2 == 1 ==> Wrap64(390625 * m) < 0
    ensures c % 2 == 0 ==> Wrap64(390625 * m) == r * m
  {
    var w := r * m;
    assert w >= 0;
    WrapCongruent(390625 * m, (c % 2) * 0x8000_0000_0000_0000 + w, c / 2);
  }

  lemma SmallPowers()
    ensures Pow2(6) == 64 && Pow2(7) == 128 && Pow2(19) == 0x8_0000
  {
    assert Pow2(1) == 2 && Pow2(3) == 8;
    PowSum(3, 3); PowSum(6, 1); PowSum(6, 6); PowSum(12, 7);
  }

  lemma LargePowers()
    ensures Pow2(37) == 0x20_0000_0000 && Pow2(44) == 0x1000_0000_0000
    ensures Pow2(63) == 0x8000_0000_0000_0000 && Pow2(64) == 0x1_0000_0000_0000_0000
  {
    SmallPowers();
    PowSum(19, 6); PowSum(25, 6); PowSum(31, 6); PowSum(37, 7); PowSum(44, 19); PowSum(63, 1);
    assert Pow2(1) == 2;
  }

  /** Up to 37 doublings the product stays in range and no bit of 390625 reaches the sign position. */
  lemma InRange(attempt: nat)
    requires attempt <= 37
    ensures Wrap64(FIRST_DELAY * Pow2(attempt)) == FIRST_DELAY * Pow2(attempt)
    ensures !OddFactorBit(56 - attempt)
  {
    LargePowers();
    PowMonotone(attempt, 37);
    SmallPowers();
    PowMonotone(19, 56 - attempt);
    QuotientZero(Pow2(56 - attempt));
  }

  lemma QuotientZero(p: nat)
    requires p > 390625
    ensures 390625 / p == 0
  {
  }

  /** From 38 to 56 doublings: negative when the bit in the sign position is set, else far above the cap. */
  lemma SignBit(attempt: nat)
    requires 37 < attempt <= 56
    ensures OddFactorBit(56 - attempt) ==> Wrap64(FIRST_DELAY * Pow2(attempt)) < 0
    ensures !OddFactorBit(56 - attempt) ==> Wrap64(FIRST_DELAY * Pow2(attempt)) > MAX_DELAY
  {
    var m, p := Pow2(attempt + 7), Pow2(56 - attempt);
    assert FIRST_DELAY * Pow2(attempt) == 390625 * m by { SmallPowers(); PowSum(attempt, 7); }
    assert m * p == 0x8000_0000_0000_0000 by { LargePowers(); PowSum(attempt + 7, 56 - attempt); }
    assert m >= 0x1000_0000_0000 by { LargePowers(); PowMonotone(44, attempt + 7); }
    assert p == 1 || exists h: nat :: p == 2 * h by {
      if attempt < 56 { assert p == 2 * Pow2(55 - attempt); }
    }
    SignBitOf(m, p);
  }

  lemma SignBitOf(m: nat, p: nat)
    requires p >= 1 && m * p == 0x8000_0000_0000_0000 && m >= 0x1000_0000_0000
    requires p == 1 || exists h: nat :: p == 2 * h
    ensures (390625 / p) % 2 == 1 ==> Wrap64(390625 * m) < 0
    ensures (390625 / p) % 2 != 1 ==> Wrap64(390625 * m) > MAX_DELAY
  {
    var c, r := 390625 / p, 390625 % p;
    SplitAtSignBit(m, p, c, r);
    WrapBySignBit(m, c, r);
    if p != 1 {
      var h: nat :| p == 2 * h;
      assert 390625 == c * p + r;
      OddRemainder(h, c, r);
      AtLeastOnce(r, m);
    }
  }

  lemma AtLeastOnce(r: nat, m: nat)
    requires r > 0
    ensures r * m >= m
  {
    assert r * m == m + (r - 1) * m;
  }

  /** Attempts 0 to 37 are exact and nondecreasing; 38 is the first whose product leaves the 64-bit range. */
  lemma DelayExactUpTo37(attempt: nat)
    ensures Wrap64(FIRST_DELAY * Pow2(attempt)) == FIRST_DELAY * Pow2(attempt) <==> attempt <= 37
    ensures attempt <= 37 ==> Delay(attempt) == Intended(attempt)
    ensures attempt < 37 ==> Delay(attempt) <= Delay(attempt + 1)
    ensures Delay(38) < 0 && Nap(38) == 0
    ensures 0 <= Nap(attempt) && (attempt <= 37 ==> Nap(attempt) == Delay(attempt))
  {
    DelayIsOneProduct(attempt);
    DelayIsOneProduct(38);
    BitEighteen();
    SignBit(38);
    if attempt <= 37 {
      InRange(attempt);
    } else {
      LargePowers();
      PowMonotone(37, attempt - 1);
      assert Pow2(attempt) == 2 * Pow2(attempt - 1);
    }
    if attempt < 37 {
      DelayIsOneProduct(attempt + 1);
      InRange(attempt + 1);
      PowMonotone(attempt, attempt + 1);
    }
  }

  lemma BitEighteen()
    ensures OddFactorBit(18)
  {
    SmallPowers();
    assert Pow2(19) == 2 * Pow2(18);
  }

  /** 50(2^m - 1) ms while the doubling is below the cap, then two more seconds per retry. */
  function ClosedForm(m: nat): int {
    if m <= 6 then FIRST_DELAY * (Pow2(m) - 1) else 3_150_000_000 + MAX_DELAY * (m - 6)
  }

  /** The time a dead-lettered run spends asleep: the intended total exactly when there are at most 38 retries. */
  lemma {:induction false} TotalSleepClosedForm(m: nat)
    ensures TotalSleep(m) == ClosedForm(m) <==> m <= 38
    ensures TotalSleep(m) <= ClosedForm(m)
    ensures ClosedForm(m) == if m <= 6 then 50_000_000 * (Pow2(m) - 1) else 3_150_000_000 + 2_000_000_000 * (m - 6)
  {
    if m > 0 {
      TotalSleepClosedForm(m - 1);
      NextClosedForm(m - 1);
      if m <= 38 { NextSleep(m - 1); } else { ShortSleep(m - 1); }
    }
  }

  lemma ShortSleep(n: nat)
    requires n >= 38
    ensures Nap(n) <= Intended(n) && Nap(38) < Intended(38)
  {
    DelayExactUpTo37(n);
    IntendedByRange(n);
    IntendedByRange(38);
  }

  lemma NextClosedForm(n: nat)
    ensures ClosedForm(n + 1) == ClosedForm(n) + Intended(n)
  {
    IntendedByRange(n);
    SmallPowers();
  }

  lemma NextSleep(n: nat)
    requires n <= 37
    ensures TotalSleep(n + 1) == TotalSleep(n) + Intended(n)
  {
    DelayExactUpTo37(n);
  }

  lemma IntendedByRange(a: nat)
    ensures a <= 5 ==> Intended(a) == FIRST_DELAY * Pow2(a)
    ensures a > 5 ==> Intended(a) == MAX_DELAY
  {
    SmallPowers();
    if a <= 5 { PowMonotone(a, 5); } else { PowMonotone(6, a); }
  }

  /** Clamp a requested timeout: absent means the default, and nothing exceeds the maximum. */
  function ResolveTimeout(cfg: Config, requested: int): int {
    if requested <= 0 then cfg.defaultTimeout
    else if requested > cfg.maxTimeout then cfg.maxTimeout
    else requested
  }

  /** A function's own timeout, as a duration; the product wraps like any other. */
  function FunctionTimeout(fn: Function): int {
    Wrap64(fn.timeoutSec * SECOND)
  }

  /** The timeout of a direct call: the caller's wish, else the function's setting, else the default. */
  function CallTimeout(cfg: Config, fn: Function, requested: int): int {
    if fn.timeoutSec > 0 && requested <= 0 then ResolveTimeout(cfg, FunctionTimeout(fn))
    else ResolveTimeout(cfg, requested)
  }

  /**
   Which limit a call runs under: the caller's if it names one, else the function's own, else the default, and never
   more than the maximum. The function's own is what it should be exactly when its nanoseconds fit 64 bits, or wrap to
   something that happens to clamp to the maximum as well.
   */
  lemma TimeoutPrecedence(cfg: Config, fn: Function, requested: int)
    requires Normalised(cfg) && cfg.maxTimeout < 0x8000_0000_0000_0000
    ensures requested > 0 ==> CallTimeout(cfg, fn, requested) == Least(requested, cfg.maxTimeout)
    ensures requested <= 0 && fn.timeoutSec <= 0 ==> CallTimeout(cfg, fn, requested) == cfg.defaultTimeout
    ensures requested <= 0 && fn.timeoutSec > 0 ==>
              (CallTimeout(cfg, fn, requested) == Least(fn.timeoutSec * SECOND, cfg.maxTimeout) <==>
               || fn.timeoutSec <= LARGEST_TIMEOUT
               || FunctionTimeout(fn) >= cfg.maxTimeout
               || (FunctionTimeout(fn) <= 0 && cfg.defaultTimeout == cfg.maxTimeout))
  {
  }

  /** A function's setting in nanoseconds, when that fits. */
  lemma FunctionTimeoutFits(fn: Function)
    requires -LARGEST_TIMEOUT <= fn.timeoutSec <= LARGEST_TIMEOUT
    ensures FunctionTimeout(fn) == fn.timeoutSec * 1_000_000_000
  {
  }

  function Least(a: int, b: int): int {
    if a <= b then a else b
  }
}
