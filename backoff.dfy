/**
 * Reconnect delay: capped exponential growth from `reconnectInitialMs` by
 * `reconnectFactor` per attempt, then optional proportional jitter.
 * `Math.random()` is the parameter `draw`, a number in [0, 1).
 */
module Backoff {
  import opened Common
  import opened Accounts

  /** `f` raised to the whole power `n`. */
  function Pow(f: real, n: nat): real
  {
    if n == 0 then 1.0 else f * Pow(f, n - 1)
  }

  /** The attempt number, raised to at least 1. */
  function SafeAttempt(attempt: int): (k: int)
    ensures k >= 1 && (attempt >= 1 ==> k == attempt)
  {
    if attempt < 1 then 1 else attempt
  }

  /** The delay before jitter: the initial delay grown by the factor once per attempt after the first, capped at `reconnectMaxMs`. */
  function Capped(a: Descriptor, attempt: int): (r: real)
    ensures r <= a.reconnectMaxMs
  {
    MinReal(a.reconnectMaxMs, a.reconnectInitialMs * Pow(a.reconnectFactor, SafeAttempt(attempt) - 1))
  }

  /** `jitterDelay(baseMs, jitterRatio)` with the random draw made explicit. */
  function JitterDelay(base: real, jitter: real, draw: real): (r: real)
    requires 0.0 <= draw < 1.0
    ensures jitter <= 0.0 ==> r == base
    ensures jitter > 0.0 ==> r == r.Floor as real
    ensures jitter > 0.0 && base >= 0.0 ==>
      && MaxReal(0.0, base - base * jitter).Floor as real <= r <= base + base * jitter
      && (base > 0.0 ==> r < base + base * jitter)
  {
    if jitter <= 0.0 then base
    else
      var span := base * jitter;
      var lo := MaxReal(0.0, base - span);
      var hi := base + span;
      var x := lo + draw * (hi - lo);
      JitterWithin(base, jitter, draw, span, lo, hi, x);
      FloorBelow(x);
      FloorMonotone(lo, x);
      x.Floor as real
  }

  /**
   * For a non-negative base the jitter interval [lo, hi] is not empty, and the
   * drawn point `x` lies in it, strictly below `hi` when the base is positive.
   */
  lemma JitterWithin(base: real, jitter: real, draw: real, span: real, lo: real, hi: real, x: real)
    requires 0.0 <= draw < 1.0 && jitter > 0.0
    requires span == base * jitter && lo == MaxReal(0.0, base - span) && hi == base + span
    requires x == lo + draw * (hi - lo)
    ensures base >= 0.0 ==> lo <= x <= hi && (base > 0.0 ==> x < hi)
  {
    if base >= 0.0 {
      MulNonNegative(base, jitter);
      if base > 0.0 {
        MulPositive(base, jitter);
      }
      DrawWithin(lo, hi, draw);
    }
  }

  /** A draw in [0, 1) picks a point of [lo, hi], below `hi` when the interval has width. */
  lemma DrawWithin(lo: real, hi: real, draw: real)
    requires 0.0 <= draw < 1.0 && lo <= hi
    ensures lo <= lo + draw * (hi - lo) <= hi
    ensures lo < hi ==> lo + draw * (hi - lo) < hi
  {
    var w := hi - lo;
    var rest := 1.0 - draw;
    assert rest * w == w - draw * w;
    MulNonNegative(draw, w);
    MulNonNegative(rest, w);
    if lo < hi {
      MulPositive(rest, w);
    }
  }

  lemma FloorBelow(x: real)
    ensures x.Floor as real <= x
  {
  }

  lemma FloorMonotone(x: real, y: real)
    ensures x <= y ==> x.Floor <= y.Floor
  {
  }

  lemma MulNonNegative(x: real, y: real)
    requires x >= 0.0 && y >= 0.0
    ensures x * y >= 0.0
  {
  }

  lemma MulPositive(x: real, y: real)
    requires x > 0.0 && y > 0.0
    ensures x * y > 0.0
  {
  }

  /** `computeBackoff(account, attempt)` */
  function ComputeBackoff(a: Descriptor, attempt: int, draw: real): (r: real)
    requires 0.0 <= draw < 1.0
    ensures a.reconnectJitter <= 0.0 ==> r == Capped(a, attempt) && r <= a.reconnectMaxMs
    ensures a.reconnectJitter > 0.0 && Capped(a, attempt) >= 0.0 ==> 0.0 <= r
  {
    JitterDelay(Capped(a, attempt), a.reconnectJitter, draw)
  }

  /** Every attempt below 1 is treated as the first. */
  lemma AttemptIsClamped(a: Descriptor, attempt: int, draw: real)
    requires 0.0 <= draw < 1.0 && attempt <= 1
    ensures ComputeBackoff(a, attempt, draw) == ComputeBackoff(a, 1, draw)
  {
  }

  lemma {:induction false} PowAtLeastOne(f: real, n: nat)
    requires f >= 1.0
    ensures Pow(f, n) >= 1.0
  {
    if n > 0 {
      PowAtLeastOne(f, n - 1);
      assert f * Pow(f, n - 1) >= 1.0 * Pow(f, n - 1);
    }
  }

  lemma {:induction false} PowMonotone(f: real, n: nat, m: nat)
    requires f >= 1.0 && n <= m
    ensures Pow(f, n) <= Pow(f, m)
    decreases m - n
  {
    if n < m {
      PowMonotone(f, n, m - 1);
      PowAtLeastOne(f, m - 1);
      assert Pow(f, m) == f * Pow(f, m - 1) >= 1.0 * Pow(f, m - 1);
    }
  }

  /**
   * Without jitter, with a growth factor of at least 1 and a non-negative
   * initial delay, the delay never shrinks from one attempt to a later one.
   */
  lemma BackoffNonDecreasing(a: Descriptor, n: int, m: int, draw: real)
    requires 0.0 <= draw < 1.0
    requires a.reconnectJitter <= 0.0 && a.reconnectFactor >= 1.0 && a.reconnectInitialMs >= 0.0
    requires n <= m
    ensures ComputeBackoff(a, n, draw) <= ComputeBackoff(a, m, draw)
  {
    CappedMonotone(a, n, m);
  }

  lemma CappedMonotone(a: Descriptor, n: int, m: int)
    requires a.reconnectFactor >= 1.0 && a.reconnectInitialMs >= 0.0 && n <= m
    ensures Capped(a, n) <= Capped(a, m)
  {
    var pn, pm := Pow(a.reconnectFactor, SafeAttempt(n) - 1), Pow(a.reconnectFactor, SafeAttempt(m) - 1);
    PowMonotone(a.reconnectFactor, SafeAttempt(n) - 1, SafeAttempt(m) - 1);
    MulMonotone(a.reconnectInitialMs, pn, pm);
    MinMonotone(a.reconnectMaxMs, a.reconnectInitialMs * pn, a.reconnectInitialMs * pm);
  }

  lemma MinMonotone(c: real, x: real, y: real)
    requires x <= y
    ensures MinReal(c, x) <= MinReal(c, y)
  {
  }

  lemma MulMonotone(c: real, x: real, y: real)
    requires c >= 0.0 && x <= y
    ensures c * x <= c * y
  {
    MulNonNegative(c, y - x);
    assert c * (y - x) == c * y - c * x;
  }

  /**
   * The cap applies before the jitter, so a jittered delay can exceed
   * `reconnectMaxMs`: with a 30000 ms delay already at the cap and a jitter
   * ratio of 0.25, the draw 0.9 waits 36000 ms.
   */
  lemma JitterCanExceedCap(a: Descriptor)
    requires a.reconnectInitialMs == 30000.0 && a.reconnectMaxMs == 30000.0
    requires a.reconnectFactor == 1.0 && a.reconnectJitter == 0.25
    ensures ComputeBackoff(a, 1, 0.9) == 36000.0 > a.reconnectMaxMs
  {
    assert Capped(a, 1) == 30000.0;
    assert (36000.0).Floor == 36000;
  }

  /** With the default knobs the first three un-jittered delays are 2000, 3600 and 6480 ms, and the sixth hits the 30000 ms cap. */
  lemma DefaultSchedule(a: Descriptor)
    requires a.reconnectInitialMs == 2000.0 && a.reconnectFactor == 1.8 && a.reconnectMaxMs == 30000.0
    ensures Capped(a, 1) == 2000.0 && Capped(a, 2) == 3600.0 && Capped(a, 3) == 6480.0
    ensures Capped(a, 6) == 30000.0
  {
    assert Pow(1.8, 5) == 18.89568;
  }
}
