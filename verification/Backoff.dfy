/**
 * retryDelay (internal/proxy/retry.go:118-127): exponential backoff with full jitter,
 * in the int64 arithmetic of time.Duration (nanoseconds).
 */
module Backoff {
  import opened Prelude

  const TWO63: int := 0x8000_0000_0000_0000
  const TWO64: int := 0x1_0000_0000_0000_0000
  const TEN_SECONDS: int := 10_000_000_000

  /** Two's-complement truncation to int64. */
  function Wrap64(x: int): int {
    (x + TWO63) % TWO64 - TWO63
  }

  function Pow2(n: nat): int {
    if n == 0 then 1 else 2 * Pow2(n - 1)
  }

  /** base * (1 << attempt) and then the cap; both the shift and the product may overflow. */
  function DelayCap(base: int, attempt: nat): int {
    var cap := Wrap64(base * Wrap64(Pow2(attempt)));
    if cap > TEN_SECONDS then TEN_SECONDS else cap
  }

  /** rand.N panics unless its argument is positive. */
  predicate Panics(base: int, attempt: nat) {
    base > 0 && DelayCap(base, attempt) <= 0
  }

  /** `wait` is a value retryDelay can return. */
  predicate CanWait(base: int, attempt: nat, wait: int) {
    if base <= 0 then wait == 0 else 0 <= wait < DelayCap(base, attempt)
  }

  /** retryDelay; `draw` is the source of randomness. */
  method RetryDelay(base: int, attempt: nat, draw: nat) returns (wait: Option<int>)
    ensures wait.None? <==> Panics(base, attempt)
    ensures wait.Some? ==> CanWait(base, attempt, wait.value)
    ensures base > 0 && draw < DelayCap(base, attempt) ==> wait == Some(draw)
  {
    if base <= 0 {
      return Some(0);
    }
    var cap := Wrap64(base * Wrap64(Pow2(attempt)));
    if cap > TEN_SECONDS {
      cap := TEN_SECONDS;
    }
    if cap <= 0 {
      return None;
    }
    DrawInRange(draw, cap);
    return Some(draw % cap);
  }

  lemma DrawInRange(draw: nat, cap: int)
    requires cap > 0
    ensures 0 <= draw % cap < cap
    ensures draw < cap ==> draw % cap == draw
  {}

  lemma {:induction false} Pow2Grows(n: nat)
    ensures Pow2(n) >= n + 1
  {
    if n > 0 {
      Pow2Grows(n - 1);
    }
  }

  lemma {:induction false} Pow2Monotone(a: nat, b: nat)
    requires a <= b
    ensures Pow2(a) <= Pow2(b)
  {
    if a < b {
      Pow2Monotone(a, b - 1);
      Pow2Grows(b - 1);
    }
  }

  lemma MulMonotone(base: int, x: int, y: int)
    requires base >= 0 && x <= y
    ensures base * x <= base * y
  {}

  /** base * 2^attempt, the backoff the comment promises. */
  function FullBackoff(base: int, attempt: nat): int {
    base * Pow2(attempt)
  }

  lemma BackoffDoubles(base: int, attempt: nat)
    ensures FullBackoff(base, attempt + 1) == 2 * FullBackoff(base, attempt)
  {}

  /** While the product fits int64, nothing wraps. */
  lemma FitsMeansExact(base: int, attempt: nat)
    requires base > 0 && FullBackoff(base, attempt) < TWO63
    ensures DelayCap(base, attempt) == Min(FullBackoff(base, attempt), 10_000_000_000) > 0
  {
    Pow2Grows(attempt);
    MulMonotone(Pow2(attempt), 1, base);
    assert base * Pow2(attempt) == Pow2(attempt) * base;
    MulMonotone(base, 1, Pow2(attempt));
  }

  /** The first product that does not fit is in [2^63, 2^64), so it wraps to a negative number. */
  lemma FirstOverflowPanics(base: int, attempt: nat)
    requires 0 < base
    requires TWO63 <= FullBackoff(base, attempt) < TWO64
    ensures Panics(base, attempt)
  {
    var p := Pow2(attempt);
    Pow2Grows(attempt);
    assert base * p == p * base;
    MulMonotone(p, 1, base);
    if p < TWO63 {
      assert Wrap64(p) == p;
    } else {
      if base >= 2 {
        MulMonotone(p, 2, base);
      }
      assert Wrap64(p) == p - TWO64;
    }
  }

  /**
   * A delay that is drawn at all lies in [0, min(base * 2^attempt, 10s)): an overflowing
   * product that happens to wrap to something positive is still held by the cap.
   */
  lemma DelayInRange(base: int, attempt: nat, wait: int)
    requires CanWait(base, attempt, wait)
    ensures 0 <= wait
    ensures base > 0 ==> wait < Min(FullBackoff(base, attempt), 10_000_000_000)
    ensures base <= 0 ==> wait == 0
  {
    if base > 0 && FullBackoff(base, attempt) < TWO63 {
      FitsMeansExact(base, attempt);
    }
  }

  /**
   * Exactly when backing off is safe: the first `waits` delays can all be drawn, without a
   * panic, if and only if the largest of their products still fits int64.
   */
  lemma {:induction false} SafeIffLastFits(base: int, waits: nat)
    requires 0 < base < TWO63 && waits >= 1
    ensures (forall a: nat :: a < waits ==> !Panics(base, a)) <==> FullBackoff(base, waits - 1) < TWO63
  {
    if FullBackoff(base, waits - 1) < TWO63 {
      forall a: nat | a < waits
        ensures !Panics(base, a)
      {
        Pow2Monotone(a, waits - 1);
        MulMonotone(base, Pow2(a), Pow2(waits - 1));
        FitsMeansExact(base, a);
      }
    } else {
      var a := FirstOverflow(base, waits - 1);
      FirstOverflowPanics(base, a);
    }
  }

  lemma {:induction false} FirstOverflow(base: int, n: nat) returns (a: nat)
    requires 0 < base < TWO63 && FullBackoff(base, n) >= TWO63
    ensures a <= n && TWO63 <= FullBackoff(base, a) < TWO64
  {
    assert FullBackoff(base, 0) == base;
    if FullBackoff(base, n - 1) >= TWO63 {
      a := FirstOverflow(base, n - 1);
    } else {
      BackoffDoubles(base, n - 1);
      a := n;
    }
  }

  function Sum(waits: seq<int>): int {
    if waits == [] then 0 else Sum(waits[..|waits| - 1]) + waits[|waits| - 1]
  }

  /**
   * Total time spent waiting over w waits is at most min(base * (2^w - 1), w * 10s), and
   * nothing at all with a base of zero or less.
   */
  lemma {:induction false} TotalBackoff(base: int, waits: seq<int>)
    requires forall a: nat :: a < |waits| ==> CanWait(base, a, waits[a])
    ensures base > 0 ==> 0 <= Sum(waits) <= Min(FullBackoff(base, |waits|) - base, |waits| * TEN_SECONDS)
    ensures base <= 0 ==> Sum(waits) == 0
  {
    var w := |waits|;
    if w == 0 {
      assert FullBackoff(base, 0) == base;
    } else {
      TotalBackoff(base, waits[..w - 1]);
      DelayInRange(base, w - 1, waits[w - 1]);
      BackoffDoubles(base, w - 1);
    }
  }
}
