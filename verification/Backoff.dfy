/** Delays between attempts, in nanoseconds, with the machine arithmetic Go computes them in. */
module Backoff {
  import opened Common

  const TWO_SECONDS: int := 2_000_000_000
  const BASE_DELAY: int := 100_000_000

  function Pow2(n: nat): (p: int)
    ensures p >= 1
  {
    if n == 0 then 1 else 2 * Pow2(n - 1)
  }

  /** Two's-complement truncation to 64 bits. */
  function Wrap64(n: int): (w: int)
    ensures IsInt64(w)
    ensures IsInt64(n) ==> w == n
  {
    (n + 9_223_372_036_854_775_808) % 18_446_744_073_709_551_616 - 9_223_372_036_854_775_808
  }

  function Min(a: int, b: int): int {
    if a < b then a else b
  }

  /** The delay bound as intended: 100 ms doubled for each attempt, capped at 2 s. */
  function IntendedBound(attempt: nat): int
    requires attempt >= 1
  {
    Min(TWO_SECONDS, BASE_DELAY * Pow2(attempt - 1))
  }

  /** The delay bound as each SDK computes it; Python integers do not overflow. */
  function DelayBound(sdk: Sdk, attempt: nat): int
    requires attempt >= 1
  {
    match sdk
    case Go => Min(TWO_SECONDS, Wrap64(BASE_DELAY * Wrap64(Pow2(attempt - 1))))
    case Python => IntendedBound(attempt)
  }

  lemma {:induction false} Pow2Grows(m: nat, n: nat)
    requires m <= n
    ensures Pow2(m) <= Pow2(n)
  {
    if m < n { Pow2Grows(m, n - 1); }
  }

  lemma Pow2Of37()
    ensures Pow2(37) == 137_438_953_472 && Pow2(36) == 68_719_476_736
  {
    assert Pow2(10) == 1024;
    assert Pow2(20) == 1_048_576;
    assert Pow2(30) == 1_073_741_824;
    assert Pow2(36) == 68_719_476_736;
  }

  /** Up to attempt 37 no Go delay computation leaves int64 and the bound is the intended one. */
  lemma NoOverflowBefore38(attempt: nat)
    requires 1 <= attempt <= 37
    ensures IsInt64(Pow2(attempt - 1)) && IsInt64(BASE_DELAY * Pow2(attempt - 1))
    ensures DelayBound(Go, attempt) == IntendedBound(attempt)
    ensures 0 <= DelayBound(Go, attempt) <= TWO_SECONDS
  {
    Pow2Of37();
    Pow2Grows(attempt - 1, 36);
  }

  /** Attempt 38 is the first to overflow, and its bound comes out negative. */
  lemma OverflowAt38()
    ensures !IsInt64(BASE_DELAY * Pow2(37)) && DelayBound(Go, 38) < 0
  {
    Pow2Of37();
  }

  lemma IntendedBoundRange(attempt: nat)
    requires attempt >= 1
    ensures 0 < IntendedBound(attempt) <= TWO_SECONDS
    ensures DelayBound(Python, attempt) == IntendedBound(attempt)
    ensures attempt >= 6 ==> IntendedBound(attempt) == TWO_SECONDS
  {
    if attempt >= 6 {
      assert Pow2(5) == 32;
      Pow2Grows(5, attempt - 1);
    }
  }

  /** The bound starts at 100 ms and doubles with each attempt until it stays at 2 s. */
  lemma BoundDoubles(attempt: nat)
    requires attempt >= 1
    ensures IntendedBound(1) == 100_000_000
    ensures IntendedBound(attempt + 1)
         == if 2 * IntendedBound(attempt) < 2_000_000_000 then 2 * IntendedBound(attempt) else 2_000_000_000
  {
    assert Pow2(attempt) == 2 * Pow2(attempt - 1);
  }

  /** Truncation keeps the value modulo 2^64. */
  lemma WrapIsCongruent(n: int)
    ensures (n - Wrap64(n)) % 18_446_744_073_709_551_616 == 0
  {
    var m := n + 9_223_372_036_854_775_808;
    assert n - Wrap64(n) == m - m % 18_446_744_073_709_551_616;
    assert m - m % 18_446_744_073_709_551_616 == 18_446_744_073_709_551_616 * (m / 18_446_744_073_709_551_616);
  }

  /** No delay bound, overflown or not, exceeds the intended one. */
  lemma DelayWithinIntended(sdk: Sdk, attempt: nat)
    requires attempt >= 1
    ensures DelayBound(sdk, attempt) <= IntendedBound(attempt)
  {
    if attempt <= 37 { NoOverflowBefore38(attempt); } else { IntendedBoundRange(attempt); }
  }

  /** The most a call with n attempts can wait: one delay after each attempt but the last. */
  function TotalBound(n: nat): int
  {
    if n <= 1 then 0 else TotalBound(n - 1) + IntendedBound(n - 1)
  }

  /** In closed form from six attempts on: 3.1 s and 2 s for each further attempt. */
  lemma {:induction false} TotalBoundClosed(n: nat)
    requires n >= 6
    ensures TotalBound(n) == 3_100_000_000 + TWO_SECONDS * (n - 6)
  {
    if n == 6 {
      assert Pow2(1) == 2 && Pow2(2) == 4 && Pow2(3) == 8 && Pow2(4) == 16;
      assert TotalBound(2) == 100_000_000;
      assert TotalBound(4) == 700_000_000;
      assert TotalBound(5) == 1_500_000_000;
    } else {
      TotalBoundClosed(n - 1);
      IntendedBoundRange(n - 1);
    }
  }
}
