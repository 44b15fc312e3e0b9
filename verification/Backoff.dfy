/** Exponential backoff, shared by deployment retries and truss pushes. */
module Backoff {
  import opened Types

  const RETRY_BASE_INTERVAL: Time := 2 * MINUTE
  const RETRY_MAX_INTERVAL: Time := 30 * MINUTE
  const DEPLOYMENT_RETRY_DEADLINE: Time := 2 * HOUR

  function Pow2(n: nat): nat { if n == 0 then 1 else 2 * Pow2(n - 1) }

  /** min(2m * 2^(count-1), 30m); a count below one waits like the first. */
  function Interval(count: int): Time {
    if count <= 1 then RETRY_BASE_INTERVAL
    else
      var doubled := RETRY_BASE_INTERVAL * Pow2(count - 1);
      if doubled > RETRY_MAX_INTERVAL then RETRY_MAX_INTERVAL else doubled
  }

  /** The loop stops doubling as soon as the cap is reached; the jitter is added on top of it. */
  method RetryBackoff(retryCount: int, jitter: nat) returns (backoff: Time)
    ensures backoff == Interval(retryCount) + jitter
  {
    var base := RETRY_BASE_INTERVAL;
    var i := 1;
    assert Pow2(0) == 1;
    while i < retryCount
      invariant 1 <= i && (retryCount >= 1 ==> i <= retryCount) && (retryCount < 1 ==> i == 1)
      invariant base == RETRY_BASE_INTERVAL * Pow2(i - 1) && base <= RETRY_MAX_INTERVAL
    {
      assert Pow2(i) == 2 * Pow2(i - 1);
      base := base * 2;
      if base > RETRY_MAX_INTERVAL {
        base := RETRY_MAX_INTERVAL;
        Pow2Grows(i, retryCount - 1);
        assert RETRY_BASE_INTERVAL * Pow2(retryCount - 1) > RETRY_MAX_INTERVAL;
        assert base == Interval(retryCount);
        break;
      }
      i := i + 1;
    }
    backoff := base + jitter;
  }

  lemma {:induction false} Pow2Grows(m: nat, n: nat)
    requires m <= n
    ensures Pow2(m) <= Pow2(n)
  {
    if m < n {
      Pow2Grows(m, n - 1);
    }
  }

  /** Waiting times summed over the first `n` attempts, jitter left out. */
  function WaitedAfter(n: nat): Time {
    if n == 0 then 0 else WaitedAfter(n - 1) + Interval(n)
  }

  /** The eighth attempt is the last one that can start within the deadline. */
  lemma DeadlineAllowsEight()
    ensures WaitedAfter(7) == DEPLOYMENT_RETRY_DEADLINE
    ensures WaitedAfter(8) == 150 * MINUTE
  {
    assert Pow2(0) == 1 && Pow2(1) == 2 && Pow2(2) == 4 && Pow2(3) == 8 && Pow2(4) == 16;
    Pow2Grows(4, 5);
    Pow2Grows(4, 6);
    Pow2Grows(4, 7);
    assert WaitedAfter(1) == 2 * MINUTE;
    assert WaitedAfter(2) == 6 * MINUTE;
    assert WaitedAfter(3) == 14 * MINUTE;
    assert WaitedAfter(4) == 30 * MINUTE;
    assert WaitedAfter(5) == 60 * MINUTE;
    assert WaitedAfter(6) == 90 * MINUTE;
  }

  lemma {:induction false} WaitsGrow(m: nat, n: nat)
    requires m <= n
    ensures WaitedAfter(m) <= WaitedAfter(n)
    ensures m < n ==> WaitedAfter(m) < WaitedAfter(n)
  {
    if m < n {
      WaitsGrow(m, n - 1);
      IntervalBounds(n);
    }
  }

  lemma IntervalBounds(count: int)
    ensures RETRY_BASE_INTERVAL <= Interval(count) <= RETRY_MAX_INTERVAL
    ensures Interval(count) % SECOND == 0
  {
    if count > 1 {
      Pow2Grows(0, count - 1);
    }
  }

  lemma IntervalGrows(m: int, n: int)
    requires m <= n
    ensures Interval(m) <= Interval(n)
  {
    IntervalBounds(m);
    IntervalBounds(n);
    if 1 < m {
      Pow2Grows(m - 1, n - 1);
    }
  }
}
