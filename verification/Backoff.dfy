// The settlement sweeper's exponential back-off.

module Backoff {
  const RETRY_BASE_MS := 30_000
  const RETRY_MAX_MS := 21_600_000

  function Pow2(n: nat): (p: nat)
    ensures p >= 1
  {
    if n == 0 then 1 else 2 * Pow2(n - 1)
  }

  lemma {:induction false} Pow2Grows(m: nat, n: nat)
    requires m <= n
    ensures Pow2(m) <= Pow2(n)
    decreases n - m
  {
    if m < n {
      Pow2Grows(m + 1, n);
    }
  }

  function RetryDelayMs(attempts: int): (delay: int)
    ensures RETRY_BASE_MS <= delay <= RETRY_MAX_MS
  {
    var exponent := if attempts - 1 > 0 then attempts - 1 else 0;
    if exponent > 40 then RETRY_MAX_MS
    else if RETRY_BASE_MS * Pow2(exponent) <= RETRY_MAX_MS then RETRY_BASE_MS * Pow2(exponent)
    else RETRY_MAX_MS
  }

  // 30000 doubled ten times is past the ceiling.
  lemma TenDoublings()
    ensures Pow2(9) == 512 && Pow2(10) == 1024
  {
    assert Pow2(2) == 4;
    assert Pow2(4) == 16;
    assert Pow2(6) == 64;
    assert Pow2(8) == 256;
  }

  // The guard on the shift changes nothing: the delay is the capped doubling everywhere.
  lemma DelayIsCappedDoubling(attempts: int)
    requires attempts >= 1
    ensures RetryDelayMs(attempts)
            == if RETRY_BASE_MS * Pow2(attempts - 1) <= RETRY_MAX_MS
               then RETRY_BASE_MS * Pow2(attempts - 1) else RETRY_MAX_MS
  {
    if attempts - 1 > 40 {
      TenDoublings();
      Pow2Grows(10, attempts - 1);
    }
  }

  // Thirty seconds, doubled with every attempt up to the tenth, and six hours from then on.
  lemma DelayInMilliseconds(attempts: int)
    ensures attempts <= 1 ==> RetryDelayMs(attempts) == 30_000
    ensures 1 <= attempts <= 9 ==> RetryDelayMs(attempts + 1) == 2 * RetryDelayMs(attempts)
    ensures RetryDelayMs(10) == 15_360_000
    ensures attempts >= 11 ==> RetryDelayMs(attempts) == 21_600_000
  {
    TenDoublings();
    if 1 <= attempts <= 9 {
      Pow2Grows(attempts, 9);
      Pow2Grows(attempts - 1, 9);
    }
    CeilingFromEleventh(attempts);
  }

  lemma DelayNeverShrinks(a: int, b: int)
    requires a <= b
    ensures RetryDelayMs(a) <= RetryDelayMs(b)
  {
    if b >= 1 {
      DelayIsCappedDoubling(b);
      if a >= 1 {
        DelayIsCappedDoubling(a);
        Pow2Grows(a - 1, b - 1);
      }
    }
  }

  // The ceiling is reached by the eleventh attempt, and not before.
  lemma CeilingFromEleventh(attempts: int)
    ensures RetryDelayMs(attempts) == RETRY_MAX_MS <==> attempts >= 11
  {
    TenDoublings();
    if attempts >= 11 {
      DelayIsCappedDoubling(attempts);
      Pow2Grows(10, attempts - 1);
    } else if attempts >= 1 {
      Pow2Grows(attempts - 1, 9);
    }
  }

  // times[k] is the instant of failed attempt number first + k; the next one waits out its delay.
  ghost predicate Spaced(times: seq<int>, first: nat) {
    forall j, k :: 0 <= j < k < |times| && k == j + 1 ==> times[k] >= times[j] + RetryDelayMs(first + j)
  }

  lemma {:induction false} SpacedSpan(times: seq<int>, first: nat, i: nat, j: nat)
    requires first >= 1 && Spaced(times, first)
    requires i <= j < |times|
    ensures times[j] - times[i] >= 0
    ensures times[j] - times[i] >= RETRY_MAX_MS * (j - i - 10)
    ensures j >= 10 && i >= 10 ==> times[j] - times[i] >= RETRY_MAX_MS * (j - i)
    ensures j >= 10 && i < 10 ==> times[j] - times[i] >= RETRY_MAX_MS * (j - 10)
    decreases j - i
  {
    if i < j {
      SpacedSpan(times, first, i, j - 1);
      assert times[j] >= times[j - 1] + RetryDelayMs(first + (j - 1));
      CeilingFromEleventh(first + (j - 1));
    }
  }

  // Any window of T milliseconds holds at most 11 + T / 21600000 failed attempts.
  lemma AttemptsInWindow(times: seq<int>, first: nat, i: nat, j: nat, window: nat)
    requires first >= 1 && Spaced(times, first)
    requires i <= j < |times| && times[j] - times[i] <= window
    ensures j - i + 1 <= 11 + window / RETRY_MAX_MS
  {
    SpacedSpan(times, first, i, j);
  }
}
