/** The pauses between attempts, in 64-bit saturating arithmetic. */
module Backoff {
  import opened Wrappers

  const U64_MAX: nat := 0xFFFF_FFFF_FFFF_FFFF
  const U32_MODULUS: nat := 0x1_0000_0000
  const MAX_RETRY_AFTER_MS: nat := 60_000

  function SaturatingMul(a: nat, b: nat): nat { Min(a * b, U64_MAX) }

  function Pow2(n: nat): nat { if n == 0 then 1 else 2 * Pow2(n - 1) }

  /** The attempt number is cut to 32 bits before it is capped. */
  function BackoffMs(retryDelayMs: nat, attempt: nat): nat {
    SaturatingMul(retryDelayMs, Pow2(Min(attempt % U32_MODULUS, 10)))
  }

  function RateLimitBackoffMs(retryDelayMs: nat, attempt: nat): nat {
    SaturatingMul(BackoffMs(retryDelayMs, attempt), 4)
  }

  function ClampRetryAfterMs(ms: nat): nat { Min(ms, MAX_RETRY_AFTER_MS) }

  function RetryAfterMs(secs: nat): nat { ClampRetryAfterMs(SaturatingMul(secs, 1000)) }

  /** The longest pause a manager ever makes. */
  function LongestPause(retryDelayMs: nat): nat { Max(MAX_RETRY_AFTER_MS, SaturatingMul(retryDelayMs, 4096)) }

  lemma {:induction false} Pow2Grows(m: nat, n: nat)
    requires m <= n
    ensures 1 <= Pow2(m) <= Pow2(n)
  {
    if n > 0 {
      if m == n { Pow2Grows(m - 1, n - 1); } else { Pow2Grows(m, n - 1); }
    }
  }

  lemma Pow2Of10()
    ensures Pow2(10) == 1024
  {
    assert Pow2(5) == 32;
    assert Pow2(8) == 256;
  }

  lemma MulGrows(a: nat, x: nat, y: nat)
    requires x <= y
    ensures a * x <= a * y
  {
  }

  /** The power itself never overflows, two saturations in a row are one, and no
      pause exceeds the longest one. */
  lemma PausesAreBounded(retryDelayMs: nat, attempt: nat)
    ensures var factor := Pow2(Min(attempt % U32_MODULUS, 10));
      && 1 <= factor <= 1024
      && RateLimitBackoffMs(retryDelayMs, attempt) == Min(retryDelayMs * factor * 4, U64_MAX)
    ensures BackoffMs(retryDelayMs, attempt) <= RateLimitBackoffMs(retryDelayMs, attempt) <= LongestPause(retryDelayMs)
  {
    var factor := Pow2(Min(attempt % U32_MODULUS, 10));
    Pow2Grows(Min(attempt % U32_MODULUS, 10), 10);
    Pow2Of10();
    MulGrows(retryDelayMs, factor * 4, 4096);
    assert retryDelayMs * factor * 4 == retryDelayMs * (factor * 4);
  }

  /** The first pause is the configured one; each of the next ten is twice as long as the one
      before, as far as 64 bits go, and from then on they stay; a 429 takes four times as long. */
  lemma BackoffExactly(retryDelayMs: nat, attempt: nat)
    requires retryDelayMs <= 0xFFFF_FFFF_FFFF_FFFF && attempt < 0xFFFF_FFFF
    ensures var most, pause := 0xFFFF_FFFF_FFFF_FFFF, BackoffMs(retryDelayMs, attempt);
      && BackoffMs(retryDelayMs, 0) == retryDelayMs
      && BackoffMs(retryDelayMs, attempt + 1)
         == (if attempt >= 10 then pause else if 2 * pause > most then most else 2 * pause)
      && RateLimitBackoffMs(retryDelayMs, attempt) == (if 4 * pause > most then most else 4 * pause)
  {
    assert attempt % U32_MODULUS == attempt && (attempt + 1) % U32_MODULUS == attempt + 1;
    if attempt < 10 {
      assert Pow2(attempt + 1) == 2 * Pow2(attempt);
      assert retryDelayMs * (2 * Pow2(attempt)) == 2 * (retryDelayMs * Pow2(attempt));
    }
  }

  /** And the longest pause is no longer than it has to be: some pause takes as long. */
  lemma LongestPauseHappens(retryDelayMs: nat)
    requires retryDelayMs <= 0xFFFF_FFFF_FFFF_FFFF
    ensures LongestPause(retryDelayMs) in {RetryAfterMs(60), RateLimitBackoffMs(retryDelayMs, 10)}
  {
    Pow2Of10();
    assert 10 % U32_MODULUS == 10;
    assert retryDelayMs * 1024 * 4 == retryDelayMs * 4096;
  }

  /** The server's own pause counts in full up to a minute, and as a minute beyond. */
  lemma RetryAfterExactly(secs: nat)
    ensures RetryAfterMs(secs) == if secs >= 60 then 60_000 else secs * 1000
  {
  }

  /** Up to 32 bits of attempts, waiting never gets shorter. */
  lemma BackoffGrows(retryDelayMs: nat, attempt: nat, later: nat)
    requires attempt <= later < U32_MODULUS
    ensures BackoffMs(retryDelayMs, attempt) <= BackoffMs(retryDelayMs, later)
  {
    assert attempt % U32_MODULUS == attempt && later % U32_MODULUS == later;
    Pow2Grows(Min(attempt, 10), Min(later, 10));
    MulGrows(retryDelayMs, Pow2(Min(attempt, 10)), Pow2(Min(later, 10)));
  }
}
