/** How long a failed chunk waits before it is tried again. */
module Backoff {
  import opened Basics
  import opened Arithmetic

  const BASE_DELAY_MS: u64 := 200
  const MAX_DELAY_MS: u64 := 5_000
  const JITTER_PERCENT: u64 := 20

  function Pow2(n: nat): nat {
    if n == 0 then 1 else 2 * Pow2(n - 1)
  }

  function SaturatingMul(a: u64, b: nat): u64 {
    Min(a * b, U64_LIMIT - 1)
  }

  /** The delay before jitter: doubles with each attempt, up to the cap. */
  function Capped(attempt: nat): nat {
    Min(SaturatingMul(BASE_DELAY_MS, Pow2(Min(attempt, 20))), MAX_DELAY_MS)
  }

  /** `nanos` is the sub-second part of the clock, the source's cheap random number. */
  function Delay(attempt: nat, nanos: u64): nat {
    var ratioPercent := 100 - JITTER_PERCENT + nanos % (JITTER_PERCENT * 2 + 1);
    SaturatingMul(Capped(attempt), ratioPercent) / 100
  }

  lemma {:induction false} Pow2Grows(m: nat, n: nat)
    requires m <= n
    ensures 1 <= Pow2(m) <= Pow2(n)
    decreases n
  {
    if m < n {
      Pow2Grows(m, n - 1);
    } else if n > 0 {
      Pow2Grows(n - 1, n - 1);
    }
  }

  /** The values before the cap is reached, and the cap. */
  lemma CappedValues(attempt: nat)
    ensures Capped(attempt) == if attempt <= 4 then 200 * Pow2(attempt) else 5000
    ensures attempt <= 4 ==> Pow2(attempt) == [1, 2, 4, 8, 16][attempt]
  {
    assert Pow2(0) == 1 && Pow2(1) == 2 && Pow2(2) == 4 && Pow2(3) == 8 && Pow2(4) == 16 && Pow2(5) == 32;
    if attempt >= 5 {
      Pow2Grows(5, Min(attempt, 20));
    }
  }

  lemma DivMonotone(a: nat, b: nat)
    requires a <= b
    ensures a / 100 <= b / 100
  {}

  lemma JitterBounds(capped: nat, ratio: nat)
    requires capped <= 5000 && 80 <= ratio <= 120
    ensures 80 * capped / 100 <= SaturatingMul(capped, ratio) / 100 <= 120 * capped / 100
  {
    MulMonotone(80, ratio, capped);
    MulMonotone(ratio, 120, capped);
    var product := capped * ratio;
    assert SaturatingMul(capped, ratio) == product;
    DivMonotone(80 * capped, product);
    DivMonotone(product, 120 * capped);
  }

  /** Every delay lies within 20 percent of `min(200 * 2^attempt, 5000)`. */
  lemma DelayBounds(attempt: nat, nanos: u64)
    ensures var d := Min(200 * Pow2(attempt), 5000);
            80 * d / 100 <= Delay(attempt, nanos) <= 120 * d / 100
  {
    hide SaturatingMul;
    CappedValues(attempt);
    JitterBounds(Capped(attempt), 100 - JITTER_PERCENT + nanos % (JITTER_PERCENT * 2 + 1));
    if attempt >= 5 {
      assert Pow2(5) == 32;
      Pow2Grows(5, attempt);
    }
  }

  /** Every percentage from 80 to 120 is some clock reading's jitter. */
  lemma EveryJitterOccurs(attempt: nat, percent: nat)
    requires 80 <= percent <= 120
    ensures Delay(attempt, percent - 80) == percent * Min(200 * Pow2(attempt), 5000) / 100
  {
    hide SaturatingMul;
    CappedValues(attempt);
    SmallProduct(Capped(attempt), percent);
    if attempt >= 5 {
      assert Pow2(5) == 32;
      Pow2Grows(5, attempt);
    }
  }

  lemma SmallProduct(capped: nat, ratio: nat)
    requires capped <= 5000 && 80 <= ratio <= 120
    ensures SaturatingMul(capped, ratio) == ratio * capped
  {
    MulMonotone(ratio, 120, capped);
  }

  /** Through the first six waits no jitter can make a later wait as short as an earlier one. */
  lemma DelaysIncrease(attempt: nat, nanos: u64, nanos': u64)
    requires attempt < 5
    ensures Delay(attempt, nanos) < Delay(attempt + 1, nanos')
  {
    hide SaturatingMul;
    DelayBounds(attempt, nanos);
    DelayBounds(attempt + 1, nanos');
    CappedValues(attempt);
    CappedValues(attempt + 1);
  }

  /** The waits of a chunk that was retried `|nanos|` times. */
  function TotalWait(nanos: seq<u64>): nat {
    if nanos == [] then 0
    else TotalWait(nanos[..|nanos| - 1]) + Delay(|nanos| - 1, nanos[|nanos| - 1])
  }

  lemma OneMoreWait(nanos: seq<u64>, n: u64)
    ensures TotalWait(nanos + [n]) == TotalWait(nanos) + Delay(|nanos|, n)
  {
    assert (nanos + [n])[..|nanos|] == nanos;
  }

  lemma NoWait()
    ensures TotalWait([]) == 0
  {}

  function WaitLimit(retries: nat): int {
    if retries <= 5 then 240 * (Pow2(retries) - 1) else 7440 + 6000 * (retries - 5)
  }

  lemma {:induction false} TotalWaitBound(nanos: seq<u64>)
    ensures TotalWait(nanos) <= WaitLimit(|nanos|)
  {
    hide Delay;
    if nanos != [] {
      var n := |nanos| - 1;
      TotalWaitBound(nanos[..n]);
      DelayBounds(n, nanos[n]);
      assert Pow2(5) == 32 && Pow2(n + 1) == 2 * Pow2(n);
    }
  }

  lemma {:induction false} LimitGrows(n: nat, m: nat)
    requires n <= m
    ensures WaitLimit(n) <= WaitLimit(m)
    decreases m
  {
    if n < m {
      LimitGrows(n, m - 1);
      assert Pow2(5) == 32;
      if m <= 5 {
        Pow2Grows(m - 1, m);
      }
    }
  }
}
