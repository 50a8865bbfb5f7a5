/** The bounded exponential delay between retries. */
module Backoff {
  import opened Model

  const BASE_SECONDS: int := 2
  const MAX_SECONDS: int := 16

  function Power(base: int, exponent: nat): int {
    if exponent == 0 then 1 else base * Power(base, exponent - 1)
  }

  function Min(a: int, b: int): int {
    if a < b then a else b
  }

  /** `None` stands for the ValueError raised for a retry number below 1. */
  function RetryCountdown(retryNumber: int): Option<int> {
    if retryNumber < 1 then None
    else Some(Min(Power(BASE_SECONDS, retryNumber), MAX_SECONDS))
  }

  /** The delays of the first `n` retries added up. */
  function TotalDelay(n: nat): int {
    if n == 0 then 0 else TotalDelay(n - 1) + RetryCountdown(n).value
  }

  lemma {:induction false} PowerGrows(n: nat)
    requires n >= 4
    ensures Power(BASE_SECONDS, n) >= MAX_SECONDS
  {
    if n == 4 {
      assert Power(2, 2) == 4;
      assert Power(2, 4) == 16;
    } else {
      PowerGrows(n - 1);
    }
  }

  /** Refused below 1, then 2, 4, 8 and 16 seconds, and 16 ever after. */
  lemma CountdownTable(n: int)
    ensures RetryCountdown(n) == if n < 1 then None
                                 else Some(if n == 1 then 2 else if n == 2 then 4 else if n == 3 then 8 else 16)
  {
    SmallPowers();
    if n >= 4 { PowerGrows(n); }
  }

  /** Delays never shrink and settle at the cap from the fourth retry on. */
  lemma CountdownMonotone(m: int, n: int)
    requires 1 <= m <= n
    ensures 2 <= RetryCountdown(m).value <= RetryCountdown(n).value <= MAX_SECONDS
    ensures RetryCountdown(m).value == MAX_SECONDS <==> m >= 4
  {
    SmallPowers();
    if m >= 4 { PowerGrows(m); }
    if n >= 4 { PowerGrows(n); }
  }

  lemma SmallPowers()
    ensures Power(2, 1) == 2 && Power(2, 2) == 4 && Power(2, 3) == 8 && Power(2, 4) == 16
  {
    assert Power(2, 0) == 1;
    assert Power(2, 1) == 2;
    assert Power(2, 2) == 4;
    assert Power(2, 3) == 8;
  }

  /** The longest a task can be asked to wait in one epoch with `n` retries. */
  function BackoffBound(n: nat): int {
    if n <= 4 then Power(2, n + 1) - 2 else 30 + 16 * (n - 4)
  }

  lemma {:induction false} TotalDelayIsBound(n: nat)
    ensures TotalDelay(n) == BackoffBound(n)
  {
    SmallPowers();
    assert Power(2, 5) == 32;
    if n > 0 {
      TotalDelayIsBound(n - 1);
      if n >= 4 { PowerGrows(n); }
    }
  }

  lemma {:induction false} BoundMonotone(m: nat, n: nat)
    requires m <= n
    ensures BackoffBound(m) <= BackoffBound(n)
  {
    if m < n {
      BoundMonotone(m, n - 1);
      CountdownMonotone(1, n);
      TotalDelayIsBound(n - 1);
      TotalDelayIsBound(n);
    }
  }
}
