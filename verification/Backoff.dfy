/** Retry delays: a doubling loop, two shift forms, and what all three compute. */
module Backoff {
  import opened Ids

  /** time.Duration: nanoseconds in 64 bits. */
  type Duration = int64
  const OneSecond: Duration := 1_000_000_000

  function Pow2(n: nat): (p: nat) ensures p >= 1 { if n == 0 then 1 else 2 * Pow2(n - 1) }

  /** The documented law: double from one second up to the cap. */
  function Doubling(attempt: int, cap: nat): int {
    Min(Pow2(if attempt < 1 then 0 else attempt - 1), cap) * OneSecond
  }

  /** Go's `d << k`, here only where no bit is lost. */
  function Shift(d: Duration, k: nat): (r: Duration)
    requires d * Pow2(k) <= 0x7FFF_FFFF_FFFF_FFFF && d >= 0
    ensures r == d * Pow2(k)
  { d * Pow2(k) }

  lemma {:induction false} Pow2Monotone(a: nat, b: nat)
    requires a <= b
    ensures Pow2(a) <= Pow2(b)
    decreases b
  {
    if a < b { Pow2Monotone(a, b - 1); }
  }

  lemma Pow2Small(n: nat)
    requires n <= 9
    ensures Pow2(n) <= 512 && (n >= 9 ==> Pow2(n) == 512) && (n <= 5 ==> Pow2(n) <= 32) && (n == 5 ==> Pow2(n) == 32)
  {
    Pow2Monotone(n, 9);
    if n <= 5 { Pow2Monotone(n, 5); }
  }

  /** Identity notifications: one second shifted by at most 9, then capped at five minutes. */
  function IdentityDelay(attempt: int): (d: Duration)
    requires attempt >= 1
  {
    Pow2Small(Min(attempt - 1, 9));
    var delay := Shift(OneSecond, Min(attempt - 1, 9));
    if delay > 300 * OneSecond then 300 * OneSecond else delay
  }

  /** Bootstrap jobs: one second shifted by at most 5, capped at 30 seconds, zero below attempt 1. */
  function BootstrapDelay(attempt: int): (d: Duration) {
    if attempt < 1 then 0
    else
      Pow2Small(Min(attempt - 1, 5));
      Min(Shift(OneSecond, Min(attempt - 1, 5)), 30 * OneSecond)
  }

  /** Password actions: the doubling loop. */
  method PasswordBackoff(attempt: int) returns (d: Duration)
    ensures d == Doubling(attempt, 300)
  {
    if attempt <= 1 { return OneSecond; }
    var delay: Duration := OneSecond;
    var current := 1;
    while current < attempt && delay < 300 * OneSecond
      invariant 1 <= current <= attempt
      invariant delay == Pow2(current - 1) * OneSecond <= 600 * OneSecond
    {
      delay := delay * 2;
      current := current + 1;
    }
    Pow2Monotone(current - 1, attempt - 1);
    if delay > 300 * OneSecond { return 300 * OneSecond; }
    return delay;
  }

  /** The shift form is the loop form at every attempt. */
  lemma IdentityDelayIsDoubling(attempt: int)
    requires attempt >= 1
    ensures IdentityDelay(attempt) == Doubling(attempt, 300)
  {
    if attempt - 1 >= 9 { Pow2Monotone(9, attempt - 1); }
    Pow2Small(Min(attempt - 1, 9));
  }

  lemma BootstrapDelayIsDoubling(attempt: int)
    ensures BootstrapDelay(attempt) == if attempt < 1 then 0 else Doubling(attempt, 30)
  {
    if attempt >= 1 {
      if attempt - 1 >= 5 { Pow2Monotone(5, attempt - 1); }
      Pow2Small(Min(attempt - 1, 5));
    }
  }

  /** Waiting never shortens from one attempt to the next, and stays within the caps. */
  lemma DelaysGrow(a: int, b: int)
    requires 1 <= a <= b
    ensures OneSecond <= IdentityDelay(a) <= IdentityDelay(b) <= 300 * OneSecond
    ensures OneSecond <= BootstrapDelay(a) <= BootstrapDelay(b) <= 30 * OneSecond
  {
    IdentityDelayIsDoubling(a);
    IdentityDelayIsDoubling(b);
    BootstrapDelayIsDoubling(a);
    BootstrapDelayIsDoubling(b);
    Pow2Monotone(a - 1, b - 1);
  }
}
