/** The two capped-exponential backoffs and the loops they pace.
  *
  * Both shift a 64-bit base left, which drops high bits without failing for shifts below 64.
  */
module Backoff {
  import opened Common

  const TWO64: nat := 0x1_0000_0000_0000_0000
  const U32_MAX: nat := 0xFFFF_FFFF

  const BASE_BACKOFF_SECS: nat := 5
  const MAX_BACKOFF_SECS: nat := 300

  /** Milliseconds. */
  const FALLBACK_BACKOFF_BASE: nat := 50
  const FALLBACK_BACKOFF_CAP: nat := 5_000
  const FALLBACK_STABILITY: nat := 10_000

  function Pow2(n: nat): (p: nat)
    ensures p >= 1
  {
    if n == 0 then 1 else 2 * Pow2(n - 1)
  }

  /** `u64::checked_shl`: refuses shifts of 64 and more, and otherwise drops the high bits. */
  function CheckedShl(base: nat, n: nat): Option<nat> {
    if n >= 64 then None else Some(base * Pow2(n) % TWO64)
  }

  function Clamp(x: nat, low: nat, high: nat): nat
    requires low <= high
  {
    if x < low then low else if x > high then high else x
  }

  function SaturatingIncrement(n: nat): nat {
    if n < U32_MAX then n + 1 else n
  }

  function BackoffSecsWith(failures: nat, base: nat, cap: nat): (secs: nat)
    requires base <= cap
    ensures base <= secs <= cap
  {
    var shifted := CheckedShl(base, failures);
    Clamp(if shifted.Some? then shifted.value else cap, base, cap)
  }

  function BackoffSecs(failures: nat): nat {
    BackoffSecsWith(failures, BASE_BACKOFF_SECS, MAX_BACKOFF_SECS)
  }

  function FallbackBackoff(rapidDeaths: nat, base: nat, cap: nat): nat
    requires base <= cap
  {
    if rapidDeaths == 0 then 0
    else
      var shifted := CheckedShl(base, rapidDeaths - 1);
      Clamp(if shifted.Some? then shifted.value else TWO64 - 1, base, cap)
  }

  function FallbackWait(rapidDeaths: nat): nat {
    FallbackBackoff(rapidDeaths, FALLBACK_BACKOFF_BASE, FALLBACK_BACKOFF_CAP)
  }

  // ---------------------------------------------------------------- closed forms

  lemma {:induction false} Pow2Adds(m: nat, n: nat)
    ensures Pow2(m + n) == Pow2(m) * Pow2(n)
  {
    if m == 0 {
    } else {
      Pow2Adds(m - 1, n);
    }
  }

  lemma {:induction false} Pow2Grows(m: nat, n: nat)
    requires m <= n
    ensures Pow2(m) <= Pow2(n)
  {
    if m == n {
    } else {
      Pow2Grows(m, n - 1);
    }
  }

  lemma LargePowers()
    ensures Pow2(58) == 0x400_0000_0000_0000 && Pow2(59) == 0x800_0000_0000_0000
    ensures Pow2(60) == 0x1000_0000_0000_0000 && Pow2(61) == 0x2000_0000_0000_0000
    ensures Pow2(62) == 0x4000_0000_0000_0000 && Pow2(63) == 0x8000_0000_0000_0000
  {
    assert Pow2(8) == 0x100;
    Pow2Adds(8, 8);
    Pow2Adds(16, 16);
    Pow2Adds(16, 8);
    Pow2Adds(32, 24);
    assert Pow2(56) == 0x100_0000_0000_0000;
    assert Pow2(57) == 2 * Pow2(56) && Pow2(58) == 2 * Pow2(57);
    assert Pow2(59) == 2 * Pow2(58) && Pow2(60) == 2 * Pow2(59);
    assert Pow2(61) == 2 * Pow2(60) && Pow2(62) == 2 * Pow2(61);
  }

  lemma MulMonotone(a: nat, x: nat, y: nat)
    requires x <= y
    ensures a * x <= a * y
  {
  }

  lemma ModSmall(x: nat, m: nat)
    requires x < m
    ensures x % m == x
  {
  }

  /** Small shifts lose nothing, so a shift of at least `low` yields at least the value at `low`. */
  lemma ShiftWithoutLoss(base: nat, low: nat, n: nat, high: nat)
    requires low <= n <= high <= 63 && base * Pow2(high) < TWO64
    ensures CheckedShl(base, n) == Some(base * Pow2(n))
    ensures base * Pow2(low) <= base * Pow2(n)
  {
    Pow2Grows(low, n);
    Pow2Grows(n, high);
    MulMonotone(base, Pow2(n), Pow2(high));
    MulMonotone(base, Pow2(low), Pow2(n));
    ModSmall(base * Pow2(n), TWO64);
  }

  /** `backoff_secs(n)` is min(300, 5 * 2^n) for every failure count, dropped bits included. */
  lemma BackoffSecsClosedForm(n: nat)
    ensures BackoffSecs(n) == Min(300, 5 * Pow2(n))
  {
    LargePowers();
    assert Pow2(6) == 64;
    if n >= 6 {
      Pow2Grows(6, n);
      if n <= 61 {
        ShiftWithoutLoss(BASE_BACKOFF_SECS, 6, n, 61);
      }
    } else {
      ShiftWithoutLoss(BASE_BACKOFF_SECS, n, n, 61);
    }
  }

  /** The default fallback wait is min(5 s, 50 ms * 2^(n-1)), except that at 64 rapid deaths the
    * shift drops every bit and the clamp gives 50 ms.
    */
  lemma FallbackWaitClosedForm(n: nat)
    requires n >= 1
    ensures 50 <= FallbackWait(n) <= 5_000
    ensures FallbackWait(n) == if n == 64 then 50 else Min(5_000, 50 * Pow2(n - 1))
  {
    LargePowers();
    assert Pow2(7) == 128;
    var shift := n - 1;
    if shift >= 7 {
      Pow2Grows(7, shift);
      if shift <= 58 {
        ShiftWithoutLoss(FALLBACK_BACKOFF_BASE, 7, shift, 58);
      }
    } else {
      ShiftWithoutLoss(FALLBACK_BACKOFF_BASE, shift, shift, 58);
    }
  }

  /** A transport that was held stably is re-dialled at once. */
  lemma NoRapidDeathNoWait()
    ensures FallbackWait(0) == 0
  {
  }

  // ---------------------------------------------------------------- the reconnect loop

  /** How many sessions in a row, up to the `n`-th, failed. */
  function FailureStreak(closedCleanly: seq<bool>, n: nat): nat
    requires n <= |closedCleanly|
  {
    if n == 0 || closedCleanly[n - 1] then 0 else FailureStreak(closedCleanly, n - 1) + 1
  }

  /** The streak is the longest run of failures that ends with the `n`-th session. */
  lemma {:induction false} FailureStreakMeans(closedCleanly: seq<bool>, n: nat)
    requires n <= |closedCleanly|
    ensures var k := FailureStreak(closedCleanly, n);
      && k <= n
      && (forall i :: n - k <= i < n ==> !closedCleanly[i])
      && (k < n ==> closedCleanly[n - k - 1])
  {
    if n == 0 {
    } else if !closedCleanly[n - 1] {
      FailureStreakMeans(closedCleanly, n - 1);
    }
  }

  /** Saturating the counter at 2^32 - 1 changes no delay. */
  lemma SaturationIsInvisible(streak: nat)
    ensures BackoffSecs(Min(streak, U32_MAX)) == BackoffSecs(streak)
    ensures FallbackWait(Min(streak, U32_MAX)) == FallbackWait(streak)
  {
  }

  /** The delays slept by the reservation loop over any sequence of session outcomes: each is
    * min(300, 5 * 2^k) seconds after the k-th failure in a row, and never below 5 seconds.
    */
  method RunRelayConnection(closedCleanly: seq<bool>) returns (delays: seq<nat>)
    ensures |delays| == |closedCleanly|
    ensures forall i :: 0 <= i < |delays| ==>
      delays[i] == Min(300, 5 * Pow2(FailureStreak(closedCleanly, i + 1)))
    ensures forall i :: 0 <= i < |delays| ==> 5 <= delays[i] <= 300
  {
    delays := [];
    var consecutiveFailures := 0;
    for i := 0 to |closedCleanly|
      invariant |delays| == i
      invariant consecutiveFailures == Min(FailureStreak(closedCleanly, i), U32_MAX)
      invariant forall j :: 0 <= j < i ==>
        delays[j] == Min(300, 5 * Pow2(FailureStreak(closedCleanly, j + 1)))
      invariant forall j :: 0 <= j < i ==> 5 <= delays[j] <= 300
    {
      if closedCleanly[i] {
        consecutiveFailures := 0;
      } else {
        consecutiveFailures := SaturatingIncrement(consecutiveFailures);
      }
      ghost var streak := FailureStreak(closedCleanly, i + 1);
      SaturationIsInvisible(streak);
      BackoffSecsClosedForm(streak);
      delays := delays + [BackoffSecs(consecutiveFailures)];
    }
  }

  // ---------------------------------------------------------------- the fallback loop

  /** How many transports in a row, up to the `n`-th, lived less than the stability period. */
  function RapidStreak(lifetimes: seq<nat>, n: nat): nat
    requires n <= |lifetimes|
  {
    if n == 0 || lifetimes[n - 1] >= FALLBACK_STABILITY then 0 else RapidStreak(lifetimes, n - 1) + 1
  }

  /** The streak is the longest run of transports that lived less than ten seconds and ends with the
    * `n`-th.
    */
  lemma {:induction false} RapidStreakMeans(lifetimes: seq<nat>, n: nat)
    requires n <= |lifetimes|
    ensures var k := RapidStreak(lifetimes, n);
      && k <= n
      && (forall i :: n - k <= i < n ==> lifetimes[i] < 10_000)
      && (k < n ==> lifetimes[n - k - 1] >= 10_000)
  {
    if n == 0 {
    } else if lifetimes[n - 1] < FALLBACK_STABILITY {
      RapidStreakMeans(lifetimes, n - 1);
    }
  }

  /** The guard's re-dials for transports that live as long as given: the wait before each, and
    * the time passed before the last. Every re-dial costs at least 50 ms, whatever dies when.
    */
  method FallbackLoop(lifetimes: seq<nat>) returns (waits: seq<nat>, elapsed: nat)
    ensures |waits| == |lifetimes|
    ensures forall i :: 0 <= i < |waits| ==> waits[i] == FallbackWait(RapidStreak(lifetimes, i + 1))
    ensures elapsed >= |lifetimes| * 50
  {
    waits, elapsed := [], 0;
    var rapidDeaths := 0;
    for i := 0 to |lifetimes|
      invariant |waits| == i
      invariant rapidDeaths == Min(RapidStreak(lifetimes, i), U32_MAX)
      invariant forall j :: 0 <= j < i ==> waits[j] == FallbackWait(RapidStreak(lifetimes, j + 1))
      invariant elapsed >= i * 50
    {
      elapsed := elapsed + lifetimes[i];
      if lifetimes[i] >= FALLBACK_STABILITY {
        rapidDeaths := 0;
      } else {
        rapidDeaths := SaturatingIncrement(rapidDeaths);
        FallbackWaitClosedForm(rapidDeaths);
      }
      SaturationIsInvisible(RapidStreak(lifetimes, i + 1));
      var backoff := FallbackWait(rapidDeaths);
      elapsed := elapsed + backoff;
      waits := waits + [backoff];
    }
  }
}
