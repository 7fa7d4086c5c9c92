/** The retry delay of src/send.rs: shift cap, saturating multiply and clamp, in whole seconds. */
module Backoff {
  import opened Prelude

  function Pow2(n: nat): (p: nat)
    ensures p > 0
  {
    if n == 0 then 1 else 2 * Pow2(n - 1)
  }

  /** `u64::saturating_sub`. */
  function SaturatingSub(a: U64, b: U64): U64 {
    if a < b then 0 else a - b
  }

  /** `u64::saturating_mul`. */
  function SaturatingMul(a: U64, b: U64): U64 {
    if a * b <= U64_MAX then a * b else U64_MAX
  }

  lemma {:induction false} Pow2Monotone(m: nat, n: nat)
    requires m <= n
    ensures Pow2(m) <= Pow2(n)
    decreases n
  {
    if m < n {
      Pow2Monotone(m, n - 1);
    }
  }

  lemma {:induction false} Pow2At62()
    ensures Pow2(62) == 0x4000_0000_0000_0000
  {
    assert Pow2(10) == 1024;
    assert Pow2(20) == 1024 * 1024;
    assert Pow2(30) == 1024 * 1024 * 1024;
    assert Pow2(40) == 1024 * 1024 * 1024 * 1024;
    assert Pow2(50) == 1024 * 1024 * 1024 * 1024 * 1024;
    assert Pow2(60) == 1024 * 1024 * 1024 * 1024 * 1024 * 1024;
  }

  /** `1u64 << shift` for the capped shift: it never overflows. */
  function Multiplier(attempts: U64): (m: U64)
    ensures m == Pow2(Min(if attempts == 0 then 0 else attempts - 1, 62))
  {
    var shift := Min(SaturatingSub(attempts, 1), 62);
    Pow2Monotone(shift, 62);
    Pow2At62();
    Pow2(shift)
  }

  /** `backoff_delay`, seconds. */
  function Delay(base: U64, max: U64, attempts: U64): (seconds: U64)
    ensures seconds <= max
  {
    Min(SaturatingMul(base, Multiplier(attempts)), max)
  }

  /** The documented formula, over unbounded integers. */
  function Ideal(base: nat, max: nat, attempts: nat): nat
    requires attempts >= 1
  {
    Min(base * Pow2(attempts - 1), max)
  }

  lemma MulMonotone(a: nat, b: nat, c: nat)
    requires b <= c
    ensures a * b <= a * c
  {
  }

  /** Saturation never shows: the clamp to a `u64` maximum hides it. */
  lemma DelayUnsaturated(base: U64, max: U64, attempts: U64)
    requires attempts >= 1
    ensures Delay(base, max, attempts) == Min(base * Pow2(Min(attempts - 1, 62)), max)
  {
  }

  lemma ClampAgreesExactly(base: nat, low: nat, high: nat, max: nat)
    requires 0 < low && 2 * low <= high
    ensures Min(base * low, max) == Min(base * high, max) <==> base == 0 || base * low >= max
  {
    MulMonotone(base, 2 * low, high);
    assert base * (2 * low) == base * low + base * low;
    assert base > 0 ==> base * low > 0;
  }

  /** The code meets the documented formula exactly when the shift cap of 62 is not reached,
      or the base is zero, or the capped product already exceeds the maximum. */
  lemma DelayIsIdealExactly(base: U64, max: U64, attempts: U64)
    requires attempts >= 1
    ensures Delay(base, max, attempts) == Ideal(base, max, attempts)
            <==> attempts <= 63 || base == 0 || base * Pow2(62) >= max
  {
    DelayUnsaturated(base, max, attempts);
    if attempts > 63 {
      Pow2Monotone(63, attempts - 1);
      ClampAgreesExactly(base, Pow2(62), Pow2(attempts - 1), max);
    }
  }

  /** Every maximum up to 2^62 seconds is inside that condition, for every base and attempt count. */
  lemma DelayIsIdealBelowCap(base: U64, max: U64, attempts: U64)
    requires attempts >= 1
    requires max <= Pow2(62)
    ensures Delay(base, max, attempts) == Ideal(base, max, attempts)
  {
    DelayIsIdealExactly(base, max, attempts);
    if base > 0 {
      MulMonotone(Pow2(62), 1, base);
    }
  }

  lemma DelayMonotone(base: U64, max: U64, earlier: U64, later: U64)
    requires 1 <= earlier <= later
    ensures Delay(base, max, earlier) <= Delay(base, max, later)
  {
    DelayUnsaturated(base, max, earlier);
    DelayUnsaturated(base, max, later);
    Pow2Monotone(Min(earlier - 1, 62), Min(later - 1, 62));
    MulMonotone(base, Pow2(Min(earlier - 1, 62)), Pow2(Min(later - 1, 62)));
  }

  /** Beyond the cap the formula can fail: one second doubled 63 times, clamped at the `u64` maximum. */
  lemma DelayShortOfIdeal()
    ensures Delay(1, U64_MAX, 64) < Ideal(1, U64_MAX, 64)
  {
    Pow2At62();
    assert Pow2(63) == 2 * Pow2(62);
  }
}
