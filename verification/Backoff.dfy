/** The worker's capped exponential backoff and the retry horizon it adds up to. */
module Backoff {
  import opened Common

  function Pow2(n: nat): (p: nat)
    ensures p >= 1
  {
    if n == 0 then 1 else 2 * Pow2(n - 1)
  }

  /** The wait after the n-th failed attempt. */
  function Delay(base: int, cap: int, n: nat): int
    requires n >= 1
  {
    Min(base * Pow2(n - 1), cap)
  }

  /** D(n): the waits after the first n failed attempts, added up. */
  function Horizon(base: int, cap: int, n: nat): int {
    if n == 0 then 0 else Horizon(base, cap, n - 1) + Delay(base, cap, n)
  }

  lemma {:induction false} PowGrows(base: int, m: nat, n: nat)
    requires base >= 0 && m <= n
    ensures base * Pow2(m) <= base * Pow2(n)
    decreases n
  {
    if m < n {
      PowGrows(base, m, n - 1);
      assert base * Pow2(n) == 2 * (base * Pow2(n - 1));
    }
  }

  /** Until the cap is reached, D(n) = base * (2^n - 1). */
  lemma {:induction false} HorizonBeforeCap(base: int, cap: int, n: nat)
    requires base >= 0
    requires n >= 1 ==> base * Pow2(n - 1) <= cap
    ensures Horizon(base, cap, n) == base * (Pow2(n) - 1)
  {
    if n > 0 {
      if n > 1 {
        PowGrows(base, n - 2, n - 1);
      }
      HorizonBeforeCap(base, cap, n - 1);
      assert base * Pow2(n) == 2 * (base * Pow2(n - 1));
    }
  }

  /** From the first capped wait on, every retry adds the cap: D(n) = base * (2^k - 1) + (n - k) * cap. */
  lemma {:induction false} HorizonAfterCap(base: int, cap: int, k: nat, n: nat)
    requires base >= 0 && k <= n
    requires k >= 1 ==> base * Pow2(k - 1) <= cap
    requires cap < base * Pow2(k)
    ensures Horizon(base, cap, n) == base * (Pow2(k) - 1) + (n - k) * cap
    decreases n
  {
    if n == k {
      HorizonBeforeCap(base, cap, k);
    } else {
      HorizonAfterCap(base, cap, k, n - 1);
      PowGrows(base, k, n - 1);
      assert Delay(base, cap, n) == cap;
      assert (n - k) * cap == (n - 1 - k) * cap + cap;
    }
  }

  lemma {:induction false} DelayBounds(base: int, cap: int, n: nat)
    requires n >= 1
    ensures Delay(base, cap, n) <= cap
    ensures base > 0 && cap > 0 ==> Delay(base, cap, n) > 0
  {
    if base > 0 {
      PowGrows(base, 0, n - 1);
    }
  }

  /** The shipped settings: the sixth retry still falls inside the one-hour window, the seventh cannot. */
  lemma DefaultHorizon()
    ensures Horizon(30, 3600, 6) == 1890 <= 3600
    ensures Horizon(30, 3600, 7) == 3810 > 3600
    ensures forall n: nat :: n >= 7 ==> Horizon(30, 3600, n) == 3810 + (n - 7) * 3600
  {
    assert Pow2(2) == 4 && Pow2(4) == 16 && Pow2(6) == 64 && Pow2(7) == 128;
    HorizonBeforeCap(30, 3600, 6) by { assert Pow2(5) == 32; }
    HorizonBeforeCap(30, 3600, 7);
    forall n: nat | n >= 7
      ensures Horizon(30, 3600, n) == 3810 + (n - 7) * 3600
    {
      HorizonAfterCap(30, 3600, 7, n);
    }
  }
}
