/** Exponential backoff over reals, shared by run retries and the automation scheduler. */
module Backoff {

  function MinReal(a: real, b: real): real { if a <= b then a else b }

  function MaxReal(a: real, b: real): real { if a <= b then b else a }

  /** base * 2^n */
  function Doubled(base: real, n: nat): real {
    if n == 0 then base else 2.0 * Doubled(base, n - 1)
  }

  lemma {:induction false} DoubledMonotone(base: real, m: nat, n: nat)
    requires base >= 0.0 && m <= n
    ensures base <= Doubled(base, m) <= Doubled(base, n)
    decreases n
  {
    if n == 0 {
    } else if m < n {
      DoubledMonotone(base, m, n - 1);
    } else {
      DoubledMonotone(base, m - 1, n - 1);
    }
  }

  /** Doubling eventually passes every ceiling. */
  lemma {:induction false} DoubledUnbounded(base: real, bound: nat)
    requires base >= 1.0
    ensures Doubled(base, bound) >= bound as real + 1.0
  {
    if bound > 0 {
      DoubledUnbounded(base, bound - 1);
    }
  }
}
