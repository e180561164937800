/**
 * The one shape of random draw the dashboard uses: `Math.floor(Math.random() * n)`.
 * The result r of `Math.random()` is a parameter with 0 <= r < 1; the product is the
 * exact real product (the rounding of double arithmetic is not modelled).
 */
module Draws {

  /** `Math.floor(r * n)` for a draw r of `Math.random()`: an integer in [0, n). */
  function RandomInt(r: real, n: nat): (k: int)
    requires 0.0 <= r < 1.0 && n >= 1
    ensures 0 <= k < n
  {
    (r * (n as real)).Floor
  }

  /** Every integer in [0, n) is the result of some draw: the range is exact. */
  lemma RandomIntReaches(k: nat, n: nat)
    requires k < n
    ensures 0.0 <= (k as real) / (n as real) < 1.0
    ensures RandomInt((k as real) / (n as real), n) == k
  {
  }
}
