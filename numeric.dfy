/**
 * Real arithmetic the dashboard performs: `Math.round`, `Math.floor` and
 * `Math.pow` with a whole exponent. Numbers are exact reals here; binary
 * floating point is not modelled.
 */
module Numeric {

  /** `Math.round(x)`: the nearest integer, halves rounded up. */
  function Round(x: real): (r: int)
    ensures x - 0.5 < r as real <= x + 0.5
  {
    (x + 0.5).Floor
  }

  lemma RoundMonotone(x: real, y: real)
    requires x <= y
    ensures Round(x) <= Round(y)
  {
  }

  lemma RoundInt(n: int)
    ensures Round(n as real) == n
  {
  }

  /** `Math.pow(b, n)` for a whole exponent `n`. */
  function Pow(b: real, n: nat): real {
    if n == 0 then 1.0 else b * Pow(b, n - 1)
  }

  lemma {:induction false} PowAtLeastOne(b: real, n: nat)
    requires b >= 1.0
    ensures Pow(b, n) >= 1.0
  {
    if n > 0 {
      PowAtLeastOne(b, n - 1);
    }
  }

  /** With a base of at least one, a larger exponent never gives less. */
  lemma {:induction false} PowGrowsWithExponent(b: real, m: nat, n: nat)
    requires b >= 1.0 && m <= n
    ensures Pow(b, m) <= Pow(b, n)
  {
    if m < n {
      PowGrowsWithExponent(b, m, n - 1);
      PowAtLeastOne(b, n - 1);
    }
  }

  /** For non-negative bases, a larger base never gives less. */
  lemma {:induction false} PowGrowsWithBase(a: real, b: real, n: nat)
    requires 0.0 <= a <= b
    ensures 0.0 <= Pow(a, n) <= Pow(b, n)
  {
    if n > 0 {
      PowGrowsWithBase(a, b, n - 1);
    }
  }

  function Abs(x: int): nat {
    if x < 0 then -x else x
  }

  /** A random draw as `Math.random()` returns it. */
  predicate IsDraw(r: real) {
    0.0 <= r < 1.0
  }

  /** `Math.floor(r * n)`: an index into a list of `n` choices. */
  function DrawIndex(r: real, n: nat): (i: nat)
    requires IsDraw(r) && n > 0
    ensures i < n
    ensures (i as real) <= r * n as real < (i + 1) as real
  {
    var x := r * n as real;
    assert 0.0 <= x < n as real by {
      assert (1.0 - r) * n as real > 0.0;
    }
    x.Floor
  }
}
