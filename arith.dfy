// Machine-integer arithmetic that differs from Dafny's mathematical operators.

module Arith {
  /** Rust's signed integer division, rounding toward zero (Dafny's `/` is Euclidean). */
  function TruncDiv(a: int, b: nat): int
    requires b > 0
  {
    if a >= 0 then a / b else -((-a) / b)
  }

  /** Rust's `saturating_sub` on unsigned integers: never below zero. */
  function SaturatingSub(a: nat, b: nat): (r: nat)
    ensures a >= b ==> r + b == a
    ensures a < b ==> r == 0
  {
    if a >= b then a - b else 0
  }

  lemma MulMonotone(a: nat, b: nat, c: nat)
    requires b <= c
    ensures a * b <= a * c
  {
  }

  /** Multiplying by a positive factor keeps a strict order. */
  lemma {:induction false} MulStrict(a: nat, b: nat, r: nat)
    requires a < b && r > 0
    ensures a * r < b * r
    decreases b - a
  {
    if a + 1 < b {
      MulStrict(a + 1, b, r);
    }
    assert (a + 1) * r == a * r + r;
  }
}
