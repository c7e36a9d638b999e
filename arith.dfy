/** Facts about natural-number division used by the unit/WPM conversions. */
module Arith {

  lemma MulCancelLt(a: int, b: int, c: int)
    requires c > 0 && a * c < b * c
    ensures a < b
  {
  }

  lemma DivBound(n: nat, d: nat)
    requires d > 0
    ensures (n / d) * d <= n < (n / d + 1) * d
  {
  }

  /** `w * u <= n` is enough for `n / u >= w`. */
  lemma {:induction false} DivAtLeast(n: nat, u: nat, w: nat)
    requires u > 0 && w * u <= n
    ensures n / u >= w
  {
    DivBound(n, u);
    MulCancelLt(w, n / u + 1, u);
  }

  /** `n < (w + 1) * u` is enough for `n / u <= w`. */
  lemma {:induction false} DivAtMost(n: nat, u: nat, w: nat)
    requires u > 0 && n < (w + 1) * u
    ensures n / u <= w
  {
    DivBound(n, u);
    MulCancelLt(n / u, w + 1, u);
  }
}
