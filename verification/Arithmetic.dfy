/** Facts about products that more than one module needs. */
module Arithmetic {
  lemma MulLe(a: int, b: int, n: nat)
    requires a <= b
    ensures a * n <= b * n && n * a <= n * b
  {
    assert n * (b - a) >= 0;
  }
}
