/** Facts about real arithmetic that the solver does not find alone. */
module Arith {

  /** A factor of a non-negative product with a positive co-factor is
      non-negative. */
  lemma NonNegativeFactor(x: real, q: real)
    requires q > 0.0 && x * q >= 0.0
    ensures x >= 0.0
  {
  }
}
