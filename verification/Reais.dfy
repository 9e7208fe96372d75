/** Products of real numbers, one at a time. */
module Reais {

  lemma NonNegativeProduct(x: real, y: real)
    requires x >= 0.0 && y >= 0.0
    ensures x * y >= 0.0
  {}

  lemma PositiveProduct(x: real, y: real)
    requires x > 0.0 && y > 0.0
    ensures x * y > 0.0
  {}

  lemma CancelFactor(x: real, y: real, g: real)
    requires g > 0.0
    ensures x * g < y * g ==> x < y
    ensures x * g <= y * g ==> x <= y
  {
    if x >= y {
      NonNegativeProduct(x - y, g);
    }
    if x > y {
      PositiveProduct(x - y, g);
    }
  }
}
