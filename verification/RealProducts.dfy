/** Products of reals are monotone in each factor. */
module RealProducts {

  lemma ScaleReal(x: real, y: real, d: real)
    requires x <= y && d >= 0.0
    ensures x * d <= y * d && d * x <= d * y
  {
  }

  lemma ScaleRealStrict(x: real, y: real, d: real)
    requires x < y && d > 0.0
    ensures x * d < y * d && d * x < d * y
  {
  }
}
