/** Small facts of integer arithmetic shared by the models. */
module Arithmetic {

  /** Multiplying both sides of an inequality by a non-negative factor. */
  lemma MulLeRight(a: int, b: int, c: int)
    requires a <= b && 0 <= c
    ensures a * c <= b * c
  {
    assert b * c - a * c == (b - a) * c;
  }

  /** A strictly smaller factor is smaller by at least one multiple of `c`. */
  lemma MulLtStep(a: int, b: int, c: int)
    requires a < b && 0 <= c
    ensures a * c + c <= b * c
  {
    MulLeRight(a + 1, b, c);
    assert (a + 1) * c == a * c + c;
  }

  /** One factor less takes one multiple away. */
  lemma MulPred(k: int, t: int)
    ensures k * t == (k - 1) * t + t
  {
  }

  /** Adding `t` once more to `base + k * t` gives `base + (k + 1) * t`. */
  lemma RepeatStep(base: int, prev: int, t: int, k: int)
    requires prev == base + k * t
    ensures prev + t == base + (k + 1) * t
  {
    MulPred(k + 1, t);
  }

  /** Scaling a running sum and its next term. */
  lemma ScaleStep(acc: int, x: int, y: int, scale: int)
    ensures (acc + x * y) * scale == acc * scale + x * y * scale
  {
  }
}
