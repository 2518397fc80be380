/** Facts about real multiplication that the solver does not find unaided. */
module Arith {

  lemma MulNonneg(x: real, y: real)
    requires x >= 0.0 && y >= 0.0
    ensures x * y >= 0.0
  {
  }

  lemma MulMono(x: real, y: real, c: real)
    requires x <= y && c >= 0.0
    ensures x * c <= y * c
  {
    MulNonneg(y - x, c);
  }

  lemma MulStrict(x: real, y: real, c: real)
    requires x < y && c > 0.0
    ensures x * c < y * c
  {
  }

  lemma MulPos(x: real, y: real)
    requires x > 0.0 && y > 0.0
    ensures x * y > 0.0
  {
    MulStrict(0.0, x, y);
  }

  /** Scaling d by a factor in [0, 1] stays between 0 and d. */
  lemma ScaleWithinUnit(d: real, u: real)
    requires 0.0 <= u <= 1.0
    ensures d >= 0.0 ==> 0.0 <= d * u <= d
    ensures d < 0.0 ==> d <= d * u <= 0.0
  {
    if d >= 0.0 {
      MulNonneg(d, u);
      MulNonneg(d, 1.0 - u);
    } else {
      MulNonneg(-d, u);
      MulNonneg(-d, 1.0 - u);
    }
  }

}
