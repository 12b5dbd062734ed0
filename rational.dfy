/** The frame-rate and duration rationals of the host, as numerator/denominator pairs. */
module Rational {

  datatype Ratio = Ratio(num: int, den: int)

  /**
    `vsh::muldivRational(&num, &den, mul, div)`: the rational `num/den`
    scaled by `mul/div`. The header defining it is not part of this model;
    the pair returned is the unreduced product, and only the value of the
    rational (not its lowest terms) is stated.
   */
  function MulDiv(q: Ratio, mul: int, div: int): (r: Ratio)
    requires div != 0
    ensures q.den != 0 ==> r.den != 0
    ensures r.num * q.den * div == q.num * mul * r.den
  {
    Ratio(q.num * mul, q.den * div)
  }

  /** Scaling by 1/2 halves the value of a rational with a nonzero denominator. */
  lemma HalvedValue(q: Ratio)
    requires q.den != 0
    ensures MulDiv(q, 1, 2).den != 0
    ensures 2 * MulDiv(q, 1, 2).num * q.den == q.num * MulDiv(q, 1, 2).den
  {
    var r := MulDiv(q, 1, 2);
    assert r.num * q.den * 2 == q.num * 1 * r.den;
  }

  /** Scaling by 2/1 doubles the value of a rational with a nonzero denominator. */
  lemma DoubledValue(q: Ratio)
    requires q.den != 0
    ensures MulDiv(q, 2, 1).den != 0
    ensures MulDiv(q, 2, 1).num * q.den == 2 * q.num * MulDiv(q, 2, 1).den
  {
    var r := MulDiv(q, 2, 1);
    assert r.num * q.den * 1 == q.num * 2 * r.den;
  }
}
