/** Facts about products and Euclidean division that the index arithmetic of the model needs. */
module Arith {

  /** A non-zero multiple of `a` is at least `a` away from zero. */
  lemma MulAwayFromZero(a: int, d: int)
    requires a > 0
    ensures d >= 1 ==> a * d >= a
    ensures d <= -1 ==> a * d <= -a
  {
    if d >= 1 {
      assert a * d == a * (d - 1) + a;
    } else if d <= -1 {
      assert a * d == a * (d + 1) - a;
    }
  }

  /** Position `x` of row `y` of rows `n` long lies before row `h` when `y < h`. */
  lemma RowMajorBound(n: nat, y: nat, x: nat, h: nat)
    requires x < n && y < h
    ensures 0 <= n * y + x < n * h
  {
    assert n * h - n * y == n * (h - y);
    MulAwayFromZero(n, h - y);
  }

  /** Row `y` and column `x` are recovered from `n * y + x` by division and remainder. */
  lemma RowMajorDivMod(n: nat, y: nat, x: nat)
    requires x < n
    ensures (n * y + x) / n == y
    ensures (n * y + x) % n == x
  {
    var k := n * y + x;
    var q, r := k / n, k % n;
    assert k == n * q + r && 0 <= r < n;
    assert n * (y - q) == r - x;
    MulAwayFromZero(n, y - q);
  }

  /** Every `k` below `n * h` is the position of some row `k / n < h` and column `k % n < n`. */
  lemma RowMajorSplit(n: nat, h: nat, k: nat)
    requires k < n * h
    ensures n > 0
    ensures k == n * (k / n) + k % n
    ensures k / n < h && k % n < n
  {
    var q := k / n;
    assert k == n * q + k % n;
    assert n * q - n * h == n * (q - h);
    MulAwayFromZero(n, q - h + 1);
  }

  /** `n * y + x` is the same position for two pairs only when they are the same pair. */
  lemma RowMajorInjective(n: nat, y1: nat, x1: nat, y2: nat, x2: nat)
    requires x1 < n && x2 < n
    requires n * y1 + x1 == n * y2 + x2
    ensures y1 == y2 && x1 == x2
  {
    RowMajorDivMod(n, y1, x1);
    RowMajorDivMod(n, y2, x2);
  }
}
