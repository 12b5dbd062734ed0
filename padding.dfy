/**
  Frame sizes are rounded up to a multiple of an alignment before inference:
  32 in `RIFE::process`, the configured `padding` in `RIFE::process_v4`.
 */
module Padding {

  import opened Arith

  /** The alignment `RIFE::process` uses for the legacy and v2-family models. */
  const LegacyAlignment: nat := 32

  /** `(n + a - 1) / a * a`: the least multiple of `a` that is not below `n`. */
  function PaddedSize(n: nat, a: nat): (r: nat)
    requires a > 0
    ensures r % a == 0
    ensures n <= r < n + a
  {
    var q := (n + a - 1) / a;
    DivisionBounds(n + a - 1, a);
    MultipleMod(q, a);
    q * a
  }

  lemma DivisionBounds(m: nat, a: nat)
    requires a > 0
    ensures m - a < m / a * a <= m
  {
    var q, r := m / a, m % a;
    assert m == a * q + r;
    assert 0 <= r < a;
  }

  lemma MultipleMod(q: nat, a: nat)
    requires a > 0
    ensures (q * a) % a == 0
  {
    var m := q * a;
    var q', r := m / a, m % a;
    assert m == a * q' + r && 0 <= r < a;
    var d := q - q';
    assert a * d == r;
    MulAwayFromZero(a, d);
  }

  /** No multiple of `a` at or above `n` is smaller than the padded size. */
  lemma {:induction false} PaddedSizeIsLeast(n: nat, a: nat, m: nat)
    requires a > 0
    requires m % a == 0 && n <= m
    ensures PaddedSize(n, a) <= m
  {
    var r := PaddedSize(n, a);
    var qr, qm := r / a, m / a;
    assert r == a * qr by { assert r == a * qr + r % a; }
    assert m == a * qm by { assert m == a * qm + m % a; }
    assert a * (qr - qm) < a;
    MulAwayFromZero(a, qr - qm);
  }

  /** Padding is idempotent: an aligned size is left as it is. */
  lemma {:induction false} PaddedSizeOfAligned(n: nat, a: nat)
    requires a > 0 && n % a == 0
    ensures PaddedSize(n, a) == n
  {
    var r := PaddedSize(n, a);
    PaddedSizeIsLeast(n, a, n);
    assert n <= r <= n;
  }

  /** Padded sizes keep the order of the sizes they pad. */
  lemma {:induction false} PaddedSizeMonotone(n: nat, m: nat, a: nat)
    requires a > 0 && n <= m
    ensures PaddedSize(n, a) <= PaddedSize(m, a)
  {
    PaddedSizeIsLeast(n, a, PaddedSize(m, a));
  }
}
