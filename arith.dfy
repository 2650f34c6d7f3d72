/** Integer remainder facts the slideshow and the code panel rely on: the
    remainder is characterised by the quotient-remainder equation alone. */
module Arith {
  /** A product of a non-zero integer and a positive `m` is at least `m`
      in size. */
  lemma {:induction false} MulAtLeast(k: int, m: int)
    requires m > 0
    ensures k >= 1 ==> k * m >= m
    ensures k <= -1 ==> k * m <= -m
    decreases if k < 0 then -k else k
  {
    if k > 1 {
      MulAtLeast(k - 1, m);
      assert k * m == (k - 1) * m + m;
    } else if k < -1 {
      MulAtLeast(k + 1, m);
      assert k * m == (k + 1) * m - m;
    }
  }

  /** The remainder is the unique `r` in [0, m) with `a == q * m + r`. */
  lemma ModUnique(a: int, q: int, r: int, m: int)
    requires m > 0 && 0 <= r < m && a == q * m + r
    ensures a % m == r
  {
    var q', r' := a / m, a % m;
    assert a == q' * m + r';
    assert (q - q') * m == r' - r;
    MulAtLeast(q - q', m);
  }

  /** `(a % m + b) % m == (a + b) % m`. */
  lemma ModAddLeft(a: nat, b: nat, m: nat)
    requires m > 0
    ensures (a % m + b) % m == (a + b) % m
  {
    var q := a / m;
    var s := a % m + b;
    assert a == q * m + a % m;
    ModUnique(s, s / m, s % m, m);
    ModUnique(a + b, q + s / m, s % m, m);
  }
}
