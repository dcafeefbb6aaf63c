/** Facts about multiplication and remainders that the schedule and buffer proofs share. */
module Arith {

  /** A positive multiple of `p` is at least `p`. */
  lemma {:induction false} MulAtLeast(k: int, p: int)
    requires k >= 1 && p > 0
    ensures k * p >= p
    decreases k
  {
    if k > 1 {
      MulAtLeast(k - 1, p);
      assert k * p == (k - 1) * p + p;
    }
  }

  /** Multiplying by a natural number keeps `<=`. */
  lemma MulLe(a: nat, b: nat, w: nat)
    requires a <= b
    ensures a * w <= b * w
  {
    assert b * w == a * w + (b - a) * w;
  }

  /** The remainder is the `r` of any `a == q * p + r` with `0 <= r < p`. */
  lemma ModUnique(a: int, q: int, p: int, r: int)
    requires p > 0 && 0 <= r < p && a == q * p + r
    ensures a % p == r
  {
    var q0 := a / p;
    var r0 := a % p;
    assert a == q0 * p + r0;
    if q0 > q {
      assert (q0 - q) * p == q0 * p - q * p;
      MulAtLeast(q0 - q, p);
    } else if q0 < q {
      assert (q - q0) * p == q * p - q0 * p;
      MulAtLeast(q - q0, p);
    }
  }
}
