/** Facts about integer multiplication and remainder that the solver does not find by itself. */
module Arithmetic {
  lemma MulMonotone(k: nat, x: int, y: int)
    requires x <= y
    ensures k * x <= k * y
  {
    assert k * y - k * x == k * (y - x);
  }

  /** The remainder is the `m` of any decomposition `a == len * q + m` with `0 <= m < len`. */
  lemma ModUnique(a: int, len: nat, q: int, m: int)
    requires len > 0 && a == len * q + m && 0 <= m < len
    ensures a % len == m
  {
    var q', m' := a / len, a % len;
    assert len * q' + m' == len * q + m;
    if q' < q {
      MulMonotone(len, q', q - 1);
      assert false;
    } else if q' > q {
      MulMonotone(len, q + 1, q');
      assert false;
    }
  }
}
