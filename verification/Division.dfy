/** Quotient and remainder are unique. */
module Division {
  lemma QuotientRemainder(x: int, m: nat, q: int, r: nat)
    requires r < m && x == m * q + r
    ensures x / m == q && x % m == r
  {
    var d := x / m - q;
    assert m * d == r - x % m by {
      assert m * (x / m) + x % m == x;
      assert m * (x / m) - m * q == m * d;
    }
    MultipleIsSmall(m, d);
  }

  lemma MultipleIsSmall(m: int, d: int)
    requires -m < m * d < m
    ensures d == 0
  {
  }
}
