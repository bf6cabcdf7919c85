/** Powers of two, and division with a remainder for symbolic divisors. */
module Arithmetic {
  function Pow2(n: nat): (p: nat)
    ensures p > 0
  {
    if n == 0 then 1 else 2 * Pow2(n - 1)
  }

  lemma {:induction false} MulGap(n: nat, q: nat, q': nat)
    requires q < q'
    ensures n * q + n <= n * q'
    decreases q'
  {
    assert n * q' == n * (q' - 1) + n;
    if q < q' - 1 {
      MulGap(n, q, q' - 1);
    }
  }

  /** Quotient and remainder are unique. */
  lemma DivisionUnique(n: nat, q: nat, r: nat, q': nat, r': nat)
    requires n * q + r == n * q' + r' && r < n && r' < n
    ensures q == q' && r == r'
  {
    if q < q' {
      MulGap(n, q, q');
    } else if q' < q {
      MulGap(n, q', q);
    }
  }
}
