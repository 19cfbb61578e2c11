/** Repeated addition of one real amount, and its agreement with the product. */
module Sums {

  /** n copies of q added up. */
  function Times(n: nat, q: real): real {
    if n == 0 then 0.0 else Times(n - 1, q) + q
  }

  lemma {:induction false} TimesIsProduct(n: nat, q: real)
    ensures Times(n, q) == n as real * q
  {
    if n > 0 {
      TimesIsProduct(n - 1, q);
      AddOneTimes((n - 1) as real, q);
    }
  }

  lemma AddOneTimes(x: real, c: real)
    ensures (x + 1.0) * c == x * c + c
  {
  }
}
