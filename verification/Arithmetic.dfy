/** Quotients of non-negative integers, kept away from the lemmas that use them. */
module Arithmetic {

  lemma CancelFactor(x: int, y: int, b: int)
    requires b > 0 && x * b < y * b
    ensures x < y
  {
  }

  lemma QuotientBounds(a: int, b: int)
    requires b > 0 && a >= 0
    ensures (a / b) * b <= a < (a / b + 1) * b && a / b >= 0
  {
    var q := a / b;
    assert a == q * b + a % b;
    assert (q + 1) * b == q * b + b;
  }

  lemma QuotientUnique(a: int, b: int, q: int)
    requires b > 0 && a >= 0 && q * b <= a < q * b + b
    ensures a / b == q
  {
    QuotientBounds(a, b);
    assert (q + 1) * b == q * b + b;
    CancelFactor(q, a / b + 1, b);
    CancelFactor(a / b, q + 1, b);
  }

  lemma ProductNonNegative(a: int, b: int)
    requires a >= 0 && b >= 0
    ensures a * b >= 0
  {
  }

  lemma ProductGrows(a: int, b: int)
    requires a >= 0 && b >= 1
    ensures a * b >= a
  {
    ProductNonNegative(a, b - 1);
    assert a * b == a * (b - 1) + a;
  }

  lemma Distribute(a: int, b: int, c: int)
    ensures a * (b + c) == a * b + a * c
  {
  }

  lemma StepBack(k: int, b: int)
    ensures (k - 1) * b == k * b - b
  {
  }

  /** The rows of k full pages or batches. */
  function RowsOf(k: nat, b: nat): nat {
    if k == 0 then 0 else RowsOf(k - 1, b) + b
  }

  lemma {:induction false} RowsProduct(k: nat, b: nat)
    ensures RowsOf(k, b) == k * b
  {
    if k > 0 {
      StepBack(k, b);
      RowsProduct(k - 1, b);
    }
  }
}
