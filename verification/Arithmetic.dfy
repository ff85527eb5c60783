/** Products, quotients and remainders in the few forms the other modules need. */
module Arithmetic {

  lemma MulLe(a: nat, b: nat, n: nat)
    requires a <= b
    ensures a * n <= b * n
  {
    assert b * n == a * n + (b - a) * n;
  }

  lemma DivExact(length: nat, parts: nat)
    requires parts > 0 && length % parts == 0
    ensures parts * (length / parts) == length
  {}

  lemma MulSucc(i: nat, n: nat)
    ensures (i + 1) * n == i * n + n
  {}

  lemma MulAssoc(a: nat, b: nat, c: nat)
    ensures a * (b * c) == (a * b) * c
  {}

  lemma MulDistribute(a: nat, b: nat, n: nat)
    ensures (a + b) * n == a * n + b * n
  {}

  /** Quotient and remainder are determined by `x == q * n + r` with `r < n`. */
  lemma DivModUnique(x: nat, q: nat, r: nat, n: nat)
    requires n > 0 && x == q * n + r && r < n
    ensures x / n == q && x % n == r
  {
    var q', r' := x / n, x % n;
    assert x == q' * n + r';
    if q' < q {
      MulLe(q' + 1, q, n);
      MulSucc(q', n);
    } else if q < q' {
      MulLe(q + 1, q', n);
      MulSucc(q, n);
    }
  }

  /** `x % n` for the index sums of the ring, which wrap at most twice (`WrapIsMod`). */
  function Wrap(x: nat, n: nat): (r: nat)
    requires 0 < n && x < 3 * n
    ensures r < n
  {
    if x < n then x else if x < 2 * n then x - n else x - 2 * n
  }

  /** `x % n`, named so that proofs about loops need not reason about remainders. */
  function Mod(x: nat, n: nat): (r: nat)
    requires 0 < n
    ensures r < n
  {
    x % n
  }

  lemma WrapIsMod(x: nat, n: nat)
    requires 0 < n && x < 3 * n
    ensures Wrap(x, n) == Mod(x, n)
  {
    if x < n {
      DivModUnique(x, 0, x, n);
    } else if x < 2 * n {
      DivModUnique(x, 1, x - n, n);
    } else {
      DivModUnique(x, 2, x - 2 * n, n);
    }
  }
}
