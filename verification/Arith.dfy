/** Products and quotients of variables, in the small steps the proofs need. */
module Arith {
  function Min(a: nat, b: nat): nat { if a < b then a else b }

  function Pow2(n: nat): (p: nat)
    ensures p > 0
  {
    if n == 0 then 1 else 2 * Pow2(n - 1)
  }

  lemma MulMono(a: int, b: int, c: int)
    requires a <= b && c >= 0
    ensures a * c <= b * c
  {
  }

  lemma Bounds(a: int, n: int)
    requires n > 0
    ensures (a / n) * n <= a < (a / n + 1) * n && a == (a / n) * n + a % n && 0 <= a % n < n
  {
  }

  lemma DivIs(a: int, n: int, q: int)
    requires n > 0 && q * n <= a < (q + 1) * n
    ensures a / n == q
  {
    var k := a / n;
    Bounds(a, n);
    if k < q {
      MulMono(k + 1, q, n);
    } else if q < k {
      MulMono(q + 1, k, n);
    }
  }

  lemma ModIs(a: int, n: int, q: int, r: int)
    requires n > 0 && 0 <= r < n && a == q * n + r
    ensures a % n == r
  {
    DivIs(a, n, q);
    Bounds(a, n);
  }
}
