/** Division and remainder by a variable modulus, in steps small enough for the solver. */
module Modular {

  lemma MulAtLeast(a: int, n: int)
    requires n >= 1
    ensures a >= 1 ==> a * n >= n
    ensures a <= -1 ==> a * n <= -n
  {
  }

  lemma Distribute(a: int, b: int, n: int)
    ensures (a + b) * n == a * n + b * n
  {
  }

  lemma DivMod(x: int, n: int)
    requires n >= 1
    ensures x == (x / n) * n + x % n && 0 <= x % n < n
  {
  }

  /** A quotient and a remainder below `n` are the quotient and the remainder. */
  lemma EuclidUnique(x: int, n: int, q: int, r: int)
    requires n >= 1 && x == q * n + r && 0 <= r < n
    ensures x / n == q && x % n == r
  {
    DivMod(x, n);
    Distribute(x / n, -q, n);
    Distribute(q, -q, n);
    MulAtLeast(x / n - q, n);
  }

  lemma ModShift(x: int, k: int, n: int)
    requires n >= 1
    ensures (x + k * n) % n == x % n
  {
    DivMod(x, n);
    Distribute(x / n, k, n);
    EuclidUnique(x + k * n, n, x / n + k, x % n);
  }

  lemma ModZero(x: int, n: int)
    requires n >= 1 && x % n == 0
    ensures x == (x / n) * n
  {
  }
}
