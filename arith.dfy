/** Facts about integer division that the solver does not find unaided. */
module Arith {

  lemma MulLeftMonotone(x: int, y: int, m: nat)
    requires x <= y
    ensures x * m <= y * m
  {
    assert y * m - x * m == (y - x) * m;
  }

  /** A product of positive factors is at least either factor. */
  lemma MulAtLeast(k: nat, n: nat)
    requires k >= 1 && n >= 1
    ensures k * n >= k && k * n >= n
  {
    MulLeftMonotone(1, n, k);
    MulLeftMonotone(1, k, n);
  }

  /** Quotient and remainder are the only pair that recompose n. */
  lemma DivModUnique(n: int, m: int, q: int, r: int)
    requires m > 0 && 0 <= r < m && n == q * m + r
    ensures n / m == q && n % m == r
  {
    var q0, r0 := n / m, n % m;
    assert n == q0 * m + r0;
    if q > q0 {
      MulLeftMonotone(q0 + 1, q, m);
    } else if q < q0 {
      MulLeftMonotone(q + 1, q0, m);
    }
  }

  /**
   * Dividing by t and then by a is dividing by t * a, and the three digits
   * (n / t) / a, (n / t) % a, n % t recompose n.
   */
  lemma DivDiv(n: nat, t: int, a: int)
    requires t >= 1 && a >= 1
    ensures n / (t * a) == (n / t) / a
    ensures ((n / t) / a * a + (n / t) % a) * t + n % t == n
  {
    var q, c := n / t, n % t;
    var x, b := q / a, q % a;
    DivDivStep(n, t, a, q, c, x, b);
    DivModUnique(n, t * a, x, b * t + c);
  }

  /** n = q * t + c with q = x * a + b regroups as x * (t * a) plus a remainder below t * a. */
  lemma DivDivStep(n: int, t: int, a: int, q: int, c: int, x: int, b: int)
    requires t >= 1 && a >= 1 && n == q * t + c && 0 <= c < t && q == x * a + b && 0 <= b < a
    ensures n == x * (t * a) + (b * t + c) && 0 <= b * t + c < t * a
  {
    assert q * t == (x * a + b) * t == x * (t * a) + b * t;
    MulLeftMonotone(b, a - 1, t);
    assert (a - 1) * t == t * a - t;
  }

  lemma MulCancel(k: int, x: int, y: int)
    requires k >= 1 && k * x == k * y
    ensures x == y
  {
  }
}
