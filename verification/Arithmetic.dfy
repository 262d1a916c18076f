/** Facts about products, quotients and remainders by a number that is not fixed. */
module Arithmetic {
  lemma MulLe(k: nat, x: int, y: int)
    requires x <= y
    ensures k * x <= k * y
  {}

  lemma MulAtLeast(n: int, d: int)
    requires n >= 1 && d >= 0
    ensures n * d >= d
  {}

  lemma DivMod(x: int, d: int)
    requires d > 0
    ensures x == x / d * d + x % d && 0 <= x % d < d
  {}

  lemma DivUnique(q: int, r: int, q': int, r': int, d: int)
    requires 0 <= r < d && 0 <= r' < d && q * d + r == q' * d + r'
    ensures q == q' && r == r'
  {
    assert (q - q') * d == r' - r;
    if q > q' {
      MulAtLeast(q - q', d);
    } else if q < q' {
      MulAtLeast(q' - q, d);
    }
  }

  lemma ModUnique(x: int, d: int, q: int, r: int)
    requires d > 0 && x == q * d + r && 0 <= r < d
    ensures x % d == r && x / d == q
  {
    DivUnique(x / d, x % d, q, r, d);
  }

  /** The quotient is the greatest k with k * d <= x. */
  lemma DivGreatest(k: int, x: int, d: int)
    requires d > 0
    ensures k * d <= x <==> k <= x / d
  {
    DivMod(x, d);
    var q := x / d;
    if k <= q {
      assert (q - k) * d >= 0 by { MulLe(d, 0, q - k); }
      assert q * d == (q - k) * d + k * d;
    } else {
      MulAtLeast(k - q, d);
      assert k * d == (k - q) * d + q * d;
    }
  }

  /** A quotient of natural numbers, as the unsigned division of the machine. */
  function Div(n: nat, d: nat): (q: nat)
    requires d > 0
    ensures q * d <= n < q * d + d
  {
    DivMod(n, d);
    DivGreatest(0, n, d);
    n / d
  }

  lemma DivLe(x: int, y: int, d: int)
    requires d > 0 && x <= y
    ensures x / d <= y / d
  {
    DivMod(x, d);
    DivGreatest(x / d, y, d);
  }

  /** Two multiples of d that are less than d apart are equal. */
  lemma MultiplesApart(x: int, y: int, d: int)
    requires d > 0 && x % d == 0 && y % d == 0 && -d < x - y < d
    ensures x == y
  {
    DivMod(x, d);
    DivMod(y, d);
    assert (x / d - y / d) * d == x - y;
    if x / d > y / d {
      MulAtLeast(x / d - y / d, d);
    } else if x / d < y / d {
      MulAtLeast(y / d - x / d, d);
    }
  }
}
