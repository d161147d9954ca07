/** Facts about products and division that the index arithmetic needs. */
module Arithmetic {

  lemma AtLeast(d: int, n: nat)
    requires d >= 1
    ensures d * n >= n
  {}

  /** Quotient and remainder are unique. */
  lemma DivMod(x: int, n: nat, q: int, r: int)
    requires 0 <= r < n && x == q * n + r
    ensures x / n == q && x % n == r
  {
    var p, t := x / n, x % n;
    var d := p - q;
    assert d * n == r - t;
    assert (-d) * n == t - r;
    if d >= 1 {
      AtLeast(d, n);
    } else if d <= -1 {
      AtLeast(-d, n);
    }
  }
}
