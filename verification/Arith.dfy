/** Facts about products and floors that the solver needs spelled out. */
module Arith {
  import opened Chain

  /** The floor of `n / d` is the one integer `q` with `q*d <= n < (q + 1)*d`. */
  lemma QuotIsFloor(n: int, d: int)
    requires n >= 0 && d > 0
    ensures Quot(n, d) >= 0
    ensures Quot(n, d) * d <= n < (Quot(n, d) + 1) * d
  {
    assert n == (n / d) * d + n % d;
  }

  /** A floor is at least every integer whose multiple fits. */
  lemma FloorIsGreatest(q: int, n: int, d: int)
    requires n >= 0 && d > 0 && q * d <= n
    ensures q <= Quot(n, d)
  {
    QuotIsFloor(n, d);
    if q > Quot(n, d) {
      MulMono(Quot(n, d) + 1, q, d);
    }
  }

  lemma FloorIsUnique(q: int, n: int, d: int)
    requires n >= 0 && d > 0 && q * d <= n < (q + 1) * d
    ensures q == Quot(n, d)
  {
    QuotIsFloor(n, d);
    FloorIsGreatest(q, n, d);
    if q < Quot(n, d) {
      MulMono(q + 1, Quot(n, d), d);
    }
  }

  lemma MulMono(a: int, b: int, c: int)
    requires a <= b && 0 <= c
    ensures a * c <= b * c
  {
    MulNonNeg(b - a, c);
    assert (b - a) * c == b * c - a * c;
  }

  lemma MulNonNeg(a: int, b: int)
    requires a >= 0 && b >= 0
    ensures a * b >= 0
  {
  }

  /** A positive factor can be cancelled. */
  lemma CancelFactor(a: int, b: int, c: int)
    requires c > 0 && a * c <= b * c
    ensures a <= b
  {
    if a > b {
      MulMono(b + 1, a, c);
    }
  }
}
