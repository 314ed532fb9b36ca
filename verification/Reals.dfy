/** Real-number helpers: the non-negative square root as a parameter, and ordering of products. */
module Reals {
  /** sqrtf, exactly. */
  ghost predicate IsSqrt(sqrt: real -> real) {
    forall x: real {:trigger sqrt(x)} :: x >= 0.0 ==> sqrt(x) >= 0.0 && sqrt(x) * sqrt(x) == x
  }

  function Abs(x: real): (r: real)
    ensures r >= 0.0 && (r == x || r == -x)
  {
    if x >= 0.0 then x else -x
  }

  function Max(x: real, y: real): real { if x > y then x else y }

  lemma MulMono(a: real, b: real, c: real)
    requires a <= b && c >= 0.0
    ensures a * c <= b * c && c * a <= c * b
  {
  }

  lemma MulSign(a: real, b: real)
    requires a >= 0.0 && b >= 0.0
    ensures a * b >= 0.0
  {
  }

  /** Products p and q of c. */
  lemma ProductsOrdered(a: real, b: real, c: real, p: real, q: real)
    requires c >= 0.0 && p == a * c && q == b * c
    ensures a <= b ==> p <= q
    ensures a < b && c > 0.0 ==> p < q
  {
    ProductGap(b - a, a, b, c, p, q);
  }

  lemma ProductGap(d: real, a: real, b: real, c: real, p: real, q: real)
    requires c >= 0.0 && p == a * c && q == b * c && d == b - a
    ensures (d >= 0.0 ==> p <= q) && (d > 0.0 && c > 0.0 ==> p < q)
  {
    assert d * c == q - p;
    if d >= 0.0 { MulSign(d, c); }
    if d > 0.0 && c > 0.0 { MulPos(d, c); }
  }

  lemma MulPos(a: real, b: real)
    requires a > 0.0 && b > 0.0
    ensures a * b > 0.0
  {
  }

  lemma DivMono(a: real, b: real, c: real)
    requires a <= b && c > 0.0
    ensures a / c <= b / c
  {
  }

  lemma SquareOrder(x: real, y: real)
    requires x >= 0.0 && y >= 0.0 && x * x <= y * y
    ensures x <= y
  {
    assert (x - y) * (x + y) == x * x - y * y;
    if x > y { MulPos(x - y, x + y); }
  }

  lemma MulBound(a: real, b: real, m: real)
    requires 0.0 <= a <= m && 0.0 <= b <= m
    ensures 0.0 <= a * b <= m * m
  {
    MulSign(a, b);
    MulMono(a, m, b);
    MulMono(b, m, m);
  }

  /** rise <= den * d, divided by den. */
  lemma QuotientRange(rise: real, d: real, den: real)
    requires den > 0.0 && 0.0 <= rise <= den * d
    ensures 0.0 <= rise / den <= d
  {
    var q := rise / den;
    assert q * den == rise;
    assert (q - d) * den == rise - den * d;
    if q > d { MulPos(q - d, den); }
  }

  lemma DivDifference(a: real, b: real, den: real)
    requires den > 0.0
    ensures a / den - b / den == (a - b) / den
  {
  }

  lemma Cancel(k: real, x: real, y: real)
    requires k > 0.0 && y > 0.0
    ensures k * y > 0.0 && (k * x) / (k * y) == x / y
  {
    MulPos(k, y);
    var q, p := x / y, k * y;
    assert q * y == x;
    assert q * p == k * (q * y);
    assert (q * p) / p == q;
  }

  lemma SqrtMono(sqrt: real -> real, x: real, y: real)
    requires IsSqrt(sqrt) && 0.0 <= x <= y
    ensures 0.0 <= sqrt(x) <= sqrt(y)
  {
    SquareOrder(sqrt(x), sqrt(y));
  }

  lemma DivTimes(x: real, t: real)
    requires t > 0.0
    ensures (x / t) * t == x
  {
  }

  /** x and y as shares of t. */
  lemma Ratio(x: real, y: real, t: real)
    requires 0.0 <= x <= y <= t && t > 0.0
    ensures 0.0 <= x / t <= y / t <= 1.0
    ensures (x / t) * t == x && 0.0 / t == 0.0 && t / t == 1.0
    ensures t * (y / t - x / t) == y - x
  {
    DivTimes(x, t);
    DivTimes(y, t);
    DivTimes(t, t);
    var a, b, c := x / t, y / t, t / t;
    assert a * t == x && b * t == y && c * t == t;
    assert (c - 1.0) * t == 0.0;
    DivMono(x, y, t);
    DivMono(y, t, t);
    DivMono(0.0, x, t);
  }

  lemma SqrtIs(sqrt: real -> real, x: real, r: real)
    requires IsSqrt(sqrt) && r >= 0.0 && r * r == x
    ensures sqrt(x) == r
  {
    SquareOrder(sqrt(x), r);
    SquareOrder(r, sqrt(x));
  }
}
