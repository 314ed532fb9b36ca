/** Polynomials over the field of two elements, as the finite sets of their exponents. */
module Gf2 {
  type Poly = set<nat>

  /** Coefficients add without carry. */
  function Sum(a: Poly, b: Poly): Poly { (a - b) + (b - a) }

  /** Times x^k. */
  function Shift(a: Poly, k: nat): Poly { set n | n in a :: n + k }

  /** Times the polynomial with these exponents. */
  function Times(a: Poly, g: seq<nat>): Poly {
    if g == [] then {} else Sum(Times(a, g[..|g| - 1]), Shift(a, g[|g| - 1]))
  }

  ghost predicate Multiple(p: Poly, g: seq<nat>) { exists q: Poly :: p == Times(q, g) }

  lemma InSum(a: Poly, b: Poly, n: nat)
    ensures n in Sum(a, b) <==> (n in a) != (n in b)
  {
  }

  lemma InShift(a: Poly, k: nat, n: nat)
    ensures n in Shift(a, k) <==> n >= k && n - k in a
  {
    if n >= k && n - k in a { assert (n - k) + k == n; }
  }

  lemma ShiftSum(a: Poly, b: Poly, k: nat)
    ensures Shift(Sum(a, b), k) == Sum(Shift(a, k), Shift(b, k))
  {
    hide Shift, Sum;
    forall n: nat ensures n in Shift(Sum(a, b), k) <==> n in Sum(Shift(a, k), Shift(b, k)) {
      InShift(Sum(a, b), k, n);
      InShift(a, k, n);
      InShift(b, k, n);
      InSum(Shift(a, k), Shift(b, k), n);
      if n >= k { InSum(a, b, n - k); }
    }
  }

  lemma ShiftShift(a: Poly, j: nat, k: nat)
    ensures Shift(Shift(a, j), k) == Shift(a, j + k)
  {
    hide Shift;
    forall n: nat ensures n in Shift(Shift(a, j), k) <==> n in Shift(a, j + k) {
      InShift(Shift(a, j), k, n);
      InShift(a, j + k, n);
      if n >= k { InShift(a, j, n - k); }
    }
  }

  lemma Swap(a: Poly, b: Poly, c: Poly, d: Poly)
    ensures Sum(Sum(a, b), Sum(c, d)) == Sum(Sum(a, c), Sum(b, d))
  {
    hide Sum;
    forall n: nat ensures n in Sum(Sum(a, b), Sum(c, d)) <==> n in Sum(Sum(a, c), Sum(b, d)) {
      InSum(Sum(a, b), Sum(c, d), n);
      InSum(a, b, n);
      InSum(c, d, n);
      InSum(Sum(a, c), Sum(b, d), n);
      InSum(a, c, n);
      InSum(b, d, n);
    }
  }

  lemma {:induction false} TimesSum(a: Poly, b: Poly, g: seq<nat>)
    ensures Times(Sum(a, b), g) == Sum(Times(a, g), Times(b, g))
  {
    hide Sum, Shift;
    if g == [] { NoSum(); } else {
      var before, k := g[..|g| - 1], g[|g| - 1];
      TimesSum(a, b, before);
      ShiftSum(a, b, k);
      Swap(Times(a, before), Times(b, before), Shift(a, k), Shift(b, k));
    }
  }

  lemma NoSum()
    ensures Sum({}, {}) == {} && forall k :: Shift({}, k) == {}
  {
  }

  lemma {:induction false} TimesShift(a: Poly, k: nat, g: seq<nat>)
    ensures Times(Shift(a, k), g) == Shift(Times(a, g), k)
  {
    hide Sum, Shift;
    if g == [] { NoSum(); } else {
      var before, j := g[..|g| - 1], g[|g| - 1];
      TimesShift(a, k, before);
      ShiftShift(a, k, j);
      ShiftShift(a, j, k);
      ShiftSum(Times(a, before), Shift(a, j), k);
    }
  }

  lemma MultipleSum(a: Poly, b: Poly, g: seq<nat>)
    requires Multiple(a, g) && Multiple(b, g)
    ensures Multiple(Sum(a, b), g)
  {
    hide Sum, Times;
    var p: Poly :| a == Times(p, g);
    var q: Poly :| b == Times(q, g);
    TimesSum(p, q, g);
  }

  lemma MultipleShift(a: Poly, k: nat, g: seq<nat>)
    requires Multiple(a, g)
    ensures Multiple(Shift(a, k), g)
  {
    hide Shift, Times;
    var p: Poly :| a == Times(p, g);
    TimesShift(p, k, g);
  }

  lemma {:induction false} TimesNone(g: seq<nat>)
    ensures Times({}, g) == {}
  {
    NoSum();
    if g != [] { TimesNone(g[..|g| - 1]); }
  }

  lemma MultipleNone(g: seq<nat>)
    ensures Multiple({}, g)
  {
    TimesNone(g);
  }

  ghost predicate Rising(g: seq<nat>) { forall i, j :: 0 <= i < j < |g| ==> g[i] < g[j] }

  /** The generator itself. */
  lemma {:induction false} TimesOne(g: seq<nat>)
    requires Rising(g)
    ensures Times({0}, g) == set n | n in g
  {
    if g != [] {
      var before, k := g[..|g| - 1], g[|g| - 1];
      TimesOne(before);
      assert g == before + [k];
      assert Shift({0}, k) == {k};
      assert k !in before;
    }
  }

  /** Equal but for a multiple. */
  ghost predicate Same(a: Poly, b: Poly, g: seq<nat>) { Multiple(Sum(a, b), g) }

  lemma SameSteps(a: Poly, b: Poly, c: Poly, g: seq<nat>)
    requires Same(a, b, g) && Same(b, c, g)
    ensures Same(a, c, g)
  {
    hide Times;
    MultipleSum(Sum(a, b), Sum(b, c), g);
    assert Sum(Sum(a, b), Sum(b, c)) == Sum(a, c);
  }

  lemma SameShift(a: Poly, b: Poly, k: nat, g: seq<nat>)
    requires Same(a, b, g)
    ensures Same(Shift(a, k), Shift(b, k), g)
  {
    hide Sum, Times, Shift;
    MultipleShift(Sum(a, b), k, g);
    ShiftSum(a, b, k);
  }

  /** One more byte b of a message m, its remainder p in a register of w bits becoming r. */
  lemma ByteStep(m: Poly, first: Poly, p: Poly, b: Poly, r: Poly, w: nat, g: seq<nat>)
    requires w >= 8 && Same(Sum(Shift(m, w), first), p, g) && Same(r, Shift(Sum(p, Shift(b, w - 8)), 8), g)
    ensures Same(Sum(Shift(Sum(Shift(m, 8), b), w), Shift(first, 8)), r, g)
  {
    hide Sum, Times, Shift, Multiple;
    var x, y := Sum(Sum(Shift(m, w), first), p), Sum(r, Shift(Sum(p, Shift(b, w - 8)), 8));
    MultipleShift(x, 8, g);
    MultipleSum(Shift(x, 8), y, g);
    forall n: nat ensures n in Sum(Shift(x, 8), y) <==> n in Sum(Sum(Shift(Sum(Shift(m, 8), b), w), Shift(first, 8)), r) {
      ByteStepAt(m, first, p, b, r, w, n);
    }
    assert Sum(Shift(x, 8), y) == Sum(Sum(Shift(Sum(Shift(m, 8), b), w), Shift(first, 8)), r);
  }

  lemma ByteStepAt(m: Poly, first: Poly, p: Poly, b: Poly, r: Poly, w: nat, n: nat)
    requires w >= 8
    ensures var x, y := Sum(Sum(Shift(m, w), first), p), Sum(r, Shift(Sum(p, Shift(b, w - 8)), 8));
      n in Sum(Shift(x, 8), y) <==> n in Sum(Sum(Shift(Sum(Shift(m, 8), b), w), Shift(first, 8)), r)
  {
    hide Sum, Shift;
    var x, y := Sum(Sum(Shift(m, w), first), p), Sum(r, Shift(Sum(p, Shift(b, w - 8)), 8));
    InSum(Shift(x, 8), y, n);
    InShift(x, 8, n);
    InSum(r, Shift(Sum(p, Shift(b, w - 8)), 8), n);
    InShift(Sum(p, Shift(b, w - 8)), 8, n);
    InSum(Sum(Shift(Sum(Shift(m, 8), b), w), Shift(first, 8)), r, n);
    InSum(Shift(Sum(Shift(m, 8), b), w), Shift(first, 8), n);
    InShift(Sum(Shift(m, 8), b), w, n);
    InShift(first, 8, n);
    if n >= 8 {
      InSum(Sum(Shift(m, w), first), p, n - 8);
      InSum(Shift(m, w), first, n - 8);
      InShift(m, w, n - 8);
      InSum(p, Shift(b, w - 8), n - 8);
      InShift(b, w - 8, n - 8);
    }
    if n >= w {
      InSum(Shift(m, 8), b, n - w);
      InShift(m, 8, n - w);
    }
  }

  /** Taking the generator x^w + r off once x^w has come up. */
  lemma TakenOff(d: Poly, r: Poly, w: nat)
    requires w !in d && w !in r
    ensures Sum(Sum(d, r), d + {w}) == r + {w} && Sum(d, d) == {}
  {
  }

  ghost predicate Under(p: Poly, w: nat) { forall n :: n in p ==> n < w }

  lemma {:induction false} Largest(q: Poly) returns (m: nat)
    requires q != {}
    ensures m in q && forall n :: n in q ==> n <= m
  {
    var x :| x in q;
    m := x;
    if q != {x} {
      assert forall n :: n in q ==> n == x || n in q - {x};
      var k := Largest(q - {x});
      if k > x { m := k; }
    }
  }

  lemma {:induction false} TimesUnder(q: Poly, g: seq<nat>, m: nat, k: nat)
    requires (forall n :: n in q ==> n <= m) && forall i :: 0 <= i < |g| ==> g[i] < k
    ensures Under(Times(q, g), m + k)
  {
    if g != [] {
      TimesUnder(q, g[..|g| - 1], m, k);
    }
  }

  /** No multiple of a generator of degree w but nothing has a smaller degree: remainders are unique. */
  lemma RemainderUnique(a: Poly, b: Poly, c: Poly, g: seq<nat>, w: nat)
    requires Rising(g) && g != [] && g[|g| - 1] == w && Same(a, b, g) && Same(a, c, g) && Under(b, w) && Under(c, w)
    ensures b == c
  {
    MultipleSum(Sum(a, b), Sum(a, c), g);
    assert Sum(Sum(a, b), Sum(a, c)) == Sum(b, c);
    var q: Poly :| Sum(b, c) == Times(q, g);
    if q != {} {
      var m := Largest(q);
      TopOfTimes(q, g, w, m);
    } else {
      TimesNone(g);
    }
  }

  lemma TopOfTimes(q: Poly, g: seq<nat>, w: nat, m: nat)
    requires Rising(g) && g != [] && g[|g| - 1] == w && m in q && forall n :: n in q ==> n <= m
    ensures m + w in Times(q, g)
  {
    TimesUnder(q, g[..|g| - 1], m, w);
    InShift(q, w, m + w);
  }

  lemma SameSelf(p: Poly, g: seq<nat>)
    ensures Same(p, Shift(p, 0), g)
  {
    MultipleNone(g);
    assert Sum(p, Shift(p, 0)) == {};
  }
}
