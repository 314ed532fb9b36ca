/**
 Finite-dimensional real linear algebra for the two Kalman filters: dot products summed in index
 order, matrices as sequences of rows, semidefiniteness as a statement about every vector.
 */
module LinAlg {
  type Vec = seq<real>
  type Mat = seq<Vec>

  ghost predicate IsSquare(P: Mat, n: nat) {
    |P| == n && forall i :: 0 <= i < n ==> |P[i]| == n
  }

  lemma MatEqual(A: Mat, B: Mat, n: nat)
    requires IsSquare(A, n) && IsSquare(B, n)
    requires forall i, j {:trigger A[i][j]} :: 0 <= i < n && 0 <= j < n ==> A[i][j] == B[i][j]
    ensures A == B
  {
    forall i | 0 <= i < n ensures A[i] == B[i] {
      assert forall j :: 0 <= j < n ==> A[i][j] == B[i][j];
    }
  }

  ghost predicate Symmetric(P: Mat, n: nat)
    requires IsSquare(P, n)
  {
    forall i, j :: 0 <= i < n && 0 <= j < n ==> P[i][j] == P[j][i]
  }

  /** The first n products of u and v, summed. */
  function DotN(u: Vec, v: Vec, n: nat): real
    requires n <= |u| && n <= |v|
  {
    if n == 0 then 0.0 else DotN(u, v, n - 1) + u[n - 1] * v[n - 1]
  }

  function MulVec(P: Mat, v: Vec, n: nat): (w: Vec)
    requires |v| == n && forall i :: 0 <= i < |P| ==> |P[i]| == n
    ensures |w| == |P| && forall i :: 0 <= i < |P| ==> w[i] == DotN(P[i], v, n)
  {
    seq(|P|, i requires 0 <= i < |P| => DotN(P[i], v, n))
  }

  /** u' P v. */
  function Bil(P: Mat, u: Vec, v: Vec, n: nat): real
    requires |u| == n && |v| == n && |P| == n && forall i :: 0 <= i < |P| ==> |P[i]| == n
  {
    DotN(u, MulVec(P, v, n), n)
  }

  ghost predicate Psd(P: Mat, n: nat)
    requires IsSquare(P, n)
  {
    forall v: Vec {:trigger Bil(P, v, v, n)} :: |v| == n ==> Bil(P, v, v, n) >= 0.0
  }

  /** A covariance: symmetric and positive semidefinite. */
  ghost predicate Covariance(P: Mat, n: nat) {
    IsSquare(P, n) && Symmetric(P, n) && Psd(P, n)
  }

  // ---------- sums ----------

  lemma DotEmpty(u: Vec, v: Vec)
    ensures DotN(u, v, 0) == 0.0
  {
  }

  lemma DotStep(u: Vec, v: Vec, n: nat)
    requires 0 < n <= |u| && n <= |v|
    ensures DotN(u, v, n) == DotN(u, v, n - 1) + u[n - 1] * v[n - 1]
  {
  }

  lemma {:induction false} DotCommutes(u: Vec, v: Vec, n: nat)
    requires n <= |u| && n <= |v|
    ensures DotN(u, v, n) == DotN(v, u, n)
  {
    if n > 0 { DotCommutes(u, v, n - 1); }
  }

  lemma {:induction false} DotEqual(u: Vec, v: Vec, w: Vec, n: nat)
    requires n <= |u| && n <= |v| && n <= |w|
    requires forall k :: 0 <= k < n ==> u[k] == w[k]
    ensures DotN(u, v, n) == DotN(w, v, n)
  {
    if n > 0 { DotEqual(u, v, w, n - 1); }
  }

  /** Linearity in the first argument, one scaled summand at a time. */
  lemma {:induction false} DotLinear(w: Vec, a: Vec, c: real, b: Vec, v: Vec, n: nat)
    requires n <= |w| && n <= |a| && n <= |b| && n <= |v|
    requires forall k {:trigger w[k]} :: 0 <= k < n ==> w[k] == a[k] + c * b[k]
    ensures DotN(w, v, n) == DotN(a, v, n) + c * DotN(b, v, n)
  {
    if n > 0 {
      DotLinear(w, a, c, b, v, n - 1);
      var x, y, z, s := a[n - 1], b[n - 1], v[n - 1], DotN(b, v, n - 1);
      assert (x + c * y) * z == x * z + c * (y * z);
      assert c * (s + y * z) == c * s + c * (y * z);
    }
  }

  // ---------- rows combined: u' P as a vector ----------

  /** Sum of u[i] * (row i of P) over the first m rows. */
  function RowComb(u: Vec, P: Mat, m: nat, n: nat): (w: Vec)
    requires m <= |u| && m <= |P| && forall i :: 0 <= i < |P| ==> |P[i]| == n
    ensures |w| == n
  {
    if m == 0 then seq(n, _ => 0.0)
    else
      var r := RowComb(u, P, m - 1, n);
      seq(n, j requires 0 <= j < n => r[j] + u[m - 1] * P[m - 1][j])
  }

  lemma {:induction false} DotZero(z: Vec, v: Vec, n: nat)
    requires n <= |z| && n <= |v| && forall k :: 0 <= k < n ==> z[k] == 0.0
    ensures DotN(z, v, n) == 0.0
  {
    if n > 0 { DotZero(z, v, n - 1); }
  }

  /** u . (P v) == (u' P) . v, the identity every covariance argument below turns on. */
  lemma {:induction false} DotMulVec(u: Vec, P: Mat, v: Vec, m: nat, n: nat)
    requires m <= |u| && m <= |P| && |v| == n && forall i :: 0 <= i < |P| ==> |P[i]| == n
    ensures DotN(u, MulVec(P, v, n), m) == DotN(RowComb(u, P, m, n), v, n)
  {
    hide DotN;
    if m == 0 {
      DotZero(RowComb(u, P, 0, n), v, n);
      DotEmpty(u, MulVec(P, v, n));
    } else {
      DotMulVec(u, P, v, m - 1, n);
      DotStep(u, MulVec(P, v, n), m);
      DotLinear(RowComb(u, P, m, n), RowComb(u, P, m - 1, n), u[m - 1], P[m - 1], v, n);
    }
  }

  function Column(P: Mat, j: nat, n: nat): (c: Vec)
    requires j < n && forall i :: 0 <= i < |P| ==> |P[i]| == n
    ensures |c| == |P| && forall i :: 0 <= i < |P| ==> c[i] == P[i][j]
  {
    seq(|P|, i requires 0 <= i < |P| => P[i][j])
  }

  lemma {:induction false} RowCombAt(u: Vec, P: Mat, m: nat, n: nat, j: nat)
    requires m <= |u| && m <= |P| && j < n && forall i :: 0 <= i < |P| ==> |P[i]| == n
    ensures RowComb(u, P, m, n)[j] == DotN(u, Column(P, j, n), m)
  {
    if m > 0 { RowCombAt(u, P, m - 1, n, j); }
  }

  /** u' P == P u for a symmetric P. */
  lemma RowCombSymmetric(u: Vec, P: Mat, n: nat)
    requires |u| == n && IsSquare(P, n) && Symmetric(P, n)
    ensures RowComb(u, P, n, n) == MulVec(P, u, n)
  {
    forall j | 0 <= j < n ensures RowComb(u, P, n, n)[j] == MulVec(P, u, n)[j] {
      RowCombAt(u, P, n, n, j);
      DotCommutes(u, Column(P, j, n), n);
      DotEqual(Column(P, j, n), u, P[j], n);
    }
  }

  lemma BilSymmetric(P: Mat, u: Vec, v: Vec, n: nat)
    requires |u| == n && |v| == n && IsSquare(P, n) && Symmetric(P, n)
    ensures Bil(P, u, v, n) == Bil(P, v, u, n)
  {
    DotMulVec(u, P, v, n, n);
    RowCombSymmetric(u, P, n);
    DotCommutes(MulVec(P, u, n), v, n);
  }

  /** x' P x of x = u + t v, as a quadratic in t. */
  lemma BilQuadratic(P: Mat, u: Vec, v: Vec, t: real, x: Vec, n: nat)
    requires |u| == n && |v| == n && |x| == n && IsSquare(P, n) && Symmetric(P, n)
    requires forall k :: 0 <= k < n ==> x[k] == u[k] + t * v[k]
    ensures Bil(P, x, x, n) == Bil(P, u, u, n) + 2.0 * t * Bil(P, u, v, n) + t * t * Bil(P, v, v, n)
  {
    hide DotN;
    var px := MulVec(P, x, n);
    DotLinear(x, u, t, v, px, n);
    BilSymmetric(P, u, x, n);
    BilSymmetric(P, v, x, n);
    DotLinear(x, u, t, v, MulVec(P, u, n), n);
    DotLinear(x, u, t, v, MulVec(P, v, n), n);
    BilSymmetric(P, u, v, n);
    var a, b, c := Bil(P, u, u, n), Bil(P, u, v, n), Bil(P, v, v, n);
    assert Bil(P, x, x, n) == (a + t * b) + t * (b + t * c);
    QuadraticForm(a, b, c, t);
  }

  lemma QuadraticForm(a: real, b: real, c: real, t: real)
    ensures (a + t * b) + t * (b + t * c) == a + 2.0 * t * b + t * t * c
  {
    assert t * (b + t * c) == t * b + t * (t * c);
    assert t * (t * c) == (t * t) * c;
  }

  /** A quadratic a + 2bt + ct^2 with b^2 > ac takes a negative value. */
  lemma NegativePoint(a: real, b: real, c: real) returns (t: real)
    requires a >= 0.0 && c >= 0.0 && b * b > a * c
    ensures a + 2.0 * t * b + t * t * c < 0.0
  {
    if c > 0.0 {
      t := -b / c;
      assert t * c == -b;
      assert t * t * c == t * (t * c) == -(t * b);
      assert (a + t * b) * c == a * c + (t * c) * b;
      assert (t * c) * b == -(b * b);
      assert (a + t * b) * c < 0.0;
      assert a + t * b < 0.0;
      assert 2.0 * t * b == t * b + t * b;
    } else {
      t := -(a + 1.0) / (2.0 * b);
      assert t * (2.0 * b) == -(a + 1.0);
    }
  }

  /** Cauchy-Schwarz for a semidefinite form: (u'Pv)^2 <= (u'Pu)(v'Pv). */
  lemma CauchySchwarz(P: Mat, u: Vec, v: Vec, n: nat)
    requires |u| == n && |v| == n && Covariance(P, n)
    ensures Bil(P, u, v, n) * Bil(P, u, v, n) <= Bil(P, u, u, n) * Bil(P, v, v, n)
  {
    hide DotN, Bil;
    var a, b, c := Bil(P, u, u, n), Bil(P, u, v, n), Bil(P, v, v, n);
    if b * b > a * c {
      var t := NegativePoint(a, b, c);
      var x := seq(n, k requires 0 <= k < n => u[k] + t * v[k]);
      BilQuadratic(P, u, v, t, x, n);
      assert false;
    }
  }

  // ---------- what keeps a covariance a covariance ----------

  /** F P F', row by row: row i of FP is F[i]' P. */
  ghost predicate IsCongruence(Q: Mat, F: Mat, P: Mat, n: nat)
    requires IsSquare(P, n) && IsSquare(F, n)
  {
    IsSquare(Q, n) && forall i, j {:trigger Q[i][j]} :: 0 <= i < n && 0 <= j < n ==> Q[i][j] == Bil(P, F[i], F[j], n)
  }

  lemma CongruenceForm(Q: Mat, F: Mat, P: Mat, v: Vec, n: nat)
    requires IsSquare(P, n) && IsSquare(F, n) && |v| == n && Symmetric(P, n) && IsCongruence(Q, F, P, n)
    ensures var y := RowComb(v, F, n, n); Bil(Q, v, v, n) == Bil(P, y, y, n)
  {
    var y := RowComb(v, F, n, n);
    var py := MulVec(P, y, n);
    var fpy := MulVec(F, py, n);
    forall i | 0 <= i < n ensures MulVec(Q, v, n)[i] == fpy[i] {
      // row i of Q is F (P F[i])
      var pf := MulVec(P, F[i], n);
      var q := MulVec(F, pf, n);
      forall j | 0 <= j < n ensures Q[i][j] == q[j] {
        BilSymmetric(P, F[i], F[j], n);
      }
      DotEqual(Q[i], v, q, n);
      DotCommutes(q, v, n);
      DotMulVec(v, F, pf, n, n);
      BilSymmetric(P, F[i], y, n);
    }
    assert MulVec(Q, v, n) == fpy;
    DotMulVec(v, F, py, n, n);
  }

  lemma CongruenceCovariance(Q: Mat, F: Mat, P: Mat, n: nat)
    requires Covariance(P, n) && IsSquare(F, n) && IsCongruence(Q, F, P, n)
    ensures Covariance(Q, n)
  {
    forall i, j | 0 <= i < n && 0 <= j < n ensures Q[i][j] == Q[j][i] {
      BilSymmetric(P, F[i], F[j], n);
    }
    forall v: Vec {:trigger Bil(Q, v, v, n)} | |v| == n ensures Bil(Q, v, v, n) >= 0.0 {
      CongruenceForm(Q, F, P, v, n);
    }
  }

  /** sum of v[i]^2 d[i]. */
  function WeightedSquares(d: Vec, v: Vec, n: nat): real
    requires n <= |d| && n <= |v|
  {
    if n == 0 then 0.0 else WeightedSquares(d, v, n - 1) + d[n - 1] * (v[n - 1] * v[n - 1])
  }

  ghost predicate IsDiagonalSum(Q: Mat, P: Mat, d: Vec, n: nat)
    requires IsSquare(P, n)
  {
    IsSquare(Q, n) && |d| == n &&
    forall i, j {:trigger Q[i][j]} :: 0 <= i < n && 0 <= j < n ==> Q[i][j] == P[i][j] + if i == j then d[i] else 0.0
  }

  lemma {:induction false} DotOneChanged(w: Vec, a: Vec, i: nat, c: real, v: Vec, n: nat)
    requires n <= |w| && n <= |a| && n <= |v|
    requires forall k {:trigger w[k]} :: 0 <= k < n ==> w[k] == a[k] + if k == i then c else 0.0
    ensures DotN(w, v, n) == DotN(a, v, n) + if i < n then c * v[i] else 0.0
  {
    if n > 0 { DotOneChanged(w, a, i, c, v, n - 1); }
  }

  lemma {:induction false} DotPlusDiagonal(v: Vec, q: Vec, p: Vec, d: Vec, n: nat)
    requires n <= |v| && n <= |q| && n <= |p| && n <= |d|
    requires forall k :: 0 <= k < n ==> q[k] == p[k] + d[k] * v[k]
    ensures DotN(v, q, n) == DotN(v, p, n) + WeightedSquares(d, v, n)
  {
    if n > 0 { DotPlusDiagonal(v, q, p, d, n - 1); }
  }

  lemma {:induction false} WeightedSquaresNonNegative(d: Vec, v: Vec, n: nat)
    requires n <= |d| && n <= |v| && forall k :: 0 <= k < n ==> d[k] >= 0.0
    ensures WeightedSquares(d, v, n) >= 0.0
  {
    if n > 0 {
      WeightedSquaresNonNegative(d, v, n - 1);
      assert v[n - 1] * v[n - 1] >= 0.0;
    }
  }

  lemma DiagonalRow(Q: Mat, P: Mat, d: Vec, v: Vec, n: nat, i: nat)
    requires IsSquare(P, n) && |v| == n && IsDiagonalSum(Q, P, d, n) && i < n
    ensures DotN(Q[i], v, n) == DotN(P[i], v, n) + d[i] * v[i]
  {
    DotOneChanged(Q[i], P[i], i, d[i], v, n);
  }

  lemma DiagonalForm(Q: Mat, P: Mat, d: Vec, v: Vec, n: nat)
    requires IsSquare(P, n) && |v| == n && IsDiagonalSum(Q, P, d, n)
    ensures Bil(Q, v, v, n) == Bil(P, v, v, n) + WeightedSquares(d, v, n)
  {
    var q, p := MulVec(Q, v, n), MulVec(P, v, n);
    forall i | 0 <= i < n ensures q[i] == p[i] + d[i] * v[i] {
      DiagonalRow(Q, P, d, v, n, i);
    }
    DotPlusDiagonal(v, q, p, d, n);
  }

  /** Adding a non-negative diagonal (process noise) keeps a covariance. */
  lemma DiagonalCovariance(Q: Mat, P: Mat, d: Vec, n: nat)
    requires Covariance(P, n) && IsDiagonalSum(Q, P, d, n) && forall k :: 0 <= k < n ==> d[k] >= 0.0
    ensures Covariance(Q, n)
  {
    forall v: Vec {:trigger Bil(Q, v, v, n)} | |v| == n ensures Bil(Q, v, v, n) >= 0.0 {
      DiagonalForm(Q, P, d, v, n);
      WeightedSquaresNonNegative(d, v, n);
    }
  }

  /** P + s g', entry by entry. */
  ghost predicate IsOuterSum(Q: Mat, P: Mat, s: Vec, g: Vec, n: nat)
    requires IsSquare(P, n)
  {
    IsSquare(Q, n) && |s| == n && |g| == n &&
    forall i, j {:trigger Q[i][j]} :: 0 <= i < n && 0 <= j < n ==> Q[i][j] == P[i][j] + s[i] * g[j]
  }

  ghost predicate IsScaled(s: Vec, c: real, g: Vec) {
    |s| == |g| && forall i :: 0 <= i < |g| ==> s[i] == c * g[i]
  }

  lemma OuterRow(Q: Mat, P: Mat, s: Vec, g: Vec, v: Vec, n: nat, d: real, i: nat)
    requires IsSquare(P, n) && |v| == n && IsOuterSum(Q, P, s, g, n) && i < n && d == DotN(g, v, n)
    ensures DotN(Q[i], v, n) == DotN(P[i], v, n) + d * s[i]
  {
    hide DotN;
    DotLinear(Q[i], P[i], s[i], g, v, n);
  }

  lemma DotShift(q: Vec, p: Vec, d: real, s: Vec, v: Vec, n: nat, e: real)
    requires |q| == |p| == |s| == |v| == n && e == DotN(s, v, n)
    requires forall i {:trigger q[i]} :: 0 <= i < n ==> q[i] == p[i] + d * s[i]
    ensures DotN(v, q, n) == DotN(v, p, n) + d * e
  {
    hide DotN;
    DotLinear(q, p, d, s, v, n);
    DotCommutes(v, q, n);
    DotCommutes(v, p, n);
  }

  lemma OuterForm(Q: Mat, P: Mat, s: Vec, g: Vec, v: Vec, n: nat, d: real, e: real)
    requires IsSquare(P, n) && |v| == n && IsOuterSum(Q, P, s, g, n)
    requires d == DotN(g, v, n) && e == DotN(s, v, n)
    ensures Bil(Q, v, v, n) == Bil(P, v, v, n) + d * e
  {
    hide DotN;
    var q, p := MulVec(Q, v, n), MulVec(P, v, n);
    forall i {:trigger q[i]} | 0 <= i < n ensures q[i] == p[i] + d * s[i] {
      OuterRow(Q, P, s, g, v, n, d, i);
    }
    DotShift(q, p, d, s, v, n, e);
  }

  lemma {:induction false} DotScaled(s: Vec, c: real, g: Vec, v: Vec, n: nat)
    requires IsScaled(s, c, g) && n <= |g| && n <= |v|
    ensures DotN(s, v, n) == c * DotN(g, v, n)
  {
    if n > 0 {
      DotScaled(s, c, g, v, n - 1);
      var x, y, d := g[n - 1], v[n - 1], DotN(g, v, n - 1);
      assert (c * x) * y == c * (x * y);
      assert c * (d + x * y) == c * d + c * (x * y);
    }
  }

  lemma RankOneSymmetric(Q: Mat, P: Mat, s: Vec, c: real, g: Vec, n: nat)
    requires IsSquare(P, n) && Symmetric(P, n) && IsOuterSum(Q, P, s, g, n) && IsScaled(s, c, g)
    ensures Symmetric(Q, n)
  {
    forall i, j | 0 <= i < n && 0 <= j < n ensures Q[i][j] == Q[j][i] {
      var x, y := g[i], g[j];
      assert (c * x) * y == (c * y) * x;
    }
  }

  /** Measurement update: subtracting g g' / S with g = P h and S >= h'Ph keeps a covariance. */
  lemma MeasurementCovariance(Q: Mat, P: Mat, h: Vec, s: Vec, S: real, n: nat)
    requires Covariance(P, n) && |h| == n && S > 0.0 && S >= Bil(P, h, h, n)
    requires IsScaled(s, -1.0 / S, MulVec(P, h, n)) && IsOuterSum(Q, P, s, MulVec(P, h, n), n)
    ensures Covariance(Q, n)
  {
    hide DotN;
    var g := MulVec(P, h, n);
    RankOneSymmetric(Q, P, s, -1.0 / S, g, n);
    forall v: Vec {:trigger Bil(Q, v, v, n)} | |v| == n ensures Bil(Q, v, v, n) >= 0.0 {
      var b := Bil(P, v, h, n);
      DotCommutes(g, v, n);
      DotScaled(s, -1.0 / S, g, v, n);
      OuterForm(Q, P, s, g, v, n, b, DotN(s, v, n));
      CauchySchwarz(P, v, h, n);
      SubtractedBound(Bil(P, v, v, n), b, Bil(P, h, h, n), S);
    }
  }

  lemma SubtractedBound(a: real, b: real, c: real, S: real)
    requires a >= 0.0 && S > 0.0 && S >= c && b * b <= a * c
    ensures a + b * ((-1.0 / S) * b) >= 0.0
  {
    assert a * c <= a * S;
    var q := b * b;
    assert q <= a * S;
    assert q / S <= a;
    assert b * ((-1.0 / S) * b) == -(q / S);
  }

  /** Adding c g g' with c >= 0 (measurement noise of the Joseph form) keeps a covariance. */
  lemma NoiseCovariance(Q: Mat, P: Mat, s: Vec, c: real, g: Vec, n: nat)
    requires Covariance(P, n) && c >= 0.0 && IsScaled(s, c, g) && IsOuterSum(Q, P, s, g, n)
    ensures Covariance(Q, n)
  {
    RankOneSymmetric(Q, P, s, c, g, n);
    forall v: Vec {:trigger Bil(Q, v, v, n)} | |v| == n ensures Bil(Q, v, v, n) >= 0.0 {
      var d := DotN(g, v, n);
      DotScaled(s, c, g, v, n);
      OuterForm(Q, P, s, g, v, n, d, DotN(s, v, n));
      assert d * (c * d) == c * (d * d);
      assert d * d >= 0.0;
    }
  }

  /** Zeroing row and column l and putting p0 >= 0 on the diagonal keeps a covariance. */
  ghost predicate IsReset(Q: Mat, P: Mat, l: nat, p0: real, n: nat)
    requires IsSquare(P, n)
  {
    IsSquare(Q, n) && l < n &&
    forall i, j {:trigger Q[i][j]} :: 0 <= i < n && 0 <= j < n ==>
      Q[i][j] == if i == l && j == l then p0 else if i == l || j == l then 0.0 else P[i][j]
  }

  lemma {:induction false} DotSkip(q: Vec, p: Vec, v: Vec, y: Vec, l: nat, n: nat)
    requires n <= |q| && n <= |p| && n <= |v| && n <= |y|
    requires forall k :: 0 <= k < n ==> q[k] == (if k == l then 0.0 else p[k]) && y[k] == (if k == l then 0.0 else v[k])
    ensures DotN(q, v, n) == DotN(p, y, n)
  {
    if n > 0 { DotSkip(q, p, v, y, l, n - 1); }
  }

  lemma ResetForm(Q: Mat, P: Mat, l: nat, p0: real, v: Vec, y: Vec, n: nat)
    requires IsSquare(P, n) && |v| == n && |y| == n && IsReset(Q, P, l, p0, n)
    requires forall k :: 0 <= k < n ==> y[k] == if k == l then 0.0 else v[k]
    ensures Bil(Q, v, v, n) == Bil(P, y, y, n) + p0 * v[l] * v[l]
  {
    var q, p := MulVec(Q, v, n), MulVec(P, y, n);
    var q0 := q[l := 0.0];
    forall i | 0 <= i < n ensures i != l ==> q[i] == p[i] {
      if i != l { DotSkip(Q[i], P[i], v, y, l, n); }
    }
    var row0 := seq(n, _ => 0.0);
    DotZero(row0, v, n);
    DotOneChanged(Q[l], row0, l, p0, v, n);
    DotOneChanged(q, q0, l, q[l], v, n);
    DotCommutes(v, q, n);
    DotSkip(q0, p, v, y, l, n);
    DotCommutes(p, y, n);
  }

  lemma ResetCovariance(Q: Mat, P: Mat, l: nat, p0: real, n: nat)
    requires Covariance(P, n) && p0 >= 0.0 && IsReset(Q, P, l, p0, n)
    ensures Covariance(Q, n)
  {
    forall v: Vec {:trigger Bil(Q, v, v, n)} | |v| == n ensures Bil(Q, v, v, n) >= 0.0 {
      var y := v[l := 0.0];
      ResetForm(Q, P, l, p0, v, y, n);
      assert v[l] * v[l] >= 0.0;
      assert p0 * (v[l] * v[l]) >= 0.0;
      assert p0 * v[l] * v[l] == p0 * (v[l] * v[l]);
    }
  }
}
