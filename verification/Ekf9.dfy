/**
 API/ekf.c: the 9-state filter [v(3), b_a(3), b_g(3)] over one flat 9x9 covariance, with Joseph-form
 updates, the bias freeze and the control-path gate. Telemetry caches (nis, k_last) are not modelled.
 */
module Ekf9 {
  import opened Reals
  import opened LinAlg

  const Q_V := 0.001
  const Q_BA := 0.000001
  const Q_BG := 0.000000005
  const R_OF := 0.000616
  const R_ACC := 0.005
  const R_Z := 0.04
  const VEL_LIM := 5.0
  const PVV_LIM := 0.25
  const U32 := 0x1_0000_0000

  datatype Ekf = Ekf(x: Vec, P: Mat, q: Vec, rOf: real, rAcc: real, rZ: real, active: bool)

  ghost predicate Shaped(e: Ekf) { |e.x| == 9 && IsSquare(e.P, 9) && |e.q| == 9 }

  // ---------- covariance steps, entry by entry ----------

  /** Row i of F P is P[i] - dt P[i+3] for the three velocities, P[i] otherwise. */
  function RowShift(P: Mat, dt: real, i: nat, j: nat): real
    requires IsSquare(P, 9) && i < 9 && j < 9
  {
    P[i][j] - if i < 3 then dt * P[i + 3][j] else 0.0
  }

  function DiagonalNoise(q: Vec, dt: real, i: nat): real
    requires |q| == 9 && i < 9
  {
    if i < 3 then dt * dt * q[i] else q[i]
  }

  function PredictEntry(P: Mat, q: Vec, dt: real, i: nat, j: nat): real
    requires IsSquare(P, 9) && |q| == 9 && i < 9 && j < 9
  {
    RowShift(P, dt, i, j) - (if j < 3 then dt * RowShift(P, dt, i, j + 3) else 0.0) +
      if i == j then DiagonalNoise(q, dt, i) else 0.0
  }

  function Lower(p: real, a: real, x: real, b: real, y: real): real { p - a * x - b * y }

  function GainNoise(R: real, a: real, b: real, c: real, d: real): real { R * (a * b + c * d) }

  /** (I - KH) P for measured states m0, m1 with gain columns k0, k1. */
  function Residual(P: Mat, m0: nat, k0: Vec, m1: nat, k1: Vec, i: nat, j: nat): real
    requires IsSquare(P, 9) && |k0| == 9 && |k1| == 9 && m0 < 9 && m1 < 9 && i < 9 && j < 9
  {
    Lower(P[i][j], k0[i], P[m0][j], k1[i], P[m1][j])
  }

  /** (I - KH) P (I - KH)' + R K K'. */
  function JosephEntry(P: Mat, m0: nat, k0: Vec, m1: nat, k1: Vec, R: real, i: nat, j: nat): real
    requires IsSquare(P, 9) && |k0| == 9 && |k1| == 9 && m0 < 9 && m1 < 9 && i < 9 && j < 9
  {
    Lower(Residual(P, m0, k0, m1, k1, i, j), Residual(P, m0, k0, m1, k1, i, m0), k0[j],
          Residual(P, m0, k0, m1, k1, i, m1), k1[j]) + GainNoise(R, k0[i], k0[j], k1[i], k1[j])
  }

  ghost function Tabulate(f: (nat, nat) -> real): (M: Mat)
    ensures IsSquare(M, 9)
    ensures forall i: nat, j: nat {:trigger M[i][j]} :: i < 9 && j < 9 ==> M[i][j] == f(i, j)
  {
    seq(9, i requires 0 <= i < 9 => seq(9, j requires 0 <= j < 9 => f(i, j)))
  }

  ghost function Joseph(P: Mat, m0: nat, k0: Vec, m1: nat, k1: Vec, R: real): (M: Mat)
    requires IsSquare(P, 9) && |k0| == 9 && |k1| == 9 && m0 < 9 && m1 < 9
    ensures IsSquare(M, 9)
    ensures forall i: nat, j: nat {:trigger M[i][j]} :: i < 9 && j < 9 ==> M[i][j] == JosephEntry(P, m0, k0, m1, k1, R, i, j)
  {
    Tabulate((i: nat, j: nat) => if i < 9 && j < 9 then JosephEntry(P, m0, k0, m1, k1, R, i, j) else 0.0)
  }

  ghost function PredictedCovariance(P: Mat, q: Vec, dt: real): (M: Mat)
    requires IsSquare(P, 9) && |q| == 9
    ensures IsSquare(M, 9)
    ensures forall i: nat, j: nat {:trigger M[i][j]} :: i < 9 && j < 9 ==> M[i][j] == PredictEntry(P, q, dt, i, j)
  {
    Tabulate((i: nat, j: nat) => if i < 9 && j < 9 then PredictEntry(P, q, dt, i, j) else 0.0)
  }

  // ---------- they keep a covariance ----------

  /** A unit row with two entries lowered. */
  ghost predicate IsElementary(a: Vec, i: nat, m0: nat, c0: real, m1: nat, c1: real) {
    |a| == 9 && forall k {:trigger a[k]} :: 0 <= k < 9 ==>
      a[k] == (if k == i then 1.0 else 0.0) - (if k == m0 then c0 else 0.0) - (if k == m1 then c1 else 0.0)
  }

  ghost function Elementary(i: nat, m0: nat, c0: real, m1: nat, c1: real): (a: Vec)
    ensures IsElementary(a, i, m0, c0, m1, c1)
  {
    seq(9, k requires 0 <= k < 9 =>
      (if k == i then 1.0 else 0.0) - (if k == m0 then c0 else 0.0) - (if k == m1 then c1 else 0.0))
  }

  lemma DotUnit(u: Vec, i: nat, w: Vec)
    requires IsElementary(u, i, 9, 0.0, 9, 0.0) && i < 9 && |w| == 9
    ensures DotN(u, w, 9) == w[i]
  {
    hide DotN;
    var z := seq(9, k requires 0 <= k < 9 => 0.0);
    DotZero(z, w, 9);
    DotOneChanged(u, z, i, 1.0, w, 9);
  }

  /** Lowering entry m of b by c lowers the product by c w[m]. */
  lemma DotLowered(a: Vec, b: Vec, m: nat, c: real, w: Vec)
    requires |a| == |b| == |w| == 9 && m < 9
    requires forall k {:trigger a[k]} :: 0 <= k < 9 ==> a[k] == b[k] - if k == m then c else 0.0
    ensures DotN(a, w, 9) == DotN(b, w, 9) - c * w[m]
  {
    hide DotN;
    DotOneChanged(a, b, m, -c, w, 9);
    assert (-c) * w[m] == -(c * w[m]);
  }

  lemma DotElementary(a: Vec, i: nat, m0: nat, c0: real, m1: nat, c1: real, w: Vec)
    requires IsElementary(a, i, m0, c0, m1, c1) && i < 9 && m0 < 9 && m1 < 9 && |w| == 9
    ensures DotN(a, w, 9) == w[i] - c0 * w[m0] - c1 * w[m1]
  {
    hide DotN;
    var u := Elementary(i, 9, 0.0, 9, 0.0);
    var b := Elementary(i, m0, c0, 9, 0.0);
    DotUnit(u, i, w);
    DotLowered(b, u, m0, c0, w);
    DotLowered(a, b, m1, c1, w);
  }

  /** e_i' P e_j with both sides elementary. */
  lemma BilElementary(P: Mat, a: Vec, i: nat, m0: nat, c0: real, m1: nat, c1: real,
                      b: Vec, j: nat, n0: nat, d0: real, n1: nat, d1: real)
    requires IsSquare(P, 9) && i < 9 && j < 9 && m0 < 9 && m1 < 9 && n0 < 9 && n1 < 9
    requires IsElementary(a, i, m0, c0, m1, c1) && IsElementary(b, j, n0, d0, n1, d1)
    ensures Bil(P, a, b, 9) ==
      (P[i][j] - d0 * P[i][n0] - d1 * P[i][n1]) - c0 * (P[m0][j] - d0 * P[m0][n0] - d1 * P[m0][n1])
        - c1 * (P[m1][j] - d0 * P[m1][n0] - d1 * P[m1][n1])
  {
    hide DotN;
    var w := MulVec(P, b, 9);
    DotElementary(a, i, m0, c0, m1, c1, w);
    forall r | r in {i, m0, m1} ensures w[r] == P[r][j] - d0 * P[r][n0] - d1 * P[r][n1] {
      DotElementary(b, j, n0, d0, n1, d1, P[r]);
      DotCommutes(b, P[r], 9);
    }
  }

  /** (row combination of columns) == (column combination of rows), for scalars. */
  lemma Regroup(p: real, a: real, b: real, c: real, d: real, e: real, f: real, g: real, h: real,
                x0: real, x1: real, y0: real, y1: real)
    ensures (p - x0 * a - x1 * b) - (c - x0 * d - x1 * e) * y0 - (f - x0 * g - x1 * h) * y1 ==
            (p - y0 * c - y1 * f) - x0 * (a - y0 * d - y1 * g) - x1 * (b - y0 * e - y1 * h)
  {
    assert (c - x0 * d - x1 * e) * y0 == y0 * c - x0 * (y0 * d) - x1 * (y0 * e);
    assert (f - x0 * g - x1 * h) * y1 == y1 * f - x0 * (y1 * g) - x1 * (y1 * h);
    assert x0 * (a - y0 * d - y1 * g) == x0 * a - x0 * (y0 * d) - x0 * (y1 * g);
    assert x1 * (b - y0 * e - y1 * h) == x1 * b - x1 * (y0 * e) - x1 * (y1 * h);
  }

  lemma JosephEntryIsCongruence(P: Mat, m0: nat, k0: Vec, m1: nat, k1: Vec, i: nat, j: nat)
    requires IsSquare(P, 9) && |k0| == 9 && |k1| == 9 && m0 < 9 && m1 < 9 && i < 9 && j < 9
    ensures JosephEntry(P, m0, k0, m1, k1, 0.0, i, j) ==
      Bil(P, Elementary(i, m0, k0[i], m1, k1[i]), Elementary(j, m0, k0[j], m1, k1[j]), 9)
  {
    hide Bil;
    BilElementary(P, Elementary(i, m0, k0[i], m1, k1[i]), i, m0, k0[i], m1, k1[i],
                  Elementary(j, m0, k0[j], m1, k1[j]), j, m0, k0[j], m1, k1[j]);
    Regroup(P[i][j], P[m0][j], P[m1][j], P[i][m0], P[m0][m0], P[m1][m0], P[i][m1], P[m0][m1], P[m1][m1],
            k0[i], k1[i], k0[j], k1[j]);
  }

  ghost function Scaled(c: real, k: Vec): (s: Vec)
    requires |k| == 9
    ensures |s| == 9 && IsScaled(s, c, k)
  {
    seq(9, i requires 0 <= i < 9 => c * k[i])
  }

  lemma JosephNoise(P: Mat, m0: nat, k0: Vec, m1: nat, k1: Vec, R: real, i: nat, j: nat)
    requires IsSquare(P, 9) && |k0| == 9 && |k1| == 9 && m0 < 9 && m1 < 9 && i < 9 && j < 9
    ensures JosephEntry(P, m0, k0, m1, k1, R, i, j) ==
      (JosephEntry(P, m0, k0, m1, k1, 0.0, i, j) + Scaled(R, k0)[i] * k0[j]) + Scaled(R, k1)[i] * k1[j]
  {
    hide Residual;
    var x, y := k0[i] * k0[j], k1[i] * k1[j];
    assert R * (x + y) == R * x + R * y;
    assert (R * k0[i]) * k0[j] == R * x;
    assert (R * k1[i]) * k1[j] == R * y;
  }

  lemma JosephNoiseFree(P: Mat, m0: nat, k0: Vec, m1: nat, k1: Vec)
    requires Covariance(P, 9) && |k0| == 9 && |k1| == 9 && m0 < 9 && m1 < 9
    ensures Covariance(Joseph(P, m0, k0, m1, k1, 0.0), 9)
  {
    hide Bil, Psd, Symmetric, JosephEntry, Elementary;
    var A := seq(9, i requires 0 <= i < 9 => Elementary(i, m0, k0[i], m1, k1[i]));
    var C := Joseph(P, m0, k0, m1, k1, 0.0);
    forall i: nat, j: nat {:trigger C[i][j]} | i < 9 && j < 9 ensures C[i][j] == Bil(P, A[i], A[j], 9) {
      JosephEntryIsCongruence(P, m0, k0, m1, k1, i, j);
    }
    CongruenceCovariance(C, A, P, 9);
  }

  ghost function WithNoise(C: Mat, s: Vec, k: Vec): (D: Mat)
    requires IsSquare(C, 9) && |s| == |k| == 9
    ensures IsSquare(D, 9) && IsOuterSum(D, C, s, k, 9)
  {
    Tabulate((i: nat, j: nat) => if i < 9 && j < 9 then C[i][j] + s[i] * k[j] else 0.0)
  }

  lemma JosephIsNoisy(P: Mat, m0: nat, k0: Vec, m1: nat, k1: Vec, R: real)
    requires IsSquare(P, 9) && |k0| == 9 && |k1| == 9 && m0 < 9 && m1 < 9
    ensures Joseph(P, m0, k0, m1, k1, R) ==
      WithNoise(WithNoise(Joseph(P, m0, k0, m1, k1, 0.0), Scaled(R, k0), k0), Scaled(R, k1), k1)
  {
    hide JosephEntry, Scaled, IsScaled;
    var J := Joseph(P, m0, k0, m1, k1, R);
    var E := WithNoise(WithNoise(Joseph(P, m0, k0, m1, k1, 0.0), Scaled(R, k0), k0), Scaled(R, k1), k1);
    forall i: nat, j: nat {:trigger J[i][j]} | i < 9 && j < 9 ensures J[i][j] == E[i][j] {
      JosephNoise(P, m0, k0, m1, k1, R, i, j);
    }
    MatEqual(J, E, 9);
  }

  /** The two-pass update keeps a covariance, whatever the gain, as long as R >= 0. */
  lemma JosephCovariance(P: Mat, m0: nat, k0: Vec, m1: nat, k1: Vec, R: real)
    requires Covariance(P, 9) && |k0| == 9 && |k1| == 9 && m0 < 9 && m1 < 9 && R >= 0.0
    ensures Covariance(Joseph(P, m0, k0, m1, k1, R), 9)
  {
    assert IsSquare(P, 9);
    hide Covariance, WithNoise, Scaled, Joseph, IsScaled, IsOuterSum;
    var C := Joseph(P, m0, k0, m1, k1, 0.0);
    JosephNoiseFree(P, m0, k0, m1, k1);
    var D := WithNoise(C, Scaled(R, k0), k0);
    NoiseCovariance(D, C, Scaled(R, k0), R, k0, 9);
    NoiseCovariance(WithNoise(D, Scaled(R, k1), k1), D, Scaled(R, k1), R, k1, 9);
    JosephIsNoisy(P, m0, k0, m1, k1, R);
  }

  lemma PredictCovariance(P: Mat, q: Vec, dt: real)
    requires Covariance(P, 9) && |q| == 9 && forall k :: 0 <= k < 9 ==> q[k] >= 0.0
    ensures Covariance(PredictedCovariance(P, q, dt), 9)
  {
    hide Bil, Psd, Symmetric, RowShift, DiagonalNoise, Elementary;
    var F := seq(9, i requires 0 <= i < 9 => TransitionRow(i, dt));
    var C := Tabulate((i: nat, j: nat) => if i < 9 && j < 9 then Bil(P, F[i], F[j], 9) else 0.0);
    var d := seq(9, i requires 0 <= i < 9 => DiagonalNoise(q, dt, i));
    var Q := PredictedCovariance(P, q, dt);
    CongruenceCovariance(C, F, P, 9);
    forall i: nat, j: nat {:trigger Q[i][j]} | i < 9 && j < 9 ensures Q[i][j] == C[i][j] + if i == j then d[i] else 0.0 {
      PredictEntryIsCongruence(P, q, dt, i, j);
    }
    forall k | 0 <= k < 9 ensures d[k] >= 0.0 { NoiseSign(q, dt, k); }
    DiagonalCovariance(Q, C, d, 9);
  }

  lemma NoiseSign(q: Vec, dt: real, i: nat)
    requires |q| == 9 && i < 9 && q[i] >= 0.0
    ensures DiagonalNoise(q, dt, i) >= 0.0
  {
    assert dt * dt >= 0.0;
  }

  /** Row i of F: a unit row, with -dt three places on for a velocity. */
  ghost function TransitionRow(i: nat, dt: real): (a: Vec)
    requires i < 9
    ensures |a| == 9
  {
    if i < 3 then Elementary(i, i + 3, dt, 0, 0.0) else Elementary(i, 0, 0.0, 0, 0.0)
  }

  lemma PredictEntryIsCongruence(P: Mat, q: Vec, dt: real, i: nat, j: nat)
    requires IsSquare(P, 9) && |q| == 9 && i < 9 && j < 9
    ensures PredictEntry(P, q, dt, i, j) ==
      Bil(P, TransitionRow(i, dt), TransitionRow(j, dt), 9) + if i == j then DiagonalNoise(q, dt, i) else 0.0
  {
    hide Bil, DiagonalNoise;
    var m0, c0 := if i < 3 then i + 3 else 0, if i < 3 then dt else 0.0;
    var n0, d0 := if j < 3 then j + 3 else 0, if j < 3 then dt else 0.0;
    BilElementary(P, TransitionRow(i, dt), i, m0, c0, 0, 0.0, TransitionRow(j, dt), j, n0, d0, 0, 0.0);
    Regroup(P[i][j], P[m0][j], 0.0, P[i][n0], P[m0][n0], 0.0, 0.0, 0.0, 0.0, c0, 0.0, d0, 0.0);
  }

  // ---------- operations on values ----------

  function Det2(a: real, b: real, c: real, d: real): real { a * d - b * c }

  /** S^-1 as (s00, s01, s10, s11). */
  function Inverse2(a: real, b: real, c: real, d: real): (real, real, real, real)
    requires Det2(a, b, c, d) > 0.0
  {
    var det := Det2(a, b, c, d);
    (d / det, -b / det, -c / det, a / det)
  }

  function InnovationDet(P: Mat, R: real): real
    requires IsSquare(P, 9)
  {
    Det2(P[0][0] + R, P[0][1], P[1][0], P[1][1] + R)
  }

  function Mix(p: real, a: real, r: real, b: real): real { p * a + r * b }

  function InnovationInverse(P: Mat, R: real): (real, real, real, real)
    requires IsSquare(P, 9) && InnovationDet(P, R) > 0.0
  {
    Inverse2(P[0][0] + R, P[0][1], P[1][0], P[1][1] + R)
  }

  /** Column c of K = P H' S^-1 for H = [I2 0]. */
  function GainEntry(P: Mat, R: real, i: nat, c: nat): real
    requires IsSquare(P, 9) && i < 9 && InnovationDet(P, R) > 0.0
  {
    var inv := InnovationInverse(P, R);
    if c == 0 then Mix(P[i][0], inv.0, P[i][1], inv.2) else Mix(P[i][0], inv.1, P[i][1], inv.3)
  }

  ghost function GainColumn(P: Mat, R: real, c: nat): (k: Vec)
    requires IsSquare(P, 9) && InnovationDet(P, R) > 0.0
    ensures |k| == 9 && forall i {:trigger k[i]} :: 0 <= i < 9 ==> k[i] == GainEntry(P, R, i, c)
  {
    seq(9, i requires 0 <= i < 9 => GainEntry(P, R, i, c))
  }

  /** One entry of K y for two measurements. */
  function Correction(a: real, y0: real, b: real, y1: real): real { a * y0 + b * y1 }

  /** Velocity driven by specific force a with bias b. */
  function Driven(v: real, a: real, b: real, dt: real): real { v + (a - b) * dt }

  ghost function Corrected(x: Vec, k0: Vec, y0: real, k1: Vec, y1: real): (z: Vec)
    requires |x| == |k0| == |k1| == 9
    ensures |z| == 9 && forall i {:trigger z[i]} :: 0 <= i < 9 ==> z[i] == x[i] + Correction(k0[i], y0, k1[i], y1)
  {
    seq(9, i requires 0 <= i < 9 => x[i] + Correction(k0[i], y0, k1[i], y1))
  }

  ghost function Updated2(e: Ekf, y0: real, y1: real, R: real): (f: Ekf)
    requires Shaped(e)
    ensures Shaped(f)
  {
    if InnovationDet(e.P, R) <= 0.0 then e
    else
      var k0, k1 := GainColumn(e.P, R, 0), GainColumn(e.P, R, 1);
      e.(x := Corrected(e.x, k0, y0, k1, y1),
         P := Joseph(e.P, 0, k0, 1, k1, R))
  }

  ghost function ZGain(P: Mat, s: real): (k: Vec)
    requires IsSquare(P, 9) && s > 0.0
    ensures |k| == 9 && forall i {:trigger k[i]} :: 0 <= i < 9 ==> k[i] == P[i][2] / s
  {
    seq(9, i requires 0 <= i < 9 => P[i][2] / s)
  }

  const ZERO9: Vec := [0.0, 0.0, 0.0, 0.0, 0.0, 0.0, 0.0, 0.0, 0.0]

  ghost function UpdatedZ(e: Ekf, z: real): (f: Ekf)
    requires Shaped(e)
    ensures Shaped(f)
  {
    var s := e.P[2][2] + e.rZ;
    if s <= 0.0 then e
    else
      var k, y := ZGain(e.P, s), z - e.x[2];
      e.(x := Corrected(e.x, k, y, ZERO9, 0.0), P := Joseph(e.P, 2, k, 2, ZERO9, e.rZ))
  }

  ghost function Predicted(e: Ekf, a0: real, a1: real, a2: real, dt: real): (f: Ekf)
    requires Shaped(e)
    ensures Shaped(f)
  {
    e.(x := e.x[0 := Driven(e.x[0], a0, e.x[3], dt)][1 := Driven(e.x[1], a1, e.x[4], dt)][2 := Driven(e.x[2], a2, e.x[5], dt)],
       P := PredictedCovariance(e.P, e.q, dt))
  }

  function DefaultNoise(i: nat): (q: real)
    ensures q > 0.0
  {
    if i < 3 then Q_V else if i < 6 then Q_BA else Q_BG
  }

  ghost function Initial(active: bool): (f: Ekf)
    ensures Shaped(f)
  {
    Ekf(ZERO9, Tabulate((i: nat, j: nat) => if i == j then DefaultNoise(i) else 0.0),
        seq(9, i requires 0 <= i < 9 => DefaultNoise(i)), R_OF, R_ACC, R_Z, active)
  }

  function BiasNoise(i: nat, frozen: bool): real {
    if frozen then 0.0 else DefaultNoise(i)
  }

  /** SetBiasFrozen: rows and columns 3..8 cleared, their variances and noise to 0 or to the defaults. */
  ghost function BiasSet(e: Ekf, frozen: bool): (f: Ekf)
    requires Shaped(e)
    ensures Shaped(f)
  {
    e.(q := seq(9, i requires 0 <= i < 9 => if i >= 3 then BiasNoise(i, frozen) else e.q[i]),
       P := Tabulate((i: nat, j: nat) =>
         if i >= 9 || j >= 9 then 0.0 else if i < 3 && j < 3 then e.P[i][j] else if i == j then BiasNoise(i, frozen) else 0.0))
  }

  datatype Op =
    | Init(active: bool)
    | Predict(a0: real, a1: real, a2: real, dt: real)
    | UpdateOf(zx: real, zy: real)
    | UpdateAcc(zx: real, zy: real)
    | UpdateZ(z: real)
    | SetBias(frozen: bool)

  ghost function Next(e: Ekf, op: Op): (f: Ekf)
    requires Shaped(e)
    ensures Shaped(f)
  {
    match op
    case Init(active) => Initial(active)
    case Predict(a0, a1, a2, dt) => if e.active then Predicted(e, a0, a1, a2, dt) else e
    case UpdateOf(zx, zy) => if e.active then Updated2(e, zx - e.x[0], zy - e.x[1], e.rOf) else e
    case UpdateAcc(zx, zy) => if e.active then Updated2(e, zx - e.x[0], zy - e.x[1], e.rAcc) else e
    case UpdateZ(z) => if e.active then UpdatedZ(e, z) else e
    case SetBias(frozen) => BiasSet(e, frozen)
  }

  ghost function Run(e: Ekf, ops: seq<Op>): (f: Ekf)
    requires Shaped(e)
    ensures Shaped(f)
  {
    if ops == [] then e else Next(Run(e, ops[..|ops| - 1]), ops[|ops| - 1])
  }

  // ---------- invariants of every run ----------

  /** State s shares no covariance with any other state. */
  ghost predicate Isolated(P: Mat, s: nat)
    requires IsSquare(P, 9) && s < 9
  {
    forall j {:trigger P[s][j]} {:trigger P[j][s]} :: 0 <= j < 9 && j != s ==> P[s][j] == 0.0 && P[j][s] == 0.0
  }

  ghost predicate Sound(e: Ekf) {
    Shaped(e) && Covariance(e.P, 9) && (forall k :: 0 <= k < 9 ==> e.q[k] >= 0.0) &&
    e.rOf >= 0.0 && e.rAcc >= 0.0 && e.rZ >= 0.0
  }

  /** The gyro biases are at their initial value and isolated. */
  ghost predicate GyroUntouched(e: Ekf) {
    Shaped(e) && forall s: nat :: 6 <= s < 9 ==> e.x[s] == 0.0 && Isolated(e.P, s)
  }

  ghost predicate Frozen(e: Ekf) {
    Shaped(e) && forall s: nat :: 3 <= s < 9 ==> e.q[s] == 0.0 && Isolated(e.P, s) && e.P[s][s] == 0.0
  }

  /** An isolated, unmeasured state with zero gain keeps its row and column through a Joseph update. */
  lemma JosephKeepsIsolated(P: Mat, m0: nat, k0: Vec, m1: nat, k1: Vec, R: real, s: nat)
    requires IsSquare(P, 9) && |k0| == 9 && |k1| == 9 && m0 < 9 && m1 < 9 && s < 9 && s != m0 && s != m1
    requires Isolated(P, s) && k0[s] == 0.0 && k1[s] == 0.0
    ensures Isolated(Joseph(P, m0, k0, m1, k1, R), s) && Joseph(P, m0, k0, m1, k1, R)[s][s] == P[s][s]
  {
    var J := Joseph(P, m0, k0, m1, k1, R);
    assert P[s][m0] == P[s][m1] == P[m0][s] == P[m1][s] == 0.0;
    forall j: nat | j < 9 ensures J[s][j] == P[s][j] && J[j][s] == P[j][s] {
      assert Residual(P, m0, k0, m1, k1, j, s) == P[j][s];
    }
  }

  lemma ZeroGain(P: Mat, R: real, s: nat)
    requires IsSquare(P, 9) && InnovationDet(P, R) > 0.0 && 2 <= s < 9 && Isolated(P, s)
    ensures GainColumn(P, R, 0)[s] == 0.0 && GainColumn(P, R, 1)[s] == 0.0
  {
    assert P[s][0] == 0.0 && P[s][1] == 0.0;
  }

  /** A measurement moves neither an isolated bias nor its covariance. */
  lemma UpdateKeepsIsolated(e: Ekf, op: Op, s: nat)
    requires Shaped(e) && 3 <= s < 9 && Isolated(e.P, s) && (op.UpdateOf? || op.UpdateAcc? || op.UpdateZ?)
    ensures var f := Next(e, op); Isolated(f.P, s) && f.x[s] == e.x[s] && f.P[s][s] == e.P[s][s] && f.q == e.q
  {
    hide Joseph, InnovationDet;
    if e.active {
      if op.UpdateZ? {
        var S := e.P[2][2] + e.rZ;
        if S > 0.0 {
          assert e.P[s][2] == 0.0;
          JosephKeepsIsolated(e.P, 2, ZGain(e.P, S), 2, ZERO9, e.rZ, s);
        }
      } else {
        var R := if op.UpdateOf? then e.rOf else e.rAcc;
        if InnovationDet(e.P, R) > 0.0 {
          ZeroGain(e.P, R, s);
          JosephKeepsIsolated(e.P, 0, GainColumn(e.P, R, 0), 1, GainColumn(e.P, R, 1), R, s);
        }
      }
    }
  }

  /** Prediction keeps a state isolated unless it drives a velocity with a variance of its own. */
  lemma PredictKeepsIsolated(P: Mat, q: Vec, dt: real, s: nat)
    requires IsSquare(P, 9) && |q| == 9 && 3 <= s < 9 && Isolated(P, s) && (s >= 6 || P[s][s] == 0.0)
    ensures Isolated(PredictedCovariance(P, q, dt), s) && PredictedCovariance(P, q, dt)[s][s] == P[s][s] + q[s]
  {
    var Q := PredictedCovariance(P, q, dt);
    forall j: nat | j < 9 && j != s ensures Q[s][j] == 0.0 && Q[j][s] == 0.0 {
      assert j < 3 ==> P[s][j + 3] == 0.0;
      assert j < 3 ==> P[j + 3][s] == 0.0;
    }
  }

  lemma NextKeepsGyro(e: Ekf, op: Op)
    requires GyroUntouched(e)
    ensures GyroUntouched(Next(e, op))
  {
    hide Updated2, UpdatedZ;
    forall s: nat | 6 <= s < 9 ensures Next(e, op).x[s] == 0.0 && Isolated(Next(e, op).P, s) {
      if op.Predict? {
        PredictKeepsIsolated(e.P, e.q, op.dt, s);
      } else if op.UpdateOf? || op.UpdateAcc? || op.UpdateZ? {
        UpdateKeepsIsolated(e, op, s);
      }
    }
  }

  /** While frozen, no predict or update changes the six bias states or their covariance. */
  lemma NextKeepsFrozen(e: Ekf, op: Op)
    requires Frozen(e) && !op.Init? && !op.SetBias?
    ensures Frozen(Next(e, op)) && Next(e, op).x[3..] == e.x[3..]
  {
    hide Updated2, UpdatedZ;
    var f := Next(e, op);
    forall s: nat | 3 <= s < 9 ensures f.q[s] == 0.0 && Isolated(f.P, s) && f.P[s][s] == 0.0 && f.x[s] == e.x[s] {
      if op.Predict? {
        PredictKeepsIsolated(e.P, e.q, op.dt, s);
      } else {
        UpdateKeepsIsolated(e, op, s);
      }
    }
  }

  lemma FreezeFreezes(e: Ekf)
    requires Shaped(e)
    ensures Frozen(BiasSet(e, true)) && BiasSet(e, true).x == e.x == BiasSet(e, false).x
  {
  }

  lemma Updated2Sound(e: Ekf, y0: real, y1: real, R: real)
    requires Sound(e) && R >= 0.0
    ensures Sound(Updated2(e, y0, y1, R))
  {
    hide Covariance, Joseph, InnovationDet;
    if InnovationDet(e.P, R) > 0.0 {
      JosephCovariance(e.P, 0, GainColumn(e.P, R, 0), 1, GainColumn(e.P, R, 1), R);
    }
  }

  lemma UpdatedZSound(e: Ekf, z: real)
    requires Sound(e)
    ensures Sound(UpdatedZ(e, z))
  {
    hide Covariance, Joseph;
    var s := e.P[2][2] + e.rZ;
    if s > 0.0 { JosephCovariance(e.P, 2, ZGain(e.P, s), 2, ZERO9, e.rZ); }
  }

  lemma ZeroCovariance()
    ensures Covariance(Tabulate((i, j) => 0.0), 9)
  {
    hide DotN;
    var Z := Tabulate((i, j) => 0.0);
    forall v: Vec {:trigger Bil(Z, v, v, 9)} | |v| == 9 ensures Bil(Z, v, v, 9) >= 0.0 {
      forall i | 0 <= i < 9 ensures MulVec(Z, v, 9)[i] == 0.0 { DotZero(Z[i], v, 9); }
      DotZero(MulVec(Z, v, 9), v, 9);
      DotCommutes(v, MulVec(Z, v, 9), 9);
    }
  }

  lemma InitialSound(active: bool)
    ensures Sound(Initial(active)) && GyroUntouched(Initial(active))
  {
    hide Psd;
    ZeroCovariance();
    var e := Initial(active);
    DiagonalCovariance(e.P, Tabulate((i, j) => 0.0), e.q, 9);
  }

  lemma {:induction false} BiasSetSteps(e: Ekf, frozen: bool, n: nat)
    requires Sound(e) && 3 <= n <= 9
    ensures Covariance(Tabulate((i: nat, j: nat) =>
      if i >= 9 || j >= 9 then 0.0 else if (i < 3 || i >= n) && (j < 3 || j >= n) then e.P[i][j]
      else if i == j then BiasNoise(i, frozen) else 0.0), 9)
  {
    hide Psd;
    var f := (m: nat) => Tabulate((i: nat, j: nat) =>
      if i >= 9 || j >= 9 then 0.0 else if (i < 3 || i >= m) && (j < 3 || j >= m) then e.P[i][j]
      else if i == j then BiasNoise(i, frozen) else 0.0);
    if n == 3 {
      MatEqual(f(3), e.P, 9);
    } else {
      BiasSetSteps(e, frozen, n - 1);
      ResetCovariance(f(n), f(n - 1), n - 1, BiasNoise(n - 1, frozen), 9);
    }
  }

  lemma BiasSetSound(e: Ekf, frozen: bool)
    requires Sound(e)
    ensures Sound(BiasSet(e, frozen))
  {
    hide Psd;
    BiasSetSteps(e, frozen, 9);
    MatEqual(BiasSet(e, frozen).P, Tabulate((i: nat, j: nat) =>
      if i >= 9 || j >= 9 then 0.0 else if (i < 3 || i >= 9) && (j < 3 || j >= 9) then e.P[i][j]
      else if i == j then BiasNoise(i, frozen) else 0.0), 9);
  }

  lemma NextSound(e: Ekf, op: Op)
    requires Sound(e)
    ensures Sound(Next(e, op))
  {
    hide Covariance, Updated2, UpdatedZ, Initial, BiasSet;
    match op
    case Init(active) => InitialSound(active);
    case Predict(a0, a1, a2, dt) => PredictCovariance(e.P, e.q, dt);
    case UpdateOf(zx, zy) => Updated2Sound(e, zx - e.x[0], zy - e.x[1], e.rOf);
    case UpdateAcc(zx, zy) => Updated2Sound(e, zx - e.x[0], zy - e.x[1], e.rAcc);
    case UpdateZ(z) => UpdatedZSound(e, z);
    case SetBias(frozen) => BiasSetSound(e, frozen);
  }

  /** Every run from Init: the covariance stays one, and the gyro biases never leave their initial value. */
  lemma {:induction false} RunSound(active: bool, ops: seq<Op>)
    ensures Sound(Run(Initial(active), ops)) && GyroUntouched(Run(Initial(active), ops))
  {
    if ops == [] {
      InitialSound(active);
    } else {
      hide Sound, GyroUntouched, Next;
      RunSound(active, ops[..|ops| - 1]);
      NextSound(Run(Initial(active), ops[..|ops| - 1]), ops[|ops| - 1]);
      NextKeepsGyro(Run(Initial(active), ops[..|ops| - 1]), ops[|ops| - 1]);
    }
  }

  /** For a covariance and R > 0 the 2x2 innovation is invertible, so the singular branch is never taken. */
  lemma InnovationInvertible(P: Mat, R: real)
    requires Covariance(P, 9) && R > 0.0
    ensures InnovationDet(P, R) > 0.0
  {
    hide Bil;
    var u, v := Elementary(0, 9, 0.0, 9, 0.0), Elementary(1, 9, 0.0, 9, 0.0);
    assert IsElementary(u, 0, 2, 0.0, 2, 0.0) && IsElementary(v, 1, 2, 0.0, 2, 0.0);
    BilElementary(P, u, 0, 2, 0.0, 2, 0.0, u, 0, 2, 0.0, 2, 0.0);
    BilElementary(P, u, 0, 2, 0.0, 2, 0.0, v, 1, 2, 0.0, 2, 0.0);
    BilElementary(P, v, 1, 2, 0.0, 2, 0.0, v, 1, 2, 0.0, 2, 0.0);
    CauchySchwarz(P, u, v, 9);
    PositiveDet(P[0][0], P[0][1], P[1][1], R);
  }

  lemma PositiveDet(a: real, b: real, c: real, R: real)
    requires a >= 0.0 && c >= 0.0 && R > 0.0 && b * b <= a * c
    ensures (a + R) * (c + R) - b * b > 0.0
  {
    assert (a + R) * (c + R) == a * c + a * R + R * c + R * R;
  }

  /** The gain solves K S = P H', so it is P H' S^-1 without naming the inverse. */
  lemma GainSolves(P: Mat, R: real, i: nat)
    requires IsSquare(P, 9) && i < 9 && InnovationDet(P, R) > 0.0
    ensures var k0, k1 := GainEntry(P, R, i, 0), GainEntry(P, R, i, 1);
            k0 * (P[0][0] + R) + k1 * P[1][0] == P[i][0] && k0 * P[0][1] + k1 * (P[1][1] + R) == P[i][1]
  {
    Cramer(P[0][0] + R, P[0][1], P[1][0], P[1][1] + R, P[i][0], P[i][1], InnovationDet(P, R));
  }

  lemma Cramer(a: real, b: real, c: real, d: real, p: real, r: real, det: real)
    requires det == a * d - b * c && det > 0.0
    ensures var k0, k1 := p * (d / det) + r * (-c / det), p * (-b / det) + r * (a / det);
            k0 * a + k1 * c == p && k0 * b + k1 * d == r
  {
    var u := 1.0 / det;
    assert u * det == 1.0;
    assert d / det == d * u && -c / det == -c * u && -b / det == -b * u && a / det == a * u;
    var k0, k1 := p * (d * u) + r * (-c * u), p * (-b * u) + r * (a * u);
    assert k0 * a + k1 * c == p * (u * (a * d - b * c));
    assert k0 * b + k1 * d == r * (u * (a * d - b * c));
  }

  // ---------- what updates and predictions do to the estimate ----------

  /** How far two measurements move each state: P+ H' y / R, the Kalman correction read off the new covariance. */
  lemma UpdateMoves(e: Ekf, y0: real, y1: real, R: real, i: nat)
    requires Shaped(e) && i < 9 && InnovationDet(e.P, R) > 0.0
    ensures var f := Updated2(e, y0, y1, R); R * (f.x[i] - e.x[i]) == f.P[i][0] * y0 + f.P[i][1] * y1
  {
    hide InnovationDet, GainEntry, JosephEntry, Correction;
    var f := Updated2(e, y0, y1, R);
    UpdatedState(e, y0, y1, R, i);
    JosephTimes(e.P, R, i);
    MovesBy(R, GainEntry(e.P, R, i, 0), GainEntry(e.P, R, i, 1), f.P[i][0], f.P[i][1], y0, y1, f.x[i] - e.x[i]);
  }

  lemma MovesBy(R: real, k0: real, k1: real, p0: real, p1: real, y0: real, y1: real, move: real)
    requires p0 == R * k0 && p1 == R * k1 && move == Correction(k0, y0, k1, y1)
    ensures R * move == p0 * y0 + p1 * y1
  {
  }

  /** P+ H' = R K. */
  lemma JosephTimes(P: Mat, R: real, i: nat)
    requires IsSquare(P, 9) && i < 9 && InnovationDet(P, R) > 0.0
    ensures var J := Joseph(P, 0, GainColumn(P, R, 0), 1, GainColumn(P, R, 1), R);
      J[i][0] == R * GainEntry(P, R, i, 0) && J[i][1] == R * GainEntry(P, R, i, 1)
  {
    hide InnovationDet, GainEntry, Residual, Lower, GainNoise;
    var k0, k1 := GainColumn(P, R, 0), GainColumn(P, R, 1);
    GainSolves(P, R, i);
    ResidualIs(P, k0, k1, R, i);
    JosephIs(Residual(P, 0, k0, 1, k1, i, 0), Residual(P, 0, k0, 1, k1, i, 1), k0[i], k1[i], k0[0], k1[0], R, true);
    JosephIs(Residual(P, 0, k0, 1, k1, i, 0), Residual(P, 0, k0, 1, k1, i, 1), k0[i], k1[i], k0[1], k1[1], R, false);
  }

  /** (I - KH) P H' = R K. */
  lemma ResidualIs(P: Mat, k0: Vec, k1: Vec, R: real, i: nat)
    requires IsSquare(P, 9) && |k0| == 9 && |k1| == 9 && i < 9
    requires k0[i] * (P[0][0] + R) + k1[i] * P[1][0] == P[i][0] && k0[i] * P[0][1] + k1[i] * (P[1][1] + R) == P[i][1]
    ensures Residual(P, 0, k0, 1, k1, i, 0) == R * k0[i] && Residual(P, 0, k0, 1, k1, i, 1) == R * k1[i]
  {
  }

  lemma JosephIs(r0: real, r1: real, a: real, b: real, c: real, d: real, R: real, first: bool)
    requires r0 == R * a && r1 == R * b
    ensures Lower(if first then r0 else r1, r0, c, r1, d) + GainNoise(R, a, c, b, d) == if first then r0 else r1
  {
  }

  /** Two measurements leave residuals no longer, together, than they found. */
  lemma UpdateClosesIn(e: Ekf, y0: real, y1: real, R: real)
    requires Sound(e) && R > 0.0
    ensures var f := Updated2(e, y0, y1, R);
      var r0, r1 := y0 - (f.x[0] - e.x[0]), y1 - (f.x[1] - e.x[1]);
      r0 * r0 + r1 * r1 <= y0 * y0 + y1 * y1
  {
    hide InnovationDet, GainEntry, Correction, Covariance, Updated2;
    InnovationInvertible(e.P, R);
    var f := Updated2(e, y0, y1, R);
    UpdatedState(e, y0, y1, R, 0);
    UpdatedState(e, y0, y1, R, 1);
    GainSolves(e.P, R, 0);
    GainSolves(e.P, R, 1);
    ResidualsClose(e.P, R, GainEntry(e.P, R, 0, 0), GainEntry(e.P, R, 0, 1), GainEntry(e.P, R, 1, 0), GainEntry(e.P, R, 1, 1),
                   y0, y1, y0 - (f.x[0] - e.x[0]), y1 - (f.x[1] - e.x[1]));
  }

  lemma UpdatedState(e: Ekf, y0: real, y1: real, R: real, i: nat)
    requires Shaped(e) && i < 9 && InnovationDet(e.P, R) > 0.0
    ensures Updated2(e, y0, y1, R).x[i] == e.x[i] + Correction(GainEntry(e.P, R, i, 0), y0, GainEntry(e.P, R, i, 1), y1)
  {
    hide InnovationDet, GainEntry, JosephEntry, Correction;
  }

  lemma ResidualsClose(P: Mat, R: real, k00: real, k01: real, k10: real, k11: real, y0: real, y1: real, r0: real, r1: real)
    requires Covariance(P, 9) && R > 0.0
    requires k00 * (P[0][0] + R) + k01 * P[1][0] == P[0][0] && k00 * P[0][1] + k01 * (P[1][1] + R) == P[0][1]
    requires k10 * (P[0][0] + R) + k11 * P[1][0] == P[1][0] && k10 * P[0][1] + k11 * (P[1][1] + R) == P[1][1]
    requires r0 == y0 - Correction(k00, y0, k01, y1) && r1 == y1 - Correction(k10, y0, k11, y1)
    ensures r0 * r0 + r1 * r1 <= y0 * y0 + y1 * y1
  {
    hide Covariance, Correction, InnovationDet;
    CornerIs(P);
    var a, b, c := P[0][0], P[0][1], P[1][1];
    InnovationInvertible(P, R);
    DetIs(P, R);
    SpreadResiduals(a, b, c, R, k00, k01, k10, k11, y0, y1, r0, r1);
    CornerSign(P, r0, r1);
    LengthShrinks(a, b, c, R, r0, r1, y0, y1);
  }

  lemma DetIs(P: Mat, R: real)
    requires IsSquare(P, 9) && P[0][1] == P[1][0] && InnovationDet(P, R) > 0.0
    ensures (P[0][0] + R) * (P[1][1] + R) - P[0][1] * P[0][1] > 0.0
  {
  }

  lemma CornerIs(P: Mat)
    requires Covariance(P, 9)
    ensures IsSquare(P, 9) && P[0][1] == P[1][0]
  {
  }

  /** The variance of r0 v_x + r1 v_y. */
  lemma CornerSign(P: Mat, r0: real, r1: real)
    requires Covariance(P, 9)
    ensures r0 * (P[0][0] * r0 + P[0][1] * r1) + r1 * (P[0][1] * r0 + P[1][1] * r1) >= 0.0
  {
    CornerIs(P);
    var w := Elementary(0, 0, 1.0 - r0, 1, -r1);
    BilElementary(P, w, 0, 0, 1.0 - r0, 1, -r1, w, 0, 0, 1.0 - r0, 1, -r1);
    assert Bil(P, w, w, 9) >= 0.0;
    hide *;
    CornerForm(P[0][0], P[0][1], P[1][1], r0, r1);
  }

  lemma CornerForm(a: real, b: real, c: real, r0: real, r1: real)
    ensures var d, e := 1.0 - r0, -r1;
      (a - d * a - e * b) - d * (a - d * a - e * b) - e * (b - d * b - e * c) == r0 * (a * r0 + b * r1) + r1 * (b * r0 + c * r1)
  {
  }

  /** R y = (A + R) r. */
  lemma SpreadResiduals(a: real, b: real, c: real, R: real, k00: real, k01: real, k10: real, k11: real,
                        y0: real, y1: real, r0: real, r1: real)
    requires (a + R) * (c + R) - b * b > 0.0
    requires k00 * (a + R) + k01 * b == a && k00 * b + k01 * (c + R) == b
    requires k10 * (a + R) + k11 * b == b && k10 * b + k11 * (c + R) == c
    requires r0 == y0 - Correction(k00, y0, k01, y1) && r1 == y1 - Correction(k10, y0, k11, y1)
    ensures R * y0 == a * r0 + b * r1 + R * r0 && R * y1 == b * r0 + c * r1 + R * r1
  {
    var x00, x01 := (a + R) * k00 + b * k10 - a, (a + R) * k01 + b * k11 - b;
    var x10, x11 := b * k00 + (c + R) * k10 - b, b * k01 + (c + R) * k11 - c;
    Commutes(a, b, c, R, k00, k01, k10, k11);
    RowZero(x00, x01, a, b, c, R);
    RowZero(x10, x11, a, b, c, R);
    Spread(a, b, R, k00, k01, k10, k11, y0, y1, r0, r1, true);
    Spread(c, b, R, k11, k10, k01, k00, y1, y0, r1, r0, true);
  }

  lemma Commutes(a: real, b: real, c: real, R: real, k00: real, k01: real, k10: real, k11: real)
    requires k00 * (a + R) + k01 * b == a && k00 * b + k01 * (c + R) == b
    requires k10 * (a + R) + k11 * b == b && k10 * b + k11 * (c + R) == c
    ensures var x0, x1 := (a + R) * k00 + b * k10 - a, (a + R) * k01 + b * k11 - b;
      x0 * (a + R) + x1 * b == 0.0 && x0 * b + x1 * (c + R) == 0.0
    ensures var x0, x1 := b * k00 + (c + R) * k10 - b, b * k01 + (c + R) * k11 - c;
      x0 * (a + R) + x1 * b == 0.0 && x0 * b + x1 * (c + R) == 0.0
  {
  }

  lemma RowZero(x0: real, x1: real, a: real, b: real, c: real, R: real)
    requires (a + R) * (c + R) - b * b > 0.0 && x0 * (a + R) + x1 * b == 0.0 && x0 * b + x1 * (c + R) == 0.0
    ensures x0 == 0.0 && x1 == 0.0
  {
    var det := (a + R) * (c + R) - b * b;
    assert x0 * det == (x0 * (a + R) + x1 * b) * (c + R) - (x0 * b + x1 * (c + R)) * b;
    assert x1 * det == (x0 * b + x1 * (c + R)) * (a + R) - (x0 * (a + R) + x1 * b) * b;
  }

  lemma Spread(a: real, b: real, R: real, k00: real, k01: real, k10: real, k11: real, y0: real, y1: real, r0: real, r1: real, same: bool)
    requires (a + R) * k00 + b * k10 == a && (a + R) * k01 + b * k11 == b
    requires r0 == y0 - Correction(k00, y0, k01, y1) && r1 == y1 - Correction(k10, y0, k11, y1)
    ensures R * y0 == a * r0 + b * r1 + R * r0
  {
    assert (a + R) * r0 + b * r1 == (a + R) * y0 + b * y1 - ((a + R) * k00 + b * k10) * y0 - ((a + R) * k01 + b * k11) * y1;
  }

  lemma LengthShrinks(a: real, b: real, c: real, R: real, r0: real, r1: real, y0: real, y1: real)
    requires R > 0.0 && R * y0 == a * r0 + b * r1 + R * r0 && R * y1 == b * r0 + c * r1 + R * r1
    requires r0 * (a * r0 + b * r1) + r1 * (b * r0 + c * r1) >= 0.0
    ensures r0 * r0 + r1 * r1 <= y0 * y0 + y1 * y1
  {
    var d0, d1 := y0 - r0, y1 - r1;
    var s := r0 * d0 + r1 * d1;
    assert R * d0 == a * r0 + b * r1 && R * d1 == b * r0 + c * r1;
    assert R * s == r0 * (a * r0 + b * r1) + r1 * (b * r0 + c * r1);
    SignOf(R, s);
    Lengths(r0, r1, d0, d1, y0, y1, s);
  }

  lemma SignOf(R: real, s: real)
    requires R > 0.0 && R * s >= 0.0
    ensures s >= 0.0
  {
    if s < 0.0 { MulPos(R, -s); }
  }

  lemma Lengths(r0: real, r1: real, d0: real, d1: real, y0: real, y1: real, s: real)
    requires y0 == r0 + d0 && y1 == r1 + d1 && s == r0 * d0 + r1 * d1 && s >= 0.0
    ensures r0 * r0 + r1 * r1 <= y0 * y0 + y1 * y1
  {
    assert y0 * y0 + y1 * y1 == r0 * r0 + r1 * r1 + 2.0 * s + d0 * d0 + d1 * d1;
    assert d0 * d0 >= 0.0 && d1 * d1 >= 0.0;
  }

  /** The vertical rate likewise. */
  lemma RateMoves(e: Ekf, z: real, i: nat)
    requires Shaped(e) && i < 9 && e.P[2][2] + e.rZ > 0.0
    ensures var f := UpdatedZ(e, z); e.rZ * (f.x[i] - e.x[i]) == f.P[i][2] * (z - e.x[2])
  {
    hide JosephEntry, Correction;
    var s := e.P[2][2] + e.rZ;
    var f, k := UpdatedZ(e, z), ZGain(e.P, s);
    assert f.x[i] == e.x[i] + Correction(k[i], z - e.x[2], ZERO9[i], 0.0);
    RateTimes(e.P, e.rZ, k, s, i);
    RateBy(e.rZ, k[i], f.P[i][2], z - e.x[2], f.x[i] - e.x[i]);
  }

  lemma RateBy(R: real, k: real, p: real, y: real, move: real)
    requires p == R * k && move == Correction(k, y, 0.0, 0.0)
    ensures R * move == p * y
  {
  }

  lemma RateTimes(P: Mat, R: real, k: Vec, s: real, i: nat)
    requires IsSquare(P, 9) && i < 9 && s == P[2][2] + R && s > 0.0 && k == ZGain(P, s)
    ensures Joseph(P, 2, k, 2, ZERO9, R)[i][2] == R * k[i]
  {
    assert k[i] * s == P[i][2];
    RateEntry(P[i][2], P[2][2], R, k[i], k[2]);
  }

  lemma RateEntry(p: real, q: real, R: real, k: real, m: real)
    requires k * (q + R) == p
    ensures Lower(Lower(p, k, q, 0.0, q), Lower(p, k, q, 0.0, q), m, Lower(p, k, q, 0.0, q), 0.0) + GainNoise(R, k, m, 0.0, 0.0) == R * k
  {
    var r := Lower(p, k, q, 0.0, q);
    assert r == R * k;
  }

  lemma RateClosesIn(e: Ekf, z: real)
    requires Sound(e) && e.rZ > 0.0
    ensures var y, r := z - e.x[2], z - UpdatedZ(e, z).x[2]; (y >= 0.0 ==> 0.0 <= r <= y) && (y <= 0.0 ==> y <= r <= 0.0)
  {
    RateSign(e.P);
    hide Covariance, Joseph, Correction;
    var s := e.P[2][2] + e.rZ;
    assert UpdatedZ(e, z).x[2] == e.x[2] + Correction(ZGain(e.P, s)[2], z - e.x[2], ZERO9[2], 0.0);
    RateLeft(e.P[2][2], s, z - e.x[2]);
  }

  lemma RateSign(P: Mat)
    requires Covariance(P, 9)
    ensures P[2][2] >= 0.0
  {
    hide Bil;
    var u := Elementary(2, 9, 0.0, 9, 0.0);
    assert IsElementary(u, 2, 0, 0.0, 0, 0.0);
    BilElementary(P, u, 2, 0, 0.0, 0, 0.0, u, 2, 0, 0.0, 0, 0.0);
    assert Bil(P, u, u, 9) >= 0.0;
  }

  lemma RateLeft(p: real, s: real, y: real)
    requires 0.0 <= p <= s && s > 0.0
    ensures var r := y - Correction(p / s, y, 0.0, 0.0); (y >= 0.0 ==> 0.0 <= r <= y) && (y <= 0.0 ==> y <= r <= 0.0)
  {
    var k := p / s;
    assert k * s == p;
    assert 0.0 <= k <= 1.0;
    if y >= 0.0 { assert 0.0 <= k * y <= y; } else { assert y <= k * y <= 0.0; }
  }

  /** The craft itself: velocities and the biases of its sensors, in the order of the estimate. */
  ghost function TruthAfter(s: Vec, a: Vec, dt: real): (t: Vec)
    requires |s| == 9 && |a| == 3
    ensures |t| == 9
  {
    seq(9, i requires 0 <= i < 9 => if i < 3 then s[i] + a[i] * dt else s[i])
  }

  ghost function ErrorOf(x: Vec, s: Vec): (e: Vec)
    requires |x| == |s| == 9
    ensures |e| == 9
  {
    seq(9, i requires 0 <= i < 9 => x[i] - s[i])
  }

  /** The craft accelerates at a for a time dt and each accelerometer reads its share plus its bias: the error of the
      estimate becomes F times what it was, F being the matrix that carries the covariance. */
  lemma PredictFollows(e: Ekf, s: Vec, a: Vec, dt: real, i: nat)
    requires Shaped(e) && |s| == 9 && |a| == 3 && i < 9
    ensures var f := Predicted(e, a[0] + s[3], a[1] + s[4], a[2] + s[5], dt);
      ErrorOf(f.x, TruthAfter(s, a, dt))[i] == DotN(TransitionRow(i, dt), ErrorOf(e.x, s), 9)
  {
    hide DotN, PredictedCovariance;
    if i < 3 {
      DotElementary(TransitionRow(i, dt), i, i + 3, dt, 0, 0.0, ErrorOf(e.x, s));
      ErrorMoves(e.x[i], s[i], e.x[i + 3], s[i + 3], a[i], dt);
    } else {
      DotElementary(TransitionRow(i, dt), i, 0, 0.0, 0, 0.0, ErrorOf(e.x, s));
    }
  }

  lemma ErrorMoves(v: real, vs: real, b: real, bs: real, a: real, dt: real)
    ensures Driven(v, a + bs, b, dt) - (vs + a * dt) == (v - vs) - dt * (b - bs) - 0.0 * (v - vs)
  {
  }

  /** State i moved by P+ H' y / R, y the innovations of the two horizontal velocities. */
  predicate Pulled(e: Ekf, f: Ekf, y0: real, y1: real, R: real, i: nat)
    requires |e.x| == |f.x| == 9 && IsSquare(f.P, 9) && i < 9
  {
    R * (f.x[i] - e.x[i]) == f.P[i][0] * y0 + f.P[i][1] * y1
  }

  /** Residuals, together, no longer than the innovations y. */
  predicate Closer(e: Ekf, f: Ekf, y0: real, y1: real)
    requires |e.x| == |f.x| == 9
  {
    var r0, r1 := y0 - (f.x[0] - e.x[0]), y1 - (f.x[1] - e.x[1]);
    r0 * r0 + r1 * r1 <= y0 * y0 + y1 * y1
  }

  /** Every call that measures: each reading is compared with its own velocity and weighed with its own noise; inactive,
      nothing moves. */
  lemma MeasurementTaken(e: Ekf, op: Op, i: nat)
    requires Sound(e) && i < 9 && e.rOf > 0.0 && e.rAcc > 0.0 && e.rZ > 0.0
    ensures e.active && op.UpdateOf? ==> var f, y0, y1 := Next(e, op), op.zx - e.x[0], op.zy - e.x[1];
      Pulled(e, f, y0, y1, e.rOf, i) && Closer(e, f, y0, y1)
    ensures e.active && op.UpdateAcc? ==> var f, y0, y1 := Next(e, op), op.zx - e.x[0], op.zy - e.x[1];
      Pulled(e, f, y0, y1, e.rAcc, i) && Closer(e, f, y0, y1)
    ensures e.active && op.UpdateZ? ==> var f, y := Next(e, op), op.z - e.x[2];
      var r := op.z - f.x[2];
      e.rZ * (f.x[i] - e.x[i]) == f.P[i][2] * y && (y >= 0.0 ==> 0.0 <= r <= y) && (y <= 0.0 ==> y <= r <= 0.0)
    ensures !e.active && (op.UpdateOf? || op.UpdateAcc? || op.UpdateZ?) ==> Next(e, op) == e
  {
    hide Covariance, Updated2, UpdatedZ, InnovationDet;
    match op
    case UpdateOf(zx, zy) => PairTaken(e, zx - e.x[0], zy - e.x[1], e.rOf, i);
    case UpdateAcc(zx, zy) => PairTaken(e, zx - e.x[0], zy - e.x[1], e.rAcc, i);
    case UpdateZ(z) =>
      RateSign(e.P);
      RateMoves(e, z, i);
      RateClosesIn(e, z);
    case _ =>
  }

  lemma PairTaken(e: Ekf, y0: real, y1: real, R: real, i: nat)
    requires Sound(e) && i < 9 && R > 0.0
    ensures var f := Updated2(e, y0, y1, R); Pulled(e, f, y0, y1, R, i) && Closer(e, f, y0, y1)
  {
    hide Covariance, Updated2, InnovationDet;
    InnovationInvertible(e.P, R);
    UpdateMoves(e, y0, y1, R, i);
    UpdateClosesIn(e, y0, y1, R);
  }

  /** What a prediction adds to the spread: a velocity is carried by its bias and by accelerometer noise held for dt; each
      bias only drifts. */
  lemma PredictDrifts(P: Mat, q: Vec, dt: real, i: nat)
    requires IsSquare(P, 9) && |q| == 9 && i < 9
    ensures var Q := PredictedCovariance(P, q, dt);
      Q[i][i] == if i >= 3 then P[i][i] + q[i]
                 else P[i][i] - dt * P[i + 3][i] - dt * (P[i][i + 3] - dt * P[i + 3][i + 3]) + dt * dt * q[i]
  {
  }

  // ---------- control-path gate ----------

  const BIAS_FIXED := 0
  const BIAS_ONLINE := 1
  const BIAS_GATED := 2
  const NONE_YET := 0xFF

  datatype Gate = Gate(mode: nat, modeReq: nat, ctrl: nat, ctrlReq: nat, reinit: bool,
                       healthy: bool, frozen: nat, fallbacks: nat, vx: real, vy: real)

  predicate Healthy(x: Vec, p00: real, p11: real)
    requires |x| == 9
  {
    (forall i :: 0 <= i < 3 ==> -VEL_LIM < x[i] < VEL_LIM) && 0.0 <= p00 < PVV_LIM && 0.0 <= p11 < PVV_LIM
  }

  predicate WantsFrozen(mode: nat, flying: bool) {
    mode == BIAS_FIXED || (mode == BIAS_GATED && flying)
  }

  /** Requests are honoured on the ground only. */
  ghost function Requested(e: Ekf, g: Gate, flying: bool): (r: (Ekf, Gate))
    requires Shaped(e)
    ensures Shaped(r.0)
  {
    if flying then (e, g)
    else
      var g1 := if g.reinit then g.(reinit := false, healthy := true, frozen := NONE_YET) else g;
      (if g.reinit then Initial(e.active) else e,
       g1.(mode := if g.modeReq <= BIAS_GATED then g.modeReq else g.mode, ctrl := if g.ctrlReq != 0 then 1 else 0))
  }

  /** The freeze is applied on a change of the wanted state. */
  ghost function FreezeApplied(e: Ekf, g: Gate, flying: bool): (r: (Ekf, Gate))
    requires Shaped(e)
    ensures Shaped(r.0)
  {
    var want := if WantsFrozen(g.mode, flying) then 1 else 0;
    if want != g.frozen then (BiasSet(e, want == 1), g.(frozen := want)) else (e, g)
  }

  /** Health is latched off; the velocities are published in cm/s. */
  ghost function HealthLatched(e: Ekf, g: Gate): (h: Gate)
    requires Shaped(e)
  {
    var failed := g.healthy && !(e.active && Healthy(e.x, e.P[0][0], e.P[1][1]));
    var h := if failed then g.(healthy := false, fallbacks := (g.fallbacks + 1) % U32) else g;
    h.(vx := e.x[0] * 100.0, vy := e.x[1] * 100.0)
  }

  ghost function GateStep(e: Ekf, g: Gate, flying: bool): (r: (Ekf, Gate))
    requires Shaped(e)
    ensures Shaped(r.0)
  {
    var (e1, g1) := Requested(e, g, flying);
    var (e2, g2) := FreezeApplied(e1, g1, flying);
    (e2, HealthLatched(e2, g2))
  }

  /** The gate's freeze flag never claims a freeze that is not in force. */
  ghost predicate FlagTrue(e: Ekf, g: Gate) {
    Shaped(e) && (g.frozen == 1 ==> Frozen(e))
  }

  lemma GateStepKeepsFlag(e: Ekf, g: Gate, flying: bool)
    requires FlagTrue(e, g)
    ensures var (f, h) := GateStep(e, g, flying);
            FlagTrue(f, h) && (h.frozen == 1 <==> WantsFrozen(h.mode, flying)) &&
            (g.healthy == false && h.healthy ==> !flying && g.reinit) &&
            (flying ==> h.mode == g.mode && h.ctrl == g.ctrl && f.x == e.x)
  {
    hide Frozen, BiasSet, Initial, Healthy;
    FreezeFreezes(e);
    FreezeFreezes(Initial(e.active));
  }

  /** Fit to be flown on: switched on, the three velocities and the variances of the horizontal ones within limits. */
  predicate Fit(e: Ekf)
    requires |e.x| == 9 && IsSquare(e.P, 9)
  {
    e.active && Abs(e.x[0]) < VEL_LIM && Abs(e.x[1]) < VEL_LIM && Abs(e.x[2]) < VEL_LIM &&
    0.0 <= e.P[0][0] < PVV_LIM && 0.0 <= e.P[1][1] < PVV_LIM
  }

  /** Health is lost by the first step to find the filter unfit, counted once, and comes back only with a reinitialisation
      on the ground. */
  lemma HealthIff(e: Ekf, g: Gate, flying: bool)
    requires Shaped(e)
    ensures var (f, h) := GateStep(e, g, flying);
      var before := g.healthy || (!flying && g.reinit);
      (h.healthy <==> before && Fit(f)) && (h.fallbacks == if before && !h.healthy then (g.fallbacks + 1) % U32 else g.fallbacks)
  {
    hide BiasSet, Initial;
    var (e1, g1) := Requested(e, g, flying);
    var (e2, g2) := FreezeApplied(e1, g1, flying);
    FitIs(e2);
  }

  lemma FitIs(e: Ekf)
    requires Shaped(e)
    ensures Fit(e) <==> e.active && Healthy(e.x, e.P[0][0], e.P[1][1])
  {
    assert Healthy(e.x, e.P[0][0], e.P[1][1]) ==> -VEL_LIM < e.x[0] < VEL_LIM && -VEL_LIM < e.x[1] < VEL_LIM && -VEL_LIM < e.x[2] < VEL_LIM;
  }

  datatype Event = Filter(op: Op) | Gating(flying: bool)

  ghost function Step(s: (Ekf, Gate), ev: Event): (t: (Ekf, Gate))
    requires Shaped(s.0)
    ensures Shaped(t.0)
  {
    match ev
    case Filter(op) => (Next(s.0, op), s.1)
    case Gating(flying) => GateStep(s.0, s.1, flying)
  }

  ghost function Play(s: (Ekf, Gate), evs: seq<Event>): (t: (Ekf, Gate))
    requires Shaped(s.0)
    ensures Shaped(t.0)
  {
    if evs == [] then s else Step(Play(s, evs[..|evs| - 1]), evs[|evs| - 1])
  }

  /** Nobody but the gate re-initialises or releases the filter. */
  predicate Flight(evs: seq<Event>) {
    forall k :: 0 <= k < |evs| ==>
      (evs[k].Filter? ==> !evs[k].op.Init? && !evs[k].op.SetBias?) && (evs[k].Gating? ==> evs[k].flying)
  }

  /** In a mode that freezes in flight, a whole flight leaves all six biases where the freeze found them. */
  lemma {:induction false} FlightKeepsBiases(s: (Ekf, Gate), evs: seq<Event>)
    requires Shaped(s.0) && Frozen(s.0) && s.1.frozen == 1 && s.1.mode in {BIAS_FIXED, BIAS_GATED} && Flight(evs)
    ensures var t := Play(s, evs);
            Frozen(t.0) && t.1.frozen == 1 && t.1.mode == s.1.mode && t.0.x[3..] == s.0.x[3..]
  {
    if evs != [] {
      var before, ev := evs[..|evs| - 1], evs[|evs| - 1];
      FlightKeepsBiases(s, before);
      hide Frozen, Next;
      var m := Play(s, before);
      if ev.Filter? { NextKeepsFrozen(m.0, ev.op); }
    }
  }

  // ---------- the filter object ----------

  ghost function Cell(a: array<real>, i: nat, j: nat): real
    requires a.Length == 81 && i < 9 && j < 9
    reads a
  {
    a[i * 9 + j]
  }

  ghost function Table(a: array<real>): (M: Mat)
    requires a.Length == 81
    reads a
    ensures IsSquare(M, 9) && forall i: nat, j: nat {:trigger M[i][j]} :: i < 9 && j < 9 ==> M[i][j] == Cell(a, i, j)
  {
    seq(9, i requires 0 <= i < 9 reads a => seq(9, j requires 0 <= j < 9 reads a => Cell(a, i, j)))
  }

  method SetCell(a: array<real>, i: nat, j: nat, w: real)
    requires a.Length == 81 && i < 9 && j < 9
    modifies a
    ensures forall r: nat, c: nat {:trigger Cell(a, r, c)} :: r < 9 && c < 9 ==>
      Cell(a, r, c) == if r == i && c == j then w else old(Cell(a, r, c))
  {
    a[i * 9 + j] := w;
  }

  /** Cells before (i, j) in row order. */
  predicate Before(r: nat, c: nat, i: nat, j: nat) { r < i || (r == i && c < j) }

  /** Ekf9Gate_t, updated in place by GateStepOn. */
  class GateRecord {
    var gate: Gate
    constructor (g: Gate)
      ensures gate == g
    {
      gate := g;
    }
  }

  class Filter9 {
    const x: array<real>
    const P: array<real>
    const q: array<real>
    const K: array<real>
    const Po: array<real>
    const AP: array<real>
    var rOf: real
    var rAcc: real
    var rZ: real
    var active: bool

    ghost predicate Valid() {
      x.Length == 9 && P.Length == 81 && q.Length == 9 && K.Length == 27 && Po.Length == 81 && AP.Length == 81 &&
      P != Po && P != AP && x != q
    }

    ghost function State(): (e: Ekf)
      requires Valid()
      reads this, x, P, q
      ensures Shaped(e)
    {
      Ekf(x[..], Table(P), q[..], rOf, rAcc, rZ, active)
    }

    /** Column c of the stored gain. */
    ghost function StoredGain(c: nat): (k: Vec)
      requires Valid() && c < 3
      reads K
      ensures |k| == 9 && forall i {:trigger k[i]} :: 0 <= i < 9 ==> k[i] == K[i * 3 + c]
    {
      seq(9, i requires 0 <= i < 9 reads K => K[i * 3 + c])
    }

    /** The two Joseph passes for measured states m0, m1 and gain columns c0, c1; second half of both updates. */
    method JosephPasses(m0: nat, c0: nat, m1: nat, c1: nat, R: real)
      requires Valid() && m0 < 9 && m1 < 9 && c0 < 3 && c1 < 3
      modifies P, AP
      ensures Table(P) == Joseph(old(Table(P)), m0, StoredGain(c0), m1, StoredGain(c1), R)
    {
      hide Lower, GainNoise;
      ghost var M, k0, k1 := Table(P), StoredGain(c0), StoredGain(c1);
      for i := 0 to 9
        invariant forall r: nat, c: nat {:trigger Cell(AP, r, c)} :: r < i && c < 9 ==> Cell(AP, r, c) == Residual(M, m0, k0, m1, k1, r, c)
        modifies AP
      {
        for j := 0 to 9
          invariant forall r: nat, c: nat {:trigger Cell(AP, r, c)} :: r < 9 && c < 9 && Before(r, c, i, j) ==>
            Cell(AP, r, c) == Residual(M, m0, k0, m1, k1, r, c)
          modifies AP
        {
          assert Cell(P, i, j) == M[i][j] && Cell(P, m0, j) == M[m0][j] && Cell(P, m1, j) == M[m1][j];
          SetCell(AP, i, j, Lower(P[i * 9 + j], K[i * 3 + c0], P[m0 * 9 + j], K[i * 3 + c1], P[m1 * 9 + j]));
        }
      }
      for i := 0 to 9
        invariant forall r: nat, c: nat {:trigger Cell(P, r, c)} :: r < i && c < 9 ==> Cell(P, r, c) == JosephEntry(M, m0, k0, m1, k1, R, r, c)
        modifies P
      {
        for j := 0 to 9
          invariant forall r: nat, c: nat {:trigger Cell(P, r, c)} :: r < 9 && c < 9 && Before(r, c, i, j) ==>
            Cell(P, r, c) == JosephEntry(M, m0, k0, m1, k1, R, r, c)
          modifies P
        {
          assert Cell(AP, i, j) == Residual(M, m0, k0, m1, k1, i, j);
          assert Cell(AP, i, m0) == Residual(M, m0, k0, m1, k1, i, m0);
          assert Cell(AP, i, m1) == Residual(M, m0, k0, m1, k1, i, m1);
          SetCell(P, i, j, Lower(AP[i * 9 + j], AP[i * 9 + m0], K[j * 3 + c0], AP[i * 9 + m1], K[j * 3 + c1])
                           + GainNoise(R, K[i * 3 + c0], K[j * 3 + c0], K[i * 3 + c1], K[j * 3 + c1]));
        }
      }
      MatEqual(Table(P), Joseph(M, m0, k0, m1, k1, R), 9);
    }

    /** The two passes of the scalar Z update. */
    method JosephPassesZ(R: real)
      requires Valid()
      modifies P, AP
      ensures Table(P) == Joseph(old(Table(P)), 2, StoredGain(2), 2, ZERO9, R)
    {
      hide Lower1, GainNoise1;
      ghost var M, k := Table(P), StoredGain(2);
      for i := 0 to 9
        invariant forall r: nat, c: nat {:trigger Cell(AP, r, c)} :: r < i && c < 9 ==> Cell(AP, r, c) == ZResidual(M, k, r, c)
        modifies AP
      {
        var ki := K[i * 3 + 2];
        for j := 0 to 9
          invariant forall r: nat, c: nat {:trigger Cell(AP, r, c)} :: r < 9 && c < 9 && Before(r, c, i, j) ==>
            Cell(AP, r, c) == ZResidual(M, k, r, c)
          modifies AP
        {
          assert Cell(P, i, j) == M[i][j] && Cell(P, 2, j) == M[2][j];
          SetCell(AP, i, j, Lower1(P[i * 9 + j], ki, P[2 * 9 + j]));
        }
      }
      for i := 0 to 9
        invariant forall r: nat, c: nat {:trigger Cell(P, r, c)} :: r < i && c < 9 ==> Cell(P, r, c) == ZEntry(M, k, R, r, c)
        modifies P
      {
        for j := 0 to 9
          invariant forall r: nat, c: nat {:trigger Cell(P, r, c)} :: r < 9 && c < 9 && Before(r, c, i, j) ==>
            Cell(P, r, c) == ZEntry(M, k, R, r, c)
          modifies P
        {
          assert Cell(AP, i, j) == ZResidual(M, k, i, j);
          assert Cell(AP, i, 2) == ZResidual(M, k, i, 2);
          SetCell(P, i, j, Lower1(AP[i * 9 + j], AP[i * 9 + 2], K[j * 3 + 2]) + GainNoise1(R, K[i * 3 + 2], K[j * 3 + 2]));
        }
      }
      forall i: nat, j: nat {:trigger Table(P)[i][j]} | i < 9 && j < 9 ensures Table(P)[i][j] == Joseph(M, 2, k, 2, ZERO9, R)[i][j] {
        ZEntryIsJoseph(M, k, R, i, j);
      }
      MatEqual(Table(P), Joseph(M, 2, k, 2, ZERO9, R), 9);
    }

    /** Gain columns 0 and 1. */
    method StoreGains(R: real)
      requires Valid() && InnovationDet(Table(P), R) > 0.0
      modifies K
      ensures StoredGain(0) == GainColumn(Table(P), R, 0) && StoredGain(1) == GainColumn(Table(P), R, 1)
    {
      ghost var M := Table(P);
      var inv := Invert(R);
      hide Inverse2, Det2, StoredGain, Mix;
      for i := 0 to 9
        invariant forall r {:trigger StoredGain(0)[r]} :: 0 <= r < i ==> StoredGain(0)[r] == GainEntry(M, R, r, 0)
        invariant forall r {:trigger StoredGain(1)[r]} :: 0 <= r < i ==> StoredGain(1)[r] == GainEntry(M, R, r, 1)
        modifies K
      {
        assert Cell(P, i, 0) == M[i][0] && Cell(P, i, 1) == M[i][1];
        SetGain(i, 0, Mix(P[i * 9], inv.0, P[i * 9 + 1], inv.2));
        SetGain(i, 1, Mix(P[i * 9], inv.1, P[i * 9 + 1], inv.3));
      }
    }

    method Invert(R: real) returns (inv: (real, real, real, real))
      requires Valid() && InnovationDet(Table(P), R) > 0.0
      ensures inv == InnovationInverse(Table(P), R)
    {
      ghost var M := Table(P);
      assert Cell(P, 0, 0) == M[0][0] && Cell(P, 0, 1) == M[0][1] && Cell(P, 1, 0) == M[1][0] && Cell(P, 1, 1) == M[1][1];
      hide Inverse2, Det2;
      inv := Inverse2(P[0] + R, P[1], P[9], P[10] + R);
    }

    method SetGain(i: nat, c: nat, w: real)
      requires Valid() && i < 9 && c < 3
      modifies K
      ensures StoredGain(c) == old(StoredGain(c))[i := w]
      ensures forall d: nat :: d < 3 && d != c ==> StoredGain(d) == old(StoredGain(d))
    {
      K[i * 3 + c] := w;
    }

    method Update2x2(y0: real, y1: real, R: real)
      requires Valid()
      modifies x, P, K, AP
      ensures State() == Updated2(old(State()), y0, y1, R)
    {
      ghost var M := Table(P);
      assert Cell(P, 0, 0) == M[0][0] && Cell(P, 0, 1) == M[0][1] && Cell(P, 1, 0) == M[1][0] && Cell(P, 1, 1) == M[1][1];
      hide Det2;
      var det := Det2(P[0] + R, P[1], P[9], P[10] + R);
      if det <= 0.0 { return; }
      Absorb2(y0, y1, R);
    }

    method Absorb2(y0: real, y1: real, R: real)
      requires Valid() && InnovationDet(Table(P), R) > 0.0
      modifies x, P, K, AP
      ensures var e := old(State()); var k0, k1 := GainColumn(e.P, R, 0), GainColumn(e.P, R, 1);
              State() == e.(x := Corrected(e.x, k0, y0, k1, y1), P := Joseph(e.P, 0, k0, 1, k1, R))
    {
      hide InnovationDet, Joseph, GainColumn, Corrected, Table;
      StoreGains(R);
      Correct2(y0, y1);
      JosephPasses(0, 0, 1, 1, R);
    }

    /** x += K y over gain columns 0 and 1. */
    method Correct2(y0: real, y1: real)
      requires Valid()
      modifies x
      ensures x[..] == Corrected(old(x[..]), StoredGain(0), y0, StoredGain(1), y1)
    {
      ghost var k0, k1 := StoredGain(0), StoredGain(1);
      hide Correction;
      for i := 0 to 9
        invariant forall r :: 0 <= r < 9 ==> x[r] == if r < i then old(x[r]) + Correction(k0[r], y0, k1[r], y1) else old(x[r])
        modifies x
      {
        assert k0[i] == K[i * 3 + 0] && k1[i] == K[i * 3 + 1];
        x[i] := x[i] + Correction(K[i * 3], y0, K[i * 3 + 1], y1);
      }
      assert x[..] == Corrected(old(x[..]), k0, y0, k1, y1);
    }

    method CorrectZ(y: real)
      requires Valid()
      modifies x
      ensures x[..] == Corrected(old(x[..]), StoredGain(2), y, ZERO9, 0.0)
    {
      ghost var k := StoredGain(2);
      for i := 0 to 9
        invariant forall r :: 0 <= r < 9 ==> x[r] == if r < i then old(x[r]) + Correction(k[r], y, ZERO9[r], 0.0) else old(x[r])
        modifies x
      {
        assert k[i] == K[i * 3 + 2];
        x[i] := x[i] + K[i * 3 + 2] * y;
      }
      assert x[..] == Corrected(old(x[..]), k, y, ZERO9, 0.0);
    }

    method StoreGainZ(s: real)
      requires Valid() && s > 0.0
      modifies K
      ensures StoredGain(2) == ZGain(Table(P), s)
    {
      ghost var M := Table(P);
      for i := 0 to 9
        invariant forall r {:trigger StoredGain(2)[r]} :: 0 <= r < i ==> StoredGain(2)[r] == M[r][2] / s
        modifies K
      {
        assert Cell(P, i, 2) == M[i][2];
        SetGain(i, 2, P[i * 9 + 2] / s);
      }
    }

    // ---------- the public calls ----------

    constructor ()
      ensures Valid() && fresh(x) && fresh(P) && fresh(q) && fresh(K) && fresh(Po) && fresh(AP)
    {
      x, P, q, K, Po, AP := new real[9], new real[81], new real[9], new real[27], new real[81], new real[81];
      rOf, rAcc, rZ, active := 0.0, 0.0, 0.0, false;
    }

    method Init(on: bool)
      requires Valid()
      modifies this, x, P, q, K
      ensures State() == Next(old(State()), Op.Init(on))
    {
      for i := 0 to 9
        invariant forall k :: 0 <= k < i ==> x[k] == 0.0
        modifies x
      {
        x[i] := 0.0;
      }
      hide Table;
      StoreDefaults();
      StoreDiagonal();
      rOf, rAcc, rZ := R_OF, R_ACC, R_Z;
      active := on;
      for i := 0 to 27
        modifies K
      {
        K[i] := 0.0;
      }
      assert x[..] == ZERO9;
    }

    method StoreDefaults()
      requires Valid()
      modifies q
      ensures q[..] == seq(9, i requires 0 <= i < 9 => DefaultNoise(i))
    {
      q[0], q[1], q[2] := Q_V, Q_V, Q_V;
      q[3], q[4], q[5] := Q_BA, Q_BA, Q_BA;
      q[6], q[7], q[8] := Q_BG, Q_BG, Q_BG;
    }

    method StoreDiagonal()
      requires Valid() && q[..] == Initial(true).q
      modifies P
      ensures Table(P) == Initial(true).P
    {
      for i := 0 to 9
        invariant forall r: nat, c: nat {:trigger Cell(P, r, c)} :: r < i && c < 9 ==> Cell(P, r, c) == if r == c then q[r] else 0.0
        modifies P
      {
        for j := 0 to 9
          invariant forall r: nat, c: nat {:trigger Cell(P, r, c)} :: r < 9 && c < 9 && Before(r, c, i, j) ==>
            Cell(P, r, c) == if r == c then q[r] else 0.0
          modifies P
        {
          SetCell(P, i, j, if i == j then q[i] else 0.0);
        }
      }
      ghost var M := Initial(true).P;
      assert forall r :: 0 <= r < 9 ==> q[r] == DefaultNoise(r);
      hide DefaultNoise;
      MatEqual(Table(P), M, 9);
    }

    method Predict(a0: real, a1: real, a2: real, dt: real)
      requires Valid()
      modifies x, P, Po
      ensures State() == Next(old(State()), Op.Predict(a0, a1, a2, dt))
    {
      if !active { return; }
      hide Driven;
      x[0] := Driven(x[0], a0, x[3], dt);
      x[1] := Driven(x[1], a1, x[4], dt);
      x[2] := Driven(x[2], a2, x[5], dt);
      assert x[..] == Predicted(old(State()), a0, a1, a2, dt).x;
      PredictCovarianceInPlace(dt);
    }

    method PredictCovarianceInPlace(dt: real)
      requires Valid()
      modifies P, Po
      ensures Table(P) == PredictedCovariance(old(Table(P)), q[..], dt)
    {
      hide RowShift, PredictEntry, TwoSided, DiagonalNoise;
      ghost var M := Table(P);
      Snapshot();
      AddNP(M, dt);
      AddPNt(M, dt);
      AddNPNt(M, dt);
      AddNoise(dt);
      forall r: nat, c: nat {:trigger Table(P)[r][c]} | r < 9 && c < 9 ensures Table(P)[r][c] == PredictEntry(M, q[..], dt, r, c) {
        PredictAt(M, q[..], dt, r, c);
      }
      MatEqual(Table(P), PredictedCovariance(M, q[..], dt), 9);
    }

    method Snapshot()
      requires Valid()
      modifies Po
      ensures Table(Po) == Table(P)
    {
      for a := 0 to 81
        invariant forall k :: 0 <= k < a ==> Po[k] == P[k]
        modifies Po
      {
        Po[a] := P[a];
      }
      forall i: nat, j: nat {:trigger Table(Po)[i][j]} | i < 9 && j < 9 ensures Table(Po)[i][j] == Table(P)[i][j] {
        assert Cell(Po, i, j) == Cell(P, i, j);
      }
      MatEqual(Table(Po), Table(P), 9);
    }

    /** N P: rows 0..2. */
    method AddNP(ghost M: Mat, dt: real)
      requires Valid() && IsSquare(M, 9) && Table(P) == Table(Po) == M
      modifies P
      ensures forall r: nat, c: nat {:trigger Cell(P, r, c)} :: r < 9 && c < 9 ==> Cell(P, r, c) == RowShift(M, dt, r, c)
    {
      hide RowShift;
      forall r: nat, c: nat {:trigger Cell(P, r, c)} | r < 9 && c < 9 ensures Cell(P, r, c) == Cell(Po, r, c) == M[r][c] {
        assert Table(P)[r][c] == M[r][c] && Table(Po)[r][c] == M[r][c];
      }
      for i := 0 to 3
        invariant forall r: nat, c: nat {:trigger Cell(P, r, c)} :: r < 9 && c < 9 ==>
          Cell(P, r, c) == if r < i then RowShift(M, dt, r, c) else M[r][c]
        modifies P
      {
        for j := 0 to 9
          invariant forall r: nat, c: nat {:trigger Cell(P, r, c)} :: r < 9 && c < 9 ==>
            Cell(P, r, c) == if Before(r, c, i, j) then RowShift(M, dt, r, c) else M[r][c]
          modifies P
        {
          assert Cell(P, i, j) == M[i][j] && Table(Po)[i + 3][j] == M[i + 3][j];
          RowShiftAt(M, dt, i, j);
          SetCell(P, i, j, P[i * 9 + j] + -dt * Po[(i + 3) * 9 + j]);
        }
      }
      forall r: nat, c: nat {:trigger Cell(P, r, c)} | r < 9 && c < 9 ensures Cell(P, r, c) == RowShift(M, dt, r, c) {
        if r >= 3 { RowShiftAt(M, dt, r, c); }
      }
    }

    /** P N': columns 0..2. */
    method AddPNt(ghost M: Mat, dt: real)
      requires Valid() && IsSquare(M, 9) && Table(Po) == M
      requires forall r: nat, c: nat {:trigger Cell(P, r, c)} :: r < 9 && c < 9 ==> Cell(P, r, c) == RowShift(M, dt, r, c)
      modifies P
      ensures forall r: nat, c: nat {:trigger Cell(P, r, c)} :: r < 9 && c < 9 ==> Cell(P, r, c) == OneCorner(M, dt, r, c)
    {
      hide RowShift, OneCorner;
      for i := 0 to 9
        invariant forall r: nat, c: nat {:trigger Cell(P, r, c)} :: r < 9 && c < 9 ==>
          Cell(P, r, c) == if r < i && c < 3 then OneCorner(M, dt, r, c) else RowShift(M, dt, r, c)
        modifies P
      {
        for j := 0 to 3
          invariant forall r: nat, c: nat {:trigger Cell(P, r, c)} :: r < 9 && c < 9 ==>
            Cell(P, r, c) == if c < 3 && Before(r, c, i, j) then OneCorner(M, dt, r, c) else RowShift(M, dt, r, c)
          modifies P
        {
          assert Cell(P, i, j) == RowShift(M, dt, i, j) && Table(Po)[i][j + 3] == M[i][j + 3];
          OneCornerAt(M, dt, i, j);
          SetCell(P, i, j, P[i * 9 + j] + -dt * Po[i * 9 + (j + 3)]);
        }
      }
      forall r: nat, c: nat {:trigger Cell(P, r, c)} | r < 9 && c < 9 ensures Cell(P, r, c) == OneCorner(M, dt, r, c) {
        OneCornerAt(M, dt, r, c);
      }
    }

    /** N P N': the 3x3 corner. */
    method AddNPNt(ghost M: Mat, dt: real)
      requires Valid() && IsSquare(M, 9) && Table(Po) == M
      requires forall r: nat, c: nat {:trigger Cell(P, r, c)} :: r < 9 && c < 9 ==> Cell(P, r, c) == OneCorner(M, dt, r, c)
      modifies P
      ensures forall r: nat, c: nat {:trigger Cell(P, r, c)} :: r < 9 && c < 9 ==> Cell(P, r, c) == TwoSided(M, dt, r, c)
    {
      hide TwoSided, OneCorner;
      for i := 0 to 3
        invariant forall r: nat, c: nat {:trigger Cell(P, r, c)} :: r < 9 && c < 9 ==>
          Cell(P, r, c) == if r < i && c < 3 then TwoSided(M, dt, r, c) else OneCorner(M, dt, r, c)
        modifies P
      {
        for j := 0 to 3
          invariant forall r: nat, c: nat {:trigger Cell(P, r, c)} :: r < 9 && c < 9 ==>
            Cell(P, r, c) == if c < 3 && Before(r, c, i, j) then TwoSided(M, dt, r, c) else OneCorner(M, dt, r, c)
          modifies P
        {
          assert Cell(P, i, j) == OneCorner(M, dt, i, j) && Table(Po)[i + 3][j + 3] == M[i + 3][j + 3];
          TwoSidedAt(M, dt, i, j);
          SetCell(P, i, j, P[i * 9 + j] + dt * dt * Po[(i + 3) * 9 + (j + 3)]);
        }
      }
      forall r: nat, c: nat {:trigger Cell(P, r, c)} | r < 9 && c < 9 ensures Cell(P, r, c) == TwoSided(M, dt, r, c) {
        TwoSidedAt(M, dt, r, c);
      }
    }

    method AddNoise(dt: real)
      requires Valid()
      modifies P
      ensures forall r: nat, c: nat {:trigger Cell(P, r, c)} :: r < 9 && c < 9 ==>
        Cell(P, r, c) == old(Cell(P, r, c)) + if r == c then DiagonalNoise(q[..], dt, r) else 0.0
    {
      var d := [dt * dt * q[0], dt * dt * q[1], dt * dt * q[2], q[3], q[4], q[5], q[6], q[7], q[8]];
      assert forall i :: 0 <= i < 9 ==> d[i] == DiagonalNoise(q[..], dt, i);
      hide DiagonalNoise;
      for i := 0 to 9
        invariant forall r: nat, c: nat {:trigger Cell(P, r, c)} :: r < 9 && c < 9 ==>
          Cell(P, r, c) == old(Cell(P, r, c)) + if r == c && r < i then d[r] else 0.0
        modifies P
      {
        assert Cell(P, i, i) == old(Cell(P, i, i));
        SetCell(P, i, i, P[i * 9 + i] + d[i]);
      }
    }

    method UpdateOf(zx: real, zy: real)
      requires Valid()
      modifies x, P, K, AP
      ensures State() == Next(old(State()), Op.UpdateOf(zx, zy))
    {
      if !active { return; }
      Update2x2(zx - x[0], zy - x[1], rOf);
    }

    method UpdateAccXY(zx: real, zy: real)
      requires Valid()
      modifies x, P, K, AP
      ensures State() == Next(old(State()), Op.UpdateAcc(zx, zy))
    {
      if !active { return; }
      Update2x2(zx - x[0], zy - x[1], rAcc);
    }

    method UpdateZRate(z: real)
      requires Valid()
      modifies x, P, K, AP
      ensures State() == Next(old(State()), Op.UpdateZ(z))
    {
      if !active { return; }
      ghost var M := Table(P);
      assert Cell(P, 2, 2) == M[2][2];
      var y := z - x[2];
      var s := P[2 * 9 + 2] + rZ;
      if s <= 0.0 { return; }
      AbsorbZ(y, s);
    }

    method AbsorbZ(y: real, s: real)
      requires Valid() && s > 0.0
      modifies x, P, K, AP
      ensures var e := old(State()); var k := ZGain(e.P, s);
              State() == e.(x := Corrected(e.x, k, y, ZERO9, 0.0), P := Joseph(e.P, 2, k, 2, ZERO9, e.rZ))
    {
      hide Joseph, ZGain, Corrected, Table;
      StoreGainZ(s);
      CorrectZ(y);
      JosephPassesZ(rZ);
    }

    method SetBiasFrozen(frozen: bool)
      requires Valid()
      modifies P, q
      ensures State() == Next(old(State()), Op.SetBias(frozen))
    {
      ghost var M := Table(P);
      for i := 3 to 9
        invariant forall k :: 0 <= k < 9 ==> q[k] == if 3 <= k < i then BiasNoise(k, frozen) else old(q[k])
        invariant forall r: nat, c: nat {:trigger Cell(P, r, c)} :: r < 9 && c < 9 ==>
          Cell(P, r, c) == if !(3 <= r < i) && !(3 <= c < i) then M[r][c] else if r == c then BiasNoise(r, frozen) else 0.0
        modifies P, q
      {
        q[i] := if frozen then 0.0 else if i < 6 then Q_BA else Q_BG;
        for j := 0 to 9
          invariant forall r: nat, c: nat {:trigger Cell(P, r, c)} :: r < 9 && c < 9 ==>
            Cell(P, r, c) == if (r == i && c < j) || (c == i && r < j) then 0.0
                             else if !(3 <= r < i) && !(3 <= c < i) then M[r][c] else if r == c then BiasNoise(r, frozen) else 0.0
          modifies P
        {
          SetCell(P, i, j, 0.0);
          SetCell(P, j, i, 0.0);
        }
        SetCell(P, i, i, q[i]);
      }
      assert q[..] == BiasSet(old(State()), frozen).q;
      MatEqual(Table(P), BiasSet(old(State()), frozen).P, 9);
    }

    method ApplyRequests(g: GateRecord, flying: bool)
      requires Valid()
      modifies this, x, P, q, K, g
      ensures (State(), g.gate) == Requested(old(State()), old(g.gate), flying)
    {
      hide Initial, Table;
      if !flying {
        if g.gate.reinit {
          Init(active);
          g.gate := g.gate.(reinit := false, healthy := true, frozen := NONE_YET);
        }
        if g.gate.modeReq <= BIAS_GATED { g.gate := g.gate.(mode := g.gate.modeReq); }
        g.gate := g.gate.(ctrl := if g.gate.ctrlReq != 0 then 1 else 0);
      }
    }

    method ApplyFreeze(g: GateRecord, flying: bool)
      requires Valid()
      modifies P, q, g
      ensures (State(), g.gate) == FreezeApplied(old(State()), old(g.gate), flying)
    {
      hide BiasSet, Table;
      var frozen := if WantsFrozen(g.gate.mode, flying) then 1 else 0;
      if frozen != g.gate.frozen {
        SetBiasFrozen(frozen == 1);
        g.gate := g.gate.(frozen := frozen);
      }
    }

    /** Called after every filter step; g is the gate record it owns. */
    method GateStepOn(g: GateRecord, flying: bool)
      requires Valid()
      modifies this, x, P, q, K, g
      ensures (State(), g.gate) == GateStep(old(State()), old(g.gate), flying)
    {
      hide Requested, FreezeApplied, Healthy, Table;
      ApplyRequests(g, flying);
      ApplyFreeze(g, flying);
      var ok := CheckHealthy();
      if g.gate.healthy && !(active && ok) {
        g.gate := g.gate.(healthy := false, fallbacks := (g.gate.fallbacks + 1) % U32);
      }
      g.gate := g.gate.(vx := x[0] * 100.0, vy := x[1] * 100.0);
    }

    method CheckHealthy() returns (ok: bool)
      requires Valid()
      ensures ok == Healthy(x[..], Table(P)[0][0], Table(P)[1][1])
    {
      assert Cell(P, 0, 0) == Table(P)[0][0] && Cell(P, 1, 1) == Table(P)[1][1];
      for i := 0 to 3
        invariant forall k :: 0 <= k < i ==> -VEL_LIM < x[k] < VEL_LIM
      {
        if !(x[i] < VEL_LIM && x[i] > -VEL_LIM) { return false; }
      }
      for i := 0 to 2
        invariant i > 0 ==> 0.0 <= P[0] < PVV_LIM
        invariant i > 1 ==> 0.0 <= P[10] < PVV_LIM
      {
        if !(P[i * 10] >= 0.0 && P[i * 10] < PVV_LIM) { return false; }
      }
      return true;
    }
  }

  function Lower1(p: real, a: real, x: real): real { p - a * x }

  function GainNoise1(R: real, a: real, b: real): real { R * a * b }

  function ZResidual(P: Mat, k: Vec, i: nat, j: nat): real
    requires IsSquare(P, 9) && |k| == 9 && i < 9 && j < 9
  {
    Lower1(P[i][j], k[i], P[2][j])
  }

  function ZEntry(P: Mat, k: Vec, R: real, i: nat, j: nat): real
    requires IsSquare(P, 9) && |k| == 9 && i < 9 && j < 9
  {
    Lower1(ZResidual(P, k, i, j), ZResidual(P, k, i, 2), k[j]) + GainNoise1(R, k[i], k[j])
  }

  lemma ZEntryIsJoseph(P: Mat, k: Vec, R: real, i: nat, j: nat)
    requires IsSquare(P, 9) && |k| == 9 && i < 9 && j < 9
    ensures ZEntry(P, k, R, i, j) == JosephEntry(P, 2, k, 2, ZERO9, R, i, j)
  {
    assert Residual(P, 2, k, 2, ZERO9, i, j) == ZResidual(P, k, i, j);
    assert Residual(P, 2, k, 2, ZERO9, i, 2) == ZResidual(P, k, i, 2);
    assert R * k[i] * k[j] == R * (k[i] * k[j]);
  }

  lemma RowShiftAt(P: Mat, dt: real, i: nat, j: nat)
    requires IsSquare(P, 9) && i < 9 && j < 9
    ensures RowShift(P, dt, i, j) == if i < 3 then P[i][j] + -dt * P[i + 3][j] else P[i][j]
  {
  }

  /** F P F' at (i, j), before noise. */
  function TwoSided(P: Mat, dt: real, i: nat, j: nat): real
    requires IsSquare(P, 9) && i < 9 && j < 9
  {
    RowShift(P, dt, i, j) - if j < 3 then dt * RowShift(P, dt, i, j + 3) else 0.0
  }

  /** P + N P + P N' at (i, j). */
  function OneCorner(P: Mat, dt: real, i: nat, j: nat): real
    requires IsSquare(P, 9) && i < 9 && j < 9
  {
    RowShift(P, dt, i, j) + if j < 3 then -dt * P[i][j + 3] else 0.0
  }

  lemma OneCornerAt(P: Mat, dt: real, i: nat, j: nat)
    requires IsSquare(P, 9) && i < 9 && j < 9
    ensures OneCorner(P, dt, i, j) == if j < 3 then RowShift(P, dt, i, j) + -dt * P[i][j + 3] else RowShift(P, dt, i, j)
  {
    hide RowShift;
  }

  lemma TwoSidedAt(P: Mat, dt: real, i: nat, j: nat)
    requires IsSquare(P, 9) && i < 9 && j < 9
    ensures TwoSided(P, dt, i, j) ==
      if i < 3 && j < 3 then OneCorner(P, dt, i, j) + dt * dt * P[i + 3][j + 3] else OneCorner(P, dt, i, j)
  {
    if i < 3 && j < 3 {
      var a, b := P[i][j + 3], P[i + 3][j + 3];
      assert RowShift(P, dt, i, j + 3) == a - dt * b;
      assert dt * (a - dt * b) == dt * a - dt * (dt * b);
      assert dt * (dt * b) == dt * dt * b;
    }
  }

  lemma PredictAt(P: Mat, q: Vec, dt: real, i: nat, j: nat)
    requires IsSquare(P, 9) && |q| == 9 && i < 9 && j < 9
    ensures PredictEntry(P, q, dt, i, j) == TwoSided(P, dt, i, j) + if i == j then DiagonalNoise(q, dt, i) else 0.0
  {
  }
}
