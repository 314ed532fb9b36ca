/** API/ekf_of.c: the optical-flow Kalman filter. */
module EkfOf {
  // Two decoupled 4-state axes (position, velocity, flow bias, accel bias) over an 8-entry state and two flat 4x4
  // covariance blocks. Axis and Next describe one axis and one call as values; class OfFilter is the filter itself,
  // with the loops that rewrite its arrays in place. Floats are exact reals.

  import opened Reals
  import opened LinAlg

  const S_MIN := 0.00000001
  const VEL_P0 := 0.1
  const POS_P0 := 1.0
  const REJ_RELEASE := 5
  const U32 := 0x1_0000_0000

  datatype Noise = Noise(qPos: real, qAcc: real, qBof: real, qBa: real,
                         rOf: real, rOf1: real, rZupt: real, ofGate: real, of1Gate: real)

  const DEFAULT_NOISE := Noise(0.05, 0.001, 0.00001, 0.000001, 0.0001, 0.001, 0.0001, 5.0, 10.0)

  predicate NonNegative(n: Noise) {
    n.qPos >= 0.0 && n.qAcc >= 0.0 && n.qBof >= 0.0 && n.qBa >= 0.0 && n.rOf >= 0.0 && n.rZupt >= 0.0
  }

  /** One axis: local states [p, v, bof, ba], their covariance, and the gate bookkeeping. */
  datatype Axis = Axis(x: Vec, P: Mat, innov: real, rej: nat, rejRun: nat, posRejRun: nat)

  ghost predicate Shaped(a: Axis) { |a.x| == 4 && IsSquare(a.P, 4) }

  const H_OF: Vec := [0.0, 1.0, 1.0, 0.0]
  const H_VEL: Vec := [0.0, 1.0, 0.0, 0.0]
  const H_POS: Vec := [1.0, 0.0, 0.0, 0.0]

  // ---------- one axis, one operation ----------

  function Transition(dt: real): (F: Mat)
    ensures IsSquare(F, 4)
  {
    [[1.0, dt, 0.0, -0.5 * (dt * dt)],
     [0.0, 1.0, 0.0, -dt],
     [0.0, 0.0, 1.0, 0.0],
     [0.0, 0.0, 0.0, 1.0]]
  }

  function ProcessNoise(n: Noise, dt: real): (d: Vec)
    ensures |d| == 4
  {
    [n.qPos * dt, n.qAcc * dt, n.qBof * dt, n.qBa * dt]
  }

  /** F P F' + Q dt. */
  ghost function PredictedCovariance(P: Mat, n: Noise, dt: real): (Q: Mat)
    requires IsSquare(P, 4)
    ensures IsSquare(Q, 4)
  {
    var F, d := Transition(dt), ProcessNoise(n, dt);
    seq(4, i requires 0 <= i < 4 =>
      seq(4, j requires 0 <= j < 4 => Bil(P, F[i], F[j], 4) + if i == j then d[i] else 0.0))
  }

  function Advanced(p: real, v: real, dt: real, u: real): real {
    p + (v * dt + 0.5 * u * dt * dt)
  }

  function Accelerated(v: real, dt: real, u: real): real {
    v + u * dt
  }

  /** Constant acceleration u over dt. */
  function Moved(x: Vec, dt: real, u: real): (y: Vec)
    requires |x| == 4
    ensures |y| == 4
  {
    [Advanced(x[0], x[1], dt, u), Accelerated(x[1], dt, u), x[2], x[3]]
  }

  ghost function Predicted(a: Axis, n: Noise, dt: real, acc: real): (b: Axis)
    requires Shaped(a)
    ensures Shaped(b)
  {
    a.(x := Moved(a.x, dt, acc - a.x[3]), P := PredictedCovariance(a.P, n, dt))
  }

  /** Innovation variance h'Ph + R, floored. */
  function InnovationVariance(P: Mat, h: Vec, R: real): (S: real)
    requires IsSquare(P, 4) && |h| == 4
    ensures S >= S_MIN && S >= Bil(P, h, h, 4) + R
  {
    var S := Bil(P, h, h, 4) + R;
    if S < S_MIN then S_MIN else S
  }

  function Innovation(x: Vec, h: Vec, z: real): real
    requires |x| == 4 && |h| == 4
  {
    z - DotN(h, x, 4)
  }

  predicate Gated(a: Axis, h: Vec, z: real, R: real, gate: real)
    requires |a.x| == 4 && IsSquare(a.P, 4) && |h| == 4
  {
    var y := Innovation(a.x, h, z);
    gate > 0.0 && y * y > gate * gate * InnovationVariance(a.P, h, R)
  }

  /** The stored upper triangle is the one the update trusts; the lower one is rewritten from it. */
  function Upper(P: Mat, i: nat, j: nat): real
    requires IsSquare(P, 4) && i < 4 && j < 4
  {
    if i <= j then P[i][j] else P[j][i]
  }

  function Reduced(P: Mat, g: Vec, S: real, i: nat, j: nat): real
    requires IsSquare(P, 4) && i < 4 && j < 4 && |g| == 4 && S > 0.0
  {
    Upper(P, i, j) - g[i] * g[j] / S
  }

  /** K[i] = PHt[i] / S. */
  function Gain(g: real, S: real): real
    requires S > 0.0
  {
    g / S
  }

  /** One entry of K y. */
  function Correction(k: real, y: real): real { k * y }

  /** What one covariance entry loses: K PHt' + PHt K' - K S K'. */
  function Loss(ki: real, kj: real, gi: real, gj: real, S: real): real {
    ki * gj + kj * gi - ki * kj * S
  }

  /** The Kalman posterior of one scalar measurement z = h'x + noise(R). */
  ghost function Posterior(a: Axis, h: Vec, z: real, R: real): (b: Axis)
    requires Shaped(a) && |h| == 4
    ensures Shaped(b)
  {
    var g, S, y := MulVec(a.P, h, 4), InnovationVariance(a.P, h, R), Innovation(a.x, h, z);
    a.(x := seq(4, i requires 0 <= i < 4 => a.x[i] + Correction(Gain(g[i], S), y)),
       P := seq(4, i requires 0 <= i < 4 => seq(4, j requires 0 <= j < 4 => Reduced(a.P, g, S, i, j))))
  }

  /** A measurement reads and writes state and covariance only. */
  lemma PosteriorApart(a: Axis, h: Vec, z: real, R: real, innov: real, rej: nat, rejRun: nat)
    requires Shaped(a) && |h| == 4
    ensures Posterior(a.(innov := innov, rej := rej, rejRun := rejRun), h, z, R) ==
      Posterior(a, h, z, R).(innov := innov, rej := rej, rejRun := rejRun)
  {
    hide Reduced, Correction;
  }

  ghost function UpdatedOne(a: Axis, h: Vec, z: real, R: real, gate: real): (b: Axis)
    requires Shaped(a) && |h| == 4
    ensures Shaped(b)
  {
    if Gated(a, h, z, R, gate) then a else Posterior(a, h, z, R)
  }

  /** Variance of state l back to p0, uncorrelated with the rest. */
  ghost function Released(a: Axis, l: nat, p0: real): (b: Axis)
    requires Shaped(a) && l < 4
    ensures Shaped(b) && IsReset(b.P, a.P, l, p0, 4)
  {
    a.(P := seq(4, i requires 0 <= i < 4 => seq(4, j requires 0 <= j < 4 =>
      if i == l && j == l then p0 else if i == l || j == l then 0.0 else a.P[i][j])))
  }

  ghost function OfAxis(a: Axis, n: Noise, z: real): (b: Axis)
    requires Shaped(a)
    ensures Shaped(b)
  {
    var a1 := a.(innov := Innovation(a.x, H_OF, z));
    if !Gated(a, H_OF, z, n.rOf, n.ofGate) then Posterior(a1, H_OF, z, n.rOf).(rejRun := 0)
    else
      var a2 := a1.(rej := (a.rej + 1) % U32);
      if a.rejRun + 1 < REJ_RELEASE then a2.(rejRun := a.rejRun + 1)
      else Posterior(Released(a2.(rejRun := 0), 1, VEL_P0), H_OF, z, n.rOf)
  }

  ghost function PosAxis(a: Axis, z: real, R: real, gate: real): (b: Axis)
    requires Shaped(a)
    ensures Shaped(b)
  {
    if !Gated(a, H_POS, z, R, gate) then Posterior(a, H_POS, z, R).(posRejRun := 0)
    else if a.posRejRun + 1 < REJ_RELEASE then a.(posRejRun := a.posRejRun + 1)
    else Posterior(Released(a.(posRejRun := 0), 0, POS_P0), H_POS, z, R)
  }

  // ---------- the whole filter ----------

  datatype Filter = Filter(ax: Axis, ay: Axis, noise: Noise, inited: bool)

  datatype Op =
    | Init
    | Predict(dt: real, accX: real, accY: real)
    | Update(zx: real, zy: real)
    | UpdateRaw(zx: real, zy: real)
    | UpdatePos(zx: real, zy: real, R: real, gate: real)
    | UpdateZeroVel
    | ResetBias(variance: real)
    | ResetPos

  function InitialAxis(): (a: Axis)
    ensures |a.x| == 4 && IsSquare(a.P, 4)
  {
    Axis([0.0, 0.0, 0.0, 0.0],
         [[POS_P0, 0.0, 0.0, 0.0], [0.0, VEL_P0, 0.0, 0.0], [0.0, 0.0, 0.01, 0.0], [0.0, 0.0, 0.0, 0.25]],
         0.0, 0, 0, 0)
  }

  ghost predicate ShapedFilter(f: Filter) { Shaped(f.ax) && Shaped(f.ay) }

  ghost function ZeroedBias(a: Axis, variance: real): (b: Axis)
    requires Shaped(a)
    ensures Shaped(b)
  {
    Released(a, 2, variance).(x := a.x[2 := 0.0])
  }

  ghost function Next(f: Filter, op: Op): (f': Filter)
    requires ShapedFilter(f)
    ensures ShapedFilter(f')
  {
    if op.Init? then Filter(InitialAxis(), InitialAxis(), DEFAULT_NOISE, true)
    else if !f.inited then f
    else
      var n := f.noise;
      match op
      case Predict(dt, accX, accY) => f.(ax := Predicted(f.ax, n, dt, accX), ay := Predicted(f.ay, n, dt, accY))
      case Update(zx, zy) => f.(ax := OfAxis(f.ax, n, zx), ay := OfAxis(f.ay, n, zy))
      case UpdateRaw(zx, zy) =>
        if n.rOf1 <= 0.0 then f
        else f.(ax := UpdatedOne(f.ax, H_VEL, zx, n.rOf1, n.of1Gate), ay := UpdatedOne(f.ay, H_VEL, zy, n.rOf1, n.of1Gate))
      case UpdatePos(zx, zy, R, gate) => f.(ax := PosAxis(f.ax, zx, R, gate), ay := PosAxis(f.ay, zy, R, gate))
      case UpdateZeroVel => f.(ax := Posterior(f.ax, H_VEL, 0.0, n.rZupt), ay := Posterior(f.ay, H_VEL, 0.0, n.rZupt))
      case ResetBias(variance) => f.(ax := ZeroedBias(f.ax, variance), ay := ZeroedBias(f.ay, variance))
      case ResetPos => f.(ax := f.ax.(x := f.ax.x[0 := 0.0]), ay := f.ay.(x := f.ay.x[0 := 0.0]))
      case Init => f
  }

  /** What the caller promises: time does not run backwards and variances are not negative. */
  predicate Admissible(op: Op) {
    match op
    case Predict(dt, _, _) => dt >= 0.0
    case UpdatePos(_, _, R, _) => R >= 0.0
    case ResetBias(variance) => variance >= 0.0
    case _ => true
  }

  ghost function Run(f: Filter, ops: seq<Op>): (f': Filter)
    requires ShapedFilter(f)
    ensures ShapedFilter(f')
  {
    if ops == [] then f else Next(Run(f, ops[..|ops| - 1]), ops[|ops| - 1])
  }

  ghost predicate SoundAxis(a: Axis) {
    |a.x| == 4 && Covariance(a.P, 4) && a.rejRun < REJ_RELEASE && a.posRejRun < REJ_RELEASE
  }

  /** From the first Init on, both axes hold a covariance. */
  ghost predicate Sound(f: Filter) {
    ShapedFilter(f) && (f.inited ==> SoundAxis(f.ax) && SoundAxis(f.ay) && NonNegative(f.noise))
  }

  // ---------- every operation keeps a covariance ----------

  lemma PredictKeepsCovariance(P: Mat, n: Noise, dt: real)
    requires Covariance(P, 4) && NonNegative(n) && dt >= 0.0
    ensures Covariance(PredictedCovariance(P, n, dt), 4)
  {
    hide Bil, Psd, DotN;
    var F, d := Transition(dt), ProcessNoise(n, dt);
    var C := seq(4, i requires 0 <= i < 4 => seq(4, j requires 0 <= j < 4 => Bil(P, F[i], F[j], 4)));
    CongruenceCovariance(C, F, P, 4);
    NoiseNonNegative(n, dt);
    DiagonalCovariance(PredictedCovariance(P, n, dt), C, d, 4);
  }

  lemma NoiseNonNegative(n: Noise, dt: real)
    requires NonNegative(n) && dt >= 0.0
    ensures forall k :: 0 <= k < 4 ==> ProcessNoise(n, dt)[k] >= 0.0
  {
  }

  lemma PosteriorAt(a: Axis, h: Vec, z: real, R: real, i: nat, j: nat)
    requires Shaped(a) && |h| == 4 && i < 4 && j < 4 && (i == j || Symmetric(a.P, 4))
    ensures var g, S := MulVec(a.P, h, 4), InnovationVariance(a.P, h, R);
            Posterior(a, h, z, R).P[i][j] == a.P[i][j] - g[i] * g[j] / S
  {
    hide DotN, Bil, InnovationVariance, Innovation;
  }

  lemma PosteriorOuterAt(a: Axis, h: Vec, z: real, R: real, g: Vec, S: real, s: Vec, i: nat, j: nat)
    requires Shaped(a) && |h| == 4 && Symmetric(a.P, 4) && i < 4 && j < 4
    requires g == MulVec(a.P, h, 4) && S == InnovationVariance(a.P, h, R) && IsScaled(s, -1.0 / S, g)
    ensures Posterior(a, h, z, R).P[i][j] == a.P[i][j] + s[i] * g[j]
  {
    hide DotN, MulVec, InnovationVariance, Posterior;
    PosteriorAt(a, h, z, R, i, j);
    ScaledQuotient(g[i], g[j], S);
  }

  /** Posterior in outer-product form: P + s g' with s = -g / S. */
  lemma PosteriorOuter(a: Axis, h: Vec, z: real, R: real, g: Vec, S: real, s: Vec)
    requires Shaped(a) && |h| == 4 && Symmetric(a.P, 4)
    requires g == MulVec(a.P, h, 4) && S == InnovationVariance(a.P, h, R) && IsScaled(s, -1.0 / S, g)
    ensures IsOuterSum(Posterior(a, h, z, R).P, a.P, s, g, 4)
  {
    hide DotN, MulVec, InnovationVariance, Posterior, Symmetric;
    var Q := Posterior(a, h, z, R).P;
    forall i, j {:trigger Q[i][j]} | 0 <= i < 4 && 0 <= j < 4 ensures Q[i][j] == a.P[i][j] + s[i] * g[j] {
      PosteriorOuterAt(a, h, z, R, g, S, s, i, j);
    }
  }

  lemma UpdateKeepsCovariance(a: Axis, h: Vec, z: real, R: real)
    requires Shaped(a) && Covariance(a.P, 4) && |h| == 4 && R >= 0.0
    ensures Covariance(Posterior(a, h, z, R).P, 4)
  {
    hide Bil, Psd, DotN, Posterior;
    var g, S := MulVec(a.P, h, 4), InnovationVariance(a.P, h, R);
    var s := seq(4, i requires 0 <= i < 4 => (-1.0 / S) * g[i]);
    PosteriorOuter(a, h, z, R, g, S, s);
    MeasurementCovariance(Posterior(a, h, z, R).P, a.P, h, s, S, 4);
  }

  lemma ScaledQuotient(x: real, y: real, S: real)
    requires S > 0.0
    ensures ((-1.0 / S) * x) * y == -(x * y / S)
  {
    var c := -1.0 / S;
    assert (c * x) * y == c * (x * y);
  }

  lemma ReleaseKeepsCovariance(a: Axis, l: nat, p0: real)
    requires Shaped(a) && Covariance(a.P, 4) && l < 4 && p0 >= 0.0
    ensures Covariance(Released(a, l, p0).P, 4)
  {
    hide Psd;
    ResetCovariance(Released(a, l, p0).P, a.P, l, p0, 4);
  }

  lemma PosteriorSound(a: Axis, h: Vec, z: real, R: real)
    requires SoundAxis(a) && |h| == 4 && R >= 0.0
    ensures SoundAxis(Posterior(a, h, z, R))
  {
    UpdateKeepsCovariance(a, h, z, R);
  }

  lemma ReleasedSound(a: Axis, l: nat, p0: real)
    requires SoundAxis(a) && l < 4 && p0 >= 0.0
    ensures SoundAxis(Released(a, l, p0))
  {
    ReleaseKeepsCovariance(a, l, p0);
  }

  lemma OfAxisSound(a: Axis, n: Noise, z: real)
    requires SoundAxis(a) && NonNegative(n)
    ensures SoundAxis(OfAxis(a, n, z))
  {
    assert Shaped(a);
    hide Covariance, Posterior, Released, Gated, Innovation;
    var a1 := a.(innov := Innovation(a.x, H_OF, z));
    PosteriorSound(a1, H_OF, z, n.rOf);
    var a2 := a1.(rej := (a.rej + 1) % U32, rejRun := 0);
    ReleasedSound(a2, 1, VEL_P0);
    PosteriorSound(Released(a2, 1, VEL_P0), H_OF, z, n.rOf);
  }

  lemma PosAxisSound(a: Axis, z: real, R: real, gate: real)
    requires SoundAxis(a) && R >= 0.0
    ensures SoundAxis(PosAxis(a, z, R, gate))
  {
    assert Shaped(a);
    hide Covariance, Posterior, Released, Gated;
    PosteriorSound(a, H_POS, z, R);
    var a1 := a.(posRejRun := 0);
    ReleasedSound(a1, 0, POS_P0);
    PosteriorSound(Released(a1, 0, POS_P0), H_POS, z, R);
  }

  lemma InitialSound()
    ensures SoundAxis(InitialAxis())
  {
    var P, d := InitialAxis().P, [POS_P0, VEL_P0, 0.01, 0.25];
    var zero := [0.0, 0.0, 0.0, 0.0];
    var Z := [zero, zero, zero, zero];
    forall v: Vec {:trigger Bil(Z, v, v, 4)} | |v| == 4 ensures Bil(Z, v, v, 4) >= 0.0 {
      DotZero(zero, v, 4);
      DotZero(MulVec(Z, v, 4), v, 4);
      DotCommutes(v, MulVec(Z, v, 4), 4);
    }
    DiagonalCovariance(P, Z, d, 4);
  }

  /** One call keeps both covariances symmetric positive semidefinite and both run counters short. */
  lemma NextSound(f: Filter, op: Op)
    requires Sound(f) && Admissible(op)
    ensures Sound(Next(f, op))
  {
    hide Covariance, Posterior, Released, Gated, OfAxis, PosAxis, PredictedCovariance, Moved;
    InitialSound();
    if f.inited {
      match op
      case Init =>
      case Predict(dt, _, _) =>
        PredictKeepsCovariance(f.ax.P, f.noise, dt);
        PredictKeepsCovariance(f.ay.P, f.noise, dt);
      case Update(zx, zy) =>
        OfAxisSound(f.ax, f.noise, zx);
        OfAxisSound(f.ay, f.noise, zy);
      case UpdateRaw(zx, zy) =>
        if f.noise.rOf1 > 0.0 {
          PosteriorSound(f.ax, H_VEL, zx, f.noise.rOf1);
          PosteriorSound(f.ay, H_VEL, zy, f.noise.rOf1);
        }
      case UpdatePos(zx, zy, R, gate) =>
        PosAxisSound(f.ax, zx, R, gate);
        PosAxisSound(f.ay, zy, R, gate);
      case UpdateZeroVel =>
        PosteriorSound(f.ax, H_VEL, 0.0, f.noise.rZupt);
        PosteriorSound(f.ay, H_VEL, 0.0, f.noise.rZupt);
      case ResetBias(variance) =>
        ReleasedSound(f.ax, 2, variance);
        ReleasedSound(f.ay, 2, variance);
      case ResetPos =>
    }
  }

  /** Every run: any order of predicts, updates, lockout releases and resets. */
  lemma {:induction false} RunSound(f: Filter, ops: seq<Op>)
    requires Sound(f) && forall k :: 0 <= k < |ops| ==> Admissible(ops[k])
    ensures Sound(Run(f, ops))
  {
    if ops != [] {
      var before := ops[..|ops| - 1];
      RunSound(f, before);
      NextSound(Run(f, before), ops[|ops| - 1]);
    }
  }

  // ---------- what an update does to the estimate ----------

  /** A measurement never widens a variance. */
  lemma UpdateShrinksVariance(a: Axis, h: Vec, z: real, R: real, i: nat)
    requires Shaped(a) && |h| == 4 && i < 4
    ensures Posterior(a, h, z, R).P[i][i] <= a.P[i][i]
  {
    PosteriorAt(a, h, z, R, i, i);
    hide *;
    var x, S := MulVec(a.P, h, 4)[i], InnovationVariance(a.P, h, R);
    assert x * x >= 0.0;
    assert x * x / S >= 0.0;
  }

  /** P+ h = P h (S - h'Ph) / S. */
  lemma PosteriorTimes(a: Axis, h: Vec, z: real, R: real, i: nat)
    requires Shaped(a) && |h| == 4 && Symmetric(a.P, 4) && i < 4
    ensures var g, S := MulVec(a.P, h, 4), InnovationVariance(a.P, h, R);
            MulVec(Posterior(a, h, z, R).P, h, 4)[i] == Times(Gain(g[i], S), S - Bil(a.P, h, h, 4))
  {
    hide DotN, Posterior, InnovationVariance, Symmetric;
    var g, S := MulVec(a.P, h, 4), InnovationVariance(a.P, h, R);
    var s := seq(4, k requires 0 <= k < 4 => (-1.0 / S) * g[k]);
    PosteriorOuter(a, h, z, R, g, S, s);
    DotCommutes(g, h, 4);
    OuterRow(Posterior(a, h, z, R).P, a.P, s, g, h, 4, Bil(a.P, h, h, 4), i);
    LostShare(g[i], Bil(a.P, h, h, 4), S, s[i]);
  }

  lemma LostShare(g: real, c: real, S: real, s: real)
    requires S > 0.0 && s == (-1.0 / S) * g
    ensures g + c * s == Times(Gain(g, S), S - c)
  {
    var q, k := -1.0 / S, g / S;
    assert q * S == -1.0 && k * S == g;
    assert (s + k) * S == (q * S) * g + k * S;
    assert s == -k;
    assert k * (S - c) == k * S - k * c;
  }

  /** How far a measurement moves each state: P+ h (z - h'x) / R, the Kalman correction read off the new covariance. */
  lemma UpdateMoves(a: Axis, h: Vec, z: real, R: real, i: nat)
    requires Shaped(a) && |h| == 4 && Symmetric(a.P, 4) && i < 4 && Bil(a.P, h, h, 4) + R >= S_MIN
    ensures var b := Posterior(a, h, z, R); R * (b.x[i] - a.x[i]) == MulVec(b.P, h, 4)[i] * (z - DotN(h, a.x, 4))
  {
    hide DotN, Bil, MulVec, Posterior, InnovationVariance, Gain, Correction, Symmetric, Times;
    var b := Posterior(a, h, z, R);
    MovesBy(a, h, z, R, i, b.x[i] - a.x[i], MulVec(b.P, h, 4)[i], z - DotN(h, a.x, 4));
  }

  lemma MovesBy(a: Axis, h: Vec, z: real, R: real, i: nat, move: real, ph: real, y: real)
    requires Shaped(a) && |h| == 4 && Symmetric(a.P, 4) && i < 4 && Bil(a.P, h, h, 4) + R >= S_MIN
    requires var b := Posterior(a, h, z, R); move == b.x[i] - a.x[i] && ph == MulVec(b.P, h, 4)[i] && y == z - DotN(h, a.x, 4)
    ensures R * move == ph * y
  {
    hide DotN, Bil, MulVec, Posterior, InnovationVariance, Gain, Correction, Symmetric, Times;
    var g, S := MulVec(a.P, h, 4)[i], InnovationVariance(a.P, h, R);
    PosteriorTimes(a, h, z, R, i);
    NotFloored(a.P, h, R);
    PosteriorState(a, h, z, R, i, y);
    ShareMoves(g, S, S - Bil(a.P, h, h, 4), R, y, move, ph);
  }

  lemma ShareMoves(g: real, S: real, left: real, R: real, y: real, move: real, ph: real)
    requires S > 0.0 && left == R && move == Correction(Gain(g, S), y) && ph == Times(Gain(g, S), left)
    ensures R * move == ph * y
  {
    var q := g / S;
    assert ph == R * q;
    assert R * (q * y) == (R * q) * y;
  }

  lemma NotFloored(P: Mat, h: Vec, R: real)
    requires IsSquare(P, 4) && |h| == 4 && Bil(P, h, h, 4) + R >= S_MIN
    ensures InnovationVariance(P, h, R) - Bil(P, h, h, 4) == R
  {
    hide Bil;
  }

  lemma PosteriorState(a: Axis, h: Vec, z: real, R: real, i: nat, y: real)
    requires Shaped(a) && |h| == 4 && i < 4 && y == z - DotN(h, a.x, 4)
    ensures Posterior(a, h, z, R).x[i] == a.x[i] + Correction(Gain(MulVec(a.P, h, 4)[i], InnovationVariance(a.P, h, R)), y)
  {
    hide DotN, Bil, MulVec, Reduced, Gain, Correction, InnovationVariance, Innovation;
    InnovationIs(a.x, h, z, y);
  }

  lemma InnovationIs(x: Vec, h: Vec, z: real, y: real)
    requires |x| == 4 && |h| == 4 && y == z - DotN(h, x, 4)
    ensures Innovation(x, h, z) == y
  {
    hide DotN;
  }

  /** A measurement, with the floor or without, brings the estimate nearer to it and never past it. */
  lemma UpdateClosesIn(a: Axis, h: Vec, z: real, R: real)
    requires Shaped(a) && |h| == 4 && Covariance(a.P, 4) && R >= 0.0
    ensures var b, y := Posterior(a, h, z, R), z - DotN(h, a.x, 4);
      var r := z - DotN(h, b.x, 4);
      (y >= 0.0 ==> 0.0 <= r <= y) && (y <= 0.0 ==> y <= r <= 0.0)
  {
    hide DotN, Covariance, Posterior, Bil;
    ClosesInBy(a, h, z, R, z - DotN(h, a.x, 4), Bil(a.P, h, h, 4));
  }

  lemma ClosesInBy(a: Axis, h: Vec, z: real, R: real, y: real, c: real)
    requires Shaped(a) && |h| == 4 && Covariance(a.P, 4) && R >= 0.0 && y == z - DotN(h, a.x, 4) && c == Bil(a.P, h, h, 4)
    ensures var r := z - DotN(h, Posterior(a, h, z, R).x, 4);
      (y >= 0.0 ==> 0.0 <= r <= y) && (y <= 0.0 ==> y <= r <= 0.0)
  {
    hide DotN, Covariance, Posterior, InnovationVariance, Gain, MulVec, Bil, Times;
    VarianceSign(a.P, h);
    ResidualAfter(a, h, z, R, y, c);
    ShareLeft(c, InnovationVariance(a.P, h, R), y);
  }

  lemma ResidualAfter(a: Axis, h: Vec, z: real, R: real, y: real, c: real)
    requires Shaped(a) && |h| == 4 && y == z - DotN(h, a.x, 4) && c == Bil(a.P, h, h, 4)
    ensures z - DotN(h, Posterior(a, h, z, R).x, 4) == y - Times(Gain(y, InnovationVariance(a.P, h, R)), c)
  {
    hide DotN, Posterior, InnovationVariance, Gain, MulVec, Times;
    var b, g, q := Posterior(a, h, z, R).x, MulVec(a.P, h, 4), Gain(y, InnovationVariance(a.P, h, R));
    forall k {:trigger b[k]} | 0 <= k < 4 ensures b[k] == a.x[k] + Times(q, g[k]) {
      StateAlong(a, h, z, R, k, y);
    }
    DotAlong(b, a.x, q, g, h, 4);
  }

  lemma StateAlong(a: Axis, h: Vec, z: real, R: real, k: nat, y: real)
    requires Shaped(a) && |h| == 4 && k < 4 && y == z - DotN(h, a.x, 4)
    ensures Posterior(a, h, z, R).x[k] == a.x[k] + Times(Gain(y, InnovationVariance(a.P, h, R)), MulVec(a.P, h, 4)[k])
  {
    hide DotN, Posterior, InnovationVariance, Gain, Correction, MulVec, Bil, Times;
    PosteriorState(a, h, z, R, k, y);
    SwapShare(MulVec(a.P, h, 4)[k], InnovationVariance(a.P, h, R), y);
  }

  function Times(x: real, y: real): real { x * y }

  lemma SwapShare(g: real, S: real, y: real)
    requires S > 0.0
    ensures Correction(Gain(g, S), y) == Times(Gain(y, S), g)
  {
    var q, r := g / S, y / S;
    assert q * S == g && r * S == y;
    assert (q * y) * S == (r * g) * S;
  }

  lemma {:induction false} DotAlong(q: Vec, p: Vec, d: real, s: Vec, v: Vec, n: nat)
    requires n <= |q| && n <= |p| && n <= |s| && n <= |v|
    requires forall i {:trigger q[i]} :: 0 <= i < n ==> q[i] == p[i] + Times(d, s[i])
    ensures DotN(v, q, n) == DotN(v, p, n) + Times(d, DotN(v, s, n))
  {
    hide Times, DotN;
    if n > 0 {
      DotAlong(q, p, d, s, v, n - 1);
      DotStep(v, q, n);
      DotStep(v, p, n);
      DotStep(v, s, n);
      AlongStep(q[n - 1], p[n - 1], d, s[n - 1], v[n - 1], DotN(v, q, n - 1), DotN(v, p, n - 1), DotN(v, s, n - 1),
                DotN(v, q, n), DotN(v, p, n), DotN(v, s, n));
    } else {
      DotEmpty(v, q);
      DotEmpty(v, p);
      DotEmpty(v, s);
      TimesZero(d);
    }
  }

  lemma TimesZero(d: real)
    ensures Times(d, 0.0) == 0.0
  {
  }

  lemma AlongStep(q: real, p: real, d: real, s: real, v: real, q0: real, p0: real, s0: real, q1: real, p1: real, s1: real)
    requires q == p + Times(d, s) && q0 == p0 + Times(d, s0) && q1 == q0 + v * q && p1 == p0 + v * p && s1 == s0 + v * s
    ensures q1 == p1 + Times(d, s1)
  {
    assert v * q == v * p + d * (v * s);
  }

  lemma ShareLeft(c: real, S: real, y: real)
    requires 0.0 <= c <= S && S > 0.0
    ensures var r := y - Times(Gain(y, S), c); (y >= 0.0 ==> 0.0 <= r <= y) && (y <= 0.0 ==> y <= r <= 0.0)
  {
    var q := y / S;
    assert q * S == y;
    if y >= 0.0 {
      assert q >= 0.0;
      assert 0.0 <= q * c <= q * S;
    } else {
      assert q <= 0.0;
      assert q * S <= q * c <= 0.0;
    }
  }

  lemma VarianceSign(P: Mat, h: Vec)
    requires |h| == 4 && Covariance(P, 4)
    ensures Bil(P, h, h, 4) >= 0.0 && Bil(P, h, h, 4) == DotN(h, MulVec(P, h, 4), 4)
  {
    hide DotN, MulVec;
  }

  /** The variance along v of the error left by x + k (z - h'x), for a gain k of one's own choosing. */
  ghost function ErrorVariance(P: Mat, h: Vec, R: real, k: Vec, v: Vec): real
    requires IsSquare(P, 4) && |h| == |k| == |v| == 4
  {
    var t := DotN(v, k, 4);
    Spread(P, h, v, t) + R * (t * t)
  }

  /** The variance of v - t h. */
  ghost function Spread(P: Mat, h: Vec, v: Vec, t: real): real
    requires IsSquare(P, 4) && |h| == |v| == 4
  {
    var w := seq(4, i requires 0 <= i < 4 => v[i] - t * h[i]);
    Bil(P, w, w, 4)
  }

  /** A gain that makes these corrections. */
  ghost predicate Applies(a: Axis, b: Axis, k: Vec, y: real) {
    |a.x| == |b.x| == |k| == 4 && forall i {:trigger k[i]} :: 0 <= i < 4 ==> b.x[i] - a.x[i] == k[i] * y
  }

  /** No other linear gain leaves less uncertainty in any direction, and the one applied leaves just what P+ says. */
  lemma UpdateIsBest(a: Axis, h: Vec, z: real, R: real, k: Vec, v: Vec)
    requires Shaped(a) && |h| == |k| == |v| == 4 && Symmetric(a.P, 4) && Bil(a.P, h, h, 4) + R >= S_MIN
    ensures Bil(Posterior(a, h, z, R).P, v, v, 4) <= ErrorVariance(a.P, h, R, k, v)
    ensures z != DotN(h, a.x, 4) && Applies(a, Posterior(a, h, z, R), k, z - DotN(h, a.x, 4)) ==>
      Bil(Posterior(a, h, z, R).P, v, v, 4) == ErrorVariance(a.P, h, R, k, v)
  {
    hide DotN, Bil, Posterior, Symmetric, Applies, ErrorVariance, MulVec, InnovationVariance;
    var t, d, c, S := DotN(v, k, 4), Bil(a.P, v, h, 4), Bil(a.P, h, h, 4), InnovationVariance(a.P, h, R);
    NotFloored(a.P, h, R);
    ErrorIs(a.P, h, R, k, v, t, -t, d, c);
    PosteriorForm(a, h, z, R, v, d);
    if z != DotN(h, a.x, 4) && Applies(a, Posterior(a, h, z, R), k, z - DotN(h, a.x, 4)) {
      DotCommutes(k, v, 4);
      AppliedAlong(a, h, z, R, k, v, z - DotN(h, a.x, 4), d, S, t);
    }
    SquareLeft(Bil(a.P, v, v, 4), t, -t, d, c, S, R);
  }

  lemma ErrorIs(P: Mat, h: Vec, R: real, k: Vec, v: Vec, t: real, n: real, d: real, c: real)
    requires IsSquare(P, 4) && |h| == |k| == |v| == 4 && Symmetric(P, 4)
    requires t == DotN(v, k, 4) && n == -t && d == Bil(P, v, h, 4) && c == Bil(P, h, h, 4)
    ensures ErrorVariance(P, h, R, k, v) == Bil(P, v, v, 4) + 2.0 * n * d + n * n * c + R * (t * t)
  {
    hide DotN, Bil, Symmetric, Spread;
    SpreadIs(P, h, v, t, n, d, c);
  }

  lemma SpreadIs(P: Mat, h: Vec, v: Vec, t: real, n: real, d: real, c: real)
    requires IsSquare(P, 4) && |h| == |v| == 4 && Symmetric(P, 4) && n == -t && d == Bil(P, v, h, 4) && c == Bil(P, h, h, 4)
    ensures Spread(P, h, v, t) == Bil(P, v, v, 4) + 2.0 * n * d + n * n * c
  {
    hide DotN, Bil, Symmetric;
    var w := seq(4, i requires 0 <= i < 4 => v[i] - t * h[i]);
    forall i | 0 <= i < 4 ensures w[i] == v[i] + n * h[i] { Negated(t, n, h[i]); }
    QuadraticBy(P, v, h, n, w, d, c);
  }

  lemma QuadraticBy(P: Mat, v: Vec, h: Vec, n: real, w: Vec, d: real, c: real)
    requires IsSquare(P, 4) && |h| == |v| == |w| == 4 && Symmetric(P, 4) && d == Bil(P, v, h, 4) && c == Bil(P, h, h, 4)
    requires forall i :: 0 <= i < 4 ==> w[i] == v[i] + n * h[i]
    ensures Bil(P, w, w, 4) == Bil(P, v, v, 4) + 2.0 * n * d + n * n * c
  {
    hide Bil, Symmetric;
    BilQuadratic(P, v, h, n, w, 4);
  }

  lemma Negated(t: real, n: real, x: real)
    requires n == -t
    ensures n * x == -(t * x)
  {
  }

  lemma PosteriorForm(a: Axis, h: Vec, z: real, R: real, v: Vec, d: real)
    requires Shaped(a) && |h| == |v| == 4 && Symmetric(a.P, 4) && d == Bil(a.P, v, h, 4)
    ensures Bil(Posterior(a, h, z, R).P, v, v, 4) == Bil(a.P, v, v, 4) + d * ((-1.0 / InnovationVariance(a.P, h, R)) * d)
  {
    hide DotN, Posterior, Symmetric, InnovationVariance;
    var g, S := MulVec(a.P, h, 4), InnovationVariance(a.P, h, R);
    var s := seq(4, i requires 0 <= i < 4 => (-1.0 / S) * g[i]);
    PosteriorOuter(a, h, z, R, g, S, s);
    DotCommutes(g, v, 4);
    DotScaled(s, -1.0 / S, g, v, 4);
    OuterForm(Posterior(a, h, z, R).P, a.P, s, g, v, 4, d, DotN(s, v, 4));
  }

  /** The applied gain is P h / S. */
  lemma AppliedAlong(a: Axis, h: Vec, z: real, R: real, k: Vec, v: Vec, y: real, d: real, S: real, t: real)
    requires Shaped(a) && |h| == |k| == |v| == 4 && Symmetric(a.P, 4) && d == Bil(a.P, v, h, 4)
    requires y == z - DotN(h, a.x, 4) && y != 0.0 && Applies(a, Posterior(a, h, z, R), k, y)
    requires S == InnovationVariance(a.P, h, R) && t == DotN(k, v, 4)
    ensures S * t == d
  {
    hide DotN, Posterior, Symmetric, InnovationVariance, Applies, MulVec, IsScaled, Bil;
    AppliedScaled(a, h, z, R, k, y, S);
    BilIs(a.P, v, h, MulVec(a.P, h, 4));
    DotCommutes(MulVec(a.P, h, 4), v, 4);
    ScaledAlong(MulVec(a.P, h, 4), S, k, v, t);
  }

  lemma ScaledAlong(g: Vec, S: real, k: Vec, v: Vec, t: real)
    requires IsScaled(g, S, k) && |k| == |v| == 4 && t == DotN(k, v, 4)
    ensures DotN(g, v, 4) == S * t
  {
    hide DotN;
    DotScaled(g, S, k, v, 4);
  }

  lemma AppliedScaled(a: Axis, h: Vec, z: real, R: real, k: Vec, y: real, S: real)
    requires Shaped(a) && |h| == |k| == 4 && y == z - DotN(h, a.x, 4) && y != 0.0 && Applies(a, Posterior(a, h, z, R), k, y)
    requires S == InnovationVariance(a.P, h, R)
    ensures IsScaled(MulVec(a.P, h, 4), S, k)
  {
    hide DotN, Posterior, InnovationVariance, Applies, MulVec;
    forall i | 0 <= i < 4 ensures MulVec(a.P, h, 4)[i] == S * k[i] { AppliedGain(a, h, z, R, k, y, i); }
  }

  lemma BilIs(P: Mat, v: Vec, h: Vec, g: Vec)
    requires IsSquare(P, 4) && |h| == |v| == 4 && g == MulVec(P, h, 4)
    ensures Bil(P, v, h, 4) == DotN(v, g, 4)
  {
    hide DotN, MulVec;
  }

  lemma AppliedGain(a: Axis, h: Vec, z: real, R: real, k: Vec, y: real, i: nat)
    requires Shaped(a) && |h| == |k| == 4 && i < 4 && y == z - DotN(h, a.x, 4) && y != 0.0 && Applies(a, Posterior(a, h, z, R), k, y)
    ensures MulVec(a.P, h, 4)[i] == InnovationVariance(a.P, h, R) * k[i]
  {
    hide DotN, Posterior, InnovationVariance, Gain, Correction, MulVec, Bil, Applies, Times;
    PosteriorState(a, h, z, R, i, y);
    AppliesAt(a, Posterior(a, h, z, R), k, y, i);
    SameGain(MulVec(a.P, h, 4)[i], InnovationVariance(a.P, h, R), y, k[i]);
  }

  lemma AppliesAt(a: Axis, b: Axis, k: Vec, y: real, i: nat)
    requires Applies(a, b, k, y) && i < 4
    ensures b.x[i] - a.x[i] == Times(k[i], y)
  {
  }

  lemma SameGain(g: real, S: real, y: real, k: real)
    requires S > 0.0 && y != 0.0
    ensures Correction(Gain(g, S), y) == Times(k, y) ==> g == S * k
  {
    var q := g / S;
    assert q * S == g;
    if q * y == k * y { assert (q - k) * y == 0.0; }
  }

  lemma SquareLeft(m: real, t: real, n: real, d: real, c: real, S: real, R: real)
    requires S > 0.0 && S - c == R && n == -t
    ensures var left, other := m + d * ((-1.0 / S) * d), m + 2.0 * n * d + n * n * c + R * (t * t);
      left <= other && (S * t == d ==> left == other)
  {
    var q, e := -1.0 / S, S * t - d;
    assert q * S == -1.0;
    assert (d * (q * d)) * S == (d * d) * (q * S);
    var gap := 2.0 * n * d + n * n * c + R * (t * t) - d * (q * d);
    assert gap == S * (t * t) - 2.0 * (t * d) - d * (q * d);
    assert gap * S == e * e;
    assert gap == (gap * S) * (-q);
    assert e * e >= 0.0 && -q >= 0.0;
  }

  // ---------- what a prediction does to the estimate ----------

  /** One axis of the craft itself: its position and velocity, and the biases of its sensors. */
  datatype Truth = Truth(p: real, v: real, bof: real, ba: real)

  function ErrorOf(x: Vec, s: Truth): (e: Vec)
    requires |x| == 4
    ensures |e| == 4
  {
    [x[0] - s.p, x[1] - s.v, x[2] - s.bof, x[3] - s.ba]
  }

  /** The craft accelerates at acc for a time dt and the accelerometer reads acc plus its bias: the error of the estimate
      becomes F times what it was, F being the matrix that carries the covariance. */
  lemma PredictFollows(a: Axis, n: Noise, dt: real, acc: real, s: Truth, i: nat)
    requires Shaped(a) && i < 4
    ensures var s1 := s.(p := s.p + s.v * dt + 0.5 * acc * (dt * dt), v := s.v + acc * dt);
      ErrorOf(Predicted(a, n, dt, acc + s.ba).x, s1)[i] == MulVec(Transition(dt), ErrorOf(a.x, s), 4)[i]
  {
    hide PredictedCovariance;
    DotFour(Transition(dt)[i], ErrorOf(a.x, s));
    ErrorMoves(a.x[0] - s.p, a.x[1] - s.v, a.x[3] - s.ba, dt);
  }

  /** What a prediction adds: the biases only drift, at their rates, and the velocity is carried by the accelerometer bias. */
  lemma PredictDrifts(P: Mat, n: Noise, dt: real)
    requires IsSquare(P, 4)
    ensures var Q := PredictedCovariance(P, n, dt);
      Q[2][2] == P[2][2] + n.qBof * dt && Q[3][3] == P[3][3] + n.qBa * dt &&
      Q[1][1] == P[1][1] - dt * P[3][1] - dt * (P[1][3] - dt * P[3][3]) + n.qAcc * dt
  {
    hide Bil, DotN, PredictedCovariance;
    EntryIs(P, n, dt, 1);
    EntryIs(P, n, dt, 2);
    EntryIs(P, n, dt, 3);
    UnitForm(P, Transition(dt)[2], 2);
    UnitForm(P, Transition(dt)[3], 3);
    VelocityForm(P, Transition(dt)[1], dt);
  }

  lemma EntryIs(P: Mat, n: Noise, dt: real, i: nat)
    requires IsSquare(P, 4) && i < 4
    ensures PredictedCovariance(P, n, dt)[i][i] == Bil(P, Transition(dt)[i], Transition(dt)[i], 4) + ProcessNoise(n, dt)[i]
  {
    hide Bil;
  }

  lemma UnitForm(P: Mat, f: Vec, i: nat)
    requires IsSquare(P, 4) && |f| == 4 && 2 <= i < 4 && forall k :: 0 <= k < 4 ==> f[k] == if k == i then 1.0 else 0.0
    ensures Bil(P, f, f, 4) == P[i][i]
  {
    hide DotN;
    DotFour(f, MulVec(P, f, 4));
    DotFour(P[i], f);
  }

  lemma VelocityForm(P: Mat, f: Vec, dt: real)
    requires IsSquare(P, 4) && f == [0.0, 1.0, 0.0, -dt]
    ensures Bil(P, f, f, 4) == P[1][1] - dt * P[3][1] - dt * (P[1][3] - dt * P[3][3])
  {
    hide DotN;
    DotFour(f, MulVec(P, f, 4));
    DotFour(P[1], f);
    DotFour(P[3], f);
    VelocityTerms(P[1][1], P[1][3], P[3][1], P[3][3], dt, -dt);
  }

  lemma VelocityTerms(p11: real, p13: real, p31: real, p33: real, dt: real, n: real)
    requires n == -dt
    ensures (p11 + p13 * n) + n * (p31 + p33 * n) == p11 - dt * p31 - dt * (p13 - dt * p33)
  {
  }

  lemma DotFour(u: Vec, v: Vec)
    requires |u| == |v| == 4
    ensures DotN(u, v, 4) == u[0] * v[0] + u[1] * v[1] + u[2] * v[2] + u[3] * v[3]
  {
    DotStep(u, v, 4);
    DotStep(u, v, 3);
    DotStep(u, v, 2);
    DotStep(u, v, 1);
  }

  lemma ErrorMoves(p: real, v: real, b: real, dt: real)
    ensures p + v * dt - 0.5 * b * dt * dt == 1.0 * p + dt * v + 0.0 + (-0.5 * (dt * dt)) * b
  {
  }

  // ---------- the gates let go ----------

  function AxisOf(f: Filter, y: bool): Axis { if y then f.ay else f.ax }

  /** A measurement entered the estimate: b holds the posterior from a, or from a with state l's variance re-opened. */
  ghost predicate Entered(a: Axis, b: Axis, h: Vec, z: real, R: real, l: nat, p0: real)
    requires Shaped(a) && |h| == 4 && l < 4
  {
    var p, r := Posterior(a, h, z, R), Posterior(Released(a, l, p0), h, z, R);
    (b.x == p.x && b.P == p.P) || (b.x == r.x && b.P == r.P)
  }

  /** The operation is a flow sample, and enters the estimate of that axis. */
  ghost predicate TakesFlow(f: Filter, op: Op, y: bool)
    requires ShapedFilter(f)
  {
    op.Update? && AxisOf(Next(f, op), y).rejRun == 0 &&
    Entered(AxisOf(f, y), AxisOf(Next(f, op), y), H_OF, if y then op.zy else op.zx, f.noise.rOf, 1, VEL_P0)
  }

  ghost predicate TakesFix(f: Filter, op: Op, y: bool)
    requires ShapedFilter(f)
  {
    op.UpdatePos? && AxisOf(Next(f, op), y).posRejRun == 0 &&
    Entered(AxisOf(f, y), AxisOf(Next(f, op), y), H_POS, if y then op.zy else op.zx, op.R, 0, POS_P0)
  }

  /** The k-th operation of a run. */
  ghost predicate FlowEnters(f: Filter, ops: seq<Op>, y: bool, k: nat)
    requires ShapedFilter(f) && k < |ops|
  {
    TakesFlow(Run(f, ops[..k]), ops[k], y)
  }

  ghost predicate FixEnters(f: Filter, ops: seq<Op>, y: bool, k: nat)
    requires ShapedFilter(f) && k < |ops|
  {
    TakesFix(Run(f, ops[..k]), ops[k], y)
  }

  function Flows(ops: seq<Op>): nat {
    if ops == [] then 0 else Flows(ops[..|ops| - 1]) + if ops[|ops| - 1].Update? then 1 else 0
  }

  function Fixes(ops: seq<Op>): nat {
    if ops == [] then 0 else Fixes(ops[..|ops| - 1]) + if ops[|ops| - 1].UpdatePos? then 1 else 0
  }

  predicate NoInit(ops: seq<Op>) { forall k :: 0 <= k < |ops| ==> !ops[k].Init? }

  /** What one operation does to the two runs of rejections: a sample or fix that does not enter lengthens its own, short
      of the release; whatever else is called leaves them alone. */
  lemma OneMoreRejected(f: Filter, op: Op, y: bool)
    requires ShapedFilter(f) && f.inited && !op.Init?
    ensures Next(f, op).inited
    ensures var a, b := AxisOf(f, y), AxisOf(Next(f, op), y);
      TakesFlow(f, op, y) || if op.Update? then b.rejRun == a.rejRun + 1 < REJ_RELEASE else b.rejRun == a.rejRun
    ensures var a, b := AxisOf(f, y), AxisOf(Next(f, op), y);
      TakesFix(f, op, y) || if op.UpdatePos? then b.posRejRun == a.posRejRun + 1 < REJ_RELEASE else b.posRejRun == a.posRejRun
  {
    hide Bil, DotN, MulVec, PredictedCovariance, Moved, InnovationVariance, Innovation;
    var a := AxisOf(f, y);
    match op
    case Update(zx, zy) => FlowOutcome(a, f.noise, if y then zy else zx);
    case UpdatePos(zx, zy, R, gate) => FixOutcome(a, if y then zy else zx, R, gate);
    case _ =>
  }

  lemma FlowOutcome(a: Axis, n: Noise, z: real)
    requires Shaped(a)
    ensures var b := OfAxis(a, n, z);
      (b.rejRun == 0 && Entered(a, b, H_OF, z, n.rOf, 1, VEL_P0)) || (b.rejRun == a.rejRun + 1 < REJ_RELEASE)
    ensures OfAxis(a, n, z).posRejRun == a.posRejRun
  {
    hide Bil, DotN;
  }

  lemma FixOutcome(a: Axis, z: real, R: real, gate: real)
    requires Shaped(a)
    ensures var b := PosAxis(a, z, R, gate);
      (b.posRejRun == 0 && Entered(a, b, H_POS, z, R, 0, POS_P0)) || (b.posRejRun == a.posRejRun + 1 < REJ_RELEASE)
    ensures PosAxis(a, z, R, gate).rejRun == a.rejRun
  {
    hide Bil, DotN;
  }

  lemma {:induction false} StreakGrows(f: Filter, ops: seq<Op>, y: bool)
    requires ShapedFilter(f) && f.inited && NoInit(ops) && AxisOf(f, y).rejRun < REJ_RELEASE && AxisOf(f, y).posRejRun < REJ_RELEASE
    ensures Run(f, ops).inited
    ensures var a, b := AxisOf(f, y), AxisOf(Run(f, ops), y);
      (forall k :: 0 <= k < |ops| ==> !FlowEnters(f, ops, y, k)) ==> b.rejRun == a.rejRun + Flows(ops) < REJ_RELEASE
    ensures var a, b := AxisOf(f, y), AxisOf(Run(f, ops), y);
      (forall k :: 0 <= k < |ops| ==> !FixEnters(f, ops, y, k)) ==> b.posRejRun == a.posRejRun + Fixes(ops) < REJ_RELEASE
  {
    hide Next, TakesFlow, TakesFix, Covariance;
    if ops != [] {
      var before, last := ops[..|ops| - 1], |ops| - 1;
      StreakGrows(f, before, y);
      assert forall k :: 0 <= k < last ==> before[..k] == ops[..k];
      assert forall k :: 0 <= k < last ==> (FlowEnters(f, before, y, k) <==> FlowEnters(f, ops, y, k));
      assert forall k :: 0 <= k < last ==> (FixEnters(f, before, y, k) <==> FixEnters(f, ops, y, k));
      OneMoreRejected(Run(f, before), ops[last], y);
      assert FlowEnters(f, ops, y, last) <==> TakesFlow(Run(f, before), ops[last], y);
      assert FixEnters(f, ops, y, last) <==> TakesFix(Run(f, before), ops[last], y);
    }
  }

  /** When a sample or fix is kept out: it lies more than gate standard deviations of its innovation off, and fewer than
      four before it in a row did. */
  lemma KeptOutIff(a: Axis, n: Noise, z: real, R: real, gate: real)
    requires Shaped(a)
    ensures var y, S := z - DotN(H_OF, a.x, 4), Max(Bil(a.P, H_OF, H_OF, 4) + n.rOf, S_MIN);
      OfAxis(a, n, z).rejRun > 0 <==> n.ofGate > 0.0 && y * y > n.ofGate * n.ofGate * S && a.rejRun + 1 < REJ_RELEASE
    ensures var y, S := z - DotN(H_POS, a.x, 4), Max(Bil(a.P, H_POS, H_POS, 4) + R, S_MIN);
      PosAxis(a, z, R, gate).posRejRun > 0 <==> gate > 0.0 && y * y > gate * gate * S && a.posRejRun + 1 < REJ_RELEASE
  {
    hide Bil, DotN, MulVec, Reduced, Gain, Correction;
  }

  // ---------- what each call does to the estimate ----------

  predicate Measures(op: Op) { op.Update? || op.UpdateRaw? || op.UpdatePos? || op.UpdateZeroVel? }

  /** What a sensor reads of one axis: the flow velocity and its bias, the raw flow and standing still the velocity alone,
      the camera the position. */
  function Seen(op: Op, x: Vec): real
    requires |x| == 4
  {
    if op.Update? then x[1] + x[2] else if op.UpdatePos? then x[0] else x[1]
  }

  function Reading(op: Op, y: bool): real
    requires Measures(op)
  {
    if op.UpdateZeroVel? then 0.0 else if y then op.zy else op.zx
  }

  function VarianceOf(op: Op, n: Noise): real
    requires Measures(op)
  {
    match op
    case Update(_, _) => n.rOf
    case UpdateRaw(_, _) => n.rOf1
    case UpdatePos(_, _, R, _) => R
    case UpdateZeroVel => n.rZupt
  }

  /** The variance of what the sensor reads, of a covariance. */
  function SeenVariance(op: Op, P: Mat): real
    requires IsSquare(P, 4)
  {
    if op.Update? then P[1][1] + P[1][2] + P[2][1] + P[2][2] else if op.UpdatePos? then P[0][0] else P[1][1]
  }

  /** More than gate standard deviations of the innovation off. */
  predicate Outlier(op: Op, a: Axis, n: Noise, y: bool, gate: real)
    requires Measures(op) && |a.x| == 4 && IsSquare(a.P, 4)
  {
    var r := Reading(op, y) - Seen(op, a.x);
    gate > 0.0 && r * r > gate * gate * Max(SeenVariance(op, a.P) + VarianceOf(op, n), S_MIN)
  }

  /** Kept out: raw flow without a variance of its own, an outlier of it, or one of the first four outliers in a row of
      the others. Standing still is never doubted. */
  predicate KeptOut(op: Op, a: Axis, n: Noise, y: bool)
    requires Measures(op) && |a.x| == 4 && IsSquare(a.P, 4)
  {
    match op
    case Update(_, _) => Outlier(op, a, n, y, n.ofGate) && a.rejRun + 1 < REJ_RELEASE
    case UpdateRaw(_, _) => n.rOf1 <= 0.0 || Outlier(op, a, n, y, n.of1Gate)
    case UpdatePos(_, _, _, gate) => Outlier(op, a, n, y, gate) && a.posRejRun + 1 < REJ_RELEASE
    case UpdateZeroVel => false
  }

  /** Nearer, and not past. */
  predicate ClosesIn(left: real, r: real) { (r >= 0.0 ==> 0.0 <= left <= r) && (r <= 0.0 ==> r <= left <= 0.0) }

  /** State i moved by P+ h r / R. */
  ghost predicate MovedBy(op: Op, a: Axis, b: Axis, r: real, R: real, i: nat)
    requires Shaped(a) && Shaped(b) && i < 4
  {
    R * (b.x[i] - a.x[i]) == Seen(op, b.P[i]) * r
  }

  /** b takes in a reading that was r off. */
  ghost predicate TakenIn(op: Op, a: Axis, b: Axis, r: real, R: real) {
    Shaped(a) && Shaped(b) && ClosesIn(r - (Seen(op, b.x) - Seen(op, a.x)), r) &&
    (R >= S_MIN ==> forall i {:trigger MovedBy(op, a, b, r, R, i)} :: 0 <= i < 4 ==> MovedBy(op, a, b, r, R, i))
  }

  /** Every measuring call, on each axis by itself: the reading is kept out and the estimate stays, or it is taken in. */
  lemma MeasurementTaken(f: Filter, op: Op, y: bool)
    requires Sound(f) && f.inited && Measures(op) && Admissible(op)
    ensures var a, b := AxisOf(f, y), AxisOf(Next(f, op), y);
      if KeptOut(op, a, f.noise, y) then b.x == a.x && b.P == a.P else TakenIn(op, a, b, Reading(op, y) - Seen(op, a.x), VarianceOf(op, f.noise))
  {
    hide Bil, DotN, Covariance, Posterior, Outlier, TakenIn, Released, Gated;
    var a, z, R := AxisOf(f, y), Reading(op, y), VarianceOf(op, f.noise);
    match op
    case Update(zx, zy) =>
      OutlierIs(op, a, f.noise, y, f.noise.ofGate, H_OF);
      FlowTaken(op, a, f.noise, z, y);
    case UpdatePos(zx, zy, _, gate) =>
      OutlierIs(op, a, f.noise, y, gate, H_POS);
      FixTaken(op, a, f.noise, z, R, gate, y);
    case UpdateRaw(zx, zy) =>
      OutlierIs(op, a, f.noise, y, f.noise.of1Gate, H_VEL);
      if f.noise.rOf1 > 0.0 { PosteriorTaken(op, a, a, Posterior(a, H_VEL, z, R), H_VEL, z, R); }
    case UpdateZeroVel => PosteriorTaken(op, a, a, Posterior(a, H_VEL, z, R), H_VEL, z, R);
  }

  lemma FlowTaken(op: Op, a: Axis, n: Noise, z: real, y: bool)
    requires op.Update? && Shaped(a) && SoundAxis(a) && n.rOf >= 0.0 && z == Reading(op, y)
    requires Outlier(op, a, n, y, n.ofGate) <==> Gated(a, H_OF, z, n.rOf, n.ofGate)
    ensures var b := OfAxis(a, n, z);
      if KeptOut(op, a, n, y) then b.x == a.x && b.P == a.P else TakenIn(op, a, b, z - Seen(op, a.x), n.rOf)
  {
    hide Bil, DotN, Covariance, Posterior, Outlier, TakenIn, Released, Gated, Innovation;
    var a1 := a.(innov := Innovation(a.x, H_OF, z));
    var a3 := a1.(rej := (a.rej + 1) % U32, rejRun := 0);
    PosteriorTaken(op, a, a1, Posterior(a1, H_OF, z, n.rOf).(rejRun := 0), H_OF, z, n.rOf);
    ReleaseKeepsCovariance(a3, 1, VEL_P0);
    ReleasedState(a3, 1, VEL_P0);
    PosteriorTaken(op, a, Released(a3, 1, VEL_P0), Posterior(Released(a3, 1, VEL_P0), H_OF, z, n.rOf), H_OF, z, n.rOf);
  }

  lemma FixTaken(op: Op, a: Axis, n: Noise, z: real, R: real, gate: real, y: bool)
    requires op.UpdatePos? && Shaped(a) && SoundAxis(a) && R >= 0.0 && z == Reading(op, y) && R == op.R && gate == op.gate
    requires Outlier(op, a, n, y, gate) <==> Gated(a, H_POS, z, R, gate)
    ensures var b := PosAxis(a, z, R, gate);
      if KeptOut(op, a, n, y) then b.x == a.x && b.P == a.P else TakenIn(op, a, b, z - Seen(op, a.x), R)
  {
    hide Bil, DotN, Covariance, Posterior, Outlier, TakenIn, Released, Gated;
    var a3 := a.(posRejRun := 0);
    PosteriorTaken(op, a, a, Posterior(a, H_POS, z, R).(posRejRun := 0), H_POS, z, R);
    ReleaseKeepsCovariance(a3, 0, POS_P0);
    ReleasedState(a3, 0, POS_P0);
    PosteriorTaken(op, a, Released(a3, 0, POS_P0), Posterior(Released(a3, 0, POS_P0), H_POS, z, R), H_POS, z, R);
  }

  lemma ReleasedState(a: Axis, l: nat, p0: real)
    requires Shaped(a) && l < 4
    ensures Released(a, l, p0).x == a.x
  {
  }

  predicate Reads(op: Op, h: Vec) { if op.Update? then h == H_OF else if op.UpdatePos? then h == H_POS else h == H_VEL }

  lemma OutlierIs(op: Op, a: Axis, n: Noise, y: bool, gate: real, h: Vec)
    requires Measures(op) && Shaped(a) && Reads(op, h)
    ensures Outlier(op, a, n, y, gate) <==> Gated(a, h, Reading(op, y), VarianceOf(op, n), gate)
  {
    hide Bil, DotN;
    SeenBy(op, a.x, h);
    SeenVarianceBy(op, a.P, h);
  }

  lemma SeenBy(op: Op, x: Vec, h: Vec)
    requires |x| == 4 && Reads(op, h)
    ensures DotN(h, x, 4) == Seen(op, x) == DotN(x, h, 4)
  {
    hide DotN;
    DotFour(h, x);
    DotFour(x, h);
  }

  lemma SeenVarianceBy(op: Op, P: Mat, h: Vec)
    requires IsSquare(P, 4) && Reads(op, h)
    ensures Bil(P, h, h, 4) == SeenVariance(op, P)
  {
    hide DotN;
    var g := MulVec(P, h, 4);
    forall i | 0 <= i < 4 ensures g[i] == Seen(op, P[i]) { SeenBy(op, P[i], h); }
    SeenBy(op, g, h);
  }

  /** b holds the posterior of a', which differs from a in covariance and bookkeeping only. */
  lemma PosteriorTaken(op: Op, a: Axis, a': Axis, b: Axis, h: Vec, z: real, R: real)
    requires Measures(op) && Reads(op, h) && Shaped(a) && Shaped(a') && a'.x == a.x && Covariance(a'.P, 4) && R >= 0.0
    requires var p := Posterior(a', h, z, R); b.x == p.x && b.P == p.P
    ensures TakenIn(op, a, b, z - Seen(op, a.x), R)
  {
    hide Bil, DotN, Covariance, Posterior, MovedBy, ClosesIn, Seen;
    var r := z - Seen(op, a.x);
    Nearer(op, a', b, h, z, R, r);
    if R >= S_MIN {
      forall i | 0 <= i < 4 ensures MovedBy(op, a, b, r, R, i) {
        StateMoved(op, a', b, h, z, R, i, r);
        SameState(op, a, a', b, r, R, i);
      }
    }
  }

  lemma SameState(op: Op, a: Axis, a': Axis, b: Axis, r: real, R: real, i: nat)
    requires Shaped(a) && Shaped(a') && Shaped(b) && a'.x == a.x && i < 4
    ensures MovedBy(op, a, b, r, R, i) <==> MovedBy(op, a', b, r, R, i)
  {
  }

  lemma Nearer(op: Op, a: Axis, b: Axis, h: Vec, z: real, R: real, r: real)
    requires Measures(op) && Reads(op, h) && Shaped(a) && Covariance(a.P, 4) && R >= 0.0 && r == z - Seen(op, a.x)
    requires var p := Posterior(a, h, z, R); b.x == p.x && b.P == p.P
    ensures ClosesIn(r - (Seen(op, b.x) - Seen(op, a.x)), r)
  {
    hide Bil, DotN, Covariance, Posterior, Seen;
    SeenBy(op, a.x, h);
    SeenBy(op, b.x, h);
    UpdateClosesIn(a, h, z, R);
  }

  lemma StateMoved(op: Op, a: Axis, b: Axis, h: Vec, z: real, R: real, i: nat, r: real)
    requires Measures(op) && Reads(op, h) && Shaped(a) && Covariance(a.P, 4) && R >= S_MIN && i < 4 && r == z - Seen(op, a.x)
    requires var p := Posterior(a, h, z, R); b.x == p.x && b.P == p.P
    ensures MovedBy(op, a, b, r, R, i)
  {
    hide Bil, DotN, Posterior, Psd, Seen;
    VarianceSign(a.P, h);
    UpdateMoves(a, h, z, R, i);
    hide Symmetric;
    SeenBy(op, a.x, h);
    SeenBy(op, b.P[i], h);
  }

  /** A prediction carries both axes, each with its own acceleration; clearing the bias or the position forgets just that. */
  lemma OthersFollow(f: Filter, op: Op, y: bool, acc: real, s: Truth, i: nat)
    requires ShapedFilter(f) && f.inited && i < 4
    ensures var a, b := AxisOf(f, y), AxisOf(Next(f, op), y);
      (op.Predict? && (if y then op.accY else op.accX) == acc + s.ba ==>
        (var s1 := s.(p := s.p + s.v * op.dt + 0.5 * acc * (op.dt * op.dt), v := s.v + acc * op.dt);
         ErrorOf(b.x, s1)[i] == MulVec(Transition(op.dt), ErrorOf(a.x, s), 4)[i])) &&
      (op.ResetPos? ==> ErrorOf(b.x, s.(p := 0.0)) == ErrorOf(a.x, s)[0 := 0.0] && b.P == a.P) &&
      (op.ResetBias? ==> b.x == a.x[2 := 0.0] && IsReset(b.P, a.P, 2, op.variance, 4))
  {
    hide DotN, MulVec, PredictedCovariance, Moved, Transition;
    if op.Predict? { PredictFollows(AxisOf(f, y), f.noise, op.dt, acc, s, i); }
  }

  /** Each gate can hold back at most four of its measurements in a row, whatever is called in between: among any five
      flow samples of a run one enters the estimate of each axis, and so does one among any five camera fixes. */
  lemma GateLockoutEnds(f: Filter, ops: seq<Op>, y: bool)
    requires Sound(f) && f.inited && NoInit(ops)
    ensures Flows(ops) >= REJ_RELEASE ==> exists k :: 0 <= k < |ops| && FlowEnters(f, ops, y, k)
    ensures Fixes(ops) >= REJ_RELEASE ==> exists k :: 0 <= k < |ops| && FixEnters(f, ops, y, k)
  {
    hide FlowEnters, FixEnters, Covariance;
    StreakGrows(f, ops, y);
  }

  // ---------- the filter object ----------

  /** Where an entry of a 4x4 block lies in its flat row. */
  lemma OneCell(r: nat, c: nat, i: nat, j: nat)
    requires r < 4 && c < 4 && i < 4 && j < 4
    ensures r * 4 + c == i * 4 + j <==> r == i && c == j
  {
  }

  /** k_axis_idx: where local state l of an axis sits in x. */
  function Idx(axis: nat, l: nat): (k: nat)
    requires axis < 2 && l < 4
    ensures k < 8
  {
    if l == 3 then 6 + axis else 3 * axis + l
  }

  class OfFilter {
    const x: array<real>
    const P: array2<real>
    const innov: array<real>
    const rej: array<nat>
    const rejRun: array<nat>
    const posRejRun: array<nat>
    var noise: Noise
    var inited: bool

    ghost predicate Valid() {
      x.Length == 8 && P.Length0 == 2 && P.Length1 == 16 && innov.Length == 2 && innov != x &&
      rej.Length == 2 && rejRun.Length == 2 && posRejRun.Length == 2 &&
      rej != rejRun && rej != posRejRun && rejRun != posRejRun
    }

    ghost function States(axis: nat): (v: Vec)
      requires Valid() && axis < 2
      reads x
      ensures |v| == 4
    {
      [x[Idx(axis, 0)], x[Idx(axis, 1)], x[Idx(axis, 2)], x[Idx(axis, 3)]]
    }

    ghost function Block(axis: nat): (M: Mat)
      requires Valid() && axis < 2
      reads P
      ensures IsSquare(M, 4) && forall i, j :: 0 <= i < 4 && 0 <= j < 4 ==> M[i][j] == P[axis, i * 4 + j]
    {
      [[P[axis, 0], P[axis, 1], P[axis, 2], P[axis, 3]],
       [P[axis, 4], P[axis, 5], P[axis, 6], P[axis, 7]],
       [P[axis, 8], P[axis, 9], P[axis, 10], P[axis, 11]],
       [P[axis, 12], P[axis, 13], P[axis, 14], P[axis, 15]]]
    }

    ghost function View(axis: nat): (a: Axis)
      requires Valid() && axis < 2
      reads x, P, innov, rej, rejRun, posRejRun
      ensures Shaped(a)
    {
      Axis(States(axis), Block(axis), innov[axis], rej[axis], rejRun[axis], posRejRun[axis])
    }

    ghost function State(): (f: Filter)
      requires Valid()
      reads this, x, P, innov, rej, rejRun, posRejRun
      ensures ShapedFilter(f)
    {
      Filter(View(0), View(1), noise, inited)
    }

    /** PHt = P h. */
    method CrossVariance(axis: nat, h: Vec) returns (PHt: array<real>)
      requires Valid() && axis < 2 && |h| == 4
      ensures fresh(PHt) && PHt[..] == MulVec(Block(axis), h, 4)
    {
      PHt := new real[4];
      for i := 0 to 4
        invariant forall r :: 0 <= r < i ==> PHt[r] == DotN(Block(axis)[r], h, 4)
      {
        PHt[i] := 0.0;
        for j := 0 to 4
          invariant PHt[i] == DotN(Block(axis)[i], h, j)
          invariant forall r :: 0 <= r < i ==> PHt[r] == DotN(Block(axis)[r], h, 4)
        {
          PHt[i] := PHt[i] + P[axis, i * 4 + j] * h[j];
        }
      }
    }

    /** One entry above the diagonal and its mirror image. */
    method SetPair(axis: nat, i: nat, j: nat, w: real)
      requires Valid() && axis < 2 && i < 4 && j < 4
      modifies P
      ensures forall r, c {:trigger Block(axis)[r][c]} :: 0 <= r < 4 && 0 <= c < 4 ==>
        Block(axis)[r][c] == if (r == i && c == j) || (r == j && c == i) then w else old(Block(axis))[r][c]
      ensures Block(1 - axis) == old(Block(1 - axis))
    {
      P[axis, i * 4 + j] := w;
      P[axis, j * 4 + i] := P[axis, i * 4 + j];
      forall r: nat, c: nat {:trigger Block(axis)[r][c]} | r < 4 && c < 4
        ensures (r * 4 + c == i * 4 + j <==> r == i && c == j) && (r * 4 + c == j * 4 + i <==> r == j && c == i)
      {
        OneCell(r, c, i, j);
        OneCell(r, c, j, i);
      }
      assert forall k: nat {:trigger P[1 - axis, k]} :: k < 16 ==> P[1 - axis, k] == old(P[1 - axis, k]);
    }

    /** Covariance part of the update, upper triangle first and mirrored as it goes. */
    method Downdate(axis: nat, K: array<real>, PHt: array<real>, S: real)
      requires Valid() && axis < 2 && K.Length == 4 && PHt.Length == 4 && S > 0.0
      requires forall i :: 0 <= i < 4 ==> K[i] == Gain(PHt[i], S)
      modifies P
      ensures forall i, j {:trigger Block(axis)[i][j]} :: 0 <= i < 4 && 0 <= j < 4 ==>
        Block(axis)[i][j] == Reduced(old(Block(axis)), PHt[..], S, i, j)
      ensures Block(1 - axis) == old(Block(1 - axis))
    {
      hide Reduced, Loss, Gain;
      ghost var M := Block(axis);
      for i := 0 to 4
        invariant forall r, c {:trigger Block(axis)[r][c]} :: 0 <= r < 4 && 0 <= c < 4 ==>
          Block(axis)[r][c] == if r < i || c < i then Reduced(M, PHt[..], S, r, c) else M[r][c]
        invariant Block(1 - axis) == old(Block(1 - axis))
      {
        for j := i to 4
          invariant forall r, c {:trigger Block(axis)[r][c]} :: 0 <= r < 4 && 0 <= c < 4 ==>
            Block(axis)[r][c] ==
              if r < i || c < i || (r == i && c < j) || (c == i && r < j) then Reduced(M, PHt[..], S, r, c)
              else M[r][c]
          invariant Block(1 - axis) == old(Block(1 - axis))
        {
          assert Block(axis)[i][j] == M[i][j];
          GainCollapse(M, PHt[..], S, i, j, K[i], K[j]);
          SetPair(axis, i, j, P[axis, i * 4 + j] - Loss(K[i], K[j], PHt[i], PHt[j], S));
        }
      }
    }

    /** x += K y on the axis's four states. */
    method Correct(axis: nat, K: array<real>, y: real)
      requires Valid() && axis < 2 && K.Length == 4 && K != x
      modifies x
      ensures forall i :: 0 <= i < 4 ==> States(axis)[i] == old(States(axis))[i] + Correction(K[i], y)
      ensures States(1 - axis) == old(States(1 - axis))
    {
      hide Correction;
      ghost var v := States(axis);
      for i := 0 to 4
        invariant forall l :: 0 <= l < 4 ==> States(axis)[l] == if l < i then v[l] + Correction(K[l], y) else v[l]
        invariant States(1 - axis) == old(States(1 - axis))
      {
        x[Idx(axis, i)] := x[Idx(axis, i)] + Correction(K[i], y);
      }
    }

    /** Innovation variance with its floor, and the innovation. */
    method Innovate(axis: nat, h: Vec, PHt: array<real>, z: real, R: real) returns (S: real, y: real)
      requires Valid() && axis < 2 && |h| == 4 && PHt[..] == MulVec(Block(axis), h, 4)
      ensures S == InnovationVariance(Block(axis), h, R) && y == Innovation(States(axis), h, z)
    {
      S := R;
      for i := 0 to 4
        invariant S == R + DotN(h, PHt[..], i)
      {
        S := S + h[i] * PHt[i];
      }
      if S < S_MIN { S := S_MIN; }
      var hx := 0.0;
      for i := 0 to 4
        invariant hx == DotN(h, States(axis), i)
      {
        hx := hx + h[i] * x[Idx(axis, i)];
      }
      y := z - hx;
    }

    /** Gain, state correction and covariance reduction. */
    method Absorb(axis: nat, PHt: array<real>, S: real, y: real)
      requires Valid() && axis < 2 && PHt.Length == 4 && PHt != x && S > 0.0
      modifies x, P
      ensures forall i :: 0 <= i < 4 ==> States(axis)[i] == old(States(axis))[i] + Correction(Gain(PHt[i], S), y)
      ensures forall i, j {:trigger Block(axis)[i][j]} :: 0 <= i < 4 && 0 <= j < 4 ==>
        Block(axis)[i][j] == Reduced(old(Block(axis)), PHt[..], S, i, j)
      ensures States(1 - axis) == old(States(1 - axis)) && Block(1 - axis) == old(Block(1 - axis))
    {
      hide Reduced, Gain, Correction;
      var K := new real[4];
      for i := 0 to 4
        invariant forall l :: 0 <= l < i ==> K[l] == Gain(PHt[l], S)
        modifies K
      {
        K[i] := Gain(PHt[i], S);
      }
      Correct(axis, K, y);
      Downdate(axis, K, PHt, S);
    }

    /** ekf_of_update_one: returns whether the gate rejected the sample, and the raw innovation. */
    method UpdateOne(axis: nat, h: Vec, z: real, R: real, gate: real) returns (rejected: bool, y: real)
      requires Valid() && axis < 2 && |h| == 4
      modifies x, P
      ensures rejected == Gated(old(View(axis)), h, z, R, gate)
      ensures y == Innovation(old(View(axis)).x, h, z)
      ensures View(axis) == UpdatedOne(old(View(axis)), h, z, R, gate)
      ensures View(1 - axis) == old(View(1 - axis))
    {
      hide Reduced, DotN, InnovationVariance, Innovation, Posterior;
      ghost var a := View(axis);
      var PHt := CrossVariance(axis, h);
      var S;
      S, y := Innovate(axis, h, PHt, z, R);
      if gate > 0.0 && y * y > gate * gate * S { return true, y; }
      Absorb(axis, PHt, S, y);
      rejected := false;
      IsPosterior(a, h, z, R, View(axis));
    }

    /** ekf_of_release. */
    method Release(axis: nat, l: nat, p0: real)
      requires Valid() && axis < 2 && l < 4
      modifies P
      ensures View(axis) == Released(old(View(axis)), l, p0)
      ensures View(1 - axis) == old(View(1 - axis))
    {
      ghost var M := Block(axis);
      for k := 0 to 4
        invariant forall r, c {:trigger Block(axis)[r][c]} :: 0 <= r < 4 && 0 <= c < 4 ==>
          Block(axis)[r][c] == if (r == l && c < k) || (c == l && r < k) then 0.0 else M[r][c]
        invariant Block(1 - axis) == old(Block(1 - axis))
      {
        SetPair(axis, l, k, 0.0);
      }
      SetPair(axis, l, l, p0);
      MatEqual(Block(axis), Released(old(View(axis)), l, p0).P, 4);
    }

    /** One axis of the flow update, with gate-lockout recovery. */
    method UpdateAxis(axis: nat, z: real)
      requires Valid() && axis < 2
      modifies x, P, innov, rej, rejRun
      ensures View(axis) == OfAxis(old(View(axis)), noise, z)
      ensures View(1 - axis) == old(View(1 - axis))
    {
      hide Posterior, Reduced, Released, Gated, Innovation, InnovationVariance, MulVec;
      ghost var a := View(axis);
      var rejected, y := UpdateOne(axis, H_OF, z, noise.rOf, noise.ofGate);
      innov[axis] := y;
      if !rejected {
        rejRun[axis] := 0;
        PosteriorApart(a, H_OF, z, noise.rOf, y, a.rej, a.rejRun);
        return;
      }
      rej[axis] := (rej[axis] + 1) % U32;
      rejRun[axis] := rejRun[axis] + 1;
      if rejRun[axis] < REJ_RELEASE { return; }
      rejRun[axis] := 0;
      Release(axis, 1, VEL_P0);
      ghost var b := View(axis);
      rejected, y := UpdateOne(axis, H_OF, z, noise.rOf, 0.0);
      NeverGated(b, H_OF, z, noise.rOf);
    }

    /** One axis of a camera fix; a release that is due has been made before the fix is judged. */
    method UpdatePosAxis(axis: nat, z: real, R: real, gate: real) returns (gated: bool)
      requires Valid() && axis < 2
      modifies x, P, posRejRun
      ensures gated == Gated(old(View(axis)), H_POS, z, R, gate)
      ensures View(axis) == PosAxis(old(View(axis)), z, R, gate)
      ensures View(1 - axis) == old(View(1 - axis))
    {
      hide Posterior, Released, Gated, Innovation;
      var y;
      gated, y := UpdateOne(axis, H_POS, z, R, gate);
      if !gated {
        posRejRun[axis] := 0;
        return;
      }
      posRejRun[axis] := posRejRun[axis] + 1;
      if posRejRun[axis] < REJ_RELEASE { return; }
      posRejRun[axis] := 0;
      Release(axis, 0, POS_P0);
      ghost var b := View(axis);
      var second;
      second, y := UpdateOne(axis, H_POS, z, R, 0.0);
      NeverGated(b, H_POS, z, R);
    }

    method RowTimesColumn(axis: nat, f: Vec, j: nat) returns (sum: real)
      requires Valid() && axis < 2 && |f| == 4 && j < 4
      ensures sum == RowComb(f, Block(axis), 4, 4)[j]
    {
      ghost var M := Block(axis);
      ghost var col := Column(M, j, 4);
      sum := 0.0;
      for k := 0 to 4
        invariant sum == DotN(f, col, k)
      {
        assert col[k] == M[k][j];
        sum := sum + f[k] * P[axis, k * 4 + j];
      }
      RowCombAt(f, M, 4, 4, j);
    }

    /** F P F' by the two triple loops: FP first, then its product with F transposed. */
    method Congruence(axis: nat, F: Mat) returns (Q: array2<real>)
      requires Valid() && axis < 2 && IsSquare(F, 4)
      ensures fresh(Q) && Q.Length0 == 4 && Q.Length1 == 4
      ensures forall i, j {:trigger Q[i, j]} :: 0 <= i < 4 && 0 <= j < 4 ==> Q[i, j] == Bil(Block(axis), F[i], F[j], 4)
    {
      hide DotN, RowComb, Bil;
      ghost var M := Block(axis);
      var FP := new real[4, 4];
      for i := 0 to 4
        invariant forall r, c {:trigger FP[r, c]} :: 0 <= r < i && 0 <= c < 4 ==> FP[r, c] == RowComb(F[r], M, 4, 4)[c]
        modifies FP
      {
        for j := 0 to 4
          invariant forall r, c {:trigger FP[r, c]} :: 0 <= r < 4 && 0 <= c < 4 && (r < i || (r == i && c < j)) ==>
            FP[r, c] == RowComb(F[r], M, 4, 4)[c]
          modifies FP
        {
          FP[i, j] := RowTimesColumn(axis, F[i], j);
        }
      }
      Q := new real[4, 4];
      for i := 0 to 4
        invariant forall r, c {:trigger Q[r, c]} :: 0 <= r < i && 0 <= c < 4 ==> Q[r, c] == Bil(M, F[r], F[c], 4)
        modifies Q
      {
        for j := 0 to 4
          invariant forall r, c {:trigger Q[r, c]} :: 0 <= r < 4 && 0 <= c < 4 && (r < i || (r == i && c < j)) ==>
            Q[r, c] == Bil(M, F[r], F[c], 4)
          modifies Q
        {
          Q[i, j] := RowTimesRow(FP, i, RowComb(F[i], M, 4, 4), F[j]);
          BilIsRow(F[i], M, F[j]);
        }
      }
    }

    method RowTimesRow(FP: array2<real>, i: nat, ghost row: Vec, fj: Vec) returns (sum: real)
      requires FP.Length0 == 4 && FP.Length1 == 4 && i < 4 && |row| == 4 && |fj| == 4
      requires forall c {:trigger FP[i, c]} :: 0 <= c < 4 ==> FP[i, c] == row[c]
      ensures sum == DotN(row, fj, 4)
    {
      sum := 0.0;
      for k := 0 to 4
        invariant sum == DotN(row, fj, k)
      {
        sum := sum + FP[i, k] * fj[k];
      }
    }

    method Move(axis: nat, dt: real, u: real)
      requires Valid() && axis < 2
      modifies x
      ensures States(axis) == Moved(old(States(axis)), dt, u)
      ensures States(1 - axis) == old(States(1 - axis))
    {
      ghost var v := States(axis);
      hide Advanced, Accelerated;
      x[Idx(axis, 0)] := Advanced(x[Idx(axis, 0)], x[Idx(axis, 1)], dt, u);
      assert States(axis) == v[0 := Moved(v, dt, u)[0]];
      x[Idx(axis, 1)] := Accelerated(x[Idx(axis, 1)], dt, u);
      assert States(axis) == v[0 := Moved(v, dt, u)[0]][1 := Moved(v, dt, u)[1]];
    }

    method PredictAxis(axis: nat, dt: real, acc: real)
      requires Valid() && axis < 2
      modifies x, P
      ensures View(axis) == Predicted(old(View(axis)), noise, dt, acc)
      ensures View(1 - axis) == old(View(1 - axis))
    {
      hide Bil, Moved, Transition, PredictedCovariance;
      ghost var a := View(axis);
      var u := acc - x[Idx(axis, 3)];
      Move(axis, dt, u);
      var F := Transition(dt);
      var Q := Congruence(axis, F);
      var d := ProcessNoise(noise, dt);
      StorePredicted(axis, Q, d);
      forall i, j {:trigger Block(axis)[i][j]} | 0 <= i < 4 && 0 <= j < 4
        ensures Block(axis)[i][j] == Q[i, j] + if i == j then ProcessNoise(noise, dt)[i] else 0.0
      {
      }
      PredictedEntries(a.P, noise, dt, Block(axis));
    }

    method StoreRow(axis: nat, i: nat, a: real, b: real, c: real, d: real)
      requires Valid() && axis < 2 && i < 4
      modifies P
      ensures Block(axis) == old(Block(axis))[i := [a, b, c, d]]
      ensures Block(1 - axis) == old(Block(1 - axis))
    {
      hide Block;
      ghost var was, other := Block(axis), Block(1 - axis);
      P[axis, i * 4], P[axis, i * 4 + 1], P[axis, i * 4 + 2], P[axis, i * 4 + 3] := a, b, c, d;
      MatEqual(Block(axis), was[i := [a, b, c, d]], 4);
      MatEqual(Block(1 - axis), other, 4);
    }

    method StorePredicted(axis: nat, Q: array2<real>, d: Vec)
      requires Valid() && axis < 2 && Q.Length0 == 4 && Q.Length1 == 4 && Q != P && |d| == 4
      modifies P
      ensures Block(axis) == [
        [Q[0, 0] + d[0], Q[0, 1], Q[0, 2], Q[0, 3]],
        [Q[1, 0], Q[1, 1] + d[1], Q[1, 2], Q[1, 3]],
        [Q[2, 0], Q[2, 1], Q[2, 2] + d[2], Q[2, 3]],
        [Q[3, 0], Q[3, 1], Q[3, 2], Q[3, 3] + d[3]]]
      ensures Block(1 - axis) == old(Block(1 - axis))
    {
      StoreRow(axis, 0, Q[0, 0] + d[0], Q[0, 1], Q[0, 2], Q[0, 3]);
      StoreRow(axis, 1, Q[1, 0], Q[1, 1] + d[1], Q[1, 2], Q[1, 3]);
      StoreRow(axis, 2, Q[2, 0], Q[2, 1], Q[2, 2] + d[2], Q[2, 3]);
      StoreRow(axis, 3, Q[3, 0], Q[3, 1], Q[3, 2], Q[3, 3] + d[3]);
    }

    // ---------- the public calls ----------

    constructor ()
      ensures Valid() && !inited && fresh(x) && fresh(P) && fresh(innov) && fresh(rej) && fresh(rejRun) && fresh(posRejRun)
    {
      x := new real[8];
      P := new real[2, 16];
      innov := new real[2];
      rej := new nat[2];
      rejRun := new nat[2];
      posRejRun := new nat[2];
      noise := DEFAULT_NOISE;
      inited := false;
    }

    method Clear()
      requires Valid()
      modifies x, P
      ensures forall k :: 0 <= k < 8 ==> x[k] == 0.0
      ensures forall r, c :: 0 <= r < 2 && 0 <= c < 16 ==> P[r, c] == 0.0
    {
      for i := 0 to 8
        invariant forall k :: 0 <= k < i ==> x[k] == 0.0
        modifies x
      {
        x[i] := 0.0;
      }
      for i := 0 to 2
        invariant forall r, c :: 0 <= r < i && 0 <= c < 16 ==> P[r, c] == 0.0
        modifies P
      {
        for j := 0 to 16
          invariant forall r, c :: 0 <= r < 2 && 0 <= c < 16 && (r < i || (r == i && c < j)) ==> P[r, c] == 0.0
          modifies P
        {
          P[i, j] := 0.0;
        }
      }
    }

    method Init()
      requires Valid()
      modifies this, x, P, innov, rej, rejRun, posRejRun
      ensures State() == Next(old(State()), Op.Init)
    {
      Clear();
      noise := DEFAULT_NOISE;
      InitialVariances();
      innov[0], innov[1] := 0.0, 0.0;
      rej[0], rej[1] := 0, 0;
      rejRun[0], rejRun[1] := 0, 0;
      posRejRun[0], posRejRun[1] := 0, 0;
      inited := true;
      assert View(0) == InitialAxis() && View(1) == InitialAxis();
    }

    method InitialVariances()
      requires Valid() && forall r, c :: 0 <= r < 2 && 0 <= c < 16 ==> P[r, c] == 0.0
      modifies P
      ensures Block(0) == Block(1) == InitialAxis().P
    {
      P[0, 0], P[1, 0] := POS_P0, POS_P0;
      P[0, 5], P[1, 5] := VEL_P0, VEL_P0;
      P[0, 10], P[1, 10] := 0.01, 0.01;
      P[0, 15], P[1, 15] := 0.25, 0.25;
    }

    method Predict(dt: real, accX: real, accY: real)
      requires Valid()
      modifies x, P
      ensures State() == Next(old(State()), Op.Predict(dt, accX, accY))
    {
      hide Predicted;
      if !inited { return; }
      PredictAxis(0, dt, accX);
      PredictAxis(1, dt, accY);
    }

    method Update(ofX: real, ofY: real)
      requires Valid()
      modifies x, P, innov, rej, rejRun
      ensures State() == Next(old(State()), Op.Update(ofX, ofY))
    {
      hide OfAxis;
      if !inited { return; }
      UpdateAxis(0, ofX);
      UpdateAxis(1, ofY);
    }

    method UpdateRaw(of1X: real, of1Y: real)
      requires Valid()
      modifies x, P
      ensures State() == Next(old(State()), Op.UpdateRaw(of1X, of1Y))
    {
      hide UpdatedOne;
      if !inited || noise.rOf1 <= 0.0 { return; }
      var _, _ := UpdateOne(0, H_VEL, of1X, noise.rOf1, noise.of1Gate);
      var _, _ := UpdateOne(1, H_VEL, of1Y, noise.rOf1, noise.of1Gate);
    }

    /** Returns the gated axes: bit 0 x, bit 1 y. */
    method UpdatePos(zx: real, zy: real, R: real, gate: real) returns (mask: nat)
      requires Valid()
      modifies x, P, posRejRun
      ensures State() == Next(old(State()), Op.UpdatePos(zx, zy, R, gate))
      ensures mask == if !inited then 0
                      else (if Gated(old(View(0)), H_POS, zx, R, gate) then 1 else 0) +
                           (if Gated(old(View(1)), H_POS, zy, R, gate) then 2 else 0)
    {
      hide PosAxis, Gated;
      if !inited { return 0; }
      var gx := UpdatePosAxis(0, zx, R, gate);
      var gy := UpdatePosAxis(1, zy, R, gate);
      mask := (if gx then 1 else 0) + (if gy then 2 else 0);
    }

    method UpdateZeroVel()
      requires Valid()
      modifies x, P
      ensures State() == Next(old(State()), Op.UpdateZeroVel)
    {
      hide Posterior, Gated;
      if !inited { return; }
      ghost var f := State();
      NeverGated(f.ax, H_VEL, 0.0, noise.rZupt);
      NeverGated(f.ay, H_VEL, 0.0, noise.rZupt);
      var _, _ := UpdateOne(0, H_VEL, 0.0, noise.rZupt, 0.0);
      var _, _ := UpdateOne(1, H_VEL, 0.0, noise.rZupt, 0.0);
    }

    method ResetBias(variance: real)
      requires Valid()
      modifies x, P
      ensures State() == Next(old(State()), Op.ResetBias(variance))
    {
      if !inited { return; }
      ghost var f := State();
      for axis := 0 to 2
        invariant View(0) == if axis > 0 then ZeroedBias(f.ax, variance) else f.ax
        invariant View(1) == if axis > 1 then ZeroedBias(f.ay, variance) else f.ay
      {
        ZeroBiasAxis(axis, variance);
      }
    }

    method ZeroBiasAxis(axis: nat, variance: real)
      requires Valid() && axis < 2
      modifies x, P
      ensures View(axis) == ZeroedBias(old(View(axis)), variance) && View(1 - axis) == old(View(1 - axis))
    {
      ghost var a := View(axis);
      x[Idx(axis, 2)] := 0.0;
      Release(axis, 2, variance);
      MatEqual(View(axis).P, ZeroedBias(a, variance).P, 4);
      assert View(axis).x == old(View(axis)).x[2 := 0.0];
      assert View(1 - axis).x == old(View(1 - axis)).x;
    }

    method ResetPos()
      requires Valid()
      modifies x
      ensures State() == Next(old(State()), Op.ResetPos)
    {
      if !inited { return; }
      x[Idx(0, 0)] := 0.0;
      x[Idx(1, 0)] := 0.0;
      assert View(0).x == old(View(0)).x[0 := 0.0];
      assert View(1).x == old(View(1)).x[0 := 0.0];
    }
  }

  lemma BilIsRow(u: Vec, M: Mat, v: Vec)
    requires |u| == 4 && |v| == 4 && IsSquare(M, 4)
    ensures DotN(RowComb(u, M, 4, 4), v, 4) == Bil(M, u, v, 4)
  {
    DotMulVec(u, M, v, 4, 4);
  }

  lemma IsPosterior(a: Axis, h: Vec, z: real, R: real, b: Axis)
    requires Shaped(a) && Shaped(b) && |h| == 4 && b == a.(x := b.x, P := b.P)
    requires var g, S, y := MulVec(a.P, h, 4), InnovationVariance(a.P, h, R), Innovation(a.x, h, z);
             (forall i :: 0 <= i < 4 ==> b.x[i] == a.x[i] + Correction(Gain(g[i], S), y)) &&
             (forall i, j {:trigger b.P[i][j]} :: 0 <= i < 4 && 0 <= j < 4 ==> b.P[i][j] == Reduced(a.P, g, S, i, j))
    ensures b == Posterior(a, h, z, R)
  {
    hide Reduced, DotN, InnovationVariance, Innovation, Gain, Correction;
    var c := Posterior(a, h, z, R);
    forall i | 0 <= i < 4 ensures b.x[i] == c.x[i] {
      assert b.x[i] == a.x[i] + Correction(Gain(MulVec(a.P, h, 4)[i], InnovationVariance(a.P, h, R)), Innovation(a.x, h, z));
    }
    assert b.x == c.x;
    MatEqual(b.P, c.P, 4);
  }

  lemma PredictedEntries(P: Mat, n: Noise, dt: real, Q: Mat)
    requires IsSquare(P, 4) && IsSquare(Q, 4)
    requires forall i, j {:trigger Q[i][j]} :: 0 <= i < 4 && 0 <= j < 4 ==>
      Q[i][j] == Bil(P, Transition(dt)[i], Transition(dt)[j], 4) + if i == j then ProcessNoise(n, dt)[i] else 0.0
    ensures Q == PredictedCovariance(P, n, dt)
  {
    hide Bil, Transition, ProcessNoise;
    MatEqual(Q, PredictedCovariance(P, n, dt), 4);
  }

  lemma NeverGated(a: Axis, h: Vec, z: real, R: real)
    requires Shaped(a) && |h| == 4
    ensures !Gated(a, h, z, R, 0.0)
  {
  }

  /** With K = g / S the three terms of the update collapse to g g' / S, on both sides of the diagonal. */
  lemma GainCollapse(M: Mat, g: Vec, S: real, i: nat, j: nat, ki: real, kj: real)
    requires IsSquare(M, 4) && |g| == 4 && S > 0.0 && i <= j < 4 && ki == Gain(g[i], S) && kj == Gain(g[j], S)
    ensures M[i][j] - Loss(ki, kj, g[i], g[j], S) == Reduced(M, g, S, i, j) == Reduced(M, g, S, j, i)
  {
    var x, y := g[i], g[j];
    assert kj * S == y;
    assert ki * kj * S == ki * (kj * S);
    assert ki * y == x * y / S;
    assert kj * x == x * y / S;
  }
}
