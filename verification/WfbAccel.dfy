/**
 What the ramps of API/wfb_prog.c's planner ask of the craft. The code evaluates a ramp through its integral only; here
 is the speed that integral belongs to, and that it never changes faster than the segment's acceleration, nor, on an
 S-curve, that acceleration faster than its jerk. Time derivatives are avoided: bounds are on differences over any times.
 */
module WfbAccel {
  import opened Reals
  import opened WfbRamp
  import opened WfbPlan

  // ---------- the speed of a unit ramp ----------

  function Pos(u: real): real { if u > 0.0 then u else 0.0 }

  function Sq(u: real): real { u * u }

  function PosSq(u: real): real { Sq(Pos(u)) }

  function PosCube(u: real): real { Cube(Pos(u)) }

  /** An S-curve's acceleration rises, holds and falls; its speed and its distance are sums of shifted powers. */
  function SumSq(rho: real, tau: real): real { PosSq(tau) - PosSq(tau - rho) - PosSq(tau - 1.0 + rho) + PosSq(tau - 1.0) }

  function SumCube(rho: real, tau: real): real {
    PosCube(tau) - PosCube(tau - rho) - PosCube(tau - 1.0 + rho) + PosCube(tau - 1.0)
  }

  /** Twice rho (1 - rho): the S-curve's scale. */
  function Twice(rho: real): real { 2.0 * rho * (1.0 - rho) }

  /** How fast an S-curve changes speed by dv at most, over unit time. */
  function PeakRise(dv: real, rho: real): real
    requires JerkShare(rho)
  {
    dv * (1.0 / (1.0 - rho))
  }

  /** Twice the speed changed by an S-curve of this jerk, time and share. */
  function JerkGain(j: real, ta: real, rho: real): real { j * (ta * ta) * Twice(rho) }

  predicate JerkShare(rho: real) { 0.0 < rho <= 0.5 }

  function QuintSpeed(t: real): real { Cube(t) * (10.0 - 15.0 * t + 6.0 * Sq(t)) }

  /** The speed of a ramp from 0 to 1 over unit time. */
  function RampSpeed(prof: Profile, rho: real, tau: real): real {
    if !(tau > 0.0) then 0.0
    else if tau >= 1.0 then 1.0
    else
      match prof
      case Quintic => QuintSpeed(tau)
      case Scurve => if JerkShare(rho) then (TwicePositive(rho); SumSq(rho, tau) / Twice(rho)) else tau
      case Trap => tau
  }

  /** How fast a unit ramp's speed changes at most. */
  function Peak(prof: Profile, rho: real): real {
    match prof
    case Quintic => 1.875
    case Scurve => if JerkShare(rho) then 1.0 / (1.0 - rho) else 1.0
    case Trap => 1.0
  }

  lemma TwicePositive(rho: real)
    requires JerkShare(rho)
    ensures Twice(rho) > 0.0 && Sixth(rho) == 3.0 * Twice(rho)
  {
    hide Twice, Sixth;
    ScaleIs(rho, 1.0 - rho);
    ProductPositive(rho, 1.0 - rho);
  }

  lemma ScaleIs(rho: real, h: real)
    requires h == 1.0 - rho
    ensures Twice(rho) == 2.0 * (rho * h) && Sixth(rho) == 6.0 * (rho * h)
  {
  }

  lemma ProductPositive(a: real, b: real)
    requires a > 0.0 && b > 0.0
    ensures a * b > 0.0 && 2.0 * (a * b) > 0.0
  {
    MulPos(a, b);
  }

  /** From x to y the ground covered is between what either speed would cover, and the speed rises by at most peak a unit. */
  ghost predicate Bounded(fx: real, fy: real, sx: real, sy: real, d: real, peak: real) {
    sx * d <= fy - fx <= sy * d && 0.0 <= sy - sx <= peak * d
  }

  // ---------- TRAP ----------

  lemma TrapBounded(x: real, y: real)
    requires 0.0 <= x <= y <= 1.0
    ensures Bounded(0.5 * x * x, 0.5 * y * y, x, y, y - x, 1.0)
  {
    var d := y - x;
    assert 0.5 * y * y - 0.5 * x * x == x * d + 0.5 * (d * d) && y * d == x * d + d * d;
    MulSign(d, d);
  }

  // ---------- S-curve: powers of the positive part ----------

  function RestSq(u: real, d: real): real { PosSq(u + d) - PosSq(u) }

  function RestCube(u: real, d: real): real { PosCube(u + d) - PosCube(u) - 3.0 * PosSq(u) * d }

  lemma RestSqIs(u: real, d: real)
    requires d >= 0.0
    ensures u >= 0.0 ==> RestSq(u, d) == 2.0 * (u * d) + Sq(d)
    ensures u <= -d ==> RestSq(u, d) == 0.0
    ensures -d <= u <= 0.0 ==> RestSq(u, d) == Sq(u + d)
  {
  }

  lemma RestCubeIs(u: real, d: real)
    requires d >= 0.0
    ensures u >= 0.0 ==> RestCube(u, d) == 3.0 * (u * Sq(d)) + Cube(d)
    ensures u <= -d ==> RestCube(u, d) == 0.0
    ensures -d <= u <= 0.0 ==> RestCube(u, d) == Cube(u + d)
  {
    if u >= 0.0 { CubeSum(u, d); }
  }

  lemma CubeSum(u: real, d: real)
    ensures Cube(u + d) == Cube(u) + 3.0 * Sq(u) * d + 3.0 * (u * Sq(d)) + Cube(d)
  {
  }

  /** x is in the ramp, a and b are x less rho and less 1 - rho. */
  ghost predicate Placed(rho: real, x: real, d: real) { JerkShare(rho) && 0.0 <= x && 0.0 <= d && x + d <= 1.0 }

  lemma SquareShare(u: real, d: real)
    requires 0.0 <= u <= d
    ensures 0.0 <= Sq(u) <= d * u && Sq(u) <= 2.0 * (d * u)
  {
    MulMono(u, d, u);
    MulSign(u, u);
    MulSign(d, u);
  }

  /** Speed: between 0 and 2 rho d. */
  lemma RestSqRange(rho: real, x: real, d: real)
    requires Placed(rho, x, d)
    ensures RestSq(x - 1.0, d) == 0.0
    ensures var rise := RestSq(x, d) - RestSq(x - rho, d) - RestSq(x - 1.0 + rho, d); 0.0 <= rise <= 2.0 * (rho * d)
  {
    hide RestSq, Sq;
    var a, b := x - rho, x - 1.0 + rho;
    RestSqIs(x, d);
    RestSqIs(a, d);
    RestSqIs(b, d);
    RestSqIs(x - 1.0, d);
    if b >= -d { RestSqShare(b, d, rho); } else { MulSign(rho, d); }
    RestSqPair(rho, x, d);
    if b >= -d && a < 0.0 { RestSqBoth(rho, x, d); }
  }

  /** What the last term takes is at most 2 rho d. */
  lemma RestSqShare(b: real, d: real, rho: real)
    requires -d <= b && b + d <= rho && d >= 0.0
    ensures 0.0 <= RestSq(b, d) <= 2.0 * (rho * d)
  {
    hide RestSq, Sq;
    RestSqIs(b, d);
    MulMono(b + d, rho, d);
    assert (b + d) * d == b * d + d * d && rho * d == d * rho;
    if b >= 0.0 {
      MulSign(b, d);
      assert Sq(d) == d * d by { SqIs(d); }
      MulSign(d, d);
    } else {
      SquareShare(b + d, d);
      assert d * (b + d) == (b + d) * d;
    }
  }

  lemma SqIs(u: real)
    ensures Sq(u) == u * u
  {
  }

  /** What the first two terms leave is between 0 and 2 rho d. */
  lemma RestSqPair(rho: real, x: real, d: real)
    requires Placed(rho, x, d)
    ensures 0.0 <= RestSq(x, d) - RestSq(x - rho, d) <= 2.0 * (rho * d)
    ensures x >= rho ==> RestSq(x, d) - RestSq(x - rho, d) == 2.0 * (rho * d)
  {
    hide RestSq, Sq;
    var a := x - rho;
    RestSqIs(x, d);
    RestSqIs(a, d);
    if a >= 0.0 {
      LessTimes(x, rho, d);
      MulSign(rho, d);
    } else if a >= -d {
      PairInside(rho, x, d, a + d);
    } else {
      PairBefore(rho, x, d);
    }
  }

  lemma PairInside(rho: real, x: real, d: real, w: real)
    requires 0.0 <= x <= rho && 0.0 <= w <= d && w == x - rho + d
    ensures 0.0 <= 2.0 * (x * d) + Sq(d) - Sq(w) <= 2.0 * (rho * d)
  {
    hide Sq;
    MulSign(x, d);
    SquareShare(w, d);
    SqIs(d);
    MulMono(w, d, d);
    DifferenceSquare(d, rho - x);
    assert d - (rho - x) == w;
    SquareSign(rho - x);
    LessTimes(rho, x, d);
    assert d * (rho - x) == (rho - x) * d;
  }

  lemma PairBefore(rho: real, x: real, d: real)
    requires 0.0 <= x && 0.0 <= d <= rho - x
    ensures 0.0 <= 2.0 * (x * d) + Sq(d) <= 2.0 * (rho * d)
  {
    hide Sq;
    SqIs(d);
    SquareSign(d);
    MulSign(x, d);
    MulMono(d, rho - x, d);
    LessTimes(rho, x, d);
    MulMono(x, rho, d);
  }

  lemma RestSqBoth(rho: real, x: real, d: real)
    requires Placed(rho, x, d) && x - rho < 0.0 && x - 1.0 + rho >= -d
    ensures RestSq(x - rho, d) + RestSq(x - 1.0 + rho, d) <= RestSq(x, d)
  {
    hide RestSq, Sq;
    RestSqIs(x, d);
    RestSqIs(x - rho, d);
    RestSqIs(x - 1.0 + rho, d);
    BothSquares(x, d, x - rho + d, x - 1.0 + rho + d);
  }

  lemma BothSquares(x: real, d: real, a: real, b: real)
    requires 0.0 <= x && 0.0 <= d <= 1.0 && 0.0 <= a <= d && 0.0 <= b <= d && a + b == 2.0 * x - 1.0 + 2.0 * d
    ensures Sq(a) + Sq(b) <= 2.0 * (x * d) + Sq(d)
  {
    hide Sq;
    SquareShare(a, d);
    SquareShare(b, d);
    SqIs(d);
    assert d * a + d * b == d * (a + b);
    assert d * (a + b) == 2.0 * (x * d) - d + 2.0 * (d * d);
    MulSign(d, 1.0 - d);
    assert d * (1.0 - d) == d - d * d;
  }

  /** Ground: what is covered beyond the speed at x. */
  lemma RestCubePair(rho: real, x: real, d: real)
    requires Placed(rho, x, d)
    ensures RestCube(x - rho, d) <= RestCube(x, d)
    ensures x >= rho ==> RestCube(x, d) - RestCube(x - rho, d) == 3.0 * (rho * Sq(d))
  {
    hide RestCube, Sq, Cube;
    var a := x - rho;
    RestCubeIs(x, d);
    RestCubeIs(a, d);
    SquareSign(d);
    MulSign(x, Sq(d));
    MulSign(rho, Sq(d));
    CubeMono(0.0, d);
    CubeZero();
    if a >= 0.0 {
      assert x * Sq(d) - a * Sq(d) == rho * Sq(d);
    } else if a >= -d {
      CubeMono(a + d, d);
    }
  }

  lemma SquareSign(u: real)
    ensures Sq(u) >= 0.0
  {
  }

  lemma CubeZero()
    ensures Cube(0.0) == 0.0
  {
  }

  lemma CubeMono(u: real, v: real)
    requires 0.0 <= u <= v
    ensures 0.0 <= Cube(u) <= Cube(v)
  {
    CubeStep(u, v, v);
  }

  /** The last term takes no more than the first two leave. */
  lemma RestCubeRange(rho: real, x: real, d: real)
    requires Placed(rho, x, d)
    ensures RestCube(x - 1.0, d) == 0.0
    ensures RestCube(x, d) - RestCube(x - rho, d) - RestCube(x - 1.0 + rho, d) >= 0.0
  {
    hide RestCube, Sq, Cube;
    var a, b := x - rho, x - 1.0 + rho;
    RestCubeIs(x - 1.0, d);
    RestCubeIs(b, d);
    RestCubePair(rho, x, d);
    if b >= -d {
      if a >= 0.0 { RestCubeShare(b, d, rho); } else { RestCubeBoth(rho, x, d); }
    }
  }

  lemma RestCubeShare(b: real, d: real, rho: real)
    requires -d <= b && b + d <= rho && d >= 0.0
    ensures RestCube(b, d) <= 3.0 * (rho * Sq(d))
  {
    hide RestCube, Sq, Cube;
    RestCubeIs(b, d);
    SquareSign(d);
    MulMono(b + d, rho, Sq(d));
    CubeOf(d);
    assert (b + d) * Sq(d) == b * Sq(d) + d * Sq(d);
    MulSign(d, Sq(d));
    if b < 0.0 { CubeShare(b + d, d); }
  }

  lemma CubeOf(d: real)
    ensures Cube(d) == d * Sq(d)
  {
  }

  lemma CubeShare(u: real, d: real)
    requires 0.0 <= u <= d
    ensures 0.0 <= Cube(u) <= u * Sq(d) && Cube(u) <= 3.0 * (u * Sq(d))
  {
    hide Sq, Cube;
    CubeOf(u);
    SquareSign(u);
    SquareSign(d);
    SquareShare(u, d);
    SqIs(u);
    SqIs(d);
    MulMono(u, d, d);
    MulMono(Sq(u), Sq(d), u);
    MulSign(u, Sq(u));
    MulSign(u, Sq(d));
  }

  lemma RestCubeBoth(rho: real, x: real, d: real)
    requires Placed(rho, x, d) && x - rho < 0.0 && x - 1.0 + rho >= -d
    ensures RestCube(x - rho, d) + RestCube(x - 1.0 + rho, d) <= RestCube(x, d)
  {
    hide RestCube, Sq, Cube;
    RestCubeIs(x, d);
    RestCubeIs(x - rho, d);
    RestCubeIs(x - 1.0 + rho, d);
    BothCubes(x, d, x - rho + d, x - 1.0 + rho + d);
  }

  lemma BothCubes(x: real, d: real, a: real, b: real)
    requires 0.0 <= x && 0.0 <= d <= 1.0 && 0.0 <= a <= d && 0.0 <= b <= d && a + b == 2.0 * x - 1.0 + 2.0 * d
    ensures Cube(a) + Cube(b) <= 3.0 * (x * Sq(d)) + Cube(d)
  {
    hide Sq, Cube;
    CubeShare(a, d);
    CubeShare(b, d);
    CubeOf(d);
    SquareSign(d);
    var k := Sq(d);
    assert a * k + b * k == (a + b) * k;
    MulMono(a + b, 3.0 * x + d, k);
    assert (3.0 * x + d) * k == 3.0 * (x * k) + d * k;
  }

  // ---------- S-curve: the code's integral is the sum of cubes ----------

  lemma PosCubeMirror(u: real)
    ensures PosCube(u) == Cube(u) + PosCube(-u) && PosSq(u) == Sq(u) - PosSq(-u)
  {
  }

  lemma CubesMirror(rho: real, tau: real)
    ensures Cube(tau) - Cube(tau - rho) - Cube(tau - 1.0 + rho) + Cube(tau - 1.0) == (tau - 0.5) * Sixth(rho)
  {
  }

  lemma SquaresMirror(rho: real, tau: real)
    ensures Sq(tau) - Sq(tau - rho) - Sq(tau - 1.0 + rho) + Sq(tau - 1.0) == Twice(rho)
  {
  }

  /** Read backwards, an S-curve is itself. */
  lemma SumsMirror(rho: real, tau: real)
    ensures SumCube(rho, tau) == (tau - 0.5) * Sixth(rho) + SumCube(rho, 1.0 - tau)
    ensures SumSq(rho, tau) == Twice(rho) - SumSq(rho, 1.0 - tau)
  {
    hide PosCube, PosSq, Cube, Sq, Sixth, Twice;
    CubesMirror(rho, tau);
    SquaresMirror(rho, tau);
    PosCubeMirror(tau);
    PosCubeMirror(tau - rho);
    PosCubeMirror(tau - 1.0 + rho);
    PosCubeMirror(tau - 1.0);
    assert -tau == (1.0 - tau) - 1.0 && -(tau - rho) == (1.0 - tau) - 1.0 + rho;
    assert -(tau - 1.0 + rho) == (1.0 - tau) - rho && -(tau - 1.0) == 1.0 - tau;
  }

  lemma NoPower(u: real)
    requires u <= 0.0
    ensures PosCube(u) == 0.0 && PosSq(u) == 0.0
  {
  }

  lemma Power(u: real)
    requires u >= 0.0
    ensures PosCube(u) == Cube(u) && PosSq(u) == Sq(u)
  {
  }

  lemma MiddleTimes(rho: real, tau: real)
    requires JerkShare(rho)
    ensures Middle(rho, tau) * Sixth(rho) == Cube(tau) - Cube(tau - rho)
  {
    var h, c := 1.0 - rho, tau - 0.5 * rho;
    var a, b := rho * rho / (6.0 * h), (c * c - 0.25 * rho * rho) / (2.0 * h);
    assert a * (6.0 * h) == rho * rho && b * (2.0 * h) == c * c - 0.25 * rho * rho;
    ScaleIs(rho, h);
    assert a * Sixth(rho) == rho * (a * (6.0 * h)) && b * Sixth(rho) == 3.0 * rho * (b * (2.0 * h));
    assert Cube(tau) - Cube(tau - rho) == rho * (rho * rho) + 3.0 * rho * (c * c - 0.25 * rho * rho);
  }

  lemma ScurveIsSum(rho: real, tau: real)
    requires JerkShare(rho) && 0.0 <= tau <= 1.0
    ensures RampF(Scurve, rho, tau) * Sixth(rho) == SumCube(rho, tau)
    decreases if tau > 1.0 - rho then 1 else 0
  {
    hide PosCube, Cube, Sixth, Middle;
    TwicePositive(rho);
    NoPower(tau - 1.0);
    Power(tau);
    if tau > 1.0 - rho {
      SumsMirror(rho, tau);
      ScurveIsSum(rho, 1.0 - tau);
      AtTop(rho);
    } else {
      NoPower(tau - 1.0 + rho);
      if tau <= rho {
        NoPower(tau - rho);
        if tau == 0.0 { CubeZero(); }
      } else {
        Power(tau - rho);
        MiddleTimes(rho, tau);
      }
    }
  }

  lemma AtTop(rho: real)
    requires JerkShare(rho)
    ensures SumCube(rho, 0.0) == 0.0 && RampF(Scurve, rho, 1.0) == 0.5 && RampF(Scurve, rho, 0.0) == 0.0
  {
  }

  /** The speed, at the ends too. */
  lemma SpeedIsSum(rho: real, tau: real)
    requires JerkShare(rho)
    ensures RampSpeed(Scurve, rho, tau) * Twice(rho) == SumSq(rho, tau)
  {
    hide PosSq, Sq, Twice;
    TwicePositive(rho);
    if !(tau > 0.0) {
      NoPower(tau);
      NoPower(tau - rho);
      NoPower(tau - 1.0 + rho);
      NoPower(tau - 1.0);
    } else if tau >= 1.0 {
      SquaresMirror(rho, tau);
      Power(tau);
      Power(tau - rho);
      Power(tau - 1.0 + rho);
      Power(tau - 1.0);
    }
  }

  lemma ScurveBelow(rho: real, x: real, y: real)
    requires JerkShare(rho) && 0.0 <= x <= y <= 1.0
    ensures RampSpeed(Scurve, rho, x) * (y - x) <= RampF(Scurve, rho, y) - RampF(Scurve, rho, x)
  {
    hide RampF, RampSpeed, PosCube, PosSq, Sixth, Twice, RestCube;
    var d := y - x;
    TwicePositive(rho);
    ScurveIsSum(rho, x);
    ScurveIsSum(rho, y);
    SpeedIsSum(rho, x);
    SumRest(rho, x, d);
    RestCubeRange(rho, x, d);
    ScaledBelow(RampF(Scurve, rho, x), RampF(Scurve, rho, y), RampSpeed(Scurve, rho, x), d, Twice(rho));
  }

  lemma SumRest(rho: real, x: real, d: real)
    ensures SumCube(rho, x + d) - SumCube(rho, x) - 3.0 * SumSq(rho, x) * d ==
      RestCube(x, d) - RestCube(x - rho, d) - RestCube(x - 1.0 + rho, d) + RestCube(x - 1.0, d)
    ensures SumSq(rho, x + d) - SumSq(rho, x) ==
      RestSq(x, d) - RestSq(x - rho, d) - RestSq(x - 1.0 + rho, d) + RestSq(x - 1.0, d)
  {
    hide PosCube, PosSq;
    assert x + d - rho == x - rho + d && x + d - 1.0 + rho == x - 1.0 + rho + d && x + d - 1.0 == x - 1.0 + d;
  }

  lemma ScaledBelow(fx: real, fy: real, sx: real, d: real, k: real)
    requires k > 0.0 && fy * (3.0 * k) - fx * (3.0 * k) - 3.0 * (sx * k) * d >= 0.0
    ensures sx * d <= fy - fx
  {
    var r := sx * d - (fy - fx);
    assert r * k == (sx * k) * d - fy * k + fx * k;
    if r > 0.0 { MulPos(r, k); }
  }

  lemma ScurveBounded(rho: real, x: real, y: real)
    requires JerkShare(rho) && 0.0 <= x <= y <= 1.0
    ensures Bounded(RampF(Scurve, rho, x), RampF(Scurve, rho, y), RampSpeed(Scurve, rho, x), RampSpeed(Scurve, rho, y), y - x,
                    Peak(Scurve, rho))
  {
    hide RampF, RampSpeed;
    ScurveBelow(rho, x, y);
    ScurveBelow(rho, 1.0 - y, 1.0 - x);
    ScurveMirror(rho, x);
    ScurveMirror(rho, y);
    var d, sy := y - x, RampSpeed(Scurve, rho, y);
    assert (1.0 - sy) * d == d - sy * d;
    SpeedRise(rho, x, y);
  }

  lemma ScurveMirror(rho: real, tau: real)
    requires JerkShare(rho) && 0.0 <= tau <= 1.0
    ensures RampF(Scurve, rho, 1.0 - tau) == RampF(Scurve, rho, tau) - (tau - 0.5)
    ensures RampSpeed(Scurve, rho, 1.0 - tau) == 1.0 - RampSpeed(Scurve, rho, tau)
  {
    hide RampF, RampSpeed, SumCube, SumSq, Sixth, Twice;
    TwicePositive(rho);
    SumsMirror(rho, tau);
    ScurveIsSum(rho, tau);
    ScurveIsSum(rho, 1.0 - tau);
    SpeedIsSum(rho, tau);
    SpeedIsSum(rho, 1.0 - tau);
    FromSums(RampF(Scurve, rho, 1.0 - tau), RampF(Scurve, rho, tau), tau - 0.5, Sixth(rho), SumCube(rho, 1.0 - tau));
    LessTimes(1.0, RampSpeed(Scurve, rho, tau), Twice(rho));
    SameTimes(RampSpeed(Scurve, rho, 1.0 - tau), 1.0 - RampSpeed(Scurve, rho, tau), Twice(rho));
  }

  lemma FromSums(f: real, g: real, c: real, k: real, sum: real)
    requires k > 0.0 && f * k == sum && g * k == c * k + sum
    ensures f == g - c
  {
    LessTimes(g, c, k);
    SameTimes(f, g - c, k);
  }

  lemma LessTimes(x: real, y: real, k: real)
    ensures (x - y) * k == x * k - y * k
  {
  }

  lemma SameTimes(x: real, y: real, k: real)
    requires k > 0.0 && x * k == y * k
    ensures x == y
  {
    if x < y { MulPos(y - x, k); }
    if y < x { MulPos(x - y, k); }
  }

  lemma SpeedRise(rho: real, x: real, y: real)
    requires JerkShare(rho) && 0.0 <= x <= y <= 1.0
    ensures 0.0 <= RampSpeed(Scurve, rho, y) - RampSpeed(Scurve, rho, x) <= Peak(Scurve, rho) * (y - x)
  {
    hide RampSpeed, PosSq, PosCube, Twice, RestSq, RestCube;
    var d, rise := y - x, RampSpeed(Scurve, rho, y) - RampSpeed(Scurve, rho, x);
    TwicePositive(rho);
    SpeedIsSum(rho, x);
    SpeedIsSum(rho, y);
    SumRest(rho, x, d);
    RestSqRange(rho, x, d);
    assert rise * Twice(rho) == RampSpeed(Scurve, rho, y) * Twice(rho) - RampSpeed(Scurve, rho, x) * Twice(rho);
    PeakShare(rho, rise, d);
  }

  lemma PeakShare(rho: real, rise: real, d: real)
    requires JerkShare(rho) && 0.0 <= rise * Twice(rho) <= 2.0 * (rho * d)
    ensures 0.0 <= rise <= (1.0 / (1.0 - rho)) * d
  {
    var h := 1.0 - rho;
    var c := 1.0 / h;
    assert c * h == 1.0;
    ScaleIs(rho, h);
    assert rise * Twice(rho) == 2.0 * ((rise * h) * rho);
    assert (d - rise * h) * rho == rho * d - (rise * h) * rho;
    if rise < 0.0 { MulPos(-rise, h); MulPos((-rise) * h, rho); }
    if d < rise * h { MulPos(rise * h - d, rho); }
    QuotientPositive(h);
    MulMono(rise * h, d, c);
    assert c * (rise * h) == rise * (c * h);
  }

  lemma QuotientPositive(h: real)
    requires h > 0.0
    ensures 1.0 / h > 0.0
  {
    var c := 1.0 / h;
    assert c * h == 1.0;
    if c <= 0.0 { MulSign(-c, h); }
  }

  // ---------- QUINTIC ----------

  function QuintPart(x: real, d: real, q: real): real {
    x * x * (15.0 * q * q - 10.0 * d * q + 2.5 * d * d) + x * d * (10.0 * q * q - 10.0 * d * q + 3.0 * d * d) +
    d * d * (2.5 * q * q - 3.0 * d * q + d * d)
  }

  /** What is covered beyond the speed at x until t, in terms of the time and of what is left of it. */
  lemma QuintRest(x: real, t: real)
    ensures Quint(t) - Quint(x) - QuintSpeed(x) * (t - x) == (t - x) * (t - x) * QuintPart(x, t - x, 1.0 - x)
  {
  }

  lemma QuintPartSign(x: real, d: real, q: real)
    requires 0.0 <= x && 0.0 <= d <= q
    ensures QuintPart(x, d, q) >= 0.0
  {
    var e := q - d;
    var dd, de, ee := d * d, d * e, e * e;
    MulSign(d, d);
    MulSign(d, e);
    MulSign(e, e);
    MulSign(x, x);
    MulSign(x, d);
    assert 15.0 * q * q - 10.0 * d * q + 2.5 * d * d == 7.5 * dd + 20.0 * de + 15.0 * ee;
    assert 10.0 * q * q - 10.0 * d * q + 3.0 * d * d == 3.0 * dd + 10.0 * de + 10.0 * ee;
    assert 2.5 * q * q - 3.0 * d * q + d * d == 0.5 * dd + 2.0 * de + 2.5 * ee;
    MulSign(x * x, 7.5 * dd + 20.0 * de + 15.0 * ee);
    MulSign(x * d, 3.0 * dd + 10.0 * de + 10.0 * ee);
    MulSign(dd, 0.5 * dd + 2.0 * de + 2.5 * ee);
  }

  lemma QuintBelow(x: real, y: real)
    requires 0.0 <= x <= y <= 1.0
    ensures QuintSpeed(x) * (y - x) <= Quint(y) - Quint(x)
  {
    hide Quint, QuintSpeed, QuintPart;
    var d := y - x;
    QuintRest(x, y);
    QuintPartSign(x, d, 1.0 - x);
    MulSign(d, d);
    MulSign(d * d, QuintPart(x, d, 1.0 - x));
  }

  lemma QuintSpeedMirror(t: real)
    ensures QuintSpeed(1.0 - t) == 1.0 - QuintSpeed(t)
  {
    var u, t2, t3 := 1.0 - t, t * t, t * t * t;
    assert Cube(u) == 1.0 - 3.0 * t + 3.0 * t2 - t3;
    assert 10.0 - 15.0 * u + 6.0 * Sq(u) == 1.0 + 3.0 * t + 6.0 * t2;
    assert QuintSpeed(t) == t3 * (10.0 - 15.0 * t + 6.0 * t2);
  }

  /** Around the middle m of a time 2 h. */
  function QuintGrowth(m: real, h: real): real {
    Growth(m * (1.0 - m), h * h)
  }

  function Growth(u: real, k: real): real { 30.0 * u * u + k * (10.0 - 60.0 * u) + 6.0 * k * k }

  lemma QuintAround(m: real, h: real)
    ensures QuintSpeed(m + h) - QuintSpeed(m - h) == 2.0 * h * QuintGrowth(m, h)
  {
    hide QuintSpeed, QuintGrowth;
    QuintOdd(m, h);
    GrowthIs(m, h);
  }

  lemma QuintOdd(m: real, h: real)
    ensures QuintSpeed(m + h) - QuintSpeed(m - h) ==
      2.0 * h * (30.0 * (m * m - 2.0 * (m * m * m) + m * m * m * m) + h * h * (10.0 - 60.0 * m + 60.0 * (m * m)) + 6.0 * (h * h * h * h))
  {
  }

  lemma GrowthIs(m: real, h: real)
    ensures QuintGrowth(m, h) ==
      30.0 * (m * m - 2.0 * (m * m * m) + m * m * m * m) + h * h * (10.0 - 60.0 * m + 60.0 * (m * m)) + 6.0 * (h * h * h * h)
  {
  }

  lemma QuintGrowthRange(m: real, h: real)
    requires 0.0 <= h <= m && m + h <= 1.0
    ensures 0.0 <= QuintGrowth(m, h) <= 1.875
  {
    hide Growth;
    var u, k := m * (1.0 - m), h * h;
    MulSign(h, h);
    MulSign(m - h, 1.0 - m - h);
    assert (m - h) * (1.0 - m - h) == u - h + k;
    MulSign(h, 1.0 - 2.0 * h);
    assert h * (1.0 - 2.0 * h) == h - 2.0 * k;
    MulSquare(m - 0.5);
    assert (m - 0.5) * (m - 0.5) == 0.25 - u;
    GrowthRange(u, k);
  }

  lemma MulSquare(x: real)
    ensures x * x >= 0.0
  {
  }

  lemma GrowthRange(u: real, k: real)
    requires 0.0 <= k <= u <= 0.25
    ensures 0.0 <= Growth(u, k) <= 1.875
  {
    hide Sq, Over, Growth;
    GrowthSquares(u, k);
    SquareSign(u - k);
    DifferenceSquare(u, k);
    SquareBelow(k);
    GrowthBelow(u, k);
  }

  lemma SquareBelow(k: real)
    requires 0.0 <= k <= 0.25
    ensures 0.0 <= Sq(k) <= 0.25 * k
  {
    MulSign(k, 0.25 - k);
    assert k * (0.25 - k) == 0.25 * k - k * k;
    MulSign(k, k);
  }

  lemma GrowthBelow(u: real, k: real)
    requires 0.0 <= k <= u <= 0.25
    ensures Sq(u) - 2.0 * Over(u, k) <= 0.0625 - 0.5 * k
  {
    MulSign(0.25 - u, 0.25 + u - 2.0 * k);
    assert (0.25 - u) * (0.25 + u - 2.0 * k) == 0.0625 - u * u - 0.5 * k + 2.0 * (u * k);
  }

  lemma GrowthSquares(u: real, k: real)
    ensures Growth(u, k) == 30.0 * Sq(u) - 60.0 * Over(u, k) + 10.0 * k + 6.0 * Sq(k)
  {
  }

  lemma DifferenceSquare(u: real, k: real)
    ensures Sq(u - k) == Sq(u) - 2.0 * Over(u, k) + Sq(k)
  {
  }

  lemma QuintRise(x: real, y: real)
    requires 0.0 <= x <= y <= 1.0
    ensures 0.0 <= QuintSpeed(y) - QuintSpeed(x) <= 1.875 * (y - x)
  {
    hide QuintSpeed, QuintGrowth;
    var m, h := 0.5 * (x + y), 0.5 * (y - x);
    assert m + h == y && m - h == x;
    QuintAround(m, h);
    QuintGrowthRange(m, h);
    var d, g := 2.0 * h, QuintGrowth(m, h);
    MulSign(d, g);
    MulSign(d, 1.875 - g);
    assert d * (1.875 - g) == 1.875 * d - d * g;
  }

  lemma QuintBounded(x: real, y: real)
    requires 0.0 <= x <= y <= 1.0
    ensures Bounded(Quint(x), Quint(y), QuintSpeed(x), QuintSpeed(y), y - x, 1.875)
  {
    hide Quint, QuintSpeed;
    QuintBelow(x, y);
    QuintBelow(1.0 - y, 1.0 - x);
    QuintMirror(x);
    QuintMirror(y);
    QuintSpeedMirror(y);
    var d, sy := y - x, QuintSpeed(y);
    assert (1.0 - sy) * d == d - sy * d;
    QuintRise(x, y);
  }

  // ---------- every profile ----------

  lemma RampBounded(prof: Profile, rho: real, x: real, y: real)
    requires 0.0 <= x <= y <= 1.0
    ensures Bounded(RampF(prof, rho, x), RampF(prof, rho, y), RampSpeed(prof, rho, x), RampSpeed(prof, rho, y), y - x,
                    Peak(prof, rho))
  {
    hide RampF, RampSpeed, Bounded, Peak;
    if prof.Scurve? && JerkShare(rho) {
      ScurveBounded(rho, x, y);
    } else if prof.Quintic? {
      QuintIs(rho, x);
      QuintIs(rho, y);
      QuintBounded(x, y);
    } else {
      TrapIs(prof, rho, x);
      TrapIs(prof, rho, y);
      TrapBounded(x, y);
    }
  }

  lemma QuintIs(rho: real, t: real)
    requires 0.0 <= t <= 1.0
    ensures RampF(Quintic, rho, t) == Quint(t) && RampSpeed(Quintic, rho, t) == QuintSpeed(t) && Peak(Quintic, rho) == 1.875
  {
    hide Quint, QuintSpeed, RampF;
    RampIs(Quintic, rho, t);
    QuintSpeedEnds();
  }

  lemma TrapIs(prof: Profile, rho: real, t: real)
    requires 0.0 <= t <= 1.0 && !prof.Quintic? && !(prof.Scurve? && JerkShare(rho))
    ensures RampF(prof, rho, t) == 0.5 * t * t && RampSpeed(prof, rho, t) == t && Peak(prof, rho) == 1.0
  {
    hide Quint, RampF;
    RampIs(prof, rho, t);
  }

  lemma QuintSpeedEnds()
    ensures QuintSpeed(0.0) == 0.0 && QuintSpeed(1.0) == 1.0
  {
    hide Cube, Sq;
    Ones();
    CubeZero();
  }

  lemma Ones()
    ensures Cube(1.0) == 1.0 && Sq(1.0) == 1.0
  {
  }

  // ---------- a ramp between two speeds ----------

  function RampPart(ta: real, t: real): real { if ta != 0.0 then t / ta else 0.0 }

  /** The speed t into a ramp from v to w lasting ta. */
  function PieceSpeed(prof: Profile, rho: real, v: real, w: real, ta: real, t: real): real {
    Blend(v, w, RampSpeed(prof, rho, RampPart(ta, t)))
  }

  function Blend(v: real, w: real, share: real): real { v + (w - v) * share }

  /** Over a time d the speed changes from p1 to p2 by no more than a d, and the ground covered is that at speed p1, to
      within a d d. */
  ghost predicate Eased(s1: real, s2: real, p1: real, p2: real, a: real, d: real) {
    -Over(a, d) <= p2 - p1 <= Over(a, d) && -OverOver(a, d) <= s2 - s1 - Over(p1, d) <= OverOver(a, d)
  }

  /** At a rate, over a time. */
  function Over(rate: real, d: real): real { rate * d }

  function OverOver(rate: real, d: real): real { rate * (d * d) }

  lemma RampEased(prof: Profile, rho: real, v: real, w: real, ta: real, a: real, t1: real, t2: real)
    requires ta > 0.0 && 0.0 <= t1 <= t2 <= ta && a >= 0.0 && Abs(w - v) * Peak(prof, rho) <= a * ta
    ensures Eased(RampPiece(prof, rho, v, w, ta, t1), RampPiece(prof, rho, v, w, ta, t2),
                  PieceSpeed(prof, rho, v, w, ta, t1), PieceSpeed(prof, rho, v, w, ta, t2), a, t2 - t1)
  {
    hide RampF, RampSpeed, Peak, Eased, Piece, Blend, Bounded;
    Ratio(t1, t2, ta);
    var x, y := t1 / ta, t2 / ta;
    RampBounded(prof, rho, x, y);
    PieceEased(v, w, ta, a, Peak(prof, rho), t1, t2, t2 - t1, y - x, RampF(prof, rho, x), RampF(prof, rho, y),
               RampSpeed(prof, rho, x), RampSpeed(prof, rho, y));
  }

  lemma PieceEased(v: real, w: real, ta: real, a: real, peak: real, t1: real, t2: real, d: real, share: real,
                   fx: real, fy: real, sx: real, sy: real)
    requires ta > 0.0 && share >= 0.0 && t2 - t1 == d == ta * share && a >= 0.0 && Abs(w - v) * peak <= a * ta
    requires Bounded(fx, fy, sx, sy, share, peak)
    ensures Eased(Piece(v, w, ta, t1, fx), Piece(v, w, ta, t2, fy), Blend(v, w, sx), Blend(v, w, sy), a, d)
  {
    hide Eased, Piece, Bounded, Blend, Over, OverOver;
    BoundedRest(fx, fy, sx, sy, share, peak);
    var c, rest := w - v, fy - fx - sx * share;
    Accelerates(c, ta, peak, a, share, d, sy - sx, rest);
    PieceStep(v, w, ta, t1, t2, d, share, fx, fy, sx, sy, c, rest);
    EasedBy(Piece(v, w, ta, t1, fx), Piece(v, w, ta, t2, fy), Blend(v, w, sx), Blend(v, w, sy), a, d,
            Over(c, sy - sx), Over(c, Over(ta, rest)));
  }

  lemma BoundedRest(fx: real, fy: real, sx: real, sy: real, share: real, peak: real)
    requires Bounded(fx, fy, sx, sy, share, peak)
    ensures 0.0 <= sy - sx <= peak * share && 0.0 <= fy - fx - sx * share <= (sy - sx) * share
  {
    LessTimes(sy, sx, share);
  }

  lemma PieceStep(v: real, w: real, ta: real, t1: real, t2: real, d: real, share: real, fx: real, fy: real, sx: real, sy: real,
                  c: real, rest: real)
    requires t2 - t1 == d == ta * share && rest == fy - fx - sx * share && c == w - v
    ensures Piece(v, w, ta, t2, fy) - Piece(v, w, ta, t1, fx) == Over(Blend(v, w, sx), d) + Over(c, Over(ta, rest))
    ensures Blend(v, w, sy) - Blend(v, w, sx) == Over(c, sy - sx)
  {
    hide Piece;
    PieceDifference(v, w, ta, t1, t2, fx, fy);
    RestTimes(v, c, ta, share, sx, fy - fx, rest, d);
  }

  lemma RestTimes(v: real, c: real, ta: real, share: real, sx: real, rise: real, rest: real, d: real)
    requires d == ta * share && rest == rise - sx * share
    ensures v * d + c * (ta * rise) == (v + c * sx) * d + c * (ta * rest)
  {
    assert sx * d == ta * (sx * share);
    assert ta * rest == ta * rise - ta * (sx * share);
  }

  lemma EasedBy(s1: real, s2: real, p1: real, p2: real, a: real, d: real, dp: real, ds: real)
    requires p2 - p1 == dp && s2 - s1 == Over(p1, d) + ds
    requires -Over(a, d) <= dp <= Over(a, d) && -OverOver(a, d) <= ds <= OverOver(a, d)
    ensures Eased(s1, s2, p1, p2, a, d)
  {
  }

  lemma Accelerates(c: real, ta: real, peak: real, a: real, share: real, d: real, rise: real, rest: real)
    requires d == ta * share && ta > 0.0 && share >= 0.0 && a >= 0.0 && Abs(c) * peak <= a * ta
    requires 0.0 <= rise <= peak * share && 0.0 <= rest <= rise * share
    ensures -Over(a, d) <= Over(c, rise) <= Over(a, d) && -OverOver(a, d) <= Over(c, Over(ta, rest)) <= OverOver(a, d)
  {
    hide Abs, Over, OverOver;
    SpeedWithin(Abs(c), ta, peak, a, share, rise, d);
    AbsTimes(c, rise);
    GroundWithin(Abs(c), ta, a, share, rise, rest, d);
    AbsTimes(c, Over(ta, rest));
  }

  lemma SpeedWithin(b: real, ta: real, peak: real, a: real, share: real, rise: real, d: real)
    requires b >= 0.0 && ta > 0.0 && share >= 0.0 && b * peak <= a * ta && 0.0 <= rise <= peak * share && d == ta * share
    ensures Over(b, rise) <= Over(a, d) && d >= 0.0
  {
    MulSign(ta, share);
    MulMono(rise, peak * share, b);
    assert b * (peak * share) == (b * peak) * share;
    MulMono(b * peak, a * ta, share);
    assert (a * ta) * share == a * (ta * share);
  }

  lemma GroundWithin(b: real, ta: real, a: real, share: real, rise: real, rest: real, d: real)
    requires b >= 0.0 && ta > 0.0 && d == ta * share && d >= 0.0 && Over(b, rise) <= Over(a, d) && 0.0 <= rest <= rise * share
    ensures Over(b, Over(ta, rest)) <= OverOver(a, d) && Over(ta, rest) >= 0.0
  {
    MulSign(ta, rest);
    MulMono(rest, rise * share, ta);
    assert (rise * share) * ta == rise * d;
    MulMono(ta * rest, rise * d, b);
    assert b * (rise * d) == (b * rise) * d;
    MulMono(b * rise, a * d, d);
    assert (a * d) * d == a * (d * d);
  }

  lemma AbsTimes(c: real, x: real)
    requires x >= 0.0
    ensures -Over(Abs(c), x) <= Over(c, x) <= Over(Abs(c), x) && Abs(c) >= 0.0
  {
    if c >= 0.0 { MulSign(c, x); } else { MulSign(-c, x); }
  }

  // ---------- the ramps the planner chooses ----------

  /** A planned ramp is long enough for its acceleration. */
  lemma PeakFits(sqrt: real -> real, q: Request, dv: real)
    requires IsSqrt(sqrt) && MotionOk(q) && dv > 0.0
    ensures var r := RampTime(sqrt, q, dv); r.time > 0.0 && dv * Peak(q.prof, r.rho) <= q.a * r.time
  {
    RampTimePositive(sqrt, q, dv);
    match q.prof
    case Trap => DivTimes(dv, q.a);
    case Quintic => DivTimes(1.875 * dv, q.a);
    case Scurve => ScurvePeakFits(sqrt, q, dv);
  }

  lemma ScurvePeakFits(sqrt: real -> real, q: Request, dv: real)
    requires IsSqrt(sqrt) && MotionOk(q) && q.prof.Scurve? && dv > 0.0
    ensures var r := RampTime(sqrt, q, dv); JerkShare(r.rho) && PeakRise(dv, r.rho) <= Over(q.a, r.time)
  {
    hide Knee, IsSqrt, PeakRise, Over, JerkGain;
    if dv >= Knee(q.a, q.j) {
      LongRamp(dv, q.a, q.j);
    } else {
      ShortRamp(sqrt, dv, q.a, q.j);
    }
  }

  /** Above the knee the acceleration is reached and held. */
  lemma LongRamp(dv: real, a: real, j: real)
    requires dv > 0.0 && a > 0.0 && j > 0.0 && dv >= Knee(a, j)
    ensures var ta := dv / a + a / j;
      ta > 0.0 && var rho := (a / j) / ta;
      JerkShare(rho) && PeakRise(dv, rho) <= Over(a, ta) && JerkGain(j, ta, rho) == 2.0 * dv
  {
    var g, k := dv / a, a / j;
    var ta := g + k;
    DivTimes(dv, a);
    DivTimes(a, j);
    QuotientPos(dv, a);
    QuotientPos(a, j);
    KneeShare(dv, a, j, g, k);
    var rho := k / ta;
    DivTimes(k, ta);
    Ratio(k, k, ta);
    QuotientPos(k, ta);
    HalfShare(k, g, ta, rho);
    var h := 1.0 - rho;
    assert h * ta == g by { LessTimes(1.0, rho, ta); }
    PeakTimes(dv, a, ta, g, h);
    JerkTimes(dv, a, j, ta, rho, h, g, k);
  }

  lemma KneeShare(dv: real, a: real, j: real, g: real, k: real)
    requires a > 0.0 && j > 0.0 && dv >= Knee(a, j) && g * a == dv && k * j == a
    ensures g >= k
  {
    DivTimes(a * a, j);
    var knee := a * a / j;
    assert (k * a) * j == a * a;
    SameTimes(k * a, knee, j);
    if g < k { MulPos(k - g, a); LessTimes(k, g, a); }
  }

  lemma HalfShare(k: real, g: real, ta: real, rho: real)
    requires 0.0 < k <= g && ta == g + k && rho * ta == k
    ensures rho <= 0.5
  {
    if rho > 0.5 { MulPos(rho - 0.5, ta); LessTimes(rho, 0.5, ta); }
  }

  lemma PeakTimes(dv: real, a: real, ta: real, g: real, h: real)
    requires h > 0.0 && h * ta == g && g * a == dv
    ensures dv * (1.0 / h) == a * ta
  {
    var c := 1.0 / h;
    DivTimes(1.0, h);
    assert dv * c == (c * h) * (a * ta);
  }

  lemma JerkTimes(dv: real, a: real, j: real, ta: real, rho: real, h: real, g: real, k: real)
    requires rho * ta == k && h * ta == g && h == 1.0 - rho && g * a == dv && k * j == a
    ensures JerkGain(j, ta, rho) == 2.0 * dv
  {
    hide Twice;
    ScaleIs(rho, h);
    assert j * (ta * ta) * (2.0 * (rho * h)) == 2.0 * (j * ((rho * ta) * (h * ta)));
    assert j * (k * g) == (k * j) * g;
  }

  /** Below it, jerk alone decides. */
  lemma ShortRamp(sqrt: real -> real, dv: real, a: real, j: real)
    requires IsSqrt(sqrt) && dv > 0.0 && a > 0.0 && j > 0.0 && dv < Knee(a, j)
    ensures var ta := 2.0 * sqrt(dv / j);
      ta > 0.0 && PeakRise(dv, 0.5) <= Over(a, ta) && JerkGain(j, ta, 0.5) == 2.0 * dv
  {
    var s := sqrt(dv / j);
    QuotientPos(dv, j);
    DivTimes(dv, j);
    DivTimes(a * a, j);
    assert s * s == dv / j;
    var ss := s * s;
    assert ss * j == dv;
    PositiveRoot(s, ss);
    var js := j * s;
    assert js * s == dv;
    RootBound(s, a, j, dv);
    MulMono(js, a, s);
    HalfTwice();
    assert j * ((2.0 * s) * (2.0 * s)) == 4.0 * (js * s);
  }

  lemma PositiveRoot(s: real, ss: real)
    requires s >= 0.0 && s * s == ss && ss > 0.0
    ensures s > 0.0
  {
    var t := if ss < 1.0 then ss else 1.0;
    SquareShare(t, 1.0);
    SqIs(t);
    SquareOrder(t, s);
  }

  lemma HalfTwice()
    ensures Twice(0.5) == 0.5 && 1.0 / (1.0 - 0.5) == 2.0
  {
  }

  lemma RootBound(s: real, a: real, j: real, dv: real)
    requires s >= 0.0 && a > 0.0 && j > 0.0 && (s * s) * j == dv && dv < Knee(a, j)
    ensures j * s <= a
  {
    var knee := a * a / j;
    DivTimes(a * a, j);
    MulMono(dv, knee, j);
    var js := j * s;
    assert js * js == ((s * s) * j) * j;
    MulSign(j, s);
    SquareOrder(js, a);
  }

  /** The planned ramp is the quickest there is: no other time, for an S-curve with no other share of jerk, keeps to the
      acceleration and jerk and is shorter. */
  lemma RampIsShortest(sqrt: real -> real, q: Request, dv: real, ta: real, rho: real)
    requires IsSqrt(sqrt) && MotionOk(q) && dv > 0.0 && ta > 0.0 && dv * Peak(q.prof, rho) <= q.a * ta
    requires q.prof.Scurve? ==> JerkShare(rho) && 2.0 * dv <= JerkGain(q.j, ta, rho)
    ensures RampTime(sqrt, q, dv).time <= ta
  {
    hide Knee, JerkGain, JerkShare;
    match q.prof
    case Trap => AtLeastQuotient(dv, q.a, ta);
    case Quintic => AtLeastQuotient(1.875 * dv, q.a, ta);
    case Scurve =>
      SharedTime(q.j, dv, q.a, ta, rho);
      if dv >= Knee(q.a, q.j) {
        LongIsShortest(dv, q.a, q.j, (1.0 - rho) * ta, rho * ta);
      } else {
        ShortIsShortest(sqrt, dv, q.j, (1.0 - rho) * ta, rho * ta);
      }
      assert (1.0 - rho) * ta + rho * ta == ta;
  }

  lemma AtLeastQuotient(x: real, a: real, ta: real)
    requires a > 0.0 && x <= a * ta
    ensures x / a <= ta
  {
    var r := x / a;
    DivTimes(x, a);
    if r > ta { MulPos(r - ta, a); LessTimes(r, ta, a); }
  }

  /** The time an S-curve holds its peak and the time it takes to reach it. */
  lemma SharedTime(j: real, dv: real, a: real, ta: real, rho: real)
    requires JerkShare(rho) && ta > 0.0 && j > 0.0 && a > 0.0 && dv * Peak(Scurve, rho) <= a * ta && 2.0 * dv <= JerkGain(j, ta, rho)
    ensures var x, y := (1.0 - rho) * ta, rho * ta; x > 0.0 && y > 0.0 && dv <= a * x && dv <= j * (x * y)
  {
    var h := 1.0 - rho;
    MulPos(h, ta);
    MulPos(rho, ta);
    var c := 1.0 / h;
    DivTimes(1.0, h);
    MulMono(dv * c, a * ta, h);
    assert dv * c * h == dv * (c * h);
    assert a * ta * h == a * (h * ta);
    GainIs(j, ta, rho, h);
  }

  lemma GainIs(j: real, ta: real, rho: real, h: real)
    requires h == 1.0 - rho
    ensures JerkGain(j, ta, rho) == 2.0 * (j * ((h * ta) * (rho * ta)))
  {
    ScaleIs(rho, h);
    hide Twice;
    assert j * (ta * ta) * (2.0 * (rho * h)) == 2.0 * (j * ((h * ta) * (rho * ta)));
  }

  lemma LongIsShortest(dv: real, a: real, j: real, x: real, y: real)
    requires dv > 0.0 && a > 0.0 && j > 0.0 && dv >= Knee(a, j) && x > 0.0 && y > 0.0 && dv <= a * x && dv <= j * (x * y)
    ensures dv / a + a / j <= x + y
  {
    var g, k := dv / a, a / j;
    DivTimes(dv, a);
    DivTimes(a, j);
    KneeShare(dv, a, j, g, k);
    AtLeastQuotient(dv, a, x);
    assert (g * k) * j == dv;
    AtLeastProduct(g * k, x * y, j);
    MulSign(x - g, x - k);
    Beyond(g, k, x, y);
  }

  lemma AtLeastProduct(p: real, xy: real, j: real)
    requires j > 0.0 && p * j <= j * xy
    ensures p <= xy
  {
    if p > xy { MulPos(p - xy, j); LessTimes(p, xy, j); }
  }

  lemma Beyond(g: real, k: real, x: real, y: real)
    requires x > 0.0 && g * k <= x * y && (x - g) * (x - k) >= 0.0
    ensures g + k <= x + y
  {
    assert (x - g) * (x - k) == x * x - (g + k) * x + g * k;
    assert (x + y) * x == x * x + x * y;
    if g + k > x + y { MulPos(g + k - (x + y), x); LessTimes(g + k, x + y, x); }
  }

  lemma ShortIsShortest(sqrt: real -> real, dv: real, j: real, x: real, y: real)
    requires IsSqrt(sqrt) && dv > 0.0 && j > 0.0 && x > 0.0 && y > 0.0 && dv <= j * (x * y)
    ensures 2.0 * sqrt(dv / j) <= x + y
  {
    var s := sqrt(dv / j);
    QuotientPos(dv, j);
    DivTimes(dv, j);
    AtLeastProduct(dv / j, x * y, j);
    MeanAtLeast(s, x, y);
  }

  lemma MeanAtLeast(s: real, x: real, y: real)
    requires s >= 0.0 && x > 0.0 && y > 0.0 && s * s <= x * y
    ensures 2.0 * s <= x + y
  {
    MulSquare(x - y);
    assert (x + y) * (x + y) == (x - y) * (x - y) + 4.0 * (x * y);
    assert (2.0 * s) * (2.0 * s) == 4.0 * (s * s);
    SquareOrder(2.0 * s, x + y);
  }

  // ---------- a whole segment ----------

  /** The speed along a planned segment. */
  function SpeedAt(m: Motion, t: real): real {
    if t < m.ta0 then FirstSpeed(m, t) else if t < m.ta0 + m.tc then m.vc else LastSpeed(m, t)
  }

  function FirstSpeed(m: Motion, t: real): real { PieceSpeed(m.q.prof, m.rho0, m.q.vIn, m.vc, m.ta0, t) }

  function LastSpeed(m: Motion, t: real): real {
    if m.ta1 > 0.0 then PieceSpeed(m.q.prof, m.rho1, m.vc, m.q.vOut, m.ta1, t - (m.ta0 + m.tc)) else m.vc
  }

  /** A planned segment's ramps are long enough, and a ramp that takes no time changes nothing. */
  ghost predicate Gentle(m: Motion) {
    Pieces(m) && m.q.a > 0.0 &&
    (m.ta0 > 0.0 ==> Abs(m.vc - m.q.vIn) * Peak(m.q.prof, m.rho0) <= m.q.a * m.ta0) && (m.ta0 <= 0.0 ==> m.vc == m.q.vIn) &&
    (m.ta1 > 0.0 ==> Abs(m.q.vOut - m.vc) * Peak(m.q.prof, m.rho1) <= m.q.a * m.ta1) && (m.ta1 <= 0.0 ==> m.vc == m.q.vOut)
  }

  lemma PlannedGentle(sqrt: real -> real, q: Request, vc: real)
    requires IsSqrt(sqrt) && Planned(sqrt, q, vc) && vc > 0.0
    ensures Gentle(MotionAt(sqrt, q, vc))
  {
    hide RampTime, MeanDistance, Pieces, Peak, RampDist;
    PlannedPieces(sqrt, q, vc);
    var up, down := vc - q.vIn, vc - q.vOut;
    RampTimePositive(sqrt, q, up);
    RampTimePositive(sqrt, q, down);
    if up > 0.0 { PeakFits(sqrt, q, up); }
    if down > 0.0 { PeakFits(sqrt, q, down); }
  }

  lemma EasedTwice(s1: real, s2: real, s3: real, p1: real, p2: real, p3: real, a: real, d: real, e: real)
    requires Eased(s1, s2, p1, p2, a, d) && Eased(s2, s3, p2, p3, a, e) && a >= 0.0 && d >= 0.0 && e >= 0.0
    ensures Eased(s1, s3, p1, p3, a, d + e)
  {
    hide Over, OverOver;
    OverBoth(a, p1, p2, d, e);
  }

  /** Two times, one after the other. */
  lemma OverBoth(a: real, p1: real, p2: real, d: real, e: real)
    requires a >= 0.0 && d >= 0.0 && e >= 0.0 && -Over(a, d) <= p2 - p1 <= Over(a, d)
    ensures Over(a, d + e) == Over(a, d) + Over(a, e)
    ensures var c := Over(Over(a, d), e);
      OverOver(a, d + e) == OverOver(a, d) + 2.0 * c + OverOver(a, e) && c >= 0.0 &&
      -c <= Over(p1, d + e) - Over(p1, d) - Over(p2, e) <= c
  {
    hide Over, OverOver;
    OverSum(a, d, e);
    OverSum(p1, d, e);
    OverSigns(a, d, e);
    OverWithin(p2 - p1, Over(a, d), e);
    OverLess(p2, p1, e);
    SquareSum(a, d, e);
  }

  lemma OverSum(a: real, d: real, e: real)
    ensures Over(a, d + e) == Over(a, d) + Over(a, e)
  {
  }

  lemma OverLess(p: real, q: real, e: real)
    ensures Over(p - q, e) == Over(p, e) - Over(q, e)
  {
  }

  lemma OverSigns(a: real, d: real, e: real)
    requires a >= 0.0 && d >= 0.0 && e >= 0.0
    ensures Over(a, d) >= 0.0 && Over(Over(a, d), e) >= 0.0 && OverOver(a, d) >= 0.0
  {
    MulSign(a, d);
    MulSign(a * d, e);
    MulSign(d, d);
    MulSign(a, d * d);
  }

  lemma OverWithin(r: real, b: real, e: real)
    requires -b <= r <= b && e >= 0.0
    ensures -Over(b, e) <= Over(r, e) <= Over(b, e)
  {
    MulMono(r, b, e);
    MulMono(-b, r, e);
  }

  lemma SquareSum(a: real, d: real, e: real)
    ensures OverOver(a, d + e) == OverOver(a, d) + 2.0 * Over(Over(a, d), e) + OverOver(a, e)
  {
    assert (d + e) * (d + e) == d * d + 2.0 * (d * e) + e * e;
  }

  lemma EasedIs(s1: real, s2: real, p1: real, p2: real, a: real, d: real)
    requires Eased(s1, s2, p1, p2, a, d)
    ensures -(a * d) <= p2 - p1 <= a * d && -(a * (d * d)) <= s2 - s1 - p1 * d <= a * (d * d)
  {
    assert Over(a, d) == a * d && OverOver(a, d) == a * (d * d) && Over(p1, d) == p1 * d;
  }

  lemma NoTime(s: real, p: real, a: real)
    ensures Eased(s, s, p, p, a, 0.0)
  {
    assert a * 0.0 == 0.0 && a * (0.0 * 0.0) == 0.0 && p * 0.0 == 0.0;
  }

  lemma FirstEased(m: Motion, x: real, y: real)
    requires Gentle(m) && 0.0 <= x <= y <= m.ta0 && m.ta0 > 0.0
    ensures Eased(First(m, x), First(m, y), FirstSpeed(m, x), FirstSpeed(m, y), m.q.a, y - x)
    ensures FirstSpeed(m, 0.0) == m.q.vIn && FirstSpeed(m, m.ta0) == m.vc
  {
    hide RampPiece, PieceSpeed, Eased, Peak, Pieces;
    RampEased(m.q.prof, m.rho0, m.q.vIn, m.vc, m.ta0, m.q.a, x, y);
    SpeedEnds(m.q.prof, m.rho0, m.q.vIn, m.vc, m.ta0);
  }

  lemma SpeedEnds(prof: Profile, rho: real, v: real, w: real, ta: real)
    requires ta > 0.0
    ensures PieceSpeed(prof, rho, v, w, ta, 0.0) == v && PieceSpeed(prof, rho, v, w, ta, ta) == w
  {
    Ratio(0.0, ta, ta);
    hide QuintSpeed, SumSq;
    BlendEnds(v, w);
    hide Blend;
  }

  lemma BlendEnds(v: real, w: real)
    ensures Blend(v, w, 0.0) == v && Blend(v, w, 1.0) == w
  {
  }

  lemma CruiseEased(m: Motion, x: real, y: real)
    requires Gentle(m) && x <= y
    ensures Eased(Cruise(m, x), Cruise(m, y), m.vc, m.vc, m.q.a, y - x)
  {
    hide Pieces, Peak, Eased;
    var d := y - x;
    OverSigns(m.q.a, d, d);
    CruiseStep(m, x, y, d);
    hide Over, OverOver;
    StandingEased(Cruise(m, x), Cruise(m, y), m.vc, m.q.a, d);
  }

  lemma CruiseStep(m: Motion, x: real, y: real, d: real)
    requires d == y - x
    ensures Cruise(m, y) - Cruise(m, x) == Over(m.vc, d)
  {
  }

  lemma StandingEased(s1: real, s2: real, p: real, a: real, d: real)
    requires s2 - s1 == Over(p, d) && Over(a, d) >= 0.0 && OverOver(a, d) >= 0.0
    ensures Eased(s1, s2, p, p, a, d)
  {
  }

  lemma LastEased(m: Motion, x: real, y: real)
    requires Gentle(m) && m.ta0 + m.tc <= x <= y <= m.dur
    ensures Eased(Last(m, x), Last(m, y), LastSpeed(m, x), LastSpeed(m, y), m.q.a, y - x)
    ensures LastSpeed(m, m.ta0 + m.tc) == m.vc && LastSpeed(m, m.dur) == m.q.vOut
  {
    hide RampPiece, PieceSpeed, Eased, Peak, MeanDistance, Last, LastSpeed;
    var k := m.ta0 + m.tc;
    LastIs(m, x);
    LastIs(m, y);
    LastIs(m, k);
    LastIs(m, m.dur);
    if m.ta1 > 0.0 {
      RampEased(m.q.prof, m.rho1, m.vc, m.q.vOut, m.ta1, m.q.a, x - k, y - k);
      SpeedEnds(m.q.prof, m.rho1, m.vc, m.q.vOut, m.ta1);
      assert m.dur - k == m.ta1 && (y - k) - (x - k) == y - x && k - k == 0.0;
      Shifted(Base(m), RampPiece(m.q.prof, m.rho1, m.vc, m.q.vOut, m.ta1, x - k), RampPiece(m.q.prof, m.rho1, m.vc, m.q.vOut, m.ta1, y - k),
              LastSpeed(m, x), LastSpeed(m, y), m.q.a, y - x);
    } else {
      NoTime(Last(m, x), m.vc, m.q.a);
    }
  }

  function Base(m: Motion): real { m.d0 + m.vc * m.tc }

  lemma LastIs(m: Motion, t: real)
    ensures m.ta1 > 0.0 ==>
      Last(m, t) == Base(m) + RampPiece(m.q.prof, m.rho1, m.vc, m.q.vOut, m.ta1, t - (m.ta0 + m.tc)) &&
      LastSpeed(m, t) == PieceSpeed(m.q.prof, m.rho1, m.vc, m.q.vOut, m.ta1, t - (m.ta0 + m.tc))
    ensures m.ta1 <= 0.0 ==> LastSpeed(m, t) == m.vc
  {
    hide RampPiece, PieceSpeed;
  }

  lemma Shifted(base: real, s1: real, s2: real, p1: real, p2: real, a: real, d: real)
    requires Eased(s1, s2, p1, p2, a, d)
    ensures Eased(base + s1, base + s2, p1, p2, a, d)
  {
  }

  lemma GentlePieces(m: Motion)
    requires Gentle(m)
    ensures Pieces(m) && m.q.a > 0.0 && m.ta0 >= 0.0 && m.tc >= 0.0 && m.ta1 >= 0.0 && m.dur == m.ta0 + m.tc + m.ta1
  {
  }

  /** Across both joints, over any time, the speed changes by no more than the acceleration allows, and it is the speed the
      path variable moves at. */
  lemma SegmentEased(m: Motion, x: real, y: real)
    requires Gentle(m) && 0.0 <= x <= y <= m.dur
    ensures Eased(Unclamped(m, x), Unclamped(m, y), SpeedAt(m, x), SpeedAt(m, y), m.q.a, y - x)
  {
    hide First, Cruise, Last, Eased, FirstSpeed, LastSpeed, Gentle, Pieces;
    GentlePieces(m);
    var j, k, a := m.ta0, m.ta0 + m.tc, m.q.a;
    if y < j {
      FirstEased(m, x, y);
    } else if x < j {
      FirstEased(m, x, j);
      FirstMoves(m, x, j);
      if y < k {
        UpToCruise(m, x, y);
      } else {
        CruiseMoves(m, j, k);
        CruiseEased(m, j, k);
        LastEased(m, k, y);
        LastMoves(m, k, y);
        EasedTwice(First(m, x), First(m, j), Cruise(m, k), FirstSpeed(m, x), m.vc, m.vc, a, j - x, k - j);
        EasedTwice(First(m, x), Cruise(m, k), Last(m, y), FirstSpeed(m, x), m.vc, LastSpeed(m, y), a, k - x, y - k);
      }
    } else if y < k {
      CruiseEased(m, x, y);
    } else if x < k {
      CruiseMoves(m, x, k);
      CruiseEased(m, x, k);
      LastEased(m, k, y);
      LastMoves(m, k, y);
      EasedTwice(Cruise(m, x), Cruise(m, k), Last(m, y), m.vc, m.vc, LastSpeed(m, y), a, k - x, y - k);
    } else {
      LastEased(m, x, y);
    }
  }

  lemma UpToCruise(m: Motion, x: real, y: real)
    requires Gentle(m) && 0.0 <= x < m.ta0 <= y < m.ta0 + m.tc
    ensures Eased(First(m, x), Cruise(m, y), FirstSpeed(m, x), m.vc, m.q.a, y - x)
  {
    hide First, Cruise, Eased, FirstSpeed, Gentle, Pieces;
    GentlePieces(m);
    var j := m.ta0;
    FirstEased(m, x, j);
    FirstMoves(m, x, j);
    CruiseMoves(m, j, y);
    CruiseEased(m, j, y);
    EasedTwice(First(m, x), First(m, j), Cruise(m, y), FirstSpeed(m, x), m.vc, m.vc, m.q.a, j - x, y - j);
  }

  lemma SegmentSpeedEnds(m: Motion)
    requires Gentle(m)
    ensures SpeedAt(m, 0.0) == m.q.vIn && SpeedAt(m, m.dur) == m.q.vOut
  {
    hide FirstSpeed, LastSpeed, Pieces, Eased, Peak;
    GentlePieces(m);
    if m.ta0 > 0.0 { FirstEased(m, 0.0, 0.0); }
    LastEased(m, m.dur, m.dur);
  }

  /** With ramps that fit the length, the path variable is never cut off: it is those three pieces. */
  lemma NotCutOff(sqrt: real -> real, q: Request, vc: real, t: real)
    requires IsSqrt(sqrt) && Planned(sqrt, q, vc) && vc > 0.0 && RampDist(sqrt, q, vc) <= q.len
    requires 0.0 <= t <= MotionAt(sqrt, q, vc).dur
    ensures var m := MotionAt(sqrt, q, vc); PathS(m, t) == Unclamped(m, t)
  {
    hide RampTime, MeanDistance, PathS, Unclamped, Moves, RampPiece, Pieces;
    PlannedPieces(sqrt, q, vc);
    var m := MotionAt(sqrt, q, vc);
    PathIs(m, t);
    UnclampedMoves(m, t, m.dur);
    MovesUp(Unclamped(m, t), Unclamped(m, m.dur), m.vc, m.dur - t);
    ReachesLength(sqrt, q, vc);
  }

  lemma MovesUp(from: real, to: real, high: real, d: real)
    requires Moves(from, to, 0.0, high, d)
    ensures from <= to
  {
  }

  lemma ReachesLength(sqrt: real -> real, q: Request, vc: real)
    requires IsSqrt(sqrt) && Planned(sqrt, q, vc) && vc > 0.0 && RampDist(sqrt, q, vc) <= q.len
    ensures var m := MotionAt(sqrt, q, vc); Unclamped(m, m.dur) == q.len
  {
    hide RampTime, MeanDistance, RampPiece;
    PlannedPieces(sqrt, q, vc);
    var m := MotionAt(sqrt, q, vc);
    var lc := q.len - m.d0 - MeanDistance(vc, q.vOut, m.ta1);
    assert vc * m.tc == lc by { DivTimes(lc, vc); }
    if m.ta1 > 0.0 { RampEnds(q.prof, m.rho1, vc, q.vOut, m.ta1); } else { MeanZero(vc, q.vOut); }
    assert m.dur - (m.ta0 + m.tc) == m.ta1;
  }

  /** What every planned segment with a cruise speed asks of the craft: it starts at v_in and ends at v_out, and over any
      time d in between its speed changes by at most a d, the ground covered being that at the speed it had, to within
      a d d. The path variable is just that as long as the ramps fit the length. */
  lemma PlanKeepsAccel(sqrt: real -> real, q: Request, vc: real, t1: real, t2: real)
    requires IsSqrt(sqrt) && Planned(sqrt, q, vc) && vc > 0.0 && 0.0 <= t1 <= t2 <= MotionAt(sqrt, q, vc).dur
    ensures var m, d := MotionAt(sqrt, q, vc), t2 - t1;
      SpeedAt(m, 0.0) == q.vIn && SpeedAt(m, m.dur) == q.vOut && Abs(SpeedAt(m, t2) - SpeedAt(m, t1)) <= q.a * d &&
      Abs(Unclamped(m, t2) - Unclamped(m, t1) - SpeedAt(m, t1) * d) <= q.a * (d * d)
    ensures var m := MotionAt(sqrt, q, vc);
      RampDist(sqrt, q, vc) <= q.len ==> PathS(m, t1) == Unclamped(m, t1) && PathS(m, t2) == Unclamped(m, t2)
  {
    hide MotionAt, SpeedAt, Unclamped, PathS, RampDist, Eased, Gentle, RampTime;
    PlannedGentle(sqrt, q, vc);
    var m, d := MotionAt(sqrt, q, vc), t2 - t1;
    MotionFor(sqrt, q, vc);
    SegmentEased(m, t1, t2);
    SegmentSpeedEnds(m);
    EasedIs(Unclamped(m, t1), Unclamped(m, t2), SpeedAt(m, t1), SpeedAt(m, t2), q.a, d);
    if RampDist(sqrt, q, vc) <= q.len {
      NotCutOff(sqrt, q, vc, t1);
      NotCutOff(sqrt, q, vc, t2);
    }
  }

  // ---------- jerk ----------

  /** How the speed changes over one time h and over the next. */
  function Turn(p1: real, p2: real, p3: real): real { p3 - 2.0 * p2 + p1 }

  function TurnSq(u: real, h: real): real { Turn(PosSq(u), PosSq(u + h), PosSq(u + 2.0 * h)) }

  lemma TurnSqIs(u: real, h: real)
    requires h >= 0.0
    ensures u >= 0.0 ==> TurnSq(u, h) == 2.0 * Sq(h)
    ensures -h <= u <= 0.0 ==> TurnSq(u, h) == 2.0 * Sq(h) - Sq(u)
    ensures -2.0 * h <= u <= -h ==> TurnSq(u, h) == Sq(u + 2.0 * h)
    ensures u <= -2.0 * h ==> TurnSq(u, h) == 0.0
  {
  }

  lemma SqMono(u: real, v: real)
    requires 0.0 <= u <= v
    ensures 0.0 <= Sq(u) <= Sq(v) && Sq(-u) == Sq(u) && Sq(-v) == Sq(v)
  {
    MulMono(u, v, u);
    MulMono(u, v, v);
    MulSign(u, u);
  }

  /** It never falls, from nothing to twice the square. */
  lemma TurnSqRises(u: real, v: real, h: real)
    requires u <= v && h >= 0.0
    ensures 0.0 <= TurnSq(u, h) <= TurnSq(v, h) <= 2.0 * Sq(h)
  {
    hide TurnSq, Sq;
    TurnSqIs(u, h);
    TurnSqIs(v, h);
    SqMono(0.0, h);
    TurnSqRange(u, h);
    TurnSqRange(v, h);
    if -h <= u && v <= 0.0 {
      SqMono(-v, -u);
      assert -(-v) == v && -(-u) == u;
    } else if -2.0 * h <= u && v <= -h {
      SqMono(u + 2.0 * h, v + 2.0 * h);
    }
  }

  lemma TurnSqRange(u: real, h: real)
    requires h >= 0.0
    ensures 0.0 <= TurnSq(u, h) <= 2.0 * Sq(h) && (u <= -h ==> TurnSq(u, h) <= Sq(h)) && (u >= -h ==> TurnSq(u, h) >= Sq(h))
  {
    hide TurnSq, Sq;
    TurnSqIs(u, h);
    SqMono(0.0, h);
    if -h <= u <= 0.0 {
      SqMono(-u, h);
      assert -(-u) == u;
    } else if -2.0 * h <= u <= -h {
      SqMono(u + 2.0 * h, h);
    }
  }

  /** Read backwards, what is missing from twice the square. */
  lemma TurnSqMirror(u: real, h: real)
    requires h >= 0.0
    ensures TurnSq(u, h) + TurnSq(-u - 2.0 * h, h) == 2.0 * Sq(h)
  {
    hide TurnSq, Sq;
    var back := -u - 2.0 * h;
    TurnSqIs(u, h);
    TurnSqIs(back, h);
    SqMono(0.0, h);
    MirrorSq(u);
    MirrorSq(back);
    assert -u == back + 2.0 * h && -back == u + 2.0 * h;
  }

  lemma MirrorSq(u: real)
    ensures Sq(-u) == Sq(u) && Sq(0.0) == 0.0
  {
  }

  /** A unit S-curve, standing still before it and cruising after it: a turn that begins before it, or ends after it, is
      the smaller for that. */
  lemma ScurveTurns(rho: real, x: real, h: real)
    requires JerkShare(rho) && h >= 0.0
    ensures var turn := Turn(RampSpeed(Scurve, rho, x), RampSpeed(Scurve, rho, x + h), RampSpeed(Scurve, rho, x + 2.0 * h));
      Abs(Over(turn, Twice(rho))) <= TurnSq(x, h) && Abs(Over(turn, Twice(rho))) <= TurnSq(1.0 - x - 2.0 * h, h)
  {
    hide RampSpeed, TurnSq, SumSq, Turn, Sq, Twice, Over;
    SpeedIsSum(rho, x);
    SpeedIsSum(rho, x + h);
    SpeedIsSum(rho, x + 2.0 * h);
    TurnSqRises(x - rho, x, h);
    TurnSqRises(x - 1.0 + rho, x - rho, h);
    TurnSqRises(x - 1.0, x - 1.0 + rho, h);
    TurnSqMirror(x - 1.0, h);
    assert -(x - 1.0) - 2.0 * h == 1.0 - x - 2.0 * h;
    SumTurn(rho, x, h);
    TurnTimes(RampSpeed(Scurve, rho, x), RampSpeed(Scurve, rho, x + h), RampSpeed(Scurve, rho, x + 2.0 * h), Twice(rho),
              SumSq(rho, x), SumSq(rho, x + h), SumSq(rho, x + 2.0 * h));
  }

  lemma SumTurn(rho: real, x: real, h: real)
    ensures Turn(SumSq(rho, x), SumSq(rho, x + h), SumSq(rho, x + 2.0 * h)) ==
      TurnSq(x, h) - TurnSq(x - rho, h) - TurnSq(x - 1.0 + rho, h) + TurnSq(x - 1.0, h)
  {
    hide PosSq;
    assert x + h - rho == x - rho + h && x + h - 1.0 + rho == x - 1.0 + rho + h && x + h - 1.0 == x - 1.0 + h;
    assert x + 2.0 * h - rho == x - rho + 2.0 * h && x + 2.0 * h - 1.0 == x - 1.0 + 2.0 * h;
    assert x + 2.0 * h - 1.0 + rho == x - 1.0 + rho + 2.0 * h;
  }

  lemma TurnTimes(p1: real, p2: real, p3: real, k: real, s1: real, s2: real, s3: real)
    requires p1 * k == s1 && p2 * k == s2 && p3 * k == s3
    ensures Over(Turn(p1, p2, p3), k) == Turn(s1, s2, s3)
  {
  }

  /** A planned S-curve ramp is long enough for its jerk. */
  lemma JerkFits(sqrt: real -> real, q: Request, dv: real)
    requires IsSqrt(sqrt) && MotionOk(q) && q.prof.Scurve? && dv > 0.0
    ensures var r := RampTime(sqrt, q, dv); r.time > 0.0 && JerkShare(r.rho) && JerkGain(q.j, r.time, r.rho) == 2.0 * dv
  {
    hide Knee, JerkGain, PeakRise;
    RampTimePositive(sqrt, q, dv);
    if dv >= Knee(q.a, q.j) { LongRamp(dv, q.a, q.j); } else { ShortRamp(sqrt, dv, q.a, q.j); }
  }

  /** A turn over h and h more on one planned S-curve ramp, against the time of it that falls into the ramp. */
  lemma RampTurns(sqrt: real -> real, q: Request, v: real, w: real, t: real, h: real)
    requires IsSqrt(sqrt) && MotionOk(q) && q.prof.Scurve? && h >= 0.0
    ensures var r := RampTime(sqrt, q, Abs(w - v));
      var turn := Turn(PieceSpeed(Scurve, r.rho, v, w, r.time, t), PieceSpeed(Scurve, r.rho, v, w, r.time, t + h),
                       PieceSpeed(Scurve, r.rho, v, w, r.time, t + 2.0 * h));
      2.0 * Abs(turn) <= Over(q.j, TurnSq(t, h)) && 2.0 * Abs(turn) <= Over(q.j, TurnSq(r.time - t - 2.0 * h, h))
  {
    hide RampTime, Turn, PieceSpeed, JerkGain, TurnSq, Over;
    var r := RampTime(sqrt, q, Abs(w - v));
    if v == w {
      NoTurn(Scurve, r.rho, v, r.time, t, h, q.j);
      NoTurn(Scurve, r.rho, v, r.time, r.time - t - 2.0 * h, h, q.j);
    } else {
      JerkFits(sqrt, q, Abs(w - v));
      ScaledTurns(r.rho, v, w, r.time, q.j, t, h);
    }
  }

  lemma ScaledTurns(rho: real, v: real, w: real, ta: real, j: real, t: real, h: real)
    requires JerkShare(rho) && ta > 0.0 && j > 0.0 && h >= 0.0 && JerkGain(j, ta, rho) == 2.0 * Abs(w - v)
    ensures var turn := Turn(PieceSpeed(Scurve, rho, v, w, ta, t), PieceSpeed(Scurve, rho, v, w, ta, t + h),
                             PieceSpeed(Scurve, rho, v, w, ta, t + 2.0 * h));
      2.0 * Abs(turn) <= Over(j, TurnSq(t, h)) && 2.0 * Abs(turn) <= Over(j, TurnSq(ta - t - 2.0 * h, h))
  {
    hide RampSpeed, Turn, PieceSpeed, JerkGain, TurnSq, Over, Twice;
    var x, g := t / ta, h / ta;
    DivTimes(t, ta);
    DivTimes(h, ta);
    PartAt(ta, t, h, x, g);
    ScurveTurns(rho, x, g);
    var turn := Turn(RampSpeed(Scurve, rho, x), RampSpeed(Scurve, rho, x + g), RampSpeed(Scurve, rho, x + 2.0 * g));
    PieceTurn(rho, v, w, ta, t, h, x, g);
    TurnWithin(w - v, Abs(w - v), turn, rho, j, ta, x, g, t, h);
    BackPart(x, g, ta, t, h);
    TurnWithin(w - v, Abs(w - v), turn, rho, j, ta, 1.0 - x - 2.0 * g, g, ta - t - 2.0 * h, h);
  }

  lemma BackPart(x: real, g: real, ta: real, t: real, h: real)
    requires x * ta == t && g * ta == h
    ensures (1.0 - x - 2.0 * g) * ta == ta - t - 2.0 * h
  {
  }

  lemma NoTurn(prof: Profile, rho: real, v: real, ta: real, t: real, h: real, j: real)
    requires h >= 0.0 && j >= 0.0
    ensures forall t1, t2, t3 ::
      Turn(PieceSpeed(prof, rho, v, v, ta, t1), PieceSpeed(prof, rho, v, v, ta, t2), PieceSpeed(prof, rho, v, v, ta, t3)) == 0.0
    ensures Over(j, TurnSq(t, h)) >= 0.0
  {
    hide RampSpeed, RampPart, TurnSq;
    TurnSqRange(t, h);
    MulSign(j, TurnSq(t, h));
  }

  lemma PartAt(ta: real, t: real, h: real, x: real, g: real)
    requires ta > 0.0 && h >= 0.0 && x * ta == t && g * ta == h
    ensures RampPart(ta, t) == x && RampPart(ta, t + h) == x + g && RampPart(ta, t + 2.0 * h) == x + 2.0 * g && g >= 0.0
  {
    DivIs(t, ta, x);
    assert (x + g) * ta == t + h && (x + 2.0 * g) * ta == t + 2.0 * h;
    DivIs(t + h, ta, x + g);
    DivIs(t + 2.0 * h, ta, x + 2.0 * g);
    if g < 0.0 { MulPos(-g, ta); }
  }

  lemma PieceTurn(rho: real, v: real, w: real, ta: real, t: real, h: real, x: real, g: real)
    requires RampPart(ta, t) == x && RampPart(ta, t + h) == x + g && RampPart(ta, t + 2.0 * h) == x + 2.0 * g
    ensures Turn(PieceSpeed(Scurve, rho, v, w, ta, t), PieceSpeed(Scurve, rho, v, w, ta, t + h),
                 PieceSpeed(Scurve, rho, v, w, ta, t + 2.0 * h)) ==
      Over(w - v, Turn(RampSpeed(Scurve, rho, x), RampSpeed(Scurve, rho, x + g), RampSpeed(Scurve, rho, x + 2.0 * g)))
  {
    hide RampSpeed, RampPart;
    BlendTurn(v, w, RampSpeed(Scurve, rho, x), RampSpeed(Scurve, rho, x + g), RampSpeed(Scurve, rho, x + 2.0 * g));
    hide Blend, Turn;
  }

  lemma BlendTurn(v: real, w: real, a: real, b: real, c: real)
    ensures Turn(Blend(v, w, a), Blend(v, w, b), Blend(v, w, c)) == (w - v) * Turn(a, b, c)
  {
  }

  /** From the unit ramp to one of this time and jerk. */
  lemma TurnWithin(c: real, dv: real, turn: real, rho: real, j: real, ta: real, x: real, g: real, t: real, h: real)
    requires dv == Abs(c) && JerkShare(rho) && j > 0.0 && JerkGain(j, ta, rho) == 2.0 * dv
    requires ta > 0.0 && x * ta == t && g * ta == h && Abs(Over(turn, Twice(rho))) <= TurnSq(x, g)
    ensures 2.0 * Abs(Over(c, turn)) <= Over(j, TurnSq(t, h))
  {
    hide TurnSq, Twice;
    TwicePositive(rho);
    TurnSqScaled(x, g, ta, t, h);
    TimesAbs(turn, Twice(rho));
    TimesAbs(c, turn);
    GainTimes(j, ta * ta, Twice(rho), dv, Abs(turn), TurnSq(x, g)) by { MulSquare(ta); }
  }

  lemma GainTimes(j: real, tt: real, k: real, dv: real, turn: real, b: real)
    requires j > 0.0 && tt >= 0.0 && j * tt * k == 2.0 * dv && turn * k <= b
    ensures 2.0 * (dv * turn) <= j * (b * tt)
  {
    var jt := j * tt;
    MulSign(j, tt);
    assert 2.0 * (dv * turn) == jt * (turn * k);
    MulMono(turn * k, b, jt);
  }

  lemma TurnSqScaled(x: real, g: real, ta: real, t: real, h: real)
    requires ta > 0.0 && x * ta == t && g * ta == h
    ensures TurnSq(t, h) == TurnSq(x, g) * (ta * ta)
  {
    hide PosSq;
    PosSqScaled(x, ta, t);
    PosSqScaled(x + g, ta, t + h);
    PosSqScaled(x + 2.0 * g, ta, t + 2.0 * h);
    TurnTimes(PosSq(x), PosSq(x + g), PosSq(x + 2.0 * g), ta * ta, PosSq(t), PosSq(t + h), PosSq(t + 2.0 * h));
  }

  lemma PosSqScaled(u: real, ta: real, t: real)
    requires ta > 0.0 && u * ta == t
    ensures PosSq(u) * (ta * ta) == PosSq(t)
  {
    if u > 0.0 {
      MulPos(u, ta);
      assert (u * u) * (ta * ta) == (u * ta) * (u * ta);
    } else {
      MulSign(-u, ta);
      assert -u * ta == -t;
    }
  }

  lemma TimesAbs(x: real, y: real)
    ensures Abs(x * y) == Abs(x) * Abs(y)
  {
    if x >= 0.0 && y >= 0.0 { MulSign(x, y); }
    else if x >= 0.0 { MulSign(x, -y); assert x * -y == -(x * y); }
    else if y >= 0.0 { MulSign(-x, y); assert -x * y == -(x * y); }
    else { MulSign(-x, -y); assert -x * -y == x * y; }
  }

  /** A ramp before its time and after it. */
  lemma PieceOutside(prof: Profile, rho: real, v: real, w: real, ta: real, t: real)
    requires ta > 0.0 || (ta == 0.0 && v == w)
    ensures (t <= 0.0 ==> PieceSpeed(prof, rho, v, w, ta, t) == v) && (t >= ta ==> PieceSpeed(prof, rho, v, w, ta, t) == w)
  {
    hide QuintSpeed, SumSq;
    BlendEnds(v, w);
    hide Blend;
    if ta > 0.0 {
      var x := t / ta;
      DivTimes(t, ta);
      if t <= 0.0 && x > 0.0 { MulPos(x, ta); }
      if t >= ta { RampDone(t, ta, x); }
    }
  }

  lemma RampDone(t: real, ta: real, x: real)
    requires 0.0 < ta <= t && x * ta == t
    ensures x >= 1.0
  {
    if x < 1.0 { MulPos(1.0 - x, ta); }
  }

  /** Each ramp stands still while the other moves. */
  lemma SpeedIsBoth(m: Motion, t: real)
    requires Gentle(m)
    ensures SpeedAt(m, t) == FirstSpeed(m, t) + LastPiece(m, t) - m.vc
  {
    hide PieceSpeed, Peak;
    PieceOutside(m.q.prof, m.rho0, m.q.vIn, m.vc, m.ta0, t);
    PieceOutside(m.q.prof, m.rho1, m.vc, m.q.vOut, m.ta1, t - (m.ta0 + m.tc));
  }

  function LastPiece(m: Motion, t: real): real { PieceSpeed(m.q.prof, m.rho1, m.vc, m.q.vOut, m.ta1, t - (m.ta0 + m.tc)) }

  /** What every planned S-curve segment asks of the craft, at any time and across its joints: the change of speed over a
      time h and that over the next differ by at most j h h. */
  lemma PlanKeepsJerk(sqrt: real -> real, q: Request, vc: real, t: real, h: real)
    requires IsSqrt(sqrt) && Planned(sqrt, q, vc) && vc > 0.0 && q.prof.Scurve? && h >= 0.0
    ensures var m := MotionAt(sqrt, q, vc); Abs(Turn(SpeedAt(m, t), SpeedAt(m, t + h), SpeedAt(m, t + 2.0 * h))) <= q.j * (h * h)
  {
    hide SpeedAt, Turn, TurnSq, Over, Gentle, RampTime, PieceSpeed, RampDist, Sq;
    var m := MotionAt(sqrt, q, vc);
    PlannedGentle(sqrt, q, vc);
    SpeedIsBoth(m, t);
    SpeedIsBoth(m, t + h);
    SpeedIsBoth(m, t + 2.0 * h);
    var joint := m.ta0 + m.tc;
    GentleTimes(m);
    RampTurns(sqrt, q, q.vIn, vc, t, h);
    RampTurns(sqrt, q, vc, q.vOut, t - joint, h);
    assert t + h - joint == t - joint + h && t + 2.0 * h - joint == t - joint + 2.0 * h;
    TurnSqRises(m.ta0 - t - 2.0 * h, joint - t - 2.0 * h, h);
    TurnSqMirror(t - joint, h);
    assert -(t - joint) - 2.0 * h == joint - t - 2.0 * h;
    JerkShared(q.j, TurnSq(m.ta0 - t - 2.0 * h, h), TurnSq(joint - t - 2.0 * h, h), TurnSq(t - joint, h), Sq(h));
    SqIs(h);
    TurnSum(FirstSpeed(m, t), FirstSpeed(m, t + h), FirstSpeed(m, t + 2.0 * h),
            LastPiece(m, t), LastPiece(m, t + h), LastPiece(m, t + 2.0 * h), vc);
  }

  lemma GentleTimes(m: Motion)
    requires Gentle(m)
    ensures m.q.vIn <= m.vc && m.q.vOut <= m.vc && m.tc >= 0.0
  {
  }

  lemma JerkShared(j: real, a: real, b: real, c: real, hh: real)
    requires j > 0.0 && a <= b && b + c == 2.0 * hh
    ensures Over(j, a) + Over(j, c) <= 2.0 * Over(j, hh) && Over(j, hh) == j * hh
  {
    MulMono(a, b, j);
  }

  lemma TurnSum(a1: real, a2: real, a3: real, b1: real, b2: real, b3: real, c: real)
    ensures Turn(a1 + b1 - c, a2 + b2 - c, a3 + b3 - c) == Turn(a1, a2, a3) + Turn(b1, b2, b3)
  {
  }
}
