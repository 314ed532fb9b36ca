/**
 API/wfb_prog.c's unit speed ramps: their integral F, and the shape every profile shares.
 */
module WfbRamp {
  import opened Reals

  datatype Profile = Trap | Scurve | Quintic

  /** wfb_prog_ramp_F: distance covered by a ramp from speed 0 to 1 over unit time. */
  function RampF(prof: Profile, rho: real, tau: real): real
    decreases if prof.Scurve? && 0.0 < rho <= 0.5 && 1.0 - rho < tau < 1.0 then 1 else 0
  {
    if !(tau > 0.0) then 0.0
    else if tau >= 1.0 then 0.5
    else
      match prof
      case Quintic => Quint(tau)
      case Scurve =>
        if rho > 0.0 && rho <= 0.5 then
          if tau > 1.0 - rho then tau - 0.5 + RampF(prof, rho, 1.0 - tau)
          else if tau <= rho then Cubic(rho, tau)
          else Middle(rho, tau)
        else 0.5 * tau * tau
      case Trap => 0.5 * tau * tau
  }

  function Quint(tau: real): real {
    var q := tau * tau;
    q * q * (2.5 - 3.0 * tau + q)
  }

  function Cube(t: real): real { t * t * t }

  /** Six over the S-curve's cubic coefficient. */
  function Sixth(rho: real): real { 6.0 * rho * (1.0 - rho) }

  function Cubic(rho: real, tau: real): real
    requires 0.0 < rho <= 0.5
  {
    CubicDenominator(rho);
    Cube(tau) / Sixth(rho)
  }

  function Middle(rho: real, tau: real): real
    requires 0.0 < rho <= 0.5
  {
    var c := tau - 0.5 * rho;
    rho * rho / (6.0 * (1.0 - rho)) + (c * c - 0.25 * rho * rho) / (2.0 * (1.0 - rho))
  }

  /** F rises from x to y, and never faster than time passes. */
  ghost predicate Rises(fx: real, fy: real, d: real) { 0.0 <= fy - fx <= d }

  lemma TrapRises(x: real, y: real)
    requires 0.0 <= x <= y <= 1.0
    ensures Rises(0.5 * x * x, 0.5 * y * y, y - x)
  {
    var k, d := (x + y) * 0.5, y - x;
    assert 0.5 * y * y - 0.5 * x * x == k * d;
    assert (1.0 - k) * d == d - k * d;
    MulSign(1.0 - k, d);
    MulSign(k, d);
  }

  // ---------- QUINTIC ----------

  function QuintSlope(x: real, y: real): real { 2.5 - 3.0 * (x + y) + (x * x + x * y + y * y) }

  lemma QuintSlopeRange(x: real, y: real)
    requires 0.0 <= x && 0.0 <= y && x + y <= 1.0
    ensures 0.0 <= QuintSlope(x, y) <= 2.5
  {
    var s := x + y;
    var k, ss := x * x + x * y + y * y, s * s;
    assert k == 0.75 * ss + 0.25 * ((x - y) * (x - y)) && (x - y) * (x - y) >= 0.0;
    assert 2.5 - 3.0 * s + 0.75 * ss == 0.25 + (1.0 - s) * (2.25 - 0.75 * s);
    MulSign(1.0 - s, 2.25 - 0.75 * s);
    assert k == ss - x * y;
    MulSign(x, y);
    MulSign(s, 1.0 - s);
    assert s * (1.0 - s) == s - ss;
    assert QuintSlope(x, y) == 2.5 - 3.0 * s + k;
  }

  function QuintG(t: real): real { 2.5 * t - 3.0 * t * t + t * t * t }

  lemma QuintGRises(x: real, y: real)
    requires 0.0 <= x <= y <= 0.5
    ensures 0.0 <= QuintG(y) - QuintG(x) <= 2.5 * (y - x) && 0.0 <= QuintG(x) <= 1.25
  {
    QuintSlopeRange(x, y);
    QuintSlopeRange(0.0, x);
    var d, k := y - x, QuintSlope(x, y);
    assert QuintG(y) - QuintG(x) == d * k;
    MulSign(d, k);
    MulMono(k, 2.5, d);
    assert QuintG(x) == x * QuintSlope(0.0, x);
    MulSign(x, QuintSlope(0.0, x));
    MulMono(QuintSlope(0.0, x), 2.5, x);
  }

  lemma CubeRises(x: real, y: real, m: real)
    requires 0.0 <= x <= y <= m
    ensures 0.0 <= Cube(x) <= Cube(y) <= Cube(m)
    ensures Cube(y) - Cube(x) <= ThreeSquares(m) * (y - x) && ThreeSquares(m) >= 0.0
  {
    CubeStep(x, y, m);
    CubeStep(y, m, m);
  }

  function ThreeSquares(m: real): real { 3.0 * m * m }

  lemma CubeStep(x: real, y: real, m: real)
    requires 0.0 <= x <= y <= m
    ensures 0.0 <= Cube(x) <= Cube(y) && Cube(y) - Cube(x) <= ThreeSquares(m) * (y - x) && ThreeSquares(m) >= 0.0
  {
    var d, k, mm := y - x, x * x + x * y + y * y, m * m;
    assert y * y * y - x * x * x == d * k;
    MulBound(x, x, m);
    MulBound(x, y, m);
    MulBound(y, y, m);
    MulSign(x * x, x);
    MulSign(d, k);
    MulMono(k, 3.0 * mm, d);
    assert 3.0 * m * m == 3.0 * mm;
  }

  /** On the first half, F is the rising t^3 times the rising G. */
  lemma QuintHalf(x: real, y: real)
    requires 0.0 <= x <= y <= 0.5
    ensures Rises(Quint(x), Quint(y), y - x)
  {
    hide Quint, QuintG, Cube, ThreeSquares;
    QuintGRises(x, y);
    CubeRises(x, y, 0.5);
    assert ThreeSquares(0.5) == 0.75 && Cube(0.5) == 0.125 by { CubeHalf(); }
    QuintGTop(x);
    QuintFactor(x);
    QuintFactor(y);
    ProductRises(Cube(x), Cube(y), QuintG(x), QuintG(y), y - x);
  }

  lemma CubeHalf()
    ensures ThreeSquares(0.5) == 0.75 && Cube(0.5) == 0.125
  {
  }

  lemma ProductRises(cx: real, cy: real, gx: real, gy: real, d: real)
    requires 0.0 <= cx <= cy <= 0.125 && cy - cx <= 0.75 * d && 0.0 <= gx <= 0.625 && 0.0 <= gy - gx <= 2.5 * d
    ensures Rises(cx * gx, cy * gy, d)
  {
    var a, b := gy - gx, cy - cx;
    var p, q := cy * a, b * gx;
    assert cy * gy - cx * gx == p + q;
    MulSign(cy, a);
    MulSign(b, gx);
    MulSign(0.125 - cy, a);
    MulSign(0.625 - gx, b);
    assert (0.125 - cy) * a == 0.125 * a - p;
    assert (0.625 - gx) * b == 0.625 * b - q;
  }

  lemma QuintGTop(x: real)
    requires 0.0 <= x <= 0.5
    ensures QuintG(x) <= 0.625
  {
    QuintGRises(x, 0.5);
    assert QuintG(0.5) == 0.625;
  }

  lemma QuintFactor(t: real)
    ensures Quint(t) == Cube(t) * QuintG(t)
  {
    var q := t * t;
    var k := 2.5 - 3.0 * t + q;
    assert QuintG(t) == t * k;
    assert t * t * t * (t * k) == q * q * k;
  }

  lemma QuintMirror(t: real)
    ensures Quint(t) == t - 0.5 + Quint(1.0 - t)
  {
    var u, t2, t3 := 1.0 - t, t * t, t * t * t;
    var t4 := t2 * t2;
    assert u * u == 1.0 - 2.0 * t + t2;
    assert (u * u) * (u * u) == 1.0 - 4.0 * t + 6.0 * t2 - 4.0 * t3 + t4;
    assert 2.5 - 3.0 * u + u * u == 0.5 + t + t2;
    assert Quint(u) == (1.0 - 4.0 * t + 6.0 * t2 - 4.0 * t3 + t4) * (0.5 + t + t2);
    assert Quint(t) == t4 * (2.5 - 3.0 * t + t2);
  }

  lemma QuintRises(x: real, y: real)
    requires 0.0 <= x <= y <= 1.0
    ensures Rises(Quint(x), Quint(y), y - x)
  {
    QuintMirror(x);
    QuintMirror(y);
    if y <= 0.5 { QuintHalf(x, y); }
    else if x >= 0.5 { QuintHalf(1.0 - y, 1.0 - x); }
    else {
      QuintHalf(x, 0.5);
      QuintHalf(1.0 - y, 0.5);
    }
  }

  // ---------- SCURVE ----------

  lemma CubicDenominator(rho: real)
    requires 0.0 < rho <= 0.5
    ensures Sixth(rho) >= ThreeSquares(rho) && Sixth(rho) > 0.0
  {
    var rr := rho * rho;
    MulSign(rho, 0.5 - rho);
    assert rho * (0.5 - rho) == 0.5 * rho - rr;
    MulPos(rho, rho);
    assert Sixth(rho) == 6.0 * rho - 6.0 * rr && ThreeSquares(rho) == 3.0 * rr;
  }

  lemma CubicRises(rho: real, x: real, y: real)
    requires 0.0 < rho <= 0.5 && 0.0 <= x <= y <= rho
    ensures Rises(Cubic(rho, x), Cubic(rho, y), y - x)
  {
    hide Cube, ThreeSquares, Sixth;
    CubicDenominator(rho);
    CubeRises(x, y, rho);
    CubicScaled(Cube(x), Cube(y), ThreeSquares(rho), Sixth(rho), y - x);
  }

  lemma CubicScaled(x3: real, y3: real, low: real, den: real, d: real)
    requires 0.0 <= low <= den && den > 0.0 && d >= 0.0 && 0.0 <= y3 - x3 <= low * d
    ensures Rises(x3 / den, y3 / den, d)
  {
    MulMono(low, den, d);
    QuotientRange(y3 - x3, d, den);
    DivDifference(y3, x3, den);
  }

  lemma MiddleRises(rho: real, x: real, y: real)
    requires 0.0 < rho <= 0.5 && rho <= x <= y <= 1.0 - rho
    ensures Rises(Middle(rho, x), Middle(rho, y), y - x)
  {
    var cx, cy, r := x - 0.5 * rho, y - 0.5 * rho, 0.25 * rho * rho;
    MiddleScaled(cx, cy, r, 2.0 * (1.0 - rho));
  }

  lemma MiddleScaled(cx: real, cy: real, r: real, den: real)
    requires 0.0 <= cx <= cy && cx + cy <= den && den > 0.0
    ensures Rises((cx * cx - r) / den, (cy * cy - r) / den, cy - cx)
  {
    var d, k := cy - cx, cx + cy;
    assert cy * cy - cx * cx == d * k;
    MulSign(d, k);
    MulMono(k, den, d);
    QuotientRange(d * k, d, den);
    DivDifference(cy * cy - r, cx * cx - r, den);
  }

  /** The three S-curve pieces meet. */
  lemma ScurveJoints(rho: real)
    requires 0.0 < rho <= 0.5
    ensures Cubic(rho, rho) == Middle(rho, rho)
    ensures Middle(rho, 1.0 - rho) == 0.5 - rho + Cubic(rho, rho)
  {
    var o := 1.0 - rho;
    assert Cube(rho) / Sixth(rho) == rho * rho / (6.0 * o) by { Cancel(rho, rho * rho, 6.0 * o); }
    var c := o - 0.5 * rho;
    assert c * c - 0.25 * rho * rho == (1.0 - 2.0 * rho) * o;
    assert ((1.0 - 2.0 * rho) * o) / (2.0 * o) == (1.0 - 2.0 * rho) / 2.0 by { Cancel(o, 1.0 - 2.0 * rho, 2.0); }
  }

  function ScurveF(rho: real, t: real): real
    requires 0.0 < rho <= 0.5
  {
    if t > 1.0 - rho then t - 0.5 + Cubic(rho, 1.0 - t) else if t <= rho then Cubic(rho, t) else Middle(rho, t)
  }

  lemma ScurveEnds(rho: real)
    requires 0.0 < rho <= 0.5
    ensures ScurveF(rho, 0.0) == 0.0 && ScurveF(rho, 1.0) == 0.5
  {
    CubicDenominator(rho);
  }

  lemma ScurveRises(rho: real, x: real, y: real)
    requires 0.0 < rho <= 0.5 && 0.0 <= x <= y <= 1.0
    ensures Rises(ScurveF(rho, x), ScurveF(rho, y), y - x)
  {
    ScurveJoints(rho);
    var k := 1.0 - rho;
    if x <= rho { CubicRises(rho, x, if y <= rho then y else rho); }
    if y > rho && x <= k {
      MiddleRises(rho, if x <= rho then rho else x, if y <= k then y else k);
    }
    if y > k { CubicRises(rho, 1.0 - y, if x >= k then 1.0 - x else rho); }
  }

  // ---------- all profiles ----------

  /** Between 0 and 1 every profile is its polynomial, ends included. */
  lemma RampIs(prof: Profile, rho: real, t: real)
    requires 0.0 <= t <= 1.0
    ensures RampF(prof, rho, t) ==
      match prof
      case Quintic => Quint(t)
      case Scurve => if 0.0 < rho <= 0.5 then ScurveF(rho, t) else 0.5 * t * t
      case Trap => 0.5 * t * t
  {
    hide Quint, Cubic, Middle;
    QuintEnds();
    if 0.0 < rho <= 0.5 { ScurveEnds(rho); }
  }

  lemma QuintEnds()
    ensures Quint(0.0) == 0.0 && Quint(1.0) == 0.5
  {
  }

  /** Every ramp starts at 0, ends at one half, never falls and never outruns time. */
  lemma RampRises(prof: Profile, rho: real, x: real, y: real)
    requires 0.0 <= x <= y <= 1.0
    ensures RampF(prof, rho, 0.0) == 0.0 && RampF(prof, rho, 1.0) == 0.5
    ensures Rises(RampF(prof, rho, x), RampF(prof, rho, y), y - x)
  {
    hide Quint, Cubic, Middle, ScurveF;
    RampIs(prof, rho, x);
    RampIs(prof, rho, y);
    match prof
    case Trap => TrapRises(x, y);
    case Quintic => QuintRises(x, y);
    case Scurve => if 0.0 < rho <= 0.5 { ScurveRises(rho, x, y); } else { TrapRises(x, y); }
  }
}
