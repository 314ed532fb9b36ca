/**
 API/wfb_traj.c: a trajectory uploaded float by float, checked once at commit and then interpolated every tick.
 sqrtf and the byte image of the points are parameters.
 */
module WfbTraj {
  import opened Reals
  import opened WfbTypes
  import Crc32

  const MAX_POINTS: int := 600

  datatype Point = Point(x: real, y: real, z: real, yaw: real, t: real)

  const BLANK := Point(0.0, 0.0, 0.0, 0.0, 0.0)

  datatype Limits = Limits(xAbs: real, yAbs: real, zMin: real, zMax: real, vMax: real, tol: real)

  /** The default table. */
  const LIMITS := Limits(1.3, 1.7, 0.3, 1.4, 1.0, 0.1)

  // ---------- geometry ----------

  function Square3(dx: real, dy: real, dz: real): real { dx * dx + dy * dy + dz * dz }

  function DistSquare(p: Point, q: Point): real { Square3(q.x - p.x, q.y - p.y, q.z - p.z) }

  /** p and q are at most d apart. */
  ghost predicate Near(p: Point, q: Point, d: real) { d >= 0.0 && DistSquare(p, q) <= d * d }

  function Inner3(a: real, b: real, c: real, u: real, v: real, w: real): real { a * u + b * v + c * w }

  /** Lagrange's identity: the product of the lengths is at least the inner product. */
  lemma InnerBound(a: real, b: real, c: real, u: real, v: real, w: real, d: real, e: real)
    requires d >= 0.0 && e >= 0.0 && Square3(a, b, c) <= d * d && Square3(u, v, w) <= e * e
    ensures Inner3(a, b, c, u, v, w) <= d * e
  {
    hide Square3, Inner3;
    var inner := Inner3(a, b, c, u, v, w);
    Lagrange(a, b, c, u, v, w);
    SquareSign(b * w - c * v, c * u - a * w, a * v - b * u);
    SquareSign(a, b, c);
    SquareSign(u, v, w);
    ProductBound(Square3(a, b, c), d * d, Square3(u, v, w), e * e);
    Regroup(d, e);
    MulSign(d, e);
    assert inner * inner <= (d * e) * (d * e);
    if inner > 0.0 { SquareOrder(inner, d * e); }
  }

  lemma Regroup(d: real, e: real)
    ensures (d * d) * (e * e) == (d * e) * (d * e)
  {
  }

  lemma SquareSign(a: real, b: real, c: real)
    ensures Square3(a, b, c) >= 0.0
  {
    assert a * a >= 0.0 && b * b >= 0.0 && c * c >= 0.0;
  }

  lemma Lagrange(a: real, b: real, c: real, u: real, v: real, w: real)
    ensures Square3(a, b, c) * Square3(u, v, w) ==
      Inner3(a, b, c, u, v, w) * Inner3(a, b, c, u, v, w) + Square3(b * w - c * v, c * u - a * w, a * v - b * u)
  {
  }

  lemma ProductBound(a: real, b: real, c: real, d: real)
    requires 0.0 <= a <= b && 0.0 <= c <= d
    ensures a * c <= b * d
  {
    MulMono(a, b, c);
    MulMono(c, d, b);
  }

  lemma SumSquare(a: real, b: real, c: real, u: real, v: real, w: real, d: real, e: real)
    requires Square3(a, b, c) <= d * d && Square3(u, v, w) <= e * e && Inner3(a, b, c, u, v, w) <= d * e
    ensures Square3(a + u, b + v, c + w) <= (d + e) * (d + e)
  {
    assert Square3(a + u, b + v, c + w) == Square3(a, b, c) + Square3(u, v, w) + 2.0 * Inner3(a, b, c, u, v, w);
    assert (d + e) * (d + e) == d * d + e * e + 2.0 * (d * e);
  }

  lemma Triangle(p: Point, q: Point, r: Point, d: real, e: real)
    requires Near(p, q, d) && Near(q, r, e)
    ensures Near(p, r, d + e)
  {
    hide Square3, Inner3;
    var a, b, c, u, v, w := q.x - p.x, q.y - p.y, q.z - p.z, r.x - q.x, r.y - q.y, r.z - q.z;
    InnerBound(a, b, c, u, v, w, d, e);
    SumSquare(a, b, c, u, v, w, d, e);
    assert r.x - p.x == a + u && r.y - p.y == b + v && r.z - p.z == c + w;
  }

  // ---------- a committed trajectory ----------

  predicate InBox(l: Limits, p: Point) {
    Abs(p.x) <= l.xAbs && Abs(p.y) <= l.yAbs && l.zMin <= p.z <= l.zMax && Abs(p.yaw) <= 180.0
  }

  ghost predicate Timed(pts: seq<Point>) {
    |pts| >= 2 && pts[0].t == 0.0 && forall i, j :: 0 <= i < j < |pts| ==> pts[i].t < pts[j].t
  }

  ghost predicate Boxed(l: Limits, pts: seq<Point>) { forall i :: 0 <= i < |pts| ==> InBox(l, pts[i]) }

  function Distance(sqrt: real -> real, p: Point, q: Point): real { sqrt(DistSquare(p, q)) }

  predicate AtHover(sqrt: real -> real, l: Limits, hover: real, p: Point) {
    Distance(sqrt, Point(0.0, 0.0, hover, 0.0, 0.0), p) <= l.tol
  }

  predicate SlowEnough(sqrt: real -> real, l: Limits, p: Point, q: Point) {
    q.t != p.t && Distance(sqrt, p, q) / (q.t - p.t) <= l.vMax
  }

  predicate SlowAt(sqrt: real -> real, l: Limits, pts: seq<Point>, i: nat)
    requires i + 1 < |pts|
  {
    SlowEnough(sqrt, l, pts[i], pts[i + 1])
  }

  ghost predicate Paced(sqrt: real -> real, l: Limits, pts: seq<Point>) {
    forall i {:trigger SlowAt(sqrt, l, pts, i)} :: 0 <= i < |pts| - 1 ==> SlowAt(sqrt, l, pts, i)
  }

  /** Everything commit checks, in the order in which the first failure is reported. */
  ghost function Verdict(sqrt: real -> real, l: Limits, hover: real, pts: seq<Point>): Err {
    if !Timed(pts) then Time
    else if !Boxed(l, pts) then Bounds
    else if !AtHover(sqrt, l, hover, pts[0]) || !AtHover(sqrt, l, hover, pts[|pts| - 1]) then Endpoint
    else if !Paced(sqrt, l, pts) then Speed
    else None
  }

  ghost predicate Flyable(sqrt: real -> real, l: Limits, pts: seq<Point>) {
    IsSqrt(sqrt) && Timed(pts) && Boxed(l, pts) && Paced(sqrt, l, pts)
  }

  // ---------- interpolation ----------

  function Wrap180(a: real): real { if a > 180.0 then a - 360.0 else if a < -180.0 then a + 360.0 else a }

  function Between(p: Point, q: Point, frac: real, t: real): Point {
    Point(Mix(p.x, q.x, frac), Mix(p.y, q.y, frac), Mix(p.z, q.z, frac),
          YawMix(p.yaw, q.yaw, frac), t)
  }

  /** The shorter way round. */
  function YawMix(a: real, b: real, f: real): real { Wrap180(a + f * Wrap180(b - a)) }

  function Mix(a: real, b: real, f: real): real { a + f * (b - a) }

  /** Segment k holds time t. */
  predicate Holds(pts: seq<Point>, k: nat, t: real) { k + 1 < |pts| && pts[k].t <= t < pts[k + 1].t }

  function Frac(p: Point, q: Point, t: real): real { if q.t - p.t <= 0.0 then 0.0 else (t - p.t) / (q.t - p.t) }

  lemma HoldsUnique(pts: seq<Point>, j: nat, k: nat, t: real)
    requires Timed(pts) && Holds(pts, j, t) && Holds(pts, k, t)
    ensures j == k
  {
  }

  /** The last of the first n points at or before t. */
  function SegmentAt(pts: seq<Point>, t: real, n: nat): (k: nat)
    requires 0 < n < |pts| && pts[0].t <= t
    ensures k < n && pts[k].t <= t
    ensures k + 1 < n ==> t < pts[k + 1].t
  {
    if n == 1 || pts[n - 1].t <= t then n - 1 else SegmentAt(pts, t, n - 1)
  }

  /** The point flown at time t; it depends on nothing else. The object's cursor only remembers where the last search
      ended. */
  function Path(pts: seq<Point>, t: real): Point
    requires |pts| >= 2
  {
    if t >= pts[|pts| - 1].t then pts[|pts| - 1]
    else if t <= pts[0].t then pts[0]
    else
      var k := SegmentAt(pts, t, |pts| - 1);
      Between(pts[k], pts[k + 1], Frac(pts[k], pts[k + 1], t), t)
  }

  /** Strictly inside the flight, the segment holding t decides. */
  lemma PathOn(pts: seq<Point>, k: nat, t: real)
    requires Timed(pts) && Holds(pts, k, t) && t > 0.0
    ensures t < pts[|pts| - 1].t && Path(pts, t) == Between(pts[k], pts[k + 1], Frac(pts[k], pts[k + 1], t), t)
  {
    HoldsUnique(pts, k, SegmentAt(pts, t, |pts| - 1), t);
  }

  lemma FracRange(p: Point, q: Point, t: real)
    requires p.t <= t < q.t
    ensures 0.0 <= Frac(p, q, t) < 1.0 && Frac(p, q, t) * (q.t - p.t) == t - p.t
  {
    var d, f := q.t - p.t, Frac(p, q, t);
    assert f * d == t - p.t;
    assert (f - 1.0) * d == t - q.t;
    if f < 0.0 { MulPos(-f, d); }
    if f >= 1.0 { MulSign(f - 1.0, d); }
  }

  lemma MixRange(a: real, b: real, f: real, low: real, high: real)
    requires low <= a <= high && low <= b <= high && 0.0 <= f <= 1.0
    ensures low <= Mix(a, b, f) <= high
  {
    assert a + f * (b - a) - low == (1.0 - f) * (a - low) + f * (b - low);
    assert high - (a + f * (b - a)) == (1.0 - f) * (high - a) + f * (high - b);
    MulSign(1.0 - f, a - low);
    MulSign(f, b - low);
    MulSign(1.0 - f, high - a);
    MulSign(f, high - b);
  }

  lemma YawRange(a: real, b: real, f: real)
    requires -180.0 <= a <= 180.0 && -180.0 <= b <= 180.0 && 0.0 <= f <= 1.0
    ensures -180.0 <= YawMix(a, b, f) <= 180.0
  {
    var d := Wrap180(b - a);
    ShareRange(d, f, 180.0);
    hide *;
    assert YawMix(a, b, f) == Wrap180(a + f * d);
    WrapRange(a + f * d);
  }

  lemma WrapRange(a: real)
    requires -360.0 <= a <= 360.0
    ensures -180.0 <= Wrap180(a) <= 180.0
  {
  }

  lemma ShareRange(d: real, f: real, m: real)
    requires -m <= d <= m && 0.0 <= f <= 1.0
    ensures -m <= f * d <= m
  {
    MulSign(f, d + m);
    MulSign(f, m - d);
    MulSign(1.0 - f, m);
    assert f * (d + m) == f * d + f * m;
    assert f * (m - d) == f * m - f * d;
    assert (1.0 - f) * m == m - f * m;
  }

  lemma BetweenInBox(l: Limits, p: Point, q: Point, f: real, t: real)
    requires InBox(l, p) && InBox(l, q) && 0.0 <= f <= 1.0
    ensures InBox(l, Between(p, q, f, t))
  {
    hide YawMix, Mix;
    MixRange(p.x, q.x, f, -l.xAbs, l.xAbs);
    MixRange(p.y, q.y, f, -l.yAbs, l.yAbs);
    MixRange(p.z, q.z, f, l.zMin, l.zMax);
    YawRange(p.yaw, q.yaw, f);
  }

  /** Every sample of a committed trajectory lies in the limit box, its yaw within +-180 degrees. */
  lemma PathInBox(sqrt: real -> real, l: Limits, pts: seq<Point>, t: real)
    requires Flyable(sqrt, l, pts)
    ensures InBox(l, Path(pts, t))
  {
    hide InBox;
    if pts[0].t < t < pts[|pts| - 1].t {
      var k := SegmentAt(pts, t, |pts| - 1);
      FracRange(pts[k], pts[k + 1], t);
      BetweenInBox(l, pts[k], pts[k + 1], Frac(pts[k], pts[k + 1], t), t);
    }
  }

  // ---------- what is flown ----------

  predicate SameAngle(a: real, b: real) { a == b || a == b + 360.0 || a == b - 360.0 }

  /** Of two headings, the turn from one to the other by at most half a circle. */
  lemma YawTurns(a: real, b: real) returns (d: real)
    requires Abs(a) <= 180.0 && Abs(b) <= 180.0
    ensures Abs(d) <= 180.0 && SameAngle(a + d, b)
    ensures forall f: real {:trigger YawMix(a, b, f)} :: 0.0 <= f <= 1.0 ==> SameAngle(YawMix(a, b, f), a + f * d) && Abs(YawMix(a, b, f)) <= 180.0
  {
    d := Wrap180(b - a);
    forall f: real | 0.0 <= f <= 1.0 ensures SameAngle(YawMix(a, b, f), a + f * d) && Abs(YawMix(a, b, f)) <= 180.0 {
      YawRange(a, b, f);
      YawShare(a, b, f, d);
    }
  }

  lemma YawShare(a: real, b: real, f: real, d: real)
    requires d == Wrap180(b - a)
    ensures SameAngle(YawMix(a, b, f), a + f * d)
  {
  }

  /** At its time the path is at the point, in place and heading. */
  lemma PathThrough(sqrt: real -> real, l: Limits, pts: seq<Point>, k: nat)
    requires Flyable(sqrt, l, pts) && k < |pts|
    ensures var r := Path(pts, pts[k].t); r.x == pts[k].x && r.y == pts[k].y && r.z == pts[k].z && r.yaw == pts[k].yaw
  {
    hide Paced;
    assert InBox(l, pts[k]);
    if 0 < k < |pts| - 1 {
      PathOn(pts, k, pts[k].t);
      FracIs(pts[k], pts[k + 1], 0.0, pts[k].t);
      NoShare(pts[k], pts[k + 1], pts[k].t);
    }
  }

  lemma NoShare(p: Point, q: Point, t: real)
    requires Abs(p.yaw) <= 180.0
    ensures var r := Between(p, q, 0.0, t); r.x == p.x && r.y == p.y && r.z == p.z && r.yaw == p.yaw
  {
  }

  lemma FracIs(p: Point, q: Point, w: real, t: real)
    requires p.t < q.t && t == p.t + w * (q.t - p.t)
    ensures Frac(p, q, t) == w
  {
    var d := q.t - p.t;
    assert Frac(p, q, t) * d == w * d;
    assert (Frac(p, q, t) - w) * d == 0.0;
  }

  /** A share w of the way from p to q, and of the turn d. */
  predicate Follows(p: Point, q: Point, r: Point, w: real, d: real) {
    r.x == p.x + w * (q.x - p.x) && r.y == p.y + w * (q.y - p.y) && r.z == p.z + w * (q.z - p.z) && SameAngle(r.yaw, p.yaw + w * d)
  }

  /** Between two points the path goes straight at constant speed, turning at a constant rate the short way round: a share
      w of the time is that share of the way and of the turn d. */
  lemma PathFollows(sqrt: real -> real, l: Limits, pts: seq<Point>, k: nat, t: real, w: real) returns (d: real)
    requires Flyable(sqrt, l, pts) && k + 1 < |pts| && 0.0 <= w <= 1.0 && t == pts[k].t + w * (pts[k + 1].t - pts[k].t)
    ensures Abs(d) <= 180.0 && SameAngle(pts[k].yaw + d, pts[k + 1].yaw) && Follows(pts[k], pts[k + 1], Path(pts, t), w, d)
  {
    hide YawMix, Paced, Path, Between, Follows, Timed, Boxed;
    PointsOk(sqrt, l, pts, k);
    TimesAtEnds(pts[k].t, pts[k + 1].t, w, t);
    d := YawTurns(pts[k].yaw, pts[k + 1].yaw);
    FollowsEnds(pts[k], pts[k + 1], Path(pts, t), d);
    if w == 0.0 { PathThrough(sqrt, l, pts, k); } else if w == 1.0 { PathThrough(sqrt, l, pts, k + 1); } else {
      PathInside(pts, k, t, w);
      BetweenFollows(pts[k], pts[k + 1], w, t, d);
    }
  }

  lemma TimesAtEnds(a: real, b: real, w: real, t: real)
    requires t == a + w * (b - a)
    ensures (w == 0.0 ==> t == a) && (w == 1.0 ==> t == b)
  {
  }

  lemma PointsOk(sqrt: real -> real, l: Limits, pts: seq<Point>, k: nat)
    requires Flyable(sqrt, l, pts) && k + 1 < |pts|
    ensures Abs(pts[k].yaw) <= 180.0 && Abs(pts[k + 1].yaw) <= 180.0
  {
    hide Timed, Paced;
    assert InBox(l, pts[k]) && InBox(l, pts[k + 1]);
  }

  lemma PathInside(pts: seq<Point>, k: nat, t: real, w: real)
    requires Timed(pts) && k + 1 < |pts| && 0.0 < w < 1.0 && t == pts[k].t + w * (pts[k + 1].t - pts[k].t)
    ensures Path(pts, t) == Between(pts[k], pts[k + 1], w, t)
  {
    hide Path, Between, Frac;
    WithinTimes(pts[k].t, pts[k + 1].t, w, t);
    PathOn(pts, k, t);
    FracIs(pts[k], pts[k + 1], w, t);
  }

  lemma FollowsEnds(p: Point, q: Point, r: Point, d: real)
    requires SameAngle(p.yaw + d, q.yaw)
    ensures r.x == p.x && r.y == p.y && r.z == p.z && r.yaw == p.yaw ==> Follows(p, q, r, 0.0, d)
    ensures r.x == q.x && r.y == q.y && r.z == q.z && r.yaw == q.yaw ==> Follows(p, q, r, 1.0, d)
  {
  }

  lemma BetweenFollows(p: Point, q: Point, w: real, t: real, d: real)
    requires SameAngle(YawMix(p.yaw, q.yaw, w), p.yaw + w * d)
    ensures Follows(p, q, Between(p, q, w, t), w, d)
  {
    hide YawMix;
  }

  lemma WithinTimes(a: real, b: real, w: real, t: real)
    requires a < b && 0.0 < w < 1.0 && t == a + w * (b - a)
    ensures a < t < b
  {
    ShareWithin(w, b - a, t - a);
  }

  lemma ShareWithin(w: real, d: real, part: real)
    requires 0.0 < w < 1.0 && d > 0.0 && part == w * d
    ensures 0.0 < part < d
  {
    ProductsOrdered(0.0, w, d, 0.0, part);
    ProductsOrdered(w, 1.0, d, part, d);
  }

  // ---------- speed ----------

  /** Between two fractions of a segment, the distance is that share of the segment. */
  lemma ShareOf(p: Point, q: Point, f: real, g: real, s: real, t: real)
    ensures DistSquare(Between(p, q, f, s), Between(p, q, g, t)) == (g - f) * (g - f) * DistSquare(p, q)
  {
    hide YawMix, Mix;
    Share1(p.x, q.x, f, g);
    Share1(p.y, q.y, f, g);
    Share1(p.z, q.z, f, g);
    ScaledSquare(g - f, q.x - p.x, q.y - p.y, q.z - p.z);
  }

  lemma ScaledSquare(h: real, a: real, b: real, c: real)
    ensures Square3(h * a, h * b, h * c) == h * h * Square3(a, b, c)
  {
    Squares(h, a);
    Squares(h, b);
    Squares(h, c);
    var k := h * h;
    assert k * (a * a) + k * (b * b) + k * (c * c) == k * (a * a + b * b + c * c);
  }

  lemma Share1(a: real, b: real, f: real, g: real)
    ensures Mix(a, b, g) - Mix(a, b, f) == (g - f) * (b - a)
  {
  }

  lemma Squares(g: real, d: real)
    ensures (g * d) * (g * d) == g * g * (d * d)
  {
  }

  lemma SegmentLength(sqrt: real -> real, l: Limits, p: Point, q: Point)
    requires IsSqrt(sqrt) && SlowEnough(sqrt, l, p, q) && p.t < q.t
    ensures l.vMax >= 0.0 && Near(p, q, l.vMax * (q.t - p.t))
  {
    var d, dt, v := Distance(sqrt, p, q), q.t - p.t, l.vMax;
    SquareSign(q.x - p.x, q.y - p.y, q.z - p.z);
    hide Square3;
    assert d >= 0.0 && d * d == DistSquare(p, q);
    var speed := d / dt;
    assert speed * dt == d;
    if speed < 0.0 { MulPos(-speed, dt); }
    MulMono(speed, v, dt);
    ProductBound(d, v * dt, d, v * dt);
  }

  lemma SameSegment(sqrt: real -> real, l: Limits, p: Point, q: Point, f: real, g: real, s: real, t: real)
    requires IsSqrt(sqrt) && SlowEnough(sqrt, l, p, q) && p.t < q.t && f <= g
    ensures l.vMax >= 0.0 && Near(Between(p, q, f, s), Between(p, q, g, t), l.vMax * ((g - f) * (q.t - p.t)))
  {
    SegmentLength(sqrt, l, p, q);
    ShareOf(p, q, f, g, s, t);
    hide DistSquare, Between;
    var h, d, v := g - f, q.t - p.t, l.vMax;
    MulSign(h, d);
    MulSign(v, h * d);
    Scale(h, DistSquare(p, q), v * d);
    assert h * (v * d) == v * (h * d);
  }

  lemma Scale(h: real, x: real, y: real)
    requires h >= 0.0 && x <= y * y
    ensures h * h * x <= (h * y) * (h * y)
  {
    MulSign(h, h);
    MulMono(x, y * y, h * h);
    Squares(h, y);
  }

  /** The end points of a segment are its own interpolants. */
  lemma BetweenEnds(p: Point, q: Point, s: real, r: Point)
    ensures DistSquare(r, Between(p, q, 1.0, s)) == DistSquare(r, q) && DistSquare(r, Between(p, q, 0.0, s)) == DistSquare(r, p)
    ensures DistSquare(Between(p, q, 1.0, s), r) == DistSquare(q, r) && DistSquare(Between(p, q, 0.0, s), r) == DistSquare(p, r)
  {
    hide YawMix, Square3;
  }

  /** How far v_max allows between two times. */
  function Reach(l: Limits, s: real, t: real): real { l.vMax * (t - s) }

  lemma ReachAdds(l: Limits, s: real, t: real, u: real)
    ensures Reach(l, s, t) + Reach(l, t, u) == Reach(l, s, u)
  {
    Splits(l.vMax, t - s, u - t);
  }

  /** Corner to corner, over any number of segments. */
  lemma {:induction false} Corners(sqrt: real -> real, l: Limits, pts: seq<Point>, j: nat, k: nat)
    requires Flyable(sqrt, l, pts) && j <= k < |pts|
    ensures Near(pts[j], pts[k], Reach(l, pts[j].t, pts[k].t)) && l.vMax >= 0.0
    decreases k
  {
    hide SlowEnough;
    if j == k {
      assert SlowAt(sqrt, l, pts, 0);
      SegmentLength(sqrt, l, pts[0], pts[1]);
    } else {
      Corners(sqrt, l, pts, j, k - 1);
      assert SlowAt(sqrt, l, pts, k - 1);
      SegmentLength(sqrt, l, pts[k - 1], pts[k]);
      Triangle(pts[j], pts[k - 1], pts[k], Reach(l, pts[j].t, pts[k - 1].t), Reach(l, pts[k - 1].t, pts[k].t));
      ReachAdds(l, pts[j].t, pts[k - 1].t, pts[k].t);
    }
  }

  lemma Splits(v: real, a: real, b: real)
    ensures v * (a + b) == v * a + v * b
  {
  }

  /** Where on the polyline time t is: a segment and a fraction of it. */
  datatype Place = Place(k: nat, f: real)

  function PlaceOf(pts: seq<Point>, t: real): (w: Place)
    requires |pts| >= 2
    ensures w.k + 1 < |pts|
  {
    if t >= pts[|pts| - 1].t then Place(|pts| - 2, 1.0)
    else if t <= pts[0].t then Place(0, 0.0)
    else
      var k := SegmentAt(pts, t, |pts| - 1);
      Place(k, Frac(pts[k], pts[k + 1], t))
  }

  function Spot(pts: seq<Point>, w: Place): Point
    requires w.k + 1 < |pts|
  {
    Between(pts[w.k], pts[w.k + 1], w.f, 0.0)
  }

  /** Time of a place on the polyline. */
  function TimeAt(pts: seq<Point>, w: Place): real
    requires w.k + 1 < |pts|
  {
    pts[w.k].t + w.f * (pts[w.k + 1].t - pts[w.k].t)
  }

  function Clamp(t: real, top: real): real { if t < 0.0 then 0.0 else if t > top then top else t }

  lemma PlaceIs(pts: seq<Point>, t: real)
    requires Timed(pts)
    ensures var w, p := PlaceOf(pts, t), Path(pts, t);
      0.0 <= w.f <= 1.0 && TimeAt(pts, w) == Clamp(t, pts[|pts| - 1].t) &&
      p.x == Spot(pts, w).x && p.y == Spot(pts, w).y && p.z == Spot(pts, w).z
  {
    hide YawMix;
    if pts[0].t < t < pts[|pts| - 1].t {
      var k := SegmentAt(pts, t, |pts| - 1);
      FracRange(pts[k], pts[k + 1], t);
    }
  }

  lemma PlacesInOrder(pts: seq<Point>, t1: real, t2: real)
    requires Timed(pts) && t1 <= t2
    ensures PlaceOf(pts, t1).k <= PlaceOf(pts, t2).k
  {
    if pts[0].t < t1 && t2 < pts[|pts| - 1].t {
      var k1, k2 := SegmentAt(pts, t1, |pts| - 1), SegmentAt(pts, t2, |pts| - 1);
      assert k2 + 1 < |pts| - 1 ==> t2 < pts[k2 + 1].t;
    }
  }

  lemma NearLonger(p: Point, q: Point, d: real, e: real)
    requires Near(p, q, d) && d <= e
    ensures Near(p, q, e)
  {
    ProductBound(d, e, d, e);
  }

  /** Two places on the polyline, the first no later. */
  lemma PlacesNear(sqrt: real -> real, l: Limits, pts: seq<Point>, a: Place, b: Place)
    requires Flyable(sqrt, l, pts) && a.k <= b.k && b.k + 1 < |pts| && (a.k == b.k ==> a.f <= b.f)
    requires 0.0 <= a.f <= 1.0 && 0.0 <= b.f <= 1.0
    ensures l.vMax >= 0.0 && Near(Spot(pts, a), Spot(pts, b), Reach(l, TimeAt(pts, a), TimeAt(pts, b)))
  {
    hide Spot, TimeAt, Reach, Near;
    if a.k == b.k {
      SameLeg(sqrt, l, pts, a, b);
    } else {
      LegEnds(sqrt, l, pts, a);
      LegEnds(sqrt, l, pts, b);
      Corners(sqrt, l, pts, a.k + 1, b.k);
      var p, q := pts[a.k + 1], pts[b.k];
      Triangle(Spot(pts, a), p, q, Reach(l, TimeAt(pts, a), p.t), Reach(l, p.t, q.t));
      ReachAdds(l, TimeAt(pts, a), p.t, q.t);
      Triangle(Spot(pts, a), q, Spot(pts, b), Reach(l, TimeAt(pts, a), q.t), Reach(l, q.t, TimeAt(pts, b)));
      ReachAdds(l, TimeAt(pts, a), q.t, TimeAt(pts, b));
    }
  }

  lemma SameLeg(sqrt: real -> real, l: Limits, pts: seq<Point>, a: Place, b: Place)
    requires Flyable(sqrt, l, pts) && a.k == b.k && a.k + 1 < |pts| && a.f <= b.f
    ensures l.vMax >= 0.0 && Near(Spot(pts, a), Spot(pts, b), Reach(l, TimeAt(pts, a), TimeAt(pts, b)))
  {
    hide Between, DistSquare, SlowEnough;
    assert SlowAt(sqrt, l, pts, a.k);
    SameSegment(sqrt, l, pts[a.k], pts[a.k + 1], a.f, b.f, 0.0, 0.0);
    Share1(pts[a.k].t, pts[a.k + 1].t, a.f, b.f);
  }

  /** From a segment's start to a place on it, and on to its end. */
  lemma LegEnds(sqrt: real -> real, l: Limits, pts: seq<Point>, w: Place)
    requires Flyable(sqrt, l, pts) && w.k + 1 < |pts| && 0.0 <= w.f <= 1.0
    ensures l.vMax >= 0.0 && Near(pts[w.k], Spot(pts, w), Reach(l, pts[w.k].t, TimeAt(pts, w)))
    ensures Near(Spot(pts, w), pts[w.k + 1], Reach(l, TimeAt(pts, w), pts[w.k + 1].t))
  {
    hide Between, DistSquare;
    assert SlowAt(sqrt, l, pts, w.k);
    var p, q := pts[w.k], pts[w.k + 1];
    SameSegment(sqrt, l, p, q, 0.0, w.f, 0.0, 0.0);
    SameSegment(sqrt, l, p, q, w.f, 1.0, 0.0, 0.0);
    BetweenEnds(p, q, 0.0, Spot(pts, w));
    Share1(p.t, q.t, w.f, 1.0);
    LegTimes(p.t, q.t, w.f);
  }

  lemma LegTimes(a: real, b: real, f: real)
    ensures (f - 0.0) * (b - a) == (a + f * (b - a)) - a && (1.0 - f) * (b - a) == b - (a + f * (b - a))
  {
  }

  /** Any two samples, across any number of segments, are no further apart than v_max allows. */
  lemma PathSpeed(sqrt: real -> real, l: Limits, pts: seq<Point>, t1: real, t2: real)
    requires Flyable(sqrt, l, pts) && t1 <= t2
    ensures l.vMax >= 0.0 && Near(Path(pts, t1), Path(pts, t2), Reach(l, t1, t2))
  {
    PlaceIs(pts, t1);
    PlaceIs(pts, t2);
    PlacesInOrder(pts, t1, t2);
    var a, b := PlaceOf(pts, t1), PlaceOf(pts, t2);
    hide PlaceOf, Path, Spot, Boxed, Paced, Timed, TimeAt, Reach;
    var top := pts[|pts| - 1].t;
    var s1, s2 := Clamp(t1, top), Clamp(t2, top);
    if a.k == b.k { FractionsInOrder(pts, a, b, s1, s2); }
    PlacesNear(sqrt, l, pts, a, b);
    ReachMono(l, s1, s2, t1, t2);
    NearLonger(Spot(pts, a), Spot(pts, b), Reach(l, s1, s2), Reach(l, t1, t2));
  }

  lemma ReachMono(l: Limits, s1: real, s2: real, t1: real, t2: real)
    requires l.vMax >= 0.0 && s2 - s1 <= t2 - t1
    ensures Reach(l, s1, s2) <= Reach(l, t1, t2)
  {
    MulMono(s2 - s1, t2 - t1, l.vMax);
  }

  lemma FractionsInOrder(pts: seq<Point>, a: Place, b: Place, s: real, t: real)
    requires Timed(pts) && a.k == b.k && a.k + 1 < |pts| && TimeAt(pts, a) == s && TimeAt(pts, b) == t && s <= t
    ensures a.f <= b.f
  {
    var d := pts[a.k + 1].t - pts[a.k].t;
    assert (a.f - b.f) * d == s - t;
    if a.f > b.f { MulPos(a.f - b.f, d); }
  }

  // ---------- what the verdict is worth ----------

  /** At most d apart. */
  predicate Apart(p: Point, q: Point, d: real) {
    var dx, dy, dz := q.x - p.x, q.y - p.y, q.z - p.z;
    d >= 0.0 && dx * dx + dy * dy + dz * dz <= d * d
  }

  predicate Inside(l: Limits, p: Point) {
    -l.xAbs <= p.x <= l.xAbs && -l.yAbs <= p.y <= l.yAbs && l.zMin <= p.z <= l.zMax
  }

  /** Any two samples keep to v_max. */
  ghost predicate Within(l: Limits, pts: seq<Point>, s: real, t: real)
    requires |pts| >= 2
  {
    s <= t ==> Apart(Path(pts, s), Path(pts, t), Reach(l, s, t))
  }

  /** A flight one would accept, from what is flown: it takes off and ends at the hover point, within the tolerance, never
      leaves the box, and any two places on it are as far apart as v_max allows. */
  ghost predicate Acceptable(l: Limits, hover: real, pts: seq<Point>)
    requires |pts| >= 2
  {
    var at, last := Point(0.0, 0.0, hover, 0.0, 0.0), pts[|pts| - 1].t;
    Apart(at, Path(pts, 0.0), l.tol) && Apart(at, Path(pts, last), l.tol) &&
    (forall t: real {:trigger Path(pts, t)} :: Inside(l, Path(pts, t))) &&
    (forall s: real, t: real {:trigger Within(l, pts, s, t)} :: Within(l, pts, s, t))
  }

  /** An upload is accepted exactly if its times start at 0 and increase, its headings are within +-180 degrees, and the
      flight it makes is acceptable. */
  lemma AcceptedIff(sqrt: real -> real, l: Limits, hover: real, pts: seq<Point>)
    requires IsSqrt(sqrt) && |pts| >= 2
    ensures Verdict(sqrt, l, hover, pts).None? <==>
      pts[0].t == 0.0 && (forall i :: 0 <= i < |pts| - 1 ==> pts[i].t < pts[i + 1].t) && Headed(pts) && Acceptable(l, hover, pts)
  {
    hide Path, Boxed, Paced, Acceptable, AtHover, Headed;
    TimedIff(pts);
    if Timed(pts) {
      hide Timed;
      if Verdict(sqrt, l, hover, pts).None? { AcceptedFlight(sqrt, l, hover, pts); }
      if Headed(pts) && Acceptable(l, hover, pts) { AcceptableFlight(sqrt, l, hover, pts); }
    }
  }

  predicate Headed(pts: seq<Point>) { forall i :: 0 <= i < |pts| ==> -180.0 <= pts[i].yaw <= 180.0 }

  lemma TimedIff(pts: seq<Point>)
    requires |pts| >= 2
    ensures Timed(pts) <==> pts[0].t == 0.0 && forall i :: 0 <= i < |pts| - 1 ==> pts[i].t < pts[i + 1].t
  {
    if forall i :: 0 <= i < |pts| - 1 ==> pts[i].t < pts[i + 1].t {
      forall i, j | 0 <= i < j < |pts| ensures pts[i].t < pts[j].t { TimesAscend(pts, i, j); }
    }
  }

  lemma {:induction false} TimesAscend(pts: seq<Point>, i: nat, j: nat)
    requires i < j < |pts| && forall k :: 0 <= k < |pts| - 1 ==> pts[k].t < pts[k + 1].t
    ensures pts[i].t < pts[j].t
  {
    assert pts[j - 1].t < pts[j - 1 + 1].t;
    if i < j - 1 { TimesAscend(pts, i, j - 1); }
  }

  lemma InsideIs(l: Limits, p: Point)
    ensures InBox(l, p) <==> Inside(l, p) && -180.0 <= p.yaw <= 180.0
  {
  }

  /** Compared as squares or by the square root, the same. */
  lemma ApartIs(sqrt: real -> real, p: Point, q: Point, d: real)
    requires IsSqrt(sqrt)
    ensures Apart(p, q, d) <==> Distance(sqrt, p, q) <= d
  {
    SquareSign(q.x - p.x, q.y - p.y, q.z - p.z);
    RootAtMost(Distance(sqrt, p, q), DistSquare(p, q), d);
  }

  lemma RootAtMost(r: real, q: real, d: real)
    requires r >= 0.0 && r * r == q
    ensures r <= d <==> d >= 0.0 && q <= d * d
  {
    if r <= d { ProductBound(r, d, r, d); }
    if d >= 0.0 && r > d { assert r * r > d * d by { assert r * r - d * d == (r - d) * (r + d); MulPos(r - d, r + d); } }
  }

  lemma ApartNear(p: Point, q: Point, d: real)
    ensures Apart(p, q, d) <==> Near(p, q, d)
  {
  }

  lemma SamePlaces(p: Point, q: Point, p': Point, q': Point, d: real)
    requires p.x == p'.x && p.y == p'.y && p.z == p'.z && q.x == q'.x && q.y == q'.y && q.z == q'.z
    ensures Apart(p, q, d) <==> Apart(p', q', d)
  {
  }

  lemma AcceptedFlight(sqrt: real -> real, l: Limits, hover: real, pts: seq<Point>)
    requires IsSqrt(sqrt) && Verdict(sqrt, l, hover, pts).None? && |pts| >= 2
    ensures Headed(pts) && Acceptable(l, hover, pts)
  {
    forall i | 0 <= i < |pts| ensures -180.0 <= pts[i].yaw <= 180.0 { InsideIs(l, pts[i]); }
    hide Path, Boxed, Paced, Apart, Inside, InBox, Distance, Timed, Headed, Within;
    forall t: real ensures Inside(l, Path(pts, t)) {
      PathInBox(sqrt, l, pts, t);
      InsideIs(l, Path(pts, t));
    }
    forall s: real, t: real ensures Within(l, pts, s, t) { FlightWithin(sqrt, l, pts, s, t); }
    PathEnds(sqrt, l, hover, pts);
  }

  lemma FlightWithin(sqrt: real -> real, l: Limits, pts: seq<Point>, s: real, t: real)
    requires Flyable(sqrt, l, pts) && |pts| >= 2
    ensures Within(l, pts, s, t)
  {
    hide Path, Boxed, Paced, Timed, Reach, Apart, Near;
    if s <= t {
      PathSpeed(sqrt, l, pts, s, t);
      ApartNear(Path(pts, s), Path(pts, t), Reach(l, s, t));
    }
  }

  /** The flight begins at the first point and ends at the last. */
  lemma PathEnds(sqrt: real -> real, l: Limits, hover: real, pts: seq<Point>)
    requires IsSqrt(sqrt) && Timed(pts) && |pts| >= 2
    ensures var at := Point(0.0, 0.0, hover, 0.0, 0.0);
      (Apart(at, Path(pts, 0.0), l.tol) <==> AtHover(sqrt, l, hover, pts[0])) &&
      (Apart(at, Path(pts, pts[|pts| - 1].t), l.tol) <==> AtHover(sqrt, l, hover, pts[|pts| - 1]))
  {
    hide Apart, Distance;
    var at := Point(0.0, 0.0, hover, 0.0, 0.0);
    ApartIs(sqrt, at, pts[0], l.tol);
    ApartIs(sqrt, at, pts[|pts| - 1], l.tol);
    assert Path(pts, 0.0) == pts[0] && Path(pts, pts[|pts| - 1].t) == pts[|pts| - 1];
  }

  /** At the k-th time the path is at the k-th point. */
  lemma PathAtPoint(pts: seq<Point>, k: nat)
    requires Timed(pts) && k < |pts|
    ensures var r := Path(pts, pts[k].t); r.x == pts[k].x && r.y == pts[k].y && r.z == pts[k].z
  {
    if 0 < k < |pts| - 1 {
      PathOn(pts, k, pts[k].t);
      FracIs(pts[k], pts[k + 1], 0.0, pts[k].t);
    }
  }

  lemma AcceptableFlight(sqrt: real -> real, l: Limits, hover: real, pts: seq<Point>)
    requires IsSqrt(sqrt) && |pts| >= 2 && Timed(pts) && Headed(pts) && Acceptable(l, hover, pts)
    ensures Verdict(sqrt, l, hover, pts).None?
  {
    hide Path, Apart, InBox, Distance, SlowEnough, Reach;
    PathEnds(sqrt, l, hover, pts);
    forall i | 0 <= i < |pts| ensures InBox(l, pts[i]) {
      PathAtPoint(pts, i);
      InsideIs(l, pts[i]);
    }
    forall i | 0 <= i < |pts| - 1 ensures SlowAt(sqrt, l, pts, i) {
      assert Within(l, pts, pts[i].t, pts[i + 1].t);
      PathAtPoint(pts, i);
      PathAtPoint(pts, i + 1);
      SlowIs(sqrt, l, pts[i], pts[i + 1], Path(pts, pts[i].t), Path(pts, pts[i + 1].t), Reach(l, pts[i].t, pts[i + 1].t));
    }
  }

  lemma SlowIs(sqrt: real -> real, l: Limits, p: Point, q: Point, p': Point, q': Point, d: real)
    requires IsSqrt(sqrt) && p.t < q.t && d == Reach(l, p.t, q.t) && Apart(p', q', d)
    requires p.x == p'.x && p.y == p'.y && p.z == p'.z && q.x == q'.x && q.y == q'.y && q.z == q'.z
    ensures SlowEnough(sqrt, l, p, q)
  {
    SamePlaces(p, q, p', q', d);
    ApartIs(sqrt, p, q, d);
    hide Distance, Apart;
    SlowRatio(Distance(sqrt, p, q), q.t - p.t, l.vMax);
  }

  lemma SlowRatio(d: real, dt: real, v: real)
    requires dt > 0.0 && d <= v * dt
    ensures d / dt <= v
  {
    var r := d / dt;
    assert r * dt == d;
    if r > v { MulPos(r - v, dt); }
  }

  // ---------- the object ----------

  /** The buffer as the checksum sees it. */
  function Bytes(image: Point -> seq<bv8>, pts: seq<Point>): seq<bv8> {
    if pts == [] then [] else Bytes(image, pts[..|pts| - 1]) + image(pts[|pts| - 1])
  }

  predicate Half(v: Num) { IsInt(v) && 0.0 <= v.v <= 65535.0 }

  /** The checksum two halves stand for. */
  function Announced(hi: int, lo: Num): int
    requires Half(lo)
  {
    hi * 65536 + lo.v.Floor
  }

  /** Every 32-bit checksum can be announced, in two halves that a float holds exactly, and each in one way. */
  lemma HalvesCarry(sum: nat, hi: Num, lo: Num)
    requires sum < 0x1_0000_0000
    ensures Half(hi) && Half(lo) && Announced(hi.v.Floor, lo) == sum <==>
      hi == Value((sum / 65536) as real) && lo == Value((sum % 65536) as real)
  {
    hide Half;
    if Half(hi) && Half(lo) {
      HalfIs(hi);
      HalfIs(lo);
      Digits(hi.v.Floor, lo.v.Floor, sum);
    }
    HalfOf(sum / 65536);
    HalfOf(sum % 65536);
    Digits(sum / 65536, sum % 65536, sum);
  }

  lemma Digits(hi: int, lo: int, sum: nat)
    requires 0 <= lo < 65536
    ensures hi * 65536 + lo == sum <==> hi == sum / 65536 && lo == sum % 65536
  {
  }

  lemma HalfIs(v: Num)
    requires Half(v)
    ensures v.Value? && v == Value(v.v.Floor as real) && 0 <= v.v.Floor < 65536
  {
  }

  lemma HalfOf(n: nat)
    requires n < 65536
    ensures Half(Value(n as real)) && (n as real).Floor == n
  {
  }

  /** ok: still running. */
  datatype Sampled = NoPoint | Got(p: Point)

  class Traj {
    const buf: array<Point>
    const sqrt: real -> real
    const image: Point -> seq<bv8>
    var n: nat
    var seg: nat
    var rx: nat
    var crcHi: int
    var crcHiSet: bool
    var state: Lifecycle
    /** The limits of the last successful commit. */
    ghost var lim: Limits

    /** Whatever is ready, flying or flown passed every check. */
    ghost predicate Valid()
      reads this, buf
    {
      IsSqrt(sqrt) && n <= buf.Length &&
      (state.Loading? ==> 2 <= n) &&
      (state.Ready? || state.Executing? || state.Done? ==> Flyable(sqrt, lim, buf[..n]) && seg + 1 < n)
    }

    ghost function Points(): seq<Point>
      reads this, buf
      requires Valid()
    {
      buf[..n]
    }

    /** wfb_traj_init */
    constructor (sqrt: real -> real, image: Point -> seq<bv8>, buf: array<Point>)
      requires IsSqrt(sqrt)
      ensures Valid() && state.Empty? && this.buf == buf && this.sqrt == sqrt && this.image == image
    {
      this.sqrt, this.image, this.buf := sqrt, image, buf;
      n, seg, rx, crcHi, crcHiSet, state := 0, 0, 0, 0, false, Empty;
    }

    method Begin(points: Num) returns (err: Err)
      requires Valid()
      modifies this`n, this`seg, this`rx, this`crcHi, this`crcHiSet, this`state, buf
      ensures Valid()
      ensures err == if old(state).Executing? then BadState
        else if !IsInt(points) || points.v < 2.0 || points.v > buf.Length as real || points.v > MAX_POINTS as real then Range
        else None
      ensures err.None? ==> state.Loading? && n as real == points.v && rx == 0 && !crcHiSet
      ensures err.None? ==> forall i :: 0 <= i < buf.Length ==> buf[i] == BLANK
      ensures !err.None? ==> state == old(state) && n == old(n) && rx == old(rx) && seg == old(seg) && buf[..] == old(buf[..])
    {
      if state.Executing? { return BadState; }
      if !IsInt(points) { return Range; }
      if points.v < 2.0 || points.v > buf.Length as real || points.v > MAX_POINTS as real { return Range; }
      n, seg, rx, crcHi, crcHiSet, state := points.v.Floor, 0, 0, 0, false, Loading;
      for i := 0 to buf.Length
        modifies buf
        invariant forall j :: 0 <= j < i ==> buf[j] == BLANK
      {
        buf[i] := BLANK;
      }
      err := None;
    }

    function Filled(p: Point, field: nat, v: real): Point {
      match field
      case 0 => p.(x := v)
      case 1 => p.(y := v)
      case 2 => p.(z := v)
      case 3 => p.(yaw := v)
      case _ => p.(t := v)
    }

    method Append(v: Num) returns (err: Err)
      requires Valid()
      modifies this`rx, buf
      ensures Valid()
      ensures err == if !state.Loading? then BadState else if !v.Value? then Range else if old(rx) >= 5 * n then Count else None
      ensures err.None? ==> rx == old(rx) + 1 && old(rx) / 5 < n
      ensures err.None? ==> buf[..] == old(buf[..])[old(rx) / 5 := Filled(old(buf[rx / 5]), old(rx) % 5, v.v)]
      ensures !err.None? ==> rx == old(rx) && buf[..] == old(buf[..])
    {
      if !state.Loading? { return BadState; }
      if !v.Value? { return Range; }
      if rx >= 5 * n { return Count; }
      buf[rx / 5] := Filled(buf[rx / 5], rx % 5, v.v);
      rx := rx + 1;
      err := None;
    }

    method SetCrcHi(hi: Num) returns (err: Err)
      requires Valid()
      modifies this`crcHi, this`crcHiSet
      ensures Valid() && err == if !state.Loading? then BadState else if !Half(hi) then Range else None
      ensures if err.None? then crcHiSet && crcHi as real == hi.v else crcHi == old(crcHi) && crcHiSet == old(crcHiSet)
    {
      if !state.Loading? { return BadState; }
      if !Half(hi) { return Range; }
      crcHi, crcHiSet := hi.v.Floor, true;
      err := None;
    }

    method TimesOk() returns (ok: bool)
      requires 2 <= n <= buf.Length
      ensures ok == Timed(buf[..n])
    {
      if buf[0].t != 0.0 { return false; }
      for i := 1 to n
        invariant forall j, k :: 0 <= j < k < i ==> buf[j].t < buf[k].t
      {
        if buf[i].t <= buf[i - 1].t {
          assert buf[..n][i].t <= buf[..n][i - 1].t;
          return false;
        }
      }
      ok := true;
    }

    method BoxOk(l: Limits) returns (ok: bool)
      requires n <= buf.Length
      ensures ok == Boxed(l, buf[..n])
    {
      for i := 0 to n
        invariant forall j :: 0 <= j < i ==> InBox(l, buf[j])
      {
        if !InBox(l, buf[i]) {
          assert !InBox(l, buf[..n][i]);
          return false;
        }
      }
      ok := true;
    }

    method SpeedOk(l: Limits) returns (ok: bool)
      requires 2 <= n <= buf.Length && Timed(buf[..n])
      ensures ok == Paced(sqrt, l, buf[..n])
    {
      ghost var pts := buf[..n];
      for i := 0 to n - 1
        invariant forall j {:trigger SlowAt(sqrt, l, pts, j)} :: 0 <= j < i ==> SlowAt(sqrt, l, pts, j)
      {
        assert pts[i] == buf[i] && pts[i + 1] == buf[i + 1];
        if !SlowEnough(sqrt, l, buf[i], buf[i + 1]) {
          assert !SlowAt(sqrt, l, pts, i);
          return false;
        }
      }
      ok := true;
    }

    /** The checksum received, high half first. */
    function Expected(crcLo: Num): int
      reads this
      requires Half(crcLo)
    {
      Announced(crcHi, crcLo)
    }

    /** The checks of the points themselves. */
    method Inspect(l: Limits, hover: real) returns (err: Err)
      requires 2 <= n <= buf.Length
      ensures err == Verdict(sqrt, l, hover, buf[..n])
    {
      hide Timed, Boxed, Paced, AtHover;
      var ok := TimesOk();
      if !ok { return Time; }
      ok := BoxOk(l);
      if !ok { return Bounds; }
      if !AtHover(sqrt, l, hover, buf[0]) { return Endpoint; }
      if !AtHover(sqrt, l, hover, buf[n - 1]) { return Endpoint; }
      ok := SpeedOk(l);
      err := if ok then None else Speed;
    }

    method Commit(crcLo: Num, l: Limits, hover: real) returns (err: Err)
      requires Valid()
      modifies this`state, this`seg, this`lim
      ensures Valid()
      ensures err ==
        if !old(state).Loading? || !crcHiSet then BadState
        else if rx != 5 * n then Count
        else if !Half(crcLo) then Range
        else if Crc32.Crc32Of(Bytes(image, Points())) as int != Expected(crcLo) then Err.Crc
        else Verdict(sqrt, l, hover, Points())
      ensures state == if !old(state).Loading? then old(state) else if err.None? then Ready else Empty
      ensures err.None? ==> lim == l && seg == 0
    {
      hide Timed, Boxed, Paced, AtHover, Bytes;
      if !state.Loading? { return BadState; }
      state := Empty;
      if !crcHiSet { return BadState; }
      if rx != 5 * n { return Count; }
      if !Half(crcLo) { return Range; }
      var bytes := ImageOf();
      var sum := Crc32.WholeCrc(bytes);
      if sum as int != Expected(crcLo) { return Err.Crc; }
      err := Inspect(l, hover);
      if !err.None? { return; }
      seg, state, lim := 0, Ready, l;
      err := None;
    }

    /** The first n points, byte by byte. */
    method ImageOf() returns (bytes: seq<bv8>)
      requires n <= buf.Length
      ensures bytes == Bytes(image, buf[..n])
    {
      bytes := [];
      for i := 0 to n
        invariant bytes == Bytes(image, buf[..i])
      {
        assert buf[..i + 1][..i] == buf[..i];
        bytes := bytes + image(buf[i]);
      }
    }

    method Start() returns (err: Err)
      requires Valid()
      modifies this`state, this`seg
      ensures Valid() && err == (if old(state).Ready? then None else BadState)
      ensures state == if err.None? then Executing else old(state)
    {
      if !state.Ready? { return BadState; }
      seg, state := 0, Executing;
      err := None;
    }

    method Stop() returns (err: Err)
      requires Valid()
      modifies this`state
      ensures Valid() && err == (if old(state).Executing? then None else BadState)
      ensures state == if err.None? then Ready else old(state)
    {
      if !state.Executing? { return BadState; }
      state := Ready;
      err := None;
    }

    method Clear() returns (err: Err)
      requires Valid()
      modifies this`n, this`seg, this`rx, this`crcHi, this`crcHiSet, this`state
      ensures Valid() && err == (if old(state).Executing? then BadState else None)
      ensures state == if err.None? then Empty else old(state)
    {
      if state.Executing? { return BadState; }
      n, seg, rx, crcHi, crcHiSet, state := 0, 0, 0, 0, false, Empty;
      err := None;
    }

    /** The cursor search: back, then forward, from wherever it was left. */
    method Seek(t: real)
      requires n <= buf.Length && seg + 1 < n && buf[0].t < t < buf[n - 1].t
      modifies this`seg
      ensures seg + 1 < n && Holds(buf[..n], seg, t)
    {
      while seg > 0 && t < buf[seg].t
        invariant seg + 1 < n
      {
        seg := seg - 1;
      }
      while seg + 1 < n - 1 && t >= buf[seg + 1].t
        invariant seg + 1 < n && buf[seg].t <= t
      {
        seg := seg + 1;
      }
    }

    /** wfb_traj_sample: wherever earlier queries left the cursor, forwards or backwards, the sample is Path at t. */
    method Sample(t: Num) returns (running: bool, out: Sampled)
      requires Valid()
      modifies this`state, this`seg
      ensures Valid()
      ensures running == (old(state).Executing? && !Ended(t, buf[n - 1].t))
      ensures state == if old(state).Executing? && !running then Done else old(state)
      ensures out ==
        if old(state).Done? || (old(state).Executing? && !running) then Got(buf[n - 1])
        else if running then Got(Path(Points(), if t.Value? then t.v else buf[0].t))
        else NoPoint
      ensures out.Got? ==> InBox(lim, out.p)
    {
      hide Boxed, Paced, InBox, Between, Frac, SegmentAt;
      ghost var pts := buf[..n];
      if state.Executing? || state.Done? { LastInBox(sqrt, lim, pts); }
      if state.Done? { return false, Got(buf[n - 1]); }
      if !state.Executing? { return false, NoPoint; }
      if Ended(t, buf[n - 1].t) {
        state := Done;
        return false, Got(buf[n - 1]);
      }
      PathInBox(sqrt, lim, pts, if t.Value? then t.v else buf[0].t);
      if AtMost(t, buf[0].t) {
        seg := 0;
        return true, Got(buf[0]);
      }
      Seek(t.v);
      PathOn(pts, seg, t.v);
      running, out := true, Got(Between(buf[seg], buf[seg + 1], Frac(buf[seg], buf[seg + 1], t.v), t.v));
    }
  }

  lemma LastInBox(sqrt: real -> real, l: Limits, pts: seq<Point>)
    requires Flyable(sqrt, l, pts)
    ensures |pts| >= 2 && InBox(l, pts[|pts| - 1])
  {
  }
}
