/**
 What the checks of API/wfb_prog.c's programs are for: which segments are accepted, field by field, and that an accepted
 segment is flown within the limits they were compared with, starting and ending at the velocities its neighbours see.
 */
module WfbLimits {
  import opened Reals
  import opened WfbTypes
  import opened WfbRamp
  import opened WfbPlan
  import opened WfbAccel
  import opened WfbProg
  import T = WfbTraj

  // ---------- which segments are accepted ----------

  /** The turn from one heading to another by at most half a circle. */
  ghost predicate ShortTurn(from: real, to: real, d: real) {
    -180.0 <= d < 180.0 && exists k: int {:trigger k as real} :: to - from == d + 360.0 * (k as real)
  }

  predicate SpeedsOk(f: Fields) {
    f.v > 0.0 && f.a > 0.0 && (f.prof == Scurve ==> f.j > 0.0) && 0.0 <= f.vIn <= f.v && 0.0 <= f.vOut <= f.v
  }

  /** From the speed asked for at one end to that at the other within the length. */
  ghost predicate RampsFit(sqrt: real -> real, f: Fields, len: real) {
    SpeedsOk(f) && len > 0.0 && RampDist(sqrt, RequestOf(f, len), Max(f.vIn, f.vOut)) <= len + SLACK
  }

  /** A LINE of length len that turns by d on the way. */
  ghost predicate LineTaken(sqrt: real -> real, l: T.Limits, c: Caps, f: Fields, len: real, d: real) {
    -180.0 <= f.p3 <= 180.0 && -l.xAbs <= f.p0 <= l.xAbs && -l.yAbs <= f.p1 <= l.yAbs && l.zMin <= f.p2 <= l.zMax &&
    if len < 0.001 then -0.5 <= d <= 0.5 && f.vIn == 0.0 && f.vOut == 0.0
    else
      SpeedsOk(f) && f.v <= l.vMax && f.a <= c.aMax && (f.prof == Scurve ==> f.j <= c.jMax) && Abs(d) * f.v <= c.yawRateMax * len &&
      RampsFit(sqrt, f, len)
  }

  /** A TURN by d. */
  ghost predicate TurnTaken(sqrt: real -> real, c: Caps, f: Fields, d: real) {
    -180.0 <= f.p0 <= 180.0 &&
    if Abs(d) < 0.001 then f.vIn == 0.0 && f.vOut == 0.0
    else SpeedsOk(f) && f.v <= c.yawRateMax && f.a <= c.yawAccMax && RampsFit(sqrt, f, Abs(d))
  }

  /** A segment is accepted if and only if its fields are within the table: a HOLD up to the longest program; a LINE into the
      box, no faster, harder, jerkier or quicker in turning than allowed, its ramps fitting its length; a TURN likewise; and
      a LINE or TURN too short to plan only at rest, the LINE turning by at most half a degree. */
  lemma AcceptedIff(sqrt: real -> real, l: T.Limits, c: Caps, f: Fields, start: T.Point, d: real)
    requires IsSqrt(sqrt) && (f.atom.Line? ==> ShortTurn(start.yaw, f.p3, d)) && (f.atom.Turn? ==> ShortTurn(start.yaw, f.p0, d))
    ensures SegErr(sqrt, l, c, f, start).None? <==>
      match f.atom
      case Hold => 0.0 <= f.p0 <= c.tMax
      case Line => LineTaken(sqrt, l, c, f, T.Distance(sqrt, start, Target(f)), d)
      case Turn => TurnTaken(sqrt, c, f, d)
  {
    hide RampDist, T.Distance, Wrap, RampsFit;
    TurnIs(start.yaw, if f.atom.Line? then f.p3 else f.p0, d);
    var len := Length(sqrt, f, start);
    if len >= LEN_EPS {
      RateIs(Abs(d), len, f.v, c.yawRateMax);
      PlannableIs(sqrt, f, len);
    }
  }

  lemma TurnIs(from: real, to: real, d: real)
    ensures ShortTurn(from, to, d) ==> Wrap(to - from) == d
  {
    hide Wrap;
    if ShortTurn(from, to, d) {
      var k: int :| to - from == d + 360.0 * (k as real);
      WrapIs(to - from, k, d);
    }
  }

  lemma RateIs(d: real, len: real, v: real, rate: real)
    requires len > 0.0
    ensures d / len * v <= rate <==> d * v <= rate * len
  {
    var q := d / len;
    DivTimes(d, len);
    assert q * v * len == d * v;
    if q * v <= rate { MulMono(q * v, rate, len); }
    if d * v <= rate * len && q * v > rate { MulPos(q * v - rate, len); }
  }

  lemma PlannableIs(sqrt: real -> real, f: Fields, len: real)
    requires len > 0.0
    ensures FieldsOk(f) ==> (Plannable(sqrt, RequestOf(f, len)) <==> RampsFit(sqrt, f, len))
  {
    hide RampDist;
  }

  // ---------- accepted segments are flown within the limits ----------

  /** The acceleration and jerk a segment may ask for: along a LINE, or of the heading. */
  function AccCap(c: Caps, f: Fields): real { if f.atom.Line? then c.aMax else c.yawAccMax }

  /** On an accepted LINE or TURN that takes time, the speed along the way, from v_in to v_out, changes over any time d by at
      most the allowed acceleration times d, and on an S-curved LINE its changes over two successive times h differ by at most
      the allowed jerk times h h. */
  lemma FlownWithinCaps(sqrt: real -> real, l: T.Limits, c: Caps, sg: Seg, t1: real, t2: real, h: real)
    requires IsSqrt(sqrt) && Accepted(sqrt, l, c, sg) && Dur(sg) > 0.0 && !sg.f.atom.Hold? && 0.0 <= t1 <= t2 <= Dur(sg) && h >= 0.0
    ensures sg.travel.Move? && var m := sg.travel.m;
      SpeedAt(m, 0.0) == sg.f.vIn && SpeedAt(m, Dur(sg)) == sg.f.vOut &&
      Abs(SpeedAt(m, t2) - SpeedAt(m, t1)) <= AccCap(c, sg.f) * (t2 - t1) &&
      (sg.f.atom.Line? && sg.f.prof.Scurve? ==>
        Abs(SpeedAt(m, t1 + 2.0 * h) - 2.0 * SpeedAt(m, t1 + h) + SpeedAt(m, t1)) <= c.jMax * (h * h))
  {
    hide MotionAt, SpeedAt, Unclamped, PathS, RampDist, Planned, Accepted;
    MovesInTime(sqrt, l, c, sg);
    CapsKept(sqrt, l, c, sg);
    var q, m := RequestOf(sg.f, sg.len), sg.travel.m;
    PlanKeepsAccel(sqrt, q, m.vc, t1, t2);
    MulMono(sg.f.a, AccCap(c, sg.f), t2 - t1);
    if sg.f.atom.Line? && sg.f.prof.Scurve? {
      PlanKeepsJerk(sqrt, q, m.vc, t1, h);
      SquareMono(sg.f.j, c.jMax, h);
    }
  }

  lemma SquareMono(j: real, top: real, h: real)
    requires j <= top
    ensures j * (h * h) <= top * (h * h)
  {
    assert h * h >= 0.0;
    MulMono(j, top, h * h);
  }

  lemma CapsKept(sqrt: real -> real, l: T.Limits, c: Caps, sg: Seg)
    requires Accepted(sqrt, l, c, sg) && MoveOf(sqrt, sg) && !sg.f.atom.Hold? && sg.len > 0.0
    ensures sg.f.a <= AccCap(c, sg.f) && (sg.f.atom.Line? && sg.f.prof.Scurve? ==> sg.f.j <= c.jMax)
  {
    hide MotionAt, CruiseSpeed, T.Distance, Wrap, RampDist, Planned;
  }

  // ---------- the velocities where segments meet ----------

  ghost predicate Moves3(p: T.Point, q: T.Point, v: Vel, d: real, slack: real) {
    Moves1(p.x, q.x, v.x, d, slack) && Moves1(p.y, q.y, v.y, d, slack) && Moves1(p.z, q.z, v.z, d, slack)
  }

  /** In a time d from p to q at velocity v, to within slack. */
  predicate Moves1(p: real, q: real, v: real, d: real, slack: real) { Abs(q - p - v * d) <= slack }

  function At(sg: Seg, t: real): T.Point { Pose(sg, PathAt(sg, t)) }

  /** The velocities compared where segments meet are those flown: a LINE whose ramps fit its length moves, in its first d
      seconds, by d times the velocity at its start to within a d d, and in its last by d times that at its end to within
      twice that, on each axis. */
  lemma VelocityMeant(sqrt: real -> real, l: T.Limits, c: Caps, sg: Seg, d: real)
    requires IsSqrt(sqrt) && Accepted(sqrt, l, c, sg) && Dur(sg) > 0.0 && sg.f.atom.Line? && 0.0 <= d <= Dur(sg)
    requires sg.travel.Move? ==> RampDist(sqrt, RequestOf(sg.f, sg.len), sg.travel.m.vc) <= sg.len
    ensures Moves3(At(sg, 0.0), At(sg, d), VelOf(sg, sg.f.vIn), d, sg.f.a * (d * d))
    ensures Moves3(At(sg, Dur(sg) - d), At(sg, Dur(sg)), VelOf(sg, sg.f.vOut), d, 2.0 * (sg.f.a * (d * d)))
  {
    hide MotionAt, PathS, RampDist, Planned, Accepted, Pose, VelOf, Moves1, Moves3;
    MovesInTime(sqrt, l, c, sg);
    LineFacts(sqrt, l, c, sg);
    var q, m, e := RequestOf(sg.f, sg.len), sg.travel.m, Dur(sg) - d;
    var slack := sg.f.a * (d * d);
    PathNear(sqrt, q, m.vc, 0.0, d, d, slack);
    PathNear(sqrt, q, m.vc, e, Dur(sg), d, slack);
    AlongAxes(sqrt, sg, PathS(m, 0.0), PathS(m, d), sg.f.vIn, d, slack);
    AlongAxes(sqrt, sg, PathS(m, e), PathS(m, Dur(sg)), sg.f.vOut, d, 2.0 * slack);
  }

  /** What a segment's acceleration can make of d seconds; only a LINE moves the craft. */
  function SlackOf(sg: Seg, d: real): real { if sg.f.atom.Line? then sg.f.a * (d * d) else 0.0 }

  /** The segment is flown in time, its ramps within its length. */
  ghost predicate InTime(sqrt: real -> real, sg: Seg) {
    Dur(sg) > 0.0 && (sg.f.atom.Line? && sg.travel.Move? ==>
      MotionOk(RequestOf(sg.f, sg.len)) && RampDist(sqrt, RequestOf(sg.f, sg.len), sg.travel.m.vc) <= sg.len)
  }

  /** v is the velocity of the segment's first d seconds, of its last. */
  ghost predicate Enters(sg: Seg, v: Vel, d: real) { Moves3(At(sg, 0.0), At(sg, d), v, d, SlackOf(sg, d)) }

  ghost predicate Leaves(sg: Seg, v: Vel, d: real) { Moves3(At(sg, Dur(sg) - d), At(sg, Dur(sg)), v, d, 2.0 * SlackOf(sg, d)) }

  predicate Gentle(c: Caps, a: Vel, b: Vel) {
    c.vJumpMax >= 0.0 && (b.x - a.x) * (b.x - a.x) + (b.y - a.y) * (b.y - a.y) + (b.z - a.z) * (b.z - a.z) <= c.vJumpMax * c.vJumpMax
  }

  /** Nowhere in a program does the velocity step by more than allowed: a is the velocity the craft arrives with, at rest
      before the first segment, b that with which segment k sets off; the last leaves it all but at rest. */
  lemma JointsGentle(sqrt: real -> real, l: T.Limits, c: Caps, hover: real, segs: seq<Seg>, k: nat, d: real) returns (a: Vel, b: Vel)
    requires Flyable(sqrt, l, c, hover, segs) && k < |segs| && d >= 0.0
    ensures Gentle(c, a, b) && (k == 0 ==> a == STILL)
    ensures k == |segs| - 1 ==>
      exists e: Vel :: Gentle(c, STILL, e) && (InTime(sqrt, segs[k]) && d <= Dur(segs[k]) ==> Leaves(segs[k], e, d))
    ensures k > 0 && InTime(sqrt, segs[k - 1]) && d <= Dur(segs[k - 1]) ==> Leaves(segs[k - 1], a, d)
    ensures InTime(sqrt, segs[k]) && d <= Dur(segs[k]) ==> Enters(segs[k], b, d)
  {
    hide Jump, VelOf, Accepted, InTime, Leaves, Enters, Gentle, Leaving;
    a, b := Leaving(segs, k - 1), VelOf(segs[k], segs[k].f.vIn);
    assert JumpAt(sqrt, c, segs, k) && AcceptedAt(sqrt, l, c, segs, k);
    GentleIs(sqrt, c, a, b);
    FirstVelocity(sqrt, l, c, segs[k], d);
    if k > 0 {
      assert AcceptedAt(sqrt, l, c, segs, k - 1);
      LastVelocity(sqrt, l, c, segs, k - 1, d);
    } else {
      NoneBefore(segs);
    }
    if k == |segs| - 1 {
      GentleIs(sqrt, c, STILL, Leaving(segs, k));
      LastVelocity(sqrt, l, c, segs, k, d);
    }
  }

  lemma NoneBefore(segs: seq<Seg>)
    ensures Leaving(segs, -1) == STILL
  {
  }

  lemma GentleIs(sqrt: real -> real, c: Caps, a: Vel, b: Vel)
    requires IsSqrt(sqrt)
    ensures Jump(sqrt, c, a, b) <==> Gentle(c, a, b)
  {
    T.SquareSign(b.x - a.x, b.y - a.y, b.z - a.z);
    RootAtMost(sqrt, T.Square3(b.x - a.x, b.y - a.y, b.z - a.z), c.vJumpMax);
  }

  lemma RootAtMost(sqrt: real -> real, q: real, d: real)
    requires IsSqrt(sqrt) && q >= 0.0
    ensures sqrt(q) <= d <==> d >= 0.0 && q <= d * d
  {
    T.RootAtMost(sqrt(q), q, d);
  }

  lemma FirstVelocity(sqrt: real -> real, l: T.Limits, c: Caps, sg: Seg, d: real)
    requires IsSqrt(sqrt) && Accepted(sqrt, l, c, sg) && d >= 0.0
    ensures InTime(sqrt, sg) && d <= Dur(sg) ==> Enters(sg, VelOf(sg, sg.f.vIn), d)
  {
    hide Accepted, VelOf, RampDist, At, Moves3, Dur, MotionOk;
    if InTime(sqrt, sg) && d <= Dur(sg) {
      if sg.f.atom.Line? {
        VelocityMeant(sqrt, l, c, sg, d);
        assert SlackOf(sg, d) == sg.f.a * (d * d);
      } else {
        StaysPut(sg, sg.f.vIn, 0.0, d, d, 0.0);
      }
    }
  }

  lemma LastVelocity(sqrt: real -> real, l: T.Limits, c: Caps, segs: seq<Seg>, k: nat, d: real)
    requires IsSqrt(sqrt) && k < |segs| && Accepted(sqrt, l, c, segs[k]) && d >= 0.0
    ensures InTime(sqrt, segs[k]) && d <= Dur(segs[k]) ==> Leaves(segs[k], Leaving(segs, k), d)
  {
    hide Accepted, VelOf, RampDist, At, Moves3, Dur, MotionOk;
    var sg := segs[k];
    if InTime(sqrt, sg) && d <= Dur(sg) {
      if sg.f.atom.Line? {
        VelocityMeant(sqrt, l, c, sg, d);
        assert SlackOf(sg, d) == sg.f.a * (d * d);
      } else {
        StaysPut(sg, sg.f.vOut, Dur(sg) - d, Dur(sg), d, 0.0);
      }
    }
  }

  lemma StaysPut(sg: Seg, v: real, t1: real, t2: real, d: real, slack: real)
    requires !sg.f.atom.Line? && slack == 0.0
    ensures VelOf(sg, v) == STILL && Moves3(At(sg, t1), At(sg, t2), STILL, d, slack)
  {
    hide PathAt;
    assert 0.0 * d == 0.0;
  }

  /** The path covered in the first and in the last d seconds. */
  lemma PathNear(sqrt: real -> real, q: Request, vc: real, t1: real, t2: real, d: real, slack: real)
    requires IsSqrt(sqrt) && Planned(sqrt, q, vc) && vc > 0.0 && RampDist(sqrt, q, vc) <= q.len && slack == q.a * (d * d)
    requires 0.0 <= t1 <= t2 <= MotionAt(sqrt, q, vc).dur && d == t2 - t1
    ensures var m := MotionAt(sqrt, q, vc);
      (t1 == 0.0 ==> Moves1(PathS(m, t1), PathS(m, t2), q.vIn, d, slack)) &&
      (t2 == m.dur ==> Moves1(PathS(m, t1), PathS(m, t2), q.vOut, d, 2.0 * slack))
  {
    hide MotionAt, SpeedAt, Unclamped, PathS, RampDist, Eased, Gentle, Moves1;
    PlannedGentle(sqrt, q, vc);
    var m := MotionAt(sqrt, q, vc);
    MotionFor(sqrt, q, vc);
    SegmentEased(m, t1, t2);
    SegmentSpeedEnds(m);
    NotCutOff(sqrt, q, vc, t1);
    NotCutOff(sqrt, q, vc, t2);
    FromEased(PathS(m, t1), PathS(m, t2), SpeedAt(m, t1), SpeedAt(m, t2), q.a, d, slack);
  }

  lemma FromEased(s1: real, s2: real, p1: real, p2: real, a: real, d: real, slack: real)
    requires Eased(s1, s2, p1, p2, a, d) && d >= 0.0 && slack == a * (d * d)
    ensures Moves1(s1, s2, p1, d, slack) && Moves1(s1, s2, p2, d, 2.0 * slack)
  {
    SpeedGap(p2 - p1, p1, p2, a, d);
  }

  lemma SpeedGap(w: real, p1: real, p2: real, a: real, d: real)
    requires Abs(w) <= a * d && d >= 0.0 && p2 == p1 + w
    ensures Abs(p2 * d - p1 * d) <= a * (d * d)
  {
    TimesAbs(w, d);
    MulMono(Abs(w), a * d, d);
    assert p2 * d == p1 * d + w * d && a * d * d == a * (d * d);
  }

  /** A path s along a LINE moves each axis by its share. */
  lemma AlongAxes(sqrt: real -> real, sg: Seg, s1: real, s2: real, v: real, d: real, slack: real)
    requires IsSqrt(sqrt) && sg.f.atom.Line? && sg.len > 0.0 && sg.len == T.Distance(sqrt, sg.start, Target(sg.f))
    requires Moves1(s1, s2, v, d, slack)
    ensures Moves3(Pose(sg, s1), Pose(sg, s2), VelOf(sg, v), d, slack)
  {
    hide T.Distance, T.Mix, Pose, VelOf, OnAxis, Moves1;
    AxesWithin(sqrt, sg.start, Target(sg.f), sg.len);
    LineIs(sg, s1, v);
    LineIs(sg, s2, v);
    var p, q, w := Pose(sg, s1), Pose(sg, s2), VelOf(sg, v);
    AxisMoves(sg.start.x, sg.f.p0, sg.len, s1, s2, v, d, slack, p.x, q.x, w.x);
    AxisMoves(sg.start.y, sg.f.p1, sg.len, s1, s2, v, d, slack, p.y, q.y, w.y);
    AxisMoves(sg.start.z, sg.f.p2, sg.len, s1, s2, v, d, slack, p.z, q.z, w.z);
  }

  lemma LineIs(sg: Seg, s: real, v: real)
    requires sg.f.atom.Line? && sg.len > 0.0
    ensures var p, w := Pose(sg, s), VelOf(sg, v);
      OnAxis(sg.start.x, sg.f.p0, sg.len, s, p.x, v, w.x) && OnAxis(sg.start.y, sg.f.p1, sg.len, s, p.y, v, w.y) &&
      OnAxis(sg.start.z, sg.f.p2, sg.len, s, p.z, v, w.z)
  {
  }

  predicate OnAxis(from: real, to: real, len: real, s: real, p: real, v: real, w: real)
    requires len > 0.0
  {
    p == T.Mix(from, to, s / len) && w == (to - from) / len * v
  }

  lemma AxesWithin(sqrt: real -> real, p: T.Point, q: T.Point, len: real)
    requires IsSqrt(sqrt) && len == T.Distance(sqrt, p, q) && len > 0.0
    ensures Abs(q.x - p.x) <= len && Abs(q.y - p.y) <= len && Abs(q.z - p.z) <= len
  {
    LengthSquare(sqrt, p, q);
    AxisWithin(q.x - p.x, q.y - p.y, q.z - p.z, len);
    AxisWithin(q.y - p.y, q.z - p.z, q.x - p.x, len);
    AxisWithin(q.z - p.z, q.x - p.x, q.y - p.y, len);
  }

  lemma AxisWithin(x: real, y: real, z: real, len: real)
    requires len > 0.0 && x * x + y * y + z * z == len * len
    ensures Abs(x) <= len
  {
    assert y * y >= 0.0 && z * z >= 0.0;
    assert Abs(x) * Abs(x) == x * x;
    SquareOrder(Abs(x), len);
  }

  lemma AxisMoves(from: real, to: real, len: real, s1: real, s2: real, v: real, d: real, slack: real, p: real, q: real, w: real)
    requires len > 0.0 && Abs(to - from) <= len && Moves1(s1, s2, v, d, slack)
    requires OnAxis(from, to, len, s1, p, v, w) && OnAxis(from, to, len, s2, q, v, w)
    ensures Moves1(p, q, w, d, slack)
  {
    hide T.Mix, Moves1;
    var k := (to - from) / len;
    DivTimes(to - from, len);
    DivTimes(s1, len);
    DivTimes(s2, len);
    ShareMoves(from, to, len, s1 / len, s2 / len, k, s1, s2, s2 - s1);
    UnitTimes(k, len, to - from);
    RestMoves(k, s2 - s1, v, d, slack, q - p, w, s1, s2, p, q);
  }

  lemma RestMoves(k: real, ds: real, v: real, d: real, slack: real, dp: real, w: real, s1: real, s2: real, p: real, q: real)
    requires Abs(k) <= 1.0 && Moves1(s1, s2, v, d, slack) && ds == s2 - s1 && dp == q - p && dp == k * ds && w == k * v
    ensures Moves1(p, q, w, d, slack)
  {
    Shorter(k, ds - v * d, slack);
    assert k * (ds - v * d) == dp - w * d;
  }

  lemma ShareMoves(from: real, to: real, len: real, u1: real, u2: real, k: real, s1: real, s2: real, ds: real)
    requires len > 0.0 && u1 * len == s1 && u2 * len == s2 && k * len == to - from && ds == s2 - s1
    ensures T.Mix(from, to, u2) - T.Mix(from, to, u1) == k * ds
  {
    assert u2 * (k * len) - u1 * (k * len) == k * (u2 * len - u1 * len);
  }

  lemma UnitTimes(k: real, len: real, x: real)
    requires len > 0.0 && k * len == x && Abs(x) <= len
    ensures Abs(k) <= 1.0
  {
    if k > 1.0 { MulPos(k - 1.0, len); }
    if k < -1.0 { MulPos(-1.0 - k, len); }
  }

  lemma Shorter(k: real, x: real, m: real)
    requires Abs(k) <= 1.0 && Abs(x) <= m
    ensures Abs(k * x) <= m
  {
    TimesAbs(k, x);
    MulMono(Abs(k), 1.0, Abs(x));
  }
}
