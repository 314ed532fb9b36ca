/**
 API/wfb_prog.c's programs of LINE, TURN and HOLD segments: each segment derived from the end of the one before it,
 checked, planned, and then sampled by time. ARC and LISSA segments are not modelled.
 */
module WfbProg {
  import opened Reals
  import opened WfbTypes
  import opened WfbRamp
  import opened WfbPlan
  import T = WfbTraj

  const LEN_EPS: real := 0.001

  datatype Atom = Hold | Line | Turn

  /** Uploaded fields of one segment; p0..p3 as the atom reads them. */
  datatype Fields = Fields(atom: Atom, prof: Profile, v: real, a: real, j: real, vIn: real, vOut: real,
                           p0: real, p1: real, p2: real, p3: real)

  datatype Caps = Caps(aMax: real, jMax: real, yawRateMax: real, yawAccMax: real, tMax: real, vJumpMax: real)

  /** The default table. */
  const CAPS := Caps(1.5, 5.0, 90.0, 180.0, 120.0, 0.05)

  /** How a derived segment gets from its start to its end. */
  datatype Travel = Snap | Rest(dwell: real) | Move(m: Motion)

  datatype Seg = Seg(f: Fields, start: T.Point, t0: real, len: real, dyaw: real, travel: Travel)

  const NOWHERE := Seg(Fields(Hold, Trap, 0.0, 0.0, 0.0, 0.0, 0.0, 0.0, 0.0, 0.0, 0.0), T.Point(0.0, 0.0, 0.0, 0.0, 0.0), 0.0, 0.0, 0.0, Snap)

  function Dur(sg: Seg): real {
    match sg.travel
    case Snap => 0.0
    case Rest(d) => d
    case Move(m) => m.dur
  }

  /** wfb_prog_wrap180: into [-180, 180). */
  function Wrap(a: real): real { a - 360.0 * ((a + 180.0) / 360.0).Floor as real }

  lemma WrapRange(a: real)
    ensures -180.0 <= Wrap(a) < 180.0
  {
    var q := (a + 180.0) / 360.0;
    var n := q.Floor as real;
    assert n <= q < n + 1.0;
    assert q * 360.0 == a + 180.0;
  }

  predicate InBox(l: T.Limits, x: real, y: real, z: real) { Abs(x) <= l.xAbs && Abs(y) <= l.yAbs && l.zMin <= z <= l.zMax }

  predicate PointInBox(l: T.Limits, p: T.Point) { InBox(l, p.x, p.y, p.z) }

  /** Where a LINE is to end. */
  function Target(f: Fields): T.Point { T.Point(f.p0, f.p1, f.p2, f.p3, 0.0) }

  // ---------- deriving one segment ----------

  function Length(sqrt: real -> real, f: Fields, start: T.Point): real {
    match f.atom
    case Hold => 0.0
    case Line => T.Distance(sqrt, start, Target(f))
    case Turn => Abs(Wrap(f.p0 - start.yaw))
  }

  function Heading(f: Fields, start: T.Point): real {
    match f.atom
    case Hold => 0.0
    case Line => Wrap(f.p3 - start.yaw)
    case Turn => Wrap(f.p0 - start.yaw)
  }

  function RequestOf(f: Fields, len: real): Request { Request(f.prof, f.v, f.a, f.j, f.vIn, f.vOut, len) }

  predicate FieldsOk(f: Fields) {
    f.v > 0.0 && f.a > 0.0 && (f.prof.Scurve? ==> f.j > 0.0) && 0.0 <= f.vIn <= f.v && 0.0 <= f.vOut <= f.v
  }

  /** wfb_prog_derive_seg's checks up to the planner, in order; None: hand it to the planner, or nothing to plan. */
  function Check(sqrt: real -> real, f: Fields, start: T.Point, l: T.Limits, c: Caps): Err {
    var len, dyaw := Length(sqrt, f, start), Heading(f, start);
    match f.atom
    case Hold => if !(0.0 <= f.p0 <= c.tMax) then Time else None
    case Line =>
      if Abs(f.p3) > 180.0 then Range
      else if !InBox(l, f.p0, f.p1, f.p2) then Bounds
      else if len < LEN_EPS then (if Abs(dyaw) > 0.5 || f.vIn != 0.0 || f.vOut != 0.0 then Range else None)
      else if !FieldsOk(f) then Range
      else if f.v > l.vMax || f.a > c.aMax || (f.prof.Scurve? && f.j > c.jMax) then Speed
      else if Abs(dyaw) / len * f.v > c.yawRateMax then Speed
      else None
    case Turn =>
      if Abs(f.p0) > 180.0 then Range
      else if len < LEN_EPS then (if f.vIn == 0.0 && f.vOut == 0.0 then None else Range)
      else if !FieldsOk(f) then Range
      else if f.v > c.yawRateMax || f.a > c.yawAccMax then Speed
      else None
  }

  predicate Planless(sqrt: real -> real, f: Fields, start: T.Point) { f.atom.Hold? || Length(sqrt, f, start) < LEN_EPS }

  /** wfb_prog_derive_seg's verdict: the first check to fail, or the planner's refusal. */
  function SegErr(sqrt: real -> real, l: T.Limits, c: Caps, f: Fields, start: T.Point): Err {
    var early := Check(sqrt, f, start, l, c);
    if !early.None? then early
    else if Planless(sqrt, f, start) then None
    else if Plannable(sqrt, RequestOf(f, Length(sqrt, f, start))) then None
    else Range
  }

  /** A segment as wfb_prog_derive_seg fills it in: a rest, a snap or a planned motion. */
  function Derived(sqrt: real -> real, f: Fields, start: T.Point, t0: real): Seg {
    var sg := Seg(f, start, t0, 0.0, Heading(f, start), Snap);
    if f.atom.Hold? then sg.(travel := Rest(f.p0))
    else if Planless(sqrt, f, start) then (if f.atom.Turn? then sg.(dyaw := 0.0) else sg)
    else
      var q := RequestOf(f, Length(sqrt, f, start));
      if MotionOk(q) then sg.(len := q.len, travel := Move(MotionAt(sqrt, q, CruiseSpeed(sqrt, q)))) else sg
  }

  /** A segment that was accepted. */
  ghost predicate Accepted(sqrt: real -> real, l: T.Limits, c: Caps, sg: Seg) {
    SegErr(sqrt, l, c, sg.f, sg.start).None? && sg == Derived(sqrt, sg.f, sg.start, sg.t0)
  }

  /** What a caller can tell from the fields and the start: the segment takes no time. */
  predicate Timeless(sqrt: real -> real, f: Fields, start: T.Point) {
    if f.atom.Hold? then f.p0 == 0.0
    else Planless(sqrt, f, start) || (var q := RequestOf(f, Length(sqrt, f, start)); MotionOk(q) && !HasPace(sqrt, q))
  }

  // ---------- poses ----------

  function PathAt(sg: Seg, t: real): real { if sg.travel.Move? then PathS(sg.travel.m, t) else 0.0 }

  /** wfb_prog_seg_pose */
  function Pose(sg: Seg, s: real): T.Point {
    var u := if sg.len > 0.0 then s / sg.len else 1.0;
    match sg.f.atom
    case Hold => sg.start
    case Line => T.Point(T.Mix(sg.start.x, sg.f.p0, u), T.Mix(sg.start.y, sg.f.p1, u), T.Mix(sg.start.z, sg.f.p2, u), sg.start.yaw + sg.dyaw * u, 0.0)
    case Turn => sg.start.(yaw := sg.start.yaw + sg.dyaw * u)
  }

  function EndOf(sg: Seg): T.Point {
    var p := Pose(sg, sg.len);
    p.(yaw := Wrap(p.yaw), t := 0.0)
  }

  /** The whole program, chained from the hover point. */
  ghost predicate Chained(sqrt: real -> real, l: T.Limits, c: Caps, hover: real, segs: seq<Seg>) {
    IsSqrt(sqrt) &&
    (forall k {:trigger AcceptedAt(sqrt, l, c, segs, k)} :: 0 <= k < |segs| ==> AcceptedAt(sqrt, l, c, segs, k)) &&
    (segs != [] ==> segs[0].start == T.Point(0.0, 0.0, hover, 0.0, 0.0) && segs[0].t0 == 0.0) &&
    (forall k {:trigger Joined(segs, k)} :: 0 <= k < |segs| - 1 ==> Joined(segs, k))
  }

  ghost predicate AcceptedAt(sqrt: real -> real, l: T.Limits, c: Caps, segs: seq<Seg>, k: nat)
    requires k < |segs|
  {
    Accepted(sqrt, l, c, segs[k])
  }

  predicate Joined(segs: seq<Seg>, k: nat)
    requires k + 1 < |segs|
  {
    segs[k + 1].start == EndOf(segs[k]) && segs[k + 1].t0 == segs[k].t0 + Dur(segs[k])
  }

  function Total(segs: seq<Seg>): real { if segs == [] then 0.0 else segs[|segs| - 1].t0 + Dur(segs[|segs| - 1]) }

  /** Segment k is the one flown at time t. */
  predicate Flown(segs: seq<Seg>, k: nat, t: real) {
    k < |segs| && segs[k].t0 <= t && (k + 1 < |segs| ==> t < segs[k + 1].t0)
  }

  /** The last of the first n segments to have started. */
  function SegmentAt(segs: seq<Seg>, t: real, n: nat): (k: nat)
    requires 0 < n <= |segs| && segs[0].t0 <= t
    ensures k < n && segs[k].t0 <= t && (k + 1 < n ==> t < segs[k + 1].t0)
  {
    if n == 1 || segs[n - 1].t0 <= t then n - 1 else SegmentAt(segs, t, n - 1)
  }

  /** The pose flown at time t, relative to the heading at the start; it depends on nothing else. */
  function PoseAt(segs: seq<Seg>, t: real): T.Point
    requires segs != [] && segs[0].t0 == 0.0
  {
    if t >= Total(segs) then Pose(segs[|segs| - 1], segs[|segs| - 1].len)
    else
      var t1 := if t < 0.0 then 0.0 else t;
      var k := SegmentAt(segs, t1, |segs|);
      Pose(segs[k], PathAt(segs[k], t1 - segs[k].t0))
  }

  /** A planned motion of the segment's own request. */
  ghost predicate MoveOf(sqrt: real -> real, sg: Seg) {
    sg.travel.Move? && Planned(sqrt, RequestOf(sg.f, sg.len), sg.travel.m.vc) &&
    sg.travel.m == MotionAt(sqrt, RequestOf(sg.f, sg.len), sg.travel.m.vc)
  }

  lemma MovesAreOwn(sqrt: real -> real, l: T.Limits, c: Caps, sg: Seg)
    requires IsSqrt(sqrt) && Accepted(sqrt, l, c, sg)
    ensures sg.travel.Move? ==> MoveOf(sqrt, sg) && sg.len > 0.0 && !sg.f.atom.Hold?
    ensures sg.f.atom.Hold? <==> sg.travel.Rest?
    ensures sg.travel.Rest? ==> sg.travel.dwell >= 0.0
    ensures !sg.travel.Move? ==> sg.len == 0.0
  {
    hide MotionAt, CruiseSpeed, RampDist, Length, Heading, Fastest;
    if sg.travel.Move? {
      var q := RequestOf(sg.f, Length(sqrt, sg.f, sg.start));
      FastestAt(sqrt, q);
      MotionSpeed(sqrt, q, CruiseSpeed(sqrt, q));
    }
  }

  lemma FastestAt(sqrt: real -> real, q: Request)
    requires IsSqrt(sqrt) && MotionOk(q) && Plannable(sqrt, q)
    ensures Planned(sqrt, q, CruiseSpeed(sqrt, q)) && (CruiseSpeed(sqrt, q) > 0.0 <==> HasPace(sqrt, q))
  {
    hide CruiseSpeed, Planned;
    CruiseIsFastest(sqrt, q);
  }

  lemma MotionSpeed(sqrt: real -> real, q: Request, vc: real)
    requires MotionOk(q)
    ensures MotionAt(sqrt, q, vc).vc == vc
  {
  }

  /** What acceptance says of a LINE that takes time. */
  lemma LineFacts(sqrt: real -> real, l: T.Limits, c: Caps, sg: Seg)
    requires IsSqrt(sqrt) && Accepted(sqrt, l, c, sg) && sg.f.atom.Line? && sg.travel.Move?
    ensures sg.len >= LEN_EPS && sg.len == T.Distance(sqrt, sg.start, Target(sg.f))
    ensures MoveOf(sqrt, sg) && sg.travel.m.vc <= l.vMax
  {
    MovesAreOwn(sqrt, l, c, sg);
    hide MotionAt, CruiseSpeed, RampDist;
  }

  lemma MoveOfFacts(sqrt: real -> real, sg: Seg, t1: real, t2: real)
    requires IsSqrt(sqrt) && MoveOf(sqrt, sg) && t1 <= t2
    ensures PathS(sg.travel.m, 0.0) == 0.0 && sg.travel.m.dur >= 0.0 && 0.0 <= PathS(sg.travel.m, t1) <= sg.len
    ensures sg.travel.m.vc > 0.0 ==> PathS(sg.travel.m, sg.travel.m.dur) == sg.len
    ensures sg.travel.m.vc > 0.0 ==> 0.0 <= PathS(sg.travel.m, t2) - PathS(sg.travel.m, t1) <= sg.travel.m.vc * (t2 - t1)
  {
    hide MotionAt, PathS, RampDist, RampTime;
    var q, vc := RequestOf(sg.f, sg.len), sg.travel.m.vc;
    MoveStarts(sqrt, q, vc);
    MoveFacts(sqrt, q, vc, t1);
    if vc > 0.0 { PathMoves(sqrt, q, vc, t1, t2); }
  }

  // ---------- one segment: in the box, and no faster than allowed ----------

  lemma PathRange(sqrt: real -> real, l: T.Limits, c: Caps, sg: Seg, t: real)
    requires IsSqrt(sqrt) && Accepted(sqrt, l, c, sg)
    ensures 0.0 <= PathAt(sg, t) <= sg.len && Dur(sg) >= 0.0
  {
    hide Accepted, MoveOf, PathS;
    MovesAreOwn(sqrt, l, c, sg);
    if sg.travel.Move? { MoveOfFacts(sqrt, sg, t, t); }
  }

  /** The time an accepted segment takes, from what was uploaded. */
  lemma TakesNoTime(sqrt: real -> real, l: T.Limits, c: Caps, sg: Seg)
    requires IsSqrt(sqrt) && Accepted(sqrt, l, c, sg)
    ensures Dur(sg) == 0.0 <==> Timeless(sqrt, sg.f, sg.start)
  {
    hide MotionAt, CruiseSpeed, RampDist, Length, Heading, Planned;
    if sg.travel.Move? {
      var q := RequestOf(sg.f, sg.len);
      FastestAt(sqrt, q);
      MoveTakesTime(sqrt, q, CruiseSpeed(sqrt, q));
    }
  }

  lemma MoveTakesTime(sqrt: real -> real, q: Request, vc: real)
    requires IsSqrt(sqrt) && Planned(sqrt, q, vc)
    ensures MotionAt(sqrt, q, vc).dur > 0.0 <==> vc > 0.0
    ensures MotionAt(sqrt, q, vc).dur >= 0.0
  {
    if vc > 0.0 { PathMoves(sqrt, q, vc, 0.0, 0.0); } else { NoSpeedJumps(sqrt, q, 1.0); }
    hide MotionAt, PathS;
  }

  lemma MoveFacts(sqrt: real -> real, q: Request, vc: real, t: real)
    requires IsSqrt(sqrt) && Planned(sqrt, q, vc)
    ensures var m := MotionAt(sqrt, q, vc); 0.0 <= PathS(m, t) <= q.len && m.dur >= 0.0
    ensures var m := MotionAt(sqrt, q, vc); vc > 0.0 ==> PathS(m, 0.0) == 0.0 && PathS(m, m.dur) == q.len && m.dur > 0.0
  {
    if vc > 0.0 {
      PathMoves(sqrt, q, vc, t, t);
      hide MotionAt, PathS;
    } else {
      if t > 0.0 { NoSpeedJumps(sqrt, q, t); } else { NoSpeedJumps(sqrt, q, 1.0); StillAtStart(sqrt, q, t); }
      hide MotionAt, PathS;
    }
  }

  lemma StillAtStart(sqrt: real -> real, q: Request, t: real)
    requires MotionOk(q) && t <= 0.0
    ensures PathS(MotionAt(sqrt, q, 0.0), t) == 0.0
  {
  }

  /** A share of a LINE from a start in the box stays in the box. */
  lemma PoseInBox(sqrt: real -> real, l: T.Limits, c: Caps, sg: Seg, s: real)
    requires IsSqrt(sqrt) && Accepted(sqrt, l, c, sg) && PointInBox(l, sg.start) && 0.0 <= s <= sg.len
    ensures PointInBox(l, Pose(sg, s))
  {
    if sg.f.atom.Line? {
      var u := if sg.len > 0.0 then s / sg.len else 1.0;
      if sg.len > 0.0 { Ratio(s, s, sg.len); }
      hide T.Mix, Planned, MotionAt;
      T.MixRange(sg.start.x, sg.f.p0, u, -l.xAbs, l.xAbs);
      T.MixRange(sg.start.y, sg.f.p1, u, -l.yAbs, l.yAbs);
      T.MixRange(sg.start.z, sg.f.p2, u, l.zMin, l.zMax);
    }
  }

  lemma {:induction false} StartsInBox(sqrt: real -> real, l: T.Limits, c: Caps, hover: real, segs: seq<Seg>, i: nat, k: nat)
    requires Chained(sqrt, l, c, hover, segs) && i <= k < |segs| && PointInBox(l, segs[i].start)
    ensures PointInBox(l, segs[k].start)
    decreases k
  {
    hide Accepted, PointInBox, EndOf;
    if i < k {
      StartsInBox(sqrt, l, c, hover, segs, i, k - 1);
      assert Joined(segs, k - 1);
      assert AcceptedAt(sqrt, l, c, segs, k - 1);
      EndInBox(sqrt, l, c, segs[k - 1]);
    }
  }

  lemma EndInBox(sqrt: real -> real, l: T.Limits, c: Caps, sg: Seg)
    requires IsSqrt(sqrt) && Accepted(sqrt, l, c, sg) && PointInBox(l, sg.start)
    ensures PointInBox(l, EndOf(sg)) && PointInBox(l, Pose(sg, sg.len))
  {
    PathRange(sqrt, l, c, sg, 0.0);
    PoseInBox(sqrt, l, c, sg, sg.len);
    hide Pose;
  }

  // ---------- times ----------

  lemma {:induction false} TimesRise(sqrt: real -> real, l: T.Limits, c: Caps, hover: real, segs: seq<Seg>, j: nat, k: nat)
    requires Chained(sqrt, l, c, hover, segs) && j <= k < |segs|
    ensures segs[j].t0 <= segs[k].t0 && (j < k ==> segs[j].t0 + Dur(segs[j]) <= segs[k].t0) && segs[k].t0 + Dur(segs[k]) <= Total(segs)
    decreases |segs| - j, k
  {
    hide Accepted, EndOf, Dur;
    if j < k {
      assert Joined(segs, j);
      TimesRise(sqrt, l, c, hover, segs, j + 1, k);
      assert AcceptedAt(sqrt, l, c, segs, j);
      PathRange(sqrt, l, c, segs[j], 0.0);
    } else if k + 1 < |segs| {
      assert Joined(segs, k);
      TimesRise(sqrt, l, c, hover, segs, k + 1, k + 1);
      assert AcceptedAt(sqrt, l, c, segs, k + 1);
      PathRange(sqrt, l, c, segs[k + 1], 0.0);
    }
  }

  /** Which segment is flown does not depend on how it was searched for. */
  lemma FlownUnique(sqrt: real -> real, l: T.Limits, c: Caps, hover: real, segs: seq<Seg>, j: nat, k: nat, t: real)
    requires Chained(sqrt, l, c, hover, segs) && Flown(segs, j, t) && Flown(segs, k, t)
    ensures j == k
  {
    hide Accepted, EndOf, Dur, Joined;
    if j < k { TimesRise(sqrt, l, c, hover, segs, j + 1, k); }
    if k < j { TimesRise(sqrt, l, c, hover, segs, k + 1, j); }
  }

  lemma StartsAtStart(sqrt: real -> real, l: T.Limits, c: Caps, sg: Seg)
    requires IsSqrt(sqrt) && Accepted(sqrt, l, c, sg) && (Dur(sg) > 0.0 || !sg.f.atom.Line?)
    ensures SamePlace(Pose(sg, PathAt(sg, 0.0)), sg.start)
  {
    MovesAreOwn(sqrt, l, c, sg);
    hide Accepted, MoveOf, PathS;
    if sg.travel.Move? { MoveOfFacts(sqrt, sg, 0.0, 0.0); }
    PosesAtZero(sg);
    assert PathAt(sg, 0.0) == 0.0;
  }

  /** With length, the start of the path is the start pose. */
  lemma PosesAtZero(sg: Seg)
    ensures sg.len > 0.0 || !sg.f.atom.Line? ==> SamePlace(Pose(sg, 0.0), sg.start)
  {
    if sg.len > 0.0 { assert 0.0 / sg.len == 0.0; }
  }

  lemma MoveStarts(sqrt: real -> real, q: Request, vc: real)
    requires MotionOk(q)
    ensures PathS(MotionAt(sqrt, q, vc), 0.0) == 0.0
  {
  }

  // ---------- the limit box ----------

  /** The pose before the program has moved. */
  function FirstPose(segs: seq<Seg>): T.Point
    requires segs != [] && segs[0].t0 == 0.0
  {
    PoseAt(segs, -1.0)
  }

  /** The segment flown from time 0 on. */
  lemma OpensWith(sqrt: real -> real, l: T.Limits, c: Caps, hover: real, segs: seq<Seg>) returns (k: nat)
    requires Chained(sqrt, l, c, hover, segs) && segs != []
    ensures segs[0].t0 == 0.0 && k == SegmentAt(segs, 0.0, |segs|) && k < |segs| && segs[k].t0 == 0.0
    ensures FirstPose(segs) == Pose(segs[k], PathAt(segs[k], 0.0))
    ensures if Total(segs) > 0.0 then Dur(segs[k]) > 0.0 && FirstPose(segs) == PoseAt(segs, 0.0) else k == |segs| - 1
  {
    hide Accepted, EndOf, Dur, Joined, Pose, PathAt;
    TotalIs(sqrt, l, c, hover, segs);
    k := SegmentAt(segs, 0.0, |segs|);
    TimesRise(sqrt, l, c, hover, segs, 0, k);
    ChainLink(sqrt, l, c, hover, segs, k);
    if k + 1 == |segs| { assert Total(segs) == Dur(segs[k]); }
    if Total(segs) <= 0.0 { assert segs[|segs| - 1].t0 <= 0.0; }
  }

  /** The last of the first n segments to be a LINE, or -1. */
  function LastLine(segs: seq<Seg>, n: nat): (i: int)
    requires n <= |segs|
    ensures -1 <= i < n && (i >= 0 ==> segs[i].f.atom.Line?) && forall m :: i < m < n ==> !segs[m].f.atom.Line?
  {
    if n == 0 || segs[n - 1].f.atom.Line? then n - 1 else LastLine(segs, n - 1)
  }

  /** Where segment k starts: where the last LINE before it goes, or at the hover point if there is none. */
  function StartPlace(hover: real, segs: seq<Seg>, k: nat): T.Point
    requires k <= |segs|
  {
    if LastLine(segs, k) >= 0 then Target(segs[LastLine(segs, k)].f) else T.Point(0.0, 0.0, hover, 0.0, 0.0)
  }

  lemma {:induction false} StartsThere(sqrt: real -> real, l: T.Limits, c: Caps, hover: real, segs: seq<Seg>, k: nat)
    requires Chained(sqrt, l, c, hover, segs) && k < |segs|
    ensures SamePlace(segs[k].start, StartPlace(hover, segs, k))
    decreases k
  {
    hide Accepted, Wrap, Dur, T.Mix;
    if k > 0 {
      StartsThere(sqrt, l, c, hover, segs, k - 1);
      assert Joined(segs, k - 1);
      EndIsPose(segs[k - 1]);
      if segs[k - 1].f.atom.Line? { LineEnd(segs[k - 1]); } else { NoLinePose(segs[k - 1], 0.0); }
    }
  }

  /** A program that takes time begins where its opening segments, those that take none, have left it. */
  lemma BeginsThere(sqrt: real -> real, l: T.Limits, c: Caps, hover: real, segs: seq<Seg>)
    requires Chained(sqrt, l, c, hover, segs) && segs != [] && Total(segs) > 0.0
    ensures segs[0].t0 == 0.0 && SamePlace(PoseAt(segs, 0.0), StartPlace(hover, segs, SegmentAt(segs, 0.0, |segs|)))
  {
    hide Chained, Accepted, PoseAt, StartPlace, PathAt, Pose, FirstPose;
    var k := OpensWith(sqrt, l, c, hover, segs);
    ChainLink(sqrt, l, c, hover, segs, k);
    StartsAtStart(sqrt, l, c, segs[k]);
    StartsThere(sqrt, l, c, hover, segs, k);
  }

  /** Every sample of a program lies in the limit box if and only if the first does: no LINE leaves the box, and a LINE
      brings the craft into it wherever it starts. */
  lemma ProgramInBox(sqrt: real -> real, l: T.Limits, c: Caps, hover: real, segs: seq<Seg>)
    requires Chained(sqrt, l, c, hover, segs) && segs != []
    ensures (forall t: real {:trigger PoseAt(segs, t)} :: PointInBox(l, PoseAt(segs, t))) <==> PointInBox(l, FirstPose(segs))
    ensures Total(segs) > 0.0 ==> FirstPose(segs) == PoseAt(segs, 0.0)
  {
    var k := OpensWith(sqrt, l, c, hover, segs);
    hide PointInBox, Chained;
    if PointInBox(l, FirstPose(segs)) {
      forall t: real ensures PointInBox(l, PoseAt(segs, t)) { StaysInBox(sqrt, l, c, hover, segs, t); }
    }
  }

  lemma StaysInBox(sqrt: real -> real, l: T.Limits, c: Caps, hover: real, segs: seq<Seg>, t: real)
    requires Chained(sqrt, l, c, hover, segs) && segs != [] && PointInBox(l, FirstPose(segs))
    ensures PointInBox(l, PoseAt(segs, t))
  {
    hide Accepted, PointInBox, Pose, PathAt, EndOf, Dur, Joined;
    var k := OpensWith(sqrt, l, c, hover, segs);
    var last := |segs| - 1;
    ChainLink(sqrt, l, c, hover, segs, k);
    ChainLink(sqrt, l, c, hover, segs, last);
    if Total(segs) > 0.0 {
      StartsAtStart(sqrt, l, c, segs[k]);
      SamePlaceInBox(l, FirstPose(segs), segs[k].start);
      OpensFirst(sqrt, l, c, hover, segs, t);
      SampleFrom(sqrt, l, c, hover, segs, k, t);
    } else {
      TotalIs(sqrt, l, c, hover, segs);
      if t >= Total(segs) { LastInBox(sqrt, l, c, segs[last], PathAt(segs[last], 0.0)); }
    }
  }

  lemma OpensFirst(sqrt: real -> real, l: T.Limits, c: Caps, hover: real, segs: seq<Seg>, t: real)
    requires Chained(sqrt, l, c, hover, segs) && segs != []
    ensures segs[0].t0 == 0.0 && SegmentAt(segs, 0.0, |segs|) <= PlaceOf(segs, t)
  {
    hide Accepted, EndOf, Dur, Joined;
    TotalIs(sqrt, l, c, hover, segs);
    var i, k := SegmentAt(segs, 0.0, |segs|), PlaceOf(segs, t);
    if k < i { TimesRise(sqrt, l, c, hover, segs, k + 1, i); }
  }

  lemma SamePlaceInBox(l: T.Limits, p: T.Point, q: T.Point)
    requires SamePlace(p, q)
    ensures PointInBox(l, p) <==> PointInBox(l, q)
  {
  }

  /** A LINE ends in the box; any other segment stays where it is. */
  lemma LastInBox(sqrt: real -> real, l: T.Limits, c: Caps, sg: Seg, s: real)
    requires Accepted(sqrt, l, c, sg) && PointInBox(l, Pose(sg, s))
    ensures PointInBox(l, Pose(sg, sg.len))
  {
    hide Accepted, PointInBox, Pose;
    if sg.f.atom.Line? {
      LineTarget(sqrt, l, c, sg);
      LineEnd(sg);
      SamePlaceInBox(l, Pose(sg, sg.len), Target(sg.f));
    } else {
      NoLinePose(sg, s);
      SamePlaceInBox(l, Pose(sg, s), Pose(sg, sg.len));
    }
  }

  lemma LineTarget(sqrt: real -> real, l: T.Limits, c: Caps, sg: Seg)
    requires Accepted(sqrt, l, c, sg) && sg.f.atom.Line?
    ensures PointInBox(l, Target(sg.f))
  {
    hide Derived, Plannable, T.Distance;
  }

  lemma LineEnd(sg: Seg)
    requires sg.f.atom.Line?
    ensures SamePlace(Pose(sg, sg.len), Target(sg.f))
  {
    if sg.len > 0.0 { assert sg.len / sg.len == 1.0; }
  }

  lemma NoLinePose(sg: Seg, s: real)
    requires !sg.f.atom.Line?
    ensures SamePlace(Pose(sg, s), Pose(sg, sg.len))
  {
  }

  /** With segment i starting in the box, so is every sample from it on. */
  lemma SampleFrom(sqrt: real -> real, l: T.Limits, c: Caps, hover: real, segs: seq<Seg>, i: nat, t: real)
    requires Chained(sqrt, l, c, hover, segs) && i < |segs| && PointInBox(l, segs[i].start) && segs[0].t0 == 0.0
    requires i <= PlaceOf(segs, t)
    ensures PointInBox(l, PoseAt(segs, t))
  {
    hide Accepted, PointInBox, Pose, PathAt, EndOf;
    var k := PlaceOf(segs, t);
    StartsInBox(sqrt, l, c, hover, segs, i, k);
    assert AcceptedAt(sqrt, l, c, segs, k);
    if t >= Total(segs) {
      EndInBox(sqrt, l, c, segs[k]);
    } else {
      var a := (if t < 0.0 then 0.0 else t) - segs[k].t0;
      PathRange(sqrt, l, c, segs[k], a);
      PoseInBox(sqrt, l, c, segs[k], PathAt(segs[k], a));
    }
  }

  /** With the hover point in the box, every sample of a program is. */
  lemma SampleInBox(sqrt: real -> real, l: T.Limits, c: Caps, hover: real, segs: seq<Seg>, t: real)
    requires Chained(sqrt, l, c, hover, segs) && segs != [] && InBox(l, 0.0, 0.0, hover)
    ensures PointInBox(l, PoseAt(segs, t))
  {
    SampleFrom(sqrt, l, c, hover, segs, 0, t);
  }

  // ---------- speed ----------

  /** A LINE that takes time was planned with some speed. */
  lemma TimedMoves(sqrt: real -> real, l: T.Limits, c: Caps, sg: Seg)
    requires IsSqrt(sqrt) && Accepted(sqrt, l, c, sg) && Dur(sg) > 0.0
    ensures sg.f.atom.Line? ==> sg.travel.Move? && sg.travel.m.vc > 0.0
  {
    MovesAreOwn(sqrt, l, c, sg);
    hide Accepted, MotionAt, Planned;
    if sg.travel.Move? { MoveTakesTime(sqrt, RequestOf(sg.f, sg.len), sg.travel.m.vc); }
  }

  /** The positions s1 and s2 along a segment are s2 - s1 apart on a LINE, and the same elsewhere. */
  lemma AlongLine(sqrt: real -> real, sg: Seg, s1: real, s2: real)
    requires IsSqrt(sqrt) && (sg.f.atom.Line? ==> sg.len > 0.0 && sg.len == T.Distance(sqrt, sg.start, Target(sg.f)))
    ensures T.DistSquare(Pose(sg, s1), Pose(sg, s2)) == if sg.f.atom.Line? then (s2 - s1) * (s2 - s1) else 0.0
  {
    if sg.f.atom.Line? {
      OnLine(sqrt, sg, s1, s2);
    }
  }

  lemma OnLine(sqrt: real -> real, sg: Seg, s1: real, s2: real)
    requires IsSqrt(sqrt) && sg.f.atom.Line? && sg.len > 0.0 && sg.len == T.Distance(sqrt, sg.start, Target(sg.f))
    ensures T.DistSquare(Pose(sg, s1), Pose(sg, s2)) == (s2 - s1) * (s2 - s1)
  {
    hide T.DistSquare, Pose, T.Between, T.Distance;
    var f, g, p, q := s1 / sg.len, s2 / sg.len, sg.start, Target(sg.f);
    LengthSquare(sqrt, p, q);
    T.ShareOf(p, q, f, g, 0.0, 0.0);
    PosesAreShares(sg, s1, s2);
    assert (g - f) * sg.len == s2 - s1;
    T.Squares(g - f, sg.len);
  }

  lemma LengthSquare(sqrt: real -> real, p: T.Point, q: T.Point)
    requires IsSqrt(sqrt)
    ensures T.Distance(sqrt, p, q) * T.Distance(sqrt, p, q) == T.DistSquare(p, q) && T.Distance(sqrt, p, q) >= 0.0
  {
    T.SquareSign(q.x - p.x, q.y - p.y, q.z - p.z);
  }

  lemma PosesAreShares(sg: Seg, s1: real, s2: real)
    requires sg.f.atom.Line? && sg.len > 0.0
    ensures T.DistSquare(Pose(sg, s1), Pose(sg, s2)) ==
      T.DistSquare(T.Between(sg.start, Target(sg.f), s1 / sg.len, 0.0), T.Between(sg.start, Target(sg.f), s2 / sg.len, 0.0))
  {
    hide T.Mix, T.YawMix, T.Square3;
  }

  /** Within one segment. */
  lemma SegmentPaced(sqrt: real -> real, l: T.Limits, c: Caps, sg: Seg, t1: real, t2: real)
    requires IsSqrt(sqrt) && Accepted(sqrt, l, c, sg) && t1 <= t2 && l.vMax >= 0.0 && Dur(sg) > 0.0
    ensures T.Near(Pose(sg, PathAt(sg, t1)), Pose(sg, PathAt(sg, t2)), T.Reach(l, t1, t2))
  {
    hide Accepted, Pose, PathAt, T.DistSquare, MoveOf, T.Distance;
    var s1, s2, d := PathAt(sg, t1), PathAt(sg, t2), T.Reach(l, t1, t2);
    assert d >= 0.0 by { MulSign(l.vMax, t2 - t1); }
    hide T.Reach;
    if sg.f.atom.Line? {
      TimedMoves(sqrt, l, c, sg);
      LineFacts(sqrt, l, c, sg);
      LineSpeed(sqrt, l, c, sg, t1, t2);
    }
    AlongLine(sqrt, sg, s1, s2);
    if sg.f.atom.Line? { T.ProductBound(s2 - s1, d, s2 - s1, d); } else { MulSign(d, d); }
  }

  lemma LineSpeed(sqrt: real -> real, l: T.Limits, c: Caps, sg: Seg, t1: real, t2: real)
    requires IsSqrt(sqrt) && Accepted(sqrt, l, c, sg) && t1 <= t2
    requires sg.f.atom.Line? && sg.travel.Move? && sg.travel.m.vc > 0.0
    ensures sg.len > 0.0 && 0.0 <= PathAt(sg, t2) - PathAt(sg, t1) <= T.Reach(l, t1, t2)
  {
    hide Accepted, MoveOf, PathS, T.Distance;
    LineFacts(sqrt, l, c, sg);
    MoveOfFacts(sqrt, sg, t1, t2);
    Slower(PathAt(sg, t2) - PathAt(sg, t1), sg.travel.m.vc, l.vMax, t2 - t1);
  }

  /** Where a segment starts and where it ends, as samples of it. */
  lemma SegmentEnds(sqrt: real -> real, l: T.Limits, c: Caps, sg: Seg)
    requires IsSqrt(sqrt) && Accepted(sqrt, l, c, sg) && Dur(sg) > 0.0
    ensures SamePlace(Pose(sg, PathAt(sg, 0.0)), sg.start) && SamePlace(Pose(sg, PathAt(sg, Dur(sg))), EndOf(sg))
  {
    TimedMoves(sqrt, l, c, sg);
    MovesAreOwn(sqrt, l, c, sg);
    hide Accepted, MoveOf, PathS;
    if sg.travel.Move? { MoveOfFacts(sqrt, sg, 0.0, 0.0); }
    PosesAtZero(sg);
    PosesAtEnd(sg, PathAt(sg, Dur(sg)));
  }

  lemma PosesAtEnd(sg: Seg, s: real)
    requires sg.f.atom.Line? ==> s == sg.len
    ensures SamePlace(Pose(sg, s), EndOf(sg))
  {
    hide T.Mix, Wrap;
  }

  predicate SamePlace(p: T.Point, q: T.Point) { p.x == q.x && p.y == q.y && p.z == q.z }

  lemma SamePlaceNear(p: T.Point, p': T.Point, q: T.Point, q': T.Point, d: real)
    requires SamePlace(p, p') && SamePlace(q, q') && T.Near(p, q, d)
    ensures T.Near(p', q', d)
  {
    hide T.Square3;
  }

  lemma ChainLink(sqrt: real -> real, l: T.Limits, c: Caps, hover: real, segs: seq<Seg>, k: nat)
    requires Chained(sqrt, l, c, hover, segs) && k < |segs|
    ensures IsSqrt(sqrt) && Accepted(sqrt, l, c, segs[k])
    ensures k + 1 < |segs| ==> segs[k + 1].start == EndOf(segs[k]) && segs[k + 1].t0 == segs[k].t0 + Dur(segs[k])
  {
    hide Accepted, EndOf, Dur;
    assert AcceptedAt(sqrt, l, c, segs, k);
    if k + 1 < |segs| { assert Joined(segs, k); }
  }

  lemma StandStill(l: T.Limits, p: T.Point, t: real)
    ensures T.Near(p, p, T.Reach(l, t, t))
  {
  }

  /** From a sample of a segment to its end, in program time. */
  lemma LegPaced(sqrt: real -> real, l: T.Limits, c: Caps, sg: Seg, t: real, from: real)
    requires IsSqrt(sqrt) && Accepted(sqrt, l, c, sg) && 0.0 <= t <= Dur(sg) && Dur(sg) > 0.0 && l.vMax >= 0.0 && from == sg.t0
    ensures T.Near(Pose(sg, PathAt(sg, t)), EndOf(sg), T.Reach(l, from + t, from + Dur(sg)))
    ensures T.Near(sg.start, Pose(sg, PathAt(sg, t)), T.Reach(l, from, from + t))
    ensures T.Near(sg.start, EndOf(sg), T.Reach(l, from, from + Dur(sg)))
  {
    hide Accepted, Pose, PathAt, EndOf, Dur, SamePlace, T.Near, T.Reach;
    SegmentEnds(sqrt, l, c, sg);
    SegmentPaced(sqrt, l, c, sg, t, Dur(sg));
    SegmentPaced(sqrt, l, c, sg, 0.0, t);
    SegmentPaced(sqrt, l, c, sg, 0.0, Dur(sg));
    var p, q := Pose(sg, PathAt(sg, t)), Pose(sg, PathAt(sg, Dur(sg)));
    var o := Pose(sg, PathAt(sg, 0.0));
    ReachShift(l, t, Dur(sg), from);
    ReachShift(l, 0.0, t, from);
    ReachShift(l, 0.0, Dur(sg), from);
    Itself(p);
    SamePlaceNear(p, p, q, EndOf(sg), T.Reach(l, t, Dur(sg)));
    SamePlaceNear(o, sg.start, p, p, T.Reach(l, 0.0, t));
    SamePlaceNear(o, sg.start, q, EndOf(sg), T.Reach(l, 0.0, Dur(sg)));
  }

  lemma ReachShift(l: T.Limits, s: real, t: real, by_: real)
    ensures T.Reach(l, by_ + s, by_ + t) == T.Reach(l, s, t)
  {
    assert (by_ + t) - (by_ + s) == t - s;
  }

  /** The pose flown at t is a sample of the segment named by PlaceOf, at a local time within it. */
  function PlaceOf(segs: seq<Seg>, t: real): nat
    requires segs != [] && segs[0].t0 == 0.0
  {
    if t >= Total(segs) then |segs| - 1 else SegmentAt(segs, if t < 0.0 then 0.0 else t, |segs|)
  }

  lemma TotalIs(sqrt: real -> real, l: T.Limits, c: Caps, hover: real, segs: seq<Seg>)
    requires Chained(sqrt, l, c, hover, segs) && segs != []
    ensures segs[0].t0 == 0.0 <= Total(segs) && Total(segs) == segs[|segs| - 1].t0 + Dur(segs[|segs| - 1])
    ensures Dur(segs[|segs| - 1]) >= 0.0
  {
    hide Accepted, Dur, Joined;
    TimesRise(sqrt, l, c, hover, segs, 0, |segs| - 1);
    assert AcceptedAt(sqrt, l, c, segs, |segs| - 1);
    PathRange(sqrt, l, c, segs[|segs| - 1], 0.0);
  }

  lemma EndIsPose(sg: Seg)
    ensures SamePlace(EndOf(sg), Pose(sg, sg.len))
  {
  }

  lemma SameSame(p: T.Point, q: T.Point)
    ensures SamePlace(p, q) <==> SamePlace(q, p)
  {
  }

  /** Segments j to k together take no time, after one that does and before one that does, or at the program's end. When
      the whole program takes no time, the last segment alone, if it moves: it is at its start before time 0. */
  predicate Instant(segs: seq<Seg>, j: nat, k: nat) {
    j <= k < |segs| && segs[k].t0 + Dur(segs[k]) == segs[j].t0 && (k + 1 < |segs| ==> Dur(segs[k + 1]) > 0.0) &&
    if Total(segs) > 0.0 then j > 0 && Dur(segs[j - 1]) > 0.0 else j == |segs| - 1 && segs[j].travel.Move?
  }

  /** What happens at one instant leads nowhere. */
  ghost predicate Seamless(segs: seq<Seg>) {
    forall j: nat, k: nat {:trigger Instant(segs, j, k)} :: Instant(segs, j, k) ==> SamePlace(segs[j].start, EndOf(segs[k]))
  }

  /** Any two samples are no further apart than v_max allows. */
  ghost predicate Paced(l: T.Limits, segs: seq<Seg>)
    requires segs != [] && segs[0].t0 == 0.0
  {
    forall t1, t2 {:trigger PoseAt(segs, t1), PoseAt(segs, t2)} :: t1 <= t2 ==> T.Near(PoseAt(segs, t1), PoseAt(segs, t2), T.Reach(l, t1, t2))
  }

  /** The last of the first n segments to take time, or -1. */
  function LastTimed(segs: seq<Seg>, n: nat): (i: int)
    requires n <= |segs|
    ensures -1 <= i < n && (i >= 0 ==> Dur(segs[i]) > 0.0) && forall m :: i < m < n ==> Dur(segs[m]) <= 0.0
  {
    if n == 0 || Dur(segs[n - 1]) > 0.0 then n - 1 else LastTimed(segs, n - 1)
  }

  /** No time passes from segment i's end to segment m's start. */
  lemma {:induction false} Standing(sqrt: real -> real, l: T.Limits, c: Caps, hover: real, segs: seq<Seg>, i: nat, m: nat)
    requires Chained(sqrt, l, c, hover, segs) && i < m < |segs| && forall x :: i < x < m ==> Dur(segs[x]) <= 0.0
    ensures segs[m].t0 == segs[i].t0 + Dur(segs[i])
  {
    hide Chained, Accepted, Dur, EndOf;
    ChainLink(sqrt, l, c, hover, segs, m - 1);
    if i < m - 1 {
      Standing(sqrt, l, c, hover, segs, i, m - 1);
      PathRange(sqrt, l, c, segs[m - 1], 0.0);
    }
  }

  /** A program with a segment that takes time takes time. */
  lemma TimedTotal(sqrt: real -> real, l: T.Limits, c: Caps, hover: real, segs: seq<Seg>, i: nat)
    requires Chained(sqrt, l, c, hover, segs) && i < |segs| && Dur(segs[i]) > 0.0
    ensures Total(segs) > 0.0
  {
    hide Accepted, Dur, EndOf, Joined;
    TimesRise(sqrt, l, c, hover, segs, 0, i);
  }

  /** From one segment that takes time to the next that does. */
  lemma {:induction false} Bridge(sqrt: real -> real, l: T.Limits, c: Caps, hover: real, segs: seq<Seg>, i: nat, m: nat)
    requires Chained(sqrt, l, c, hover, segs) && Seamless(segs) && m < |segs| && i == LastTimed(segs, m) && Dur(segs[m]) > 0.0
    ensures SamePlace(EndOf(segs[i]), segs[m].start) && segs[m].t0 == segs[i].t0 + Dur(segs[i])
  {
    hide Chained, Accepted, Dur, EndOf, LastTimed;
    ChainLink(sqrt, l, c, hover, segs, i);
    Standing(sqrt, l, c, hover, segs, i, m);
    if i + 1 < m {
      ChainLink(sqrt, l, c, hover, segs, m - 1);
      TimedTotal(sqrt, l, c, hover, segs, i);
      assert Instant(segs, i + 1, m - 1);
    }
  }

  /** From the last segment that takes time to the end. */
  lemma {:induction false} Tail(sqrt: real -> real, l: T.Limits, c: Caps, hover: real, segs: seq<Seg>, i: nat)
    requires Chained(sqrt, l, c, hover, segs) && Seamless(segs) && i == LastTimed(segs, |segs|)
    ensures SamePlace(EndOf(segs[i]), EndOf(segs[|segs| - 1])) && Total(segs) == segs[i].t0 + Dur(segs[i])
  {
    hide Chained, Accepted, Dur, EndOf, LastTimed;
    var last := |segs| - 1;
    ChainLink(sqrt, l, c, hover, segs, i);
    ChainLink(sqrt, l, c, hover, segs, last);
    if i < last {
      Standing(sqrt, l, c, hover, segs, i, last);
      PathRange(sqrt, l, c, segs[last], 0.0);
      TimedTotal(sqrt, l, c, hover, segs, i);
      assert Instant(segs, i + 1, last);
    }
  }

  lemma {:induction false} SomeTimed(sqrt: real -> real, l: T.Limits, c: Caps, hover: real, segs: seq<Seg>)
    requires Chained(sqrt, l, c, hover, segs) && Total(segs) > 0.0
    ensures LastTimed(segs, |segs|) >= 0
  {
    hide Chained, Accepted, Dur, EndOf, LastTimed;
    if LastTimed(segs, |segs|) < 0 {
      TotalIs(sqrt, l, c, hover, segs);
      if |segs| > 1 {
        Standing(sqrt, l, c, hover, segs, 0, |segs| - 1);
      }
    }
  }

  /** From the end of one segment that takes time to the start of a later one that does. */
  lemma {:induction false} DepartsPaced(sqrt: real -> real, l: T.Limits, c: Caps, hover: real, segs: seq<Seg>, j: nat, m: nat)
    requires Chained(sqrt, l, c, hover, segs) && Seamless(segs) && j < m < |segs| && l.vMax >= 0.0
    requires Dur(segs[j]) > 0.0 && Dur(segs[m]) > 0.0
    ensures T.Near(EndOf(segs[j]), segs[m].start, T.Reach(l, segs[j].t0 + Dur(segs[j]), segs[m].t0))
    decreases m
  {
    hide Accepted, EndOf, T.Near, T.Reach, Chained, Seamless, Dur, LastTimed, SamePlace;
    var i := LastTimed(segs, m);
    Bridge(sqrt, l, c, hover, segs, i, m);
    var p, from, mid := EndOf(segs[j]), segs[j].t0 + Dur(segs[j]), segs[i].t0 + Dur(segs[i]);
    if i == j {
      StandStill(l, p, from);
    } else {
      DepartsPaced(sqrt, l, c, hover, segs, j, i);
      ChainLink(sqrt, l, c, hover, segs, i);
      LegPaced(sqrt, l, c, segs[i], 0.0, segs[i].t0);
      T.Triangle(p, segs[i].start, EndOf(segs[i]), T.Reach(l, from, segs[i].t0), T.Reach(l, segs[i].t0, mid));
      T.ReachAdds(l, from, segs[i].t0, mid);
    }
    Itself(p);
    SamePlaceNear(p, p, EndOf(segs[i]), segs[m].start, T.Reach(l, from, mid));
  }

  lemma Itself(p: T.Point)
    ensures SamePlace(p, p)
  {
  }

  /** The segment that shows the sample at t: the one flown, or at the end the last that took time. */
  function ShownBy(segs: seq<Seg>, t: real): int
    requires segs != [] && segs[0].t0 == 0.0
  {
    if t >= Total(segs) then LastTimed(segs, |segs|) else SegmentAt(segs, if t < 0.0 then 0.0 else t, |segs|)
  }

  lemma {:induction false} ShownIs(sqrt: real -> real, l: T.Limits, c: Caps, hover: real, segs: seq<Seg>, t: real)
    requires Chained(sqrt, l, c, hover, segs) && Seamless(segs) && segs != [] && Total(segs) > 0.0
    ensures segs[0].t0 == 0.0
    ensures var k, s := ShownBy(segs, t), T.Clamp(t, Total(segs));
      0 <= k < |segs| && Dur(segs[k]) > 0.0 && 0.0 <= s - segs[k].t0 <= Dur(segs[k]) &&
      SamePlace(PoseAt(segs, t), Pose(segs[k], PathAt(segs[k], s - segs[k].t0)))
  {
    hide Accepted, Chained, Seamless, Dur, Pose, PathAt, EndOf, LastTimed;
    TotalIs(sqrt, l, c, hover, segs);
    SomeTimed(sqrt, l, c, hover, segs);
    var k := ShownBy(segs, t);
    ChainLink(sqrt, l, c, hover, segs, k);
    if t >= Total(segs) {
      Tail(sqrt, l, c, hover, segs, k);
      SegmentEnds(sqrt, l, c, segs[k]);
      EndIsPose(segs[|segs| - 1]);
    }
  }

  lemma {:induction false} ShownInOrder(sqrt: real -> real, l: T.Limits, c: Caps, hover: real, segs: seq<Seg>, t1: real, t2: real)
    requires Chained(sqrt, l, c, hover, segs) && segs != [] && Total(segs) > 0.0 && t1 <= t2
    ensures segs[0].t0 == 0.0 && ShownBy(segs, t1) <= ShownBy(segs, t2)
  {
    hide Accepted, EndOf, Dur, Joined, LastTimed;
    TotalIs(sqrt, l, c, hover, segs);
    var j, k := ShownBy(segs, t1), ShownBy(segs, t2);
    if t2 < Total(segs) && k < j { TimesRise(sqrt, l, c, hover, segs, k + 1, j); }
    if t1 < Total(segs) <= t2 { FlownBeforeEnd(sqrt, l, c, hover, segs, j); }
  }

  /** A segment that ends after its start is not behind the last that takes time. */
  lemma {:induction false} FlownBeforeEnd(sqrt: real -> real, l: T.Limits, c: Caps, hover: real, segs: seq<Seg>, j: nat)
    requires Chained(sqrt, l, c, hover, segs) && j < |segs| && segs[j].t0 < (if j + 1 < |segs| then segs[j + 1].t0 else Total(segs))
    ensures j <= LastTimed(segs, |segs|)
  {
    hide Accepted, Chained, Dur, EndOf;
    ChainLink(sqrt, l, c, hover, segs, j);
  }

  lemma PlacesPaced(sqrt: real -> real, l: T.Limits, c: Caps, hover: real, segs: seq<Seg>, j: nat, k: nat, t1: real, t2: real)
    requires Chained(sqrt, l, c, hover, segs) && Seamless(segs) && j <= k < |segs| && l.vMax >= 0.0 && t1 <= t2
    requires Dur(segs[j]) > 0.0 && Dur(segs[k]) > 0.0
    requires 0.0 <= t1 - segs[j].t0 <= Dur(segs[j]) && 0.0 <= t2 - segs[k].t0 <= Dur(segs[k])
    ensures T.Near(Pose(segs[j], PathAt(segs[j], t1 - segs[j].t0)), Pose(segs[k], PathAt(segs[k], t2 - segs[k].t0)), T.Reach(l, t1, t2))
  {
    hide Accepted, Pose, PathAt, EndOf, T.Near, T.Reach, Dur, Seamless, Chained;
    ChainLink(sqrt, l, c, hover, segs, j);
    ChainLink(sqrt, l, c, hover, segs, k);
    var a, b := t1 - segs[j].t0, t2 - segs[k].t0;
    if j == k {
      SegmentPaced(sqrt, l, c, segs[j], a, b);
      ReachShift(l, a, b, segs[j].t0);
    } else {
      var p, q := Pose(segs[j], PathAt(segs[j], a)), Pose(segs[k], PathAt(segs[k], b));
      LegPaced(sqrt, l, c, segs[j], a, segs[j].t0);
      DepartsPaced(sqrt, l, c, hover, segs, j, k);
      LegPaced(sqrt, l, c, segs[k], b, segs[k].t0);
      var u, v := segs[j].t0 + Dur(segs[j]), segs[k].t0;
      T.Triangle(p, EndOf(segs[j]), segs[k].start, T.Reach(l, t1, u), T.Reach(l, u, v));
      T.ReachAdds(l, t1, u, v);
      T.Triangle(p, segs[k].start, q, T.Reach(l, t1, v), T.Reach(l, v, t2));
      T.ReachAdds(l, t1, v, t2);
    }
  }

  lemma SamplesPaced(sqrt: real -> real, l: T.Limits, c: Caps, hover: real, segs: seq<Seg>, t1: real, t2: real)
    requires Chained(sqrt, l, c, hover, segs) && Seamless(segs) && segs != [] && Total(segs) > 0.0 && l.vMax >= 0.0 && t1 <= t2
    ensures segs[0].t0 == 0.0 && T.Near(PoseAt(segs, t1), PoseAt(segs, t2), T.Reach(l, t1, t2))
  {
    hide Accepted, Pose, PathAt, EndOf, T.Near, T.Reach, Dur, Seamless, SamePlace, PoseAt, ShownBy;
    var top := Total(segs);
    ShownIs(sqrt, l, c, hover, segs, t1);
    ShownIs(sqrt, l, c, hover, segs, t2);
    ShownInOrder(sqrt, l, c, hover, segs, t1, t2);
    var s1, s2, j, k := T.Clamp(t1, top), T.Clamp(t2, top), ShownBy(segs, t1), ShownBy(segs, t2);
    PlacesPaced(sqrt, l, c, hover, segs, j, k, s1, s2);
    var p, q := Pose(segs[j], PathAt(segs[j], s1 - segs[j].t0)), Pose(segs[k], PathAt(segs[k], s2 - segs[k].t0));
    SameSame(p, PoseAt(segs, t1));
    SameSame(q, PoseAt(segs, t2));
    SamePlaceNear(p, PoseAt(segs, t1), q, PoseAt(segs, t2), T.Reach(l, s1, s2));
    hide Chained;
    T.ReachMono(l, s1, s2, t1, t2);
    T.NearLonger(PoseAt(segs, t1), PoseAt(segs, t2), T.Reach(l, s1, s2), T.Reach(l, t1, t2));
  }

  /** A program that takes no time shows one pose before its start and one after. */
  lemma NoTimePoses(sqrt: real -> real, l: T.Limits, c: Caps, hover: real, segs: seq<Seg>, t: real)
    requires Chained(sqrt, l, c, hover, segs) && segs != [] && Total(segs) <= 0.0
    ensures segs[0].t0 == 0.0
    ensures var sg := segs[|segs| - 1];
      SamePlace(PoseAt(segs, t), if t < 0.0 && sg.travel.Move? then sg.start else EndOf(sg))
  {
    hide Accepted, Chained, Dur, Pose, PathAt, EndOf;
    TotalIs(sqrt, l, c, hover, segs);
    var last := |segs| - 1;
    ChainLink(sqrt, l, c, hover, segs, last);
    TimesRise(sqrt, l, c, hover, segs, 0, last);
    EndIsPose(segs[last]);
    SameSame(EndOf(segs[last]), PoseAt(segs, t));
    if t < 0.0 { AtRest(sqrt, l, c, segs[last]); }
  }

  /** A segment at its local time 0: a motion is at its start, anything else already at its end. */
  lemma AtRest(sqrt: real -> real, l: T.Limits, c: Caps, sg: Seg)
    requires IsSqrt(sqrt) && Accepted(sqrt, l, c, sg)
    ensures SamePlace(Pose(sg, PathAt(sg, 0.0)), if sg.travel.Move? then sg.start else EndOf(sg))
  {
    MovesAreOwn(sqrt, l, c, sg);
    hide Accepted, MoveOf, PathS;
    if sg.travel.Move? { MoveOfFacts(sqrt, sg, 0.0, 0.0); }
    PosesAtZero(sg);
  }

  lemma SeamlessIsPaced(sqrt: real -> real, l: T.Limits, c: Caps, hover: real, segs: seq<Seg>)
    requires Chained(sqrt, l, c, hover, segs) && segs != [] && l.vMax >= 0.0 && Seamless(segs)
    ensures segs[0].t0 == 0.0 && Paced(l, segs)
  {
    hide Accepted, Chained, Seamless, PoseAt, T.Near, T.Reach, EndOf, Dur, SamePlace;
    TotalIs(sqrt, l, c, hover, segs);
    forall t1, t2 | t1 <= t2 ensures T.Near(PoseAt(segs, t1), PoseAt(segs, t2), T.Reach(l, t1, t2)) {
      if Total(segs) > 0.0 {
        SamplesPaced(sqrt, l, c, hover, segs, t1, t2);
      } else {
        AllAtEnd(sqrt, l, c, hover, segs, t1);
        AllAtEnd(sqrt, l, c, hover, segs, t2);
        SameIsNear(l, PoseAt(segs, t1), PoseAt(segs, t2), EndOf(segs[|segs| - 1]), t1, t2);
      }
    }
  }

  lemma AllAtEnd(sqrt: real -> real, l: T.Limits, c: Caps, hover: real, segs: seq<Seg>, t: real)
    requires Chained(sqrt, l, c, hover, segs) && segs != [] && Seamless(segs) && Total(segs) <= 0.0
    ensures segs[0].t0 == 0.0 && SamePlace(PoseAt(segs, t), EndOf(segs[|segs| - 1]))
  {
    hide Accepted, Chained, PoseAt, EndOf, Dur;
    TotalIs(sqrt, l, c, hover, segs);
    NoTimePoses(sqrt, l, c, hover, segs, t);
    var last := |segs| - 1;
    if t < 0.0 && segs[last].travel.Move? {
      TimesRise(sqrt, l, c, hover, segs, 0, last);
      assert Instant(segs, last, last);
    }
  }

  lemma SameIsNear(l: T.Limits, p: T.Point, q: T.Point, r: T.Point, t1: real, t2: real)
    requires SamePlace(p, r) && SamePlace(q, r) && l.vMax >= 0.0 && t1 <= t2
    ensures T.Near(p, q, T.Reach(l, t1, t2))
  {
    MulSign(l.vMax, t2 - t1);
    MulSign(T.Reach(l, t1, t2), T.Reach(l, t1, t2));
    assert p.x == q.x && p.y == q.y && p.z == q.z;
  }

  // ---------- a jump breaks the speed limit ----------

  /** Two different places are too far apart for some short time. */
  lemma TooFar(p: T.Point, q: T.Point, v: real, top: real) returns (d: real, r: real)
    requires !SamePlace(p, q) && v >= 0.0 && top > 0.0
    ensures 0.0 < d <= top && r == v * d >= 0.0 && !T.Near(p, q, r + r)
  {
    hide T.Square3;
    var e := T.DistSquare(p, q);
    ApartSquare(q.x - p.x, q.y - p.y, q.z - p.z);
    d := Soon(v, top, if e < 1.0 then e else 1.0);
    r := v * d;
    SmallSquare(r + r, e);
    FurtherThan(p, q, r + r);
  }

  lemma SmallSquare(x: real, e: real)
    requires 0.0 <= x < 1.0 && x < e
    ensures x * x < e
  {
    MulMono(x, 1.0, x);
  }

  lemma FurtherThan(p: T.Point, q: T.Point, x: real)
    requires T.DistSquare(p, q) > x * x
    ensures !T.Near(p, q, x)
  {
    hide T.DistSquare;
  }

  /** A time so short that twice the ground covered in it is less than small. */
  lemma Soon(v: real, top: real, small: real) returns (d: real)
    requires v >= 0.0 && top > 0.0 && small > 0.0
    ensures 0.0 < d <= top && 0.0 <= v * d + v * d < small
  {
    var w := 4.0 * (v + 1.0);
    var d0 := small / w;
    QuotientPos(small, w);
    assert d0 * w == small;
    d := if d0 > top then top else d0;
    MulMono(d, d0, w);
    MulSign(v, d);
    assert d * w == 4.0 * (v * d) + 4.0 * d;
  }

  lemma ApartSquare(x: real, y: real, z: real)
    requires x != 0.0 || y != 0.0 || z != 0.0
    ensures T.Square3(x, y, z) > 0.0
  {
    hide Squared;
    NonZeroSquare(x);
    NonZeroSquare(y);
    NonZeroSquare(z);
    SquaresAdd(x, y, z);
  }

  function Squared(x: real): real { x * x }

  lemma SquaresAdd(x: real, y: real, z: real)
    ensures T.Square3(x, y, z) == Squared(x) + Squared(y) + Squared(z)
  {
  }

  lemma PositiveSquare(x: real)
    ensures x > 0.0 ==> Squared(x) > 0.0
  {
    if x > 0.0 && Squared(x) <= 0.0 { SquareOrder(x, 0.0); }
  }

  lemma MirrorSquare(x: real)
    ensures Squared(-x) == Squared(x)
  {
  }

  lemma NonZeroSquare(x: real)
    ensures Squared(x) >= 0.0 && (x != 0.0 ==> Squared(x) > 0.0)
  {
    hide Squared;
    PositiveSquare(x);
    PositiveSquare(-x);
    MirrorSquare(x);
    ZeroSquare();
  }

  lemma ZeroSquare()
    ensures Squared(0.0) == 0.0
  {
  }

  /** Where the program is once everything of that instant has happened. */
  lemma Arrives(sqrt: real -> real, l: T.Limits, c: Caps, hover: real, segs: seq<Seg>, j: nat, k: nat)
    requires Chained(sqrt, l, c, hover, segs) && Instant(segs, j, k) && Total(segs) > 0.0
    ensures segs[0].t0 == 0.0 && SamePlace(PoseAt(segs, segs[j].t0), EndOf(segs[k]))
  {
    hide Accepted, Dur, Pose, PathAt, EndOf;
    TotalIs(sqrt, l, c, hover, segs);
    var t := segs[j].t0;
    if k + 1 == |segs| {
      EndIsPose(segs[k]);
      SameSame(EndOf(segs[k]), PoseAt(segs, t));
    } else {
      ChainLink(sqrt, l, c, hover, segs, k);
      ChainLink(sqrt, l, c, hover, segs, k + 1);
      TimesRise(sqrt, l, c, hover, segs, 0, k + 1);
      assert Flown(segs, k + 1, t);
      FlownUnique(sqrt, l, c, hover, segs, k + 1, SegmentAt(segs, t, |segs|), t);
      StartsAtStart(sqrt, l, c, segs[k + 1]);
    }
  }

  /** Where it was d earlier: on the segment before, within reach of that segment's end. */
  lemma Leads(sqrt: real -> real, l: T.Limits, c: Caps, hover: real, segs: seq<Seg>, i: nat, d: real)
    requires Chained(sqrt, l, c, hover, segs) && i < |segs| && 0.0 < d <= Dur(segs[i]) && l.vMax >= 0.0
    ensures segs[0].t0 == 0.0
    ensures T.Near(EndOf(segs[i]), PoseAt(segs, segs[i].t0 + Dur(segs[i]) - d), l.vMax * d)
  {
    hide Accepted, Dur, Pose, PathAt, EndOf, T.Near, Joined;
    TotalIs(sqrt, l, c, hover, segs);
    TimesRise(sqrt, l, c, hover, segs, 0, i);
    ChainLink(sqrt, l, c, hover, segs, i);
    var a := Dur(segs[i]) - d;
    var t := segs[i].t0 + a;
    assert Flown(segs, i, t);
    FlownUnique(sqrt, l, c, hover, segs, i, SegmentAt(segs, t, |segs|), t);
    LegPaced(sqrt, l, c, segs[i], a, segs[i].t0);
    assert t - segs[i].t0 == a;
    ReachIs(l, segs[i].t0 + a, segs[i].t0 + Dur(segs[i]), d);
    NearBack(PoseAt(segs, t), EndOf(segs[i]), l.vMax * d);
  }

  lemma ReachIs(l: T.Limits, s: real, t: real, d: real)
    requires t - s == d
    ensures T.Reach(l, s, t) == l.vMax * d
  {
  }

  lemma NearBack(p: T.Point, q: T.Point, d: real)
    requires T.Near(p, q, d)
    ensures T.Near(q, p, d)
  {
    var x, y, z := q.x - p.x, q.y - p.y, q.z - p.z;
    assert p.x - q.x == -x && p.y - q.y == -y && p.z - q.z == -z;
    assert (-x) * (-x) == x * x && (-y) * (-y) == y * y && (-z) * (-z) == z * z;
  }

  /** A jump right after a segment that takes time. */
  lemma JumpSeen(sqrt: real -> real, l: T.Limits, c: Caps, hover: real, segs: seq<Seg>, j: nat, k: nat)
    requires Chained(sqrt, l, c, hover, segs) && l.vMax >= 0.0 && Instant(segs, j, k) && Total(segs) > 0.0
    requires !SamePlace(segs[j].start, EndOf(segs[k]))
    ensures segs[0].t0 == 0.0 && !Paced(l, segs)
  {
    hide Accepted, Chained, PoseAt, EndOf, Dur, SamePlace, T.Near, T.Reach;
    TotalIs(sqrt, l, c, hover, segs);
    var p, q, t := segs[j].start, EndOf(segs[k]), segs[j].t0;
    var d, r := TooFar(p, q, l.vMax, Dur(segs[j - 1]));
    ChainLink(sqrt, l, c, hover, segs, j - 1);
    Arrives(sqrt, l, c, hover, segs, j, k);
    Leads(sqrt, l, c, hover, segs, j - 1, d);
    ReachIs(l, t - d, t, d);
    JumpBreaks(l, segs, t - d, t, r, p, q);
  }

  lemma JumpBreaks(l: T.Limits, segs: seq<Seg>, t1: real, t2: real, r: real, p: T.Point, q: T.Point)
    requires segs != [] && segs[0].t0 == 0.0 && t1 <= t2 && T.Reach(l, t1, t2) == r
    requires T.Near(p, PoseAt(segs, t1), r) && SamePlace(PoseAt(segs, t2), q) && !T.Near(p, q, r + r)
    ensures !Paced(l, segs)
  {
    hide PoseAt, SamePlace, T.Near, T.Reach;
    var m := PoseAt(segs, t1);
    Itself(m);
    if T.Near(m, PoseAt(segs, t2), r) {
      SamePlaceNear(m, m, PoseAt(segs, t2), q, r);
      T.Triangle(p, m, q, r, r);
    }
    assert !T.Near(PoseAt(segs, t1), PoseAt(segs, t2), T.Reach(l, t1, t2));
  }

  /** A jump of a program that takes no time. */
  lemma TimelessJumpSeen(sqrt: real -> real, l: T.Limits, c: Caps, hover: real, segs: seq<Seg>, j: nat)
    requires Chained(sqrt, l, c, hover, segs) && l.vMax >= 0.0 && j + 1 == |segs| && segs[j].travel.Move? && Total(segs) <= 0.0
    requires !SamePlace(segs[j].start, EndOf(segs[j]))
    ensures segs[0].t0 == 0.0 && !Paced(l, segs)
  {
    hide Accepted, Chained, PoseAt, EndOf, Dur, SamePlace, T.Near, T.Reach;
    var p, q := segs[j].start, EndOf(segs[j]);
    var d, r := TooFar(p, q, l.vMax, 1.0);
    NoTimePoses(sqrt, l, c, hover, segs, -d);
    NoTimePoses(sqrt, l, c, hover, segs, 0.0);
    SamePlaceIsNear(p, PoseAt(segs, -d), r);
    ReachIs(l, -d, 0.0, d);
    JumpBreaks(l, segs, -d, 0.0, r, p, q);
  }

  lemma SamePlaceIsNear(p: T.Point, q: T.Point, d: real)
    requires SamePlace(q, p) && d >= 0.0
    ensures T.Near(p, q, d)
  {
    MulSign(d, d);
  }

  /** The speed limit over a whole program, between any two of its samples: it holds if and only if what the program
      does at single instants leads nowhere. */
  lemma ProgramSpeed(sqrt: real -> real, l: T.Limits, c: Caps, hover: real, segs: seq<Seg>)
    requires Chained(sqrt, l, c, hover, segs) && segs != [] && l.vMax >= 0.0
    ensures segs[0].t0 == 0.0
    ensures (forall t1, t2 {:trigger PoseAt(segs, t1), PoseAt(segs, t2)} ::
      t1 <= t2 ==> T.Near(PoseAt(segs, t1), PoseAt(segs, t2), T.Reach(l, t1, t2))) <==> Seamless(segs)
  {
    hide Accepted, Chained, PoseAt, EndOf, Dur, SamePlace, T.Near, T.Reach;
    TotalIs(sqrt, l, c, hover, segs);
    if Seamless(segs) {
      SeamlessIsPaced(sqrt, l, c, hover, segs);
    } else {
      var j: nat, k: nat :| Instant(segs, j, k) && !SamePlace(segs[j].start, EndOf(segs[k]));
      if Total(segs) > 0.0 { JumpSeen(sqrt, l, c, hover, segs, j, k); } else { TimelessJumpSeen(sqrt, l, c, hover, segs, j); }
    }
  }

  /** Each LINE takes time or leads nowhere: enough for the speed limit, and to be read off the uploaded fields and the
      starts. */
  ghost predicate Unhurried(sqrt: real -> real, segs: seq<Seg>) {
    forall k {:trigger segs[k]} :: 0 <= k < |segs| && segs[k].f.atom.Line? && Timeless(sqrt, segs[k].f, segs[k].start) ==>
      SamePlace(segs[k].start, Target(segs[k].f))
  }

  lemma UnhurriedIsSeamless(sqrt: real -> real, l: T.Limits, c: Caps, hover: real, segs: seq<Seg>)
    requires Chained(sqrt, l, c, hover, segs) && Unhurried(sqrt, segs)
    ensures Seamless(segs)
  {
    hide Accepted, Chained, Unhurried, Timeless, EndOf, SamePlace;
    forall j: nat, k: nat {:trigger Instant(segs, j, k)} | Instant(segs, j, k) ensures SamePlace(segs[j].start, EndOf(segs[k])) {
      TimesRise(sqrt, l, c, hover, segs, j, k);
      GoesNowhere(sqrt, l, c, hover, segs, j, k);
    }
  }

  lemma {:induction false} GoesNowhere(sqrt: real -> real, l: T.Limits, c: Caps, hover: real, segs: seq<Seg>, j: nat, k: nat)
    requires Chained(sqrt, l, c, hover, segs) && Unhurried(sqrt, segs) && j <= k < |segs| && segs[k].t0 + Dur(segs[k]) <= segs[j].t0
    ensures SamePlace(segs[j].start, EndOf(segs[k]))
    decreases k
  {
    hide Accepted, Chained, Timeless, EndOf, Dur;
    ChainLink(sqrt, l, c, hover, segs, k);
    PathRange(sqrt, l, c, segs[k], 0.0);
    TimesRise(sqrt, l, c, hover, segs, j, k);
    TakesNoTime(sqrt, l, c, segs[k]);
    StaysPut(sqrt, segs[k]);
    if j < k {
      ChainLink(sqrt, l, c, hover, segs, k - 1);
      GoesNowhere(sqrt, l, c, hover, segs, j, k - 1);
    }
  }

  lemma StaysPut(sqrt: real -> real, sg: Seg)
    requires sg.f.atom.Line? ==> SamePlace(sg.start, Target(sg.f))
    ensures SamePlace(sg.start, EndOf(sg))
  {
    if sg.f.atom.Line? { LineEnd(sg); }
  }

  // ---------- headings ----------

  /** The one angle in [-180, 180) that is whole turns away. */
  lemma WrapIs(a: real, k: int, b: real)
    requires a == b + 360.0 * (k as real) && -180.0 <= b < 180.0
    ensures Wrap(a) == b
  {
    var q := (b + 180.0) / 360.0;
    assert q * 360.0 == b + 180.0;
    assert 0.0 <= q < 1.0;
    assert (a + 180.0) / 360.0 == q + k as real;
    FloorIs(q + k as real, k);
  }

  lemma FloorIs(x: real, k: int)
    requires k as real <= x < k as real + 1.0
    ensures x.Floor == k
  {
  }

  lemma WrapTurns(a: real) returns (k: int)
    ensures a == Wrap(a) + 360.0 * (k as real)
  {
    k := ((a + 180.0) / 360.0).Floor;
  }

  /** Turning by the wrapped difference ends at the angle asked for. */
  lemma WrapReaches(from: real, to: real)
    ensures Wrap(from + Wrap(to - from)) == Wrap(to)
  {
    hide Wrap;
    var k := WrapTurns(to - from);
    var m := WrapTurns(to);
    WrapRange(to);
    WrapIs(from + Wrap(to - from), m - k, Wrap(to));
  }

  lemma WrapAdds(from: real, a: real)
    ensures Wrap(from + Wrap(a)) == Wrap(from + a)
  {
    hide Wrap;
    var k := WrapTurns(a);
    var m := WrapTurns(from + a);
    WrapRange(from + a);
    WrapIs(from + Wrap(a), m - k, Wrap(from + a));
  }

  /** The heading a segment is to end with; a TURN of less than a thousandth of a degree is left out. */
  function HeadingAfter(sg: Seg): real {
    match sg.f.atom
    case Hold => sg.start.yaw
    case Line => Wrap(sg.f.p3)
    case Turn => if sg.travel.Move? then Wrap(sg.f.p0) else sg.start.yaw
  }

  predicate Facing(yaw: real) { -180.0 <= yaw < 180.0 }

  /** Every accepted segment ends with the heading its fields ask for, and a TURN left out was already there. */
  lemma HeadingReached(sqrt: real -> real, l: T.Limits, c: Caps, sg: Seg)
    requires IsSqrt(sqrt) && Accepted(sqrt, l, c, sg) && Facing(sg.start.yaw)
    ensures EndOf(sg).yaw == HeadingAfter(sg) && Facing(EndOf(sg).yaw)
    ensures sg.f.atom.Turn? && !sg.travel.Move? ==> exists k: int {:trigger k as real} :: Abs(sg.f.p0 - sg.start.yaw - 360.0 * (k as real)) < LEN_EPS
  {
    hide Wrap, Accepted, Pose, MoveOf;
    MovesAreOwn(sqrt, l, c, sg);
    YawAtEnd(sqrt, l, c, sg);
    var a := sg.start.yaw;
    WrapIs(a, 0, a);
    WrapRange(Pose(sg, sg.len).yaw);
    WrapReaches(a, if sg.f.atom.Line? then sg.f.p3 else sg.f.p0);
    if sg.f.atom.Turn? && !sg.travel.Move? { var k := WrapTurns(sg.f.p0 - a); }
  }

  lemma YawAtEnd(sqrt: real -> real, l: T.Limits, c: Caps, sg: Seg)
    requires IsSqrt(sqrt) && Accepted(sqrt, l, c, sg)
    ensures Pose(sg, sg.len).yaw == sg.start.yaw + (if sg.f.atom.Hold? then 0.0 else sg.dyaw)
    ensures sg.f.atom.Line? ==> sg.dyaw == Wrap(sg.f.p3 - sg.start.yaw)
    ensures sg.f.atom.Turn? ==> sg.dyaw == if sg.travel.Move? then Wrap(sg.f.p0 - sg.start.yaw) else 0.0
    ensures sg.f.atom.Turn? && !sg.travel.Move? ==> Abs(Wrap(sg.f.p0 - sg.start.yaw)) < LEN_EPS
  {
    hide Wrap, MotionAt, CruiseSpeed, T.Distance, T.Mix;
    if sg.len > 0.0 { DivIs(sg.len, sg.len, 1.0); }
  }

  /** The heading is the same at all times, or goes the short way: over the segment by at most half a turn, never back. */
  lemma TurnsShortWay(sqrt: real -> real, l: T.Limits, c: Caps, sg: Seg, t1: real, t2: real)
    requires IsSqrt(sqrt) && Accepted(sqrt, l, c, sg) && Dur(sg) > 0.0 && 0.0 <= t1 <= t2 <= Dur(sg)
    ensures var y0, y1, y2, y3 := sg.start.yaw, YawOf(sg, t1), YawOf(sg, t2), Pose(sg, sg.len).yaw;
      (y0 <= y1 <= y2 <= y3 <= y0 + 180.0) || (y0 >= y1 >= y2 >= y3 >= y0 - 180.0)
    ensures YawOf(sg, 0.0) == sg.start.yaw && YawOf(sg, Dur(sg)) == Pose(sg, sg.len).yaw
    ensures Abs(YawOf(sg, t2) - YawOf(sg, t1)) <= c.yawRateMax * (t2 - t1) || sg.f.atom.Hold?
  {
    hide Accepted, PathS, MotionAt, Dur, Pose, MoveOf;
    if sg.f.atom.Hold? {
      HoldYaw(sqrt, l, c, sg, t1, t2);
      HoldYaw(sqrt, l, c, sg, 0.0, Dur(sg));
    } else {
      MovesInTime(sqrt, l, c, sg);
      MoveOfFacts(sqrt, sg, t1, t2);
      MoveOfFacts(sqrt, sg, t2, t2);
      YawPaced(sqrt, l, c, sg);
      ShortWay(sg, sg.travel.m, t1, t2, c.yawRateMax);
    }
  }

  lemma ShortWay(sg: Seg, m: Motion, t1: real, t2: real, rate: real)
    requires !sg.f.atom.Hold? && sg.len > 0.0 && sg.travel == Move(m) && Abs(sg.dyaw) <= 180.0 && Abs(sg.dyaw) * m.vc <= rate * sg.len
    requires t1 <= t2 && 0.0 <= PathS(m, t1) && PathS(m, t2) <= sg.len && 0.0 <= PathS(m, t2) - PathS(m, t1) <= m.vc * (t2 - t1)
    requires PathS(m, 0.0) == 0.0 && PathS(m, m.dur) == sg.len
    ensures var y0, y1, y2, y3 := sg.start.yaw, YawOf(sg, t1), YawOf(sg, t2), Pose(sg, sg.len).yaw;
      (y0 <= y1 <= y2 <= y3 <= y0 + 180.0) || (y0 >= y1 >= y2 >= y3 >= y0 - 180.0)
    ensures YawOf(sg, 0.0) == sg.start.yaw && YawOf(sg, m.dur) == Pose(sg, sg.len).yaw
    ensures Abs(YawOf(sg, t2) - YawOf(sg, t1)) <= rate * (t2 - t1)
  {
    hide PathS, Pose;
    YawShares(sg, PathS(m, t1), PathS(m, t2));
    RateOf(sg.dyaw, sg.len, m.vc, PathS(m, t2) - PathS(m, t1), t2 - t1, rate, YawOf(sg, t2) - YawOf(sg, t1));
  }

  function YawOf(sg: Seg, t: real): real { Pose(sg, PathAt(sg, t)).yaw }

  lemma HoldYaw(sqrt: real -> real, l: T.Limits, c: Caps, sg: Seg, t1: real, t2: real)
    requires IsSqrt(sqrt) && Accepted(sqrt, l, c, sg) && sg.f.atom.Hold?
    ensures YawOf(sg, t1) == YawOf(sg, t2) == Pose(sg, sg.len).yaw == sg.start.yaw
  {
  }

  lemma MovesInTime(sqrt: real -> real, l: T.Limits, c: Caps, sg: Seg)
    requires IsSqrt(sqrt) && Accepted(sqrt, l, c, sg) && Dur(sg) > 0.0 && !sg.f.atom.Hold?
    ensures sg.travel.Move? && MoveOf(sqrt, sg) && sg.travel.m.vc > 0.0 && sg.len > 0.0 && Dur(sg) == sg.travel.m.dur
  {
    MovesAreOwn(sqrt, l, c, sg);
    hide Accepted, MotionAt, Planned;
    if sg.travel.Move? { MoveTakesTime(sqrt, RequestOf(sg.f, sg.len), sg.travel.m.vc); }
  }

  lemma YawPaced(sqrt: real -> real, l: T.Limits, c: Caps, sg: Seg)
    requires IsSqrt(sqrt) && Accepted(sqrt, l, c, sg) && MoveOf(sqrt, sg) && sg.len > 0.0 && sg.travel.m.vc > 0.0
    ensures Abs(sg.dyaw) <= 180.0 && Abs(sg.dyaw) * sg.travel.m.vc <= c.yawRateMax * sg.len
  {
    hide MotionAt, CruiseSpeed, T.Distance, Wrap, RampDist, Accepted, MoveOf;
    MovesAreOwn(sqrt, l, c, sg);
    YawChecked(sqrt, l, c, sg);
    if sg.f.atom.Line? {
      ScaledRate(Abs(sg.dyaw), sg.len, sg.travel.m.vc, sg.f.v, c.yawRateMax);
    } else {
      MulMono(sg.travel.m.vc, c.yawRateMax, sg.len);
    }
  }

  /** What the checks let through. */
  lemma YawChecked(sqrt: real -> real, l: T.Limits, c: Caps, sg: Seg)
    requires IsSqrt(sqrt) && Accepted(sqrt, l, c, sg) && MoveOf(sqrt, sg) && sg.len > 0.0 && !sg.f.atom.Hold?
    ensures Abs(sg.dyaw) <= 180.0 && sg.travel.m.vc <= sg.f.v
    ensures if sg.f.atom.Line? then Abs(sg.dyaw) / sg.len * sg.f.v <= c.yawRateMax else Abs(sg.dyaw) == sg.len && sg.f.v <= c.yawRateMax
  {
    hide MotionAt, CruiseSpeed, T.Distance, Wrap, RampDist;
    WrapRange(sg.f.p3 - sg.start.yaw);
    WrapRange(sg.f.p0 - sg.start.yaw);
  }

  lemma ScaledRate(d: real, len: real, vc: real, v: real, rate: real)
    requires d >= 0.0 && len > 0.0 && vc <= v && d / len * v <= rate
    ensures d * vc <= rate * len
  {
    var q := d / len;
    DivTimes(d, len);
    MulMono(q * v, rate, len);
    MulMono(vc, v, d);
    assert q * v * len == d * v;
  }

  lemma YawShares(sg: Seg, s1: real, s2: real)
    requires !sg.f.atom.Hold? && sg.len > 0.0 && 0.0 <= s1 <= s2 <= sg.len && Abs(sg.dyaw) <= 180.0
    ensures var y0, y1, y2, y3 := sg.start.yaw, Pose(sg, s1).yaw, Pose(sg, s2).yaw, Pose(sg, sg.len).yaw;
      (y0 <= y1 <= y2 <= y3 <= y0 + 180.0) || (y0 >= y1 >= y2 >= y3 >= y0 - 180.0)
    ensures Pose(sg, 0.0).yaw == sg.start.yaw && (Pose(sg, s2).yaw - Pose(sg, s1).yaw) * sg.len == sg.dyaw * (s2 - s1)
  {
    hide Pose;
    Ratio(s1, s2, sg.len);
    DivTimes(s2, sg.len);
    SharesOf(sg, s1 / sg.len, s2 / sg.len, s1, s2);
  }

  lemma SharesOf(sg: Seg, u1: real, u2: real, s1: real, s2: real)
    requires !sg.f.atom.Hold? && sg.len > 0.0 && Abs(sg.dyaw) <= 180.0 && 0.0 <= u1 <= u2 <= 1.0 && u1 * sg.len == s1 && u2 * sg.len == s2
    ensures var y0, y1, y2, y3 := sg.start.yaw, Pose(sg, s1).yaw, Pose(sg, s2).yaw, Pose(sg, sg.len).yaw;
      (y0 <= y1 <= y2 <= y3 <= y0 + 180.0) || (y0 >= y1 >= y2 >= y3 >= y0 - 180.0)
    ensures Pose(sg, 0.0).yaw == sg.start.yaw && (Pose(sg, s2).yaw - Pose(sg, s1).yaw) * sg.len == sg.dyaw * (s2 - s1)
  {
    hide Pose;
    YawAlong(sg, 0.0, 0.0);
    YawAlong(sg, s1, u1);
    YawAlong(sg, s2, u2);
    YawAlong(sg, sg.len, 1.0);
    ShareOrder(sg.start.yaw, sg.dyaw, u1, u2, sg.len, s1, s2, Pose(sg, s1).yaw, Pose(sg, s2).yaw, Pose(sg, sg.len).yaw);
  }

  lemma YawAlong(sg: Seg, s: real, u: real)
    requires !sg.f.atom.Hold? && sg.len > 0.0 && u * sg.len == s
    ensures Pose(sg, s).yaw == sg.start.yaw + sg.dyaw * u
  {
    hide T.Mix;
    DivIs(s, sg.len, u);
  }

  lemma ShareOrder(y: real, d: real, u1: real, u2: real, len: real, s1: real, s2: real, y1: real, y2: real, y3: real)
    requires 0.0 <= u1 <= u2 <= 1.0 && Abs(d) <= 180.0 && u1 * len == s1 && u2 * len == s2
    requires y1 == y + d * u1 && y2 == y + d * u2 && y3 == y + d * 1.0
    ensures (y2 - y1) * len == d * (s2 - s1)
    ensures (y <= y1 <= y2 <= y3 <= y + 180.0) || (y >= y1 >= y2 >= y3 >= y - 180.0)
  {
    var m1, m2 := d * u1, d * u2;
    SpanIs(d, u1, u2, len, s1, s2, m1, m2);
    if d >= 0.0 { SharesRise(d, u1, u2, m1, m2); } else { SharesRise(-d, u1, u2, -m1, -m2); }
  }

  lemma SpanIs(d: real, u1: real, u2: real, len: real, s1: real, s2: real, m1: real, m2: real)
    requires m1 == d * u1 && m2 == d * u2 && u1 * len == s1 && u2 * len == s2
    ensures (m2 - m1) * len == d * (s2 - s1)
  {
    assert m2 * len == d * s2 && m1 * len == d * s1;
  }

  lemma SharesRise(d: real, u1: real, u2: real, m1: real, m2: real)
    requires d >= 0.0 && 0.0 <= u1 <= u2 <= 1.0 && m1 == d * u1 && m2 == d * u2
    ensures 0.0 <= m1 <= m2 <= d
  {
    ProductsOrdered(0.0, u1, d, 0.0, m1);
    ProductsOrdered(u1, u2, d, m1, m2);
    ProductsOrdered(u2, 1.0, d, m2, d);
  }

  lemma RateOf(d: real, len: real, vc: real, ds: real, dt: real, rate: real, dy: real)
    requires len > 0.0 && 0.0 <= ds <= vc * dt && Abs(d) * vc <= rate * len && dt >= 0.0 && dy * len == d * ds
    ensures Abs(dy) <= rate * dt
  {
    MulMono(ds, vc * dt, Abs(d));
    MulMono(Abs(d) * vc, rate * len, dt);
    assert Abs(d) * (vc * dt) == Abs(d) * vc * dt && rate * len * dt == (rate * dt) * len;
    AbsQuotient(d, ds, dy, len);
    if Abs(dy) > rate * dt { MulPos(Abs(dy) - rate * dt, len); }
  }

  lemma AbsQuotient(d: real, ds: real, dy: real, len: real)
    requires len > 0.0 && ds >= 0.0 && dy * len == d * ds
    ensures Abs(dy) * len == Abs(d) * ds
  {
    if dy >= 0.0 { MulSign(dy, len); } else { MulPos(-dy, len); }
    if d >= 0.0 { MulSign(d, ds); } else { MulSign(-d, ds); }
  }

  /** The heading a program has when segment k starts, from its fields alone. */
  lemma {:induction false} HeadingsChain(sqrt: real -> real, l: T.Limits, c: Caps, hover: real, segs: seq<Seg>, k: nat)
    requires Chained(sqrt, l, c, hover, segs) && k <= |segs|
    ensures Facing(HeadingAt(segs, k)) && (k < |segs| ==> segs[k].start.yaw == HeadingAt(segs, k))
    ensures k > 0 ==> EndOf(segs[k - 1]).yaw == HeadingAt(segs, k)
  {
    hide Accepted, EndOf, Wrap;
    if k > 0 {
      HeadingsChain(sqrt, l, c, hover, segs, k - 1);
      ChainLink(sqrt, l, c, hover, segs, k - 1);
      HeadingReached(sqrt, l, c, segs[k - 1]);
    }
  }

  /** Where the first k segments are to leave the craft facing: a LINE's or TURN's own heading, or that of before. */
  function HeadingAt(segs: seq<Seg>, k: nat): real
    requires k <= |segs|
  {
    if k == 0 then 0.0
    else
      match segs[k - 1].f.atom
      case Hold => HeadingAt(segs, k - 1)
      case Line => Wrap(segs[k - 1].f.p3)
      case Turn => if segs[k - 1].travel.Move? then Wrap(segs[k - 1].f.p0) else HeadingAt(segs, k - 1)
  }

  /** The heading of every sample: between that asked for before the segment that is flown and that asked for after it, the
      short way round; at and past the end, the last one asked for. */
  lemma ProgramHeading(sqrt: real -> real, l: T.Limits, c: Caps, hover: real, segs: seq<Seg>, t: real)
    requires Chained(sqrt, l, c, hover, segs) && segs != []
    ensures segs[0].t0 == 0.0 && (t >= Total(segs) ==> Wrap(PoseAt(segs, t).yaw) == HeadingAt(segs, |segs|))
    ensures 0.0 <= t < Total(segs) ==>
      var k := SegmentAt(segs, t, |segs|);
      var y0, y1, y2 := HeadingAt(segs, k), PoseAt(segs, t).yaw, Pose(segs[k], segs[k].len).yaw;
      Wrap(y2) == HeadingAt(segs, k + 1) && ((y0 <= y1 <= y2 <= y0 + 180.0) || (y0 >= y1 >= y2 >= y0 - 180.0))
  {
    hide Accepted, Pose, PathAt, Wrap, HeadingAt, Facing;
    HeadingsChain(sqrt, l, c, hover, segs, |segs|);
    if 0.0 <= t < Total(segs) {
      var k := SegmentAt(segs, t, |segs|);
      HeadingsChain(sqrt, l, c, hover, segs, k);
      HeadingsChain(sqrt, l, c, hover, segs, k + 1);
      ChainLink(sqrt, l, c, hover, segs, k);
      TurnsShortWay(sqrt, l, c, segs[k], t - segs[k].t0, t - segs[k].t0);
    }
  }

  // ---------- velocities where segments meet ----------

  datatype Vel = Vel(x: real, y: real, z: real)

  const STILL := Vel(0.0, 0.0, 0.0)

  /** wfb_prog_seg_vel at path speed sd; the same all along a LINE. */
  function VelOf(sg: Seg, sd: real): Vel {
    if sg.f.atom.Line? && sg.len > 0.0 then
      Vel((sg.f.p0 - sg.start.x) / sg.len * sd, (sg.f.p1 - sg.start.y) / sg.len * sd, (sg.f.p2 - sg.start.z) / sg.len * sd)
    else STILL
  }

  function Leaving(segs: seq<Seg>, k: int): Vel
    requires -1 <= k < |segs|
  {
    if k < 0 || segs[k].f.atom.Hold? then STILL else VelOf(segs[k], segs[k].f.vOut)
  }

  predicate Jump(sqrt: real -> real, c: Caps, a: Vel, b: Vel) {
    sqrt(T.Square3(b.x - a.x, b.y - a.y, b.z - a.z)) <= c.vJumpMax
  }

  predicate JumpAt(sqrt: real -> real, c: Caps, segs: seq<Seg>, k: nat)
    requires k < |segs|
  {
    Jump(sqrt, c, Leaving(segs, k - 1), VelOf(segs[k], segs[k].f.vIn))
  }

  /** Everything a committed program satisfies. */
  ghost predicate Flyable(sqrt: real -> real, l: T.Limits, c: Caps, hover: real, segs: seq<Seg>) {
    segs != [] && Chained(sqrt, l, c, hover, segs) && Total(segs) <= c.tMax &&
    (forall k {:trigger JumpAt(sqrt, c, segs, k)} :: 0 <= k < |segs| ==> JumpAt(sqrt, c, segs, k)) &&
    Jump(sqrt, c, STILL, Leaving(segs, |segs| - 1)) &&
    T.AtHover(sqrt, l, hover, EndOf(segs[|segs| - 1]))
  }

  // ---------- the verdict on an upload ----------

  function StartAfter(hover: real, segs: seq<Seg>): T.Point {
    if segs == [] then T.Point(0.0, 0.0, hover, 0.0, 0.0) else EndOf(segs[|segs| - 1])
  }

  /** The program an upload stands for. */
  function ChainOf(sqrt: real -> real, hover: real, fields: seq<Fields>): (segs: seq<Seg>)
    ensures |segs| == |fields|
  {
    if fields == [] then []
    else
      var b := ChainOf(sqrt, hover, fields[..|fields| - 1]);
      b + [Derived(sqrt, fields[|fields| - 1], StartAfter(hover, b), Total(b))]
  }

  /** What the next segment fails on: its own checks, or the velocity step into it. */
  function LinkErr(sqrt: real -> real, l: T.Limits, c: Caps, hover: real, before: seq<Seg>, f: Fields): Err {
    var start := StartAfter(hover, before);
    var err := SegErr(sqrt, l, c, f, start);
    if !err.None? then err
    else if Jump(sqrt, c, Leaving(before, |before| - 1), VelOf(Derived(sqrt, f, start, Total(before)), f.vIn)) then None
    else Speed
  }

  /** The first segment to fail decides. */
  function ChainErr(sqrt: real -> real, l: T.Limits, c: Caps, hover: real, fields: seq<Fields>): Err {
    if fields == [] then None
    else
      var before := fields[..|fields| - 1];
      var err := ChainErr(sqrt, l, c, hover, before);
      if !err.None? then err else LinkErr(sqrt, l, c, hover, ChainOf(sqrt, hover, before), fields[|fields| - 1])
  }

  /** wfb_prog_derive's verdict. */
  function ProgErr(sqrt: real -> real, l: T.Limits, c: Caps, hover: real, fields: seq<Fields>): Err {
    var err, segs := ChainErr(sqrt, l, c, hover, fields), ChainOf(sqrt, hover, fields);
    if !err.None? then err
    else if !Jump(sqrt, c, STILL, Leaving(segs, |segs| - 1)) then Speed
    else if !T.AtHover(sqrt, l, hover, StartAfter(hover, segs)) then Endpoint
    else if !(Total(segs) <= c.tMax) then Time
    else None
  }

  lemma {:induction false} ErrStays(sqrt: real -> real, l: T.Limits, c: Caps, hover: real, fields: seq<Fields>, k: nat)
    requires k <= |fields| && !ChainErr(sqrt, l, c, hover, fields[..k]).None?
    ensures ChainErr(sqrt, l, c, hover, fields) == ChainErr(sqrt, l, c, hover, fields[..k])
    decreases |fields|
  {
    hide LinkErr;
    if k == |fields| {
      assert fields[..k] == fields;
    } else {
      var before := fields[..|fields| - 1];
      assert before[..k] == fields[..k];
      ErrStays(sqrt, l, c, hover, before, k);
    }
  }

  /** Chained, and no velocity step where segments meet is too large. */
  ghost predicate Smoothed(sqrt: real -> real, l: T.Limits, c: Caps, hover: real, segs: seq<Seg>) {
    Chained(sqrt, l, c, hover, segs) && forall k {:trigger JumpAt(sqrt, c, segs, k)} :: 0 <= k < |segs| ==> JumpAt(sqrt, c, segs, k)
  }

  lemma {:induction false} NoErrIsChained(sqrt: real -> real, l: T.Limits, c: Caps, hover: real, fields: seq<Fields>)
    requires IsSqrt(sqrt)
    ensures ChainErr(sqrt, l, c, hover, fields).None? <==> Smoothed(sqrt, l, c, hover, ChainOf(sqrt, hover, fields))
  {
    hide Smoothed, LinkErr, Derived;
    if fields == [] {
      NothingChained(sqrt, l, c, hover);
    } else {
      var before := fields[..|fields| - 1];
      NoErrIsChained(sqrt, l, c, hover, before);
      OneMore(sqrt, l, c, hover, ChainOf(sqrt, hover, before), fields[|fields| - 1]);
    }
  }

  lemma NothingChained(sqrt: real -> real, l: T.Limits, c: Caps, hover: real)
    requires IsSqrt(sqrt)
    ensures Smoothed(sqrt, l, c, hover, [])
  {
  }

  lemma OneMore(sqrt: real -> real, l: T.Limits, c: Caps, hover: real, before: seq<Seg>, f: Fields)
    requires IsSqrt(sqrt)
    ensures var sg := Derived(sqrt, f, StartAfter(hover, before), Total(before));
      Smoothed(sqrt, l, c, hover, before + [sg]) <==> Smoothed(sqrt, l, c, hover, before) && LinkErr(sqrt, l, c, hover, before, f).None?
  {
    hide SegErr, EndOf, Dur, VelOf, Jump, Chained;
    var sg := Derived(sqrt, f, StartAfter(hover, before), Total(before));
    DerivedFrom(sqrt, f, StartAfter(hover, before), Total(before));
    if Smoothed(sqrt, l, c, hover, before) && LinkErr(sqrt, l, c, hover, before, f).None? {
      ChainGrows(sqrt, l, c, hover, before, sg);
    }
    if Smoothed(sqrt, l, c, hover, before + [sg]) {
      ChainShrinks(sqrt, l, c, hover, before, sg);
    }
  }

  lemma DerivedFrom(sqrt: real -> real, f: Fields, start: T.Point, t0: real)
    ensures var sg := Derived(sqrt, f, start, t0); sg.f == f && sg.start == start && sg.t0 == t0
  {
  }

  /** Nothing less holds of a chain without its last segment. */
  lemma ChainShrinks(sqrt: real -> real, l: T.Limits, c: Caps, hover: real, before: seq<Seg>, sg: Seg)
    requires Smoothed(sqrt, l, c, hover, before + [sg])
    ensures Smoothed(sqrt, l, c, hover, before) && Accepted(sqrt, l, c, sg) && Jump(sqrt, c, Leaving(before, |before| - 1), VelOf(sg, sg.f.vIn))
    ensures sg.start == StartAfter(hover, before) && sg.t0 == Total(before)
  {
    hide Accepted, EndOf, Dur, VelOf, Jump;
    var segs := before + [sg];
    forall k {:trigger AcceptedAt(sqrt, l, c, before, k)} | 0 <= k < |before| ensures AcceptedAt(sqrt, l, c, before, k) {
      assert AcceptedAt(sqrt, l, c, segs, k);
    }
    forall k {:trigger Joined(before, k)} | 0 <= k < |before| - 1 ensures Joined(before, k) {
      assert Joined(segs, k);
    }
    forall i {:trigger JumpAt(sqrt, c, before, i)} | 0 <= i < |before| ensures JumpAt(sqrt, c, before, i) {
      assert JumpAt(sqrt, c, segs, i);
    }
    assert AcceptedAt(sqrt, l, c, segs, |before|) && JumpAt(sqrt, c, segs, |before|);
    if before != [] { assert Joined(segs, |before| - 1); }
  }

  /** An upload is accepted if and only if the program it stands for can be flown. */
  lemma AcceptedIsFlyable(sqrt: real -> real, l: T.Limits, c: Caps, hover: real, fields: seq<Fields>)
    requires IsSqrt(sqrt) && fields != []
    ensures ProgErr(sqrt, l, c, hover, fields).None? <==> Flyable(sqrt, l, c, hover, ChainOf(sqrt, hover, fields))
  {
    hide ChainErr, ChainOf, Chained, Jump, T.AtHover, EndOf, Leaving;
    NoErrIsChained(sqrt, l, c, hover, fields);
  }

  function FieldsOf(segs: seq<Seg>): (fields: seq<Fields>)
    ensures |fields| == |segs| && forall k :: 0 <= k < |segs| ==> fields[k] == segs[k].f
  {
    seq(|segs|, k requires 0 <= k < |segs| => segs[k].f)
  }

  /** The uploaded fields and the hover point determine the program. */
  lemma {:induction false} ChainUnique(sqrt: real -> real, l: T.Limits, c: Caps, hover: real, segs: seq<Seg>)
    requires Chained(sqrt, l, c, hover, segs)
    ensures segs == ChainOf(sqrt, hover, FieldsOf(segs))
  {
    hide SegErr, EndOf, Dur, Derived;
    if segs != [] {
      var before, sg := segs[..|segs| - 1], segs[|segs| - 1];
      assert segs == before + [sg];
      forall k {:trigger AcceptedAt(sqrt, l, c, before, k)} | 0 <= k < |before| ensures AcceptedAt(sqrt, l, c, before, k) {
        assert AcceptedAt(sqrt, l, c, segs, k);
      }
      forall k {:trigger Joined(before, k)} | 0 <= k < |before| - 1 ensures Joined(before, k) {
        assert Joined(segs, k);
      }
      ChainUnique(sqrt, l, c, hover, before);
      assert FieldsOf(segs)[..|segs| - 1] == FieldsOf(before);
      assert AcceptedAt(sqrt, l, c, segs, |segs| - 1);
      if before != [] { assert Joined(segs, |segs| - 2); }
    }
  }

  lemma ChainStarts(sqrt: real -> real, l: T.Limits, c: Caps, hover: real)
    ensures ChainErr(sqrt, l, c, hover, []).None? && ChainOf(sqrt, hover, []) == [] && Total([]) == 0.0 && Leaving([], -1) == STILL
  {
  }

  /** What segment k does to the verdict and to the program. */
  lemma ChainSteps(sqrt: real -> real, l: T.Limits, c: Caps, hover: real, fields: seq<Fields>, k: nat)
    requires k < |fields| && ChainErr(sqrt, l, c, hover, fields[..k]).None?
    ensures var b := ChainOf(sqrt, hover, fields[..k]);
      var err := LinkErr(sqrt, l, c, hover, b, fields[k]);
      ChainErr(sqrt, l, c, hover, fields[..k + 1]) == err && (!err.None? ==> ProgErr(sqrt, l, c, hover, fields) == err) &&
      ChainOf(sqrt, hover, fields[..k + 1]) == b + [Derived(sqrt, fields[k], StartAfter(hover, b), Total(b))]
  {
    hide LinkErr, Derived, StartAfter;
    assert fields[..k + 1][..k] == fields[..k] && fields[..k + 1][k] == fields[k];
    if !ChainErr(sqrt, l, c, hover, fields[..k + 1]).None? { ErrStays(sqrt, l, c, hover, fields, k + 1); }
  }

  lemma Extends(before: seq<Seg>, sg: Seg)
    requires sg.t0 == Total(before)
    ensures Total(before + [sg]) == sg.t0 + Dur(sg)
    ensures Leaving(before + [sg], |before|) == if sg.f.atom.Hold? then STILL else VelOf(sg, sg.f.vOut)
  {
  }

  lemma ChainEnds(sqrt: real -> real, l: T.Limits, c: Caps, hover: real, fields: seq<Fields>)
    requires ChainErr(sqrt, l, c, hover, fields).None?
    ensures var segs := ChainOf(sqrt, hover, fields);
      ProgErr(sqrt, l, c, hover, fields) ==
        if !Jump(sqrt, c, STILL, Leaving(segs, |segs| - 1)) then Speed
        else if !T.AtHover(sqrt, l, hover, StartAfter(hover, segs)) then Endpoint
        else if !(Total(segs) <= c.tMax) then Time
        else None
  {
  }

  // ---------- an accepted program that jumps ----------

  const ORIGIN := T.Point(0.0, 0.0, 0.5, 0.0, 0.0)

  /** One second at the hover point, then half a millimetre to the side. */
  const NUDGE := [Fields(Hold, Trap, 0.0, 0.0, 0.0, 0.0, 0.0, 1.0, 0.0, 0.0, 0.0),
                  Fields(Line, Trap, 0.5, 1.0, 0.0, 0.0, 0.0, 0.0005, 0.0, 0.5, 0.0)]

  function Nudged(): seq<Seg> {
    [Seg(NUDGE[0], ORIGIN, 0.0, 0.0, 0.0, Rest(1.0)), Seg(NUDGE[1], ORIGIN, 1.0, 0.0, 0.0, Snap)]
  }

  lemma NudgeFacts(sqrt: real -> real)
    requires IsSqrt(sqrt)
    ensures Wrap(0.0) == 0.0 && sqrt(0.0) == 0.0
    ensures T.Distance(sqrt, ORIGIN, Target(NUDGE[1])) == 0.0005
  {
    assert (0.0 + 180.0) / 360.0 == 0.5;
    SqrtIs(sqrt, 0.0, 0.0);
    SqrtIs(sqrt, 0.00000025, 0.0005);
  }

  lemma NudgeChain(sqrt: real -> real)
    requires IsSqrt(sqrt)
    ensures ChainOf(sqrt, 0.5, NUDGE) == Nudged()
  {
    NudgeFacts(sqrt);
    hide T.Distance, MotionAt, CruiseSpeed, Wrap;
    assert NUDGE[..1] == [NUDGE[0]] && NUDGE[..1][..0] == [];
    assert ChainOf(sqrt, 0.5, NUDGE[..1]) == [Nudged()[0]];
    assert Nudged() == [Nudged()[0]] + [Nudged()[1]];
  }

  lemma NudgeLinks(sqrt: real -> real)
    requires IsSqrt(sqrt)
    ensures ChainErr(sqrt, T.LIMITS, CAPS, 0.5, NUDGE).None?
  {
    NudgeFacts(sqrt);
    NudgeChain(sqrt);
    hide T.Distance, MotionAt, CruiseSpeed, Wrap, ChainOf, RampDist;
    assert NUDGE[..1] == [NUDGE[0]] && NUDGE[..0] == [] && NUDGE[..2] == NUDGE;
    ChainStarts(sqrt, T.LIMITS, CAPS, 0.5);
    ChainSteps(sqrt, T.LIMITS, CAPS, 0.5, NUDGE, 0);
    ChainSteps(sqrt, T.LIMITS, CAPS, 0.5, NUDGE, 1);
  }

  lemma NudgeAccepted(sqrt: real -> real)
    requires IsSqrt(sqrt)
    ensures ProgErr(sqrt, T.LIMITS, CAPS, 0.5, NUDGE).None?
  {
    NudgeFacts(sqrt);
    NudgeChain(sqrt);
    NudgeLinks(sqrt);
    hide T.Distance, MotionAt, CruiseSpeed, Wrap, ChainOf, RampDist, ChainErr;
    ChainEnds(sqrt, T.LIMITS, CAPS, 0.5, NUDGE);
  }

  /** Accepted under the default limits, and at 1 s it is half a millimetre from where it was a tenth of a millisecond
      earlier, five times what v_max allows. */
  lemma NudgeJumps(sqrt: real -> real)
    requires IsSqrt(sqrt)
    ensures var segs := ChainOf(sqrt, 0.5, NUDGE);
      ProgErr(sqrt, T.LIMITS, CAPS, 0.5, NUDGE).None? && Flyable(sqrt, T.LIMITS, CAPS, 0.5, segs) &&
      !T.Near(PoseAt(segs, 0.9999), PoseAt(segs, 1.0), T.Reach(T.LIMITS, 0.9999, 1.0)) && !Seamless(segs)
  {
    NudgeAccepted(sqrt);
    AcceptedIsFlyable(sqrt, T.LIMITS, CAPS, 0.5, NUDGE);
    NudgeChain(sqrt);
    NudgePoses();
    hide Flyable, ProgErr, ChainOf, PoseAt;
    assert Instant(Nudged(), 1, 1);
  }

  lemma NudgePoses()
    ensures var segs := Nudged();
      SamePlace(PoseAt(segs, 0.9999), ORIGIN) && SamePlace(PoseAt(segs, 1.0), Target(NUDGE[1])) && SamePlace(EndOf(segs[1]), Target(NUDGE[1]))
  {
    hide Wrap;
    assert SegmentAt(Nudged(), 0.9999, 2) == 0;
  }

  /** The same, and at once back again. */
  const BACK := Fields(Line, Trap, 0.5, 1.0, 0.0, 0.0, 0.0, 0.0, 0.0, 0.5, 0.0)

  function Away(): T.Point { T.Point(0.0005, 0.0, 0.5, 0.0, 0.0) }

  lemma BackFacts(sqrt: real -> real)
    requires IsSqrt(sqrt)
    ensures EndOf(Nudged()[1]) == Away() && Derived(sqrt, BACK, Away(), 1.0) == Seg(BACK, Away(), 1.0, 0.0, 0.0, Snap)
    ensures SegErr(sqrt, T.LIMITS, CAPS, BACK, Away()).None? && EndOf(Seg(BACK, Away(), 1.0, 0.0, 0.0, Snap)) == ORIGIN
  {
    NudgeFacts(sqrt);
    SqrtIs(sqrt, 0.00000025, 0.0005);
    hide Wrap, RampDist, MotionAt, CruiseSpeed;
  }

  /** Why the speed limit asks about everything that happens at one instant, and not about each segment: out and back in
      no time, the second program keeps to the limit, though one of its segments jumps. */
  lemma BackAndForth(sqrt: real -> real)
    requires IsSqrt(sqrt)
    ensures var segs := ChainOf(sqrt, 0.5, NUDGE + [BACK]);
      ProgErr(sqrt, T.LIMITS, CAPS, 0.5, NUDGE + [BACK]).None? && Chained(sqrt, T.LIMITS, CAPS, 0.5, segs) && Seamless(segs) &&
      0.0 < segs[1].t0 == segs[1].t0 + Dur(segs[1]) && !SamePlace(segs[1].start, EndOf(segs[1]))
  {
    var fields, back := NUDGE + [BACK], Seg(BACK, Away(), 1.0, 0.0, 0.0, Snap);
    BackFacts(sqrt);
    NudgeFacts(sqrt);
    NudgeChain(sqrt);
    NudgeLinks(sqrt);
    hide T.Distance, MotionAt, CruiseSpeed, Wrap, ChainOf, RampDist, Flyable, Chained, EndOf, SegErr, Derived;
    assert fields[..2] == NUDGE && fields[2] == BACK && fields[..3] == fields;
    ChainSteps(sqrt, T.LIMITS, CAPS, 0.5, fields, 2);
    ChainEnds(sqrt, T.LIMITS, CAPS, 0.5, fields);
    AcceptedIsFlyable(sqrt, T.LIMITS, CAPS, 0.5, fields);
    FlyableChains(sqrt, 0.5, ChainOf(sqrt, 0.5, fields));
    assert ChainOf(sqrt, 0.5, fields) == Nudged() + [back];
  }

  lemma FlyableChains(sqrt: real -> real, hover: real, segs: seq<Seg>)
    requires Flyable(sqrt, T.LIMITS, CAPS, hover, segs)
    ensures Chained(sqrt, T.LIMITS, CAPS, hover, segs)
  {
  }

  // ---------- the object ----------

  class Program {
    const sqrt: real -> real
    const seg: array<Seg>
    var n: nat
    var cur: nat
    var state: Lifecycle
    var total: real
    var yawRef: real
    ghost var lim: T.Limits
    ghost var caps: Caps
    ghost var hover: real

    ghost predicate Valid()
      reads this, seg
    {
      IsSqrt(sqrt) && n <= seg.Length && (state.Loading? ==> n > 0) &&
      (state.Ready? || state.Executing? || state.Done? ==>
        cur < n && Flyable(sqrt, lim, caps, hover, seg[..n]) && total == Total(seg[..n]))
    }

    /** A program whose n segments have all been pushed. */
    constructor (sqrt: real -> real, fields: seq<Fields>)
      requires IsSqrt(sqrt) && fields != []
      ensures Valid() && state.Loading? && n == |fields| && fresh(seg)
      ensures seg.Length == n && forall k :: 0 <= k < n ==> seg[k].f == fields[k]
    {
      this.sqrt := sqrt;
      n, cur, state, total, yawRef := |fields|, 0, Loading, 0.0, 0.0;
      seg := new Seg[|fields|](k requires 0 <= k < |fields| => NOWHERE.(f := fields[k]));
    }

    /** wfb_prog_derive_seg of a segment whose start is set. */
    method DeriveSeg(sg: Seg, l: T.Limits, c: Caps) returns (err: Err, out: Seg)
      requires IsSqrt(sqrt)
      ensures err == SegErr(sqrt, l, c, sg.f, sg.start) && out.f == sg.f
      ensures err.None? ==> out == Derived(sqrt, sg.f, sg.start, sg.t0)
    {
      hide RampDist, MotionAt, CruiseSpeed;
      out := sg.(len := 0.0, dyaw := Heading(sg.f, sg.start), travel := Snap);
      err := Check(sqrt, sg.f, sg.start, l, c);
      if !err.None? { return; }
      if sg.f.atom.Hold? {
        out := out.(travel := Rest(sg.f.p0));
        return;
      }
      var len := Length(sqrt, sg.f, sg.start);
      if len < LEN_EPS {
        if sg.f.atom.Turn? { out := out.(dyaw := 0.0); }
        return;
      }
      var plan := new Segment(RequestOf(sg.f, len));
      var ok := plan.Plan(sqrt);
      if !ok { return Range, out; }
      out := out.(len := len, travel := Move(plan.View()));
    }

    /** wfb_prog_derive: chain, plan and check every segment. */
    method Derive(l: T.Limits, c: Caps, hoverZ: real) returns (err: Err)
      requires IsSqrt(sqrt) && 0 < n <= seg.Length
      modifies seg, this`total
      ensures forall k :: 0 <= k < seg.Length ==> seg[k].f == old(seg[k].f)
      ensures var fields := FieldsOf(seg[..n]);
        err == ProgErr(sqrt, l, c, hoverZ, fields) && (err.None? ==> seg[..n] == ChainOf(sqrt, hoverZ, fields)) &&
        (err.None? <==> Flyable(sqrt, l, c, hoverZ, ChainOf(sqrt, hoverZ, fields)))
      ensures err.None? ==> total == Total(seg[..n])
    {
      hide EndOf, Dur, VelOf, Jump, T.AtHover, SegErr, Derived, Flyable, ChainOf, ChainErr, ProgErr, Leaving, Total;
      var p, t, vprev := T.Point(0.0, 0.0, hoverZ, 0.0, 0.0), 0.0, STILL;
      ghost var fields := FieldsOf(seg[..n]);
      AcceptedIsFlyable(sqrt, l, c, hoverZ, fields);
      ChainStarts(sqrt, l, c, hoverZ);
      for k := 0 to n
        invariant forall i :: 0 <= i < seg.Length ==> seg[i].f == old(seg[i].f)
        invariant ChainErr(sqrt, l, c, hoverZ, fields[..k]).None? && seg[..k] == ChainOf(sqrt, hoverZ, fields[..k])
        invariant t == Total(seg[..k]) && vprev == Leaving(seg[..k], k - 1) && p == StartAfter(hoverZ, seg[..k])
      {
        ghost var before := seg[..k];
        ChainSteps(sqrt, l, c, hoverZ, fields, k);
        var sg;
        err, sg := DeriveSeg(seg[k].(start := p, t0 := t), l, c);
        seg[k] := sg;
        assert FieldsOf(seg[..n]) == fields;
        if !err.None? { return; }
        if !Jump(sqrt, c, vprev, VelOf(sg, sg.f.vIn)) { return Speed; }
        assert seg[..k + 1] == before + [sg];
        DerivedFrom(sqrt, sg.f, p, t);
        Extends(before, sg);
        vprev := if sg.f.atom.Hold? then STILL else VelOf(sg, sg.f.vOut);
        p := EndOf(sg);
        t := t + Dur(sg);
      }
      assert fields[..n] == fields;
      assert FieldsOf(seg[..n]) == fields;
      ChainEnds(sqrt, l, c, hoverZ, fields);
      if !Jump(sqrt, c, STILL, vprev) { return Speed; }
      if !T.AtHover(sqrt, l, hoverZ, p) { return Endpoint; }
      if !(t <= c.tMax) { return Time; }
      total := t;
      err := None;
    }

    /** The COMMIT command once its checksum has matched. */
    method Commit(l: T.Limits, c: Caps, hoverZ: real) returns (err: Err)
      requires Valid() && state.Loading?
      modifies seg, this`total, this`cur, this`state, this`lim, this`caps, this`hover
      ensures Valid() && state == (if err.None? then Ready else Empty)
      ensures forall k :: 0 <= k < n ==> seg[k].f == old(seg[k].f)
      ensures var fields := FieldsOf(seg[..n]);
        err == ProgErr(sqrt, l, c, hoverZ, fields) && (err.None? <==> Flyable(sqrt, l, c, hoverZ, ChainOf(sqrt, hoverZ, fields))) &&
        (err.None? ==> seg[..n] == ChainOf(sqrt, hoverZ, fields) && lim == l && caps == c && hover == hoverZ)
    {
      hide Flyable, ProgErr, ChainOf, FieldsOf;
      err := Derive(l, c, hoverZ);
      if !err.None? {
        state := Empty;
        return;
      }
      cur, state := 0, Ready;
      lim, caps, hover := l, c, hoverZ;
    }

    method Start(yaw: Num) returns (err: Err)
      requires Valid()
      modifies this`yawRef, this`cur, this`state
      ensures Valid() && err == if !old(state).Ready? then BadState else if !yaw.Value? then Range else None
      ensures if err.None? then state.Executing? && yawRef == Wrap(yaw.v) else state == old(state) && yawRef == old(yawRef)
    {
      if !state.Ready? { return BadState; }
      if !yaw.Value? { return Range; }
      yawRef, cur, state := Wrap(yaw.v), 0, Executing;
      err := None;
    }

    method Stop() returns (err: Err)
      requires Valid()
      modifies this`state
      ensures Valid() && err == (if old(state).Executing? then None else BadState)
      ensures state == if err.None? then Ready else old(state)
    {
      if !state.Executing? { return BadState; }
      state := Ready;
      err := None;
    }

    /** wfb_prog_out */
    function Shown(p: T.Point, t: real): T.Point
      reads this`yawRef
    {
      p.(yaw := Wrap(yawRef + p.yaw), t := t)
    }

    /** The cursor search: from the start again if the cursor is ahead, then forward. */
    method Seek(t: real)
      requires Valid() && state.Executing? && 0.0 <= t
      modifies this`cur
      ensures Valid() && Flown(seg[..n], cur, t)
    {
      hide Accepted, JumpAt, Jump, EndOf;
      ghost var segs := seg[..n];
      assert segs[0] == seg[0] && segs[0].t0 == 0.0;
      if t < seg[cur].t0 { cur := 0; }
      while cur + 1 < n && t >= seg[cur + 1].t0
        invariant cur < n && seg[cur].t0 <= t
      {
        cur := cur + 1;
      }
      assert segs[cur] == seg[cur];
      if cur + 1 < n { assert segs[cur + 1] == seg[cur + 1]; }
    }

    /** wfb_prog_sample: whatever the cursor was left at, the pose is PoseAt, its yaw in [-180, 180). */
    method Sample(t: Num) returns (running: bool, out: T.Sampled)
      requires Valid()
      modifies this`state, this`cur
      ensures Valid()
      ensures running == (old(state).Executing? && !Ended(t, total))
      ensures state == if old(state).Executing? && !running then Done else old(state)
      ensures out ==
        if old(state).Done? || (old(state).Executing? && !running) then T.Got(Shown(PoseAt(seg[..n], total), total))
        else if running then T.Got(Shown(if Below(t, 0.0) then FirstPose(seg[..n]) else PoseAt(seg[..n], t.v), if Below(t, 0.0) then 0.0 else t.v))
        else T.NoPoint
      ensures out.Got? ==> -180.0 <= out.p.yaw < 180.0
      ensures out.Got? && state.Done? ==> out.p.yaw == Wrap(yawRef + HeadingAt(seg[..n], n))
    {
      hide Accepted, JumpAt, Jump, EndOf, Pose, PathAt, Wrap, Joined, PoseAt, FirstPose, Dur, HeadingAt;
      if !state.Executing? && !state.Done? { return false, T.NoPoint; }
      ghost var segs := seg[..n];
      TotalIs(sqrt, lim, caps, hover, segs);
      if state.Done? || Ended(t, total) {
        state := Done;
        var last := seg[n - 1];
        EndPose(segs);
        ProgramHeading(sqrt, lim, caps, hover, segs, total);
        WrapAdds(yawRef, Pose(last, last.len).yaw);
        WrapRange(yawRef + Pose(last, last.len).yaw);
        return false, T.Got(Shown(Pose(last, last.len), total));
      }
      var t1 := if Below(t, 0.0) then 0.0 else t.v;
      Seek(t1);
      FlownPose(sqrt, lim, caps, hover, segs, cur, t1, t);
      var sg := seg[cur];
      WrapRange(yawRef + Pose(sg, PathAt(sg, t1 - sg.t0)).yaw);
      running, out := true, T.Got(Shown(Pose(sg, PathAt(sg, t1 - sg.t0)), t1));
    }
  }

  lemma EndPose(segs: seq<Seg>)
    requires segs != [] && segs[0].t0 == 0.0
    ensures PoseAt(segs, Total(segs)) == Pose(segs[|segs| - 1], segs[|segs| - 1].len)
  {
  }

  /** The segment the cursor stops at shows the pose. */
  lemma FlownPose(sqrt: real -> real, l: T.Limits, c: Caps, hover: real, segs: seq<Seg>, k: nat, t1: real, t: Num)
    requires Chained(sqrt, l, c, hover, segs) && segs != [] && Flown(segs, k, t1) && !Ended(t, Total(segs))
    requires t1 == (if Below(t, 0.0) then 0.0 else t.v)
    ensures segs[0].t0 == 0.0
    ensures Pose(segs[k], PathAt(segs[k], t1 - segs[k].t0)) == if Below(t, 0.0) then FirstPose(segs) else PoseAt(segs, t.v)
  {
    hide Accepted, Pose, PathAt, Dur, Joined, EndOf;
    TotalIs(sqrt, l, c, hover, segs);
    FlownUnique(sqrt, l, c, hover, segs, k, SegmentAt(segs, t1, |segs|), t1);
  }

  /** One more accepted segment, starting where and when the last one ended. */
  lemma ChainGrows(sqrt: real -> real, l: T.Limits, c: Caps, hover: real, before: seq<Seg>, sg: Seg)
    requires Chained(sqrt, l, c, hover, before) && Accepted(sqrt, l, c, sg) && sg.t0 == Total(before)
    requires sg.start == if before == [] then T.Point(0.0, 0.0, hover, 0.0, 0.0) else EndOf(before[|before| - 1])
    requires forall i {:trigger JumpAt(sqrt, c, before, i)} :: 0 <= i < |before| ==> JumpAt(sqrt, c, before, i)
    requires Jump(sqrt, c, Leaving(before, |before| - 1), VelOf(sg, sg.f.vIn))
    ensures Chained(sqrt, l, c, hover, before + [sg]) && Total(before + [sg]) == sg.t0 + Dur(sg)
    ensures forall i {:trigger JumpAt(sqrt, c, before + [sg], i)} :: 0 <= i <= |before| ==> JumpAt(sqrt, c, before + [sg], i)
  {
    hide Accepted, EndOf, Dur, VelOf, Jump;
    var segs := before + [sg];
    forall k {:trigger AcceptedAt(sqrt, l, c, segs, k)} | 0 <= k < |segs| ensures AcceptedAt(sqrt, l, c, segs, k) {
      if k < |before| { assert AcceptedAt(sqrt, l, c, before, k); }
    }
    forall k {:trigger Joined(segs, k)} | 0 <= k < |segs| - 1 ensures Joined(segs, k) {
      if k < |before| - 1 { assert Joined(before, k); }
    }
    forall i {:trigger JumpAt(sqrt, c, segs, i)} | 0 <= i < |segs| ensures JumpAt(sqrt, c, segs, i) {
      if i < |before| { assert JumpAt(sqrt, c, before, i); }
    }
  }
}
