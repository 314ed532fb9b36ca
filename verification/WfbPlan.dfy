/**
 API/wfb_prog.c's velocity planner: ramp from v_in to a cruise speed, cruise, ramp to v_out, over a path of given
 length; and the path variable the program then follows. sqrtf is a parameter; SINE ramps are not modelled.
 */
module WfbPlan {
  import opened Reals
  import opened WfbRamp

  const ITERATIONS: nat := 30
  const SLACK: real := 0.0001

  /** The staged fields the planner reads, with the path length already derived. */
  datatype Request = Request(prof: Profile, v: real, a: real, j: real, vIn: real, vOut: real, len: real)

  /** wfb_prog_motion_ok, and a path that is not of zero length. */
  predicate MotionOk(q: Request) {
    q.v > 0.0 && q.a > 0.0 && (q.prof.Scurve? ==> q.j > 0.0) &&
    0.0 <= q.vIn <= q.v && 0.0 <= q.vOut <= q.v && q.len > 0.0
  }

  datatype Ramp = Ramp(time: real, rho: real)

  function RampTime(sqrt: real -> real, q: Request, dv: real): Ramp
    requires MotionOk(q)
  {
    if !(dv > 0.0) then Ramp(0.0, 0.0)
    else
      match q.prof
      case Quintic => Ramp(1.875 * dv / q.a, 0.0)
      case Scurve =>
        if dv >= Knee(q.a, q.j) then
          var ta := dv / q.a + q.a / q.j;
          Ramp(ta, if ta != 0.0 then (q.a / q.j) / ta else 0.0)
        else Ramp(2.0 * sqrt(dv / q.j), 0.5)
      case Trap => Ramp(dv / q.a, 0.0)
  }

  /** The speed change from which an S-curve reaches its peak acceleration. */
  function Knee(a: real, j: real): real
    requires j > 0.0
  {
    a * a / j
  }

  /** Ground covered changing speed from v to w in time ta, at the mean of both. */
  function MeanDistance(v: real, w: real, ta: real): real { 0.5 * (v + w) * ta }

  function RampDist(sqrt: real -> real, q: Request, vc: real): real
    requires MotionOk(q)
  {
    MeanDistance(q.vIn, vc, RampTime(sqrt, q, vc - q.vIn).time) + MeanDistance(vc, q.vOut, RampTime(sqrt, q, vc - q.vOut).time)
  }

  /** What the planner stores once the cruise speed is chosen. */
  datatype Motion = Motion(q: Request, vc: real, ta0: real, tc: real, ta1: real, rho0: real, rho1: real, d0: real, dur: real)

  function MotionAt(sqrt: real -> real, q: Request, vc: real): Motion
    requires MotionOk(q)
  {
    var up, down := RampTime(sqrt, q, vc - q.vIn), RampTime(sqrt, q, vc - q.vOut);
    var d0 := MeanDistance(q.vIn, vc, up.time);
    var lc := q.len - d0 - MeanDistance(vc, q.vOut, down.time);
    var tc := if vc > 0.0 then (if lc < 0.0 then 0.0 else lc) / vc else 0.0;
    Motion(q, vc, up.time, tc, down.time, up.rho, down.rho, d0, up.time + tc + down.time)
  }

  /** wfb_prog_seg_s: the path variable at local time t. */
  function PathS(m: Motion, t: real): real {
    if !(t > 0.0) then 0.0
    else if t >= m.dur then m.q.len
    else
      var s :=
        if t < m.ta0 then RampPiece(m.q.prof, m.rho0, m.q.vIn, m.vc, m.ta0, t)
        else if t < m.ta0 + m.tc then m.d0 + m.vc * (t - m.ta0)
        else m.d0 + m.vc * m.tc + RampPiece(m.q.prof, m.rho1, m.vc, m.q.vOut, m.ta1, t - (m.ta0 + m.tc));
      if s < m.q.len then s else m.q.len
  }

  /** Ground covered t into a ramp from v to w lasting ta. */
  function RampPiece(prof: Profile, rho: real, v: real, w: real, ta: real, t: real): real {
    Piece(v, w, ta, t, RampF(prof, rho, if ta != 0.0 then t / ta else 0.0))
  }

  function Piece(v: real, w: real, ta: real, t: real, f: real): real { v * t + (w - v) * ta * f }

  // ---------- one ramp ----------

  /** Moves from x to y with a speed between low and high throughout. */
  ghost predicate Moves(from: real, to: real, low: real, high: real, d: real) { low * d <= to - from <= high * d }

  lemma RampEnds(prof: Profile, rho: real, v: real, w: real, ta: real)
    requires ta > 0.0
    ensures RampPiece(prof, rho, v, w, ta, 0.0) == 0.0
    ensures RampPiece(prof, rho, v, w, ta, ta) == MeanDistance(v, w, ta)
  {
    hide RampF, Piece, MeanDistance;
    Ratio(0.0, ta, ta);
    RampRises(prof, rho, 0.0, 0.0);
    EndValue(v, w, ta);
  }

  lemma EndValue(v: real, w: real, ta: real)
    ensures Piece(v, w, ta, ta, 0.5) == MeanDistance(v, w, ta) && Piece(v, w, ta, 0.0, 0.0) == 0.0
  {
  }

  lemma RampMoves(prof: Profile, rho: real, v: real, w: real, ta: real, x: real, y: real)
    requires 0.0 <= x <= y <= ta && ta > 0.0
    ensures v <= w ==> Moves(RampPiece(prof, rho, v, w, ta, x), RampPiece(prof, rho, v, w, ta, y), v, w, y - x)
    ensures w <= v ==> Moves(RampPiece(prof, rho, v, w, ta, x), RampPiece(prof, rho, v, w, ta, y), w, v, y - x)
  {
    hide RampF, Moves, Piece;
    var fx, fy := RampF(prof, rho, x / ta), RampF(prof, rho, y / ta);
    Ratio(x, y, ta);
    RampRises(prof, rho, x / ta, y / ta);
    Stretch(ta, fy - fx, y / ta - x / ta);
    PieceMoves(v, w, ta, x, y, fx, fy);
  }

  lemma Stretch(ta: real, f: real, d: real)
    requires ta > 0.0 && f <= d
    ensures ta * f <= ta * d
  {
    MulMono(f, d, ta);
  }

  lemma PieceMoves(v: real, w: real, ta: real, x: real, y: real, fx: real, fy: real)
    requires ta > 0.0 && x <= y && 0.0 <= fy - fx && ta * (fy - fx) <= y - x
    ensures v <= w ==> Moves(Piece(v, w, ta, x, fx), Piece(v, w, ta, y, fy), v, w, y - x)
    ensures w <= v ==> Moves(Piece(v, w, ta, x, fx), Piece(v, w, ta, y, fy), w, v, y - x)
  {
    PieceDifference(v, w, ta, x, y, fx, fy);
    MulSign(ta, fy - fx);
    Between(v, w, ta * (fy - fx), y - x);
  }

  lemma PieceDifference(v: real, w: real, ta: real, x: real, y: real, fx: real, fy: real)
    ensures Piece(v, w, ta, y, fy) - Piece(v, w, ta, x, fx) == v * (y - x) + (w - v) * (ta * (fy - fx))
  {
  }

  lemma Between(v: real, w: real, k: real, d: real)
    requires 0.0 <= k <= d
    ensures v <= w ==> v * d <= v * d + (w - v) * k <= w * d
    ensures w <= v ==> w * d <= v * d + (w - v) * k <= v * d
  {
    assert w * d == v * d + (w - v) * d;
    assert (w - v) * k == -((v - w) * k) && (w - v) * d == -((v - w) * d);
    if v <= w { MulSign(w - v, k); MulMono(k, d, w - v); }
    if w <= v { MulSign(v - w, k); MulMono(k, d, v - w); }
  }

  // ---------- the whole segment ----------

  /** What the planner guarantees of its cruise speed. */
  ghost predicate Planned(sqrt: real -> real, q: Request, vc: real) {
    MotionOk(q) && Max(q.vIn, q.vOut) <= vc <= q.v &&
    RampDist(sqrt, q, Max(q.vIn, q.vOut)) <= q.len + SLACK &&
    (RampDist(sqrt, q, vc) <= q.len || vc == Max(q.vIn, q.vOut))
  }

  lemma RampTimePositive(sqrt: real -> real, q: Request, dv: real)
    requires IsSqrt(sqrt) && MotionOk(q)
    ensures dv > 0.0 <==> RampTime(sqrt, q, dv).time > 0.0
    ensures RampTime(sqrt, q, dv).time >= 0.0
  {
    if dv > 0.0 {
      QuotientPos(dv, q.a);
      if q.prof.Quintic? { QuotientPos(1.875 * dv, q.a); }
      if q.prof.Scurve? { QuotientPos(q.a, q.j); QuotientPos(dv, q.j); }
    }
  }

  lemma QuotientPos(x: real, y: real)
    requires x > 0.0 && y > 0.0
    ensures x / y > 0.0
  {
    var z := x / y;
    assert z * y == x;
    if z <= 0.0 { MulSign(-z, y); }
  }

  function First(m: Motion, t: real): real { RampPiece(m.q.prof, m.rho0, m.q.vIn, m.vc, m.ta0, t) }

  function Cruise(m: Motion, t: real): real { m.d0 + m.vc * (t - m.ta0) }

  function Last(m: Motion, t: real): real {
    m.d0 + m.vc * m.tc +
    (if m.ta1 > 0.0 then RampPiece(m.q.prof, m.rho1, m.vc, m.q.vOut, m.ta1, t - (m.ta0 + m.tc)) else 0.0)
  }

  /** The path variable before the clamp to len, on [0, dur]. */
  function Unclamped(m: Motion, t: real): real {
    if t < m.ta0 then First(m, t) else if t < m.ta0 + m.tc then Cruise(m, t) else Last(m, t)
  }

  /** What the planned pieces satisfy; all the motion theorem needs. */
  ghost predicate Pieces(m: Motion) {
    0.0 <= m.q.vIn <= m.vc && 0.0 <= m.q.vOut <= m.vc && m.vc > 0.0 && m.q.len > 0.0 &&
    0.0 <= m.ta0 && 0.0 <= m.tc && 0.0 <= m.ta1 && m.dur == m.ta0 + m.tc + m.ta1 &&
    m.d0 == MeanDistance(m.q.vIn, m.vc, m.ta0) &&
    m.d0 + m.vc * m.tc + MeanDistance(m.vc, m.q.vOut, m.ta1) >= m.q.len
  }

  lemma PlannedPieces(sqrt: real -> real, q: Request, vc: real)
    requires IsSqrt(sqrt) && Planned(sqrt, q, vc) && vc > 0.0
    ensures Pieces(MotionAt(sqrt, q, vc))
  {
    hide RampTime, MeanDistance;
    RampTimePositive(sqrt, q, vc - q.vIn);
    RampTimePositive(sqrt, q, vc - q.vOut);
    var m := MotionAt(sqrt, q, vc);
    var lc := q.len - m.d0 - MeanDistance(vc, q.vOut, m.ta1);
    var cruise := if lc < 0.0 then 0.0 else lc;
    assert m.tc == cruise / vc && vc * m.tc == cruise;
    if m.tc < 0.0 { MulPos(-m.tc, vc); }
  }

  lemma CruiseMoves(m: Motion, x: real, y: real)
    requires Pieces(m) && m.ta0 <= x <= y <= m.ta0 + m.tc
    ensures Moves(Cruise(m, x), Cruise(m, y), 0.0, m.vc, y - x)
    ensures Cruise(m, m.ta0) == m.d0 && Cruise(m, m.ta0 + m.tc) == m.d0 + m.vc * m.tc
  {
    assert m.vc * (y - m.ta0) - m.vc * (x - m.ta0) == m.vc * (y - x);
    MulSign(m.vc, y - x);
  }

  /** A slower lower bound still holds. */
  lemma Loosen(from: real, to: real, low: real, high: real, d: real)
    requires Moves(from, to, low, high, d) && 0.0 <= low && d >= 0.0
    ensures Moves(from, to, 0.0, high, d)
  {
    MulSign(low, d);
  }

  lemma Chain(p: real, q: real, r: real, high: real, d: real, e: real)
    requires Moves(p, q, 0.0, high, d) && Moves(q, r, 0.0, high, e)
    ensures Moves(p, r, 0.0, high, d + e)
  {
    assert high * (d + e) == high * d + high * e;
  }

  lemma FirstMoves(m: Motion, x: real, y: real)
    requires Pieces(m) && 0.0 <= x <= y <= m.ta0 && m.ta0 > 0.0
    ensures Moves(First(m, x), First(m, y), 0.0, m.vc, y - x) && First(m, m.ta0) == m.d0 && First(m, 0.0) == 0.0
  {
    hide RampPiece;
    RampMoves(m.q.prof, m.rho0, m.q.vIn, m.vc, m.ta0, x, y);
    RampEnds(m.q.prof, m.rho0, m.q.vIn, m.vc, m.ta0);
    Loosen(First(m, x), First(m, y), m.q.vIn, m.vc, y - x);
  }

  lemma LastMoves(m: Motion, x: real, y: real)
    requires Pieces(m) && m.ta0 + m.tc <= x <= y <= m.dur
    ensures Moves(Last(m, x), Last(m, y), 0.0, m.vc, y - x)
    ensures Last(m, m.ta0 + m.tc) == m.d0 + m.vc * m.tc && Last(m, m.dur) >= m.q.len
  {
    hide RampPiece;
    var k := m.ta0 + m.tc;
    if m.ta1 > 0.0 {
      RampMoves(m.q.prof, m.rho1, m.vc, m.q.vOut, m.ta1, x - k, y - k);
      RampEnds(m.q.prof, m.rho1, m.vc, m.q.vOut, m.ta1);
      var px, py := RampPiece(m.q.prof, m.rho1, m.vc, m.q.vOut, m.ta1, x - k), RampPiece(m.q.prof, m.rho1, m.vc, m.q.vOut, m.ta1, y - k);
      Loosen(px, py, m.q.vOut, m.vc, y - x);
      assert m.dur - k == m.ta1;
    } else {
      assert MeanDistance(m.vc, m.q.vOut, 0.0) == 0.0;
    }
  }

  /** Across both joints the path variable is continuous, never falls and never moves faster than vc. */
  lemma UnclampedMoves(m: Motion, x: real, y: real)
    requires Pieces(m) && 0.0 <= x <= y <= m.dur
    ensures Moves(Unclamped(m, x), Unclamped(m, y), 0.0, m.vc, y - x)
  {
    hide First, Cruise, Last, Moves, MeanDistance;
    var j, k := m.ta0, m.ta0 + m.tc;
    if y < j {
      FirstMoves(m, x, y);
    } else if x < j && y < k {
      FirstMoves(m, x, j);
      CruiseMoves(m, j, y);
      Chain(First(m, x), m.d0, Cruise(m, y), m.vc, j - x, y - j);
    } else if x < j {
      FirstMoves(m, x, j);
      CruiseMoves(m, j, k);
      LastMoves(m, k, y);
      Chain(First(m, x), m.d0, Cruise(m, k), m.vc, j - x, k - j);
      Chain(First(m, x), Cruise(m, k), Last(m, y), m.vc, k - x, y - k);
    } else if y < k {
      CruiseMoves(m, x, y);
    } else if x < k {
      CruiseMoves(m, x, k);
      LastMoves(m, k, y);
      Chain(Cruise(m, x), Cruise(m, k), Last(m, y), m.vc, k - x, y - k);
    } else {
      LastMoves(m, x, y);
    }
  }

  /** Time held inside [0, dur]. */
  function Within(m: Motion, t: real): real { if t < 0.0 then 0.0 else if t > m.dur then m.dur else t }

  lemma PathIs(m: Motion, t: real)
    requires Pieces(m)
    ensures PathS(m, t) == (if Unclamped(m, Within(m, t)) < m.q.len then Unclamped(m, Within(m, t)) else m.q.len)
  {
    hide RampPiece, Moves, MeanDistance;
    if m.ta0 > 0.0 { FirstMoves(m, 0.0, 0.0); }
    LastMoves(m, m.ta0 + m.tc, m.dur);
    assert m.vc * 0.0 == 0.0;
    if m.ta0 == 0.0 {
      assert m.d0 == 0.0 by { MeanZero(m.q.vIn, m.vc); }
    }
    if m.dur == 0.0 { assert m.ta0 == 0.0 && m.tc == 0.0; }
  }

  lemma MeanZero(v: real, w: real)
    ensures MeanDistance(v, w, 0.0) == 0.0
  {
  }

  /** The path variable starts at 0, ends at len at dur, never decreases, and never moves faster than the cruise
      speed between any two times: continuous at both joints, whatever ramps the planner chose. */
  lemma PathMoves(sqrt: real -> real, q: Request, vc: real, t1: real, t2: real)
    requires IsSqrt(sqrt) && Planned(sqrt, q, vc) && vc > 0.0 && t1 <= t2
    ensures var m := MotionAt(sqrt, q, vc);
      0.0 <= PathS(m, t2) - PathS(m, t1) <= vc * (t2 - t1) && 0.0 <= PathS(m, t1) <= q.len &&
      PathS(m, 0.0) == 0.0 && PathS(m, m.dur) == q.len && m.dur > 0.0
  {
    hide MotionAt, Unclamped, Pieces, PathS, RampTime, RampDist;
    PlannedPieces(sqrt, q, vc);
    var m := MotionAt(sqrt, q, vc);
    MotionIs(sqrt, q, vc);
    EndIsLen(m);
    ClampedMoves(m, t1, t2);
    ClampedMoves(m, if t1 < 0.0 then t1 else 0.0, t1);
    ClampedMoves(m, t1, if t1 > m.dur then t1 else m.dur);
    PathOutside(m, t1);
  }

  lemma PathOutside(m: Motion, t: real)
    requires Pieces(m)
    ensures (t <= 0.0 ==> PathS(m, t) == 0.0) && (t > 0.0 && t >= m.dur ==> PathS(m, t) == m.q.len)
  {
  }

  /** Cut off at len, two values come no further apart. */
  lemma CutOff(a: real, b: real, len: real, d: real, e: real)
    requires 0.0 <= b - a <= d <= e
    ensures 0.0 <= (if b < len then b else len) - (if a < len then a else len) <= e
  {
  }

  lemma MovesWithin(from: real, to: real, high: real, d: real, e: real)
    requires Moves(from, to, 0.0, high, d) && high >= 0.0 && d <= e
    ensures 0.0 <= to - from <= high * d <= high * e
  {
    MulMono(d, e, high);
  }

  lemma Forward(m: Motion)
    requires Pieces(m)
    ensures m.vc >= 0.0 && m.dur >= 0.0
  {
  }

  lemma ClampedMoves(m: Motion, t1: real, t2: real)
    requires Pieces(m) && t1 <= t2
    ensures 0.0 <= PathS(m, t2) - PathS(m, t1) <= m.vc * (t2 - t1)
  {
    hide Unclamped, PathS, Pieces, Moves;
    PathIs(m, t1);
    PathIs(m, t2);
    Forward(m);
    var w1, w2 := Within(m, t1), Within(m, t2);
    UnclampedMoves(m, w1, w2);
    MovesWithin(Unclamped(m, w1), Unclamped(m, w2), m.vc, w2 - w1, t2 - t1);
    CutOff(Unclamped(m, w1), Unclamped(m, w2), m.q.len, m.vc * (w2 - w1), m.vc * (t2 - t1));
  }

  lemma MotionIs(sqrt: real -> real, q: Request, vc: real)
    requires MotionOk(q) && Pieces(MotionAt(sqrt, q, vc))
    ensures var m := MotionAt(sqrt, q, vc); m.vc == vc && m.q == q && m.dur >= 0.0 && q.len > 0.0
  {
  }

  lemma EndIsLen(m: Motion)
    requires Pieces(m)
    ensures m.dur > 0.0 && Unclamped(m, 0.0) == 0.0 && PathS(m, 0.0) == 0.0 && PathS(m, m.dur) == m.q.len
  {
    hide RampPiece, MeanDistance;
    if m.ta0 > 0.0 { FirstMoves(m, 0.0, 0.0); }
    LastMoves(m, m.ta0 + m.tc, m.dur);
    MeanZero(m.q.vIn, m.vc);
    MeanZero(m.vc, m.q.vOut);
  }

  /** With no cruise speed the segment takes no time, and the path variable jumps over the whole length at once. */
  lemma NoSpeedJumps(sqrt: real -> real, q: Request, t: real)
    requires IsSqrt(sqrt) && Planned(sqrt, q, 0.0) && t > 0.0
    ensures var m := MotionAt(sqrt, q, 0.0); m.dur == 0.0 && PathS(m, 0.0) == 0.0 && PathS(m, t) == q.len > 0.0
  {
  }

  /** Never backwards, never faster than the segment's own v: in particular, continuous. */
  ghost predicate Smooth(m: Motion) {
    forall t1, t2 {:trigger PathS(m, t1), PathS(m, t2)} :: t1 <= t2 ==> 0.0 <= PathS(m, t2) - PathS(m, t1) <= m.q.v * (t2 - t1)
  }

  /** So the planned path is smooth exactly when the cruise speed is positive. */
  lemma SmoothIffSpeed(sqrt: real -> real, q: Request, vc: real)
    requires IsSqrt(sqrt) && Planned(sqrt, q, vc)
    ensures Smooth(MotionAt(sqrt, q, vc)) <==> vc > 0.0
  {
    hide PathS;
    if vc > 0.0 { SpeedIsSmooth(sqrt, q, vc); } else { JumpTooFast(sqrt, q); }
  }

  lemma SpeedIsSmooth(sqrt: real -> real, q: Request, vc: real)
    requires IsSqrt(sqrt) && Planned(sqrt, q, vc) && vc > 0.0
    ensures Smooth(MotionAt(sqrt, q, vc))
  {
    hide PathS, MotionAt, RampDist;
    var m := MotionAt(sqrt, q, vc);
    assert m.q == q by { MotionFor(sqrt, q, vc); }
    forall t1, t2 | t1 <= t2 ensures 0.0 <= PathS(m, t2) - PathS(m, t1) <= q.v * (t2 - t1) {
      PathMoves(sqrt, q, vc, t1, t2);
      Slower(PathS(m, t2) - PathS(m, t1), vc, q.v, t2 - t1);
    }
  }

  lemma MotionFor(sqrt: real -> real, q: Request, vc: real)
    requires MotionOk(q)
    ensures MotionAt(sqrt, q, vc).q == q
  {
  }

  lemma Slower(d: real, v: real, w: real, t: real)
    requires v <= w && t >= 0.0 && d <= v * t
    ensures d <= w * t
  {
    MulMono(v, w, t);
  }

  lemma JumpTooFast(sqrt: real -> real, q: Request)
    requires IsSqrt(sqrt) && Planned(sqrt, q, 0.0)
    ensures !Smooth(MotionAt(sqrt, q, 0.0))
  {
    var t := 0.5 * q.len / q.v;
    assert t * q.v == 0.5 * q.len;
    QuotientPos(0.5 * q.len, q.v);
    NoSpeedJumps(sqrt, q, t);
    var m := MotionAt(sqrt, q, 0.0);
    hide RampTime, RampDist;
    assert PathS(m, t) - PathS(m, 0.0) > m.q.v * (t - 0.0);
  }

  // ---------- bisection ----------

  lemma RampTimeMono(sqrt: real -> real, q: Request, x: real, y: real)
    requires IsSqrt(sqrt) && MotionOk(q) && x <= y
    ensures 0.0 <= RampTime(sqrt, q, x).time <= RampTime(sqrt, q, y).time
  {
    RampTimePositive(sqrt, q, x);
    RampTimePositive(sqrt, q, y);
    if x > 0.0 {
      DivMono(x, y, q.a);
      DivMono(1.875 * x, 1.875 * y, q.a);
      if q.prof.Scurve? { ScurveTimeMono(sqrt, q, x, y); }
    }
  }

  lemma ScurveTimeMono(sqrt: real -> real, q: Request, x: real, y: real)
    requires IsSqrt(sqrt) && MotionOk(q) && q.prof.Scurve? && 0.0 < x <= y
    ensures RampTime(sqrt, q, x).time <= RampTime(sqrt, q, y).time
  {
    hide Knee;
    DivMono(x, y, q.a);
    DivMono(x, y, q.j);
    QuotientPos(x, q.j);
    SqrtMono(sqrt, x / q.j, y / q.j);
    if x < Knee(q.a, q.j) <= y { ScurveCross(x, y, q.a, q.j, sqrt(x / q.j)); }
  }

  /** Where the S-curve stops being limited by jerk alone, both ramp times agree. */
  lemma ScurveCross(x: real, y: real, a: real, j: real, root: real)
    requires a > 0.0 && j > 0.0 && 0.0 < x < Knee(a, j) <= y && root >= 0.0 && root * root == x / j
    ensures 2.0 * root <= y / a + a / j
  {
    var k := a / j;
    QuotientPos(a, j);
    assert k * j == a;
    assert Knee(a, j) == k * a by { assert (k * a) * j == a * a; DivIs(a * a, j, k * a); }
    assert root * root <= k * k by { DivMono(x, k * a, j); DivIs(k * a, j, k * k); }
    SquareOrder(root, k);
    DivMono(k * a, y, a);
    DivIs(k * a, a, k);
  }

  lemma DivIs(x: real, y: real, z: real)
    requires y > 0.0 && z * y == x
    ensures x / y == z
  {
  }

  lemma RampDistMono(sqrt: real -> real, q: Request, x: real, y: real)
    requires IsSqrt(sqrt) && MotionOk(q) && 0.0 <= x <= y
    ensures RampDist(sqrt, q, x) <= RampDist(sqrt, q, y)
  {
    hide RampTime, MeanDistance;
    RampTimeMono(sqrt, q, x - q.vIn, y - q.vIn);
    RampTimeMono(sqrt, q, x - q.vOut, y - q.vOut);
    MeanMono(q.vIn, x, q.vIn, y, RampTime(sqrt, q, x - q.vIn).time, RampTime(sqrt, q, y - q.vIn).time);
    MeanMono(x, q.vOut, y, q.vOut, RampTime(sqrt, q, x - q.vOut).time, RampTime(sqrt, q, y - q.vOut).time);
  }

  lemma MeanMono(v0: real, v1: real, w0: real, w1: real, s: real, t: real)
    requires 0.0 <= v0 <= w0 && 0.0 <= v1 <= w1 && 0.0 <= s <= t
    ensures MeanDistance(v0, v1, s) <= MeanDistance(w0, w1, t)
  {
    MulMono(0.5 * (v0 + v1), 0.5 * (w0 + w1), s);
    MulMono(s, t, 0.5 * (w0 + w1));
  }

  function Halved(w: real, n: nat): (r: real)
    ensures w >= 0.0 ==> 0.0 <= r <= w
    ensures w > 0.0 ==> r > 0.0
  {
    if n == 0 then w else 0.5 * Halved(w, n - 1)
  }

  lemma {:induction false} HalvedAdds(w: real, n: nat, m: nat)
    ensures Halved(w, n + m) == Halved(Halved(w, n), m)
  {
    if m > 0 { HalvedAdds(w, n, m - 1); }
  }

  /** vc is the fastest cruise speed whose ramps fit, to within the last bisection interval. */
  ghost predicate Fastest(sqrt: real -> real, q: Request, vc: real) {
    Planned(sqrt, q, vc) &&
    (vc < q.v ==> RampDist(sqrt, q, vc + Halved(q.v - Max(q.vIn, q.vOut), ITERATIONS)) > q.len) &&
    (vc > 0.0 <==> HasPace(sqrt, q))
  }

  /** The request leaves some speed to cruise at: it asks for one at an end, or one bisection interval of it fits. */
  predicate HasPace(sqrt: real -> real, q: Request)
    requires MotionOk(q)
  {
    q.vIn > 0.0 || q.vOut > 0.0 || RampDist(sqrt, q, Halved(q.v, ITERATIONS)) <= q.len
  }

  /** The planner's refusal: even the faster of the two end speeds does not fit. */
  predicate Plannable(sqrt: real -> real, q: Request)
    requires MotionOk(q)
  {
    RampDist(sqrt, q, Max(q.vIn, q.vOut)) <= q.len + SLACK
  }

  /** The lower end of [lo, hi] after n halvings that keep the half where the ramps stop fitting. */
  function Bisected(sqrt: real -> real, q: Request, lo: real, hi: real, n: nat): real
    requires MotionOk(q)
    decreases n
  {
    if n == 0 then lo
    else
      var mid := 0.5 * (lo + hi);
      if RampDist(sqrt, q, mid) <= q.len then Bisected(sqrt, q, mid, hi, n - 1) else Bisected(sqrt, q, lo, mid, n - 1)
  }

  /** The cruise speed the planner settles on. */
  function CruiseSpeed(sqrt: real -> real, q: Request): real
    requires MotionOk(q)
  {
    if RampDist(sqrt, q, q.v) <= q.len then q.v else Bisected(sqrt, q, Max(q.vIn, q.vOut), q.v, ITERATIONS)
  }

  /** Bisecting an interval whose upper end does not fit: the result fits or never left the start, and one last interval
      above it does not fit. From zero, anything found is at least that interval. */
  lemma {:induction false} BisectedFits(sqrt: real -> real, q: Request, start: real, lo: real, hi: real, n: nat)
    requires MotionOk(q) && 0.0 <= start <= lo <= hi <= q.v && (RampDist(sqrt, q, lo) <= q.len || lo == start)
    requires RampDist(sqrt, q, hi) > q.len && (start == 0.0 && lo > 0.0 ==> lo >= hi - lo)
    ensures var r := Bisected(sqrt, q, lo, hi, n);
      lo <= r <= hi && (RampDist(sqrt, q, r) <= q.len || r == start) && RampDist(sqrt, q, r + Halved(hi - lo, n)) > q.len &&
      (start == 0.0 && r > 0.0 ==> r >= Halved(hi - lo, n))
    decreases n
  {
    hide RampDist;
    if n > 0 {
      var mid := 0.5 * (lo + hi);
      HalvedAdds(hi - lo, 1, n - 1);
      assert Halved(hi - lo, 1) == 0.5 * (hi - lo) by { assert Halved(hi - lo, 0) == hi - lo; }
      if RampDist(sqrt, q, mid) <= q.len {
        BisectedFits(sqrt, q, start, mid, hi, n - 1);
        assert hi - mid == 0.5 * (hi - lo);
      } else {
        BisectedFits(sqrt, q, start, lo, mid, n - 1);
        assert mid - lo == 0.5 * (hi - lo);
      }
    }
  }

  lemma CruiseIsFastest(sqrt: real -> real, q: Request)
    requires IsSqrt(sqrt) && MotionOk(q) && Plannable(sqrt, q)
    ensures Fastest(sqrt, q, CruiseSpeed(sqrt, q))
  {
    hide RampDist, Bisected;
    var start, step := Max(q.vIn, q.vOut), Halved(q.v, ITERATIONS);
    if RampDist(sqrt, q, q.v) <= q.len {
      RampDistMono(sqrt, q, step, q.v);
    } else {
      BisectedFits(sqrt, q, start, start, q.v, ITERATIONS);
      var vc := CruiseSpeed(sqrt, q);
      assert start == 0.0 ==> q.v - start == q.v;
      if start == 0.0 && vc > 0.0 { RampDistMono(sqrt, q, step, vc); }
    }
  }

  /** What a caller can tell from the request: the planned path is smooth exactly when the request has pace. */
  lemma SmoothIffPace(sqrt: real -> real, q: Request)
    requires IsSqrt(sqrt) && MotionOk(q) && Plannable(sqrt, q)
    ensures Smooth(MotionAt(sqrt, q, CruiseSpeed(sqrt, q))) <==>
      q.vIn > 0.0 || q.vOut > 0.0 || RampDist(sqrt, q, Halved(q.v, ITERATIONS)) <= q.len
  {
    hide Smooth, RampDist, CruiseSpeed, MotionAt, Planned;
    CruiseIsFastest(sqrt, q);
    SmoothIffSpeed(sqrt, q, CruiseSpeed(sqrt, q));
  }

  /** An accepted request without pace: from rest to rest over a millimetre with next to no acceleration. */
  const CREEP := Request(Trap, 1.0, 0.0000000000000001, 1.0, 0.0, 0.0, 0.001)

  lemma CreepJumps(sqrt: real -> real)
    requires IsSqrt(sqrt)
    ensures MotionOk(CREEP) && Plannable(sqrt, CREEP) && !Smooth(MotionAt(sqrt, CREEP, CruiseSpeed(sqrt, CREEP)))
  {
    hide Smooth, CruiseSpeed, MotionAt, RampDist, Halved;
    CreepFits(sqrt);
    SmoothIffPace(sqrt, CREEP);
  }

  lemma CreepFits(sqrt: real -> real)
    ensures MotionOk(CREEP) && Plannable(sqrt, CREEP) && !HasPace(sqrt, CREEP)
  {
    hide Halved;
    var w := Halved(1.0, 30);
    Thirtieth();
    SquareAtLeast(w, 0.0000000009);
    CreepDist(sqrt, w);
    QuotientAbove(w * w, CREEP.a, 0.001);
  }

  lemma CreepDist(sqrt: real -> real, w: real)
    requires w >= 0.0
    ensures MotionOk(CREEP) && RampDist(sqrt, CREEP, w) == w * w / CREEP.a
  {
    assert w * (w / CREEP.a) == w * w / CREEP.a;
  }

  lemma SquareAtLeast(x: real, y: real)
    requires x >= y >= 0.0
    ensures x * x >= y * y
  {
    MulMono(y, x, x);
    MulMono(y, x, y);
  }

  lemma QuotientAbove(x: real, y: real, z: real)
    requires y > 0.0 && x > y * z
    ensures x / y > z
  {
    var r := x / y;
    assert r * y == x;
    if r <= z { MulMono(r, z, y); }
  }

  lemma Halved10(w: real)
    ensures Halved(w, 10) == w / 1024.0
  {
    Halved2(w);
    HalvedAdds(w, 2, 2);
    Halved2(0.25 * w);
    HalvedAdds(w, 4, 2);
    Halved2(0.0625 * w);
    HalvedAdds(w, 6, 2);
    Halved2(0.015625 * w);
    HalvedAdds(w, 8, 2);
    Halved2(0.00390625 * w);
  }

  lemma Halved2(w: real)
    ensures Halved(w, 2) == 0.25 * w
  {
    assert Halved(w, 1) == 0.5 * Halved(w, 0);
  }

  /** 2 to the power of minus 30. */
  lemma Thirtieth()
    ensures 0.0000000009 <= Halved(1.0, 30)
  {
    hide Halved;
    HalvedAdds(1.0, 20, 10);
    HalvedAdds(1.0, 10, 10);
    Halved10(1.0);
    Halved10(Halved(1.0, 10));
    Halved10(Halved(1.0, 20));
  }

  /** A segment's plan, filled in at commit. */
  class Segment {
    const q: Request
    var vc: real
    var ta0: real
    var tc: real
    var ta1: real
    var rho0: real
    var rho1: real
    var d0: real
    var dur: real

    constructor (q: Request)
      ensures this.q == q
    {
      this.q := q;
      vc, ta0, tc, ta1, rho0, rho1, d0, dur := 0.0, 0.0, 0.0, 0.0, 0.0, 0.0, 0.0, 0.0;
    }

    function View(): Motion
      reads this
    {
      Motion(q, vc, ta0, tc, ta1, rho0, rho1, d0, dur)
    }

    /** The bisection loop. */
    method Bisect(sqrt: real -> real, start: real) returns (lo: real)
      requires IsSqrt(sqrt) && MotionOk(q) && start == Max(q.vIn, q.vOut) && RampDist(sqrt, q, q.v) > q.len
      ensures lo == Bisected(sqrt, q, start, q.v, ITERATIONS)
      ensures start <= lo <= q.v && (RampDist(sqrt, q, lo) <= q.len || lo == start)
      ensures RampDist(sqrt, q, lo + Halved(q.v - start, ITERATIONS)) > q.len
      ensures start == 0.0 ==> (lo > 0.0 <==> RampDist(sqrt, q, Halved(q.v, ITERATIONS)) <= q.len)
    {
      hide RampDist;
      lo := start;
      var hi := q.v;
      for it := 0 to ITERATIONS
        invariant Bisected(sqrt, q, lo, hi, ITERATIONS - it) == Bisected(sqrt, q, start, q.v, ITERATIONS)
      {
        var mid := 0.5 * (lo + hi);
        if RampDist(sqrt, q, mid) <= q.len { lo := mid; } else { hi := mid; }
      }
      BisectedFits(sqrt, q, start, start, q.v, ITERATIONS);
      assert start == 0.0 ==> q.v - start == q.v;
      if start == 0.0 && lo > 0.0 { RampDistMono(sqrt, q, Halved(q.v, ITERATIONS), lo); }
    }

    /** wfb_prog_plan. */
    method Plan(sqrt: real -> real) returns (ok: bool)
      requires IsSqrt(sqrt) && MotionOk(q)
      modifies this`vc, this`ta0, this`tc, this`ta1, this`rho0, this`rho1, this`d0, this`dur
      ensures ok <==> RampDist(sqrt, q, Max(q.vIn, q.vOut)) <= q.len + SLACK
      ensures ok ==> vc == CruiseSpeed(sqrt, q) && Fastest(sqrt, q, vc) && View() == MotionAt(sqrt, q, vc)
      ensures ok ==> (Smooth(View()) <==> HasPace(sqrt, q))
      ensures !ok ==> View() == old(View())
    {
      hide RampDist, RampTime, MeanDistance, Smooth, Bisected, Fastest;
      var lo := if q.vIn > q.vOut then q.vIn else q.vOut;
      if RampDist(sqrt, q, lo) > q.len + SLACK { return false; }
      if RampDist(sqrt, q, q.v) <= q.len { lo := q.v; } else { lo := Bisect(sqrt, lo); }
      CruiseIsFastest(sqrt, q);
      SmoothIffPace(sqrt, q);
      vc := lo;
      var up, down := RampTime(sqrt, q, lo - q.vIn), RampTime(sqrt, q, lo - q.vOut);
      ta0, rho0 := up.time, up.rho;
      ta1, rho1 := down.time, down.rho;
      d0 := MeanDistance(q.vIn, lo, ta0);
      var lc := q.len - d0 - MeanDistance(lo, q.vOut, ta1);
      if lc < 0.0 { lc := 0.0; }
      tc := if lo > 0.0 then lc / lo else 0.0;
      dur := ta0 + tc + ta1;
      ok := true;
    }
  }
}
