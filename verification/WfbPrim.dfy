/**
 API/wfb_prim.c: the ground-station flight sequencer, IDLE through CLIMB, HOVER, TRAJ, RETURN and SETTLE to DESCEND.
 */
module WfbPrim {
  import opened Reals
  import opened WfbTypes

  datatype Phase = Idle | Climb | Hover | Traj | Return | Settle | Descend

  datatype Cfg = Cfg(hoverZ: real, rate: real, radius: real, settleTime: real, timeout: real)

  /** The default table. */
  const CFG := Cfg(0.5, 0.3, 0.15, 1.0, 10.0)

  /** A position estimate, the tick length, and whether the camera pad gate says wait. */
  datatype In = In(x: Num, y: Num, z: Num, dt: real, padWait: bool)

  datatype Out = Out(x: real, y: real, z: real, descend: bool)

  /** wfb_prim_t; x and y are the setpoint of the return leg, and where a descent is held. */
  datatype Seq = Seq(phase: Phase, land: bool, x: real, y: real, settleT: real, returnT: real, frozen: bool)

  const GROUNDED := Seq(Idle, false, 0.0, 0.0, 0.0, 0.0, false)

  function FiniteOr(n: Num, fallback: real): real { if n.Value? then n.v else fallback }

  // ---------- commands ----------

  function Takeoff(s: Seq): (Seq, Err) {
    if s.phase.Idle? then (s.(phase := Climb, settleT := 0.0), None) else (s, BadState)
  }

  function TrajBegin(s: Seq): (Seq, Err) {
    if s.phase.Hover? then (s.(phase := Traj), None) else (s, BadState)
  }

  /** A fresh return leg from where the vehicle is. */
  function Homeward(s: Seq, i: In, land: bool): Seq {
    s.(phase := Return, land := land, x := FiniteOr(i.x, 0.0), y := FiniteOr(i.y, 0.0), returnT := 0.0)
  }

  function TrajEnd(s: Seq, i: In): (Seq, Err) {
    if s.phase.Traj? then (Homeward(s, i, false), None) else (s, BadState)
  }

  function Land(s: Seq, i: In): (Seq, Err) {
    if s.phase.Idle? then (s, BadState)
    else if s.phase.Descend? then (s, None)
    else if s.phase.Return? || s.phase.Settle? then (if s.land then s else s.(land := true, returnT := 0.0), None)
    else (Homeward(s, i, true), None)
  }

  function LandInPlace(s: Seq): (Seq, Err) {
    if s.phase.Idle? then (s, BadState) else if s.phase.Descend? then (s, None) else (s.(phase := Descend, frozen := false), None)
  }

  // ---------- the step ----------

  /** Within the settle radius of the hover point over the pad; never with a position that is not a number. */
  predicate AtPad(sqrt: real -> real, c: Cfg, i: In) {
    i.x.Value? && i.y.Value? && i.z.Value? && sqrt(Squares(i.x.v, i.y.v, c.hoverZ - i.z.v)) <= c.radius
  }

  function Squares(dx: real, dy: real, dz: real): real { dx * dx + dy * dy + dz * dz }

  function Dwell(s: Seq, i: In, there: bool): real { if there then s.settleT + i.dt else 0.0 }

  function Norm(sqrt: real -> real, x: real, y: real): real { sqrt(x * x + y * y) }

  /** The return leg's setpoint after dt: straight at the pad, at most rate * dt nearer. */
  function Nearer(sqrt: real -> real, c: Cfg, s: Seq, dt: real): (real, real) {
    Moved(s.x, s.y, Norm(sqrt, s.x, s.y), Travel(c, dt))
  }

  /** (x, y), d from the pad, brought in by move. */
  function Moved(x: real, y: real, d: real, move: real): (real, real) {
    if d > 0.0 then (if move >= d then (0.0, 0.0) else (Toward(x, move, d), Toward(y, move, d))) else (x, y)
  }

  function Travel(c: Cfg, dt: real): real { c.rate * dt }

  function Toward(x: real, move: real, d: real): real
    requires d != 0.0
  {
    x - x * (move / d)
  }

  /** The landing has used up its time. */
  predicate Overdue(c: Cfg, s: Seq) { s.land && s.returnT > c.timeout }

  /** Phase by phase, where one step leads before a descent freezes its point. */
  function Advance(sqrt: real -> real, c: Cfg, s: Seq, i: In): Seq {
    match s.phase
    case Climb =>
      var d := Dwell(s, i, AtPad(sqrt, c, i));
      if AtPad(sqrt, c, i) && d >= c.settleTime then s.(phase := Hover, settleT := 0.0) else s.(settleT := d)
    case Return =>
      var p := Nearer(sqrt, c, s, i.dt);
      var s1 := s.(returnT := s.returnT + i.dt, x := p.0, y := p.1);
      var s2 := if p == (0.0, 0.0) then s1.(phase := Settle, settleT := 0.0) else s1;
      if Overdue(c, s2) then s2.(phase := Descend, x := FiniteOr(i.x, p.0), y := FiniteOr(i.y, p.1), frozen := true) else s2
    case Settle =>
      var there := AtPad(sqrt, c, i) && !(s.land && i.padWait);
      var s1 := s.(returnT := s.returnT + i.dt, settleT := Dwell(s, i, there));
      var down := s1.(phase := Descend, x := 0.0, y := 0.0, frozen := true);
      if there && s1.settleT >= c.settleTime then (if s.land then down else s1.(phase := Hover, settleT := 0.0))
      else if Overdue(c, s1) then down else s1
    case _ => s
  }

  function Freeze(s: Seq, i: In): Seq {
    if s.phase.Descend? && !s.frozen then s.(x := FiniteOr(i.x, s.x), y := FiniteOr(i.y, s.y), frozen := true) else s
  }

  function Step(sqrt: real -> real, c: Cfg, s: Seq, i: In): Seq { Freeze(Advance(sqrt, c, s, i), i) }

  /** A return leg shows where it has got to even on the tick it reaches the pad; other phases hold the pad. */
  function Setpoint(sqrt: real -> real, c: Cfg, s: Seq, i: In): Out {
    var n := Step(sqrt, c, s, i);
    if n.phase.Descend? then Out(n.x, n.y, 0.0, true)
    else if s.phase.Idle? then Out(0.0, 0.0, 0.0, false)
    else if s.phase.Return? then Out(n.x, n.y, c.hoverZ, false)
    else Out(0.0, 0.0, c.hoverZ, false)
  }

  // ---------- landing is a commitment with a deadline ----------

  /** On the way down: returning or settling to land, or descending. */
  predicate Landing(s: Seq) { ((s.phase.Return? || s.phase.Settle?) && s.land) || s.phase.Descend? }

  /** Still above the pad but committed. */
  predicate LandPending(s: Seq) { (s.phase.Return? || s.phase.Settle?) && s.land }

  lemma LandingStays(sqrt: real -> real, c: Cfg, s: Seq, i: In)
    requires Landing(s)
    ensures Landing(Step(sqrt, c, s, i)) && Landing(Land(s, i).0) && Landing(LandInPlace(s).0)
    ensures !TrajBegin(s).1.None? && !Takeoff(s).1.None? && !TrajEnd(s, i).1.None?
  {
  }

  /** A land command on a flight in any phase leaves it landing, its time not used up. */
  lemma LandLands(c: Cfg, s: Seq, i: In)
    requires !s.phase.Idle? && c.timeout >= 0.0 && (LandPending(s) ==> s.returnT <= c.timeout)
    ensures Landing(Land(s, i).0) && Land(s, i).1.None? && Landing(LandInPlace(s).0)
    ensures LandPending(Land(s, i).0) ==> Land(s, i).0.returnT <= c.timeout
    ensures !LandPending(LandInPlace(s).0)
  {
  }

  /** A landing flight ignores a second land command; in place, it descends. */
  lemma LandingIgnoresLand(s: Seq, i: In)
    requires Landing(s)
    ensures Land(s, i).0 == s && LandInPlace(s).0.phase.Descend?
  {
  }

  /** What a step keeps: a landing, the phases without one, and the deadline. */
  lemma StepKeeps(sqrt: real -> real, c: Cfg, s: Seq, i: In)
    ensures var n := Step(sqrt, c, s, i);
      (Landing(s) ==> Landing(n)) && (s.phase.Idle? <==> n.phase.Idle?) && (s.phase.Traj? <==> n.phase.Traj?) &&
      (LandPending(n) ==> LandPending(s) && n.returnT <= c.timeout && n.returnT == s.returnT + i.dt)
  {
  }

  function Steps(sqrt: real -> real, c: Cfg, s: Seq, ins: seq<In>): Seq {
    if ins == [] then s else Step(sqrt, c, Steps(sqrt, c, s, ins[..|ins| - 1]), ins[|ins| - 1])
  }

  function Elapsed(ins: seq<In>): real { if ins == [] then 0.0 else Elapsed(ins[..|ins| - 1]) + ins[|ins| - 1].dt }

  /** Whatever the estimates and the pad gate say, a pending landing never outlasts the return timeout: as long as it
      is pending it has used exactly the time passed, and no more than the timeout; after that it descends. */
  lemma {:induction false} LandWithinTimeout(sqrt: real -> real, c: Cfg, s: Seq, ins: seq<In>)
    requires LandPending(s) && s.returnT <= c.timeout
    ensures var e := Steps(sqrt, c, s, ins);
      Landing(e) && (LandPending(e) ==> e.returnT == s.returnT + Elapsed(ins) && s.returnT + Elapsed(ins) <= c.timeout)
    ensures s.returnT + Elapsed(ins) > c.timeout ==> Steps(sqrt, c, s, ins).phase.Descend?
  {
    if ins != [] {
      LandWithinTimeout(sqrt, c, s, ins[..|ins| - 1]);
    }
  }

  /** Each step of the return leg brings the setpoint exactly rate * dt nearer the pad, or onto it. */
  lemma ReturnCloses(sqrt: real -> real, c: Cfg, s: Seq, dt: real)
    requires IsSqrt(sqrt) && c.rate >= 0.0 && dt >= 0.0
    ensures var d, m, p := Norm(sqrt, s.x, s.y), c.rate * dt, Nearer(sqrt, c, s, dt);
      Norm(sqrt, p.0, p.1) == if m >= d then 0.0 else d - m
  {
    assert Travel(c, dt) == c.rate * dt >= 0.0 by { MulSign(c.rate, dt); }
    hide Toward, Norm, Travel;
    var d, m := Norm(sqrt, s.x, s.y), Travel(c, dt);
    NormIs(sqrt, s.x, s.y);
    NormUnique(sqrt, 0.0, 0.0, 0.0);
    if d > m { Shrunk(sqrt, s.x, s.y, d, m); }
  }

  /** Between zero and s. */
  predicate Spanned(p: real, s: real) { if s >= 0.0 then 0.0 <= p <= s else s <= p <= 0.0 }

  /** The return leg's setpoint stays in the box between where it was and the pad. */
  lemma LegSpanned(sqrt: real -> real, c: Cfg, s: Seq, i: In)
    requires IsSqrt(sqrt) && c.rate >= 0.0 && i.dt >= 0.0 && s.phase.Return?
    ensures var n, o := Step(sqrt, c, s, i), Setpoint(sqrt, c, s, i);
      n.phase.Return? || n.phase.Settle? ==> Spanned(n.x, s.x) && Spanned(n.y, s.y) && o.x == n.x && o.y == n.y && o.z == c.hoverZ
  {
    hide Norm, Toward, Travel, FiniteOr;
    assert Travel(c, i.dt) >= 0.0 by { TravelSign(c, i.dt); }
    NormIs(sqrt, s.x, s.y);
    var d, m := Norm(sqrt, s.x, s.y), Travel(c, i.dt);
    if d > m {
      TowardSpanned(s.x, m, d);
      TowardSpanned(s.y, m, d);
    }
  }

  lemma TravelSign(c: Cfg, dt: real)
    requires c.rate >= 0.0 && dt >= 0.0
    ensures Travel(c, dt) >= 0.0
  {
    MulSign(c.rate, dt);
  }

  lemma TowardSpanned(x: real, m: real, d: real)
    requires 0.0 <= m < d
    ensures Spanned(Toward(x, m, d), x)
  {
    var r := m / d;
    Ratio(m, m, d);
    assert Toward(x, m, d) == x - x * r;
    if x >= 0.0 {
      MulSign(x, r);
      MulSign(x, 1.0 - r);
      assert x * (1.0 - r) == x - x * r;
    } else {
      MulSign(-x, r);
      MulSign(-x, 1.0 - r);
      assert (-x) * (1.0 - r) == -x + x * r && (-x) * r == -(x * r);
    }
  }

  lemma NormIs(sqrt: real -> real, x: real, y: real)
    requires IsSqrt(sqrt)
    ensures Norm(sqrt, x, y) >= 0.0 && Norm(sqrt, x, y) * Norm(sqrt, x, y) == x * x + y * y
  {
    assert x * x >= 0.0 && y * y >= 0.0;
  }

  lemma NormUnique(sqrt: real -> real, x: real, y: real, r: real)
    requires IsSqrt(sqrt) && r >= 0.0 && r * r == x * x + y * y
    ensures Norm(sqrt, x, y) == r
  {
    NormIs(sqrt, x, y);
    SquareOrder(Norm(sqrt, x, y), r);
    SquareOrder(r, Norm(sqrt, x, y));
  }

  lemma Shrunk(sqrt: real -> real, x: real, y: real, d: real, m: real)
    requires IsSqrt(sqrt) && 0.0 <= m < d && d * d == x * x + y * y
    ensures Norm(sqrt, Toward(x, m, d), Toward(y, m, d)) == d - m
  {
    var r, q := m / d, d - m;
    var px, py, k := Toward(x, m, d), Toward(y, m, d), (1.0 - r) * (1.0 - r);
    assert q == (1.0 - r) * d by { assert r * d == m; }
    assert q * q == k * (d * d) by { SquareOfProduct(1.0 - r, d); }
    assert px * px == k * (x * x) by { SquareOfProduct(1.0 - r, x); }
    assert py * py == k * (y * y) by { SquareOfProduct(1.0 - r, y); }
    assert k * (d * d) == k * (x * x) + k * (y * y) by { Distribute(k, x * x, y * y); }
    NormUnique(sqrt, px, py, q);
  }

  lemma Distribute(k: real, a: real, b: real)
    ensures k * (a + b) == k * a + k * b
  {
  }

  lemma SquareOfProduct(k: real, x: real)
    ensures (k * x) * (k * x) == (k * k) * (x * x)
  {
  }

  // ---------- what may follow what ----------

  /** The phases one tick or command can lead to. */
  predicate Leads(p: Phase, q: Phase) {
    match p
    case Idle => q.Idle? || q.Climb?
    case Climb => q.Climb? || q.Hover? || q.Return? || q.Descend?
    case Hover => q.Hover? || q.Traj? || q.Return? || q.Descend?
    case Traj => q.Traj? || q.Return? || q.Descend?
    case Return => q.Return? || q.Settle? || q.Descend?
    case Settle => q.Settle? || q.Hover? || q.Descend?
    case Descend => q.Descend?
  }

  datatype Cmd = CmdTakeoff | CmdBegin | CmdEnd | CmdLand | CmdLandInPlace

  function Commanded(s: Seq, cmd: Cmd, i: In): (Seq, Err) {
    match cmd
    case CmdTakeoff => Takeoff(s)
    case CmdBegin => TrajBegin(s)
    case CmdEnd => TrajEnd(s, i)
    case CmdLand => Land(s, i)
    case CmdLandInPlace => LandInPlace(s)
  }

  /** The phases follow each other in no other way: a flight takes off from the ground only, starts a path from HOVER only,
      reaches HOVER only over the pad, and never leaves a descent. A command that is refused changes nothing; take-off is
      accepted exactly on the ground, a path exactly in HOVER, and its end exactly in TRAJ. */
  lemma PhaseGraph(sqrt: real -> real, c: Cfg, s: Seq, cmd: Cmd, i: In)
    ensures Leads(s.phase, Step(sqrt, c, s, i).phase) && Leads(s.phase, Commanded(s, cmd, i).0.phase)
    ensures var (e, err) := Commanded(s, cmd, i);
      (!err.None? ==> e == s) &&
      (err.None? <==>
        match cmd
        case CmdTakeoff => s.phase == Phase.Idle
        case CmdBegin => s.phase == Hover
        case CmdEnd => s.phase == Traj
        case _ => s.phase != Phase.Idle)
    ensures var n := Step(sqrt, c, s, i); (n.phase.Climb? ==> s.phase.Climb?) && (n.phase.Hover? && !s.phase.Hover? ==> AtPad(sqrt, c, i))
  {
    hide AtPad, Nearer, Overdue;
  }

  /** Where the setpoint is: over the pad at the hover height in every flying phase but a return leg, and in a descent at
      one point, the same from the tick it begins. */
  lemma SetpointsHold(sqrt: real -> real, c: Cfg, s: Seq, i: In)
    ensures var n, o := Step(sqrt, c, s, i), Setpoint(sqrt, c, s, i);
      (o.descend <==> n.phase.Descend?) &&
      (!n.phase.Descend? && !s.phase.Return? && !s.phase.Idle? ==> o.x == o.y == 0.0 && o.z == c.hoverZ) &&
      (!n.phase.Descend? && s.phase.Return? ==> o.x == n.x && o.y == n.y && o.z == c.hoverZ) &&
      (n.phase.Descend? ==> n.frozen && o.x == n.x && o.y == n.y && o.z == 0.0) &&
      (s.phase.Descend? && s.frozen ==> n == s)
  {
    hide AtPad, Nearer, Overdue;
  }

  // ---------- arriving over the pad ----------

  /** Within the settle radius of the hover point; for a landing also with the pad gate open. */
  predicate Close(c: Cfg, land: bool, i: In) {
    match (i.x, i.y, i.z)
    case (Value(x), Value(y), Value(z)) =>
      c.radius >= 0.0 && x * x + y * y + (z - c.hoverZ) * (z - c.hoverZ) <= c.radius * c.radius && !(land && i.padWait)
    case _ => false
  }

  /** Close for the settle time without a break, by the k-th step. */
  ghost predicate SettledBy(c: Cfg, land: bool, ins: seq<In>, k: nat)
    requires k < |ins|
  {
    exists j :: 0 <= j <= k && CloseFrom(c, land, ins, j, k) && Elapsed(ins[j..k + 1]) >= c.settleTime
  }

  ghost predicate CloseFrom(c: Cfg, land: bool, ins: seq<In>, j: nat, k: nat)
    requires j <= k < |ins|
  {
    forall m :: j <= m <= k ==> Close(c, land, ins[m])
  }

  lemma AtPadIsClose(sqrt: real -> real, c: Cfg, i: In)
    requires IsSqrt(sqrt)
    ensures AtPad(sqrt, c, i) <==> Close(c, false, i)
  {
    hide Squares;
    if i.x.Value? && i.y.Value? && i.z.Value? {
      var d := c.hoverZ - i.z.v;
      WithinRadius(sqrt, i.x.v, i.y.v, i.z.v, c.hoverZ, d, c.radius);
    }
  }

  lemma WithinRadius(sqrt: real -> real, x: real, y: real, z: real, h: real, d: real, r: real)
    requires IsSqrt(sqrt) && d == h - z
    ensures sqrt(Squares(x, y, d)) <= r <==> r >= 0.0 && x * x + y * y + (z - h) * (z - h) <= r * r
  {
    SquaresAre(x, y, z, h, d);
    hide Squares;
    RootAtMost(sqrt, Squares(x, y, d), r);
  }

  lemma SquaresAre(x: real, y: real, z: real, h: real, d: real)
    requires d == h - z
    ensures Squares(x, y, d) == x * x + y * y + (z - h) * (z - h) && Squares(x, y, d) >= 0.0
  {
    assert x * x >= 0.0 && y * y >= 0.0 && d * d >= 0.0;
  }

  lemma RootAtMost(sqrt: real -> real, s: real, r: real)
    requires IsSqrt(sqrt) && s >= 0.0
    ensures sqrt(s) <= r <==> r >= 0.0 && s <= r * r
  {
    var q := sqrt(s);
    if q <= r { MulMono(q, r, q); MulMono(q, r, r); }
    if r >= 0.0 && s <= r * r { SquareOrder(q, r); }
  }

  /** How long it has been close at the end. */
  function Lingered(c: Cfg, land: bool, ins: seq<In>): real {
    if ins == [] || !Close(c, land, ins[|ins| - 1]) then 0.0 else Lingered(c, land, ins[..|ins| - 1]) + ins[|ins| - 1].dt
  }

  ghost predicate Forward(ins: seq<In>) { forall k :: 0 <= k < |ins| ==> ins[k].dt >= 0.0 }

  lemma SettledIs(c: Cfg, land: bool, ins: seq<In>)
    requires ins != [] && Forward(ins)
    ensures var last := |ins| - 1; SettledBy(c, land, ins, last) <==> Close(c, land, ins[last]) && Lingered(c, land, ins) >= c.settleTime
  {
    hide Close;
    var last := |ins| - 1;
    if Close(c, land, ins[last]) {
      var j := LingeredFrom(c, land, ins);
      assert CloseFrom(c, land, ins, j, last) && ins[j..last + 1] == ins[j..];
      forall j | 0 <= j <= last && CloseFrom(c, land, ins, j, last) ensures Elapsed(ins[j..last + 1]) <= Lingered(c, land, ins) {
        WindowWithin(c, land, ins, j);
        assert ins[j..last + 1] == ins[j..];
      }
    }
  }

  /** Dropping the last and the first ones commutes. */
  lemma Trim(ins: seq<In>, j: nat)
    requires j < |ins|
    ensures ins[j..][..|ins[j..]| - 1] == ins[..|ins| - 1][j..]
  {
    var a, b := ins[j..][..|ins[j..]| - 1], ins[..|ins| - 1][j..];
    assert |a| == |b|;
    forall k | 0 <= k < |a| ensures a[k] == b[k] { assert ins[j..][k] == ins[j + k]; }
  }

  lemma {:induction false} LingeredFrom(c: Cfg, land: bool, ins: seq<In>) returns (j: nat)
    requires ins != [] && Close(c, land, ins[|ins| - 1])
    ensures j < |ins| && CloseFrom(c, land, ins, j, |ins| - 1) && Elapsed(ins[j..]) == Lingered(c, land, ins)
  {
    hide Close;
    var before := ins[..|ins| - 1];
    if before != [] && Close(c, land, before[|before| - 1]) {
      j := LingeredFrom(c, land, before);
      Trim(ins, j);
    } else {
      j := |ins| - 1;
      assert ins[j..] == [ins[j]] && [ins[j]][..0] == [];
    }
  }

  lemma {:induction false} WindowWithin(c: Cfg, land: bool, ins: seq<In>, j: nat)
    requires j < |ins| && CloseFrom(c, land, ins, j, |ins| - 1) && Forward(ins)
    ensures Elapsed(ins[j..]) <= Lingered(c, land, ins)
  {
    hide Close;
    var before := ins[..|ins| - 1];
    LingeredSign(c, land, before);
    Trim(ins, j);
    if j < |before| { WindowWithin(c, land, before, j); } else { assert before[j..] == []; }
  }

  lemma {:induction false} LingeredSign(c: Cfg, land: bool, ins: seq<In>)
    requires Forward(ins)
    ensures Lingered(c, land, ins) >= 0.0
  {
    hide Close;
    if ins != [] { LingeredSign(c, land, ins[..|ins| - 1]); }
  }

  lemma SettledSoFar(c: Cfg, land: bool, ins: seq<In>, k: nat)
    requires k + 1 < |ins|
    ensures SettledBy(c, land, ins[..|ins| - 1], k) == SettledBy(c, land, ins, k)
  {
    hide Close;
    var before := ins[..|ins| - 1];
    forall j | 0 <= j <= k ensures CloseFrom(c, land, before, j, k) == CloseFrom(c, land, ins, j, k) && before[j..k + 1] == ins[j..k + 1] {
      assert forall m :: j <= m <= k ==> before[m] == ins[m];
    }
  }

  ghost predicate Settled(c: Cfg, land: bool, ins: seq<In>) { exists k :: 0 <= k < |ins| && SettledBy(c, land, ins, k) }

  lemma SettledMore(c: Cfg, land: bool, ins: seq<In>)
    requires ins != []
    ensures Settled(c, land, ins) <==> Settled(c, land, ins[..|ins| - 1]) || SettledBy(c, land, ins, |ins| - 1)
  {
    hide SettledBy;
    var before := ins[..|ins| - 1];
    forall k: nat | k < |before| ensures SettledBy(c, land, before, k) == SettledBy(c, land, ins, k) { SettledSoFar(c, land, ins, k); }
  }

  /** From take-off, the flight is in CLIMB until it has been close to the hover point for the settle time without a break,
      and in HOVER from then on. */
  lemma {:induction false} HoverIffSettled(sqrt: real -> real, c: Cfg, s: Seq, ins: seq<In>)
    requires IsSqrt(sqrt) && s.phase.Climb? && s.settleT == 0.0 && Forward(ins)
    ensures var e := Steps(sqrt, c, s, ins);
      e == if Settled(c, false, ins) then s.(phase := Hover) else s.(settleT := Lingered(c, false, ins))
  {
    hide Close, AtPad, Settled, SettledBy;
    if ins == [] { NeverSettled(c, false); } else {
      var before, i := ins[..|ins| - 1], ins[|ins| - 1];
      HoverIffSettled(sqrt, c, s, before);
      AtPadIsClose(sqrt, c, i);
      SettledMore(c, false, ins);
      SettledIs(c, false, ins);
    }
  }

  /** Every take-off and every settle begins with no dwell on the clock, whatever flew before. */
  lemma DwellsBegin(sqrt: real -> real, c: Cfg, s: Seq, i: In, ins: seq<In>)
    requires IsSqrt(sqrt) && Forward(ins)
    ensures s.phase.Idle? ==> var e := Steps(sqrt, c, Takeoff(s).0, ins);
      e.phase == (if Settled(c, false, ins) then Hover else Climb) && e.settleT == if Settled(c, false, ins) then 0.0 else Lingered(c, false, ins)
    ensures !s.phase.Settle? && Step(sqrt, c, s, i).phase.Settle? ==> Step(sqrt, c, s, i).settleT == 0.0
  {
    hide Steps, Settled, Lingered, AtPad, Nearer, Overdue;
    if s.phase.Idle? { HoverIffSettled(sqrt, c, Takeoff(s).0, ins); }
  }

  lemma NeverSettled(c: Cfg, land: bool)
    ensures !Settled(c, land, [])
  {
  }

  /** When a settle that began with the dwell at zero is over: a return ends in HOVER once it was close for the settle time
      without a break. A landing ends in a descent onto the pad once it was so with the pad gate open, or once its time is
      up, whichever comes first. */
  lemma {:induction false} SettleEnds(sqrt: real -> real, c: Cfg, s: Seq, ins: seq<In>)
    requires IsSqrt(sqrt) && s.phase.Settle? && s.settleT == 0.0 && Forward(ins)
    ensures var e := Steps(sqrt, c, s, ins);
      if !s.land then e.phase == (if Settled(c, false, ins) then Hover else Phase.Settle)
      else
        e.phase == (if Settled(c, true, ins) || OutOfTime(c, s, ins) then Descend else Phase.Settle) &&
        (e.phase.Descend? ==> e.x == e.y == 0.0 && e.frozen)
    ensures var e := Steps(sqrt, c, s, ins);
      e.phase.Settle? ==> e.land == s.land && e.settleT == Lingered(c, s.land, ins) && e.returnT == s.returnT + Elapsed(ins)
  {
    hide Close, AtPad, Settled, SettledBy, OutOfTime;
    if ins == [] {
      NeverSettled(c, s.land);
      NotYet(c, s);
    } else {
      var before, i := ins[..|ins| - 1], ins[|ins| - 1];
      SettleEnds(sqrt, c, s, before);
      AtPadIsClose(sqrt, c, i);
      GateIs(c, s.land, i);
      SettledMore(c, s.land, ins);
      SettledIs(c, s.land, ins);
      TimeMore(c, s, ins);
    }
  }

  lemma GateIs(c: Cfg, land: bool, i: In)
    ensures Close(c, land, i) <==> Close(c, false, i) && !(land && i.padWait)
  {
  }

  ghost predicate SpentBy(c: Cfg, s: Seq, ins: seq<In>, k: nat)
    requires k < |ins|
  {
    s.returnT + Elapsed(ins[..k + 1]) > c.timeout
  }

  ghost predicate OutOfTime(c: Cfg, s: Seq, ins: seq<In>) { exists k :: 0 <= k < |ins| && SpentBy(c, s, ins, k) }

  lemma NotYet(c: Cfg, s: Seq)
    ensures !OutOfTime(c, s, [])
  {
  }

  lemma TimeMore(c: Cfg, s: Seq, ins: seq<In>)
    requires ins != []
    ensures OutOfTime(c, s, ins) <==> OutOfTime(c, s, ins[..|ins| - 1]) || s.returnT + Elapsed(ins) > c.timeout
  {
    hide Elapsed;
    var before, last := ins[..|ins| - 1], |ins| - 1;
    forall k: nat | k < last ensures SpentBy(c, s, before, k) == SpentBy(c, s, ins, k) { assert before[..k + 1] == ins[..k + 1]; }
    assert ins[..last + 1] == ins;
    assert SpentBy(c, s, ins, last) <==> s.returnT + Elapsed(ins) > c.timeout;
    hide SpentBy;
  }

  // ---------- the object ----------

  class Sequencer {
    const sqrt: real -> real
    var phase: Phase
    var land: bool
    var x: real
    var y: real
    var settleT: real
    var returnT: real
    var frozen: bool

    function State(): Seq
      reads this
    {
      Seq(phase, land, x, y, settleT, returnT, frozen)
    }

    constructor (sqrt: real -> real)
      ensures State() == GROUNDED && this.sqrt == sqrt
    {
      this.sqrt := sqrt;
      phase, land, x, y, settleT, returnT, frozen := Phase.Idle, false, 0.0, 0.0, 0.0, 0.0, false;
    }

    method CmdTakeoff() returns (err: Err)
      modifies this
      ensures (State(), err) == Takeoff(old(State()))
    {
      if phase.Idle? {
        phase, settleT := Climb, 0.0;
        return None;
      }
      err := BadState;
    }

    method CmdTrajBegin() returns (err: Err)
      modifies this
      ensures (State(), err) == TrajBegin(old(State()))
    {
      if phase.Hover? {
        phase := Traj;
        return None;
      }
      err := BadState;
    }

    method CmdTrajEnd(i: In) returns (err: Err)
      modifies this
      ensures (State(), err) == TrajEnd(old(State()), i)
    {
      if !phase.Traj? { return BadState; }
      phase, land := Return, false;
      x, y, returnT := FiniteOr(i.x, 0.0), FiniteOr(i.y, 0.0), 0.0;
      err := None;
    }

    method CmdLand(i: In) returns (err: Err)
      modifies this
      ensures (State(), err) == Land(old(State()), i)
    {
      if phase.Idle? { return BadState; }
      if phase.Descend? { return None; }
      if phase.Return? || phase.Settle? {
        if !land { land, returnT := true, 0.0; }
        return None;
      }
      phase, land := Return, true;
      x, y, returnT := FiniteOr(i.x, 0.0), FiniteOr(i.y, 0.0), 0.0;
      err := None;
    }

    method CmdLandInPlace() returns (err: Err)
      modifies this
      ensures (State(), err) == LandInPlace(old(State()))
    {
      if phase.Idle? { return BadState; }
      if phase.Descend? { return None; }
      phase, frozen := Descend, false;
      err := None;
    }

    method Disarmed()
      modifies this
      ensures State() == GROUNDED
    {
      phase, land, x, y, settleT, returnT, frozen := Phase.Idle, false, 0.0, 0.0, 0.0, 0.0, false;
    }

    method StepReturn(c: Cfg, i: In)
      requires phase.Return?
      modifies this
      ensures State() == Advance(sqrt, c, old(State()), i)
    {
      hide Toward, Norm, Travel;
      returnT := returnT + i.dt;
      var dist := Norm(sqrt, x, y);
      if dist > 0.0 {
        var move := Travel(c, i.dt);
        if move >= dist {
          x, y := 0.0, 0.0;
        } else {
          x, y := Toward(x, move, dist), Toward(y, move, dist);
        }
      }
      if x == 0.0 && y == 0.0 { phase, settleT := Settle, 0.0; }
      if land && returnT > c.timeout {
        phase := Descend;
        x, y, frozen := FiniteOr(i.x, x), FiniteOr(i.y, y), true;
      }
    }

    method StepSettle(c: Cfg, i: In)
      requires phase.Settle?
      modifies this
      ensures State() == Advance(sqrt, c, old(State()), i)
    {
      returnT := returnT + i.dt;
      if AtPad(sqrt, c, i) && !(land && i.padWait) {
        settleT := settleT + i.dt;
        if settleT >= c.settleTime {
          if land { phase, x, y, frozen := Descend, 0.0, 0.0, true; } else { phase, settleT := Hover, 0.0; }
        }
      } else {
        settleT := 0.0;
      }
      if phase.Settle? && land && returnT > c.timeout { phase, x, y, frozen := Descend, 0.0, 0.0, true; }
    }

    /** wfb_prim_step. */
    method Tick(c: Cfg, i: In) returns (out: Out)
      modifies this
      ensures State() == Step(sqrt, c, old(State()), i) && out == Setpoint(sqrt, c, old(State()), i)
    {
      hide AtPad, Nearer;
      out := Out(0.0, 0.0, c.hoverZ, false);
      if phase.Idle? { return out.(z := 0.0); }
      if phase.Climb? {
        if AtPad(sqrt, c, i) {
          settleT := settleT + i.dt;
          if settleT >= c.settleTime { phase, settleT := Hover, 0.0; }
        } else {
          settleT := 0.0;
        }
      } else if phase.Return? {
        StepReturn(c, i);
        out := out.(x := x, y := y);
      } else if phase.Settle? {
        StepSettle(c, i);
      }
      if phase.Descend? {
        if !frozen { x, y, frozen := FiniteOr(i.x, x), FiniteOr(i.y, y), true; }
        out := Out(x, y, 0.0, true);
      }
    }
  }
}
