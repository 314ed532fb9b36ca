/**
 The glue of API/wfb_glue.c together with what was uploaded through it, under the default tables: the points or segments
 that passed COMMIT, the hover height they were checked from, and the position each tick asks for.

 A COMMIT brings its payload, and its verdict is computed from it; the executors are still seen through their lifecycle,
 so everything proved of the glue holds here too. The time into a path is any number, because the clock behind it is not
 part of this model.
 */
module WfbFlight {
  import opened Reals
  import opened WfbTypes
  import T = WfbTraj
  import R = WfbProg
  import P = WfbPrim
  import S = WfbSafety
  import G = WfbGlue

  function Tables(sqrt: real -> real): G.Env { G.Env(sqrt, P.CFG, S.LIMITS) }

  /** checked: the hover height at the last COMMIT that was accepted. */
  datatype Flight = Flight(g: G.Glue, points: seq<T.Point>, plan: seq<R.Seg>, checked: real)

  const BOOT := Flight(G.EMPTY_HANDED, [], [], G.HOVER_DEFAULT)

  /** A COMMIT comes with what was uploaded; whole: the count and the checksum are right. A tick comes with the time into
      the path. */
  datatype Step =
    | Command(step: G.Step)
    | CommitPoints(points: seq<T.Point>, whole: bool)
    | CommitFields(fields: seq<R.Fields>, whole: bool)
    | Tick(tick: G.Step, at: Num)

  predicate Loaded(l: Lifecycle) { l.Ready? || l.Executing? || l.Done? }

  predicate IsCommit(step: G.Step) { (step.TrajUpload? && step.u.Commit?) || (step.ProgUpload? && step.p.Commit?) }

  /** How long the path in the buffer lasts. */
  function Length(f: Flight): real {
    if f.g.progMode then R.Total(f.plan) else if f.points == [] then 0.0 else f.points[|f.points| - 1].t
  }

  /** The tick as the glue sees it. */
  function Timed(f: Flight, tick: G.Step, at: Num): G.Step
    requires tick.Tick?
  {
    tick.(finished := Ended(at, Length(f)))
  }

  ghost predicate PointsPass(sqrt: real -> real, f: Flight, points: seq<T.Point>) {
    T.Verdict(sqrt, T.LIMITS, f.g.hoverZ, points).None?
  }

  predicate FieldsPass(sqrt: real -> real, f: Flight, fields: seq<R.Fields>) {
    fields != [] && R.ProgErr(sqrt, T.LIMITS, R.CAPS, f.g.hoverZ, fields).None?
  }

  ghost function Next(sqrt: real -> real, f: Flight, step: Step): Flight {
    match step
    case Command(c) => if c.Tick? || IsCommit(c) then f else f.(g := G.Next(Tables(sqrt), f.g, c))
    case CommitPoints(points, whole) =>
      var r := G.CmdTrajUpload(f.g, G.Commit, whole && PointsPass(sqrt, f, points));
      if r.1.None? then f.(g := r.0, points := points, checked := f.g.hoverZ) else f.(g := r.0)
    case CommitFields(fields, whole) =>
      var r := G.CmdProgUpload(f.g, G.Commit, whole && FieldsPass(sqrt, f, fields));
      if r.1.None? then f.(g := r.0, plan := R.ChainOf(sqrt, f.g.hoverZ, fields), checked := f.g.hoverZ) else f.(g := r.0)
    case Tick(tick, at) => if tick.Tick? then f.(g := G.Ticked(Tables(sqrt), f.g, Timed(f, tick, at))) else f
  }

  ghost function Run(sqrt: real -> real, f: Flight, steps: seq<Step>): Flight {
    if steps == [] then f else Next(sqrt, Run(sqrt, f, steps[..|steps| - 1]), steps[|steps| - 1])
  }

  // ---------- what is loaded has been checked ----------

  ghost predicate PointsOk(sqrt: real -> real, f: Flight) {
    T.Flyable(sqrt, T.LIMITS, f.points) && T.AtHover(sqrt, T.LIMITS, f.checked, f.points[0]) &&
    T.AtHover(sqrt, T.LIMITS, f.checked, f.points[|f.points| - 1])
  }

  ghost predicate PlanOk(sqrt: real -> real, f: Flight) { R.Flyable(sqrt, T.LIMITS, R.CAPS, f.checked, f.plan) }

  ghost predicate Inv(sqrt: real -> real, f: Flight) {
    IsSqrt(sqrt) && G.Inv(Tables(sqrt), f.g) && G.HOVER_MIN <= f.checked <= G.HOVER_MAX &&
    (Loaded(f.g.traj) ==> PointsOk(sqrt, f)) && (Loaded(f.g.prog) ==> PlanOk(sqrt, f))
  }

  /** Nothing but a COMMIT loads an executor. */
  ghost predicate Unloads(g: G.Glue, n: G.Glue) { (Loaded(n.traj) ==> Loaded(g.traj)) && (Loaded(n.prog) ==> Loaded(g.prog)) }

  lemma FlightCommandsUnload(g: G.Glue, c: G.Step)
    ensures Unloads(g, G.CmdTakeoff(g).0) && Unloads(g, G.CmdLand(g).0) && Unloads(g, G.CmdStop(g).0)
    ensures c.SetHoverZ? ==> Unloads(g, G.CmdSetHoverZ(g, c.height).0)
  {
    hide P.Land, P.TrajEnd, P.Takeoff;
  }

  lemma UploadUnloads(l: Lifecycle, u: G.Upload, ok: bool)
    requires !u.Commit?
    ensures Loaded(G.Uploaded(l, u, ok).0) ==> Loaded(l)
  {
  }

  lemma PointsUnload(g: G.Glue, u: G.Upload, ok: bool)
    requires !u.Commit?
    ensures Unloads(g, G.CmdTrajUpload(g, u, ok).0)
  {
    hide G.Uploaded, Loaded;
    UploadUnloads(g.traj, u, ok);
    UploadUnloads(g.prog, u, ok);
    UploadUnloads(g.prog, G.Clear, true);
  }

  lemma FieldsUnload(g: G.Glue, u: G.Upload, ok: bool)
    requires !u.Commit?
    ensures Unloads(g, G.CmdProgUpload(g, u, ok).0)
  {
    hide G.Uploaded, Loaded;
    UploadUnloads(g.prog, u, ok);
    UploadUnloads(g.traj, G.Clear, true);
  }

  lemma StartUnloads(g: G.Glue, heading: Num)
    ensures Unloads(g, G.CmdStart(g, heading).0)
  {
    hide P.TrajBegin;
  }

  lemma CommandUnloads(e: G.Env, g: G.Glue, c: G.Step)
    requires !c.Tick? && !IsCommit(c)
    ensures Unloads(g, G.Next(e, g, c))
  {
    hide G.CmdTakeoff, G.CmdLand, G.CmdStop, G.CmdSetHoverZ, G.CmdTrajUpload, G.CmdProgUpload, G.CmdStart;
    FlightCommandsUnload(g, c);
    match c
    case TrajUpload(u, ok) => PointsUnload(g, u, ok);
    case ProgUpload(u, ok) => FieldsUnload(g, u, ok);
    case Start(heading) => StartUnloads(g, heading);
    case _ =>
  }

  lemma GuardUnloads(e: G.Env, g: G.Glue, t: G.Step)
    requires t.Tick?
    ensures Unloads(g, G.Guarded(e, g, t))
  {
    hide S.Next, P.Land, P.LandInPlace, G.SafetyIn;
  }

  lemma TickUnloads(e: G.Env, g: G.Glue, t: G.Step)
    requires t.Tick?
    ensures Unloads(g, G.Ticked(e, g, t))
  {
    hide G.Guarded, P.TrajEnd, P.Step, G.CfgOf;
    GuardUnloads(e, g, t);
  }

  lemma NextHolds(sqrt: real -> real, f: Flight, step: Step)
    requires Inv(sqrt, f)
    ensures Inv(sqrt, Next(sqrt, f, step))
  {
    hide G.Inv, G.Next, G.Ticked, PointsOk, PlanOk;
    match step
    case Command(c) =>
      if !c.Tick? && !IsCommit(c) {
        G.NextKeeps(Tables(sqrt), f.g, c);
        CommandUnloads(Tables(sqrt), f.g, c);
        Unmoved(sqrt, f, G.Next(Tables(sqrt), f.g, c));
      }
    case CommitPoints(points, whole) => PointsHold(sqrt, f, points, whole);
    case CommitFields(fields, whole) => FieldsHold(sqrt, f, fields, whole);
    case Tick(tick, at) =>
      if tick.Tick? {
        G.TickKeeps(Tables(sqrt), f.g, Timed(f, tick, at));
        TickUnloads(Tables(sqrt), f.g, Timed(f, tick, at));
        Unmoved(sqrt, f, G.Ticked(Tables(sqrt), f.g, Timed(f, tick, at)));
      }
  }

  lemma Unmoved(sqrt: real -> real, f: Flight, n: G.Glue)
    ensures PointsOk(sqrt, f) <==> PointsOk(sqrt, f.(g := n))
    ensures PlanOk(sqrt, f) <==> PlanOk(sqrt, f.(g := n))
  {
    hide T.Flyable, T.AtHover, R.Flyable;
  }

  lemma PointsHold(sqrt: real -> real, f: Flight, points: seq<T.Point>, whole: bool)
    requires Inv(sqrt, f)
    ensures Inv(sqrt, Next(sqrt, f, CommitPoints(points, whole)))
  {
    hide G.Inv, R.Flyable, T.AtHover, T.Boxed, T.Paced, T.Timed;
    G.UploadKeeps(Tables(sqrt), f.g, G.Commit, whole && PointsPass(sqrt, f, points));
    HoverKept(Tables(sqrt), f.g);
  }

  lemma FieldsHold(sqrt: real -> real, f: Flight, fields: seq<R.Fields>, whole: bool)
    requires Inv(sqrt, f)
    ensures Inv(sqrt, Next(sqrt, f, CommitFields(fields, whole)))
  {
    hide G.Inv, R.Flyable, R.ProgErr, R.ChainOf, PointsOk;
    G.UploadKeeps(Tables(sqrt), f.g, G.Commit, whole && FieldsPass(sqrt, f, fields));
    HoverKept(Tables(sqrt), f.g);
    if fields != [] { R.AcceptedIsFlyable(sqrt, T.LIMITS, R.CAPS, f.g.hoverZ, fields); }
    if !f.g.prog.Loading? || !whole || !FieldsPass(sqrt, f, fields) { PointsMoved(sqrt, f, Next(sqrt, f, CommitFields(fields, whole))); }
  }

  lemma PointsMoved(sqrt: real -> real, f: Flight, n: Flight)
    requires n.points == f.points && n.checked == f.checked
    ensures PointsOk(sqrt, f) <==> PointsOk(sqrt, n)
  {
  }

  lemma HoverKept(e: G.Env, g: G.Glue)
    requires G.Inv(e, g)
    ensures G.HOVER_MIN <= g.hoverZ <= G.HOVER_MAX && G.OneOwner(g)
  {
  }

  lemma {:induction false} RunHolds(sqrt: real -> real, steps: seq<Step>)
    requires IsSqrt(sqrt)
    ensures Inv(sqrt, Run(sqrt, BOOT, steps))
  {
    hide Next, Inv;
    if steps == [] {
      NothingLoaded(sqrt);
    } else {
      RunHolds(sqrt, steps[..|steps| - 1]);
      NextHolds(sqrt, Run(sqrt, BOOT, steps[..|steps| - 1]), steps[|steps| - 1]);
    }
  }

  lemma NothingLoaded(sqrt: real -> real)
    requires IsSqrt(sqrt)
    ensures Inv(sqrt, BOOT)
  {
    G.NothingYet(Tables(sqrt));
  }

  // ---------- the path flown stays in the box ----------

  /** In every reachable state, whatever path is loaded lies in the limit box at every time, its first pose included: no
      hover height the ground station can set lets a program leave it. */
  lemma FliesInBox(sqrt: real -> real, steps: seq<Step>, t: real)
    requires IsSqrt(sqrt)
    ensures var f := Run(sqrt, BOOT, steps);
      (Loaded(f.g.prog) ==> f.plan != [] && f.plan[0].t0 == 0.0 && R.PointInBox(T.LIMITS, R.PoseAt(f.plan, t))) &&
      (Loaded(f.g.traj) ==> |f.points| >= 2 && T.InBox(T.LIMITS, T.Path(f.points, t)))
  {
    hide Run, G.Inv;
    RunHolds(sqrt, steps);
    var f := Run(sqrt, BOOT, steps);
    if Loaded(f.g.prog) { PlanInBox(sqrt, f, t); }
    if Loaded(f.g.traj) { T.PathInBox(sqrt, T.LIMITS, f.points, t); }
  }

  lemma PlanInBox(sqrt: real -> real, f: Flight, t: real)
    requires IsSqrt(sqrt) && PlanOk(sqrt, f) && G.HOVER_MIN <= f.checked <= G.HOVER_MAX
    ensures f.plan != [] && f.plan[0].t0 == 0.0 && R.PointInBox(T.LIMITS, R.PoseAt(f.plan, t))
  {
    hide R.Accepted, R.PoseAt, R.EndOf, R.Jump;
    R.SampleInBox(sqrt, T.LIMITS, R.CAPS, f.checked, f.plan, t);
  }

  // ---------- the position a tick asks for ----------

  /** The path's point; the code looks only at times before its end. */
  function PathPoint(f: Flight, at: Num): T.Point {
    if f.g.progMode then
      if f.plan == [] || f.plan[0].t0 != 0.0 then T.BLANK else if at.Value? then R.PoseAt(f.plan, at.v) else R.FirstPose(f.plan)
    else if |f.points| < 2 then T.BLANK
    else T.Path(f.points, if at.Value? then at.v else 0.0)
  }

  function AfterTick(sqrt: real -> real, f: Flight, tick: G.Step, at: Num): G.Glue
    requires tick.Tick?
  {
    G.Ticked(Tables(sqrt), f.g, Timed(f, tick, at))
  }

  /** What the sequencer asks for. */
  function Asked(sqrt: real -> real, f: Flight, tick: G.Step, at: Num): P.Out
    requires tick.Tick?
  {
    var e, t := Tables(sqrt), Timed(f, tick, at);
    var g := G.Synced(G.Guarded(e, f.g, t), t);
    P.Setpoint(sqrt, G.CfgOf(e, g), g.flight, G.PrimIn(t.now, t.dt))
  }

  function Seen(f: Flight, tick: G.Step): S.In
    requires tick.Tick?
  {
    G.SafetyIn(G.TakenOver(f.g.(haveTick := true, last := tick.now), tick.rcOverride), tick)
  }

  /** In TRAJ the path's point, otherwise the sequencer's; then the fence pushes back. */
  function SetpointOf(sqrt: real -> real, f: Flight, tick: G.Step, at: Num): (real, real, real)
    requires tick.Tick?
  {
    var n, o, p := AfterTick(sqrt, f, tick, at), Asked(sqrt, f, tick, at), PathPoint(f, at);
    S.Pushed(n.net, S.LIMITS, Seen(f, tick), if n.flight.phase.Traj? then (p.x, p.y, p.z) else (o.x, o.y, o.z))
  }

  predicate InFence(p: (real, real, real)) { Abs(p.0) <= S.LIMITS.fenceX && Abs(p.1) <= S.LIMITS.fenceY && p.2 <= S.LIMITS.ceiling }

  /** What applying an action and keeping in step leave alone. */
  predicate SameSettings(g: G.Glue, n: G.Glue) { n.net == g.net && n.progMode == g.progMode && n.hoverZ == g.hoverZ }

  lemma ApplyLeaves(g: G.Glue, i: P.In)
    ensures SameSettings(g, G.Applied(g, i))
  {
    hide P.Land, P.LandInPlace;
  }

  lemma SyncLeaves(g: G.Glue, t: G.Step)
    requires t.Tick?
    ensures SameSettings(g, G.Synced(g, t))
  {
    hide P.TrajEnd;
  }

  /** The safety net's state after a tick, and what a tick leaves alone. */
  lemma TickNet(sqrt: real -> real, f: Flight, tick: G.Step, at: Num)
    requires tick.Tick?
    ensures var n, i := AfterTick(sqrt, f, tick, at), Seen(f, tick);
      n.progMode == f.g.progMode && n.hoverZ == f.g.hoverZ && exists s :: n.net == S.Next(s, S.LIMITS, i)
  {
    hide S.Next, P.Step, G.SafetyIn, G.Synced, G.Applied, Seen;
    var t := Timed(f, tick, at);
    var g1 := G.TakenOver(f.g.(haveTick := true, last := tick.now), tick.rcOverride);
    SeenIs(f, tick, at);
    ApplyLeaves(g1.(net := S.Next(g1.net, S.LIMITS, G.SafetyIn(g1, t))), G.PrimIn(t.now, t.dt));
    SyncLeaves(G.Guarded(Tables(sqrt), f.g, t), t);
    assert AfterTick(sqrt, f, tick, at).net == S.Next(g1.net, S.LIMITS, Seen(f, tick));
  }

  lemma SeenIs(f: Flight, tick: G.Step, at: Num)
    requires tick.Tick?
    ensures var g := G.TakenOver(f.g.(haveTick := true, last := tick.now), tick.rcOverride);
      Seen(f, tick) == G.SafetyIn(g, Timed(f, tick, at))
  {
  }

  lemma PushedInside(s: S.Net, i: S.In, sp: (real, real, real))
    requires InFence(sp)
    ensures InFence(S.Pushed(S.Next(s, S.LIMITS, i), S.LIMITS, i, sp))
  {
    hide S.Called, S.Beyond;
    if i.airborne { S.PushIsInside(s, S.LIMITS, i, sp); }
  }

  /** Climbing, hovering or settling, the sequencer asks for the point over the pad. */
  lemma AskedOverPad(sqrt: real -> real, c: P.Cfg, s: P.Seq, i: P.In)
    requires !s.phase.Idle?
    ensures var n, o := P.Step(sqrt, c, s, i), P.Setpoint(sqrt, c, s, i);
      n.phase.Climb? || n.phase.Hover? || n.phase.Settle? ==> o.x == 0.0 && o.y == 0.0 && o.z == c.hoverZ
  {
    hide P.AtPad, P.Nearer, P.FiniteOr;
  }

  lemma StaysGrounded(sqrt: real -> real, c: P.Cfg, s: P.Seq, i: P.In)
    requires s.phase.Idle?
    ensures P.Step(sqrt, c, s, i).phase.Idle?
  {
  }

  /** The sequencer as the tick's step finds it; in RETURN, the point the leg has got to. */
  function Leg(sqrt: real -> real, f: Flight, tick: G.Step, at: Num): P.Seq
    requires tick.Tick?
  {
    var t := Timed(f, tick, at);
    G.Synced(G.Guarded(Tables(sqrt), f.g, t), t).flight
  }

  predicate LegInFence(s: P.Seq) { Abs(s.x) <= S.LIMITS.fenceX && Abs(s.y) <= S.LIMITS.fenceY }

  /** In every reachable state, a tick that steers asks for a position inside the fence and under the ceiling, push-back
      included; on a return leg it does if the point the leg has got to is inside. */
  lemma SetpointInFence(sqrt: real -> real, steps: seq<Step>, tick: G.Step, at: Num)
    requires IsSqrt(sqrt) && tick.Tick?
    ensures var f := Run(sqrt, BOOT, steps);
      G.OrdersOf(Tables(sqrt), f.g, Timed(f, tick, at)).setpoint &&
      (AfterTick(sqrt, f, tick, at).flight.phase.Return? ==> tick.dt >= 0.0 && LegInFence(Leg(sqrt, f, tick, at))) ==>
        InFence(SetpointOf(sqrt, f, tick, at))
  {
    hide Run, Inv, G.OrdersOf, AfterTick, Leg, LegInFence, SetpointOf;
    RunHolds(sqrt, steps);
    var f := Run(sqrt, BOOT, steps);
    if G.OrdersOf(Tables(sqrt), f.g, Timed(f, tick, at)).setpoint &&
       (AfterTick(sqrt, f, tick, at).flight.phase.Return? ==> tick.dt >= 0.0 && LegInFence(Leg(sqrt, f, tick, at)))
    {
      SteersInFence(sqrt, f, tick, at);
    }
  }

  lemma SteersInFence(sqrt: real -> real, f: Flight, tick: G.Step, at: Num)
    requires Inv(sqrt, f) && tick.Tick? && G.OrdersOf(Tables(sqrt), f.g, Timed(f, tick, at)).setpoint
    requires AfterTick(sqrt, f, tick, at).flight.phase.Return? ==> tick.dt >= 0.0 && LegInFence(Leg(sqrt, f, tick, at))
    ensures InFence(SetpointOf(sqrt, f, tick, at))
  {
    hide Inv, G.OrdersOf, S.Next, Asked, AfterTick, PathPoint, S.Pushed, Leg, LegInFence;
    var n := AfterTick(sqrt, f, tick, at);
    Steers(sqrt, f, tick, at);
    TickNet(sqrt, f, tick, at);
    if n.flight.phase.Traj? { PathInFence(sqrt, f, tick, at); } else { AskedInFence(sqrt, f, tick, at); }
    var o, p, i := Asked(sqrt, f, tick, at), PathPoint(f, at), Seen(f, tick);
    var s :| n.net == S.Next(s, S.LIMITS, i);
    PushedInside(s, i, if n.flight.phase.Traj? then (p.x, p.y, p.z) else (o.x, o.y, o.z));
  }

  lemma Steers(sqrt: real -> real, f: Flight, tick: G.Step, at: Num)
    requires tick.Tick? && G.OrdersOf(Tables(sqrt), f.g, Timed(f, tick, at)).setpoint
    ensures var phase := AfterTick(sqrt, f, tick, at).flight.phase;
      phase.Climb? || phase.Hover? || phase.Traj? || phase.Return? || phase.Settle?
  {
    hide G.Ticked, G.Guarded, G.Synced, P.Setpoint;
  }

  lemma PathInFence(sqrt: real -> real, f: Flight, tick: G.Step, at: Num)
    requires Inv(sqrt, f) && tick.Tick? && AfterTick(sqrt, f, tick, at).flight.phase.Traj?
    ensures var p := PathPoint(f, at); InFence((p.x, p.y, p.z))
  {
    hide PointsOk, PlanOk, R.PoseAt, R.FirstPose, T.Path, G.Ticked, S.Sound, P.LandPending;
    var e, t, n := Tables(sqrt), Timed(f, tick, at), AfterTick(sqrt, f, tick, at);
    G.TickKeeps(e, f.g, t);
    TickUnloads(e, f.g, t);
    TickNet(sqrt, f, tick, at);
    if f.g.progMode {
      PlanInBox(sqrt, f, if at.Value? then at.v else -1.0);
      FirstIs(f);
    } else {
      PointsInBox(sqrt, f, if at.Value? then at.v else 0.0);
    }
  }

  lemma FirstIs(f: Flight)
    requires f.plan != [] && f.plan[0].t0 == 0.0
    ensures R.FirstPose(f.plan) == R.PoseAt(f.plan, -1.0)
  {
  }

  lemma PointsInBox(sqrt: real -> real, f: Flight, t: real)
    requires PointsOk(sqrt, f)
    ensures |f.points| >= 2 && T.InBox(T.LIMITS, T.Path(f.points, t))
  {
    hide T.Path;
    T.PathInBox(sqrt, T.LIMITS, f.points, t);
  }

  lemma AskedInFence(sqrt: real -> real, f: Flight, tick: G.Step, at: Num)
    requires Inv(sqrt, f) && tick.Tick?
    requires var phase := AfterTick(sqrt, f, tick, at).flight.phase; phase.Climb? || phase.Hover? || phase.Settle? || phase.Return?
    requires AfterTick(sqrt, f, tick, at).flight.phase.Return? ==> tick.dt >= 0.0 && LegInFence(Leg(sqrt, f, tick, at))
    ensures var o := Asked(sqrt, f, tick, at); InFence((o.x, o.y, o.z))
  {
    hide P.Step, P.Setpoint, G.Guarded, G.Synced, PointsOk, PlanOk, G.OneOwner, G.InStep, G.Obeyed, P.Spanned;
    var e, t := Tables(sqrt), Timed(f, tick, at);
    var g := G.Synced(G.Guarded(e, f.g, t), t);
    var c, i := G.CfgOf(e, g), G.PrimIn(t.now, t.dt);
    TickNet(sqrt, f, tick, at);
    HoverAt(sqrt, f, tick, at);
    if g.flight.phase.Idle? {
      StaysGrounded(sqrt, c, g.flight, i);
    } else if P.Step(sqrt, c, g.flight, i).phase.Return? {
      OnlyReturnReturns(sqrt, c, g.flight, i);
      P.LegSpanned(sqrt, c, g.flight, i);
      var o := P.Setpoint(sqrt, c, g.flight, i);
      SpannedAbs(o.x, g.flight.x);
      SpannedAbs(o.y, g.flight.y);
    } else {
      AskedOverPad(sqrt, c, g.flight, i);
    }
  }

  lemma HoverAt(sqrt: real -> real, f: Flight, tick: G.Step, at: Num)
    requires tick.Tick?
    ensures var t := Timed(f, tick, at); G.Synced(G.Guarded(Tables(sqrt), f.g, t), t).hoverZ == f.g.hoverZ
  {
    hide P.Step, G.Guarded, G.Synced;
    TickNet(sqrt, f, tick, at);
  }

  lemma OnlyReturnReturns(sqrt: real -> real, c: P.Cfg, s: P.Seq, i: P.In)
    requires P.Step(sqrt, c, s, i).phase.Return?
    ensures s.phase.Return?
  {
    hide P.AtPad, P.Nearer, P.FiniteOr;
  }

  lemma SpannedAbs(p: real, s: real)
    requires P.Spanned(p, s)
    ensures Abs(p) <= Abs(s)
  {
  }

  // ---------- a whole return leg ----------

  predicate SpannedBy(n: P.Seq, s: P.Seq) { P.Spanned(n.x, s.x) && P.Spanned(n.y, s.y) }

  lemma SpannedOn(a: P.Seq, b: P.Seq, c: P.Seq)
    requires SpannedBy(b, a) && SpannedBy(c, b)
    ensures SpannedBy(c, a)
  {
  }

  lemma SpansItself(s: P.Seq)
    ensures SpannedBy(s, s)
  {
  }

  /** The point a return leg has got to is moved by nothing but the tick's step. */
  ghost predicate SameLeg(s: P.Seq, n: P.Seq) { s.phase.Return? && n.phase.Return? ==> n.x == s.x && n.y == s.y }

  lemma CommandsLeaveLeg(e: G.Env, g: G.Glue, c: G.Step)
    requires !c.Tick?
    ensures SameLeg(g.flight, G.Next(e, g, c).flight)
  {
    hide G.CmdTrajUpload, G.CmdProgUpload;
    match c
    case TrajUpload(u, ok) => G.UploadsLeaveFlight(g, u, ok);
    case ProgUpload(u, ok) => G.UploadsLeaveFlight(g, u, ok);
    case _ =>
  }

  lemma GuardLeavesLeg(e: G.Env, g: G.Glue, t: G.Step)
    requires t.Tick?
    ensures SameLeg(g.flight, G.Guarded(e, g, t).flight)
    ensures g.flight.phase.Return? ==>
      var phase := G.Guarded(e, g, t).flight.phase; phase.Return? || phase.Idle? || phase.Descend?
  {
    hide S.Next, G.SafetyIn;
  }

  lemma TickLeavesLeg(sqrt: real -> real, f: Flight, tick: G.Step, at: Num)
    requires tick.Tick?
    ensures SameLeg(f.g.flight, Leg(sqrt, f, tick, at))
    ensures f.g.flight.phase.Return? && AfterTick(sqrt, f, tick, at).flight.phase.Return? ==> Leg(sqrt, f, tick, at).phase.Return?
  {
    hide G.Guarded, P.Step;
    var e, t := Tables(sqrt), Timed(f, tick, at);
    GuardLeavesLeg(e, f.g, t);
    var g := G.Synced(G.Guarded(e, f.g, t), t);
    if P.Step(sqrt, G.CfgOf(e, g), g.flight, G.PrimIn(t.now, t.dt)).phase.Return? {
      OnlyReturnReturns(sqrt, G.CfgOf(e, g), g.flight, G.PrimIn(t.now, t.dt));
    }
  }

  lemma TickNarrows(sqrt: real -> real, f: Flight, tick: G.Step, at: Num)
    requires IsSqrt(sqrt) && tick.Tick? && tick.dt >= 0.0
    requires f.g.flight.phase.Return? && AfterTick(sqrt, f, tick, at).flight.phase.Return?
    ensures SpannedBy(AfterTick(sqrt, f, tick, at).flight, f.g.flight)
  {
    hide G.Guarded, G.Synced, P.Step, P.Setpoint, P.Spanned;
    TickLeavesLeg(sqrt, f, tick, at);
    var e, t := Tables(sqrt), Timed(f, tick, at);
    var g := G.Synced(G.Guarded(e, f.g, t), t);
    P.LegSpanned(sqrt, G.CfgOf(e, g), g.flight, G.PrimIn(t.now, t.dt));
  }

  lemma StepNarrows(sqrt: real -> real, f: Flight, step: Step)
    requires IsSqrt(sqrt) && f.g.flight.phase.Return? && Next(sqrt, f, step).g.flight.phase.Return?
    requires step.Tick? && step.tick.Tick? ==> step.tick.dt >= 0.0
    ensures SpannedBy(Next(sqrt, f, step).g.flight, f.g.flight)
  {
    hide G.Next, G.Ticked, G.CmdTrajUpload, G.CmdProgUpload, PointsPass, FieldsPass, P.Spanned;
    SpansItself(f.g.flight);
    match step
    case Command(c) => if !c.Tick? { CommandsLeaveLeg(Tables(sqrt), f.g, c); }
    case CommitPoints(points, whole) => G.UploadsLeaveFlight(f.g, G.Commit, whole && PointsPass(sqrt, f, points));
    case CommitFields(fields, whole) => G.UploadsLeaveFlight(f.g, G.Commit, whole && FieldsPass(sqrt, f, fields));
    case Tick(tick, at) => if tick.Tick? { TickNarrows(sqrt, f, tick, at); }
  }

  /** Through these steps the sequencer stays in RETURN, and time does not run backwards. */
  ghost predicate Returns(sqrt: real -> real, f: Flight, steps: seq<Step>) {
    (forall k :: 0 <= k <= |steps| ==> Run(sqrt, f, steps[..k]).g.flight.phase.Return?) &&
    (forall k :: 0 <= k < |steps| ==> (steps[k].Tick? && steps[k].tick.Tick? ==> steps[k].tick.dt >= 0.0))
  }

  /** A return leg never leaves the box between the point it was at and the pad. */
  lemma {:induction false} LegNarrows(sqrt: real -> real, f: Flight, steps: seq<Step>)
    requires IsSqrt(sqrt) && Returns(sqrt, f, steps)
    ensures f.g.flight.phase.Return? && Run(sqrt, f, steps).g.flight.phase.Return?
    ensures SpannedBy(Run(sqrt, f, steps).g.flight, f.g.flight)
  {
    hide Next, SpannedBy;
    assert Run(sqrt, f, steps[..0]).g.flight.phase.Return? && Run(sqrt, f, steps[..0]) == f;
    assert steps[..|steps|] == steps;
    if steps == [] {
      SpansItself(f.g.flight);
    } else {
      var before, last := steps[..|steps| - 1], steps[|steps| - 1];
      forall k | 0 <= k <= |before| ensures Run(sqrt, f, before[..k]).g.flight.phase.Return? { assert before[..k] == steps[..k]; }
      LegNarrows(sqrt, f, before);
      StepNarrows(sqrt, Run(sqrt, f, before), last);
      SpannedOn(f.g.flight, Run(sqrt, f, before).g.flight, Run(sqrt, f, steps).g.flight);
    }
  }

  lemma {:induction false} HoldsOn(sqrt: real -> real, f: Flight, steps: seq<Step>)
    requires Inv(sqrt, f)
    ensures Inv(sqrt, Run(sqrt, f, steps))
  {
    hide Next, Inv;
    if steps != [] {
      HoldsOn(sqrt, f, steps[..|steps| - 1]);
      NextHolds(sqrt, Run(sqrt, f, steps[..|steps| - 1]), steps[|steps| - 1]);
    }
  }

  /** So a return leg that was in the fence at any time asks for no position outside it afterwards, whatever commands and
      estimates come in while it lasts. */
  lemma ReturnInFence(sqrt: real -> real, steps: seq<Step>, leg: seq<Step>, tick: G.Step, at: Num)
    requires IsSqrt(sqrt) && tick.Tick? && tick.dt >= 0.0
    requires Returns(sqrt, Run(sqrt, BOOT, steps), leg) && LegInFence(Run(sqrt, BOOT, steps).g.flight)
    ensures var f := Run(sqrt, Run(sqrt, BOOT, steps), leg);
      G.OrdersOf(Tables(sqrt), f.g, Timed(f, tick, at)).setpoint ==> InFence(SetpointOf(sqrt, f, tick, at))
  {
    hide Run, Inv, G.OrdersOf, AfterTick, Leg, SetpointOf, Returns;
    RunHolds(sqrt, steps);
    var f0 := Run(sqrt, BOOT, steps);
    var f := Run(sqrt, f0, leg);
    HoldsOn(sqrt, f0, leg);
    LegNarrows(sqrt, f0, leg);
    SpannedAbs(f.g.flight.x, f0.g.flight.x);
    SpannedAbs(f.g.flight.y, f0.g.flight.y);
    if G.OrdersOf(Tables(sqrt), f.g, Timed(f, tick, at)).setpoint {
      TickLeavesLeg(sqrt, f, tick, at);
      SteersInFence(sqrt, f, tick, at);
    }
  }

  /** A flight that is not on its way back: if it is, it has only just begun to be. */
  predicate BeginsAt(s: P.Seq, i: P.In) { s.phase.Return? ==> s.x == P.FiniteOr(i.x, 0.0) && s.y == P.FiniteOr(i.y, 0.0) }

  lemma ApplyBegins(g: G.Glue, i: P.In)
    requires !g.flight.phase.Return? && !g.flight.phase.Settle?
    ensures BeginsAt(G.Applied(g, i).flight, i)
  {
  }

  lemma GuardBegins(e: G.Env, g: G.Glue, t: G.Step)
    requires t.Tick? && !g.flight.phase.Return? && !g.flight.phase.Settle?
    ensures BeginsAt(G.Guarded(e, g, t).flight, G.PrimIn(t.now, t.dt))
  {
    hide S.Next, G.SafetyIn, G.Applied, BeginsAt;
    var g1 := G.TakenOver(g.(haveTick := true, last := t.now), t.rcOverride);
    ApplyBegins(g1.(net := S.Next(g1.net, e.limits, G.SafetyIn(g1, t))), G.PrimIn(t.now, t.dt));
  }

  /** Where a leg begins: a tick that ends a path, or a safety action, takes the position it is given. */
  lemma LegBegins(sqrt: real -> real, f: Flight, tick: G.Step, at: Num)
    requires tick.Tick? && !f.g.flight.phase.Return? && !f.g.flight.phase.Settle? && Leg(sqrt, f, tick, at).phase.Return?
    ensures var s := Leg(sqrt, f, tick, at); s.x == P.FiniteOr(tick.now.x, 0.0) && s.y == P.FiniteOr(tick.now.y, 0.0)
  {
    hide G.Guarded, Length;
    GuardBegins(Tables(sqrt), f.g, Timed(f, tick, at));
  }

  // ---------- where a started program begins ----------

  function HoverPoint(height: real): T.Point { T.Point(0.0, 0.0, height, 0.0, 0.0) }

  /** The first position the path asks for after START. */
  ghost function FirstAsked(sqrt: real -> real, f: Flight, heading: Num): T.Point {
    PathPoint(Next(sqrt, f, Command(G.Start(heading))), Value(0.0))
  }

  /** A path was checked from the hover height in force at its COMMIT, and START does not look at it again. In every
      reachable state, the first position an accepted START leads to is, for a program that takes time: where the last
      LINE before its first segment that takes time goes, and the point the craft hovers at if and only if that is it;
      without such a LINE, if and only if the height is still the one of the COMMIT. */
  lemma BeginsAtHover(sqrt: real -> real, steps: seq<Step>, heading: Num)
    requires IsSqrt(sqrt)
    ensures var f := Run(sqrt, BOOT, steps);
      f.g.progMode && G.CmdStart(f.g, heading).1.None? ==>
        f.plan != [] && f.plan[0].t0 == 0.0 && f.plan[0].start == HoverPoint(f.checked) &&
        (R.Total(f.plan) > 0.0 ==>
          var k := R.SegmentAt(f.plan, 0.0, |f.plan|);
          var j := R.LastLine(f.plan, k);
          R.SamePlace(FirstAsked(sqrt, f, heading), HoverPoint(f.g.hoverZ)) <==>
            if j >= 0 then R.SamePlace(R.Target(f.plan[j].f), HoverPoint(f.g.hoverZ)) else f.checked == f.g.hoverZ)
  {
    hide Run, G.Inv, PointsOk, PlanOk, R.PoseAt, FirstAsked, R.SegmentAt, R.LastLine;
    RunHolds(sqrt, steps);
    var f := Run(sqrt, BOOT, steps);
    if f.g.progMode && G.CmdStart(f.g, heading).1.None? {
      PlanStarts(sqrt, f);
      FirstOfPlan(sqrt, f, heading);
    }
  }

  lemma PlanStarts(sqrt: real -> real, f: Flight)
    requires PlanOk(sqrt, f)
    ensures f.plan != [] && f.plan[0].t0 == 0.0 && f.plan[0].start == HoverPoint(f.checked)
    ensures R.Total(f.plan) > 0.0 ==>
      R.SamePlace(R.PoseAt(f.plan, 0.0), R.StartPlace(f.checked, f.plan, R.SegmentAt(f.plan, 0.0, |f.plan|)))
  {
    hide R.PoseAt, R.Accepted, R.Jump, R.EndOf, R.Total, R.StartPlace;
    if R.Total(f.plan) > 0.0 { R.BeginsThere(sqrt, T.LIMITS, R.CAPS, f.checked, f.plan); }
  }

  lemma FirstOfPlan(sqrt: real -> real, f: Flight, heading: Num)
    requires f.g.progMode && G.CmdStart(f.g, heading).1.None? && f.plan != [] && f.plan[0].t0 == 0.0
    ensures FirstAsked(sqrt, f, heading) == R.PoseAt(f.plan, 0.0)
  {
    hide R.PoseAt;
  }

  /** A trajectory's first point lies within the end-point tolerance of the hover point of its COMMIT. START does not look
      at it either: with the height unchanged the first position is that close to where the craft hovers, and with the
      height changed by more than twice the tolerance it is not. */
  lemma TrajBeginsNearHover(sqrt: real -> real, steps: seq<Step>, heading: Num)
    requires IsSqrt(sqrt)
    ensures var f := Run(sqrt, BOOT, steps);
      !f.g.progMode && G.CmdStart(f.g, heading).1.None? ==>
        |f.points| >= 2 && FirstAsked(sqrt, f, heading) == f.points[0] &&
        (f.checked == f.g.hoverZ ==> T.AtHover(sqrt, T.LIMITS, f.g.hoverZ, f.points[0])) &&
        (Abs(f.g.hoverZ - f.checked) > 2.0 * T.LIMITS.tol ==> !T.AtHover(sqrt, T.LIMITS, f.g.hoverZ, f.points[0]))
  {
    hide Run, G.Inv, PlanOk, FirstAsked, T.AtHover, T.Boxed, T.Paced;
    RunHolds(sqrt, steps);
    var f := Run(sqrt, BOOT, steps);
    if !f.g.progMode && G.CmdStart(f.g, heading).1.None? {
      FirstOfPoints(sqrt, f, heading);
      if T.AtHover(sqrt, T.LIMITS, f.g.hoverZ, f.points[0]) { HoversClose(sqrt, f.checked, f.g.hoverZ, f.points[0]); }
    }
  }

  lemma FirstOfPoints(sqrt: real -> real, f: Flight, heading: Num)
    requires !f.g.progMode && G.CmdStart(f.g, heading).1.None? && T.Timed(f.points)
    ensures FirstAsked(sqrt, f, heading) == f.points[0]
  {
  }

  /** One point close to two hover points brings them within twice the tolerance. */
  lemma HoversClose(sqrt: real -> real, a: real, b: real, p: T.Point)
    requires IsSqrt(sqrt) && T.AtHover(sqrt, T.LIMITS, a, p) && T.AtHover(sqrt, T.LIMITS, b, p)
    ensures Abs(b - a) <= 2.0 * T.LIMITS.tol
  {
    var tol := T.LIMITS.tol;
    NearHover(sqrt, a, p);
    NearHover(sqrt, b, p);
    R.NearBack(HoverPoint(b), p, tol);
    T.Triangle(HoverPoint(a), p, HoverPoint(b), tol, tol);
    assert T.DistSquare(HoverPoint(a), HoverPoint(b)) == Abs(b - a) * Abs(b - a);
    SquareOrder(Abs(b - a), 2.0 * tol);
  }

  lemma NearHover(sqrt: real -> real, height: real, p: T.Point)
    requires IsSqrt(sqrt) && T.AtHover(sqrt, T.LIMITS, height, p)
    ensures T.Near(HoverPoint(height), p, T.LIMITS.tol)
  {
    hide T.DistSquare, T.Distance;
    var d := T.Distance(sqrt, HoverPoint(height), p);
    R.LengthSquare(sqrt, HoverPoint(height), p);
    T.NearLonger(HoverPoint(height), p, d, T.LIMITS.tol);
  }

  /** Armed and at rest, then at 1.4 m over the pad. */
  const PARKED := G.Snapshot(Value(0.0), Value(0.0), Value(0.0), false, true, true, true, false)
  const ALOFT := G.Snapshot(Value(0.0), Value(0.0), Value(1.4), false, true, false, true, true)

  function Calm(at: G.Snapshot, dt: real): G.Step {
    G.Tick(at, Value(0.0), Value(0.0), Value(16.0), 0.0, dt, false, false, false)
  }

  /** Twenty ticks of 50 ms. */
  function Hovering(n: nat): (steps: seq<Step>)
    ensures |steps| == n
  {
    seq(n, _ => Tick(Calm(ALOFT, 0.05), Value(0.0)))
  }

  /** A program is checked at half a metre; the hover height is raised; the craft takes off and settles; START. */
  function RaisedHover(): seq<Step> {
    [Command(G.ProgUpload(G.Begin, true))] + [CommitFields(R.NUDGE, true)] + [Command(G.SetHoverZ(Value(1.4)))] +
    [Tick(Calm(PARKED, 0.0), Value(0.0))] + [Command(G.Takeoff)] + Hovering(20) + [Command(G.Start(Value(0.0)))]
  }

  /** The glue n ticks into the climb. */
  function Climbing(n: nat): G.Glue {
    G.Glue(Empty, Ready, true, P.Seq(P.Climb, false, 0.0, 0.0, 0.05 * n as real, 0.0, false),
           S.Net(0.0, 0.0, 0.05 * n as real, 0.0, S.Quiet, S.NONE, {}), true, true, n == 0, false, false, S.NONE,
           if n == 0 then PARKED else ALOFT, 1.4)
  }

  lemma ClimbTicks(sqrt: real -> real, f: Flight, n: nat)
    requires IsSqrt(sqrt) && f.g == Climbing(n) && n < 20
    ensures var g := Next(sqrt, f, Tick(Calm(ALOFT, 0.05), Value(0.0))).g;
      if n < 19 then g == Climbing(n + 1) else g.flight.phase.Hover? && g.prog.Ready? && g.progMode && g.hoverZ == 1.4
  {
    hide Length, R.Total;
    SqrtIs(sqrt, 0.0, 0.0);
    var t := Timed(f, Calm(ALOFT, 0.05), Value(0.0));
    var e := Tables(sqrt);
    assert P.AtPad(sqrt, G.CfgOf(e, f.g), G.PrimIn(ALOFT, 0.05));
    var net := S.Next(f.g.net, S.LIMITS, Seen(f, Calm(ALOFT, 0.05)));
    assert net == S.Net(0.0, 0.0, 0.05 * (n + 1) as real, 0.0, S.Quiet, S.NONE, {});
    assert G.Guarded(e, f.g, t) == f.g.(net := net, last := ALOFT);
  }

  lemma RunMore(sqrt: real -> real, f: Flight, a: seq<Step>, step: Step)
    ensures Run(sqrt, f, a + [step]) == Next(sqrt, Run(sqrt, f, a), step)
  {
    hide Next;
    assert (a + [step])[..|a|] == a;
  }

  lemma {:induction false} Climbs(sqrt: real -> real, before: seq<Step>, n: nat)
    requires IsSqrt(sqrt) && n <= 20 && Run(sqrt, BOOT, before).g == Climbing(0)
    ensures var b, f := Run(sqrt, BOOT, before), Run(sqrt, BOOT, before + Hovering(n));
      f.plan == b.plan && f.checked == b.checked &&
      if n < 20 then f.g == Climbing(n) else f.g.flight.phase.Hover? && f.g.prog.Ready? && f.g.progMode && f.g.hoverZ == 1.4
  {
    hide Climbing, G.Ticked;
    if n == 0 {
      assert before + Hovering(0) == before;
    } else {
      Climbs(sqrt, before, n - 1);
      var last := Tick(Calm(ALOFT, 0.05), Value(0.0));
      assert before + Hovering(n) == before + Hovering(n - 1) + [last];
      RunMore(sqrt, BOOT, before + Hovering(n - 1), last);
      ClimbTicks(sqrt, Run(sqrt, BOOT, before + Hovering(n - 1)), n - 1);
    }
  }

  /** With the program checked at half a metre and the height raised since. */
  function Raised(sqrt: real -> real): Flight {
    Flight(G.EMPTY_HANDED.(prog := Ready, progMode := true, hoverZ := 1.4), [], R.ChainOf(sqrt, 0.5, R.NUDGE), 0.5)
  }

  lemma ChecksAndRaises(sqrt: real -> real)
    requires IsSqrt(sqrt)
    ensures Next(sqrt, Next(sqrt, Next(sqrt, BOOT, Command(G.ProgUpload(G.Begin, true))), CommitFields(R.NUDGE, true)),
                 Command(G.SetHoverZ(Value(1.4)))) == Raised(sqrt)
  {
    hide R.ChainOf, R.ProgErr;
    R.NudgeAccepted(sqrt);
  }

  lemma LeavesGround(sqrt: real -> real)
    ensures var f := Next(sqrt, Next(sqrt, Raised(sqrt), Tick(Calm(PARKED, 0.0), Value(0.0))), Command(G.Takeoff));
      f == Raised(sqrt).(g := Climbing(0))
  {
    hide R.ChainOf, Length;
    var g, t := Raised(sqrt).g, Timed(Raised(sqrt), Calm(PARKED, 0.0), Value(0.0));
    assert G.Guarded(Tables(sqrt), g, t) == g.(haveTick := true, last := PARKED);
  }

  /** The first five steps: checked, raised, and off the ground. */
  lemma TakesOff(sqrt: real -> real)
    requires IsSqrt(sqrt)
    ensures Run(sqrt, BOOT, RaisedHover()[..5]) == Raised(sqrt).(g := Climbing(0))
  {
    hide Run, Next, Raised, Calm, Climbing;
    StartOfRun(sqrt);
    ChecksAndRaises(sqrt);
    LeavesGround(sqrt);
    var a, begin := [Command(G.ProgUpload(G.Begin, true))], Command(G.ProgUpload(G.Begin, true));
    assert [] + a == a;
    RunMore(sqrt, BOOT, [], begin);
    RunMore(sqrt, BOOT, a, CommitFields(R.NUDGE, true));
    a := a + [CommitFields(R.NUDGE, true)];
    RunMore(sqrt, BOOT, a, Command(G.SetHoverZ(Value(1.4))));
    a := a + [Command(G.SetHoverZ(Value(1.4)))];
    RunMore(sqrt, BOOT, a, Tick(Calm(PARKED, 0.0), Value(0.0)));
    a := a + [Tick(Calm(PARKED, 0.0), Value(0.0))];
    RunMore(sqrt, BOOT, a, Command(G.Takeoff));
    assert RaisedHover()[..5] == a + [Command(G.Takeoff)];
  }

  lemma StartOfRun(sqrt: real -> real)
    ensures Run(sqrt, BOOT, []) == BOOT
  {
  }

  /** The program starts 0.9 m below where the craft hovers. */
  lemma RaisedHoverDrops(sqrt: real -> real)
    requires IsSqrt(sqrt)
    ensures var f := Run(sqrt, BOOT, RaisedHover());
      f.g.prog.Executing? && f.g.hoverZ == 1.4 && f.plan != [] && f.plan[0].t0 == 0.0 && R.PoseAt(f.plan, 0.0).z == 0.5
  {
    hide Run, G.Ticked, Climbing, R.ChainOf;
    var before := RaisedHover()[..5];
    TakesOff(sqrt);
    Climbs(sqrt, before, 20);
    assert RaisedHover() == before + Hovering(20) + [Command(G.Start(Value(0.0)))];
    RunMore(sqrt, BOOT, before + Hovering(20), Command(G.Start(Value(0.0))));
    R.NudgeChain(sqrt);
    FirstOfNudge();
  }

  lemma FirstOfNudge()
    ensures R.PoseAt(R.Nudged(), 0.0).z == 0.5
  {
    assert R.SegmentAt(R.Nudged(), 0.0, 2) == 0;
  }
}
