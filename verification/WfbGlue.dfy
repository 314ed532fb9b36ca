/**
 API/wfb_glue.c: commands, ticks and disarms over both path executors, the flight sequencer and the safety net. The
 executors share one buffer and are seen through their lifecycle only; whether an upload's payload passed its checks
 and whether a running path has ended come as inputs.
 */
module WfbGlue {
  import opened WfbTypes
  import P = WfbPrim
  import S = WfbSafety

  /** One tick's measurements; the previous tick's are what commands check. */
  datatype Snapshot = Snapshot(x: Num, y: Num, z: Num, padWait: bool, armed: bool, motorsIdle: bool, sbusLive: bool, airborne: bool)

  /** The tables; the hover height in prim is the default, the one in force is part of the state. */
  datatype Env = Env(sqrt: real -> real, prim: P.Cfg, limits: S.Limits)

  const HOVER_MIN := 0.3
  const HOVER_MAX := 1.4
  const HOVER_DEFAULT := 0.5

  datatype Glue = Glue(traj: Lifecycle, prog: Lifecycle, progMode: bool, flight: P.Seq, net: S.Net, haveTick: bool, gs: bool,
                       takeoffPending: bool, takeover: bool, landNow: bool, applied: int, last: Snapshot, hoverZ: real)

  datatype Upload = Begin | Commit | Clear

  datatype Step =
    | Takeoff
    | Land
    | TrajUpload(u: Upload, ok: bool)
    | ProgUpload(p: Upload, ok: bool)
    | Start(heading: Num)
    | Stop
    | SetHoverZ(height: Num)
    | Tick(now: Snapshot, roll: Num, pitch: Num, vbat: Num, hbAge: real, dt: real, rcOverride: bool, preset: bool, finished: bool)
    | Disarm

  datatype Orders = Orders(setpoint: bool, land: bool, takeoff: bool, motorStop: bool)

  function PrimIn(s: Snapshot, dt: real): P.In { P.In(s.x, s.y, s.z, dt, s.padWait) }

  predicate Running(g: Glue) { g.traj.Executing? || g.prog.Executing? }

  /** Executing paths are stopped, back to ready. */
  function Halted(g: Glue): Glue {
    g.(traj := if g.traj.Executing? then Ready else g.traj, prog := if g.prog.Executing? then Ready else g.prog)
  }

  // ---------- commands ----------

  function CmdTakeoff(g: Glue): (Glue, Err) {
    if !g.haveTick || !g.last.armed || !g.last.motorsIdle || !g.last.sbusLive || g.last.airborne || g.takeover || g.net.action != S.NONE
    then (g, BadState)
    else
      var r := P.Takeoff(g.flight);
      if r.1.None? then (g.(flight := r.0, gs := true, takeoffPending := true), None) else (g, r.1)
  }

  function CmdLand(g: Glue): (Glue, Err) {
    if !g.last.airborne then (g, BadState)
    else if g.flight.phase.Idle? then (Halted(g).(landNow := true), None)
    else
      var r := P.Land(g.flight, PrimIn(g.last, 0.0));
      (Halted(g).(flight := r.0), r.1)
  }

  /** One executor's own answer to an upload command. */
  function Uploaded(l: Lifecycle, u: Upload, ok: bool): (Lifecycle, Err) {
    match u
    case Begin => if l.Executing? then (l, BadState) else if ok then (Loading, None) else (l, Range)
    case Commit => if !l.Loading? then (l, BadState) else if ok then (Ready, None) else (Empty, Range)
    case Clear => if l.Executing? then (l, BadState) else (Empty, None)
  }

  /** A new upload of points owns the buffer; the program is cleared. A clear goes to the owner. */
  function CmdTrajUpload(g: Glue, u: Upload, ok: bool): (Glue, Err) {
    if u.Begin? && g.prog.Executing? then (g, BadState)
    else if u.Clear? && g.progMode then
      var r := Uploaded(g.prog, u, ok); (g.(prog := r.0), r.1)
    else
      var r := Uploaded(g.traj, u, ok);
      (if u.Begin? && r.1.None? then g.(traj := r.0, prog := Uploaded(g.prog, Clear, true).0, progMode := false) else g.(traj := r.0), r.1)
  }

  function CmdProgUpload(g: Glue, u: Upload, ok: bool): (Glue, Err) {
    if u.Begin? && g.traj.Executing? then (g, BadState)
    else
      var r := Uploaded(g.prog, u, ok);
      (if u.Begin? && r.1.None? then g.(prog := r.0, traj := Uploaded(g.traj, Clear, true).0, progMode := true) else g.(prog := r.0), r.1)
  }

  /** A program needs a usable heading to turn its yaw by; a trajectory does not look at it. */
  function CmdStart(g: Glue, heading: Num): (Glue, Err) {
    if !g.flight.phase.Hover? || !(if g.progMode then g.prog.Ready? else g.traj.Ready?) then (g, BadState)
    else if g.progMode && !heading.Value? then (g, Range)
    else
      var g1 := if g.progMode then g.(prog := Executing) else g.(traj := Executing);
      (g1.(flight := P.TrajBegin(g.flight).0), None)
  }

  function CmdStop(g: Glue): (Glue, Err) {
    if !(if g.progMode then g.prog.Executing? else g.traj.Executing?) then (g, BadState)
    else
      var g1 := if g.progMode then g.(prog := Ready) else g.(traj := Ready);
      (if g.flight.phase.Traj? then g1.(flight := P.TrajEnd(g.flight, PrimIn(g.last, 0.0)).0) else g1, None)
  }

  /** Only on the ground, and only to a height the limit box contains. */
  function CmdSetHoverZ(g: Glue, height: Num): (Glue, Err) {
    if !g.flight.phase.Idle? then (g, BadState)
    else if !(AtLeast(height, HOVER_MIN) && AtMost(height, HOVER_MAX)) then (g, Range)
    else (g.(hoverZ := height.v), None)
  }

  /** The sequencer's table with the hover height in force. */
  function CfgOf(e: Env, g: Glue): P.Cfg { e.prim.(hoverZ := g.hoverZ) }

  // ---------- the tick ----------

  /** The pilot takes over: the sequencer stops for good. */
  function TakenOver(g: Glue, rcOverride: bool): Glue {
    if rcOverride && g.gs && !g.takeover then Halted(g).(flight := P.GROUNDED, takeoffPending := false, takeover := true) else g
  }

  function SafetyIn(g: Glue, t: Step): S.In
    requires t.Tick?
  {
    var flying := g.gs && !g.takeover;
    S.In(t.now.x, t.now.y, t.now.z, t.roll, t.pitch, t.vbat, if flying then t.hbAge else 0.0, t.dt, g.gs && t.now.airborne, flying)
  }

  /** What a tick does about the safety net having gone up a level. */
  function Applied(g: Glue, i: P.In): Glue {
    var action := g.net.action;
    if action <= g.applied then g
    else
      var h := Halted(g).(applied := action, takeoffPending := false);
      if action == S.KILL then h.(flight := P.GROUNDED)
      else if h.flight.phase.Idle? then h.(landNow := true)
      else if action == S.IN_PLACE then h.(flight := P.LandInPlace(h.flight).0)
      else h.(flight := P.Land(h.flight, i).0)
  }

  /** Snapshot, takeover and safety net. */
  function Guarded(e: Env, g: Glue, t: Step): Glue
    requires t.Tick?
  {
    var g1 := TakenOver(g.(haveTick := true, last := t.now), t.rcOverride);
    Applied(g1.(net := S.Next(g1.net, e.limits, SafetyIn(g1, t))), PrimIn(t.now, t.dt))
  }

  /** The executors and the sequencer are kept in step; a path that has ended hands over to the return leg. */
  function Synced(g: Glue, t: Step): Glue
    requires t.Tick?
  {
    if Running(g) then
      if !g.flight.phase.Traj? then Halted(g)
      else if !t.finished then g
      else
        var g1 := if g.progMode then (if g.prog.Executing? then g.(prog := Done) else g)
                  else (if g.traj.Executing? then g.(traj := Done) else g);
        g1.(flight := P.TrajEnd(g.flight, PrimIn(t.now, t.dt)).0)
    else if g.flight.phase.Traj? then g.(flight := P.TrajEnd(g.flight, PrimIn(t.now, t.dt)).0)
    else g
  }

  function Ticked(e: Env, g: Glue, t: Step): Glue
    requires t.Tick?
  {
    var g2 := Synced(Guarded(e, g, t), t);
    g2.(flight := P.Step(e.sqrt, CfgOf(e, g2), g2.flight, PrimIn(t.now, t.dt)), takeoffPending := false)
  }

  /** What the tick asks of the stabilizer. */
  function OrdersOf(e: Env, g: Glue, t: Step): Orders
    requires t.Tick?
  {
    var g2 := Synced(Guarded(e, g, t), t);
    var n := Ticked(e, g, t);
    var phase := n.flight.phase;
    if n.net.action == S.KILL then Orders(false, false, false, t.now.armed)
    else
      Orders(!n.takeover && !(phase.Hover? && t.preset) &&
             (phase.Climb? || phase.Hover? || phase.Traj? || phase.Return? || phase.Settle?),
             n.landNow || P.Setpoint(e.sqrt, CfgOf(e, g2), g2.flight, PrimIn(t.now, t.dt)).descend,
             g2.takeoffPending && phase.Climb?, false)
  }

  function Disarmed(g: Glue): Glue {
    Halted(g).(flight := P.GROUNDED, net := S.CLEAR, gs := false, takeoffPending := false, takeover := false, landNow := false,
               applied := S.NONE)
  }

  function Next(e: Env, g: Glue, step: Step): Glue {
    match step
    case Takeoff => CmdTakeoff(g).0
    case Land => CmdLand(g).0
    case TrajUpload(u, ok) => CmdTrajUpload(g, u, ok).0
    case ProgUpload(u, ok) => CmdProgUpload(g, u, ok).0
    case Start(heading) => CmdStart(g, heading).0
    case Stop => CmdStop(g).0
    case SetHoverZ(height) => CmdSetHoverZ(g, height).0
    case Tick(_, _, _, _, _, _, _, _, _) => Ticked(e, g, step)
    case Disarm => Disarmed(g)
  }

  function Run(e: Env, g: Glue, steps: seq<Step>): Glue {
    if steps == [] then g else Next(e, Run(e, g, steps[..|steps| - 1]), steps[|steps| - 1])
  }

  // ---------- the invariant ----------

  /** The buffer has one owner at most, and prog_mode names it. */
  ghost predicate OneOwner(g: Glue) {
    (!g.traj.Empty? ==> g.prog.Empty? && !g.progMode) && (!g.prog.Empty? ==> g.traj.Empty? && g.progMode)
  }

  /** A path is executing exactly while the sequencer is in TRAJ. */
  ghost predicate InStep(g: Glue) { Running(g) <==> g.flight.phase.Traj? }

  /** Between ticks every latched action has been applied: the flight is landing, or has no sequencer. */
  ghost predicate Obeyed(g: Glue) {
    g.applied == g.net.action && (g.net.action != S.NONE ==> P.Landing(g.flight) || g.flight.phase.Idle?) &&
    (g.net.action == S.KILL ==> g.flight.phase.Idle?)
  }

  ghost predicate Inv(e: Env, g: Glue) {
    OneOwner(g) && InStep(g) && Obeyed(g) && S.Sound(g.net) &&
    (g.takeover ==> g.flight.phase.Idle? && g.gs) && (!g.flight.phase.Idle? ==> g.gs) && (g.net.action != S.NONE ==> g.gs) &&
    (P.LandPending(g.flight) ==> g.flight.returnT <= e.prim.timeout) && HOVER_MIN <= g.hoverZ <= HOVER_MAX
  }

  const EMPTY_HANDED := Glue(Empty, Empty, false, P.GROUNDED, S.CLEAR, false, false, false, false, false, S.NONE,
                             Snapshot(Nan, Nan, Nan, false, false, false, false, false), HOVER_DEFAULT)

  lemma TakeoffKeeps(e: Env, g: Glue)
    requires Inv(e, g)
    ensures Inv(e, CmdTakeoff(g).0)
  {
  }

  lemma LandKeeps(e: Env, g: Glue)
    requires Inv(e, g) && e.prim.timeout >= 0.0
    ensures Inv(e, CmdLand(g).0)
  {
  }

  lemma UploadKeeps(e: Env, g: Glue, u: Upload, ok: bool)
    requires Inv(e, g)
    ensures Inv(e, CmdTrajUpload(g, u, ok).0) && Inv(e, CmdProgUpload(g, u, ok).0)
  {
    hide S.Sound, P.LandPending, P.Landing;
    UploadsLeaveFlight(g, u, ok);
  }

  lemma StartStopKeep(e: Env, g: Glue, heading: Num)
    requires Inv(e, g)
    ensures Inv(e, CmdStart(g, heading).0) && Inv(e, CmdStop(g).0) && Inv(e, CmdSetHoverZ(g, heading).0)
  {
  }

  lemma CommandsKeep(e: Env, g: Glue, step: Step)
    requires Inv(e, g) && !step.Tick? && e.prim.timeout >= 0.0
    ensures Inv(e, Next(e, g, step))
  {
    hide CmdTakeoff, CmdLand, CmdTrajUpload, CmdProgUpload, CmdStart, CmdStop, CmdSetHoverZ;
    match step
    case Takeoff => TakeoffKeeps(e, g);
    case Land => LandKeeps(e, g);
    case TrajUpload(u, ok) => UploadKeeps(e, g, u, ok);
    case ProgUpload(u, ok) => UploadKeeps(e, g, u, ok);
    case Start(heading) => StartStopKeep(e, g, heading);
    case Stop => StartStopKeep(e, g, Nan);
    case SetHoverZ(height) => StartStopKeep(e, g, height);
    case Disarm =>
  }

  lemma AppliedKeeps(e: Env, g: Glue, net: S.Net, i: P.In)
    requires Inv(e, g) && S.Sound(net) && net.action >= g.net.action && (net.action != S.NONE ==> g.gs) && e.prim.timeout >= 0.0
    ensures Inv(e, Applied(g.(net := net), i))
  {
    hide P.Land, P.LandInPlace, S.Sound;
    if !g.flight.phase.Idle? { P.LandLands(e.prim, g.flight, i); }
    assert P.Landing(g.flight) ==> !g.flight.phase.Traj?;
  }

  lemma GuardedKeeps(e: Env, g: Glue, t: Step)
    requires Inv(e, g) && t.Tick? && e.prim.timeout >= 0.0
    ensures Inv(e, Guarded(e, g, t))
  {
    hide Applied;
    var g1 := TakenOver(g.(haveTick := true, last := t.now), t.rcOverride);
    assert Inv(e, g1);
    var i := SafetyIn(g1, t);
    S.NextLatches(g1.net, e.limits, i);
    AppliedKeeps(e, g1, S.Next(g1.net, e.limits, i), PrimIn(t.now, t.dt));
  }

  lemma TickKeeps(e: Env, g: Glue, t: Step)
    requires Inv(e, g) && t.Tick? && e.prim.timeout >= 0.0
    ensures Inv(e, Ticked(e, g, t))
  {
    hide Guarded, Synced, P.Step;
    GuardedKeeps(e, g, t);
    var g1 := Guarded(e, g, t);
    SyncedKeeps(e, g1, t);
    P.StepKeeps(e.sqrt, CfgOf(e, Synced(g1, t)), Synced(g1, t).flight, PrimIn(t.now, t.dt));
  }

  /** Inside a tick the repair branches never run: executors and sequencer are in step before they are compared. */
  lemma SyncedKeeps(e: Env, g: Glue, t: Step)
    requires Inv(e, g) && t.Tick?
    ensures Inv(e, Synced(g, t)) && Synced(g, t).net == g.net
    ensures Synced(g, t) != g ==> Running(g) && g.flight.phase.Traj? && t.finished
  {
  }

  lemma {:induction false} RunKeeps(e: Env, steps: seq<Step>)
    requires e.prim.timeout >= 0.0
    ensures Inv(e, Run(e, EMPTY_HANDED, steps))
  {
    hide Next, Inv;
    if steps != [] {
      RunKeeps(e, steps[..|steps| - 1]);
      var g, last := Run(e, EMPTY_HANDED, steps[..|steps| - 1]), steps[|steps| - 1];
      NextKeeps(e, g, last);
    } else {
      NothingYet(e);
    }
  }

  lemma NothingYet(e: Env)
    ensures Inv(e, EMPTY_HANDED)
  {
  }

  lemma NextKeeps(e: Env, g: Glue, step: Step)
    requires Inv(e, g) && e.prim.timeout >= 0.0
    ensures Inv(e, Next(e, g, step))
  {
    hide Inv, Ticked;
    if step.Tick? { TickKeeps(e, g, step); } else { CommandsKeep(e, g, step); }
  }

  /** In every state reachable by commands, ticks and disarms: at most one of trajectory and program holds the buffer,
      prog_mode names it, a path executes exactly while the sequencer is in TRAJ, and each safety action is applied. */
  lemma OneOwnerInStep(e: Env, steps: seq<Step>)
    requires e.prim.timeout >= 0.0
    ensures var g := Run(e, EMPTY_HANDED, steps);
      (g.traj.Empty? || g.prog.Empty?) && (!g.traj.Empty? ==> !g.progMode) && (!g.prog.Empty? ==> g.progMode) &&
      (g.traj.Executing? || g.prog.Executing? <==> g.flight.phase.Traj?) && g.applied == g.net.action
  {
    RunKeeps(e, steps);
    hide Run;
  }

  // ---------- landing is a commitment ----------

  /** Landing, or without a sequencer and barred from taking off. */
  predicate Committed(g: Glue) {
    P.Landing(g.flight) || (g.flight.phase.Idle? && (g.takeover || g.net.action != S.NONE))
  }

  /** An accepted land command of a flying sequencer commits, and so does every applied safety action. */
  lemma LandingCommits(e: Env, g: Glue)
    requires Inv(e, g) && e.prim.timeout >= 0.0
    ensures !g.flight.phase.Idle? && CmdLand(g).1.None? ==> Committed(CmdLand(g).0)
    ensures g.applied != S.NONE ==> Committed(g)
  {
  }

  function Spent(step: Step): real { if step.Tick? then step.dt else 0.0 }

  /** Nothing but a disarm undoes a commitment; the time a pending landing has used is the time that passed. */
  ghost predicate Onward(g: Glue, n: Glue, spent: real) {
    Committed(n) && (P.LandPending(n.flight) ==> P.LandPending(g.flight) && n.flight.returnT == g.flight.returnT + spent)
  }

  lemma CommandsOnward(e: Env, g: Glue, step: Step)
    requires Inv(e, g) && Committed(g) && !step.Tick? && !step.Disarm?
    ensures Onward(g, Next(e, g, step), 0.0)
  {
    hide CmdTrajUpload, CmdProgUpload;
    match step
    case TrajUpload(u, ok) => UploadsLeaveFlight(g, u, ok);
    case ProgUpload(u, ok) => UploadsLeaveFlight(g, u, ok);
    case _ =>
  }

  predicate SameFlight(g: Glue, n: Glue) { n.flight == g.flight && n.net == g.net && n.takeover == g.takeover }

  lemma UploadsLeaveFlight(g: Glue, u: Upload, ok: bool)
    ensures SameFlight(g, CmdTrajUpload(g, u, ok).0) && SameFlight(g, CmdProgUpload(g, u, ok).0)
  {
    hide Uploaded;
  }

  lemma AppliedOnward(g: Glue, i: P.In)
    requires Committed(g)
    ensures Onward(g, Applied(g, i), 0.0) && Applied(g, i).net == g.net && Applied(g, i).takeover == g.takeover
  {
    hide P.Land, P.LandInPlace;
    if P.Landing(g.flight) { P.LandingIgnoresLand(g.flight, i); }
  }

  lemma GuardedOnward(e: Env, g: Glue, t: Step)
    requires Inv(e, g) && Committed(g) && t.Tick?
    ensures Onward(g, Guarded(e, g, t), 0.0)
  {
    hide Applied;
    var g1 := TakenOver(g.(haveTick := true, last := t.now), t.rcOverride);
    var i := SafetyIn(g1, t);
    S.NextLatches(g1.net, e.limits, i);
    hide S.Next;
    AppliedOnward(g1.(net := S.Next(g1.net, e.limits, i)), PrimIn(t.now, t.dt));
  }

  lemma TickOnward(e: Env, g: Glue, t: Step)
    requires Inv(e, g) && Committed(g) && t.Tick? && e.prim.timeout >= 0.0
    ensures Onward(g, Ticked(e, g, t), t.dt)
  {
    hide Guarded, P.Step, Inv;
    GuardedKeeps(e, g, t);
    GuardedOnward(e, g, t);
    var g1 := Guarded(e, g, t);
    SyncedKeeps(e, g1, t);
    P.StepKeeps(e.sqrt, CfgOf(e, g1), g1.flight, PrimIn(t.now, t.dt));
  }

  function TimeOf(steps: seq<Step>): real { if steps == [] then 0.0 else TimeOf(steps[..|steps| - 1]) + Spent(steps[|steps| - 1]) }

  predicate NoDisarm(steps: seq<Step>) { forall k :: 0 <= k < |steps| ==> !steps[k].Disarm? }

  /** Once committed, whatever commands and ticks follow: never CLIMB, HOVER or TRAJ again before a disarm; and once
      the time passed exceeds the return timeout, the flight is descending or has no sequencer. */
  lemma {:induction false} NoWayBack(e: Env, g: Glue, steps: seq<Step>)
    requires Inv(e, g) && Committed(g) && NoDisarm(steps) && e.prim.timeout >= 0.0
    ensures var n := Run(e, g, steps);
      Inv(e, n) && Committed(n) && !n.flight.phase.Climb? && !n.flight.phase.Hover? && !n.flight.phase.Traj?
    ensures var n := Run(e, g, steps);
      P.LandPending(n.flight) ==> P.LandPending(g.flight) && n.flight.returnT == g.flight.returnT + TimeOf(steps)
    ensures g.flight.returnT + TimeOf(steps) > e.prim.timeout ==>
      Run(e, g, steps).flight.phase.Descend? || Run(e, g, steps).flight.phase.Idle?
  {
    hide Next, Onward;
    if steps != [] {
      var before, last := steps[..|steps| - 1], steps[|steps| - 1];
      NoWayBack(e, g, before);
      var b := Run(e, g, before);
      NextKeeps(e, b, last);
      assert Onward(b, Next(e, b, last), Spent(last)) by { NextOnward(e, b, last); }
      OnwardIs(b, Next(e, b, last), Spent(last));
    }
    DeadlineIs(e, Run(e, g, steps));
    hide Inv;
  }

  lemma NextOnward(e: Env, g: Glue, step: Step)
    requires Inv(e, g) && Committed(g) && !step.Disarm? && e.prim.timeout >= 0.0
    ensures Onward(g, Next(e, g, step), Spent(step))
  {
    if step.Tick? {
      hide Ticked;
      TickOnward(e, g, step);
    } else {
      CommandsOnward(e, g, step);
      hide Next;
    }
  }

  lemma OnwardIs(g: Glue, n: Glue, spent: real)
    requires Onward(g, n, spent)
    ensures Committed(n) && (P.LandPending(n.flight) ==> P.LandPending(g.flight) && n.flight.returnT == g.flight.returnT + spent)
  {
  }

  lemma DeadlineIs(e: Env, g: Glue)
    requires Inv(e, g)
    ensures P.LandPending(g.flight) ==> g.flight.returnT <= e.prim.timeout
  {
  }

  // ---------- orders ----------

  /** A motor stop comes alone; nothing steers a vehicle the pilot has taken over; a descending one is told to land. */
  lemma OrdersAreSafe(e: Env, g: Glue, t: Step)
    requires Inv(e, g) && t.Tick? && e.prim.timeout >= 0.0
    ensures var o, n := OrdersOf(e, g, t), Ticked(e, g, t);
      (o.motorStop ==> !o.setpoint && !o.land && !o.takeoff && n.net.action == S.KILL && n.flight.phase.Idle?) &&
      (o.setpoint ==> !n.takeover && n.gs && n.net.action != S.KILL) &&
      (o.takeoff ==> n.flight.phase.Climb? && g.takeoffPending && !n.takeover) &&
      (n.flight.phase.Descend? && n.net.action != S.KILL ==> o.land && !o.setpoint)
  {
    hide Guarded, P.Step, OneOwner, S.Sound;
    TickKeeps(e, g, t);
    GuardedKeeps(e, g, t);
    GuardedPending(e, g, t);
    var g1 := Guarded(e, g, t);
    SyncedKeeps(e, g1, t);
    P.StepKeeps(e.sqrt, CfgOf(e, Synced(g1, t)), Synced(g1, t).flight, PrimIn(t.now, t.dt));
  }

  /** And when there is one: a kill stops armed motors and asks for nothing else; otherwise a flying phase of the sequencer
      steers unless a preset flies the hover, and a descent, or a landing asked for without a sequencer, lands. */
  lemma OrdersServe(e: Env, g: Glue, t: Step)
    requires Inv(e, g) && t.Tick? && e.prim.timeout >= 0.0
    ensures var o, n := OrdersOf(e, g, t), Ticked(e, g, t);
      var killed := n.net.action == S.KILL;
      (o.motorStop <==> killed && t.now.armed) &&
      (o.setpoint <==> !killed && !n.takeover && !n.flight.phase.Idle? && !n.flight.phase.Descend? && !(n.flight.phase.Hover? && t.preset)) &&
      (o.land <==> !killed && (n.landNow || n.flight.phase.Descend?))
  {
    hide Guarded, Synced, P.Step;
    var g2 := Synced(Guarded(e, g, t), t);
    P.SetpointsHold(e.sqrt, CfgOf(e, g2), g2.flight, PrimIn(t.now, t.dt));
  }

  lemma GuardedPending(e: Env, g: Glue, t: Step)
    requires Inv(e, g) && t.Tick?
    ensures Guarded(e, g, t).takeoffPending ==> g.takeoffPending
  {
    hide S.Next, P.Land, P.LandInPlace, SafetyIn;
  }

  /** What a tick does the moment the safety net goes up a level: a kill leaves no sequencer and no path; a landing in place
      descends at once; a landing by way of the pad is on its way there or down; without a sequencer either asks for the
      existing landing. */
  lemma ActionTaken(e: Env, g: Glue, t: Step)
    requires Inv(e, g) && t.Tick? && e.prim.timeout >= 0.0
    ensures var n := Ticked(e, g, t);
      n.net.action > g.net.action ==>
        !Running(n) && !n.takeoffPending &&
        (n.net.action == S.KILL ==> n.flight.phase.Idle?) &&
        (n.net.action == S.IN_PLACE ==> n.flight.phase.Descend? || (n.flight.phase.Idle? && n.landNow)) &&
        (n.net.action == S.VIA_HOVER ==> P.LandPending(n.flight) || n.flight.phase.Descend? || (n.flight.phase.Idle? && n.landNow))
  {
    hide Guarded, P.Step, OneOwner, S.Next;
    TickKeeps(e, g, t);
    GuardedKeeps(e, g, t);
    GuardedActs(e, g, t);
    var g1 := Guarded(e, g, t);
    SyncedKeeps(e, g1, t);
    P.StepKeeps(e.sqrt, CfgOf(e, Synced(g1, t)), Synced(g1, t).flight, PrimIn(t.now, t.dt));
    DescentStays(e, Synced(g1, t), t);
  }

  lemma DescentStays(e: Env, g: Glue, t: Step)
    requires t.Tick?
    ensures g.flight.phase.Descend? ==> P.Step(e.sqrt, CfgOf(e, g), g.flight, PrimIn(t.now, t.dt)).phase.Descend?
  {
  }

  lemma GuardedActs(e: Env, g: Glue, t: Step)
    requires Inv(e, g) && t.Tick?
    ensures var n := Guarded(e, g, t);
      n.net.action > g.net.action ==>
        (n.net.action == S.KILL ==> n.flight.phase.Idle?) &&
        (n.net.action == S.IN_PLACE ==> n.flight.phase.Descend? || (n.flight.phase.Idle? && n.landNow)) &&
        (n.net.action == S.VIA_HOVER ==> P.LandPending(n.flight) || n.flight.phase.Descend? || (n.flight.phase.Idle? && n.landNow))
  {
    hide S.Next, SafetyIn, OneOwner, InStep, Applied, TakenOver;
    var g1 := TakenOver(g.(haveTick := true, last := t.now), t.rcOverride);
    TakenOverNet(g.(haveTick := true, last := t.now), t.rcOverride);
    AppliedActs(g1.(net := S.Next(g1.net, e.limits, SafetyIn(g1, t))), PrimIn(t.now, t.dt));
  }

  lemma TakenOverNet(g: Glue, rcOverride: bool)
    ensures TakenOver(g, rcOverride).net == g.net && TakenOver(g, rcOverride).applied == g.applied
  {
  }

  lemma AppliedActs(g: Glue, i: P.In)
    ensures var n := Applied(g, i);
      n.net == g.net &&
      (g.net.action > g.applied ==>
        (n.net.action == S.KILL ==> n.flight.phase.Idle?) &&
        (n.net.action == S.IN_PLACE ==> n.flight.phase.Descend? || (n.flight.phase.Idle? && n.landNow)) &&
        (n.net.action == S.VIA_HOVER ==> P.LandPending(n.flight) || n.flight.phase.Descend? || (n.flight.phase.Idle? && n.landNow)))
  {
    hide Halted, P.Land, P.LandInPlace, P.LandPending;
    HaltedIs(g);
    LandsDown(g.flight, i);
  }

  lemma LandsDown(s: P.Seq, i: P.In)
    ensures !s.phase.Idle? ==> (P.LandPending(P.Land(s, i).0) || P.Land(s, i).0.phase.Descend?) && P.LandInPlace(s).0.phase.Descend?
  {
  }

  /** The pilot's override during a ground-station flight takes the vehicle out of the sequencer's hands in that very tick:
      no path, no setpoint, no take-off, and so it stays until a disarm. */
  lemma PilotTakesOver(e: Env, g: Glue, t: Step)
    requires Inv(e, g) && t.Tick? && e.prim.timeout >= 0.0 && g.gs && (t.rcOverride || g.takeover)
    ensures var o, n := OrdersOf(e, g, t), Ticked(e, g, t);
      n.takeover && n.gs && n.flight.phase.Idle? && !Running(n) && !o.setpoint && !o.takeoff
  {
    hide P.Step, OneOwner, S.Sound, S.Next, Applied, Synced, SafetyIn;
    TickKeeps(e, g, t);
    var g1 := TakenOver(g.(haveTick := true, last := t.now), t.rcOverride);
    AppliedTakenOver(g1.(net := S.Next(g1.net, e.limits, SafetyIn(g1, t))), PrimIn(t.now, t.dt));
    SyncedTakenOver(Guarded(e, g, t), t);
  }

  lemma AppliedTakenOver(g: Glue, i: P.In)
    ensures Applied(g, i).takeover == g.takeover && Applied(g, i).gs == g.gs
  {
    hide P.Land, P.LandInPlace;
  }

  lemma SyncedTakenOver(g: Glue, t: Step)
    requires t.Tick?
    ensures Synced(g, t).takeover == g.takeover && Synced(g, t).gs == g.gs
  {
    hide P.TrajEnd;
  }

  /** The safety net is fed what the tick measured: in a ground-station flight all of it, the age of the link included; once
      the pilot has taken over it watches on without the link; on the ground, or in no such flight, nothing can trip it. */
  lemma NetSees(e: Env, g: Glue, t: Step)
    requires t.Tick?
    ensures var n, over := Ticked(e, g, t), g.takeover || t.rcOverride;
      g.gs ==>
        n.net == S.Next(g.net, e.limits, S.In(t.now.x, t.now.y, t.now.z, t.roll, t.pitch, t.vbat, if over then 0.0 else t.hbAge, t.dt, t.now.airborne, !over))
    ensures !g.gs || !t.now.airborne ==> Ticked(e, g, t).net.action == g.net.action
    ensures g.gs && !g.takeover && !t.rcOverride && t.now.airborne && t.hbAge > e.limits.hbTimeout ==> Ticked(e, g, t).net.action >= S.VIA_HOVER
  {
    hide P.Step, Applied, Synced, S.Tilted, S.Beyond, S.Sagging, S.Held;
    var g1 := TakenOver(g.(haveTick := true, last := t.now), t.rcOverride);
    AppliedNet(g1.(net := S.Next(g1.net, e.limits, SafetyIn(g1, t))), PrimIn(t.now, t.dt));
    SyncedNet(Guarded(e, g, t), t);
  }

  lemma AppliedNet(g: Glue, i: P.In)
    ensures Applied(g, i).net == g.net
  {
    hide P.Land, P.LandInPlace;
  }

  lemma SyncedNet(g: Glue, t: Step)
    requires t.Tick?
    ensures Synced(g, t).net == g.net
  {
    hide P.TrajEnd;
  }

  // ---------- what a flight and a path begin with ----------

  function LastTick(steps: seq<Step>): (k: int)
    ensures -1 <= k < |steps| && (k >= 0 ==> steps[k].Tick?)
  {
    if steps == [] then -1 else if steps[|steps| - 1].Tick? then |steps| - 1 else LastTick(steps[..|steps| - 1])
  }

  /** Commands go by the measurements of the last tick. */
  lemma {:induction false} LastIs(e: Env, steps: seq<Step>)
    ensures var g, k := Run(e, EMPTY_HANDED, steps), LastTick(steps);
      (g.haveTick <==> k >= 0) && (k >= 0 ==> g.last == steps[k].now)
  {
    if steps != [] {
      LastIs(e, steps[..|steps| - 1]);
      NextLast(e, Run(e, EMPTY_HANDED, steps[..|steps| - 1]), steps[|steps| - 1]);
      hide Next;
    }
  }

  /** No path is started and no vehicle lifted off. */
  predicate Calmer(g: Glue, n: Glue) {
    (Running(n) ==> Running(g)) && (g.flight.phase.Idle? ==> n.flight.phase.Idle?) && n.last == g.last && n.haveTick == g.haveTick
  }

  lemma TakenOverCalms(g: Glue, rcOverride: bool)
    ensures Calmer(g, TakenOver(g, rcOverride))
  {
  }

  lemma AppliedCalms(g: Glue, i: P.In)
    ensures Calmer(g, Applied(g, i))
  {
    hide P.Land, P.LandInPlace, Halted;
    HaltedIs(g);
  }

  lemma HaltedIs(g: Glue)
    ensures var h := Halted(g);
      !Running(h) && h.flight == g.flight && h.net == g.net && h.last == g.last && h.haveTick == g.haveTick && h.landNow == g.landNow &&
      h.takeover == g.takeover && h.gs == g.gs
  {
  }

  lemma SyncedCalms(g: Glue, t: Step)
    requires t.Tick?
    ensures Calmer(g, Synced(g, t))
  {
    hide P.TrajEnd;
  }

  /** A tick does neither. */
  lemma TickCalms(e: Env, g: Glue, t: Step)
    requires t.Tick?
    ensures Calmer(g.(haveTick := true, last := t.now), Ticked(e, g, t))
  {
    hide S.Next, TakenOver, Applied, Synced, SafetyIn, P.Step;
    var g0 := g.(haveTick := true, last := t.now);
    TakenOverCalms(g0, t.rcOverride);
    var g1 := TakenOver(g0, t.rcOverride);
    var guarded := g1.(net := S.Next(g1.net, e.limits, SafetyIn(g1, t)));
    AppliedCalms(guarded, PrimIn(t.now, t.dt));
    var g2 := Synced(Guarded(e, g, t), t);
    SyncedCalms(Guarded(e, g, t), t);
    P.StepKeeps(e.sqrt, CfgOf(e, g2), g2.flight, PrimIn(t.now, t.dt));
  }

  lemma NextLast(e: Env, g: Glue, step: Step)
    ensures var n := Next(e, g, step); if step.Tick? then n.haveTick && n.last == step.now else n.haveTick == g.haveTick && n.last == g.last
  {
    hide CmdTakeoff, CmdLand, CmdTrajUpload, CmdProgUpload, CmdStart, CmdStop, CmdSetHoverZ, Ticked;
    match step
    case Takeoff => FlightCommandsSee(g);
    case Land => FlightCommandsSee(g);
    case TrajUpload(u, ok) => UploadsSee(g, u, ok);
    case ProgUpload(u, ok) => UploadsSee(g, u, ok);
    case Start(heading) => StartSees(g, heading);
    case Stop => StopSees(g);
    case SetHoverZ(height) => HeightSees(g, height);
    case Tick(_, _, _, _, _, _, _, _, _) => TickCalms(e, g, step);
    case Disarm =>
  }

  predicate SameView(g: Glue, n: Glue) { n.last == g.last && n.haveTick == g.haveTick }

  lemma FlightCommandsSee(g: Glue)
    ensures SameView(g, CmdTakeoff(g).0) && SameView(g, CmdLand(g).0)
  {
    hide P.Land, P.Takeoff;
  }

  lemma UploadsSee(g: Glue, u: Upload, ok: bool)
    ensures SameView(g, CmdTrajUpload(g, u, ok).0) && SameView(g, CmdProgUpload(g, u, ok).0)
  {
    hide Uploaded;
  }

  lemma StartSees(g: Glue, heading: Num)
    ensures SameView(g, CmdStart(g, heading).0)
  {
    hide P.TrajBegin;
  }

  lemma StopSees(g: Glue)
    ensures SameView(g, CmdStop(g).0)
  {
    hide P.TrajEnd;
  }

  lemma HeightSees(g: Glue, height: Num)
    ensures SameView(g, CmdSetHoverZ(g, height).0)
  {
  }

  predicate Kept(g: Glue, n: Glue) { n.hoverZ == g.hoverZ && (g.landNow ==> n.landNow) }

  /** The hover height is set before a flight or not at all, and to a height between 0.3 and 1.4 m. */
  lemma HeightSet(e: Env, g: Glue, step: Step)
    ensures var n := Next(e, g, step);
      n.hoverZ != g.hoverZ ==> step.SetHoverZ? && g.flight.phase.Idle? && step.height == Value(n.hoverZ) && 0.3 <= n.hoverZ <= 1.4
    ensures step.SetHoverZ? ==> var r := CmdSetHoverZ(g, step.height);
      (r.1.None? <==> g.flight.phase.Idle? && step.height.Value? && 0.3 <= step.height.v <= 1.4) &&
      r.0 == if r.1.None? then g.(hoverZ := step.height.v) else g
    ensures g.landNow && !step.Disarm? ==> Next(e, g, step).landNow
  {
    hide CmdTakeoff, CmdLand, CmdTrajUpload, CmdProgUpload, CmdStart, CmdStop, Ticked;
    match step
    case Takeoff => FlightCommandsHold(g);
    case Land => FlightCommandsHold(g);
    case TrajUpload(u, ok) => UploadsHold(g, u, ok);
    case ProgUpload(u, ok) => UploadsHold(g, u, ok);
    case Start(heading) => PathCommandsHold(g, heading);
    case Stop => PathCommandsHold(g, Nan);
    case SetHoverZ(height) =>
    case Tick(_, _, _, _, _, _, _, _, _) => TickHolds(e, g, step);
    case Disarm =>
  }

  lemma FlightCommandsHold(g: Glue)
    ensures Kept(g, CmdTakeoff(g).0) && Kept(g, CmdLand(g).0)
  {
    hide P.Takeoff, P.Land;
  }

  lemma UploadsHold(g: Glue, u: Upload, ok: bool)
    ensures Kept(g, CmdTrajUpload(g, u, ok).0) && Kept(g, CmdProgUpload(g, u, ok).0)
  {
    hide Uploaded;
  }

  lemma PathCommandsHold(g: Glue, heading: Num)
    ensures Kept(g, CmdStart(g, heading).0) && Kept(g, CmdStop(g).0)
  {
    hide P.TrajBegin, P.TrajEnd;
  }

  lemma TickHolds(e: Env, g: Glue, t: Step)
    requires t.Tick?
    ensures Kept(g, Ticked(e, g, t))
  {
    hide S.Next, TakenOver, Applied, Synced, SafetyIn, P.Step;
    var g0 := g.(haveTick := true, last := t.now);
    TakenOverHolds(g0, t.rcOverride);
    var g1 := TakenOver(g0, t.rcOverride);
    AppliedHolds(g1.(net := S.Next(g1.net, e.limits, SafetyIn(g1, t))), PrimIn(t.now, t.dt));
    SyncedHolds(Guarded(e, g, t), t);
  }

  lemma TakenOverHolds(g: Glue, rcOverride: bool)
    ensures Kept(g, TakenOver(g, rcOverride))
  {
  }

  lemma AppliedHolds(g: Glue, i: P.In)
    ensures Kept(g, Applied(g, i))
  {
    hide P.Land, P.LandInPlace;
  }

  lemma SyncedHolds(g: Glue, t: Step)
    requires t.Tick?
    ensures Kept(g, Synced(g, t))
  {
    hide P.TrajEnd;
  }

  lemma {:induction false} LandNowLasts(e: Env, g: Glue, steps: seq<Step>)
    requires g.landNow && Inv(e, g) && NoDisarm(steps) && e.prim.timeout >= 0.0
    ensures Run(e, g, steps).landNow && Inv(e, Run(e, g, steps))
  {
    hide Next, Inv;
    if steps != [] {
      LandNowLasts(e, g, steps[..|steps| - 1]);
      HeightSet(e, Run(e, g, steps[..|steps| - 1]), steps[|steps| - 1]);
      NextKeeps(e, Run(e, g, steps[..|steps| - 1]), steps[|steps| - 1]);
    }
  }

  /** A land command in the air is obeyed: a flying sequencer is committed to landing, and without one every tick from then
      on orders the landing, but for a kill, until a disarm. On the ground it is refused. */
  lemma LandObeyed(e: Env, g: Glue, steps: seq<Step>, t: Step)
    requires Inv(e, g) && t.Tick? && NoDisarm(steps) && e.prim.timeout >= 0.0
    ensures CmdLand(g).1.None? <==> g.last.airborne
    ensures g.last.airborne && !g.flight.phase.Idle? ==> Committed(CmdLand(g).0)
    ensures g.last.airborne && g.flight.phase.Idle? ==> var n := Run(e, CmdLand(g).0, steps);
      OrdersOf(e, n, t).land || Ticked(e, n, t).net.action == S.KILL
  {
    LandingCommits(e, g);
    LandAccepted(g);
    NextKeeps(e, g, Land);
    hide CmdLand, Inv, Next, OrdersOf, Ticked;
    if g.last.airborne && g.flight.phase.Idle? {
      LandNowLasts(e, CmdLand(g).0, steps);
      var n := Run(e, CmdLand(g).0, steps);
      LandNowOrders(e, n, t);
    }
  }

  lemma LandAccepted(g: Glue)
    ensures CmdLand(g).1.None? <==> g.last.airborne
    ensures g.last.airborne && g.flight.phase.Idle? ==> CmdLand(g).0.landNow
  {
  }

  lemma LandNowOrders(e: Env, g: Glue, t: Step)
    requires g.landNow && t.Tick? && Inv(e, g) && e.prim.timeout >= 0.0
    ensures OrdersOf(e, g, t).land || Ticked(e, g, t).net.action == S.KILL
  {
    HeightSet(e, g, t);
    hide Ticked, Guarded, Synced, Inv;
    OrdersServe(e, g, t);
  }

  /** A flight begins in no other way than by a take-off command after a tick that saw the vehicle on the ground, armed, its
      motors idle and the pilot's link alive, with no takeover and no safety action in force. */
  lemma LiftsOff(e: Env, steps: seq<Step>, step: Step)
    requires e.prim.timeout >= 0.0
    requires Run(e, EMPTY_HANDED, steps).flight.phase.Idle? && !Next(e, Run(e, EMPTY_HANDED, steps), step).flight.phase.Idle?
    ensures var g, k := Run(e, EMPTY_HANDED, steps), LastTick(steps);
      step.Takeoff? && k >= 0 && var s := steps[k].now;
      s.armed && s.motorsIdle && s.sbusLive && !s.airborne && !g.takeover && g.net.action == S.NONE
    ensures var n := Next(e, Run(e, EMPTY_HANDED, steps), step); n.flight.phase.Climb? && n.gs && n.takeoffPending
  {
    RunKeeps(e, steps);
    LastIs(e, steps);
    var g := Run(e, EMPTY_HANDED, steps);
    hide Run;
    LiftOff(e, g, step);
    hide Next, Inv;
  }

  lemma LiftOff(e: Env, g: Glue, step: Step)
    requires Inv(e, g) && g.flight.phase.Idle? && !Next(e, g, step).flight.phase.Idle?
    ensures step.Takeoff? && g.haveTick && g.last.armed && g.last.motorsIdle && g.last.sbusLive && !g.last.airborne && !g.takeover &&
      g.net.action == S.NONE
    ensures var n := Next(e, g, step); n.flight.phase.Climb? && n.gs && n.takeoffPending
  {
    hide CmdTakeoff, CmdLand, CmdTrajUpload, CmdProgUpload, CmdStart, CmdStop, CmdSetHoverZ, Ticked, Inv, Disarmed;
    match step
    case Takeoff => TakeoffIs(g);
    case Land => LandFromIdle(g);
    case TrajUpload(u, ok) => UploadsLeaveFlight(g, u, ok);
    case ProgUpload(u, ok) => UploadsLeaveFlight(g, u, ok);
    case Start(heading) => StartIs(e, g, heading);
    case Stop => StopFromIdle(e, g);
    case SetHoverZ(height) => HeightFromIdle(g, height);
    case Tick(_, _, _, _, _, _, _, _, _) => TickCalms(e, g, step);
    case Disarm => DisarmGrounds(g);
  }

  lemma TakeoffIs(g: Glue)
    requires g.flight.phase.Idle?
    ensures var n := CmdTakeoff(g).0;
      !n.flight.phase.Idle? ==>
        n.flight.phase.Climb? && n.gs && n.takeoffPending && g.haveTick && g.last.armed && g.last.motorsIdle && g.last.sbusLive &&
        !g.last.airborne && !g.takeover && g.net.action == S.NONE
  {
  }

  lemma LandFromIdle(g: Glue)
    requires g.flight.phase.Idle?
    ensures CmdLand(g).0.flight == g.flight
  {
  }

  lemma StopFromIdle(e: Env, g: Glue)
    requires Inv(e, g) && g.flight.phase.Idle?
    ensures CmdStop(g).0.flight == g.flight
  {
  }

  lemma HeightFromIdle(g: Glue, height: Num)
    ensures CmdSetHoverZ(g, height).0.flight == g.flight
  {
  }

  lemma DisarmGrounds(g: Glue)
    ensures Disarmed(g).flight.phase.Idle?
  {
  }

  /** A path begins in no other way than by a start command in HOVER, with the buffer's owner READY, and a program with a
      finite heading; and the command is accepted exactly then. */
  lemma PathStarts(e: Env, g: Glue, step: Step)
    requires Inv(e, g) && e.prim.timeout >= 0.0
    ensures !Running(g) && Running(Next(e, g, step)) ==> step.Start? && CmdStart(g, step.heading).1.None?
    ensures step.Start? ==>
      (CmdStart(g, step.heading).1.None? <==> g.flight.phase.Hover? && ((g.prog.Ready? && step.heading.Value?) || g.traj.Ready?))
    ensures step.Start? && CmdStart(g, step.heading).1.None? ==>
      var n := Next(e, g, step); n.flight.phase.Traj? && Running(n) && (n.prog.Executing? <==> g.prog.Ready?)
  {
    hide CmdTakeoff, CmdLand, CmdTrajUpload, CmdProgUpload, CmdStart, CmdStop, CmdSetHoverZ, Ticked, Inv, Disarmed;
    match step
    case Takeoff => FlightCommandsStart(g);
    case Land => FlightCommandsStart(g);
    case TrajUpload(u, ok) => UploadsStart(g, u, ok);
    case ProgUpload(u, ok) => UploadsStart(g, u, ok);
    case Start(heading) => StartIs(e, g, heading);
    case Stop => StopStarts(g);
    case SetHoverZ(height) => HeightStarts(g, height);
    case Tick(_, _, _, _, _, _, _, _, _) => TickCalms(e, g, step);
    case Disarm => DisarmStarts(g);
  }

  predicate NoPathFrom(g: Glue, n: Glue) { Running(n) ==> Running(g) }

  lemma FlightCommandsStart(g: Glue)
    ensures NoPathFrom(g, CmdTakeoff(g).0) && NoPathFrom(g, CmdLand(g).0)
  {
    hide P.Land, P.Takeoff;
  }

  lemma UploadsStart(g: Glue, u: Upload, ok: bool)
    ensures NoPathFrom(g, CmdTrajUpload(g, u, ok).0) && NoPathFrom(g, CmdProgUpload(g, u, ok).0)
  {
    hide Uploaded;
    NeverStarts(g.traj, u, ok);
    NeverStarts(g.prog, u, ok);
    NeverStarts(g.prog, Clear, true);
    NeverStarts(g.traj, Clear, true);
  }

  lemma StopStarts(g: Glue)
    ensures NoPathFrom(g, CmdStop(g).0)
  {
    hide P.TrajEnd;
  }

  lemma HeightStarts(g: Glue, height: Num)
    ensures NoPathFrom(g, CmdSetHoverZ(g, height).0)
  {
  }

  lemma DisarmStarts(g: Glue)
    ensures NoPathFrom(g, Disarmed(g))
  {
  }

  lemma StartIs(e: Env, g: Glue, heading: Num)
    requires Inv(e, g)
    ensures CmdStart(g, heading).1.None? <==> g.flight.phase.Hover? && ((g.prog.Ready? && heading.Value?) || g.traj.Ready?)
    ensures var (n, err) := CmdStart(g, heading);
      if err.None? then n.flight.phase.Traj? && Running(n) && (n.prog.Executing? <==> g.prog.Ready?) else n == g
  {
    hide S.Sound, Obeyed;
  }

  lemma NeverStarts(l: Lifecycle, u: Upload, ok: bool)
    ensures Uploaded(l, u, ok).0.Executing? <==> l.Executing?
  {
  }

  // ---------- the object ----------

  class Gluer {
    const env: Env
    const flight: P.Sequencer
    const net: S.SafetyNet
    var traj: Lifecycle
    var prog: Lifecycle
    var progMode: bool
    var haveTick: bool
    var gs: bool
    var takeoffPending: bool
    var takeover: bool
    var landNow: bool
    var applied: int
    var last: Snapshot
    var hoverZ: real

    function State(): Glue
      reads this, flight, net
    {
      Glue(traj, prog, progMode, flight.State(), net.State(), haveTick, gs, takeoffPending, takeover, landNow, applied, last, hoverZ)
    }

    ghost predicate Valid()
      reads this, flight, net
    {
      flight.sqrt == env.sqrt && env.prim.timeout >= 0.0 && Inv(env, State())
    }

    constructor (env: Env)
      requires env.prim.timeout >= 0.0
      ensures Valid() && State() == EMPTY_HANDED && this.env == env && fresh(flight) && fresh(net)
    {
      this.env := env;
      flight := new P.Sequencer(env.sqrt);
      net := new S.SafetyNet();
      traj, prog, progMode, haveTick, gs, takeoffPending := Empty, Empty, false, false, false, false;
      takeover, landNow, applied := false, false, S.NONE;
      last, hoverZ := Snapshot(Nan, Nan, Nan, false, false, false, false, false), HOVER_DEFAULT;
      new;
      NothingYet(env);
    }

    /** wfb_glue_stop_traj */
    method StopTraj()
      modifies this`traj, this`prog
      ensures State() == Halted(old(State()))
    {
      if traj.Executing? { traj := Ready; }
      if prog.Executing? { prog := Ready; }
    }

    method OnTakeoff() returns (err: Err)
      modifies this, flight
      ensures (State(), err) == CmdTakeoff(old(State()))
    {
      if !haveTick || !last.armed || !last.motorsIdle || !last.sbusLive || last.airborne || takeover || net.action != S.NONE {
        return BadState;
      }
      err := flight.CmdTakeoff();
      if err.None? { gs, takeoffPending := true, true; }
    }

    method OnLand() returns (err: Err)
      modifies this, flight
      ensures (State(), err) == CmdLand(old(State()))
    {
      if !last.airborne { return BadState; }
      StopTraj();
      if flight.phase.Idle? {
        landNow := true;
        return None;
      }
      err := flight.CmdLand(PrimIn(last, 0.0));
    }

    method OnTrajUpload(u: Upload, ok: bool) returns (err: Err)
      modifies this`traj, this`prog, this`progMode
      ensures (State(), err) == CmdTrajUpload(old(State()), u, ok)
    {
      if u.Begin? && prog.Executing? { return BadState; }
      if u.Clear? && progMode {
        var r := Uploaded(prog, u, ok);
        prog := r.0;
        return r.1;
      }
      var r := Uploaded(traj, u, ok);
      traj := r.0;
      if u.Begin? && r.1.None? {
        prog := Uploaded(prog, Clear, true).0;
        progMode := false;
      }
      err := r.1;
    }

    method OnProgUpload(u: Upload, ok: bool) returns (err: Err)
      modifies this`traj, this`prog, this`progMode
      ensures (State(), err) == CmdProgUpload(old(State()), u, ok)
    {
      if u.Begin? && traj.Executing? { return BadState; }
      var r := Uploaded(prog, u, ok);
      prog := r.0;
      if u.Begin? && r.1.None? {
        traj := Uploaded(traj, Clear, true).0;
        progMode := true;
      }
      err := r.1;
    }

    method OnStart(heading: Num) returns (err: Err)
      modifies this`traj, this`prog, flight
      ensures (State(), err) == CmdStart(old(State()), heading)
    {
      if !flight.phase.Hover? { return BadState; }
      if progMode {
        if !prog.Ready? { return BadState; }
        if !heading.Value? { return Range; }
        prog := Executing;
      } else {
        if !traj.Ready? { return BadState; }
        traj := Executing;
      }
      err := flight.CmdTrajBegin();
    }

    method OnSetHoverZ(height: Num) returns (err: Err)
      modifies this`hoverZ
      ensures (State(), err) == CmdSetHoverZ(old(State()), height)
    {
      if !flight.phase.Idle? { return BadState; }
      if !(AtLeast(height, HOVER_MIN) && AtMost(height, HOVER_MAX)) { return Range; }
      hoverZ := height.v;
      err := None;
    }

    method OnStop() returns (err: Err)
      modifies this`traj, this`prog, flight
      ensures (State(), err) == CmdStop(old(State()))
    {
      if progMode {
        if !prog.Executing? { return BadState; }
        prog := Ready;
      } else {
        if !traj.Executing? { return BadState; }
        traj := Ready;
      }
      if flight.phase.Traj? { var _ := flight.CmdTrajEnd(PrimIn(last, 0.0)); }
      err := None;
    }

    /** wfb_glue_apply_action */
    method ApplyAction(action: int, i: P.In)
      requires action == net.action
      modifies this, flight
      ensures State() == Applied(old(State()), i)
    {
      hide P.Land, P.LandInPlace;
      if action <= applied { return; }
      applied := action;
      StopTraj();
      takeoffPending := false;
      if action == S.KILL {
        flight.Disarmed();
      } else if flight.phase.Idle? {
        landNow := true;
      } else if action == S.IN_PLACE {
        var _ := flight.CmdLandInPlace();
      } else {
        var _ := flight.CmdLand(i);
      }
    }

    method Guard(t: Step)
      requires Valid() && t.Tick?
      modifies this, flight, net
      ensures State() == Guarded(env, old(State()), t)
    {
      hide Inv, Applied, S.Next;
      assert S.Sound(net.State()) by { InvSound(env, State()); }
      haveTick, last := true, t.now;
      if t.rcOverride && gs && !takeover {
        StopTraj();
        flight.Disarmed();
        takeoffPending, takeover := false, true;
      }
      var action := net.Step(env.limits, SafetyIn(State(), t));
      ApplyAction(action, PrimIn(t.now, t.dt));
    }

    method Sync(t: Step)
      requires t.Tick?
      modifies this`traj, this`prog, flight
      ensures State() == Synced(old(State()), t)
    {
      hide P.TrajEnd;
      if traj.Executing? || prog.Executing? {
        if !flight.phase.Traj? {
          StopTraj();
        } else if t.finished {
          if progMode { if prog.Executing? { prog := Done; } } else { if traj.Executing? { traj := Done; } }
          var _ := flight.CmdTrajEnd(PrimIn(t.now, t.dt));
        }
      } else if flight.phase.Traj? {
        var _ := flight.CmdTrajEnd(PrimIn(t.now, t.dt));
      }
    }

    /** wfb_glue_tick */
    method OnTick(t: Step) returns (o: Orders)
      requires Valid() && t.Tick?
      modifies this, flight, net
      ensures Valid() && State() == Ticked(env, old(State()), t) && o == OrdersOf(env, old(State()), t)
    {
      hide Inv, Guarded, Synced, P.Step, P.Setpoint;
      TickKeeps(env, State(), t);
      Guard(t);
      Sync(t);
      var sp := flight.Tick(env.prim.(hoverZ := hoverZ), PrimIn(t.now, t.dt));
      var phase := flight.phase;
      if net.action == S.KILL {
        o := Orders(false, false, false, t.now.armed);
      } else {
        var steer := !takeover && !(phase.Hover? && t.preset) &&
          (phase.Climb? || phase.Hover? || phase.Traj? || phase.Return? || phase.Settle?);
        o := Orders(steer, landNow || sp.descend, takeoffPending && phase.Climb?, false);
      }
      takeoffPending := false;
    }

    /** wfb_glue_disarmed */
    method OnDisarmed()
      modifies this, flight, net
      ensures State() == Disarmed(old(State()))
    {
      StopTraj();
      flight.Disarmed();
      net.Init();
      gs, takeoffPending, takeover, landNow, applied := false, false, false, false, S.NONE;
    }

    /** Any command, or a disarm: the invariant holds afterwards. */
    method OnCommand(step: Step) returns (err: Err)
      requires Valid() && !step.Tick?
      modifies this, flight, net
      ensures Valid() && State() == Next(env, old(State()), step)
    {
      hide Inv, CmdTakeoff, CmdLand, CmdTrajUpload, CmdProgUpload, CmdStart, CmdStop, CmdSetHoverZ, Disarmed;
      CommandsKeep(env, State(), step);
      match step
      case Takeoff => err := OnTakeoff();
      case Land => err := OnLand();
      case TrajUpload(u, ok) => err := OnTrajUpload(u, ok);
      case ProgUpload(u, ok) => err := OnProgUpload(u, ok);
      case Start(heading) => err := OnStart(heading);
      case Stop => err := OnStop();
      case SetHoverZ(height) => err := OnSetHoverZ(height);
      case Disarm =>
        OnDisarmed();
        err := None;
    }
  }

  lemma InvSound(e: Env, g: Glue)
    requires Inv(e, g)
    ensures S.Sound(g.net)
  {
  }
}
