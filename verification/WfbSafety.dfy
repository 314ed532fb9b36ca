/**
 API/wfb_safety.c: the latched safety action with its hold timers, and the fence push-back.
 Every comparison fails safe: a value that is not a number counts as out of limits.
 */
module WfbSafety {
  import opened Reals
  import opened WfbTypes

  const NONE := 0
  const VIA_HOVER := 1
  const IN_PLACE := 2
  const KILL := 3

  datatype Trip = Quiet | Heartbeat | LowVoltage | AirborneCap | Fence | Ceiling | Tilt

  datatype Axis = X | Y | Z

  datatype Limits = Limits(fenceX: real, fenceY: real, ceiling: real, lowV: real, lowVHold: real, tilt: real,
                           tiltHold: real, airborneCap: real, hbTimeout: real, fenceHold: real, fenceOver: real, softMargin: real)

  /** The default table. */
  const LIMITS := Limits(1.6, 2.0, 1.7, 14.0, 3.0, 60.0, 0.2, 120.0, 1.0, 2.0, 0.3, 0.3)

  datatype In = In(x: Num, y: Num, z: Num, roll: Num, pitch: Num, vbat: Num, hbAge: real, dt: real, airborne: bool, gs: bool)

  datatype Net = Net(lowVT: real, tiltT: real, airborneT: real, fenceT: real, trip: Trip, action: int, push: set<Axis>)

  const CLEAR := Net(0.0, 0.0, 0.0, 0.0, Quiet, NONE, {})

  predicate AbsAtMost(n: Num, m: real) { n.Value? && Abs(n.v) <= m }

  predicate Tilted(l: Limits, i: In) { !(AbsAtMost(i.roll, l.tilt) && AbsAtMost(i.pitch, l.tilt)) }

  /** The axes on which the vehicle is more than over outside the fence or ceiling. */
  function Beyond(l: Limits, i: In, over: real): set<Axis> {
    (if AbsAtMost(i.x, l.fenceX + over) then {} else {X}) +
    (if AbsAtMost(i.y, l.fenceY + over) then {} else {Y}) +
    (if AtMost(i.z, l.ceiling + over) then {} else {Z})
  }

  predicate Sagging(l: Limits, i: In) { !AtLeast(i.vbat, l.lowV) }

  /** A hold timer: runs while its condition lasts. */
  function Held(t: real, on: bool, dt: real): real { if on then t + dt else 0.0 }

  // ---------- what one airborne step calls for ----------

  predicate CallsKill(s: Net, l: Limits, i: In) { Tilted(l, i) && s.tiltT + i.dt >= l.tiltHold }

  predicate CallsInPlace(s: Net, l: Limits, i: In) {
    Beyond(l, i, 0.0) != {} && (!i.gs || Beyond(l, i, l.fenceOver) != {} || s.fenceT + i.dt >= l.fenceHold)
  }

  predicate CallsLowV(s: Net, l: Limits, i: In) { Sagging(l, i) && s.lowVT + i.dt >= l.lowVHold }

  predicate CallsHeartbeat(l: Limits, i: In) { i.gs && i.hbAge > l.hbTimeout }

  predicate CallsCap(s: Net, l: Limits, i: In) { i.gs && s.airborneT + i.dt > l.airborneCap }

  /** The strongest action called for, and why. */
  function Called(s: Net, l: Limits, i: In): (int, Trip) {
    if CallsKill(s, l, i) then (KILL, Tilt)
    else if CallsInPlace(s, l, i) then (IN_PLACE, if Beyond(l, i, 0.0) * {X, Y} != {} then Fence else Ceiling)
    else if CallsLowV(s, l, i) then (VIA_HOVER, LowVoltage)
    else if CallsHeartbeat(l, i) then (VIA_HOVER, Heartbeat)
    else if CallsCap(s, l, i) then (VIA_HOVER, AirborneCap)
    else (NONE, Quiet)
  }

  /** On the ground nothing trips and the hold timers clear; in the air the action only ever rises. */
  function Next(s: Net, l: Limits, i: In): Net {
    if !i.airborne then s.(tiltT := 0.0, lowVT := 0.0, fenceT := 0.0, push := {})
    else
      var called := Called(s, l, i);
      var action := if called.0 > s.action then called.0 else s.action;
      Net(Held(s.lowVT, Sagging(l, i), i.dt), Held(s.tiltT, Tilted(l, i), i.dt), s.airborneT + i.dt,
          Held(s.fenceT, Beyond(l, i, 0.0) != {}, i.dt),
          if called.0 > s.action then called.1 else s.trip, action,
          if action == NONE then Beyond(l, i, 0.0) else {})
  }

  function Run(s: Net, l: Limits, ins: seq<In>): Net {
    if ins == [] then s else Next(Run(s, l, ins[..|ins| - 1]), l, ins[|ins| - 1])
  }

  ghost predicate Sound(s: Net) {
    NONE <= s.action <= KILL && (s.push != {} ==> s.action == NONE) && (s.trip.Quiet? <==> s.action == NONE)
  }

  lemma NextLatches(s: Net, l: Limits, i: In)
    requires Sound(s)
    ensures Sound(Next(s, l, i)) && Next(s, l, i).action >= s.action && (!i.airborne ==> Next(s, l, i).action == s.action)
  {
  }

  /** Over any run the action never decreases, a reason is on record exactly when an action is, and the fence pushes
      back only while no action is latched. */
  lemma {:induction false} ActionLatches(s: Net, l: Limits, ins: seq<In>)
    requires Sound(s)
    ensures Sound(Run(s, l, ins)) && Run(s, l, ins).action >= s.action
  {
    hide Next;
    if ins != [] {
      ActionLatches(s, l, ins[..|ins| - 1]);
      NextLatches(Run(s, l, ins[..|ins| - 1]), l, ins[|ins| - 1]);
    }
  }

  function Total(ins: seq<In>): real { if ins == [] then 0.0 else Total(ins[..|ins| - 1]) + ins[|ins| - 1].dt }

  /** Tilted (or with no usable attitude) through a whole run: killed as soon as the run lasts the hold time. */
  lemma {:induction false} TiltHeldKills(s: Net, l: Limits, ins: seq<In>)
    requires Sound(s) && ins != [] && forall k :: 0 <= k < |ins| ==> ins[k].airborne && Tilted(l, ins[k])
    requires s.tiltT + Total(ins) >= l.tiltHold
    ensures Run(s, l, ins).action == KILL
  {
    TiltTimes(s, l, ins[..|ins| - 1]);
    ActionLatches(s, l, ins[..|ins| - 1]);
    ActionLatches(s, l, ins);
    hide Sagging, Beyond;
  }

  lemma {:induction false} TiltTimes(s: Net, l: Limits, ins: seq<In>)
    requires forall k :: 0 <= k < |ins| ==> ins[k].airborne && Tilted(l, ins[k])
    ensures Run(s, l, ins).tiltT == s.tiltT + Total(ins)
  {
    if ins != [] { TiltTimes(s, l, ins[..|ins| - 1]); }
  }

  /** Outside the fence on every step of a run, a GS flight is landed once the run lasts the hold time. */
  lemma {:induction false} FenceHeldLands(s: Net, l: Limits, ins: seq<In>)
    requires Sound(s) && ins != [] && forall k :: 0 <= k < |ins| ==> ins[k].airborne && Beyond(l, ins[k], 0.0) != {}
    requires s.fenceT + Total(ins) >= l.fenceHold
    ensures Run(s, l, ins).action >= IN_PLACE
  {
    FenceTimes(s, l, ins[..|ins| - 1]);
    ActionLatches(s, l, ins[..|ins| - 1]);
    hide Beyond, Tilted, Sagging;
  }

  lemma {:induction false} FenceTimes(s: Net, l: Limits, ins: seq<In>)
    requires forall k :: 0 <= k < |ins| ==> ins[k].airborne && Beyond(l, ins[k], 0.0) != {}
    ensures Run(s, l, ins).fenceT == s.fenceT + Total(ins)
  {
    if ins != [] { FenceTimes(s, l, ins[..|ins| - 1]); }
  }

  // ---------- what a whole flight calls for ----------

  /** A number, and no further than m from zero. */
  predicate Within(n: Num, m: real) { n.Value? && -m <= n.v <= m }

  predicate Level(l: Limits, i: In) { Within(i.roll, l.tilt) && Within(i.pitch, l.tilt) }

  predicate Fenced(l: Limits, i: In, over: real) {
    Within(i.x, l.fenceX + over) && Within(i.y, l.fenceY + over) &&
    (match i.z case Value(z) => z <= l.ceiling + over case Infinite(positive) => !positive case Nan => false)
  }

  predicate Powered(l: Limits, i: In) { match i.vbat case Value(v) => v >= l.lowV case Infinite(positive) => positive case Nan => false }

  datatype Fault = Tipping | Straying | Drooping

  predicate Faulty(f: Fault, l: Limits, i: In) {
    match f
    case Tipping => !Level(l, i)
    case Straying => !Fenced(l, i, 0.0)
    case Drooping => !Powered(l, i)
  }

  /** The fault has lasted for a time hold, in the air, by the k-th step. */
  ghost predicate Lasting(f: Fault, l: Limits, ins: seq<In>, k: nat, hold: real)
    requires k < |ins|
  {
    exists j :: 0 <= j <= k && LastsFrom(f, l, ins, j, k) && Total(ins[j..k + 1]) >= hold
  }

  ghost predicate LastsFrom(f: Fault, l: Limits, ins: seq<In>, j: nat, k: nat)
    requires j <= k < |ins|
  {
    forall m :: j <= m <= k ==> ins[m].airborne && Faulty(f, l, ins[m])
  }

  function TimeAloft(ins: seq<In>): real {
    if ins == [] then 0.0 else TimeAloft(ins[..|ins| - 1]) + if ins[|ins| - 1].airborne then ins[|ins| - 1].dt else 0.0
  }

  ghost predicate KillsAt(l: Limits, ins: seq<In>, k: nat)
    requires k < |ins|
  {
    Lasting(Tipping, l, ins, k, l.tiltHold)
  }

  ghost predicate LandsAt(l: Limits, ins: seq<In>, k: nat)
    requires k < |ins|
  {
    ins[k].airborne && !Fenced(l, ins[k], 0.0) && (!ins[k].gs || !Fenced(l, ins[k], l.fenceOver) || Lasting(Straying, l, ins, k, l.fenceHold))
  }

  ghost predicate ReturnsAt(l: Limits, ins: seq<In>, k: nat)
    requires k < |ins|
  {
    Lasting(Drooping, l, ins, k, l.lowVHold) ||
    (ins[k].airborne && ins[k].gs && (ins[k].hbAge > l.hbTimeout || TimeAloft(ins[..k + 1]) > l.airborneCap))
  }

  /** The action after any flight from switch-on, from what was measured alone: stopped if and only if it once was tilted for
      the hold time; landed in place if it once was outside the fence and no ground station flies it, or it was far outside,
      or outside for the hold time; returned if the battery once was low for its hold time, or under a ground station the
      link was silent too long or the time in the air used up. */
  lemma {:induction false} ActionIff(l: Limits, ins: seq<In>)
    requires forall k :: 0 <= k < |ins| ==> ins[k].dt >= 0.0
    ensures var a := Run(CLEAR, l, ins).action;
      (a == KILL <==> exists k :: 0 <= k < |ins| && KillsAt(l, ins, k)) &&
      (a >= IN_PLACE <==> a == KILL || exists k :: 0 <= k < |ins| && LandsAt(l, ins, k)) &&
      (a >= VIA_HOVER <==> a >= IN_PLACE || exists k :: 0 <= k < |ins| && ReturnsAt(l, ins, k))
  {
    hide KillsAt, LandsAt, ReturnsAt, Next, Called;
    if ins != [] {
      var before, last := ins[..|ins| - 1], |ins| - 1;
      ActionIff(l, before);
      ActionLatches(CLEAR, l, before);
      CalledIff(l, ins);
      NextAction(Run(CLEAR, l, before), l, ins[last]);
      forall k | 0 <= k < last
        ensures KillsAt(l, before, k) == KillsAt(l, ins, k) && LandsAt(l, before, k) == LandsAt(l, ins, k) &&
          ReturnsAt(l, before, k) == ReturnsAt(l, ins, k)
      {
        SoFar(l, ins, k);
      }
    }
  }

  lemma NextAction(s: Net, l: Limits, i: In)
    ensures Next(s, l, i).action == if i.airborne && Called(s, l, i).0 > s.action then Called(s, l, i).0 else s.action
    ensures NONE <= Called(s, l, i).0 <= KILL
  {
    hide CallsKill, CallsInPlace, CallsLowV, CallsHeartbeat, CallsCap, Beyond, Held;
  }

  /** Later steps do not change what was called for at step k. */
  lemma SoFar(l: Limits, ins: seq<In>, k: nat)
    requires k + 1 < |ins|
    ensures var before := ins[..|ins| - 1];
      KillsAt(l, before, k) == KillsAt(l, ins, k) && LandsAt(l, before, k) == LandsAt(l, ins, k) && ReturnsAt(l, before, k) == ReturnsAt(l, ins, k)
  {
    hide Fenced, Powered, Level;
    var before := ins[..|ins| - 1];
    assert before[..k + 1] == ins[..k + 1];
    forall f, hold ensures Lasting(f, l, before, k, hold) == Lasting(f, l, ins, k, hold) { LastingSoFar(f, l, ins, k, hold); }
  }

  lemma LastingSoFar(f: Fault, l: Limits, ins: seq<In>, k: nat, hold: real)
    requires k + 1 < |ins|
    ensures Lasting(f, l, ins[..|ins| - 1], k, hold) == Lasting(f, l, ins, k, hold)
  {
    hide Faulty;
    var before := ins[..|ins| - 1];
    forall j | 0 <= j <= k ensures LastsFrom(f, l, before, j, k) == LastsFrom(f, l, ins, j, k) && before[j..k + 1] == ins[j..k + 1] {
      assert forall m :: j <= m <= k ==> before[m] == ins[m];
    }
  }

  /** How long the fault has lasted at the end. */
  function Streak(f: Fault, l: Limits, ins: seq<In>): real {
    if ins == [] then 0.0
    else
      var i := ins[|ins| - 1];
      if i.airborne && Faulty(f, l, i) then Streak(f, l, ins[..|ins| - 1]) + i.dt else 0.0
  }

  lemma {:induction false} TimersAre(l: Limits, ins: seq<In>)
    ensures var s := Run(CLEAR, l, ins);
      s.tiltT == Streak(Tipping, l, ins) && s.fenceT == Streak(Straying, l, ins) && s.lowVT == Streak(Drooping, l, ins) &&
      s.airborneT == TimeAloft(ins)
  {
    hide Called, Tilted, Beyond, Sagging, Faulty;
    if ins != [] {
      TimersAre(l, ins[..|ins| - 1]);
      FaultsAre(l, ins[|ins| - 1]);
    }
  }

  lemma FaultsAre(l: Limits, i: In)
    ensures (Tilted(l, i) <==> Faulty(Tipping, l, i)) && (Beyond(l, i, 0.0) != {} <==> Faulty(Straying, l, i)) &&
      (Sagging(l, i) <==> Faulty(Drooping, l, i))
    ensures forall over: real {:trigger Beyond(l, i, over)} :: Beyond(l, i, over) != {} <==> !Fenced(l, i, over)
  {
  }

  lemma {:induction false} StreakLasts(f: Fault, l: Limits, ins: seq<In>, hold: real)
    requires ins != [] && forall k :: 0 <= k < |ins| ==> ins[k].dt >= 0.0
    ensures var last := |ins| - 1; Lasting(f, l, ins, last, hold) <==> ins[last].airborne && Faulty(f, l, ins[last]) && Streak(f, l, ins) >= hold
  {
    hide Faulty;
    var last := |ins| - 1;
    if ins[last].airborne && Faulty(f, l, ins[last]) {
      var j := StreakFrom(f, l, ins);
      assert LastsFrom(f, l, ins, j, last) && ins[j..last + 1] == ins[j..];
      forall j | 0 <= j <= last && LastsFrom(f, l, ins, j, last) ensures Total(ins[j..last + 1]) <= Streak(f, l, ins) {
        WindowWithin(f, l, ins, j);
        assert ins[j..last + 1] == ins[j..];
      }
    }
  }

  /** Dropping the last and the first ones commutes. */
  lemma Trim(ins: seq<In>, j: nat)
    requires j < |ins|
    ensures ins[j..][..|ins[j..]| - 1] == ins[..|ins| - 1][j..]
  {
    var a, b := ins[j..][..|ins[j..]| - 1], ins[..|ins| - 1][j..];
    assert |a| == |b|;
    forall k | 0 <= k < |a| ensures a[k] == b[k] { assert ins[j..][k] == ins[j + k]; }
  }

  lemma {:induction false} StreakFrom(f: Fault, l: Limits, ins: seq<In>) returns (j: nat)
    requires ins != [] && ins[|ins| - 1].airborne && Faulty(f, l, ins[|ins| - 1])
    ensures j < |ins| && LastsFrom(f, l, ins, j, |ins| - 1) && Total(ins[j..]) == Streak(f, l, ins)
  {
    hide Faulty, Streak, Total;
    var before := ins[..|ins| - 1];
    StreakIs(f, l, ins);
    StreakIs(f, l, before);
    if before != [] && before[|before| - 1].airborne && Faulty(f, l, before[|before| - 1]) {
      j := StreakFrom(f, l, before);
      Trim(ins, j);
    } else {
      j := |ins| - 1;
      assert ins[j..] == [ins[j]] && [ins[j]][..0] == [];
    }
    TotalIs(ins[j..]);
    TotalIs([]);
  }

  lemma StreakIs(f: Fault, l: Limits, ins: seq<In>)
    ensures Streak(f, l, ins) == if ins != [] && ins[|ins| - 1].airborne && Faulty(f, l, ins[|ins| - 1])
      then Streak(f, l, ins[..|ins| - 1]) + ins[|ins| - 1].dt else 0.0
  {
    hide Faulty;
  }

  lemma TotalIs(ins: seq<In>)
    ensures Total(ins) == if ins == [] then 0.0 else Total(ins[..|ins| - 1]) + ins[|ins| - 1].dt
  {
  }

  lemma {:induction false} WindowWithin(f: Fault, l: Limits, ins: seq<In>, j: nat)
    requires j < |ins| && LastsFrom(f, l, ins, j, |ins| - 1) && forall k :: 0 <= k < |ins| ==> ins[k].dt >= 0.0
    ensures Total(ins[j..]) <= Streak(f, l, ins)
  {
    hide Faulty, Streak, Total;
    var before := ins[..|ins| - 1];
    StreakSign(f, l, before);
    StreakIs(f, l, ins);
    Trim(ins, j);
    TotalIs(ins[j..]);
    if j < |before| {
      WindowWithin(f, l, before, j);
    } else {
      assert before[j..] == [];
      TotalIs([]);
    }
  }

  lemma {:induction false} StreakSign(f: Fault, l: Limits, ins: seq<In>)
    requires forall k :: 0 <= k < |ins| ==> ins[k].dt >= 0.0
    ensures Streak(f, l, ins) >= 0.0
  {
    if ins != [] { StreakSign(f, l, ins[..|ins| - 1]); }
  }

  /** What the last step calls for. */
  lemma CalledIff(l: Limits, ins: seq<In>)
    requires ins != [] && forall k :: 0 <= k < |ins| ==> ins[k].dt >= 0.0
    ensures var last := |ins| - 1;
      var c := if ins[last].airborne then Called(Run(CLEAR, l, ins[..last]), l, ins[last]).0 else NONE;
      (c == KILL <==> KillsAt(l, ins, last)) && (c >= IN_PLACE <==> c == KILL || LandsAt(l, ins, last)) &&
      (c >= VIA_HOVER <==> c >= IN_PLACE || ReturnsAt(l, ins, last))
  {
    hide Run, Streak, Tilted, Beyond, Sagging, Fenced, Level, Powered, Lasting, TimeAloft;
    var last := |ins| - 1;
    TimersAre(l, ins[..last]);
    FaultsAre(l, ins[last]);
    StreakLasts(Tipping, l, ins, l.tiltHold);
    StreakLasts(Straying, l, ins, l.fenceHold);
    StreakLasts(Drooping, l, ins, l.lowVHold);
    StreakMore(l, ins);
    assert ins[..last + 1] == ins;
  }

  lemma StreakMore(l: Limits, ins: seq<In>)
    requires ins != []
    ensures var last := |ins| - 1; var i := ins[last];
      (forall f: Fault {:trigger Streak(f, l, ins)} :: Streak(f, l, ins) == if i.airborne && Faulty(f, l, i) then Streak(f, l, ins[..last]) + i.dt else 0.0) &&
      TimeAloft(ins) == TimeAloft(ins[..last]) + if i.airborne then i.dt else 0.0
  {
    hide Faulty;
  }

  // ---------- push-back ----------

  /** The soft boundary on the vehicle's side; NaN compares as not below 0. */
  function SoftSide(at: Num, soft: real): real { if Below(at, 0.0) then -soft else soft }

  function Pushed(s: Net, l: Limits, i: In, sp: (real, real, real)): (real, real, real) {
    (if X in s.push then SoftSide(i.x, l.fenceX - l.softMargin) else sp.0,
     if Y in s.push then SoftSide(i.y, l.fenceY - l.softMargin) else sp.1,
     if Z in s.push then l.ceiling - l.softMargin else sp.2)
  }

  /** Between the pad and x, short of x: the way back in, without crossing the pad. */
  predicate Nearer(p: real, x: real) { if x > 0.0 then 0.0 <= p < x else x < p <= 0.0 }

  /** With a soft margin inside the fence, the pushed setpoint of a setpoint within limits is within limits, and on
      every axis where the vehicle is out it asks for a move inwards. */
  lemma PushIsInside(s: Net, l: Limits, i: In, sp: (real, real, real))
    requires i.airborne && 0.0 < l.softMargin <= l.fenceX && l.softMargin <= l.fenceY
    requires Abs(sp.0) <= l.fenceX && Abs(sp.1) <= l.fenceY && sp.2 <= l.ceiling
    ensures var n := Next(s, l, i);
      var p := Pushed(n, l, i, sp);
      Abs(p.0) <= l.fenceX && Abs(p.1) <= l.fenceY && p.2 <= l.ceiling &&
      (n.action == NONE && i.x.Value? && Abs(i.x.v) > l.fenceX ==> Nearer(p.0, i.x.v)) &&
      (n.action == NONE && i.y.Value? && Abs(i.y.v) > l.fenceY ==> Nearer(p.1, i.y.v)) &&
      (n.action == NONE && i.z.Value? && i.z.v > l.ceiling ==> p.2 < i.z.v)
  {
    if i.x.Value? { Inwards(i.x.v, l.fenceX - l.softMargin, l.fenceX); }
    if i.y.Value? { Inwards(i.y.v, l.fenceY - l.softMargin, l.fenceY); }
    hide Called;
  }

  lemma Inwards(x: real, soft: real, fence: real)
    requires 0.0 <= soft < fence
    ensures Abs(x) > fence ==> Nearer(if x < 0.0 then -soft else soft, x)
  {
  }

  // ---------- the object ----------

  class SafetyNet {
    var lowVT: real
    var tiltT: real
    var airborneT: real
    var fenceT: real
    var trip: Trip
    var action: int
    var push: set<Axis>

    function State(): Net
      reads this
    {
      Net(lowVT, tiltT, airborneT, fenceT, trip, action, push)
    }

    constructor ()
      ensures State() == CLEAR
    {
      lowVT, tiltT, airborneT, fenceT, trip, action, push := 0.0, 0.0, 0.0, 0.0, Quiet, NONE, {};
    }

    method Init()
      modifies this
      ensures State() == CLEAR
    {
      lowVT, tiltT, airborneT, fenceT, trip, action, push := 0.0, 0.0, 0.0, 0.0, Quiet, NONE, {};
    }

    method Raise(level: int, why: Trip)
      modifies this`action, this`trip
      ensures action == if old(action) < level then level else old(action)
      ensures trip == if old(action) < level then why else old(trip)
    {
      if action < level { action, trip := level, why; }
    }

    method CheckTilt(l: Limits, i: In)
      modifies this`tiltT, this`action, this`trip
      ensures tiltT == Held(old(tiltT), Tilted(l, i), i.dt)
      ensures var on := CallsKill(old(State()), l, i) && old(action) < KILL;
        action == (if on then KILL else old(action)) && trip == (if on then Tilt else old(trip))
    {
      hide Tilted;
      if Tilted(l, i) { tiltT := tiltT + i.dt; } else { tiltT := 0.0; }
      if Tilted(l, i) && !(tiltT < l.tiltHold) { Raise(KILL, Tilt); }
    }

    method CheckFence(l: Limits, i: In) returns (out: set<Axis>)
      modifies this`fenceT, this`action, this`trip
      ensures out == Beyond(l, i, 0.0) && fenceT == Held(old(fenceT), out != {}, i.dt)
      ensures var on := CallsInPlace(old(State()), l, i) && old(action) < IN_PLACE;
        action == (if on then IN_PLACE else old(action)) &&
        trip == (if on then (if out * {X, Y} != {} then Fence else Ceiling) else old(trip))
    {
      hide Beyond;
      out := Beyond(l, i, 0.0);
      var far := Beyond(l, i, l.fenceOver);
      if out != {} { fenceT := fenceT + i.dt; } else { fenceT := 0.0; }
      if out != {} && (!i.gs || far != {} || !(fenceT < l.fenceHold)) {
        Raise(IN_PLACE, if out * {X, Y} != {} then Fence else Ceiling);
      }
    }

    method CheckVoltage(l: Limits, i: In)
      modifies this`lowVT, this`action, this`trip
      ensures lowVT == Held(old(lowVT), Sagging(l, i), i.dt)
      ensures var on := CallsLowV(old(State()), l, i) && old(action) < VIA_HOVER;
        action == (if on then VIA_HOVER else old(action)) && trip == (if on then LowVoltage else old(trip))
    {
      hide Sagging;
      if Sagging(l, i) { lowVT := lowVT + i.dt; } else { lowVT := 0.0; }
      if Sagging(l, i) && !(lowVT < l.lowVHold) { Raise(VIA_HOVER, LowVoltage); }
    }

    /** wfb_safety_step: tilt, fence and ceiling, low voltage, heartbeat, airborne cap, in that order. */
    method Step(l: Limits, i: In) returns (now: int)
      requires Sound(State())
      modifies this
      ensures State() == Next(old(State()), l, i) && Sound(State()) && now == action
    {
      hide Beyond, Tilted, Sagging, Held;
      if !i.airborne {
        tiltT, lowVT, fenceT, push := 0.0, 0.0, 0.0, {};
        return action;
      }
      airborneT := airborneT + i.dt;
      CheckTilt(l, i);
      var out := CheckFence(l, i);
      CheckVoltage(l, i);
      if i.gs && i.hbAge > l.hbTimeout { Raise(VIA_HOVER, Heartbeat); }
      if i.gs && airborneT > l.airborneCap { Raise(VIA_HOVER, AirborneCap); }
      push := if action == NONE then out else {};
      now := action;
    }
  }
}
