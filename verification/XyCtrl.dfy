/** API/xy_ctrl.c: the Smith predictor of the xy outer loop. */
module XyCtrl {
  // SetDelay builds, in place, the matrices that carry a state d ticks ahead over the d commands still in flight; the
  // pipe holds those commands. The reference is the one-tick plant of the same comment: first the lag a, then v with
  // the new a, then the position. Floats are exact reals.

  const DMAX := 48
  const D_DEFAULT := 33
  const DT := 0.01
  const AL := 0.862128296
  const K := 0.674429432
  const DRAG := 0.42558222

  datatype Plant = Plant(p: real, v: real, a: real)

  const ORIGIN := Plant(0.0, 0.0, 0.0)

  /** First-order lag of the acceleration. */
  function Lagged(a: real, u: real): real { AL * a + (1.0 - AL) * u }

  /** One 10 ms tick under command u. */
  function Tick(x: Plant, u: real): Plant {
    var a := Lagged(x.a, u);
    var v := x.v + DT * (K * a - DRAG * x.v);
    Plant(x.p + DT * v, v, a)
  }

  /** The plant stepped once per command, oldest first. */
  function Drive(x: Plant, us: seq<real>): Plant {
    if us == [] then x else Tick(Drive(x, us[..|us| - 1]), us[|us| - 1])
  }

  // ---------- the plant is linear ----------

  function Add(x: Plant, y: Plant): Plant { Plant(x.p + y.p, x.v + y.v, x.a + y.a) }

  function Scale(c: real, x: Plant): Plant { Plant(c * x.p, c * x.v, c * x.a) }

  lemma TickAdds(x: Plant, u: real, y: Plant, w: real)
    ensures Tick(Add(x, y), u + w) == Add(Tick(x, u), Tick(y, w))
  {
  }

  lemma TickScales(c: real, x: Plant)
    ensures Tick(Scale(c, x), 0.0) == Scale(c, Tick(x, 0.0))
  {
    var a := AL * x.a;
    assert AL * (c * x.a) == c * a;
    var v := x.v + DT * (K * a - DRAG * x.v);
    assert c * x.v + DT * (K * (c * a) - DRAG * (c * x.v)) == c * v by {
      assert c * v == c * x.v + c * (DT * (K * a - DRAG * x.v));
      assert c * (DT * (K * a - DRAG * x.v)) == DT * (K * (c * a)) - DT * (DRAG * (c * x.v));
    }
    assert c * x.p + DT * (c * v) == c * (x.p + DT * v);
  }

  /** n ticks with no command. */
  function Coast(x: Plant, n: nat): Plant {
    if n == 0 then x else Tick(Coast(x, n - 1), 0.0)
  }

  /** What a unit command leaves in the plant after its own tick. */
  const KICK := Tick(ORIGIN, 1.0)

  const UNIT_P := Plant(1.0, 0.0, 0.0)
  const UNIT_V := Plant(0.0, 1.0, 0.0)
  const UNIT_A := Plant(0.0, 0.0, 1.0)

  /** Sum over the first n commands of us[j] * gam[j]. */
  function Weighted(gam: seq<Plant>, us: seq<real>, n: nat): Plant
    requires n <= |gam| && n <= |us|
  {
    if n == 0 then ORIGIN else Add(Weighted(gam, us, n - 1), Scale(us[n - 1], gam[n - 1]))
  }

  /** phi x0 for phi given by its columns. */
  function Combined(phi: (Plant, Plant, Plant), x0: Plant): Plant {
    Add(Add(Scale(x0.p, phi.0), Scale(x0.v, phi.1)), Scale(x0.a, phi.2))
  }

  /** The response to command j of d: a unit kick that then coasts d - 1 - j ticks. */
  function Impulses(d: nat): (g: seq<Plant>)
    ensures |g| == d && forall j :: 0 <= j < d ==> g[j] == Coast(KICK, d - 1 - j)
  {
    seq(d, j requires 0 <= j < d => Coast(KICK, d - 1 - j))
  }

  function FreeColumns(d: nat): (Plant, Plant, Plant) {
    (Coast(UNIT_P, d), Coast(UNIT_V, d), Coast(UNIT_A, d))
  }

  lemma {:induction false} WeightedTicks(d: nat, us: seq<real>, n: nat)
    requires n <= d && n <= |us|
    ensures Weighted(Impulses(d + 1), us, n) == Tick(Weighted(Impulses(d), us, n), 0.0)
  {
    if n > 0 {
      WeightedTicks(d, us, n - 1);
      TickAdds(Weighted(Impulses(d), us, n - 1), 0.0, Scale(us[n - 1], Impulses(d)[n - 1]), 0.0);
      TickScales(us[n - 1], Impulses(d)[n - 1]);
    }
  }

  lemma {:induction false} WeightedPrefix(gam: seq<Plant>, us: seq<real>, vs: seq<real>, n: nat)
    requires n <= |gam| && n <= |us| && n <= |vs| && forall j :: 0 <= j < n ==> us[j] == vs[j]
    ensures Weighted(gam, us, n) == Weighted(gam, vs, n)
  {
    if n > 0 { WeightedPrefix(gam, us, vs, n - 1); }
  }

  lemma CombinedTicks(d: nat, x0: Plant)
    ensures Combined(FreeColumns(d + 1), x0) == Tick(Combined(FreeColumns(d), x0), 0.0)
  {
    var (c0, c1, c2) := FreeColumns(d);
    TickScales(x0.p, c0);
    TickScales(x0.v, c1);
    TickScales(x0.a, c2);
    TickAdds(Scale(x0.p, c0), 0.0, Scale(x0.v, c1), 0.0);
    TickAdds(Add(Scale(x0.p, c0), Scale(x0.v, c1)), 0.0, Scale(x0.a, c2), 0.0);
  }

  /** Tick is additive and a command enters as a scaled kick. */
  lemma Superpose(f: Plant, w: Plant, u: real)
    ensures Add(Tick(f, 0.0), Add(Tick(w, 0.0), Scale(u, KICK))) == Tick(Add(f, w), u)
  {
    TickAdds(f, 0.0, w, 0.0);
    TickAdds(Add(f, w), 0.0, ORIGIN, u);
    assert Tick(ORIGIN, u) == Scale(u, KICK);
  }

  /** The fast form is the slow one: d-tick matrices over d commands == d plant ticks. */
  lemma {:induction false} PredictionIsDrive(x0: Plant, us: seq<real>)
    ensures Add(Combined(FreeColumns(|us|), x0), Weighted(Impulses(|us|), us, |us|)) == Drive(x0, us)
  {
    var d := |us|;
    if d > 0 {
      var before, u := us[..d - 1], us[d - 1];
      PredictionIsDrive(x0, before);
      hide Tick, Combined, FreeColumns;
      CombinedTicks(d - 1, x0);
      WeightedTicks(d - 1, us, d - 1);
      WeightedPrefix(Impulses(d - 1), us, before, d - 1);
      Superpose(Combined(FreeColumns(d - 1), x0), Weighted(Impulses(d - 1), before, d - 1), u);
    }
  }

  // ---------- the command pipe and the real, delayed plant ----------

  function Zeros(d: nat): (z: seq<real>)
    ensures |z| == d && forall j :: 0 <= j < d ==> z[j] == 0.0
  {
    seq(d, _ => 0.0)
  }

  /** Every command the plant will ever see, in order: d ticks of nothing, then what was committed. */
  function History(d: nat, sent: seq<real>): (h: seq<real>)
    ensures |h| == d + |sent|
  {
    Zeros(d) + sent
  }

  /** The part of the history the plant has seen, and the part in flight. */
  function Past(d: nat, sent: seq<real>): seq<real> { History(d, sent)[..|sent|] }

  function InFlight(d: nat, sent: seq<real>): (us: seq<real>)
    ensures |us| == d
  {
    History(d, sent)[|sent|..]
  }

  /** Committing u moves the oldest command in flight into the past. */
  lemma HistoryStep(d: nat, sent: seq<real>, u: real)
    requires d >= 1
    ensures InFlight(d, sent + [u]) == InFlight(d, sent)[1..] + [u]
    ensures Drive(ORIGIN, Past(d, sent + [u])).a == Lagged(Drive(ORIGIN, Past(d, sent)).a, InFlight(d, sent)[0])
  {
    var n, h, g := |sent|, History(d, sent), History(d, sent + [u]);
    assert g == h + [u];
    assert g[..n + 1][..n] == h[..n];
  }

  lemma {:induction false} DriveAppends(x: Plant, us: seq<real>, vs: seq<real>)
    ensures Drive(Drive(x, us), vs) == Drive(x, us + vs)
  {
    if vs == [] {
      assert us + vs == us;
    } else {
      DriveAppends(x, us, vs[..|vs| - 1]);
      assert (us + vs)[..|us + vs| - 1] == us + vs[..|vs| - 1];
    }
  }

  lemma {:induction false} LagIgnoresMotion(x: Plant, us: seq<real>)
    requires x.a == 0.0
    ensures Drive(x, us).a == Drive(ORIGIN, us).a
  {
    if us != [] { LagIgnoresMotion(x, us[..|us| - 1]); }
  }

  /** With the lag estimate and the pipe of a given history, the prediction from the measured position and
      velocity is the state the delayed plant really has d ticks later. */
  lemma ForecastIsFuture(d: nat, sent: seq<real>, x0: Plant, aEst: real)
    requires x0.a == 0.0 && aEst == Drive(ORIGIN, Past(d, sent)).a
    ensures var now := Drive(x0, Past(d, sent));
            Drive(Plant(now.p, now.v, aEst), InFlight(d, sent)) == Drive(x0, History(d, sent))
  {
    var h := History(d, sent);
    LagIgnoresMotion(x0, Past(d, sent));
    DriveAppends(x0, Past(d, sent), InFlight(d, sent));
    assert h[..|sent|] + h[|sent|..] == h;
  }

  // ---------- the objects ----------

  ghost function Column(m: array2<real>, c: nat): Plant
    requires m.Length0 == 3 && c < m.Length1
    reads m
  {
    Plant(m[0, c], m[1, c], m[2, c])
  }

  /** A and B of the one-tick plant, as the source tabulates them. */
  const A: seq<seq<real>> := [
    [1.0, DT * (1.0 - DRAG * DT), DT * DT * K * AL],
    [0.0, 1.0 - DRAG * DT, DT * K * AL],
    [0.0, 0.0, AL]]
  const B: seq<real> := [DT * DT * K * (1.0 - AL), DT * K * (1.0 - AL), 1.0 - AL]

  /** Row r of A x. */
  function RowTimes(r: nat, x: Plant): real
    requires r < 3
  {
    A[r][0] * x.p + A[r][1] * x.v + A[r][2] * x.a
  }

  lemma MatrixIsTick(x: Plant)
    ensures Tick(x, 0.0) == Plant(RowTimes(0, x), RowTimes(1, x), RowTimes(2, x))
  {
  }

  lemma KickIsB()
    ensures Plant(B[0], B[1], B[2]) == KICK
  {
  }

  lemma NoTicksYet()
    ensures FreeColumns(0) == (UNIT_P, UNIT_V, UNIT_A)
  {
  }

  function Clamped(wanted: int): (d: nat)
    ensures 1 <= d <= DMAX && (1 <= wanted <= DMAX ==> d == wanted)
  {
    if wanted < 1 then 1 else if wanted > DMAX then DMAX else wanted
  }

  /** The file-scope predictor: s_d, s_phi, s_gam, s_built. */
  class Predictor {
    var d: nat
    const phi: array2<real>
    const gam: array2<real>
    var built: bool

    ghost predicate Shaped() {
      phi.Length0 == 3 && phi.Length1 == 3 && gam.Length0 == 3 && gam.Length1 == DMAX && phi != gam
    }

    ghost function Phi(): (Plant, Plant, Plant)
      requires Shaped()
      reads phi
    {
      (Column(phi, 0), Column(phi, 1), Column(phi, 2))
    }

    ghost predicate Valid()
      reads this, phi, gam
    {
      Shaped() && 1 <= d <= DMAX && (built ==> Phi() == FreeColumns(d) && Gamma(d) == Impulses(d))
    }

    constructor ()
      ensures Valid() && !built && d == D_DEFAULT
    {
      d := D_DEFAULT;
      phi := new real[3, 3];
      gam := new real[3, DMAX];
      built := false;
    }

    /** m[.][c] := A m[.][c], through the temporary t. */
    method Advance(m: array2<real>, c: nat)
      requires m.Length0 == 3 && c < m.Length1
      modifies m
      ensures Column(m, c) == Tick(old(Column(m, c)), 0.0)
      ensures forall k: nat {:trigger Column(m, k)} :: k < m.Length1 && k != c ==> Column(m, k) == old(Column(m, k))
    {
      hide Tick, RowTimes;
      var t := new real[3];
      for r := 0 to 3
        invariant forall q :: 0 <= q < r ==> t[q] == RowTimes(q, Column(m, c))
        modifies t
      {
        t[r] := RowTimes(r, Plant(m[0, c], m[1, c], m[2, c]));
      }
      MatrixIsTick(Column(m, c));
      m[0, c], m[1, c], m[2, c] := t[0], t[1], t[2];
    }

    method SetDelay(wanted: int)
      requires Shaped()
      modifies this, phi, gam
      ensures Valid() && built
      ensures d == Clamped(wanted)
    {
      hide Coast, Tick;
      d := Clamped(wanted);
      ClearToIdentity();
      NoTicksYet();
      var j := 0;
      while j < d
        invariant 0 <= j <= d == Clamped(wanted) && Stage(j)
      {
        Extend(j);
        j := j + 1;
      }
      built := true;
    }

    /** The matrices that look j ticks ahead. */
    ghost predicate Stage(j: nat)
      requires Shaped()
      reads phi, gam
    {
      j <= DMAX && Phi() == FreeColumns(j) &&
      forall k: nat {:trigger Column(gam, k)} :: k < j ==> Column(gam, k) == Coast(KICK, j - 1 - k)
    }

    /** One pass of the outer loop: every column so far moves one tick on, and command j joins. */
    method Extend(j: nat)
      requires Shaped() && j < DMAX && Stage(j)
      modifies phi, gam
      ensures Stage(j + 1)
    {
      hide Tick;
      for i := 0 to j
        invariant forall k: nat {:trigger Column(gam, k)} :: k < j ==>
          Column(gam, k) == if k < i then Coast(KICK, j - k) else Coast(KICK, j - 1 - k)
        modifies gam
      {
        Advance(gam, i);
      }
      ghost var was := Gamma(j);
      gam[0, j], gam[1, j], gam[2, j] := B[0], B[1], B[2];
      KickIsB();
      assert forall k: nat :: k < j ==> Column(gam, k) == was[k];
      for c := 0 to 3
        invariant Column(phi, 0) == Coast(UNIT_P, if c > 0 then j + 1 else j)
        invariant Column(phi, 1) == Coast(UNIT_V, if c > 1 then j + 1 else j)
        invariant Column(phi, 2) == Coast(UNIT_A, if c > 2 then j + 1 else j)
        modifies phi
      {
        Advance(phi, c);
      }
    }

    ghost function Gamma(j: nat): (g: seq<Plant>)
      requires Shaped() && j <= DMAX
      reads gam
      ensures |g| == j && forall k :: 0 <= k < j ==> g[k] == Column(gam, k)
    {
      seq(j, k requires 0 <= k < DMAX reads gam => Column(gam, k))
    }

    method ClearToIdentity()
      requires Shaped()
      modifies phi, gam
      ensures Phi() == (UNIT_P, UNIT_V, UNIT_A)
      ensures forall k: nat {:trigger Column(gam, k)} :: k < DMAX ==> Column(gam, k) == ORIGIN
    {
      forall r, c | 0 <= r < 3 && 0 <= c < 3 { phi[r, c] := 0.0; }
      forall r, c | 0 <= r < 3 && 0 <= c < DMAX { gam[r, c] := 0.0; }
      for r := 0 to 3
        invariant forall q, c :: 0 <= q < 3 && 0 <= c < 3 ==> phi[q, c] == if q == c && q < r then 1.0 else 0.0
        modifies phi
      {
        phi[r, r] := 1.0;
      }
    }
  }

  /** XyCtrlState, the fields the predictor uses. */
  class State {
    const pipe: array<real>
    var head: nat
    var aEst: real
    var z: real
    var uPrev: real
    ghost var sent: seq<real>

    /** Consistent with a pipe of d commands. */
    ghost predicate Valid(d: nat)
      reads this, pipe
    {
      pipe.Length == DMAX && 1 <= d <= DMAX && head < d &&
      Pipe(d) == InFlight(d, sent) && aEst == Drive(ORIGIN, Past(d, sent)).a
    }

    /** What acts j ticks after the command that acts next. */
    function PipeAt(d: nat, j: nat): real
      requires pipe.Length == DMAX && j < d <= DMAX && head < DMAX
      reads this`head, pipe
    {
      var i := head + j;
      pipe[if i >= d then i - d else i]
    }

    ghost function Pipe(d: nat): (us: seq<real>)
      requires pipe.Length == DMAX && 1 <= d <= DMAX && head < DMAX
      reads this`head, pipe
      ensures |us| == d && forall j :: 0 <= j < d ==> us[j] == PipeAt(d, j)
    {
      var h, p := head, pipe[..];
      seq(d, j requires 0 <= j < d => p[if h + j >= d then h + j - d else h + j])
    }

    constructor ()
      ensures pipe.Length == DMAX && fresh(pipe)
    {
      pipe := new real[DMAX];
      head, aEst, z, uPrev := 0, 0.0, 0.0, 0.0;
    }

    /** XyCtrl_Reset: an empty pipe, and matrices if none were ever built. */
    method Reset(pr: Predictor)
      requires pr.Valid() && pipe.Length == DMAX
      modifies this, pipe, pr, pr.phi, pr.gam
      ensures pr.Valid() && pr.built && pr.d == old(pr.d) && sent == [] && Valid(pr.d) && Pipe(pr.d) == Zeros(pr.d)
      ensures Fresh()
    {
      forall j | 0 <= j < DMAX { pipe[j] := 0.0; }
      head, aEst, z, uPrev := 0, 0.0, 0.0, 0.0;
      sent := [];
      if !pr.built { pr.SetDelay(pr.d); }
    }

    /** Reset, and nothing committed since; slots beyond the delay are zero too. */
    ghost predicate Fresh()
      reads this, pipe
    {
      pipe.Length == DMAX && head == 0 && aEst == 0.0 && sent == [] && forall j :: 0 <= j < DMAX ==> pipe[j] == 0.0
    }

    /** A fresh state fits every delay: it does not matter whether the delay is set before the reset or after it. */
    lemma FreshFits(e: nat)
      requires Fresh() && 1 <= e <= DMAX
      ensures Valid(e) && Pipe(e) == Zeros(e)
    {
      assert InFlight(e, []) == Zeros(e) && Past(e, []) == [];
    }

    /** What a live pipe of d commands turns into when the delay becomes e without a reset. A longer delay puts the slots
        beyond the old one in between the old commands. A shorter one drops the commands in the slots beyond it, out of
        the middle; if the head is one of those slots, the newest e are left. */
    lemma Repiped(d: nat, e: nat)
      requires pipe.Length == DMAX && 1 <= d <= DMAX && 1 <= e <= DMAX && head < d
      ensures d <= e ==> Pipe(e) == Pipe(d)[..d - head] + pipe[d..e] + Pipe(d)[d - head..]
      ensures head < e <= d ==> Pipe(e) == Pipe(d)[..e - head] + Pipe(d)[d - head..]
      ensures e <= head ==> Pipe(e) == Pipe(d)[d - e..]
    {
      var was := if d <= e then Pipe(d)[..d - head] + pipe[d..e] + Pipe(d)[d - head..]
                 else if head < e then Pipe(d)[..e - head] + Pipe(d)[d - head..]
                 else Pipe(d)[d - e..];
      forall j | 0 <= j < e ensures Pipe(e)[j] == was[j] {
        assert Pipe(e)[j] == PipeAt(e, j);
      }
    }

    /** So a reset is needed: with a longer delay set between two passes of the ring, the command just sent is no longer
        the last to act, and the state stands for no history with it. */
    lemma LongerMisleads(d: nat, e: nat)
      requires Valid(d) && d < e <= DMAX && head == 0 && pipe[e - 1] == 0.0 && sent != [] && sent[|sent| - 1] != 0.0
      ensures !Valid(e) && Pipe(e) != InFlight(e, sent)
    {
      assert Pipe(e)[e - 1] == PipeAt(e, e - 1) == 0.0;
      assert InFlight(e, sent)[e - 1] == History(e, sent)[|sent| + e - 1] == sent[|sent| - 1];
    }

    /** XyCtrl_Commit: the oldest command reaches the lag estimate, the applied one enters at the back. */
    method Commit(pr: Predictor, u: real)
      requires pr.Valid() && Valid(pr.d)
      modifies this, pipe
      ensures Valid(pr.d) && sent == old(sent) + [u] && Pipe(pr.d) == old(Pipe(pr.d))[1..] + [u]
      ensures uPrev == u && z == old(z)
    {
      hide Drive, Past, InFlight, Lagged;
      ghost var d := pr.d;
      assert PipeAt(d, 0) == Pipe(d)[0];
      HistoryStep(d, sent, u);
      aEst := Lagged(aEst, pipe[head]);
      PushBack(pr.d, u);
      uPrev := u;
      sent := sent + [u];
    }

    /** The head slot is reused for the newest command and the head moves on. */
    method PushBack(d: nat, u: real)
      requires pipe.Length == DMAX && 1 <= d <= DMAX && head < d
      modifies pipe, this`head
      ensures head < d && Pipe(d) == old(Pipe(d))[1..] + [u]
    {
      pipe[head] := u;
      head := if head + 1 >= d then 0 else head + 1;
      forall j | 0 <= j < d ensures Pipe(d)[j] == (old(Pipe(d))[1..] + [u])[j] {
        assert j < d - 1 ==> old(PipeAt(d, j + 1)) == old(Pipe(d))[j + 1];
      }
    }

    /** predicted_error: the state d ticks on, relative to the target. */
    method PredictedError(pr: Predictor, des: real, pos: real, vel: real, vff: real) returns (e: seq<real>)
      requires pr.Valid() && pr.built && Valid(pr.d)
      ensures var future := Drive(Plant(pos, vel, aEst), Pipe(pr.d));
              e == [future.p - des, future.v - vff, future.a - DRAG * vff / K, z]
    {
      hide Combined, Weighted, Drive, FreeColumns, Impulses, Tick;
      ghost var x0, us := Plant(pos, vel, aEst), Pipe(pr.d);
      ghost var free := Combined(pr.Phi(), x0);
      var x := [pos, vel, aEst];
      var p := PredictRow(pr, 0, x, free, us);
      var v := PredictRow(pr, 1, x, free, us);
      var a := PredictRow(pr, 2, x, free, us);
      PredictionIsDrive(x0, us);
      e := [p - des, v - vff, a - DRAG * vff / K, z];
    }

    /** Row r of phi x0 + gam u, summed as the source sums it. */
    method PredictRow(pr: Predictor, r: nat, x: seq<real>, ghost free: Plant, ghost us: seq<real>) returns (acc: real)
      requires pr.Valid() && pipe.Length == DMAX && head < pr.d && r < 3 && |x| == 3 && us == Pipe(pr.d)
      requires free == Combined(pr.Phi(), Plant(x[0], x[1], x[2]))
      ensures acc == Component(Add(free, Weighted(pr.Gamma(pr.d), us, pr.d)), r)
    {
      hide Combined, Weighted, Component;
      acc := FreeRow(pr, r, x);
      ghost var base, g := acc, pr.Gamma(pr.d);
      WeightedEmpty(g, us, r);
      for j := 0 to pr.d
        invariant acc == base + Component(Weighted(g, us, j), r)
      {
        WeightedStep(g, us, j, r);
        GammaAt(pr.gam, j, r);
        assert us[j] == PipeAt(pr.d, j);
        acc := acc + pr.gam[r, j] * PipeAt(pr.d, j);
      }
      ComponentAdds(free, Weighted(g, us, pr.d), r);
    }

    method FreeRow(pr: Predictor, r: nat, x: seq<real>) returns (acc: real)
      requires pr.Valid() && r < 3 && |x| == 3
      ensures acc == Component(Combined(pr.Phi(), Plant(x[0], x[1], x[2])), r)
    {
      acc := pr.phi[r, 0] * x[0] + pr.phi[r, 1] * x[1] + pr.phi[r, 2] * x[2];
    }
  }

  lemma WeightedEmpty(gam: seq<Plant>, us: seq<real>, r: nat)
    ensures Component(Weighted(gam, us, 0), r) == 0.0
  {
  }

  lemma WeightedStep(gam: seq<Plant>, us: seq<real>, n: nat, r: nat)
    requires n < |gam| && n < |us|
    ensures Component(Weighted(gam, us, n + 1), r) == Component(Weighted(gam, us, n), r) + Component(gam[n], r) * us[n]
  {
  }

  lemma GammaAt(m: array2<real>, j: nat, r: nat)
    requires m.Length0 == 3 && j < m.Length1 && r < 3
    ensures Component(Column(m, j), r) == m[r, j]
  {
  }

  lemma ComponentAdds(x: Plant, y: Plant, r: nat)
    ensures Component(Add(x, y), r) == Component(x, r) + Component(y, r)
  {
  }

  function Component(x: Plant, r: nat): real {
    if r == 0 then x.p else if r == 1 then x.v else x.a
  }
}
