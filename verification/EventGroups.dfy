/**
 FreeRTOS/event_groups.c: tasks blocked until some or all of their event bits are set. A waiter's list item value
 packs the bits it wants with its control bits; tasks.c is not part of this model.
 */
module EventGroups {
  type Bits = bv32
  type Task = nat

  const CLEAR_ON_EXIT: Bits := 0x0100_0000
  const WAIT_FOR_ALL: Bits := 0x0400_0000
  const CONTROL: Bits := 0xFF00_0000

  datatype Waiter = Waiter(task: Task, value: Bits)

  datatype Group = Group(bits: Bits, waiting: seq<Waiter>)

  function Pack(want: Bits, clear: bool, all: bool): Bits {
    want | Controls(clear, all)
  }

  /** uxControlBits */
  function Controls(clear: bool, all: bool): Bits {
    if clear then (if all then 0x0500_0000 else CLEAR_ON_EXIT) else (if all then WAIT_FOR_ALL else 0)
  }

  function Want(value: Bits): Bits { value & !CONTROL }

  predicate Clears(value: Bits) { value & CLEAR_ON_EXIT != 0 }

  predicate ForAll(value: Bits) { value & WAIT_FOR_ALL != 0 }

  /** prvTestWaitCondition */
  predicate Met(bits: Bits, want: Bits, all: bool) { if all then AllIn(bits, want) else AnyIn(bits, want) }

  predicate AllIn(bits: Bits, want: Bits) { And(bits, want) == want }

  predicate AnyIn(bits: Bits, want: Bits) { And(bits, want) != 0 }

  function And(a: Bits, b: Bits): Bits { a & b }

  predicate Satisfied(bits: Bits, value: Bits) { Met(bits, Want(value), ForAll(value)) }

  function Or(a: Bits, b: Bits): Bits { a | b }

  function Without(a: Bits, b: Bits): Bits { a & !b }

  // ---------- bit facts ----------

  lemma RawShrinkAll(a: Bits, c: Bits, w: Bits)
    requires (a & !c) & w == w
    ensures a & w == w
  {
  }

  lemma RawShrinkAny(a: Bits, c: Bits, w: Bits)
    requires (a & !c) & w != 0
    ensures a & w != 0
  {
  }

  lemma ShrinkAll(a: Bits, c: Bits, w: Bits)
    requires AllIn(Without(a, c), w)
    ensures AllIn(a, w)
  {
    RawShrinkAll(a, c, w);
  }

  lemma ShrinkAny(a: Bits, c: Bits, w: Bits)
    requires AnyIn(Without(a, c), w)
    ensures AnyIn(a, w)
  {
    RawShrinkAny(a, c, w);
  }

  /** Clearing bits never completes a wait. */
  lemma ClearingNeverMeets(a: Bits, c: Bits, value: Bits)
    requires Satisfied(Without(a, c), value)
    ensures Satisfied(a, value)
  {
    hide Want, ForAll, AllIn, AnyIn, Without;
    if ForAll(value) { ShrinkAll(a, c, Want(value)); } else { ShrinkAny(a, c, Want(value)); }
  }

  lemma RawDistribute(a: Bits, b: Bits, m: Bits)
    ensures (a | b) & m == (a & m) | (b & m)
  {
  }

  lemma RawOrZero(x: Bits, y: Bits)
    ensures x | y == 0 <==> x == 0 && y == 0
  {
  }

  lemma Distribute(a: Bits, b: Bits, m: Bits)
    ensures And(Or(a, b), m) == Or(And(a, m), And(b, m))
  {
    RawDistribute(a, b, m);
  }

  lemma OrZero(x: Bits, y: Bits)
    ensures Or(x, y) == 0 <==> x == 0 && y == 0
  {
    RawOrZero(x, y);
  }

  lemma OrMask(a: Bits, b: Bits, m: Bits)
    ensures AnyIn(Or(a, b), m) <==> AnyIn(a, m) || AnyIn(b, m)
  {
    hide And, Or;
    Distribute(a, b, m);
    OrZero(And(a, m), And(b, m));
  }

  lemma RawControl(w: Bits, k: Bits)
    requires w & 0xFF00_0000 == 0 && k & !0xFF00_0000 == 0
    ensures (w | k) & !0xFF00_0000 == w
  {
  }

  lemma RawFlag(w: Bits, k: Bits, f: Bits)
    requires w & 0xFF00_0000 == 0 && f & !0xFF00_0000 == 0
    ensures (w | k) & f == k & f
  {
  }

  /** Wanted bits and control bits share one word without disturbing each other. */
  lemma PackUnpacks(want: Bits, clear: bool, all: bool)
    requires want & CONTROL == 0
    ensures var v := Pack(want, clear, all); Want(v) == want && (Clears(v) <==> clear) && (ForAll(v) <==> all)
  {
    var k := Controls(clear, all);
    RawControl(want, k);
    RawFlag(want, k, CLEAR_ON_EXIT);
    RawFlag(want, k, WAIT_FOR_ALL);
  }

  // ---------- setting bits ----------

  predicate Ready(bits: Bits, w: Waiter) { Satisfied(bits, w.value) }

  /** The waiters a value of the bits wakes, and those it leaves, in list order. */
  function Woken(bits: Bits, list: seq<Waiter>): seq<Waiter> {
    if list == [] then [] else Woken(bits, list[..|list| - 1]) + if Ready(bits, list[|list| - 1]) then [list[|list| - 1]] else []
  }

  function Left(bits: Bits, list: seq<Waiter>): seq<Waiter> {
    if list == [] then [] else Left(bits, list[..|list| - 1]) + if Ready(bits, list[|list| - 1]) then [] else [list[|list| - 1]]
  }

  /** uxBitsToClear: the bits of woken waiters that asked for clear on exit. */
  function ToClear(bits: Bits, list: seq<Waiter>): Bits {
    if list == [] then 0
    else
      var w := list[|list| - 1];
      if Ready(bits, w) && Clears(w.value) then Or(ToClear(bits, list[..|list| - 1]), Want(w.value))
      else ToClear(bits, list[..|list| - 1])
  }

  function SetBits(g: Group, set_: Bits): Group {
    var now := Or(g.bits, set_);
    Group(Without(now, ToClear(now, g.waiting)), Left(now, g.waiting))
  }

  /** Who is woken and who stays is decided waiter by waiter against old|new bits, whatever the list order. */
  lemma {:induction false} WokenAndLeft(bits: Bits, list: seq<Waiter>)
    ensures forall w :: w in Woken(bits, list) <==> w in list && Ready(bits, w)
    ensures forall w :: w in Left(bits, list) <==> w in list && !Ready(bits, w)
  {
    hide Ready;
    if list != [] {
      WokenAndLeft(bits, list[..|list| - 1]);
      var w := list[|list| - 1];
      assert list == list[..|list| - 1] + [w];
      assert Woken(bits, list) == Woken(bits, list[..|list| - 1]) + if Ready(bits, w) then [w] else [];
      assert Left(bits, list) == Left(bits, list[..|list| - 1]) + if Ready(bits, w) then [] else [w];
    }
  }

  /** Each waiter is woken or stays, once. */
  lemma {:induction false} NobodyLost(bits: Bits, list: seq<Waiter>)
    ensures multiset(Woken(bits, list)) + multiset(Left(bits, list)) == multiset(list)
  {
    hide Ready;
    if list != [] {
      NobodyLost(bits, list[..|list| - 1]);
      var w := list[|list| - 1];
      assert list == list[..|list| - 1] + [w];
      assert Woken(bits, list) == Woken(bits, list[..|list| - 1]) + if Ready(bits, w) then [w] else [];
      assert Left(bits, list) == Left(bits, list[..|list| - 1]) + if Ready(bits, w) then [] else [w];
      hide Woken, Left;
    }
  }

  /** A bit is cleared exactly when some woken waiter wanted it and asked for clear on exit. */
  lemma {:induction false} ClearedBits(bits: Bits, list: seq<Waiter>, m: Bits)
    ensures AnyIn(ToClear(bits, list), m) <==>
      exists w :: w in list && Ready(bits, w) && Clears(w.value) && AnyIn(Want(w.value), m)
  {
    if list != [] {
      var w, before := list[|list| - 1], list[..|list| - 1];
      ClearedBits(bits, before, m);
      OrMask(ToClear(bits, before), Want(w.value), m);
      hide AnyIn, Or, Ready, Clears, Want;
      assert list == before + [w];
    } else {
      RawNothing(m);
    }
  }

  lemma RawNothing(m: Bits)
    ensures (0 as Bits) & m == 0
  {
  }

  // ---------- every call ----------

  datatype Step =
    | Set(bits: Bits)
    | Clear(mask: Bits)
    | Wait(t: Task, want: Bits, clear: bool, all: bool, block: bool)
    | Sync(t: Task, set_: Bits, want: Bits, block: bool)
    | TimeOut(t: Task)
    | Late(want: Bits, clear: bool, all: bool)

  predicate Blocked(g: Group, t: Task) { exists k :: 0 <= k < |g.waiting| && g.waiting[k].task == t }

  /** The calling assertions: no kernel bits, something to wait for, and not already blocked. */
  predicate Callable(g: Group, step: Step) {
    match step
    case Wait(t, want, _, _, _) => And(want, CONTROL) == 0 && want != 0 && !Blocked(g, t)
    case Sync(t, _, want, _) => And(want, CONTROL) == 0 && want != 0 && !Blocked(g, t)
    case _ => true
  }

  function Dropped(list: seq<Waiter>, t: Task): seq<Waiter> {
    if list == [] then [] else if list[0].task == t then Dropped(list[1..], t) else [list[0]] + Dropped(list[1..], t)
  }

  function WaitBits(g: Group, t: Task, want: Bits, clear: bool, all: bool, block: bool): Group {
    if Met(g.bits, want, all) then (if clear then g.(bits := Without(g.bits, want)) else g)
    else if block then g.(waiting := g.waiting + [Waiter(t, Pack(want, clear, all))])
    else g
  }

  function SyncBits(g: Group, t: Task, set_: Bits, want: Bits, block: bool): Group {
    var n := SetBits(g, set_);
    if AllIn(Or(g.bits, set_), want) then n.(bits := Without(n.bits, want))
    else if block then n.(waiting := n.waiting + [Waiter(t, Pack(want, true, true))])
    else n
  }

  /** A task that timed out takes bits that were set before it could run. */
  function LateBits(g: Group, want: Bits, clear: bool, all: bool): Group {
    if Met(g.bits, want, all) && clear then g.(bits := Without(g.bits, want)) else g
  }

  function Next(g: Group, step: Step): Group {
    if !Callable(g, step) then g
    else
      match step
      case Set(b) => SetBits(g, b)
      case Clear(m) => g.(bits := Without(g.bits, m))
      case Wait(t, want, clear, all, block) => WaitBits(g, t, want, clear, all, block)
      case Sync(t, b, want, block) => SyncBits(g, t, b, want, block)
      case TimeOut(t) => g.(waiting := Dropped(g.waiting, t))
      case Late(want, clear, all) => LateBits(g, want, clear, all)
  }

  function Run(g: Group, steps: seq<Step>): Group {
    if steps == [] then g else Next(Run(g, steps[..|steps| - 1]), steps[|steps| - 1])
  }

  // ---------- the object ----------

  /** One waiter further down the list. */
  lemma WalkStep(bits: Bits, list: seq<Waiter>, i: nat)
    requires i < |list|
    ensures Left(bits, list[..i + 1]) == Left(bits, list[..i]) + if Ready(bits, list[i]) then [] else [list[i]]
    ensures Woken(bits, list[..i + 1]) == Woken(bits, list[..i]) + if Ready(bits, list[i]) then [list[i]] else []
    ensures ToClear(bits, list[..i + 1]) ==
      if Ready(bits, list[i]) && Clears(list[i].value) then Or(ToClear(bits, list[..i]), Want(list[i].value))
      else ToClear(bits, list[..i])
  {
    hide Ready, Clears, Or, Want;
    assert list[..i + 1][..i] == list[..i] && list[..i + 1][i] == list[i];
  }

  lemma Seam(left: seq<Waiter>, list: seq<Waiter>, i: nat)
    requires i < |list|
    ensures var s := left + list[i..];
      |left| < |s| && s[|left|] == list[i] && s[..|left|] + s[|left| + 1..] == left + list[i + 1..] &&
      (left + [list[i]]) + list[i + 1..] == s && |left + [list[i]]| == |left| + 1
  {
  }

  /** The same as the walk sees it: a woken waiter is taken out of the list. */
  lemma WalkWakes(bits: Bits, list: seq<Waiter>, i: nat)
    requires i < |list| && Satisfied(bits, list[i].value)
    ensures var left, w := Left(bits, list[..i]), list[i];
      var s, at := left + list[i..], |left|;
      s[..at] + s[at + 1..] == Left(bits, list[..i + 1]) + list[i + 1..] && Left(bits, list[..i + 1]) == left &&
      Woken(bits, list[..i + 1]) == Woken(bits, list[..i]) + [w] &&
      ToClear(bits, list[..i + 1]) == if Clears(w.value) then Or(ToClear(bits, list[..i]), Want(w.value)) else ToClear(bits, list[..i])
  {
    hide Left, Woken, ToClear, Satisfied, Clears, Or, Want;
    WalkStep(bits, list, i);
    Seam(Left(bits, list[..i]), list, i);
  }

  /** One that stays is stepped over. */
  lemma WalkPasses(bits: Bits, list: seq<Waiter>, i: nat)
    requires i < |list| && !Satisfied(bits, list[i].value)
    ensures var left := Left(bits, list[..i]);
      Left(bits, list[..i + 1]) + list[i + 1..] == left + list[i..] && |Left(bits, list[..i + 1])| == |left| + 1 &&
      Woken(bits, list[..i + 1]) == Woken(bits, list[..i]) && ToClear(bits, list[..i + 1]) == ToClear(bits, list[..i])
  {
    hide Left, Woken, ToClear, Satisfied, Clears, Or, Want;
    WalkStep(bits, list, i);
    Seam(Left(bits, list[..i]), list, i);
  }

  lemma WalkAt(left: seq<Waiter>, list: seq<Waiter>, i: nat)
    requires i < |list|
    ensures |left| < |left + list[i..]| && (left + list[i..])[|left|] == list[i]
  {
  }

  lemma WalkStart(bits: Bits, list: seq<Waiter>)
    ensures Left(bits, list[..0]) == [] && Woken(bits, list[..0]) == [] && ToClear(bits, list[..0]) == 0
    ensures list[0..] == list
  {
  }

  class EventGroup {
    var bits: Bits
    var waiting: seq<Waiter>

    function State(): Group
      reads this
    {
      Group(bits, waiting)
    }

    constructor ()
      ensures State() == Group(0, [])
    {
      bits, waiting := 0, [];
    }

    /** xEventGroupSetBits: one walk over the list, waking as it goes; the woken carry old|new bits. */
    method SetEventBits(set_: Bits) returns (woken: seq<Waiter>, carried: Bits, result: Bits)
      modifies this
      ensures State() == SetBits(old(State()), set_) && result == bits
      ensures carried == Or(old(bits), set_) && woken == Woken(carried, old(waiting))
    {
      hide Or, Without, Satisfied, Ready, Clears, Want, Left, Woken, ToClear;
      var toClear: Bits := 0;
      ghost var list, i := waiting, 0;
      bits := Or(bits, set_);
      WalkStart(bits, list);
      woken := [];
      var at := 0;
      while at < |waiting|
        invariant 0 <= i <= |list| && at == |Left(bits, list[..i])|
        invariant bits == Or(old(bits), set_)
        invariant waiting == Left(bits, list[..i]) + list[i..]
        invariant woken == Woken(bits, list[..i]) && toClear == ToClear(bits, list[..i])
        decreases |list| - i
      {
        WalkAt(Left(bits, list[..i]), list, i);
        var w := waiting[at];
        if Satisfied(bits, w.value) {
          WalkWakes(bits, list, i);
          if Clears(w.value) { toClear := Or(toClear, Want(w.value)); }
          woken := woken + [w];
          waiting := waiting[..at] + waiting[at + 1..];
        } else {
          WalkPasses(bits, list, i);
          at := at + 1;
        }
        i := i + 1;
      }
      assert list[..i] == list;
      carried := bits;
      bits := Without(bits, toClear);
      result := bits;
    }

    /** xEventGroupWaitBits up to the point where the task blocks. */
    method WaitForBits(t: Task, want: Bits, clear: bool, all: bool, block: bool) returns (met: bool, result: Bits)
      requires Callable(State(), Wait(t, want, clear, all, block))
      modifies this
      ensures State() == WaitBits(old(State()), t, want, clear, all, block)
      ensures met == Met(old(bits), want, all) && (met || !block ==> result == old(bits))
    {
      hide Met, Pack, And, Without;
      var current := bits;
      met := Met(current, want, all);
      result := current;
      if met {
        if clear { bits := Without(bits, want); }
      } else if block {
        waiting := waiting + [Waiter(t, Pack(want, clear, all))];
      }
    }

    /** xEventGroupSync up to the point where the task blocks. */
    method SyncOn(t: Task, set_: Bits, want: Bits, block: bool) returns (met: bool, result: Bits, woken: seq<Waiter>)
      requires Callable(State(), Sync(t, set_, want, block))
      modifies this
      ensures State() == SyncBits(old(State()), t, set_, want, block)
      ensures met == AllIn(Or(old(bits), set_), want) && (met ==> result == Or(old(bits), set_))
      ensures !met && !block ==> result == bits
      ensures woken == Woken(Or(old(bits), set_), old(waiting))
    {
      hide Or, Without, AllIn, Woken, Left, ToClear;
      var original := bits;
      var carried: Bits;
      woken, carried, result := SetEventBits(set_);
      met := AllIn(Or(original, set_), want);
      if met {
        result := Or(original, set_);
        bits := Without(bits, want);
      } else if block {
        waiting := waiting + [Waiter(t, Pack(want, true, true))];
      }
    }

    /** xEventGroupClearBits */
    method ClearEventBits(mask: Bits) returns (before: Bits)
      modifies this
      ensures State() == Next(old(State()), Clear(mask)) && before == old(bits)
    {
      before := bits;
      bits := Without(bits, mask);
    }

    /** A timed-out task, back from the scheduler. */
    method AfterTimeOut(want: Bits, clear: bool, all: bool) returns (result: Bits)
      modifies this
      ensures State() == LateBits(old(State()), want, clear, all) && result == old(bits)
    {
      result := bits;
      if Met(result, want, all) && clear { bits := Without(bits, want); }
    }
  }
}
