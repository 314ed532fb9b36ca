/**
 What event groups are for, said without their words: a set of bit numbers that are up, and for each blocked task the
 numbers it asked for. FreeRTOS/event_groups.c, with its masks, control bits and list, does just that in every run.
 */
module EventBoard {
  import opened EventGroups

  // ---------- bit numbers ----------

  const PLACES := 32

  /** Bit n is set, counting from the lowest. */
  predicate Up(bits: Bits, n: nat) { if n == 0 then Low(bits) else Up(Half(bits), n - 1) }

  predicate Low(bits: Bits) { bits & 1 == 1 }

  function Half(bits: Bits): Bits { bits >> 1 }

  ghost function BitsOf(bits: Bits): set<nat> { set n: nat | n < PLACES && Up(bits, n) }

  lemma HalfOr(a: Bits, b: Bits)
    ensures Half(Or(a, b)) == Or(Half(a), Half(b))
  {
  }

  lemma HalfAnd(a: Bits, b: Bits)
    ensures Half(And(a, b)) == And(Half(a), Half(b))
  {
  }

  lemma HalfWithout(a: Bits, b: Bits)
    ensures Half(Without(a, b)) == Without(Half(a), Half(b))
  {
  }

  lemma LowOr(a: Bits, b: Bits)
    ensures Low(Or(a, b)) <==> Low(a) || Low(b)
  {
  }

  lemma LowAnd(a: Bits, b: Bits)
    ensures Low(And(a, b)) <==> Low(a) && Low(b)
  {
  }

  lemma LowWithout(a: Bits, b: Bits)
    ensures Low(Without(a, b)) <==> Low(a) && !Low(b)
  {
  }

  lemma {:induction false} UpCombine(a: Bits, b: Bits, n: nat)
    ensures Up(Or(a, b), n) <==> Up(a, n) || Up(b, n)
    ensures Up(And(a, b), n) <==> Up(a, n) && Up(b, n)
    ensures Up(Without(a, b), n) <==> Up(a, n) && !Up(b, n)
    decreases n
  {
    hide Half, Low, Or, And, Without;
    HalfOr(a, b);
    HalfAnd(a, b);
    HalfWithout(a, b);
    LowOr(a, b);
    LowAnd(a, b);
    LowWithout(a, b);
    if n > 0 { UpCombine(Half(a), Half(b), n - 1); }
  }

  lemma BitsCombine(a: Bits, b: Bits)
    ensures BitsOf(Or(a, b)) == BitsOf(a) + BitsOf(b)
    ensures BitsOf(And(a, b)) == BitsOf(a) * BitsOf(b)
    ensures BitsOf(Without(a, b)) == BitsOf(a) - BitsOf(b)
  {
    hide Up, Or, And, Without;
    forall n: nat ensures (Up(Or(a, b), n) <==> Up(a, n) || Up(b, n)) && (Up(And(a, b), n) <==> Up(a, n) && Up(b, n)) &&
      (Up(Without(a, b), n) <==> Up(a, n) && !Up(b, n)) { UpCombine(a, b, n); }
  }

  lemma LowOrHalf(x: Bits)
    ensures x == 0 || Low(x) || Half(x) != 0
  {
  }

  /** The n lowest bits. */
  function Mask(n: nat): Bits { if n == 0 then 0 else Longer(Mask(n - 1)) }

  function Longer(m: Bits): Bits { (m << 1) | 1 }

  lemma HalfLonger(x: Bits, m: Bits)
    requires Without(x, Longer(m)) == 0
    ensures Without(Half(x), m) == 0
  {
  }

  lemma WithoutNone(x: Bits)
    ensures Without(x, 0) == x
  {
  }

  lemma {:induction false} SomeBit(x: Bits, k: nat) returns (n: nat)
    requires Without(x, Mask(k)) == 0 && x != 0
    ensures n < k && Up(x, n)
    decreases k
  {
    hide Low, Half, Longer, Without;
    LowOrHalf(x);
    WithoutNone(x);
    n := 0;
    if !Low(x) {
      HalfLonger(x, Mask(k - 1));
      n := SomeBit(Half(x), k - 1);
      n := n + 1;
    }
  }

  lemma FullMask()
    ensures Mask(PLACES) == 0xFFFF_FFFF && Mask(31) == 0x7FFF_FFFF && Mask(24) == 0xFF_FFFF
  {
    assert Mask(4) == 0xF;
    assert Mask(8) == 0xFF;
    assert Mask(12) == 0xFFF;
    assert Mask(16) == 0xFFFF;
    assert Mask(20) == 0xF_FFFF;
    assert Mask(24) == 0xFF_FFFF;
    assert Mask(28) == 0xFFF_FFFF;
  }

  lemma WithoutAll(x: Bits)
    ensures Without(x, 0xFFFF_FFFF) == 0
  {
  }

  lemma WithoutLonger(a: Bits, b: Bits)
    requires Without(a, b) == 0
    ensures Without(Longer(a), Longer(b)) == 0
  {
  }

  lemma ZeroWithout(b: Bits)
    ensures Without(0, b) == 0
  {
  }

  lemma {:induction false} MaskWithin(k: nat, n: nat)
    requires k <= n
    ensures Without(Mask(k), Mask(n)) == 0
  {
    hide Without, Longer;
    if k == 0 { ZeroWithout(Mask(n)); } else {
      MaskWithin(k - 1, n - 1);
      WithoutLonger(Mask(k - 1), Mask(n - 1));
    }
  }

  lemma LongerHalf(m: Bits)
    requires Without(m, 0x7FFF_FFFF) == 0
    ensures Half(Longer(m)) == m && Low(Longer(m))
  {
  }

  lemma {:induction false} MaskUp(k: nat, n: nat)
    requires k <= PLACES
    ensures Up(Mask(k), n) <==> n < k
    decreases k
  {
    hide Mask, Half, Low;
    if k == 0 { NoMask(n); } else {
      MaskHalf(k);
      if n > 0 { MaskUp(k - 1, n - 1); }
    }
  }

  lemma NoMask(n: nat)
    ensures !Up(Mask(0), n)
  {
    ZeroDown(n);
  }

  lemma MaskHalf(k: nat)
    requires 0 < k <= PLACES
    ensures Half(Mask(k)) == Mask(k - 1) && Low(Mask(k))
  {
    hide Without, Longer, Half, Low;
    FullMask();
    MaskWithin(k - 1, 31);
    LongerHalf(Mask(k - 1));
  }

  lemma MaskBits(k: nat)
    requires k <= PLACES
    ensures forall n :: n in BitsOf(Mask(k)) <==> 0 <= n < k
  {
    hide Mask, Up;
    forall n: nat ensures Up(Mask(k), n) <==> n < k { MaskUp(k, n); }
  }

  /** Only the empty mask has no bits. */
  lemma NoBits(x: Bits)
    ensures BitsOf(x) == {} <==> x == 0
  {
    if x != 0 {
      FullMask();
      WithoutAll(x);
      var n := SomeBit(x, PLACES);
      assert n in BitsOf(x);
    } else {
      forall n: nat ensures !Up(x, n) { ZeroDown(n); }
    }
  }

  lemma {:induction false} ZeroDown(n: nat)
    ensures !Up(0, n)
  {
    ZeroHalf();
    if n > 0 { ZeroDown(n - 1); }
  }

  lemma ZeroHalf()
    ensures Half(0) == 0 && !Low(0)
  {
  }

  // ---------- the board ----------

  /** What a blocked task asked for. */
  datatype Wish = Wish(want: set<nat>, all: bool, clear: bool)

  datatype Board = Board(bits: set<nat>, waiting: map<Task, Wish>)

  /** All the numbers asked for are up, or one of them. */
  predicate Fulfilled(bits: set<nat>, w: Wish) { if w.all then w.want <= bits else w.want * bits != {} }

  /** What the tasks woken by these bits asked to have cleared. */
  ghost function Claimed(bits: set<nat>, waiting: map<Task, Wish>): set<nat> {
    set t, n | t in waiting && Fulfilled(bits, waiting[t]) && waiting[t].clear && n in waiting[t].want :: n
  }

  ghost function Raised(b: Board, s: set<nat>): Board {
    var now := b.bits + s;
    Board(now - Claimed(now, b.waiting), map t | t in b.waiting && !Fulfilled(now, b.waiting[t]) :: b.waiting[t])
  }

  /** A task that asks: it takes what it wants if that is up, and otherwise blocks if it may. */
  ghost function Asked(b: Board, t: Task, now: set<nat>, w: Wish, block: bool): Board {
    if Fulfilled(now, w) then (if w.clear then b.(bits := b.bits - w.want) else b)
    else if block then b.(waiting := b.waiting[t := w])
    else b
  }

  /** The calling assertions: none of the eight numbers the kernel keeps, something asked for, and not already blocked. */
  predicate MayAsk(b: Board, t: Task, want: set<nat>) { want != {} && (forall n :: n in want ==> n < 24) && t !in b.waiting }

  ghost function BoardNext(b: Board, step: Step): Board {
    match step
    case Set(s) => Raised(b, BitsOf(s))
    case Clear(m) => b.(bits := b.bits - BitsOf(m))
    case Wait(t, want, clear, all, block) =>
      if MayAsk(b, t, BitsOf(want)) then Asked(b, t, b.bits, Wish(BitsOf(want), all, clear), block) else b
    case Sync(t, s, want, block) =>
      if MayAsk(b, t, BitsOf(want)) then Asked(Raised(b, BitsOf(s)), t, b.bits + BitsOf(s), Wish(BitsOf(want), true, true), block) else b
    case TimeOut(t) => b.(waiting := b.waiting - {t})
    case Late(want, clear, all) =>
      if clear && Fulfilled(b.bits, Wish(BitsOf(want), all, clear)) then b.(bits := b.bits - BitsOf(want)) else b
  }

  ghost function BoardRun(steps: seq<Step>): Board {
    if steps == [] then Board({}, map[]) else BoardNext(BoardRun(steps[..|steps| - 1]), steps[|steps| - 1])
  }

  // ---------- the group is such a board ----------

  ghost function WishOf(value: Bits): Wish { Wish(BitsOf(Want(value)), ForAll(value), Clears(value)) }

  ghost function Roll(list: seq<Waiter>): map<Task, Wish> {
    if list == [] then map[] else Roll(list[..|list| - 1])[list[|list| - 1].task := WishOf(list[|list| - 1].value)]
  }

  ghost function View(g: Group): Board { Board(BitsOf(g.bits), Roll(g.waiting)) }

  ghost predicate Distinct(list: seq<Waiter>) { forall i, j :: 0 <= i < j < |list| ==> list[i].task != list[j].task }

  /** The masks and control bits of a list item test the wish bit by bit. */
  lemma ConditionIs(bits: Bits, value: Bits)
    ensures Satisfied(bits, value) <==> Fulfilled(BitsOf(bits), WishOf(value))
  {
    hide And, BitsOf, Want, ForAll, Clears;
    AllBits(bits, Want(value));
    AnyBits(bits, Want(value));
  }

  lemma AllBits(bits: Bits, want: Bits)
    ensures AllIn(bits, want) <==> BitsOf(want) <= BitsOf(bits)
  {
    hide BitsOf, Without;
    MissingNone(bits, want);
    NoBits(Without(want, bits));
    BitsCombine(want, bits);
  }

  lemma MissingNone(bits: Bits, want: Bits)
    ensures AllIn(bits, want) <==> Without(want, bits) == 0
  {
    hide And, Without;
    if AllIn(bits, want) { NoneMissing(bits, want); }
    if Without(want, bits) == 0 { NothingMissing(bits, want); }
  }

  lemma NoneMissing(bits: Bits, want: Bits)
    requires And(bits, want) == want
    ensures Without(want, bits) == 0
  {
  }

  lemma NothingMissing(bits: Bits, want: Bits)
    requires Without(want, bits) == 0
    ensures And(bits, want) == want
  {
  }

  lemma AnyBits(bits: Bits, want: Bits)
    ensures AnyIn(bits, want) <==> BitsOf(want) * BitsOf(bits) != {}
  {
    hide BitsOf, And;
    NoBits(And(bits, want));
    BitsCombine(bits, want);
    assert BitsOf(want) * BitsOf(bits) == BitsOf(bits) * BitsOf(want);
  }

  /** The same of a call's own arguments. */
  lemma MetIs(bits: Bits, want: Bits, clear: bool, all: bool)
    ensures Met(bits, want, all) <==> Fulfilled(BitsOf(bits), Wish(BitsOf(want), all, clear))
  {
    hide BitsOf, AllIn, AnyIn;
    AllBits(bits, want);
    AnyBits(bits, want);
  }

  lemma PackedWish(want: Bits, clear: bool, all: bool)
    requires And(want, CONTROL) == 0
    ensures WishOf(Pack(want, clear, all)) == Wish(BitsOf(want), all, clear)
  {
    PackUnpacks(want, clear, all);
    hide *;
  }

  /** No control bits: no number from 24 up. */
  lemma NoControl(want: Bits)
    ensures And(want, CONTROL) == 0 <==> forall n :: n in BitsOf(want) ==> n < 24
  {
    hide And, BitsOf, Mask, Without;
    NoBits(Without(want, Mask(24)));
    BitsCombine(want, Mask(24));
    MaskBits(24);
    NotControl(want);
    var rest := BitsOf(want) - BitsOf(Mask(24));
    if rest == {} {
      forall n | n in BitsOf(want) ensures n < 24 { assert n !in rest; }
    }
  }

  lemma NotControl(want: Bits)
    ensures And(want, CONTROL) == Without(want, Mask(24))
  {
    FullMask();
    NotControlMask(want);
  }

  lemma NotControlMask(want: Bits)
    ensures And(want, CONTROL) == Without(want, 0xFF_FFFF)
  {
  }

  lemma {:induction false} RollOf(list: seq<Waiter>)
    ensures forall t :: t in Roll(list) <==> exists k :: 0 <= k < |list| && list[k].task == t
  {
    hide WishOf;
    if list != [] {
      RollOf(list[..|list| - 1]);
      var last := |list| - 1;
      assert forall k :: 0 <= k < last ==> list[..last][k] == list[k];
      assert list[last].task in Roll(list);
    }
  }

  lemma RollMore(list: seq<Waiter>, w: Waiter)
    ensures Roll(list + [w]) == Roll(list)[w.task := WishOf(w.value)]
  {
    assert (list + [w])[..|list|] == list;
  }

  /** A list with distinct tasks, but for its last waiter. */
  lemma ButLast(list: seq<Waiter>) returns (before: seq<Waiter>, w: Waiter)
    requires Distinct(list) && list != []
    ensures list == before + [w] && before == list[..|list| - 1] && Distinct(before) && w.task !in Roll(before)
    ensures Roll(list) == Roll(before)[w.task := WishOf(w.value)]
  {
    before, w := list[..|list| - 1], list[|list| - 1];
    RollOf(before);
  }

  ghost function Unfulfilled(now: set<nat>, waiting: map<Task, Wish>): map<Task, Wish> {
    map t | t in waiting && !Fulfilled(now, waiting[t]) :: waiting[t]
  }

  lemma {:induction false} RollLeft(bits: Bits, list: seq<Waiter>)
    requires Distinct(list)
    ensures Roll(Left(bits, list)) == Unfulfilled(BitsOf(bits), Roll(list)) && Distinct(Left(bits, list))
  {
    hide WishOf, Fulfilled, Ready, Distinct, BitsOf, Unfulfilled, Roll;
    if list == [] { NoneUnfulfilled(BitsOf(bits)); } else {
      var before, w := ButLast(list);
      RollLeft(bits, before);
      ReadyIs(bits, w);
      UnfulfilledMore(BitsOf(bits), Roll(before), w.task, WishOf(w.value));
      assert Left(bits, list) == if Ready(bits, w) then Left(bits, before) else Left(bits, before) + [w];
      DistinctMore(Left(bits, before), w);
    }
  }

  lemma NoneUnfulfilled(now: set<nat>)
    ensures Roll([]) == Unfulfilled(now, Roll([])) && Distinct([])
  {
  }

  lemma DistinctMore(list: seq<Waiter>, w: Waiter)
    requires Distinct(list) && w.task !in Roll(list)
    ensures Distinct(list + [w]) && Roll(list + [w]) == Roll(list)[w.task := WishOf(w.value)]
  {
    hide WishOf;
    RollOf(list);
    RollMore(list, w);
  }

  lemma UnfulfilledMore(now: set<nat>, waiting: map<Task, Wish>, t: Task, w: Wish)
    requires t !in waiting
    ensures Unfulfilled(now, waiting[t := w]) == if Fulfilled(now, w) then Unfulfilled(now, waiting) else Unfulfilled(now, waiting)[t := w]
    ensures t !in Unfulfilled(now, waiting)
  {
    hide Fulfilled;
  }

  lemma ReadyIs(bits: Bits, w: Waiter)
    ensures Ready(bits, w) <==> Fulfilled(BitsOf(bits), WishOf(w.value))
  {
    ConditionIs(bits, w.value);
  }

  lemma {:induction false} RollClaims(bits: Bits, list: seq<Waiter>)
    requires Distinct(list)
    ensures BitsOf(ToClear(bits, list)) == Claimed(BitsOf(bits), Roll(list))
  {
    hide Fulfilled, Ready, BitsOf, Or, Want, Clears, ForAll;
    if list == [] { NoBits(0); } else {
      var before, w := ButLast(list);
      RollClaims(bits, before);
      ReadyIs(bits, w);
      BitsCombine(ToClear(bits, before), Want(w.value));
      ClaimsMore(BitsOf(bits), Roll(before), w.task, WishOf(w.value));
    }
  }

  lemma ClaimsMore(now: set<nat>, waiting: map<Task, Wish>, t: Task, w: Wish)
    requires t !in waiting
    ensures Claimed(now, waiting[t := w]) == Claimed(now, waiting) + if Fulfilled(now, w) && w.clear then w.want else {}
  {
    hide Fulfilled;
    var more := waiting[t := w];
    forall n | n in Claimed(now, waiting) ensures n in Claimed(now, more) {
      var u :| u in waiting && Fulfilled(now, waiting[u]) && waiting[u].clear && n in waiting[u].want;
      assert u in more && more[u] == waiting[u];
    }
    forall n | Fulfilled(now, w) && w.clear && n in w.want ensures n in Claimed(now, more) {
      assert t in more && more[t] == w;
    }
    forall n | n in Claimed(now, more) ensures n in Claimed(now, waiting) + if Fulfilled(now, w) && w.clear then w.want else {} {
      var u :| u in more && Fulfilled(now, more[u]) && more[u].clear && n in more[u].want;
      if u != t { assert u in waiting && waiting[u] == more[u]; }
    }
  }

  lemma {:induction false} RollDropped(list: seq<Waiter>, t: Task)
    requires Distinct(list)
    ensures Roll(Dropped(list, t)) == Roll(list) - {t} && Distinct(Dropped(list, t))
  {
    hide WishOf, Distinct, Roll;
    if list == [] { NoneDropped(t); } else {
      var before, w := ButLast(list);
      RollDropped(before, t);
      DroppedEnd(before, w, t);
      assert Dropped(list, t) == if w.task == t then Dropped(before, t) else Dropped(before, t) + [w];
      if w.task != t { DistinctMore(Dropped(before, t), w); }
    }
  }

  lemma NoneDropped(t: Task)
    ensures Roll([]) == Roll([]) - {t} && Distinct([])
  {
  }

  lemma {:induction false} DroppedEnd(list: seq<Waiter>, w: Waiter, t: Task)
    ensures Dropped(list + [w], t) == Dropped(list, t) + if w.task == t then [] else [w]
  {
    if list != [] {
      assert (list + [w])[1..] == list[1..] + [w];
      DroppedEnd(list[1..], w, t);
    }
  }

  lemma SetIs(g: Group, s: Bits)
    requires Distinct(g.waiting)
    ensures View(SetBits(g, s)) == Raised(View(g), BitsOf(s)) && Distinct(SetBits(g, s).waiting)
  {
    hide BitsOf, Roll, Left, ToClear, Or, Without, Claimed, Fulfilled;
    var now := Or(g.bits, s);
    BitsCombine(g.bits, s);
    BitsCombine(now, ToClear(now, g.waiting));
    RollLeft(now, g.waiting);
    RollClaims(now, g.waiting);
  }

  /** Who may call, and what a caller that blocks adds to the list. */
  lemma AskerIs(g: Group, t: Task, want: Bits, clear: bool, all: bool)
    requires Distinct(g.waiting)
    ensures And(want, CONTROL) == 0 && want != 0 && !Blocked(g, t) <==> MayAsk(View(g), t, BitsOf(want))
    ensures And(want, CONTROL) == 0 && !Blocked(g, t) ==>
      var more := g.waiting + [Waiter(t, Pack(want, clear, all))];
      Roll(more) == Roll(g.waiting)[t := Wish(BitsOf(want), all, clear)] && Distinct(more)
  {
    hide BitsOf, Roll, WishOf, And, Pack;
    NoBits(want);
    NoControl(want);
    RollOf(g.waiting);
    RollMore(g.waiting, Waiter(t, Pack(want, clear, all)));
    if And(want, CONTROL) == 0 { PackedWish(want, clear, all); }
  }

  lemma WaitIs(g: Group, t: Task, want: Bits, clear: bool, all: bool, block: bool)
    requires Distinct(g.waiting) && And(want, CONTROL) == 0 && want != 0 && !Blocked(g, t)
    ensures View(WaitBits(g, t, want, clear, all, block)) == Asked(View(g), t, BitsOf(g.bits), Wish(BitsOf(want), all, clear), block)
    ensures Distinct(WaitBits(g, t, want, clear, all, block).waiting)
  {
    hide BitsOf, Roll, Met, Fulfilled, Pack, And, Without, Blocked;
    MetIs(g.bits, want, clear, all);
    BitsCombine(g.bits, want);
    AskerIs(g, t, want, clear, all);
  }

  lemma SyncIs(g: Group, t: Task, s: Bits, want: Bits, block: bool)
    requires Distinct(g.waiting) && And(want, CONTROL) == 0 && want != 0 && !Blocked(g, t)
    ensures View(SyncBits(g, t, s, want, block)) ==
      Asked(Raised(View(g), BitsOf(s)), t, BitsOf(g.bits) + BitsOf(s), Wish(BitsOf(want), true, true), block)
    ensures Distinct(SyncBits(g, t, s, want, block).waiting)
  {
    hide BitsOf, Roll, AllIn, Fulfilled, Pack, And, Without, Or, SetBits, Raised;
    SetIs(g, s);
    var n := SetBits(g, s);
    StillAway(g, s, t);
    BitsCombine(g.bits, s);
    BitsCombine(n.bits, want);
    AllBits(Or(g.bits, s), want);
    AllIs(BitsOf(Or(g.bits, s)), BitsOf(want));
    AskerIs(n, t, want, true, true);
  }

  lemma AllIs(bits: set<nat>, want: set<nat>)
    ensures Fulfilled(bits, Wish(want, true, true)) <==> want <= bits
  {
  }

  lemma StillAway(g: Group, s: Bits, t: Task)
    requires !Blocked(g, t)
    ensures !Blocked(SetBits(g, s), t)
  {
    hide Ready, Or, Without, ToClear;
    var now := Or(g.bits, s);
    WokenAndLeft(now, g.waiting);
    var left := Left(now, g.waiting);
    assert forall k :: 0 <= k < |left| ==> left[k] in g.waiting;
  }

  lemma NextIs(g: Group, step: Step)
    requires Distinct(g.waiting)
    ensures View(Next(g, step)) == BoardNext(View(g), step) && Distinct(Next(g, step).waiting)
  {
    hide BitsOf, Roll, Met, Fulfilled, Without, SetBits, WaitBits, SyncBits, Raised, Asked, MayAsk, Dropped, Blocked;
    match step
    case Set(s) => SetIs(g, s);
    case Clear(m) => BitsCombine(g.bits, m);
    case Wait(t, want, clear, all, block) =>
      AskerIs(g, t, want, clear, all);
      if Callable(g, step) { WaitIs(g, t, want, clear, all, block); }
    case Sync(t, s, want, block) =>
      AskerIs(g, t, want, true, true);
      if Callable(g, step) { SyncIs(g, t, s, want, block); }
    case TimeOut(t) => RollDropped(g.waiting, t);
    case Late(want, clear, all) =>
      MetIs(g.bits, want, clear, all);
      BitsCombine(g.bits, want);
  }

  /** In every run, the group is the board. */
  lemma {:induction false} GroupIsBoard(steps: seq<Step>)
    ensures View(Run(Group(0, []), steps)) == BoardRun(steps) && Distinct(Run(Group(0, []), steps).waiting)
  {
    hide Next, BoardNext, BitsOf;
    if steps == [] { NoBits(0); } else {
      GroupIsBoard(steps[..|steps| - 1]);
      NextIs(Run(Group(0, []), steps[..|steps| - 1]), steps[|steps| - 1]);
    }
  }

  // ---------- who waits, and for how long ----------

  ghost predicate NoneFulfilled(b: Board) { forall t :: t in b.waiting ==> !Fulfilled(b.bits, b.waiting[t]) }

  /** The step is a call of t that asks for w. */
  ghost predicate AsksFor(step: Step, t: Task, w: Wish) {
    match step
    case Wait(u, want, clear, all, _) => u == t && w == Wish(BitsOf(want), all, clear)
    case Sync(u, _, want, _) => u == t && w == Wish(BitsOf(want), true, true)
    case _ => false
  }

  /** The numbers a step puts up. */
  ghost function Sets(b: Board, step: Step): set<nat> {
    match step
    case Set(s) => BitsOf(s)
    case Sync(t, s, want, _) => if MayAsk(b, t, BitsOf(want)) then BitsOf(s) else {}
    case _ => {}
  }

  lemma RaisedKeeps(b: Board, s: set<nat>)
    ensures NoneFulfilled(Raised(b, s))
  {
  }

  /** One step: only a call of its own blocks a task, with the wish of that call, and only bits that fulfil the wish or its
      time-out let it go. */
  lemma StepKeeps(b: Board, step: Step, t: Task)
    requires NoneFulfilled(b)
    ensures NoneFulfilled(BoardNext(b, step))
    ensures t in b.waiting ==>
      (t in BoardNext(b, step).waiting <==> step != TimeOut(t) && !Fulfilled(b.bits + Sets(b, step), b.waiting[t])) &&
      (t in BoardNext(b, step).waiting ==> BoardNext(b, step).waiting[t] == b.waiting[t])
    ensures t !in b.waiting && t in BoardNext(b, step).waiting ==> AsksFor(step, t, BoardNext(b, step).waiting[t])
  {
    hide BitsOf;
    assert b.bits + {} == b.bits;
    match step
    case Set(s) => RaisedKeeps(b, BitsOf(s));
    case Sync(u, s, want, block) => RaisedKeeps(b, BitsOf(s));
    case _ =>
  }

  ghost function GroupAfter(steps: seq<Step>): Group { Run(Group(0, []), steps) }

  /** The k-th step blocked t, and t has been blocked since. */
  ghost predicate BlockedSince(steps: seq<Step>, k: nat, t: Task) {
    k < |steps| && !Blocked(GroupAfter(steps[..k]), t) && forall j :: k < j <= |steps| ==> Blocked(GroupAfter(steps[..j]), t)
  }

  lemma BlockedIs(steps: seq<Step>, t: Task)
    ensures Blocked(GroupAfter(steps), t) <==> t in BoardRun(steps).waiting
    ensures BoardRun(steps).bits == BitsOf(GroupAfter(steps).bits)
  {
    GroupIsBoard(steps);
    hide Run, BoardRun;
    RollOf(GroupAfter(steps).waiting);
  }

  lemma {:induction false} RunUnfulfilled(steps: seq<Step>)
    ensures NoneFulfilled(BoardRun(steps))
  {
    hide BoardNext, NoneFulfilled;
    if steps == [] { NoneAtFirst(); } else {
      RunUnfulfilled(steps[..|steps| - 1]);
      StepKeeps(BoardRun(steps[..|steps| - 1]), steps[|steps| - 1], 0);
    }
  }

  lemma NoneAtFirst()
    ensures NoneFulfilled(Board({}, map[]))
  {
  }

  lemma RunMore(steps: seq<Step>, k: nat)
    requires k < |steps|
    ensures BoardRun(steps[..k + 1]) == BoardNext(BoardRun(steps[..k]), steps[k])
  {
    assert steps[..k + 1][..k] == steps[..k];
  }

  /** What a blocked task waits for is what the call that blocked it asked for. */
  lemma {:induction false} WishKept(steps: seq<Step>, k: nat, t: Task, n: nat)
    requires BlockedSince(steps, k, t) && k < n <= |steps|
    ensures var b := BoardRun(steps[..n]); t in b.waiting && AsksFor(steps[k], t, b.waiting[t])
  {
    hide BoardNext, GroupAfter, BoardRun, AsksFor, NoneFulfilled;
    RunMore(steps, n - 1);
    RunUnfulfilled(steps[..n - 1]);
    StepKeeps(BoardRun(steps[..n - 1]), steps[n - 1], t);
    BlockedIs(steps[..n], t);
    BlockedIs(steps[..n - 1], t);
    if n > k + 1 { WishKept(steps, k, t, n - 1); }
  }

  lemma OneWish(step: Step, t: Task, v: Wish, w: Wish)
    requires AsksFor(step, t, v) && AsksFor(step, t, w)
    ensures v == w
  {
    hide BitsOf;
  }

  /** A task is blocked by a call of its own, asking for w, and stays exactly as long as it does not time out and no step
      brings the bits to where w is fulfilled: all the numbers asked for, or one of them. */
  lemma WaitEnds(steps: seq<Step>, k: nat, t: Task, step: Step) returns (w: Wish)
    requires BlockedSince(steps, k, t)
    ensures AsksFor(steps[k], t, w) && forall v :: AsksFor(steps[k], t, v) ==> v == w
    ensures Blocked(GroupAfter(steps + [step]), t) <==>
      step != TimeOut(t) && !Fulfilled(BitsOf(GroupAfter(steps).bits) + Sets(BoardRun(steps), step), w)
  {
    hide BoardNext, GroupAfter, BoardRun, AsksFor, NoneFulfilled, Sets, BitsOf, Fulfilled;
    assert steps[..|steps|] == steps && (steps + [step])[..|steps|] == steps && (steps + [step])[..|steps| + 1] == steps + [step];
    WishKept(steps, k, t, |steps|);
    w := BoardRun(steps).waiting[t];
    forall v | AsksFor(steps[k], t, v) ensures v == w { OneWish(steps[k], t, v, w); }
    RunMore(steps + [step], |steps|);
    RunUnfulfilled(steps);
    StepKeeps(BoardRun(steps), step, t);
    BlockedIs(steps, t);
    BlockedIs(steps + [step], t);
  }

  /** Whoever is blocked was blocked by a call, and the bits do not fulfil what that call asked for. */
  lemma NobodyLeftBehind(steps: seq<Step>, t: Task) returns (k: nat, w: Wish)
    requires Blocked(GroupAfter(steps), t)
    ensures BlockedSince(steps, k, t) && AsksFor(steps[k], t, w) && !Fulfilled(BitsOf(GroupAfter(steps).bits), w)
  {
    hide BoardNext, GroupAfter, BoardRun, AsksFor, BitsOf, Fulfilled;
    k := BlockingStep(steps, t);
    WishKept(steps, k, t, |steps|);
    assert steps[..|steps|] == steps;
    w := BoardRun(steps).waiting[t];
    BlockedIs(steps, t);
    RunUnfulfilled(steps);
  }

  lemma NobodyAtFirst(t: Task)
    ensures !Blocked(GroupAfter([]), t)
  {
  }

  lemma {:induction false} BlockingStep(steps: seq<Step>, t: Task) returns (k: nat)
    requires Blocked(GroupAfter(steps), t)
    ensures BlockedSince(steps, k, t)
  {
    hide GroupAfter, Blocked;
    NobodyAtFirst(t);
    var before := steps[..|steps| - 1];
    if Blocked(GroupAfter(before), t) {
      k := BlockingStep(before, t);
      assert forall j :: 0 <= j < |steps| ==> before[..j] == steps[..j];
    } else {
      k := |steps| - 1;
    }
    assert steps[..|steps|] == steps;
  }

  /** A task that asks is blocked if and only if it may call, may block, and its wish is not fulfilled. */
  lemma WaitBegins(steps: seq<Step>, t: Task, step: Step)
    requires !Blocked(GroupAfter(steps), t)
    ensures var bits := BitsOf(GroupAfter(steps).bits);
      Blocked(GroupAfter(steps + [step]), t) <==>
        match step
        case Wait(u, want, clear, all, block) =>
          u == t && block && MayAsk(BoardRun(steps), t, BitsOf(want)) && !Fulfilled(bits, Wish(BitsOf(want), all, clear))
        case Sync(u, s, want, block) => u == t && block && MayAsk(BoardRun(steps), t, BitsOf(want)) && !(BitsOf(want) <= bits + BitsOf(s))
        case _ => false
  {
    hide GroupAfter, BoardRun, BitsOf, Blocked, MayAsk;
    assert (steps + [step])[..|steps|] == steps && (steps + [step])[..|steps| + 1] == steps + [step];
    RunMore(steps + [step], |steps|);
    BlockedIs(steps, t);
    BlockedIs(steps + [step], t);
  }
}
