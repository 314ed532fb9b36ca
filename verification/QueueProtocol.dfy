/**
 The blocking protocol of FreeRTOS/queue.c: any number of tasks inside blocking receives, peeks and sends, with
 interrupts posting and taking items between any two critical sections.
 */
module QueueProtocol {
  import opened ListSeq
  import opened QueueModel

  datatype Kind = Receive | Peek | Send(item: Item, at: Position)

  /** How a locked pass ends: wait on the list, try again, or give up. */
  datatype Outcome = Wait | Retry | Expired

  /** Where a task stands in xQueueGenericReceive / xQueueGenericSend, between two atomic actions. */
  datatype Pc =
    | Idle
    | Top(k: Kind)
    | Gap(k: Kind)
    | Suspended(k: Kind)
    | Locked(k: Kind)
    | Checked(k: Kind)
    | Unlocking(k: Kind, out: Outcome)
    | HalfUnlocked(k: Kind, out: Outcome)
    | Unlocked(k: Kind, out: Outcome)
    | Blocked(k: Kind)
    | Late(k: Kind)

  /** rxWoken/txWoken: taken off an event list by an event, and not yet back at the queue. */
  datatype Sys = Sys(q: Q, pc: map<Task, Pc>, suspender: int, rxWoken: set<Task>, txWoken: set<Task>)

  const NOBODY := -1

  datatype Step =
    | Start(t: Task, k: Kind)
    | Critical(t: Task, mayBlock: bool)
    | SuspendAll(t: Task)
    | TakeLock(t: Task)
    | Check(t: Task, expired: bool)
    | Enlist(t: Task)
    | ReleaseTx(t: Task)
    | ReleaseRx(t: Task)
    | ResumeAll(t: Task)
    | Awake(t: Task)
    | TimeOut(t: Task)
    | LateCheck(t: Task)
    | IsrSend(item: Item, at: Position)
    | IsrReceive
    | ResetQueue

  function PcOf(s: Sys, t: Task): Pc { if t in s.pc then s.pc[t] else Idle }

  predicate Receiving(k: Kind) { !k.Send? }

  predicate HoldsScheduler(pc: Pc) {
    pc.Suspended? || pc.Locked? || pc.Checked? || pc.Unlocking? || pc.HalfUnlocked? || pc.Unlocked?
  }

  predicate TxHeld(pc: Pc) { pc.Locked? || pc.Checked? || pc.Unlocking? }

  predicate RxHeld(pc: Pc) { TxHeld(pc) || pc.HalfUnlocked? }

  /** On an event list, or taken off it and not yet run. */
  predicate Waiting(pc: Pc) {
    pc.Blocked? || ((pc.Unlocking? || pc.HalfUnlocked? || pc.Unlocked?) && pc.out == Wait)
  }

  predicate InPlay(pc: Pc) { Waiting(pc) || pc.Top? }

  /** A task may act when nobody else holds the scheduler. */
  predicate MayRun(s: Sys, t: Task) { s.suspender == NOBODY || s.suspender == t }

  function Elements(list: seq<Task>): set<Task> { set t | t in list }

  function WithEffect(s: Sys, r: (Q, Effect)): Sys {
    s.(q := r.0, rxWoken := s.rxWoken + Elements(r.1.wokeRx), txWoken := s.txWoken + Elements(r.1.wokeTx))
  }

  function At(s: Sys, t: Task, pc: Pc): Sys { s.(pc := s.pc[t := pc]) }

  function AfterCritical(s: Sys, t: Task, k: Kind, mayBlock: bool): Sys {
    var s1 := s.(rxWoken := s.rxWoken - {t}, txWoken := s.txWoken - {t});
    var r := if k.Send? then SendCritical(s.q, k.item, k.at) else ReceiveCritical(s.q, k.Peek?);
    if r.1.ok then At(WithEffect(s1, r), t, Idle) else At(s1, t, if mayBlock then Gap(k) else Idle)
  }

  predicate MustWait(q: Q, k: Kind) {
    if k.Send? then |q.items| == q.length else q.items == []
  }

  function Without(list: seq<Task>, t: Task): seq<Task> {
    if list == [] then [] else if list[0] == t then list[1..] else [list[0]] + Without(list[1..], t)
  }

  /** Total: a step that is not enabled does nothing, so Run ranges over every interleaving. tasks.c is not part of this
      model; the event-list calls follow their documented effect. A suspended scheduler runs only the task that suspended
      it, and interrupts. */
  function Next(key: Task -> nat, s: Sys, step: Step): Sys {
    match step
    case Start(t, k) =>
      if MayRun(s, t) && PcOf(s, t).Idle? && (k.Send? && k.at.Overwrite? ==> s.q.length == 1) then At(s, t, Top(k)) else s
    case Critical(t, mayBlock) =>
      if MayRun(s, t) && PcOf(s, t).Top? then AfterCritical(s, t, PcOf(s, t).k, mayBlock) else s
    case SuspendAll(t) =>
      if MayRun(s, t) && PcOf(s, t).Gap? then At(s, t, Suspended(PcOf(s, t).k)).(suspender := t) else s
    case TakeLock(t) =>
      if MayRun(s, t) && PcOf(s, t).Suspended? then At(s, t, Locked(PcOf(s, t).k)).(q := Lock(s.q)) else s
    case Check(t, expired) =>
      if MayRun(s, t) && PcOf(s, t).Locked? then
        var k := PcOf(s, t).k;
        At(s, t, if expired then Unlocking(k, Expired) else if MustWait(s.q, k) then Checked(k) else Unlocking(k, Retry))
      else s
    case Enlist(t) =>
      if MayRun(s, t) && PcOf(s, t).Checked? then
        var k := PcOf(s, t).k;
        At(s, t, Unlocking(k, Wait)).(q := if k.Send? then s.q.(tx := Place(s.q.tx, t, key)) else s.q.(rx := Place(s.q.rx, t, key)))
      else s
    case ReleaseTx(t) =>
      if MayRun(s, t) && PcOf(s, t).Unlocking? then
        At(WithEffect(s, UnlockTx(s.q)), t, HalfUnlocked(PcOf(s, t).k, PcOf(s, t).out))
      else s
    case ReleaseRx(t) =>
      if MayRun(s, t) && PcOf(s, t).HalfUnlocked? then
        At(WithEffect(s, UnlockRx(s.q)), t, Unlocked(PcOf(s, t).k, PcOf(s, t).out))
      else s
    case ResumeAll(t) =>
      if MayRun(s, t) && PcOf(s, t).Unlocked? then
        var k, out := PcOf(s, t).k, PcOf(s, t).out;
        At(s, t, if out.Wait? then Blocked(k) else if out.Retry? then Top(k) else if k.Send? then Idle else Late(k)).(suspender := NOBODY)
      else s
    case Awake(t) =>
      if MayRun(s, t) && PcOf(s, t).Blocked? && t !in s.q.rx && t !in s.q.tx then At(s, t, Top(PcOf(s, t).k)) else s
    case TimeOut(t) =>
      if s.suspender == NOBODY && PcOf(s, t).Blocked? && (t in s.q.rx || t in s.q.tx) then
        At(s, t, Top(PcOf(s, t).k)).(q := s.q.(rx := Without(s.q.rx, t), tx := Without(s.q.tx, t)))
      else s
    case LateCheck(t) =>
      if MayRun(s, t) && PcOf(s, t).Late? then At(s, t, if s.q.items == [] then Idle else Top(PcOf(s, t).k)) else s
    case IsrSend(item, at) =>
      if at.Overwrite? && s.q.length != 1 then s else WithEffect(s, SendFromIsr(s.q, item, at))
    case IsrReceive => WithEffect(s, ReceiveFromIsr(s.q))
    case ResetQueue => if s.suspender == NOBODY then WithEffect(s, Reset(s.q)) else s
  }

  function Run(key: Task -> nat, s: Sys, steps: seq<Step>): Sys {
    if steps == [] then s else Next(key, Run(key, s, steps[..|steps| - 1]), steps[|steps| - 1])
  }

  /** Before the step, no lock count is about to leave int8. */
  predicate Fits(s: Sys, step: Step) {
    (step.IsrSend? ==> s.q.txLock < 127) && (step.IsrReceive? ==> s.q.rxLock < 127)
  }

  predicate RunFits(key: Task -> nat, s: Sys, steps: seq<Step>) {
    forall i :: 0 <= i < |steps| ==> Fits(Run(key, s, steps[..i]), steps[i])
  }

  // ---------- the invariant ----------

  /** A side's list and woken set hold different tasks, all waiting (or just back) on that side. */
  ghost predicate Side(s: Sys, list: seq<Task>, woken: set<Task>, receiving: bool) {
    Distinct(list) &&
    (forall t {:trigger t in list} :: t in list ==> t !in woken && Waiting(PcOf(s, t)) && Receiving(PcOf(s, t).k) == receiving) &&
    (forall t {:trigger t in woken} :: t in woken ==> InPlay(PcOf(s, t)) && Receiving(PcOf(s, t).k) == receiving)
  }

  ghost predicate Enlisted(s: Sys) {
    Side(s, s.q.rx, s.rxWoken, true) && Side(s, s.q.tx, s.txWoken, false)
  }

  /** One task at most is past vTaskSuspendAll, and the locks are exactly the ones it holds. */
  ghost predicate Exclusive(s: Sys) {
    (s.suspender == NOBODY || s.suspender >= 0) &&
    (forall t: Task {:trigger PcOf(s, t)} :: HoldsScheduler(PcOf(s, t)) <==> s.suspender == t) &&
    (s.suspender == NOBODY ==> s.q.txLock == UNLOCKED && s.q.rxLock == UNLOCKED) &&
    (s.suspender >= 0 ==>
      var pc := PcOf(s, s.suspender);
      (if TxHeld(pc) then s.q.txLock >= 0 else s.q.txLock == UNLOCKED) &&
      (if RxHeld(pc) then s.q.rxLock >= 0 else s.q.rxLock == UNLOCKED))
  }

  function Free(q: Q): int { q.length - |q.items| }

  /** Every item is spoken for: by a woken receiver, or by a post the unlock still has to pay out. */
  ghost predicate RxCovered(s: Sys) {
    (s.q.rx != [] ==> |s.q.items| <= |s.rxWoken| + Debt(s.q.txLock)) &&
    (s.suspender >= 0 && PcOf(s, s.suspender).Checked? && Receiving(PcOf(s, s.suspender).k) ==>
      |s.q.items| <= Debt(s.q.txLock))
  }

  ghost predicate TxCovered(s: Sys) {
    (s.q.tx != [] ==> Free(s.q) <= |s.txWoken| + Debt(s.q.rxLock)) &&
    (s.suspender >= 0 && PcOf(s, s.suspender).Checked? && !Receiving(PcOf(s, s.suspender).k) ==>
      Free(s.q) <= Debt(s.q.rxLock))
  }

  /** xQueueOverwrite is only called on queues of length one. */
  ghost predicate Bounded(s: Sys) {
    (forall t: Task {:trigger PcOf(s, t)} :: !PcOf(s, t).Idle? && PcOf(s, t).k.Send? && PcOf(s, t).k.at.Overwrite? ==> s.q.length == 1) &&
    |s.q.items| <= s.q.length
  }

  ghost predicate Base(s: Sys) { Enlisted(s) && Exclusive(s) && Bounded(s) }

  ghost predicate Inv(s: Sys) { Base(s) && RxCovered(s) && TxCovered(s) }

  /** Each side's coverage survives on its own. */
  ghost predicate Covers(s: Sys, s': Sys) {
    (RxCovered(s) ==> RxCovered(s')) && (TxCovered(s) ==> TxCovered(s'))
  }

  // ---------- counting ----------

  lemma {:induction false} ElementsCount(list: seq<Task>)
    requires Distinct(list)
    ensures |Elements(list)| == |list|
  {
    if list == [] {
      assert Elements(list) == {};
    } else {
      var last := list[|list| - 1];
      ElementsCount(list[..|list| - 1]);
      assert Elements(list) == Elements(list[..|list| - 1]) + {last};
      assert last !in Elements(list[..|list| - 1]);
    }
  }

  /** Taking the first k waiters off a list adds k to the woken. */
  lemma WokenGrows(list: seq<Task>, k: nat, woken: set<Task>)
    requires Distinct(list) && k <= |list| && forall t :: t in list ==> t !in woken
    ensures |woken + Elements(list[..k])| == |woken| + k
    ensures Distinct(list[k..]) && forall t :: t in list[k..] ==> t in list && t !in Elements(list[..k])
    ensures forall t :: t in Elements(list[..k]) ==> t in list
  {
    ElementsCount(list[..k]);
    assert woken !! Elements(list[..k]);
    forall t | t in list[k..] ensures t !in Elements(list[..k]) {
    }
  }

  lemma HeadIsPrefix(list: seq<Task>)
    ensures var k := if list == [] then 0 else 1; Head(list) == list[..k] && Behead(list) == list[k..]
  {
  }

  lemma DropOne(woken: set<Task>, t: Task)
    ensures |woken - {t}| == |woken| - if t in woken then 1 else 0
  {
    if t in woken { assert woken == woken - {t} + {t}; } else { assert woken - {t} == woken; }
  }

  lemma PutLength(items: seq<Item>, item: Item, at: Position, length: nat)
    requires |items| <= length && (|items| < length || at.Overwrite?) && (at.Overwrite? ==> length == 1)
    ensures |Put(items, item, at)| == |items| + if |items| < length then 1 else 0
  {
  }

  lemma {:induction false} WithoutKeeps(list: seq<Task>, t: Task)
    requires Distinct(list)
    ensures Distinct(Without(list, t)) && forall u :: u in Without(list, t) <==> u in list && u != t
  {
    if list != [] {
      WithoutKeeps(list[1..], t);
      assert list == [list[0]] + list[1..];
      assert list[0] !in list[1..];
      var w := Without(list, t);
      if list[0] != t {
        assert w[0] !in Without(list[1..], t);
        assert forall i :: 1 <= i < |w| ==> w[i] == Without(list[1..], t)[i - 1];
      }
    }
  }

  lemma PlaceKeeps(list: seq<Task>, t: Task, key: Task -> nat)
    requires Distinct(list) && t !in list
    ensures Distinct(Place(list, t, key)) && forall u :: u in Place(list, t, key) <==> u in list || u == t
  {
    DistinctInsert(list, LeadingAtMost(Keys(list, key), key(t)), t);
  }

  // ---------- every step keeps the invariant ----------

  /** u's move from s to s' does not take it out of a list or a woken set it is in. */
  ghost predicate Stays(s: Sys, s': Sys, u: Task) {
    (InPlay(PcOf(s, u)) ==> InPlay(PcOf(s', u)) && PcOf(s', u).k == PcOf(s, u).k) &&
    (Waiting(PcOf(s, u)) && (u in s'.q.rx || u in s'.q.tx) ==> Waiting(PcOf(s', u)))
  }

  /** The first a receivers and b senders were woken; dropped tasks are through with waiting. */
  ghost predicate Woke(s: Sys, s': Sys, a: nat, b: nat, drop: set<Task>) {
    a <= |s.q.rx| && b <= |s.q.tx| && s'.q.rx == s.q.rx[a..] && s'.q.tx == s.q.tx[b..] &&
    s'.rxWoken == (s.rxWoken - drop) + Elements(s.q.rx[..a]) &&
    s'.txWoken == (s.txWoken - drop) + Elements(s.q.tx[..b])
  }

  lemma SideWoke(s: Sys, s': Sys, list: seq<Task>, woken: set<Task>, k: nat, drop: set<Task>, receiving: bool)
    requires Side(s, list, woken, receiving) && k <= |list|
    requires forall u :: u in drop ==> u !in list
    requires forall u: Task {:trigger Stays(s, s', u)} :: u !in drop ==> Stays(s, s', u)
    requires forall u: Task :: u in list[k..] ==> Waiting(PcOf(s', u))
    ensures Side(s', list[k..], (woken - drop) + Elements(list[..k]), receiving)
  {
    WokenGrows(list, k, woken - drop);
    forall u | u in list || (u in woken && u !in drop) ensures Stays(s, s', u) {}
  }

  lemma EnlistedWoke(s: Sys, s': Sys, a: nat, b: nat, drop: set<Task>)
    requires Enlisted(s) && Woke(s, s', a, b, drop)
    requires forall u: Task {:trigger Stays(s, s', u)} :: u !in drop ==> Stays(s, s', u)
    requires forall u :: u in drop ==> u !in s.q.rx && u !in s.q.tx
    ensures Enlisted(s')
  {
    WokenGrows(s.q.rx, a, s.rxWoken - drop);
    WokenGrows(s.q.tx, b, s.txWoken - drop);
    forall u | u in s.q.rx ensures Stays(s, s', u) {}
    forall u | u in s.q.tx ensures Stays(s, s', u) {}
    SideWoke(s, s', s.q.rx, s.rxWoken, a, drop, true);
    SideWoke(s, s', s.q.tx, s.txWoken, b, drop, false);
  }

  /** A step of one task that neither takes nor gives up the scheduler or a lock. */
  lemma ExclusiveQuiet(s: Sys, s': Sys)
    requires Exclusive(s) && s'.suspender == s.suspender
    requires forall u: Task {:trigger PcOf(s', u)} :: (
      HoldsScheduler(PcOf(s', u)) == HoldsScheduler(PcOf(s, u)) &&
      TxHeld(PcOf(s', u)) == TxHeld(PcOf(s, u)) && RxHeld(PcOf(s', u)) == RxHeld(PcOf(s, u)))
    requires (s'.q.txLock >= 0 <==> s.q.txLock >= 0) && (s.q.txLock == UNLOCKED <==> s'.q.txLock == UNLOCKED)
    requires (s'.q.rxLock >= 0 <==> s.q.rxLock >= 0) && (s.q.rxLock == UNLOCKED <==> s'.q.rxLock == UNLOCKED)
    ensures Exclusive(s')
  {
  }

  lemma PcAt(s: Sys, s': Sys, t: Task, p: Pc)
    requires s'.pc == s.pc[t := p]
    ensures forall u {:trigger PcOf(s', u)} :: PcOf(s', u) == if u == t then p else PcOf(s, u)
  {
  }

  /** What Critical does, spelled out: it wakes a receivers and b senders and leaves t at p. */
  ghost predicate CriticalDid(s: Sys, s': Sys, t: Task, a: nat, b: nat, p: Pc) {
    PcOf(s, t).Top? && Woke(s, s', a, b, {t}) && s'.pc == s.pc[t := p] && (p.Idle? || p == Gap(PcOf(s, t).k)) &&
    s'.suspender == s.suspender && s'.q.length == s.q.length && s'.q.txLock == s.q.txLock && s'.q.rxLock == s.q.rxLock &&
    (Receiving(PcOf(s, t).k) ==>
      var taken := s.q.items != [] && !PcOf(s, t).k.Peek?;
      a == (if s.q.items != [] && PcOf(s, t).k.Peek? && s.q.rx != [] then 1 else 0) &&
      b == (if taken && s.q.tx != [] then 1 else 0) &&
      |s'.q.items| == |s.q.items| - (if taken then 1 else 0)) &&
    (!Receiving(PcOf(s, t).k) ==>
      b == 0 && |s'.q.items| == |s.q.items| + (if |s.q.items| < s.q.length then 1 else 0) &&
      (s.q.rx != [] && |s.q.items| < s.q.length ==> a == 1))
  }

  lemma CriticalOutcome(key: Task -> nat, s: Sys, t: Task, mayBlock: bool) returns (a: nat, b: nat, p: Pc)
    requires Base(s) && MayRun(s, t) && PcOf(s, t).Top?
    ensures CriticalDid(s, Next(key, s, Critical(t, mayBlock)), t, a, b, p)
  {
    var k := PcOf(s, t).k;
    HeadIsPrefix(s.q.rx);
    HeadIsPrefix(s.q.tx);
    hide Enlisted, Exclusive, RxCovered, TxCovered;
    a := if s.q.rx != [] && (if k.Send? then HasRoom(s.q, k.at) else s.q.items != [] && k.Peek?) then 1 else 0;
    b := if s.q.tx != [] && k.Receive? && s.q.items != [] then 1 else 0;
    p := PcOf(Next(key, s, Critical(t, mayBlock)), t);
    if k.Send? && HasRoom(s.q, k.at) { PutLength(s.q.items, k.item, k.at, s.q.length); }
  }

  lemma OthersStay(s: Sys, s': Sys, t: Task, p: Pc)
    requires s'.pc == s.pc[t := p]
    ensures forall u: Task {:trigger Stays(s, s', u)} :: u != t ==> Stays(s, s', u)
  {
    PcAt(s, s', t, p);
  }

  /** The new woken counts, and which lists are still non-empty. */
  lemma WokeCounts(s: Sys, s': Sys, a: nat, b: nat, drop: set<Task>)
    requires Enlisted(s) && Woke(s, s', a, b, drop)
    ensures |s'.rxWoken| == |s.rxWoken - drop| + a && |s'.q.rx| == |s.q.rx| - a
    ensures |s'.txWoken| == |s.txWoken - drop| + b && |s'.q.tx| == |s.q.tx| - b
  {
    WokenGrows(s.q.rx, a, s.rxWoken - drop);
    WokenGrows(s.q.tx, b, s.txWoken - drop);
  }

  lemma CriticalCovers(s: Sys, s': Sys, t: Task, a: nat, b: nat, p: Pc)
    requires Enlisted(s) && s.suspender == NOBODY && CriticalDid(s, s', t, a, b, p)
    ensures Covers(s, s')
  {
    hide RxCovered, TxCovered;
    if RxCovered(s) { CriticalRxCovered(s, s', t, a, b, p); }
    if TxCovered(s) { CriticalTxCovered(s, s', t, a, b, p); }
  }

  lemma CriticalRxCovered(s: Sys, s': Sys, t: Task, a: nat, b: nat, p: Pc)
    requires Enlisted(s) && RxCovered(s) && s.suspender == NOBODY && CriticalDid(s, s', t, a, b, p)
    ensures RxCovered(s')
  {
    assert t in s.rxWoken ==> Receiving(PcOf(s, t).k);
    WokeCounts(s, s', a, b, {t});
    DropOne(s.rxWoken, t);
  }

  lemma CriticalTxCovered(s: Sys, s': Sys, t: Task, a: nat, b: nat, p: Pc)
    requires Enlisted(s) && TxCovered(s) && s.suspender == NOBODY && CriticalDid(s, s', t, a, b, p)
    ensures TxCovered(s')
  {
    assert t in s.txWoken ==> !Receiving(PcOf(s, t).k);
    WokeCounts(s, s', a, b, {t});
    DropOne(s.txWoken, t);
  }

  lemma CriticalDidKeeps(s: Sys, s': Sys, t: Task, a: nat, b: nat, p: Pc)
    requires Base(s) && s.suspender == NOBODY && CriticalDid(s, s', t, a, b, p)
    ensures Enlisted(s') && Exclusive(s')
  {
    hide RxCovered, TxCovered, Side;
    assert PcOf(s, t).Top?;
    assert forall u :: u == t ==> u !in s.q.rx && u !in s.q.tx by { TopUnlisted(s, t); }
    PcAt(s, s', t, p);
    OthersStay(s, s', t, p);
    EnlistedWoke(s, s', a, b, {t});
    ExclusiveQuiet(s, s');
  }

  lemma TopUnlisted(s: Sys, t: Task)
    requires Enlisted(s) && !Waiting(PcOf(s, t))
    ensures t !in s.q.rx && t !in s.q.tx
  {
  }

  lemma CriticalKeeps(key: Task -> nat, s: Sys, t: Task, mayBlock: bool)
    requires Base(s)
    ensures Base(Next(key, s, Critical(t, mayBlock))) && Covers(s, Next(key, s, Critical(t, mayBlock)))
  {
    hide Enlisted, RxCovered, TxCovered;
    if MayRun(s, t) && PcOf(s, t).Top? {
      var s' := Next(key, s, Critical(t, mayBlock));
      var a, b, p := CriticalOutcome(key, s, t, mayBlock);
      assert !HoldsScheduler(PcOf(s, t));
      CriticalCovers(s, s', t, a, b, p);
      CriticalDidKeeps(s, s', t, a, b, p);
      PcAt(s, s', t, p);
    }
  }

  /** A step of t that touches no item, list or woken set. */
  lemma QuietKeeps(s: Sys, s': Sys, t: Task, p: Pc)
    requires Enlisted(s) && Exclusive(s) && Exclusive(s')
    requires s'.pc == s.pc[t := p] && s'.rxWoken == s.rxWoken && s'.txWoken == s.txWoken && Stays(s, s', t)
    requires s'.q == s.q.(txLock := s'.q.txLock, rxLock := s'.q.rxLock)
    requires Debt(s'.q.txLock) == Debt(s.q.txLock) && Debt(s'.q.rxLock) == Debt(s.q.rxLock)
    requires p.Checked? ==> MustWait(s.q, p.k)
    requires s'.suspender != s.suspender ==> !p.Checked?
    ensures Enlisted(s') && Covers(s, s')
  {
    hide Side;
    PcAt(s, s', t, p);
    OthersStay(s, s', t, p);
    assert Elements([]) == {};
    EnlistedWoke(s, s', 0, 0, {});
  }

  ghost predicate Quiet(step: Step) {
    step.Start? || step.SuspendAll? || step.TakeLock? || step.Check? || step.ResumeAll? || step.Awake? || step.LateCheck?
  }

  lemma QuietExclusive(key: Task -> nat, s: Sys, step: Step)
    requires Exclusive(s) && Bounded(s) && Quiet(step)
    ensures Exclusive(Next(key, s, step)) && Bounded(Next(key, s, step))
  {
    var s' := Next(key, s, step);
    if s' != s {
      PcAt(s, s', step.t, PcOf(s', step.t));
    }
  }

  lemma QuietStepKeeps(key: Task -> nat, s: Sys, step: Step)
    requires Base(s) && Quiet(step)
    ensures Base(Next(key, s, step)) && Covers(s, Next(key, s, step))
  {
    hide Side, RxCovered, TxCovered;
    QuietExclusive(key, s, step);
    var s' := Next(key, s, step);
    if s' != s {
      QuietKeeps(s, s', step.t, PcOf(s', step.t));
    }
  }

  lemma EnlistKeeps(key: Task -> nat, s: Sys, t: Task)
    requires Base(s)
    ensures Base(Next(key, s, Enlist(t))) && Covers(s, Next(key, s, Enlist(t)))
  {
    var s' := Next(key, s, Enlist(t));
    if s' != s {
      TopUnlisted(s, t);
      PcAt(s, s', t, PcOf(s', t));
      PlaceKeeps(if Receiving(PcOf(s, t).k) then s.q.rx else s.q.tx, t, key);
    }
  }

  /** A step of t that wakes the first a receivers and b senders. */
  lemma WokenBy(s: Sys, s': Sys, t: Task, p: Pc, a: nat, b: nat)
    requires Enlisted(s) && s'.pc == s.pc[t := p] && Stays(s, s', t)
    requires a <= |s.q.rx| && b <= |s.q.tx| && s'.q.rx == s.q.rx[a..] && s'.q.tx == s.q.tx[b..]
    requires s'.rxWoken == s.rxWoken + Elements(s.q.rx[..a]) && s'.txWoken == s.txWoken + Elements(s.q.tx[..b])
    ensures Enlisted(s') && |s'.rxWoken| == |s.rxWoken| + a && |s'.txWoken| == |s.txWoken| + b
  {
    hide Enlisted;
    assert s.rxWoken - {} == s.rxWoken && s.txWoken - {} == s.txWoken;
    OthersStay(s, s', t, p);
    EnlistedWoke(s, s', a, b, {});
    WokeCounts(s, s', a, b, {});
  }

  /** An interrupt that wakes the first a receivers and b senders, or leaves the wakeup to the unlock. */
  ghost predicate IsrDid(s: Sys, s': Sys, a: nat, b: nat) {
    s'.pc == s.pc && s'.suspender == s.suspender && s'.q.length == s.q.length && |s'.q.items| <= s.q.length &&
    a <= |s.q.rx| && b <= |s.q.tx| && s'.q.rx == s.q.rx[a..] && s'.q.tx == s.q.tx[b..] &&
    s'.rxWoken == s.rxWoken + Elements(s.q.rx[..a]) && s'.txWoken == s.txWoken + Elements(s.q.tx[..b]) &&
    Took(s.q.txLock, s'.q.txLock, s.q.rx, a, |s'.q.items| - |s.q.items|) &&
    Took(s.q.rxLock, s'.q.rxLock, s.q.tx, b, |s.q.items| - |s'.q.items|)
  }

  /** With gain more to have on a side: unlocked, its head is woken; locked, the count grows. */
  ghost predicate Took(lock: int, lock': int, list: seq<Task>, woken: nat, gain: int) {
    gain <= 1 &&
    if gain <= 0 && lock' == lock then true
    else if lock == UNLOCKED then lock' == lock && (list != [] ==> woken == 1)
    else lock' == lock + 1
  }

  lemma IsrKeeps(s: Sys, s': Sys, a: nat, b: nat)
    requires Base(s) && IsrDid(s, s', a, b)
    ensures Base(s') && Covers(s, s')
  {
    hide Enlisted, Exclusive, Elements;
    LockRange(s);
    assert s.rxWoken - {} == s.rxWoken && s.txWoken - {} == s.txWoken;
    forall u: Task ensures PcOf(s', u) == PcOf(s, u) && Stays(s, s', u) {}
    EnlistedWoke(s, s', a, b, {});
    WokeCounts(s, s', a, b, {});
    ExclusiveQuiet(s, s');
  }

  lemma ReleaseExclusive(key: Task -> nat, s: Sys, step: Step)
    requires Exclusive(s) && Bounded(s) && (step.ReleaseTx? || step.ReleaseRx?)
    ensures Exclusive(Next(key, s, step)) && Bounded(Next(key, s, step))
  {
    var s' := Next(key, s, step);
    if s' != s { PcAt(s, s', step.t, PcOf(s', step.t)); }
  }

  lemma LockRange(s: Sys)
    requires Exclusive(s)
    ensures s.q.txLock >= UNLOCKED && s.q.rxLock >= UNLOCKED
    ensures s.suspender >= 0 && PcOf(s, s.suspender).Checked? ==> s.q.txLock >= 0 && s.q.rxLock >= 0
  {
  }

  lemma ReleaseTxKeeps(key: Task -> nat, s: Sys, t: Task)
    requires Base(s)
    ensures Base(Next(key, s, ReleaseTx(t))) && Covers(s, Next(key, s, ReleaseTx(t)))
  {
    hide Enlisted, Exclusive, Bounded;
    ReleaseExclusive(key, s, ReleaseTx(t));
    Holder(s, t);
    var s' := Next(key, s, ReleaseTx(t));
    if s' != s {
      assert Elements([]) == {};
      WokenBy(s, s', t, PcOf(s', t), Paid(s.q.txLock, s.q.rx), 0);
    }
  }

  lemma ReleaseRxKeeps(key: Task -> nat, s: Sys, t: Task)
    requires Base(s)
    ensures Base(Next(key, s, ReleaseRx(t))) && Covers(s, Next(key, s, ReleaseRx(t)))
  {
    hide Enlisted, Exclusive, Bounded;
    ReleaseExclusive(key, s, ReleaseRx(t));
    Holder(s, t);
    var s' := Next(key, s, ReleaseRx(t));
    if s' != s {
      assert Elements([]) == {};
      WokenBy(s, s', t, PcOf(s', t), 0, Paid(s.q.rxLock, s.q.tx));
    }
  }

  lemma Holder(s: Sys, t: Task)
    requires Exclusive(s)
    ensures HoldsScheduler(PcOf(s, t)) ==> s.suspender == t
  {
  }

  lemma TimeOutKeeps(key: Task -> nat, s: Sys, t: Task)
    requires Base(s)
    ensures Base(Next(key, s, TimeOut(t))) && Covers(s, Next(key, s, TimeOut(t)))
  {
    var s' := Next(key, s, TimeOut(t));
    if s' != s {
      PcAt(s, s', t, PcOf(s', t));
      WithoutKeeps(s.q.rx, t);
      WithoutKeeps(s.q.tx, t);
    }
  }

  lemma WithinLength(s: Sys)
    requires Bounded(s)
    ensures |s.q.items| <= s.q.length
  {
  }

  lemma IsrSendKeeps(key: Task -> nat, s: Sys, item: Item, at: Position)
    requires Base(s) && s.q.txLock < 127
    ensures Base(Next(key, s, IsrSend(item, at))) && Covers(s, Next(key, s, IsrSend(item, at)))
  {
    hide Enlisted, Exclusive, RxCovered, TxCovered, Bounded;
    assert |s.q.items| <= s.q.length by { WithinLength(s); }
    var s' := Next(key, s, IsrSend(item, at));
    if s' != s {
      HeadIsPrefix(s.q.rx);
      assert Elements([]) == {};
      PutLength(s.q.items, item, at, s.q.length);
      IsrKeeps(s, s', if s.q.txLock == UNLOCKED && s.q.rx != [] then 1 else 0, 0);
    }
  }

  lemma IsrReceiveKeeps(key: Task -> nat, s: Sys)
    requires Base(s) && s.q.rxLock < 127
    ensures Base(Next(key, s, IsrReceive)) && Covers(s, Next(key, s, IsrReceive))
  {
    hide Enlisted, Exclusive, RxCovered, TxCovered, Bounded;
    assert |s.q.items| <= s.q.length by { WithinLength(s); }
    var s' := Next(key, s, IsrReceive);
    if s' != s {
      HeadIsPrefix(s.q.tx);
      assert Elements([]) == {};
      IsrKeeps(s, s', 0, if s.q.rxLock == UNLOCKED && s.q.tx != [] then 1 else 0);
    }
  }

  /** A reset leaves no sender stranded: it lets the only one go, or those already woken use up all the room. */
  predicate Gentle(s: Sys) { |s.q.tx| <= 1 || s.q.length <= |s.txWoken| + 1 }

  /** A reset of a live queue keeps everything on the receivers' side; it keeps the senders covered if and only if it
      is gentle, whatever was covered before. */
  lemma ResetCovers(key: Task -> nat, s: Sys)
    requires Base(s) && s.suspender == NOBODY
    ensures var n := Next(key, s, ResetQueue); Base(n) && RxCovered(n) && (TxCovered(n) <==> Gentle(s))
  {
    hide Enlisted, Exclusive, Bounded, Elements;
    var n := Next(key, s, ResetQueue);
    ResetDoes(key, s);
    var b := if s.q.tx == [] then 0 else 1;
    EnlistedWoke(s, n, 0, b, {});
    WokeCounts(s, n, 0, b, {});
    ResetStays(s, n);
  }

  lemma ResetDoes(key: Task -> nat, s: Sys)
    requires s.suspender == NOBODY
    ensures var n := Next(key, s, ResetQueue);
      Woke(s, n, 0, if s.q.tx == [] then 0 else 1, {}) && n.pc == s.pc && n.suspender == NOBODY && n.q.items == [] &&
      n.q.txLock == n.q.rxLock == UNLOCKED && n.q.length == s.q.length && forall u: Task {:trigger Stays(s, n, u)} :: Stays(s, n, u)
  {
    HeadIsPrefix(s.q.tx);
    assert Elements([]) == {};
    assert s.rxWoken - {} == s.rxWoken && s.txWoken - {} == s.txWoken;
    var n := Next(key, s, ResetQueue);
    forall u: Task ensures Stays(s, n, u) { assert PcOf(n, u) == PcOf(s, u); }
  }

  lemma ResetStays(s: Sys, n: Sys)
    requires Exclusive(s) && Bounded(s) && s.suspender == NOBODY && n.pc == s.pc && n.suspender == NOBODY && n.q.items == []
    requires n.q.txLock == n.q.rxLock == UNLOCKED && n.q.length == s.q.length
    ensures Exclusive(n) && Bounded(n)
  {
    forall u: Task ensures PcOf(n, u) == PcOf(s, u) {}
  }

  lemma NextKeeps(key: Task -> nat, s: Sys, step: Step)
    requires Base(s) && Fits(s, step)
    ensures var n := Next(key, s, step);
      Base(n) && (RxCovered(s) ==> RxCovered(n)) && (TxCovered(s) && (step.ResetQueue? ==> Gentle(s)) ==> TxCovered(n))
  {
    hide Base, RxCovered, TxCovered, Next, Gentle;
    match step
    case Critical(t, mayBlock) => CriticalKeeps(key, s, t, mayBlock);
    case Enlist(t) => EnlistKeeps(key, s, t);
    case ReleaseTx(t) => ReleaseTxKeeps(key, s, t);
    case ReleaseRx(t) => ReleaseRxKeeps(key, s, t);
    case TimeOut(t) => TimeOutKeeps(key, s, t);
    case IsrSend(item, at) => IsrSendKeeps(key, s, item, at);
    case IsrReceive => IsrReceiveKeeps(key, s);
    case ResetQueue =>
      if s.suspender == NOBODY { ResetCovers(key, s); } else { NoReset(key, s); }
    case _ => QuietStepKeeps(key, s, step);
  }

  lemma NoReset(key: Task -> nat, s: Sys)
    requires s.suspender != NOBODY
    ensures Next(key, s, ResetQueue) == s
  {
  }

  /** Nobody at the queue yet: any contents, no waiters, unlocked. */
  predicate Initial(s: Sys) {
    s.pc == map[] && s.suspender == NOBODY && s.rxWoken == {} && s.txWoken == {} &&
    s.q.rx == [] && s.q.tx == [] && s.q.rxLock == UNLOCKED && s.q.txLock == UNLOCKED && |s.q.items| <= s.q.length
  }

  predicate RunGentle(key: Task -> nat, s: Sys, steps: seq<Step>) {
    forall i :: 0 <= i < |steps| ==> (steps[i].ResetQueue? ==> Gentle(Run(key, s, steps[..i])))
  }

  lemma {:induction false} RunKeeps(key: Task -> nat, s: Sys, steps: seq<Step>)
    requires Initial(s) && RunFits(key, s, steps)
    ensures Base(Run(key, s, steps)) && RxCovered(Run(key, s, steps))
    ensures RunGentle(key, s, steps) ==> TxCovered(Run(key, s, steps))
  {
    hide Next, Gentle, RxCovered, TxCovered, Base;
    if steps != [] {
      var before := steps[..|steps| - 1];
      forall i | 0 <= i < |before| ensures Fits(Run(key, s, before[..i]), before[i]) {
        assert before[..i] == steps[..i];
        assert Fits(Run(key, s, steps[..i]), steps[i]);
      }
      if RunGentle(key, s, steps) {
        forall i | 0 <= i < |before| ensures before[i].ResetQueue? ==> Gentle(Run(key, s, before[..i])) {
          assert before[..i] == steps[..i];
        }
      }
      RunKeeps(key, s, before);
      assert Fits(Run(key, s, before), steps[|steps| - 1]);
      NextKeeps(key, Run(key, s, before), steps[|steps| - 1]);
    } else {
      InitialInv(s);
    }
  }

  lemma InitialInv(s: Sys)
    requires Initial(s)
    ensures Inv(s)
  {
  }

  /** No lost wakeup, in every interleaving, resets included: with the queue unlocked no receiver stays on its list
      while there is more to have than the receivers already woken for it; with the queue locked the lock count makes
      up the difference. Senders likewise, as long as no reset strands one. */
  lemma NoLostWakeup(key: Task -> nat, s: Sys, steps: seq<Step>)
    requires Initial(s) && RunFits(key, s, steps)
    ensures var e := Run(key, s, steps);
      (e.q.rx != [] ==> |e.q.items| <= |e.rxWoken| + Debt(e.q.txLock)) &&
      (RunGentle(key, s, steps) && e.q.tx != [] ==> e.q.length - |e.q.items| <= |e.txWoken| + Debt(e.q.rxLock)) &&
      (e.suspender == NOBODY ==> Debt(e.q.txLock) == Debt(e.q.rxLock) == 0) &&
      (forall t :: t in e.rxWoken ==> t !in e.q.rx && (Waiting(PcOf(e, t)) || PcOf(e, t).Top?)) &&
      (forall t :: t in e.txWoken ==> t !in e.q.tx && (Waiting(PcOf(e, t)) || PcOf(e, t).Top?))
  {
    hide Run, RunFits, RunGentle;
    RunKeeps(key, s, steps);
  }

  // ---------- urgency ----------

  ghost predicate Ordered(key: Task -> nat, list: seq<Task>) {
    forall i, j :: 0 <= i < j < |list| ==> key(list[i]) <= key(list[j])
  }

  lemma {:induction false} WithoutOrdered(key: Task -> nat, list: seq<Task>, t: Task)
    requires Ordered(key, list)
    ensures Ordered(key, Without(list, t)) && forall u :: u in Without(list, t) ==> u in list
  {
    if list != [] && list[0] != t {
      WithoutOrdered(key, list[1..], t);
      assert forall u :: u in list[1..] ==> key(list[0]) <= key(u);
      PrependOrdered(key, list[0], Without(list[1..], t));
    }
  }

  lemma PrependOrdered(key: Task -> nat, u: Task, list: seq<Task>)
    requires Ordered(key, list) && forall v :: v in list ==> key(u) <= key(v)
    ensures Ordered(key, [u] + list)
  {
    var l := [u] + list;
    assert forall i :: 1 <= i < |l| ==> l[i] == list[i - 1] && l[i] in list;
  }

  lemma PlaceOrdered(key: Task -> nat, list: seq<Task>, t: Task)
    requires Ordered(key, list)
    ensures Ordered(key, Place(list, t, key))
  {
    PlaceKeepsOrder(list, t, key);
    var p := Place(list, t, key);
    assert forall i :: 0 <= i < |p| ==> Keys(p, key)[i] == key(p[i]);
  }

  lemma EnlistOrdered(key: Task -> nat, s: Sys, t: Task)
    requires Ordered(key, s.q.rx) && Ordered(key, s.q.tx)
    ensures Ordered(key, Next(key, s, Enlist(t)).q.rx) && Ordered(key, Next(key, s, Enlist(t)).q.tx)
  {
    hide Place, Keys;
    PlaceOrdered(key, s.q.rx, t);
    PlaceOrdered(key, s.q.tx, t);
  }

  lemma TimeOutOrdered(key: Task -> nat, s: Sys, t: Task)
    requires Ordered(key, s.q.rx) && Ordered(key, s.q.tx)
    ensures Ordered(key, Next(key, s, TimeOut(t)).q.rx) && Ordered(key, Next(key, s, TimeOut(t)).q.tx)
  {
    WithoutOrdered(key, s.q.rx, t);
    WithoutOrdered(key, s.q.tx, t);
  }

  /** What is left of a list once some have been taken off its head. */
  predicate Served(was: seq<Task>, now: seq<Task>) { |now| <= |was| && now == was[|was| - |now|..] }

  predicate BothServed(was: Q, now: Q) { Served(was.rx, now.rx) && Served(was.tx, now.tx) }

  lemma CallsServe(q: Q, item: Item, at: Position, peek: bool)
    ensures BothServed(q, SendCritical(q, item, at).0) && BothServed(q, ReceiveCritical(q, peek).0)
    ensures BothServed(q, SendFromIsr(q, item, at).0) && BothServed(q, ReceiveFromIsr(q).0)
    ensures BothServed(q, q) && BothServed(q, Lock(q)) && BothServed(q, Reset(q).0)
    ensures BothServed(q, UnlockTx(q).0) && BothServed(q, UnlockRx(q).0)
  {
    hide Put, HasRoom, Bump, Served, Behead, Head, Paid;
    HeadServed(q.rx);
    HeadServed(q.tx);
    PrefixServed(q.rx, Paid(q.txLock, q.rx));
    PrefixServed(q.tx, Paid(q.rxLock, q.tx));
  }

  lemma HeadServed(list: seq<Task>)
    ensures Served(list, list) && Served(list, Behead(list))
  {
  }

  lemma PrefixServed(list: seq<Task>, k: nat)
    requires k <= |list|
    ensures Served(list, list[k..])
  {
  }

  lemma NextServes(key: Task -> nat, s: Sys, step: Step)
    requires !step.Enlist? && !step.TimeOut?
    ensures BothServed(s.q, Next(key, s, step).q)
  {
    hide BothServed, SendCritical, ReceiveCritical, SendFromIsr, ReceiveFromIsr, Lock, Reset, UnlockTx, UnlockRx, Elements,
         PcOf, MayRun;
    match step
    case Critical(t, _) =>
      if PcOf(s, t).Top? {
        var k := PcOf(s, t).k;
        if k.Send? { CallsServe(s.q, k.item, k.at, false); } else { CallsServe(s.q, [], Back, k.Peek?); }
      } else {
        CallsServe(s.q, [], Back, false);
      }
    case IsrSend(item, at) => CallsServe(s.q, item, at, false);
    case _ => CallsServe(s.q, [], Back, false);
  }

  lemma ServedOrdered(key: Task -> nat, was: seq<Task>, now: seq<Task>)
    requires Ordered(key, was) && Served(was, now)
    ensures Ordered(key, now)
  {
  }

  /** Every other step keeps the lists or takes tasks off their heads. */
  lemma NextOrdered(key: Task -> nat, s: Sys, step: Step)
    requires Ordered(key, s.q.rx) && Ordered(key, s.q.tx)
    ensures Ordered(key, Next(key, s, step).q.rx) && Ordered(key, Next(key, s, step).q.tx)
  {
    hide Next, Ordered, Served;
    if step.Enlist? {
      EnlistOrdered(key, s, step.t);
    } else if step.TimeOut? {
      TimeOutOrdered(key, s, step.t);
    } else {
      NextServes(key, s, step);
      ServedOrdered(key, s.q.rx, Next(key, s, step).q.rx);
      ServedOrdered(key, s.q.tx, Next(key, s, step).q.tx);
    }
  }

  /** Whoever is taken off, and the tasks left on the list: the former come first. */
  ghost predicate Taken(was: seq<Task>, now: seq<Task>, woke: seq<Task>) { was == woke + now }

  ghost predicate BothTaken(was: Q, r: (Q, Effect)) {
    Taken(was.rx, r.0.rx, r.1.wokeRx) && Taken(was.tx, r.0.tx, r.1.wokeTx)
  }

  lemma CallsTake(q: Q, item: Item, at: Position, peek: bool)
    ensures BothTaken(q, SendCritical(q, item, at)) && BothTaken(q, ReceiveCritical(q, peek))
    ensures BothTaken(q, SendFromIsr(q, item, at)) && BothTaken(q, ReceiveFromIsr(q))
    ensures BothTaken(q, Reset(q)) && BothTaken(q, UnlockTx(q)) && BothTaken(q, UnlockRx(q))
  {
    hide Put, HasRoom, Bump, Taken, Behead, Head, Paid;
    HeadTaken(q.rx);
    HeadTaken(q.tx);
    PrefixTaken(q.rx, Paid(q.txLock, q.rx));
    PrefixTaken(q.tx, Paid(q.rxLock, q.tx));
  }

  lemma HeadTaken(list: seq<Task>)
    ensures Taken(list, Behead(list), Head(list)) && Taken(list, list, [])
  {
  }

  lemma PrefixTaken(list: seq<Task>, k: nat)
    requires k <= |list|
    ensures Taken(list, list[k..], list[..k])
  {
  }

  ghost predicate NoLessUrgent(key: Task -> nat, woke: set<Task>, left: seq<Task>) {
    forall t, u :: t in woke && u in left ==> key(t) <= key(u)
  }

  lemma TakenUrgent(key: Task -> nat, was: seq<Task>, now: seq<Task>, woke: seq<Task>)
    requires Ordered(key, was) && Taken(was, now, woke)
    ensures NoLessUrgent(key, Elements(woke), now)
  {
    forall t, u | t in Elements(woke) && u in now ensures key(t) <= key(u) {
      var i :| 0 <= i < |woke| && woke[i] == t;
      var j :| 0 <= j < |now| && now[j] == u;
      assert was[i] == t && was[|woke| + j] == u;
    }
  }

  lemma EffectUrgent(key: Task -> nat, q: Q, r: (Q, Effect))
    requires Ordered(key, q.rx) && Ordered(key, q.tx) && BothTaken(q, r)
    ensures NoLessUrgent(key, Elements(r.1.wokeRx), r.0.rx) && NoLessUrgent(key, Elements(r.1.wokeTx), r.0.tx)
  {
    hide Ordered, Taken, NoLessUrgent, Elements;
    TakenUrgent(key, q.rx, r.0.rx, r.1.wokeRx);
    TakenUrgent(key, q.tx, r.0.tx, r.1.wokeTx);
  }

  ghost predicate UrgentFirst(key: Task -> nat, s: Sys, e: Sys) {
    NoLessUrgent(key, e.rxWoken - s.rxWoken, e.q.rx) && NoLessUrgent(key, e.txWoken - s.txWoken, e.q.tx)
  }

  lemma FromEffect(key: Task -> nat, s: Sys, e: Sys, r: (Q, Effect))
    requires Ordered(key, s.q.rx) && Ordered(key, s.q.tx) && BothTaken(s.q, r) && e.q == r.0
    requires e.rxWoken <= s.rxWoken + Elements(r.1.wokeRx) && e.txWoken <= s.txWoken + Elements(r.1.wokeTx)
    ensures UrgentFirst(key, s, e)
  {
    hide Ordered, BothTaken, Elements;
    EffectUrgent(key, s.q, r);
  }

  lemma FromNothing(key: Task -> nat, s: Sys, e: Sys)
    requires e.rxWoken <= s.rxWoken && e.txWoken <= s.txWoken
    ensures UrgentFirst(key, s, e)
  {
  }

  lemma CriticalUrgent(key: Task -> nat, s: Sys, t: Task, k: Kind, mayBlock: bool)
    requires Ordered(key, s.q.rx) && Ordered(key, s.q.tx)
    ensures UrgentFirst(key, s, AfterCritical(s, t, k, mayBlock))
  {
    hide Ordered, BothTaken, UrgentFirst, SendCritical, ReceiveCritical, Elements;
    var e := AfterCritical(s, t, k, mayBlock);
    if k.Send? { CallsTake(s.q, k.item, k.at, false); } else { CallsTake(s.q, [], Back, k.Peek?); }
    var r := if k.Send? then SendCritical(s.q, k.item, k.at) else ReceiveCritical(s.q, k.Peek?);
    if r.1.ok { FromEffect(key, s, e, r); } else { FromNothing(key, s, e); }
  }

  /** Whoever a step takes off a list is no less urgent than everybody it leaves there. */
  lemma WokenUrgent(key: Task -> nat, s: Sys, step: Step)
    requires Ordered(key, s.q.rx) && Ordered(key, s.q.tx)
    ensures UrgentFirst(key, s, Next(key, s, step))
  {
    hide Ordered, BothTaken, UrgentFirst, SendFromIsr, ReceiveFromIsr, Lock, Reset, UnlockTx, UnlockRx, Elements, PcOf, MayRun, AfterCritical, Place,
         Without;
    var e := Next(key, s, step);
    CallsTake(s.q, if step.IsrSend? then step.item else [], if step.IsrSend? then step.at else Back, false);
    if e.rxWoken <= s.rxWoken && e.txWoken <= s.txWoken { FromNothing(key, s, e); } else {
      match step
      case Critical(t, mayBlock) => CriticalUrgent(key, s, t, PcOf(s, t).k, mayBlock);
      case IsrSend(item, at) => FromEffect(key, s, e, SendFromIsr(s.q, item, at));
      case IsrReceive => FromEffect(key, s, e, ReceiveFromIsr(s.q));
      case ResetQueue => FromEffect(key, s, e, Reset(s.q));
      case ReleaseTx(t) => FromEffect(key, s, e, UnlockTx(s.q));
      case ReleaseRx(t) => FromEffect(key, s, e, UnlockRx(s.q));
      case _ =>
    }
  }

  /** Both event lists are ordered in every run, so whoever is woken is no less urgent than who stays. */
  lemma {:induction false} RunOrdered(key: Task -> nat, s: Sys, steps: seq<Step>)
    requires Ordered(key, s.q.rx) && Ordered(key, s.q.tx)
    ensures Ordered(key, Run(key, s, steps).q.rx) && Ordered(key, Run(key, s, steps).q.tx)
  {
    hide Next, Ordered;
    if steps != [] {
      RunOrdered(key, s, steps[..|steps| - 1]);
      NextOrdered(key, Run(key, s, steps[..|steps| - 1]), steps[|steps| - 1]);
    }
  }

  // ---------- where the guarantee ends ----------

  lemma {:induction false} RunAppend(key: Task -> nat, s: Sys, a: seq<Step>, b: seq<Step>)
    ensures Run(key, s, a + b) == Run(key, Run(key, s, a), b)
  {
    hide Next;
    if b == [] {
      assert a + b == a;
    } else {
      assert (a + b)[..|a + b| - 1] == a + b[..|b| - 1];
      RunAppend(key, s, a, b[..|b| - 1]);
    }
  }

  lemma RunMore(key: Task -> nat, s: Sys, a: seq<Step>, step: Step)
    ensures Run(key, s, a + [step]) == Next(key, Run(key, s, a), step)
  {
    hide Next;
    assert (a + [step])[..|a|] == a;
  }

  /** A task is turned away by its critical section and locks the queue. */
  function Enter(t: Task, k: Kind): seq<Step> { [Start(t, k)] + [Critical(t, true)] + [SuspendAll(t)] + [TakeLock(t)] }

  /** A task that finds nothing to do goes to sleep, nobody interfering. */
  function Sleep(t: Task, k: Kind): seq<Step> {
    Enter(t, k) + [Check(t, false)] + [Enlist(t)] + [ReleaseTx(t)] + [ReleaseRx(t)] + [ResumeAll(t)]
  }

  function Enlisted1(q: Q, t: Task, k: Kind, key: Task -> nat): Q {
    if k.Send? then q.(tx := Place(q.tx, t, key)) else q.(rx := Place(q.rx, t, key))
  }

  predicate Settled(s: Sys) { s.suspender == NOBODY && s.q.txLock == UNLOCKED && s.q.rxLock == UNLOCKED }

  lemma Enters(key: Task -> nat, s: Sys, t: Task, k: Kind)
    requires Settled(s) && PcOf(s, t).Idle? && MustWait(s.q, k) && t !in s.rxWoken && t !in s.txWoken
    requires k.Send? ==> !k.at.Overwrite?
    ensures Run(key, s, Enter(t, k)) == At(s, t, Locked(k)).(suspender := t, q := Lock(s.q))
  {
    hide MustWait, Next;
    assert Run(key, s, []) == s;
    var steps := [Start(t, k)];
    assert [] + steps == steps;
    RunMore(key, s, [], Start(t, k));
    TurnedAway(key, s, t, k);
    RunMore(key, s, steps, Critical(t, true));
    steps := steps + [Critical(t, true)];
    LocksUp(key, s, t, k);
    RunMore(key, s, steps, SuspendAll(t));
    RunMore(key, s, steps + [SuspendAll(t)], TakeLock(t));
  }

  lemma FallsAsleep(key: Task -> nat, s: Sys, t: Task, k: Kind)
    requires Settled(s) && PcOf(s, t).Idle? && MustWait(s.q, k) && t !in s.rxWoken && t !in s.txWoken
    requires k.Send? ==> !k.at.Overwrite?
    ensures Run(key, s, Sleep(t, k)) == At(s, t, Blocked(k)).(q := Enlisted1(s.q, t, k, key))
  {
    hide Enlisted1, MustWait, Next, Enter;
    Enters(key, s, t, k);
    var steps := Enter(t, k);
    LinesUp(key, s, t, k);
    RunMore(key, s, steps, Check(t, false));
    steps := steps + [Check(t, false)];
    RunMore(key, s, steps, Enlist(t));
    Unlocks(key, s, Run(key, s, steps + [Enlist(t)]), t, k, steps + [Enlist(t)]);
  }

  lemma TurnedAway(key: Task -> nat, s: Sys, t: Task, k: Kind)
    requires Settled(s) && PcOf(s, t).Idle? && MustWait(s.q, k) && t !in s.rxWoken && t !in s.txWoken
    requires k.Send? ==> !k.at.Overwrite?
    ensures Next(key, s, Start(t, k)) == At(s, t, Top(k))
    ensures Next(key, At(s, t, Top(k)), Critical(t, true)) == At(s, t, Gap(k))
  {
    assert s.rxWoken - {t} == s.rxWoken && s.txWoken - {t} == s.txWoken;
  }

  lemma LocksUp(key: Task -> nat, s: Sys, t: Task, k: Kind)
    requires Settled(s)
    ensures Next(key, At(s, t, Gap(k)), SuspendAll(t)) == At(s, t, Suspended(k)).(suspender := t)
    ensures Next(key, At(s, t, Suspended(k)).(suspender := t), TakeLock(t)) == At(s, t, Locked(k)).(suspender := t, q := Lock(s.q))
  {
  }

  lemma LinesUp(key: Task -> nat, s: Sys, t: Task, k: Kind)
    requires Settled(s) && MustWait(s.q, k)
    ensures var locked, checked := At(s, t, Locked(k)).(suspender := t, q := Lock(s.q)), At(s, t, Checked(k)).(suspender := t, q := Lock(s.q));
      Next(key, locked, Check(t, false)) == checked &&
      Next(key, checked, Enlist(t)) == At(s, t, Unlocking(k, Wait)).(suspender := t, q := Enlisted1(Lock(s.q), t, k, key))
  {
    hide Next, Place;
    FindsNothing(key, s, t, k);
    Enlists(key, At(s, t, Checked(k)).(suspender := t, q := Lock(s.q)), t, k);
  }

  lemma FindsNothing(key: Task -> nat, s: Sys, t: Task, k: Kind)
    requires Settled(s) && MustWait(s.q, k)
    ensures Next(key, At(s, t, Locked(k)).(suspender := t, q := Lock(s.q)), Check(t, false)) ==
      At(s, t, Checked(k)).(suspender := t, q := Lock(s.q))
  {
  }

  lemma Enlists(key: Task -> nat, s: Sys, t: Task, k: Kind)
    requires s.suspender == t && PcOf(s, t) == Checked(k)
    ensures Next(key, s, Enlist(t)) == At(s, t, Unlocking(k, Wait)).(q := Enlisted1(s.q, t, k, key))
  {
  }

  lemma Unlocks(key: Task -> nat, s: Sys, s6: Sys, t: Task, k: Kind, steps: seq<Step>)
    requires Settled(s) && s6 == At(s, t, Unlocking(k, Wait)).(suspender := t, q := Enlisted1(Lock(s.q), t, k, key))
    requires Run(key, s, steps) == s6
    ensures Run(key, s, steps + [ReleaseTx(t)] + [ReleaseRx(t)] + [ResumeAll(t)]) ==
      At(s, t, Blocked(k)).(q := Enlisted1(s.q, t, k, key))
  {
    hide Enlisted1, Next, At;
    PaysNobody(key, s, t, k);
    RunMore(key, s, steps, ReleaseTx(t));
    RunMore(key, s, steps + [ReleaseTx(t)], ReleaseRx(t));
    RunMore(key, s, steps + [ReleaseTx(t)] + [ReleaseRx(t)], ResumeAll(t));
  }

  /** Unlocking a queue that nobody touched while it was locked. */
  lemma PaysNobody(key: Task -> nat, s: Sys, t: Task, k: Kind)
    requires Settled(s)
    ensures var s6 := At(s, t, Unlocking(k, Wait)).(suspender := t, q := Enlisted1(Lock(s.q), t, k, key));
      Next(key, Next(key, Next(key, s6, ReleaseTx(t)), ReleaseRx(t)), ResumeAll(t)) == At(s, t, Blocked(k)).(q := Enlisted1(s.q, t, k, key))
  {
    hide Place, Next;
    var q := Enlisted1(Lock(s.q), t, k, key);
    PaysNoReceiver(key, s, t, k, Wait, q);
    PaysNoSender(key, s, t, k, Wait, q.(txLock := UNLOCKED));
    Resumes(key, s, t, k, q.(txLock := UNLOCKED, rxLock := UNLOCKED));
  }

  lemma PaysNoReceiver(key: Task -> nat, s: Sys, t: Task, k: Kind, out: Outcome, q: Q)
    requires q.txLock <= LOCKED_UNMODIFIED
    ensures Next(key, At(s, t, Unlocking(k, out)).(suspender := t, q := q), ReleaseTx(t)) ==
      At(s, t, HalfUnlocked(k, out)).(suspender := t, q := q.(txLock := UNLOCKED))
  {
    assert Elements([]) == {} && s.rxWoken + {} == s.rxWoken && s.txWoken + {} == s.txWoken && q.rx[0..] == q.rx;
  }

  lemma PaysNoSender(key: Task -> nat, s: Sys, t: Task, k: Kind, out: Outcome, q: Q)
    requires q.rxLock <= LOCKED_UNMODIFIED
    ensures Next(key, At(s, t, HalfUnlocked(k, out)).(suspender := t, q := q), ReleaseRx(t)) ==
      At(s, t, Unlocked(k, out)).(suspender := t, q := q.(rxLock := UNLOCKED))
  {
    assert Elements([]) == {} && s.rxWoken + {} == s.rxWoken && s.txWoken + {} == s.txWoken && q.tx[0..] == q.tx;
  }

  lemma Resumes(key: Task -> nat, s: Sys, t: Task, k: Kind, q: Q)
    requires Settled(s)
    ensures Next(key, At(s, t, Unlocked(k, Wait)).(suspender := t, q := q), ResumeAll(t)) == At(s, t, Blocked(k)).(q := q)
    ensures Next(key, At(s, t, Unlocked(k, Retry)).(suspender := t, q := q), ResumeAll(t)) == At(s, t, Top(k)).(q := q)
  {
  }

  // ---------- a reset can strand a sender ----------

  /** A run in which a queue's reset leaves a sender asleep beside free room with nobody else about: two tasks block on
      a full queue, the reset lets the first go, and the first sends its item. */
  lemma ResetStrandsSender(key: Task -> nat, s: Sys, a: Task, b: Task, item: Item)
    requires Initial(s) && |s.q.items| == s.q.length >= 2 && a != b && key(a) <= key(b)
    ensures var k := Send(item, Back);
      var e := Run(key, s, Sleep(a, k) + Sleep(b, k) + [ResetQueue] + [Awake(a)] + [Critical(a, true)]);
      e.q.tx == [b] && PcOf(e, b) == Blocked(k) && Free(e.q) > 0 && e.txWoken == {} && e.suspender == NOBODY &&
      (forall t: Task :: t != b ==> PcOf(e, t).Idle?) && !TxCovered(e)
  {
    hide Run, Next;
    var k := Send(item, Back);
    var s1 := At(s, a, Blocked(k)).(q := s.q.(tx := [a]));
    PlaceAlone(a, key);
    FallsAsleep(key, s, a, k);
    var s2 := At(s1, b, Blocked(k)).(q := s.q.(tx := [a, b]));
    PlaceBehind(a, b, key);
    FallsAsleep(key, s1, b, k);
    RunAppend(key, s, Sleep(a, k), Sleep(b, k));
    var steps := Sleep(a, k) + Sleep(b, k);
    assert Run(key, s, steps) == s2;
    RunMore(key, s, steps, ResetQueue);
    RunMore(key, s, steps + [ResetQueue], Awake(a));
    RunMore(key, s, steps + [ResetQueue] + [Awake(a)], Critical(a, true));
    OneLetGo(key, s2, a, b, k);
  }

  lemma PlaceAlone(a: Task, key: Task -> nat)
    ensures Place([], a, key) == [a]
  {
  }

  lemma PlaceBehind(a: Task, b: Task, key: Task -> nat)
    requires key(a) <= key(b)
    ensures Place([a], b, key) == [a, b]
  {
    assert Keys([a], key) == [key(a)];
  }

  lemma OneLetGo(key: Task -> nat, s: Sys, a: Task, b: Task, k: Kind)
    requires a != b && k.Send? && k.at.Back? && s.q.length >= 2 && Settled(s) && s.q.rx == [] && s.q.tx == [a, b] && s.txWoken == {}
    requires PcOf(s, a) == Blocked(k)
    ensures var e := Next(key, Next(key, Next(key, s, ResetQueue), Awake(a)), Critical(a, true));
      e.q.tx == [b] && e.q.length == s.q.length && |e.q.items| == 1 && e.txWoken == {} && e.suspender == NOBODY && e.q.rxLock == UNLOCKED &&
      e.pc == s.pc[a := Idle]
  {
    assert Elements([a]) == {a} && Elements([]) == {};
    var n := Next(key, s, ResetQueue);
    assert n.q.tx == [b] && n.txWoken == {a} && n.pc == s.pc;
    var w := Next(key, n, Awake(a));
    assert w.q == n.q && w.txWoken == {a} && PcOf(w, a) == Top(k);
  }

  // ---------- posts to a locked queue ----------

  /** What interrupts post, in order; a post that finds the queue full is refused. */
  datatype Arrival = Arrival(item: Item, at: Position)

  /** The queue after the posts, and the receivers the posts themselves woke. */
  function Posted(q: Q, posts: seq<Arrival>): (Q, seq<Task>) {
    if posts == [] then (q, [])
    else
      var b, last := Posted(q, posts[..|posts| - 1]), posts[|posts| - 1];
      var r := SendFromIsr(b.0, last.item, last.at);
      (r.0, b.1 + r.1.wokeRx)
  }

  function Accepted(q: Q, posts: seq<Arrival>): nat {
    if posts == [] then 0
    else
      var before := posts[..|posts| - 1];
      Accepted(q, before) + if HasRoom(Posted(q, before).0, posts[|posts| - 1].at) then 1 else 0
  }

  /** Posts beyond the 255th, which find the wrapped count at UNLOCKED. */
  function Direct(n: nat, list: seq<Task>): (k: nat)
    ensures k <= |list|
  {
    if n <= 255 then 0 else if n - 255 <= |list| then n - 255 else |list|
  }

  /** One more post, n accepted before it. */
  lemma PostCounted(q: Q, b: Q, post: Arrival, n: nat)
    requires b.txLock == (if n <= 127 then n else if n <= 254 then n - 256 else UNLOCKED) && b.rx == q.rx[Direct(n, q.rx)..]
    ensures var r, m := SendFromIsr(b, post.item, post.at), n + if HasRoom(b, post.at) then 1 else 0;
      r.0.txLock == (if m <= 127 then m else if m <= 254 then m - 256 else UNLOCKED) &&
      q.rx[..Direct(n, q.rx)] + r.1.wokeRx == q.rx[..Direct(m, q.rx)] && r.0.rx == q.rx[Direct(m, q.rx)..]
  {
    hide Put;
    var d := Direct(n, q.rx);
    if d < |q.rx| { assert q.rx[..d] + [q.rx[d]] == q.rx[..d + 1] && q.rx[d..][1..] == q.rx[d + 1..]; }
  }

  lemma DirectFrom(n: nat, list: seq<Task>)
    ensures n <= 255 ==> Direct(n, list) == 0
  {
  }

  lemma {:induction false} PostsCounted(q: Q, posts: seq<Arrival>)
    requires q.txLock == LOCKED_UNMODIFIED
    ensures var n, p := Accepted(q, posts), Posted(q, posts);
      p.0.txLock == (if n <= 127 then n else if n <= 254 then n - 256 else UNLOCKED) &&
      p.1 == q.rx[..Direct(n, q.rx)] && p.0.rx == q.rx[Direct(n, q.rx)..]
  {
    hide Put, SendFromIsr, HasRoom, Direct;
    if posts == [] {
      DirectFrom(0, q.rx);
    } else {
      var before, last := posts[..|posts| - 1], posts[|posts| - 1];
      PostsCounted(q, before);
      var n, b := Accepted(q, before), Posted(q, before).0;
      PostCounted(q, b, last, n);
    }
  }

  /** Interrupt posts to a locked queue, each of them owing a receiver its wakeup: with the unlock, as many are woken
      as posts were accepted, up to all that wait, if and only if the eight-bit count did not wrap, nobody waits, or the
      posts after it came to rest at UNLOCKED woke everybody themselves. */
  lemma LockPaysUpTo127(q: Q, posts: seq<Arrival>)
    requires q.txLock == LOCKED_UNMODIFIED
    ensures var n, p := Accepted(q, posts), Posted(q, posts);
      |p.1| + |UnlockTx(p.0).1.wokeRx| == (if n < |q.rx| then n else |q.rx|) <==>
        n <= 127 || q.rx == [] || (n >= 256 && |q.rx| <= n - 255)
  {
    hide Posted, Accepted, UnlockTx;
    PostsCounted(q, posts);
    UnlockCount(Posted(q, posts).0);
  }

  lemma UnlockCount(q: Q)
    ensures |UnlockTx(q).1.wokeRx| == Paid(q.txLock, q.rx)
  {
  }

  function Burst(posts: seq<Arrival>): (steps: seq<Step>)
    ensures |steps| == |posts|
  {
    seq(|posts|, i requires 0 <= i < |posts| => IsrSend(posts[i].item, posts[i].at))
  }

  /** Interrupts posting one after the other are a run of the protocol. */
  lemma {:induction false} BurstRuns(key: Task -> nat, s: Sys, posts: seq<Arrival>)
    requires forall i :: 0 <= i < |posts| ==> !posts[i].at.Overwrite?
    ensures var p := Posted(s.q, posts);
      Run(key, s, Burst(posts)) == s.(q := p.0, rxWoken := s.rxWoken + Elements(p.1))
  {
    hide SendFromIsr;
    if posts == [] {
      assert Elements([]) == {} && s.rxWoken + {} == s.rxWoken;
    } else {
      var before, last := posts[..|posts| - 1], posts[|posts| - 1];
      BurstRuns(key, s, before);
      assert Burst(posts)[..|posts| - 1] == Burst(before);
      OnePost(key, Run(key, s, Burst(before)), last);
      var p, r := Posted(s.q, before), SendFromIsr(Posted(s.q, before).0, last.item, last.at);
      assert Elements(p.1 + r.1.wokeRx) == Elements(p.1) + Elements(r.1.wokeRx);
      assert s.rxWoken + (Elements(p.1) + Elements(r.1.wokeRx)) == s.rxWoken + Elements(p.1) + Elements(r.1.wokeRx);
    }
  }

  lemma OnePost(key: Task -> nat, s: Sys, post: Arrival)
    requires !post.at.Overwrite?
    ensures var r := SendFromIsr(s.q, post.item, post.at);
      Next(key, s, IsrSend(post.item, post.at)) == s.(q := r.0, rxWoken := s.rxWoken + Elements(r.1.wokeRx))
  {
    assert Elements([]) == {} && s.txWoken + {} == s.txWoken;
  }

  /** The same post over and over, to the back. */
  function Flood(item: Item, n: nat): (posts: seq<Arrival>)
    ensures |posts| == n && forall i :: 0 <= i < n ==> posts[i] == Arrival(item, Back)
  {
    seq(n, _ => Arrival(item, Back))
  }

  lemma {:induction false} FloodFits(q: Q, item: Item, n: nat)
    requires |q.items| + n <= q.length
    ensures Accepted(q, Flood(item, n)) == n
    ensures var p := Posted(q, Flood(item, n)).0; |p.items| == |q.items| + n && p == q.(items := p.items, rx := p.rx, txLock := p.txLock)
  {
    if n > 0 {
      FloodFits(q, item, n - 1);
      assert Flood(item, n)[..n - 1] == Flood(item, n - 1);
    }
  }

  lemma Uncovered(s: Sys)
    requires s.q.rx != [] && s.q.txLock == UNLOCKED && |s.q.items| > |s.rxWoken|
    ensures !RxCovered(s)
  {
  }

  lemma FloodedQueue(key: Task -> nat, s: Sys, item: Item, a: Task) returns (q: Q)
    requires s.q.items == [] && s.q.length >= 128 && s.q.rx == [a] && s.q.txLock == LOCKED_UNMODIFIED && s.rxWoken == {}
    ensures Run(key, s, Burst(Flood(item, 128))) == s.(q := q) && |q.items| == 128 && q.rx == [a] && q.txLock == -128
    ensures q == s.q.(items := q.items, txLock := -128)
  {
    hide Run, Next, Posted, Accepted, Burst, Flood;
    var posts := Flood(item, 128);
    BurstRuns(key, s, posts);
    FloodFits(s.q, item, 128);
    PostsCounted(s.q, posts);
    assert Elements([]) == {} && s.rxWoken + {} == s.rxWoken;
    q := Posted(s.q, posts).0;
  }

  /** The lock's holder finds items and leaves; nobody is paid. */
  lemma Leaves(key: Task -> nat, s: Sys, s1: Sys, b: Task, q: Q, steps: seq<Step>)
    requires Settled(s1) && Run(key, s, steps) == At(s1, b, Locked(Receive)).(suspender := b, q := q)
    requires q.items != [] && q.txLock <= LOCKED_UNMODIFIED && q.rxLock <= LOCKED_UNMODIFIED && q.tx == []
    requires s1.rxWoken == s1.txWoken == {}
    ensures Run(key, s, steps + [Check(b, false)] + [ReleaseTx(b)] + [ReleaseRx(b)] + [ResumeAll(b)] + [Critical(b, true)]) ==
      At(s1, b, Idle).(q := q.(txLock := UNLOCKED, rxLock := UNLOCKED, items := q.items[1..]))
  {
    hide Run, Next;
    FindsItems(key, s1, b, q);
    RunMore(key, s, steps, Check(b, false));
    var u := steps + [Check(b, false)];
    PaysNoReceiver(key, s1, b, Receive, Retry, q);
    RunMore(key, s, u, ReleaseTx(b));
    PaysNoSender(key, s1, b, Receive, Retry, q.(txLock := UNLOCKED));
    RunMore(key, s, u + [ReleaseTx(b)], ReleaseRx(b));
    Resumes(key, s1, b, Receive, q.(txLock := UNLOCKED, rxLock := UNLOCKED));
    RunMore(key, s, u + [ReleaseTx(b)] + [ReleaseRx(b)], ResumeAll(b));
    TakesOne(key, s1, b, q.(txLock := UNLOCKED, rxLock := UNLOCKED));
    RunMore(key, s, u + [ReleaseTx(b)] + [ReleaseRx(b)] + [ResumeAll(b)], Critical(b, true));
  }

  lemma FindsItems(key: Task -> nat, s: Sys, b: Task, q: Q)
    requires q.items != []
    ensures Next(key, At(s, b, Locked(Receive)).(suspender := b, q := q), Check(b, false)) ==
      At(s, b, Unlocking(Receive, Retry)).(suspender := b, q := q)
  {
  }

  lemma TakesOne(key: Task -> nat, s: Sys, b: Task, q: Q)
    requires Settled(s) && q.items != [] && q.tx == [] && s.rxWoken == s.txWoken == {}
    ensures Next(key, At(s, b, Top(Receive)).(q := q), Critical(b, true)) == At(s, b, Idle).(q := q.(items := q.items[1..]))
  {
    assert Elements([]) == {} && s.rxWoken - {b} == {} && s.txWoken - {b} == {} && q.rx[0..] == q.rx;
  }

  /** The wrap reached by a run: a receiver sleeps on an empty queue, a second one locks it, interrupts post 128 items,
      and the unlock wakes nobody. The second takes one item; the first sleeps on beside 127 with nobody else about. */
  function WrapRun(a: Task, b: Task, item: Item): seq<Step> {
    Sleep(a, Receive) + Enter(b, Receive) + Burst(Flood(item, 128)) +
    [Check(b, false)] + [ReleaseTx(b)] + [ReleaseRx(b)] + [ResumeAll(b)] + [Critical(b, true)]
  }

  lemma WrapStrandsReceiver(key: Task -> nat, s: Sys, a: Task, b: Task, item: Item)
    requires Initial(s) && s.q.items == [] && s.q.length >= 128 && a != b
    ensures var e := Run(key, s, WrapRun(a, b, item));
      e.q.rx == [a] && PcOf(e, a) == Blocked(Receive) && |e.q.items| == 127 && e.rxWoken == {} && e.suspender == NOBODY &&
      (forall t: Task :: t != a ==> PcOf(e, t).Idle?) && !RxCovered(e)
  {
    hide Run, Next, Sleep, Enter, Flood, Burst, RxCovered;
    var s1 := At(s, a, Blocked(Receive)).(q := s.q.(rx := [a]));
    PlaceAlone(a, key);
    FallsAsleep(key, s, a, Receive);
    Enters(key, s1, b, Receive);
    RunAppend(key, s, Sleep(a, Receive), Enter(b, Receive));
    var steps, burst := Sleep(a, Receive) + Enter(b, Receive), Burst(Flood(item, 128));
    var s2 := At(s1, b, Locked(Receive)).(suspender := b, q := Lock(s1.q));
    var q := FloodedQueue(key, s2, item, a);
    RunAppend(key, s, steps, burst);
    Leaves(key, s, s1, b, q, steps + burst);
    Uncovered(Run(key, s, WrapRun(a, b, item)));
  }
}
