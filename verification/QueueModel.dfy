/**
 FreeRTOS/queue.c as values: what each critical section does to a queue's items, its two event lists
 and its two lock counts. Mutexes, queue sets and tracing are not modelled.
 */
module QueueModel {
  import opened ListSeq

  type Item = seq<bv8>
  type Task = nat

  datatype Position = Back | Front | Overwrite

  const UNLOCKED := -1
  const LOCKED_UNMODIFIED := 0

  /** items oldest first; rx/tx: tasks waiting to receive/send, most urgent first. */
  datatype Q = Q(items: seq<Item>, length: nat, rx: seq<Task>, tx: seq<Task>, rxLock: int, txLock: int)

  /** What a critical section did besides changing the queue. */
  datatype Effect = Effect(ok: bool, wokeRx: seq<Task>, wokeTx: seq<Task>)

  const NOTHING := Effect(true, [], [])
  const REFUSED := Effect(false, [], [])

  function Put(items: seq<Item>, item: Item, at: Position): seq<Item> {
    match at
    case Back => items + [item]
    case Front => [item] + items
    case Overwrite => if items == [] then [item] else [item] + items[..|items| - 1]
  }

  predicate HasRoom(q: Q, at: Position) { |q.items| < q.length || at.Overwrite? }

  function Head(list: seq<Task>): seq<Task> { if list == [] then [] else [list[0]] }

  function Behead(list: seq<Task>): seq<Task> { if list == [] then [] else list[1..] }

  /** (int8_t)(lock + 1). */
  function Bump(lock: int): int { if lock == 127 then -128 else lock + 1 }

  /** Task-level send: on success the most urgent waiting receiver is taken off its list, locked or not. */
  function SendCritical(q: Q, item: Item, at: Position): (Q, Effect) {
    if HasRoom(q, at) then (q.(items := Put(q.items, item, at), rx := Behead(q.rx)), Effect(true, Head(q.rx), []))
    else (q, REFUSED)
  }

  /** ISR send: the event list is touched only while unlocked, otherwise the post is counted. */
  function SendFromIsr(q: Q, item: Item, at: Position): (Q, Effect) {
    if !HasRoom(q, at) then (q, REFUSED)
    else
      var q1 := q.(items := Put(q.items, item, at));
      if q.txLock == UNLOCKED then (q1.(rx := Behead(q.rx)), Effect(true, Head(q.rx), []))
      else (q1.(txLock := Bump(q.txLock)), NOTHING)
  }

  function ReceiveCritical(q: Q, peek: bool): (Q, Effect) {
    if q.items == [] then (q, REFUSED)
    else if peek then (q.(rx := Behead(q.rx)), Effect(true, Head(q.rx), []))
    else (q.(items := q.items[1..], tx := Behead(q.tx)), Effect(true, [], Head(q.tx)))
  }

  function ReceiveFromIsr(q: Q): (Q, Effect) {
    if q.items == [] then (q, REFUSED)
    else
      var q1 := q.(items := q.items[1..]);
      if q.rxLock == UNLOCKED then (q1.(tx := Behead(q.tx)), Effect(true, [], Head(q.tx)))
      else (q1.(rxLock := Bump(q.rxLock)), NOTHING)
  }

  function Lock(q: Q): Q {
    q.(rxLock := if q.rxLock == UNLOCKED then LOCKED_UNMODIFIED else q.rxLock,
       txLock := if q.txLock == UNLOCKED then LOCKED_UNMODIFIED else q.txLock)
  }

  /** How many waiters a lock count pays for. */
  function Debt(lock: int): nat { if lock > LOCKED_UNMODIFIED then lock else 0 }

  function Paid(lock: int, list: seq<Task>): (k: nat)
    ensures k <= |list|
  {
    if Debt(lock) < |list| then Debt(lock) else |list|
  }

  function UnlockTx(q: Q): (Q, Effect) {
    var k := Paid(q.txLock, q.rx);
    (q.(rx := q.rx[k..], txLock := UNLOCKED), Effect(true, q.rx[..k], []))
  }

  function UnlockRx(q: Q): (Q, Effect) {
    var k := Paid(q.rxLock, q.tx);
    (q.(tx := q.tx[k..], rxLock := UNLOCKED), Effect(true, [], q.tx[..k]))
  }

  /** Reset of a live queue: empty, unlocked, and one sender let go. */
  function Reset(q: Q): (Q, Effect) {
    (q.(items := [], rxLock := UNLOCKED, txLock := UNLOCKED, tx := Behead(q.tx)), Effect(true, [], Head(q.tx)))
  }

  /** vTaskPlaceOnEventList: by urgency key, behind equals (vListInsert). */
  function Place(list: seq<Task>, t: Task, key: Task -> nat): seq<Task> {
    InsertAt(list, LeadingAtMost(Keys(list, key), key(t)), t)
  }

  function Keys(list: seq<Task>, key: Task -> nat): (ks: seq<nat>)
    ensures |ks| == |list| && forall i :: 0 <= i < |list| ==> ks[i] == key(list[i])
  {
    seq(|list|, i requires 0 <= i < |list| => key(list[i]))
  }

  lemma PlaceKeepsOrder(list: seq<Task>, t: Task, key: Task -> nat)
    requires Ascending(Keys(list, key))
    ensures Ascending(Keys(Place(list, t, key), key))
  {
    var k := LeadingAtMost(Keys(list, key), key(t));
    SortedInsert(Keys(list, key), key(t));
    assert Keys(Place(list, t, key), key) == InsertAt(Keys(list, key), k, key(t));
  }

  // ---------- whole runs: nothing is lost, duplicated or reordered ----------

  datatype Op = Post(item: Item, at: Position, isr: bool) | Take(isr: bool) | Look

  /** The queue after some operations, with every item accepted and every item delivered, in order. */
  datatype Log = Log(q: Q, accepted: seq<Item>, delivered: seq<Item>)

  function Apply(l: Log, op: Op): Log {
    match op
    case Post(item, at, isr) =>
      var r := if isr then SendFromIsr(l.q, item, at) else SendCritical(l.q, item, at);
      Log(r.0, if r.1.ok then l.accepted + [item] else l.accepted, l.delivered)
    case Take(isr) =>
      var r := if isr then ReceiveFromIsr(l.q) else ReceiveCritical(l.q, false);
      Log(r.0, l.accepted, if r.1.ok then l.delivered + [l.q.items[0]] else l.delivered)
    case Look => l.(q := ReceiveCritical(l.q, true).0)
  }

  function Applied(l: Log, ops: seq<Op>): Log {
    if ops == [] then l else Apply(Applied(l, ops[..|ops| - 1]), ops[|ops| - 1])
  }

  /** An operation refuses or looks, puts one item in, or hands the head over. */
  lemma ApplyItems(l: Log, op: Op)
    ensures var n := Apply(l, op);
      n.q.length == l.q.length &&
      ((n.q.items == l.q.items && n.accepted == l.accepted && n.delivered == l.delivered) ||
       (op.Post? && HasRoom(l.q, op.at) && n.q.items == Put(l.q.items, op.item, op.at) &&
        n.accepted == l.accepted + [op.item] && n.delivered == l.delivered) ||
       (op.Take? && l.q.items != [] && l.q.items == [l.q.items[0]] + n.q.items && n.accepted == l.accepted &&
        n.delivered == l.delivered + [l.q.items[0]]))
  {
    if l.q.items != [] { assert l.q.items == [l.q.items[0]] + l.q.items[1..]; }
  }

  predicate Only(ops: seq<Op>, overwrite: bool, front: bool) {
    forall i :: 0 <= i < |ops| ==> (ops[i].Post? ==> (ops[i].at.Overwrite? ==> overwrite) && (ops[i].at.Front? ==> front))
  }

  /** Sending to the back only, delivered items followed by waiting items are the accepted items, in order. */
  lemma {:induction false} Fifo(q: Q, ops: seq<Op>)
    requires q.items == [] && Only(ops, false, false)
    ensures var l := Applied(Log(q, [], []), ops); l.delivered + l.q.items == l.accepted
  {
    if ops != [] {
      Fifo(q, ops[..|ops| - 1]);
      ApplyItems(Applied(Log(q, [], []), ops[..|ops| - 1]), ops[|ops| - 1]);
      hide Apply;
    }
  }

  /** Front or back, every accepted item is delivered or waiting, exactly once, and no more than length wait. */
  lemma {:induction false} NothingLost(q: Q, ops: seq<Op>)
    requires q.items == [] && Only(ops, false, true)
    ensures var l := Applied(Log(q, [], []), ops);
      multiset(l.delivered) + multiset(l.q.items) == multiset(l.accepted) && |l.q.items| <= q.length && l.q.length == q.length
  {
    if ops != [] {
      NothingLost(q, ops[..|ops| - 1]);
      ApplyItems(Applied(Log(q, [], []), ops[..|ops| - 1]), ops[|ops| - 1]);
      hide Apply;
    }
  }

  /** Nothing is refused in vain: a send is accepted exactly while fewer than length items are out, a receive delivers
      exactly while an item is, and looking changes neither. */
  lemma {:induction false} RefusedIff(q: Q, ops: seq<Op>, op: Op)
    requires q.items == [] && Only(ops + [op], false, true)
    ensures var l := Applied(Log(q, [], []), ops);
      var n, out := Apply(l, op), |l.accepted| - |l.delivered|;
      (n.accepted == l.accepted + (if op.Post? && out < q.length then [op.item] else [])) &&
      (|n.delivered| == |l.delivered| + if op.Take? && out > 0 then 1 else 0)
  {
    assert ops == (ops + [op])[..|ops|] && op == (ops + [op])[|ops|];
    NothingLost(q, ops);
    var l := Applied(Log(q, [], []), ops);
    assert |multiset(l.delivered) + multiset(l.q.items)| == |multiset(l.accepted)|;
    ApplyItems(l, op);
  }

  /** The items accepted by some sends to the back, without those of a run that came before. */
  function Since(before: Log, after: Log): seq<Item> {
    if |after.accepted| < |before.accepted| then [] else after.accepted[|before.accepted|..]
  }

  /** An item sent to the front is the next to be delivered, before everything that waited and everything sent to the back
      since; those keep their order. Sent to the back, it comes after all that waited. */
  lemma {:induction false} FrontFirst(l: Log, item: Item, isr: bool, ops: seq<Op>)
    requires |l.q.items| < l.q.length && Only(ops, false, false)
    ensures var m := Apply(l, Post(item, Front, isr));
      var n := Applied(m, ops);
      n.delivered + n.q.items == l.delivered + [item] + l.q.items + Since(m, n) &&
      m.accepted == l.accepted + [item] <= n.accepted
  {
    var m := Apply(l, Post(item, Front, isr));
    if ops != [] {
      FrontFirst(l, item, isr, ops[..|ops| - 1]);
      var was := Applied(m, ops[..|ops| - 1]);
      BackStep(was, ops[|ops| - 1]);
      SinceAdds(m, was, Applied(m, ops));
      hide Apply, Since;
    } else {
      ApplyItems(l, Post(item, Front, isr));
    }
  }

  lemma BackStep(l: Log, op: Op)
    requires op.Post? ==> op.at.Back?
    ensures var n := Apply(l, op); l.accepted <= n.accepted && n.delivered + n.q.items == l.delivered + l.q.items + Since(l, n)
  {
    ApplyItems(l, op);
    hide Apply;
    var n := Apply(l, op);
    if n.accepted != l.accepted { assert Since(l, n) == [op.item]; }
  }

  lemma SinceAdds(l: Log, m: Log, n: Log)
    requires l.accepted <= m.accepted <= n.accepted
    ensures Since(l, n) == Since(l, m) + Since(m, n)
  {
  }

  /** A length-one queue used as a mailbox always holds the last accepted item, unless that one was taken. */
  lemma {:induction false} Mailbox(q: Q, ops: seq<Op>)
    requires q.items == [] && q.length == 1
    ensures var l := Applied(Log(q, [], []), ops);
      l.q.length == 1 && |l.q.items| <= 1 && (l.q.items != [] ==> l.accepted != [] && l.q.items == [l.accepted[|l.accepted| - 1]])
  {
    if ops != [] {
      Mailbox(q, ops[..|ops| - 1]);
      ApplyItems(Applied(Log(q, [], []), ops[..|ops| - 1]), ops[|ops| - 1]);
      hide Apply;
    }
  }
}
