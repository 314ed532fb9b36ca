/**
 FreeRTOS/croutine.c: co-routines asleep in two delayed lists that swap when the 32-bit tick count wraps.
 Sleepers are also described without wrap-around: a map from each to the absolute tick at which it is due.
 */
module CoRoutines {
  import opened ListSeq

  const WRAP: nat := 0x1_0000_0000

  type Id = nat

  datatype Entry = Entry(id: Id, wake: nat)

  /** current/overflow: pxDelayedCoRoutineList and pxOverflowDelayedCoRoutineList; pending: readied by interrupts;
      ready: every co-routine put on a ready queue, in order. */
  datatype Sched = Sched(count: nat, current: seq<Entry>, overflow: seq<Entry>, pending: seq<Id>, ready: seq<Id>)

  datatype Step = Delay(id: Id, ticks: nat) | Event(id: Id) | CheckPending | Tick

  function Wakes(list: seq<Entry>): (ws: seq<nat>)
    ensures |ws| == |list| && forall i {:trigger ws[i]} :: 0 <= i < |ws| ==> ws[i] == list[i].wake
  {
    seq(|list|, i requires 0 <= i < |list| => list[i].wake)
  }

  function Ids(list: seq<Entry>): (ids: seq<Id>)
    ensures |ids| == |list| && forall i {:trigger ids[i]} :: 0 <= i < |ids| ==> ids[i] == list[i].id
  {
    seq(|list|, i requires 0 <= i < |list| => list[i].id)
  }

  /** vListInsert by wake time. */
  function Placed(list: seq<Entry>, e: Entry): seq<Entry> { InsertAt(list, LeadingAtMost(Wakes(list), e.wake), e) }

  /** uxListRemove of one co-routine's item. */
  function Removed(list: seq<Entry>, id: Id): seq<Entry> {
    if list == [] then [] else if list[0].id == id then Removed(list[1..], id) else [list[0]] + Removed(list[1..], id)
  }

  predicate Asleep(s: Sched, id: Id) { id in Ids(s.current) || id in Ids(s.overflow) }

  /** vCoRoutineAddToDelayedList */
  function AddDelayed(s: Sched, id: Id, ticks: nat): Sched {
    var wake := (s.count + ticks) % WRAP;
    if wake < s.count then s.(overflow := Placed(s.overflow, Entry(id, wake))) else s.(current := Placed(s.current, Entry(id, wake)))
  }

  /** How many leading sleepers a tick wakes. */
  function Expired(list: seq<Entry>, count: nat): (k: nat)
    ensures k <= |list|
  {
    LeadingAtMost(Wakes(list), count)
  }

  function Without(list: seq<Id>, gone: seq<Id>): seq<Id> {
    if list == [] then [] else (if list[0] in gone then [] else [list[0]]) + Without(list[1..], gone)
  }

  /** One pass of prvCheckDelayedList's loop; a woken co-routine also leaves the event or pending list it is in. */
  function Ticked(s: Sched): Sched {
    var count := (s.count + 1) % WRAP;
    var list := if count == 0 then s.overflow else s.current;
    var other := if count == 0 then s.current else s.overflow;
    var k := Expired(list, count);
    var woken := Ids(list[..k]);
    Sched(count, list[k..], other, Without(s.pending, woken), s.ready + woken)
  }

  /** prvCheckPendingReadyList */
  function PendingChecked(s: Sched): Sched
    decreases |s.pending|
  {
    if s.pending == [] then s
    else
      var id := s.pending[0];
      PendingChecked(Sched(s.count, Removed(s.current, id), Removed(s.overflow, id), s.pending[1..], s.ready + [id]))
  }

  function Next(s: Sched, step: Step): Sched {
    match step
    case Delay(id, ticks) => if !Asleep(s, id) && 1 <= ticks < WRAP then AddDelayed(s, id, ticks) else s
    case Event(id) => if Asleep(s, id) && id !in s.pending then s.(pending := s.pending + [id]) else s
    case CheckPending => PendingChecked(s)
    case Tick => Ticked(s)
  }

  function Run(s: Sched, steps: seq<Step>): Sched {
    if steps == [] then s else Next(Run(s, steps[..|steps| - 1]), steps[|steps| - 1])
  }

  // ---------- the sleepers, without wrap-around ----------

  /** now: ticks since the start; due: the absolute tick each sleeper waits for. */
  datatype Clock = Clock(now: nat, due: map<Id, nat>)

  function Sooner(c: Clock, gone: set<Id>): Clock { Clock(c.now, c.due - gone) }

  function After(s: Sched, c: Clock, step: Step): Clock {
    match step
    case Delay(id, ticks) => if id !in c.due && 1 <= ticks < WRAP then Clock(c.now, c.due[id := c.now + ticks]) else c
    case Event(id) => c
    case CheckPending => Clock(c.now, c.due - (set id | id in s.pending))
    case Tick => Clock(c.now + 1, map id | id in c.due && c.due[id] != c.now + 1 :: c.due[id])
  }

  /** Sleepers of one list wait in this epoch of the tick count, and are listed in wake order. */
  ghost predicate Epoch(list: seq<Entry>, c: Clock, epoch: nat) {
    Ascending(Wakes(list)) && Distinct(Ids(list)) &&
    forall i {:trigger list[i]} :: 0 <= i < |list| ==>
      list[i].id in c.due && c.due[list[i].id] > c.now && c.due[list[i].id] == epoch * WRAP + list[i].wake && list[i].wake < WRAP
  }

  ghost predicate Tracks(s: Sched, c: Clock) {
    s.count == c.now % WRAP && Epoch(s.current, c, c.now / WRAP) && Epoch(s.overflow, c, c.now / WRAP + 1) &&
    (forall id :: id in c.due <==> Asleep(s, id)) &&
    (forall id :: id in Ids(s.current) ==> id !in Ids(s.overflow)) &&
    (forall id :: id in s.pending ==> id in c.due) && Distinct(s.pending)
  }

  lemma EpochSplit(now: nat)
    ensures now == now / WRAP * WRAP + now % WRAP
    ensures if now % WRAP == WRAP - 1 then (now + 1) % WRAP == 0 && (now + 1) / WRAP == now / WRAP + 1
            else (now + 1) % WRAP == now % WRAP + 1 && (now + 1) / WRAP == now / WRAP
  {
  }

  /** The list about to be swapped out is empty: nobody in it can be due after the last tick of its epoch. */
  lemma EmptyAtSwap(s: Sched, c: Clock)
    requires Tracks(s, c) && s.count == WRAP - 1
    ensures s.current == []
  {
    EpochSplit(c.now);
    if s.current != [] { FirstDue(s.current, c, c.now / WRAP); }
  }

  lemma FirstDue(list: seq<Entry>, c: Clock, epoch: nat)
    requires Epoch(list, c, epoch) && list != []
    ensures c.now < epoch * WRAP + list[0].wake < epoch * WRAP + WRAP
  {
  }

  /** The sleepers a tick wakes from its list are exactly those due at that tick; the rest are due later. */
  lemma PrefixIsDue(list: seq<Entry>, c: Clock, epoch: nat, count: nat)
    requires Epoch(list, c, epoch) && epoch * WRAP + count == c.now + 1
    ensures forall i {:trigger list[i]} :: 0 <= i < |list| ==> list[i].id in c.due
    ensures forall i :: 0 <= i < Expired(list, count) ==> c.due[list[i].id] == c.now + 1
    ensures forall i :: Expired(list, count) <= i < |list| ==> c.due[list[i].id] > c.now + 1
  {
    var k, ws := Expired(list, count), Wakes(list);
    forall i | 0 <= i < k ensures c.due[list[i].id] == c.now + 1 {
      assert ws[i] <= count;
    }
    forall i | k <= i < |list| ensures c.due[list[i].id] > c.now + 1 {
      assert ws[k] <= ws[i] || i == k;
    }
  }

  /** What remains of a list stays in order, seen by a later clock that still knows its sleepers. */
  lemma SuffixKeeps(list: seq<Entry>, c: Clock, n: Clock, epoch: nat, k: nat)
    requires Epoch(list, c, epoch) && k <= |list|
    requires forall i {:trigger list[i]} :: k <= i < |list| ==>
      list[i].id in n.due && n.due[list[i].id] == c.due[list[i].id] && n.due[list[i].id] > n.now
    ensures Epoch(list[k..], n, epoch)
  {
    var rest := list[k..];
    assert forall i {:trigger rest[i]} :: 0 <= i < |rest| ==> rest[i] == list[k + i];
    assert forall i :: 0 <= i < |rest| ==> Wakes(rest)[i] == Wakes(list)[k + i] && Ids(rest)[i] == Ids(list)[k + i];
    assert Wakes(rest) == Wakes(list)[k..] && Ids(rest) == Ids(list)[k..];
  }

  /** The list a tick looks at, and the other one, after the swap if there is one. */
  function Looked(s: Sched): seq<Entry> { if (s.count + 1) % WRAP == 0 then s.overflow else s.current }

  function Other(s: Sched): seq<Entry> { if (s.count + 1) % WRAP == 0 then s.current else s.overflow }

  /** Epoch and remainder of the next tick. */
  function Era(c: Clock): nat { (c.now + 1) / WRAP }

  lemma AfterSwap(s: Sched, c: Clock)
    requires Tracks(s, c)
    ensures Era(c) * WRAP + (s.count + 1) % WRAP == c.now + 1 && (s.count + 1) % WRAP == (c.now + 1) % WRAP
    ensures Epoch(Looked(s), c, Era(c)) && Epoch(Other(s), c, Era(c) + 1)
  {
    EpochSplit(c.now);
    EpochSplit(c.now + 1);
    if s.count == WRAP - 1 { EmptyAtSwap(s, c); }
  }

  lemma LaterEpoch(list: seq<Entry>, c: Clock)
    requires Epoch(list, c, Era(c) + 1)
    ensures forall i {:trigger list[i]} :: 0 <= i < |list| ==> list[i].id in c.due && c.due[list[i].id] > c.now + 1
  {
    EpochSplit(c.now + 1);
    forall i {:trigger list[i]} | 0 <= i < |list| ensures c.due[list[i].id] > c.now + 1 {
      assert c.due[list[i].id] == (Era(c) + 1) * WRAP + list[i].wake;
    }
  }

  /** Across the wrap, a tick puts on the ready queues exactly the sleepers due at it. */
  lemma TickWakes(s: Sched, c: Clock)
    requires Tracks(s, c)
    ensures var n, k := Ticked(s), Expired(Looked(s), (s.count + 1) % WRAP);
      n.ready == s.ready + Ids(Looked(s)[..k]) &&
      (forall id :: id in Ids(Looked(s)[..k]) <==> id in c.due && c.due[id] == c.now + 1)
    ensures Tracks(Ticked(s), After(s, c, Tick))
  {
    hide Epoch, Expired, Ticked;
    var list, other := Looked(s), Other(s);
    var k := Expired(list, (s.count + 1) % WRAP);
    TickDue(s, c, k);
    TickLists(s, c, k);
    TickSleepers(s, c, list, other, k);
    IdsCut(list, k);
    WithoutKeeps(s.pending, Ids(list)[..k]);
    TickTracks(s, c, k);
    assert Ticked(s).ready == s.ready + Ids(list[..k]) by { TickedReady(s); }
  }

  lemma TickedReady(s: Sched)
    ensures Ticked(s).ready == s.ready + Ids(Looked(s)[..Expired(Looked(s), (s.count + 1) % WRAP)])
  {
  }

  lemma TickDue(s: Sched, c: Clock, k: nat)
    requires Tracks(s, c) && k == Expired(Looked(s), (s.count + 1) % WRAP)
    ensures k <= |Looked(s)|
    ensures forall i {:trigger Looked(s)[i]} :: 0 <= i < |Looked(s)| ==> Looked(s)[i].id in c.due
    ensures forall i {:trigger Other(s)[i]} :: 0 <= i < |Other(s)| ==> Other(s)[i].id in c.due
    ensures forall i :: 0 <= i < k ==> c.due[Looked(s)[i].id] == c.now + 1
    ensures forall i :: k <= i < |Looked(s)| ==> c.due[Looked(s)[i].id] > c.now + 1
    ensures forall i {:trigger Other(s)[i]} :: 0 <= i < |Other(s)| ==> c.due[Other(s)[i].id] > c.now + 1
  {
    hide Epoch, Looked, Other, Tracks, Era;
    AfterSwap(s, c);
    PrefixIsDue(Looked(s), c, Era(c), (s.count + 1) % WRAP);
    LaterEpoch(Other(s), c);
  }

  lemma TickLists(s: Sched, c: Clock, k: nat)
    requires Tracks(s, c) && k == Expired(Looked(s), (s.count + 1) % WRAP)
    ensures (s.count + 1) % WRAP == (c.now + 1) % WRAP
    ensures Epoch(Looked(s)[k..], After(s, c, Tick), Era(c)) && Epoch(Other(s), After(s, c, Tick), Era(c) + 1)
  {
    hide Epoch, Looked, Other, Tracks, Era, Expired;
    var n := After(s, c, Tick);
    AfterSwap(s, c);
    TickDue(s, c, k);
    SuffixKeeps(Looked(s), c, n, Era(c), k);
    SuffixKeeps(Other(s), c, n, Era(c) + 1, 0);
    assert Other(s)[0..] == Other(s);
  }

  lemma IdsCut(list: seq<Entry>, k: nat)
    requires k <= |list|
    ensures Ids(list[..k]) == Ids(list)[..k] && Ids(list[k..]) == Ids(list)[k..]
  {
  }

  /** Who a tick takes from the looked-at list, and who stays asleep. */
  lemma TickSleepers(s: Sched, c: Clock, list: seq<Entry>, other: seq<Entry>, k: nat)
    requires Tracks(s, c) && list == Looked(s) && other == Other(s) && k <= |list|
    requires forall i :: 0 <= i < k ==> c.due[list[i].id] == c.now + 1
    requires forall i :: k <= i < |list| ==> c.due[list[i].id] > c.now + 1
    requires forall i {:trigger other[i]} :: 0 <= i < |other| ==> c.due[other[i].id] > c.now + 1
    ensures forall id :: id in Ids(list)[..k] <==> id in c.due && c.due[id] == c.now + 1
    ensures forall id :: id in Ids(list)[k..] || id in Ids(other) <==> id in c.due && c.due[id] != c.now + 1
    ensures forall id :: id in Ids(list)[k..] ==> id !in Ids(other)
  {
    PrefixIds(list, c, k);
    PrefixIds(other, c, 0);
    assert Ids(other)[0..] == Ids(other);
    assert Ids(list) == Ids(list)[..k] + Ids(list)[k..];
    hide Epoch, Ids, Distinct;
  }

  lemma PrefixIds(list: seq<Entry>, c: Clock, k: nat)
    requires k <= |list| && forall i {:trigger list[i]} :: 0 <= i < |list| ==>
      list[i].id in c.due && (if i < k then c.due[list[i].id] == c.now + 1 else c.due[list[i].id] > c.now + 1)
    ensures forall id :: id in Ids(list)[..k] ==> id in c.due && c.due[id] == c.now + 1
    ensures forall id :: id in Ids(list)[k..] ==> id in c.due && c.due[id] > c.now + 1
  {
    var ids := Ids(list);
    forall id | id in ids[..k] ensures id in c.due && c.due[id] == c.now + 1 {
      var i :| 0 <= i < k && ids[i] == id;
      assert list[i].id == id;
    }
    forall id | id in ids[k..] ensures id in c.due && c.due[id] > c.now + 1 {
      var i :| k <= i < |ids| && ids[i] == id;
      assert list[i].id == id;
    }
  }

  lemma TickTracks(s: Sched, c: Clock, k: nat)
    requires k == Expired(Looked(s), (s.count + 1) % WRAP)
    requires (s.count + 1) % WRAP == (c.now + 1) % WRAP
    requires Epoch(Looked(s)[k..], After(s, c, Tick), Era(c)) && Epoch(Other(s), After(s, c, Tick), Era(c) + 1)
    requires var ids, others := Ids(Looked(s)), Ids(Other(s));
      (forall id :: id in ids[..k] <==> id in c.due && c.due[id] == c.now + 1) &&
      (forall id :: id in ids[k..] || id in others <==> id in c.due && c.due[id] != c.now + 1) &&
      (forall id :: id in ids[k..] ==> id !in others)
    requires Distinct(Without(s.pending, Ids(Looked(s)[..k]))) && forall id :: id in s.pending ==> id in c.due
    requires forall id :: id in Without(s.pending, Ids(Looked(s)[..k])) <==> id in s.pending && id !in Ids(Looked(s)[..k])
    ensures Tracks(Ticked(s), After(s, c, Tick))
  {
    hide Epoch, Distinct, Without, Expired;
    IdsCut(Looked(s), k);
    var t := Ticked(s);
    assert t.current == Looked(s)[k..] && t.overflow == Other(s);
  }

  lemma {:induction false} WithoutKeeps(list: seq<Id>, gone: seq<Id>)
    requires Distinct(list)
    ensures Distinct(Without(list, gone)) && forall id :: id in Without(list, gone) <==> id in list && id !in gone
  {
    if list != [] {
      WithoutKeeps(list[1..], gone);
      assert list == [list[0]] + list[1..];
      assert list[0] !in list[1..];
      var w, v := Without(list, gone), Without(list[1..], gone);
      if list[0] !in gone {
        assert list[0] !in v;
        assert w == [list[0]] + v;
      }
    }
  }

  // ---------- going to sleep ----------

  lemma PlacedKeeps(list: seq<Entry>, c: Clock, n: Clock, epoch: nat, e: Entry)
    requires Epoch(list, c, epoch) && e.id !in c.due && e.wake < WRAP
    requires n.now == c.now < epoch * WRAP + e.wake && n.due == c.due[e.id := epoch * WRAP + e.wake]
    ensures Epoch(Placed(list, e), n, epoch)
    ensures forall id :: id in Ids(Placed(list, e)) <==> id in Ids(list) || id == e.id
  {
    PlacedLists(list, e);
    assert forall i {:trigger list[i]} :: 0 <= i < |list| ==> Ids(list)[i] in c.due;
    DistinctInsert(Ids(list), LeadingAtMost(Wakes(list), e.wake), e.id);
    SortedInsert(Wakes(list), e.wake);
    PlacedEntries(list, c, n, epoch, e);
    hide Placed, InsertAt, LeadingAtMost;
  }

  lemma PlacedLists(list: seq<Entry>, e: Entry)
    ensures var k := LeadingAtMost(Wakes(list), e.wake);
      Wakes(Placed(list, e)) == InsertAt(Wakes(list), k, e.wake) && Ids(Placed(list, e)) == InsertAt(Ids(list), k, e.id)
  {
    hide InsertAt, LeadingAtMost;
  }

  lemma PlacedEntries(list: seq<Entry>, c: Clock, n: Clock, epoch: nat, e: Entry)
    requires Epoch(list, c, epoch) && e.id !in c.due && e.wake < WRAP
    requires n.now == c.now < epoch * WRAP + e.wake && n.due == c.due[e.id := epoch * WRAP + e.wake]
    ensures var l := Placed(list, e);
      forall i {:trigger l[i]} :: 0 <= i < |l| ==>
        l[i].id in n.due && n.due[l[i].id] > n.now && n.due[l[i].id] == epoch * WRAP + l[i].wake && l[i].wake < WRAP
  {
    hide InsertAt, LeadingAtMost;
  }

  lemma EpochGrows(list: seq<Entry>, c: Clock, n: Clock, epoch: nat, id: Id, due: nat)
    requires Epoch(list, c, epoch) && id !in c.due && n == Clock(c.now, c.due[id := due])
    ensures Epoch(list, n, epoch)
  {
  }

  /** The wake time wraps exactly when the due tick lies in the next epoch. */
  lemma WakeEpoch(now: nat, ticks: nat)
    requires 1 <= ticks < WRAP
    ensures var wake, epoch := (now % WRAP + ticks) % WRAP, now / WRAP + if (now % WRAP + ticks) % WRAP < now % WRAP then 1 else 0;
      now + ticks == epoch * WRAP + wake
  {
    EpochSplit(now);
  }

  lemma DelayTracks(s: Sched, c: Clock, id: Id, ticks: nat)
    requires Tracks(s, c) && !Asleep(s, id) && 1 <= ticks < WRAP
    ensures Tracks(AddDelayed(s, id, ticks), Clock(c.now, c.due[id := c.now + ticks]))
  {
    hide Epoch, Placed;
    WakeEpoch(c.now, ticks);
    var n, e := Clock(c.now, c.due[id := c.now + ticks]), Entry(id, (s.count + ticks) % WRAP);
    EpochGrows(s.current, c, n, c.now / WRAP, id, c.now + ticks);
    EpochGrows(s.overflow, c, n, c.now / WRAP + 1, id, c.now + ticks);
    if e.wake < s.count {
      PlacedKeeps(s.overflow, c, n, c.now / WRAP + 1, e);
    } else {
      PlacedKeeps(s.current, c, n, c.now / WRAP, e);
    }
  }

  // ---------- being readied by an event ----------

  lemma HeadRest(list: seq<Entry>, c: Clock, epoch: nat)
    requires Epoch(list, c, epoch) && list != []
    ensures Epoch(list[1..], c, epoch) && list[0].id !in Ids(list[1..])
    ensures forall i {:trigger list[1..][i]} :: 0 <= i < |list| - 1 ==> list[0].wake <= list[1..][i].wake
    ensures Ids(list) == [list[0].id] + Ids(list[1..])
  {
    var rest := list[1..];
    SuffixKeeps(list, c, c, epoch, 1);
    forall i {:trigger rest[i]} | 0 <= i < |rest| ensures list[0].wake <= rest[i].wake && rest[i].id != list[0].id {
      assert Wakes(list)[0] <= Wakes(list)[i + 1] && Ids(list)[0] != Ids(list)[i + 1];
    }
  }

  lemma {:induction false} RemovedKeeps(list: seq<Entry>, c: Clock, epoch: nat, id: Id)
    requires Epoch(list, c, epoch)
    ensures Epoch(Removed(list, id), Sooner(c, {id}), epoch)
    ensures forall i :: i in Ids(Removed(list, id)) <==> i in Ids(list) && i != id
  {
    if list == [] {
      assert Removed(list, id) == [];
    } else {
      EpochHead(list, c, epoch);
      HeadRest(list, c, epoch);
      hide Epoch;
      var rest, tail := list[1..], Removed(list[1..], id);
      RemovedKeeps(rest, c, epoch, id);
      if list[0].id != id {
        RemovedLater(rest, id, list[0].wake);
        Consed(list[0], tail, Sooner(c, {id}), epoch);
        assert Ids([list[0]] + tail) == [list[0].id] + Ids(tail);
      }
    }
  }

  lemma EpochHead(list: seq<Entry>, c: Clock, epoch: nat)
    requires Epoch(list, c, epoch) && list != []
    ensures var e := list[0]; e.id in c.due && c.due[e.id] > c.now && c.due[e.id] == epoch * WRAP + e.wake && e.wake < WRAP
  {
  }

  lemma Consed(e: Entry, tail: seq<Entry>, c: Clock, epoch: nat)
    requires Epoch(tail, c, epoch) && e.id !in Ids(tail) && forall i {:trigger tail[i]} :: 0 <= i < |tail| ==> e.wake <= tail[i].wake
    requires e.id in c.due && c.due[e.id] > c.now && c.due[e.id] == epoch * WRAP + e.wake && e.wake < WRAP
    ensures Epoch([e] + tail, c, epoch)
  {
    var l := [e] + tail;
    assert Wakes(l) == [e.wake] + Wakes(tail);
    assert Ids(l) == [e.id] + Ids(tail);
  }

  lemma {:induction false} RemovedLater(list: seq<Entry>, id: Id, wake: nat)
    requires forall i {:trigger list[i]} :: 0 <= i < |list| ==> wake <= list[i].wake
    ensures forall i {:trigger Removed(list, id)[i]} :: 0 <= i < |Removed(list, id)| ==> wake <= Removed(list, id)[i].wake
  {
    if list != [] { RemovedLater(list[1..], id, wake); }
  }

  lemma {:induction false} PendingTracks(s: Sched, c: Clock)
    requires Tracks(s, c)
    ensures Tracks(PendingChecked(s), After(s, c, CheckPending))
    ensures PendingChecked(s).ready == s.ready + s.pending
    decreases |s.pending|
  {
    hide Tracks, Removed;
    if s.pending == [] {
      assert After(s, c, CheckPending).due == c.due;
    } else {
      var id := s.pending[0];
      var t := Sched(s.count, Removed(s.current, id), Removed(s.overflow, id), s.pending[1..], s.ready + [id]);
      OneReadied(s, c, id);
      PendingTracks(t, Sooner(c, {id}));
      assert s.pending == [id] + s.pending[1..];
      assert PendingChecked(s) == PendingChecked(t);
      DueMinus(c.due, id, s.pending[1..]);
    }
  }

  lemma DueMinus(due: map<Id, nat>, id: Id, rest: seq<Id>)
    ensures due - (set i | i in [id] + rest) == (due - {id}) - (set i | i in rest)
  {
  }

  lemma OneReadied(s: Sched, c: Clock, id: Id)
    requires Tracks(s, c) && s.pending != [] && id == s.pending[0]
    ensures Tracks(Sched(s.count, Removed(s.current, id), Removed(s.overflow, id), s.pending[1..], s.ready + [id]), Sooner(c, {id}))
  {
    hide Epoch, Removed;
    RemovedKeeps(s.current, c, c.now / WRAP, id);
    RemovedKeeps(s.overflow, c, c.now / WRAP + 1, id);
    var rest := s.pending[1..];
    assert forall i :: 0 <= i < |rest| ==> rest[i] == s.pending[i + 1];
  }

  // ---------- every run ----------

  lemma NextTracks(s: Sched, c: Clock, step: Step)
    requires Tracks(s, c)
    ensures Tracks(Next(s, step), After(s, c, step))
  {
    hide Epoch, AddDelayed, Ticked, PendingChecked;
    match step
    case Delay(id, ticks) => if !Asleep(s, id) && 1 <= ticks < WRAP { DelayTracks(s, c, id, ticks); }
    case Event(id) =>
    case CheckPending => PendingTracks(s, c);
    case Tick => TickWakes(s, c);
  }

  function ClockAfter(s: Sched, c: Clock, steps: seq<Step>): Clock {
    if steps == [] then c
    else After(Run(s, steps[..|steps| - 1]), ClockAfter(s, c, steps[..|steps| - 1]), steps[|steps| - 1])
  }

  function TicksIn(steps: seq<Step>): nat {
    if steps == [] then 0 else TicksIn(steps[..|steps| - 1]) + if steps[|steps| - 1].Tick? then 1 else 0
  }

  lemma {:induction false} RunTracks(s: Sched, c: Clock, steps: seq<Step>)
    requires Tracks(s, c)
    ensures Tracks(Run(s, steps), ClockAfter(s, c, steps)) && ClockAfter(s, c, steps).now == c.now + TicksIn(steps)
  {
    hide Tracks, Next;
    if steps != [] {
      RunTracks(s, c, steps[..|steps| - 1]);
      NextTracks(Run(s, steps[..|steps| - 1]), ClockAfter(s, c, steps[..|steps| - 1]), steps[|steps| - 1]);
    }
  }

  predicate NoEvent(steps: seq<Step>, id: Id) { forall k :: 0 <= k < |steps| ==> steps[k] != Event(id) }

  function Readied(s: Sched, id: Id): nat { multiset(s.ready)[id] }

  /** While fewer than d ticks have passed, the sleeper is still asleep, due at the same tick, and was not readied. */
  lemma {:induction false} SleepsOn(s: Sched, c: Clock, id: Id, d: nat, steps: seq<Step>)
    requires Tracks(s, c) && id in c.due && c.due[id] == c.now + d && id !in s.pending && NoEvent(steps, id) && TicksIn(steps) < d
    ensures var e, n := Run(s, steps), ClockAfter(s, c, steps);
      Tracks(e, n) && n.now == c.now + TicksIn(steps) && id in n.due && n.due[id] == c.now + d && id !in e.pending &&
      Readied(e, id) == Readied(s, id)
  {
    hide Tracks, Next, After;
    if steps != [] {
      var before, last := steps[..|steps| - 1], steps[|steps| - 1];
      SleepsOn(s, c, id, d, before);
      StillAsleep(Run(s, before), ClockAfter(s, c, before), id, last);
    }
  }

  lemma StillAsleep(s: Sched, c: Clock, id: Id, step: Step)
    requires Tracks(s, c) && id in c.due && id !in s.pending && step != Event(id) && (step.Tick? ==> c.due[id] != c.now + 1)
    ensures var e, n := Next(s, step), After(s, c, step);
      Tracks(e, n) && n.now == c.now + (if step.Tick? then 1 else 0) && id in n.due && n.due[id] == c.due[id] &&
      id !in e.pending && Readied(e, id) == Readied(s, id)
  {
    hide Epoch, AddDelayed, PendingChecked, Ticked;
    NextTracks(s, c, step);
    match step
    case Delay(x, ticks) => DelayReadiesNobody(s, x, ticks);
    case Event(x) =>
    case CheckPending => PendingTracks(s, c); PendingEmptied(s);
    case Tick => TickLetsSleep(s, c, id);
  }

  lemma TickLetsSleep(s: Sched, c: Clock, id: Id)
    requires Tracks(s, c) && id in c.due && id !in s.pending && c.due[id] != c.now + 1
    ensures id !in Ticked(s).pending && Readied(Ticked(s), id) == Readied(s, id)
  {
    hide Epoch, Without, Expired, Ids, Tracks;
    TickWakes(s, c);
    var k := Expired(Looked(s), (s.count + 1) % WRAP);
    WithoutFewer(s.pending, Ids(Looked(s)[..k]));
  }

  lemma DelayReadiesNobody(s: Sched, id: Id, ticks: nat)
    ensures AddDelayed(s, id, ticks).ready == s.ready && AddDelayed(s, id, ticks).pending == s.pending
  {
  }

  lemma {:induction false} PendingEmptied(s: Sched)
    ensures PendingChecked(s).pending == []
    decreases |s.pending|
  {
    if s.pending != [] {
      var id := s.pending[0];
      PendingEmptied(Sched(s.count, Removed(s.current, id), Removed(s.overflow, id), s.pending[1..], s.ready + [id]));
    }
  }

  lemma {:induction false} WithoutFewer(list: seq<Id>, gone: seq<Id>)
    ensures forall id :: id in Without(list, gone) ==> id in list
  {
    if list != [] { WithoutFewer(list[1..], gone); }
  }

  /** A co-routine delayed by d ticks and not woken by an event: asleep and not readied until the d-th later tick, put
      on a ready queue by exactly that one, across any number of tick-counter wraps and whatever else happens. */
  lemma WokenAtTickD(s: Sched, c: Clock, id: Id, d: nat, steps: seq<Step>)
    requires Tracks(s, c) && !Asleep(s, id) && 1 <= d < WRAP && NoEvent(steps, id)
    ensures var start := Next(s, Delay(id, d));
      (TicksIn(steps) < d ==> Asleep(Run(start, steps), id) && Readied(Run(start, steps), id) == Readied(s, id)) &&
      (TicksIn(steps) == d - 1 ==>
        !Asleep(Ticked(Run(start, steps)), id) && Readied(Ticked(Run(start, steps)), id) > Readied(s, id))
  {
    hide Epoch, AddDelayed, Ticked;
    var start, n := Next(s, Delay(id, d)), After(s, c, Delay(id, d));
    NextTracks(s, c, Delay(id, d));
    DelayReadiesNobody(s, id, d);
    if TicksIn(steps) < d {
      SleepsOn(start, n, id, d, steps);
      var e := Run(start, steps);
      TickWakes(e, ClockAfter(start, n, steps));
      assert Asleep(e, id);
    }
  }

  /** xCoRoutineCreate has just initialised the lists. */
  const START := Sched(0, [], [], [], [])

  lemma StartTracks()
    ensures Tracks(START, Clock(0, map[]))
  {
  }

  /** The same from the first creation on, whatever delays, events and ticks came before. */
  lemma WokenFromStart(before: seq<Step>, id: Id, d: nat, steps: seq<Step>)
    requires !Asleep(Run(START, before), id) && 1 <= d < WRAP && NoEvent(steps, id)
    ensures var s := Run(START, before);
      var start := Next(s, Delay(id, d));
      (TicksIn(steps) < d ==> Asleep(Run(start, steps), id) && Readied(Run(start, steps), id) == Readied(s, id)) &&
      (TicksIn(steps) == d - 1 ==>
        !Asleep(Ticked(Run(start, steps)), id) && Readied(Ticked(Run(start, steps)), id) > Readied(s, id))
  {
    hide Run, Tracks;
    StartTracks();
    RunTracks(START, Clock(0, map[]), before);
    WokenAtTickD(Run(START, before), ClockAfter(START, Clock(0, map[]), before), id, d, steps);
  }

  /** What the callers' test for 1 <= d is for: a delay of no ticks would be over with the next tick, except when made
      at the last tick before the wrap, where the next tick swaps its sleeper out of sight. */
  lemma NoTicksAtWrap(s: Sched, c: Clock, id: Id)
    requires Tracks(s, c) && !Asleep(s, id)
    ensures Asleep(Ticked(AddDelayed(s, id, 0)), id) <==> s.count == WRAP - 1
  {
    hide AddDelayed, Ticked, Ids, Epoch;
    FirstInList(s, c, id);
    if s.count == WRAP - 1 {
      EmptyAtSwap(s, c);
      SwappedOut(s, id);
    } else {
      EpochSplit(c.now);
      WokenAtOnce(s, id);
    }
  }

  lemma FirstInList(s: Sched, c: Clock, id: Id)
    requires Tracks(s, c)
    ensures s.count < WRAP && AddDelayed(s, id, 0) == s.(current := [Entry(id, s.count)] + s.current)
  {
    assert (s.count + 0) % WRAP == s.count;
    EpochSplit(c.now);
    assert forall i :: 0 <= i < |s.current| ==> Wakes(s.current)[i] > s.count;
  }

  lemma SwappedOut(s: Sched, id: Id)
    requires s.count == WRAP - 1 && s.current == []
    ensures Asleep(Ticked(s.(current := [Entry(id, s.count)] + s.current)), id)
  {
    hide Without, Expired;
    var e := Entry(id, s.count);
    assert (s.count + 1) % WRAP == 0;
    assert [e] + s.current == [e];
    assert Ticked(s.(current := [e])).overflow == [e];
    assert Ids([e])[0] == id;
  }

  lemma WokenAtOnce(s: Sched, id: Id)
    requires s.count + 1 < WRAP && !Asleep(s, id)
    ensures !Asleep(Ticked(s.(current := [Entry(id, s.count)] + s.current)), id)
  {
    hide Without, Expired;
    var list := [Entry(id, s.count)] + s.current;
    assert (s.count + 1) % WRAP == s.count + 1;
    var k := Expired(list, s.count + 1);
    LeadsExpired(list, s.count + 1);
    assert list[k..] == s.current[k - 1..];
    IdsCut(s.current, k - 1);
  }

  lemma LeadsExpired(list: seq<Entry>, count: nat)
    requires list != [] && list[0].wake <= count
    ensures Expired(list, count) >= 1
  {
    assert Wakes(list)[0] == list[0].wake;
  }

  // ---------- the object ----------

  function TickedN(s: Sched, n: nat): Sched { if n == 0 then s else Ticked(TickedN(s, n - 1)) }

  lemma {:induction false} WithoutMore(list: seq<Id>, gone: seq<Id>, id: Id)
    ensures Without(list, gone + [id]) == Without(Without(list, gone), [id])
  {
    if list != [] {
      WithoutMore(list[1..], gone, id);
      var x, rest, w := list[0], Without(list[1..], gone), Without(list, gone);
      if x in gone {
        assert w == rest;
      } else {
        assert w == [x] + rest && w[1..] == rest;
        assert Without(w, [id]) == (if x in [id] then [] else [x]) + Without(rest, [id]);
      }
      assert x in gone + [id] <==> x in gone || x in [id];
    }
  }

  lemma {:induction false} WithoutNone(list: seq<Id>)
    ensures Without(list, []) == list
  {
    if list != [] { WithoutNone(list[1..]); }
  }

  lemma IdsMore(list: seq<Entry>, k: nat)
    requires k < |list|
    ensures Ids(list[..k + 1]) == Ids(list[..k]) + [list[k].id] && list[k..][1..] == list[k + 1..] && list[k..][0] == list[k]
  {
  }

  class CoScheduler {
    const priority: Id -> nat
    const ready: array<seq<Id>>
    var count: nat
    var lastTick: nat
    var current: seq<Entry>
    var overflow: seq<Entry>
    var pending: seq<Id>
    var top: nat
    /** Everyone ever put on a ready queue. */
    ghost var readied: seq<Id>

    ghost function State(): Sched
      reads this
    {
      Sched(count, current, overflow, pending, readied)
    }

    /** No queue above top holds anyone. */
    ghost predicate Valid()
      reads this`top, ready
    {
      top < ready.Length && (forall id :: priority(id) < ready.Length) && forall p :: top < p < ready.Length ==> ready[p] == []
    }

    constructor (priority: Id -> nat, priorities: nat)
      requires priorities > 0 && forall id :: priority(id) < priorities
      ensures Valid() && fresh(ready) && State() == START && lastTick == 0
    {
      this.priority := priority;
      ready := new seq<Id>[priorities](_ => []);
      count, lastTick, current, overflow, pending, top, readied := 0, 0, [], [], [], 0, [];
    }

    /** prvAddCoRoutineToReadyQueue */
    method AddReady(id: Id)
      requires Valid()
      modifies this`top, this`readied, ready
      ensures Valid() && readied == old(readied) + [id] && top >= old(top)
      ensures ready[..] == old(ready[..])[priority(id) := old(ready[priority(id)]) + [id]]
    {
      if priority(id) > top { top := priority(id); }
      ready[priority(id)] := ready[priority(id)] + [id];
      readied := readied + [id];
    }

    /** vCoRoutineAddToDelayedList, off the ready queue of the running co-routine. */
    method AddToDelayed(id: Id, ticks: nat)
      requires Valid() && count < WRAP
      modifies this`current, this`overflow, ready
      ensures Valid() && State() == AddDelayed(old(State()), id, ticks)
      ensures ready[..] == old(ready[..])[priority(id) := Without(old(ready[priority(id)]), [id])]
    {
      hide Placed, Without;
      var wake := (count + ticks) % WRAP;
      EmptyWithout([id]);
      ready[priority(id)] := Without(ready[priority(id)], [id]);
      if wake < count {
        overflow := Placed(overflow, Entry(id, wake));
      } else {
        current := Placed(current, Entry(id, wake));
      }
    }

    /** prvCheckPendingReadyList */
    method CheckPendingReady()
      requires Valid()
      modifies this`current, this`overflow, this`pending, this`top, this`readied, ready
      ensures Valid() && State() == PendingChecked(old(State()))
    {
      hide Removed;
      while pending != []
        invariant Valid() && PendingChecked(State()) == PendingChecked(old(State()))
        decreases |pending|
      {
        var id := pending[0];
        pending := pending[1..];
        current, overflow := Removed(current, id), Removed(overflow, id);
        AddReady(id);
      }
    }

    /** The inner loop of prvCheckDelayedList: heads of the current list whose time has come. */
    method WakeExpired()
      requires Valid()
      modifies this`current, this`pending, this`top, this`readied, ready
      ensures Valid()
      ensures var list := old(current);
        var woken := Ids(list[..Expired(list, count)]);
        current == list[Expired(list, count)..] && pending == Without(old(pending), woken) && readied == old(readied) + woken
    {
      hide Without, Ids, Wakes;
      ghost var list, k := current, 0;
      WithoutNone(pending);
      assert Ids(list[..0]) == [] by { NoIds(list); }
      while current != []
        invariant Valid() && 0 <= k <= |list| && current == list[k..]
        invariant forall i :: 0 <= i < k ==> list[i].wake <= count
        invariant pending == Without(old(pending), Ids(list[..k])) && readied == old(readied) + Ids(list[..k])
        decreases |list| - k
      {
        IdsMore(list, k);
        var e := current[0];
        if count < e.wake { break; }
        WithoutMore(old(pending), Ids(list[..k]), e.id);
        current := current[1..];
        pending := Without(pending, [e.id]);
        AddReady(e.id);
        k := k + 1;
      }
      assert forall i :: 0 <= i < |list| ==> Wakes(list)[i] == list[i].wake;
      LeadingIsUnique(Wakes(list), count, k);
    }

    /** One pass of prvCheckDelayedList's outer loop. */
    method OneTick()
      requires Valid() && count < WRAP
      modifies this`count, this`current, this`overflow, this`pending, this`top, this`readied, ready
      ensures Valid() && count < WRAP && State() == Ticked(old(State()))
    {
      hide Without, Expired, Ids;
      count := (count + 1) % WRAP;
      if count == 0 { current, overflow := overflow, current; }
      WakeExpired();
    }

    /** prvCheckDelayedList: as many ticks as passed since the last call, on 32 bits. */
    method CheckDelayed(now: nat)
      requires Valid() && count < WRAP && lastTick == count && now < WRAP
      modifies this`count, this`lastTick, this`current, this`overflow, this`pending, this`top, this`readied, ready
      ensures Valid() && State() == TickedN(old(State()), (now - old(lastTick)) % WRAP)
      ensures count == now && lastTick == now
    {
      hide Ticked;
      var passed := (now - lastTick) % WRAP;
      ghost var n := 0;
      while passed > 0
        invariant 0 <= passed && Valid() && count < WRAP && n + passed == (now - old(lastTick)) % WRAP && lastTick == old(lastTick)
        invariant State() == TickedN(old(State()), n)
        invariant (count + passed) % WRAP == now
      {
        OneTickCount(count, passed, now);
        TickedCount(State());
        OneTick();
        passed, n := passed - 1, n + 1;
      }
      lastTick := count;
    }

    /** vCoRoutineSchedule's search: the highest priority with somebody ready. */
    method Select() returns (found: bool)
      requires Valid()
      modifies this`top
      ensures Valid() && found == (ready[top] != [])
      ensures !found ==> top == 0 && forall p :: 0 <= p < ready.Length ==> ready[p] == []
      ensures found ==> forall p :: top < p < ready.Length ==> ready[p] == []
    {
      while ready[top] == []
        invariant Valid()
        decreases top
      {
        if top == 0 { return false; }
        top := top - 1;
      }
      found := true;
    }
  }

  lemma EmptyWithout(gone: seq<Id>)
    ensures Without([], gone) == []
  {
  }

  lemma NoIds(list: seq<Entry>)
    ensures Ids(list[..0]) == []
  {
  }

  lemma OneTickCount(count: nat, passed: nat, now: nat)
    requires passed > 0 && (count + passed) % WRAP == now
    ensures ((count + 1) % WRAP + (passed - 1)) % WRAP == now
  {
  }

  lemma TickedCount(s: Sched)
    ensures Ticked(s).count == (s.count + 1) % WRAP
  {
  }
}
