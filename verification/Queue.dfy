/**
 FreeRTOS/queue.c's storage: the byte ring between pcWriteTo and pcReadFrom, the event lists and the lock
 counts, each critical section proved against QueueModel.

 Pointers are offsets from pcHead. The storage holds length slots of itemSize bytes; a semaphore has itemSize 0.
 */
module Queue {
  import opened QueueModel

  // ---------- slots ----------

  function Offset(slot: nat, size: nat): nat { slot * size }

  lemma OffsetStep(slot: nat, size: nat)
    ensures Offset(slot + 1, size) == Offset(slot, size) + size
  {
  }

  lemma SlotsApart(i: nat, j: nat, size: nat)
    requires i < j
    ensures Offset(i, size) + size <= Offset(j, size)
  {
    OffsetStep(i, size);
    assert i + 1 <= j ==> (i + 1) * size <= j * size by { Mono(i + 1, j, size); }
  }

  lemma Mono(a: nat, b: nat, size: nat)
    requires a <= b
    ensures a * size <= b * size
  {
  }

  /** What moving a pointer by one slot does to its offset. */
  lemma SlotFacts(s: nat, length: nat, size: nat)
    requires s < length && size > 0
    ensures Offset(s + 1, size) == Offset(s, size) + size
    ensures if s + 1 < length then Offset(s + 1, size) < Offset(length, size) else Offset(s, size) == Offset(length, size) - size
    ensures if s > 0 then Offset(s - 1, size) == Offset(s, size) - size else Offset(s, size) == 0
    ensures Offset(length - 1, size) == Offset(length, size) - size && Offset(0, size) == 0
  {
    OffsetStep(s, size);
    OffsetStep(length - 1, size);
    if s + 1 < length { SlotsApart(s + 1, length, size); }
    if s > 0 { OffsetStep(s - 1, size); SlotsApart(s - 1, s, size); }
  }

  /** The slot k places after slot r, on a ring of that length. */
  function SlotAfter(r: nat, k: nat, length: nat): (s: nat)
    requires r < length && k <= length + 1
    ensures s < length
  {
    if r + k >= 2 * length then r + k - 2 * length else if r + k >= length then r + k - length else r + k
  }

  function SlotBytes(bytes: seq<bv8>, slot: nat, size: nat): Item {
    if Offset(slot, size) + size <= |bytes| then bytes[Offset(slot, size)..Offset(slot, size) + size] else []
  }

  /** n items, the oldest in the slot after r. */
  function ItemsOf(bytes: seq<bv8>, length: nat, size: nat, r: nat, n: nat): (items: seq<Item>)
    requires r < length && n <= length
    ensures |items| == n
    ensures forall k {:trigger items[k]} :: 0 <= k < n ==> items[k] == SlotBytes(bytes, SlotAfter(r, k + 1, length), size)
  {
    seq(n, k requires 0 <= k < n => SlotBytes(bytes, SlotAfter(r, k + 1, length), size))
  }

  /** Only slot w changed, and it now holds item. */
  ghost predicate Stored(before: seq<bv8>, after: seq<bv8>, length: nat, size: nat, w: nat, item: Item) {
    w < length && |before| == |after| == Offset(length, size) && |item| == size && Offset(w, size) + size <= |after| &&
    (forall i :: 0 <= i < size ==> after[Offset(w, size) + i] == item[i]) &&
    (forall i {:trigger after[i]} :: (0 <= i < Offset(w, size) || Offset(w, size) + size <= i < |after|) ==> after[i] == before[i])
  }

  lemma StoredSlot(before: seq<bv8>, after: seq<bv8>, length: nat, size: nat, w: nat, item: Item, slot: nat)
    requires w < length && |before| == |after| == Offset(length, size)
    requires slot < length && Stored(before, after, length, size, w, item)
    ensures SlotBytes(after, slot, size) == if slot == w then item else SlotBytes(before, slot, size)
  {
    SlotsApart(slot, length, size);
    if slot < w { SlotsApart(slot, w, size); }
    if slot > w { SlotsApart(w, slot, size); }
    hide Offset;
  }

  lemma BackAppends(before: seq<bv8>, after: seq<bv8>, length: nat, size: nat, r: nat, n: nat, item: Item)
    requires r < length && n < length && Stored(before, after, length, size, SlotAfter(r, n + 1, length), item)
    ensures ItemsOf(after, length, size, r, n + 1) == ItemsOf(before, length, size, r, n) + [item]
  {
    hide Stored, SlotBytes;
    forall k | 0 <= k <= n
      ensures ItemsOf(after, length, size, r, n + 1)[k] == (ItemsOf(before, length, size, r, n) + [item])[k]
    {
      StoredFacts(before, after, length, size, SlotAfter(r, n + 1, length), item);
      StoredSlot(before, after, length, size, SlotAfter(r, n + 1, length), item, SlotAfter(r, k + 1, length));
    }
  }

  lemma StoredFacts(before: seq<bv8>, after: seq<bv8>, length: nat, size: nat, w: nat, item: Item)
    requires Stored(before, after, length, size, w, item)
    ensures w < length && |before| == |after| == Offset(length, size)
  {
  }

  /** Writing at the read slot and stepping it back puts the item in front of the first m - 1. */
  lemma FrontPrepends(before: seq<bv8>, after: seq<bv8>, length: nat, size: nat, r: nat, m: nat, item: Item)
    requires 0 < m <= length && r < length && Stored(before, after, length, size, r, item)
    ensures var r' := if r == 0 then length - 1 else r - 1;
      ItemsOf(after, length, size, r', m) == [item] + ItemsOf(before, length, size, r, m - 1)
  {
    hide Stored, SlotBytes;
    var r' := if r == 0 then length - 1 else r - 1;
    forall k | 0 <= k < m
      ensures ItemsOf(after, length, size, r', m)[k] == ([item] + ItemsOf(before, length, size, r, m - 1))[k]
    {
      StoredFacts(before, after, length, size, r, item);
      StoredSlot(before, after, length, size, r, item, SlotAfter(r', k + 1, length));
    }
  }

  class Queue {
    const length: nat
    const itemSize: nat
    const storage: array<bv8>
    var writeTo: nat
    var readFrom: int
    var messages: nat
    var waitRx: seq<Task>
    var waitTx: seq<Task>
    var rxLock: int
    var txLock: int
    /** The slot at readFrom. */
    ghost var slot: nat

    ghost predicate Valid()
      reads this`readFrom, this`writeTo, this`messages, this`slot
    {
      0 < length && storage.Length == Offset(length, itemSize) && slot < length && readFrom == Offset(slot, itemSize) &&
      (if itemSize == 0 then writeTo == 0
       else messages <= length && writeTo == Offset(SlotAfter(slot, messages + 1, length), itemSize))
    }

    /** A semaphore's items have no bytes: only their number counts. */
    ghost function Items(): (items: seq<Item>)
      reads this`readFrom, this`writeTo, this`messages, this`slot, storage
      requires Valid()
      ensures |items| == messages
    {
      if itemSize == 0 then seq(messages, _ => []) else ItemsOf(storage[..], length, itemSize, slot, messages)
    }

    ghost function View(): Q
      reads this, storage
      requires Valid()
    {
      Q(Items(), length, waitRx, waitTx, rxLock, txLock)
    }

    /** xQueueGenericCreate: prvInitialiseNewQueue over fresh storage. */
    constructor (length: nat, itemSize: nat)
      requires length > 0
      ensures Valid() && fresh(storage) && this.length == length && this.itemSize == itemSize
      ensures View() == Q([], length, [], [], UNLOCKED, UNLOCKED)
    {
      this.length := length;
      this.itemSize := itemSize;
      storage := new bv8[length * itemSize];
      writeTo := 0;
      messages := 0;
      readFrom := (length - 1) * itemSize;
      slot := length - 1;
      waitRx, waitTx, rxLock, txLock := [], [], UNLOCKED, UNLOCKED;
    }

    /** memcpy into the storage. */
    method StoreAt(at: nat, item: Item)
      requires |item| == itemSize && at + itemSize <= storage.Length
      modifies storage
      ensures forall i :: 0 <= i < itemSize ==> storage[at + i] == item[i]
      ensures forall i :: (0 <= i < at || at + itemSize <= i < storage.Length) ==> storage[i] == old(storage[i])
    {
      for i := 0 to itemSize
        invariant forall j :: 0 <= j < i ==> storage[at + j] == item[j]
        invariant forall j :: (0 <= j < at || at + i <= j < storage.Length) ==> storage[j] == old(storage[j])
      {
        storage[at + i] := item[i];
      }
    }

    method StoreSlot(ghost w: nat, at: nat, item: Item)
      requires w < length && at == Offset(w, itemSize) && |item| == itemSize && storage.Length == Offset(length, itemSize)
      modifies storage
      ensures Stored(old(storage[..]), storage[..], length, itemSize, w, item)
    {
      SlotsApart(w, length, itemSize);
      hide Offset;
      StoreAt(at, item);
    }

    /** prvCopyDataToQueue, queueSEND_TO_BACK, with bytes to copy. */
    method CopyBack(item: Item)
      requires Valid() && |item| == itemSize > 0 && messages < length
      modifies this`writeTo, this`messages, storage
      ensures Valid() && Items() == old(Items()) + [item]
    {
      hide Offset, SlotBytes, Stored, ItemsOf;
      ghost var before, w := storage[..], SlotAfter(slot, messages + 1, length);
      SlotFacts(w, length, itemSize);
      StoreSlot(w, writeTo, item);
      BackAppends(before, storage[..], length, itemSize, slot, messages, item);
      writeTo := writeTo + itemSize;
      if writeTo >= storage.Length { writeTo := 0; }
      messages := messages + 1;
    }

    /** prvCopyDataToQueue, queueSEND_TO_FRONT and queueOVERWRITE, with bytes to copy. */
    method CopyFront(item: Item, overwrite: bool)
      requires Valid() && |item| == itemSize > 0 && (messages < length || overwrite) && (overwrite ==> length == 1)
      modifies this`readFrom, this`messages, this`slot, storage
      ensures Valid() && Items() == Put(old(Items()), item, if overwrite then Overwrite else Front)
    {
      hide Offset, SlotBytes, Stored, ItemsOf;
      ghost var before, r := storage[..], slot;
      var count := if overwrite && messages > 0 then messages - 1 else messages;
      SlotFacts(r, length, itemSize);
      StoreSlot(r, readFrom, item);
      slot := if r == 0 then length - 1 else r - 1;
      FrontPrepends(before, storage[..], length, itemSize, r, count + 1, item);
      readFrom := readFrom - itemSize;
      if readFrom < 0 { readFrom := storage.Length - itemSize; }
      messages := count + 1;
    }

    /** A semaphore given by xQueueOverwrite is counted up even when it is full. */
    method CopyIn(item: Item, at: Position)
      requires Valid() && |item| == itemSize && (messages < length || at.Overwrite?) && (at.Overwrite? ==> length == 1)
      modifies this`writeTo, this`readFrom, this`messages, this`slot, storage
      ensures Valid()
      ensures itemSize == 0 ==> messages == old(messages) + 1
      ensures !(itemSize == 0 && at.Overwrite? && old(messages) > 0) ==> Items() == Put(old(Items()), item, at)
    {
      hide Offset, ItemsOf;
      if itemSize == 0 {
        assert item == [];
        messages := messages + 1;
      } else if at.Back? {
        CopyBack(item);
      } else {
        CopyFront(item, at.Overwrite?);
      }
    }

    /** memcpy out of the storage. */
    method LoadAt(at: nat, buffer: array<bv8>)
      requires at + itemSize <= storage.Length && buffer != storage && buffer.Length >= itemSize
      modifies buffer
      ensures buffer[..itemSize] == storage[at..at + itemSize] && buffer[itemSize..] == old(buffer[itemSize..])
    {
      for i := 0 to itemSize
        modifies buffer
        invariant buffer[..i] == storage[at..at + i]
        invariant buffer[itemSize..] == old(buffer[itemSize..])
      {
        buffer[i] := storage[at + i];
      }
    }

    /** prvCopyDataFromQueue: steps the read pointer and copies that slot out. */
    method CopyOut(buffer: array<bv8>)
      requires Valid() && messages > 0 && buffer != storage && buffer.Length >= itemSize
      modifies this`readFrom, this`slot, buffer
      ensures slot == (if itemSize == 0 then old(slot) else SlotAfter(old(slot), 1, length)) && readFrom == Offset(slot, itemSize)
      ensures buffer[..itemSize] == old(Items()[0]) && buffer[itemSize..] == old(buffer[itemSize..])
    {
      hide Offset;
      if itemSize != 0 {
        SlotFacts(slot, length, itemSize);
        readFrom := readFrom + itemSize;
        if readFrom >= storage.Length { readFrom := 0; }
        slot := SlotAfter(slot, 1, length);
        SlotFacts(slot, length, itemSize);
        LoadAt(readFrom, buffer);
      }
    }

    /** Taking the head off: the rest of the items are those after the next slot. */
    lemma HeadOff(r: nat, n: nat)
      requires storage.Length == Offset(length, itemSize) && r < length && 0 < n <= length
      ensures ItemsOf(storage[..], length, itemSize, SlotAfter(r, 1, length), n - 1) ==
              ItemsOf(storage[..], length, itemSize, r, n)[1..]
    {
      hide SlotBytes, Offset;
    }

    /** Copying out and counting down: the head is gone. */
    method TakeOut(buffer: array<bv8>)
      requires Valid() && messages > 0 && buffer != storage && buffer.Length >= itemSize
      modifies this`readFrom, this`messages, this`slot, buffer
      ensures Valid() && Items() == old(Items())[1..]
      ensures buffer[..] == old(Items()[0] + buffer[itemSize..])
    {
      hide Offset, SlotBytes, ItemsOf;
      if itemSize > 0 { HeadOff(slot, messages); }
      CopyOut(buffer);
      assert buffer[..] == buffer[..itemSize] + buffer[itemSize..];
      messages := messages - 1;
    }

    /** Copying out and putting the read pointer back: nothing is gone. */
    method LookAt(buffer: array<bv8>)
      requires Valid() && messages > 0 && buffer != storage && buffer.Length >= itemSize
      modifies this`readFrom, this`slot, buffer
      ensures Valid() && Items() == old(Items())
      ensures buffer[..] == old(Items()[0] + buffer[itemSize..])
    {
      hide Offset, SlotBytes, ItemsOf;
      var original := readFrom;
      ghost var r := slot;
      CopyOut(buffer);
      assert buffer[..] == buffer[..itemSize] + buffer[itemSize..];
      readFrom := original;
      slot := r;
    }

    /** xTaskRemoveFromEventList, when the list is not empty. */
    method WakeRx() returns (woke: seq<Task>)
      modifies this`waitRx
      ensures woke == Head(old(waitRx)) && waitRx == Behead(old(waitRx))
    {
      woke := [];
      if waitRx != [] { woke, waitRx := [waitRx[0]], waitRx[1..]; }
    }

    method WakeTx() returns (woke: seq<Task>)
      modifies this`waitTx
      ensures woke == Head(old(waitTx)) && waitTx == Behead(old(waitTx))
    {
      woke := [];
      if waitTx != [] { woke, waitTx := [waitTx[0]], waitTx[1..]; }
    }

    /** The critical section of xQueueGenericSend. */
    method Send(item: Item, at: Position) returns (ok: bool, wokeRx: seq<Task>)
      requires Valid() && |item| == itemSize && (at.Overwrite? ==> length == 1)
      modifies this`writeTo, this`readFrom, this`messages, this`slot, this`waitRx, storage
      ensures Valid()
      ensures !(itemSize == 0 && at.Overwrite? && old(messages) > 0) ==>
        (View(), Effect(ok, wokeRx, [])) == SendCritical(old(View()), item, at)
      ensures itemSize == 0 && at.Overwrite? ==> messages == old(messages) + 1
    {
      hide ItemsOf, Offset, SlotAfter, Items, Put, Valid;
      ok, wokeRx := messages < length || at.Overwrite?, [];
      if ok {
        CopyIn(item, at);
        wokeRx := WakeRx();
      }
    }

    method SendFromISR(item: Item, at: Position) returns (ok: bool, wokeRx: seq<Task>)
      requires Valid() && |item| == itemSize && (at.Overwrite? ==> length == 1)
      modifies this`writeTo, this`readFrom, this`messages, this`slot, this`waitRx, this`txLock, storage
      ensures Valid()
      ensures !(itemSize == 0 && at.Overwrite? && old(messages) > 0) ==>
        (View(), Effect(ok, wokeRx, [])) == SendFromIsr(old(View()), item, at)
      ensures itemSize == 0 && at.Overwrite? ==> messages == old(messages) + 1
    {
      hide ItemsOf, Offset, SlotAfter, Items, Put, Valid;
      ok, wokeRx := messages < length || at.Overwrite?, [];
      if ok {
        var lock := txLock;
        CopyIn(item, at);
        if lock == UNLOCKED {
          wokeRx := WakeRx();
        } else {
          txLock := Bump(lock);
        }
      }
    }

    /** The critical section of xQueueGenericReceive; peeking puts the read pointer back. */
    method Receive(buffer: array<bv8>, peek: bool) returns (ok: bool, wokeRx: seq<Task>, wokeTx: seq<Task>)
      requires Valid() && buffer != storage && buffer.Length >= itemSize
      modifies this`readFrom, this`messages, this`slot, this`waitRx, this`waitTx, buffer
      ensures Valid() && (View(), Effect(ok, wokeRx, wokeTx)) == ReceiveCritical(old(View()), peek)
      ensures ok == (old(Items()) != [])
      ensures buffer[..] == if ok then old(Items()[0] + buffer[itemSize..]) else old(buffer[..])
    {
      hide Items, Valid;
      ok, wokeRx, wokeTx := messages > 0, [], [];
      if ok {
        if !peek {
          TakeOut(buffer);
          wokeTx := WakeTx();
        } else {
          LookAt(buffer);
          wokeRx := WakeRx();
        }
      }
    }

    method ReceiveFromISR(buffer: array<bv8>) returns (ok: bool, wokeTx: seq<Task>)
      requires Valid() && buffer != storage && buffer.Length >= itemSize
      modifies this`readFrom, this`messages, this`slot, this`waitTx, this`rxLock, buffer
      ensures Valid() && (View(), Effect(ok, [], wokeTx)) == ReceiveFromIsr(old(View()))
      ensures ok == (old(Items()) != [])
      ensures buffer[..] == if ok then old(Items()[0] + buffer[itemSize..]) else old(buffer[..])
    {
      hide Items, Valid;
      ok, wokeTx := messages > 0, [];
      if ok {
        var lock := rxLock;
        TakeOut(buffer);
        if lock == UNLOCKED {
          wokeTx := WakeTx();
        } else {
          rxLock := Bump(lock);
        }
      }
    }

    /** prvLockQueue. */
    method LockBoth()
      requires Valid()
      modifies this`rxLock, this`txLock
      ensures Valid() && View() == Lock(old(View()))
    {
      if rxLock == UNLOCKED { rxLock := LOCKED_UNMODIFIED; }
      if txLock == UNLOCKED { txLock := LOCKED_UNMODIFIED; }
    }

    /** prvUnlockQueue, first critical section: one waiter a post, until either runs out. */
    method UnlockPosts() returns (woke: seq<Task>)
      requires Valid()
      modifies this`waitRx, this`txLock
      ensures Valid() && (View(), Effect(true, woke, [])) == UnlockTx(old(View()))
    {
      hide Items, Valid;
      var lock := txLock;
      woke := [];
      while lock > LOCKED_UNMODIFIED && waitRx != []
        invariant Valid() && View() == old(View()).(rx := waitRx)
        invariant old(waitRx) == woke + waitRx
        invariant lock == txLock - |woke| && (woke != [] ==> lock >= LOCKED_UNMODIFIED)
        decreases |waitRx|
      {
        var w := WakeRx();
        woke := woke + w;
        lock := lock - 1;
      }
      txLock := UNLOCKED;
    }

    /** prvUnlockQueue, second critical section. */
    method UnlockTakes() returns (woke: seq<Task>)
      requires Valid()
      modifies this`waitTx, this`rxLock
      ensures Valid() && (View(), Effect(true, [], woke)) == UnlockRx(old(View()))
    {
      hide Items, Valid;
      var lock := rxLock;
      woke := [];
      while lock > LOCKED_UNMODIFIED && waitTx != []
        invariant Valid() && View() == old(View()).(tx := waitTx)
        invariant old(waitTx) == woke + waitTx
        invariant lock == rxLock - |woke| && (woke != [] ==> lock >= LOCKED_UNMODIFIED)
        decreases |waitTx|
      {
        var w := WakeTx();
        woke := woke + w;
        lock := lock - 1;
      }
      rxLock := UNLOCKED;
    }

    /** xQueueGenericReset of a live queue. */
    method GenericReset() returns (wokeTx: seq<Task>)
      requires Valid()
      modifies this`writeTo, this`readFrom, this`messages, this`slot, this`waitTx, this`rxLock, this`txLock
      ensures Valid() && (View(), Effect(true, [], wokeTx)) == Reset(old(View()))
    {
      messages, writeTo := 0, 0;
      readFrom := (length - 1) * itemSize;
      slot := length - 1;
      rxLock, txLock := UNLOCKED, UNLOCKED;
      wokeTx := WakeTx();
    }
  }
}
