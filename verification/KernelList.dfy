/**
 FreeRTOS/list.c: the intrusive circular doubly linked list of the kernel. An item knows its neighbours and the list
 it is on; a list owns an end marker with the highest value and a roving index.

 The ghost field ring is the list read from the end marker; every operation is a sequence operation on it. Item
 counts are unbounded (uxNumberOfItems cannot wrap before memory runs out).
 */
module KernelList {
  import opened ListSeq

  const MAX_DELAY: nat := 0xFFFF_FFFF

  // ---------- items and lists ----------

  function Succ(i: nat, n: nat): (k: nat)
    requires i < n
    ensures k < n
  {
    if i + 1 < n then i + 1 else 0
  }

  function Pred(i: nat, n: nat): (k: nat)
    requires i < n
    ensures k < n && Succ(k, n) == i
  {
    if i > 0 then i - 1 else n - 1
  }

  class Item {
    var value: nat
    var next: Item?
    var prev: Item?
    var container: List?

    /** vListInitialiseItem: on no list. */
    constructor (v: nat)
      ensures value == v && container == null
    {
      value := v;
      next, prev, container := null, null, null;
    }
  }

  class List {
    const end: Item
    var index: Item
    var count: nat
    ghost var ring: seq<Item>

    ghost function Nodes(): seq<Item>
      reads this`ring
    {
      [end] + ring
    }

    ghost predicate Linked(nodes: seq<Item>)
      reads nodes`next, nodes`prev
    {
      |nodes| > 0 &&
      (forall i {:trigger nodes[i].next} :: 0 <= i < |nodes| ==> nodes[i].next == nodes[Succ(i, |nodes|)]) &&
      (forall i {:trigger nodes[i].prev} :: 0 <= i < |nodes| ==> nodes[i].prev == nodes[Pred(i, |nodes|)])
    }

    ghost predicate Owned(items: seq<Item>)
      reads items`container, items`value
    {
      forall i {:trigger items[i]} :: 0 <= i < |items| ==> items[i].container == this && items[i].value <= MAX_DELAY
    }

    ghost predicate Valid()
      reads this, end, ring
    {
      Linked(Nodes()) && Distinct(Nodes()) && Owned(ring) &&
      end.value == MAX_DELAY && index in Nodes() && count == |ring|
    }

    ghost function Values(): (vs: seq<nat>)
      reads this`ring, ring
      ensures |vs| == |ring| && forall i :: 0 <= i < |ring| ==> vs[i] == ring[i].value
    {
      ItemValues(ring)
    }

    /** vListInitialise. */
    constructor ()
      ensures Valid() && ring == [] && fresh(end) && index == end
    {
      end := new Item(MAX_DELAY);
      index := end;
      count := 0;
      ring := [];
      new;
      end.next := end;
      end.prev := end;
    }

    /** The nodes, end marker included, read from the index on. */
    ghost function Rotation(): (r: seq<Item>)
      requires Valid()
      reads this, end, ring
    {
      var k: nat :| k < |Nodes()| && Nodes()[k] == index;
      Nodes()[k..] + Nodes()[..k]
    }

    lemma RotationFrom(k: nat)
      requires Valid() && k < |Nodes()| && Nodes()[k] == index
      ensures Rotation() == Nodes()[k..] + Nodes()[..k]
    {
    }

    /** The four pointer writes both insertions end in, between nodes k and k + 1. */
    ghost predicate CanTake(item: Item)
      reads this, end, ring, item
    {
      Valid() && item !in Nodes() && item.container == null && item.value <= MAX_DELAY
    }

    /** vListInsert: in value order, behind equals. */
    method Insert(item: Item)
      requires CanTake(item)
      modifies this`ring, this`count, item`next, item`prev, item`container, end`next, end`prev, ring`next, ring`prev
      ensures Valid() && ring == InsertAt(old(ring), LeadingAtMost(old(Values()), item.value), item)
      ensures Values() == InsertAt(old(Values()), LeadingAtMost(old(Values()), item.value), item.value)
    {
      hide Linked, Distinct, InsertAt, LeadingAtMost;
      ghost var vs := Values();
      var cursor, k := FindPlace(item.value);
      Link(cursor, k, item);
      Join(k, item);
      assert Values() == InsertAt(vs, k, item.value);
    }

    /** The node after which a value belongs: the search loop, and the tail for portMAX_DELAY, where it would not end. */
    method FindPlace(v: nat) returns (cursor: Item, ghost k: nat)
      requires Valid() && v <= MAX_DELAY
      ensures k == LeadingAtMost(Values(), v) && k <= |ring| && Nodes()[k] == cursor
    {
      if v == MAX_DELAY {
        assert Nodes()[0].prev == Nodes()[|ring|];
        cursor := end.prev;
        k := |ring|;
      } else {
        cursor := end;
        k := 0;
        assert Nodes()[0].next == Nodes()[Succ(0, |Nodes()|)];
        while cursor.next.value <= v
          invariant k <= |ring| && Nodes()[k] == cursor && cursor.next == Nodes()[Succ(k, |Nodes()|)]
          invariant forall i :: 0 <= i < k ==> ring[i].value <= v
          decreases |ring| - k
        {
          cursor := cursor.next;
          k := k + 1;
          assert Nodes()[k].next == Nodes()[Succ(k, |Nodes()|)];
        }
      }
      LeadingIsUnique(Values(), v, k);
    }

    /** The pointer writes of an insertion between cursor = node k and its successor. */
    method Link(cursor: Item, ghost k: nat, item: Item)
      requires Linked(Nodes()) && Distinct(Nodes()) && item !in Nodes() && k <= |ring| && Nodes()[k] == cursor
      modifies item`next, item`prev, end`next, end`prev, ring`next, ring`prev
      ensures Linked(InsertAt(Nodes(), k + 1, item))
    {
      ghost var was := Nodes();
      assert was[k].next == was[Succ(k, |was|)];
      item.next := cursor.next;
      item.next.prev := item;
      item.prev := cursor;
      cursor.next := item;
      LinksAfterInsert(was, k, item);
    }

    /** The book-keeping after the pointer writes of an insertion behind node k. */
    method Join(ghost k: nat, item: Item)
      requires k <= |ring| && item !in Nodes() && item.value <= MAX_DELAY
      requires Linked(InsertAt(Nodes(), k + 1, item)) && Distinct(Nodes()) && Owned(ring)
      requires end.value == MAX_DELAY && index in Nodes() && count == |ring|
      modifies this`ring, this`count, item`container
      ensures Valid() && ring == InsertAt(old(ring), k, item) && Nodes() == InsertAt(old(Nodes()), k + 1, item)
    {
      hide Linked, Distinct, InsertAt;
      ghost var was := Nodes();
      DistinctInsert(was, k + 1, item);
      item.container := this;
      count := count + 1;
      ring := InsertAt(ring, k, item);
      assert Nodes() == InsertAt(was, k + 1, item);
      assert index in was;
    }

    /** The links an insertion leaves, node by node, are those of the longer ring. */
    lemma LinksAfterInsert(was: seq<Item>, k: nat, item: Item)
      requires k < |was|
      requires forall i {:trigger was[i].next} :: 0 <= i < |was| ==> was[i].next == if i == k then item else was[Succ(i, |was|)]
      requires forall i {:trigger was[i].prev} :: 0 <= i < |was| ==>
        was[i].prev == if i == Succ(k, |was|) then item else was[Pred(i, |was|)]
      requires item.next == was[Succ(k, |was|)] && item.prev == was[k]
      ensures Linked(InsertAt(was, k + 1, item))
    {
      var now := InsertAt(was, k + 1, item);
      forall i {:trigger now[i].next} | 0 <= i < |now| ensures now[i].next == now[Succ(i, |now|)] {
        if i <= k { assert now[i] == was[i]; } else if i > k + 1 { assert now[i] == was[i - 1]; }
      }
      forall i {:trigger now[i].prev} | 0 <= i < |now| ensures now[i].prev == now[Pred(i, |now|)] {
        if i <= k { assert now[i] == was[i]; } else if i > k + 1 { assert now[i] == was[i - 1]; }
      }
    }

    /** The pointer writes of vListInsertEnd: between the index, node m, and its predecessor. */
    method LinkBefore(ghost m: nat, item: Item)
      requires Linked(Nodes()) && Distinct(Nodes()) && item !in Nodes() && m <= |ring| && Nodes()[m] == index
      modifies item`next, item`prev, end`next, end`prev, ring`next, ring`prev
      ensures Linked(InsertAt(Nodes(), Pred(m, |Nodes()|) + 1, item))
    {
      ghost var was := Nodes();
      ghost var k := Pred(m, |was|);
      assert was[m].prev == was[k] && was[k].next == was[m];
      item.next := index;
      item.prev := index.prev;
      index.prev.next := item;
      index.prev := item;
      LinksAfterInsert(was, k, item);
    }

    /** vListInsertEnd: just before the index, so last in the rotation that starts there. */
    method InsertEnd(item: Item)
      requires CanTake(item)
      modifies this`ring, this`count, item`next, item`prev, item`container, end`next, end`prev, ring`next, ring`prev
      ensures Valid() && Rotation() == old(Rotation()) + [item]
    {
      ghost var was := Nodes();
      ghost var m := IndexPosition();
      LinkBefore(m, item);
      hide Linked, Distinct, InsertAt, Owned, Rotation;
      Join(Pred(m, |was|), item);
      RotationAfterInsert(was, m, item);
    }

    lemma RotationAfterInsert(was: seq<Item>, m: nat, item: Item)
      requires Valid() && m < |was| && Nodes() == InsertAt(was, Pred(m, |was|) + 1, item) && index == was[m]
      ensures Rotation() == was[m..] + was[..m] + [item]
    {
      hide Linked, Owned;
      InsertRotates(was, m, item);
      RotationFrom(if m == 0 then 0 else m + 1);
    }

    lemma IndexPosition() returns (m: nat)
      requires Valid()
      ensures m <= |ring| && Nodes()[m] == index && Rotation() == Nodes()[m..] + Nodes()[..m]
    {
      m :| m < |Nodes()| && Nodes()[m] == index;
    }

    lemma InsertRotates(was: seq<Item>, m: nat, item: Item)
      requires m < |was|
      ensures var now, p := InsertAt(was, Pred(m, |was|) + 1, item), if m == 0 then 0 else m + 1;
              now[p] == was[m] && now[p..] + now[..p] == was[m..] + was[..m] + [item]
    {
    }

    /** The links a removal leaves, node by node, are those of the shorter ring. */
    lemma LinksAfterRemove(was: seq<Item>, k: nat)
      requires 1 <= k < |was|
      requires forall i {:trigger was[i].next} :: 0 <= i < |was| && i != k ==>
        was[i].next == was[if i == k - 1 then Succ(k, |was|) else Succ(i, |was|)]
      requires forall i {:trigger was[i].prev} :: 0 <= i < |was| && i != k ==>
        was[i].prev == was[if i == Succ(k, |was|) then k - 1 else Pred(i, |was|)]
      ensures Linked(RemoveAt(was, k))
    {
      var now := RemoveAt(was, k);
      forall i {:trigger now[i].next} | 0 <= i < |now| ensures now[i].next == now[Succ(i, |now|)] {
        assert now[i] == was[if i < k then i else i + 1];
      }
      forall i {:trigger now[i].prev} | 0 <= i < |now| ensures now[i].prev == now[Pred(i, |now|)] {
        assert now[i] == was[if i < k then i else i + 1];
      }
    }

    method Unlink(ghost k: nat, item: Item)
      requires Linked(Nodes()) && Distinct(Nodes()) && 1 <= k <= |ring| && Nodes()[k] == item
      modifies end`next, end`prev, ring`next, ring`prev
      ensures Linked(RemoveAt(Nodes(), k)) && item.prev == Nodes()[k - 1]
    {
      ghost var was := Nodes();
      assert was[k].next == was[Succ(k, |was|)] && was[k].prev == was[k - 1];
      item.next.prev := item.prev;
      item.prev.next := item.next;
      LinksAfterRemove(was, k);
    }

    /** This list is was without its one node item; an index that rested on item stepped back. */
    ghost predicate Removed(was: seq<Item>, oldIndex: Item, item: Item)
      reads this
    {
      exists k {:trigger was[k]} :: 1 <= k < |was| && was[k] == item && Nodes() == RemoveAt(was, k) &&
                                    index == if oldIndex == item then was[k - 1] else oldIndex
    }

    /** uxListRemove: the item knows its list; returns how many items are left on it. */
    static method Remove(item: Item) returns (left: nat)
      requires item.container != null && item.container.Valid() && item in item.container.ring
      modifies item`container, item.container`index, item.container`count, item.container`ring
      modifies item.container.end`next, item.container.end`prev, item.container.ring`next, item.container.ring`prev
      ensures var list := old(item.container); var was := old(list.Nodes());
              list.Valid() && item.container == null && left == |list.ring| == old(|list.ring|) - 1 &&
              list.Removed(was, old(list.index), item)
    {
      var list := item.container;
      left := list.RemoveOwn(item);
    }

    method RemoveOwn(item: Item) returns (left: nat)
      requires Valid() && item in ring
      modifies item`container, this`index, this`count, this`ring, end`next, end`prev, ring`next, ring`prev
      ensures Valid() && item.container == null && left == |ring| == old(|ring|) - 1
      ensures Removed(old(Nodes()), old(index), item)
    {
      ghost var was := Nodes();
      ghost var j :| 0 <= j < |ring| && ring[j] == item;
      assert was[j + 1] == item;
      Unlink(j + 1, item);
      hide Linked, Distinct, RemoveAt;
      Leave(j + 1, item);
      left := count;
      assert was[j + 1] == item;
    }

    /** The book-keeping after the pointer writes of a removal of node k. */
    method Leave(ghost k: nat, item: Item)
      requires 1 <= k <= |ring| && Nodes()[k] == item && item.prev == Nodes()[k - 1]
      requires Linked(RemoveAt(Nodes(), k)) && Distinct(Nodes()) && Owned(ring)
      requires end.value == MAX_DELAY && index in Nodes() && count == |ring|
      modifies item`container, this`index, this`count, this`ring
      ensures Valid() && item.container == null && |ring| == old(|ring|) - 1
      ensures Nodes() == RemoveAt(old(Nodes()), k) && index == if old(index) == item then old(Nodes())[k - 1] else old(index)
    {
      hide Linked, RemoveAt;
      ghost var was := Nodes();
      DistinctRemove(was, k);
      assert was[k - 1] != item;
      if index == item { index := item.prev; }
      item.container := null;
      count := count - 1;
      ring := RemoveAt(ring, k - 1);
      assert Nodes() == RemoveAt(was, k);
      forall i | 0 <= i < |ring| ensures ring[i] != item && ring[i].container == this {
        assert ring[i] == Nodes()[i + 1];
      }
    }
  }

  ghost function ItemValues(items: seq<Item>): (vs: seq<nat>)
    reads items
    ensures |vs| == |items| && forall i :: 0 <= i < |items| ==> vs[i] == items[i].value
  {
    seq(|items|, i requires 0 <= i < |items| reads items => items[i].value)
  }
}