// The kernel's intrusive circular doubly linked list (FreeRTOS/list.c) on the heap, and the
// first-in first-out queue that its round-robin cursor implements.

module Lists {
  import opened Sequences
  import opened Ticks

  /** A list item: the node that a TCB or a timer embeds. */
  class ListItem {
    var itemValue: nat         // xItemValue
    var next: ListItem?        // pxNext
    var previous: ListItem?    // pxPrevious
    var container: List?       // pvContainer
    const owner: nat           // pvOwner: the number of the task

    constructor (value: nat, task: nat)
      ensures itemValue == value && container == null && owner == task
    {
      itemValue := value;
      owner := task;
      next, previous, container := null, null, null;
    }
  }

  /** Where vListInsert stops: after the longest prefix of values that do not exceed v; the end
      for v == MAX_DELAY. */
  function InsertPosition(values: seq<nat>, v: nat): (k: nat)
    ensures k <= |values|
  {
    if v == MAX_DELAY then |values| else PrefixUpTo(values, v)
  }

  function PrefixUpTo(values: seq<nat>, v: nat): (k: nat)
    ensures k <= |values|
  {
    if values == [] || values[0] > v then 0 else 1 + PrefixUpTo(values[1..], v)
  }

  lemma {:induction false} PrefixSplits(values: seq<nat>, v: nat)
    ensures var k := PrefixUpTo(values, v);
            && (forall i | 0 <= i < k :: values[i] <= v)
            && (k < |values| ==> values[k] > v)
  {
    if values != [] && values[0] <= v {
      PrefixSplits(values[1..], v);
    }
  }

  ghost predicate Sorted(values: seq<nat>) {
    forall i, j | 0 <= i < j < |values| :: values[i] <= values[j]
  }

  /** Insertion into a sorted list keeps it sorted and places the item behind its equals. */
  lemma InsertKeepsSorted(values: seq<nat>, v: nat)
    requires Sorted(values) && v <= MAX_DELAY && forall i | 0 <= i < |values| :: values[i] <= MAX_DELAY
    ensures var k := InsertPosition(values, v);
            && Sorted(InsertAt(values, k, v))
            && (forall i | 0 <= i < |values| :: values[i] <= v <==> i < k)
  {
    PrefixSplits(values, v);
    var k := InsertPosition(values, v);
    SortedInsert(values, k, v);
  }

  lemma SortedInsert(values: seq<nat>, k: nat, v: nat)
    requires Sorted(values) && k <= |values|
    requires forall i | 0 <= i < k :: values[i] <= v
    requires k < |values| ==> v <= values[k]
    ensures Sorted(InsertAt(values, k, v))
  {
    var r := InsertAt(values, k, v);
    forall i, j | 0 <= i < j < |r|
      ensures r[i] <= r[j]
    {
    }
  }

  /** A list header together with its end marker. The ghost field `items` holds the items in link
      order from the marker on; `cursor` says where pxIndex stands: 0 at the marker, c at the
      item items[c - 1]. */
  class List {
    const end: ListItem        // xListEnd
    var index: ListItem        // pxIndex
    var numberOfItems: nat     // uxNumberOfItems
    ghost var items: seq<ListItem>
    ghost var cursor: nat

    ghost function Ring(): seq<ListItem>
      reads this
    {
      [end] + items
    }

    ghost predicate Valid()
      reads this, end, items
    {
      && end.itemValue == MAX_DELAY && end.container == null
      && numberOfItems == |items|
      && cursor <= |items| && index == Ring()[cursor]
      && (forall i | 0 <= i < |items| :: items[i].container == this && items[i].itemValue <= MAX_DELAY)
      && Distinct(Ring())
      && Linked(Ring())
    }

    ghost function Values(): (v: seq<nat>)
      reads this, items
      ensures |v| == |items|
    {
      seq(|items|, i requires 0 <= i < |items| reads this, items => items[i].itemValue)
    }

    /** The items in the order in which the cursor will visit them. */
    ghost function Order(): (q: seq<ListItem>)
      requires cursor <= |items|
      reads this
      ensures |q| == |items|
    {
      Fifo(items, cursor)
    }

    constructor ()
      ensures Valid() && items == [] && cursor == 0 && fresh(end)
    {
      var e := new ListItem(MAX_DELAY, 0);
      end := e;
      index := e;
      numberOfItems := 0;
      items, cursor := [], 0;
      new;
      end.next := end;
      end.previous := end;
    }

    /** vListInsertEnd: the new item becomes the last one the cursor will reach. */
    method InsertEnd(item: ListItem)
      requires Valid() && item.container == null && item != end && item.itemValue <= MAX_DELAY
      modifies this, end, items, item
      ensures Valid()
      ensures items == InsertAt(old(items), old(cursor), item) && cursor == old(cursor) + 1
      ensures Order() == old(Order()) + [item]
      ensures item.container == this
      ensures forall x | x in items :: x.itemValue == old(x.itemValue)
    {
      ghost var k := cursor;
      InsertEndAppends(items, cursor, item);
      LinkAfter(index, item, k);
      index := item;
      cursor := k + 1;
    }

    /** vListInsert: insertion in value order. */
    method Insert(item: ListItem)
      requires Valid() && item.container == null && item != end && item.itemValue <= MAX_DELAY
      modifies this, end, items, item
      ensures Valid() && item.itemValue == old(item.itemValue)
      ensures var k := InsertPosition(old(Values()), item.itemValue);
              && items == InsertAt(old(items), k, item)
              && cursor == (if old(cursor) > k then old(cursor) + 1 else old(cursor))
              && Values() == InsertAt(old(Values()), k, item.itemValue)
      ensures item.container == this
      ensures forall x | x in items :: x.itemValue == old(x.itemValue)
    {
      hide Linked, Distinct, InsertPosition;
      ghost var values := Values();
      var position, k := FindPosition(item.itemValue);
      LinkAfter(position, item, k);
      cursor := if cursor > k then cursor + 1 else cursor;
      assert items[k] == item;
      assert Values() == InsertAt(values, k, item.itemValue);
    }

    /** The search of vListInsert; it ends for every value because MAX_DELAY takes a branch of
        its own and every other value is below the end marker's. */
    method FindPosition(v: nat) returns (position: ListItem, ghost k: nat)
      requires Valid() && v <= MAX_DELAY
      ensures k == InsertPosition(Values(), v) && position == Ring()[k]
    {
      Successor(Ring(), 0);
      Successor(Ring(), |items|);
      if v == MAX_DELAY {
        position, k := end.previous, |items|;
      } else {
        position, k := end, 0;
        while position.next.itemValue <= v
          invariant k <= |items| && position == Ring()[k]
          invariant position.next == Ring()[Next(Ring(), k)]
          invariant PrefixUpTo(Values(), v) == k + PrefixUpTo(Values()[k..], v)
          modifies {}
          decreases |items| - k
        {
          assert k < |items| && position.next == items[k];
          assert Values()[k] == items[k].itemValue;
          assert Values()[k..][1..] == Values()[k + 1..];
          position := position.next;
          k := k + 1;
          Successor(Ring(), k);
        }
      }
    }

    /** The four link assignments that vListInsert and vListInsertEnd share, with the container
        and the count. */
    method LinkAfter(position: ListItem, item: ListItem, ghost k: nat)
      requires Valid() && item.container == null && item != end && item.itemValue <= MAX_DELAY
      requires k <= |items| && position == Ring()[k]
      modifies this, end, items, item
      ensures items == InsertAt(old(items), k, item) && item.container == this
      ensures index == old(index) && cursor == old(cursor)
      ensures numberOfItems == |items| && end.itemValue == MAX_DELAY && end.container == null
      ensures forall i | 0 <= i < |items| :: items[i].container == this && items[i].itemValue <= MAX_DELAY
      ensures Distinct(Ring()) && Linked(Ring())
      ensures forall x | x in items :: x.itemValue == old(x.itemValue)
    {
      ghost var ring := Ring();
      forall i | 0 <= i < |ring|
        ensures ring[i] != item
      {
        assert i == 0 || ring[i] == items[i - 1];
      }
      hide Linked, Distinct;
      item.container := this;
      Hook(position, item, ring, k);
      numberOfItems := numberOfItems + 1;
      items := InsertAt(items, k, item);
      assert Ring() == InsertAt(ring, k + 1, item);
    }

    /** vListRemove, for the k-th item. */
    method RemoveItem(item: ListItem, ghost k: nat)
      requires Valid() && k < |items| && items[k] == item
      modifies this, end, items
      ensures Valid() && item.container == null
      ensures items == RemoveAt(old(items), k)
      ensures cursor == if old(cursor) > k then old(cursor) - 1 else old(cursor)
      ensures var p := Place(|old(items)|, old(cursor), k);
              old(Order())[p] == item && Order() == RemoveAt(old(Order()), p)
      ensures forall i | 0 <= i < |old(items)| :: old(items)[i].itemValue == old(items[i].itemValue)
    {
      hide Linked, Distinct, RemoveAt, Fifo;
      RemoveKeepsOrder(items, cursor, k);
      TakeOut(item, k);
    }

    method TakeOut(item: ListItem, ghost k: nat)
      requires Valid() && k < |items| && items[k] == item
      modifies this, end, items
      ensures Valid() && item.container == null
      ensures items == RemoveAt(old(items), k)
      ensures cursor == if old(cursor) > k then old(cursor) - 1 else old(cursor)
      ensures forall i | 0 <= i < |old(items)| :: old(items)[i].itemValue == old(items[i].itemValue)
    {
      hide Linked, Distinct;
      ghost var ring := Ring();
      Unlink(item, ring, k);
      numberOfItems := numberOfItems - 1;
      items := RemoveAt(items, k);
      cursor := if cursor > k then cursor - 1 else cursor;
      assert Ring() == RemoveAt(ring, k + 1);
    }

    /** The pointer work of vListRemove: the links, pxIndex and the container. */
    method Unlink(item: ListItem, ghost ring: seq<ListItem>, ghost k: nat)
      requires Valid() && k < |items| && items[k] == item && ring == Ring()
      modifies this`index, end, items
      ensures Linked(RemoveAt(ring, k + 1))
      ensures Distinct(RemoveAt(ring, k + 1))
      ensures index == RemoveAt(ring, k + 1)[if cursor > k then cursor - 1 else cursor]
      ensures item.container == null && end.container == null && end.itemValue == MAX_DELAY
      ensures forall i | 0 <= i < |items| && i != k :: items[i].container == this
      ensures forall i | 0 <= i < |items| :: items[i].itemValue == old(items[i].itemValue)
    {
      assert ring[k + 1] == item && index == ring[cursor];
      assert forall x | x in ring :: x == end || x in items;
      assert end == ring[0] && end != item;
      CursorAfterRemove(ring, cursor, k + 1);
      hide Linked, Distinct, RemoveAt;
      Unhook(item, ring, k + 1);
      index := if index == item then item.previous else index;
      forall i | 0 <= i < |items|
        ensures items[i].itemValue == old(items[i].itemValue) && (i != k ==> items[i].container == this)
      {
        assert items[i] == ring[i + 1];
      }
    }

    /** listGET_OWNER_OF_NEXT_ENTRY: step the cursor, skipping the end marker. */
    method NextEntry() returns (item: ListItem)
      requires Valid() && items != []
      modifies this
      ensures Valid() && items == old(items)
      ensures cursor == (if old(cursor) == |items| then 1 else old(cursor) + 1)
      ensures item == items[cursor - 1]
      ensures item == old(Order())[0] && Order() == old(Order())[1..] + [item]
    {
      NextEntryRotates(items, cursor);
      Successor(Ring(), cursor);
      Successor(Ring(), 0);
      index := index.next;
      if index == end {
        index := index.next;
        cursor := 1;
      } else {
        cursor := cursor + 1;
      }
      item := index;
    }

    /** listGET_OWNER_OF_HEAD_ENTRY: the first item in link order. */
    method HeadEntry() returns (item: ListItem)
      requires Valid() && items != []
      ensures item == items[0]
    {
      Successor(Ring(), 0);
      item := end.next;
    }
  }

  ghost predicate Distinct(ring: seq<ListItem>) {
    forall i, j | 0 <= i < j < |ring| :: ring[i] != ring[j]
  }

  /** The circular doubly linked shape through every member of the ring. */
  ghost predicate Linked(ring: seq<ListItem>)
    reads ring
  {
    forall i | 0 <= i < |ring| :: Joined(ring[i], ring[Next(ring, i)])
  }

  ghost predicate Joined(a: ListItem, b: ListItem)
    reads a, b
  {
    a.next == b && b.previous == a
  }

  ghost function Next(ring: seq<ListItem>, i: nat): (j: nat)
    requires i < |ring|
    ensures j < |ring|
  {
    if i == |ring| - 1 then 0 else i + 1
  }

  /** The member the cursor stands at after the j-th one is taken out: its predecessor if it was
      the j-th itself, and the same one otherwise. */
  lemma CursorAfterRemove(ring: seq<ListItem>, c: nat, j: nat)
    requires Distinct(ring) && c < |ring| && 0 < j < |ring|
    ensures RemoveAt(ring, j)[if c >= j then c - 1 else c] == if ring[c] == ring[j] then ring[j - 1] else ring[c]
  {}

  lemma Successor(ring: seq<ListItem>, i: nat)
    requires Linked(ring) && i < |ring|
    ensures Joined(ring[i], ring[Next(ring, i)])
  {}

  /** Every join but the k-th still holds, and item was hooked in there. */
  lemma LinkedAfterInsert(ring: seq<ListItem>, k: nat, item: ListItem)
    requires k < |ring| && Distinct(ring) && item !in ring
    requires forall i | 0 <= i < |ring| && i != k :: Joined(ring[i], ring[Next(ring, i)])
    requires ring[k].next == item && item.previous == ring[k]
    requires item.next == ring[Next(ring, k)] && ring[Next(ring, k)].previous == item
    ensures Linked(InsertAt(ring, k + 1, item))
    ensures Distinct(InsertAt(ring, k + 1, item))
  {
    var after := InsertAt(ring, k + 1, item);
    forall i | 0 <= i < |after|
      ensures Joined(after[i], after[Next(after, i)])
    {
      if i < k {
        assert Joined(ring[i], ring[Next(ring, i)]);
      } else if i > k + 1 {
        assert Joined(ring[i - 1], ring[Next(ring, i - 1)]);
      }
    }
  }

  /** The neighbours of the k-th member were joined to each other. */
  lemma LinkedAfterRemove(ring: seq<ListItem>, k: nat)
    requires 0 < k < |ring| && Distinct(ring)
    requires forall i | 0 <= i < |ring| && i != k && i != k - 1 :: Joined(ring[i], ring[Next(ring, i)])
    requires ring[k - 1].next == ring[Next(ring, k)] && ring[Next(ring, k)].previous == ring[k - 1]
    ensures Linked(RemoveAt(ring, k))
    ensures Distinct(RemoveAt(ring, k))
  {
    var after := RemoveAt(ring, k);
    forall i | 0 <= i < |after|
      ensures Joined(after[i], after[Next(after, i)])
    {
      if i < k - 1 {
        assert Joined(ring[i], ring[Next(ring, i)]);
      } else if i >= k {
        assert Joined(ring[i + 1], ring[Next(ring, i + 1)]);
      }
    }
  }

  method Hook(position: ListItem, item: ListItem, ghost ring: seq<ListItem>, ghost k: nat)
    requires k < |ring| && position == ring[k] && item !in ring && Distinct(ring) && Linked(ring)
    modifies ring, item
    ensures Linked(InsertAt(ring, k + 1, item))
    ensures Distinct(InsertAt(ring, k + 1, item))
    ensures SameData(ring + [item])
  {
    Successor(ring, k);
    item.next := position.next;
    item.previous := position;
    position.next.previous := item;
    position.next := item;
    forall i | 0 <= i < |ring| && i != k
      ensures Joined(ring[i], ring[Next(ring, i)])
    {
      assert old(Joined(ring[i], ring[Next(ring, i)]));
    }
    LinkedAfterInsert(ring, k, item);
  }

  method Unhook(item: ListItem, ghost ring: seq<ListItem>, ghost k: nat)
    requires 0 < k < |ring| && item == ring[k] && Distinct(ring) && Linked(ring)
    modifies ring
    ensures Linked(RemoveAt(ring, k))
    ensures Distinct(RemoveAt(ring, k))
    ensures item.container == null && item.previous == ring[k - 1]
    ensures forall i | 0 <= i < |ring| :: ring[i].itemValue == old(ring[i].itemValue)
    ensures forall i | 0 <= i < |ring| && i != k :: ring[i].container == old(ring[i].container)
  {
    Successor(ring, k - 1);
    Successor(ring, k);
    item.next.previous := item.previous;
    item.previous.next := item.next;
    item.container := null;
    forall i | 0 <= i < |ring| && i != k && i != k - 1
      ensures Joined(ring[i], ring[Next(ring, i)])
    {
      assert old(Joined(ring[i], ring[Next(ring, i)]));
    }
    LinkedAfterRemove(ring, k);
  }

  /** Link surgery leaves the values and the containers alone. */
  twostate predicate SameData(s: seq<ListItem>)
    reads s
  {
    forall x | x in s :: x.itemValue == old(x.itemValue) && x.container == old(x.container)
  }

  /** vListRemove: the item finds its list through its container pointer. */
  method Remove(item: ListItem) returns (ghost k: nat)
    requires item.container != null && item.container.Valid() && item in item.container.items
    modifies item, item.container, item.container.end, item.container.items
    ensures var l := old(item.container);
            && l.Valid() && item.container == null
            && k < |old(l.items)| && old(l.items)[k] == item
            && l.items == RemoveAt(old(l.items), k)
            && l.cursor == (if old(l.cursor) > k then old(l.cursor) - 1 else old(l.cursor))
            && var p := Place(|old(l.items)|, old(l.cursor), k);
               old(l.Order())[p] == item && l.Order() == RemoveAt(old(l.Order()), p)
    ensures forall x | x in old(item.container.items) :: x.itemValue == old(x.itemValue)
  {
    var list := item.container;
    ghost var j :| 0 <= j < |list.items| && list.items[j] == item;
    k := j;
    list.RemoveItem(item, k);
  }

  // ----- the cursor list as a queue -------------------------------------------------------

  /** The order in which the cursor will visit the items. */
  function Fifo<T>(items: seq<T>, cursor: nat): seq<T>
    requires cursor <= |items|
  {
    items[cursor..] + items[..cursor]
  }

  /** vListInsertEnd appends to the queue. */
  lemma InsertEndAppends<T>(items: seq<T>, cursor: nat, x: T)
    requires cursor <= |items|
    ensures Fifo(InsertAt(items, cursor, x), cursor + 1) == Fifo(items, cursor) + [x]
  {
    var r := InsertAt(items, cursor, x);
    assert r[cursor + 1..] == items[cursor..] && r[..cursor + 1] == items[..cursor] + [x];
  }

  /** Selecting the next owner serves the front of the queue and sends it to the back. */
  lemma NextEntryRotates<T>(items: seq<T>, cursor: nat)
    requires cursor <= |items| && items != []
    ensures var c := if cursor == |items| then 1 else cursor + 1;
            var q := Fifo(items, cursor);
            items[c - 1] == q[0] && Fifo(items, c) == q[1..] + [q[0]]
  {
    if cursor < |items| {
      assert items[..cursor + 1] == items[..cursor] + [items[cursor]];
    } else {
      assert items[..1] == [items[0]] && Fifo(items, cursor) == items;
    }
  }

  /** Where in that order the k-th item of the list is. */
  function Place(length: nat, cursor: nat, k: nat): (p: nat)
    requires cursor <= length && k < length
    ensures p < length
  {
    if cursor > k then length - cursor + k else k - cursor
  }

  /** vListRemove deletes one element of the queue and keeps the order of the others. */
  lemma RemoveKeepsOrder<T>(items: seq<T>, cursor: nat, k: nat)
    requires cursor <= |items| && k < |items|
    ensures var c := if cursor > k then cursor - 1 else cursor;
            var p := Place(|items|, cursor, k);
            var q := Fifo(items, cursor);
            && q[p] == items[k]
            && Fifo(RemoveAt(items, k), c) == RemoveAt(q, p)
  {
    var r := RemoveAt(items, k);
    var q := Fifo(items, cursor);
    var p := Place(|items|, cursor, k);
    if cursor > k {
      assert r[cursor - 1..] == items[cursor..];
      assert r[..cursor - 1] == items[..k] + items[k + 1..cursor];
      assert q[..p] == items[cursor..] + items[..k];
      assert q[p + 1..] == items[k + 1..cursor];
    } else {
      assert r[cursor..] == items[cursor..k] + items[k + 1..];
      assert r[..cursor] == items[..cursor];
      assert q[..p] == items[cursor..k];
      assert q[p + 1..] == items[k + 1..] + items[..cursor];
    }
  }
}
