// The ready lists of FreeRTOS/tasks.c on the heap: pxReadyTasksLists as lists of linked items. The
// three operations on them are proved to be KernelState's functions on the order of the tasks.

module ReadyLists {
  import opened Sequences
  import opened Ticks
  import opened Lists
  import opened KernelState

  ghost function OwnersOf(items: seq<ListItem>): (q: seq<Task>)
    ensures |q| == |items|
  {
    seq(|items|, i requires 0 <= i < |items| => items[i].owner)
  }

  /** The ready lists as the state k has them. */
  ghost predicate Matches(orders: seq<seq<Task>>, k: State) {
    |orders| == MAX_PRIORITIES && forall p | 0 <= p < |orders| :: orders[p] == At(k, Ready(p))
  }

  class ReadyQueues {
    const lists: seq<List>        // pxReadyTasksLists
    var topReady: nat             // uxTopReadyPriority
    ghost var Repr: set<object>   // the lists, their end markers and their items

    ghost predicate Valid()
      reads this`Repr, Repr
    {
      && this !in Repr && |lists| == MAX_PRIORITIES
      && (forall p | 0 <= p < |lists| :: ListOk(p))
      && (forall p, r | 0 <= p < r < |lists| :: lists[p] != lists[r] && lists[p].end != lists[r].end)
    }

    ghost predicate ListOk(p: nat)
      requires p < |lists|
      reads this`Repr, Repr
    {
      lists[p] in Repr && lists[p].end in Repr && (forall x | x in lists[p].items :: x in Repr) && lists[p].Valid()
    }

    /** The tasks of the lists in the order in which the cursors will visit them. */
    ghost function Orders(): (s: seq<seq<Task>>)
      requires Valid()
      reads this`Repr, Repr
      ensures |s| == MAX_PRIORITIES && forall p | 0 <= p < |s| :: s[p] == Order(p)
    {
      OrdersUpTo(MAX_PRIORITIES)
    }

    ghost function OrdersUpTo(n: nat): (s: seq<seq<Task>>)
      requires Valid() && n <= MAX_PRIORITIES
      reads this`Repr, Repr
      ensures |s| == n && forall p | 0 <= p < |s| :: s[p] == Order(p)
    {
      if n == 0 then [] else OrdersUpTo(n - 1) + [Order(n - 1)]
    }

    ghost function Order(p: nat): seq<Task>
      requires Valid() && p < MAX_PRIORITIES
      reads this`Repr, Repr
    {
      assert ListOk(p);
      OwnersOf(lists[p].Order())
    }

    /** The lists and the bound are those of the state k. */
    ghost predicate Shows(k: State)
      reads this, Repr
    {
      Valid() && topReady < MAX_PRIORITIES && topReady == k.topReady && Matches(Orders(), k)
    }

    /** An item that is in no list and is no end marker. */
    ghost predicate IsOut(item: ListItem)
      reads item
    {
      item.container == null && item.itemValue <= MAX_DELAY && forall p | 0 <= p < |lists| :: lists[p].end != item
    }

    /** prvInitialiseTaskLists, for the ready lists. */
    constructor ()
      ensures Valid() && topReady == 0 && forall p | 0 <= p < MAX_PRIORITIES :: Orders()[p] == []
      ensures fresh(Repr)
    {
      var all: seq<List> := [];
      ghost var parts: set<object> := {};
      var p := 0;
      while p < MAX_PRIORITIES
        invariant |all| == p <= MAX_PRIORITIES && fresh(parts)
        invariant forall i | 0 <= i < p :: all[i] in parts && all[i].end in parts
        invariant forall i | 0 <= i < p :: all[i].Valid() && all[i].items == [] && all[i].cursor == 0
        invariant forall i, j | 0 <= i < j < p :: all[i] != all[j] && all[i].end != all[j].end
      {
        var l := new List();
        all := all + [l];
        parts := parts + {l, l.end};
        p := p + 1;
      }
      lists := all;
      topReady := 0;
      Repr := parts;
    }

    /** No end marker of one list is an item of another, and each item is in one list only. */
    lemma Apart(p: nat)
      requires Valid() && p < MAX_PRIORITIES
      ensures forall r | 0 <= r < |lists| && r != p ::
                lists[r].end !in lists[p].items && forall x | x in lists[p].items :: x !in lists[r].items
    {
      assert ListOk(p);
      forall r | 0 <= r < |lists| && r != p
        ensures lists[r].end !in lists[p].items && forall x | x in lists[p].items :: x !in lists[r].items
      {
        assert ListOk(r);
      }
    }

    lemma NotListed(item: ListItem)
      requires Valid() && item.container == null
      ensures forall r | 0 <= r < |lists| :: item !in lists[r].items
    {
      forall r | 0 <= r < |lists|
        ensures item !in lists[r].items
      {
        assert ListOk(r);
      }
    }

    /** vListInsertEnd on one of the lists; the others stay as they are. */
    method Append(p: nat, item: ListItem)
      requires Valid() && IsOut(item) && p < MAX_PRIORITIES
      modifies Repr, item, this`Repr
      ensures Valid() && Repr == old(Repr) + {item} && item.container == lists[p]
      ensures Orders() == old(Orders())[p := old(Orders())[p] + [item.owner]]
    {
      assert ListOk(p);
      Apart(p);
      NotListed(item);
      hide OrdersUpTo, OwnersOf, Fifo, Linked, Distinct, InsertAt;
      OwnersAppend(lists[p].Order(), item);
      ghost var before := Orders();
      ghost var items := lists[p].items;
      InsertedItems(items, lists[p].cursor, item);
      lists[p].InsertEnd(item);
      Repr := Repr + {item};
      forall r | 0 <= r < |lists|
        ensures ListOk(r) && (r != p ==> lists[r].Order() == old(lists[r].Order()))
      {
        assert old(ListOk(r));
      }
      forall r | 0 <= r < MAX_PRIORITIES
        ensures Orders()[r] == if r == p then before[p] + [item.owner] else before[r]
      {
        assert before[r] == OwnersOf(old(lists[r].Order()));
      }
    }

    /** prvAddTaskToReadyQueue. */
    method AddTaskToReadyQueue(item: ListItem, priority: nat, ghost k: State)
      requires Shows(k) && IsOut(item) && priority < MAX_PRIORITIES
      requires item.owner in k.priority && k.priority[item.owner] == priority
      modifies this, Repr, item
      ensures Shows(AddReady(k, item.owner)) && item.container == lists[priority] && Repr == old(Repr) + {item}
    {
      hide AddReady, ListOk, Orders, OrdersUpTo, Order;
      AddedMatches(Orders(), k, item.owner);
      if priority > topReady {
        topReady := priority;
      }
      Append(priority, item);
    }

    /** vListRemove on an item that is in one of the lists. */
    method Remove(item: ListItem, ghost p: nat, ghost k: State)
      requires Shows(k) && p < MAX_PRIORITIES && item.container == lists[p] && item in lists[p].items
      requires Agreement(k) && item.owner in k.generic
      modifies Repr
      ensures Shows(TakeGeneric(k, item.owner)) && item.container == null
    {
      hide ListOk, Orders, OrdersUpTo, Order;
      ghost var before := Orders();
      ghost var i := TakeOut(item, p);
      RemovedMatches(before, k, p, i, item.owner);
    }

    /** The item finds its list through its container pointer; the others stay as they are. */
    method TakeOut(item: ListItem, ghost p: nat) returns (ghost i: nat)
      requires Valid() && p < MAX_PRIORITIES && item.container == lists[p] && item in lists[p].items
      modifies Repr
      ensures Valid() && item.container == null && i < |old(Orders()[p])| && old(Orders()[p])[i] == item.owner
      ensures Orders() == old(Orders())[p := RemoveAt(old(Orders())[p], i)]
    {
      hide Place, Fifo, Linked, Distinct;
      ghost var before := Orders();
      assert ListOk(p);
      Apart(p);
      ghost var j := Lists.Remove(item);
      i := Place(|old(lists[p].items)|, old(lists[p].cursor), j);
      forall r | 0 <= r < |lists|
        ensures ListOk(r) && (r != p ==> lists[r].Order() == old(lists[r].Order()))
      {
        assert old(ListOk(r));
      }
      OwnersRemoved(old(lists[p].Order()), i);
      forall r | 0 <= r < MAX_PRIORITIES
        ensures Orders()[r] == if r == p then RemoveAt(before[p], i) else before[r]
      {
        assert before[r] == OwnersOf(old(lists[r].Order()));
      }
    }

    /** vTaskSwitchContext while the scheduler is not suspended: down from the bound to the highest
        list that is not empty, whose next owner runs. */
    method SwitchToNext(ghost k: State) returns (running: Task)
      requires Shows(k) && k.depth == 0 && exists p | 0 <= p <= k.topReady :: At(k, Ready(p)) != []
      modifies this, Repr
      ensures Shows(SwitchContext(k)) && running == SwitchContext(k).running
    {
      hide ListOk, Orders, OrdersUpTo, Order, SwitchContext, TopNonEmpty;
      ghost var before := Orders();
      SomeReady(before, k);
      var top := FindTopReady(topReady);
      TopIs(before, k, topReady, top);
      running := ServeNext(top);
      topReady := top;
      SwitchedMatches(before, k, top);
    }

    /** listLIST_IS_EMPTY on one of the lists. */
    method ListIsEmpty(p: nat) returns (empty: bool)
      requires Valid() && p < MAX_PRIORITIES
      ensures empty <==> Orders()[p] == []
    {
      assert ListOk(p) && Orders()[p] == Order(p);
      empty := lists[p].numberOfItems == 0;
    }

    /** The search of vTaskSwitchContext, from a given bound down. */
    method FindTopReady(bound: nat) returns (top: nat)
      requires Valid() && bound < MAX_PRIORITIES && exists p | 0 <= p <= bound :: Orders()[p] != []
      ensures top <= bound && Orders()[top] != [] && forall p | top < p <= bound :: Orders()[p] == []
    {
      hide ListOk, Orders, OrdersUpTo, Order;
      ghost var orders := Orders();
      top := bound;
      var empty := ListIsEmpty(top);
      while empty
        invariant 0 <= top <= bound && empty == (orders[top] == [])
        invariant forall p | top < p <= bound :: orders[p] == []
        decreases top
      {
        top := top - 1;
        empty := ListIsEmpty(top);
      }
    }

    /** listGET_OWNER_OF_NEXT_ENTRY on one of the lists. */
    method ServeNext(p: nat) returns (t: Task)
      requires Valid() && p < MAX_PRIORITIES && Orders()[p] != []
      modifies Repr
      ensures Valid() && t == old(Orders())[p][0]
      ensures Orders() == old(Orders())[p := old(Orders())[p][1..] + [t]]
    {
      assert ListOk(p) && Orders()[p] == Order(p);
      ghost var before := Orders();
      var item := lists[p].NextEntry();
      t := item.owner;
      forall r | 0 <= r < |lists|
        ensures ListOk(r) && (r != p ==> lists[r].Order() == old(lists[r].Order()))
      {
        assert old(ListOk(r));
      }
      forall r | 0 <= r < MAX_PRIORITIES
        ensures Orders()[r] == if r == p then before[p][1..] + [t] else before[r]
      {
        assert before[r] == OwnersOf(old(lists[r].Order()));
      }
    }
  }

  lemma SomeReady(orders: seq<seq<Task>>, k: State)
    requires Matches(orders, k) && k.topReady < MAX_PRIORITIES
    requires exists p | 0 <= p <= k.topReady :: At(k, Ready(p)) != []
    ensures exists p | 0 <= p <= k.topReady :: orders[p] != []
  {
    var p :| 0 <= p <= k.topReady && At(k, Ready(p)) != [];
    assert orders[p] != [];
  }

  lemma {:induction false} TopIs(orders: seq<seq<Task>>, k: State, bound: nat, top: nat)
    requires Matches(orders, k) && top <= bound < MAX_PRIORITIES
    requires orders[top] != [] && forall p | top < p <= bound :: orders[p] == []
    ensures TopNonEmpty(k, bound) == top
  {
    if top < bound {
      TopIs(orders, k, bound - 1, top);
    }
  }

  lemma AddedMatches(orders: seq<seq<Task>>, k: State, t: Task)
    requires Matches(orders, k) && t in k.priority && k.priority[t] < MAX_PRIORITIES
    ensures var p := k.priority[t];
            && Matches(orders[p := orders[p] + [t]], AddReady(k, t))
            && AddReady(k, t).topReady == if p > k.topReady then p else k.topReady
  {
    hide Link, InsertAt;
    AppendedAt(k, Ready(k.priority[t]), t);
  }

  lemma AppendedAt(k: State, l: ListId, t: Task)
    ensures forall m :: At(Append(k, l, t), m) == if m == l then At(k, l) + [t] else At(k, m)
  {}

  lemma OwnersAppend(items: seq<ListItem>, item: ListItem)
    ensures OwnersOf(items + [item]) == OwnersOf(items) + [item.owner]
  {}

  lemma InsertedItems(items: seq<ListItem>, k: nat, item: ListItem)
    requires k <= |items|
    ensures forall x | x in InsertAt(items, k, item) :: x in items || x == item
    ensures item in InsertAt(items, k, item)
  {
    assert InsertAt(items, k, item)[k] == item;
  }

  lemma {:induction false} WithoutAt(q: seq<Task>, i: nat)
    requires NoDup(q) && i < |q|
    ensures Without(q, q[i]) == RemoveAt(q, i)
  {
    if i > 0 {
      WithoutAt(q[1..], i - 1);
    }
  }

  lemma OwnersRemoved(items: seq<ListItem>, i: nat)
    requires i < |items|
    ensures OwnersOf(RemoveAt(items, i)) == RemoveAt(OwnersOf(items), i)
  {}

  lemma RemovedMatches(orders: seq<seq<Task>>, k: State, p: nat, i: nat, t: Task)
    requires Matches(orders, k) && Agreement(k) && p < MAX_PRIORITIES && i < |orders[p]| && orders[p][i] == t
             && t in k.generic
    ensures Matches(orders[p := RemoveAt(orders[p], i)], TakeGeneric(k, t))
  {
    TakeGenericLists(k, t);
    assert t in At(k, Ready(p));
    WithoutAt(At(k, Ready(p)), i);
    forall r | 0 <= r < |orders| && r != p
      ensures t !in At(k, Ready(r))
    {
      assert Holds(k, Ready(p), t);
    }
  }

  lemma SwitchedMatches(orders: seq<seq<Task>>, k: State, p: nat)
    requires Matches(orders, k) && p < MAX_PRIORITIES && k.depth == 0 && p == TopNonEmpty(k, k.topReady)
             && orders[p] != []
    ensures Matches(orders[p := orders[p][1..] + [orders[p][0]]], SwitchContext(k))
    ensures SwitchContext(k).running == orders[p][0] && SwitchContext(k).topReady == p
  {}
}
