// The two delayed lists of FreeRTOS/tasks.c on the heap: lists of linked items in wake-time order. The
// operations on them are proved to do what KernelState says they do to the order of the tasks.

module DelayedLists {
  import opened Sequences
  import opened Ticks
  import opened Lists
  import opened KernelState
  import opened KernelOps
  import opened ReadyLists

  /** The items are those of the tasks q, with their wake times as values. */
  ghost predicate Shown(items: seq<ListItem>, values: seq<nat>, q: seq<Task>, wake: map<Task, nat>) {
    OwnersOf(items) == q && values == ValuesOf(q, wake)
  }

  class DelayedQueues {
    var delayed: List             // pxDelayedTaskList
    var overflow: List            // pxOverflowDelayedTaskList
    var nextUnblock: nat          // xNextTaskUnblockTime
    ghost var Repr: set<object>   // the lists, their end markers and their items

    ghost predicate Valid()
      reads this, Repr
    {
      && this !in Repr && ListOk(delayed) && ListOk(overflow)
      && delayed != overflow && delayed.end != overflow.end
    }

    ghost predicate ListOk(l: List)
      reads this`Repr, Repr
    {
      l in Repr && l.end in Repr && (forall x | x in l.items :: x in Repr) && l.Valid()
    }

    /** The lists and the cached wake time are those of the state k. */
    ghost predicate Shows(k: State)
      reads this, Repr
    {
      ShowsLists(k) && nextUnblock == k.nextUnblock
    }

    ghost predicate ShowsLists(k: State)
      reads this, Repr
    {
      && Valid()
      && Shown(delayed.items, delayed.Values(), At(k, k.delayed), k.wake)
      && Shown(overflow.items, overflow.Values(), At(k, k.overflow), k.wake)
    }

    /** prvInitialiseTaskLists, for the delayed lists. */
    constructor ()
      ensures Valid() && fresh(Repr) && delayed.items == [] && overflow.items == [] && nextUnblock == MAX_DELAY
    {
      var a := new List();
      var b := new List();
      delayed, overflow, nextUnblock := a, b, MAX_DELAY;
      Repr := {a, a.end, b, b.end};
    }

    /** No end marker of one list is an item of the other, and no item is in both. */
    lemma Apart()
      requires Valid()
      ensures delayed.end !in overflow.items && overflow.end !in delayed.items
      ensures forall x | x in delayed.items :: x !in overflow.items
    {}

    /** vListInsert on one of the lists; the other stays as it is. */
    method InsertInto(l: List, ghost other: List, item: ListItem)
      requires Valid() && ((l == delayed && other == overflow) || (l == overflow && other == delayed))
      requires item.container == null && item.itemValue <= MAX_DELAY && item != l.end && item != other.end
      modifies Repr, item, this`Repr
      ensures Valid() && Repr == old(Repr) + {item} && item.container == l && item.itemValue == old(item.itemValue)
      ensures var i := InsertPosition(old(l.Values()), item.itemValue);
              l.items == InsertAt(old(l.items), i, item) && l.Values() == InsertAt(old(l.Values()), i, item.itemValue)
      ensures other.items == old(other.items) && other.Values() == old(other.Values())
    {
      hide Linked, Distinct, InsertPosition, InsertAt;
      Apart();
      NotAmong(item);
      InsertedItems(l.items, InsertPosition(l.Values(), item.itemValue), item);
      l.Insert(item);
      Repr := Repr + {item};
    }

    /** prvAddCurrentTaskToDelayedList, on the item of the running task. */
    method AddCurrentTaskToDelayedList(item: ListItem, timeToWake: nat, tick: nat, ghost k: State)
      requires Shows(k) && tick == k.tick && timeToWake <= MAX_DELAY && item.container == null
      requires item != delayed.end && item != overflow.end
      requires TwoDelayLists(k) && item.owner !in At(k, k.delayed) && item.owner !in At(k, k.overflow)
      modifies this, Repr, item
      ensures Shows(AddDelayed(k, item.owner, timeToWake)) && Repr == old(Repr) + {item}
      ensures item.itemValue == timeToWake && item.container == if timeToWake < tick then overflow else delayed
    {
      hide AddDelayed, InsertPosition, InsertAt, At, ValuesOf, OwnersOf, Linked, Distinct;
      Apart();
      NotAmong(item);
      AddedShown(k, item.owner, timeToWake, delayed.items, overflow.items, item);
      item.itemValue := timeToWake;
      if timeToWake < tick {
        InsertInto(overflow, delayed, item);
      } else {
        InsertInto(delayed, overflow, item);
        if timeToWake < nextUnblock {
          nextUnblock := timeToWake;
        }
      }
    }

    /** vListRemove on the first item of the current list. */
    method TakeFirst(item: ListItem)
      requires Valid() && delayed.items != [] && item == delayed.items[0]
      modifies Repr
      ensures Valid() && item.container == null
      ensures delayed.items == old(delayed.items)[1..] && delayed.Values() == old(delayed.Values())[1..]
      ensures overflow.items == old(overflow.items) && overflow.Values() == old(overflow.Values())
    {
      hide Linked, Distinct, Fifo, Place;
      Apart();
      ghost var ring := delayed.Ring();
      ghost var i := Lists.Remove(item);
      FirstOnly(ring, i + 1);
    }

    /** One round of the loop of prvCheckDelayedTasks: it ends, or the first task is due and leaves. */
    method WakeNext(tick: nat, ghost k: State) returns (done: bool, ghost t: Task)
      requires ShowsLists(k) && Drainable(k) && tick == k.tick
      modifies this`nextUnblock, Repr
      ensures Repr == old(Repr) && delayed == old(delayed)
      ensures done ==> Shows(Drain(k)) && delayed.items == old(delayed.items)
      ensures !done ==>
                && t in k.generic && t in k.priority && Drainable(MakeReady(k, t)) && ShowsLists(MakeReady(k, t))
                && Drain(MakeReady(k, t)) == Drain(k) && MakeReady(k, t).tick == tick
                && OwnersOf(old(delayed.items)) == [t] + OwnersOf(delayed.items)
    {
      hide Drainable, Drain, MakeReady, OwnersOf, Linked, Distinct;
      DrainHead(k, delayed.items, delayed.Values());
      done, t := true, 0;
      if delayed.numberOfItems == 0 {
        nextUnblock := MAX_DELAY;
      } else {
        var item := delayed.HeadEntry();
        if tick < item.itemValue {
          nextUnblock := item.itemValue;
        } else {
          HeadTaken(k, delayed.items, delayed.Values(), overflow.items, overflow.Values());
          TakeFirst(item);
          done, t := false, item.owner;
        }
      }
    }

    /** prvCheckDelayedTasks: the due tasks leave the list in the order of their wake times, and the cached
        wake time becomes that of the first one left. */
    method CheckDelayedTasks(tick: nat, ghost k: State) returns (ghost woken: seq<Task>)
      requires Shows(k) && Drainable(k) && tick == k.tick
      modifies this`nextUnblock, Repr
      ensures Shows(CheckDelayed(k)) && OwnersOf(old(delayed.items)) == woken + OwnersOf(delayed.items)
    {
      hide Drainable, Drain, MakeReady, OwnersOf, ShowsLists;
      woken := [];
      if tick >= nextUnblock {
        ghost var k1 := k;
        var done := false;
        while !done
          invariant Repr == old(Repr) && delayed == old(delayed)
          invariant OwnersOf(old(delayed.items)) == woken + OwnersOf(delayed.items)
          invariant if done then Shows(Drain(k))
                    else Drainable(k1) && Drain(k1) == Drain(k) && k1.tick == tick && ShowsLists(k1)
          decreases !done, |delayed.items|
        {
          ghost var t;
          done, t := WakeNext(tick, k1);
          if !done {
            woken := woken + [t];
            k1 := MakeReady(k1, t);
          }
        }
      }
    }

    /** The rollover branch of vTaskIncrementTick: the lists change places. */
    method SwitchDelayedLists(ghost k: State)
      requires Shows(k) && Drainable(k)
      modifies this`delayed, this`overflow, this`nextUnblock
      ensures Shows(SwapDelayLists(k)) && delayed == old(overflow) && overflow == old(delayed)
    {
      hide Drainable, OwnersOf, Linked, Distinct, SwapDelayLists, At, ValuesOf;
      SwappedHead(k, overflow.items, overflow.Values());
      delayed, overflow := overflow, delayed;
      if delayed.numberOfItems == 0 {
        nextUnblock := MAX_DELAY;
      } else {
        var item := delayed.HeadEntry();
        nextUnblock := item.itemValue;
      }
    }

    lemma NotAmong(item: ListItem)
      requires Valid() && item.container == null
      ensures item !in delayed.items && item !in overflow.items
    {}
  }

  lemma SwappedHead(k: State, items: seq<ListItem>, values: seq<nat>)
    requires Drainable(k) && Shown(items, values, At(k, k.overflow), k.wake)
    ensures |items| == |values|
    ensures var r := SwapDelayLists(k);
            && r.nextUnblock == (if items == [] then MAX_DELAY else values[0])
            && r.delayed == k.overflow && r.overflow == k.delayed && r.wake == k.wake
            && forall m :: At(r, m) == At(k, m)
  {
    assert |At(k, k.overflow)| == |items| == |values|;
    if items != [] {
      assert Holds(k, k.overflow, At(k, k.overflow)[0]);
    }
  }

  lemma FirstOnly(ring: seq<ListItem>, j: nat)
    requires Distinct(ring) && 0 < j < |ring| && ring[j] == ring[1]
    ensures j == 1
  {}

  /** What the loop sees at the head of the list. */
  lemma DrainHead(k: State, items: seq<ListItem>, values: seq<nat>)
    requires Drainable(k) && Shown(items, values, At(k, k.delayed), k.wake)
    ensures if items == [] then Drain(k) == k.(nextUnblock := MAX_DELAY)
            else
              && items[0].owner in k.generic && items[0].owner in k.priority
              && if k.tick < values[0] then Drain(k) == k.(nextUnblock := values[0])
                 else Drainable(MakeReady(k, items[0].owner)) && Drain(k) == Drain(MakeReady(k, items[0].owner))
  {
    var q := At(k, k.delayed);
    assert |q| == |items| == |values|;
    if q != [] {
      assert Holds(k, k.delayed, q[0]) && q[0] == items[0].owner && values[0] == k.wake[q[0]];
      MakeReadyEffect(k, q[0]);
    }
  }

  lemma HeadTaken(k: State, items: seq<ListItem>, values: seq<nat>, later: seq<ListItem>, laterValues: seq<nat>)
    requires Drainable(k) && Shown(items, values, At(k, k.delayed), k.wake) && items != []
    requires Shown(later, laterValues, At(k, k.overflow), k.wake)
    requires items[0].owner in k.generic && items[0].owner in k.priority
    ensures var r := MakeReady(k, items[0].owner);
            && Shown(items[1..], values[1..], At(r, r.delayed), r.wake)
            && Shown(later, laterValues, At(r, r.overflow), r.wake) && r.tick == k.tick
    ensures OwnersOf(items) == [items[0].owner] + OwnersOf(items[1..])
  {
    hide MakeReady;
    var q := At(k, k.delayed);
    MakeReadyEffect(k, q[0]);
    assert Holds(k, k.delayed, q[0]);
    assert q[0] !in At(k, k.overflow);
    assert Without(q, q[0]) == q[1..];
  }

  lemma AddedShown(k: State, t: Task, v: nat, items: seq<ListItem>, later: seq<ListItem>, item: ListItem)
    requires TwoDelayLists(k) && t !in At(k, k.delayed) && t !in At(k, k.overflow) && item.owner == t
    requires OwnersOf(items) == At(k, k.delayed) && OwnersOf(later) == At(k, k.overflow)
    ensures var r := AddDelayed(k, t, v);
            var q, q1 := At(k, k.delayed), At(k, k.overflow);
            && r.delayed == k.delayed && r.overflow == k.overflow
            && if v < k.tick then
                 var i := InsertPosition(ValuesOf(q1, k.wake), v);
                 && r.nextUnblock == k.nextUnblock && Shown(items, ValuesOf(q, k.wake), At(r, k.delayed), r.wake)
                 && Shown(InsertAt(later, i, item), InsertAt(ValuesOf(q1, k.wake), i, v), At(r, k.overflow), r.wake)
               else
                 var i := InsertPosition(ValuesOf(q, k.wake), v);
                 && r.nextUnblock == (if v < k.nextUnblock then v else k.nextUnblock)
                 && Shown(later, ValuesOf(q1, k.wake), At(r, k.overflow), r.wake)
                 && Shown(InsertAt(items, i, item), InsertAt(ValuesOf(q, k.wake), i, v), At(r, k.delayed), r.wake)
  {
    hide InsertPosition, InsertAt, OwnersOf, ValuesOf;
    SameValues(At(k, k.delayed), k.wake, t, v);
    SameValues(At(k, k.overflow), k.wake, t, v);
    AddedLists(k, t, v);
    if v < k.tick {
      InsertedShown(At(k, k.overflow), k.wake[t := v], t, later, item,
                    InsertPosition(ValuesOf(At(k, k.overflow), k.wake), v));
    } else {
      InsertedShown(At(k, k.delayed), k.wake[t := v], t, items, item,
                    InsertPosition(ValuesOf(At(k, k.delayed), k.wake), v));
    }
  }

  lemma AddedLists(k: State, t: Task, v: nat)
    requires TwoDelayLists(k) && ValuesOf(At(k, k.delayed), k.wake[t := v]) == ValuesOf(At(k, k.delayed), k.wake)
    requires ValuesOf(At(k, k.overflow), k.wake[t := v]) == ValuesOf(At(k, k.overflow), k.wake)
    ensures var r := AddDelayed(k, t, v);
            var q, q1 := At(k, k.delayed), At(k, k.overflow);
            && r.delayed == k.delayed && r.overflow == k.overflow && r.wake == k.wake[t := v]
            && r.nextUnblock == (if v >= k.tick && v < k.nextUnblock then v else k.nextUnblock)
            && At(r, k.overflow) == (if v < k.tick then InsertAt(q1, InsertPosition(ValuesOf(q1, k.wake), v), t)
                                     else q1)
            && At(r, k.delayed) == (if v < k.tick then q else InsertAt(q, InsertPosition(ValuesOf(q, k.wake), v), t))
  {
    hide At, InsertByWake;
    var k1 := k.(wake := k.wake[t := v]);
    var l := if v < k.tick then k.overflow else k.delayed;
    WakeLists(k1, l, t);
    SameLists(k, k1);
    SameLists(InsertByWake(k1, l, t), AddDelayed(k, t, v));
  }

  lemma WakeLists(k: State, l: ListId, t: Task)
    requires t in k.wake && !l.ForEvents()
    ensures var r := InsertByWake(k, l, t);
            && r == k.(lists := r.lists, generic := r.generic)
            && At(r, l) == InsertAt(At(k, l), InsertPosition(ValuesOf(At(k, l), k.wake), k.wake[t]), t)
            && forall m | m != l :: At(r, m) == At(k, m)
  {
    hide InsertAt, InsertPosition, ValuesOf;
  }

  lemma SameLists(k: State, k1: State)
    requires k1.lists == k.lists
    ensures forall m :: At(k1, m) == At(k, m)
  {}

  lemma InsertedShown(q: seq<Task>, wake: map<Task, nat>, t: Task, items: seq<ListItem>, item: ListItem, i: nat)
    requires OwnersOf(items) == q && i <= |q| && t in wake && item.owner == t
    ensures Shown(InsertAt(items, i, item), InsertAt(ValuesOf(q, wake), i, wake[t]), InsertAt(q, i, t), wake)
  {}

  /** The wake time of a task elsewhere. */
  lemma SameValues(q: seq<Task>, wake: map<Task, nat>, t: Task, v: nat)
    requires t !in q
    ensures ValuesOf(q, wake[t := v]) == ValuesOf(q, wake)
  {}
}
