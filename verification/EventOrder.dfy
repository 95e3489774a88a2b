// The order of the event lists (FreeRTOS/tasks.c). Tasks are inserted by rank, the value of the event
// item, and the first one is woken; but a change of priority rewrites the rank of a waiting task where
// it is. Here: exactly which operations break the order, and whom a signal wakes where none did.

module EventOrder {
  import opened Sequences
  import opened Ticks
  import opened Lists
  import opened KernelState
  import opened KernelWorld
  import opened KernelOps
  import opened KernelRuns
  import opened PriorityInheritance
  import opened Scenes

  function RankOf(k: State, t: Task): nat {
    if t in k.rank then k.rank[t] else 0
  }

  ghost predicate RankOrder(k: State, q: seq<Task>) {
    forall i, j | 0 <= i < j < |q| :: RankOf(k, q[i]) <= RankOf(k, q[j])
  }

  /** All event lists are in rank order. */
  ghost predicate EventsInOrder(k: State) {
    forall queue :: RankOrder(k, At(k, Event(queue)))
  }

  /** The task t is on an event list beside somebody with whom the rank r would be out of order. */
  ghost predicate Misplaces(k: State, t: Task, r: nat) {
    exists queue, i | 0 <= i < |At(k, Event(queue))| && At(k, Event(queue))[i] == t ::
      OutOfPlace(k, At(k, Event(queue)), i, r)
  }

  predicate OutOfPlace(k: State, q: seq<Task>, i: nat, r: nat)
    requires i < |q|
  {
    (i > 0 && RankOf(k, q[i - 1]) > r) || (i + 1 < |q| && r > RankOf(k, q[i + 1]))
  }

  /** The operations that break the order: a change of priority that gives a task on an event list a
      rank out of order with its neighbours. */
  ghost predicate Disorders(w: World, op: Op) {
    match op
    case SetPriority(t, p) =>
      && t in w.k.basePriority && w.k.basePriority[t] != ClipPriority(p)
      && Misplaces(w.k, t, RankFor(ClipPriority(p)))
    case InheritBy(t) =>
      && t in w.k.priority && w.k.running in w.k.priority && w.k.priority[t] < w.k.priority[w.k.running]
      && Misplaces(w.k, t, RankFor(w.k.priority[w.k.running]))
    case _ => false
  }

  // ----- a new rank in place ----------------------------------------------------------------------

  /** One list: it stays in order iff the new rank of its i-th task fits its neighbours. */
  lemma RerankedExactly(k: State, k1: State, q: seq<Task>, i: nat, r: nat)
    requires RankOrder(k, q) && NoDup(q) && i < |q| && k1.rank == k.rank[q[i] := r]
    ensures RankOrder(k1, q) <==> !OutOfPlace(k, q, i, r)
  {
    forall j | 0 <= j < |q| && j != i
      ensures RankOf(k1, q[j]) == RankOf(k, q[j])
    {}
    assert RankOf(k1, q[i]) == r;
  }

  lemma OthersReranked(k: State, k1: State, q: seq<Task>, t: Task, r: nat)
    requires k1.rank == k.rank[t := r] && t !in q
    ensures RankOrder(k1, q) <==> RankOrder(k, q)
  {
    assert forall j | 0 <= j < |q| :: RankOf(k1, q[j]) == RankOf(k, q[j]);
  }

  lemma RerankKeepsOrderExactly(k: State, k1: State, t: Task, r: nat)
    requires Agreement(k) && EventsInOrder(k) && k1.rank == k.rank[t := r]
    requires forall queue :: At(k1, Event(queue)) == At(k, Event(queue))
    ensures EventsInOrder(k1) <==> !Misplaces(k, t, r)
  {
    NoDuplicates(k);
    hide Agreement, RankOrder, OutOfPlace, NoDup;
    forall queue
      ensures RankOrder(k1, At(k1, Event(queue))) <==>
                forall i | 0 <= i < |At(k, Event(queue))| && At(k, Event(queue))[i] == t ::
                  !OutOfPlace(k, At(k, Event(queue)), i, r)
    {
      var q := At(k, Event(queue));
      if t in q {
        var i :| 0 <= i < |q| && q[i] == t;
        RerankedExactly(k, k1, q, i, r);
        OnePlace(q, i);
      } else {
        OthersReranked(k, k1, q, t, r);
      }
    }
  }

  lemma OnePlace(q: seq<Task>, i: nat)
    requires NoDup(q) && i < |q|
    ensures forall j | 0 <= j < |q| && q[j] == q[i] :: j == i
  {}

  // ----- operations that keep the order --------------------------------------------------------------

  /** No event list came out of order. */
  ghost predicate KeepsOrder(k: State, k1: State) {
    EventsInOrder(k) ==> EventsInOrder(k1)
  }

  /** The event lists and the ranks of those on them are as they were. */
  ghost predicate SameEvents(k: State, k1: State) {
    forall queue ::
      && At(k1, Event(queue)) == At(k, Event(queue))
      && forall x | x in At(k, Event(queue)) :: RankOf(k1, x) == RankOf(k, x)
  }

  lemma SameEventsKeepOrder(k: State, k1: State)
    requires SameEvents(k, k1)
    ensures KeepsOrder(k, k1) && KeepsOrder(k1, k)
  {
    forall queue
      ensures RankOrder(k, At(k, Event(queue))) <==> RankOrder(k1, At(k1, Event(queue)))
    {
      assert forall x | x in At(k, Event(queue)) :: RankOf(k1, x) == RankOf(k, x);
    }
  }

  lemma {:induction false} WithoutRankOrder(k: State, q: seq<Task>, t: Task)
    requires RankOrder(k, q)
    ensures RankOrder(k, Without(q, t))
  {
    if q != [] && q[0] != t {
      WithoutRankOrder(k, q[1..], t);
      var r := Without(q[1..], t);
      WithoutMembers(q[1..], t);
      forall i | 0 <= i < |r|
        ensures RankOf(k, q[0]) <= RankOf(k, r[i])
      {
        assert r[i] in q[1..];
      }
    }
  }

  /** A task leaves all event lists. */
  lemma LeavingKeepsOrder(k: State, k1: State, t: Task)
    requires k1.rank == k.rank
    requires forall queue :: At(k1, Event(queue)) == Without(At(k, Event(queue)), t)
    ensures KeepsOrder(k, k1)
  {
    forall queue | RankOrder(k, At(k, Event(queue)))
      ensures RankOrder(k1, At(k1, Event(queue)))
    {
      WithoutRankOrder(k, At(k, Event(queue)), t);
      assert forall x :: RankOf(k1, x) == RankOf(k, x);
    }
  }

  lemma MakeReadyKeepsOrder(k: State, t: Task)
    requires Agreement(k) && t in k.generic && t in k.priority
    ensures KeepsOrder(k, MakeReady(k, t))
  {
    hide Agreement, MakeReady, KeepsOrder;
    MakeReadyEffect(k, t);
    LeavingKeepsOrder(k, MakeReady(k, t), t);
  }

  lemma RelocateKeepsOrder(k: State, t: Task, l: ListId)
    requires Agreement(k) && t in k.generic && !l.ForEvents()
    ensures KeepsOrder(k, Relocate(k, t, l))
  {
    hide Agreement, Relocate, KeepsOrder;
    RelocateEffect(k, t, l);
    LeavingKeepsOrder(k, Relocate(k, t, l), t);
  }

  lemma {:induction false} DrainKeepsOrder(k: State)
    requires Drainable(k)
    ensures KeepsOrder(k, Drain(k))
    decreases |At(k, k.delayed)|
  {
    var q := At(k, k.delayed);
    if q == [] {
      SameEventsKeepOrder(k, Drain(k));
    } else {
      assert Holds(k, k.delayed, q[0]);
      if k.tick < k.wake[q[0]] {
        SameEventsKeepOrder(k, Drain(k));
      } else {
        MakeReadyEffect(k, q[0]);
        MakeReadyKeepsOrder(k, q[0]);
        DrainKeepsOrder(MakeReady(k, q[0]));
      }
    }
  }

  lemma {:induction false} DrainPendingKeepsOrder(k: State)
    requires Drainable(k)
    ensures KeepsOrder(k, DrainPending(k))
    decreases |At(k, Pending)|
  {
    var q := At(k, Pending);
    if q != [] {
      assert Holds(k, Pending, q[0]);
      MakeReadyEffect(k, q[0]);
      MakeReadyKeepsOrder(k, q[0]);
      DrainPendingKeepsOrder(MakeReady(k, q[0]));
    }
  }

  lemma TickKeepsOrder(k: State)
    requires Drainable(k)
    ensures KeepsOrder(k, IncrementTick(k))
  {
    hide Drainable, KeepsOrder, Drain;
    if k.depth != 0 {
      SameEventsKeepOrder(k, IncrementTick(k));
    } else {
      AdvanceAgrees(k);
      AdvanceLists(k);
      SameEventsKeepOrder(k, AdvanceTick(k));
      DrainKeepsOrder(AdvanceTick(k));
      OrderTransitive(k, AdvanceTick(k), IncrementTick(k));
    }
  }

  lemma OrderTransitive(k: State, k1: State, k2: State)
    requires KeepsOrder(k, k1) && (k2 == k1 || KeepsOrder(k1, k2))
    ensures KeepsOrder(k, k2)
  {}

  lemma {:induction false} CatchUpKeepsOrder(k: State)
    requires Drainable(k) && k.depth == 0
    ensures KeepsOrder(k, CatchUp(k))
    decreases k.missed
  {
    hide Drainable, IncrementTick, EventsInOrder;
    if k.missed > 0 {
      IncrementTickDrainable(k);
      TickKeepsOrder(k);
      var k1 := IncrementTick(k);
      var k2 := k1.(missed := k1.missed - 1);
      TickAgrees(k1, k2);
      SameEventsKeepOrder(k1, k2);
      CatchUpKeepsOrder(k2);
    }
  }

  lemma ResumeAllKeepsOrder(k: State)
    requires Drainable(k) && k.depth > 0
    ensures KeepsOrder(k, ResumeAll(k))
  {
    hide Drainable, CatchUp, DrainPending, ResumeYields, EventsInOrder;
    var k1 := k.(depth := k.depth - 1);
    SameEventsKeepOrder(k, k1);
    if k1.depth == 0 && k1.taskCount != 0 {
      TickAgrees(k, k1);
      DrainPendingDrainable(k1);
      DrainPendingKeepsOrder(k1);
      CatchUpKeepsOrder(DrainPending(k1));
      SameEventsKeepOrder(CatchUp(DrainPending(k1)), ResumeAll(k));
    }
  }

  // ----- single operations -----------------------------------------------------------------------------

  /** Taking a generic item out and linking one in elsewhere touches no event list. */
  lemma TakeGenericSame(k: State, t: Task)
    requires t in k.generic && !k.generic[t].ForEvents()
    ensures SameEvents(k, TakeGeneric(k, t))
  {}

  lemma AppendSame(k: State, l: ListId, t: Task)
    requires !l.Event?
    ensures SameEvents(k, Append(k, l, t))
    ensures t in k.priority ==> SameEvents(k, AddReady(k, t))
  {}

  lemma AddDelayedSame(k: State, t: Task, v: nat)
    requires k.delayed in {DelayedA, DelayedB} && k.overflow in {DelayedA, DelayedB}
    ensures SameEvents(k, AddDelayed(k, t, v))
  {
    hide AddDelayed;
    AddDelayedMaps(k, t, v);
    forall queue
      ensures At(AddDelayed(k, t, v), Event(queue)) == At(k, Event(queue))
    {
      DelayingKeepsEventLists(k, t, v, queue);
    }
  }

  lemma SameEventsThen(k: State, k1: State, k2: State)
    requires SameEvents(k, k1) && SameEvents(k1, k2)
    ensures SameEvents(k, k2)
  {
    forall queue
      ensures At(k2, Event(queue)) == At(k, Event(queue))
      ensures forall x | x in At(k, Event(queue)) :: RankOf(k2, x) == RankOf(k, x)
    {
      assert At(k1, Event(queue)) == At(k, Event(queue));
    }
  }

  lemma RequeueSame(k: State, t: Task)
    requires t in k.generic && !k.generic[t].ForEvents() && t in k.priority
    ensures TakeGeneric(k, t).priority == k.priority && SameEvents(k, AddReady(TakeGeneric(k, t), t))
  {
    hide TakeGeneric, AddReady, SameEvents;
    TakeMaps(k, t);
    TakeGenericSame(k, t);
    AppendSame(TakeGeneric(k, t), Suspended, t);
    SameEventsThen(k, TakeGeneric(k, t), AddReady(TakeGeneric(k, t), t));
  }

  lemma DelaySame(k: State, t: Task, v: nat)
    requires Drainable(k) && t in k.generic
    ensures SameEvents(k, AddDelayed(TakeGeneric(k, t), t, v))
  {
    hide TakeGeneric, AddDelayed, SameEvents, Agreement;
    ContainerKind(k, t);
    TakeGenericSame(k, t);
    TakenFields(k, t);
    AddDelayedSame(TakeGeneric(k, t), t, v);
    SameEventsThen(k, TakeGeneric(k, t), AddDelayed(TakeGeneric(k, t), t, v));
  }

  lemma NotWaiting(k: State, t: Task, queue: nat)
    requires Agreement(k) && t !in k.event
    ensures t !in At(k, Event(queue))
  {
    NotListed(k, Event(queue), t);
  }

  lemma CreateKeepsOrder(k: State, t: Task, p: nat)
    requires Drainable(k) && SameTasks(k) && t !in k.generic
    ensures KeepsOrder(k, Create(k, t, p))
  {
    hide Drainable, SameTasks, Create, KeepsOrder;
    CreateEffect(k, t, p);
    CreatedPriorities(k, t, p);
    forall queue
      ensures At(Create(k, t, p), Event(queue)) == At(k, Event(queue))
      ensures forall x | x in At(k, Event(queue)) :: RankOf(Create(k, t, p), x) == RankOf(k, x)
    {
      NewIsNotWaiting(k, t, queue);
    }
    SameEventsKeepOrder(k, Create(k, t, p));
  }

  lemma NewIsNotWaiting(k: State, t: Task, queue: nat)
    requires Drainable(k) && t !in k.generic
    ensures t !in At(k, Event(queue))
  {
    NotWaiting(k, t, queue);
  }

  lemma ReapKeepsOrder(w: World)
    requires Inv(w) && Enabled(w, ReapTask) && Drainable(w.k) && SameTasks(w.k)
    ensures KeepsOrder(w.k, Step(w, ReapTask).k)
  {
    hide Inv, Core, Drainable, SameTasks, Reap, KeepsOrder;
    Prepared(w);
    AllTerminated(w.k);
    if w.k.deleted != 0 && At(w.k, Terminated) != [] {
      TerminatedHead(w);
      ReapSame(w.k);
      SameEventsKeepOrder(w.k, Reap(w.k));
    } else {
      NothingToReap(w.k);
      OrderReflexive(w.k);
    }
  }

  lemma ReapSame(k: State)
    requires Drainable(k) && SameTasks(k) && k.deleted > 0 && At(k, Terminated) != []
    requires At(k, Terminated)[0] !in k.event && forall t | t in At(k, Terminated) :: t in k.generic
    ensures SameEvents(k, Reap(k))
  {
    hide Drainable, SameTasks, Reap, At;
    ReapedPriorities(k);
    ReapEffect(k);
    forall queue
      ensures At(Reap(k), Event(queue)) == At(k, Event(queue))
      ensures forall x | x in At(k, Event(queue)) :: RankOf(Reap(k), x) == RankOf(k, x)
    {
      DrainableAgrees(k);
      NotWaiting(k, At(k, Terminated)[0], queue);
    }
  }

  lemma DrainableAgrees(k: State)
    requires Drainable(k)
    ensures Agreement(k)
  {}

  lemma OrderReflexive(k: State)
    ensures KeepsOrder(k, k)
  {}

  lemma SignalKeepsOrder(k: State, queue: nat)
    requires Agreement(k) && At(k, Event(queue)) != []
    requires var t := At(k, Event(queue))[0]; t in k.generic && t in k.priority
    ensures KeepsOrder(k, RemoveFromEventList(k, queue))
  {
    hide Agreement, MakeReady, TakeEvent, Append, KeepsOrder;
    var t := At(k, Event(queue))[0];
    if k.depth == 0 {
      MakeReadyKeepsOrder(k, t);
    } else {
      TakeEventLists(k, t);
      var k1 := TakeEvent(k, t);
      LeavingKeepsOrder(k, k1, t);
      AppendSame(k1, Pending, t);
      SameEventsKeepOrder(k1, Append(k1, Pending, t));
      OrderTransitive(k, k1, Append(k1, Pending, t));
    }
  }

  lemma ResumeTaskKeepsOrder(k: State, t: Task)
    requires Drainable(k) && t in k.generic && t in k.priority
    ensures KeepsOrder(k, Resume(k, t)) && KeepsOrder(k, ResumeFromISR(k, t))
  {
    hide Agreement, TakeGeneric, AddReady, Append, KeepsOrder, IsTaskSuspended;
    ContainerKind(k, t);
    RequeueSame(k, t);
    SameEventsKeepOrder(k, AddReady(TakeGeneric(k, t), t));
    AppendSame(k, Pending, t);
    SameEventsKeepOrder(k, Append(k, Pending, t));
    OrderReflexive(k);
  }

  lemma SwitchKeepsOrder(k: State)
    ensures KeepsOrder(k, SwitchContext(k)) && KeepsOrder(k, SuspendAll(k))
  {
    hide KeepsOrder, SwitchContext;
    SwitchedFields(k);
    SameEventsKeepOrder(k, SwitchContext(k));
    SameEventsKeepOrder(k, SuspendAll(k));
  }

  /** A waiter is inserted in order. */
  lemma WaitKeepsOrder(k: State, queue: nat, ticks: nat)
    requires Drainable(k) && SameTasks(k) && k.running in k.generic
    ensures k.running in k.rank && KeepsOrder(k, PlaceOnEventList(k, queue, ticks))
  {
    KeyFacts(k, k.running);
    WaitMaps(k, queue, ticks);
    var k1 := PlaceOnEventList(k, queue, ticks);
    if EventsInOrder(k) {
      forall q
        ensures RankOrder(k1, At(k1, Event(q)))
      {
        if q == queue {
          WaitersInOrder(k, queue, ticks);
        } else {
          EventListAfterPlacing(k, queue, ticks, q);
          OtherEventLists(k, queue, q);
          assert RankOrder(k, At(k, Event(q)));
          SameRanks(k, k1, At(k, Event(q)));
        }
      }
    }
  }

  lemma SameRanks(k: State, k1: State, q: seq<Task>)
    requires k1.rank == k.rank
    ensures RankOrder(k, q) <==> RankOrder(k1, q)
  {
    assert forall x :: RankOf(k1, x) == RankOf(k, x);
  }

  lemma OtherEventLists(k: State, queue: nat, other: nat)
    requires k.running in k.rank && other != queue
    ensures At(InsertByRank(k, Event(queue), k.running), Event(other)) == At(k, Event(other))
  {
    hide InsertAt, InsertPosition;
  }

  lemma WaitersInOrder(k: State, queue: nat, ticks: nat)
    requires Drainable(k) && SameTasks(k) && k.running in k.generic && k.running in k.rank
    requires RankOrder(k, At(k, Event(queue)))
    ensures var k1 := PlaceOnEventList(k, queue, ticks); k1.rank == k.rank ==> RankOrder(k1, At(k1, Event(queue)))
  {
    hide PlaceOnEventList;
    var q := At(k, Event(queue));
    WaitersRanked(k, queue);
    RanksSorted(k, q);
    WaitersByPriority(k, queue, ticks);
    var q1 := At(PlaceOnEventList(k, queue, ticks), Event(queue));
    InsertAtMembers(q, InsertPosition(ValuesOf(q, k.rank), k.rank[k.running]), k.running);
    RanksSorted(k, q1);
    if PlaceOnEventList(k, queue, ticks).rank == k.rank {
      SameRanks(k, PlaceOnEventList(k, queue, ticks), q1);
    }
  }

  lemma RanksSorted(k: State, q: seq<Task>)
    ensures RankOrder(k, q) <==> Sorted(ValuesOf(q, k.rank))
  {
    assert forall i | 0 <= i < |q| :: ValuesOf(q, k.rank)[i] == RankOf(k, q[i]);
  }

  lemma WaitersRanked(k: State, queue: nat)
    requires Drainable(k) && SameTasks(k)
    ensures forall x | x in At(k, Event(queue)) :: x in k.rank && k.rank[x] <= MAX_PRIORITIES
    ensures k.running in k.generic ==> k.rank[k.running] <= MAX_PRIORITIES
  {
    forall x | x in At(k, Event(queue))
      ensures x in k.generic
    {
      assert Holds(k, Event(queue), x);
    }
  }

  // ----- changes of priority ---------------------------------------------------------------------------

  lemma ReprioritisedEvents(k: State, k1: State)
    requires k1 == k.(priority := k1.priority, basePriority := k1.basePriority, rank := k1.rank)
    ensures forall m :: At(k1, m) == At(k, m)
  {}

  /** A new rank, and perhaps a new ready list. */
  lemma ChangeKeepsOrderExactly(k: State, k1: State, k2: State, t: Task, r: nat)
    requires Agreement(k) && EventsInOrder(k) && t in k.generic
    requires k1 == k.(priority := k1.priority, basePriority := k1.basePriority, rank := k.rank[t := r])
    requires k2 == k1 || (t in k1.priority && k2 == AddReady(TakeGeneric(k1, t), t))
    ensures EventsInOrder(k2) <==> !Misplaces(k, t, r)
  {
    hide Agreement, EventsInOrder, Misplaces, AddReady, TakeGeneric;
    ReprioritisedEvents(k, k1);
    RerankKeepsOrderExactly(k, k1, t, r);
    if k2 != k1 {
      ContainerKind(k, t);
      RequeueSame(k1, t);
      SameEventsKeepOrder(k1, k2);
    }
  }

  lemma SetPriorityOrderExactly(w: World, t: Task, p: nat)
    requires Inv(w) && t in w.k.generic && EventsInOrder(w.k) && Drainable(w.k) && SameTasks(w.k)
    ensures EventsInOrder(Step(w, SetPriority(t, p)).k) <==> !Disorders(w, SetPriority(t, p))
  {
    hide Inv, SameTasks, Agreement, EventsInOrder, Misplaces, AddReady, TakeGeneric, PrioritySet;
    var k := w.k;
    KeyFacts(k, t);
    SetPriorityStep(w, t, p);
    var c := ClipPriority(p);
    var q := if k.basePriority[t] == k.priority[t] then c else k.priority[t];
    var k1 := k.(priority := k.priority[t := q], basePriority := k.basePriority[t := c],
                 rank := k.rank[t := MAX_PRIORITIES - c]);
    SetPriorityIs(k, k1, t, p);
    if k.basePriority[t] != c {
      ChangeKeepsOrderExactly(k, k1, PrioritySet(k, t, p), t, RankFor(c));
    }
  }

  lemma InheritOrderExactly(w: World, t: Task)
    requires Inv(w) && Enabled(w, InheritBy(t)) && EventsInOrder(w.k) && Drainable(w.k) && SameTasks(w.k)
    ensures EventsInOrder(Step(w, InheritBy(t)).k) <==> !Disorders(w, InheritBy(t))
  {
    hide Inv, SameTasks, Agreement, EventsInOrder, Misplaces, AddReady, TakeGeneric;
    var k := w.k;
    KeyFacts(k, t);
    KeyFacts(k, k.running);
    var p := k.priority[k.running];
    if k.priority[t] < p {
      ChangeKeepsOrderExactly(k, k.(rank := k.rank[t := RankFor(p)], priority := k.priority[t := p]), Inherit(k, t), t,
                              RankFor(p));
    }
  }

  /** A ready task is on no event list, so that giving back its priority disorders none. */
  lemma DisinheritKeepsOrder(w: World, t: Task)
    requires Inv(w) && Enabled(w, DisinheritBy(t)) && Drainable(w.k) && SameTasks(w.k)
    ensures KeepsOrder(w.k, Step(w, DisinheritBy(t)).k)
  {
    hide Inv, Agreement, EventsInOrder, Misplaces, AddReady, TakeGeneric, Disinherit;
    var k := w.k;
    KeyFacts(k, t);
    ReadyIsUnlisted(w, t);
    assert !Misplaces(k, t, RankFor(k.basePriority[t])) by {
      UnlistedIsNotMisplaced(k, t, RankFor(k.basePriority[t]));
    }
    var p := k.basePriority[t];
    var k1 := k.(rank := k.rank[t := RankFor(p)], priority := k.priority[t := p]);
    DisinheritedState(k, k1, t);
    if EventsInOrder(k) && k.priority[t] != p {
      ChangeKeepsOrderExactly(k, k1, Disinherit(k, t), t, RankFor(p));
    }
  }

  lemma UnlistedIsNotMisplaced(k: State, t: Task, r: nat)
    requires Agreement(k) && t !in k.event
    ensures !Misplaces(k, t, r)
  {
    forall queue
      ensures t !in At(k, Event(queue))
    {
      NotWaiting(k, t, queue);
    }
  }

  // ----- every operation ---------------------------------------------------------------------------------

  lemma TimedStepKeepsOrder(w: World, op: Op)
    requires Inv(w) && Enabled(w, op) && Drainable(w.k) && SameTasks(w.k)
    requires op.DelayFor? || op.DelayTo? || op.WaitFor? || op.ResumeScheduler? || op.TickInterrupt?
    ensures KeepsOrder(w.k, Step(w, op).k)
  {
    hide Inv, Drainable, SameTasks, KeepsOrder, PlaceOnEventList, ResumeAll, IncrementTick, AddDelayed, TakeGeneric;
    match op
    case DelayFor(ticks) =>
      DelaySame(w.k, w.k.running, Tick(w.k.tick + ticks));
      SameEventsKeepOrder(w.k, Delay(w.k, ticks));
    case DelayTo(previousWake, increment) =>
      DelaySame(w.k, w.k.running, Tick(Tick(previousWake) + increment));
      SameEventsKeepOrder(w.k, AddDelayed(TakeGeneric(w.k, w.k.running), w.k.running,
                                          Tick(Tick(previousWake) + increment)));
      OrderReflexive(w.k);
    case WaitFor(queue, ticks) => WaitKeepsOrder(w.k, queue, ticks);
    case ResumeScheduler => ResumeAllKeepsOrder(w.k);
    case TickInterrupt => TickKeepsOrder(w.k);
  }

  lemma TaskStepKeepsOrder(w: World, op: Op)
    requires Inv(w) && Enabled(w, op) && Drainable(w.k) && SameTasks(w.k)
    requires op.CreateTask? || op.DeleteTask? || op.Signal? || op.SuspendTask? || op.ResumeTask?
             || op.ResumeTaskFromISR?
             || op.SuspendScheduler? || op.Switch?
    ensures KeepsOrder(w.k, Step(w, op).k)
  {
    hide Inv, Core, SameTasks, KeepsOrder, Create, Relocate, RemoveFromEventList, Resume, ResumeFromISR, SuspendAll;
    hide SwitchContext, Agreement;
    match op
    case CreateTask(t, p) => CreateKeepsOrder(w.k, t, p);
    case DeleteTask(t) =>
      RelocateKeepsOrder(w.k, t, Terminated);
      DeletedEvents(w.k, t);
      OrderTransitive(w.k, Relocate(w.k, t, Terminated), Delete(w.k, t));
    case Signal(queue) => WaiterKnown(w, queue); SignalKeepsOrder(w.k, queue);
    case SuspendTask(t) => RelocateKeepsOrder(w.k, t, Suspended);
    case ResumeTask(t) => ResumeTaskKeepsOrder(w.k, t);
    case ResumeTaskFromISR(t) => ResumeTaskKeepsOrder(w.k, t);
    case SuspendScheduler => SwitchKeepsOrder(w.k);
    case Switch => SwitchKeepsOrder(w.k);
  }

  lemma DeletedEvents(k: State, t: Task)
    requires t in k.generic
    ensures KeepsOrder(Relocate(k, t, Terminated), Delete(k, t))
  {
    hide Relocate, KeepsOrder;
    SameEventsKeepOrder(Relocate(k, t, Terminated), Delete(k, t));
  }

  /** From any state with all event lists in rank order, an operation leads to such a state if and only
      if it is no change of priority that gives a listed waiter a rank out of order with its neighbours. */
  lemma StepKeepsOrderExactly(w: World, op: Op)
    requires Inv(w) && Enabled(w, op) && EventsInOrder(w.k)
    ensures Drainable(w.k) && SameTasks(w.k)
    ensures EventsInOrder(Step(w, op).k) <==> !Disorders(w, op)
  {
    hide Inv, Enabled, Drainable, SameTasks, Step, EventsInOrder, Misplaces;
    Prepared(w);
    match op
    case SetPriority(t, p) => EnabledTask(w, op); SetPriorityOrderExactly(w, t, p);
    case InheritBy(t) => InheritOrderExactly(w, t);
    case DisinheritBy(t) => DisinheritKeepsOrder(w, t);
    case ReapTask => ReapKeepsOrder(w);
    case _ =>
      if op.DelayFor? || op.DelayTo? || op.WaitFor? || op.ResumeScheduler? || op.TickInterrupt? {
        TimedStepKeepsOrder(w, op);
      } else {
        TaskStepKeepsOrder(w, op);
      }
  }

  lemma EnabledTask(w: World, op: Op)
    requires Enabled(w, op) && op.SetPriority?
    ensures op.t in w.k.generic
  {}

  // ----- ranks and priorities ------------------------------------------------------------------------------

  /** Every rank tells the priority that its task runs at. */
  ghost predicate RanksTell(k: State) {
    forall t | t in k.priority :: t in k.rank && k.rank[t] == RankFor(k.priority[t])
  }

  /** The operation that makes a rank lie: a new base priority, other than the one it runs at, for a task
      that runs at an inherited priority. The rank changes, the priority does not. */
  predicate Misreports(w: World, op: Op) {
    && op.SetPriority? && op.t in w.k.priority && op.t in w.k.basePriority
    && w.k.basePriority[op.t] != w.k.priority[op.t]
    && ClipPriority(op.priority) != w.k.basePriority[op.t] && ClipPriority(op.priority) != w.k.priority[op.t]
  }

  lemma SameMapsTell(k: State, k1: State)
    requires SameMaps(k, k1)
    ensures RanksTell(k1) <==> RanksTell(k)
  {}

  /** From any state in which all ranks tell the priorities, an operation leads to such a state if and only
      if it is not that one. */
  lemma StepKeepsRanksExactly(w: World, op: Op)
    requires Inv(w) && Enabled(w, op) && RanksTell(w.k)
    ensures Drainable(w.k) && SameTasks(w.k)
    ensures RanksTell(Step(w, op).k) <==> !Misreports(w, op)
  {
    hide Step, Inv, Enabled, Drainable, SameTasks, RanksTell;
    Prepared(w);
    if op.CreateTask? || op.ReapTask? {
      LifeStepTells(w, op);
    } else if op.SetPriority? || op.InheritBy? || op.DisinheritBy? {
      PriorityStepTells(w, op);
    } else if op.DelayFor? || op.DelayTo? || op.WaitFor? || op.Signal? || op.TickInterrupt? || op.ResumeScheduler? {
      BlockingStepMaps(w, op);
      SameMapsTell(w.k, Step(w, op).k);
    } else {
      OtherStepMaps(w, op);
      SameMapsTell(w.k, Step(w, op).k);
    }
  }

  lemma LifeStepTells(w: World, op: Op)
    requires Inv(w) && Enabled(w, op) && Drainable(w.k) && SameTasks(w.k) && (op.CreateTask? || op.ReapTask?)
    requires RanksTell(w.k)
    ensures RanksTell(Step(w, op).k)
  {
    hide Inv, Drainable, Create, Reap;
    match op
    case CreateTask(x, p) => CreatedPriorities(w.k, x, p);
    case ReapTask => AllTerminated(w.k); ReapedPriorities(w.k);
  }

  lemma PriorityStepTells(w: World, op: Op)
    requires Inv(w) && Enabled(w, op) && Drainable(w.k) && SameTasks(w.k)
    requires (op.SetPriority? || op.InheritBy? || op.DisinheritBy?) && RanksTell(w.k)
    ensures RanksTell(Step(w, op).k) <==> !Misreports(w, op)
  {
    hide Inv, Drainable, SameTasks, RanksTell, PrioritySet, Inherit, Disinherit;
    KeyFacts(w.k, op.t);
    TellsOfOne(w.k, Step(w, op).k, op.t);
    match op
    case SetPriority(x, p) => SetPriorities(w.k, x, p);
    case InheritBy(x) => KeyFacts(w.k, w.k.running); InheritedPriorities(w.k, x);
    case DisinheritBy(x) => DisinheritedPriorities(w.k, x);
  }

  /** Where at most the rank and the priority of one task change. */
  lemma TellsOfOne(k: State, k1: State, t: Task)
    requires RanksTell(k) && t in k.priority && t in k.rank
    ensures k.rank[t] == RankFor(k.priority[t])
    ensures k1.priority.Keys == k.priority.Keys && k1.rank.Keys == k.rank.Keys
            && (forall x | x in k.priority && x != t :: k1.priority[x] == k.priority[x])
            && (forall x | x in k.rank && x != t :: k1.rank[x] == k.rank[x])
            ==> (RanksTell(k1) <==> k1.rank[t] == RankFor(k1.priority[t]))
  {}

  // ----- over runs -----------------------------------------------------------------------------------------

  /** Along a run that starts in order, all states are in order exactly as long as no operation disorders. */
  lemma {:induction false} RunInOrderExactly(run: seq<World>, ops: seq<Op>, n: nat)
    requires IsRun(run, ops) && Inv(run[0]) && EventsInOrder(run[0].k) && n < |run|
    ensures (forall i | 0 <= i <= n :: EventsInOrder(run[i].k)) <==> forall i | 0 <= i < n :: !Disorders(run[i], ops[i])
  {
    hide Inv, Step, EventsInOrder, Disorders;
    if n > 0 {
      RunInOrderExactly(run, ops, n - 1);
      RunKeepsInv(run, ops, n - 1);
      assert Follows(run[n - 1], ops[n - 1], run[n]);
      if EventsInOrder(run[n - 1].k) {
        StepKeepsOrderExactly(run[n - 1], ops[n - 1]);
      }
    }
  }

  lemma {:induction false} RunTellsExactly(run: seq<World>, ops: seq<Op>, n: nat)
    requires IsRun(run, ops) && Inv(run[0]) && RanksTell(run[0].k) && n < |run|
    ensures (forall i | 0 <= i <= n :: RanksTell(run[i].k)) <==> forall i | 0 <= i < n :: !Misreports(run[i], ops[i])
  {
    hide Inv, Step, RanksTell, Misreports;
    if n > 0 {
      RunTellsExactly(run, ops, n - 1);
      RunKeepsInv(run, ops, n - 1);
      assert Follows(run[n - 1], ops[n - 1], run[n]);
      if RanksTell(run[n - 1].k) {
        StepKeepsRanksExactly(run[n - 1], ops[n - 1]);
      }
    }
  }

  lemma InitialInOrder(t: Task, p: nat)
    ensures Inv(Initial(t, p)) && EventsInOrder(Initial(t, p).k) && RanksTell(Initial(t, p).k)
  {
    InitialHolds(t, p);
    hide Inv;
    var empty := State(map[], map[], map[], map[], map[], map[], map[], DelayedA, DelayedB, t,
                       0, 0, 0, MAX_DELAY, 0, 0, 0, 0, false);
    CreatedPriorities(empty, t, p);
  }

  /** What the order is for: in a run from the start in which no operation so far disordered an event list
      or made a rank lie, a signal takes off the list a task that is at least as urgent as every other
      waiter, and makes it ready, or pending while the scheduler is suspended. */
  lemma SignalWakesMostUrgent(run: seq<World>, ops: seq<Op>, n: nat, queue: nat, t: Task, p: nat)
    requires IsRun(run, ops) && run[0] == Initial(t, p) && n < |ops| && ops[n] == Signal(queue)
    requires forall i | 0 <= i < n :: !Disorders(run[i], ops[i]) && !Misreports(run[i], ops[i])
    ensures At(run[n].k, Event(queue)) != []
    ensures var x := At(run[n].k, Event(queue))[0];
            && At(run[n + 1].k, Event(queue)) == At(run[n].k, Event(queue))[1..]
            && x in run[n].k.priority
            && (forall y | y in At(run[n].k, Event(queue)) ::
                  y in run[n].k.priority && run[n].k.priority[y] <= run[n].k.priority[x])
            && if run[n].k.depth == 0 then IsReady(run[n + 1].k, x) else x in At(run[n + 1].k, Pending)
  {
    hide Inv, Step, EventsInOrder, RanksTell, Disorders, Misreports, Drainable, SameTasks;
    InitialInOrder(t, p);
    RunKeepsInv(run, ops, n);
    RunInOrderExactly(run, ops, n);
    RunTellsExactly(run, ops, n);
    assert Follows(run[n], ops[n], run[n + 1]);
    FirstIsMostUrgent(run[n], queue);
    SignalServes(run[n], queue);
  }

  lemma FirstIsMostUrgent(w: World, queue: nat)
    requires Inv(w) && EventsInOrder(w.k) && RanksTell(w.k) && At(w.k, Event(queue)) != []
    ensures var x := At(w.k, Event(queue))[0];
            && x in w.k.priority
            && forall y | y in At(w.k, Event(queue)) :: y in w.k.priority && w.k.priority[y] <= w.k.priority[x]
  {
    var q := At(w.k, Event(queue));
    forall y | y in q
      ensures y in w.k.generic && y in w.k.priority && w.k.priority[y] < MAX_PRIORITIES
    {
      assert Holds(w.k, Event(queue), y);
      assert TaskOk(w, 0, y);
    }
    hide Inv;
    forall y | y in q
      ensures w.k.priority[y] <= w.k.priority[q[0]]
    {
      var j :| 0 <= j < |q| && q[j] == y;
      assert RankOrder(w.k, q);
      assert RankOf(w.k, q[0]) <= RankOf(w.k, q[j]);
    }
  }

  lemma SignalServes(w: World, queue: nat)
    requires Inv(w) && Drainable(w.k) && SameTasks(w.k) && Enabled(w, Signal(queue))
    ensures var x := At(w.k, Event(queue))[0];
            var k1 := Step(w, Signal(queue)).k;
            && At(k1, Event(queue)) == At(w.k, Event(queue))[1..]
            && if w.k.depth == 0 then IsReady(k1, x) else x in At(k1, Pending)
  {
    hide Inv, SameTasks, Agreement, MakeReady, TakeEvent, Append;
    WaiterKnown(w, queue);
    var x := At(w.k, Event(queue))[0];
    if w.k.depth == 0 {
      MakeReadyEffect(w.k, x);
    } else {
      TakeEventAgrees(w.k, x);
      AppendEffect(TakeEvent(w.k, x), Pending, x);
    }
  }

  // ----- a run that loses the order ------------------------------------------------------------------------

  lemma RunGrows(run: seq<World>, ops: seq<Op>, op: Op, w1: World)
    requires IsRun(run, ops) && Follows(run[|ops|], op, w1)
    ensures IsRun(run + [w1], ops + [op])
  {
    hide Follows;
    var run1, ops1 := run + [w1], ops + [op];
    forall i | 0 <= i < |ops1|
      ensures Follows(run1[i], ops1[i], run1[i + 1])
    {
      assert i < |ops| ==> Follows(run[i], ops[i], run[i + 1]);
    }
  }

  /** The task t is switched to and goes to wait. */
  lemma BlocksNext(run: seq<World>, ops: seq<Op>, s: Scene, t: Task) returns (run1: seq<World>, ops1: seq<Op>)
    requires IsRun(run, ops) && Shows(run[|ops|], s) && s.depth == 0 && t in s.places && s.places[t].Ready?
    requires forall x | x in s.places && x != t && s.places[x].Ready? ::
               x in s.priorities && t in s.priorities && s.priorities[x] < s.priorities[t]
    ensures IsRun(run1, ops1) && run1[0] == run[0] && t in s.ranks
    ensures ops1 == ops + [Switch, SuspendScheduler, WaitFor(0, MAX_DELAY), ResumeScheduler]
    ensures Shows(run1[|ops1|],
                  s.(places := s.places[t := Suspended], events := s.events[t := Event(0)], running := t,
                     waiting := InsertAt(s.waiting, InsertPosition(ValuesOf(s.waiting, s.ranks), s.ranks[t]), t)))
  {
    hide Shows, Follows, InsertAt, InsertPosition, ValuesOf;
    var w1 := SwitchesTo(run[|ops|], s, t);
    RunGrows(run, ops, Switch, w1);
    var w2 := Scenes.Suspends(w1, s.(running := t));
    RunGrows(run + [w1], ops + [Switch], SuspendScheduler, w2);
    var w3 := Waits(w2, s.(running := t, depth := 1));
    RunGrows(run + [w1] + [w2], ops + [Switch] + [SuspendScheduler], WaitFor(0, MAX_DELAY), w3);
    var s3 := s.(places := s.places[t := Suspended], events := s.events[t := Event(0)], running := t, depth := 1,
                 waiting := InsertAt(s.waiting, InsertPosition(ValuesOf(s.waiting, s.ranks), s.ranks[t]), t));
    var w4 := Resumes(w3, s3);
    RunGrows(run + [w1] + [w2] + [w3], ops + [Switch] + [SuspendScheduler] + [WaitFor(0, MAX_DELAY)], ResumeScheduler,
             w4);
    run1 := run + [w1] + [w2] + [w3] + [w4];
    ops1 := ops + [Switch] + [SuspendScheduler] + [WaitFor(0, MAX_DELAY)] + [ResumeScheduler];
  }

  /** Tasks 1 and 2, of priorities 3 and 2, wait for the event of queue 0, and task 0 runs. */
  const TWO_WAITING :=
    Scene(map[0 := Ready(0), 1 := Suspended, 2 := Suspended], map[1 := Event(0), 2 := Event(0)],
          map[0 := 6, 1 := 3, 2 := 4], map[0 := 0, 1 := 3, 2 := 2], map[0 := 0, 1 := 3, 2 := 2], 0, 0, [1, 2])

  lemma TwoWaiters() returns (run: seq<World>, ops: seq<Op>)
    ensures IsRun(run, ops) && run[0] == Initial(0, 0)
    ensures ops == [CreateTask(1, 3), CreateTask(2, 2),
                    Switch, SuspendScheduler, WaitFor(0, MAX_DELAY), ResumeScheduler,
                    Switch, SuspendScheduler, WaitFor(0, MAX_DELAY), ResumeScheduler, Switch]
    ensures Shows(run[|ops|], TWO_WAITING)
  {
    hide Shows, Follows, Initial;
    var ranks, levels := map[0 := 6, 1 := 3, 2 := 4], map[0 := 0, 1 := 3, 2 := 2];
    Start(0, 0);
    run, ops := [Initial(0, 0)], [];
    var w1 := Creates(run[0], Scene(map[0 := Ready(0)], map[], map[0 := 6], map[0 := 0], map[0 := 0], 0, 0, []), 1, 3);
    RunGrows(run, ops, CreateTask(1, 3), w1);
    run, ops := run + [w1], ops + [CreateTask(1, 3)];
    var s2 := Scene(map[0 := Ready(0), 1 := Ready(3)], map[], map[0 := 6, 1 := 3], map[0 := 0, 1 := 3],
                    map[0 := 0, 1 := 3], 0, 0, []);
    var w2 := Creates(w1, s2, 2, 2);
    RunGrows(run, ops, CreateTask(2, 2), w2);
    run, ops := run + [w2], ops + [CreateTask(2, 2)];
    var s3 := Scene(map[0 := Ready(0), 1 := Ready(3), 2 := Ready(2)], map[], ranks, levels, levels, 0, 0, []);
    run, ops := BlocksNext(run, ops, s3, 1);
    assert InsertAt([], InsertPosition(ValuesOf([], ranks), 3), 1) == [1];
    var s4 := s3.(places := s3.places[1 := Suspended], events := map[1 := Event(0)], running := 1, waiting := [1]);
    run, ops := BlocksNext(run, ops, s4, 2);
    assert ValuesOf([1], ranks) == [3];
    assert InsertAt([1], InsertPosition([3], 4), 2) == [1, 2];
    var s5 := s4.(places := s4.places[2 := Suspended], events := s4.events[2 := Event(0)], running := 2,
                  waiting := [1, 2]);
    var w6 := SwitchesTo(run[|ops|], s5, 0);
    RunGrows(run, ops, Switch, w6);
    run, ops := run + [w6], ops + [Switch];
    assert s5.places == map[0 := Ready(0), 1 := Suspended, 2 := Suspended];
  }

  /** Only changes of priority disorder. */
  lemma InOrderSoFar(run: seq<World>, ops: seq<Op>, t: Task, p: nat)
    requires IsRun(run, ops) && run[0] == Initial(t, p)
    requires forall op | op in ops :: !op.SetPriority? && !op.InheritBy?
    ensures EventsInOrder(run[|ops|].k)
  {
    hide Initial, EventsInOrder, Inv, Follows, Misplaces;
    InitialInOrder(t, p);
    RunInOrderExactly(run, ops, |ops|);
  }

  lemma Overtaken(w: World, s: Scene, w1: World)
    requires Shows(w, s) && s.waiting == [1, 2] && s.ranks == map[0 := 6, 1 := 3, 2 := 4] && EventsInOrder(w.k)
    requires 2 in s.bases && s.bases[2] == 2 && Follows(w, SetPriority(2, 5), w1)
    ensures Disorders(w, SetPriority(2, 5)) && !EventsInOrder(w1.k)
  {
    hide Inv, EventsInOrder, Step;
    var q := At(w.k, Event(0));
    assert q[1] == 2 && OutOfPlace(w.k, q, 1, RankFor(5));
    StepKeepsOrderExactly(w, SetPriority(2, 5));
  }

  lemma WakesFirst(w: World, s: Scene) returns (w1: World)
    requires Shows(w, s) && s.depth == 0 && s.waiting != []
    ensures Follows(w, Signal(0), w1) && IsReady(w1.k, s.waiting[0]) && At(w1.k, Event(0)) == s.waiting[1..]
  {
    hide Inv, Drainable, SameTasks;
    StepKeepsInv(w, Signal(0));
    SignalServes(w, 0);
    w1 := Step(w, Signal(0));
  }

  lemma ScenePriorities(w: World, s: Scene)
    requires Shows(w, s)
    ensures w.k.priority == s.priorities && w.k.rank == s.ranks && At(w.k, Event(0)) == s.waiting
  {}

  /** Then task 0 raises the priority of task 2 to 5: the list stays as it is, with the less urgent task 1
      first, and a signal wakes task 1. */
  lemma OrderLost() returns (run: seq<World>, ops: seq<Op>)
    ensures IsRun(run, ops) && run[0] == Initial(0, 0) && |ops| == 13
    ensures ops[..11] == [CreateTask(1, 3), CreateTask(2, 2),
                          Switch, SuspendScheduler, WaitFor(0, MAX_DELAY), ResumeScheduler,
                          Switch, SuspendScheduler, WaitFor(0, MAX_DELAY), ResumeScheduler, Switch]
    ensures ops[11..] == [SetPriority(2, 5), Signal(0)]
    ensures EventsInOrder(run[11].k) && Disorders(run[11], ops[11]) && !EventsInOrder(run[12].k)
    ensures At(run[12].k, Event(0)) == [1, 2] && 1 in run[12].k.priority && 2 in run[12].k.priority
    ensures run[12].k.priority[1] == 3 && run[12].k.priority[2] == 5
    ensures IsReady(run[13].k, 1) && At(run[13].k, Event(0)) == [2]
  {
    hide Shows, Follows, Initial, EventsInOrder, Disorders;
    run, ops := TwoWaiters();
    InOrderSoFar(run, ops, 0, 0);
    var s := TWO_WAITING;
    var w1 := Rebases(run[11], s, 2, 5);
    Overtaken(run[11], s, w1);
    RunGrows(run, ops, SetPriority(2, 5), w1);
    run, ops := run + [w1], ops + [SetPriority(2, 5)];
    var s1 := s.(ranks := s.ranks[2 := 1], bases := s.bases[2 := 5], priorities := s.priorities[2 := 5]);
    var w2 := WakesFirst(w1, s1);
    ScenePriorities(w1, s1);
    RunGrows(run, ops, Signal(0), w2);
    run, ops := run + [w2], ops + [Signal(0)];
  }

  /** A rank that lies: task 0, of base priority 1, has inherited priority 3 when its base priority is set to 2. */
  lemma RankLost() returns (run: seq<World>, ops: seq<Op>)
    ensures IsRun(run, ops) && run[0] == Initial(0, 1)
    ensures ops == [CreateTask(1, 3), Switch, InheritBy(0), SetPriority(0, 2)]
    ensures run[4].k.priority == map[0 := 3, 1 := 3] && run[4].k.rank == map[0 := 4, 1 := 3] && !RanksTell(run[4].k)
  {
    hide Shows, Follows, Initial;
    Start(0, 1);
    run, ops := [Initial(0, 1)], [];
    var s0 := Scene(map[0 := Ready(1)], map[], map[0 := 5], map[0 := 1], map[0 := 1], 0, 0, []);
    var w1 := Creates(run[0], s0, 1, 3);
    RunGrows(run, ops, CreateTask(1, 3), w1);
    run, ops := run + [w1], ops + [CreateTask(1, 3)];
    var s1 := s0.(places := s0.places[1 := Ready(3)], ranks := s0.ranks[1 := 3], priorities := s0.priorities[1 := 3],
                  bases := s0.bases[1 := 3]);
    var w2 := SwitchesTo(w1, s1, 1);
    RunGrows(run, ops, Switch, w2);
    run, ops := run + [w2], ops + [Switch];
    var s2 := s1.(running := 1);
    var w3 := Inherits(w2, s2, 0);
    RunGrows(run, ops, InheritBy(0), w3);
    run, ops := run + [w3], ops + [InheritBy(0)];
    var s3 := s2.(places := s2.places[0 := Ready(3)], ranks := s2.ranks[0 := 3], priorities := s2.priorities[0 := 3]);
    var w4 := Rebases(w3, s3, 0, 2);
    RunGrows(run, ops, SetPriority(0, 2), w4);
    run, ops := run + [w4], ops + [SetPriority(0, 2)];
    var s4 := s3.(ranks := s3.ranks[0 := 4], bases := s3.bases[0 := 2]);
    ScenePriorities(w4, s4);
    assert s4.ranks == map[0 := 4, 1 := 3] && s4.priorities == map[0 := 3, 1 := 3];
  }
}
