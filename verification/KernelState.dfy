// The scheduler's state (FreeRTOS/tasks.c) as one value: every list with the tasks whose items it
// holds, the container pointers, the item values, and the counters. The functions say what each
// kernel operation does to it; class KernelImpl.Kernel runs them on mutable fields.
//
// A ready list is kept in the order its cursor will visit it (Lists.Fifo); the other lists in link
// order. Lists proves that vListInsertEnd, listGET_OWNER_OF_NEXT_ENTRY and vListRemove act on that
// order as append, rotate and delete.

module KernelState {
  import opened Sequences
  import opened Ticks
  import opened Lists

  type Task = nat

  const MAX_PRIORITIES: nat := 6    // configMAX_PRIORITIES

  /** Names for xList objects. A task's generic item goes into the first five, its event item into
      the last two. */
  datatype ListId = Ready(level: nat) | DelayedA | DelayedB | Suspended | Terminated | Pending | Event(queue: nat)
  {
    predicate ForEvents() {
      Pending? || Event?
    }
  }

  datatype State = State(
    lists: map<ListId, seq<Task>>,
    generic: map<Task, ListId>,       // pvContainer of xGenericListItem
    event: map<Task, ListId>,         // pvContainer of xEventListItem; absent for NULL
    wake: map<Task, nat>,             // xItemValue of xGenericListItem
    rank: map<Task, nat>,             // xItemValue of xEventListItem
    priority: map<Task, nat>,         // uxPriority
    basePriority: map<Task, nat>,     // uxBasePriority
    delayed: ListId,                  // pxDelayedTaskList
    overflow: ListId,                 // pxOverflowDelayedTaskList
    running: Task,                    // pxCurrentTCB
    tick: nat,                        // xTickCount
    missed: nat,                      // uxMissedTicks
    overflows: nat,                   // xNumOfOverflows
    nextUnblock: nat,                 // xNextTaskUnblockTime
    topReady: nat,                    // uxTopReadyPriority
    depth: nat,                       // uxSchedulerSuspended
    deleted: nat,                     // uxTasksDeleted
    taskCount: nat,                   // uxCurrentNumberOfTasks
    missedYield: bool)                // xMissedYield

  function At(k: State, l: ListId): seq<Task> {
    if l in k.lists then k.lists[l] else []
  }

  function ValuesOf(q: seq<Task>, value: map<Task, nat>): (v: seq<nat>)
    ensures |v| == |q|
  {
    seq(|q|, i requires 0 <= i < |q| => if q[i] in value then value[q[i]] else 0)
  }

  // ----- items and lists ------------------------------------------------------------------

  /** Whether list l holds the item of t, by the item's container pointer. */
  predicate Holds(k: State, l: ListId, t: Task) {
    if l.ForEvents() then t in k.event && k.event[t] == l else t in k.generic && k.generic[t] == l
  }

  /** Lists and container pointers tell the same story: an item is in at most one list, once. */
  ghost predicate Agreement(k: State) {
    && (forall l, t :: t in At(k, l) <==> Holds(k, l, t))
    && (forall l :: NoDup(At(k, l)))
    && (forall t | t in k.generic :: !k.generic[t].ForEvents())
    && (forall t | t in k.event :: k.event[t].ForEvents())
  }

  function SetList(k: State, l: ListId, q: seq<Task>): State {
    k.(lists := k.lists[l := q])
  }

  /** vListRemove on the generic item. */
  function TakeGeneric(k: State, t: Task): State
    requires t in k.generic
  {
    var l := k.generic[t];
    SetList(k, l, Without(At(k, l), t)).(generic := k.generic - {t})
  }

  /** vListRemove on the event item, if it is in a list. */
  function TakeEvent(k: State, t: Task): State {
    if t !in k.event then k else
    var l := k.event[t];
    SetList(k, l, Without(At(k, l), t)).(event := k.event - {t})
  }

  /** Link an item into list l at position i. */
  function Link(k: State, l: ListId, t: Task, i: nat): State
    requires i <= |At(k, l)|
  {
    var k1 := SetList(k, l, InsertAt(At(k, l), i, t));
    if l.ForEvents() then k1.(event := k.event[t := l]) else k1.(generic := k.generic[t := l])
  }

  /** vListInsertEnd. */
  function Append(k: State, l: ListId, t: Task): State {
    Link(k, l, t, |At(k, l)|)
  }

  /** vListInsert for the generic item: in wake-time order. */
  function InsertByWake(k: State, l: ListId, t: Task): State
    requires t in k.wake
  {
    Link(k, l, t, InsertPosition(ValuesOf(At(k, l), k.wake), k.wake[t]))
  }

  /** vListInsert for the event item: in priority order. */
  function InsertByRank(k: State, l: ListId, t: Task): State
    requires t in k.rank
  {
    Link(k, l, t, InsertPosition(ValuesOf(At(k, l), k.rank), k.rank[t]))
  }

  /** prvAddTaskToReadyQueue. */
  function AddReady(k: State, t: Task): State
    requires t in k.priority
  {
    var p := k.priority[t];
    Append(k, Ready(p), t).(topReady := if p > k.topReady then p else k.topReady)
  }

  /** Out of whatever lists hold the task and to the end of list l. */
  function Relocate(k: State, t: Task, l: ListId): State
    requires t in k.generic
  {
    Append(TakeEvent(TakeGeneric(k, t), t), l, t)
  }

  /** Out of whatever lists hold the task and into its ready list. */
  function MakeReady(k: State, t: Task): State
    requires t in k.generic && t in k.priority
  {
    AddReady(TakeEvent(TakeGeneric(k, t), t), t)
  }

  // ----- time -----------------------------------------------------------------------------

  /** prvAddCurrentTaskToDelayedList, after the task has left its ready list. */
  function AddDelayed(k: State, t: Task, wakeTick: nat): State {
    var k1 := k.(wake := k.wake[t := wakeTick]);
    if wakeTick < k.tick then
      InsertByWake(k1, k.overflow, t)
    else
      InsertByWake(k1, k.delayed, t).(nextUnblock := if wakeTick < k.nextUnblock then wakeTick else k.nextUnblock)
  }

  function BlockUntil(k: State, wakeTick: nat): State
    requires k.running in k.generic
  {
    AddDelayed(TakeGeneric(k, k.running), k.running, wakeTick)
  }

  /** The decision of vTaskDelayUntil, on wrapped times. */
  predicate ShouldDelay(tick: nat, previousWake: nat, increment: nat) {
    var timeToWake := Tick(previousWake + increment);
    if tick < previousWake then timeToWake < previousWake && timeToWake > tick
    else timeToWake < previousWake || timeToWake > tick
  }

  /** The state that prvCheckDelayedTasks works on. */
  ghost predicate Drainable(k: State) {
    && Agreement(k)
    && k.delayed in {DelayedA, DelayedB} && k.overflow in {DelayedA, DelayedB} && k.delayed != k.overflow
    && k.event.Keys <= k.generic.Keys <= k.priority.Keys && k.generic.Keys <= k.wake.Keys
  }

  // ----- the list primitives keep lists and container pointers in agreement -----------------

  lemma TakeGenericLists(k: State, t: Task)
    requires Agreement(k) && t in k.generic
    ensures forall m :: At(TakeGeneric(k, t), m) == if m.ForEvents() then At(k, m) else Without(At(k, m), t)
  {
    forall m
      ensures At(TakeGeneric(k, t), m) == if m.ForEvents() then At(k, m) else Without(At(k, m), t)
    {
      assert t in At(k, m) <==> Holds(k, m, t);
    }
  }

  lemma TakeGenericAgrees(k: State, t: Task)
    requires Agreement(k) && t in k.generic
    ensures Agreement(TakeGeneric(k, t))
    ensures forall m :: At(TakeGeneric(k, t), m) == if m.ForEvents() then At(k, m) else Without(At(k, m), t)
  {
    TakeGenericLists(k, t);
    var k1 := TakeGeneric(k, t);
    assert Holds(k, k.generic[t], t);
    WithoutNoDup(At(k, k.generic[t]), t);
    forall l, x
      ensures x in At(k1, l) <==> Holds(k1, l, x)
    {
      assert x in At(k, l) <==> Holds(k, l, x);
    }
    assert forall l :: NoDup(At(k, l)) ==> NoDup(At(k1, l));
  }

  lemma TakeEventLists(k: State, t: Task)
    requires Agreement(k)
    ensures TakeEvent(k, t) == k.(lists := TakeEvent(k, t).lists, event := k.event - {t})
    ensures forall m :: At(TakeEvent(k, t), m) == if m.ForEvents() then Without(At(k, m), t) else At(k, m)
  {
    forall m
      ensures At(TakeEvent(k, t), m) == if m.ForEvents() then Without(At(k, m), t) else At(k, m)
    {
      assert t in At(k, m) <==> Holds(k, m, t);
    }
    if t !in k.event {
      assert k.event - {t} == k.event;
    }
  }

  lemma TakeEventAgrees(k: State, t: Task)
    requires Agreement(k)
    ensures Agreement(TakeEvent(k, t))
    ensures TakeEvent(k, t) == k.(lists := TakeEvent(k, t).lists, event := k.event - {t})
    ensures forall m :: At(TakeEvent(k, t), m) == if m.ForEvents() then Without(At(k, m), t) else At(k, m)
  {
    TakeEventLists(k, t);
    var k1 := TakeEvent(k, t);
    if t in k.event {
      assert Holds(k, k.event[t], t);
      WithoutNoDup(At(k, k.event[t]), t);
      forall l, x
        ensures x in At(k1, l) <==> Holds(k1, l, x)
      {
        assert x in At(k, l) <==> Holds(k, l, x);
      }
      assert forall l :: NoDup(At(k, l)) ==> NoDup(At(k1, l));
    }
  }

  lemma LinkAgrees(k: State, l: ListId, t: Task, i: nat)
    requires Agreement(k) && i <= |At(k, l)|
    requires if l.ForEvents() then t !in k.event else t !in k.generic
    ensures Agreement(Link(k, l, t, i))
  {
    var k1 := Link(k, l, t, i);
    assert !Holds(k, l, t);
    InsertAtMembers(At(k, l), i, t);
    forall m, x
      ensures x in At(k1, m) <==> Holds(k1, m, x)
    {
      assert x in At(k, m) <==> Holds(k, m, x);
    }
    assert forall m :: NoDup(At(k, m)) ==> NoDup(At(k1, m));
  }

  /** What relocating a task does to every list and pointer. */
  lemma RelocateEffect(k: State, t: Task, l: ListId)
    requires Agreement(k) && t in k.generic && !l.ForEvents()
    ensures var r := Relocate(k, t, l);
            && Agreement(r)
            && r == k.(lists := r.lists, generic := k.generic[t := l], event := k.event - {t})
            && (forall m :: At(r, m) == if m == l then Without(At(k, m), t) + [t] else Without(At(k, m), t))
  {
    hide Agreement, Append;
    TakeGenericAgrees(k, t);
    var k1 := TakeGeneric(k, t);
    TakeEventAgrees(k1, t);
    var k2 := TakeEvent(k1, t);
    assert forall m :: At(k2, m) == Without(At(k, m), t);
    AppendEffect(k2, l, t);
    PutBack(k.generic, t, l);
  }

  lemma PutBack(m: map<Task, ListId>, t: Task, l: ListId)
    ensures (m - {t})[t := l] == m[t := l]
  {}

  lemma AppendEffect(k: State, l: ListId, t: Task)
    requires Agreement(k)
    requires if l.ForEvents() then t !in k.event else t !in k.generic
    ensures var r := Append(k, l, t);
            && Agreement(r)
            && At(r, l) == At(k, l) + [t]
            && (forall m | m != l :: At(r, m) == At(k, m))
            && r == if l.ForEvents() then k.(lists := r.lists, event := k.event[t := l])
                    else k.(lists := r.lists, generic := k.generic[t := l])
  {
    LinkAgrees(k, l, t, |At(k, l)|);
  }

  /** Only the lists and the container pointers matter for agreement. */
  lemma SameListsAgree(k: State, k1: State)
    requires Agreement(k) && k1.lists == k.lists && k1.generic == k.generic && k1.event == k.event
    ensures Agreement(k1) && forall m :: At(k1, m) == At(k, m)
  {
    assert forall m :: At(k1, m) == At(k, m);
    assert forall m, x :: Holds(k1, m, x) == Holds(k, m, x);
  }

  lemma TakingKeepsPriorities(k: State, t: Task)
    requires t in k.generic
    ensures var r := TakeEvent(TakeGeneric(k, t), t); r.priority == k.priority && r.topReady == k.topReady
  {}

  lemma MakeReadyEffect(k: State, t: Task)
    requires Agreement(k) && t in k.generic && t in k.priority
    ensures var r := MakeReady(k, t);
            var l := Ready(k.priority[t]);
            && Agreement(r)
            && r == k.(lists := r.lists, generic := k.generic[t := l], event := k.event - {t},
                       topReady := if k.priority[t] > k.topReady then k.priority[t] else k.topReady)
            && (forall m :: At(r, m) == if m == l then Without(At(k, m), t) + [t] else Without(At(k, m), t))
  {
    hide Agreement, TakeGeneric, TakeEvent, Append;
    var r := Relocate(k, t, Ready(k.priority[t]));
    RelocateEffect(k, t, Ready(k.priority[t]));
    TakingKeepsPriorities(k, t);
    SameListsAgree(r, MakeReady(k, t));
  }

  // ----- draining loops -------------------------------------------------------------------

  /** The loop of prvCheckDelayedTasks. */
  function Drain(k: State): State
    requires Drainable(k)
    decreases |At(k, k.delayed)|
  {
    var q := At(k, k.delayed);
    if q == [] then k.(nextUnblock := MAX_DELAY)
    else
      assert Holds(k, k.delayed, q[0]);
      if k.tick < k.wake[q[0]] then k.(nextUnblock := k.wake[q[0]])
      else
        MakeReadyEffect(k, q[0]);
        Drain(MakeReady(k, q[0]))
  }

  /** prvCheckDelayedTasks. */
  function CheckDelayed(k: State): State
    requires Drainable(k)
  {
    if k.tick >= k.nextUnblock then Drain(k) else k
  }

  /** The rollover branch of vTaskIncrementTick. */
  function SwapDelayLists(k: State): State
    requires Drainable(k)
  {
    var q := At(k, k.overflow);
    assert q != [] ==> Holds(k, k.overflow, q[0]);
    k.(delayed := k.overflow, overflow := k.delayed, overflows := Tick(k.overflows + 1),
       nextUnblock := if q == [] then MAX_DELAY else k.wake[q[0]])
  }

  lemma SwapAgrees(k: State)
    requires Drainable(k)
    ensures Drainable(SwapDelayLists(k))
  {
    SameListsAgree(k, SwapDelayLists(k));
  }

  /** vTaskIncrementTick up to the check of the delayed tasks. */
  function AdvanceTick(k: State): State
    requires Drainable(k)
  {
    var k1 := k.(tick := Tick(k.tick + 1));
    if k1.tick != 0 then k1 else TickAgrees(k, k1); SwapDelayLists(k1)
  }

  lemma AdvanceAgrees(k: State)
    requires Drainable(k)
    ensures Drainable(AdvanceTick(k))
  {
    var k1 := k.(tick := Tick(k.tick + 1));
    TickAgrees(k, k1);
    SwapAgrees(k1);
  }

  /** vTaskIncrementTick. */
  function IncrementTick(k: State): State
    requires Drainable(k)
  {
    if k.depth != 0 then k.(missed := Tick(k.missed + 1))
    else
      AdvanceAgrees(k);
      CheckDelayed(AdvanceTick(k))
  }

  lemma TickAgrees(k: State, k1: State)
    requires Drainable(k)
    requires k1 == k.(tick := k1.tick, missed := k1.missed, depth := k1.depth, missedYield := k1.missedYield,
                      nextUnblock := k1.nextUnblock)
    ensures Drainable(k1)
  {
    SameListsAgree(k, k1);
  }

  lemma {:induction false} DrainDrainable(k: State)
    requires Drainable(k)
    ensures Drainable(Drain(k))
    decreases |At(k, k.delayed)|
  {
    var q := At(k, k.delayed);
    if q == [] {
      TickAgrees(k, Drain(k));
    } else {
      assert Holds(k, k.delayed, q[0]);
      if k.tick < k.wake[q[0]] {
        TickAgrees(k, Drain(k));
      } else {
        MakeReadyEffect(k, q[0]);
        DrainDrainable(MakeReady(k, q[0]));
      }
    }
  }

  lemma CheckDelayedDrainable(k: State)
    requires Drainable(k)
    ensures Drainable(CheckDelayed(k))
    ensures var r := CheckDelayed(k);
            r == k.(lists := r.lists, generic := r.generic, event := r.event, topReady := r.topReady,
                    nextUnblock := r.nextUnblock)
  {
    DrainDrainable(k);
    DrainKeepsCounters(k);
  }

  lemma IncrementTickDrainable(k: State)
    requires Drainable(k) && k.depth == 0
    ensures var r := IncrementTick(k);
            Drainable(r) && r.depth == 0 && r.missed == k.missed
  {
    AdvanceAgrees(k);
    CheckDelayedDrainable(AdvanceTick(k));
  }

  /** Draining changes lists, event pointers, the ready bound and the cached wake time; nothing else. */
  lemma {:induction false} DrainKeepsCounters(k: State)
    requires Drainable(k)
    ensures var r := Drain(k);
            r == k.(lists := r.lists, generic := r.generic, event := r.event, topReady := r.topReady,
                    nextUnblock := r.nextUnblock)
    decreases |At(k, k.delayed)|
  {
    var q := At(k, k.delayed);
    if q != [] {
      assert Holds(k, k.delayed, q[0]);
      if k.tick >= k.wake[q[0]] {
        MakeReadyEffect(k, q[0]);
        DrainKeepsCounters(MakeReady(k, q[0]));
      }
    }
  }

  /** The first loop of xTaskResumeAll: everything on the pending list becomes ready. */
  function DrainPending(k: State): State
    requires Drainable(k)
    decreases |At(k, Pending)|
  {
    var q := At(k, Pending);
    if q == [] then k
    else
      assert Holds(k, Pending, q[0]);
      MakeReadyEffect(k, q[0]);
      DrainPending(MakeReady(k, q[0]))
  }

  /** The second loop of xTaskResumeAll: the missed ticks are replayed. */
  function CatchUp(k: State): State
    requires Drainable(k) && k.depth == 0
    decreases k.missed
  {
    if k.missed == 0 then k
    else
      IncrementTickDrainable(k);
      var k1 := IncrementTick(k);
      TickAgrees(k1, k1.(missed := k1.missed - 1));
      CatchUp(k1.(missed := k1.missed - 1))
  }

  // ----- the kernel's operations ------------------------------------------------------------

  function ClipPriority(p: nat): (r: nat)
    ensures r < MAX_PRIORITIES && r <= p && (r == p || r == MAX_PRIORITIES - 1)
  {
    if p >= MAX_PRIORITIES then MAX_PRIORITIES - 1 else p
  }

  /** xTaskGenericCreate, once the scheduler runs. */
  function Create(k: State, t: Task, requested: nat): State
    requires t !in k.generic
  {
    var p := ClipPriority(requested);
    AddReady(k.(taskCount := k.taskCount + 1, wake := k.wake[t := 0], rank := k.rank[t := MAX_PRIORITIES - p],
                priority := k.priority[t := p], basePriority := k.basePriority[t := p]), t)
  }

  /** vTaskDelete. */
  function Delete(k: State, t: Task): State
    requires t in k.generic
  {
    Relocate(k, t, Terminated).(deleted := k.deleted + 1)
  }

  /** prvCheckTasksWaitingTermination: the idle task frees one deleted task. */
  function Reap(k: State): State
    requires forall t | t in At(k, Terminated) :: t in k.generic
  {
    var q := At(k, Terminated);
    if k.deleted == 0 || q == [] then k
    else
      var k1 := TakeGeneric(k, q[0]);
      k1.(taskCount := if k.taskCount > 0 then k.taskCount - 1 else 0, deleted := k.deleted - 1,
          wake := k.wake - {q[0]}, rank := k.rank - {q[0]},
          priority := k.priority - {q[0]}, basePriority := k.basePriority - {q[0]})
  }

  /** vTaskDelay for a non-zero delay, between its vTaskSuspendAll and xTaskResumeAll. */
  function Delay(k: State, ticks: nat): State
    requires k.running in k.generic
  {
    BlockUntil(k, Tick(k.tick + ticks))
  }

  /** vTaskDelayUntil, between its vTaskSuspendAll and xTaskResumeAll. */
  function DelayUntil(k: State, previousWake: nat, increment: nat): State
    requires k.running in k.generic
  {
    if ShouldDelay(k.tick, previousWake, increment) then BlockUntil(k, Tick(previousWake + increment)) else k
  }

  /** vTaskPlaceOnEventList: wait for an event of a queue, with a time limit or without. */
  function PlaceOnEventList(k: State, queue: nat, ticks: nat): State
    requires k.running in k.generic && k.running in k.rank
  {
    var k1 := TakeGeneric(InsertByRank(k, Event(queue), k.running), k.running);
    if ticks == MAX_DELAY then Append(k1, Suspended, k.running)
    else AddDelayed(k1, k.running, Tick(k.tick + ticks))
  }

  /** xTaskRemoveFromEventList: wake the first waiter, at once or when the scheduler resumes. */
  function RemoveFromEventList(k: State, queue: nat): State
    requires At(k, Event(queue)) != []
    requires var t := At(k, Event(queue))[0]; t in k.generic && t in k.priority
  {
    var t := At(k, Event(queue))[0];
    if k.depth == 0 then MakeReady(k, t) else Append(TakeEvent(k, t), Pending, t)
  }

  /** vTaskSuspend. */
  function Suspend(k: State, t: Task): State
    requires t in k.generic
  {
    Relocate(k, t, Suspended)
  }

  /** xTaskIsTaskSuspended. */
  predicate IsTaskSuspended(k: State, t: Task) {
    && t in k.generic && k.generic[t] == Suspended
    && !(t in k.event && k.event[t] == Pending)
    && t !in k.event
  }

  /** vTaskResume. */
  function Resume(k: State, t: Task): State
    requires t in k.generic && t in k.priority
  {
    if t != k.running && IsTaskSuspended(k, t) then AddReady(TakeGeneric(k, t), t) else k
  }

  /** xTaskResumeFromISR. */
  function ResumeFromISR(k: State, t: Task): State
    requires t in k.generic && t in k.priority
  {
    if !IsTaskSuspended(k, t) then k
    else if k.depth == 0 then AddReady(TakeGeneric(k, t), t)
    else Append(k, Pending, t)
  }

  /** vTaskPrioritySet. */
  function PrioritySet(k: State, t: Task, requested: nat): State
    requires t in k.generic && t in k.priority && t in k.basePriority
  {
    var p := ClipPriority(requested);
    var current := k.basePriority[t];
    if current == p then k
    else
      var k1 := k.(priority := if k.basePriority[t] == k.priority[t] then k.priority[t := p] else k.priority,
                   basePriority := k.basePriority[t := p], rank := k.rank[t := MAX_PRIORITIES - p]);
      if k.generic[t] == Ready(current) then AddReady(TakeGeneric(k1, t), t) else k1
  }

  /** vTaskPriorityInherit: the mutex holder runs at the priority of the task about to wait for it. */
  function Inherit(k: State, holder: Task): State
    requires holder in k.generic && holder in k.priority && k.running in k.priority
  {
    var p := k.priority[k.running];
    if k.priority[holder] >= p then k
    else
      var k1 := k.(rank := k.rank[holder := if p < MAX_PRIORITIES then MAX_PRIORITIES - p else 0],
                   priority := k.priority[holder := p]);
      if k.generic[holder] == Ready(k.priority[holder]) then AddReady(TakeGeneric(k1, holder), holder) else k1
  }

  /** vTaskPriorityDisinherit: back to the base priority. */
  function Disinherit(k: State, holder: Task): State
    requires holder in k.generic && holder in k.priority && holder in k.basePriority
  {
    var p := k.basePriority[holder];
    if k.priority[holder] == p then k
    else
      AddReady(TakeGeneric(k, holder).(priority := k.priority[holder := p],
                                       rank := k.rank[holder := if p < MAX_PRIORITIES then MAX_PRIORITIES - p else 0]),
               holder)
  }

  /** vTaskSuspendAll. */
  function SuspendAll(k: State): State {
    k.(depth := k.depth + 1)
  }

  /** Whether xTaskResumeAll asks for a yield. */
  predicate ResumeYields(k: State) {
    && k.depth == 1 && k.taskCount > 0
    && (k.missed > 0 || k.missedYield
        || exists t | t in At(k, Pending) ::
             t in k.priority && k.running in k.priority && k.priority[t] >= k.priority[k.running])
  }

  /** xTaskResumeAll. */
  function ResumeAll(k: State): State
    requires Drainable(k) && k.depth > 0
  {
    var k1 := k.(depth := k.depth - 1);
    if k1.depth != 0 || k1.taskCount == 0 then k1
    else
      TickAgrees(k, k1);
      DrainPendingDrainable(k1);
      var k2 := CatchUp(DrainPending(k1));
      if ResumeYields(k) then k2.(missedYield := false) else k2
  }

  lemma {:induction false} DrainPendingDrainable(k: State)
    requires Drainable(k)
    ensures var r := DrainPending(k);
            && Drainable(r)
            && r == k.(lists := r.lists, generic := r.generic, event := r.event, topReady := r.topReady)
    decreases |At(k, Pending)|
  {
    var q := At(k, Pending);
    if q != [] {
      assert Holds(k, Pending, q[0]);
      MakeReadyEffect(k, q[0]);
      DrainPendingDrainable(MakeReady(k, q[0]));
    }
  }

  /** The highest priority up to p with a ready task; 0 if there is none. */
  function TopNonEmpty(k: State, p: nat): (r: nat)
    ensures r <= p && forall i | r < i <= p :: At(k, Ready(i)) == []
    ensures r == 0 || At(k, Ready(r)) != []
  {
    if p == 0 || At(k, Ready(p)) != [] then p else TopNonEmpty(k, p - 1)
  }

  /** vTaskSwitchContext: the next task of the highest-priority non-empty ready list runs. */
  function SwitchContext(k: State): State {
    if k.depth != 0 then k.(missedYield := true)
    else
      var p := TopNonEmpty(k, k.topReady);
      var q := At(k, Ready(p));
      if q == [] then k.(topReady := p)
      else SetList(k, Ready(p), q[1..] + [q[0]]).(topReady := p, running := q[0])
  }
}
