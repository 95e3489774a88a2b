// Priority inheritance over runs: what the priority of a mutex holder is while it holds the mutex
// (FreeRTOS/queue.c calls vTaskPriorityInherit for each task about to wait, vTaskPriorityDisinherit
// when the mutex is given back).

module PriorityInheritance {
  import opened Sequences
  import opened Ticks
  import opened Lists
  import opened KernelState
  import opened KernelWorld
  import opened KernelOps
  import opened KernelRuns

  /** An operation that sets neither priority of the task t. */
  predicate Undisturbed(op: Op, t: Task) {
    && !(op.SetPriority? && op.t == t)
    && !(op.InheritBy? && op.t == t)
    && !(op.DisinheritBy? && op.t == t)
  }

  ghost predicate SamePriorities(k: State, k1: State, t: Task) {
    && t in k.priority && t in k1.priority && k1.priority[t] == k.priority[t]
    && t in k.basePriority && t in k1.basePriority && k1.basePriority[t] == k.basePriority[t]
  }

  // ----- list operations leave priorities and ranks alone -----------------------------------------

  ghost predicate SameMaps(k: State, k1: State) {
    k1.priority == k.priority && k1.basePriority == k.basePriority && k1.rank == k.rank
  }

  lemma TakeMaps(k: State, t: Task)
    ensures t in k.generic ==> SameMaps(k, TakeGeneric(k, t))
    ensures SameMaps(k, TakeEvent(k, t))
  {}

  lemma LinkAtMaps(k: State, l: ListId, t: Task, i: nat)
    requires i <= |At(k, l)|
    ensures SameMaps(k, Link(k, l, t, i))
  {}

  lemma LinkMaps(k: State, l: ListId, t: Task)
    ensures SameMaps(k, Append(k, l, t))
    ensures t in k.wake ==> SameMaps(k, InsertByWake(k, l, t))
    ensures t in k.rank ==> SameMaps(k, InsertByRank(k, l, t))
    ensures t in k.priority ==> SameMaps(k, AddReady(k, t))
  {
    hide Link;
    LinkAtMaps(k, l, t, |At(k, l)|);
    if t in k.wake {
      LinkAtMaps(k, l, t, InsertPosition(ValuesOf(At(k, l), k.wake), k.wake[t]));
    }
    if t in k.rank {
      LinkAtMaps(k, l, t, InsertPosition(ValuesOf(At(k, l), k.rank), k.rank[t]));
    }
    if t in k.priority {
      LinkAtMaps(k, Ready(k.priority[t]), t, |At(k, Ready(k.priority[t]))|);
    }
  }

  lemma RelocateMaps(k: State, t: Task, l: ListId)
    requires t in k.generic
    ensures SameMaps(k, Relocate(k, t, l))
    ensures t in k.priority ==> SameMaps(k, MakeReady(k, t))
  {
    hide TakeGeneric, TakeEvent, Append, AddReady;
    TakeMaps(k, t);
    TakeMaps(TakeGeneric(k, t), t);
    LinkMaps(TakeEvent(TakeGeneric(k, t), t), l, t);
  }

  lemma RequeueMaps(k: State, t: Task)
    requires t in k.generic && t in k.priority
    ensures TakeGeneric(k, t).priority == k.priority && SameMaps(k, AddReady(TakeGeneric(k, t), t))
  {
    hide TakeGeneric, AddReady;
    TakeMaps(k, t);
    LinkMaps(TakeGeneric(k, t), Suspended, t);
  }

  lemma AddDelayedMaps(k: State, t: Task, v: nat)
    ensures SameMaps(k, AddDelayed(k, t, v))
  {
    hide InsertByWake;
    LinkMaps(k.(wake := k.wake[t := v]), k.overflow, t);
    LinkMaps(k.(wake := k.wake[t := v]), k.delayed, t);
  }

  lemma SleepMaps(k: State, t: Task, v: nat)
    requires t in k.generic
    ensures SameMaps(k, AddDelayed(TakeGeneric(k, t), t, v)) && SameMaps(k, Append(TakeGeneric(k, t), Suspended, t))
  {
    hide TakeGeneric, AddDelayed, Append;
    TakeMaps(k, t);
    AddDelayedMaps(TakeGeneric(k, t), t, v);
    LinkMaps(TakeGeneric(k, t), Suspended, t);
  }

  lemma TickMaps(k: State)
    requires Drainable(k)
    ensures SameMaps(k, IncrementTick(k))
  {
    hide Drainable, CheckDelayed;
    AdvanceAgrees(k);
    AdvanceMaps(k);
    CheckDelayedDrainable(AdvanceTick(k));
  }

  lemma AdvanceMaps(k: State)
    requires Drainable(k)
    ensures SameMaps(k, AdvanceTick(k))
  {
    hide AdvanceTick, Drainable;
    AdvanceLists(k);
  }

  lemma {:induction false} CatchUpMaps(k: State)
    requires Drainable(k) && k.depth == 0
    ensures SameMaps(k, CatchUp(k))
    decreases k.missed
  {
    hide Drainable, IncrementTick;
    if k.missed > 0 {
      IncrementTickDrainable(k);
      TickMaps(k);
      var k1 := IncrementTick(k);
      TickAgrees(k1, k1.(missed := k1.missed - 1));
      CatchUpMaps(k1.(missed := k1.missed - 1));
    }
  }

  lemma ResumeMaps(k: State)
    requires Drainable(k) && k.depth > 0
    ensures SameMaps(k, ResumeAll(k))
  {
    hide Drainable, CatchUp, DrainPending, ResumeYields;
    var k1 := k.(depth := k.depth - 1);
    if k1.depth == 0 && k1.taskCount != 0 {
      TickAgrees(k, k1);
      DrainPendingDrainable(k1);
      CatchUpMaps(DrainPending(k1));
    }
  }

  // ----- operations on other tasks ------------------------------------------------------------------

  lemma CreateMaps(k: State, x: Task, p: nat, t: Task)
    requires x !in k.generic && t in k.priority && t in k.basePriority && t != x
    ensures SamePriorities(k, Create(k, x, p), t)
  {
    hide AddReady;
    var q := ClipPriority(p);
    LinkMaps(k.(taskCount := k.taskCount + 1, wake := k.wake[x := 0], rank := k.rank[x := MAX_PRIORITIES - q],
                priority := k.priority[x := q], basePriority := k.basePriority[x := q]), Suspended, x);
  }

  lemma ReapMaps(k: State, t: Task)
    requires (forall x | x in At(k, Terminated) :: x in k.generic) && t in k.priority && t in k.basePriority
    requires t in Reap(k).generic
    ensures SamePriorities(k, Reap(k), t)
  {}

  lemma PrioritySetMaps(k: State, x: Task, p: nat, t: Task)
    requires SameTasks(k) && x in k.generic && t in k.generic && t != x
    ensures SamePriorities(k, PrioritySet(k, x, p), t)
  {
    hide TakeGeneric, AddReady;
    var q := ClipPriority(p);
    var k1 := k.(priority := if k.basePriority[x] == k.priority[x] then k.priority[x := q] else k.priority,
                 basePriority := k.basePriority[x := q], rank := k.rank[x := MAX_PRIORITIES - q]);
    RequeueMaps(k1, x);
  }

  lemma InheritMaps(k: State, x: Task, t: Task)
    requires SameTasks(k) && x in k.generic && t in k.generic && k.running in k.generic && t != x
    ensures SamePriorities(k, Inherit(k, x), t)
  {
    InheritedPriorities(k, x);
  }

  /** The value of the event item of a task at priority p. */
  function RankFor(p: nat): nat {
    if p < MAX_PRIORITIES then MAX_PRIORITIES - p else 0
  }

  /** Inheritance is a maximum. */
  lemma InheritedPriorities(k: State, x: Task)
    requires SameTasks(k) && x in k.generic && k.running in k.generic
    ensures var p := if k.priority[x] >= k.priority[k.running] then k.priority[x] else k.priority[k.running];
            Inherit(k, x).priority == k.priority[x := p] && Inherit(k, x).basePriority == k.basePriority
    ensures Inherit(k, x).rank == if k.priority[x] >= k.priority[k.running] then k.rank
                                  else k.rank[x := RankFor(k.priority[k.running])]
  {
    hide TakeGeneric, AddReady;
    var p := k.priority[k.running];
    if k.priority[x] < p {
      RequeueMaps(k.(rank := k.rank[x := if p < MAX_PRIORITIES then MAX_PRIORITIES - p else 0],
                     priority := k.priority[x := p]), x);
    } else {
      assert k.priority == k.priority[x := k.priority[x]];
    }
  }

  lemma DisinheritedPriorities(k: State, x: Task)
    requires SameTasks(k) && x in k.generic
    ensures Disinherit(k, x).priority == k.priority[x := k.basePriority[x]]
            && Disinherit(k, x).basePriority == k.basePriority
    ensures Disinherit(k, x).rank == if k.priority[x] == k.basePriority[x] then k.rank
                                     else k.rank[x := RankFor(k.basePriority[x])]
  {
    hide TakeGeneric, AddReady;
    var p := k.basePriority[x];
    if k.priority[x] != p {
      TakeMaps(k, x);
      LinkMaps(TakeGeneric(k, x).(priority := k.priority[x := p],
                                  rank := k.rank[x := if p < MAX_PRIORITIES then MAX_PRIORITIES - p else 0]),
               Suspended, x);
    } else {
      assert k.priority == k.priority[x := p];
    }
  }

  lemma SignalMaps(k: State, queue: nat)
    requires At(k, Event(queue)) != []
    requires var x := At(k, Event(queue))[0]; x in k.generic && x in k.priority
    ensures SameMaps(k, RemoveFromEventList(k, queue))
  {
    hide MakeReady, TakeEvent, Append;
    var x := At(k, Event(queue))[0];
    RelocateMaps(k, x, Suspended);
    TakeMaps(k, x);
    LinkMaps(TakeEvent(k, x), Pending, x);
  }

  lemma WaitMaps(k: State, queue: nat, ticks: nat)
    requires k.running in k.generic && k.running in k.rank
    ensures SameMaps(k, PlaceOnEventList(k, queue, ticks))
  {
    hide TakeGeneric, AddDelayed, Append, InsertByRank;
    LinkMaps(k, Event(queue), k.running);
    RankKeepsGeneric(k, Event(queue), k.running);
    SleepMaps(InsertByRank(k, Event(queue), k.running), k.running, Tick(k.tick + ticks));
  }

  lemma ResumeTaskMaps(k: State, x: Task)
    requires x in k.generic && x in k.priority
    ensures SameMaps(k, Resume(k, x)) && SameMaps(k, ResumeFromISR(k, x))
  {
    hide TakeGeneric, AddReady, Append, IsTaskSuspended;
    RequeueMaps(k, x);
    LinkMaps(k, Pending, x);
  }

  lemma CounterMaps(k: State)
    ensures SameMaps(k, SuspendAll(k)) && SameMaps(k, SwitchContext(k))
  {
    hide At, TopNonEmpty;
    if k.depth == 0 && At(k, Ready(TopNonEmpty(k, k.topReady))) != [] {
      var p := TopNonEmpty(k, k.topReady);
      var q := At(k, Ready(p));
      assert SwitchContext(k) == SetList(k, Ready(p), q[1..] + [q[0]]).(topReady := p, running := q[0]);
    }
  }

  lemma DelayMaps(k: State, previousWake: nat, increment: nat)
    requires k.running in k.generic
    ensures SameMaps(k, Delay(k, increment)) && SameMaps(k, DelayUntil(k, previousWake, increment))
  {
    hide TakeGeneric, AddDelayed, SameMaps;
    SleepMaps(k, k.running, Tick(k.tick + increment));
    SleepMaps(k, k.running, Tick(previousWake + increment));
    assert SameMaps(k, k) by { SameMapsReflexive(k); }
  }

  lemma SameMapsReflexive(k: State)
    ensures SameMaps(k, k)
  {}

  lemma DeleteMaps(k: State, t: Task)
    requires t in k.generic
    ensures SameMaps(k, Delete(k, t)) && SameMaps(k, Suspend(k, t))
  {
    hide Relocate;
    RelocateMaps(k, t, Terminated);
    RelocateMaps(k, t, Suspended);
  }

  lemma BlockingStepMaps(w: World, op: Op)
    requires Inv(w) && Enabled(w, op) && Drainable(w.k) && SameTasks(w.k)
    requires op.DelayFor? || op.DelayTo? || op.WaitFor? || op.Signal? || op.TickInterrupt? || op.ResumeScheduler?
    ensures SameMaps(w.k, Step(w, op).k)
  {
    hide SameMaps, Inv, Drainable, SameTasks, Step, Enabled;
    if op.ResumeScheduler? || op.TickInterrupt? {
      TimeStepMaps(w, op);
    } else {
      EventStepMaps(w, op);
    }
  }

  lemma TimeStepMaps(w: World, op: Op)
    requires Enabled(w, op) && Drainable(w.k) && SameTasks(w.k) && (op.ResumeScheduler? || op.TickInterrupt?)
    ensures SameMaps(w.k, Step(w, op).k)
  {
    hide SameMaps, Drainable, SameTasks, ResumeAll, IncrementTick;
    match op
    case ResumeScheduler => ResumeMaps(w.k);
    case TickInterrupt => TickMaps(w.k);
  }

  lemma EventStepMaps(w: World, op: Op)
    requires Inv(w) && Enabled(w, op) && Drainable(w.k) && SameTasks(w.k)
    requires op.DelayFor? || op.DelayTo? || op.WaitFor? || op.Signal?
    ensures SameMaps(w.k, Step(w, op).k)
  {
    hide SameMaps, Inv, Drainable, At, Delay, DelayUntil, PlaceOnEventList, RemoveFromEventList;
    match op
    case DelayFor(ticks) => DelayMaps(w.k, 0, ticks);
    case DelayTo(previousWake, increment) => DelayMaps(w.k, Tick(previousWake), increment);
    case WaitFor(queue, ticks) => WaitMaps(w.k, queue, ticks);
    case Signal(queue) => WaiterKnown(w, queue); SignalMaps(w.k, queue);
  }

  lemma WaiterKnown(w: World, queue: nat)
    requires Inv(w) && At(w.k, Event(queue)) != []
    ensures At(w.k, Event(queue))[0] in w.k.generic && At(w.k, Event(queue))[0] in w.k.priority
  {
    hide Core;
    Waiting(w, queue);
  }

  lemma OtherStepMaps(w: World, op: Op)
    requires Inv(w) && Enabled(w, op) && Drainable(w.k) && SameTasks(w.k)
    requires op.DeleteTask? || op.SuspendTask? || op.ResumeTask? || op.ResumeTaskFromISR? || op.SuspendScheduler?
             || op.Switch?
    ensures SameMaps(w.k, Step(w, op).k)
  {
    hide SameMaps, Inv, Core, Drainable, Delete, Suspend, Resume, ResumeFromISR, SuspendAll, SwitchContext;
    match op
    case DeleteTask(x) => DeleteMaps(w.k, x);
    case SuspendTask(x) => DeleteMaps(w.k, x);
    case ResumeTask(x) => ResumeTaskMaps(w.k, x);
    case ResumeTaskFromISR(x) => ResumeTaskMaps(w.k, x);
    case SuspendScheduler => CounterMaps(w.k);
    case Switch => CounterMaps(w.k);
  }

  /** No other operation changes the priorities of a task that stays in existence. */
  lemma StepKeepsPriorities(w: World, op: Op, t: Task)
    requires Inv(w) && Enabled(w, op) && Drainable(w.k) && SameTasks(w.k)
    requires t in w.k.generic && t in Step(w, op).k.generic && Undisturbed(op, t)
    ensures SamePriorities(w.k, Step(w, op).k, t)
  {
    hide Step, Inv, Enabled, Drainable;
    KeyFacts(w.k, t);
    if op.CreateTask? || op.ReapTask? {
      LifeStepMaps(w, op, t);
    } else if op.SetPriority? || op.InheritBy? || op.DisinheritBy? {
      PriorityStepMaps(w, op, t);
    } else if op.DelayFor? || op.DelayTo? || op.WaitFor? || op.Signal? || op.TickInterrupt? || op.ResumeScheduler? {
      BlockingStepMaps(w, op);
    } else {
      OtherStepMaps(w, op);
    }
  }

  lemma LifeStepMaps(w: World, op: Op, t: Task)
    requires Inv(w) && Enabled(w, op) && Drainable(w.k) && SameTasks(w.k)
    requires t in w.k.generic && t in Step(w, op).k.generic && (op.CreateTask? || op.ReapTask?)
    ensures SamePriorities(w.k, Step(w, op).k, t)
  {
    hide SamePriorities, Inv, Drainable, Create, Reap;
    KeyFacts(w.k, t);
    match op
    case CreateTask(x, p) => CreateMaps(w.k, x, p, t);
    case ReapTask => AllTerminated(w.k); ReapMaps(w.k, t);
  }

  lemma PriorityStepMaps(w: World, op: Op, t: Task)
    requires Inv(w) && Enabled(w, op) && Drainable(w.k) && SameTasks(w.k)
    requires t in w.k.generic && Undisturbed(op, t) && (op.SetPriority? || op.InheritBy? || op.DisinheritBy?)
    ensures SamePriorities(w.k, Step(w, op).k, t)
  {
    hide SamePriorities, Inv, Drainable, SameTasks, PrioritySet, Inherit, Disinherit;
    match op
    case SetPriority(x, p) => PrioritySetMaps(w.k, x, p, t);
    case InheritBy(x) => InheritMaps(w.k, x, t);
    case DisinheritBy(x) => DisinheritMaps(w.k, x, t);
  }

  lemma DisinheritMaps(k: State, x: Task, t: Task)
    requires SameTasks(k) && x in k.generic && t in k.generic && t != x
    ensures SamePriorities(k, Disinherit(k, x), t)
  {
    DisinheritedPriorities(k, x);
  }


  // ----- who exists ---------------------------------------------------------------------------------

  /** The task that the next clean-up of the idle task frees, if any. */
  predicate Freed(k: State, t: Task) {
    k.deleted > 0 && At(k, Terminated) != [] && t == At(k, Terminated)[0]
  }

  /** Tasks come into existence by creation and leave it by the idle task's clean-up only. */
  lemma StepKeepsTasks(w: World, op: Op, t: Task)
    requires Inv(w) && Enabled(w, op) && Drainable(w.k) && SameTasks(w.k)
    ensures t in Step(w, op).k.priority <==>
            if op.CreateTask? && op.t == t then true else t in w.k.priority && !(op.ReapTask? && Freed(w.k, t))
  {
    hide Step, Inv, Enabled, Drainable;
    if op.CreateTask? || op.ReapTask? {
      LifeStepTasks(w, op, t);
    } else if op.SetPriority? || op.InheritBy? || op.DisinheritBy? {
      PriorityStepTasks(w, op);
    } else if op.DelayFor? || op.DelayTo? || op.WaitFor? || op.Signal? || op.TickInterrupt? || op.ResumeScheduler? {
      BlockingStepMaps(w, op);
    } else {
      OtherStepMaps(w, op);
    }
  }

  lemma LifeStepTasks(w: World, op: Op, t: Task)
    requires Inv(w) && Enabled(w, op) && Drainable(w.k) && SameTasks(w.k) && (op.CreateTask? || op.ReapTask?)
    ensures t in Step(w, op).k.priority <==>
            if op.CreateTask? && op.t == t then true else t in w.k.priority && !(op.ReapTask? && Freed(w.k, t))
  {
    hide Inv, Drainable, Create, Reap;
    match op
    case CreateTask(x, p) => CreatedPriorities(w.k, x, p);
    case ReapTask => AllTerminated(w.k); ReapedPriorities(w.k);
  }

  lemma CreatedPriorities(k: State, x: Task, p: nat)
    requires x !in k.generic
    ensures var q := ClipPriority(p);
            Create(k, x, p).priority == k.priority[x := q] && Create(k, x, p).basePriority == k.basePriority[x := q]
            && Create(k, x, p).rank == k.rank[x := RankFor(q)]
  {
    hide AddReady;
    var q := ClipPriority(p);
    LinkMaps(k.(taskCount := k.taskCount + 1, wake := k.wake[x := 0], rank := k.rank[x := MAX_PRIORITIES - q],
                priority := k.priority[x := q], basePriority := k.basePriority[x := q]), Suspended, x);
  }

  lemma ReapedPriorities(k: State)
    requires forall x | x in At(k, Terminated) :: x in k.generic
    ensures k.deleted == 0 || At(k, Terminated) == [] ==> Reap(k).priority == k.priority && Reap(k).rank == k.rank
    ensures k.deleted > 0 && At(k, Terminated) != [] ==>
              var t := At(k, Terminated)[0]; Reap(k).priority == k.priority - {t} && Reap(k).rank == k.rank - {t}
  {}

  lemma PriorityStepTasks(w: World, op: Op)
    requires Inv(w) && Enabled(w, op) && Drainable(w.k) && SameTasks(w.k)
             && (op.SetPriority? || op.InheritBy? || op.DisinheritBy?)
    ensures Step(w, op).k.priority.Keys == w.k.priority.Keys
  {
    hide Inv, Drainable, PrioritySet, Inherit, Disinherit;
    match op
    case SetPriority(x, p) => SetPriorities(w.k, x, p);
    case InheritBy(x) => InheritedPriorities(w.k, x);
    case DisinheritBy(x) => DisinheritedPriorities(w.k, x);
  }

  /** vTaskPrioritySet on a task that does not run at an inherited priority sets both priorities; on
      one that does, it sets the base priority alone. */
  lemma SetPriorities(k: State, x: Task, p: nat)
    requires SameTasks(k) && x in k.generic
    ensures var r := PrioritySet(k, x, p);
            && r.basePriority == k.basePriority[x := ClipPriority(p)]
            && r.priority == (if k.basePriority[x] == k.priority[x] then k.priority[x := ClipPriority(p)]
                              else k.priority)
            && r.rank == if k.basePriority[x] == ClipPriority(p) then k.rank else k.rank[x := RankFor(ClipPriority(p))]
  {
    hide TakeGeneric, AddReady;
    var q := ClipPriority(p);
    var k1 := k.(priority := if k.basePriority[x] == k.priority[x] then k.priority[x := q] else k.priority,
                 basePriority := k.basePriority[x := q], rank := k.rank[x := MAX_PRIORITIES - q]);
    RequeueMaps(k1, x);
    if k.basePriority[x] == q {
      assert k.basePriority == k.basePriority[x := q] && k.priority == k.priority[x := k.priority[x]];
    }
  }
}
