// The scheduler as FreeRTOS/tasks.c runs it, statement by statement on one mutable record of that
// file's variables. Each method is proved against KernelState's function for it, and each operation
// against one step of KernelOps, so that whatever KernelRuns and KernelFairness prove of runs holds
// of sequences of calls on a Kernel.

module KernelImpl {
  import opened Sequences
  import opened Ticks
  import opened Lists
  import opened KernelState
  import opened KernelWorld
  import opened KernelOps
  import opened KernelRuns
  import opened Timeouts
  import MissedYields
  import TaskStates

  class Kernel {
    var k: State         // the file-level variables, the lists and the TCBs
    ghost var w: World   // the same against absolute time

    ghost predicate Valid()
      reads this
    {
      w.k == k && Inv(w)
    }

    /** The kernel once the first task exists: prvInitialiseTaskLists and the initial values. */
    constructor (first: Task, requested: nat)
      ensures w == Initial(first, requested) && Valid()
    {
      k := State(map[], map[], map[], map[], map[], map[], map[], DelayedA, DelayedB, first,
                 0, 0, 0, MAX_DELAY, 0, 0, 0, 0, false);
      w := Initial(first, requested);
      new;
      InitialHolds(first, requested);
      AddTask(first, requested);
    }

    // ----- list and pointer updates ---------------------------------------------------------

    /** vListRemove( &( pxTCB->xGenericListItem ) ). */
    method RemoveGeneric(t: Task)
      requires t in k.generic
      modifies this`k
      ensures k == TakeGeneric(old(k), t)
    {
      var l := k.generic[t];
      k := k.(lists := k.lists[l := Without(At(k, l), t)]);
      k := k.(generic := k.generic - {t});
    }

    /** vListRemove( &( pxTCB->xEventListItem ) ), if it is in a list. */
    method RemoveEvent(t: Task)
      modifies this`k
      ensures k == TakeEvent(old(k), t)
    {
      if t in k.event {
        var l := k.event[t];
        k := k.(lists := k.lists[l := Without(At(k, l), t)]);
        k := k.(event := k.event - {t});
      }
    }

    method LinkAt(l: ListId, t: Task, i: nat)
      requires i <= |At(k, l)|
      modifies this`k
      ensures k == Link(old(k), l, t, i)
    {
      k := k.(lists := k.lists[l := InsertAt(At(k, l), i, t)]);
      if l.ForEvents() {
        k := k.(event := k.event[t := l]);
      } else {
        k := k.(generic := k.generic[t := l]);
      }
    }

    /** vListInsertEnd. */
    method InsertEnd(l: ListId, t: Task)
      modifies this`k
      ensures k == Append(old(k), l, t)
    {
      LinkAt(l, t, |At(k, l)|);
    }

    /** prvAddTaskToReadyQueue. */
    method AddTaskToReadyQueue(t: Task)
      requires t in k.priority
      modifies this`k
      ensures k == AddReady(old(k), t)
    {
      hide Link;
      AppendIgnoresTop(k, Ready(k.priority[t]), t, k.priority[t]);
      if k.priority[t] > k.topReady {
        k := k.(topReady := k.priority[t]);
      }
      InsertEnd(Ready(k.priority[t]), t);
    }

    /** The three list calls by which a blocked or pending task becomes ready. */
    method MakeTaskReady(t: Task)
      requires t in k.generic && t in k.priority
      modifies this`k
      ensures k == MakeReady(old(k), t)
    {
      RemoveGeneric(t);
      RemoveEvent(t);
      AddTaskToReadyQueue(t);
    }

    /** prvAddCurrentTaskToDelayedList. */
    method AddCurrentTaskToDelayedList(timeToWake: nat)
      modifies this`k
      ensures k == AddDelayed(old(k), old(k.running), timeToWake)
    {
      k := k.(wake := k.wake[k.running := timeToWake]);
      if timeToWake < k.tick {
        LinkAt(k.overflow, k.running, InsertPosition(ValuesOf(At(k, k.overflow), k.wake), timeToWake));
      } else {
        LinkAt(k.delayed, k.running, InsertPosition(ValuesOf(At(k, k.delayed), k.wake), timeToWake));
        if timeToWake < k.nextUnblock {
          k := k.(nextUnblock := timeToWake);
        }
      }
    }

    /** vListInsert of the running task's event item: in priority order. */
    method InsertEvent(queue: nat)
      requires k.running in k.rank
      modifies this`k
      ensures k == InsertByRank(old(k), Event(queue), old(k.running))
    {
      var l := Event(queue);
      LinkAt(l, k.running, InsertPosition(ValuesOf(At(k, l), k.rank), k.rank[k.running]));
    }

    // ----- ticks ----------------------------------------------------------------------------

    /** prvCheckDelayedTasks. */
    method CheckDelayedTasks()
      requires Drainable(k)
      modifies this`k
      ensures k == CheckDelayed(old(k))
    {
      if k.tick >= k.nextUnblock {
        while true
          invariant Drainable(k) && Drain(k) == Drain(old(k))
          decreases |At(k, k.delayed)|
        {
          if At(k, k.delayed) == [] {
            k := k.(nextUnblock := MAX_DELAY);
            break;
          }
          var t := At(k, k.delayed)[0];
          assert Holds(k, k.delayed, t);
          if k.tick < k.wake[t] {
            k := k.(nextUnblock := k.wake[t]);
            break;
          }
          MakeReadyEffect(k, t);
          MakeTaskReady(t);
        }
      }
    }

    /** The rollover branch of vTaskIncrementTick. */
    method SwitchDelayedLists()
      requires Drainable(k)
      modifies this`k
      ensures k == SwapDelayLists(old(k))
    {
      var previous := k.delayed;
      k := k.(delayed := k.overflow);
      k := k.(overflow := previous);
      k := k.(overflows := Tick(k.overflows + 1));
      if At(k, k.delayed) == [] {
        k := k.(nextUnblock := MAX_DELAY);
      } else {
        SameListsAgree(old(k), k);
        FirstHasWake(k);
        k := k.(nextUnblock := k.wake[At(k, k.delayed)[0]]);
      }
    }

    /** vTaskIncrementTick. */
    method IncrementTickCount()
      requires Drainable(k)
      modifies this`k
      ensures k == IncrementTick(old(k))
    {
      hide CheckDelayed, Drainable;
      if k.depth == 0 {
        AdvanceAgrees(k);
        k := k.(tick := Tick(k.tick + 1));
        if k.tick == 0 {
          TickAgrees(old(k), k);
          SwitchDelayedLists();
        }
        CheckDelayedTasks();
      } else {
        k := k.(missed := Tick(k.missed + 1));
      }
    }

    /** The tick interrupt's call of vTaskIncrementTick. */
    method OnTick()
      requires Valid()
      modifies this
      ensures Follows(old(w), TickInterrupt, w) && Valid()
    {
      hide Inv, Core, Drainable, SameTasks, Agreement, Step, IncrementTick;
      StepKeepsInv(w, TickInterrupt);
      TickIs(w);
      w := Step(w, TickInterrupt);
      IncrementTickCount();
    }

    // ----- tasks ----------------------------------------------------------------------------

    /** xTaskGenericCreate, once the scheduler runs. */
    method CreateTask(t: Task, requested: nat)
      requires Valid() && Enabled(w, Op.CreateTask(t, requested))
      modifies this
      ensures Follows(old(w), Op.CreateTask(t, requested), w) && Valid()
    {
      hide Inv, Core, Drainable, SameTasks, Agreement, Step, Create;
      StepKeepsInv(w, Op.CreateTask(t, requested));
      CreateIs(w, t, requested);
      w := Step(w, Op.CreateTask(t, requested));
      AddTask(t, requested);
    }

    /** The part of xTaskGenericCreate that fills in the TCB and makes the task ready. */
    method AddTask(t: Task, requested: nat)
      requires t !in k.generic
      modifies this`k
      ensures k == Create(old(k), t, requested)
    {
      hide AddReady;
      var p := if requested >= MAX_PRIORITIES then MAX_PRIORITIES - 1 else requested;
      k := k.(priority := k.priority[t := p]);
      k := k.(basePriority := k.basePriority[t := p]);
      k := k.(wake := k.wake[t := 0]);
      k := k.(rank := k.rank[t := MAX_PRIORITIES - p]);
      k := k.(taskCount := k.taskCount + 1);
      AddTaskToReadyQueue(t);
    }

    /** vTaskDelete. */
    method DeleteTask(t: Task)
      requires Valid() && Enabled(w, Op.DeleteTask(t))
      modifies this
      ensures Follows(old(w), Op.DeleteTask(t), w) && Valid()
    {
      hide Inv, Core, Drainable, SameTasks, Agreement, Step, TakeGeneric, TakeEvent, Append;
      StepKeepsInv(w, Op.DeleteTask(t));
      DeleteIs(w, t);
      Facts(w, t);
      RelocateKeepsCount(k, t, Terminated);
      w := Step(w, Op.DeleteTask(t));
      RemoveGeneric(t);
      RemoveEvent(t);
      InsertEnd(Terminated, t);
      k := k.(deleted := k.deleted + 1);
    }

    /** prvCheckTasksWaitingTermination. */
    method CheckTasksWaitingTermination()
      requires Valid() && Enabled(w, ReapTask)
      modifies this
      ensures Follows(old(w), ReapTask, w) && Valid()
    {
      hide Inv, Core, Drainable, SameTasks, Agreement, Step, TakeGeneric, Reap, TaskOk;
      StepKeepsInv(w, ReapTask);
      ReapIs(w);
      Facts(w, k.running);
      Counted(w, k.running);
      ghost var w0 := w;
      w := Step(w, ReapTask);
      if k.deleted > 0 && At(k, Terminated) != [] {
        var t := At(k, Terminated)[0];
        TerminatedHead(w0);
        ReapHead(k);
        TakeGenericKeeps(k, t);
        RemoveGeneric(t);
        k := k.(taskCount := k.taskCount - 1);
        k := k.(deleted := k.deleted - 1);
        DeleteTCB(t);
      } else {
        NothingToReap(k);
      }
    }

    /** prvDeleteTCB: what was known of the task is gone. */
    method DeleteTCB(t: Task)
      modifies this`k
      ensures k == old(k).(wake := old(k).wake - {t}, rank := old(k).rank - {t}, priority := old(k).priority - {t},
                           basePriority := old(k).basePriority - {t})
    {
      k := k.(wake := k.wake - {t}, rank := k.rank - {t});
      k := k.(priority := k.priority - {t}, basePriority := k.basePriority - {t});
    }

    // ----- the scheduler lock -----------------------------------------------------------------

    /** vTaskSuspendAll. */
    method SuspendScheduler()
      requires Valid()
      modifies this
      ensures Follows(old(w), Op.SuspendScheduler, w) && Valid()
    {
      hide Inv, Core, Drainable, SameTasks, Agreement, Step;
      StepKeepsInv(w, Op.SuspendScheduler);
      SuspendAllIs(w);
      w := Step(w, Op.SuspendScheduler);
      k := k.(depth := k.depth + 1);
    }

    /** xTaskResumeAll; tells whether a yield was asked for. */
    method ResumeScheduler() returns (alreadyYielded: bool)
      requires Valid() && k.depth > 0 && k.running in k.priority
      modifies this
      ensures Follows(old(w), Op.ResumeScheduler, w) && Valid()
      ensures alreadyYielded == ResumeYields(old(k))
    {
      hide Inv, Core, Drainable, SameTasks, Agreement, Step, ResumeAll;
      StepKeepsInv(w, Op.ResumeScheduler);
      ResumeIs(w);
      w := Step(w, Op.ResumeScheduler);
      alreadyYielded := ResumeLists();
    }

    /** What xTaskResumeAll does to the kernel's variables. */
    method ResumeLists() returns (alreadyYielded: bool)
      requires Drainable(k) && k.depth > 0 && k.running in k.priority
      modifies this`k
      ensures k == ResumeAll(old(k)) && alreadyYielded == ResumeYields(old(k))
    {
      hide Drainable, DrainPending, CatchUp, ResumeYields, PendingOutranks;
      YieldsWhen(k);
      alreadyYielded := false;
      k := k.(depth := k.depth - 1);
      if k.depth == 0 {
        if k.taskCount > 0 {
          TickAgrees(old(k), k);
          DrainPendingDrainable(k);
          var yieldRequired := MovePending();
          if k.missed > 0 {
            MissedYields.CatchUpSame(k);
            ReplayMissedTicks();
            yieldRequired := true;
          } else {
            NothingToReplay(k);
          }
          if yieldRequired || k.missedYield {
            alreadyYielded := true;
            k := k.(missedYield := false);
          }
        }
      }
    }

    /** The first loop of xTaskResumeAll. */
    method MovePending() returns (yieldRequired: bool)
      requires Drainable(k) && k.running in k.priority
      modifies this`k
      ensures k == DrainPending(old(k))
      ensures yieldRequired == PendingOutranks(old(k))
    {
      hide Drainable, MakeReady;
      yieldRequired := false;
      while At(k, Pending) != []
        invariant Drainable(k) && DrainPending(k) == DrainPending(old(k))
        invariant k.running in k.priority && PendingOutranks(old(k)) == (yieldRequired || PendingOutranks(k))
        decreases |At(k, Pending)|
      {
        var t := At(k, Pending)[0];
        FirstPending(k);
        MakeTaskReady(t);
        if k.priority[t] >= k.priority[k.running] {
          yieldRequired := true;
        }
      }
    }

    /** The second loop of xTaskResumeAll. */
    method ReplayMissedTicks()
      requires Drainable(k) && k.depth == 0
      modifies this`k
      ensures k == CatchUp(old(k))
    {
      hide Drainable, IncrementTick;
      while k.missed > 0
        invariant Drainable(k) && k.depth == 0 && CatchUp(k) == CatchUp(old(k))
        decreases k.missed
      {
        ghost var k0 := k;
        IncrementTickDrainable(k);
        IncrementTickCount();
        TickAgrees(k, k.(missed := k.missed - 1));
        k := k.(missed := k.missed - 1);
      }
    }

    // ----- blocking ---------------------------------------------------------------------------

    /** vTaskDelay. */
    method Delay(ticksToDelay: nat)
      requires Valid() && (ticksToDelay > 0 ==> CanSleep(w, DelayFor(ticksToDelay)))
      modifies this
      ensures Valid()
      ensures w == if ticksToDelay == 0 then old(w) else DelayCall(old(w), DelayFor(ticksToDelay))
    {
      hide Inv, Core, Drainable, SameTasks, Agreement, Step;
      if ticksToDelay > 0 {
        DelayEnabled(w, DelayFor(ticksToDelay));
        SuspendScheduler();
        FallAsleep(ticksToDelay);
        var _ := ResumeScheduler();
      }
    }

    /** The part of vTaskDelay that runs with the scheduler suspended. */
    method FallAsleep(ticksToDelay: nat)
      requires Valid() && Enabled(w, DelayFor(ticksToDelay))
      modifies this
      ensures Follows(old(w), DelayFor(ticksToDelay), w) && Valid()
    {
      hide Inv, Core, Drainable, SameTasks, Agreement, Step, TakeGeneric, AddDelayed;
      StepKeepsInv(w, DelayFor(ticksToDelay));
      Prepared(w);
      DelayForIs(w, ticksToDelay);
      WrapSum(w.now, ticksToDelay);
      TakeGenericKeeps(k, k.running);
      w := Step(w, DelayFor(ticksToDelay));
      var timeToWake := Tick(k.tick + ticksToDelay);
      RemoveGeneric(k.running);
      AddCurrentTaskToDelayedList(timeToWake);
    }

    /** vTaskDelayUntil, for whatever wake time the caller has recorded. */
    method DelayUntil(previousWakeTime: nat, increment: nat) returns (timeToWake: nat)
      requires Valid() && previousWakeTime < MODULUS
      requires CanSleep(w, DelayTo(LatestAt(w.now, previousWakeTime), increment))
      modifies this
      ensures Valid() && timeToWake == Tick(previousWakeTime + increment)
      ensures w == DelayCall(old(w), DelayTo(LatestAt(old(w.now), previousWakeTime), increment))
    {
      hide Inv, Core, Drainable, SameTasks, Agreement, Step;
      ghost var previousWake := LatestAt(w.now, previousWakeTime);
      DelayEnabled(w, DelayTo(previousWake, increment));
      SuspendScheduler();
      timeToWake := FallAsleepUntil(previousWake, previousWakeTime, increment);
      var _ := ResumeScheduler();
      WrapSum(previousWake, increment);
    }

    /** The part of vTaskDelayUntil that runs with the scheduler suspended. */
    method FallAsleepUntil(ghost previousWake: int, previousWakeTime: nat, increment: nat) returns (timeToWake: nat)
      requires Valid() && Enabled(w, DelayTo(previousWake, increment)) && previousWakeTime == Tick(previousWake)
      modifies this
      ensures Follows(old(w), DelayTo(previousWake, increment), w) && Valid()
      ensures timeToWake == Tick(previousWake + increment)
    {
      hide Inv, Core, Drainable, SameTasks, Agreement, Step, TakeGeneric, AddDelayed;
      StepKeepsInv(w, DelayTo(previousWake, increment));
      Prepared(w);
      DelayToIs(w, previousWake, increment);
      DelayUntilDecidesExactly(w.now, previousWake, increment);
      TakeGenericKeeps(k, k.running);
      w := Step(w, DelayTo(previousWake, increment));
      timeToWake := Tick(previousWakeTime + increment);
      var shouldDelay := false;
      if k.tick < previousWakeTime {
        if timeToWake < previousWakeTime && timeToWake > k.tick {
          shouldDelay := true;
        }
      } else {
        if timeToWake < previousWakeTime || timeToWake > k.tick {
          shouldDelay := true;
        }
      }
      if shouldDelay {
        RemoveGeneric(k.running);
        AddCurrentTaskToDelayedList(timeToWake);
      }
    }

    /** vTaskPlaceOnEventList. */
    method PlaceOnEventList(queue: nat, ticksToWait: nat)
      requires Valid() && Enabled(w, WaitFor(queue, ticksToWait))
      modifies this
      ensures Follows(old(w), WaitFor(queue, ticksToWait), w) && Valid()
    {
      hide Inv, Core, Drainable, SameTasks, Agreement, Step, TakeGeneric, AddDelayed, Append, InsertByRank;
      StepKeepsInv(w, WaitFor(queue, ticksToWait));
      Prepared(w);
      WaitForIs(w, queue, ticksToWait);
      WrapSum(w.now, ticksToWait);
      InsertByRankKeeps(k, queue);
      w := Step(w, WaitFor(queue, ticksToWait));
      InsertEvent(queue);
      TakeGenericKeeps(k, k.running);
      RemoveGeneric(k.running);
      if ticksToWait == MAX_DELAY {
        InsertEnd(Suspended, k.running);
      } else {
        AddCurrentTaskToDelayedList(Tick(k.tick + ticksToWait));
      }
    }

    /** xTaskRemoveFromEventList; tells whether the woken task should preempt the caller. */
    method RemoveFromEventList(queue: nat) returns (higherPriority: bool)
      requires Valid() && At(k, Event(queue)) != [] && k.running in k.priority
      modifies this
      ensures Follows(old(w), Signal(queue), w) && Valid()
      ensures var t := old(At(k, Event(queue))[0]);
              t in old(k).priority && (higherPriority <==> old(k).priority[t] >= old(k).priority[old(k).running])
    {
      hide Inv, Core, Drainable, SameTasks, Agreement, Step, MakeReady, TakeEvent, Append, Outranks;
      StepKeepsInv(w, Signal(queue));
      SignalIs(w, queue);
      w := Step(w, Signal(queue));
      var t := At(k, Event(queue))[0];
      Facts(old(w), t);
      OutranksMeans(k, t);
      SignalKeepsPriorities(k, t);
      if k.depth == 0 {
        MakeTaskReady(t);
      } else {
        RemoveEvent(t);
        InsertEnd(Pending, t);
      }
      higherPriority := Outranks(k, t);
    }

    // ----- suspension ---------------------------------------------------------------------------

    /** vTaskSuspend. */
    method SuspendTask(t: Task)
      requires Valid() && Enabled(w, Op.SuspendTask(t))
      modifies this
      ensures Follows(old(w), Op.SuspendTask(t), w) && Valid()
    {
      hide Inv, Core, Drainable, SameTasks, Agreement, Step, TakeGeneric, TakeEvent, Append;
      StepKeepsInv(w, Op.SuspendTask(t));
      SuspendIs(w, t);
      w := Step(w, Op.SuspendTask(t));
      RemoveGeneric(t);
      RemoveEvent(t);
      InsertEnd(Suspended, t);
    }

    /** xTaskIsTaskSuspended: explicitly suspended with no resume pending. */
    method TaskIsSuspended(t: Task) returns (r: bool)
      requires Valid() && t in k.generic
      ensures r <==> t in w.asleep && !(t in k.event && k.event[t] == Pending)
      ensures r == IsTaskSuspended(k, t)
    {
      hide Inv, Core, Drainable, SameTasks, Agreement, Step;
      Facts(w, t);
      SuspendedExactly(w, t);
      r := false;
      if k.generic[t] == Suspended {
        if t !in k.event || k.event[t] != Pending {
          if t !in k.event {
            r := true;
          }
        }
      }
    }

    /** vTaskResume. */
    method ResumeTask(t: Task)
      requires Valid() && Enabled(w, Op.ResumeTask(t))
      modifies this
      ensures Follows(old(w), Op.ResumeTask(t), w) && Valid()
    {
      hide Inv, Core, Drainable, SameTasks, Agreement, Step, TakeGeneric, AddReady, IsTaskSuspended;
      StepKeepsInv(w, Op.ResumeTask(t));
      ResumeTaskIs(w, t);
      var suspended := TaskIsSuspended(t);
      w := Step(w, Op.ResumeTask(t));
      if t != k.running {
        if suspended {
          TakeGenericKeeps(k, t);
          RemoveGeneric(t);
          AddTaskToReadyQueue(t);
        }
      }
    }

    /** xTaskResumeFromISR; tells whether the interrupt should end with a switch. */
    method ResumeTaskFromISR(t: Task) returns (yieldRequired: bool)
      requires Valid() && Enabled(w, Op.ResumeTaskFromISR(t)) && k.running in k.priority
      modifies this
      ensures Follows(old(w), Op.ResumeTaskFromISR(t), w) && Valid()
      ensures t in old(k).priority
      ensures yieldRequired <==>
                && IsTaskSuspended(old(k), t) && old(k).depth == 0
                && old(k).priority[t] >= old(k).priority[old(k).running]
    {
      hide Inv, Core, Drainable, SameTasks, Agreement, Step, TakeGeneric, AddReady, Append, IsTaskSuspended;
      StepKeepsInv(w, Op.ResumeTaskFromISR(t));
      ResumeFromISRIs(w, t);
      yieldRequired := false;
      var suspended := TaskIsSuspended(t);
      w := Step(w, Op.ResumeTaskFromISR(t));
      if suspended {
        if k.depth == 0 {
          yieldRequired := k.priority[t] >= k.priority[k.running];
          TakeGenericKeeps(k, t);
          RemoveGeneric(t);
          AddTaskToReadyQueue(t);
        } else {
          InsertEnd(Pending, t);
        }
      }
    }

    // ----- priorities -----------------------------------------------------------------------------

    /** vTaskPrioritySet. */
    method PrioritySet(t: Task, requested: nat)
      requires Valid() && Enabled(w, SetPriority(t, requested))
      modifies this
      ensures Follows(old(w), SetPriority(t, requested), w) && Valid()
    {
      hide Inv, Core, Drainable, SameTasks, Agreement, Step, TakeGeneric, AddReady;
      StepKeepsInv(w, SetPriority(t, requested));
      PrioritySetIs(w, t, requested);
      w := Step(w, SetPriority(t, requested));
      var p := if requested >= MAX_PRIORITIES then MAX_PRIORITIES - 1 else requested;
      var current := k.basePriority[t];
      if current != p {
        if k.basePriority[t] == k.priority[t] {
          k := k.(priority := k.priority[t := p]);
        }
        k := k.(basePriority := k.basePriority[t := p]);
        k := k.(rank := k.rank[t := MAX_PRIORITIES - p]);
        if k.generic[t] == Ready(current) {
          TakeGenericKeeps(k, t);
          RemoveGeneric(t);
          AddTaskToReadyQueue(t);
        }
      }
    }

    /** vTaskPriorityInherit. */
    method PriorityInherit(holder: Task)
      requires Valid() && Enabled(w, InheritBy(holder))
      modifies this
      ensures Follows(old(w), InheritBy(holder), w) && Valid()
    {
      hide Inv, Core, Drainable, SameTasks, Agreement, Step, TakeGeneric, AddReady;
      StepKeepsInv(w, InheritBy(holder));
      InheritIs(w, holder);
      w := Step(w, InheritBy(holder));
      if k.priority[holder] < k.priority[k.running] {
        k := k.(rank := k.rank[holder := MAX_PRIORITIES - k.priority[k.running]]);
        if k.generic[holder] == Ready(k.priority[holder]) {
          TakeGenericKeeps(k, holder);
          TakeGenericCommutes(k, holder, k.priority[holder := k.priority[k.running]]);
          RemoveGeneric(holder);
          k := k.(priority := k.priority[holder := k.priority[k.running]]);
          AddTaskToReadyQueue(holder);
        } else {
          k := k.(priority := k.priority[holder := k.priority[k.running]]);
        }
      }
    }

    /** vTaskPriorityDisinherit. */
    method PriorityDisinherit(holder: Task)
      requires Valid() && Enabled(w, DisinheritBy(holder))
      modifies this
      ensures Follows(old(w), DisinheritBy(holder), w) && Valid()
    {
      hide Inv, Core, Drainable, SameTasks, Agreement, Step, TakeGeneric, AddReady;
      StepKeepsInv(w, DisinheritBy(holder));
      DisinheritIs(w, holder);
      w := Step(w, DisinheritBy(holder));
      if k.priority[holder] != k.basePriority[holder] {
        TakeGenericKeeps(k, holder);
        RemoveGeneric(holder);
        k := k.(priority := k.priority[holder := k.basePriority[holder]]);
        k := k.(rank := k.rank[holder := MAX_PRIORITIES - k.priority[holder]]);
        AddTaskToReadyQueue(holder);
      }
    }

    // ----- time limits ----------------------------------------------------------------------------

    /** vTaskSetTimeOutState, on the kernel's own counters. */
    method SetTimeOutState(timeOut: TimeOut)
      requires Valid()
      modifies timeOut
      ensures timeOut.Stored() == EntryAt(w.now)
    {
      hide Drainable, SameTasks, TasksOk, DelaysOk;
      timeOut.SetTimeOutState(k.tick, k.overflows, w.now);
    }

    /** xTaskCheckForTimeOut, on the kernel's own counters. */
    method CheckForTimeOut(timeOut: TimeOut, ticksToWait: nat) returns (timedOut: bool, remaining: nat)
      requires Valid()
      modifies timeOut
      ensures Answer(timedOut, timeOut.Stored(), remaining) == Check(old(timeOut.Stored()), w.now, ticksToWait)
    {
      hide Drainable, SameTasks, TasksOk, DelaysOk;
      timedOut, remaining := timeOut.CheckForTimeOut(k.tick, k.overflows, ticksToWait, w.now);
    }

    // ----- the choice of the next task ----------------------------------------------------------

    /** vTaskSwitchContext. */
    method SwitchToNext()
      requires Valid() && Enabled(w, Switch)
      modifies this
      ensures Follows(old(w), Switch, w) && Valid()
      ensures old(k).depth > 0 ==> k.missedYield && k == old(k).(missedYield := true)
      ensures old(k).depth == 0 ==> IsReady(k, k.running) && k.missedYield == old(k).missedYield
    {
      hide Inv, Core, Drainable, SameTasks, Agreement, Step;
      StepKeepsInv(w, Switch);
      SwitchIs(w);
      if k.depth == 0 {
        Prepared(w);
        SwitchSelects(w);
        SwitchedFields(k);
      }
      w := Step(w, Switch);
      SwitchContextNow();
    }

    /** The search for the highest level with a ready task. */
    method FindTopReady()
      requires At(k, Ready(TopNonEmpty(k, k.topReady))) != []
      modifies this`k
      ensures k == old(k).(topReady := TopNonEmpty(old(k), old(k.topReady)))
    {
      hide At, TopNonEmpty;
      TopFrom(k, k.topReady);
      SameTop(k, k);
      while At(k, Ready(k.topReady)) == []
        invariant k == old(k).(topReady := k.topReady) && At(k, Ready(k.topReady)) == At(old(k), Ready(k.topReady))
        invariant TopNonEmpty(old(k), k.topReady) == TopNonEmpty(old(k), old(k.topReady))
        decreases k.topReady
      {
        TopFrom(old(k), k.topReady);
        k := k.(topReady := k.topReady - 1);
        SameTop(old(k), k);
      }
      TopFrom(old(k), k.topReady);
    }

    /** The choice itself: the search for the highest non-empty level, then its next task. */
    method SwitchContextNow()
      requires k.depth == 0 ==> At(k, Ready(TopNonEmpty(k, k.topReady))) != []
      modifies this`k
      ensures k == SwitchContext(old(k))
    {
      if k.depth != 0 {
        k := k.(missedYield := true);
      } else {
        FindTopReady();
        var l := Ready(k.topReady);
        k := k.(running := At(k, l)[0]);
        k := k.(lists := k.lists[l := At(k, l)[1..] + [k.running]]);
      }
    }
  }

  // ----- what the operations' steps are --------------------------------------------------------

  lemma TickIs(w: World)
    requires Drainable(w.k) && SameTasks(w.k) && Enabled(w, TickInterrupt)
    ensures Step(w, TickInterrupt)
            == w.(k := IncrementTick(w.k), now := if w.k.depth == 0 then w.now + 1 else w.now,
                  interrupts := w.interrupts + 1)
  {}

  lemma CreateIs(w: World, t: Task, p: nat)
    requires Drainable(w.k) && SameTasks(w.k) && Enabled(w, CreateTask(t, p))
    ensures Step(w, CreateTask(t, p)) == w.(k := Create(w.k, t, p))
  {}

  lemma DeleteIs(w: World, t: Task)
    requires Drainable(w.k) && SameTasks(w.k) && Enabled(w, DeleteTask(t))
    ensures Step(w, DeleteTask(t)) == w.(k := Delete(w.k, t), asleep := w.asleep - {t})
  {}

  lemma ReapIs(w: World)
    requires Drainable(w.k) && SameTasks(w.k) && Enabled(w, ReapTask)
    ensures (forall t | t in At(w.k, Terminated) :: t in w.k.generic) && Step(w, ReapTask) == w.(k := Reap(w.k))
  {
    hide Reap;
    assert forall t | t in At(w.k, Terminated) :: Holds(w.k, Terminated, t);
  }

  lemma ReapHead(k: State)
    requires forall t | t in At(k, Terminated) :: t in k.generic
    requires k.deleted > 0 && k.taskCount > 0 && At(k, Terminated) != []
    ensures var t := At(k, Terminated)[0];
            Reap(k) == TakeGeneric(k, t).(taskCount := k.taskCount - 1, deleted := k.deleted - 1,
                                          wake := k.wake - {t}, rank := k.rank - {t},
                                          priority := k.priority - {t}, basePriority := k.basePriority - {t})
  {}

  lemma SuspendAllIs(w: World)
    requires Drainable(w.k) && SameTasks(w.k) && Enabled(w, SuspendScheduler)
    ensures Step(w, SuspendScheduler) == w.(k := SuspendAll(w.k))
  {}

  lemma ResumeIs(w: World)
    requires Inv(w) && w.k.depth > 0
    ensures Drainable(w.k) && SameTasks(w.k) && Step(w, ResumeScheduler).k == ResumeAll(w.k)
  {
    hide Inv, Core, Drainable, SameTasks, ResumeAll;
    Prepared(w);
  }

  lemma SignalIs(w: World, queue: nat)
    requires Drainable(w.k) && SameTasks(w.k) && Enabled(w, Signal(queue))
    ensures var t := At(w.k, Event(queue))[0];
            && t in w.k.generic && t in w.k.priority
            && Step(w, Signal(queue))
               == if w.k.depth == 0 then w.(k := MakeReady(w.k, t)) else w.(k := Append(TakeEvent(w.k, t), Pending, t))
  {
    hide MakeReady, TakeEvent, Append;
    assert Holds(w.k, Event(queue), At(w.k, Event(queue))[0]);
  }

  lemma SignalKeepsPriorities(k: State, t: Task)
    requires Agreement(k) && t in k.generic && t in k.priority
    ensures Outranks(MakeReady(k, t), t) == Outranks(Append(TakeEvent(k, t), Pending, t), t) == Outranks(k, t)
  {
    hide Agreement, MakeReady, TakeEvent, Append, At;
    MakeReadyEffect(k, t);
    TakeEventAgrees(k, t);
    AppendEffect(TakeEvent(k, t), Pending, t);
  }

  /** Whether the running task should make way for t. */
  predicate Outranks(k: State, t: Task) {
    t in k.priority && k.running in k.priority && k.priority[t] >= k.priority[k.running]
  }

  lemma OutranksMeans(k: State, t: Task)
    requires t in k.priority && k.running in k.priority
    ensures Outranks(k, t) <==> k.priority[t] >= k.priority[k.running]
  {}

  lemma SuspendIs(w: World, t: Task)
    requires Drainable(w.k) && SameTasks(w.k) && Enabled(w, SuspendTask(t))
    ensures Step(w, SuspendTask(t)) == w.(k := Suspend(w.k, t), asleep := w.asleep + {t})
  {}

  lemma ResumeTaskIs(w: World, t: Task)
    requires Drainable(w.k) && SameTasks(w.k) && Enabled(w, ResumeTask(t))
    ensures t in w.k.priority
    ensures Step(w, ResumeTask(t)).k ==
            if t != w.k.running && IsTaskSuspended(w.k, t) then AddReady(TakeGeneric(w.k, t), t) else w.k
  {
    hide TakeGeneric, AddReady;
  }

  lemma ResumeFromISRIs(w: World, t: Task)
    requires Drainable(w.k) && SameTasks(w.k) && Enabled(w, ResumeTaskFromISR(t))
    ensures t in w.k.priority
    ensures Step(w, ResumeTaskFromISR(t)).k ==
            if !IsTaskSuspended(w.k, t) then w.k
            else if w.k.depth == 0 then AddReady(TakeGeneric(w.k, t), t)
            else Append(w.k, Pending, t)
  {
    hide TakeGeneric, AddReady, Append;
  }

  lemma PrioritySetIs(w: World, t: Task, requested: nat)
    requires Drainable(w.k) && SameTasks(w.k) && Enabled(w, SetPriority(t, requested))
    ensures t in w.k.priority && t in w.k.basePriority
    ensures Step(w, SetPriority(t, requested)).k == PrioritySet(w.k, t, requested)
  {}

  lemma InheritIs(w: World, t: Task)
    requires Inv(w) && Enabled(w, InheritBy(t))
    ensures Drainable(w.k) && SameTasks(w.k) && t in w.k.priority && w.k.running in w.k.priority
            && w.k.priority[w.k.running] < MAX_PRIORITIES
    ensures Step(w, InheritBy(t)).k == Inherit(w.k, t)
  {
    assert TaskOk(w, 0, w.k.running);
  }

  lemma DisinheritIs(w: World, t: Task)
    requires Drainable(w.k) && SameTasks(w.k) && Enabled(w, DisinheritBy(t))
    ensures t in w.k.priority && t in w.k.basePriority && w.k.basePriority[t] < MAX_PRIORITIES
    ensures Step(w, DisinheritBy(t)).k == Disinherit(w.k, t)
  {}

  lemma SwitchIs(w: World)
    requires Drainable(w.k) && SameTasks(w.k) && Enabled(w, Switch)
    ensures Step(w, Switch) == w.(k := SwitchContext(w.k))
  {}

  /** Taking out the generic item touches its list and its container pointer only. */
  lemma TakeGenericKeeps(k: State, t: Task)
    requires t in k.generic
    ensures var r := TakeGeneric(k, t); r == k.(lists := r.lists, generic := r.generic)
  {}

  lemma AppendIgnoresTop(k: State, l: ListId, t: Task, top: nat)
    requires !l.ForEvents()
    ensures Append(k.(topReady := top), l, t) == Append(k, l, t).(topReady := top)
    ensures Append(k, l, t).topReady == k.topReady
  {}

  /** One step of the search for the highest ready list. */
  lemma TopFrom(k: State, p: nat)
    ensures At(k, Ready(p)) != [] ==> TopNonEmpty(k, p) == p
    ensures p > 0 && At(k, Ready(p)) == [] ==> TopNonEmpty(k, p) == TopNonEmpty(k, p - 1)
    ensures p == 0 ==> TopNonEmpty(k, p) == 0
  {}

  lemma SameTop(k: State, k1: State)
    requires k1 == k.(topReady := k1.topReady)
    ensures At(k1, Ready(k1.topReady)) == At(k, Ready(k1.topReady))
  {}

  lemma RelocateKeepsCount(k: State, t: Task, l: ListId)
    requires Agreement(k) && t in k.generic && !l.ForEvents()
    ensures Relocate(k, t, l).deleted == k.deleted
  {
    hide Agreement, Relocate;
    RelocateEffect(k, t, l);
  }

  lemma TakeGenericCommutes(k: State, t: Task, p: map<Task, nat>)
    requires t in k.generic
    ensures TakeGeneric(k.(priority := p), t) == TakeGeneric(k, t).(priority := p)
  {
    assert At(k.(priority := p), k.generic[t]) == At(k, k.generic[t]);
  }

  lemma InsertByRankKeeps(k: State, queue: nat)
    requires k.running in k.rank
    ensures var r := InsertByRank(k, Event(queue), k.running); r == k.(lists := r.lists, event := r.event)
  {}

  lemma FirstHasWake(k: State)
    requires Agreement(k) && !k.delayed.ForEvents() && At(k, k.delayed) != [] && k.generic.Keys <= k.wake.Keys
    ensures At(k, k.delayed)[0] in k.wake
  {
    assert Holds(k, k.delayed, At(k, k.delayed)[0]);
  }

  /** Some pending task is at least as urgent as the running one. */
  ghost predicate PendingOutranks(k: State) {
    exists t | t in At(k, Pending) :: Outranks(k, t)
  }

  lemma FirstPending(k: State)
    requires Drainable(k) && k.running in k.priority && At(k, Pending) != []
    ensures var t := At(k, Pending)[0];
            && t in k.generic && t in k.priority
            && var r := MakeReady(k, t);
            && Drainable(r) && At(r, Pending) == At(k, Pending)[1..]
            && r.priority == k.priority && r.running == k.running
            && PendingOutranks(k) == (k.priority[t] >= k.priority[k.running] || PendingOutranks(r))
  {
    hide Agreement, MakeReady;
    var q := At(k, Pending);
    var t := q[0];
    PendingHolds(k, t);
    MakeReadyEffect(k, t);
    assert q == [t] + q[1..];
  }

  lemma YieldsWhen(k: State)
    requires k.running in k.priority
    ensures ResumeYields(k) <==>
            k.depth == 1 && k.taskCount > 0 && (k.missed > 0 || k.missedYield || PendingOutranks(k.(depth := 0)))
  {
    assert At(k.(depth := 0), Pending) == At(k, Pending);
    assert forall t :: Outranks(k.(depth := 0), t) == Outranks(k, t);
  }

  lemma NothingToReplay(k: State)
    requires Drainable(k) && k.depth == 0 && k.missed == 0
    ensures CatchUp(k) == k
  {}

  lemma PendingHolds(k: State, t: Task)
    requires Drainable(k) && t in At(k, Pending)
    ensures t in k.generic && t in k.priority && Agreement(k)
  {
    assert Holds(k, Pending, t);
  }

  /** What a caller of vTaskDelay or vTaskDelayUntil must respect: the step is enabled once the
      call has suspended the scheduler. */
  predicate CanSleep(w: World, op: Op) {
    (op.DelayFor? || op.DelayTo?) && Enabled(w.(k := SuspendAll(w.k)), op)
  }

  /** A blocking call: suspend the scheduler, go to sleep, resume the scheduler. */
  ghost function DelayCall(w: World, op: Op): World
    requires Inv(w) && CanSleep(w, op)
  {
    DelayEnabled(w, op);
    Step(Step(Step(w, SuspendScheduler), op), ResumeScheduler)
  }

  lemma DelayEnabled(w: World, op: Op)
    requires Inv(w) && CanSleep(w, op)
    ensures Drainable(w.k) && SameTasks(w.k)
    ensures var w1 := Step(w, SuspendScheduler);
            && w1 == w.(k := SuspendAll(w.k)) && Inv(w1) && Drainable(w1.k) && SameTasks(w1.k)
            && var w2 := Step(w1, op);
            Inv(w2) && Drainable(w2.k) && SameTasks(w2.k) && w2.k.depth > 0 && w2.k.running in w2.k.priority
  {
    hide Inv, Drainable, SameTasks, Step;
    StepKeepsInv(w, SuspendScheduler);
    SuspendAllIs(w);
    var w1 := Step(w, SuspendScheduler);
    StepKeepsInv(w1, op);
    Prepared(Step(w1, op));
    DelayKeepsDepth(w1, op);
  }

  /** What a call of vTaskDelay or vTaskDelayUntil comes to: the caller sleeps until the absolute time,
      unless that is over; everybody else is where it was, and the scheduler is no more suspended than
      before. */
  lemma DelayCallExactly(w: World, op: Op, t: Task)
    requires Inv(w) && CanSleep(w, op)
    ensures var w1 := DelayCall(w, op);
            var wakeTime := if op.DelayFor? then w.now + op.ticks else op.previousWake + op.increment;
            && w1.k.depth == w.k.depth && w1.now == w.now
            && TaskStates.SituationOf(w1, t) ==
               if t == w.k.running && wakeTime > w.now
               then TaskStates.Situation(TaskStates.Sleeps(wakeTime), TaskStates.NoEvent)
               else TaskStates.SituationOf(w, t)
  {
    hide Inv, Step, Drainable, SameTasks, TaskStates.SituationOf;
    DelayEnabled(w, op);
    BetweenOperations(w);
    var w1 := Step(w, SuspendScheduler);
    var w2 := Step(w1, op);
    DelayKeepsDepth(w1, op);
    ResumeCounts(w2);
    TaskStates.StepRefines(w, SuspendScheduler, t);
    TaskStates.StepRefines(w1, op, t);
    TaskStates.StepRefines(w2, ResumeScheduler, t);
    TaskStates.SignalledIsPending(w, t);
    TaskStates.SleepersAreAhead(w2, t);
  }

  lemma ResumeCounts(w: World)
    requires Inv(w) && w.k.depth > 0
    ensures Drainable(w.k) && SameTasks(w.k)
    ensures var w1 := Step(w, ResumeScheduler);
            && w1.k.depth == w.k.depth - 1
            && w1.now == w.now + if w.k.depth == 1 then w.k.missed else 0
  {
    hide Inv, Drainable, SameTasks, CatchUp, DrainPending;
    BetweenOperations(w);
    if w.k.depth == 1 {
      ResumedCounters(w);
    }
  }

  lemma DelayKeepsDepth(w: World, op: Op)
    requires Inv(w) && (op.DelayFor? || op.DelayTo?) && Enabled(w, op)
    ensures Drainable(w.k) && SameTasks(w.k)
    ensures var w1 := Step(w, op);
            && w1.k.depth == w.k.depth && w1.k.missed == w.k.missed && w1.now == w.now
            && w1.k.running in w1.k.priority
  {
    hide Inv, Core, Drainable, SameButEvent, AddDelayed, TakeGeneric, Step, Agreement, DelaysOk, WakeOf, At;
    Prepared(w);
    var t := w.k.running;
    match op
    case DelayFor(ticks) =>
      DelayForIs(w, ticks);
      SleepBlocks(w, w.k, t, w.now + ticks);
    case DelayTo(previousWake, increment) =>
      DelayToIs(w, previousWake, increment);
      if previousWake + increment > w.now {
        SleepBlocks(w, w.k, t, previousWake + increment);
      }
  }
}
