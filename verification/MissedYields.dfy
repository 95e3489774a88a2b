// A switch that is asked for while the scheduler is suspended (FreeRTOS/tasks.c): it is remembered, and
// the outermost xTaskResumeAll makes up for it.

module MissedYields {
  import opened Sequences
  import opened Ticks
  import opened Lists
  import opened KernelState
  import opened KernelWorld
  import opened KernelOps
  import opened KernelRuns
  import PriorityInheritance

  /** The step asks for a switch that cannot be made now. */
  predicate SwitchMissed(w: World, op: Op) {
    op.Switch? && w.k.depth > 0
  }

  predicate ResumesOutermost(w: World, op: Op) {
    op.ResumeScheduler? && w.k.depth == 1
  }

  /** A switch was missed, and no outermost resume has followed. */
  ghost predicate OwesYield(run: seq<World>, ops: seq<Op>, i: nat)
    requires i <= |ops| <= |run|
  {
    exists j | 0 <= j < i :: SwitchMissed(run[j], ops[j]) && NotResumed(run, ops, j, i)
  }

  ghost predicate NotResumed(run: seq<World>, ops: seq<Op>, j: nat, i: nat)
    requires i <= |ops| <= |run|
  {
    forall m | j < m < i :: !ResumesOutermost(run[m], ops[m])
  }

  // ----- what a step does to the flag ----------------------------------------------------------------

  ghost predicate SameFlag(k: State, k1: State) {
    k1.missedYield == k.missedYield
  }

  lemma LinkSame(k: State, l: ListId, t: Task, i: nat)
    requires i <= |At(k, l)|
    ensures SameFlag(k, Link(k, l, t, i))
  {
    hide At, InsertAt;
  }

  lemma LinkingSame(k: State, l: ListId, t: Task)
    ensures SameFlag(k, Append(k, l, t)) && SameFlag(k, TakeEvent(k, t))
    ensures t in k.priority ==> SameFlag(k, AddReady(k, t))
    ensures t in k.rank ==> SameFlag(k, InsertByRank(k, l, t))
    ensures t in k.wake ==> SameFlag(k, InsertByWake(k, l, t))
  {
    hide Link, At, Without, InsertPosition, ValuesOf;
    LinkSame(k, l, t, |At(k, l)|);
    if t in k.priority {
      LinkSame(k, Ready(k.priority[t]), t, |At(k, Ready(k.priority[t]))|);
    }
    if t in k.rank {
      LinkSame(k, l, t, InsertPosition(ValuesOf(At(k, l), k.rank), k.rank[t]));
    }
    if t in k.wake {
      LinkSame(k, l, t, InsertPosition(ValuesOf(At(k, l), k.wake), k.wake[t]));
    }
  }

  lemma TakeSame(k: State, t: Task)
    requires t in k.generic
    ensures var r := TakeGeneric(k, t); SameFlag(k, r) && r.priority == k.priority
  {
    hide At, Without;
  }

  lemma TakingSame(k: State, t: Task, l: ListId)
    requires t in k.generic
    ensures SameFlag(k, TakeGeneric(k, t)) && SameFlag(k, Relocate(k, t, l))
    ensures t in k.priority ==> SameFlag(k, MakeReady(k, t))
  {
    hide TakeGeneric, TakeEvent, Append, AddReady;
    TakeSame(k, t);
    TakingKeepsPriorities(k, t);
    var k1 := TakeGeneric(k, t);
    LinkingSame(k1, l, t);
    LinkingSame(TakeEvent(k1, t), l, t);
  }

  lemma RequeueSame(k: State, t: Task)
    requires t in k.generic && t in k.priority
    ensures t in TakeGeneric(k, t).priority && SameFlag(k, AddReady(TakeGeneric(k, t), t))
  {
    hide TakeGeneric, AddReady;
    TakeSame(k, t);
    LinkingSame(TakeGeneric(k, t), Suspended, t);
  }

  lemma SleepingSame(k: State, t: Task, v: nat)
    requires t in k.generic
    ensures SameFlag(k, AddDelayed(TakeGeneric(k, t), t, v)) && SameFlag(k, Append(TakeGeneric(k, t), Suspended, t))
  {
    hide TakeGeneric, InsertByWake, Append;
    TakeSame(k, t);
    var k1 := TakeGeneric(k, t);
    LinkingSame(k1, Suspended, t);
    LinkingSame(k1.(wake := k1.wake[t := v]), k1.delayed, t);
    LinkingSame(k1.(wake := k1.wake[t := v]), k1.overflow, t);
  }

  lemma {:induction false} CatchUpSame(k: State)
    requires Drainable(k) && k.depth == 0
    ensures SameFlag(k, CatchUp(k))
    decreases k.missed
  {
    hide Drainable, IncrementTick;
    if k.missed > 0 {
      IncrementTickDrainable(k);
      TickSame(k);
      var k1 := IncrementTick(k);
      TickAgrees(k1, k1.(missed := k1.missed - 1));
      CatchUpSame(k1.(missed := k1.missed - 1));
    }
  }

  lemma TickSame(k: State)
    requires Drainable(k)
    ensures SameFlag(k, IncrementTick(k))
  {
    hide Drainable, CheckDelayed, AdvanceTick;
    if k.depth == 0 {
      AdvanceAgrees(k);
      AdvanceLists(k);
      CheckDelayedDrainable(AdvanceTick(k));
    }
  }

  /** An outermost resume owes nothing afterwards. */
  lemma ResumePays(w: World)
    requires Inv(w) && w.k.depth > 0
    ensures Drainable(w.k) && ResumeAll(w.k).missedYield == (w.k.depth > 1 && w.k.missedYield)
  {
    hide Inv, Drainable, SameTasks, CatchUp, DrainPending;
    BetweenOperations(w);
    if w.k.depth == 1 {
      var k1 := w.k.(depth := 0);
      TickAgrees(w.k, k1);
      DrainPendingDrainable(k1);
      CatchUpSame(DrainPending(k1));
    }
  }

  lemma TaskStepSame(w: World, op: Op)
    requires Inv(w) && Drainable(w.k) && SameTasks(w.k) && Enabled(w, op)
    requires op.CreateTask? || op.DeleteTask? || op.ReapTask? || op.SuspendTask? || op.ResumeTask?
             || op.ResumeTaskFromISR? || op.Signal?
    ensures SameFlag(w.k, Step(w, op).k)
  {
    hide Inv, Core, Agreement, TakeGeneric, AddReady, Relocate, MakeReady, Append, TakeEvent, IsTaskSuspended;
    match op
    case CreateTask(t, p) =>
      hide Create;
      CreatedState(w.k, t, p);
    case DeleteTask(t) => TakingSame(w.k, t, Terminated);
    case ReapTask =>
      AllTerminated(w.k);
      if At(w.k, Terminated) != [] {
        TakingSame(w.k, At(w.k, Terminated)[0], Terminated);
      }
    case SuspendTask(t) => TakingSame(w.k, t, Suspended);
    case ResumeTask(t) => RequeueSame(w.k, t);
    case ResumeTaskFromISR(t) =>
      RequeueSame(w.k, t);
      LinkingSame(w.k, Pending, t);
    case Signal(queue) =>
      var t := At(w.k, Event(queue))[0];
      PriorityInheritance.WaiterKnown(w, queue);
      TakingSame(w.k, t, Suspended);
      LinkingSame(w.k, Pending, t);
      LinkingSame(TakeEvent(w.k, t), Pending, t);
  }

  lemma BlockingStepSame(w: World, op: Op)
    requires Inv(w) && Drainable(w.k) && SameTasks(w.k) && Enabled(w, op)
    requires op.DelayFor? || op.DelayTo? || op.WaitFor? || op.TickInterrupt? || op.SuspendScheduler?
    ensures SameFlag(w.k, Step(w, op).k)
  {
    hide Inv, Core, Drainable, TakeGeneric, AddDelayed, Append, InsertByRank, IncrementTick;
    match op
    case DelayFor(ticks) => SleepingSame(w.k, w.k.running, Tick(w.k.tick + ticks));
    case DelayTo(previousWake, increment) => SleepingSame(w.k, w.k.running, Tick(Tick(previousWake) + increment));
    case WaitFor(queue, ticks) =>
      KeyFacts(w.k, w.k.running);
      LinkingSame(w.k, Event(queue), w.k.running);
      RankKeepsGeneric(w.k, Event(queue), w.k.running);
      SleepingSame(InsertByRank(w.k, Event(queue), w.k.running), w.k.running, Tick(w.k.tick + ticks));
    case TickInterrupt => TickSame(w.k);
    case SuspendScheduler =>
  }

  lemma PriorityStepSame(w: World, op: Op)
    requires Inv(w) && Drainable(w.k) && SameTasks(w.k) && Enabled(w, op)
    requires op.SetPriority? || op.InheritBy? || op.DisinheritBy?
    ensures SameFlag(w.k, Step(w, op).k)
  {
    hide Inv, Core, Drainable, SameTasks, TakeGeneric, AddReady;
    KeyFacts(w.k, op.t);
    var k := w.k;
    match op
    case SetPriority(t, p) =>
      var c := ClipPriority(p);
      RequeueSame(k.(priority := if k.basePriority[t] == k.priority[t] then k.priority[t := c] else k.priority,
                     basePriority := k.basePriority[t := c], rank := k.rank[t := MAX_PRIORITIES - c]), t);
    case InheritBy(t) =>
      KeyFacts(k, k.running);
      var p := k.priority[k.running];
      RequeueSame(k.(rank := k.rank[t := if p < MAX_PRIORITIES then MAX_PRIORITIES - p else 0],
                     priority := k.priority[t := p]), t);
    case DisinheritBy(t) =>
      var p := k.basePriority[t];
      TakeSame(k, t);
      LinkingSame(TakeGeneric(k, t).(priority := k.priority[t := p],
                                     rank := k.rank[t := if p < MAX_PRIORITIES then MAX_PRIORITIES - p else 0]),
                  Suspended, t);
  }

  /** Nothing but a missed switch sets the flag, and nothing but an outermost resume clears it. */
  lemma StepKeepsFlag(w: World, op: Op)
    requires Inv(w) && Drainable(w.k) && SameTasks(w.k) && Enabled(w, op)
    ensures Step(w, op).k.missedYield <==> SwitchMissed(w, op) || (w.k.missedYield && !ResumesOutermost(w, op))
  {
    hide Inv, Drainable, SameTasks;
    match op
    case Switch =>
      hide SwitchContext;
      SwitchedFlag(w.k);
    case ResumeScheduler =>
      hide ResumeAll;
      ResumePays(w);
    case _ =>
      hide Step, Enabled;
      if op.SetPriority? || op.InheritBy? || op.DisinheritBy? {
        PriorityStepSame(w, op);
      } else if op.DelayFor? || op.DelayTo? || op.WaitFor? || op.TickInterrupt? || op.SuspendScheduler? {
        BlockingStepSame(w, op);
      } else {
        TaskStepSame(w, op);
      }
  }

  lemma SwitchedFlag(k: State)
    ensures SwitchContext(k).missedYield <==> k.depth > 0 || k.missedYield
  {
    hide At, TopNonEmpty;
    SwitchedFields(k);
  }

  // ----- over runs -------------------------------------------------------------------------------------

  /** All along every run the flag tells whether a yield is owed. */
  lemma {:induction false} FlagTellsExactly(run: seq<World>, ops: seq<Op>, i: nat)
    requires IsRun(run, ops) && Inv(run[0]) && !run[0].k.missedYield && i < |run|
    ensures run[i].k.missedYield <==> OwesYield(run, ops, i)
  {
    hide Inv, Step;
    if i > 0 {
      FlagTellsExactly(run, ops, i - 1);
      RunKeepsInv(run, ops, i - 1);
      assert Follows(run[i - 1], ops[i - 1], run[i]);
      StepKeepsFlag(run[i - 1], ops[i - 1]);
      OwesNext(run, ops, i);
    }
  }

  lemma OwesNext(run: seq<World>, ops: seq<Op>, i: nat)
    requires 0 < i <= |ops| <= |run|
    ensures OwesYield(run, ops, i) <==>
              || SwitchMissed(run[i - 1], ops[i - 1])
              || (OwesYield(run, ops, i - 1) && !ResumesOutermost(run[i - 1], ops[i - 1]))
  {
    hide SwitchMissed, ResumesOutermost;
    if SwitchMissed(run[i - 1], ops[i - 1]) {
      assert NotResumed(run, ops, i - 1, i);
    }
    forall j | 0 <= j < i - 1
      ensures NotResumed(run, ops, j, i) <==>
                NotResumed(run, ops, j, i - 1) && !ResumesOutermost(run[i - 1], ops[i - 1])
    {}
  }

  /** In every run from the start, the outermost xTaskResumeAll asks for a yield if and only if a switch was
      asked for since the last one while the scheduler was suspended, or ticks were missed, or a task as
      urgent as the running one was signalled meanwhile. */
  lemma ResumeYieldsExactly(run: seq<World>, ops: seq<Op>, t: Task, p: nat, i: nat)
    requires IsRun(run, ops) && run[0] == Initial(t, p) && i < |ops| && ResumesOutermost(run[i], ops[i])
    ensures ResumeYields(run[i].k) <==>
              || OwesYield(run, ops, i) || run[i].k.missed > 0
              || exists x | x in At(run[i].k, Pending) ::
                   x in run[i].k.priority && run[i].k.running in run[i].k.priority
                   && run[i].k.priority[x] >= run[i].k.priority[run[i].k.running]
    ensures !run[i + 1].k.missedYield
  {
    hide Inv, Step, OwesYield;
    InitialHolds(t, p);
    InitialFlag(t, p);
    FlagTellsExactly(run, ops, i);
    RunKeepsInv(run, ops, i);
    BetweenOperations(run[i]);
    assert Follows(run[i], ops[i], run[i + 1]);
    StepKeepsFlag(run[i], ops[i]);
  }

  lemma InitialFlag(t: Task, p: nat)
    ensures !Initial(t, p).k.missedYield
  {
    var empty := State(map[], map[], map[], map[], map[], map[], map[], DelayedA, DelayedB, t,
                       0, 0, 0, MAX_DELAY, 0, 0, 0, 0, false);
    assert Agreement(empty);
    CreatedState(empty, t, p);
  }
}
