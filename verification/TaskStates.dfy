// What the operations of FreeRTOS/tasks.c do to tasks, without a word about lists: a task can run,
// sleeps until an absolute time, is parked, or has ended; and it may wait for the event of a queue. The
// scheduler refines this simple machine, for every task and every operation.

module TaskStates {
  import opened Sequences
  import opened Ticks
  import opened Lists
  import opened KernelState
  import opened KernelWorld
  import opened KernelOps
  import opened KernelRuns
  import opened PriorityInheritance

  /** Parked is for ever: explicitly, until it is resumed, or waiting for an event without a limit. */
  datatype Place = NoTask | CanRun | Sleeps(until: nat) | Parked(explicitly: bool) | Ended

  /** Signalled: woken by an event or resumed, while the scheduler is suspended. */
  datatype Wait = NoEvent | WaitsFor(queue: nat) | Signalled

  datatype Situation = Situation(place: Place, wait: Wait)

  function PlaceOf(w: World, t: Task): Place {
    if t !in w.k.generic then NoTask
    else
      match w.k.generic[t]
      case Ready(_) => CanRun
      case DelayedA => Sleeps(if t in w.deadline then w.deadline[t] else 0)
      case DelayedB => Sleeps(if t in w.deadline then w.deadline[t] else 0)
      case Suspended => Parked(t in w.asleep)
      case _ => Ended
  }

  function WaitOf(w: World, t: Task): Wait {
    if t !in w.k.event then NoEvent
    else
      match w.k.event[t]
      case Event(queue) => WaitsFor(queue)
      case _ => Signalled
  }

  function SituationOf(w: World, t: Task): Situation {
    Situation(PlaceOf(w, t), WaitOf(w, t))
  }

  const RUNNABLE := Situation(CanRun, NoEvent)

  predicate DueBy(s: Situation, time: nat) {
    s.place.Sleeps? && s.place.until <= time
  }

  /** The machine: where an operation leaves the task t that was in situation s. */
  function After(w: World, op: Op, t: Task, s: Situation): Situation {
    match op
    case CreateTask(x, _) => if t == x then RUNNABLE else s
    case DeleteTask(x) => if t == x then Situation(Ended, NoEvent) else s
    case ReapTask => if Freed(w.k, t) then Situation(NoTask, NoEvent) else s
    case DelayFor(ticks) => if t == w.k.running then Situation(Sleeps(w.now + ticks), NoEvent) else s
    case DelayTo(previousWake, increment) =>
      var wakeTime := previousWake + increment;
      if t == w.k.running && wakeTime > w.now then Situation(Sleeps(wakeTime), NoEvent) else s
    case WaitFor(queue, ticks) =>
      if t != w.k.running then s
      else Situation(if ticks == MAX_DELAY then Parked(false) else Sleeps(w.now + ticks), WaitsFor(queue))
    case Signal(queue) =>
      if At(w.k, Event(queue)) == [] || t != At(w.k, Event(queue))[0] then s
      else if w.k.depth == 0 then RUNNABLE
      else s.(wait := Signalled)
    case SuspendTask(x) => if t == x then Situation(Parked(true), NoEvent) else s
    case ResumeTask(x) =>
      if t == x && t != w.k.running && s == Situation(Parked(true), NoEvent) then RUNNABLE else s
    case ResumeTaskFromISR(x) =>
      if t != x || s != Situation(Parked(true), NoEvent) then s
      else if w.k.depth == 0 then RUNNABLE
      else s.(wait := Signalled)
    case ResumeScheduler =>
      if w.k.depth == 1 && (s.wait == Signalled || DueBy(s, w.now + w.k.missed)) then RUNNABLE else s
    case TickInterrupt => if w.k.depth == 0 && DueBy(s, w.now + 1) then RUNNABLE else s
    case _ => s
  }

  // ----- one task moved --------------------------------------------------------------------------------

  /** Whoever else there is stays where it is. */
  ghost predicate OthersStay(w: World, w1: World, t: Task) {
    forall x | x != t :: SituationOf(w1, x) == SituationOf(w, x)
  }

  lemma MovedLeavesOthers(w: World, w1: World, t: Task)
    requires w1.k.generic - {t} == w.k.generic - {t} && w1.k.event - {t} == w.k.event - {t}
    requires w1.asleep - {t} == w.asleep - {t} && w1.deadline - {t} == w.deadline - {t}
    ensures OthersStay(w, w1, t)
  {
    forall x | x != t
      ensures SituationOf(w1, x) == SituationOf(w, x)
    {
      assert x in w1.k.generic - {t} <==> x in w.k.generic - {t};
      assert x in w1.k.event - {t} <==> x in w.k.event - {t};
      assert x in w1.asleep - {t} <==> x in w.asleep - {t};
      assert x in w1.deadline - {t} <==> x in w.deadline - {t};
      assert x in w.k.generic ==> (w1.k.generic - {t})[x] == (w.k.generic - {t})[x];
      assert x in w.k.event ==> (w1.k.event - {t})[x] == (w.k.event - {t})[x];
      assert x in w.deadline ==> (w1.deadline - {t})[x] == (w.deadline - {t})[x];
    }
  }

  lemma UpdateElsewhere<V>(m: map<Task, V>, t: Task, v: V)
    ensures m[t := v] - {t} == m - {t} && (m - {t}) - {t} == m - {t}
  {}

  lemma SetElsewhere(s: set<Task>, t: Task)
    ensures (s + {t}) - {t} == s - {t} && (s - {t}) - {t} == s - {t}
  {}

  /** A task that is ready is on no event list. */
  lemma ReadyMeansRunnable(w: World, t: Task)
    requires Inv(w) && IsReady(w.k, t)
    ensures SituationOf(w, t) == RUNNABLE
  {
    assert TaskOk(w, 0, t);
  }

  // ----- operations on one task --------------------------------------------------------------------------

  /** What a step has to show: every task is where the machine says. */
  ghost predicate Refines(w: World, w1: World, op: Op) {
    forall t :: SituationOf(w1, t) == After(w, op, t, SituationOf(w, t))
  }

  /** One task moved to list l, off all event lists. */
  lemma MovedSituation(w: World, w1: World, t: Task, l: ListId)
    requires w1.k.generic == w.k.generic[t := l] && w1.k.event == w.k.event - {t}
    requires w1.asleep - {t} == w.asleep - {t} && w1.deadline == w.deadline
    ensures OthersStay(w, w1, t) && WaitOf(w1, t) == NoEvent
    ensures t in w1.k.generic && w1.k.generic[t] == l
  {
    UpdateElsewhere(w.k.generic, t, l);
    UpdateElsewhere(w.k.event, t, l);
    MovedLeavesOthers(w, w1, t);
  }

  lemma DeleteRefines(w: World, t: Task)
    requires Inv(w) && Enabled(w, DeleteTask(t)) && Drainable(w.k) && SameTasks(w.k)
    ensures Refines(w, Step(w, DeleteTask(t)), DeleteTask(t))
  {
    hide Inv, Drainable, SameTasks, Delete, SituationOf;
    DeleteMoves(w.k, t);
    SetElsewhere(w.asleep, t);
    MovedSituation(w, Step(w, DeleteTask(t)), t, Terminated);
    Located(Step(w, DeleteTask(t)), t);
  }

  /** The situation of a task, from where its items are. */
  lemma Located(w: World, t: Task)
    ensures SituationOf(w, t) == Situation(PlaceOf(w, t), WaitOf(w, t))
  {}

  lemma SuspendRefines(w: World, t: Task)
    requires Inv(w) && Enabled(w, SuspendTask(t)) && Drainable(w.k) && SameTasks(w.k)
    ensures Refines(w, Step(w, SuspendTask(t)), SuspendTask(t))
  {
    hide Inv, Drainable, SameTasks, Relocate, SituationOf;
    RelocateMoves(w.k, t, Suspended);
    SetElsewhere(w.asleep, t);
    MovedSituation(w, Step(w, SuspendTask(t)), t, Suspended);
    Located(Step(w, SuspendTask(t)), t);
  }

  lemma CreateRefines(w: World, t: Task, p: nat)
    requires Inv(w) && Enabled(w, CreateTask(t, p)) && Drainable(w.k) && SameTasks(w.k)
    ensures Refines(w, Step(w, CreateTask(t, p)), CreateTask(t, p))
  {
    hide Inv, SameTasks, Agreement, Create, SituationOf;
    CreatedState(w.k, t, p);
    var w1 := Step(w, CreateTask(t, p));
    assert t !in w.k.event;
    UpdateElsewhere(w.k.generic, t, Ready(ClipPriority(p)));
    MovedLeavesOthers(w, w1, t);
    Located(w1, t);
  }

  lemma ReapRefines(w: World)
    requires Inv(w) && Enabled(w, ReapTask) && Drainable(w.k) && SameTasks(w.k)
    ensures Refines(w, Step(w, ReapTask), ReapTask)
  {
    hide Inv, Core, Drainable, SameTasks, Reap, SituationOf;
    Prepared(w);
    AllTerminated(w.k);
    var w1 := Step(w, ReapTask);
    if w.k.deleted > 0 && At(w.k, Terminated) != [] {
      var t := At(w.k, Terminated)[0];
      TerminatedHead(w);
      ReapEffect(w.k);
      UpdateElsewhere(w.k.generic, t, Terminated);
      MovedLeavesOthers(w, w1, t);
      Located(w1, t);
    } else {
      NothingToReap(w.k);
    }
  }

  lemma DelayForRefines(w: World, ticks: nat)
    requires Inv(w) && Enabled(w, DelayFor(ticks)) && Drainable(w.k) && SameTasks(w.k)
    ensures Refines(w, Step(w, DelayFor(ticks)), DelayFor(ticks))
  {
    hide Inv, Core, Drainable, SameTasks, SameButEvent, AddDelayed, TakeGeneric, Step;
    Prepared(w);
    DelayForIs(w, ticks);
    SleepSituation(w, w.k, w.now + ticks);
    hide SituationOf;
    ReadyMeansRunnable(w, w.k.running);
    ReadyIsUnlisted(w, w.k.running);
  }

  lemma EventsElsewhere(k: State, k0: State, t: Task)
    requires SameButEvent(k, k0, t)
    ensures k0.event - {t} == k.event - {t} && k0.generic == k.generic
  {
    hide Agreement;
  }

  /** The running task goes to sleep. */
  lemma SleepSituation(w: World, k0: State, deadline: nat)
    requires Inv(w) && IsReady(w.k, w.k.running) && SameButEvent(w.k, k0, w.k.running)
    requires w.now < deadline < w.now + MODULUS
    ensures w.k.running in k0.generic
    ensures var t := w.k.running;
            var w1 := w.(k := AddDelayed(TakeGeneric(k0, t), t, Tick(deadline)), deadline := w.deadline[t := deadline]);
            && OthersStay(w, w1, t) && PlaceOf(w1, t) == Sleeps(deadline) && w1.k.event == k0.event
  {
    hide Inv, Core, Drainable, SameTasks, AddDelayed, TakeGeneric, SameButEvent, DelaysOk, Agreement, At, WakeOf;
    hide OthersStay, Tick, Epoch;
    EventsElsewhere(w.k, k0, w.k.running);
    Prepared(w);
    TwoLists(w);
    var t := w.k.running;
    SleepBlocks(w, k0, t, deadline);
    var l := if Epoch(deadline) == Epoch(w.now) then w.k.delayed else w.k.overflow;
    var w1 := w.(k := AddDelayed(TakeGeneric(k0, t), t, Tick(deadline)), deadline := w.deadline[t := deadline]);
    UpdateElsewhere(w.k.generic, t, l);
    UpdateElsewhere(w.deadline, t, deadline);
    EventsElsewhere(w.k, k0, t);
    MovedLeavesOthers(w, w1, t);
  }

  lemma TwoLists(w: World)
    requires Inv(w)
    ensures w.k.delayed in {DelayedA, DelayedB} && w.k.overflow in {DelayedA, DelayedB}
  {}

  lemma DelayToRefines(w: World, previousWake: int, increment: nat)
    requires Inv(w) && Enabled(w, DelayTo(previousWake, increment)) && Drainable(w.k) && SameTasks(w.k)
    ensures Refines(w, Step(w, DelayTo(previousWake, increment)), DelayTo(previousWake, increment))
  {
    hide Inv, Core, Drainable, SameTasks, SameButEvent, AddDelayed, TakeGeneric, Step;
    Prepared(w);
    DelayToIs(w, previousWake, increment);
    if previousWake + increment > w.now {
      SleepSituation(w, w.k, previousWake + increment);
    }
    hide SituationOf;
    ReadyMeansRunnable(w, w.k.running);
    ReadyIsUnlisted(w, w.k.running);
  }

  lemma WaitForRefines(w: World, queue: nat, ticks: nat)
    requires Inv(w) && Enabled(w, WaitFor(queue, ticks)) && Drainable(w.k) && SameTasks(w.k)
    ensures Refines(w, Step(w, WaitFor(queue, ticks)), WaitFor(queue, ticks))
  {
    hide Inv, Core, Drainable, SameTasks, SameButEvent, AddDelayed, TakeGeneric, Step, InsertByRank, Append;
    Prepared(w);
    var t := w.k.running;
    InsertByRankEffect(w, queue);
    var k0 := InsertByRank(w.k, Event(queue), t);
    WaitForIs(w, queue, ticks);
    if ticks == MAX_DELAY {
      ParkSituation(w, k0);
    } else {
      SleepSituation(w, k0, w.now + ticks);
    }
  }

  lemma ParkSituation(w: World, k0: State)
    requires Inv(w) && IsReady(w.k, w.k.running) && SameButEvent(w.k, k0, w.k.running)
    ensures w.k.running in k0.generic
    ensures var t := w.k.running;
            var w1 := w.(k := Append(TakeGeneric(k0, t), Suspended, t));
            OthersStay(w, w1, t) && PlaceOf(w1, t) == Parked(false) && w1.k.event == k0.event
  {
    hide Inv, Core, Drainable, SameTasks, Append, TakeGeneric, SameButEvent, DelaysOk, Agreement, At, WakeOf;
    hide OthersStay;
    EventsElsewhere(w.k, k0, w.k.running);
    Prepared(w);
    var t := w.k.running;
    ParkBlocks(w, k0, t);
    ReadyIsAwake(w, t);
    var w1 := w.(k := Append(TakeGeneric(k0, t), Suspended, t));
    UpdateElsewhere(w.k.generic, t, Suspended);
    EventsElsewhere(w.k, k0, t);
    MovedLeavesOthers(w, w1, t);
  }

  lemma ReadyIsAwake(w: World, t: Task)
    requires Inv(w) && IsReady(w.k, t)
    ensures t !in w.asleep
  {
    assert TaskOk(w, 0, t);
  }

  /** A task that only its event item says is woken. */
  lemma PendingSituation(w: World, w1: World, t: Task)
    requires w1 == w.(k := w.k.(lists := w1.k.lists, event := w.k.event[t := Pending]))
    ensures OthersStay(w, w1, t) && SituationOf(w1, t) == SituationOf(w, t).(wait := Signalled)
  {
    UpdateElsewhere(w.k.event, t, Pending);
    MovedLeavesOthers(w, w1, t);
  }

  lemma SignalRefines(w: World, queue: nat)
    requires Inv(w) && Enabled(w, Signal(queue)) && Drainable(w.k) && SameTasks(w.k)
    ensures Refines(w, Step(w, Signal(queue)), Signal(queue))
  {
    hide Inv, Core, Drainable, SameTasks, Agreement, TakeEvent, MakeReady, Append, SituationOf;
    Prepared(w);
    Waiting(w, queue);
    var t := At(w.k, Event(queue))[0];
    var w1 := Step(w, Signal(queue));
    if w.k.depth == 0 {
      MakeReadyMoves(w.k, t);
      MovedSituation(w, w1, t, Ready(w.k.priority[t]));
      Located(w1, t);
    } else {
      ToPending(w.k, t);
      PendingSituation(w, w1, t);
    }
  }

  lemma ExplicitlyParked(w: World, t: Task)
    requires Inv(w) && t in w.k.generic
    ensures IsTaskSuspended(w.k, t) <==> SituationOf(w, t) == Situation(Parked(true), NoEvent)
    ensures IsTaskSuspended(w.k, t) ==> t !in w.k.event && t in w.k.priority
  {
    SuspendedExactly(w, t);
    assert TaskOk(w, 0, t);
  }

  lemma ResumedSituation(w: World, w1: World, t: Task)
    requires Inv(w) && Drainable(w.k) && SameTasks(w.k) && t in w.k.generic && t !in w.k.event && t in w.k.priority
    requires w1 == w.(k := AddReady(TakeGeneric(w.k, t), t), asleep := w.asleep - {t})
    ensures OthersStay(w, w1, t) && SituationOf(w1, t) == RUNNABLE
  {
    hide Inv, Drainable, SameTasks, Agreement, AddReady, TakeGeneric, MakeReady;
    GenericAlone(w.k, t);
    SetElsewhere(w.asleep, t);
    MovedSituation(w, w1, t, Ready(w.k.priority[t]));
  }

  lemma SameItems(w: World, w1: World)
    requires w1.k.generic == w.k.generic && w1.k.event == w.k.event && w1.asleep == w.asleep
    requires w1.deadline == w.deadline
    ensures forall t :: SituationOf(w1, t) == SituationOf(w, t)
  {}

  lemma ResumeRefines(w: World, t: Task)
    requires Inv(w) && Enabled(w, ResumeTask(t)) && Drainable(w.k) && SameTasks(w.k)
    ensures Refines(w, Step(w, ResumeTask(t)), ResumeTask(t))
  {
    hide Inv, Drainable, Agreement, AddReady, TakeGeneric, IsTaskSuspended, SituationOf;
    ExplicitlyParked(w, t);
    var w1 := Step(w, ResumeTask(t));
    if t != w.k.running && IsTaskSuspended(w.k, t) {
      ResumedSituation(w, w1, t);
    } else {
      NotSuspended(w, t);
      SameItems(w, w1);
    }
  }

  lemma NotSuspended(w: World, t: Task)
    requires Inv(w) && t in w.k.generic
    ensures t !in w.k.event && !IsTaskSuspended(w.k, t) ==> w.asleep - {t} == w.asleep
  {
    SuspendedExactly(w, t);
  }

  lemma ResumeFromISRRefines(w: World, t: Task)
    requires Inv(w) && Enabled(w, ResumeTaskFromISR(t)) && Drainable(w.k) && SameTasks(w.k)
    ensures Refines(w, Step(w, ResumeTaskFromISR(t)), ResumeTaskFromISR(t))
  {
    hide Inv, Agreement, AddReady, TakeGeneric, Append, IsTaskSuspended, SituationOf;
    ExplicitlyParked(w, t);
    var w1 := Step(w, ResumeTaskFromISR(t));
    if !IsTaskSuspended(w.k, t) {
      NotSuspended(w, t);
      SameItems(w, w1);
    } else if w.k.depth == 0 {
      ResumedSituation(w, w1, t);
    } else {
      AppendEffect(w.k, Pending, t);
      PendingSituation(w, w1, t);
    }
  }

  // ----- changes of priority ------------------------------------------------------------------------------

  /** A change of priority leaves every task where it is, but for the level of a ready one. */
  lemma ChangedSituation(w: World, w1: World, k1: State, t: Task, moves: bool)
    requires Inv(w) && Drainable(w.k) && SameTasks(w.k) && t in w.k.generic && Reprioritised(w.k, k1, t)
    requires t in k1.priority && (moves ==> IsReady(w.k, t))
    requires w1 == w.(k := if moves then AddReady(TakeGeneric(k1, t), t) else k1)
    ensures forall x :: SituationOf(w1, x) == SituationOf(w, x)
  {
    hide Inv, Drainable, SameTasks, Agreement, AddReady, TakeGeneric, MakeReady, At;
    if moves {
      ReprioritisedDrainable(w.k, k1, t);
      ReadyIsUnlisted(w, t);
      GenericAlone(k1, t);
      MovedSituation(w, w1, t, Ready(k1.priority[t]));
      ReadyMeansRunnable(w, t);
      assert SituationOf(w1, t) == RUNNABLE;
    } else {
      SameItems(w, w1);
    }
  }

  lemma SetPriorityRefines(w: World, t: Task, p: nat)
    requires Inv(w) && Enabled(w, SetPriority(t, p)) && Drainable(w.k) && SameTasks(w.k)
    ensures Refines(w, Step(w, SetPriority(t, p)), SetPriority(t, p))
  {
    hide Inv, Drainable, SameTasks, AddReady, TakeGeneric, Reprioritised, PrioritySet, Step, SituationOf;
    KeyFacts(w.k, t);
    InItsReadyList(w, t);
    SetPriorityStep(w, t, p);
    hide Enabled;
    var k := w.k;
    var c := ClipPriority(p);
    var q := if k.basePriority[t] == k.priority[t] then c else k.priority[t];
    var k1 := k.(priority := k.priority[t := q], basePriority := k.basePriority[t := c],
                 rank := k.rank[t := MAX_PRIORITIES - c]);
    ReprioritisedBy(k, t, q, c, MAX_PRIORITIES - c);
    SetPriorityIs(k, k1, t, p);
    if k.basePriority[t] != c {
      ChangedSituation(w, Step(w, SetPriority(t, p)), k1, t, k.generic[t] == Ready(k.basePriority[t]));
    }
  }

  lemma InheritRefines(w: World, t: Task)
    requires Inv(w) && Enabled(w, InheritBy(t)) && Drainable(w.k) && SameTasks(w.k)
    ensures Refines(w, Step(w, InheritBy(t)), InheritBy(t))
  {
    hide Inv, Drainable, SameTasks, AddReady, TakeGeneric, Reprioritised, SituationOf;
    KeyFacts(w.k, t);
    KeyFacts(w.k, w.k.running);
    InItsReadyList(w, w.k.running);
    BaseBound(w.k, t);
    var k := w.k;
    var p := k.priority[k.running];
    var k1 := k.(rank := k.rank[t := MAX_PRIORITIES - p], priority := k.priority[t := p]);
    ReprioritisedBy(k, t, p, k.basePriority[t], MAX_PRIORITIES - p);
    if k.priority[t] < p {
      ChangedSituation(w, Step(w, InheritBy(t)), k1, t, k.generic[t] == Ready(k.priority[t]));
    }
  }

  lemma BaseBound(k: State, t: Task)
    requires SameTasks(k) && t in k.generic
    ensures t in k.basePriority && k.basePriority[t] < MAX_PRIORITIES
  {}

  lemma DisinheritRefines(w: World, t: Task)
    requires Inv(w) && Enabled(w, DisinheritBy(t)) && Drainable(w.k) && SameTasks(w.k)
    ensures Refines(w, Step(w, DisinheritBy(t)), DisinheritBy(t))
  {
    hide Inv, Drainable, SameTasks, AddReady, TakeGeneric, Reprioritised, Disinherit, SituationOf;
    KeyFacts(w.k, t);
    BaseBound(w.k, t);
    var k := w.k;
    var p := k.basePriority[t];
    var k1 := k.(rank := k.rank[t := MAX_PRIORITIES - p], priority := k.priority[t := p]);
    ReprioritisedBy(k, t, p, p, MAX_PRIORITIES - p);
    DisinheritedState(k, k1, t);
    if k.priority[t] != p {
      ChangedSituation(w, Step(w, DisinheritBy(t)), k1, t, true);
    }
  }

  // ----- time ---------------------------------------------------------------------------------------------

  ghost predicate SameEvent(k: State, k1: State, t: Task) {
    (t in k1.event <==> t in k.event) && (t in k.event ==> k1.event[t] == k.event[t])
  }

  /** Draining takes only the due off their event lists. */
  lemma {:induction false} DrainLeavesEvents(w: World, t: Task)
    requires Core(w, 1) && t in w.k.generic && !Due(w.k, t)
    ensures SameEvent(w.k, Drain(w.k), t)
    decreases |At(w.k, w.k.delayed)|
  {
    hide Core, Drainable, Drain, MakeReady, Due, SameEvent, WakeOf;
    CoreIsDrainable(w, 1);
    var q := At(w.k, w.k.delayed);
    if q == [] || w.k.tick < WakeOf(w.k, q[0]) {
      NothingDrained(w);
      EventsStay(w.k, Drain(w.k), t);
    } else {
      var w1 := WakingLeaves(w, t);
      DrainLeavesEvents(w1, t);
      EventStaysToo(w.k, w1.k, Drain(w.k), t);
    }
  }

  lemma WakingLeaves(w: World, t: Task) returns (w1: World)
    requires Core(w, 1) && t in w.k.generic && !Due(w.k, t)
    requires var q := At(w.k, w.k.delayed); q != [] && w.k.tick >= WakeOf(w.k, q[0])
    ensures Core(w1, 1) && t in w1.k.generic && !Due(w1.k, t) && Drain(w.k) == Drain(w1.k)
    ensures SameEvent(w.k, w1.k, t) && |At(w1.k, w1.k.delayed)| < |At(w.k, w.k.delayed)|
  {
    hide Core, Drainable, SameTasks, Drain, MakeReady, Moved, SameEvent;
    CoreIsDrainable(w, 1);
    WakeHead(w);
    var x := At(w.k, w.k.delayed)[0];
    w1 := w.(k := MakeReady(w.k, x));
    CoreIsDrainable(w1, 1);
    MovedLeaves(w.k, w1.k, x, t);
  }

  lemma MovedLeaves(k: State, k1: State, x: Task, t: Task)
    requires x in k.generic && t in k.generic && Due(k, x) && !Due(k, t) && x in k.priority
    requires Moved(k, k1, x, Ready(k.priority[x])) && At(k, k.delayed) != [] && At(k, k.delayed)[0] == x
    ensures t in k1.generic && !Due(k1, t) && SameEvent(k, k1, t)
    ensures |At(k1, k1.delayed)| < |At(k, k.delayed)|
  {
    hide At, SameTasks, Agreement;
  }

  lemma EventsStay(k: State, k1: State, t: Task)
    requires k1.event == k.event
    ensures SameEvent(k, k1, t)
  {}

  lemma EventStaysToo(k: State, k1: State, k2: State, t: Task)
    requires SameEvent(k, k1, t) && SameEvent(k1, k2, t)
    ensures SameEvent(k, k2, t)
  {}

  lemma NothingDrained(w: World)
    requires Core(w, 1)
    requires var q := At(w.k, w.k.delayed); q == [] || w.k.tick < WakeOf(w.k, q[0])
    ensures Drain(w.k).event == w.k.event
  {
    var q := At(w.k, w.k.delayed);
    if q != [] {
      assert Holds(w.k, w.k.delayed, q[0]);
    }
  }

  /** Whom a processed tick does not wake it leaves on its event list. */
  lemma TickLeavesEvents(w: World, t: Task)
    requires Core(w, 0) && w.k.depth == 0 && t in w.k.generic
    ensures t in IncrementTick(w.k).generic
    ensures IncrementTick(w.k).generic[t] == w.k.generic[t] ==> SameEvent(w.k, IncrementTick(w.k), t)
  {
    hide Core, Drainable, Drain, AdvanceTick;
    CoreIsDrainable(w, 0);
    AdvanceKeepsCore(w);
    AdvancedFields(w.k);
    var w1 := Advanced(w);
    CoreIsDrainable(w1, 1);
    GuardedCheckIsExact(w1);
    if !Due(w1.k, t) {
      DrainLeavesEvents(w1, t);
    } else {
      DueIsNotReady(w1, t);
    }
  }

  lemma DueIsNotReady(w: World, t: Task)
    requires Drainable(w.k) && t in w.k.generic && Due(w.k, t)
    ensures !w.k.generic[t].Ready?
  {}

  /** What a tick does to a task, of any core state. */
  lemma TickedSituation(w: World, t: Task)
    requires Core(w, 0) && w.k.depth == 0
    ensures Drainable(w.k) && Core(Ticked(w), 0)
    ensures var s := SituationOf(w, t);
            SituationOf(Ticked(w), t) == if DueBy(s, w.now + 1) then RUNNABLE else s
  {
    hide Core, Drainable, IncrementTick;
    CoreIsDrainable(w, 0);
    TickKeepsCore(w);
    TickMakesNobody(w, t);
    if t in w.k.generic {
      TickWakesAtDeadline(w, t);
      TickLeavesEvents(w, t);
      KindOfPlace(w, t);
      KindOfPlace(Ticked(w), t);
    }
  }

  lemma TickMakesNobody(w: World, t: Task)
    requires Core(w, 0) && w.k.depth == 0
    ensures Drainable(w.k) && (t in IncrementTick(w.k).generic <==> t in w.k.generic)
    ensures t !in w.k.generic ==> t !in w.k.event && t !in IncrementTick(w.k).event
  {
    hide Core;
    CoreIsDrainable(w, 0);
    TickKeepsCore(w);
    CoreIsDrainable(Ticked(w), 0);
    hide Drainable, SameTasks;
    TickMaps(w.k);
    SameKeysAsPriorities(w.k);
    SameKeysAsPriorities(Ticked(w).k);
  }

  lemma SameKeysAsPriorities(k: State)
    requires Drainable(k) && SameTasks(k)
    ensures k.generic.Keys == k.priority.Keys && k.event.Keys <= k.generic.Keys
  {}

  /** Of a task that exists, what the lists that hold it say. */
  lemma KindOfPlace(w: World, t: Task)
    requires Core(w, 0) && t in w.k.generic
    ensures w.k.generic[t].Ready? ==> SituationOf(w, t) == RUNNABLE
    ensures w.k.generic[t] in {DelayedA, DelayedB} ==> t in w.deadline
    ensures SituationOf(w, t).place.Sleeps? <==> w.k.generic[t] in {DelayedA, DelayedB}
  {
    assert TaskOk(w, 0, t);
  }

  /** Replaying the missed ticks wakes whoever is due by then. */
  lemma {:induction false} CaughtUpSituation(w: World, t: Task)
    requires Core(w, 0) && w.k.depth == 0
    ensures Drainable(w.k)
    ensures var s := SituationOf(w, t);
            SituationOf(CaughtUp(w), t) == if w.k.missed > 0 && DueBy(s, w.now + w.k.missed) then RUNNABLE else s
    decreases w.k.missed
  {
    hide Core, Drainable, IncrementTick, CatchUp, SituationOf;
    CoreIsDrainable(w, 0);
    if w.k.missed > 0 {
      ReplayKeepsCore(w);
      TickedSituation(w, t);
      var w1 := ReplayOne(w);
      CoreIsDrainable(w1, 0);
      SameItems(Ticked(w), w1);
      CaughtUpSituation(w1, t);
    } else {
      NothingToCatchUp(w);
    }
  }

  lemma NothingToCatchUp(w: World)
    requires Drainable(w.k) && w.k.depth == 0 && w.k.missed == 0
    ensures CaughtUp(w) == w
  {
    hide Drainable;
  }

  /** Emptying the pending list wakes whoever was signalled. */
  lemma {:induction false} PendingDrainedSituation(w: World, t: Task)
    requires Core(w, 0)
    ensures Drainable(w.k)
    ensures var s := SituationOf(w, t);
            SituationOf(PendingDrained(w), t) == if s.wait == Signalled then RUNNABLE else s
    decreases |At(w.k, Pending)|
  {
    hide Core, MakeReady, TaskOk, SituationOf;
    CoreIsDrainable(w, 0);
    SignalledIsPending(w, t);
    var q := At(w.k, Pending);
    if q == [] {
      NothingPending(w);
    } else {
      PendingStep(w);
      var w1 := Woken(w, q[0]);
      CoreIsDrainable(w1, 0);
      MakeReadyMoves(w.k, q[0]);
      SetElsewhere(w.asleep, q[0]);
      MovedSituation(w, w1, q[0], Ready(w.k.priority[q[0]]));
      KindOfPlace(w1, q[0]);
      SignalledIsPending(w, q[0]);
      PendingDrainedSituation(w1, t);
    }
  }

  lemma SignalledIsPending(w: World, t: Task)
    requires Drainable(w.k)
    ensures SituationOf(w, t).wait == Signalled <==> t in At(w.k, Pending)
  {
    assert t in At(w.k, Pending) <==> Holds(w.k, Pending, t);
  }

  lemma ResumeSchedulerRefines(w: World)
    requires Inv(w) && Enabled(w, ResumeScheduler) && Drainable(w.k) && SameTasks(w.k)
    ensures Refines(w, Step(w, ResumeScheduler), ResumeScheduler)
  {
    hide Inv, Core, Drainable, SameTasks, ResumeAll, SituationOf, Resumed;
    Prepared(w);
    SomeTasks(w);
    var w1 := Step(w, ResumeScheduler);
    if w.k.depth > 1 {
      NestedItems(w.k);
      SameItems(w, w1);
    } else {
      ResumeAllIs(w);
      ResumedFields(w);
      SameItems(Resumed(w), w1);
      forall t
        ensures SituationOf(w1, t) == After(w, ResumeScheduler, t, SituationOf(w, t))
      {
        ResumedSituations(w, t);
        SleepersAreAhead(w, t);
      }
    }
  }

  lemma NestedItems(k: State)
    requires Drainable(k) && k.depth > 1
    ensures ResumeAll(k).generic == k.generic && ResumeAll(k).event == k.event
  {
    hide Drainable;
  }

  lemma ResumedFields(w: World)
    requires Drainable(w.k) && w.k.depth == 1 && w.k.taskCount > 0
    ensures ResumeAll(w.k).generic == Resumed(w).k.generic && ResumeAll(w.k).event == Resumed(w).k.event
    ensures Resumed(w).asleep == w.asleep - (set t | t in At(w.k, Pending)) && Resumed(w).deadline == w.deadline
  {
    hide Drainable, Resumed, ResumeAll, ResumeYields;
    ResumeAllIs(w);
  }

  lemma ResumedSituations(w: World, t: Task)
    requires Core(w, 0) && w.k.depth == 1
    ensures Drainable(w.k)
    ensures var s := SituationOf(w, t);
            SituationOf(Resumed(w), t) ==
            if s.wait == Signalled || (w.k.missed > 0 && DueBy(s, w.now + w.k.missed)) then RUNNABLE else s
  {
    hide Core, Drainable, SituationOf, DrainPending, CatchUp;
    CoreIsDrainable(w, 0);
    var w1 := w.(k := w.k.(depth := 0));
    DepthKeepsCore(w, w1);
    CoreIsDrainable(w1, 0);
    SameItems(w, w1);
    DrainPendingDrainable(w1.k);
    DrainPendingKeepsCore(w1);
    PendingDrainedSituation(w1, t);
    CaughtUpSituation(PendingDrained(w1), t);
  }

  /** Between operations no sleeper is overdue. */
  lemma SleepersAreAhead(w: World, t: Task)
    requires Inv(w)
    ensures !DueBy(SituationOf(w, t), w.now)
  {
    hide Core;
    if t in w.k.generic && IsTimed(w.k, t) {
      SleeperIsAhead(w, t);
    }
  }

  lemma TickRefines(w: World)
    requires Inv(w) && Drainable(w.k) && SameTasks(w.k)
    ensures Refines(w, Step(w, TickInterrupt), TickInterrupt)
  {
    hide Inv, Core, Drainable, SameTasks, IncrementTick, SituationOf;
    Prepared(w);
    var w1 := Step(w, TickInterrupt);
    if w.k.depth == 0 {
      SameItems(Ticked(w), w1);
      forall t
        ensures SituationOf(w1, t) == After(w, TickInterrupt, t, SituationOf(w, t))
      {
        TickedSituation(w, t);
      }
    } else {
      DeferredItems(w.k);
      SameItems(w, w1);
    }
  }

  lemma DeferredItems(k: State)
    requires Drainable(k) && k.depth > 0
    ensures IncrementTick(k).generic == k.generic && IncrementTick(k).event == k.event
  {}

  // ----- every operation ------------------------------------------------------------------------------------

  /** The scheduler refines the machine: every operation leaves every task exactly where the machine says. */
  lemma StepRefines(w: World, op: Op, t: Task)
    requires Inv(w) && Enabled(w, op)
    ensures Drainable(w.k) && SameTasks(w.k)
    ensures SituationOf(Step(w, op), t) == After(w, op, t, SituationOf(w, t))
  {
    hide Inv, Step, Drainable, SameTasks, SituationOf, After;
    Prepared(w);
    match op
    case CreateTask(x, p) => CreateRefines(w, x, p);
    case DeleteTask(x) => DeleteRefines(w, x);
    case ReapTask => ReapRefines(w);
    case DelayFor(ticks) => DelayForRefines(w, ticks);
    case DelayTo(previousWake, increment) => DelayToRefines(w, previousWake, increment);
    case WaitFor(queue, ticks) => WaitForRefines(w, queue, ticks);
    case Signal(queue) => SignalRefines(w, queue);
    case SuspendTask(x) => SuspendRefines(w, x);
    case ResumeTask(x) => ResumeRefines(w, x);
    case ResumeTaskFromISR(x) => ResumeFromISRRefines(w, x);
    case SetPriority(x, p) => SetPriorityRefines(w, x, p);
    case InheritBy(x) => InheritRefines(w, x);
    case DisinheritBy(x) => DisinheritRefines(w, x);
    case TickInterrupt => TickRefines(w);
    case ResumeScheduler => ResumeSchedulerRefines(w);
    case SuspendScheduler => QuietRefines(w, SuspendScheduler);
    case Switch => QuietRefines(w, Switch);
  }

  lemma QuietRefines(w: World, op: Op)
    requires Drainable(w.k) && SameTasks(w.k) && Enabled(w, op) && (op.SuspendScheduler? || op.Switch?)
    ensures Refines(w, Step(w, op), op)
  {
    hide Drainable, SameTasks, SwitchContext, SituationOf;
    SwitchedFields(w.k);
    SameItems(w, Step(w, op));
  }

  /** All along every run from the start. */
  lemma RunRefines(run: seq<World>, ops: seq<Op>, first: Task, p: nat, i: nat, t: Task)
    requires IsRun(run, ops) && run[0] == Initial(first, p) && i < |ops|
    ensures SituationOf(run[0], t) == if t == first then RUNNABLE else Situation(NoTask, NoEvent)
    ensures SituationOf(run[i + 1], t) == After(run[i], ops[i], t, SituationOf(run[i], t))
  {
    hide Inv, Step, SituationOf, After;
    InitialHolds(first, p);
    RunKeepsInv(run, ops, i);
    assert Follows(run[i], ops[i], run[i + 1]);
    StepRefines(run[i], ops[i], t);
    InitialSituation(first, p, t);
  }

  lemma InitialSituation(first: Task, p: nat, t: Task)
    ensures SituationOf(Initial(first, p), t) == if t == first then RUNNABLE else Situation(NoTask, NoEvent)
  {
    var empty := State(map[], map[], map[], map[], map[], map[], map[], DelayedA, DelayedB, first,
                       0, 0, 0, MAX_DELAY, 0, 0, 0, 0, false);
    assert Agreement(empty);
    CreatedState(empty, first, p);
  }
}
