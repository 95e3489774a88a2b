// What the invariant gives over whole runs of the scheduler.

module KernelRuns {
  import opened Sequences
  import opened Ticks
  import opened Lists
  import opened KernelState
  import opened KernelWorld
  import opened KernelOps

  /** The states of a run: each one follows from the one before by an enabled operation. */
  ghost predicate IsRun(run: seq<World>, ops: seq<Op>) {
    && |run| == |ops| + 1
    && (forall i | 0 <= i < |ops| :: Follows(run[i], ops[i], run[i + 1]))
  }

  ghost predicate Follows(w: World, op: Op, w1: World) {
    Drainable(w.k) && SameTasks(w.k) && Enabled(w, op) && w1 == Step(w, op)
  }

  /** The invariant holds all along every run. */
  lemma {:induction false} RunKeepsInv(run: seq<World>, ops: seq<Op>, i: nat)
    requires IsRun(run, ops) && Inv(run[0]) && i < |run|
    ensures Inv(run[i])
  {
    hide Inv, Step;
    if i > 0 {
      RunKeepsInv(run, ops, i - 1);
      assert Follows(run[i - 1], ops[i - 1], run[i]);
      StepKeepsInv(run[i - 1], ops[i - 1]);
    }
  }

  // ----- the first state ------------------------------------------------------------------------

  /** The state in which the scheduler starts: one task, all else as initialised. */
  function Initial(t: Task, requested: nat): World {
    var empty := State(map[], map[], map[], map[], map[], map[], map[], DelayedA, DelayedB, t,
                       0, 0, 0, MAX_DELAY, 0, 0, 0, 0, false);
    World(Create(empty, t, requested), 0, map[], {}, 0)
  }

  lemma InitialHolds(t: Task, requested: nat)
    ensures Inv(Initial(t, requested))
  {
    var empty := State(map[], map[], map[], map[], map[], map[], map[], DelayedA, DelayedB, t,
                       0, 0, 0, MAX_DELAY, 0, 0, 0, 0, false);
    var w0 := World(empty, 0, map[], {}, 0);
    assert Agreement(empty);
    CreateEffect(empty, t, requested);
    CreatedKeepsCore(w0, Initial(t, requested), t);
  }

  // ----- where a task is ------------------------------------------------------------------------

  /** Every task's generic item is in exactly one list, and once; its event item in at most one. */
  lemma OneListEach(w: World, t: Task)
    requires Inv(w) && t in w.k.generic
    ensures exists l: ListId ::
              !l.ForEvents() && t in At(w.k, l) && forall m: ListId | !m.ForEvents() && m != l :: t !in At(w.k, m)
    ensures forall l: ListId, m: ListId | l.ForEvents() && m.ForEvents() && t in At(w.k, l) && t in At(w.k, m) :: l == m
    ensures forall l :: NoDup(At(w.k, l))
  {
    var l := w.k.generic[t];
    assert Holds(w.k, l, t);
    assert !l.ForEvents() && t in At(w.k, l);
    forall m: ListId | !m.ForEvents() && m != l
      ensures t !in At(w.k, m)
    {
      assert !Holds(w.k, m, t);
    }
    forall a: ListId, b: ListId | a.ForEvents() && b.ForEvents() && t in At(w.k, a) && t in At(w.k, b)
      ensures a == b
    {
      assert Holds(w.k, a, t) && Holds(w.k, b, t);
    }
  }

  function Total(k: State, levels: nat): nat {
    if levels == 0 then |At(k, DelayedA)| + |At(k, DelayedB)| + |At(k, Suspended)| + |At(k, Terminated)|
    else Total(k, levels - 1) + |At(k, Ready(levels - 1))|
  }

  /** uxCurrentNumberOfTasks counts the items of all lists together; uxTasksDeleted those that wait
      to be freed. */
  lemma ListLengthsSum(w: World)
    requires Inv(w)
    ensures w.k.taskCount == Total(w.k, MAX_PRIORITIES)
    ensures w.k.deleted == |At(w.k, Terminated)|
  {
    var all := Members(w.k, MAX_PRIORITIES);
    TotalCounts(w.k, MAX_PRIORITIES);
    assert all == w.k.generic.Keys by {
      forall t
        ensures t in all <==> t in w.k.generic
      {
        MembersAre(w.k, MAX_PRIORITIES, t);
        if t in w.k.generic {
          assert TaskOk(w, 0, t);
        }
      }
    }
  }

  function Members(k: State, levels: nat): set<Task> {
    if levels == 0 then
      Elements(At(k, DelayedA)) + Elements(At(k, DelayedB)) + Elements(At(k, Suspended)) + Elements(At(k, Terminated))
    else Members(k, levels - 1) + Elements(At(k, Ready(levels - 1)))
  }

  function Elements(q: seq<Task>): set<Task> {
    set t | t in q
  }

  lemma {:induction false} MembersAre(k: State, levels: nat, t: Task)
    requires Agreement(k)
    ensures t in Members(k, levels) <==> t in k.generic && (k.generic[t].Ready? ==> k.generic[t].level < levels)
  {
    if levels == 0 {
      assert forall l :: t in At(k, l) <==> Holds(k, l, t);
    } else {
      MembersAre(k, levels - 1, t);
      assert t in At(k, Ready(levels - 1)) <==> Holds(k, Ready(levels - 1), t);
    }
  }

  lemma {:induction false} ElementsCount(q: seq<Task>)
    requires NoDup(q)
    ensures |Elements(q)| == |q|
  {
    if q != [] {
      ElementsCount(q[1..]);
      assert Elements(q) == {q[0]} + Elements(q[1..]);
    }
  }

  lemma NoDuplicates(k: State)
    requires Agreement(k)
    ensures forall l :: NoDup(At(k, l))
  {}

  lemma DisjointLists(k: State, l: ListId, m: ListId)
    requires Agreement(k) && l != m && !l.ForEvents() && !m.ForEvents()
    ensures Elements(At(k, l)) !! Elements(At(k, m))
  {
    forall t: Task
      ensures !(t in At(k, l) && t in At(k, m))
    {
      assert !(Holds(k, l, t) && Holds(k, m, t));
    }
  }

  lemma FourDisjoint(a: set<Task>, b: set<Task>, c: set<Task>, d: set<Task>)
    requires a !! b && a !! c && a !! d && b !! c && b !! d && c !! d
    ensures |a + b + c + d| == |a| + |b| + |c| + |d|
  {
    assert |a + b| == |a| + |b|;
    assert |a + b + c| == |a + b| + |c|;
  }

  lemma {:induction false} TotalCounts(k: State, levels: nat)
    requires Agreement(k)
    ensures |Members(k, levels)| == Total(k, levels)
  {
    hide Agreement, At, Elements;
    if levels == 0 {
      OtherLists(k);
    } else {
      TotalCounts(k, levels - 1);
      LevelCounts(k, levels - 1);
    }
  }

  lemma LevelCounts(k: State, p: nat)
    requires Agreement(k)
    ensures |Members(k, p) + Elements(At(k, Ready(p)))| == |Members(k, p)| + |At(k, Ready(p))|
  {
    assert NoDup(At(k, Ready(p)));
    hide Agreement, NoDup, At, Elements;
    ElementsCount(At(k, Ready(p)));
    forall t | t in Elements(At(k, Ready(p)))
      ensures t !in Members(k, p)
    {
      ListedReady(k, p, t);
    }
    DisjointCount(Members(k, p), Elements(At(k, Ready(p))));
  }

  lemma ListedReady(k: State, p: nat, t: Task)
    requires Agreement(k) && t in Elements(At(k, Ready(p)))
    ensures t !in Members(k, p)
  {
    assert Holds(k, Ready(p), t);
    MembersAre(k, p, t);
  }

  lemma DisjointCount(a: set<Task>, b: set<Task>)
    requires forall t | t in b :: t !in a
    ensures |a + b| == |a| + |b|
  {
    assert a !! b;
  }

  lemma OtherLists(k: State)
    requires Agreement(k)
    ensures |Members(k, 0)| == Total(k, 0)
  {
    NoDuplicates(k);
    hide Agreement, Elements;
    ElementsCount(At(k, DelayedA));
    ElementsCount(At(k, DelayedB));
    ElementsCount(At(k, Suspended));
    ElementsCount(At(k, Terminated));
    DisjointLists(k, DelayedA, DelayedB);
    DisjointLists(k, DelayedA, Suspended);
    DisjointLists(k, DelayedA, Terminated);
    DisjointLists(k, DelayedB, Suspended);
    DisjointLists(k, DelayedB, Terminated);
    DisjointLists(k, Suspended, Terminated);
    FourDisjoint(Elements(At(k, DelayedA)), Elements(At(k, DelayedB)), Elements(At(k, Suspended)),
                 Elements(At(k, Terminated)));
  }

  // ----- sleeping until the deadline --------------------------------------------------------------

  predicate IsTimed(k: State, t: Task) {
    t in k.generic && (k.generic[t] == DelayedA || k.generic[t] == DelayedB)
  }

  /** The step neither wakes the sleeper t by an event or a pending resume nor takes it elsewhere. */
  predicate LeavesAsleep(w: World, op: Op, t: Task) {
    match op
    case DeleteTask(x) => x != t
    case SuspendTask(x) => x != t
    case Signal(queue) => At(w.k, Event(queue)) != [] && At(w.k, Event(queue))[0] != t
    case ResumeScheduler => t !in At(w.k, Pending)
    case _ => true
  }

  /** One step of a world in which t sleeps: it sleeps on, with its deadline, exactly as long as the
      deadline is ahead; the step whose ticks reach the deadline makes it ready. */
  lemma SleeperStep(w: World, op: Op, t: Task)
    requires Inv(w) && Drainable(w.k) && SameTasks(w.k) && Enabled(w, op)
    requires IsTimed(w.k, t) && t in w.deadline && LeavesAsleep(w, op, t)
    ensures var w1 := Step(w, op);
            && w.now < w.deadline[t] && t in w1.deadline && w1.deadline[t] == w.deadline[t]
            && (w1.now < w.deadline[t] <==> IsTimed(w1.k, t))
            && (w.deadline[t] <= w1.now ==> IsReady(w1.k, t))
  {
    hide Inv, Core, Drainable, SameTasks, Step, Enabled;
    Prepared(w);
    SleeperIsAhead(w, t);
    if op.TickInterrupt? {
      SleeperTick(w, t);
    } else if op.ResumeScheduler? {
      SleeperResume(w, t);
    } else {
      SleeperUntouched(w, op, t);
    }
  }

  /** What SleeperStep says, for a tick interrupt. */
  lemma SleeperTick(w: World, t: Task)
    requires Inv(w) && Drainable(w.k) && SameTasks(w.k) && IsTimed(w.k, t) && t in w.deadline && w.now < w.deadline[t]
    ensures var w1 := Step(w, TickInterrupt);
            && w1.deadline == w.deadline
            && (w1.now < w.deadline[t] <==> IsTimed(w1.k, t))
            && (w.deadline[t] <= w1.now ==> IsReady(w1.k, t))
  {
    hide Core, Drainable, SameTasks;
    if w.k.depth == 0 {
      TickWakesAtDeadline(w, t);
    }
  }

  lemma SleeperResume(w: World, t: Task)
    requires Inv(w) && Drainable(w.k) && SameTasks(w.k) && IsTimed(w.k, t) && t in w.deadline && w.now < w.deadline[t]
    requires Enabled(w, ResumeScheduler) && t !in At(w.k, Pending)
    ensures var w1 := Step(w, ResumeScheduler);
            && w1.deadline == w.deadline
            && (w1.now < w.deadline[t] <==> IsTimed(w1.k, t))
            && (w.deadline[t] <= w1.now ==> IsReady(w1.k, t))
  {
    hide Inv, Drainable, SameTasks;
    if w.k.depth == 1 {
      ResumedPlace(w, t);
    }
  }

  lemma SleeperIsAhead(w: World, t: Task)
    requires Core(w, 0) && IsTimed(w.k, t)
    ensures t in w.deadline && w.now < w.deadline[t]
  {
    assert TaskOk(w, 0, t);
    if w.k.generic[t] != w.k.delayed {
      LaterEpoch(w.now, w.deadline[t]);
    }
  }

  lemma LaterEpoch(a: int, b: int)
    requires Epoch(b) == Epoch(a) + 1
    ensures a < b
  {}

  ghost predicate SamePlace(k: State, k1: State, t: Task) {
    t in k.generic && t in k1.generic && k1.generic[t] == k.generic[t]
  }

  lemma RequeueOthers(k: State, x: Task, t: Task)
    requires x in k.generic && x in k.priority && t in k.generic && x != t
    ensures SamePlace(k, MakeReady(k, x), t) && SamePlace(k, AddReady(TakeGeneric(k, x), x), t)
  {}

  lemma RelocateOthers(k: State, x: Task, l: ListId, t: Task)
    requires x in k.generic && t in k.generic && x != t && !l.ForEvents()
    ensures SamePlace(k, Relocate(k, x, l), t)
  {}

  lemma CreateOthers(k: State, x: Task, p: nat, t: Task)
    requires x !in k.generic && t in k.generic
    ensures SamePlace(k, Create(k, x, p), t)
  {}

  lemma AddDelayedOthers(k: State, x: Task, v: nat, t: Task)
    requires x in k.generic && t in k.generic && x != t
    ensures SamePlace(k, AddDelayed(TakeGeneric(k, x), x, v), t)
    ensures SamePlace(k, Append(TakeGeneric(k, x), Suspended, x), t)
  {
    hide At, InsertAt, Without, InsertPosition, ValuesOf;
  }

  predicate IsBlocking(op: Op) {
    op.DelayFor? || op.DelayTo? || op.WaitFor? || op.Signal?
  }

  lemma BlockingLeavesOthers(w: World, op: Op, t: Task)
    requires Inv(w) && Drainable(w.k) && SameTasks(w.k) && Enabled(w, op) && IsBlocking(op)
    requires IsTimed(w.k, t) && t in w.deadline && LeavesAsleep(w, op, t)
    ensures var w1 := Step(w, op);
            SamePlace(w.k, w1.k, t) && w1.now == w.now && t in w1.deadline && w1.deadline[t] == w.deadline[t]
  {
    hide Inv, Core, Drainable, Agreement, TakeGeneric, AddDelayed, PlaceOnEventList, RemoveFromEventList, TaskOk;
    Facts(w, t);
    match op
    case DelayFor(ticks) =>
      AddDelayedOthers(w.k, w.k.running, Tick(w.k.tick + ticks), t);
    case DelayTo(previousWake, increment) =>
      DelayUntilDecidesExactly(w.now, previousWake, increment);
      AddDelayedOthers(w.k, w.k.running, Tick(Tick(previousWake) + increment), t);
    case WaitFor(queue, ticks) =>
      Facts(w, w.k.running);
      WaitOthers(w.k, queue, ticks, t);
    case Signal(queue) =>
      SignalOthers(w.k, queue, t);
  }

  /** Steps that neither process ticks nor resume the scheduler. */
  lemma SleeperUntouched(w: World, op: Op, t: Task)
    requires Inv(w) && Drainable(w.k) && SameTasks(w.k) && Enabled(w, op)
    requires IsTimed(w.k, t) && t in w.deadline && LeavesAsleep(w, op, t)
    requires !op.TickInterrupt? && !op.ResumeScheduler?
    ensures var w1 := Step(w, op);
            SamePlace(w.k, w1.k, t) && w1.now == w.now && t in w1.deadline && w1.deadline[t] == w.deadline[t]
  {
    if IsBlocking(op) {
      BlockingLeavesOthers(w, op, t);
    } else {
      OthersUntouched(w, op, t);
    }
  }

  lemma OthersUntouched(w: World, op: Op, t: Task)
    requires Inv(w) && Drainable(w.k) && SameTasks(w.k) && Enabled(w, op)
    requires IsTimed(w.k, t) && t in w.deadline && LeavesAsleep(w, op, t)
    requires !op.TickInterrupt? && !op.ResumeScheduler? && !IsBlocking(op)
    ensures var w1 := Step(w, op);
            SamePlace(w.k, w1.k, t) && w1.now == w.now && t in w1.deadline && w1.deadline[t] == w.deadline[t]
  {
    hide Inv, Core, Drainable, SameTasks, Step, Enabled, At;
    if op.SetPriority? || op.InheritBy? || op.DisinheritBy? {
      PriorityLeavesOthers(w, op, t);
    } else {
      ListsLeaveOthers(w, op, t);
    }
  }

  lemma PriorityLeavesOthers(w: World, op: Op, t: Task)
    requires Drainable(w.k) && SameTasks(w.k) && Enabled(w, op) && IsTimed(w.k, t) && t in w.deadline
    requires op.SetPriority? || op.InheritBy? || op.DisinheritBy?
    ensures var w1 := Step(w, op);
            SamePlace(w.k, w1.k, t) && w1.now == w.now && t in w1.deadline && w1.deadline[t] == w.deadline[t]
  {
    hide Drainable, SameTasks, PrioritySet, Inherit, Disinherit;
    match op
    case SetPriority(x, p) => PriorityOthers(w.k, x, p, t);
    case InheritBy(x) => InheritOthers(w.k, x, t);
    case DisinheritBy(x) => DisinheritOthers(w.k, x, t);
  }

  lemma ReapLeavesOthers(w: World, t: Task)
    requires Inv(w) && Drainable(w.k) && IsTimed(w.k, t)
    ensures (forall x | x in At(w.k, Terminated) :: x in w.k.generic) && SamePlace(w.k, Reap(w.k), t)
  {
    hide Inv, Core, Drainable, Reap;
    Facts(w, t);
    if w.k.deleted > 0 && At(w.k, Terminated) != [] {
      TerminatedHead(w);
      ReapOthers(w.k, t);
    } else {
      AllTerminated(w.k);
      NothingToReap(w.k);
    }
  }

  lemma ListsLeaveOthers(w: World, op: Op, t: Task)
    requires Inv(w) && Drainable(w.k) && SameTasks(w.k) && Enabled(w, op)
    requires IsTimed(w.k, t) && t in w.deadline && LeavesAsleep(w, op, t)
    requires !op.TickInterrupt? && !op.ResumeScheduler? && !IsBlocking(op)
    requires !op.SetPriority? && !op.InheritBy? && !op.DisinheritBy?
    ensures var w1 := Step(w, op);
            SamePlace(w.k, w1.k, t) && w1.now == w.now && t in w1.deadline && w1.deadline[t] == w.deadline[t]
  {
    hide Inv, Core, Drainable, Agreement, AddReady, TakeGeneric, Relocate, Create, Reap, TaskOk, At;
    Facts(w, t);
    match op
    case CreateTask(x, p) => CreateOthers(w.k, x, p, t);
    case DeleteTask(x) => RelocateOthers(w.k, x, Terminated, t);
    case SuspendTask(x) => RelocateOthers(w.k, x, Suspended, t);
    case ReapTask => ReapLeavesOthers(w, t);
    case ResumeTask(x) => if x != t { RequeueOthers(w.k, x, t); }
    case ResumeTaskFromISR(x) => if x != t { RequeueOthers(w.k, x, t); }
    case _ =>
  }

  lemma AllTerminated(k: State)
    requires Drainable(k)
    ensures forall t | t in At(k, Terminated) :: t in k.generic
  {
    assert forall t | t in At(k, Terminated) :: Holds(k, Terminated, t);
  }

  lemma ReapOthers(k: State, t: Task)
    requires Drainable(k) && At(k, Terminated) != [] && t in k.generic && t != At(k, Terminated)[0]
    ensures (forall x | x in At(k, Terminated) :: x in k.generic) && SamePlace(k, Reap(k), t)
  {
    AllTerminated(k);
  }

  lemma WaitOthers(k: State, queue: nat, ticks: nat, t: Task)
    requires k.running in k.generic && k.running in k.rank && t in k.generic && t != k.running
    ensures SamePlace(k, PlaceOnEventList(k, queue, ticks), t)
  {
    hide AddDelayed, Append, TakeGeneric, InsertByRank;
    RankKeepsGeneric(k, Event(queue), k.running);
    AddDelayedOthers(InsertByRank(k, Event(queue), k.running), k.running, Tick(k.tick + ticks), t);
  }

  lemma SignalOthers(k: State, queue: nat, t: Task)
    requires Drainable(k) && At(k, Event(queue)) != [] && t in k.generic && t != At(k, Event(queue))[0]
    ensures var x := At(k, Event(queue))[0];
            x in k.generic && x in k.priority && SamePlace(k, RemoveFromEventList(k, queue), t)
  {
    var x := At(k, Event(queue))[0];
    assert Holds(k, Event(queue), x);
    RequeueOthers(k, x, t);
  }

  lemma PriorityOthers(k: State, x: Task, p: nat, t: Task)
    requires SameTasks(k) && x in k.generic && t in k.generic && (x == t ==> !IsReady(k, t))
    ensures SamePlace(k, PrioritySet(k, x, p), t)
  {}

  lemma InheritOthers(k: State, x: Task, t: Task)
    requires SameTasks(k) && x in k.generic && k.running in k.generic && t in k.generic && (x == t ==> !IsReady(k, t))
    ensures SamePlace(k, Inherit(k, x), t)
  {}

  lemma DisinheritOthers(k: State, x: Task, t: Task)
    requires SameTasks(k) && x in k.generic && t in k.generic && x != t
    ensures SamePlace(k, Disinherit(k, x), t)
  {}

  /** Every run: a timed sleeper that no event, resume, suspension or deletion reaches sleeps while
      its deadline is ahead and is ready after the very step whose ticks reach the deadline, for
      vTaskDelay, vTaskDelayUntil and timed event waits alike and over any number of rollovers. */
  lemma {:induction false} WakesExactlyAtDeadline(run: seq<World>, ops: seq<Op>, t: Task, i: nat)
    requires IsRun(run, ops) && Inv(run[0]) && i < |run|
    requires IsTimed(run[0].k, t) && t in run[0].deadline
    requires forall j | 0 <= j < |ops| :: LeavesAsleep(run[j], ops[j], t)
    ensures run[i].now < run[0].deadline[t] ==>
              IsTimed(run[i].k, t) && t in run[i].deadline && run[i].deadline[t] == run[0].deadline[t]
    ensures i > 0 && run[i - 1].now < run[0].deadline[t] <= run[i].now ==> IsReady(run[i].k, t)
  {
    hide Inv, Step, Drainable, SameTasks;
    if i > 0 {
      WakesExactlyAtDeadline(run, ops, t, i - 1);
      RunKeepsInv(run, ops, i - 1);
      var w := run[i - 1];
      assert Follows(w, ops[i - 1], run[i]);
      if w.now < run[0].deadline[t] {
        SleeperStep(w, ops[i - 1], t);
      } else {
        TimeNeverTurnsBack(w, ops[i - 1]);
      }
    }
  }

  lemma TimeNeverTurnsBack(w: World, op: Op)
    requires Drainable(w.k) && SameTasks(w.k) && Enabled(w, op)
    ensures Step(w, op).now >= w.now
  {}

  // ----- suspension is transparent ----------------------------------------------------------------

  /** After the outermost xTaskResumeAll nothing is left over: no missed tick, no pending task; all
      who were signalled and all whose deadline passed meanwhile are ready; nobody else moved. */
  lemma ResumeLeavesNothingBehind(w: World, t: Task)
    requires Inv(w) && w.k.depth == 1 && t in w.k.generic
    ensures Drainable(w.k) && SameTasks(w.k) && (IsTimed(w.k, t) ==> t in w.deadline)
    ensures var w1 := Step(w, ResumeScheduler);
            && w1.k.missed == 0 && At(w1.k, Pending) == [] && w1.now == w.now + w.k.missed
            && w1.k.tick == Tick(w.interrupts)
            && (t in At(w.k, Pending) || (IsTimed(w.k, t) && w.deadline[t] <= w1.now) ==> IsReady(w1.k, t))
            && (t !in At(w.k, Pending) && !(IsTimed(w.k, t) && w.deadline[t] <= w1.now) ==> SamePlace(w.k, w1.k, t))
  {
    hide Inv, Core, Drainable, SameTasks, ResumeAll;
    Prepared(w);
    ResumeSchedulerKeeps(w);
    BetweenOperations(w);
    BetweenOperations(Step(w, ResumeScheduler));
    ResumedPlace(w, t);
    ResumedCounters(w);
  }

  lemma BetweenOperations(w: World)
    requires Inv(w)
    ensures Drainable(w.k) && SameTasks(w.k) && w.k.taskCount > 0
    ensures w.k.depth == 0 ==> w.k.missed == 0 && At(w.k, Pending) == [] && w.k.tick == Tick(w.interrupts)
  {}

  lemma ResumedCounters(w: World)
    requires Inv(w) && w.k.depth == 1 && Drainable(w.k)
    ensures ResumeAll(w.k).depth == 0
  {
    hide Core;
    Prepared(w);
    ResumedKeepsCore(w);
    ResumeAllIs(w);
  }

  lemma ResumedPlace(w: World, t: Task)
    requires Inv(w) && w.k.depth == 1 && t in w.k.generic && Drainable(w.k)
    ensures IsTimed(w.k, t) ==> t in w.deadline && w.now < w.deadline[t]
    ensures var k1 := ResumeAll(w.k);
            && (t in At(w.k, Pending) || (IsTimed(w.k, t) && w.deadline[t] <= w.now + w.k.missed) ==> IsReady(k1, t))
            && (t !in At(w.k, Pending) && !(IsTimed(w.k, t) && w.deadline[t] <= w.now + w.k.missed) ==>
                SamePlace(w.k, k1, t))
  {
    hide Inv, Core, Drainable, SameTasks, At, CatchUp, ResumeAll;
    Prepared(w);
    if IsTimed(w.k, t) {
      SleeperIsAhead(w, t);
    }
    var w2 := PendingPlace(w, t);
    CatchUpWakesByDeadline(w2, t);
  }

  /** The world of an outermost xTaskResumeAll between its two loops. */
  lemma PendingPlace(w: World, t: Task) returns (w2: World)
    requires Inv(w) && w.k.depth == 1 && t in w.k.generic && Drainable(w.k)
    ensures Core(w2, 0) && w2.k.depth == 0 && w2.k.missed == w.k.missed && w2.now == w.now && w2.deadline == w.deadline
    ensures t in w2.k.generic
    ensures if t in At(w.k, Pending) then w2.k.generic[t].Ready? else w2.k.generic[t] == w.k.generic[t]
    ensures Drainable(w2.k) && ResumeAll(w.k).generic == CatchUp(w2.k).generic
  {
    hide Inv, Core, Drainable, SameTasks, DrainPending, CatchUp, ResumeAll;
    Prepared(w);
    BetweenOperations(w);
    var w1 := w.(k := w.k.(depth := 0));
    DepthKeepsCore(w, w1);
    CoreIsDrainable(w1, 0);
    ResumeAllIs(w);
    DrainPendingDrainable(w1.k);
    DrainPendingKeepsCore(w1);
    DrainPendingReadies(w1, t);
    w2 := PendingDrained(w1);
  }
}
