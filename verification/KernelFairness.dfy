// Round robin is fair: a ready task is never overtaken in its list, and every context switch that
// serves its priority brings it one place forward.

module KernelFairness {
  import opened Sequences
  import opened Ticks
  import opened Lists
  import opened KernelState
  import opened KernelWorld
  import opened KernelOps
  import opened KernelRuns

  function IndexOf(q: seq<Task>, t: Task): (i: nat)
    requires t in q
    ensures i < |q| && q[i] == t && t !in q[..i]
  {
    if q[0] == t then 0 else 1 + IndexOf(q[1..], t)
  }

  /** From k to k1 the ready task t kept its place in ready list p or moved forward. */
  ghost predicate KeptPlace(k: State, k1: State, t: Task, p: nat) {
    t in At(k, Ready(p)) ==> t in At(k1, Ready(p)) && IndexOf(At(k1, Ready(p)), t) <= IndexOf(At(k, Ready(p)), t)
  }

  lemma {:induction false} IndexWithout(q: seq<Task>, x: Task, t: Task)
    requires t in q && x != t
    ensures t in Without(q, x) && IndexOf(Without(q, x), t) <= IndexOf(q, t)
  {
    if q[0] == x {
      assert q[1..] == Without(q, x);
    } else if q[0] != t {
      IndexWithout(q[1..], x, t);
      assert Without(q, x)[1..] == Without(q[1..], x);
    }
  }

  lemma {:induction false} IndexAppend(q: seq<Task>, r: seq<Task>, t: Task)
    requires t in q
    ensures t in q + r && IndexOf(q + r, t) == IndexOf(q, t)
  {
    if q[0] != t {
      IndexAppend(q[1..], r, t);
      assert (q + r)[1..] == q[1..] + r;
    }
  }

  // ----- one task moves, another keeps its place ---------------------------------------------------

  lemma MovedKeepsPlace(k: State, k1: State, x: Task, l: ListId, t: Task, p: nat)
    requires x != t
    requires At(k1, Ready(p))
             == if Ready(p) == l then Without(At(k, Ready(p)), x) + [x] else Without(At(k, Ready(p)), x)
    ensures KeptPlace(k, k1, t, p)
  {
    var q := At(k, Ready(p));
    if t in q {
      IndexWithout(q, x, t);
      IndexAppend(Without(q, x), [x], t);
    }
  }

  lemma RelocatePlace(k: State, x: Task, l: ListId, t: Task, p: nat)
    requires Agreement(k) && x in k.generic && x != t && !l.ForEvents()
    ensures KeptPlace(k, Relocate(k, x, l), t, p)
  {
    RelocateEffect(k, x, l);
    MovedKeepsPlace(k, Relocate(k, x, l), x, l, t, p);
  }

  lemma MakeReadyPlace(k: State, x: Task, t: Task, p: nat)
    requires Agreement(k) && x in k.generic && x in k.priority && x != t
    ensures KeptPlace(k, MakeReady(k, x), t, p)
  {
    MakeReadyEffect(k, x);
    MovedKeepsPlace(k, MakeReady(k, x), x, Ready(k.priority[x]), t, p);
  }

  lemma RequeuePlace(k: State, x: Task, t: Task, p: nat)
    requires Drainable(k) && SameTasks(k) && x in k.generic && x !in k.event && x != t
    ensures KeptPlace(k, AddReady(TakeGeneric(k, x), x), t, p)
  {
    hide KeptPlace;
    GenericAlone(k, x);
    MakeReadyPlace(k, x, t, p);
  }

  /** Leaving the ready list for a list that is not a ready list. */
  lemma LeavePlace(w: World, k0: State, x: Task, v: nat, t: Task, p: nat)
    requires Core(w, 0) && IsReady(w.k, x) && SameButEvent(w.k, k0, x) && v <= MAX_DELAY && x != t
    ensures KeptPlace(w.k, AddDelayed(TakeGeneric(k0, x), x, v), t, p)
    ensures KeptPlace(w.k, Append(TakeGeneric(k0, x), Suspended, x), t, p)
  {
    hide KeptPlace, Core, AddDelayed, Append, TakeGeneric, DelaysOk, At, Agreement, Without;
    LeaveReady(w, k0, x);
    var k1 := TakeGeneric(k0, x);
    AddDelayedEffect(k1, x, v);
    AppendEffect(k1, Suspended, x);
    MovedKeepsPlace(w.k, AddDelayed(k1, x, v), x, Suspended, t, p);
    MovedKeepsPlace(w.k, Append(k1, Suspended, x), x, Suspended, t, p);
  }

  lemma SameListKeepsPlace(k: State, k1: State, t: Task, p: nat)
    requires At(k1, Ready(p)) == At(k, Ready(p))
    ensures KeptPlace(k, k1, t, p)
  {}

  lemma PlaceTransitive(k: State, k1: State, k2: State, t: Task, p: nat)
    requires KeptPlace(k, k1, t, p) && KeptPlace(k1, k2, t, p)
    ensures KeptPlace(k, k2, t, p)
  {}

  // ----- draining ------------------------------------------------------------------------------------

  lemma {:induction false} DrainPlace(k: State, t: Task, p: nat)
    requires Drainable(k) && t in At(k, Ready(p))
    ensures KeptPlace(k, Drain(k), t, p)
    decreases |At(k, k.delayed)|
  {
    hide KeptPlace, MakeReady;
    var q := At(k, k.delayed);
    if q == [] {
      SameListKeepsPlace(k, Drain(k), t, p);
    } else {
      assert Holds(k, k.delayed, q[0]) && Holds(k, Ready(p), t);
      if k.tick < k.wake[q[0]] {
        SameListKeepsPlace(k, Drain(k), t, p);
      } else {
        MakeReadyEffect(k, q[0]);
        MakeReadyPlace(k, q[0], t, p);
        StillListed(k, MakeReady(k, q[0]), t, p);
        DrainPlace(MakeReady(k, q[0]), t, p);
        PlaceTransitive(k, MakeReady(k, q[0]), Drain(k), t, p);
      }
    }
  }

  lemma StillListed(k: State, k1: State, t: Task, p: nat)
    requires KeptPlace(k, k1, t, p) && t in At(k, Ready(p))
    ensures t in At(k1, Ready(p))
  {}

  lemma {:induction false} DrainPendingPlace(k: State, t: Task, p: nat)
    requires Drainable(k) && t in At(k, Ready(p)) && t !in At(k, Pending)
    ensures KeptPlace(k, DrainPending(k), t, p)
    decreases |At(k, Pending)|
  {
    hide KeptPlace;
    var q := At(k, Pending);
    if q == [] {
      SameListKeepsPlace(k, k, t, p);
    } else {
      assert Holds(k, Pending, q[0]);
      MakeReadyEffect(k, q[0]);
      MakeReadyPlace(k, q[0], t, p);
      StillListed(k, MakeReady(k, q[0]), t, p);
      DrainPendingPlace(MakeReady(k, q[0]), t, p);
      PlaceTransitive(k, MakeReady(k, q[0]), DrainPending(k), t, p);
    }
  }

  lemma TickPlace(k: State, t: Task, p: nat)
    requires Drainable(k) && t in At(k, Ready(p))
    ensures KeptPlace(k, IncrementTick(k), t, p)
  {
    hide KeptPlace, Drainable;
    if k.depth != 0 {
      SameListKeepsPlace(k, IncrementTick(k), t, p);
    } else {
      AdvanceAgrees(k);
      AdvanceLists(k);
      var k1 := AdvanceTick(k);
      SameListKeepsPlace(k, k1, t, p);
      SameListKeepsPlace(k1, k1, t, p);
      DrainPlace(k1, t, p);
      PlaceTransitive(k, k1, CheckDelayed(k1), t, p);
    }
  }

  lemma {:induction false} CatchUpPlace(k: State, t: Task, p: nat)
    requires Drainable(k) && k.depth == 0 && t in At(k, Ready(p))
    ensures KeptPlace(k, CatchUp(k), t, p)
    decreases k.missed
  {
    hide KeptPlace, Drainable, IncrementTick;
    if k.missed == 0 {
      SameListKeepsPlace(k, k, t, p);
    } else {
      IncrementTickDrainable(k);
      TickPlace(k, t, p);
      var k1 := IncrementTick(k);
      StillListed(k, k1, t, p);
      var k2 := k1.(missed := k1.missed - 1);
      TickAgrees(k1, k2);
      SameListKeepsPlace(k1, k2, t, p);
      CatchUpPlace(k2, t, p);
      PlaceTransitive(k, k1, k2, t, p);
      PlaceTransitive(k, k2, CatchUp(k2), t, p);
    }
  }

  // ----- steps and runs --------------------------------------------------------------------------------

  predicate EffectiveSwitch(w: World, op: Op) {
    op.Switch? && w.k.depth == 0
  }

  lemma BlockingStepPlace(w: World, op: Op, t: Task, p: nat)
    requires Inv(w) && Drainable(w.k) && SameTasks(w.k) && Enabled(w, op) && IsBlocking(op)
    requires t in At(w.k, Ready(p)) && t in At(Step(w, op).k, Ready(p))
    ensures KeptPlace(w.k, Step(w, op).k, t, p)
  {
    hide Inv, Drainable, SameTasks, KeptPlace, Step, At;
    InReadyList(w, t, p);
    StepKeepsInv(w, op);
    InReadyList(Step(w, op), t, p);
    match op
    case DelayFor(ticks) => DelayForPlace(w, ticks, t, p);
    case DelayTo(previousWake, increment) => DelayToPlace(w, previousWake, increment, t, p);
    case WaitFor(queue, ticks) => WaitForPlace(w, queue, ticks, t, p);
    case Signal(queue) => SignalStepPlace(w, queue, t, p);
  }

  lemma SignalStepPlace(w: World, queue: nat, t: Task, p: nat)
    requires Drainable(w.k) && SameTasks(w.k) && Enabled(w, Signal(queue)) && t in w.k.generic && t !in w.k.event
    ensures KeptPlace(w.k, Step(w, Signal(queue)).k, t, p)
  {
    hide Drainable, KeptPlace, RemoveFromEventList;
    SignalPlace(w.k, queue, t, p);
  }

  /** No step but a context switch moves a task back in the ready list it stays in. */
  lemma StepPlace(w: World, op: Op, t: Task, p: nat)
    requires Inv(w) && Drainable(w.k) && SameTasks(w.k) && Enabled(w, op) && !EffectiveSwitch(w, op)
    requires t in At(w.k, Ready(p)) && t in At(Step(w, op).k, Ready(p))
    ensures KeptPlace(w.k, Step(w, op).k, t, p)
  {
    if IsBlocking(op) {
      BlockingStepPlace(w, op, t, p);
    } else {
      OtherStepPlace(w, op, t, p);
    }
  }

  lemma OtherStepPlace(w: World, op: Op, t: Task, p: nat)
    requires Inv(w) && Drainable(w.k) && SameTasks(w.k) && Enabled(w, op) && !EffectiveSwitch(w, op) && !IsBlocking(op)
    requires t in At(w.k, Ready(p)) && t in At(Step(w, op).k, Ready(p))
    ensures KeptPlace(w.k, Step(w, op).k, t, p)
  {
    hide Inv, Drainable, SameTasks, KeptPlace, Step, At;
    InReadyList(w, t, p);
    StepKeepsInv(w, op);
    InReadyList(Step(w, op), t, p);
    if op.SuspendScheduler? || op.ResumeScheduler? || op.TickInterrupt? || op.Switch? {
      TimeStepPlace(w, op, t, p);
    } else if op.SetPriority? || op.InheritBy? || op.DisinheritBy? {
      PriorityPlace(w, op, op.t, t, p);
    } else {
      TaskStepPlace(w, op, t, p);
    }
  }

  lemma TimeStepPlace(w: World, op: Op, t: Task, p: nat)
    requires Inv(w) && Drainable(w.k) && SameTasks(w.k) && Enabled(w, op) && !EffectiveSwitch(w, op)
    requires op.SuspendScheduler? || op.ResumeScheduler? || op.TickInterrupt? || op.Switch?
    requires t in At(w.k, Ready(p)) && t !in At(w.k, Pending)
    ensures KeptPlace(w.k, Step(w, op).k, t, p)
  {
    hide Inv, Drainable, SameTasks, KeptPlace, ResumeAll, IncrementTick;
    match op
    case SuspendScheduler => SameListKeepsPlace(w.k, Step(w, op).k, t, p);
    case ResumeScheduler => ResumeAllPlace(w.k, t, p);
    case TickInterrupt => TickPlace(w.k, t, p);
    case Switch => SameListKeepsPlace(w.k, Step(w, op).k, t, p);
  }

  lemma TaskStepPlace(w: World, op: Op, t: Task, p: nat)
    requires Inv(w) && Drainable(w.k) && SameTasks(w.k) && Enabled(w, op) && !IsBlocking(op)
    requires op.CreateTask? || op.DeleteTask? || op.SuspendTask? || op.ReapTask? || op.ResumeTask?
             || op.ResumeTaskFromISR?
    requires t in w.k.generic && w.k.generic[t] == Ready(p)
    requires t in Step(w, op).k.generic && Step(w, op).k.generic[t] == Ready(p)
    ensures KeptPlace(w.k, Step(w, op).k, t, p)
  {
    hide Inv, Drainable, KeptPlace, Create, Suspend, Delete, Reap, Resume, ResumeFromISR;
    match op
    case CreateTask(x, q) => CreatePlace(w.k, x, q, t, p);
    case DeleteTask(x) => DeletePlace(w.k, x, t, p);
    case SuspendTask(x) => SuspendPlace(w.k, x, t, p);
    case ReapTask => ReapPlace(w, t, p);
    case ResumeTask(x) => ResumePlace(w.k, x, t, p);
    case ResumeTaskFromISR(x) => ResumePlace(w.k, x, t, p);
  }

  lemma InReadyList(w: World, t: Task, p: nat)
    requires Inv(w) && t in At(w.k, Ready(p))
    ensures t in w.k.generic && w.k.generic[t] == Ready(p) && t in w.k.priority && w.k.priority[t] == p
            && t !in w.k.event
    ensures t !in At(w.k, Pending)
  {
    assert Holds(w.k, Ready(p), t);
    assert TaskOk(w, 0, t);
    NotListed(w.k, Pending, t);
  }

  lemma SuspendPlace(k: State, x: Task, t: Task, p: nat)
    requires Drainable(k) && SameTasks(k) && x in k.generic && IsReady(Suspend(k, x), t)
    ensures KeptPlace(k, Suspend(k, x), t, p)
  {
    hide KeptPlace;
    RelocateMoves(k, x, Suspended);
    RelocatePlace(k, x, Suspended, t, p);
  }

  lemma DeletePlace(k: State, x: Task, t: Task, p: nat)
    requires Drainable(k) && SameTasks(k) && x in k.generic && IsReady(Delete(k, x), t)
    ensures KeptPlace(k, Delete(k, x), t, p)
  {
    hide KeptPlace;
    DeleteMoves(k, x);
    RelocatePlace(k, x, Terminated, t, p);
    SameListKeepsPlace(Relocate(k, x, Terminated), Delete(k, x), t, p);
    PlaceTransitive(k, Relocate(k, x, Terminated), Delete(k, x), t, p);
  }

  lemma DelayForPlace(w: World, ticks: nat, t: Task, p: nat)
    requires Inv(w) && Drainable(w.k) && SameTasks(w.k) && Enabled(w, DelayFor(ticks))
             && IsReady(Step(w, DelayFor(ticks)).k, t)
    ensures KeptPlace(w.k, Step(w, DelayFor(ticks)).k, t, p)
  {
    hide Inv, Drainable, SameTasks, KeptPlace, AddDelayed, Append, TakeGeneric, SameButEvent, Step;
    Prepared(w);
    DelayForIs(w, ticks);
    DelayLists(w.k);
    BlockedIsNotReady(w.k, w.k, w.k.running, Tick(w.now + ticks));
    BlockPlace(w, w.k, w.now + ticks, t, p);
  }

  lemma DelayToPlace(w: World, previousWake: int, increment: nat, t: Task, p: nat)
    requires var op := DelayTo(previousWake, increment);
             Inv(w) && Drainable(w.k) && SameTasks(w.k) && Enabled(w, op) && IsReady(Step(w, op).k, t)
    ensures KeptPlace(w.k, Step(w, DelayTo(previousWake, increment)).k, t, p)
  {
    hide Inv, Drainable, SameTasks, KeptPlace, AddDelayed, Append, TakeGeneric, SameButEvent, Step;
    Prepared(w);
    DelayToIs(w, previousWake, increment);
    if previousWake + increment > w.now {
      DelayLists(w.k);
      BlockedIsNotReady(w.k, w.k, w.k.running, Tick(previousWake + increment));
      BlockPlace(w, w.k, previousWake + increment, t, p);
    } else {
      SameListKeepsPlace(w.k, w.k, t, p);
    }
  }

  lemma WaitForPlace(w: World, queue: nat, ticks: nat, t: Task, p: nat)
    requires Inv(w) && Drainable(w.k) && SameTasks(w.k) && Enabled(w, WaitFor(queue, ticks))
             && IsReady(Step(w, WaitFor(queue, ticks)).k, t)
    ensures KeptPlace(w.k, Step(w, WaitFor(queue, ticks)).k, t, p)
  {
    hide Inv, Drainable, SameTasks, KeptPlace, AddDelayed, Append, TakeGeneric, SameButEvent, Step, InsertByRank;
    Prepared(w);
    WaitForIs(w, queue, ticks);
    InsertByRankEffect(w, queue);
    DelayLists(w.k);
    RankOnlyLinks(w.k, queue);
    var k0 := InsertByRank(w.k, Event(queue), w.k.running);
    BlockedIsNotReady(w.k, k0, w.k.running, Tick(w.now + ticks));
    BlockPlace(w, k0, w.now + ticks, t, p);
  }

  lemma CreatePlace(k: State, x: Task, q: nat, t: Task, p: nat)
    requires Drainable(k) && SameTasks(k) && x !in k.generic
    ensures KeptPlace(k, Create(k, x, q), t, p)
  {
    hide Drainable, SameTasks, Create, At;
    CreatedList(k, x, q, p);
    var l := At(k, Ready(p));
    if t in l {
      IndexAppend(l, [x], t);
    }
  }

  lemma CreatedList(k: State, x: Task, q: nat, p: nat)
    requires x !in k.generic
    ensures At(Create(k, x, q), Ready(p)) == if p == ClipPriority(q) then At(k, Ready(p)) + [x] else At(k, Ready(p))
  {}

  lemma ReapPlace(w: World, t: Task, p: nat)
    requires Inv(w) && Enabled(w, ReapTask) && Drainable(w.k) && SameTasks(w.k)
    ensures KeptPlace(w.k, Step(w, ReapTask).k, t, p)
  {
    hide Inv, Core, Drainable, SameTasks, Reap, KeptPlace;
    Prepared(w);
    if w.k.deleted != 0 && At(w.k, Terminated) != [] {
      TerminatedHead(w);
      ReapEffect(w.k);
    } else {
      AllTerminated(w.k);
      NothingToReap(w.k);
    }
    SameListKeepsPlace(w.k, Step(w, ReapTask).k, t, p);
  }

  /** A task that blocks is not ready any more. */
  lemma BlockedIsNotReady(k: State, k0: State, x: Task, v: nat)
    requires TwoDelayLists(k) && x in k.generic && k0 == k.(lists := k0.lists, event := k0.event)
    ensures !IsReady(AddDelayed(TakeGeneric(k0, x), x, v), x)
    ensures !IsReady(Append(TakeGeneric(k0, x), Suspended, x), x)
  {
    hide At, InsertAt, Without, InsertPosition, ValuesOf;
  }

  lemma RankOnlyLinks(k: State, queue: nat)
    requires k.running in k.rank
    ensures var k0 := InsertByRank(k, Event(queue), k.running); k0 == k.(lists := k0.lists, event := k0.event)
  {}

  lemma DelayLists(k: State)
    requires Drainable(k)
    ensures TwoDelayLists(k)
  {}

  /** The running task goes to sleep; anyone else in its list moves up. */
  lemma BlockPlace(w: World, k0: State, deadline: nat, t: Task, p: nat)
    requires Inv(w) && IsReady(w.k, w.k.running) && SameButEvent(w.k, k0, w.k.running)
    requires t != w.k.running
    ensures KeptPlace(w.k, AddDelayed(TakeGeneric(k0, w.k.running), w.k.running, Tick(deadline)), t, p)
    ensures KeptPlace(w.k, Append(TakeGeneric(k0, w.k.running), Suspended, w.k.running), t, p)
  {
    hide Core, SameButEvent, KeptPlace;
    LeavePlace(w, k0, w.k.running, Tick(deadline), t, p);
  }

  lemma SignalPlace(k: State, queue: nat, t: Task, p: nat)
    requires Drainable(k) && At(k, Event(queue)) != [] && t in k.generic && t !in k.event
    ensures var x := At(k, Event(queue))[0];
            x in k.generic && x in k.priority && KeptPlace(k, RemoveFromEventList(k, queue), t, p)
  {
    var x := At(k, Event(queue))[0];
    assert Holds(k, Event(queue), x);
    if k.depth == 0 {
      MakeReadyPlace(k, x, t, p);
    } else {
      TakeEventAgrees(k, x);
      SameListKeepsPlace(k, RemoveFromEventList(k, queue), t, p);
    }
  }

  lemma ResumePlace(k: State, x: Task, t: Task, p: nat)
    requires Drainable(k) && SameTasks(k) && x in k.generic && t in k.generic && k.generic[t] == Ready(p)
    ensures KeptPlace(k, Resume(k, x), t, p) && KeptPlace(k, ResumeFromISR(k, x), t, p)
  {
    SameListKeepsPlace(k, k, t, p);
    SameListKeepsPlace(k, Append(k, Pending, x), t, p);
    if IsTaskSuspended(k, x) {
      RequeuePlace(k, x, t, p);
    }
  }

  lemma ResumeAllPlace(k: State, t: Task, p: nat)
    requires Drainable(k) && k.depth > 0 && t in At(k, Ready(p)) && t !in At(k, Pending)
    ensures KeptPlace(k, ResumeAll(k), t, p)
  {
    hide KeptPlace, Drainable, CatchUp, DrainPending;
    var k1 := k.(depth := k.depth - 1);
    SameListKeepsPlace(k, k1, t, p);
    if k1.depth == 0 && k1.taskCount != 0 {
      TickAgrees(k, k1);
      DrainPendingDrainable(k1);
      DrainPendingPlace(k1, t, p);
      var k2 := DrainPending(k1);
      StillListed(k1, k2, t, p);
      CatchUpPlace(k2, t, p);
      var k3 := CatchUp(k2);
      SameListKeepsPlace(k3, ResumeAll(k), t, p);
      PlaceTransitive(k, k1, k2, t, p);
      PlaceTransitive(k, k2, k3, t, p);
      PlaceTransitive(k, k3, ResumeAll(k), t, p);
    }
  }

  /** A priority change requeues the task itself or leaves every list alone. */
  lemma PriorityPlace(w: World, op: Op, x: Task, t: Task, p: nat)
    requires Inv(w) && Drainable(w.k) && SameTasks(w.k) && Enabled(w, op)
    requires (op.SetPriority? || op.InheritBy? || op.DisinheritBy?) && op.t == x
    requires t in w.k.generic && w.k.generic[t] == Ready(p) && t in w.k.priority && w.k.priority[t] == p
    requires t in Step(w, op).k.generic && Step(w, op).k.generic[t] == Ready(p)
    ensures KeptPlace(w.k, Step(w, op).k, t, p)
  {
    hide KeptPlace, Inv, Core, Agreement, Drainable, SameTasks, TakeGeneric, Step, Sleeping, TaskOk, Reprioritised;
    var k := w.k;
    var k2 := Step(w, op).k;
    Facts(w, x);
    if k2.lists == k.lists {
      SameListKeepsPlace(k, k2, t, p);
    } else {
      var k1 := k.(priority := k2.priority, basePriority := k2.basePriority, rank := k2.rank);
      RequeueShape(w, op);
      assert Requeued(k, k2, x);
      ReprioritisedDrainable(k, k1, x);
      RequeuePlace(k1, x, t, p);
      SameListKeepsPlace(k, k1, t, p);
      PlaceTransitive(k, k1, k2, t, p);
    }
  }

  ghost predicate Requeued(k: State, k2: State, x: Task)
    requires x in k.generic
  {
    var k1 := k.(priority := k2.priority, basePriority := k2.basePriority, rank := k2.rank);
    && Reprioritised(k, k1, x) && x in k1.priority && k2 == AddReady(TakeGeneric(k1, x), x)
    && IsReady(k, x) && (IsReady(k2, x) ==> k2.generic[x] != k.generic[x])
  }

  lemma RequeueShape(w: World, op: Op)
    requires Inv(w) && Drainable(w.k) && SameTasks(w.k) && Enabled(w, op)
    requires op.SetPriority? || op.InheritBy? || op.DisinheritBy?
    requires Step(w, op).k.lists != w.k.lists
    ensures Requeued(w.k, Step(w, op).k, op.t)
  {
    hide Inv, Drainable, Requeued, PrioritySet, Inherit, Disinherit;
    InItsReadyList(w, op.t);
    match op
    case SetPriority(x, q) => SetPriorityShape(w.k, x, q);
    case InheritBy(x) => InItsReadyList(w, w.k.running); InheritShape(w.k, x);
    case DisinheritBy(x) => DisinheritShape(w.k, x);
  }

  lemma SetPriorityShape(k: State, x: Task, q: nat)
    requires SameTasks(k) && x in k.generic
    requires IsReady(k, x) ==> k.generic[x] == Ready(k.priority[x])
    ensures PrioritySet(k, x, q).lists == k.lists || Requeued(k, PrioritySet(k, x, q), x)
  {
    hide Reprioritised, Requeued, AddReady, TakeGeneric;
    var p := ClipPriority(q);
    if k.basePriority[x] != p && k.generic[x] == Ready(k.basePriority[x]) {
      ReprioritisedBy(k, x, p, p, MAX_PRIORITIES - p);
      RequeueResult(k, k.(priority := k.priority[x := p], basePriority := k.basePriority[x := p],
                          rank := k.rank[x := MAX_PRIORITIES - p]), x);
    }
  }

  /** A task taken out of its ready list and put into the one of its new priority. */
  lemma RequeueResult(k: State, k1: State, x: Task)
    requires IsReady(k, x) && Reprioritised(k, k1, x) && x in k1.priority && k.generic[x] != Ready(k1.priority[x])
    ensures Requeued(k, AddReady(TakeGeneric(k1, x), x), x)
  {
    var r := AddReady(TakeGeneric(k1, x), x);
    assert r.priority == k1.priority && r.basePriority == k1.basePriority && r.rank == k1.rank;
    assert r.generic[x] == Ready(k1.priority[x]);
    hide AddReady, TakeGeneric;
  }

  lemma InheritShape(k: State, x: Task)
    requires SameTasks(k) && x in k.generic && k.running in k.generic && k.priority[k.running] < MAX_PRIORITIES
    ensures Inherit(k, x).lists == k.lists || Requeued(k, Inherit(k, x), x)
  {
    hide Reprioritised, Requeued, AddReady, TakeGeneric;
    var p := k.priority[k.running];
    if k.priority[x] < p && k.generic[x] == Ready(k.priority[x]) {
      ReprioritisedBy(k, x, p, k.basePriority[x], MAX_PRIORITIES - p);
      RequeueResult(k, k.(rank := k.rank[x := MAX_PRIORITIES - p], priority := k.priority[x := p]), x);
    }
  }

  lemma DisinheritShape(k: State, x: Task)
    requires SameTasks(k) && IsReady(k, x) && k.generic[x] == Ready(k.priority[x])
    ensures Disinherit(k, x).lists == k.lists || Requeued(k, Disinherit(k, x), x)
  {
    hide Reprioritised, Requeued, AddReady, TakeGeneric;
    var p := k.basePriority[x];
    if k.priority[x] != p {
      ReprioritisedBy(k, x, p, p, MAX_PRIORITIES - p);
      var k1 := k.(rank := k.rank[x := MAX_PRIORITIES - p], priority := k.priority[x := p]);
      RequeueResult(k, k1, x);
      TakingIgnoresPriorities(k, k1, x);
    }
  }

  lemma TakingIgnoresPriorities(k: State, k1: State, x: Task)
    requires x in k.generic && k1 == k.(rank := k1.rank, priority := k1.priority)
    ensures TakeGeneric(k1, x) == TakeGeneric(k, x).(rank := k1.rank, priority := k1.priority)
  {
    assert At(k1, k.generic[x]) == At(k, k.generic[x]);
  }

  /** A context switch at the level of t selects t or brings it one place forward. */
  lemma SwitchPlace(w: World, t: Task, p: nat)
    requires Inv(w) && w.k.depth == 0 && t in At(w.k, Ready(p))
    requires forall q | q > p :: At(w.k, Ready(q)) == []
    ensures var k1 := SwitchContext(w.k);
            var q := At(w.k, Ready(p));
            if IndexOf(q, t) == 0 then k1.running == t
            else t in At(k1, Ready(p)) && IndexOf(At(k1, Ready(p)), t) == IndexOf(q, t) - 1
  {
    var k := w.k;
    InReadyList(w, t, p);
    Facts(w, t);
    assert TopNonEmpty(k, k.topReady) == p by {
      ReadyBelowTop(w, t);
    }
    var q := At(k, Ready(p));
    assert At(SwitchContext(k), Ready(p)) == q[1..] + [q[0]];
    if IndexOf(q, t) != 0 {
      IndexAppend(q[1..], [q[0]], t);
    }
  }

  /** How many of the first i operations of a run were context switches that took effect. */
  function Switches(run: seq<World>, ops: seq<Op>, i: nat): nat
    requires i <= |ops| && |run| > |ops|
  {
    if i == 0 then 0 else Switches(run, ops, i - 1) + if EffectiveSwitch(run[i - 1], ops[i - 1]) then 1 else 0
  }

  /** Bounded waiting: a task that stays ready at the highest ready priority, n places from the
      front, is selected by one of the first n + 1 context switches, whatever tasks of its priority
      come and go meanwhile. */
  lemma RunsWithinItsTurn(run: seq<World>, ops: seq<Op>, t: Task, p: nat)
    requires IsRun(run, ops) && Inv(run[0])
    requires forall j | 0 <= j < |run| :: t in At(run[j].k, Ready(p))
    requires forall j, q | 0 <= j < |ops| && EffectiveSwitch(run[j], ops[j]) && q > p :: At(run[j].k, Ready(q)) == []
    requires Switches(run, ops, |ops|) > IndexOf(At(run[0].k, Ready(p)), t)
    ensures exists j | 0 <= j < |ops| :: EffectiveSwitch(run[j], ops[j]) && run[j + 1].k.running == t
  {
    hide Inv, Step;
    MovesUp(run, ops, t, p, |ops|);
  }

  lemma {:induction false} MovesUp(run: seq<World>, ops: seq<Op>, t: Task, p: nat, i: nat)
    requires IsRun(run, ops) && Inv(run[0]) && i <= |ops|
    requires forall j | 0 <= j < |run| :: t in At(run[j].k, Ready(p))
    requires forall j, q | 0 <= j < |ops| && EffectiveSwitch(run[j], ops[j]) && q > p :: At(run[j].k, Ready(q)) == []
    ensures (exists j | 0 <= j < i :: EffectiveSwitch(run[j], ops[j]) && run[j + 1].k.running == t)
            || IndexOf(At(run[i].k, Ready(p)), t) + Switches(run, ops, i) <= IndexOf(At(run[0].k, Ready(p)), t)
  {
    hide Inv, Step, Drainable, SameTasks, Agreement, At, IndexOf;
    if i > 0 {
      MovesUp(run, ops, t, p, i - 1);
      RunKeepsInv(run, ops, i - 1);
      var w := run[i - 1];
      var op := ops[i - 1];
      assert Follows(w, op, run[i]);
      assert t in At(w.k, Ready(p)) && t in At(run[i].k, Ready(p));
      if EffectiveSwitch(w, op) {
        SwitchPlace(w, t, p);
        SwitchStep(w);
      } else {
        StepPlace(w, op, t, p);
      }
    }
  }

  lemma SwitchStep(w: World)
    requires Drainable(w.k) && SameTasks(w.k) && Enabled(w, Switch)
    ensures Step(w, Switch).k == SwitchContext(w.k)
  {}
}
