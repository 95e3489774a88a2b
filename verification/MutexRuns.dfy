// Mutexes with priority inheritance (FreeRTOS/queue.c) in the world of the kernel: any number of them,
// held in any nesting. A task that finds its mutex taken passes its priority to the holder and then
// waits; giving the mutex back ends the holder's tenure and wakes the first waiter.

module MutexRuns {
  import opened Sequences
  import opened Ticks
  import opened Lists
  import opened KernelState
  import opened KernelWorld
  import opened KernelOps
  import opened KernelRuns
  import opened PriorityInheritance
  import opened Scenes

  datatype Holder = Nobody | Held(t: Task)

  /** A task that blocked on a mutex, with the priority it had then. */
  datatype Blocker = Blocker(t: Task, priority: nat)

  datatype Mutex = Mutex(
    count: nat,                // uxMessagesWaiting; the length is 1
    holder: Holder,            // pxMutexHolder
    blockers: seq<Blocker>)    // history: who blocked on it in the present tenure

  /** Whether the running task has passed its priority on and is about to wait. */
  datatype Blocking = NotBlocking | BlockingOn(queue: nat)

  datatype Site = Site(
    w: World,
    mutexes: map<nat, Mutex>,  // by the number of the mutex's queue
    blocking: Blocking)

  datatype Action =
    | Kernel(op: Op)
    | Take(queue: nat)
    | StartBlocking(queue: nat)
    | FinishBlocking(ticks: nat)
    | Give(queue: nat)

  /** What may happen while the running task has the scheduler suspended: an interrupt. */
  predicate IsInterrupt(op: Op) {
    op.TickInterrupt? || op.Signal? || op.ResumeTaskFromISR? || op.Switch?
  }

  /** A kernel operation that is not part of a mutex's own code. */
  predicate LeavesMutexes(s: Site, op: Op) {
    match op
    case InheritBy(_) => false
    case DisinheritBy(_) => false
    case WaitFor(queue, _) => queue !in s.mutexes
    case Signal(queue) => queue !in s.mutexes
    case _ => true
  }

  predicate Enabled(s: Site, a: Action) {
    var k := s.w.k;
    match a
    case Kernel(op) =>
      KernelOps.Enabled(s.w, op) && LeavesMutexes(s, op) && (s.blocking.BlockingOn? ==> IsInterrupt(op))
    case Take(queue) =>
      s.blocking.NotBlocking? && queue in s.mutexes && s.mutexes[queue].count > 0 && IsReady(k, k.running)
    case StartBlocking(queue) =>
      && s.blocking.NotBlocking? && queue in s.mutexes && s.mutexes[queue].count == 0
      && k.depth > 0 && IsReady(k, k.running)
      && s.mutexes[queue].holder.Held? && KernelOps.Enabled(s.w, InheritBy(s.mutexes[queue].holder.t))
    case FinishBlocking(ticks) =>
      s.blocking.BlockingOn? && KernelOps.Enabled(s.w, WaitFor(s.blocking.queue, ticks))
    case Give(queue) =>
      && s.blocking.NotBlocking? && queue in s.mutexes && IsReady(k, k.running)
      && (s.mutexes[queue].holder.Held? ==> KernelOps.Enabled(s.w, DisinheritBy(s.mutexes[queue].holder.t)))
  }

  // ----- the invariant ----------------------------------------------------------------------------

  /** A mutex is taken exactly when it has a holder. */
  predicate MutexOk(m: Mutex) {
    m.count <= 1 && (m.count == 0 <==> m.holder.Held?)
  }

  ghost predicate Inv(s: Site) {
    && KernelWorld.Inv(s.w)
    && (forall q | q in s.mutexes :: MutexOk(s.mutexes[q]))
    && (s.blocking.BlockingOn? ==> s.blocking.queue in s.mutexes)
  }

  // ----- the steps ----------------------------------------------------------------------------------

  lemma Between(s: Site)
    requires Inv(s)
    ensures KernelWorld.Inv(s.w) && Drainable(s.w.k) && SameTasks(s.w.k)
  {}

  /** Giving the mutex back: the holder returns to its base priority, and the first waiter is woken. */
  ghost function Given(w: World, queue: nat, holder: Task): World
    requires KernelWorld.Inv(w) && IsReady(w.k, holder)
  {
    hide Step, KernelWorld.Inv, Drainable, SameTasks;
    StepKeepsInv(w, DisinheritBy(holder));
    var w1 := Step(w, DisinheritBy(holder));
    if At(w1.k, Event(queue)) == [] then w1
    else
      StepKeepsInv(w1, Signal(queue));
      Step(w1, Signal(queue))
  }

  ghost function Next(s: Site, a: Action): Site
    requires Inv(s) && Enabled(s, a)
  {
    hide Step, KernelWorld.Inv, Drainable, SameTasks, KernelOps.Enabled, Given;
    Between(s);
    var k := s.w.k;
    match a
    case Kernel(op) => s.(w := Step(s.w, op))
    case Take(queue) =>
      s.(mutexes := s.mutexes[queue := Mutex(s.mutexes[queue].count - 1, Held(k.running), [])])
    case StartBlocking(queue) =>
      var m := s.mutexes[queue];
      RunningKnown(s.w);
      Site(Step(s.w, InheritBy(m.holder.t)),
           s.mutexes[queue := m.(blockers := m.blockers + [Blocker(k.running, k.priority[k.running])])],
           BlockingOn(queue))
    case FinishBlocking(ticks) => s.(w := Step(s.w, WaitFor(s.blocking.queue, ticks)), blocking := NotBlocking)
    case Give(queue) =>
      var m := s.mutexes[queue];
      if m.count == 1 then s
      else
        HolderReady(s, queue);
        s.(w := Given(s.w, queue, m.holder.t), mutexes := s.mutexes[queue := Mutex(m.count + 1, Nobody, [])])
  }

  lemma RunningKnown(w: World)
    requires IsReady(w.k, w.k.running) && SameTasks(w.k)
    ensures w.k.running in w.k.priority && w.k.running in w.k.basePriority
  {}

  lemma HolderReady(s: Site, queue: nat)
    requires Inv(s) && Enabled(s, Give(queue)) && s.mutexes[queue].count != 1
    ensures s.mutexes[queue].count == 0 && s.mutexes[queue].holder.Held? && IsReady(s.w.k, s.mutexes[queue].holder.t)
  {
    assert MutexOk(s.mutexes[queue]);
  }

  /** What giving does to the priorities: the holder's own is its base priority again. */
  lemma GivenPriorities(w: World, queue: nat, t: Task)
    requires KernelWorld.Inv(w) && IsReady(w.k, t)
    ensures var w1 := Given(w, queue, t);
            && KernelWorld.Inv(w1) && t in w.k.basePriority
            && w1.k.priority == w.k.priority[t := w.k.basePriority[t]] && w1.k.basePriority == w.k.basePriority
  {
    hide KernelWorld.Inv, Disinherit, Drainable;
    StepKeepsInv(w, DisinheritBy(t));
    KeyFacts(w.k, t);
    DisinheritedPriorities(w.k, t);
    GivenWakes(w, queue, t);
  }

  /** What giving does to the waiters: the first one leaves the event list. */
  lemma GivenWakes(w: World, queue: nat, t: Task)
    requires KernelWorld.Inv(w) && IsReady(w.k, t)
    ensures Drainable(w.k) && SameTasks(w.k)
    ensures var w1 := Step(w, DisinheritBy(t));
            var w2 := Given(w, queue, t);
            KernelWorld.Inv(w1) && KernelWorld.Inv(w2) && SameMaps(w1.k, w2.k)
  {
    hide KernelWorld.Inv, Step, Drainable, SameTasks;
    StepKeepsInv(w, DisinheritBy(t));
    var w1 := Step(w, DisinheritBy(t));
    if At(w1.k, Event(queue)) != [] {
      StepKeepsInv(w1, Signal(queue));
      BlockingStepMaps(w1, Signal(queue));
    }
  }

  lemma DisinheritPlaces(k: State, t: Task, queue: nat)
    requires SameTasks(k) && IsReady(k, t)
    ensures var k1 := Disinherit(k, t);
            IsReady(k1, t) && At(k1, Event(queue)) == At(k, Event(queue))
  {
    hide InsertAt, Without, NoDup;
  }

  lemma SignalPlaces(k: State, queue: nat, t: Task)
    requires Drainable(k) && At(k, Event(queue)) != [] && IsReady(k, t) && t !in k.event
    ensures var x := At(k, Event(queue))[0];
            && x in k.generic && x in k.priority
            && IsReady(RemoveFromEventList(k, queue), t)
            && At(RemoveFromEventList(k, queue), Event(queue)) == At(k, Event(queue))[1..]
  {
    hide Agreement, MakeReady, TakeEvent, Append;
    var x := At(k, Event(queue))[0];
    SignalOthersReady(k, queue, t);
    if k.depth == 0 {
      MakeReadyEffect(k, x);
    } else {
      TakeEventAgrees(k, x);
      AppendEffect(TakeEvent(k, x), Pending, x);
    }
  }

  lemma SignalOthersReady(k: State, queue: nat, t: Task)
    requires Drainable(k) && At(k, Event(queue)) != [] && IsReady(k, t) && t !in k.event
    ensures var x := At(k, Event(queue))[0];
            x in k.generic && x in k.priority && x in k.event && IsReady(RemoveFromEventList(k, queue), t)
  {
    var x := At(k, Event(queue))[0];
    assert Holds(k, Event(queue), x);
    SignalOthers(k, queue, t);
  }

  /** Where giving leaves the holder and the waiters. */
  lemma GivenPlaces(w: World, queue: nat, t: Task)
    requires KernelWorld.Inv(w) && IsReady(w.k, t)
    ensures var w1 := Given(w, queue, t);
            && IsReady(w1.k, t)
            && var waiting := At(w.k, Event(queue));
               At(w1.k, Event(queue)) == if waiting == [] then [] else waiting[1..]
  {
    hide KernelWorld.Inv, Disinherit, Drainable, SameTasks, RemoveFromEventList;
    StepKeepsInv(w, DisinheritBy(t));
    var w1 := Step(w, DisinheritBy(t));
    KeyFacts(w.k, t);
    DisinheritPlaces(w.k, t, queue);
    if At(w1.k, Event(queue)) != [] {
      StepKeepsInv(w1, Signal(queue));
      BetweenOperations(w1);
      ReadyIsUnlisted(w1, t);
      SignalPlaces(w1.k, queue, t);
    }
  }

  lemma InheritStep(w: World, t: Task)
    requires KernelWorld.Inv(w) && KernelOps.Enabled(w, InheritBy(t)) && Drainable(w.k) && SameTasks(w.k)
    ensures w.k.running in w.k.priority && t in w.k.priority && t in w.k.basePriority
    ensures var k1 := Step(w, InheritBy(t)).k;
            && k1.priority == w.k.priority[t := Max(w.k.priority[t], w.k.priority[w.k.running])]
            && k1.basePriority == w.k.basePriority
  {
    hide KernelWorld.Inv, Inherit;
    InheritedPriorities(w.k, t);
  }

  // ----- every step keeps the invariant ---------------------------------------------------------------

  lemma SiteStepKeepsInv(s: Site, a: Action)
    requires Inv(s) && Enabled(s, a)
    ensures Inv(Next(s, a))
  {
    hide KernelWorld.Inv, KernelOps.Enabled, Step, Given, Drainable, SameTasks;
    Between(s);
    match a
    case Kernel(op) => StepKeepsInv(s.w, op);
    case Take(queue) => assert MutexOk(s.mutexes[queue]);
    case StartBlocking(queue) =>
      StepKeepsInv(s.w, InheritBy(s.mutexes[queue].holder.t));
      assert MutexOk(s.mutexes[queue]);
    case FinishBlocking(ticks) => StepKeepsInv(s.w, WaitFor(s.blocking.queue, ticks));
    case Give(queue) =>
      if s.mutexes[queue].count != 1 {
        HolderReady(s, queue);
        GivenPriorities(s.w, queue, s.mutexes[queue].holder.t);
      }
  }

  // ----- the priority a holder should run at -----------------------------------------------------------

  function Max(a: nat, b: nat): nat {
    if a >= b then a else b
  }

  predicate IsMax(x: nat, among: set<nat>) {
    x in among && forall y | y in among :: y <= x
  }

  /** The priorities of all tasks that blocked on a mutex that t holds, since t took it. */
  function Demands(mutexes: map<nat, Mutex>, t: Task): set<nat> {
    set q, i | q in mutexes && mutexes[q].holder == Held(t) && 0 <= i < |mutexes[q].blockers|
      :: mutexes[q].blockers[i].priority
  }

  /** A task runs at the maximum of its base priority and the demands on it. */
  ghost predicate AtDemand(s: Site, t: Task) {
    && t in s.w.k.priority && t in s.w.k.basePriority
    && IsMax(s.w.k.priority[t], Demands(s.mutexes, t) + {s.w.k.basePriority[t]})
  }

  ghost predicate AllAtDemand(s: Site) {
    forall t | t in s.w.k.priority :: AtDemand(s, t)
  }

  predicate NoneAbove(demands: set<nat>, p: nat) {
    forall d | d in demands :: d <= p
  }

  /** When a step leaves everybody at its demand. A give must not leave the holder with another mutex
      that is in demand above its base priority; a new base priority must not fall below the demands
      on a task that runs at its base priority, nor rise above an inherited priority; a new task must
      not be taken for the holder of a mutex in demand. */
  ghost predicate Harmless(s: Site, a: Action)
    requires AllAtDemand(s) && Enabled(s, a)
  {
    match a
    case Give(queue) =>
      var m := s.mutexes[queue];
      m.count == 0 && m.holder.Held? && m.holder.t in s.w.k.priority ==>
        assert AtDemand(s, m.holder.t);
        NoneAbove(Demands(s.mutexes - {queue}, m.holder.t), s.w.k.basePriority[m.holder.t])
    case Kernel(SetPriority(t, p)) =>
      t in s.w.k.priority ==>
        assert AtDemand(s, t);
        if s.w.k.priority[t] == s.w.k.basePriority[t] then NoneAbove(Demands(s.mutexes, t), ClipPriority(p))
        else ClipPriority(p) <= s.w.k.priority[t]
    case Kernel(CreateTask(t, p)) => NoneAbove(Demands(s.mutexes, t), ClipPriority(p))
    case _ => true
  }

  // ----- exactly the harmless steps keep everybody at its demand ---------------------------------------

  lemma DemandsWithout(mutexes: map<nat, Mutex>, queue: nat, m: Mutex, t: Task)
    requires m.holder != Held(t) || m.blockers == []
    ensures Demands(mutexes[queue := m], t) == Demands(mutexes - {queue}, t)
  {
    var mutexes1 := mutexes[queue := m];
    forall d
      ensures d in Demands(mutexes1, t) <==> d in Demands(mutexes - {queue}, t)
    {
      if d in Demands(mutexes1, t) {
        var q, i :| q in mutexes1 && mutexes1[q].holder == Held(t) && 0 <= i < |mutexes1[q].blockers|
                    && mutexes1[q].blockers[i].priority == d;
        assert q in mutexes - {queue};
      }
      if d in Demands(mutexes - {queue}, t) {
        var q, i :| q in mutexes - {queue} && (mutexes - {queue})[q].holder == Held(t)
                    && 0 <= i < |(mutexes - {queue})[q].blockers| && (mutexes - {queue})[q].blockers[i].priority == d;
        assert mutexes1[q] == (mutexes - {queue})[q];
      }
    }
  }

  lemma SameDemands(mutexes: map<nat, Mutex>, queue: nat, t: Task)
    requires queue in mutexes && (mutexes[queue].holder != Held(t) || mutexes[queue].blockers == [])
    ensures Demands(mutexes - {queue}, t) == Demands(mutexes, t)
  {
    DemandsWithout(mutexes, queue, mutexes[queue], t);
    assert mutexes[queue := mutexes[queue]] == mutexes;
  }

  /** Another blocker adds its priority to the demands on the holder, and to nobody else's. */
  lemma DemandsGrow(mutexes: map<nat, Mutex>, queue: nat, b: Blocker, t: Task)
    requires queue in mutexes
    ensures var m := mutexes[queue];
            Demands(mutexes[queue := m.(blockers := m.blockers + [b])], t)
            == Demands(mutexes, t) + if m.holder == Held(t) then {b.priority} else {}
  {
    var m := mutexes[queue];
    var m1 := m.(blockers := m.blockers + [b]);
    var mutexes1 := mutexes[queue := m1];
    forall d | d in Demands(mutexes1, t)
      ensures d in Demands(mutexes, t) || (m.holder == Held(t) && d == b.priority)
    {
      var q, i :| q in mutexes1 && mutexes1[q].holder == Held(t) && 0 <= i < |mutexes1[q].blockers|
                  && mutexes1[q].blockers[i].priority == d;
      if q != queue || i < |m.blockers| {
        assert mutexes[q].blockers[i].priority == d;
      }
    }
    forall d | d in Demands(mutexes, t)
      ensures d in Demands(mutexes1, t)
    {
      var q, i :| q in mutexes && mutexes[q].holder == Held(t) && 0 <= i < |mutexes[q].blockers|
                  && mutexes[q].blockers[i].priority == d;
      assert mutexes1[q].blockers[i].priority == d;
    }
    if m.holder == Held(t) {
      assert mutexes1[queue].blockers[|m.blockers|].priority == b.priority;
    }
  }

  /** Another task's demand, after a step that leaves that task's priorities and mutexes alone. */
  lemma StaysAtDemand(s: Site, s1: Site, t: Task)
    requires AtDemand(s, t) && SamePriorities(s.w.k, s1.w.k, t)
    requires Demands(s1.mutexes, t) == Demands(s.mutexes, t)
    ensures AtDemand(s1, t)
  {}

  lemma MapsStayAtDemand(s: Site, s1: Site)
    requires AllAtDemand(s) && SameMaps(s.w.k, s1.w.k)
    requires forall t | t in s.w.k.priority :: Demands(s1.mutexes, t) == Demands(s.mutexes, t)
    ensures AllAtDemand(s1)
  {
    hide Demands;
    forall t | t in s1.w.k.priority
      ensures AtDemand(s1, t)
    {
      assert AtDemand(s, t);
      StaysAtDemand(s, s1, t);
    }
  }

  lemma TakeKeepsDemand(s: Site, queue: nat)
    requires Inv(s) && AllAtDemand(s) && Enabled(s, Take(queue))
    ensures AllAtDemand(Next(s, Take(queue)))
  {
    hide KernelWorld.Inv, AllAtDemand, Demands;
    var s1 := Next(s, Take(queue));
    assert MutexOk(s.mutexes[queue]);
    forall t
      ensures Demands(s1.mutexes, t) == Demands(s.mutexes, t)
    {
      DemandsWithout(s.mutexes, queue, s1.mutexes[queue], t);
      SameDemands(s.mutexes, queue, t);
    }
    MapsStayAtDemand(s, s1);
  }

  lemma StartBlockingKeepsDemand(s: Site, queue: nat)
    requires Inv(s) && AllAtDemand(s) && Enabled(s, StartBlocking(queue))
    ensures AllAtDemand(Next(s, StartBlocking(queue)))
  {
    hide KernelWorld.Inv, KernelOps.Enabled, Step, Drainable, SameTasks, Demands;
    Between(s);
    var k := s.w.k;
    var h := s.mutexes[queue].holder.t;
    InheritStep(s.w, h);
    var b := Blocker(k.running, k.priority[k.running]);
    var s1 := Next(s, StartBlocking(queue));
    forall t | t in s1.w.k.priority
      ensures AtDemand(s1, t)
    {
      assert AtDemand(s, t);
      DemandsGrow(s.mutexes, queue, b, t);
      if t == h {
        Inherited(s.w.k.priority[h], b.priority, Demands(s.mutexes, h), s.w.k.basePriority[h]);
      } else {
        StaysAtDemand(s, s1, t);
      }
    }
  }

  lemma Inherited(x: nat, p: nat, demands: set<nat>, base: nat)
    requires IsMax(x, demands + {base})
    ensures IsMax(Max(x, p), demands + {p} + {base})
  {}

  lemma GiveKeepsDemandExactly(s: Site, queue: nat)
    requires Inv(s) && AllAtDemand(s) && Enabled(s, Give(queue))
    ensures AllAtDemand(Next(s, Give(queue))) <==> Harmless(s, Give(queue))
  {
    hide KernelWorld.Inv, KernelOps.Enabled, Step, Given, Drainable, SameTasks, Demands;
    Between(s);
    assert MutexOk(s.mutexes[queue]);
    if s.mutexes[queue].count == 0 {
      HolderReady(s, queue);
      var h := s.mutexes[queue].holder.t;
      GivenPriorities(s.w, queue, h);
      KeyFacts(s.w.k, h);
      var s1 := Next(s, Give(queue));
      forall t | t in s1.w.k.priority && t != h
        ensures AtDemand(s1, t)
      {
        assert AtDemand(s, t);
        DemandsWithout(s.mutexes, queue, s1.mutexes[queue], t);
        SameDemands(s.mutexes, queue, t);
        StaysAtDemand(s, s1, t);
      }
      DemandsWithout(s.mutexes, queue, s1.mutexes[queue], h);
      assert AtDemand(s, h);
      assert AtDemand(s1, h) <==> NoneAbove(Demands(s1.mutexes, h), s.w.k.basePriority[h]);
    }
  }

  lemma KernelStepKeepsDemandExactly(s: Site, op: Op)
    requires Inv(s) && AllAtDemand(s) && Enabled(s, Kernel(op))
    ensures AllAtDemand(Next(s, Kernel(op))) <==> Harmless(s, Kernel(op))
  {
    hide KernelWorld.Inv, KernelOps.Enabled, Step, Drainable, SameTasks, AtDemand, Demands;
    Between(s);
    StepKeepsInv(s.w, op);
    var s1 := Next(s, Kernel(op));
    forall t | t in s1.w.k.priority && !(op.SetPriority? && op.t == t) && !(op.CreateTask? && op.t == t)
      ensures AtDemand(s1, t)
    {
      UndisturbedKeepsDemand(s, op, t);
    }
    if op.SetPriority? {
      SetPriorityExactly(s, op.t, op.priority);
    } else if op.CreateTask? {
      CreateExactly(s, op.t, op.priority);
    }
  }

  lemma UndisturbedKeepsDemand(s: Site, op: Op, t: Task)
    requires Inv(s) && AllAtDemand(s) && Enabled(s, Kernel(op)) && Drainable(s.w.k) && SameTasks(s.w.k)
    requires t in Step(s.w, op).k.priority && !(op.SetPriority? && op.t == t) && !(op.CreateTask? && op.t == t)
    ensures AtDemand(s.(w := Step(s.w, op)), t)
  {
    hide Step, KernelOps.Enabled, KernelWorld.Inv, Drainable, IsMax, Demands;
    StepKeepsInv(s.w, op);
    StepKeepsTasks(s.w, op, t);
    BetweenOperations(Step(s.w, op));
    StepKeepsPriorities(s.w, op, t);
    assert AtDemand(s, t);
    StaysAtDemand(s, s.(w := Step(s.w, op)), t);
  }

  lemma SetPriorityExactly(s: Site, t: Task, p: nat)
    requires Inv(s) && AllAtDemand(s) && Enabled(s, Kernel(SetPriority(t, p))) && Drainable(s.w.k) && SameTasks(s.w.k)
    ensures var s1 := s.(w := Step(s.w, SetPriority(t, p)));
            t in s1.w.k.priority && (AtDemand(s1, t) <==> Harmless(s, Kernel(SetPriority(t, p))))
  {
    hide KernelWorld.Inv, Drainable, PrioritySet, Demands;
    SetPriorities(s.w.k, t, p);
    KeyFacts(s.w.k, t);
    assert AtDemand(s, t);
  }

  lemma CreateExactly(s: Site, t: Task, p: nat)
    requires Inv(s) && AllAtDemand(s) && Enabled(s, Kernel(CreateTask(t, p))) && Drainable(s.w.k) && SameTasks(s.w.k)
    ensures var s1 := s.(w := Step(s.w, CreateTask(t, p)));
            t in s1.w.k.priority && (AtDemand(s1, t) <==> Harmless(s, Kernel(CreateTask(t, p))))
  {
    hide KernelWorld.Inv, Drainable, Create, Demands;
    CreatedPriorities(s.w.k, t, p);
  }

  /** From a state in which everybody runs at its demand, a step leads to such a state iff it is
      harmless: iff it is no give that keeps another mutex in demand above the base priority, no
      setting of a base priority past the demands, and no reuse of a dead holder's memory. */
  lemma DemandKeptExactly(s: Site, a: Action)
    requires Inv(s) && AllAtDemand(s) && Enabled(s, a)
    ensures AllAtDemand(Next(s, a)) <==> Harmless(s, a)
  {
    hide AllAtDemand, Next, KernelWorld.Inv;
    match a
    case Kernel(op) => KernelStepKeepsDemandExactly(s, op);
    case Take(queue) => TakeKeepsDemand(s, queue);
    case StartBlocking(queue) => StartBlockingKeepsDemand(s, queue);
    case FinishBlocking(ticks) => FinishBlockingKeepsDemand(s, ticks);
    case Give(queue) => GiveKeepsDemandExactly(s, queue);
  }

  lemma FinishBlockingKeepsDemand(s: Site, ticks: nat)
    requires Inv(s) && AllAtDemand(s) && Enabled(s, FinishBlocking(ticks))
    ensures AllAtDemand(Next(s, FinishBlocking(ticks)))
  {
    hide KernelWorld.Inv, KernelOps.Enabled, Step, AllAtDemand, Demands;
    Between(s);
    BlockingStepMaps(s.w, WaitFor(s.blocking.queue, ticks));
    MapsStayAtDemand(s, Next(s, FinishBlocking(ticks)));
  }

  /** A holder of one mutex at a time gives it back without harm. */
  lemma SingleGiveIsHarmless(s: Site, queue: nat)
    requires AllAtDemand(s) && Enabled(s, Give(queue))
    requires forall q | q in s.mutexes && q != queue && s.mutexes[q].holder.Held? ::
               s.mutexes[q].holder != s.mutexes[queue].holder
    ensures Harmless(s, Give(queue))
  {
    var m := s.mutexes[queue];
    if m.holder.Held? {
      assert Demands(s.mutexes - {queue}, m.holder.t) == {};
    }
  }

  lemma InitialIs(t: Task, p: nat)
    ensures var w := Initial(t, p);
            var q := ClipPriority(p);
            && KernelWorld.Inv(w) && w.k.running == t && IsReady(w.k, t)
            && w.k.priority == map[t := q] && w.k.basePriority == map[t := q]
  {
    hide KernelWorld.Inv;
    InitialHolds(t, p);
    var empty := State(map[], map[], map[], map[], map[], map[], map[], DelayedA, DelayedB, t,
                       0, 0, 0, MAX_DELAY, 0, 0, 0, 0, false);
    CreatedPriorities(empty, t, p);
  }

  // ----- over runs --------------------------------------------------------------------------------------

  /** The scheduler has just started and every mutex is as xQueueCreateMutex leaves it. */
  ghost predicate InitialSite(s: Site) {
    && (exists t, p :: s.w == Initial(t, p))
    && s.blocking == NotBlocking && forall q | q in s.mutexes :: s.mutexes[q] == Mutex(1, Nobody, [])
  }

  lemma InitialSiteHolds(s: Site)
    requires InitialSite(s)
    ensures Inv(s) && AllAtDemand(s)
  {
    hide KernelWorld.Inv, Initial;
    var t, p :| s.w == Initial(t, p);
    InitialIs(t, p);
    assert forall u :: Demands(s.mutexes, u) == {};
  }

  /** s1 is what a sequence of actions makes of s, each enabled in its turn. */
  ghost predicate Reaches(s: Site, actions: seq<Action>, s1: Site)
    decreases |actions|
  {
    if actions == [] then s1 == s
    else Inv(s) && Enabled(s, actions[0]) && Reaches(Next(s, actions[0]), actions[1..], s1)
  }

  /** The same, with harmless actions only. */
  ghost predicate ReachesHarmlessly(s: Site, actions: seq<Action>, s1: Site)
    decreases |actions|
  {
    if actions == [] then s1 == s
    else
      && Inv(s) && AllAtDemand(s) && Enabled(s, actions[0]) && Harmless(s, actions[0])
      && ReachesHarmlessly(Next(s, actions[0]), actions[1..], s1)
  }

  lemma {:induction false} SiteRunKeepsInv(s: Site, actions: seq<Action>, s1: Site)
    requires Inv(s) && Reaches(s, actions, s1)
    ensures Inv(s1)
    decreases |actions|
  {
    hide Inv, Enabled, Next;
    if actions != [] {
      SiteStepKeepsInv(s, actions[0]);
      SiteRunKeepsInv(Next(s, actions[0]), actions[1..], s1);
    }
  }

  lemma {:induction false} HarmlessRunKeepsDemand(s: Site, actions: seq<Action>, s1: Site)
    requires Inv(s) && AllAtDemand(s) && ReachesHarmlessly(s, actions, s1)
    ensures Inv(s1) && AllAtDemand(s1)
    decreases |actions|
  {
    hide Inv, AllAtDemand, Enabled, Harmless, Next;
    if actions != [] {
      SiteStepKeepsInv(s, actions[0]);
      DemandKeptExactly(s, actions[0]);
      HarmlessRunKeepsDemand(Next(s, actions[0]), actions[1..], s1);
    }
  }

  // ----- runs that lose the demand ----------------------------------------------------------------------

  lemma NoActions(s: Site)
    ensures ReachesHarmlessly(s, [], s)
  {}

  lemma {:induction false} HarmlessThen(s: Site, actions: seq<Action>, s1: Site, a: Action)
    requires ReachesHarmlessly(s, actions, s1) && Inv(s1) && AllAtDemand(s1) && Enabled(s1, a) && Harmless(s1, a)
    ensures ReachesHarmlessly(s, actions + [a], Next(s1, a)) && Inv(Next(s1, a)) && AllAtDemand(Next(s1, a))
    decreases |actions|
  {
    hide Inv, AllAtDemand, Enabled, Harmless, Next;
    SiteStepKeepsInv(s1, a);
    DemandKeptExactly(s1, a);
    if actions != [] {
      HarmlessThen(Next(s, actions[0]), actions[1..], s1, a);
      assert (actions + [a])[1..] == actions[1..] + [a];
    }
  }

  lemma TakesThen(s: Site, actions: seq<Action>, s1: Site, queue: nat) returns (s2: Site)
    requires ReachesHarmlessly(s, actions, s1) && Inv(s1) && AllAtDemand(s1) && Enabled(s1, Take(queue))
    ensures ReachesHarmlessly(s, actions + [Take(queue)], s2) && Inv(s2) && AllAtDemand(s2)
    ensures s2 == s1.(mutexes := s1.mutexes[queue := Mutex(0, Held(s1.w.k.running), [])])
  {
    hide KernelWorld.Inv, AllAtDemand, ReachesHarmlessly, Demands;
    HarmlessThen(s, actions, s1, Take(queue));
    assert MutexOk(s1.mutexes[queue]);
    s2 := Next(s1, Take(queue));
  }

  lemma KernelThen(s: Site, actions: seq<Action>, s1: Site, op: Op, w: World) returns (s2: Site)
    requires ReachesHarmlessly(s, actions, s1) && Inv(s1) && AllAtDemand(s1) && s1.blocking.NotBlocking?
    requires Follows(s1.w, op, w) && LeavesMutexes(s1, op)
    requires !op.SetPriority? && (op.CreateTask? ==> Demands(s1.mutexes, op.t) == {})
    ensures ReachesHarmlessly(s, actions + [Kernel(op)], s2) && Inv(s2) && AllAtDemand(s2) && s2 == s1.(w := w)
  {
    hide KernelWorld.Inv, AllAtDemand, ReachesHarmlessly, Demands, Step, KernelOps.Enabled;
    HarmlessThen(s, actions, s1, Kernel(op));
    s2 := Next(s1, Kernel(op));
  }

  /** The running task, of priority p, finds mutex 0 taken by h, passes its priority on and goes to wait. */
  lemma BlocksThen(s: Site, actions: seq<Action>, s1: Site, m: Mutex, h: Task, p: nat, w: World, w1: World)
    returns (s2: Site)
    requires ReachesHarmlessly(s, actions, s1) && Inv(s1) && AllAtDemand(s1)
    requires 0 in s1.mutexes && s1.mutexes[0] == m && m.count == 0 && m.holder == Held(h) && s1.blocking == NotBlocking
    requires IsReady(s1.w.k, s1.w.k.running) && s1.w.k.depth > 0
    requires s1.w.k.running in s1.w.k.priority && s1.w.k.priority[s1.w.k.running] == p
    requires Follows(s1.w, InheritBy(h), w) && Follows(w, WaitFor(0, MAX_DELAY), w1)
    ensures ReachesHarmlessly(s, actions + [StartBlocking(0)] + [FinishBlocking(MAX_DELAY)], s2)
    ensures Inv(s2) && AllAtDemand(s2) && s2.w == w1 && s2.blocking == NotBlocking
    ensures s2.mutexes == s1.mutexes[0 := m.(blockers := m.blockers + [Blocker(s1.w.k.running, p)])]
  {
    hide KernelWorld.Inv, AllAtDemand, ReachesHarmlessly, Demands, Step, KernelOps.Enabled;
    HarmlessThen(s, actions, s1, StartBlocking(0));
    var s3 := Next(s1, StartBlocking(0));
    assert s3.w == w;
    HarmlessThen(s, actions + [StartBlocking(0)], s3, FinishBlocking(MAX_DELAY));
    s2 := Next(s3, FinishBlocking(MAX_DELAY));
  }

  const FREE := Mutex(1, Nobody, [])
  const TAKEN := Mutex(0, Held(0), [])

  /** Task 0 takes both mutexes; then task 1, more urgent, is created, runs and finds the first one taken. */
  const DEMANDING: seq<Action> :=
    [Take(0), Take(1), Kernel(CreateTask(1, 3)), Kernel(Switch), Kernel(SuspendScheduler),
     StartBlocking(0), FinishBlocking(MAX_DELAY), Kernel(ResumeScheduler), Kernel(Switch)]

  /** Task 0, of base priority 1, runs at priority 3 and holds both mutexes; task 1 waits for the first. */
  ghost predicate InDemand(s: Site) {
    && s.mutexes == map[0 := TAKEN.(blockers := [Blocker(1, 3)]), 1 := TAKEN] && s.blocking == NotBlocking
    && Shows(s.w, Scene(map[0 := Ready(3), 1 := Suspended], map[1 := Event(0)], map[0 := 3, 1 := 3],
                        map[0 := 3, 1 := 3], map[0 := 1, 1 := 3], 0, 0, [1]))
  }

  lemma ShownRunning(w: World, s: Scene)
    requires Shows(w, s) && s.running in s.places && s.places[s.running].Ready?
    ensures IsReady(w.k, w.k.running) && w.k.running == s.running && w.k.depth == s.depth
    ensures w.k.priority == s.priorities && w.k.generic == s.places && w.k.basePriority == s.bases
  {}

  lemma UntakenDemands(mutexes: map<nat, Mutex>)
    requires mutexes == map[0 := TAKEN, 1 := TAKEN]
    ensures Demands(mutexes, 1) == {}
  {}

  /** What it looks like when task 1 is about to find mutex 0 taken. */
  const ABOUT_TO_BLOCK :=
    Scene(map[0 := Ready(1), 1 := Ready(3)], map[], map[0 := 5, 1 := 3], map[0 := 1, 1 := 3], map[0 := 1, 1 := 3], 1,
          1, [])

  lemma ReachBlocking(s: Site, actions: seq<Action>, s1: Site, c: Scene) returns (s2: Site)
    requires ReachesHarmlessly(s, actions, s1) && Inv(s1) && AllAtDemand(s1) && Shows(s1.w, c)
    requires c == Scene(map[0 := Ready(1)], map[], map[0 := 5], map[0 := 1], map[0 := 1], 0, 0, [])
    requires s1.mutexes == map[0 := TAKEN, 1 := TAKEN] && s1.blocking == NotBlocking
    ensures ReachesHarmlessly(s, actions + [Kernel(CreateTask(1, 3))] + [Kernel(Switch)] + [Kernel(SuspendScheduler)],
                              s2)
    ensures Inv(s2) && AllAtDemand(s2) && s2.mutexes == s1.mutexes && s2.blocking == NotBlocking
    ensures Shows(s2.w, ABOUT_TO_BLOCK)
  {
    hide Inv, AllAtDemand, Shows, Follows, ReachesHarmlessly, Demands;
    var w1 := Creates(s1.w, c, 1, 3);
    var c1 := ABOUT_TO_BLOCK.(running := 0, depth := 0);
    UntakenDemands(s1.mutexes);
    s2 := KernelThen(s, actions, s1, CreateTask(1, 3), w1);
    var w2 := SwitchesTo(w1, c1, 1);
    s2 := KernelThen(s, actions + [Kernel(CreateTask(1, 3))], s2, Switch, w2);
    var w3 := Scenes.Suspends(w2, c1.(running := 1));
    s2 := KernelThen(s, actions + [Kernel(CreateTask(1, 3))] + [Kernel(Switch)], s2, SuspendScheduler, w3);
  }

  lemma ReachBlocked(s: Site, actions: seq<Action>, s1: Site) returns (s2: Site)
    requires ReachesHarmlessly(s, actions, s1) && Inv(s1) && AllAtDemand(s1) && Shows(s1.w, ABOUT_TO_BLOCK)
    requires s1.mutexes == map[0 := TAKEN, 1 := TAKEN] && s1.blocking == NotBlocking
    ensures ReachesHarmlessly(s, actions + [StartBlocking(0)] + [FinishBlocking(MAX_DELAY)] + [Kernel(ResumeScheduler)]
                                 + [Kernel(Switch)], s2)
    ensures Inv(s2) && AllAtDemand(s2) && InDemand(s2)
  {
    hide Inv, AllAtDemand, Shows, Follows, ReachesHarmlessly, Demands;
    var c := ABOUT_TO_BLOCK;
    ShownRunning(s1.w, c);
    var w1 := Inherits(s1.w, c, 0);
    var c1 := c.(places := c.places[0 := Ready(3)], ranks := c.ranks[0 := 3], priorities := c.priorities[0 := 3]);
    var w2 := Waits(w1, c1);
    s2 := BlocksThen(s, actions, s1, TAKEN, 0, 3, w1, w2);
    assert InsertAt([], InsertPosition(ValuesOf([], c1.ranks), 3), 1) == [1];
    var c2 := c1.(places := c1.places[1 := Suspended], events := map[1 := Event(0)], waiting := [1]);
    var w3 := Resumes(w2, c2);
    var actions1 := actions + [StartBlocking(0)] + [FinishBlocking(MAX_DELAY)];
    s2 := KernelThen(s, actions1, s2, ResumeScheduler, w3);
    var w4 := SwitchesTo(w3, c2.(depth := 0), 0);
    s2 := KernelThen(s, actions1 + [Kernel(ResumeScheduler)], s2, Switch, w4);
    assert c2.places == map[0 := Ready(3), 1 := Suspended] && c2.ranks == map[0 := 3, 1 := 3];
    assert c2.priorities == map[0 := 3, 1 := 3];
    assert TAKEN.blockers + [Blocker(1, 3)] == [Blocker(1, 3)];
    assert s2.mutexes == map[0 := TAKEN.(blockers := [Blocker(1, 3)]), 1 := TAKEN];
  }

  /** A run to such a state, of harmless actions. */
  lemma ReachInDemand() returns (s: Site, s1: Site)
    ensures InitialSite(s) && ReachesHarmlessly(s, DEMANDING, s1) && Inv(s1) && AllAtDemand(s1) && InDemand(s1)
  {
    hide Inv, AllAtDemand, Initial, Shows, Follows, ReachesHarmlessly, Demands;
    s := Site(Initial(0, 1), map[0 := FREE, 1 := FREE], NotBlocking);
    Start(0, 1);
    InitialSiteHolds(s);
    var c := Scene(map[0 := Ready(1)], map[], map[0 := 5], map[0 := 1], map[0 := 1], 0, 0, []);
    ShownRunning(s.w, c);
    NoActions(s);
    var s2 := TakesThen(s, [], s, 0);
    var s3 := TakesThen(s, [] + [Take(0)], s2, 1);
    assert s3.mutexes == map[0 := TAKEN, 1 := TAKEN];
    var s4 := ReachBlocking(s, [] + [Take(0)] + [Take(1)], s3, c);
    var actions := [] + [Take(0)] + [Take(1)] + [Kernel(CreateTask(1, 3))] + [Kernel(Switch)]
        + [Kernel(SuspendScheduler)];
    s1 := ReachBlocked(s, actions, s4);
    assert actions + [StartBlocking(0)] + [FinishBlocking(MAX_DELAY)] + [Kernel(ResumeScheduler)] + [Kernel(Switch)]
        == DEMANDING;
  }

  lemma InDemandShows(s: Site)
    requires InDemand(s)
    ensures s.w.k.priority == map[0 := 3, 1 := 3] && s.w.k.basePriority == map[0 := 1, 1 := 3]
    ensures s.w.k.running == 0 && IsReady(s.w.k, 0) && 0 in s.w.k.generic
    ensures s.mutexes == map[0 := TAKEN.(blockers := [Blocker(1, 3)]), 1 := TAKEN] && s.blocking == NotBlocking
    ensures Demands(s.mutexes, 0) == {3} && Demands(s.mutexes - {1}, 0) == {3}
  {
    assert s.mutexes[0].blockers[0].priority == 3;
    assert (s.mutexes - {1})[0].blockers[0].priority == 3;
  }

  /** Losing the demand by a give: task 0 gives its other mutex back and is at priority 1, although task 1
      still waits for the first one at priority 3. */
  lemma LostByGive() returns (s: Site, s1: Site)
    ensures InitialSite(s) && ReachesHarmlessly(s, DEMANDING, s1) && Inv(s1) && AllAtDemand(s1) && InDemand(s1)
    ensures Enabled(s1, Give(1)) && !AllAtDemand(Next(s1, Give(1)))
  {
    hide KernelWorld.Inv, AllAtDemand, Next, InDemand, ReachesHarmlessly, InitialSite, Demands;
    s, s1 := ReachInDemand();
    InDemandShows(s1);
    DemandKeptExactly(s1, Give(1));
  }

  /** Losing it by raising the base priority of an heir above what it inherited: task 0 stays at 3. */
  lemma LostByRaising() returns (s: Site, s1: Site)
    ensures InitialSite(s) && ReachesHarmlessly(s, DEMANDING, s1) && Inv(s1) && AllAtDemand(s1) && InDemand(s1)
    ensures Enabled(s1, Kernel(SetPriority(0, 5))) && !AllAtDemand(Next(s1, Kernel(SetPriority(0, 5))))
  {
    hide KernelWorld.Inv, AllAtDemand, Next, InDemand, ReachesHarmlessly, InitialSite, Demands;
    s, s1 := ReachInDemand();
    InDemandShows(s1);
    DemandKeptExactly(s1, Kernel(SetPriority(0, 5)));
  }

  /** Losing it by lowering the base priority of a holder: task 0, with a base priority raised to 3 in the
      meantime, is put at priority 1. */
  lemma LostByLowering() returns (s: Site, s1: Site)
    ensures InitialSite(s) && ReachesHarmlessly(s, DEMANDING + [Kernel(SetPriority(0, 3))], s1)
    ensures Inv(s1) && AllAtDemand(s1) && Demands(s1.mutexes, 0) == {3}
    ensures Enabled(s1, Kernel(SetPriority(0, 1))) && !AllAtDemand(Next(s1, Kernel(SetPriority(0, 1))))
  {
    hide KernelWorld.Inv, AllAtDemand, InDemand, ReachesHarmlessly, InitialSite, Demands, Step;
    var s0: Site;
    s, s0 := ReachInDemand();
    InDemandShows(s0);
    HarmlessThen(s, DEMANDING, s0, Kernel(SetPriority(0, 3)));
    s1 := Next(s0, Kernel(SetPriority(0, 3)));
    RaisedBase(s0, s1);
    DemandKeptExactly(s1, Kernel(SetPriority(0, 1)));
  }

  lemma RaisedBase(s: Site, s1: Site)
    requires InDemand(s) && Inv(s) && Enabled(s, Kernel(SetPriority(0, 3))) && s1 == Next(s, Kernel(SetPriority(0, 3)))
    ensures s1.w.k.priority == map[0 := 3, 1 := 3] && s1.w.k.basePriority == map[0 := 3, 1 := 3]
    ensures 0 in s1.w.k.generic && s1.mutexes == s.mutexes && s1.blocking == s.blocking
  {
    hide KernelWorld.Inv, Shows, Drainable, PrioritySet;
    Between(s);
    InDemandShows(s);
    SetPriorities(s.w.k, 0, 3);
    StepKeepsInv(s.w, SetPriority(0, 3));
    Between(s1);
  }

  /** In every state that harmless actions reach: a mutex is taken exactly when it has a holder; each
      task runs at the maximum of its base priority and the priorities of all tasks that blocked on a
      mutex it holds since it took it, so at its base priority if it holds none; and each ready task
      is in the ready list of the priority it runs at. */
  lemma HolderRunsAtDemand(s: Site, actions: seq<Action>, s1: Site, queue: nat, t: Task)
    requires InitialSite(s) && ReachesHarmlessly(s, actions, s1) && t in s1.w.k.priority
    ensures queue in s1.mutexes ==> (s1.mutexes[queue].count == 0 <==> s1.mutexes[queue].holder.Held?)
    ensures t in s1.w.k.basePriority
    ensures IsMax(s1.w.k.priority[t], Demands(s1.mutexes, t) + {s1.w.k.basePriority[t]})
    ensures IsReady(s1.w.k, t) ==> s1.w.k.generic[t] == Ready(s1.w.k.priority[t])
  {
    hide KernelWorld.Inv, ReachesHarmlessly, InitialSite, Demands;
    InitialSiteHolds(s);
    HarmlessRunKeepsDemand(s, actions, s1);
    assert AtDemand(s1, t);
    if queue in s1.mutexes {
      assert MutexOk(s1.mutexes[queue]);
    }
    if IsReady(s1.w.k, t) {
      InItsReadyList(s1.w, t);
    }
  }

  /** The blockers that the demand counts are those whose blocking fell between the take and now: a
      take starts the tenure without any, each blocking on this mutex adds the task with the priority
      it runs at, and nothing else changes them while the mutex is held. */
  lemma BlockersOfTenure(s: Site, a: Action, queue: nat)
    requires Inv(s) && Enabled(s, a) && queue in s.mutexes
    ensures var s1 := Next(s, a);
            && queue in s1.mutexes
            && (a == Take(queue) ==> s1.mutexes[queue] == Mutex(0, Held(s.w.k.running), []))
            && (a == StartBlocking(queue) ==>
                  && s.w.k.running in s.w.k.priority
                  && s1.mutexes[queue].holder == s.mutexes[queue].holder
                  && s1.mutexes[queue].blockers
                     == s.mutexes[queue].blockers + [Blocker(s.w.k.running, s.w.k.priority[s.w.k.running])])
            && (a == Give(queue) ==>
                  s1.mutexes[queue] == if s.mutexes[queue].count == 0 then Mutex(1, Nobody, []) else s.mutexes[queue])
            && (a != Take(queue) && a != StartBlocking(queue) && a != Give(queue) ==>
                  s1.mutexes[queue] == s.mutexes[queue])
  {
    hide KernelWorld.Inv, KernelOps.Enabled, Step, Given, Drainable, SameTasks;
    Between(s);
    assert MutexOk(s.mutexes[queue]);
    if a == StartBlocking(queue) {
      RunningKnown(s.w);
    }
  }

  /** What giving a taken mutex of s back makes of it: it is free; its former holder is at its base
      priority and in the ready list of it; the first task that waited, if any, waits no more. */
  ghost predicate Returned(s: Site, s1: Site, queue: nat)
    requires queue in s.mutexes && s.mutexes[queue].holder.Held?
  {
    var t := s.mutexes[queue].holder.t;
    var waiting := At(s.w.k, Event(queue));
    && s1.mutexes == s.mutexes[queue := Mutex(1, Nobody, [])]
    && t in s.w.k.basePriority && s1.w.k.basePriority == s.w.k.basePriority
    && s1.w.k.priority == s.w.k.priority[t := s.w.k.basePriority[t]]
    && t in s1.w.k.generic && s1.w.k.generic[t] == Ready(s.w.k.basePriority[t])
    && At(s1.w.k, Event(queue)) == if waiting == [] then [] else waiting[1..]
  }

  /** Giving the mutex back ends the tenure in every reachable state. */
  lemma GiveRestoresBasePriority(s: Site, actions: seq<Action>, s1: Site, queue: nat)
    requires InitialSite(s) && Reaches(s, actions, s1) && Enabled(s1, Give(queue)) && s1.mutexes[queue].count == 0
    ensures Inv(s1) && s1.mutexes[queue].holder.Held?
    ensures Returned(s1, Next(s1, Give(queue)), queue)
  {
    hide KernelWorld.Inv, KernelOps.Enabled, Given, Step, Drainable, SameTasks, InitialSite, Reaches;
    InitialSiteHolds(s);
    SiteRunKeepsInv(s, actions, s1);
    HolderReady(s1, queue);
    var t := s1.mutexes[queue].holder.t;
    GivenPriorities(s1.w, queue, t);
    GivenPlaces(s1.w, queue, t);
    InItsReadyList(Given(s1.w, queue, t), t);
  }

  /** What inheritance is for: in every state that harmless actions reach, if a mutex holder is ready
      when the kernel selects the next task, the selected task is at least as urgent as every task
      that blocked on the holder's mutexes. No task of a priority in between runs. */
  lemma NothingInBetweenRuns(s: Site, actions: seq<Action>, s1: Site, t: Task)
    requires InitialSite(s) && ReachesHarmlessly(s, actions, s1) && IsReady(s1.w.k, t) && s1.w.k.depth == 0
    ensures var k1 := SwitchContext(s1.w.k);
            && IsReady(k1, k1.running) && k1.running in k1.priority
            && forall d | d in Demands(s1.mutexes, t) :: d <= k1.priority[k1.running]
  {
    hide KernelWorld.Inv, ReachesHarmlessly, InitialSite, Demands, SwitchContext;
    InitialSiteHolds(s);
    HarmlessRunKeepsDemand(s, actions, s1);
    Selected(s1.w, t);
    assert AtDemand(s1, t);
  }

  lemma Selected(w: World, t: Task)
    requires KernelWorld.Inv(w) && IsReady(w.k, t) && w.k.depth == 0
    ensures var k1 := SwitchContext(w.k);
            && t in w.k.priority && IsReady(k1, k1.running) && k1.running in k1.priority
            && w.k.priority[t] <= k1.priority[k1.running]
  {
    hide Core, SwitchContext;
    SwitchSelects(w);
  }
}
