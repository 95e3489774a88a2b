// Every kernel operation keeps the invariant of KernelWorld, hence every run of operations does.

module KernelOps {
  import opened Sequences
  import opened Ticks
  import opened Lists
  import opened KernelState
  import opened KernelWorld

  /** The kernel's operations as steps. Those that the source runs between vTaskSuspendAll and
      xTaskResumeAll are steps of their own, so that interrupts may come in between. */
  datatype Op =
    | CreateTask(t: Task, priority: nat)
    | DeleteTask(t: Task)
    | ReapTask
    | DelayFor(ticks: nat)
    | DelayTo(previousWake: int, increment: nat)    // previousWake in absolute time
    | WaitFor(queue: nat, ticks: nat)
    | Signal(queue: nat)
    | SuspendTask(t: Task)
    | ResumeTask(t: Task)
    | ResumeTaskFromISR(t: Task)
    | SetPriority(t: Task, priority: nat)
    | InheritBy(t: Task)
    | DisinheritBy(t: Task)
    | SuspendScheduler
    | ResumeScheduler
    | TickInterrupt
    | Switch

  predicate IsReady(k: State, t: Task) {
    t in k.generic && k.generic[t].Ready?
  }

  predicate IsLive(k: State, t: Task) {
    t in k.generic && k.generic[t] != Terminated
  }

  /** What the source demands of whoever calls the operation. */
  predicate Enabled(w: World, op: Op) {
    match op
    case CreateTask(t, _) => t !in w.k.generic
    case DeleteTask(t) => IsLive(w.k, t)
    case ReapTask => IsLive(w.k, w.k.running)
    case DelayFor(ticks) => w.k.depth > 0 && IsReady(w.k, w.k.running) && 0 < ticks <= MAX_DELAY
    case DelayTo(previousWake, increment) =>
      && w.k.depth > 0 && IsReady(w.k, w.k.running) && 0 < increment <= MAX_DELAY
      && previousWake <= w.now < previousWake + MODULUS
    case WaitFor(_, ticks) => w.k.depth > 0 && IsReady(w.k, w.k.running) && 0 < ticks <= MAX_DELAY
    case Signal(queue) => At(w.k, Event(queue)) != []
    case SuspendTask(t) => IsLive(w.k, t)
    case ResumeTask(t) => t in w.k.generic
    case ResumeTaskFromISR(t) => t in w.k.generic
    case SetPriority(t, _) => t in w.k.generic
    case InheritBy(t) => t in w.k.generic && w.k.running in w.k.generic
    case DisinheritBy(t) => IsReady(w.k, t)
    case SuspendScheduler => true
    case ResumeScheduler => w.k.depth > 0
    case TickInterrupt => true
    case Switch => w.k.depth > 0 || exists t | t in w.k.generic :: w.k.generic[t].Ready?
  }

  /** One step of the world. The kernel's part of it only reads the kernel's state and wrapped
      times; the rest is bookkeeping the kernel does not have. */
  function Step(w: World, op: Op): World
    requires Drainable(w.k) && SameTasks(w.k) && Enabled(w, op)
  {
    match op
    case CreateTask(t, p) => w.(k := Create(w.k, t, p))
    case DeleteTask(t) => w.(k := Delete(w.k, t), asleep := w.asleep - {t})
    case ReapTask =>
      assert forall t | t in At(w.k, Terminated) :: Holds(w.k, Terminated, t);
      w.(k := Reap(w.k))
    case DelayFor(ticks) =>
      w.(k := Delay(w.k, ticks), deadline := w.deadline[w.k.running := w.now + ticks])
    case DelayTo(previousWake, increment) =>
      var wakeTime := previousWake + increment;
      w.(k := DelayUntil(w.k, Tick(previousWake), increment),
         deadline := if wakeTime > w.now then w.deadline[w.k.running := wakeTime] else w.deadline)
    case WaitFor(queue, ticks) =>
      w.(k := PlaceOnEventList(w.k, queue, ticks),
         deadline := if ticks == MAX_DELAY then w.deadline else w.deadline[w.k.running := w.now + ticks])
    case Signal(queue) =>
      var t := At(w.k, Event(queue))[0];
      assert Holds(w.k, Event(queue), t);
      w.(k := RemoveFromEventList(w.k, queue))
    case SuspendTask(t) => w.(k := Suspend(w.k, t), asleep := w.asleep + {t})
    case ResumeTask(t) =>
      w.(k := Resume(w.k, t), asleep := if t != w.k.running && t !in w.k.event then w.asleep - {t} else w.asleep)
    case ResumeTaskFromISR(t) =>
      w.(k := ResumeFromISR(w.k, t), asleep := if w.k.depth == 0 && t !in w.k.event then w.asleep - {t} else w.asleep)
    case SetPriority(t, p) => w.(k := PrioritySet(w.k, t, p))
    case InheritBy(t) => w.(k := Inherit(w.k, t))
    case DisinheritBy(t) => w.(k := Disinherit(w.k, t))
    case SuspendScheduler => w.(k := SuspendAll(w.k))
    case ResumeScheduler =>
      if w.k.depth > 1 then w.(k := ResumeAll(w.k))
      else w.(k := ResumeAll(w.k), now := w.now + w.k.missed, asleep := w.asleep - (set t | t in At(w.k, Pending)))
    case TickInterrupt =>
      w.(k := IncrementTick(w.k), now := if w.k.depth == 0 then w.now + 1 else w.now, interrupts := w.interrupts + 1)
    case Switch => w.(k := SwitchContext(w.k))
  }

  // ----- going to sleep ----------------------------------------------------------------------

  /** The latest time up to now at which the counter showed v: how vTaskDelayUntil reads a recorded
      wake time. It may lie before the start of time. */
  function LatestAt(now: int, v: nat): (a: int)
    requires v < MODULUS
    ensures a <= now < a + MODULUS && Tick(a) == v
  {
    now - Tick(now - v)
  }

  /** vTaskDelayUntil decides exactly: it sleeps iff the wake time, one increment after the recorded
      time read as the latest one with that counter value, is still to come. */
  lemma DelayUntilDecidesExactly(now: int, previousWake: int, increment: nat)
    requires 0 < increment <= MAX_DELAY && previousWake <= now < previousWake + MODULUS
    ensures ShouldDelay(Tick(now), Tick(previousWake), increment) <==> previousWake + increment > now
    ensures Tick(Tick(previousWake) + increment) == Tick(previousWake + increment)
  {
    WrapSum(previousWake, increment);
    Parts(now);
    Parts(previousWake);
    Parts(previousWake + increment);
    hide Tick, Epoch;
  }

  /** A recorded wake time that is still ahead, because the task was resumed early, is therefore read
      one turn of the counter too early: the task sleeps iff the wake time is more than a turn away. */
  lemma DelayUntilFromAhead(now: int, previousWake: int, increment: nat)
    requires 0 < increment <= MAX_DELAY && now < previousWake <= now + MODULUS
    ensures LatestAt(now, Tick(previousWake)) == previousWake - MODULUS
    ensures ShouldDelay(Tick(now), Tick(previousWake), increment) <==> previousWake + increment > now + MODULUS
  {
    TurnAgo(previousWake);
    LatestIs(now, previousWake - MODULUS);
    hide Tick, LatestAt;
    DelayUntilDecidesExactly(now, previousWake - MODULUS, increment);
  }

  lemma LatestIs(now: int, a: int)
    requires a <= now < a + MODULUS
    ensures LatestAt(now, Tick(a)) == a
  {}

  lemma TurnAgo(a: int)
    ensures Tick(a - MODULUS) == Tick(a)
  {}

  /** Such a call: resumed at tick 160 from a sleep until tick 200, a task that asks to sleep until
      tick 300 does not sleep. */
  lemma DelayUntilFromAheadExample()
    ensures !ShouldDelay(160, 200, 100) && 200 + 100 > 160
  {}

  lemma InsertInOrder(k: State, q: seq<Task>, t: Task, i: nat)
    requires InOrder(k, q) && t in k.wake && k.wake[t] <= MAX_DELAY
    requires forall x | x in q :: x in k.wake && k.wake[x] <= MAX_DELAY
    requires i == InsertPosition(ValuesOf(q, k.wake), k.wake[t])
    ensures i <= |q| && InOrder(k, InsertAt(q, i, t))
    ensures InsertAt(q, i, t)[0] == t || (q != [] && InsertAt(q, i, t)[0] == q[0])
  {
    var values := ValuesOf(q, k.wake);
    InsertKeepsSorted(values, k.wake[t]);
    var r := InsertAt(q, i, t);
    var sorted := InsertAt(values, i, k.wake[t]);
    forall a, b | 0 <= a < b < |r|
      ensures WakeOf(k, r[a]) <= WakeOf(k, r[b])
    {
      assert WakeOf(k, r[a]) == sorted[a];
      assert WakeOf(k, r[b]) == sorted[b];
    }
  }

  /** vListInsert by wake time: the list stays in order and starts with the newcomer or as before. */
  lemma InsertByWakeEffect(k: State, l: ListId, t: Task)
    requires Agreement(k) && t !in k.generic && !l.ForEvents() && InOrder(k, At(k, l))
    requires t in k.wake && k.wake[t] <= MAX_DELAY
    requires forall x | x in At(k, l) :: x in k.wake && k.wake[x] <= MAX_DELAY
    ensures var r := InsertByWake(k, l, t);
            && Agreement(r) && InOrder(k, At(r, l))
            && r == k.(lists := r.lists, generic := k.generic[t := l])
            && (forall m | m != l :: At(r, m) == At(k, m))
            && At(r, l) != [] && (At(r, l)[0] == t || (At(k, l) != [] && At(r, l)[0] == At(k, l)[0]))
  {
    var q := At(k, l);
    var i := InsertPosition(ValuesOf(q, k.wake), k.wake[t]);
    InsertInOrder(k, q, t, i);
    LinkAgrees(k, l, t, i);
    assert At(Link(k, l, t, i), l) == InsertAt(q, i, t);
  }

  /** The wake value of a task in neither delayed list is free to change. */
  lemma SetWakeEffect(k: State, t: Task, v: nat)
    requires Agreement(k) && DelaysOk(k) && t !in k.generic && !k.delayed.ForEvents() && !k.overflow.ForEvents()
    ensures var k1 := k.(wake := k.wake[t := v]);
            && Agreement(k1) && DelaysOk(k1)
            && (forall m :: At(k1, m) == At(k, m))
  {
    var k1 := k.(wake := k.wake[t := v]);
    SameListsAgree(k, k1);
    NotListed(k, k.delayed, t);
    NotListed(k, k.overflow, t);
    assert forall x | x != t :: WakeOf(k1, x) == WakeOf(k, x);
  }

  ghost predicate TwoDelayLists(k: State) {
    k.delayed in {DelayedA, DelayedB} && k.overflow in {DelayedA, DelayedB} && k.delayed != k.overflow
  }

  /** prvAddCurrentTaskToDelayedList keeps both lists in order and the cached time a bound. */
  lemma AddDelayedEffect(k: State, t: Task, v: nat)
    requires Agreement(k) && DelaysOk(k) && t !in k.generic && v <= MAX_DELAY && TwoDelayLists(k)
    requires forall x | x in At(k, k.delayed) || x in At(k, k.overflow) :: x in k.wake && k.wake[x] <= MAX_DELAY
    ensures var r := AddDelayed(k, t, v);
            var l := if v < k.tick then k.overflow else k.delayed;
            && Agreement(r) && DelaysOk(r)
            && r == k.(lists := r.lists, generic := k.generic[t := l], wake := k.wake[t := v],
                       nextUnblock := r.nextUnblock)
            && (forall m | m != l :: At(r, m) == At(k, m))
  {
    hide DelaysOk, Agreement, InsertByWake, At;
    var l := if v < k.tick then k.overflow else k.delayed;
    var k1 := k.(wake := k.wake[t := v]);
    SetWakeEffect(k, t, v);
    InsertByWakeEffect(k1, l, t);
    var k2 := InsertByWake(k1, l, t);
    var r := AddDelayed(k, t, v);
    SameListsAgree(k2, r);
    AfterInsert(k1, r, t, l, v);
  }

  lemma AfterInsert(k1: State, r: State, t: Task, l: ListId, v: nat)
    requires DelaysOk(k1) && InOrder(k1, At(r, l)) && l in {k1.delayed, k1.overflow} && k1.delayed != k1.overflow
    requires t in k1.wake && k1.wake[t] == v
    requires r.wake == k1.wake && r.delayed == k1.delayed && r.overflow == k1.overflow
    requires r.nextUnblock
             == if l == k1.overflow then k1.nextUnblock else if v < k1.nextUnblock then v else k1.nextUnblock
    requires forall m | m != l :: At(r, m) == At(k1, m)
    requires At(r, l) != [] && (At(r, l)[0] == t || (At(k1, l) != [] && At(r, l)[0] == At(k1, l)[0]))
    ensures DelaysOk(r)
  {
    assert forall x :: WakeOf(r, x) == WakeOf(k1, x);
  }

  /** A state whose event item of t may have been linked somewhere, and nothing else changed. */
  ghost predicate SameButEvent(k: State, k0: State, t: Task) {
    && Agreement(k0) && k0 == k.(lists := k0.lists, event := k0.event)
    && (forall m: ListId | !m.ForEvents() :: At(k0, m) == At(k, m))
    && (forall x | x != t :: (x in k0.event <==> x in k.event) && (x in k.event ==> k0.event[x] == k.event[x]))
  }

  /** The generic item of t leaves its ready list. */
  lemma LeaveReady(w: World, k0: State, t: Task)
    requires Core(w, 0) && IsReady(w.k, t) && SameButEvent(w.k, k0, t)
    ensures var k1 := TakeGeneric(k0, t);
            && Agreement(k1) && DelaysOk(k1) && TwoDelayLists(k1) && t !in k1.generic
            && (forall m: ListId | !m.ForEvents() :: At(k1, m) == Without(At(w.k, m), t))
            && (forall m: ListId | !m.ForEvents() && !m.Ready? :: At(k1, m) == At(w.k, m))
            && (forall x | x in At(k1, k1.delayed) || x in At(k1, k1.overflow) ::
                x in k1.wake && k1.wake[x] <= MAX_DELAY)
  {
    hide Core, Agreement, At, DelaysOk, TakeGeneric, Without;
    CoreDelays(w);
    ListedWakes(w);
    LeaveReadyLists(w.k, k0, t);
    TakenFields(k0, t);
    SameDelays(w.k, TakeGeneric(k0, t));
  }

  lemma CoreDelays(w: World)
    requires Core(w, 0)
    ensures Agreement(w.k) && DelaysOk(w.k) && TwoDelayLists(w.k)
  {}

  lemma TakenFields(k: State, t: Task)
    requires t in k.generic
    ensures var r := TakeGeneric(k, t);
            && t !in r.generic && r.wake == k.wake && r.delayed == k.delayed && r.overflow == k.overflow
            && r.nextUnblock == k.nextUnblock
  {
    hide At, Without;
  }

  lemma LeaveReadyLists(k: State, k0: State, t: Task)
    requires Agreement(k) && IsReady(k, t) && SameButEvent(k, k0, t)
    ensures var k1 := TakeGeneric(k0, t);
            && Agreement(k1)
            && (forall m: ListId | !m.ForEvents() :: At(k1, m) == Without(At(k, m), t))
            && (forall m: ListId | !m.ForEvents() && !m.Ready? :: At(k1, m) == At(k, m))
  {
    hide Without;
    TakeGenericAgrees(k0, t);
    forall m: ListId | !m.ForEvents() && !m.Ready?
      ensures At(TakeGeneric(k0, t), m) == At(k, m)
    {
      NotListed(k, m, t);
    }
  }

  lemma ListedWakes(w: World)
    requires Core(w, 0)
    ensures forall x | x in At(w.k, w.k.delayed) || x in At(w.k, w.k.overflow) ::
              x in w.k.wake && w.k.wake[x] <= MAX_DELAY
  {
    forall x | x in At(w.k, w.k.delayed) || x in At(w.k, w.k.overflow)
      ensures x in w.k.wake && w.k.wake[x] <= MAX_DELAY
    {
      assert Holds(w.k, w.k.delayed, x) || Holds(w.k, w.k.overflow, x);
      assert TaskOk(w, 0, x);
    }
  }

  /** The kernel state after the running task t went from its ready list to list l. */
  ghost predicate Blocked(k: State, k1: State, t: Task, l: ListId) {
    && Agreement(k1) && DelaysOk(k1)
    && k1 == k.(lists := k1.lists, generic := k.generic[t := l], event := k1.event, wake := k1.wake,
                nextUnblock := k1.nextUnblock)
    && k1.wake.Keys == k.wake.Keys && (forall x | x != t :: WakeOf(k1, x) == WakeOf(k, x))
    && (forall x | x != t :: (x in k1.event <==> x in k.event) && (x in k.event ==> k1.event[x] == k.event[x]))
    && At(k1, Terminated) == At(k, Terminated)
  }

  lemma BlockedKeepsCore(w: World, w1: World, t: Task, l: ListId)
    requires Core(w, 0) && t in w.k.generic && Blocked(w.k, w1.k, t, l)
    requires w1 == w.(k := w1.k, deadline := w1.deadline) && TaskOk(w1, 0, t)
    requires forall x | x != t && x in w.deadline :: x in w1.deadline && w1.deadline[x] == w.deadline[x]
    ensures Core(w1, 0)
  {
    hide Agreement, DelaysOk, TasksOk, TaskOk;
    BlockedTasks(w, w1, t, l);
    SameKeys(w.k.generic, t, l);
    assert w1.k.event.Keys <= w.k.event.Keys + {t};
  }

  lemma BlockedTasks(w: World, w1: World, t: Task, l: ListId)
    requires TasksOk(w, 0) && Blocked(w.k, w1.k, t, l)
    requires w1 == w.(k := w1.k, deadline := w1.deadline) && t in w1.k.generic && TaskOk(w1, 0, t)
    requires forall x | x != t && x in w.deadline :: x in w1.deadline && w1.deadline[x] == w.deadline[x]
    ensures TasksOk(w1, 0)
  {
    hide Agreement, DelaysOk;
    forall x | x in w1.k.generic && x != t
      ensures TaskOk(w1, 0, x)
    {
      assert TaskOk(w, 0, x);
    }
  }

  /** Sleeping with a deadline less than a full turn of the counter away. */
  lemma SleepBlocks(w: World, k0: State, t: Task, deadline: nat)
    requires Core(w, 0) && IsReady(w.k, t) && SameButEvent(w.k, k0, t) && w.now < deadline < w.now + MODULUS
    ensures var r := AddDelayed(TakeGeneric(k0, t), t, Tick(deadline));
            var l := if Epoch(deadline) == Epoch(w.now) then w.k.delayed else w.k.overflow;
            Blocked(w.k, r, t, l) && WakeOf(r, t) == Tick(deadline) && r.event == k0.event
  {
    hide Agreement, DelaysOk, AddDelayed, TasksOk, SameTasks;
    LeaveReady(w, k0, t);
    var k1 := TakeGeneric(k0, t);
    AddDelayedEffect(k1, t, Tick(deadline));
    DeadlineEpoch(w.now, deadline);
    PutBack(w.k.generic, t, if Epoch(deadline) == Epoch(w.now) then w.k.delayed else w.k.overflow);
    WakeKeys(w.k.wake, t, Tick(deadline));
  }

  lemma WakeKeys(wake: map<Task, nat>, t: Task, v: nat)
    requires t in wake
    ensures wake[t := v].Keys == wake.Keys
  {}

  lemma SleepKeepsCore(w: World, k0: State, t: Task, deadline: nat)
    requires Core(w, 0) && IsReady(w.k, t) && SameButEvent(w.k, k0, t) && w.now < deadline < w.now + MODULUS
    ensures Core(w.(k := AddDelayed(TakeGeneric(k0, t), t, Tick(deadline)), deadline := w.deadline[t := deadline]), 0)
  {
    hide Agreement, DelaysOk, AddDelayed, SameTasks, At;
    SleepBlocks(w, k0, t, deadline);
    DeadlineEpoch(w.now, deadline);
    assert TaskOk(w, 0, t);
    var w1 := w.(k := AddDelayed(TakeGeneric(k0, t), t, Tick(deadline)), deadline := w.deadline[t := deadline]);
    BlockedKeepsCore(w, w1, t, if Epoch(deadline) == Epoch(w.now) then w.k.delayed else w.k.overflow);
  }

  /** Waiting without a time limit: the generic item goes to the suspended list. */
  lemma ParkBlocks(w: World, k0: State, t: Task)
    requires Core(w, 0) && IsReady(w.k, t) && SameButEvent(w.k, k0, t)
    ensures var r := Append(TakeGeneric(k0, t), Suspended, t);
            Blocked(w.k, r, t, Suspended) && r.event == k0.event
  {
    hide Agreement, DelaysOk, Append, TasksOk, Core, At, Without;
    LeaveReady(w, k0, t);
    var k1 := TakeGeneric(k0, t);
    AppendEffect(k1, Suspended, t);
    PutBack(w.k.generic, t, Suspended);
    SameDelays(k1, Append(k1, Suspended, t));
  }

  lemma ParkKeepsCore(w: World, k0: State, t: Task)
    requires Core(w, 0) && IsReady(w.k, t) && SameButEvent(w.k, k0, t) && t in k0.event
    ensures Core(w.(k := Append(TakeGeneric(k0, t), Suspended, t)), 0)
  {
    hide Agreement, DelaysOk, SameTasks;
    ParkBlocks(w, k0, t);
    assert TaskOk(w, 0, t);
    var w1 := w.(k := Append(TakeGeneric(k0, t), Suspended, t));
    BlockedKeepsCore(w, w1, t, Suspended);
  }

  lemma InsertByRankEffect(w: World, queue: nat)
    requires Inv(w) && IsReady(w.k, w.k.running)
    ensures w.k.running in w.k.rank
    ensures var k0 := InsertByRank(w.k, Event(queue), w.k.running);
            SameButEvent(w.k, k0, w.k.running) && k0.event == w.k.event[w.k.running := Event(queue)]
  {
    hide Core, Agreement, TaskOk, Link;
    Facts(w, w.k.running);
    ReadyIsUnlisted(w, w.k.running);
    var k := w.k;
    var i := InsertPosition(ValuesOf(At(k, Event(queue)), k.rank), k.rank[k.running]);
    LinkAgrees(k, Event(queue), k.running, i);
    LinkedEvent(k, queue, k.running, i);
  }

  lemma ReadyIsUnlisted(w: World, t: Task)
    requires Inv(w) && IsReady(w.k, t)
    ensures t !in w.k.event && t in w.k.rank
  {
    assert TaskOk(w, 0, t);
  }

  /** Linking an event item touches no generic item. */
  lemma LinkedEvent(k: State, queue: nat, t: Task, i: nat)
    requires i <= |At(k, Event(queue))|
    ensures var r := Link(k, Event(queue), t, i);
            && r == k.(lists := r.lists, event := k.event[t := Event(queue)])
            && forall m: ListId | !m.ForEvents() :: At(r, m) == At(k, m)
  {
    hide InsertAt;
  }

  // ----- each operation keeps the invariant ---------------------------------------------------

  /** Operations that leave the counters of time and of suspension alone. */
  lemma InvFromCore(w: World, w1: World)
    requires Inv(w) && Core(w1, 0) && w1.interrupts == w.interrupts
    requires w1.k.tick == w.k.tick && w1.k.missed == w.k.missed && w1.k.depth == w.k.depth && w1.k.taskCount > 0
    requires w.k.depth == 0 ==> At(w1.k, Pending) == []
    ensures Inv(w1)
  {
    hide Core;
  }

  lemma MovedKeepsInv(w: World, w1: World, t: Task, l: ListId)
    requires Inv(w) && t in w.k.generic
    requires Moved(w.k, w1.k, t, l) && l != DelayedA && l != DelayedB && !l.ForEvents()
    requires w1.now == w.now && w1.deadline == w.deadline && w1.interrupts == w.interrupts
    requires w1.asleep - {t} == w.asleep - {t} && TaskOk(w1, 0, t)
    requires w1.k.deleted == |At(w1.k, Terminated)|
    ensures Inv(w1)
  {
    hide Core;
    MovedKeepsCore(w, w1, 0, t, l);
    InvFromCore(w, w1);
  }

  lemma RelocateMoves(k: State, t: Task, l: ListId)
    requires Drainable(k) && SameTasks(k) && t in k.generic && !l.ForEvents()
    ensures Moved(k, Relocate(k, t, l), t, l)
    ensures var r := Relocate(k, t, l); r == k.(lists := r.lists, generic := r.generic, event := r.event)
  {
    RelocateEffect(k, t, l);
  }

  /** What the operations' proofs need of the invariant, about the task they touch. */
  lemma Facts(w: World, t: Task)
    requires Inv(w) && t in w.k.generic
    ensures Core(w, 0) && Drainable(w.k) && SameTasks(w.k) && Agreement(w.k) && TaskOk(w, 0, t)
    ensures w.k.deleted == |At(w.k, Terminated)| && w.k.tick == Tick(w.now)
    ensures w.k.generic[t] != Terminated ==> t !in At(w.k, Terminated)
  {
    if w.k.generic[t] != Terminated {
      NotListed(w.k, Terminated, t);
    }
  }

  lemma DeleteKeeps(w: World, t: Task)
    requires Inv(w) && Enabled(w, DeleteTask(t))
    ensures Inv(Step(w, DeleteTask(t)))
  {
    hide Inv, Core, Drainable, SameTasks, Agreement, Relocate;
    Facts(w, t);
    var w1 := Step(w, DeleteTask(t));
    DeleteMoves(w.k, t);
    MovedKeepsInv(w, w1, t, Terminated);
  }

  lemma DeleteMoves(k: State, t: Task)
    requires Drainable(k) && SameTasks(k) && t in k.generic
    ensures Moved(k, Delete(k, t), t, Terminated)
    ensures var r := Delete(k, t);
            r == k.(lists := r.lists, generic := r.generic, event := r.event, deleted := k.deleted + 1)
  {
    RelocateMoves(k, t, Terminated);
    SameListsAgree(Relocate(k, t, Terminated), Delete(k, t));
  }

  lemma SuspendKeeps(w: World, t: Task)
    requires Inv(w) && Enabled(w, SuspendTask(t))
    ensures Inv(Step(w, SuspendTask(t)))
  {
    hide Inv, Core, Drainable, SameTasks, Agreement, Relocate;
    Facts(w, t);
    var w1 := Step(w, SuspendTask(t));
    RelocateMoves(w.k, t, Suspended);
    MovedKeepsInv(w, w1, t, Suspended);
  }

  /** A task with no event item linked becomes ready by its generic item alone. */
  lemma GenericAlone(k: State, t: Task)
    requires Drainable(k) && SameTasks(k) && t in k.generic && t !in k.event
    ensures AddReady(TakeGeneric(k, t), t) == MakeReady(k, t)
    ensures Moved(k, MakeReady(k, t), t, Ready(k.priority[t]))
  {
    MakeReadyMoves(k, t);
  }

  lemma ReadiedKeepsInv(w: World, w1: World, t: Task)
    requires Inv(w) && t in w.k.generic && w.k.generic[t] != Terminated && t in w.k.priority
    requires w1 == w.(k := MakeReady(w.k, t), asleep := w.asleep - {t})
    ensures Inv(w1)
  {
    hide Inv, Core, Drainable, SameTasks, Agreement, MakeReady;
    Facts(w, t);
    MakeReadyMoves(w.k, t);
    MovedKeepsInv(w, w1, t, Ready(w.k.priority[t]));
  }

  lemma ResumeKeeps(w: World, t: Task)
    requires Inv(w) && Enabled(w, ResumeTask(t))
    ensures Inv(Step(w, ResumeTask(t)))
  {
    hide Agreement, AddReady, TakeGeneric;
    SuspendedExactly(w, t);
    assert TaskOk(w, 0, t);
    if t != w.k.running && IsTaskSuspended(w.k, t) {
      GenericAlone(w.k, t);
      ReadiedKeepsInv(w, Step(w, ResumeTask(t)), t);
    } else {
      assert Step(w, ResumeTask(t)).asleep == w.asleep;
    }
  }

  /** xTaskIsTaskSuspended is true exactly of the explicitly suspended tasks without a pending
      resume, although the suspended list also holds tasks that wait for an event for ever. */
  lemma SuspendedExactly(w: World, t: Task)
    requires Core(w, 0) && t in w.k.generic
    ensures IsTaskSuspended(w.k, t) <==> t in w.asleep && !(t in w.k.event && w.k.event[t] == Pending)
  {
    assert TaskOk(w, 0, t);
  }

  lemma ResumeFromISRKeeps(w: World, t: Task)
    requires Inv(w) && Enabled(w, ResumeTaskFromISR(t))
    ensures Inv(Step(w, ResumeTaskFromISR(t)))
  {
    hide DelaysOk, At, NoDup, Sleeping;
    var w1 := Step(w, ResumeTaskFromISR(t));
    SuspendedExactly(w, t);
    assert TaskOk(w, 0, t);
    if !IsTaskSuspended(w.k, t) {
      assert w1.asleep == w.asleep;
    } else if w.k.depth == 0 {
      GenericAlone(w.k, t);
      ReadiedKeepsInv(w, w1, t);
    } else {
      AppendEffect(w.k, Pending, t);
      EventMovedKeepsInv(w, w1, t);
    }
  }

  /** Only the event item of t moved, to the pending list. */
  lemma EventMovedKeepsInv(w: World, w1: World, t: Task)
    requires Inv(w) && w.k.depth > 0 && t in w.k.generic
    requires w1 == w.(k := w.k.(lists := w1.k.lists, event := w.k.event[t := Pending])) && Agreement(w1.k)
    requires forall m: ListId | !m.ForEvents() :: At(w1.k, m) == At(w.k, m)
    requires TaskOk(w1, 0, t)
    ensures Inv(w1)
  {
    hide Agreement, TasksOk, TaskOk, DelaysOk;
    EventMovedTasks(w, w1, t);
    SameDelays(w.k, w1.k);
  }

  lemma EventMovedTasks(w: World, w1: World, t: Task)
    requires TasksOk(w, 0) && t in w.k.generic && t in w1.k.generic && TaskOk(w1, 0, t)
    requires w1 == w.(k := w.k.(lists := w1.k.lists, event := w.k.event[t := Pending]))
    ensures TasksOk(w1, 0)
  {
    forall x | x in w1.k.generic && x != t
      ensures TaskOk(w1, 0, x)
    {
      assert TaskOk(w, 0, x);
    }
  }

  lemma SignalKeeps(w: World, queue: nat)
    requires Inv(w) && Enabled(w, Signal(queue))
    ensures Inv(Step(w, Signal(queue)))
  {
    hide Inv, Core, Drainable, SameTasks, Agreement, DelaysOk, TakeEvent, MakeReady, Append;
    Prepared(w);
    var w1 := Step(w, Signal(queue));
    var t := At(w.k, Event(queue))[0];
    Waiting(w, queue);
    if w.k.depth == 0 {
      NotMember(w.asleep, t);
      ReadiedKeepsInv(w, w1, t);
    } else {
      ToPending(w.k, t);
      EventMovedKeepsInv(w, w1, t);
    }
  }

  /** A ready task is in the ready list of its priority. */
  lemma InItsReadyList(w: World, t: Task)
    requires Inv(w) && t in w.k.generic
    ensures t in w.k.priority && w.k.priority[t] < MAX_PRIORITIES
    ensures IsReady(w.k, t) ==> w.k.generic[t] == Ready(w.k.priority[t])
  {
    assert TaskOk(w, 0, t);
  }

  /** The first waiter of an event list. */
  lemma Waiting(w: World, queue: nat)
    requires Core(w, 0) && At(w.k, Event(queue)) != []
    ensures var t := At(w.k, Event(queue))[0];
            && t in w.k.generic && t in w.k.priority && w.k.generic[t] != Terminated && t !in w.asleep
            && t in w.k.event && Agreement(w.k) && TaskOk(w, 0, t)
  {
    var t := At(w.k, Event(queue))[0];
    assert Holds(w.k, Event(queue), t);
    assert TaskOk(w, 0, t);
  }

  /** The event item goes from its event list to the pending list. */
  lemma ToPending(k: State, t: Task)
    requires Agreement(k)
    ensures var r := Append(TakeEvent(k, t), Pending, t);
            && Agreement(r) && r == k.(lists := r.lists, event := k.event[t := Pending])
            && (forall m: ListId | !m.ForEvents() :: At(r, m) == At(k, m))
  {
    TakeEventAgrees(k, t);
    AppendEffect(TakeEvent(k, t), Pending, t);
    PutBack(k.event, t, Pending);
  }

  lemma SleepKeepsInv(w: World, k0: State, t: Task, deadline: nat)
    requires Inv(w) && w.k.depth > 0 && IsReady(w.k, t) && SameButEvent(w.k, k0, t)
    requires w.now < deadline < w.now + MODULUS
    ensures Inv(w.(k := AddDelayed(TakeGeneric(k0, t), t, Tick(deadline)), deadline := w.deadline[t := deadline]))
  {
    SleepKeepsCore(w, k0, t, deadline);
    SleepBlocks(w, k0, t, deadline);
    InvFromCore(w, w.(k := AddDelayed(TakeGeneric(k0, t), t, Tick(deadline)), deadline := w.deadline[t := deadline]));
  }

  lemma Prepared(w: World)
    requires Inv(w)
    ensures Core(w, 0) && Drainable(w.k) && SameTasks(w.k) && w.k.tick == Tick(w.now)
    ensures SameButEvent(w.k, w.k, w.k.running)
    ensures w.k.depth == 0 ==> At(w.k, Pending) == []
  {}

  lemma DelayForKeeps(w: World, ticks: nat)
    requires Inv(w) && Enabled(w, DelayFor(ticks))
    ensures Inv(Step(w, DelayFor(ticks)))
  {
    hide Inv, Drainable, SameTasks, SameButEvent, AddDelayed, TakeGeneric, Step;
    Prepared(w);
    DelayForIs(w, ticks);
    SleepKeepsInv(w, w.k, w.k.running, w.now + ticks);
  }

  lemma DelayForIs(w: World, ticks: nat)
    requires Drainable(w.k) && SameTasks(w.k) && w.k.tick == Tick(w.now) && Enabled(w, DelayFor(ticks))
    ensures var t := w.k.running;
            Step(w, DelayFor(ticks)) ==
            w.(k := AddDelayed(TakeGeneric(w.k, t), t, Tick(w.now + ticks)), deadline := w.deadline[t := w.now + ticks])
  {
    hide Drainable, SameTasks, AddDelayed, TakeGeneric;
    WrapSum(w.now, ticks);
  }

  lemma DelayToKeeps(w: World, previousWake: int, increment: nat)
    requires Inv(w) && Enabled(w, DelayTo(previousWake, increment))
    ensures Inv(Step(w, DelayTo(previousWake, increment)))
  {
    hide Inv, Drainable, SameTasks, SameButEvent, AddDelayed, TakeGeneric, Step;
    Prepared(w);
    DelayToIs(w, previousWake, increment);
    if previousWake + increment > w.now {
      SleepKeepsInv(w, w.k, w.k.running, previousWake + increment);
    }
  }

  lemma DelayToIs(w: World, previousWake: int, increment: nat)
    requires Drainable(w.k) && SameTasks(w.k) && w.k.tick == Tick(w.now) && Enabled(w, DelayTo(previousWake, increment))
    ensures var t := w.k.running;
            var deadline := previousWake + increment;
            Step(w, DelayTo(previousWake, increment)) ==
            if deadline > w.now then
              w.(k := AddDelayed(TakeGeneric(w.k, t), t, Tick(deadline)), deadline := w.deadline[t := deadline])
            else w
  {
    hide Agreement, AddDelayed, TakeGeneric;
    DelayUntilDecidesExactly(w.now, previousWake, increment);
  }

  lemma WaitForKeeps(w: World, queue: nat, ticks: nat)
    requires Inv(w) && Enabled(w, WaitFor(queue, ticks))
    ensures Inv(Step(w, WaitFor(queue, ticks)))
  {
    hide Inv, Drainable, SameTasks, SameButEvent, AddDelayed, TakeGeneric, Step, InsertByRank, Append;
    Prepared(w);
    InsertByRankEffect(w, queue);
    var k0 := InsertByRank(w.k, Event(queue), w.k.running);
    WaitForIs(w, queue, ticks);
    if ticks == MAX_DELAY {
      ParkKeepsInv(w, k0, w.k.running);
    } else {
      SleepKeepsInv(w, k0, w.k.running, w.now + ticks);
    }
  }

  lemma ParkKeepsInv(w: World, k0: State, t: Task)
    requires Inv(w) && w.k.depth > 0 && IsReady(w.k, t) && SameButEvent(w.k, k0, t) && t in k0.event
    ensures Inv(w.(k := Append(TakeGeneric(k0, t), Suspended, t)))
  {
    ParkKeepsCore(w, k0, t);
    ParkBlocks(w, k0, t);
    InvFromCore(w, w.(k := Append(TakeGeneric(k0, t), Suspended, t)));
  }

  lemma WaitForIs(w: World, queue: nat, ticks: nat)
    requires Drainable(w.k) && SameTasks(w.k) && w.k.tick == Tick(w.now) && Enabled(w, WaitFor(queue, ticks))
    ensures var t := w.k.running;
            t in w.k.rank && t in InsertByRank(w.k, Event(queue), t).generic
            && var k0 := TakeGeneric(InsertByRank(w.k, Event(queue), t), t);
            Step(w, WaitFor(queue, ticks)) ==
            if ticks == MAX_DELAY then w.(k := Append(k0, Suspended, t))
            else w.(k := AddDelayed(k0, t, Tick(w.now + ticks)), deadline := w.deadline[t := w.now + ticks])
  {
    hide Drainable, SameTasks, AddDelayed, Append, TakeGeneric, InsertByRank;
    WrapSum(w.now, ticks);
    KeyFacts(w.k, w.k.running);
    RankKeepsGeneric(w.k, Event(queue), w.k.running);
  }

  lemma KeyFacts(k: State, t: Task)
    requires SameTasks(k) && t in k.generic
    ensures t in k.priority && t in k.basePriority && t in k.rank
  {}

  /** vTaskPlaceOnEventList queues the running task behind all waiters that are at least as urgent: an
      event list in order of priority stays so, and its first task is the most urgent one. */
  lemma WaitersByPriority(k: State, queue: nat, ticks: nat)
    requires Drainable(k) && k.running in k.generic && k.running in k.rank && k.rank[k.running] <= MAX_DELAY
    requires var q := At(k, Event(queue)); forall i | 0 <= i < |q| :: q[i] in k.rank && k.rank[q[i]] <= MAX_DELAY
    requires Sorted(ValuesOf(At(k, Event(queue)), k.rank))
    ensures var q := At(k, Event(queue));
            var i := InsertPosition(ValuesOf(q, k.rank), k.rank[k.running]);
            var q1 := At(PlaceOnEventList(k, queue, ticks), Event(queue));
            && q1 == InsertAt(q, i, k.running)
            && Sorted(ValuesOf(q1, k.rank))
            && forall j | 0 <= j < |q| :: k.rank[q[j]] <= k.rank[k.running] <==> j < i
  {
    var q := At(k, Event(queue));
    var values := ValuesOf(q, k.rank);
    var i := InsertPosition(values, k.rank[k.running]);
    InsertKeepsSorted(values, k.rank[k.running]);
    assert ValuesOf(InsertAt(q, i, k.running), k.rank) == InsertAt(values, i, k.rank[k.running]);
    EventListAfterPlacing(k, queue, ticks, queue);
    InsertedAt(k, Event(queue));
    hide PlaceOnEventList, InsertByRank, InsertPosition, InsertAt;
    assert forall j | 0 <= j < |q| :: values[j] == k.rank[q[j]];
  }

  lemma InsertedAt(k: State, l: ListId)
    requires k.running in k.rank
    ensures At(InsertByRank(k, l, k.running), l)
            == InsertAt(At(k, l), InsertPosition(ValuesOf(At(k, l), k.rank), k.rank[k.running]), k.running)
  {}

  lemma RankKeepsGeneric(k: State, l: ListId, t: Task)
    requires t in k.rank && l.ForEvents()
    ensures var r := InsertByRank(k, l, t);
            r.generic == k.generic && r.delayed == k.delayed && r.overflow == k.overflow
  {}

  lemma TakingKeepsEventLists(k: State, t: Task, queue: nat)
    requires t in k.generic && !k.generic[t].ForEvents()
    ensures var r := TakeGeneric(k, t);
            At(r, Event(queue)) == At(k, Event(queue)) && r.delayed == k.delayed && r.overflow == k.overflow
  {}

  lemma ParkingKeepsEventLists(k: State, t: Task, queue: nat)
    ensures At(Append(k, Suspended, t), Event(queue)) == At(k, Event(queue))
  {}

  lemma EventListAfterPlacing(k: State, queue: nat, ticks: nat, other: nat)
    requires Drainable(k) && k.running in k.generic && k.running in k.rank
    ensures At(PlaceOnEventList(k, queue, ticks), Event(other))
            == At(InsertByRank(k, Event(queue), k.running), Event(other))
  {
    hide Agreement, InsertByRank, TakeGeneric, At, Append, AddDelayed;
    ContainerKind(k, k.running);
    var k0 := InsertByRank(k, Event(queue), k.running);
    RankKeepsGeneric(k, Event(queue), k.running);
    var k1 := TakeGeneric(k0, k.running);
    TakingKeepsEventLists(k0, k.running, other);
    ParkingKeepsEventLists(k1, k.running, other);
    if ticks != MAX_DELAY {
      DelayingKeepsEventLists(k1, k.running, Tick(k.tick + ticks), other);
    }
  }

  lemma ContainerKind(k: State, t: Task)
    requires Agreement(k) && t in k.generic
    ensures !k.generic[t].ForEvents()
  {}

  lemma DelayingKeepsEventLists(k: State, t: Task, v: nat, queue: nat)
    requires k.delayed in {DelayedA, DelayedB} && k.overflow in {DelayedA, DelayedB}
    ensures At(AddDelayed(k, t, v), Event(queue)) == At(k, Event(queue))
  {
    var k1 := k.(wake := k.wake[t := v]);
    assert At(k1, Event(queue)) == At(k, Event(queue));
    LinkingKeepsEventLists(k1, k.overflow, t, queue);
    LinkingKeepsEventLists(k1, k.delayed, t, queue);
    hide InsertByWake;
  }

  lemma LinkingKeepsEventLists(k: State, l: ListId, t: Task, queue: nat)
    requires t in k.wake && l in {DelayedA, DelayedB}
    ensures At(InsertByWake(k, l, t), Event(queue)) == At(k, Event(queue))
  {
    hide InsertAt, InsertPosition, ValuesOf;
  }

  // ----- priorities ---------------------------------------------------------------------------

  /** The state before a change of t's priority takes effect on its list. */
  ghost predicate Reprioritised(k: State, k1: State, t: Task) {
    && k1 == k.(priority := k1.priority, basePriority := k1.basePriority, rank := k1.rank)
    && k1.priority.Keys == k.priority.Keys && k1.basePriority.Keys == k.basePriority.Keys && k1.rank.Keys == k.rank.Keys
    && (forall x | x in k.priority && x != t :: k1.priority[x] == k.priority[x])
    && (forall x | x in k1.basePriority :: k1.basePriority[x] < MAX_PRIORITIES)
    && (forall x | x in k1.rank :: k1.rank[x] <= MAX_PRIORITIES)
  }

  lemma ReprioritisedDrainable(k: State, k1: State, t: Task)
    requires Drainable(k) && SameTasks(k) && Reprioritised(k, k1, t)
    ensures Drainable(k1) && SameTasks(k1) && forall m :: At(k1, m) == At(k, m)
  {
    SameListsAgree(k, k1);
  }

  /** A task that stays where it is. */
  lemma RelabelledKeepsInv(w: World, w1: World, t: Task)
    requires Inv(w) && t in w.k.generic && Reprioritised(w.k, w1.k, t) && w1 == w.(k := w1.k) && TaskOk(w1, 0, t)
    ensures Inv(w1)
  {
    hide Drainable, SameTasks, DelaysOk, At, TaskOk;
    ReprioritisedDrainable(w.k, w1.k, t);
    forall x | x in w1.k.generic && x != t
      ensures TaskOk(w1, 0, x)
    {
      assert TaskOk(w, 0, x);
      OtherTask(w, w1, t, x);
    }
    SameDelays(w.k, w1.k);
  }

  lemma OtherTask(w: World, w1: World, t: Task, x: Task)
    requires x in w.k.generic && TaskOk(w, 0, x) && x != t && Reprioritised(w.k, w1.k, t) && w1 == w.(k := w1.k)
    ensures TaskOk(w1, 0, x)
  {
  }

  /** A ready task that changes its ready list. */
  lemma RequeuedKeepsInv(w: World, w1: World, k1: State, t: Task)
    requires Inv(w) && IsReady(w.k, t) && Reprioritised(w.k, k1, t) && t in k1.priority
             && k1.priority[t] < MAX_PRIORITIES
    requires w1 == w.(k := AddReady(TakeGeneric(k1, t), t))
    ensures Inv(w1)
  {
    hide Inv, Core, Drainable, SameTasks, AddReady, TakeGeneric, Agreement, At, Moved, Sleeping;
    Facts(w, t);
    ReprioritisedDrainable(w.k, k1, t);
    GenericAlone(k1, t);
    MakeReadyMoves(k1, t);
    MovedFrom(w.k, k1, w1.k, t, Ready(k1.priority[t]));
    MovedKeepsInv(w, w1, t, Ready(k1.priority[t]));
  }

  lemma MovedFrom(k: State, k1: State, k2: State, t: Task, l: ListId)
    requires Reprioritised(k, k1, t) && Moved(k1, k2, t, l) && forall m :: At(k1, m) == At(k, m)
    ensures Moved(k, k2, t, l)
            && At(k2, Terminated)
               == if l == Terminated then Without(At(k, l), t) + [t] else Without(At(k, Terminated), t)
  {
    hide Drainable, SameTasks, At, Without;
  }

  lemma ReprioritisedBy(k: State, t: Task, p: nat, b: nat, r: nat)
    requires SameTasks(k) && t in k.generic && b < MAX_PRIORITIES && r <= MAX_PRIORITIES
    ensures Reprioritised(k, k.(priority := k.priority[t := p], basePriority := k.basePriority[t := b],
                                rank := k.rank[t := r]), t)
    ensures k.priority[t := k.priority[t]] == k.priority && k.basePriority[t := k.basePriority[t]] == k.basePriority
  {}

  /** A task whose priorities change, in its ready list or elsewhere. */
  lemma ChangedKeepsInv(w: World, w1: World, k1: State, t: Task, moves: bool)
    requires Inv(w) && t in w.k.generic && Reprioritised(w.k, k1, t)
    requires t in k1.priority && k1.priority[t] < MAX_PRIORITIES && t in w.k.priority
    requires IsReady(w.k, t) || !moves
    requires IsReady(w.k, t) && !moves ==> k1.priority[t] == w.k.priority[t]
    requires w1 == w.(k := if moves then AddReady(TakeGeneric(k1, t), t) else k1)
    ensures Inv(w1)
  {
    hide Inv, Core, Drainable, SameTasks, AddReady, TakeGeneric, Agreement, Reprioritised, At, TaskOk, Sleeping;
    if moves {
      RequeuedKeepsInv(w, w1, k1, t);
    } else {
      Facts(w, t);
      RelabelledTask(w, w1, t);
      RelabelledKeepsInv(w, w1, t);
    }
  }

  lemma SetPriorityKeeps(w: World, t: Task, requested: nat)
    requires Inv(w) && Enabled(w, SetPriority(t, requested))
    ensures Inv(Step(w, SetPriority(t, requested)))
  {
    hide Inv, Core, Drainable, SameTasks, AddReady, TakeGeneric, Reprioritised, PrioritySet, Step, SameButEvent;
    Prepared(w);
    KeyFacts(w.k, t);
    InItsReadyList(w, t);
    SetPriorityStep(w, t, requested);
    hide Enabled;
    var k := w.k;
    var p := ClipPriority(requested);
    var q := if k.basePriority[t] == k.priority[t] then p else k.priority[t];
    var k1 := k.(priority := k.priority[t := q], basePriority := k.basePriority[t := p],
                 rank := k.rank[t := MAX_PRIORITIES - p]);
    ReprioritisedBy(k, t, q, p, MAX_PRIORITIES - p);
    SetPriorityIs(k, k1, t, requested);
    if k.basePriority[t] != p {
      ChangedKeepsInv(w, Step(w, SetPriority(t, requested)), k1, t, k.generic[t] == Ready(k.basePriority[t]));
    }
  }

  lemma SetPriorityStep(w: World, t: Task, requested: nat)
    requires Drainable(w.k) && SameTasks(w.k) && Enabled(w, SetPriority(t, requested))
    ensures t in w.k.priority && t in w.k.basePriority
    ensures Step(w, SetPriority(t, requested)) == w.(k := PrioritySet(w.k, t, requested))
  {
    hide Drainable, PrioritySet;
  }

  /** A task whose priorities change where it is. */
  lemma RelabelledTask(w: World, w1: World, t: Task)
    requires t in w.k.generic && TaskOk(w, 0, t) && Reprioritised(w.k, w1.k, t) && w1 == w.(k := w1.k)
    requires t in w1.k.priority && w1.k.priority[t] < MAX_PRIORITIES
    requires IsReady(w.k, t) ==> w1.k.priority[t] == w.k.priority[t]
    ensures TaskOk(w1, 0, t)
  {}

  lemma SetPriorityIs(k: State, k1: State, t: Task, requested: nat)
    requires t in k.generic && t in k.priority && t in k.basePriority
    requires var p := ClipPriority(requested);
             var q := if k.basePriority[t] == k.priority[t] then p else k.priority[t];
             k1 == k.(priority := k.priority[t := q], basePriority := k.basePriority[t := p],
                      rank := k.rank[t := MAX_PRIORITIES - p])
    ensures t in k1.priority
    ensures PrioritySet(k, t, requested) ==
            if k.basePriority[t] == ClipPriority(requested) then k
            else if k.generic[t] == Ready(k.basePriority[t]) then AddReady(TakeGeneric(k1, t), t)
            else k1
  {
    hide AddReady, TakeGeneric;
    assert k.priority == k.priority[t := k.priority[t]];
  }

  lemma InheritKeeps(w: World, t: Task)
    requires Inv(w) && Enabled(w, InheritBy(t))
    ensures Inv(Step(w, InheritBy(t)))
  {
    hide Inv, Core, Drainable, AddReady, TakeGeneric, Agreement, Reprioritised;
    Facts(w, t);
    Facts(w, w.k.running);
    var w1 := Step(w, InheritBy(t));
    var k := w.k;
    var p := k.priority[k.running];
    var k1 := k.(rank := k.rank[t := MAX_PRIORITIES - p], priority := k.priority[t := p]);
    ReprioritisedBy(k, t, p, k.basePriority[t], MAX_PRIORITIES - p);
    if k.priority[t] < p {
      if k.generic[t] == Ready(k.priority[t]) {
        RequeuedKeepsInv(w, w1, k1, t);
      } else {
        RelabelledKeepsInv(w, w1, t);
      }
    }
  }

  lemma DisinheritKeeps(w: World, t: Task)
    requires Inv(w) && Enabled(w, DisinheritBy(t))
    ensures Inv(Step(w, DisinheritBy(t)))
  {
    hide Inv, Core, Drainable, AddReady, TakeGeneric, Disinherit, Agreement, Reprioritised, At, TaskOk;
    Facts(w, t);
    var w1 := Step(w, DisinheritBy(t));
    var k := w.k;
    var p := k.basePriority[t];
    var k1 := k.(rank := k.rank[t := MAX_PRIORITIES - p], priority := k.priority[t := p]);
    ReprioritisedBy(k, t, p, p, MAX_PRIORITIES - p);
    DisinheritedState(k, k1, t);
    if k.priority[t] != p {
      RequeuedKeepsInv(w, w1, k1, t);
    }
  }

  lemma DisinheritedState(k: State, k1: State, t: Task)
    requires t in k.generic && t in k.priority && t in k.basePriority && k.basePriority[t] < MAX_PRIORITIES
    requires k1 == k.(rank := k.rank[t := MAX_PRIORITIES - k.basePriority[t]],
                      priority := k.priority[t := k.basePriority[t]])
    ensures Disinherit(k, t) == if k.priority[t] == k.basePriority[t] then k else AddReady(TakeGeneric(k1, t), t)
  {
    hide TakeGeneric, AddReady;
    TakingIsElsewhere(k, k1, t);
  }

  lemma TakingIsElsewhere(k: State, k1: State, t: Task)
    requires t in k.generic && k1 == k.(rank := k1.rank, priority := k1.priority)
    ensures TakeGeneric(k1, t) == TakeGeneric(k, t).(rank := k1.rank, priority := k1.priority)
  {
    hide Without;
  }

  // ----- the scheduler ------------------------------------------------------------------------

  lemma SuspendSchedulerKeeps(w: World)
    requires Inv(w)
    ensures Inv(Step(w, SuspendScheduler))
  {
    hide Inv, Core, Drainable, SameTasks, At;
    Prepared(w);
    DepthKeepsCore(w, Step(w, SuspendScheduler));
    NestedInv(w, Step(w, SuspendScheduler));
  }

  /** While the scheduler is suspended ticks may be missed and tasks be pending. */
  lemma NestedInv(w: World, w1: World)
    requires Inv(w) && Core(w1, 0) && w1.interrupts == w.interrupts
    requires w1.k.tick == w.k.tick && w1.k.missed == w.k.missed && w1.k.taskCount == w.k.taskCount && w1.k.depth > 0
    ensures Inv(w1)
  {
    hide Core;
  }

  lemma TickKeeps(w: World)
    requires Inv(w)
    ensures Inv(Step(w, TickInterrupt))
  {
    hide Inv, Drainable, SameTasks, IncrementTick;
    Prepared(w);
    if w.k.depth == 0 {
      ProcessedTick(w);
    } else {
      DeferredTick(w);
    }
  }

  lemma ProcessedTick(w: World)
    requires Inv(w) && w.k.depth == 0
    ensures Inv(w.(k := IncrementTick(w.k), now := w.now + 1, interrupts := w.interrupts + 1))
  {
    hide Inv, Core, Drainable, SameTasks, At, IncrementTick;
    Prepared(w);
    SomeTasks(w);
    TickKeepsCore(w);
    IncrementTickDrainable(w.k);
    TickedIs(w);
    var w1 := w.(k := IncrementTick(w.k), now := w.now + 1, interrupts := w.interrupts + 1);
    assert w1 == Ticked(w).(interrupts := w.interrupts + 1);
    InterruptsDoNotMatter(Ticked(w), w1);
    TickedInv(w, w1);
  }

  lemma TickedInv(w: World, w1: World)
    requires Inv(w) && w.k.depth == 0 && Core(w1, 0) && w1.interrupts == w.interrupts + 1
    requires w1.k.tick == Tick(w.k.tick + 1) && w1.k.missed == w.k.missed && w1.k.taskCount > 0
             && At(w1.k, Pending) == []
    ensures Inv(w1)
  {
    hide Core;
    NextTick(w.interrupts);
  }

  lemma DeferredTick(w: World)
    requires Inv(w) && w.k.depth > 0
    ensures Drainable(w.k) && Inv(w.(k := IncrementTick(w.k), interrupts := w.interrupts + 1))
  {
    hide Core, Drainable, Tick, SameButEvent;
    Prepared(w);
    var w1 := w.(k := IncrementTick(w.k), interrupts := w.interrupts + 1);
    var w2 := w.(k := w1.k);
    DepthKeepsCore(w, w2);
    InterruptsDoNotMatter(w2, w1);
    MissedTick(w.k.tick, w.k.missed, w.interrupts);
  }

  lemma TickedIs(w: World)
    requires Core(w, 0) && w.k.depth == 0 && At(w.k, Pending) == []
    ensures var r := IncrementTick(w.k);
            r.tick == Tick(w.k.tick + 1) && r.taskCount == w.k.taskCount && At(r, Pending) == []
  {
    AdvanceAgrees(w.k);
    AdvanceLists(w.k);
    var k1 := AdvanceTick(w.k);
    CheckDelayedDrainable(k1);
    DrainKeepsEmptyPending(k1);
  }

  lemma {:induction false} DrainKeepsEmptyPending(k: State)
    requires Drainable(k) && At(k, Pending) == []
    ensures At(Drain(k), Pending) == []
    decreases |At(k, k.delayed)|
  {
    var q := At(k, k.delayed);
    if q != [] {
      assert Holds(k, k.delayed, q[0]);
      if k.tick >= k.wake[q[0]] {
        MakeReadyEffect(k, q[0]);
        DrainKeepsEmptyPending(MakeReady(k, q[0]));
      }
    }
  }

  lemma MissedTick(tick: nat, missed: nat, interrupts: nat)
    requires Tick(tick + missed) == Tick(interrupts)
    ensures Tick(tick + Tick(missed + 1)) == Tick(interrupts + 1)
  {
    WrapSum(missed + 1, tick);
    WrapSum(tick + missed, 1);
    WrapSum(interrupts, 1);
    hide Tick;
  }

  lemma InterruptsDoNotMatter(w: World, w1: World)
    requires Core(w, 0) && w1 == w.(interrupts := w1.interrupts)
    ensures Core(w1, 0)
  {
    forall x | x in w1.k.generic
      ensures TaskOk(w1, 0, x)
    {
      assert TaskOk(w, 0, x);
    }
  }

  /** The outermost xTaskResumeAll: all that was signalled and all that came due is ready. */
  lemma ResumeSchedulerKeeps(w: World)
    requires Inv(w) && w.k.depth > 0
    ensures Inv(Step(w, ResumeScheduler))
  {
    hide Inv, Core, Drainable, SameTasks, ResumeAll;
    Prepared(w);
    if w.k.depth > 1 {
      NestedResume(w);
    } else {
      OutermostResume(w);
    }
  }

  lemma NestedResume(w: World)
    requires Inv(w) && w.k.depth > 1
    ensures Drainable(w.k) && Inv(w.(k := ResumeAll(w.k)))
  {
    hide Inv, Core, Drainable, DrainPending, CatchUp, SameTasks, At;
    Prepared(w);
    DepthKeepsCore(w, w.(k := ResumeAll(w.k)));
    NestedInv(w, w.(k := ResumeAll(w.k)));
  }

  /** xTaskResumeAll in the world: undo one suspension, empty the pending list, replay the ticks. */
  function Resumed(w: World): World
    requires Drainable(w.k) && w.k.depth == 1
  {
    TickAgrees(w.k, w.k.(depth := 0));
    DrainPendingDrainable(w.k.(depth := 0));
    CaughtUp(PendingDrained(w.(k := w.k.(depth := 0))))
  }

  lemma ResumedKeepsCore(w: World)
    requires Core(w, 0) && w.k.depth == 1
    ensures Core(Resumed(w), 0)
    ensures var r := Resumed(w).k;
            r.depth == 0 && r.missed == 0 && r.taskCount == w.k.taskCount && At(r, Pending) == []
    ensures Resumed(w).now == w.now + w.k.missed
  {
    hide Core;
    var w1 := w.(k := w.k.(depth := 0));
    DepthKeepsCore(w, w1);
    CoreIsDrainable(w, 0);
    CoreIsDrainable(w1, 0);
    DrainPendingDrainable(w1.k);
    DrainPendingKeepsCore(w1);
    CatchUpKeepsCore(PendingDrained(w1));
    CatchUpKeepsEmptyPending(DrainPending(w1.k));
  }

  lemma {:induction false} CatchUpKeepsEmptyPending(k: State)
    requires Drainable(k) && k.depth == 0 && At(k, Pending) == []
    ensures At(CatchUp(k), Pending) == [] && CatchUp(k).taskCount == k.taskCount
    decreases k.missed
  {
    hide Drainable;
    if k.missed > 0 {
      IncrementTickDrainable(k);
      TickedPending(k);
      var k1 := IncrementTick(k);
      var k2 := k1.(missed := k1.missed - 1);
      TickAgrees(k1, k2);
      CatchUpKeepsEmptyPending(k2);
    }
  }

  lemma TickedPending(k: State)
    requires Drainable(k) && k.depth == 0 && At(k, Pending) == []
    ensures At(IncrementTick(k), Pending) == [] && IncrementTick(k).taskCount == k.taskCount
  {
    AdvanceAgrees(k);
    AdvanceLists(k);
    var k1 := AdvanceTick(k);
    CheckDelayedDrainable(k1);
    DrainKeepsEmptyPending(k1);
  }

  lemma ResumeAllIs(w: World)
    requires Drainable(w.k) && w.k.depth == 1 && w.k.taskCount > 0
    ensures ResumeAll(w.k)
            == Resumed(w).k.(missedYield := if ResumeYields(w.k) then false else Resumed(w).k.missedYield)
    ensures Resumed(w) == w.(k := Resumed(w).k, now := w.now + w.k.missed,
                             asleep := w.asleep - (set t | t in At(w.k, Pending)))
  {
    hide Drainable;
    var k1 := w.k.(depth := 0);
    TickAgrees(w.k, k1);
    DrainPendingDrainable(k1);
    assert At(k1, Pending) == At(w.k, Pending);
  }

  lemma OutermostResume(w: World)
    requires Inv(w) && w.k.depth == 1
    ensures Drainable(w.k)
    ensures Inv(w.(k := ResumeAll(w.k), now := w.now + w.k.missed,
                   asleep := w.asleep - (set t | t in At(w.k, Pending))))
  {
    hide Inv, Core, Drainable, SameTasks, Resumed, ResumeAll, ResumeYields;
    Prepared(w);
    SomeTasks(w);
    ResumedKeepsCore(w);
    ResumeAllIs(w);
    var w1 := Resumed(w);
    var w2 := w1.(k := ResumeAll(w.k));
    assert w2 == w.(k := ResumeAll(w.k), now := w.now + w.k.missed,
                    asleep := w.asleep - (set t | t in At(w.k, Pending)));
    hide At;
    DepthKeepsCore(w1, w2);
    CaughtUpWithInterrupts(w, w2);
  }

  lemma SomeTasks(w: World)
    requires Inv(w)
    ensures w.k.taskCount > 0
  {}

  lemma CaughtUpWithInterrupts(w: World, w2: World)
    requires Inv(w) && Core(w2, 0) && w2.now == w.now + w.k.missed && w2.interrupts == w.interrupts
    requires w2.k.depth == 0 && w2.k.missed == 0 && w2.k.taskCount > 0 && At(w2.k, Pending) == []
    ensures Inv(w2)
  {
    hide Drainable, SameTasks, TasksOk, DelaysOk;
    WrapSum(w.now, w.k.missed);
  }

  lemma SwitchKeeps(w: World)
    requires Inv(w) && Enabled(w, Switch)
    ensures Inv(Step(w, Switch))
  {
    hide Core, At, Agreement, TopNonEmpty;
    Prepared(w);
    var w1 := Step(w, Switch);
    if w.k.depth > 0 {
      DepthKeepsCore(w, w1);
    } else {
      SwitchSelects(w);
      SwitchedKeepsCore(w, w1);
    }
  }

  /** A switch changes a ready list, the running task and the ready bound, or notes a missed yield. */
  lemma SwitchedFields(k: State)
    ensures var r := SwitchContext(k);
            && r == k.(lists := r.lists, running := r.running, topReady := r.topReady, missedYield := r.missedYield)
            && (k.depth == 0 ==> r.missedYield == k.missedYield)
            && forall m: ListId | !m.Ready? :: At(r, m) == At(k, m)
  {
    hide At, TopNonEmpty;
    var p := TopNonEmpty(k, k.topReady);
    var q := At(k, Ready(p));
    if k.depth == 0 && q != [] {
      assert SwitchContext(k) == SetList(k, Ready(p), q[1..] + [q[0]]).(topReady := p, running := q[0]);
    }
    ReadyListsChange(k, SwitchContext(k), p, if q == [] then [] else q[1..] + [q[0]]);
  }

  lemma ReadyListsChange(k: State, k1: State, p: nat, q: seq<Task>)
    requires k1.lists == k.lists || k1.lists == k.lists[Ready(p) := q]
    ensures forall m: ListId | !m.Ready? :: At(k1, m) == At(k, m)
  {}

  lemma SwitchedKeepsCore(w: World, w1: World)
    requires Core(w, 0) && w.k.depth == 0 && w1 == w.(k := SwitchContext(w.k))
    requires At(w.k, Ready(TopNonEmpty(w.k, w.k.topReady))) != []
    ensures Core(w1, 0) && At(w1.k, Pending) == At(w.k, Pending)
  {
    var p := TopNonEmpty(w.k, w.k.topReady);
    Rotated(w.k, w1.k, p);
    SwitchTasks(w, w1);
    SameDelays(w.k, w1.k);
  }

  lemma SwitchTasks(w: World, w1: World)
    requires Core(w, 0)
    requires w1 == w.(k := w.k.(lists := w1.k.lists, running := w1.k.running,
                                topReady := TopNonEmpty(w.k, w.k.topReady)))
    ensures TasksOk(w1, 0)
  {
    forall x | x in w1.k.generic
      ensures TaskOk(w1, 0, x)
    {
      assert TaskOk(w, 0, x);
      if w.k.generic[x].Ready? {
        ReadyBelowTop(w, x);
      }
    }
  }

  lemma Rotated(k: State, k1: State, p: nat)
    requires Agreement(k) && At(k, Ready(p)) != [] && k1.generic == k.generic && k1.event == k.event
    requires k1.lists == k.lists[Ready(p) := At(k, Ready(p))[1..] + [At(k, Ready(p))[0]]]
    ensures Agreement(k1) && forall m | m != Ready(p) :: At(k1, m) == At(k, m)
  {
    var q := At(k, Ready(p));
    var r := q[1..] + [q[0]];
    assert forall x :: x in r <==> x in q by {
      assert q == [q[0]] + q[1..];
    }
    forall m, x
      ensures x in At(k1, m) <==> Holds(k1, m, x)
    {
      assert x in At(k, m) <==> Holds(k, m, x);
    }
    assert NoDup(q);
    assert forall m :: NoDup(At(k, m)) ==> NoDup(At(k1, m));
  }

  lemma ReadyBelowTop(w: World, t: Task)
    requires Core(w, 0) && t in w.k.generic && w.k.generic[t].Ready?
    ensures w.k.generic[t].level <= TopNonEmpty(w.k, w.k.topReady)
  {
    assert TaskOk(w, 0, t);
    assert Holds(w.k, w.k.generic[t], t);
    assert t in At(w.k, w.k.generic[t]);
  }

  /** vTaskSwitchContext finds a task, and no ready task has a higher priority. */
  lemma SwitchSelects(w: World)
    requires Core(w, 0) && w.k.depth == 0 && exists t | t in w.k.generic :: w.k.generic[t].Ready?
    ensures var k1 := SwitchContext(w.k);
            && IsReady(k1, k1.running) && k1.running in k1.priority
            && k1.generic == w.k.generic && k1.priority == w.k.priority
            && (forall t | IsReady(w.k, t) :: t in w.k.priority && w.k.priority[t] <= k1.priority[k1.running])
            && At(w.k, Ready(TopNonEmpty(w.k, w.k.topReady))) != []
  {
    hide NoDup, SameTasks, Sleeping;
    var k := w.k;
    var p := TopNonEmpty(k, k.topReady);
    var t :| t in k.generic && k.generic[t].Ready?;
    ReadyBelowTop(w, t);
    assert At(k, Ready(p)) != [] by {
      assert Holds(k, k.generic[t], t);
      assert t in At(k, k.generic[t]);
    }
    var head := At(k, Ready(p))[0];
    assert Holds(k, Ready(p), head);
    assert TaskOk(w, 0, head);
    forall x | IsReady(k, x)
      ensures x in k.priority && k.priority[x] <= p
    {
      assert TaskOk(w, 0, x);
      ReadyBelowTop(w, x);
    }
  }

  // ----- creation and deletion ------------------------------------------------------------------

  lemma CreateKeeps(w: World, t: Task, requested: nat)
    requires Inv(w) && Enabled(w, CreateTask(t, requested))
    ensures Inv(Step(w, CreateTask(t, requested)))
  {
    hide Inv, Core;
    Prepared(w);
    var w1 := Step(w, CreateTask(t, requested));
    CreateEffect(w.k, t, requested);
    CreatedKeepsCore(w, w1, t);
    InvFromCore(w, w1);
  }

  ghost predicate Created(k: State, k1: State, t: Task) {
    && Drainable(k1) && SameTasks(k1) && t in k1.priority && k1.priority[t] < MAX_PRIORITIES
    && k1.generic == k.generic[t := Ready(k1.priority[t])] && k1.event == k.event
    && (forall m | m != Ready(k1.priority[t]) :: At(k1, m) == At(k, m))
    && k1.priority == k.priority[t := k1.priority[t]] && k1.wake == k.wake[t := 0]
    && k1 == k.(lists := k1.lists, generic := k1.generic, wake := k1.wake, rank := k1.rank, priority := k1.priority,
                basePriority := k1.basePriority, topReady := k1.topReady, taskCount := k.taskCount + 1)
    && k1.topReady >= k.topReady && k1.topReady >= k1.priority[t]
  }

  lemma CreateEffect(k: State, t: Task, requested: nat)
    requires Drainable(k) && SameTasks(k) && t !in k.generic
    ensures Created(k, Create(k, t, requested), t)
  {
    hide Agreement, Create, At;
    CreatedState(k, t, requested);
  }

  lemma CreatedState(k: State, t: Task, requested: nat)
    requires Agreement(k) && t !in k.generic
    ensures var p := ClipPriority(requested);
            var r := Create(k, t, requested);
            && Agreement(r) && (forall m | m != Ready(p) :: At(r, m) == At(k, m))
            && r == k.(lists := r.lists, generic := k.generic[t := Ready(p)], taskCount := k.taskCount + 1,
                       wake := k.wake[t := 0], rank := k.rank[t := MAX_PRIORITIES - p],
                       priority := k.priority[t := p], basePriority := k.basePriority[t := p],
                       topReady := if p > k.topReady then p else k.topReady)
  {
    hide Agreement, Append, At;
    var p := ClipPriority(requested);
    var k1 := k.(taskCount := k.taskCount + 1, wake := k.wake[t := 0], rank := k.rank[t := MAX_PRIORITIES - p],
                 priority := k.priority[t := p], basePriority := k.basePriority[t := p]);
    SameListsAgree(k, k1);
    AppendEffect(k1, Ready(p), t);
    SameListsAgree(Append(k1, Ready(p), t), Create(k, t, requested));
  }

  lemma CreatedKeepsCore(w: World, w1: World, t: Task)
    requires Core(w, 0) && t !in w.k.generic && Created(w.k, w1.k, t) && w1 == w.(k := w1.k)
    ensures Core(w1, 0)
  {
    hide Agreement, DelaysOk;
    forall x | x in w1.k.generic
      ensures TaskOk(w1, 0, x)
    {
      if x != t {
        assert TaskOk(w, 0, x);
      }
    }
    OneMore(w.k.generic, t, Ready(w1.k.priority[t]));
    CreatedDelays(w.k, w1.k, t);
  }

  lemma CreatedDelays(k: State, k1: State, t: Task)
    requires Drainable(k) && DelaysOk(k) && t !in k.generic && Created(k, k1, t)
    ensures DelaysOk(k1)
  {
    NotListed(k, k.delayed, t);
    NotListed(k, k.overflow, t);
    assert forall x | x != t :: WakeOf(k1, x) == WakeOf(k, x);
  }

  lemma ReapKeeps(w: World)
    requires Inv(w) && Enabled(w, ReapTask)
    ensures Inv(Step(w, ReapTask))
  {
    hide Inv, Core, Agreement, Drainable, SameTasks, Reap;
    Prepared(w);
    var q := At(w.k, Terminated);
    if w.k.deleted != 0 && q != [] {
      TerminatedHead(w);
      ReapEffect(w.k);
      var w1 := Step(w, ReapTask);
      ReapedKeepsCore(w, w1, q[0]);
      Counted(w1, w.k.running);
      InvFromCore(w, w1);
    } else {
      NothingToReap(w.k);
    }
  }

  lemma NothingToReap(k: State)
    requires forall t | t in At(k, Terminated) :: t in k.generic
    requires k.deleted == 0 || At(k, Terminated) == []
    ensures Reap(k) == k
  {}

  lemma TerminatedHead(w: World)
    requires Core(w, 0) && At(w.k, Terminated) != []
    ensures var t := At(w.k, Terminated)[0];
            t in w.k.generic && w.k.generic[t] == Terminated && t !in w.k.event && t !in w.asleep
  {
    var t := At(w.k, Terminated)[0];
    assert Holds(w.k, Terminated, t);
    assert TaskOk(w, 0, t);
  }

  lemma Counted(w: World, t: Task)
    requires Core(w, 0) && t in w.k.generic
    ensures w.k.taskCount > 0
  {}

  ghost predicate Reaped(k: State, k1: State, t: Task) {
    && Drainable(k1) && SameTasks(k1) && k.deleted > 0
    && t in k.generic && k.generic[t] == Terminated && k1.generic == k.generic - {t} && k1.event == k.event
    && k1.priority == k.priority - {t} && k1.wake == k.wake - {t}
    && (forall m | m != Terminated :: At(k1, m) == At(k, m))
    && |At(k1, Terminated)| == |At(k, Terminated)| - 1
    && k1 == k.(lists := k1.lists, generic := k1.generic, wake := k1.wake, rank := k1.rank, priority := k1.priority,
                basePriority := k1.basePriority, deleted := k.deleted - 1, taskCount := k1.taskCount)
    && k1.taskCount == if k.taskCount > 0 then k.taskCount - 1 else 0
  }

  lemma ReapEffect(k: State)
    requires Drainable(k) && SameTasks(k) && k.deleted > 0 && At(k, Terminated) != []
    requires At(k, Terminated)[0] !in k.event
    ensures forall t | t in At(k, Terminated) :: t in k.generic
    ensures Reaped(k, Reap(k), At(k, Terminated)[0])
  {
    forall x | x in At(k, Terminated)
      ensures x in k.generic && k.generic[x] == Terminated
    {
      assert Holds(k, Terminated, x);
    }
    hide Agreement, Reap, At;
    ReapedLists(k);
    ReapedMaps(k);
  }

  /** What it does to the maps and counters. */
  lemma ReapedMaps(k: State)
    requires Drainable(k) && SameTasks(k) && k.deleted > 0 && At(k, Terminated) != []
    requires forall x | x in At(k, Terminated) :: x in k.generic && k.generic[x] == Terminated
    requires At(k, Terminated)[0] !in k.event && Agreement(Reap(k))
    ensures var t := At(k, Terminated)[0];
            var r := Reap(k);
            && Drainable(r) && SameTasks(r) && r.generic == k.generic - {t} && r.event == k.event
            && r.priority == k.priority - {t} && r.wake == k.wake - {t}
            && r == k.(lists := r.lists, generic := r.generic, wake := r.wake, rank := r.rank, priority := r.priority,
                       basePriority := r.basePriority, deleted := k.deleted - 1, taskCount := r.taskCount)
            && r.taskCount == if k.taskCount > 0 then k.taskCount - 1 else 0
  {
    hide Agreement, At, Without;
  }

  /** What the clean-up does to the lists. */
  lemma ReapedLists(k: State)
    requires Drainable(k) && k.deleted > 0 && At(k, Terminated) != []
    requires forall x | x in At(k, Terminated) :: x in k.generic && k.generic[x] == Terminated
    ensures var t := At(k, Terminated)[0];
            && Agreement(Reap(k))
            && forall m :: At(Reap(k), m) == if m == Terminated then At(k, m)[1..] else At(k, m)
  {
    hide Agreement;
    var t := At(k, Terminated)[0];
    TakeGenericAgrees(k, t);
    var k1 := TakeGeneric(k, t);
    SameListsAgree(k1, Reap(k));
    forall m | m != Terminated && !m.ForEvents()
      ensures At(k1, m) == At(k, m)
    {
      NotListed(k, m, t);
    }
  }

  lemma ReapedKeepsCore(w: World, w1: World, t: Task)
    requires Core(w, 0) && Reaped(w.k, w1.k, t) && w1 == w.(k := w1.k) && t !in w.asleep && w.k.deleted > 0
    ensures Core(w1, 0)
    ensures w1.k.taskCount == w.k.taskCount - 1
  {
    hide Agreement, DelaysOk;
    forall x | x in w1.k.generic
      ensures TaskOk(w1, 0, x)
    {
      assert TaskOk(w, 0, x);
    }
    OneFewer(w.k.generic, t);
    ReapedDelays(w.k, w1.k, t);
  }

  lemma OneFewer(m: map<Task, ListId>, t: Task)
    requires t in m
    ensures |m - {t}| == |m| - 1
  {
    assert m.Keys == (m - {t}).Keys + {t};
    assert |m| == |m.Keys| && |m - {t}| == |(m - {t}).Keys|;
  }

  lemma OneMore(m: map<Task, ListId>, t: Task, l: ListId)
    requires t !in m
    ensures |m[t := l]| == |m| + 1
  {
    assert m[t := l].Keys == m.Keys + {t};
    assert |m| == |m.Keys| && |m[t := l]| == |m[t := l].Keys|;
  }

  lemma SameKeys(m: map<Task, ListId>, t: Task, l: ListId)
    requires t in m
    ensures m[t := l].Keys == m.Keys && |m[t := l]| == |m|
  {
    assert m[t := l].Keys == m.Keys;
    assert |m| == |m.Keys| && |m[t := l]| == |m[t := l].Keys|;
  }

  lemma ReapedDelays(k: State, k1: State, t: Task)
    requires Drainable(k) && DelaysOk(k) && Reaped(k, k1, t)
    ensures DelaysOk(k1)
  {
    NotListed(k, k.delayed, t);
    NotListed(k, k.overflow, t);
    assert forall x | x != t :: WakeOf(k1, x) == WakeOf(k, x);
  }

  // ----- the invariant over runs ------------------------------------------------------------------

  lemma StepKeepsInv(w: World, op: Op)
    requires Inv(w) && Enabled(w, op)
    ensures Drainable(w.k) && SameTasks(w.k) && Inv(Step(w, op))
  {
    hide Inv, Step, Drainable, SameTasks;
    Prepared(w);
    match op
    case CreateTask(t, p) => CreateKeeps(w, t, p);
    case DeleteTask(t) => DeleteKeeps(w, t);
    case ReapTask => ReapKeeps(w);
    case DelayFor(ticks) => DelayForKeeps(w, ticks);
    case DelayTo(previousWake, increment) => DelayToKeeps(w, previousWake, increment);
    case WaitFor(queue, ticks) => WaitForKeeps(w, queue, ticks);
    case Signal(queue) => SignalKeeps(w, queue);
    case SuspendTask(t) => SuspendKeeps(w, t);
    case ResumeTask(t) => ResumeKeeps(w, t);
    case ResumeTaskFromISR(t) => ResumeFromISRKeeps(w, t);
    case SetPriority(t, p) => SetPriorityKeeps(w, t, p);
    case InheritBy(t) => InheritKeeps(w, t);
    case DisinheritBy(t) => DisinheritKeeps(w, t);
    case SuspendScheduler => SuspendSchedulerKeeps(w);
    case ResumeScheduler => ResumeSchedulerKeeps(w);
    case TickInterrupt => TickKeeps(w);
    case Switch => SwitchKeeps(w);
  }
}
