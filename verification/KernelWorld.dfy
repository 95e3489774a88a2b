// The scheduler against absolute time. A World is the kernel's state together with what the kernel
// never stores: the unbounded number of processed ticks, each sleeper's absolute deadline, the tasks
// that vTaskSuspend put to sleep and the number of tick interrupts taken. The invariant ties them.

module KernelWorld {
  import opened Sequences
  import opened Ticks
  import opened Lists
  import opened KernelState

  datatype World = World(
    k: State,
    now: nat,                      // ticks processed so far, unbounded
    deadline: map<Task, nat>,      // absolute wake time of a task in a delayed list
    asleep: set<Task>,             // explicitly suspended and not resumed
    interrupts: nat)               // tick interrupts taken so far

  function WakeOf(k: State, t: Task): nat {
    if t in k.wake then k.wake[t] else 0
  }

  /** A timed sleeper: the current list holds the deadlines of this tick epoch, the overflow list
      those of the next. slack is 0 between operations and 1 while a tick is being processed. */
  ghost predicate Sleeping(w: World, slack: nat, t: Task)
    requires t in w.k.generic
  {
    && t in w.deadline
    && WakeOf(w.k, t) == Tick(w.deadline[t])
    && if w.k.generic[t] == w.k.delayed then
         w.now < w.deadline[t] + slack && Epoch(w.deadline[t]) == Epoch(w.now)
       else
         Epoch(w.deadline[t]) == Epoch(w.now) + 1 && w.deadline[t] < w.now + MODULUS
  }

  /** What holds of one task, by the list its generic item is in. */
  ghost predicate TaskOk(w: World, slack: nat, t: Task)
    requires t in w.k.generic
  {
    && t in w.k.priority && w.k.priority[t] < MAX_PRIORITIES
    && match w.k.generic[t]
       case Ready(p) => p == w.k.priority[t] <= w.k.topReady && t !in w.k.event && t !in w.asleep
       case DelayedA => t !in w.asleep && Sleeping(w, slack, t)
       case DelayedB => t !in w.asleep && Sleeping(w, slack, t)
       case Suspended => if t in w.asleep then t in w.k.event ==> w.k.event[t] == Pending else t in w.k.event
       case Terminated => t !in w.k.event && t !in w.asleep
       case _ => false
  }

  ghost predicate InOrder(k: State, q: seq<Task>) {
    forall i, j | 0 <= i < j < |q| :: WakeOf(k, q[i]) <= WakeOf(k, q[j])
  }

  ghost predicate SameTasks(k: State) {
    && k.generic.Keys == k.priority.Keys == k.basePriority.Keys == k.wake.Keys == k.rank.Keys
    && (forall t | t in k.basePriority :: k.basePriority[t] < MAX_PRIORITIES)
    && (forall t | t in k.rank :: k.rank[t] <= MAX_PRIORITIES)
  }

  ghost predicate TasksOk(w: World, slack: nat) {
    forall t | t in w.k.generic :: TaskOk(w, slack, t)
  }

  /** Both delayed lists are in wake order and the cached wake time is not past the first one. */
  ghost predicate DelaysOk(k: State) {
    && InOrder(k, At(k, k.delayed)) && InOrder(k, At(k, k.overflow))
    && (At(k, k.delayed) != [] ==> k.nextUnblock <= WakeOf(k, At(k, k.delayed)[0]))
  }

  ghost predicate Core(w: World, slack: nat) {
    && Drainable(w.k) && SameTasks(w.k)
    && TasksOk(w, slack)
    && DelaysOk(w.k)
    && w.k.tick == Tick(w.now) && w.k.overflows == Tick(Epoch(w.now))
    && w.k.deleted == |At(w.k, Terminated)| && w.k.taskCount == |w.k.generic|
    && w.asleep <= w.k.generic.Keys
  }

  /** The kernel's invariant between operations. */
  ghost predicate Inv(w: World) {
    && Core(w, 0)
    && Tick(w.k.tick + w.k.missed) == Tick(w.interrupts)
    && (w.k.depth == 0 ==> w.k.missed == 0 && At(w.k, Pending) == [])
    && w.k.taskCount > 0
  }

  // ----- deletion and order -----------------------------------------------------------------

  lemma {:induction false} WithoutInOrder(k: State, q: seq<Task>, t: Task)
    requires InOrder(k, q)
    ensures InOrder(k, Without(q, t))
    ensures Without(q, t) != [] ==> WakeOf(k, q[0]) <= WakeOf(k, Without(q, t)[0])
  {
    if q != [] && q[0] != t {
      WithoutInOrder(k, q[1..], t);
      var r := Without(q[1..], t);
      forall i | 0 <= i < |r|
        ensures WakeOf(k, q[0]) <= WakeOf(k, r[i])
      {
        assert r[i] in r;
        assert r[i] in q[1..] || r[i] == t;
        WithoutMembers(q[1..], t);
      }
    }
  }

  // ----- moving one task ---------------------------------------------------------------------

  /** The task t left all lists and its generic item went to the end of list l. */
  ghost predicate Moved(k: State, k1: State, t: Task, l: ListId) {
    && Drainable(k1) && SameTasks(k1)
    && k1.generic == k.generic[t := l] && k1.event == k.event - {t}
    && (forall m :: At(k1, m) == if m == l then Without(At(k, m), t) + [t] else Without(At(k, m), t))
    && (forall x | x in k.priority && x != t :: x in k1.priority && k1.priority[x] == k.priority[x])
    && k1.wake == k.wake && k1.delayed == k.delayed && k1.overflow == k.overflow
    && k1.tick == k.tick && k1.overflows == k.overflows && k1.missed == k.missed && k1.depth == k.depth
    && k1.nextUnblock == k.nextUnblock && k1.taskCount == k.taskCount
    && k1.topReady >= k.topReady
  }

  lemma MovedKeepsCore(w: World, w1: World, slack: nat, t: Task, l: ListId)
    requires Core(w, slack) && t in w.k.generic
    requires Moved(w.k, w1.k, t, l) && l != DelayedA && l != DelayedB
    requires w1.now == w.now && w1.deadline == w.deadline
    requires w1.asleep - {t} == w.asleep - {t} && TaskOk(w1, slack, t)
    requires w1.k.deleted == |At(w1.k, Terminated)|
    ensures Core(w1, slack)
  {
    hide TasksOk, DelaysOk, Agreement, TaskOk, At;
    MovedTasks(w, w1, slack, t, l);
    MovedDelays(w.k, w1.k, t, l);
    assert w1.k.generic.Keys == w.k.generic.Keys;
    assert w1.asleep <= w1.k.generic.Keys by {
      assert forall x | x in w1.asleep && x != t :: x in w1.asleep - {t};
    }
  }

  lemma MovedTasks(w: World, w1: World, slack: nat, t: Task, l: ListId)
    requires TasksOk(w, slack) && t in w.k.generic
    requires Moved(w.k, w1.k, t, l)
    requires w1.now == w.now && w1.deadline == w.deadline
    requires w1.asleep - {t} == w.asleep - {t} && TaskOk(w1, slack, t)
    ensures TasksOk(w1, slack)
  {
    forall x | x in w1.k.generic && x != t
      ensures TaskOk(w1, slack, x)
    {
      assert TaskOk(w, slack, x);
      assert x in w1.asleep - {t} <==> x in w.asleep - {t};
    }
  }

  lemma MovedDelays(k: State, k1: State, t: Task, l: ListId)
    requires DelaysOk(k) && Moved(k, k1, t, l) && l != DelayedA && l != DelayedB && Drainable(k)
    ensures DelaysOk(k1)
  {
    hide Without, At, Agreement, InOrder;
    WithoutInOrder(k, At(k, k.delayed), t);
    WithoutInOrder(k, At(k, k.overflow), t);
    assert At(k1, k.delayed) == Without(At(k, k.delayed), t);
    assert At(k1, k.overflow) == Without(At(k, k.overflow), t);
    SameWakes(k, k1, At(k1, k.delayed));
    SameWakes(k, k1, At(k1, k.overflow));
  }

  lemma SameWakes(k: State, k1: State, q: seq<Task>)
    requires k1.wake == k.wake && InOrder(k, q)
    ensures InOrder(k1, q)
  {
    assert forall x :: WakeOf(k1, x) == WakeOf(k, x);
  }

  lemma NotListed(k: State, l: ListId, t: Task)
    requires Agreement(k) && !Holds(k, l, t)
    ensures t !in At(k, l)
  {}

  // ----- making a task ready ----------------------------------------------------------------

  function Woken(w: World, t: Task): World
    requires t in w.k.generic && t in w.k.priority
  {
    w.(k := MakeReady(w.k, t), asleep := w.asleep - {t})
  }

  lemma MakeReadyKeepsCore(w: World, slack: nat, t: Task)
    requires Core(w, slack) && t in w.k.generic && w.k.generic[t] != Terminated
    ensures Core(Woken(w, t), slack)
  {
    hide Agreement, DelaysOk, MakeReady;
    MakeReadyMoves(w.k, t);
    NotListed(w.k, Terminated, t);
    assert TaskOk(w, slack, t);
    var w1 := Woken(w, t);
    MovedKeepsCore(w, w1, slack, t, Ready(w.k.priority[t]));
  }

  lemma MakeReadyMoves(k: State, t: Task)
    requires Drainable(k) && SameTasks(k) && t in k.generic
    ensures Moved(k, MakeReady(k, t), t, Ready(k.priority[t]))
    ensures var r := MakeReady(k, t);
            && r == k.(lists := r.lists, generic := r.generic, event := r.event, topReady := r.topReady)
            && k.priority[t] <= r.topReady
  {
    MakeReadyEffect(k, t);
  }

  // ----- ticks -----------------------------------------------------------------------------

  function Drained(w: World): World
    requires Drainable(w.k)
  {
    w.(k := Drain(w.k))
  }

  /** Whether the kernel's state says that the sleeper t is due. */
  predicate Due(k: State, t: Task)
    requires t in k.generic
  {
    k.generic[t] == k.delayed && WakeOf(k, t) <= k.tick
  }

  /** Draining restores the invariant. */
  lemma {:induction false} DrainKeepsCore(w: World)
    requires Core(w, 1)
    ensures Core(Drained(w), 0)
    decreases |At(w.k, w.k.delayed)|
  {
    var q := At(w.k, w.k.delayed);
    if q == [] || w.k.tick < WakeOf(w.k, q[0]) {
      NothingDue(w);
    } else {
      WakeHead(w);
      var w1 := w.(k := MakeReady(w.k, q[0]));
      DrainKeepsCore(w1);
      assert Drained(w) == Drained(w1);
    }
  }

  lemma WakeHead(w: World)
    requires Core(w, 1) && At(w.k, w.k.delayed) != []
    ensures var t := At(w.k, w.k.delayed)[0];
            && t in w.k.generic && w.k.generic[t] == w.k.delayed
            && Core(w.(k := MakeReady(w.k, t)), 1)
            && Moved(w.k, MakeReady(w.k, t), t, Ready(w.k.priority[t]))
            && (w.k.tick >= WakeOf(w.k, t) ==> Drain(w.k) == Drain(MakeReady(w.k, t)))
  {
    var t := At(w.k, w.k.delayed)[0];
    assert Holds(w.k, w.k.delayed, t);
    assert TaskOk(w, 1, t);
    MakeReadyKeepsCore(w, 1, t);
    MakeReadyMoves(w.k, t);
    NotMember(w.asleep, t);
  }

  lemma NotMember(s: set<Task>, t: Task)
    requires t !in s
    ensures s - {t} == s
  {}

  /** Draining wakes exactly the sleepers that are due. */
  lemma {:induction false} DrainWakesDue(w: World, t: Task)
    requires Core(w, 1) && t in w.k.generic
    ensures t in Drain(w.k).generic
    ensures Drain(w.k).generic[t] == if Due(w.k, t) then Ready(w.k.priority[t]) else w.k.generic[t]
    decreases |At(w.k, w.k.delayed)|
  {
    hide Agreement, DelaysOk, MakeReady;
    var q := At(w.k, w.k.delayed);
    if q == [] || w.k.tick < WakeOf(w.k, q[0]) {
      NothingDue(w);
    } else {
      WakeHead(w);
      var w1 := w.(k := MakeReady(w.k, q[0]));
      DrainWakesDue(w1, t);
      assert Drain(w.k) == Drain(w1.k);
      assert Due(w1.k, t) <==> Due(w.k, t) && t != q[0];
    }
  }

  /** If the first sleeper is not due, nobody is: the list is in wake order. */
  lemma NothingDue(w: World)
    requires Core(w, 1)
    requires var q := At(w.k, w.k.delayed); q == [] || w.k.tick < WakeOf(w.k, q[0])
    ensures forall t | t in w.k.generic :: !Due(w.k, t)
    ensures Core(Drained(w), 0)
  {
    var k := w.k;
    var q := At(k, k.delayed);
    assert Core(Drained(w), 0) by {
      forall t | t in k.generic
        ensures TaskOk(w, 0, t)
      {
        assert TaskOk(w, 1, t);
        HeadIsEarliest(w, t);
        NotDue(w, t);
      }
      SameListsAgree(k, Drained(w).k);
      Relabel(w, Drained(w), 0);
    }
    forall t | t in k.generic
      ensures !Due(k, t)
    {
      HeadIsEarliest(w, t);
    }
  }

  lemma HeadIsEarliest(w: World, t: Task)
    requires Core(w, 1) && t in w.k.generic
    requires var q := At(w.k, w.k.delayed); q == [] || w.k.tick < WakeOf(w.k, q[0])
    ensures !Due(w.k, t)
  {
    var k := w.k;
    var q := At(k, k.delayed);
    if k.generic[t] == k.delayed {
      assert Holds(k, k.delayed, t);
      var i :| 0 <= i < |q| && q[i] == t;
      assert WakeOf(k, q[0]) <= WakeOf(k, q[i]);
    }
  }

  /** Changing only the cached wake time keeps the invariant if the bound still holds. */
  lemma Relabel(w: World, w1: World, slack: nat)
    requires Core(w, 1) && TasksOk(w, slack)
    requires w1 == w.(k := w.k.(nextUnblock := w1.k.nextUnblock)) && Agreement(w1.k)
    requires var q := At(w.k, w.k.delayed); q != [] ==> w1.k.nextUnblock <= WakeOf(w.k, q[0])
    ensures Core(w1, slack)
  {
    hide Agreement, At;
    forall t | t in w1.k.generic
      ensures TaskOk(w1, slack, t)
    {
      assert TaskOk(w, slack, t);
    }
    SameListsAgree(w.k, w1.k);
    assert forall x :: WakeOf(w1.k, x) == WakeOf(w.k, x);
  }

  /** The cached wake time is sound: when the guard of prvCheckDelayedTasks skips the scan, the
      scan would have found nothing. */
  lemma GuardedCheckIsExact(w: World)
    requires Core(w, 1)
    ensures CheckDelayed(w.k) == Drain(w.k).(nextUnblock := CheckDelayed(w.k).nextUnblock)
    ensures forall t | t in w.k.generic ::
              t in CheckDelayed(w.k).generic
              && CheckDelayed(w.k).generic[t] == if Due(w.k, t) then Ready(w.k.priority[t]) else w.k.generic[t]
  {
    forall t | t in w.k.generic
      ensures t in Drain(w.k).generic
      ensures Drain(w.k).generic[t] == if Due(w.k, t) then Ready(w.k.priority[t]) else w.k.generic[t]
    {
      DrainWakesDue(w, t);
    }
    if w.k.tick < w.k.nextUnblock {
      NothingDue(w);
      NothingToDrain(w);
    }
  }

  /** What a scan of the delayed list leaves for the next ones to go by: the wake time of the sleeper
      now at the head, so that no scan is made before there is a task to wake, or the largest tick
      when nobody sleeps. */
  lemma CheckNotesNextWake(k: State)
    requires Drainable(k) && k.tick >= k.nextUnblock
    ensures var r := CheckDelayed(k);
            var q := At(r, r.delayed);
            && (q == [] ==> r.nextUnblock == MAX_DELAY)
            && (q != [] ==> r.nextUnblock == WakeOf(r, q[0]) && r.tick < r.nextUnblock)
  {
    DrainNotesNextWake(k);
  }

  lemma {:induction false} DrainNotesNextWake(k: State)
    requires Drainable(k)
    ensures var r := Drain(k);
            var q := At(r, r.delayed);
            && (q == [] ==> r.nextUnblock == MAX_DELAY)
            && (q != [] ==> r.nextUnblock == WakeOf(r, q[0]) && r.tick < r.nextUnblock)
    decreases |At(k, k.delayed)|
  {
    var q := At(k, k.delayed);
    if q != [] {
      assert Holds(k, k.delayed, q[0]);
      if k.tick >= k.wake[q[0]] {
        MakeReadyEffect(k, q[0]);
        DrainNotesNextWake(MakeReady(k, q[0]));
      }
    }
  }

  lemma NothingToDrain(w: World)
    requires Core(w, 1) && w.k.tick < w.k.nextUnblock
    ensures Drain(w.k) == w.k.(nextUnblock := Drain(w.k).nextUnblock)
  {
    var q := At(w.k, w.k.delayed);
    if q != [] {
      assert Holds(w.k, w.k.delayed, q[0]);
    }
  }

  lemma CheckKeepsCore(w: World)
    requires Core(w, 1)
    ensures Core(w.(k := CheckDelayed(w.k)), 0)
  {
    hide Core, Drainable, Drain;
    CoreIsDrainable(w, 1);
    if w.k.tick >= w.k.nextUnblock {
      DrainKeepsCore(w);
    } else {
      NothingCached(w);
    }
  }

  lemma CoreIsDrainable(w: World, slack: nat)
    requires Core(w, slack)
    ensures Drainable(w.k) && SameTasks(w.k) && Agreement(w.k)
  {}

  /** The cached wake time alone shows that nobody is due. */
  lemma NothingCached(w: World)
    requires Core(w, 1) && w.k.tick < w.k.nextUnblock
    ensures Core(w, 0)
  {
    hide Agreement;
    NothingDue(w);
    forall t | t in w.k.generic
      ensures TaskOk(w, 0, t)
    {
      assert TaskOk(w, 1, t) && !Due(w.k, t);
      NotDue(w, t);
    }
  }

  lemma NotDue(w: World, t: Task)
    requires t in w.k.generic && TaskOk(w, 1, t) && !Due(w.k, t) && w.k.tick == Tick(w.now)
    ensures TaskOk(w, 0, t)
  {}

  function Advanced(w: World): World
    requires Drainable(w.k)
  {
    w.(k := AdvanceTick(w.k), now := w.now + 1)
  }

  /** Advancing the tick: at a rollover the current list is empty, so the swap loses nobody. */
  lemma AdvanceKeepsCore(w: World)
    requires Core(w, 0)
    ensures Core(Advanced(w), 1)
    ensures Tick(w.now + 1) == 0 ==> At(w.k, w.k.delayed) == []
  {
    hide Agreement, DelaysOk;
    NextTick(w.now);
    AdvanceAgrees(w.k);
    if Tick(w.now + 1) == 0 {
      EmptyAtRollover(w);
    }
    AdvanceTasks(w);
    AdvanceDelays(w.k);
    AdvanceLists(w.k);
    AdvanceEpoch(w);
  }

  /** The rollover counter counts the epochs, modulo its width. */
  lemma AdvanceEpoch(w: World)
    requires Drainable(w.k) && w.k.tick == Tick(w.now) && w.k.overflows == Tick(Epoch(w.now))
    ensures Advanced(w).k.tick == Tick(w.now + 1) && Advanced(w).k.overflows == Tick(Epoch(w.now + 1))
  {
    NextTick(w.now);
    WrapSum(Epoch(w.now), 1);
  }

  lemma AdvanceLists(k: State)
    requires Drainable(k)
    ensures var r := AdvanceTick(k);
            && (forall l :: At(r, l) == At(k, l))
            && r == k.(tick := r.tick, delayed := r.delayed, overflow := r.overflow, overflows := r.overflows,
                       nextUnblock := r.nextUnblock)
  {
    SameListsAgree(k, AdvanceTick(k));
  }

  lemma AdvanceTasks(w: World)
    requires Core(w, 0)
    requires Tick(w.now + 1) == 0 ==> At(w.k, w.k.delayed) == []
    ensures TasksOk(Advanced(w), 1)
  {
    NextTick(w.now);
    forall t | t in w.k.generic
      ensures TaskOk(Advanced(w), 1, t)
    {
      assert TaskOk(w, 0, t);
      if w.k.generic[t] == w.k.delayed {
        assert Holds(w.k, w.k.delayed, t);
        assert t in At(w.k, w.k.delayed);
      }
      AdvanceTask(w, t);
    }
  }

  lemma AdvanceTask(w: World, t: Task)
    requires Drainable(w.k) && t in w.k.generic && TaskOk(w, 0, t) && w.k.tick == Tick(w.now)
    requires Tick(w.now + 1) == 0 ==> w.k.generic[t] != w.k.delayed
    ensures TaskOk(Advanced(w), 1, t)
  {
    hide Drainable, AdvanceTick, Tick, Epoch;
    NextTick(w.now);
    AdvancedFields(w.k);
    if Tick(w.now + 1) == 0 && w.k.generic[t] == w.k.overflow {
      EpochBegins(w.now, w.deadline[t]);
    }
  }

  /** Where advancing the tick leaves the tasks and the delay lists. */
  lemma AdvancedFields(k: State)
    requires Drainable(k)
    ensures var r := AdvanceTick(k);
            && r.generic == k.generic && r.event == k.event && r.wake == k.wake
            && r.priority == k.priority && r.topReady == k.topReady && r.tick == Tick(k.tick + 1)
            && (if r.tick == 0 then r.delayed == k.overflow && r.overflow == k.delayed
                else r.delayed == k.delayed && r.overflow == k.overflow)
            && {k.delayed, k.overflow} == {DelayedA, DelayedB} && k.delayed != k.overflow
  {}

  lemma AdvanceDelays(k: State)
    requires Drainable(k) && DelaysOk(k)
    requires Tick(k.tick + 1) == 0 ==> At(k, k.delayed) == []
    ensures DelaysOk(AdvanceTick(k))
  {
    AdvanceLists(k);
    var q := At(k, k.overflow);
    if q != [] {
      assert Holds(k, k.overflow, q[0]);
    }
    hide Agreement;
    assert forall x :: WakeOf(AdvanceTick(k), x) == WakeOf(k, x);
  }

  lemma EmptyAtRollover(w: World)
    requires Core(w, 0) && Tick(w.now + 1) == 0
    ensures At(w.k, w.k.delayed) == []
  {
    var q := At(w.k, w.k.delayed);
    if q != [] {
      assert Holds(w.k, w.k.delayed, q[0]);
      assert TaskOk(w, 0, q[0]);
      LastTick(w.now, w.deadline[q[0]]);
      assert false;
    }
  }

  // ----- the tick interrupt and the outermost resume -------------------------------------------

  /** One processed tick. */
  function Ticked(w: World): World
    requires Drainable(w.k)
  {
    w.(k := IncrementTick(w.k), now := w.now + 1)
  }

  lemma TickKeepsCore(w: World)
    requires Core(w, 0) && w.k.depth == 0
    ensures Core(Ticked(w), 0)
  {
    AdvanceKeepsCore(w);
    CheckKeepsCore(Advanced(w));
    var w1 := Advanced(w).(k := CheckDelayed(AdvanceTick(w.k)));
    assert Ticked(w) == w1;
  }

  /** The central statement about time: a processed tick makes ready exactly the timed sleepers
      whose absolute deadline it is, and moves nobody else. */
  lemma TickWakesAtDeadline(w: World, t: Task)
    requires Core(w, 0) && w.k.depth == 0 && t in w.k.generic
    ensures t in Ticked(w).k.generic
    ensures var l := Ticked(w).k.generic[t];
            if w.k.generic[t] in {DelayedA, DelayedB} then
              if w.deadline[t] == w.now + 1 then l == Ready(w.k.priority[t])
              else l == w.k.generic[t] && w.deadline[t] > w.now + 1
            else l == w.k.generic[t]
  {
    hide Agreement, DelaysOk, SameTasks, At;
    AdvanceKeepsCore(w);
    NextTick(w.now);
    var w1 := Advanced(w);
    GuardedCheckIsExact(w1);
    assert TaskOk(w, 0, t) && TaskOk(w1, 1, t);
    if w1.k.generic[t] == w1.k.delayed {
      SameEpochOrder(w1.deadline[t], w1.now);
    }
  }

  function PendingDrained(w: World): World
    requires Drainable(w.k)
  {
    w.(k := DrainPending(w.k), asleep := w.asleep - (set t | t in At(w.k, Pending)))
  }

  lemma {:induction false} DrainPendingKeepsCore(w: World)
    requires Core(w, 0)
    ensures Core(PendingDrained(w), 0)
    ensures At(DrainPending(w.k), Pending) == []
    decreases |At(w.k, Pending)|
  {
    hide Core, MakeReady, TaskOk;
    CoreIsDrainable(w, 0);
    var q := At(w.k, Pending);
    if q != [] {
      PendingStep(w);
      DrainPendingKeepsCore(Woken(w, q[0]));
    } else {
      NothingPending(w);
    }
  }

  lemma NothingPending(w: World)
    requires Drainable(w.k) && At(w.k, Pending) == []
    ensures PendingDrained(w) == w
  {
    hide Drainable;
    assert (set t | t in At(w.k, Pending)) == {};
    assert w.asleep - {} == w.asleep;
  }

  /** The first pending task becomes ready, and draining goes on from there. */
  lemma PendingStep(w: World)
    requires Core(w, 0) && At(w.k, Pending) != []
    ensures var t := At(w.k, Pending)[0];
            && t in w.k.generic
            && Core(Woken(w, t), 0)
            && At(Woken(w, t).k, Pending) == At(w.k, Pending)[1..]
            && Woken(w, t).k.generic == w.k.generic[t := Ready(w.k.priority[t])]
            && Woken(w, t).k.priority == w.k.priority
            && DrainPending(w.k) == DrainPending(Woken(w, t).k)
            && PendingDrained(w) == PendingDrained(Woken(w, t))
  {
    var q := At(w.k, Pending);
    assert Holds(w.k, Pending, q[0]);
    assert TaskOk(w, 0, q[0]);
    MakeReadyKeepsCore(w, 0, q[0]);
    MakeReadyMoves(w.k, q[0]);
    hide Agreement, TasksOk, DelaysOk, MakeReady, TaskOk;
    var w1 := Woken(w, q[0]);
    assert At(w1.k, Pending) == Without(q, q[0]) == q[1..];
    PendingHead(w, w1);
  }

  lemma PendingHead(w: World, w1: World)
    requires Core(w, 0) && At(w.k, Pending) != [] && At(w.k, Pending)[0] in w.k.generic
    requires w1 == Woken(w, At(w.k, Pending)[0]) && Drainable(w1.k)
    requires At(w1.k, Pending) == At(w.k, Pending)[1..]
    ensures PendingDrained(w) == PendingDrained(w1)
  {
    RemoveInTurn(w.asleep, At(w.k, Pending));
  }

  lemma RemoveInTurn(s: set<Task>, q: seq<Task>)
    requires q != []
    ensures s - (set t | t in q) == s - {q[0]} - (set t | t in q[1..])
  {
    assert forall t :: t in q <==> t == q[0] || t in q[1..];
  }

  /** Everything signalled while the scheduler was suspended becomes ready; nobody else moves. */
  lemma {:induction false} DrainPendingReadies(w: World, t: Task)
    requires Core(w, 0) && t in w.k.generic
    ensures t in DrainPending(w.k).generic
    ensures DrainPending(w.k).generic[t] == if t in At(w.k, Pending) then Ready(w.k.priority[t]) else w.k.generic[t]
    decreases |At(w.k, Pending)|
  {
    hide Core, TaskOk, MakeReady;
    CoreIsDrainable(w, 0);
    var q := At(w.k, Pending);
    if q != [] {
      PendingStep(w);
      var w1 := Woken(w, q[0]);
      CoreIsDrainable(w1, 0);
      assert t in q <==> t == q[0] || t in q[1..];
      DrainPendingReadies(w1, t);
      assert DrainPending(w.k) == DrainPending(w1.k);
    }
  }

  function CaughtUp(w: World): World
    requires Drainable(w.k) && w.k.depth == 0
  {
    w.(k := CatchUp(w.k), now := w.now + w.k.missed)
  }

  function ReplayOne(w: World): World
    requires Drainable(w.k) && w.k.depth == 0 && w.k.missed > 0
  {
    IncrementTickDrainable(w.k);
    var k1 := IncrementTick(w.k);
    w.(k := k1.(missed := k1.missed - 1), now := w.now + 1)
  }

  lemma ReplayKeepsCore(w: World)
    requires Core(w, 0) && w.k.depth == 0 && w.k.missed > 0
    ensures Drainable(w.k) && Core(ReplayOne(w), 0)
    ensures ReplayOne(w).k.depth == 0 && ReplayOne(w).k.missed == w.k.missed - 1
    ensures CaughtUp(ReplayOne(w)) == CaughtUp(w)
  {
    hide Core, Drainable, IncrementTick;
    CoreIsDrainable(w, 0);
    IncrementTickDrainable(w.k);
    TickKeepsCore(w);
    DepthKeepsCore(Ticked(w), ReplayOne(w));
    CoreIsDrainable(ReplayOne(w), 0);
  }

  /** The suspension depth, the missed ticks and the yield flag matter to no list. */
  lemma DepthKeepsCore(w: World, w1: World)
    requires Core(w, 0) && w1 == w.(k := w.k.(depth := w1.k.depth, missed := w1.k.missed,
                                              missedYield := w1.k.missedYield))
    ensures Core(w1, 0) && forall m :: At(w1.k, m) == At(w.k, m)
  {
    hide Agreement;
    SameListsAgree(w.k, w1.k);
    forall x | x in w1.k.generic
      ensures TaskOk(w1, 0, x)
    {
      assert TaskOk(w, 0, x);
    }
    SameDelays(w.k, w1.k);
  }

  lemma SameDelays(k: State, k1: State)
    requires DelaysOk(k) && k1.wake == k.wake && k1.delayed == k.delayed && k1.overflow == k.overflow
    requires k1.nextUnblock == k.nextUnblock
    requires At(k1, k.delayed) == At(k, k.delayed) && At(k1, k.overflow) == At(k, k.overflow)
    ensures DelaysOk(k1) && forall x :: WakeOf(k1, x) == WakeOf(k, x)
  {
    assert forall x :: WakeOf(k1, x) == WakeOf(k, x);
  }

  lemma {:induction false} CatchUpKeepsCore(w: World)
    requires Core(w, 0) && w.k.depth == 0
    ensures Core(CaughtUp(w), 0)
    ensures CatchUp(w.k).missed == 0 && CatchUp(w.k).depth == 0
    decreases w.k.missed
  {
    hide Core, Drainable;
    CoreIsDrainable(w, 0);
    if w.k.missed > 0 {
      ReplayKeepsCore(w);
      var w1 := ReplayOne(w);
      CoreIsDrainable(w1, 0);
      CatchUpKeepsCore(w1);
      assert CaughtUp(w) == CaughtUp(w1);
    }
  }

  /** Replaying the missed ticks wakes exactly the sleepers whose deadline has come. */
  lemma {:induction false} CatchUpWakesByDeadline(w: World, t: Task)
    requires Core(w, 0) && w.k.depth == 0 && t in w.k.generic
    ensures t in CatchUp(w.k).generic && t in CatchUp(w.k).priority
    ensures var l := CatchUp(w.k).generic[t];
            if w.k.generic[t] in {DelayedA, DelayedB} then
              if w.deadline[t] <= w.now + w.k.missed then l == Ready(CatchUp(w.k).priority[t]) else l == w.k.generic[t]
            else l == w.k.generic[t]
    decreases w.k.missed
  {
    assert TaskOk(w, 0, t);
    if w.k.missed > 0 {
      TickWakesAtDeadline(w, t);
      ReplayKeepsCore(w);
      var w1 := ReplayOne(w);
      CatchUpWakesByDeadline(w1, t);
      assert CatchUp(w1.k) == CatchUp(w.k);
      CatchUpKeepsCore(w);
      assert TaskOk(CaughtUp(w), 0, t);
    }
  }
}
