// What a run looks like in which no time passes and nobody is deleted: where each task is, its
// priorities, who runs, and who waits for the event of queue 0. Small enough to follow concrete runs
// of the scheduler with, from its start on.

module Scenes {
  import opened Sequences
  import opened Ticks
  import opened Lists
  import opened KernelState
  import opened KernelWorld
  import opened KernelOps
  import opened KernelRuns
  import opened PriorityInheritance

  datatype Scene = Scene(
    places: map<Task, ListId>,      // the list of the generic item
    events: map<Task, ListId>,      // the list of the event item
    ranks: map<Task, nat>,
    priorities: map<Task, nat>,
    bases: map<Task, nat>,
    running: Task,
    depth: nat,
    waiting: seq<Task>)             // the event list of queue 0

  ghost predicate Shows(w: World, s: Scene) {
    && Inv(w)
    && w.k.generic == s.places && w.k.event == s.events && w.k.running == s.running && w.k.depth == s.depth
    && w.k.rank == s.ranks && w.k.priority == s.priorities && w.k.basePriority == s.bases
    && At(w.k, Event(0)) == s.waiting && At(w.k, Pending) == [] && w.k.missed == 0 && !w.k.missedYield
  }

  lemma Start(t: Task, p: nat)
    ensures var q := ClipPriority(p);
            Shows(Initial(t, p), Scene(map[t := Ready(q)], map[], map[t := RankFor(q)], map[t := q], map[t := q], t,
                                       0, []))
  {
    InitialHolds(t, p);
    hide Inv;
    var empty := State(map[], map[], map[], map[], map[], map[], map[], DelayedA, DelayedB, t,
                       0, 0, 0, MAX_DELAY, 0, 0, 0, 0, false);
    CreatedPriorities(empty, t, p);
  }

  lemma Creates(w: World, s: Scene, t: Task, p: nat) returns (w1: World)
    requires Shows(w, s) && t !in s.places
    ensures var q := ClipPriority(p);
            && Follows(w, CreateTask(t, p), w1)
            && Shows(w1, s.(places := s.places[t := Ready(q)], ranks := s.ranks[t := RankFor(q)],
                            priorities := s.priorities[t := q], bases := s.bases[t := q]))
  {
    hide Inv, Create;
    StepKeepsInv(w, CreateTask(t, p));
    CreateEffect(w.k, t, p);
    CreatedPriorities(w.k, t, p);
    w1 := Step(w, CreateTask(t, p));
  }

  lemma Suspends(w: World, s: Scene) returns (w1: World)
    requires Shows(w, s)
    ensures Follows(w, SuspendScheduler, w1) && Shows(w1, s.(depth := s.depth + 1))
  {
    hide Inv;
    StepKeepsInv(w, SuspendScheduler);
    w1 := Step(w, SuspendScheduler);
  }

  /** With nothing pending and no tick missed, resuming the scheduler does just that. */
  lemma Resumes(w: World, s: Scene) returns (w1: World)
    requires Shows(w, s) && s.depth == 1
    ensures Follows(w, ResumeScheduler, w1) && Shows(w1, s.(depth := 0))
  {
    hide Inv;
    StepKeepsInv(w, ResumeScheduler);
    w1 := Step(w, ResumeScheduler);
  }

  /** The single most urgent ready task runs next. */
  lemma SwitchesTo(w: World, s: Scene, t: Task) returns (w1: World)
    requires Shows(w, s) && s.depth == 0 && t in s.places && s.places[t].Ready?
    requires forall x | x in s.places && x != t && s.places[x].Ready? ::
               x in s.priorities && t in s.priorities && s.priorities[x] < s.priorities[t]
    ensures Follows(w, Switch, w1) && Shows(w1, s.(running := t))
  {
    hide Inv, Core, SwitchContext, Drainable, SameTasks, SameButEvent;
    StepKeepsInv(w, Switch);
    Prepared(w);
    SwitchSelects(w);
    SwitchedFields(w.k);
    w1 := Step(w, Switch);
  }

  /** The running task goes to wait for the event of queue 0, without a time limit. */
  lemma Waits(w: World, s: Scene) returns (w1: World)
    requires Shows(w, s) && s.depth > 0 && s.running in s.places && s.places[s.running].Ready?
    ensures s.running in s.ranks && Follows(w, WaitFor(0, MAX_DELAY), w1)
    ensures Shows(w1, s.(places := s.places[s.running := Suspended], events := s.events[s.running := Event(0)],
                         waiting := InsertAt(s.waiting,
                                             InsertPosition(ValuesOf(s.waiting, s.ranks), s.ranks[s.running]),
                                             s.running)))
  {
    hide Inv, Core, Drainable, SameTasks, PlaceOnEventList, SameButEvent;
    StepKeepsInv(w, WaitFor(0, MAX_DELAY));
    Prepared(w);
    KeyFacts(w.k, w.k.running);
    w1 := Step(w, WaitFor(0, MAX_DELAY));
    WaitMaps(w.k, 0, MAX_DELAY);
    EventListAfterPlacing(w.k, 0, MAX_DELAY, 0);
    InsertedAt(w.k, Event(0));
    Parked(w);
  }

  lemma Parked(w: World)
    requires Inv(w) && IsReady(w.k, w.k.running) && w.k.running in w.k.rank
    ensures var k1 := PlaceOnEventList(w.k, 0, MAX_DELAY);
            && k1.generic == w.k.generic[w.k.running := Suspended]
            && k1.event == w.k.event[w.k.running := Event(0)]
            && k1 == w.k.(lists := k1.lists, generic := k1.generic, event := k1.event, wake := k1.wake,
                          nextUnblock := k1.nextUnblock)
            && At(k1, Pending) == At(w.k, Pending)
  {
    hide Inv, Core, InsertByRank, TakeGeneric, Append, SameButEvent, Drainable, SameTasks;
    Prepared(w);
    InsertByRankEffect(w, 0);
    var k0 := InsertByRank(w.k, Event(0), w.k.running);
    RankKeepsGeneric(w.k, Event(0), w.k.running);
    ParkBlocks(w, k0, w.k.running);
    ReadyContainer(w.k);
    ParkedPending(w.k, k0);
  }

  lemma ReadyContainer(k: State)
    requires IsReady(k, k.running)
    ensures !k.generic[k.running].ForEvents()
  {}

  lemma ParkedPending(k: State, k0: State)
    requires k.running in k.rank && k0 == InsertByRank(k, Event(0), k.running)
    requires k.running in k.generic && k.running in k0.generic && !k0.generic[k.running].ForEvents()
    ensures At(Append(TakeGeneric(k0, k.running), Suspended, k.running), Pending) == At(k, Pending)
  {
    hide InsertAt, Without, InsertPosition;
  }

  /** The ready task t, less urgent than the running one, takes over its priority. */
  lemma Inherits(w: World, s: Scene, t: Task) returns (w1: World)
    requires Shows(w, s) && t in s.places && s.places[t].Ready? && s.running in s.places
    requires t in s.priorities && s.running in s.priorities && s.priorities[t] < s.priorities[s.running]
    ensures var p := s.priorities[s.running];
            && Follows(w, InheritBy(t), w1)
            && Shows(w1, s.(places := s.places[t := Ready(p)], ranks := s.ranks[t := RankFor(p)],
                            priorities := s.priorities[t := p]))
  {
    hide Inv, Drainable, SameTasks, Inherit;
    StepKeepsInv(w, InheritBy(t));
    w1 := Step(w, InheritBy(t));
    InheritedPriorities(w.k, t);
    Requeues(w, t);
  }

  lemma Requeues(w: World, t: Task)
    requires Inv(w) && IsReady(w.k, t) && w.k.running in w.k.generic
    requires t in w.k.priority && w.k.running in w.k.priority && w.k.priority[t] < w.k.priority[w.k.running]
    ensures var k1 := Inherit(w.k, t);
            && k1.generic == w.k.generic[t := Ready(w.k.priority[w.k.running])] && k1.event == w.k.event
            && k1 == w.k.(lists := k1.lists, generic := k1.generic, rank := k1.rank, priority := k1.priority,
                          topReady := k1.topReady)
            && forall m: ListId | m.ForEvents() :: At(k1, m) == At(w.k, m)
  {
    hide Inv, Core, Agreement, AddReady, TakeGeneric, TaskOk, Reprioritised, Drainable, SameTasks, At;
    Facts(w, t);
    KeyFacts(w.k, t);
    InItsReadyList(w, t);
    InItsReadyList(w, w.k.running);
    ReadyIsUnlisted(w, t);
    var p := w.k.priority[w.k.running];
    var k1 := w.k.(rank := w.k.rank[t := RankFor(p)], priority := w.k.priority[t := p]);
    ReprioritisedBy(w.k, t, p, w.k.basePriority[t], RankFor(p));
    ReprioritisedDrainable(w.k, k1, t);
    RequeueEffect(k1, t);
  }

  lemma RequeueEffect(k: State, t: Task)
    requires Drainable(k) && SameTasks(k) && t in k.generic && t !in k.event
    ensures t in k.priority
    ensures var k1 := AddReady(TakeGeneric(k, t), t);
            && k1 == k.(lists := k1.lists, generic := k.generic[t := Ready(k.priority[t])], topReady := k1.topReady)
            && forall m: ListId | m.ForEvents() :: At(k1, m) == At(k, m)
  {
    hide Agreement, AddReady, TakeGeneric, MakeReady, At;
    GenericAlone(k, t);
    MakeReadyEffect(k, t);
    assert k.event - {t} == k.event;
    forall m: ListId | m.ForEvents()
      ensures At(MakeReady(k, t), m) == At(k, m)
    {
      NotListed(k, m, t);
    }
  }

  /** A new base priority for a task that is not in the ready list of the old one. */
  lemma Rebases(w: World, s: Scene, t: Task, p: nat) returns (w1: World)
    requires Shows(w, s) && t in s.places && t in s.bases && t in s.priorities
    requires s.places[t] != Ready(s.bases[t]) && s.bases[t] != ClipPriority(p)
    ensures var q := ClipPriority(p);
            && Follows(w, SetPriority(t, p), w1)
            && Shows(w1, s.(ranks := s.ranks[t := RankFor(q)], bases := s.bases[t := q],
                            priorities := if s.bases[t] == s.priorities[t] then s.priorities[t := q] else s.priorities))
  {
    hide Inv, Drainable, SameTasks;
    StepKeepsInv(w, SetPriority(t, p));
    w1 := Step(w, SetPriority(t, p));
  }
}
