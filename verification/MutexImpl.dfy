// A mutex as FreeRTOS/queue.c runs it: a queue of length one without storage, whose calls on the
// scheduler pass priorities to the holder and take them back. Each method is proved to be the action
// of MutexRuns of the same name, so that what MutexRuns proves of runs holds of sequences of calls.

module MutexImpl {
  import opened Sequences
  import opened KernelState
  import opened KernelWorld
  import opened KernelOps
  import opened KernelRuns
  import opened KernelImpl
  import opened PriorityInheritance
  import opened MutexRuns

  /** The caller is still ready after it passed its priority on. */
  lemma InheritEnables(w: World, h: Task, queue: nat, ticks: nat)
    requires KernelWorld.Inv(w) && KernelOps.Enabled(w, InheritBy(h)) && KernelOps.Enabled(w, WaitFor(queue, ticks))
    requires Drainable(w.k) && SameTasks(w.k)
    ensures KernelOps.Enabled(Step(w, InheritBy(h)), WaitFor(queue, ticks))
  {
    hide KernelWorld.Inv, Drainable, Inherit;
    InheritKeepsCaller(w.k, h);
  }

  lemma InheritKeepsCaller(k: State, h: Task)
    requires SameTasks(k) && h in k.generic && IsReady(k, k.running)
    ensures var k1 := Inherit(k, h);
            IsReady(k1, k1.running) && k1.running == k.running && k1.depth == k.depth
  {
    hide Inherit;
    InheritCounters(k, h);
    if h != k.running {
      InheritOthers(k, h, k.running);
    }
  }

  lemma InheritCounters(k: State, h: Task)
    requires SameTasks(k) && h in k.generic && k.running in k.generic
    ensures var k1 := Inherit(k, h);
            k1.running == k.running && k1.depth == k.depth && (h == k.running ==> k1 == k)
  {
    hide At, InsertAt, Without;
  }

  lemma DisinheritKeepsCaller(w: World, h: Task)
    requires KernelWorld.Inv(w) && IsReady(w.k, h) && IsReady(w.k, w.k.running) && Drainable(w.k) && SameTasks(w.k)
    ensures var k1 := Step(w, DisinheritBy(h)).k;
            k1.running in k1.priority
  {
    hide KernelWorld.Inv, Drainable, InsertAt, Without;
    DisinheritedPriorities(w.k, h);
  }

  class MutexQueue {
    const kernel: Kernel
    const queue: nat                 // which event list xTasksWaitingToReceive is
    var messagesWaiting: nat         // uxMessagesWaiting
    var holder: Holder               // pxMutexHolder
    ghost var blockers: seq<Blocker>

    ghost function Value(): Mutex
      reads this
    {
      Mutex(messagesWaiting, holder, blockers)
    }

    /** The site s shows the scheduler and this mutex as they are. */
    ghost predicate Shows(s: Site)
      reads this, kernel
    {
      && kernel.Valid() && MutexRuns.Inv(s) && s.w == kernel.w
      && queue in s.mutexes && s.mutexes[queue] == Value()
    }

    /** xQueueCreateMutex, in particular its closing call of xQueueGenericSend. */
    constructor (scheduler: Kernel, number: nat)
      ensures kernel == scheduler && queue == number && Value() == Mutex(1, Nobody, [])
    {
      kernel := scheduler;
      queue := number;
      messagesWaiting := 1;
      holder := Nobody;
      blockers := [];
    }

    /** xQueueGenericReceive on a mutex, without waiting: its first critical section. */
    method TryTake(ghost s: Site) returns (taken: bool)
      requires Shows(s) && s.blocking == NotBlocking && IsReady(kernel.k, kernel.k.running)
      modifies this
      ensures taken <==> old(messagesWaiting) > 0
      ensures MutexRuns.Enabled(s, Take(queue)) <==> taken
      ensures Shows(if taken then Next(s, Take(queue)) else s)
    {
      hide KernelWorld.Inv, KernelOps.Enabled, Step, Given;
      taken := messagesWaiting > 0;
      if taken {
        SiteStepKeepsInv(s, Take(queue));
        messagesWaiting := messagesWaiting - 1;
        holder := Held(kernel.k.running);
        blockers := [];
      }
    }

    /** What xQueueGenericReceive does, with the scheduler suspended, once it found the mutex taken:
        the holder inherits the caller's priority and the caller goes to the event list. */
    method Block(ghost s: Site, ticks: nat)
      requires Shows(s) && MutexRuns.Enabled(s, StartBlocking(queue)) && KernelOps.Enabled(s.w, WaitFor(queue, ticks))
      modifies this, kernel
      ensures var s1 := Next(s, StartBlocking(queue));
              && MutexRuns.Inv(s1) && MutexRuns.Enabled(s1, FinishBlocking(ticks))
              && Shows(Next(s1, FinishBlocking(ticks)))
    {
      hide KernelWorld.Inv, KernelOps.Enabled, Step, Drainable, SameTasks, Given;
      ghost var s1 := Next(s, StartBlocking(queue));
      SiteStepKeepsInv(s, StartBlocking(queue));
      Between(s);
      InheritEnables(s.w, holder.t, queue, ticks);
      RunningKnown(s.w);
      blockers := blockers + [Blocker(kernel.k.running, kernel.k.priority[kernel.k.running])];
      kernel.PriorityInherit(holder.t);
      SiteStepKeepsInv(s1, FinishBlocking(ticks));
      kernel.PlaceOnEventList(queue, ticks);
    }

    /** xQueueGenericSend on a mutex: prvCopyDataToQueue frees it, then the first waiter is woken.
        Giving a mutex that nobody holds has no effect. */
    method Give(ghost s: Site) returns (given: bool)
      requires Shows(s) && MutexRuns.Enabled(s, Action.Give(queue))
      modifies this, kernel
      ensures given <==> old(messagesWaiting) < 1
      ensures Shows(Next(s, Action.Give(queue)))
    {
      hide KernelWorld.Inv, KernelOps.Enabled, Step, Drainable, SameTasks, Given;
      given := messagesWaiting < 1;
      if given {
        SiteStepKeepsInv(s, Action.Give(queue));
        HolderReady(s, queue);
        Free(holder.t);
      }
    }

    /** prvCopyDataToQueue on a mutex, and the wake-up that follows it. */
    method Free(h: Task)
      requires kernel.Valid() && holder == Held(h) && IsReady(kernel.k, h) && IsReady(kernel.k, kernel.k.running)
      modifies this, kernel
      ensures kernel.Valid() && kernel.w == Given(old(kernel.w), queue, h)
      ensures Value() == Mutex(old(messagesWaiting) + 1, Nobody, [])
    {
      hide KernelWorld.Inv, Step, Drainable, SameTasks;
      StepKeepsInv(kernel.w, DisinheritBy(h));
      DisinheritKeepsCaller(kernel.w, h);
      kernel.PriorityDisinherit(h);
      holder := Nobody;
      messagesWaiting := messagesWaiting + 1;
      blockers := [];
      if At(kernel.k, Event(queue)) != [] {
        var _ := kernel.RemoveFromEventList(queue);
      }
    }
  }
}
