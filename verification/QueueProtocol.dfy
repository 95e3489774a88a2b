// The queue calls that may block (xQueueGenericSend and xQueueGenericReceive of FreeRTOS/queue.c)
// cut into the steps between which interrupts and, unless the scheduler is suspended, other tasks
// may run. In every interleaving no task waits for a message or a free place that is there to take
// without another task being on its way to take it.

module QueueProtocol {
  import opened QueueSignals
  import opened Sequences

  datatype Call = Send | Receive | Peek

  /** Where a task is within a call: each point is just before the step it is named after. */
  datatype Point =
    | Outside
    | Trying             // the critical section at the top of the loop
    | Suspending         // vTaskSuspendAll
    | Locking            // prvLockQueue
    | CheckingTime       // xTaskCheckForTimeOut
    | Testing            // prvIsQueueFull or prvIsQueueEmpty
    | Placing            // vTaskPlaceOnEventList
    | UnlockingTx        // the first critical section of prvUnlockQueue
    | UnlockingRx        // the second
    | Resuming           // xTaskResumeAll
  {
    predicate SchedulerSuspended() {
      this != Outside && this != Trying && this != Suspending
    }

    predicate TxLocked() {
      CheckingTime? || Testing? || Placing? || UnlockingTx?
    }

    predicate RxLocked() {
      TxLocked() || UnlockingRx?
    }
  }

  datatype Thread = Thread(call: Call, point: Point, givingUp: bool)

  datatype Net = Net(q: Signals, threads: map<Task, Thread>)

  datatype Action =
    | Begin(t: Task, call: Call)
    | Try(t: Task, mayWait: bool)
    | Suspend(t: Task)
    | LockQueue(t: Task)
    | CheckTime(t: Task, timedOut: bool)
    | Test(t: Task)
    | Place(t: Task, position: nat)
    | UnlockQueueTx(t: Task)
    | UnlockQueueRx(t: Task)
    | Resume(t: Task)
    | InterruptSend
    | InterruptReceive
    | Expire(t: Task)            // a tick ends the wait of t

  predicate Waits(q: Signals, t: Task) {
    t in q.receivers || t in q.senders
  }

  predicate Suspended(n: Net) {
    exists t | t in n.threads :: n.threads[t].point.SchedulerSuspended()
  }

  predicate At(n: Net, t: Task, p: Point) {
    t in n.threads && n.threads[t].point == p
  }

  /** A task steps if it is at that point and runs: while a task has suspended the scheduler no
      other task does, and a task on an event list only as long as it is that one task itself. */
  predicate Enabled(n: Net, a: Action) {
    match a
    case Begin(t, _) => At(n, t, Outside) && !Suspended(n)
    case Try(t, _) => At(n, t, Trying) && !Suspended(n) && !Waits(n.q, t)
    case Suspend(t) => At(n, t, Suspending) && !Suspended(n)
    case LockQueue(t) => At(n, t, Locking)
    case CheckTime(t, _) => At(n, t, CheckingTime)
    case Test(t) => At(n, t, Testing)
    case Place(t, position) =>
      && At(n, t, Placing)
      && position <= if n.threads[t].call == Send then |n.q.senders| else |n.q.receivers|
    case UnlockQueueTx(t) => At(n, t, UnlockingTx)
    case UnlockQueueRx(t) => At(n, t, UnlockingRx)
    case Resume(t) => At(n, t, Resuming)
    case InterruptSend => true
    case InterruptReceive => true
    case Expire(t) => Waits(n.q, t) && !Suspended(n)
  }

  function Move(n: Net, t: Task, p: Point): Net
    requires t in n.threads
  {
    n.(threads := n.threads[t := n.threads[t].(point := p)])
  }

  /** t is no longer counted as woken: it is retrying now. */
  function Retried(q: Signals, t: Task): Signals {
    q.(wokenReceivers := q.wokenReceivers - {t}, wokenSenders := q.wokenSenders - {t})
  }

  predicate CanProceed(q: Signals, call: Call) {
    if call == Send then q.messages < q.length else q.messages > 0
  }

  function Proceed(q: Signals, call: Call): Signals
    requires CanProceed(q, call)
  {
    match call
    case Send => Sent(q)
    case Receive => Received(q)
    case Peek => Peeked(q)
  }

  function Next(n: Net, a: Action): Net
    requires Enabled(n, a)
  {
    match a
    case Begin(t, call) => n.(threads := n.threads[t := Thread(call, Trying, false)])
    case Try(t, mayWait) =>
      var q := Retried(n.q, t);
      var call := n.threads[t].call;
      if CanProceed(q, call) then Move(n.(q := Proceed(q, call)), t, Outside)
      else Move(n.(q := q), t, if mayWait then Suspending else Outside)
    case Suspend(t) => Move(n, t, Locking)
    case LockQueue(t) => Move(n.(q := Lock(n.q)), t, CheckingTime)
    case CheckTime(t, timedOut) =>
      var n1 := Move(n, t, if timedOut then UnlockingTx else Testing);
      n1.(threads := n1.threads[t := n1.threads[t].(givingUp := timedOut)])
    case Test(t) =>
      var blocked := if n.threads[t].call == Send then n.q.messages == n.q.length else n.q.messages == 0;
      Move(n, t, if blocked then Placing else UnlockingTx)
    case Place(t, position) =>
      var q := if n.threads[t].call == Send then n.q.(senders := InsertAt(n.q.senders, position, t))
               else n.q.(receivers := InsertAt(n.q.receivers, position, t));
      Move(n.(q := q), t, UnlockingTx)
    case UnlockQueueTx(t) => Move(n.(q := UnlockTx(n.q)), t, UnlockingRx)
    case UnlockQueueRx(t) => Move(n.(q := UnlockRx(n.q)), t, Resuming)
    case Resume(t) => Move(n, t, if n.threads[t].givingUp then Outside else Trying)
    case InterruptSend => n.(q := SentFromISR(n.q))
    case InterruptReceive => n.(q := ReceivedFromISR(n.q))
    case Expire(t) => n.(q := n.q.(receivers := Without(n.q.receivers, t), senders := Without(n.q.senders, t)))
  }

  // ----- the invariant ----------------------------------------------------------------------------

  /** The lock counts are in use exactly while a task is between locking and unlocking. */
  ghost predicate LocksOk(n: Net) {
    && (forall t, u | t in n.threads && u in n.threads && t != u ::
          !(n.threads[t].point.SchedulerSuspended() && n.threads[u].point.SchedulerSuspended()))
    && (n.q.txLock != UNLOCKED <==> exists t | t in n.threads :: n.threads[t].point.TxLocked())
    && (n.q.rxLock != UNLOCKED <==> exists t | t in n.threads :: n.threads[t].point.RxLocked())
  }

  /** A thread's place on the lists fits its point; one about to wait has found nothing that was not
      counted since the lock. */
  ghost predicate ThreadOk(q: Signals, t: Task, h: Thread) {
    && (t in q.receivers || t in q.wokenReceivers ==> h.call != Send)
    && (t in q.senders || t in q.wokenSenders ==> h.call == Send)
    && (Waits(q, t) || t in q.wokenReceivers || t in q.wokenSenders ==>
          !h.givingUp && (h.point.Trying? || h.point.UnlockingTx? || h.point.UnlockingRx? || h.point.Resuming?))
    && (h.point.Placing? ==>
          !h.givingUp && if h.call == Send then q.length - q.messages <= q.rxLock else q.messages <= q.txLock)
    && (h.point.Testing? ==> !h.givingUp)
  }

  ghost predicate Inv(n: Net) {
    && Served(n.q)
    && LocksOk(n)
    && (forall t | t in n.threads :: ThreadOk(n.q, t, n.threads[t]))
    && (forall t | Waits(n.q, t) || t in n.q.wokenReceivers || t in n.q.wokenSenders :: t in n.threads)
  }

  /** The start: nobody is in a call, the queue is unlocked and nobody waits. */
  ghost predicate Initial(n: Net) {
    && n.q.messages <= n.q.length && n.q.txLock == n.q.rxLock == UNLOCKED
    && n.q.receivers == [] && n.q.senders == [] && n.q.wokenReceivers == {} && n.q.wokenSenders == {}
    && forall t | t in n.threads :: n.threads[t].point == Outside
  }

  lemma InitialHolds(n: Net)
    requires Initial(n)
    ensures Inv(n)
  {}

  // ----- every step keeps it ------------------------------------------------------------------------

  /** Only thread t moved, and the lock counts fit its new point. */
  lemma MoveKeepsLocks(n: Net, n1: Net, t: Task)
    requires LocksOk(n) && t in n.threads && t in n1.threads && n1.threads == n.threads[t := n1.threads[t]]
    requires n.threads[t].point.SchedulerSuspended() || !Suspended(n) || !n1.threads[t].point.SchedulerSuspended()
    requires n1.q.txLock == UNLOCKED <==>
               if n1.threads[t].point.TxLocked() then false
               else n.q.txLock == UNLOCKED || n.threads[t].point.TxLocked()
    requires n1.q.rxLock == UNLOCKED <==>
               if n1.threads[t].point.RxLocked() then false
               else n.q.rxLock == UNLOCKED || n.threads[t].point.RxLocked()
    ensures LocksOk(n1)
  {
    OnlyOne(n, t);
    assert forall u | u in n1.threads && u != t :: n1.threads[u] == n.threads[u];
    if n.q.txLock != UNLOCKED {
      var u :| u in n.threads && n.threads[u].point.TxLocked();
      assert u != t ==> n1.threads[u].point.TxLocked();
    }
    if n.q.rxLock != UNLOCKED {
      var u :| u in n.threads && n.threads[u].point.RxLocked();
      assert u != t ==> n1.threads[u].point.RxLocked();
    }
  }

  /** At most one thread has the scheduler suspended, so at most one has the queue locked. */
  lemma OnlyOne(n: Net, t: Task)
    requires LocksOk(n) && t in n.threads
    ensures n.threads[t].point.TxLocked() ==>
              n.q.txLock != UNLOCKED && forall u | u in n.threads && u != t :: !n.threads[u].point.TxLocked()
    ensures n.threads[t].point.RxLocked() ==>
              n.q.rxLock != UNLOCKED && forall u | u in n.threads && u != t :: !n.threads[u].point.RxLocked()
  {}

  /** A thread that is not about to wait is only touched through the lists. */
  lemma ThreadStays(q: Signals, q1: Signals, u: Task, h: Thread)
    requires ThreadOk(q, u, h) && !h.point.Placing?
    requires (u in q1.receivers || u in q1.wokenReceivers) ==> (u in q.receivers || u in q.wokenReceivers)
    requires (u in q1.senders || u in q1.wokenSenders) ==> (u in q.senders || u in q.wokenSenders)
    ensures ThreadOk(q1, u, h)
  {}

  /** Nobody came onto the receivers' or the senders' side, except perhaps t. */
  ghost predicate NobodyElseJoins(q: Signals, q1: Signals, t: Task) {
    && (forall u | u != t && (u in q1.receivers || u in q1.wokenReceivers) :: u in q.receivers || u in q.wokenReceivers)
    && (forall u | u != t && (u in q1.senders || u in q1.wokenSenders) :: u in q.senders || u in q.wokenSenders)
  }

  /** What is left to show for a step of thread t. */
  lemma ThreadStep(n: Net, n1: Net, t: Task)
    requires Inv(n) && t in n.threads && t in n1.threads && n1.threads == n.threads[t := n1.threads[t]]
    requires n.threads[t].point.SchedulerSuspended() || !Suspended(n)
    requires n1.q.txLock == UNLOCKED <==>
               if n1.threads[t].point.TxLocked() then false
               else n.q.txLock == UNLOCKED || n.threads[t].point.TxLocked()
    requires n1.q.rxLock == UNLOCKED <==>
               if n1.threads[t].point.RxLocked() then false
               else n.q.rxLock == UNLOCKED || n.threads[t].point.RxLocked()
    requires Served(n1.q) && ThreadOk(n1.q, t, n1.threads[t])
    requires NobodyElseJoins(n.q, n1.q, t)
    ensures Inv(n1)
  {
    hide Served;
    MoveKeepsLocks(n, n1, t);
    forall u | u in n1.threads
      ensures ThreadOk(n1.q, u, n1.threads[u])
    {
      if u != t {
        assert !n.threads[u].point.Placing?;
        ThreadStays(n.q, n1.q, u, n.threads[u]);
      }
    }
  }

  lemma FewerWoken(s: set<Task>, t: Task)
    ensures |s - {t}| >= |s| - 1
  {
    if t in s {
      assert |s - {t}| == |s| - 1;
    } else {
      assert s - {t} == s;
    }
  }

  /** A retry by a task that was woken to send, or by one that was woken to receive, or by one that
      was not woken at all: what it takes away from the count it takes away from the demand. */
  lemma TryServes(q: Signals, t: Task, call: Call)
    requires Served(q) && !Waits(q, t)
    requires t in q.wokenReceivers ==> call != Send
    requires t in q.wokenSenders ==> call == Send
    ensures var q1 := Retried(q, t);
            Served(if CanProceed(q1, call) then Proceed(q1, call) else q1)
  {
    var q1 := Retried(q, t);
    FewerWoken(q.wokenReceivers, t);
    FewerWoken(q.wokenSenders, t);
    assert t !in q.wokenReceivers ==> q1.wokenReceivers == q.wokenReceivers;
    assert t !in q.wokenSenders ==> q1.wokenSenders == q.wokenSenders;
    if CanProceed(q1, call) {
      match call
      case Send => TrySend(q, q1);
      case Receive => TryReceive(q, q1);
      case Peek => TryPeek(q, q1);
    }
  }

  lemma TrySend(q: Signals, q1: Signals)
    requires Served(q) && Orderly(q1) && q1.messages < q1.length
    requires q1 == q.(wokenReceivers := q.wokenReceivers, wokenSenders := q1.wokenSenders)
    requires |q1.wokenSenders| >= |q.wokenSenders| - 1
    ensures Served(Sent(q1))
  {
    if q1.receivers != [] {
      WakeReceiverCounts(q1.(messages := q1.messages + 1));
    }
  }

  lemma TryReceive(q: Signals, q1: Signals)
    requires Served(q) && Orderly(q1) && q1.messages > 0
    requires q1 == q.(wokenReceivers := q1.wokenReceivers)
    requires |q1.wokenReceivers| >= |q.wokenReceivers| - 1
    ensures Served(Received(q1))
  {
    if q1.senders != [] {
      WakeSenderCounts(q1.(messages := q1.messages - 1));
    }
  }

  lemma TryPeek(q: Signals, q1: Signals)
    requires Served(q) && Orderly(q1)
    requires q1 == q.(wokenReceivers := q1.wokenReceivers)
    requires |q1.wokenReceivers| >= |q.wokenReceivers| - 1
    ensures Served(Peeked(q1))
  {
    if q1.receivers != [] {
      WakeReceiverCounts(q1);
    }
  }

  lemma TryKeeps(n: Net, t: Task, mayWait: bool)
    requires Inv(n) && Enabled(n, Try(t, mayWait))
    ensures Inv(Next(n, Try(t, mayWait)))
  {
    hide Served, LocksOk;
    TryServes(n.q, t, n.threads[t].call);
    ThreadStep(n, Next(n, Try(t, mayWait)), t);
  }

  lemma PlaceServes(q: Signals, t: Task, call: Call, position: nat)
    requires Served(q) && !Waits(q, t) && t !in q.wokenReceivers && t !in q.wokenSenders
    requires if call == Send then position <= |q.senders| && q.length - q.messages <= q.rxLock
             else position <= |q.receivers| && q.messages <= q.txLock
    ensures Served(if call == Send then q.(senders := InsertAt(q.senders, position, t))
                   else q.(receivers := InsertAt(q.receivers, position, t)))
  {
    if call == Send {
      InsertAtMembers(q.senders, position, t);
    } else {
      InsertAtMembers(q.receivers, position, t);
    }
  }

  lemma PlaceKeeps(n: Net, t: Task, position: nat)
    requires Inv(n) && Enabled(n, Place(t, position))
    ensures Inv(Next(n, Place(t, position)))
  {
    hide Served, LocksOk;
    var n1 := Next(n, Place(t, position));
    PlaceServes(n.q, t, n.threads[t].call, position);
    InsertAtMembers(n.q.senders, if n.threads[t].call == Send then position else 0, t);
    InsertAtMembers(n.q.receivers, if n.threads[t].call == Send then 0 else position, t);
    Locked(n, t);
    ThreadStep(n, n1, t);
  }

  /** A thread between locking and unlocking finds the queue locked. */
  lemma Locked(n: Net, t: Task)
    requires Inv(n) && t in n.threads
    ensures n.threads[t].point.TxLocked() ==> n.q.txLock != UNLOCKED
    ensures n.threads[t].point.RxLocked() ==> n.q.rxLock != UNLOCKED
    ensures n.q.txLock >= UNLOCKED && n.q.rxLock >= UNLOCKED && n.q.messages <= n.q.length
  {}

  lemma MoveKeeps(n: Net, a: Action)
    requires Inv(n) && Enabled(n, a)
    requires a.Begin? || a.Suspend? || a.CheckTime? || a.Test? || a.Resume?
    ensures Inv(Next(n, a))
  {
    hide Served, LocksOk;
    Locked(n, a.t);
    ThreadStep(n, Next(n, a), a.t);
  }

  lemma LockKeeps(n: Net, t: Task)
    requires Inv(n) && Enabled(n, LockQueue(t))
    ensures Inv(Next(n, LockQueue(t)))
  {
    hide LocksOk;
    Locked(n, t);
    NotYetLocked(n, t);
    ThreadStep(n, Next(n, LockQueue(t)), t);
  }

  lemma NotYetLocked(n: Net, t: Task)
    requires LocksOk(n) && At(n, t, Locking)
    ensures n.q.txLock == n.q.rxLock == UNLOCKED
  {}

  lemma UnlockKeeps(n: Net, t: Task, a: Action)
    requires Inv(n) && Enabled(n, a) && (a == UnlockQueueTx(t) || a == UnlockQueueRx(t))
    ensures Inv(Next(n, a))
  {
    hide Served, LocksOk;
    Locked(n, t);
    if a == UnlockQueueTx(t) {
      UnlockTxServes(n.q);
      UnlockTxSame(n.q);
    } else {
      UnlockRxServes(n.q);
      UnlockRxSame(n.q);
    }
    ThreadStep(n, Next(n, a), t);
  }

  lemma {:induction false} UnlockTxSame(q: Signals)
    ensures forall u :: u in UnlockTx(q).receivers || u in UnlockTx(q).wokenReceivers <==>
              u in q.receivers || u in q.wokenReceivers
    decreases q.txLock
  {
    if q.txLock > LOCKED_UNMODIFIED && q.receivers != [] {
      UnlockTxSame(WakeReceiver(q).(txLock := q.txLock - 1));
      assert q.receivers == [q.receivers[0]] + q.receivers[1..];
    }
  }

  lemma {:induction false} UnlockRxSame(q: Signals)
    ensures forall u :: u in UnlockRx(q).senders || u in UnlockRx(q).wokenSenders <==>
              u in q.senders || u in q.wokenSenders
    decreases q.rxLock
  {
    if q.rxLock > LOCKED_UNMODIFIED && q.senders != [] {
      UnlockRxSame(WakeSender(q).(rxLock := q.rxLock - 1));
      assert q.senders == [q.senders[0]] + q.senders[1..];
    }
  }

  lemma InterruptKeeps(n: Net, a: Action)
    requires Inv(n) && (a == InterruptSend || a == InterruptReceive)
    ensures Inv(Next(n, a))
  {
    hide Served, ThreadOk, SentFromISR, ReceivedFromISR;
    InterruptsServe(n.q);
    Bounds(n.q);
    InterruptLocks(n.q);
    var n1 := Next(n, a);
    forall u | u in n1.threads
      ensures ThreadOk(n1.q, u, n1.threads[u])
    {
      InterruptThread(n.q, u, n.threads[u]);
    }
    forall u | Waits(n1.q, u) || u in n1.q.wokenReceivers || u in n1.q.wokenSenders
      ensures u in n1.threads
    {
      InterruptMembers(n.q, u);
    }
  }

  lemma InterruptLocks(q: Signals)
    requires q.txLock >= UNLOCKED && q.rxLock >= UNLOCKED
    ensures SentFromISR(q).txLock == UNLOCKED <==> q.txLock == UNLOCKED
    ensures ReceivedFromISR(q).rxLock == UNLOCKED <==> q.rxLock == UNLOCKED
    ensures SentFromISR(q).rxLock == q.rxLock && ReceivedFromISR(q).txLock == q.txLock
  {}

  lemma InterruptMembers(q: Signals, u: Task)
    ensures var q1 := SentFromISR(q);
            && (u in q1.receivers || u in q1.wokenReceivers ==> u in q.receivers || u in q.wokenReceivers)
            && q1.senders == q.senders && q1.wokenSenders == q.wokenSenders
    ensures var q1 := ReceivedFromISR(q);
            && (u in q1.senders || u in q1.wokenSenders ==> u in q.senders || u in q.wokenSenders)
            && q1.receivers == q.receivers && q1.wokenReceivers == q.wokenReceivers
  {}

  lemma InterruptThread(q: Signals, u: Task, h: Thread)
    requires ThreadOk(q, u, h) && q.messages <= q.length
             && (h.point.Placing? ==> q.txLock != UNLOCKED && q.rxLock != UNLOCKED)
    ensures ThreadOk(SentFromISR(q), u, h) && ThreadOk(ReceivedFromISR(q), u, h)
  {
    if h.point.Placing? {
    } else {
      hide SentFromISR, ReceivedFromISR;
      InterruptMembers(q, u);
    }
  }

  lemma Bounds(q: Signals)
    requires Served(q)
    ensures q.messages <= q.length && q.txLock >= UNLOCKED && q.rxLock >= UNLOCKED
  {}

  lemma ExpireServes(q: Signals, t: Task)
    requires Served(q)
    ensures Served(q.(receivers := Without(q.receivers, t), senders := Without(q.senders, t)))
  {
    WithoutNoDup(q.receivers, t);
    WithoutNoDup(q.senders, t);
    WithoutMembers(q.receivers, t);
    WithoutMembers(q.senders, t);
  }

  lemma ExpireKeeps(n: Net, t: Task)
    requires Inv(n) && Enabled(n, Expire(t))
    ensures Inv(Next(n, Expire(t)))
  {
    hide Served, LocksOk;
    ExpireServes(n.q, t);
    assert t in n.threads;
    Locked(n, t);
    ThreadStep(n, Next(n, Expire(t)), t);
  }

  lemma StepKeepsInv(n: Net, a: Action)
    requires Inv(n) && Enabled(n, a)
    ensures Inv(Next(n, a))
  {
    hide Inv, Next;
    match a
    case Try(t, mayWait) => TryKeeps(n, t, mayWait);
    case Place(t, position) => PlaceKeeps(n, t, position);
    case LockQueue(t) => LockKeeps(n, t);
    case UnlockQueueTx(t) => UnlockKeeps(n, t, a);
    case UnlockQueueRx(t) => UnlockKeeps(n, t, a);
    case InterruptSend => InterruptKeeps(n, a);
    case InterruptReceive => InterruptKeeps(n, a);
    case Expire(t) => ExpireKeeps(n, t);
    case _ => MoveKeeps(n, a);
  }

  // ----- over runs ------------------------------------------------------------------------------------

  /** The state after a sequence of actions, if each was enabled in its turn. */
  ghost predicate Reaches(n: Net, actions: seq<Action>, n1: Net)
    decreases |actions|
  {
    if actions == [] then n1 == n
    else Enabled(n, actions[0]) && Reaches(Next(n, actions[0]), actions[1..], n1)
  }

  lemma {:induction false} RunKeepsInv(n: Net, actions: seq<Action>, n1: Net)
    requires Inv(n) && Reaches(n, actions, n1)
    ensures Inv(n1)
    decreases |actions|
  {
    hide Inv, Next, Enabled;
    if actions != [] {
      StepKeepsInv(n, actions[0]);
      RunKeepsInv(Next(n, actions[0]), actions[1..], n1);
    }
  }

  /** A task that was woken, may run, and has yet to look at the queue again. */
  ghost predicate OnItsWay(n: Net, t: Task) {
    At(n, t, Trying) && !Waits(n.q, t)
  }

  /** A woken task that will look at the queue again: it is about to retry, or on its way there from
      the locked section in which it went to wait. */
  ghost predicate WillRetry(n: Net, t: Task) {
    && t in n.threads && !n.threads[t].givingUp
    && var p := n.threads[t].point;
       p.Trying? || p.UnlockingTx? || p.UnlockingRx? || p.Resuming?
  }

  /** In every reachable state, whoever holds the queue locked: as long as anybody waits to receive,
      there are no more messages than receivers woken for them or arrivals counted for the unlock;
      as long as anybody waits to send, no more free places than senders woken or fetches counted; and
      all those woken will retry. */
  lemma WakeUpsCoverTheQueue(n: Net, actions: seq<Action>, n1: Net)
    requires Initial(n) && Reaches(n, actions, n1)
    ensures n1.q.receivers != [] ==> n1.q.messages <= |n1.q.wokenReceivers| + Counted(n1.q.txLock)
    ensures n1.q.senders != [] ==> n1.q.length - n1.q.messages <= |n1.q.wokenSenders| + Counted(n1.q.rxLock)
    ensures forall t | t in n1.q.wokenReceivers ::
              WillRetry(n1, t) && n1.threads[t].call != Send && t !in n1.q.receivers
    ensures forall t | t in n1.q.wokenSenders :: WillRetry(n1, t) && n1.threads[t].call == Send && t !in n1.q.senders
    ensures Counted(n1.q.txLock) > 0 || Counted(n1.q.rxLock) > 0 ==>
              exists t | t in n1.threads :: n1.threads[t].point.RxLocked()
  {
    hide Reaches;
    InitialHolds(n);
    RunKeepsInv(n, actions, n1);
  }

  /** No lost wake-ups: in whatever state a run leaves the queue, while no task is inside its locked
      section: if a task waits to receive although there is a message, a woken receiver is on its way;
      if a task waits to send although there is a free place, a woken sender is on its way. */
  lemma NoLostWakeUps(n: Net, actions: seq<Action>, n1: Net)
    requires Initial(n) && Reaches(n, actions, n1) && !Suspended(n1)
    ensures n1.q.receivers != [] && n1.q.messages > 0 ==>
              exists t | t in n1.q.wokenReceivers :: OnItsWay(n1, t) && n1.threads[t].call != Send
    ensures n1.q.senders != [] && n1.q.messages < n1.q.length ==>
              exists t | t in n1.q.wokenSenders :: OnItsWay(n1, t) && n1.threads[t].call == Send
  {
    hide Reaches;
    InitialHolds(n);
    RunKeepsInv(n, actions, n1);
    if n1.q.receivers != [] && n1.q.messages > 0 {
      AllUnlocked(n1);
      var t :| t in n1.q.wokenReceivers;
      assert OnItsWay(n1, t);
    }
    if n1.q.senders != [] && n1.q.messages < n1.q.length {
      AllUnlocked(n1);
      var t :| t in n1.q.wokenSenders;
      assert OnItsWay(n1, t);
    }
  }

  lemma AllUnlocked(n: Net)
    requires Inv(n) && !Suspended(n)
    ensures n.q.txLock == n.q.rxLock == UNLOCKED
    ensures n.q.receivers != [] && n.q.messages > 0 ==> n.q.wokenReceivers != {}
    ensures n.q.senders != [] && n.q.messages < n.q.length ==> n.q.wokenSenders != {}
  {}

  // ----- how a call goes on -----------------------------------------------------------------------------

  /** The states that a sequence of actions goes through. */
  ghost predicate IsTrace(nets: seq<Net>, actions: seq<Action>) {
    && |nets| == |actions| + 1
    && forall i | 0 <= i < |actions| :: Follows(nets[i], actions[i], nets[i + 1])
  }

  ghost predicate Follows(n: Net, a: Action, n1: Net) {
    Enabled(n, a) && n1 == Next(n, a)
  }

  lemma {:induction false} TraceKeepsInv(nets: seq<Net>, actions: seq<Action>, i: nat)
    requires IsTrace(nets, actions) && Inv(nets[0]) && i < |nets|
    ensures Inv(nets[i])
  {
    hide Inv, Next, Enabled;
    if i > 0 {
      TraceKeepsInv(nets, actions, i - 1);
      assert Follows(nets[i - 1], actions[i - 1], nets[i]);
      StepKeepsInv(nets[i - 1], actions[i - 1]);
    }
  }

  /** The task is in the section of its call that runs with the scheduler suspended. */
  predicate Inside(n: Net, t: Task) {
    t in n.threads && n.threads[t].point.SchedulerSuspended()
  }

  predicate InsideFrom(nets: seq<Net>, i: nat, j: nat, t: Task)
    requires j <= |nets|
  {
    forall l | i < l < j :: Inside(nets[l], t)
  }

  /** The task is on the list of those that wait for what its call wants. */
  predicate WaitsForIt(n: Net, t: Task) {
    t in n.threads && t in if n.threads[t].call == Send then n.q.senders else n.q.receivers
  }

  predicate Blocked(n: Net, t: Task) {
    t in n.threads && !CanProceed(n.q, n.threads[t].call)
  }

  /** A call that finds the queue still full or empty goes to wait: in whatever interleaving, before the
      task is out of the locked section again it has been on the event list. */
  lemma {:induction false} BlockedCallWaits(nets: seq<Net>, actions: seq<Action>, i: nat, j: nat, t: Task)
    requires IsTrace(nets, actions) && Inv(nets[0]) && i < j < |nets|
    requires actions[i] == Test(t) && Blocked(nets[i], t)
    ensures (exists m | i < m <= j :: WaitsForIt(nets[m], t)) || At(nets[j], t, Placing)
    ensures !Inside(nets[j], t) ==> exists m | i < m <= j :: WaitsForIt(nets[m], t)
    decreases j
  {
    hide Inv;
    assert Follows(nets[j - 1], actions[j - 1], nets[j]);
    if j == i + 1 {
      TraceKeepsInv(nets, actions, i);
      Locked(nets[i], t);
    } else {
      BlockedCallWaits(nets, actions, i, j - 1, t);
      if At(nets[j - 1], t, Placing) {
        PlacingStep(nets[j - 1], actions[j - 1], t);
      }
    }
  }

  lemma PlacingStep(n: Net, a: Action, t: Task)
    requires Enabled(n, a) && At(n, t, Placing)
    ensures At(Next(n, a), t, Placing) || WaitsForIt(Next(n, a), t)
  {
    if a.Place? && a.t == t {
      InsertAtMembers(n.q.senders, if n.threads[t].call == Send then a.position else 0, t);
      InsertAtMembers(n.q.receivers, if n.threads[t].call == Send then 0 else a.position, t);
    }
  }

  /** Only such a call does: whoever is about to wait has found nothing to proceed with, in the present stay
      in the locked section. */
  lemma {:induction false} OnlyBlockedCallsWait(nets: seq<Net>, actions: seq<Action>, j: nat, t: Task)
    requires IsTrace(nets, actions) && Initial(nets[0]) && j < |nets| && At(nets[j], t, Placing)
    ensures exists m | 0 <= m < j :: actions[m] == Test(t) && Blocked(nets[m], t) && InsideFrom(nets, m, j + 1, t)
    decreases j
  {
    hide Inv;
    if j > 0 {
      var n, a := nets[j - 1], actions[j - 1];
      assert Follows(n, a, nets[j]);
      if At(n, t, Placing) {
        OnlyBlockedCallsWait(nets, actions, j - 1, t);
        var m :| 0 <= m < j - 1 && actions[m] == Test(t) && Blocked(nets[m], t) && InsideFrom(nets, m, j, t);
        assert InsideFrom(nets, m, j + 1, t);
      } else {
        assert a == Test(t) && Blocked(n, t);
        assert InsideFrom(nets, j - 1, j + 1, t);
      }
    }
  }

  /** Out of time, on the way out. */
  predicate GivesUp(n: Net, t: Task) {
    At(n, t, UnlockingTx) || At(n, t, UnlockingRx) || At(n, t, Resuming)
  }

  /** A call whose time is up ends: the first point that the task comes to outside the locked section is
      the end of the call. */
  lemma {:induction false} TimeUpEndsTheCall(nets: seq<Net>, actions: seq<Action>, i: nat, j: nat, t: Task)
    requires IsTrace(nets, actions) && i < j < |nets| && actions[i] == CheckTime(t, true)
    ensures || (InsideFrom(nets, i, j + 1, t) && GivesUp(nets[j], t) && nets[j].threads[t].givingUp)
            || exists m | i < m <= j :: At(nets[m], t, Outside) && InsideFrom(nets, i, m, t)
    decreases j
  {
    assert Follows(nets[j - 1], actions[j - 1], nets[j]);
    if j > i + 1 {
      TimeUpEndsTheCall(nets, actions, i, j - 1, t);
      if InsideFrom(nets, i, j, t) && GivesUp(nets[j - 1], t) && nets[j - 1].threads[t].givingUp {
        GivingUpStep(nets[j - 1], actions[j - 1], t);
      }
    }
  }

  lemma GivingUpStep(n: Net, a: Action, t: Task)
    requires Enabled(n, a) && GivesUp(n, t) && n.threads[t].givingUp
    ensures At(Next(n, a), t, Outside) || (GivesUp(Next(n, a), t) && Next(n, a).threads[t].givingUp)
  {}

  /** No call waits or retries without having looked at the time: from suspending the scheduler on, the
      task is not out of the locked section, nor on an event list, before it has. */
  lemma {:induction false} TimeIsChecked(nets: seq<Net>, actions: seq<Action>, i: nat, j: nat, t: Task)
    requires IsTrace(nets, actions) && Inv(nets[0]) && i < j < |nets| && actions[i] == Suspend(t)
    ensures || (exists m | i < m < j :: actions[m].CheckTime? && actions[m].t == t)
            || (Inside(nets[j], t) && !Waits(nets[j].q, t) && (At(nets[j], t, Locking) || At(nets[j], t, CheckingTime)))
    decreases j
  {
    hide Inv;
    var n, a := nets[j - 1], actions[j - 1];
    assert Follows(n, a, nets[j]);
    TraceKeepsInv(nets, actions, j);
    if j > i + 1 {
      TimeIsChecked(nets, actions, i, j - 1, t);
    }
    if At(nets[j], t, Locking) || At(nets[j], t, CheckingTime) {
      NobodyWaitsAt(nets[j], t);
    }
  }

  lemma NobodyWaitsAt(n: Net, t: Task)
    requires Inv(n) && (At(n, t, Locking) || At(n, t, CheckingTime))
    ensures !Waits(n.q, t)
  {}

  lemma GivingUpCameFrom(n: Net, a: Action, t: Task)
    requires Inv(n) && Enabled(n, a) && GivesUp(Next(n, a), t) && Next(n, a).threads[t].givingUp
    ensures a == CheckTime(t, true) || (GivesUp(n, t) && n.threads[t].givingUp)
  {
    hide Served, LocksOk;
  }

  /** A task that leaves the locked section for good has been out of time there. */
  lemma {:induction false} GivesUpOnlyInTime(nets: seq<Net>, actions: seq<Action>, j: nat, t: Task)
    requires IsTrace(nets, actions) && Initial(nets[0]) && j < |nets| && GivesUp(nets[j], t)
    requires nets[j].threads[t].givingUp
    ensures exists m | 0 <= m < j :: actions[m] == CheckTime(t, true) && InsideFrom(nets, m, j + 1, t)
    decreases j
  {
    hide Inv, Next, Enabled;
    if j > 0 {
      var n, a := nets[j - 1], actions[j - 1];
      assert Follows(n, a, nets[j]);
      InitialHolds(nets[0]);
      TraceKeepsInv(nets, actions, j - 1);
      GivingUpCameFrom(n, a, t);
      if a == CheckTime(t, true) {
        assert InsideFrom(nets, j - 1, j + 1, t);
      } else {
        GivesUpOnlyInTime(nets, actions, j - 1, t);
        var m :| 0 <= m < j - 1 && actions[m] == CheckTime(t, true) && InsideFrom(nets, m, j, t);
        assert InsideFrom(nets, m, j + 1, t);
      }
    }
  }

  /** How a call ends: by proceeding, by finding nothing when it may not wait, or out of time. */
  lemma CallEndsOnly(nets: seq<Net>, actions: seq<Action>, j: nat, t: Task)
    requires IsTrace(nets, actions) && Initial(nets[0]) && j < |actions| && t in nets[j].threads
    requires !At(nets[j], t, Outside) && At(nets[j + 1], t, Outside)
    ensures || (actions[j].Try? && actions[j].t == t && !Blocked(nets[j], t))
            || (actions[j] == Try(t, false) && Blocked(nets[j], t))
            || exists m | 0 <= m < j :: actions[m] == CheckTime(t, true) && InsideFrom(nets, m, j + 1, t)
  {
    assert Follows(nets[j], actions[j], nets[j + 1]);
    if actions[j] == Resume(t) {
      GivesUpOnlyInTime(nets, actions, j, t);
    }
  }

  /** A look at the queue: it ends the call if and only if there is something to proceed with or the call
      may not wait, and it takes or leaves what the call is for. */
  lemma TryEndsExactly(n: Net, t: Task, mayWait: bool)
    requires Enabled(n, Try(t, mayWait))
    ensures var n1 := Next(n, Try(t, mayWait));
            var call := n.threads[t].call;
            && t in n1.threads && n1.threads[t].call == call
            && (At(n1, t, Outside) <==> !Blocked(n, t) || !mayWait)
            && (Blocked(n, t) && mayWait ==> At(n1, t, Suspending))
            && n1.q.messages == n.q.messages
               + (if Blocked(n, t) || call == Peek then 0 else if call == Send then 1 else -1)
            && t !in n1.q.wokenReceivers && t !in n1.q.wokenSenders
  {}

  /** A call begins as itself, and a tick ends a wait. */
  lemma BeginsAndExpires(n: Net, a: Action)
    requires Inv(n) && Enabled(n, a)
    ensures a.Begin? ==> Next(n, a).q == n.q && Next(n, a).threads == n.threads[a.t := Thread(a.call, Trying, false)]
    ensures a.Expire? ==>
              && Next(n, a).threads == n.threads && !Waits(Next(n, a).q, a.t)
              && forall u | u != a.t :: Waits(Next(n, a).q, u) <==> Waits(n.q, u)
  {
    if a.Expire? {
      WithoutNoDup(n.q.receivers, a.t);
      WithoutNoDup(n.q.senders, a.t);
    }
  }

  /** What an interrupt does: it moves a message unless the queue is full or empty; a queue that is locked
      gets a count instead of a woken task. */
  lemma InterruptsExactly(n: Net)
    ensures var q1 := Next(n, InterruptSend).q;
            && Next(n, InterruptSend).threads == n.threads
            && q1.messages == n.q.messages + (if n.q.messages < n.q.length then 1 else 0)
            && q1.txLock == n.q.txLock + (if n.q.messages < n.q.length && n.q.txLock != UNLOCKED then 1 else 0)
            && q1.receivers == if n.q.messages < n.q.length && n.q.txLock == UNLOCKED && n.q.receivers != []
                               then n.q.receivers[1..] else n.q.receivers
    ensures var q1 := Next(n, InterruptReceive).q;
            && Next(n, InterruptReceive).threads == n.threads
            && q1.messages == n.q.messages - (if n.q.messages > 0 then 1 else 0)
            && q1.rxLock == n.q.rxLock + (if n.q.messages > 0 && n.q.rxLock != UNLOCKED then 1 else 0)
            && q1.senders == if n.q.messages > 0 && n.q.rxLock == UNLOCKED && n.q.senders != []
                             then n.q.senders[1..] else n.q.senders
  {}

  /** Task 1 alone, at some point of a receive. */
  function Receiving(q: Signals, p: Point): Net {
    Net(q, map[1 := Thread(Receive, p, false)])
  }

  const EMPTY := Signals(0, 1, UNLOCKED, UNLOCKED, [], [], {}, {})
  const LOCKED := EMPTY.(txLock := LOCKED_UNMODIFIED, rxLock := LOCKED_UNMODIFIED)
  const WAITING := LOCKED.(receivers := [1])
  const COUNTED := WAITING.(messages := 1, txLock := 1)
  const WOKEN := EMPTY.(messages := 1, wokenReceivers := {1})

  lemma MovesOn(p: Point, p1: Point)
    ensures map[1 := Thread(Receive, p, false)][1 := Thread(Receive, p1, false)] == map[1 := Thread(Receive, p1, false)]
  {}

  lemma GoesToWait()
    ensures Follows(Receiving(EMPTY, Outside), Begin(1, Receive), Receiving(EMPTY, Trying))
    ensures Follows(Receiving(EMPTY, Trying), Try(1, true), Receiving(EMPTY, Suspending))
    ensures Follows(Receiving(EMPTY, Suspending), Suspend(1), Receiving(EMPTY, Locking))
    ensures Follows(Receiving(EMPTY, Locking), LockQueue(1), Receiving(LOCKED, CheckingTime))
  {
    MovesOn(Outside, Trying);
    MovesOn(Trying, Suspending);
    MovesOn(Suspending, Locking);
    MovesOn(Locking, CheckingTime);
  }

  lemma IsPlaced()
    ensures Follows(Receiving(LOCKED, CheckingTime), CheckTime(1, false), Receiving(LOCKED, Testing))
    ensures Follows(Receiving(LOCKED, Testing), Test(1), Receiving(LOCKED, Placing))
    ensures Follows(Receiving(LOCKED, Placing), Place(1, 0), Receiving(WAITING, UnlockingTx))
  {
    MovesOn(CheckingTime, Testing);
    MovesOn(Testing, Placing);
    MovesOn(Placing, UnlockingTx);
    assert InsertAt([], 0, 1) == [1];
  }

  lemma IsCounted()
    ensures Follows(Receiving(WAITING, UnlockingTx), InterruptSend, Receiving(COUNTED, UnlockingTx))
  {}

  lemma IsWoken()
    ensures Follows(Receiving(COUNTED, UnlockingTx), UnlockQueueTx(1),
                    Receiving(WOKEN.(rxLock := LOCKED_UNMODIFIED), UnlockingRx))
    ensures Follows(Receiving(WOKEN.(rxLock := LOCKED_UNMODIFIED), UnlockingRx), UnlockQueueRx(1),
                    Receiving(WOKEN, Resuming))
  {
    MovesOn(UnlockingTx, UnlockingRx);
    MovesOn(UnlockingRx, Resuming);
    assert UnlockTx(COUNTED) == WOKEN.(rxLock := LOCKED_UNMODIFIED);
  }

  lemma LooksAgain()
    ensures Follows(Receiving(WOKEN, Resuming), Resume(1), Receiving(WOKEN, Trying))
    ensures Follows(Receiving(WOKEN, Trying), Try(1, true), Receiving(EMPTY, Outside))
  {
    MovesOn(Resuming, Trying);
    MovesOn(Trying, Outside);
  }

  /** A whole receive on an empty queue: the task goes to wait, an interrupt sends a message while the queue
      is still locked and is counted, unlocking wakes the task, and its second look succeeds. */
  lemma ReceivesAfterWaiting() returns (nets: seq<Net>)
    ensures IsTrace(nets, [Begin(1, Receive), Try(1, true), Suspend(1), LockQueue(1), CheckTime(1, false), Test(1),
                           Place(1, 0), InterruptSend, UnlockQueueTx(1), UnlockQueueRx(1), Resume(1), Try(1, true)])
    ensures Initial(nets[0]) && nets[0].q.messages == 0 && nets[7].q.receivers == [1] && nets[8].q.txLock == 1
    ensures nets[9].q.receivers == [] && nets[9].q.wokenReceivers == {1} && nets[12] == nets[0]
  {
    hide Follows;
    GoesToWait();
    IsPlaced();
    IsCounted();
    IsWoken();
    LooksAgain();
    nets := [Receiving(EMPTY, Outside), Receiving(EMPTY, Trying), Receiving(EMPTY, Suspending),
             Receiving(EMPTY, Locking), Receiving(LOCKED, CheckingTime), Receiving(LOCKED, Testing),
             Receiving(LOCKED, Placing), Receiving(WAITING, UnlockingTx), Receiving(COUNTED, UnlockingTx),
             Receiving(WOKEN.(rxLock := LOCKED_UNMODIFIED), UnlockingRx), Receiving(WOKEN, Resuming),
             Receiving(WOKEN, Trying), Receiving(EMPTY, Outside)];
  }
}
