// What FreeRTOS/queue.c keeps about one queue apart from the stored bytes: how many messages wait,
// the lock counts, and the tasks on the two event lists. The functions are the critical sections of
// the queue's operations; class QueueImpl.Queue runs them on mutable fields.

module QueueSignals {
  import opened Sequences

  type Task = nat

  const UNLOCKED := -1             // queueUNLOCKED
  const LOCKED_UNMODIFIED := 0     // queueLOCKED_UNMODIFIED

  datatype Signals = Signals(
    messages: nat,                 // uxMessagesWaiting
    length: nat,                   // uxLength
    txLock: int,                   // xTxLock
    rxLock: int,                   // xRxLock
    receivers: seq<Task>,          // xTasksWaitingToReceive
    senders: seq<Task>,            // xTasksWaitingToSend
    wokenReceivers: set<Task>,     // taken off xTasksWaitingToReceive, not yet retried
    wokenSenders: set<Task>)       // taken off xTasksWaitingToSend, not yet retried

  /** xTaskRemoveFromEventList on the receivers, if any. */
  function WakeReceiver(q: Signals): Signals {
    if q.receivers == [] then q
    else q.(receivers := q.receivers[1..], wokenReceivers := q.wokenReceivers + {q.receivers[0]})
  }

  /** xTaskRemoveFromEventList on the senders, if any. */
  function WakeSender(q: Signals): Signals {
    if q.senders == [] then q
    else q.(senders := q.senders[1..], wokenSenders := q.wokenSenders + {q.senders[0]})
  }

  /** The successful critical section of xQueueGenericSend. */
  function Sent(q: Signals): Signals {
    WakeReceiver(q.(messages := q.messages + 1))
  }

  /** The successful critical section of xQueueGenericReceive when it removes the message. */
  function Received(q: Signals): Signals
    requires q.messages > 0
  {
    WakeSender(q.(messages := q.messages - 1))
  }

  /** The successful critical section of xQueueGenericReceive when it only peeks. */
  function Peeked(q: Signals): Signals {
    WakeReceiver(q)
  }

  /** xQueueGenericSendFromISR. */
  function SentFromISR(q: Signals): Signals {
    if q.messages >= q.length then q
    else if q.txLock == UNLOCKED then Sent(q)
    else q.(messages := q.messages + 1, txLock := q.txLock + 1)
  }

  /** xQueueReceiveFromISR. */
  function ReceivedFromISR(q: Signals): Signals {
    if q.messages == 0 then q
    else if q.rxLock == UNLOCKED then Received(q)
    else q.(messages := q.messages - 1, rxLock := q.rxLock + 1)
  }

  /** prvLockQueue. */
  function Lock(q: Signals): Signals {
    q.(txLock := if q.txLock == UNLOCKED then LOCKED_UNMODIFIED else q.txLock,
       rxLock := if q.rxLock == UNLOCKED then LOCKED_UNMODIFIED else q.rxLock)
  }

  /** The first critical section of prvUnlockQueue: one receiver is woken for each message that
      arrived while the queue was locked, as long as receivers wait. */
  function UnlockTx(q: Signals): Signals
    decreases q.txLock
  {
    if q.txLock > LOCKED_UNMODIFIED && q.receivers != [] then UnlockTx(WakeReceiver(q).(txLock := q.txLock - 1))
    else q.(txLock := UNLOCKED)
  }

  /** The second critical section of prvUnlockQueue. */
  function UnlockRx(q: Signals): Signals
    decreases q.rxLock
  {
    if q.rxLock > LOCKED_UNMODIFIED && q.senders != [] then UnlockRx(WakeSender(q).(rxLock := q.rxLock - 1))
    else q.(rxLock := UNLOCKED)
  }

  // ----- every receiver that could be served has been woken, or will be on unlocking -----------

  function Counted(lock: int): nat {
    if lock > 0 then lock else 0
  }

  /** No receiver is left waiting beside a message that nobody is on the way to fetch. */
  ghost predicate ReceiversServed(q: Signals) {
    q.receivers != [] ==> q.messages <= |q.wokenReceivers| + Counted(q.txLock)
  }

  /** No sender is left waiting beside a free place that nobody is on the way to fill. */
  ghost predicate SendersServed(q: Signals) {
    q.senders != [] ==> q.length - q.messages <= |q.wokenSenders| + Counted(q.rxLock)
  }

  /** The tasks on an event list are there once, and not among the woken. */
  ghost predicate Orderly(q: Signals) {
    && q.messages <= q.length && q.txLock >= UNLOCKED && q.rxLock >= UNLOCKED
    && NoDup(q.receivers) && NoDup(q.senders)
    && (forall t | t in q.receivers :: t !in q.wokenReceivers)
    && (forall t | t in q.senders :: t !in q.wokenSenders)
  }

  ghost predicate Served(q: Signals) {
    Orderly(q) && ReceiversServed(q) && SendersServed(q)
  }

  lemma OneMoreWoken(s: set<Task>, t: Task)
    requires t !in s
    ensures |s + {t}| == |s| + 1
  {}

  lemma WakeReceiverCounts(q: Signals)
    requires Orderly(q) && q.receivers != []
    ensures Orderly(WakeReceiver(q)) && |WakeReceiver(q).wokenReceivers| == |q.wokenReceivers| + 1
  {
    assert q.receivers[0] in q.receivers;
    OneMoreWoken(q.wokenReceivers, q.receivers[0]);
  }

  lemma WakeSenderCounts(q: Signals)
    requires Orderly(q) && q.senders != []
    ensures Orderly(WakeSender(q)) && |WakeSender(q).wokenSenders| == |q.wokenSenders| + 1
  {
    assert q.senders[0] in q.senders;
    OneMoreWoken(q.wokenSenders, q.senders[0]);
  }

  lemma SentServes(q: Signals)
    requires Served(q) && q.messages < q.length
    ensures Served(Sent(q))
  {
    var q1 := q.(messages := q.messages + 1);
    if q.receivers != [] {
      WakeReceiverCounts(q1);
    }
  }

  lemma ReceivedServes(q: Signals)
    requires Served(q) && q.messages > 0
    ensures Served(Received(q))
  {
    var q1 := q.(messages := q.messages - 1);
    if q.senders != [] {
      WakeSenderCounts(q1);
    }
  }

  /** An interrupt keeps everybody served: it wakes a task, or leaves a count for the unlock. */
  lemma InterruptsServe(q: Signals)
    requires Served(q)
    ensures Served(SentFromISR(q)) && Served(ReceivedFromISR(q))
  {
    if q.messages < q.length {
      SentServes(q);
    }
    if q.messages > 0 {
      ReceivedServes(q);
    }
  }

  /** Unlocking pays every count out, so that afterwards those served are served by woken tasks. */
  lemma {:induction false} UnlockTxServes(q: Signals)
    requires Served(q) && q.txLock >= LOCKED_UNMODIFIED
    ensures var r := UnlockTx(q);
            Served(r) && r.txLock == UNLOCKED
            && r == q.(txLock := UNLOCKED, receivers := r.receivers, wokenReceivers := r.wokenReceivers)
    decreases q.txLock
  {
    if q.txLock > LOCKED_UNMODIFIED && q.receivers != [] {
      WakeReceiverCounts(q);
      UnlockTxServes(WakeReceiver(q).(txLock := q.txLock - 1));
    }
  }

  lemma {:induction false} UnlockRxServes(q: Signals)
    requires Served(q) && q.rxLock >= LOCKED_UNMODIFIED
    ensures var r := UnlockRx(q);
            Served(r) && r.rxLock == UNLOCKED
            && r == q.(rxLock := UNLOCKED, senders := r.senders, wokenSenders := r.wokenSenders)
    decreases q.rxLock
  {
    if q.rxLock > LOCKED_UNMODIFIED && q.senders != [] {
      WakeSenderCounts(q);
      UnlockRxServes(WakeSender(q).(rxLock := q.rxLock - 1));
    }
  }

  function Paid(lock: int, waiting: nat): (n: nat)
    ensures n <= waiting
  {
    if lock <= 0 then 0 else if lock < waiting then lock else waiting
  }

  /** Unlocking wakes the first waiters in list order, one for each counted message. */
  lemma {:induction false} UnlockTxLeaves(q: Signals)
    requires q.txLock >= LOCKED_UNMODIFIED
    ensures UnlockTx(q).receivers == q.receivers[Paid(q.txLock, |q.receivers|)..]
    decreases q.txLock
  {
    if q.txLock > LOCKED_UNMODIFIED && q.receivers != [] {
      UnlockTxLeaves(WakeReceiver(q).(txLock := q.txLock - 1));
    }
  }

  lemma {:induction false} UnlockTxWakes(q: Signals, t: Task)
    requires q.txLock >= LOCKED_UNMODIFIED
    ensures t in UnlockTx(q).wokenReceivers <==>
              t in q.wokenReceivers || t in q.receivers[..Paid(q.txLock, |q.receivers|)]
    decreases q.txLock
  {
    if q.txLock > LOCKED_UNMODIFIED && q.receivers != [] {
      UnlockTxWakes(WakeReceiver(q).(txLock := q.txLock - 1), t);
      FirstAndRest(q.receivers, Paid(q.txLock, |q.receivers|), t);
    }
  }

  /** Likewise the first senders, one for each message that was fetched. */
  lemma {:induction false} UnlockRxLeaves(q: Signals)
    requires q.rxLock >= LOCKED_UNMODIFIED
    ensures UnlockRx(q).senders == q.senders[Paid(q.rxLock, |q.senders|)..]
    decreases q.rxLock
  {
    if q.rxLock > LOCKED_UNMODIFIED && q.senders != [] {
      UnlockRxLeaves(WakeSender(q).(rxLock := q.rxLock - 1));
    }
  }

  lemma {:induction false} UnlockRxWakes(q: Signals, t: Task)
    requires q.rxLock >= LOCKED_UNMODIFIED
    ensures t in UnlockRx(q).wokenSenders <==> t in q.wokenSenders || t in q.senders[..Paid(q.rxLock, |q.senders|)]
    decreases q.rxLock
  {
    if q.rxLock > LOCKED_UNMODIFIED && q.senders != [] {
      UnlockRxWakes(WakeSender(q).(rxLock := q.rxLock - 1), t);
      FirstAndRest(q.senders, Paid(q.rxLock, |q.senders|), t);
    }
  }

  lemma FirstAndRest(s: seq<Task>, n: nat, t: Task)
    requires 0 < n <= |s|
    ensures t in s[..n] <==> t == s[0] || t in s[1..][..n - 1]
  {
    assert s[..n] == [s[0]] + s[1..][..n - 1];
  }
}
