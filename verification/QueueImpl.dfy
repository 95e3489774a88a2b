// A queue of FreeRTOS/queue.c on the heap: a ring of bytes that behaves as a bounded double-ended
// queue of items, the lock counts, and the tasks on the event lists.

module QueueImpl {
  import opened QueueSignals

  newtype Byte = b: int | 0 <= b < 256

  /** The slot that holds the i-th message if the last one read was in slot r of n. */
  function Slot(r: nat, i: nat, n: nat): (s: nat)
    requires r < n && i <= n
    ensures s < n
  {
    var a := r + 1 + i;
    if a >= 2 * n then a - 2 * n else if a >= n then a - n else a
  }

  function Before(s: nat, n: nat): (r: nat)
    requires s < n
    ensures r < n
  {
    if s == 0 then n - 1 else s - 1
  }

  /** The bytes of one slot. */
  ghost function Item(bytes: seq<Byte>, slot: nat, size: nat): seq<Byte>
    requires slot * size + size <= |bytes|
  {
    bytes[slot * size..slot * size + size]
  }

  lemma SlotFits(slot: nat, size: nat, n: nat)
    requires slot < n
    ensures slot * size + size <= n * size
    ensures slot + 1 == n || size == 0 <==> slot * size + size == n * size
  {
    SlotsApart(slot, n, size);
    if slot + 1 < n {
      SlotsApart(slot + 1, n, size);
      NextSlot(slot, size);
    } else {
      NextSlot(slot, size);
    }
  }

  lemma NextSlot(slot: int, size: nat)
    ensures (slot + 1) * size == slot * size + size
  {}

  lemma SlotsApart(a: nat, b: nat, size: nat)
    requires a < b
    ensures a * size + size <= b * size
  {
    assert (a + 1) * size <= b * size;
  }

  /** Writing one slot leaves the items in all others alone. */
  lemma WriteOne(before: seq<Byte>, after: seq<Byte>, slot: nat, size: nat, n: nat, item: seq<Byte>)
    requires slot < n && |item| == size && |before| == |after| == n * size + 1
    requires slot * size + size <= n * size
    requires forall k | 0 <= k < |before| ::
               after[k] == if slot * size <= k < slot * size + size then item[k - slot * size] else before[k]
    ensures Item(after, slot, size) == item
    ensures forall s | 0 <= s < n && s != slot ::
              s * size + size <= n * size && Item(after, s, size) == Item(before, s, size)
  {
    forall s | 0 <= s < n && s != slot
      ensures s * size + size <= n * size && Item(after, s, size) == Item(before, s, size)
    {
      SlotFits(s, size, n);
      if s < slot {
        SlotsApart(s, slot, size);
      } else {
        SlotsApart(slot, s, size);
      }
    }
  }

  /** The items of the ring in the order in which they will be received. */
  ghost function Items(bytes: seq<Byte>, r: nat, count: nat, size: nat, n: nat): (c: seq<seq<Byte>>)
    requires r < n && count <= n && |bytes| == n * size + 1
    ensures |c| == count
  {
    seq(count, i requires 0 <= i < count =>
      SlotFits(Slot(r, i, n), size, n);
      Item(bytes, Slot(r, i, n), size))
  }

  lemma AppendItem(before: seq<Byte>, after: seq<Byte>, r: nat, count: nat, size: nat, n: nat, item: seq<Byte>)
    requires r < n && count < n && |item| == size && |before| == |after| == n * size + 1
    requires var slot := Slot(r, count, n);
             && slot * size + size <= n * size
             && forall k | 0 <= k < |before| ::
                  after[k] == if slot * size <= k < slot * size + size then item[k - slot * size] else before[k]
    ensures Items(after, r, count + 1, size, n) == Items(before, r, count, size, n) + [item]
  {
    var slot := Slot(r, count, n);
    WriteOne(before, after, slot, size, n, item);
    forall i | 0 <= i < count
      ensures Items(after, r, count + 1, size, n)[i] == Items(before, r, count, size, n)[i]
    {
      assert Slot(r, i, n) != slot;
    }
  }

  lemma PrependItem(before: seq<Byte>, after: seq<Byte>, r: nat, count: nat, size: nat, n: nat, item: seq<Byte>)
    requires r < n && count < n && |item| == size && |before| == |after| == n * size + 1
    requires && r * size + size <= n * size
             && forall k | 0 <= k < |before| ::
                  after[k] == if r * size <= k < r * size + size then item[k - r * size] else before[k]
    ensures Items(after, Before(r, n), count + 1, size, n) == [item] + Items(before, r, count, size, n)
  {
    WriteOne(before, after, r, size, n, item);
    var p := Before(r, n);
    assert Slot(p, 0, n) == r;
    forall i | 0 <= i < count
      ensures Items(after, p, count + 1, size, n)[i + 1] == Items(before, r, count, size, n)[i]
    {
      assert Slot(p, i + 1, n) == Slot(r, i, n) != r;
    }
  }

  lemma DropItem(bytes: seq<Byte>, r: nat, count: nat, size: nat, n: nat)
    requires r < n && 0 < count <= n && |bytes| == n * size + 1
    ensures Items(bytes, Slot(r, 0, n), count - 1, size, n) == Items(bytes, r, count, size, n)[1..]
  {
    var rest := Items(bytes, Slot(r, 0, n), count - 1, size, n);
    forall i | 0 <= i < |rest|
      ensures rest[i] == Items(bytes, r, count, size, n)[1..][i]
    {
      assert Slot(Slot(r, 0, n), i, n) == Slot(r, i + 1, n);
    }
  }

  /** Whether the first waiter, if any, is at least as urgent as the running task. */
  predicate FirstOutranks(waiting: seq<Task>, outranks: Task -> bool) {
    waiting != [] && outranks(waiting[0])
  }

  class Queue {
    const length: nat            // uxLength
    const itemSize: nat          // uxItemSize
    const storage: array<Byte>   // from pcHead on; pcTail is at offset length * itemSize
    var writeTo: nat             // pcWriteTo, as an offset from pcHead
    var readFrom: int            // pcReadFrom, as an offset from pcHead
    var messages: nat            // uxMessagesWaiting
    var rxLock: int              // xRxLock
    var txLock: int              // xTxLock
    var receivers: seq<Task>     // xTasksWaitingToReceive
    var senders: seq<Task>       // xTasksWaitingToSend
    ghost var wokenReceivers: set<Task>
    ghost var wokenSenders: set<Task>
    ghost var readSlot: nat      // the slot that readFrom points at

    ghost predicate Valid()
      reads this, storage
    {
      && length > 0 && storage.Length == length * itemSize + 1
      && messages <= length && readSlot < length
      && readFrom == readSlot * itemSize
      && writeTo == Slot(readSlot, messages, length) * itemSize
    }

    /** The messages, front first. */
    ghost function Contents(): (c: seq<seq<Byte>>)
      requires Valid()
      reads this, storage
      ensures |c| == messages
    {
      Items(storage[..], readSlot, messages, itemSize, length)
    }

    ghost function State(): Signals
      reads this
    {
      Signals(messages, length, txLock, rxLock, receivers, senders, wokenReceivers, wokenSenders)
    }

    /** The initialisation in xQueueCreate; xQueueCreateCountingSemaphore is the case of item size 0
        with some of the places taken from the start. */
    constructor (queueLength: nat, size: nat, initialCount: nat)
      requires queueLength > 0 && initialCount <= queueLength && (initialCount > 0 ==> size == 0)
      ensures Valid() && fresh(storage) && length == queueLength && itemSize == size
      ensures |Contents()| == initialCount && forall i | 0 <= i < initialCount :: Contents()[i] == []
      ensures State() == Signals(initialCount, queueLength, UNLOCKED, UNLOCKED, [], [], {}, {})
    {
      length, itemSize := queueLength, size;
      storage := new Byte[queueLength * size + 1](_ => 0);
      writeTo := 0;
      readFrom := (queueLength - 1) * size;
      messages := initialCount;
      rxLock, txLock := UNLOCKED, UNLOCKED;
      receivers, senders := [], [];
      wokenReceivers, wokenSenders := {}, {};
      readSlot := queueLength - 1;
    }

    /** xQueueCreate: nothing is created for a length of zero. */
    static method Create(queueLength: nat, size: nat) returns (q: Queue?)
      ensures q == null <==> queueLength == 0
      ensures q != null ==> fresh(q) && q.Valid() && q.Contents() == [] && q.length == queueLength && q.itemSize == size
    {
      q := null;
      if queueLength > 0 {
        q := new Queue(queueLength, size, 0);
      }
    }

    /** memcpy of an item into the storage area. */
    method CopyIn(offset: nat, item: seq<Byte>)
      requires offset + |item| <= storage.Length
      modifies storage
      ensures forall k | 0 <= k < storage.Length ::
                storage[..][k] == if offset <= k < offset + |item| then item[k - offset] else old(storage[..])[k]
    {
      forall k | 0 <= k < |item| {
        storage[offset + k] := item[k];
      }
    }

    /** prvCopyDataToQueue. */
    method CopyDataToQueue(item: seq<Byte>, toBack: bool)
      requires Valid() && messages < length && |item| == itemSize
      modifies this`writeTo, this`readFrom, this`messages, this`readSlot, storage
      ensures Valid() && messages == old(messages) + 1
      ensures Contents() == if toBack then old(Contents()) + [item] else [item] + old(Contents())
    {
      if toBack {
        CopyToBack(item);
      } else {
        CopyToFront(item);
      }
      messages := messages + 1;
    }

    method CopyToBack(item: seq<Byte>)
      requires Valid() && messages < length && |item| == itemSize
      modifies this`writeTo, storage
      ensures writeTo == Slot(readSlot, messages + 1, length) * itemSize
      ensures Items(storage[..], readSlot, messages + 1, itemSize, length) == old(Contents()) + [item]
    {
      ghost var slot := Slot(readSlot, messages, length);
      SlotFits(slot, itemSize, length);
      NextSlot(slot, itemSize);
      if itemSize != 0 {
        CopyIn(writeTo, item);
        writeTo := writeTo + itemSize;
        if writeTo >= length * itemSize {
          writeTo := 0;
        }
      }
      AppendItem(old(storage[..]), storage[..], readSlot, messages, itemSize, length, item);
    }

    method CopyToFront(item: seq<Byte>)
      requires Valid() && messages < length && |item| == itemSize
      modifies this`readFrom, this`readSlot, storage
      ensures readSlot == Before(old(readSlot), length) && readFrom == readSlot * itemSize
      ensures Items(storage[..], readSlot, messages + 1, itemSize, length) == [item] + old(Contents())
    {
      SlotFits(readSlot, itemSize, length);
      NextSlot(readSlot - 1, itemSize);
      NextSlot(length - 1, itemSize);
      if itemSize != 0 {
        CopyIn(readFrom, item);
        readFrom := readFrom - itemSize;
        if readFrom < 0 {
          readFrom := length * itemSize - itemSize;
        }
      }
      readSlot := Before(readSlot, length);
      PrependItem(old(storage[..]), storage[..], old(readSlot), messages, itemSize, length, item);
    }

    /** prvCopyDataFromQueue. */
    method CopyDataFromQueue() returns (item: seq<Byte>)
      requires Valid() && messages > 0
      modifies this`readFrom, this`readSlot
      ensures item == old(Contents())[0]
      ensures readSlot == Slot(old(readSlot), 0, length) && readFrom == readSlot * itemSize
    {
      SlotFits(readSlot, itemSize, length);
      NextSlot(readSlot, itemSize);
      readFrom := readFrom + itemSize;
      if readFrom >= length * itemSize {
        readFrom := 0;
      }
      readSlot := Slot(readSlot, 0, length);
      SlotFits(readSlot, itemSize, length);
      item := storage[readFrom..readFrom + itemSize];
    }

    // ----- the critical sections ----------------------------------------------------------------

    /** xTaskRemoveFromEventList on the receivers; tells, as the scheduler does, whether the task that
        was woken is at least as urgent as the running one. */
    method WakeFirstReceiver(outranks: Task -> bool) returns (higherPriority: bool)
      requires receivers != []
      modifies this`receivers, this`wokenReceivers
      ensures State() == WakeReceiver(old(State())) && higherPriority == FirstOutranks(old(receivers), outranks)
    {
      higherPriority := outranks(receivers[0]);
      wokenReceivers := wokenReceivers + {receivers[0]};
      receivers := receivers[1..];
    }

    method WakeFirstSender(outranks: Task -> bool) returns (higherPriority: bool)
      requires senders != []
      modifies this`senders, this`wokenSenders
      ensures State() == WakeSender(old(State())) && higherPriority == FirstOutranks(old(senders), outranks)
    {
      higherPriority := outranks(senders[0]);
      wokenSenders := wokenSenders + {senders[0]};
      senders := senders[1..];
    }

    /** The critical section of xQueueGenericSend; tells also whether it yields. */
    method TrySend(item: seq<Byte>, toBack: bool, outranks: Task -> bool) returns (sent: bool, mustYield: bool)
      requires Valid() && |item| == itemSize
      modifies this, storage
      ensures Valid() && sent == (|old(Contents())| < length)
      ensures Contents() == if !sent then old(Contents())
                            else if toBack then old(Contents()) + [item]
                            else [item] + old(Contents())
      ensures State() == if sent then Sent(old(State())) else old(State())
      ensures mustYield == (sent && FirstOutranks(old(receivers), outranks))
    {
      sent, mustYield := messages < length, false;
      if sent {
        CopyDataToQueue(item, toBack);
        if receivers != [] {
          mustYield := WakeFirstReceiver(outranks);
        }
      }
    }

    /** The critical section of xQueueGenericReceive; tells also whether it yields. */
    method TryReceive(justPeeking: bool, outranks: Task -> bool)
      returns (received: bool, item: seq<Byte>, mustYield: bool)
      requires Valid()
      modifies this
      ensures Valid() && received == (old(Contents()) != [])
      ensures received ==> item == old(Contents())[0]
      ensures Contents() == if received && !justPeeking then old(Contents())[1..] else old(Contents())
      ensures State() == if !received then old(State())
                         else if justPeeking then Peeked(old(State()))
                         else Received(old(State()))
      ensures mustYield == (received && FirstOutranks(if justPeeking then old(receivers) else old(senders), outranks))
    {
      received, mustYield := messages > 0, false;
      item := [];
      if received {
        var originalReadPosition := readFrom;
        ghost var originalSlot := readSlot;
        item := CopyDataFromQueue();
        if !justPeeking {
          TakeOut(originalSlot);
          if senders != [] {
            mustYield := WakeFirstSender(outranks);
          }
        } else {
          readFrom := originalReadPosition;
          readSlot := originalSlot;
          if receivers != [] {
            mustYield := WakeFirstReceiver(outranks);
          }
        }
      }
    }

    /** The message count goes down once the read position has moved past the front message. */
    method TakeOut(ghost slot: nat)
      requires length > 0 && storage.Length == length * itemSize + 1 && 0 < messages <= length && slot < length
      requires readSlot == Slot(slot, 0, length) && readFrom == readSlot * itemSize
      requires writeTo == Slot(slot, messages, length) * itemSize
      modifies this`messages
      ensures Valid() && messages == old(messages) - 1
      ensures Contents() == Items(storage[..], slot, old(messages), itemSize, length)[1..]
    {
      DropItem(storage[..], slot, messages, itemSize, length);
      messages := messages - 1;
    }

    /** xQueueGenericSendFromISR; tells also whether it reports that a more urgent task was woken. */
    method SendFromISR(item: seq<Byte>, toBack: bool, outranks: Task -> bool) returns (sent: bool, taskWoken: bool)
      requires Valid() && |item| == itemSize
      modifies this, storage
      ensures Valid() && sent == (|old(Contents())| < length)
      ensures Contents() == if !sent then old(Contents())
                            else if toBack then old(Contents()) + [item]
                            else [item] + old(Contents())
      ensures State() == SentFromISR(old(State()))
      ensures taskWoken == (sent && old(txLock) == UNLOCKED && FirstOutranks(old(receivers), outranks))
    {
      sent, taskWoken := messages < length, false;
      if sent {
        CopyDataToQueue(item, toBack);
        if txLock == UNLOCKED {
          if receivers != [] {
            taskWoken := WakeFirstReceiver(outranks);
          }
        } else {
          txLock := txLock + 1;
        }
      }
    }

    /** xQueueReceiveFromISR; likewise. */
    method ReceiveFromISR(outranks: Task -> bool) returns (received: bool, item: seq<Byte>, taskWoken: bool)
      requires Valid()
      modifies this
      ensures Valid() && received == (old(Contents()) != [])
      ensures received ==> item == old(Contents())[0]
      ensures Contents() == if received then old(Contents())[1..] else old(Contents())
      ensures State() == ReceivedFromISR(old(State()))
      ensures taskWoken == (received && old(rxLock) == UNLOCKED && FirstOutranks(old(senders), outranks))
    {
      received, taskWoken := messages > 0, false;
      item := [];
      if received {
        ghost var slot := readSlot;
        item := CopyDataFromQueue();
        TakeOut(slot);
        if rxLock == UNLOCKED {
          if senders != [] {
            taskWoken := WakeFirstSender(outranks);
          }
        } else {
          rxLock := rxLock + 1;
        }
      }
    }

    /** prvLockQueue. */
    method LockQueue()
      modifies this`rxLock, this`txLock
      ensures State() == Lock(old(State()))
      ensures rxLock == if old(rxLock) == UNLOCKED then 0 else old(rxLock)
      ensures txLock == if old(txLock) == UNLOCKED then 0 else old(txLock)
    {
      if rxLock == UNLOCKED {
        rxLock := LOCKED_UNMODIFIED;
      }
      if txLock == UNLOCKED {
        txLock := LOCKED_UNMODIFIED;
      }
    }

    /** The first critical section of prvUnlockQueue; tells also whether it notes a missed yield. */
    method UnlockQueueTx(outranks: Task -> bool) returns (missedYield: bool)
      modifies this`txLock, this`receivers, this`wokenReceivers
      ensures State() == UnlockTx(old(State()))
      ensures missedYield <==> exists i | 0 <= i < Paid(old(txLock), |old(receivers)|) :: outranks(old(receivers)[i])
    {
      missedYield := false;
      ghost var woken := 0;
      while txLock > LOCKED_UNMODIFIED
        invariant UnlockTx(State()) == UnlockTx(old(State()))
        invariant 0 <= woken <= |old(receivers)| && receivers == old(receivers)[woken..]
        invariant txLock == old(txLock) - woken && (woken > 0 ==> txLock >= LOCKED_UNMODIFIED)
        invariant missedYield <==> exists i | 0 <= i < woken :: outranks(old(receivers)[i])
        decreases txLock
      {
        if receivers == [] {
          break;
        }
        var higherPriority := WakeFirstReceiver(outranks);
        missedYield := missedYield || higherPriority;
        woken := woken + 1;
        txLock := txLock - 1;
      }
      txLock := UNLOCKED;
    }

    /** The second critical section of prvUnlockQueue; likewise. */
    method UnlockQueueRx(outranks: Task -> bool) returns (missedYield: bool)
      modifies this`rxLock, this`senders, this`wokenSenders
      ensures State() == UnlockRx(old(State()))
      ensures missedYield <==> exists i | 0 <= i < Paid(old(rxLock), |old(senders)|) :: outranks(old(senders)[i])
    {
      missedYield := false;
      ghost var woken := 0;
      while rxLock > LOCKED_UNMODIFIED
        invariant UnlockRx(State()) == UnlockRx(old(State()))
        invariant 0 <= woken <= |old(senders)| && senders == old(senders)[woken..]
        invariant rxLock == old(rxLock) - woken && (woken > 0 ==> rxLock >= LOCKED_UNMODIFIED)
        invariant missedYield <==> exists i | 0 <= i < woken :: outranks(old(senders)[i])
        decreases rxLock
      {
        if senders == [] {
          break;
        }
        var higherPriority := WakeFirstSender(outranks);
        missedYield := missedYield || higherPriority;
        woken := woken + 1;
        rxLock := rxLock - 1;
      }
      rxLock := UNLOCKED;
    }
  }
}
