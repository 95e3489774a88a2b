// Software timers against absolute time, while nobody but the service task sends commands: every
// auto-reload timer has exactly one token of its next expiry, in a list or in the command queue, and
// its callbacks correspond one to one to start + period, start + 2 * period, and so on.

module TimerRuns {
  import opened Sequences
  import opened Ticks
  import opened Lists
  import opened Timers

  // ----- counting -----------------------------------------------------------------------------------

  function Count(fired: seq<Id>, t: Id): nat {
    if fired == [] then 0
    else Count(fired[..|fired| - 1], t) + if fired[|fired| - 1] == t then 1 else 0
  }

  lemma CountAppend(fired: seq<Id>, x: Id, t: Id)
    ensures Count(fired + [x], t) == Count(fired, t) + if x == t then 1 else 0
  {
    assert (fired + [x])[..|fired|] == fired;
  }

  function ItemsOf(items: seq<Item>, t: Id): nat {
    if items == [] then 0 else (if items[0].timer == t then 1 else 0) + ItemsOf(items[1..], t)
  }

  function CommandsFor(queue: seq<Command>, t: Id): nat {
    if queue == [] then 0 else (if queue[0].timer == t then 1 else 0) + CommandsFor(queue[1..], t)
  }

  lemma {:induction false} ItemsInsert(items: seq<Item>, i: nat, x: Item, t: Id)
    requires i <= |items|
    ensures ItemsOf(InsertAt(items, i, x), t) == ItemsOf(items, t) + if x.timer == t then 1 else 0
    ensures forall y :: y in InsertAt(items, i, x) <==> y in items || y == x
  {
    assert items == items[..i] + items[i..];
    if i == 0 {
      assert InsertAt(items, i, x) == [x] + items;
    } else {
      ItemsInsert(items[1..], i - 1, x, t);
      assert InsertAt(items, i, x)[1..] == InsertAt(items[1..], i - 1, x);
    }
  }

  lemma {:induction false} CommandsAppend(queue: seq<Command>, c: Command, t: Id)
    ensures CommandsFor(queue + [c], t) == CommandsFor(queue, t) + if c.timer == t then 1 else 0
  {
    if queue == [] {
      assert queue + [c] == [c];
    } else {
      CommandsAppend(queue[1..], c, t);
      assert (queue + [c])[1..] == queue[1..] + [c];
    }
  }

  lemma {:induction false} NoItems(items: seq<Item>, t: Id)
    ensures ItemsOf(items, t) == 0 <==> forall x | x in items :: x.timer != t
  {
    if items != [] {
      NoItems(items[1..], t);
      assert items == [items[0]] + items[1..];
    }
  }

  lemma {:induction false} NoCommands(queue: seq<Command>, t: Id)
    ensures CommandsFor(queue, t) == 0 <==> forall c | c in queue :: c.timer != t
  {
    if queue != [] {
      NoCommands(queue[1..], t);
      assert queue == [queue[0]] + queue[1..];
    }
  }

  lemma {:induction false} NothingWithout(items: seq<Item>, t: Id)
    requires ItemsOf(items, t) == 0
    ensures WithoutTimer(items, t) == items
  {
    if items != [] {
      NothingWithout(items[1..], t);
    }
  }

  /** Commands for different timers of a set are no more than the set has members. */
  lemma {:induction false} QueueFits(queue: seq<Command>, timers: set<Id>)
    requires forall c | c in queue :: c.timer in timers
    requires forall t :: CommandsFor(queue, t) <= 1
    ensures |queue| <= |timers|
  {
    if queue != [] {
      var t := queue[0].timer;
      assert CommandsFor(queue, t) <= 1;
      NoCommands(queue[1..], t);
      assert forall u :: CommandsFor(queue[1..], u) <= CommandsFor(queue, u);
      QueueFits(queue[1..], timers - {t});
      assert |timers - {t}| == |timers| - 1;
    }
  }

  // ----- tokens -------------------------------------------------------------------------------------

  /** The expiry of a timer's next callback: the first one, then one period later each time. */
  function Due(s: Service, first: map<Id, nat>, t: Id): int
    requires t in first
  {
    first[t] + Count(s.fired, t) * PeriodOf(s.periods, t)
  }

  function Tokens(s: Service, t: Id): nat {
    ItemsOf(s.current, t) + ItemsOf(s.overflow, t) + CommandsFor(s.queue, t)
  }

  /** Whether the timer still has a callback to come: a one-shot timer has only one. */
  predicate Live(s: Service, t: Id) {
    t in s.autoReload || Count(s.fired, t) == 0
  }

  ghost predicate ItemsOk(s: Service, first: map<Id, nat>, items: seq<Item>, epoch: int) {
    forall x | x in items ::
      x.timer in first && x.value == Tick(Due(s, first, x.timer)) && Epoch(Due(s, first, x.timer)) == epoch
  }

  ghost predicate InOrder(items: seq<Item>) {
    forall i, j | 0 <= i < j < |items| :: items[i].value <= items[j].value
  }

  ghost predicate QueueOk(s: Service, first: map<Id, nat>, now: int) {
    forall c | c in s.queue ::
      && c.Start? && c.timer in first
      && var issued := Due(s, first, c.timer) - PeriodOf(s.periods, c.timer);
         c.value == Tick(issued) && issued <= now
  }

  /** The lists are those of the epoch of `last`, the time of the last sample but for the switch in
      progress; all callbacks so far have expiries up to `now`. */
  ghost predicate Inv(s: Service, first: map<Id, nat>, last: int, now: int) {
    && ItemsOk(s, first, s.current, Epoch(last))
    && ItemsOk(s, first, s.overflow, Epoch(last) + 1)
    && InOrder(s.current) && InOrder(s.overflow)
    && QueueOk(s, first, now)
    && |first| <= s.capacity
    && (forall t :: Tokens(s, t) == if t in first && Live(s, t) then 1 else 0)
    && (forall t | t in first && Count(s.fired, t) > 0 :: Due(s, first, t) - PeriodOf(s.periods, t) <= now)
  }

  // ----- one token moves ------------------------------------------------------------------------------

  lemma DueAfterFiring(s: Service, s1: Service, first: map<Id, nat>, x: Id, t: Id)
    requires t in first && s1.fired == s.fired + [x] && s1.periods == s.periods
    ensures Due(s1, first, t) == Due(s, first, t) + if x == t then PeriodOf(s.periods, t) else 0
    ensures Count(s1.fired, t) == Count(s.fired, t) + if x == t then 1 else 0
  {
    CountAppend(s.fired, x, t);
    assert (Count(s.fired, t) + 1) * PeriodOf(s.periods, t) == Count(s.fired, t) * PeriodOf(s.periods, t)
           + PeriodOf(s.periods, t);
  }

  /** All is well but that the timer t has no token at the moment. */
  ghost predicate Missing(s: Service, first: map<Id, nat>, last: int, now: int, t: Id) {
    && ItemsOk(s, first, s.current, Epoch(last))
    && ItemsOk(s, first, s.overflow, Epoch(last) + 1)
    && InOrder(s.current) && InOrder(s.overflow)
    && QueueOk(s, first, now)
    && |first| <= s.capacity && t in first
    && (forall u :: Tokens(s, u) == if u in first && u != t && Live(s, u) then 1 else 0)
    && (forall u | u in first && Count(s.fired, u) > 0 :: Due(s, first, u) - PeriodOf(s.periods, u) <= now)
  }

  lemma FireCurrent(s: Service, first: map<Id, nat>, last: int, now: int)
    requires Inv(s, first, last, now) && s.current != []
    requires var t := s.current[0].timer; t in first && Due(s, first, t) <= now
    ensures var t := s.current[0].timer;
            var s1 := s.(current := s.current[1..], fired := s.fired + [t]);
            && Missing(s1, first, last, now, t) && (Live(s1, t) <==> t in s.autoReload)
            && Due(s1, first, t) == Due(s, first, t) + PeriodOf(s.periods, t)
  {
    var t := s.current[0].timer;
    var s1 := s.(current := s.current[1..], fired := s.fired + [t]);
    TokenGone(s, s1, first, last, now, t);
  }

  lemma FireQueued(s: Service, first: map<Id, nat>, last: int, now: int)
    requires Inv(s, first, last, now) && s.queue != []
    requires var t := s.queue[0].timer; t in first && Due(s, first, t) <= now
    ensures var t := s.queue[0].timer;
            var s1 := s.(queue := s.queue[1..], fired := s.fired + [t]);
            && Missing(s1, first, last, now, t) && (Live(s1, t) <==> t in s.autoReload)
            && Due(s1, first, t) == Due(s, first, t) + PeriodOf(s.periods, t)
  {
    var t := s.queue[0].timer;
    var s1 := s.(queue := s.queue[1..], fired := s.fired + [t]);
    TokenGone(s, s1, first, last, now, t);
  }

  lemma TokenGone(s: Service, s1: Service, first: map<Id, nat>, last: int, now: int, t: Id)
    requires Inv(s, first, last, now) && t in first && Due(s, first, t) <= now
    requires s1 == s.(current := s1.current, queue := s1.queue, fired := s.fired + [t])
    requires (forall x | x in s1.current :: x in s.current) && (forall c | c in s1.queue :: c in s.queue)
    requires forall u :: Tokens(s1, u) == Tokens(s, u) - if u == t then 1 else 0
    requires InOrder(s1.current) && s1.overflow == s.overflow
    ensures Missing(s1, first, last, now, t) && (Live(s1, t) <==> t in s.autoReload)
    ensures Due(s1, first, t) == Due(s, first, t) + PeriodOf(s.periods, t)
  {
    hide Tick, Epoch, PeriodOf, InOrder;
    forall u | u in first
      ensures Due(s1, first, u) == Due(s, first, u) + if u == t then PeriodOf(s.periods, t) else 0
      ensures Count(s1.fired, u) == Count(s.fired, u) + if u == t then 1 else 0
    {
      DueAfterFiring(s, s1, first, t, u);
    }
    TokensGone(s, s1, first, t);
    hide Live, Tokens, Count;
    assert Tokens(s1, t) == 0;
    NoTokens(s1, t);
  }

  lemma NoTokens(s: Service, t: Id)
    requires Tokens(s, t) == 0
    ensures forall x | x in s.current || x in s.overflow :: x.timer != t
    ensures forall c | c in s.queue :: c.timer != t
  {
    NoItems(s.current, t);
    NoItems(s.overflow, t);
    NoCommands(s.queue, t);
  }

  lemma TokensGone(s: Service, s1: Service, first: map<Id, nat>, t: Id)
    requires s1.autoReload == s.autoReload && s1.fired == s.fired + [t] && t in first
    requires forall u :: Tokens(s1, u) == Tokens(s, u) - if u == t then 1 else 0
    requires forall u :: Tokens(s, u) == if u in first && Live(s, u) then 1 else 0
    ensures forall u :: Tokens(s1, u) == if u in first && u != t && Live(s1, u) then 1 else 0
    ensures Live(s1, t) <==> t in s.autoReload
  {
    forall u
      ensures Count(s1.fired, u) == Count(s.fired, u) + if u == t then 1 else 0
    {
      CountAppend(s.fired, t, u);
    }
  }

  /** The timer gets its token back. */
  lemma TokenBack(s: Service, s1: Service, first: map<Id, nat>, last: int, now: int, t: Id)
    requires Missing(s, first, last, now, t) && Live(s, t)
    requires s1 == s.(current := s1.current, overflow := s1.overflow, queue := s1.queue)
    requires InOrder(s1.current) && InOrder(s1.overflow)
    requires forall x | x in s1.current ::
               x in s.current || (x == Item(t, Tick(Due(s, first, t))) && Epoch(Due(s, first, t)) == Epoch(last))
    requires forall x | x in s1.overflow ::
               x in s.overflow || (x == Item(t, Tick(Due(s, first, t))) && Epoch(Due(s, first, t)) == Epoch(last) + 1)
    requires forall c | c in s1.queue :: c in s.queue
               || (c == Start(t, Tick(Due(s, first, t) - PeriodOf(s.periods, t)))
                   && Due(s, first, t) - PeriodOf(s.periods, t) <= now)
    requires forall u :: Tokens(s1, u) == Tokens(s, u) + if u == t then 1 else 0
    ensures Inv(s1, first, last, now)
  {
    hide Tick, Epoch, PeriodOf;
    assert forall u | u in first :: Due(s1, first, u) == Due(s, first, u);
  }

  lemma InsertedInOrder(items: seq<Item>, x: Item)
    requires InOrder(items) && x.value < MODULUS && forall y | y in items :: y.value < MODULUS
    ensures InOrder(InsertSorted(items, x))
  {
    var values := ItemValues(items);
    assert forall i | 0 <= i < |values| :: values[i] == items[i].value && items[i] in items;
    InsertKeepsSorted(values, x.value);
    InsertedValues(items, InsertPosition(values, x.value), x);
    hide InsertPosition, InsertAt;
    var r := InsertSorted(items, x);
    assert forall i | 0 <= i < |r| :: r[i].value == ItemValues(r)[i];
  }

  lemma InsertedValues(items: seq<Item>, k: nat, x: Item)
    requires k <= |items|
    ensures ItemValues(InsertAt(items, k, x)) == InsertAt(ItemValues(items), k, x.value)
  {}

  lemma Ordered(s: Service, first: map<Id, nat>, last: int, now: int, t: Id)
    requires Missing(s, first, last, now, t)
    ensures InOrder(s.current) && InOrder(s.overflow)
    ensures (forall y | y in s.current :: y.value < MODULUS) && (forall y | y in s.overflow :: y.value < MODULUS)
  {}

  lemma IntoCurrentList(s: Service, first: map<Id, nat>, last: int, now: int, t: Id)
    requires Missing(s, first, last, now, t) && t in first && Live(s, t) && Epoch(Due(s, first, t)) == Epoch(last)
    ensures Inv(s.(current := InsertSorted(s.current, Item(t, Tick(Due(s, first, t))))), first, last, now)
  {
    hide Missing, Inv, Due;
    var x := Item(t, Tick(Due(s, first, t)));
    var s1 := s.(current := InsertSorted(s.current, x));
    forall u
      ensures Tokens(s1, u) == Tokens(s, u) + if u == t then 1 else 0
    {
      ItemsInsert(s.current, InsertPosition(ItemValues(s.current), x.value), x, u);
    }
    ItemsInsert(s.current, InsertPosition(ItemValues(s.current), x.value), x, t);
    Ordered(s, first, last, now, t);
    InsertedInOrder(s.current, x);
    TokenBack(s, s1, first, last, now, t);
  }

  lemma IntoOverflowList(s: Service, first: map<Id, nat>, last: int, now: int, t: Id)
    requires Missing(s, first, last, now, t) && t in first && Live(s, t) && Epoch(Due(s, first, t)) == Epoch(last) + 1
    ensures Inv(s.(overflow := InsertSorted(s.overflow, Item(t, Tick(Due(s, first, t))))), first, last, now)
  {
    hide Missing, Inv, Due;
    var x := Item(t, Tick(Due(s, first, t)));
    var s1 := s.(overflow := InsertSorted(s.overflow, x));
    forall u
      ensures Tokens(s1, u) == Tokens(s, u) + if u == t then 1 else 0
    {
      ItemsInsert(s.overflow, InsertPosition(ItemValues(s.overflow), x.value), x, u);
    }
    ItemsInsert(s.overflow, InsertPosition(ItemValues(s.overflow), x.value), x, t);
    Ordered(s, first, last, now, t);
    InsertedInOrder(s.overflow, x);
    TokenBack(s, s1, first, last, now, t);
  }

  /** The queue has room: at most one command per timer is in it. */
  lemma QueueHasRoom(s: Service, first: map<Id, nat>, last: int, now: int, t: Id)
    requires Missing(s, first, last, now, t)
    ensures |s.queue| < s.capacity
  {
    assert Tokens(s, t) == 0;
    NoCommands(s.queue, t);
    assert forall u :: CommandsFor(s.queue, u) <= Tokens(s, u);
    QueueFits(s.queue, first.Keys - {t});
    assert |first.Keys - {t}| == |first| - 1;
  }

  lemma IntoQueue(s: Service, first: map<Id, nat>, last: int, now: int, t: Id)
    requires Missing(s, first, last, now, t) && t in first && Live(s, t)
             && Due(s, first, t) - PeriodOf(s.periods, t) <= now
    ensures Inv(Sent(s, Start(t, Tick(Due(s, first, t) - PeriodOf(s.periods, t)))), first, last, now)
  {
    hide Missing, Inv, Due;
    QueueHasRoom(s, first, last, now, t);
    var c := Start(t, Tick(Due(s, first, t) - PeriodOf(s.periods, t)));
    var s1 := Sent(s, c);
    forall u
      ensures Tokens(s1, u) == Tokens(s, u) + if u == t then 1 else 0
    {
      CommandsAppend(s.queue, c, u);
    }
    Ordered(s, first, last, now, t);
    TokenBack(s, s1, first, last, now, t);
  }

  lemma OneShotDone(s: Service, first: map<Id, nat>, last: int, now: int, t: Id)
    requires Missing(s, first, last, now, t) && !Live(s, t)
    ensures Inv(s, first, last, now)
  {}

  ghost predicate SameTimers(s: Service, s1: Service) {
    s1.periods == s.periods && s1.autoReload == s.autoReload
  }

  // ----- the service task's steps ----------------------------------------------------------------------

  /** In the switch: a timer of the old epoch fires, and gets a token of this epoch or of the next. */
  lemma FireHeadKeeps(s: Service, first: map<Id, nat>, last: int, now: int)
    requires Inv(s, first, last, now) && s.current != [] && Epoch(now) == Epoch(last) + 1
    ensures Inv(FireHead(s), first, last, now)
  {
    hide Inv, Missing, Due, Tick, InsertSorted, PeriodOf;
    var t := s.current[0].timer;
    var p := PeriodOf(s.periods, t);
    var due := HeadDue(s, first, last, now);
    Reload(due, p);
    NextEpochs(due, p);
    FireCurrent(s, first, last, now);
    var s1 := s.(current := s.current[1..], fired := s.fired + [t]);
    if t !in s.autoReload {
      OneShotDone(s1, first, last, now, t);
    } else if Tick(due + p) > Tick(due) {
      IntoCurrentList(s1, first, last, now, t);
    } else {
      IntoQueue(s1, first, last, now, t);
    }
  }

  lemma NextEpochs(due: int, p: Period)
    ensures Epoch(due + p) == Epoch(due) || Epoch(due + p) == Epoch(due) + 1
  {}

  lemma HeadDue(s: Service, first: map<Id, nat>, last: int, now: int) returns (due: int)
    requires Inv(s, first, last, now) && s.current != [] && Epoch(now) > Epoch(last)
    ensures var t := s.current[0].timer;
            && t in first && due == Due(s, first, t) && due <= now && s.current[0].value == Tick(due)
            && Epoch(due) == Epoch(last)
  {
    assert s.current[0] in s.current;
    due := Due(s, first, s.current[0].timer);
  }

  /** The reload value exceeds the expired one iff the next expiry is still in the same epoch. */
  lemma Reload(due: int, p: Period)
    ensures Tick(Tick(due) + p) == Tick(due + p)
    ensures Tick(due + p) > Tick(due) <==> Epoch(due + p) == Epoch(due)
  {}

  lemma {:induction false} SwitchedKeeps(s: Service, first: map<Id, nat>, last: int, now: int)
    requires Inv(s, first, last, now) && Epoch(now) == Epoch(last) + 1
    ensures Inv(Switched(s), first, now, now) && SameTimers(s, Switched(s))
    decreases Weight(s.current), |s.current|
  {
    hide Inv, FireHead, Epoch;
    if s.current != [] {
      FireHeadProgresses(s);
      FireHeadSame(s);
      FireHeadKeeps(s, first, last, now);
      SwitchedKeeps(FireHead(s), first, last, now);
    } else {
      SwapLists(s, first, last, now);
    }
  }

  lemma FireHeadSame(s: Service)
    requires s.current != []
    ensures SameTimers(s, FireHead(s))
  {}

  lemma SwapLists(s: Service, first: map<Id, nat>, last: int, now: int)
    requires Inv(s, first, last, now) && Epoch(now) == Epoch(last) + 1 && s.current == []
    ensures Inv(s.(current := s.overflow, overflow := s.current), first, now, now)
  {
    var s1 := s.(current := s.overflow, overflow := s.current);
    assert forall t | t in first :: Due(s1, first, t) == Due(s, first, t);
    assert forall t :: Tokens(s1, t) == Tokens(s, t);
  }

  /** Time may pass within the epoch. */
  lemma Later(s: Service, first: map<Id, nat>, last: int, now: int)
    requires Inv(s, first, last, last) && last <= now && Epoch(now) == Epoch(last)
    ensures Inv(s.(lastTime := Tick(now)), first, now, now)
  {
    var s1 := s.(lastTime := Tick(now));
    assert forall t | t in first :: Due(s1, first, t) == Due(s, first, t);
    assert forall t :: Tokens(s1, t) == Tokens(s, t);
  }

  lemma Rolled(s: Service, first: map<Id, nat>, last: int, now: int)
    requires Inv(s, first, last, last) && last <= now
    ensures Inv(s, first, last, now)
  {}

  /** prvSampleTimeNow recognises a rollover if less than a full turn passed since the last sample. */
  lemma SampledKeeps(s: Service, first: map<Id, nat>, last: int, now: int)
    requires Inv(s, first, last, last) && s.lastTime == Tick(last) && last <= now < last + MODULUS
    ensures Inv(Sampled(s, Tick(now)), first, now, now) && Sampled(s, Tick(now)).lastTime == Tick(now)
    ensures SameTimers(s, Sampled(s, Tick(now)))
  {
    hide Inv, Switched;
    assert Tick(now) < Tick(last) <==> Epoch(now) == Epoch(last) + 1;
    if Tick(now) < Tick(last) {
      Rolled(s, first, last, now);
      SwitchedKeeps(s, first, last, now);
      Later(Switched(s), first, now, now);
    } else {
      Later(s, first, last, now);
    }
  }

  /** A timer that the service task finds expired has expired, by less than a full turn. */
  lemma HeadExpired(s: Service, first: map<Id, nat>, now: int)
    requires Inv(s, first, now, now) && s.current != [] && s.current[0].value <= Tick(now)
    ensures var t := s.current[0].timer;
            && t in first && Due(s, first, t) <= now < Due(s, first, t) + MODULUS
            && s.current[0].value == Tick(Due(s, first, t))
  {
    assert s.current[0] in s.current;
  }

  lemma ProcessedExpiredKeeps(s: Service, first: map<Id, nat>, now: int)
    requires Inv(s, first, now, now) && s.current != [] && s.current[0].value <= Tick(now)
    ensures Inv(ProcessedExpired(s, s.current[0].value, Tick(now)), first, now, now)
  {
    hide Inv, Missing, Due, Tick, InsertSorted, PeriodOf, Decide;
    var t := s.current[0].timer;
    var p := PeriodOf(s.periods, t);
    HeadExpired(s, first, now);
    var due := Due(s, first, t);
    FireCurrent(s, first, now, now);
    var s1 := s.(current := s.current[1..], fired := s.fired + [t]);
    Reload(due, p);
    NextEpochs(due, p);
    DecidesExactly(due, now, p);
    if t !in s.autoReload {
      OneShotDone(s1, first, now, now, t);
    } else if due + p <= now {
      IntoQueue(s1, first, now, now, t);
    } else if Epoch(due + p) == Epoch(now) {
      IntoCurrentList(s1, first, now, now, t);
    } else {
      IntoOverflowList(s1, first, now, now, t);
    }
  }

  lemma ServicedTimersKeeps(s: Service, first: map<Id, nat>, last: int, now: int)
    requires Inv(s, first, last, last) && s.lastTime == Tick(last) && last <= now < last + MODULUS
    ensures Inv(ServicedTimers(s, Tick(now)), first, now, now) && ServicedTimers(s, Tick(now)).lastTime == Tick(now)
    ensures SameTimers(s, ServicedTimers(s, Tick(now)))
  {
    hide Inv, ProcessedExpired;
    SampledKeeps(s, first, last, now);
    if Tick(now) >= s.lastTime && s.current != [] && s.current[0].value <= Tick(now) {
      var s1 := Sampled(s, Tick(now));
      ProcessedExpiredKeeps(s1, first, now);
      ExpiredKeepsTime(s1, s1.current[0].value, Tick(now));
    }
  }

  lemma ExpiredKeepsTime(s: Service, expiry: nat, now: nat)
    requires s.current != []
    ensures ProcessedExpired(s, expiry, now).lastTime == s.lastTime && SameTimers(s, ProcessedExpired(s, expiry, now))
  {}

  // ----- commands -----------------------------------------------------------------------------------------

  /** Each command is taken from the queue less than a full turn of the counter after its time. */
  ghost predicate Prompt(s: Service, first: map<Id, nat>, now: int) {
    forall c | c in s.queue && c.timer in first :: now < Due(s, first, c.timer) - PeriodOf(s.periods, c.timer) + MODULUS
  }

  /** A token is taken out of the queue to be put into a list. */
  lemma TakeQueued(s: Service, first: map<Id, nat>, now: int)
    requires Inv(s, first, now, now) && s.queue != []
    ensures var t := s.queue[0].timer;
            var s1 := s.(queue := s.queue[1..]);
            && Missing(s1, first, now, now, t) && Live(s1, t) && Due(s1, first, t) == Due(s, first, t)
            && ItemsOf(s.current, t) == 0 && ItemsOf(s.overflow, t) == 0
            && s.queue[0].Start? && s.queue[0].value == Tick(Due(s, first, t) - PeriodOf(s.periods, t))
            && Due(s, first, t) - PeriodOf(s.periods, t) <= now
  {
    var t := s.queue[0].timer;
    var s1 := s.(queue := s.queue[1..]);
    assert s.queue[0] in s.queue;
    assert Tokens(s, t) == 1;
    WithoutFirstCommand(s, first, now);
  }

  lemma WithoutFirstCommand(s: Service, first: map<Id, nat>, now: int)
    requires Inv(s, first, now, now) && s.queue != [] && s.queue[0].timer in first && Tokens(s, s.queue[0].timer) == 1
    ensures Missing(s.(queue := s.queue[1..]), first, now, now, s.queue[0].timer)
  {
    var t := s.queue[0].timer;
    var s1 := s.(queue := s.queue[1..]);
    assert forall u | u in first :: Due(s1, first, u) == Due(s, first, u);
    assert forall u :: Tokens(s1, u) == Tokens(s, u) - if u == t then 1 else 0;
  }

  lemma ProcessedCommandKeeps(s: Service, first: map<Id, nat>, now: int)
    requires Inv(s, first, now, now) && s.queue != [] && Prompt(s, first, now)
    ensures Inv(ProcessedCommand(s, Tick(now)), first, now, now)
  {
    hide Inv, Missing, Due, Tick, InsertSorted, PeriodOf, Decide, WithoutTimer;
    var t := s.queue[0].timer;
    TakeQueued(s, first, now);
    IsKnown(s, first, now);
    NothingWithout(s.current, t);
    NothingWithout(s.overflow, t);
    var p := PeriodOf(s.periods, t);
    var due := Due(s, first, t);
    Reload(due - p, p);
    DecidesExactly(due - p, now, p);
    var s1 := s.(queue := s.queue[1..]);
    if due <= now {
      FireQueued(s, first, now, now);
      var s2 := s1.(fired := s.fired + [t]);
      if t in s.autoReload {
        IntoQueue(s2, first, now, now, t);
      } else {
        OneShotDone(s2, first, now, now, t);
      }
    } else if Epoch(due) == Epoch(now) {
      IntoCurrentList(s1, first, now, now, t);
    } else {
      IntoOverflowList(s1, first, now, now, t);
    }
  }

  lemma IsKnown(s: Service, first: map<Id, nat>, now: int)
    requires Inv(s, first, now, now) && s.queue != []
    ensures s.queue[0].timer in first && s.queue[0] in s.queue && s.queue[0].Start?
  {
    assert s.queue[0] in s.queue;
  }

  /** Processing a command leaves the queue prompt: a restart is a period younger than its predecessor. */
  lemma PromptKeeps(s: Service, first: map<Id, nat>, now: int)
    requires Inv(s, first, now, now) && s.queue != [] && Prompt(s, first, now)
    ensures Prompt(ProcessedCommand(s, Tick(now)), first, now)
  {
    hide InsertSorted, Decide, WithoutTimer, Tick;
    var s1 := ProcessedCommand(s, Tick(now));
    var t := s.queue[0].timer;
    IsKnown(s, first, now);
    assert CommandsFor(s.queue[1..], t) == 0 by {
      assert Tokens(s, t) <= 1;
    }
    NoCommands(s.queue[1..], t);
    forall c | c in s1.queue && c.timer in first
      ensures now < Due(s1, first, c.timer) - PeriodOf(s1.periods, c.timer) + MODULUS
    {
      if s1.fired == s.fired + [t] {
        DueAfterFiring(s, s1, first, t, c.timer);
      } else {
        assert Due(s1, first, c.timer) == Due(s, first, c.timer);
      }
      assert c.timer != t ==> c in s.queue;
    }
  }

  lemma {:induction false} DrainedKeeps(s: Service, first: map<Id, nat>, now: int)
    requires Inv(s, first, now, now) && Prompt(s, first, now) && ValuesWrapped(s)
    ensures var r := Drained(s, Tick(now));
            Inv(r, first, now, now) && r.queue == [] && r.lastTime == s.lastTime && SameTimers(s, r)
    decreases Backlog(s.queue, Tick(now))
  {
    if s.queue != [] {
      CommandProgresses(s, Tick(now));
      IsKnown(s, first, now);
      ProcessedCommandKeeps(s, first, now);
      PromptKeeps(s, first, now);
      CommandKeepsTime(s, Tick(now));
      hide Inv, Prompt, Tick, ProcessedCommand;
      DrainedKeeps(ProcessedCommand(s, Tick(now)), first, now);
    }
  }

  lemma CommandKeepsTime(s: Service, now: nat)
    requires s.queue != [] && s.queue[0].Start?
    ensures ProcessedCommand(s, now).lastTime == s.lastTime && SameTimers(s, ProcessedCommand(s, now))
  {}

  // ----- the switch fires everything that is left --------------------------------------------------------

  lemma {:induction false} SwitchSpares(s: Service, first: map<Id, nat>, t: Id)
    requires t in first && ItemsOf(s.current, t) == 0
    ensures Due(Switched(s), first, t) == Due(s, first, t) && Switched(s).periods == s.periods
    decreases Weight(s.current), |s.current|
  {
    if s.current != [] {
      FireHeadProgresses(s);
      FireHeadOther(s, first, t);
      SwitchSpares(FireHead(s), first, t);
    }
  }

  lemma FireHeadOther(s: Service, first: map<Id, nat>, t: Id)
    requires t in first && s.current != [] && s.current[0].timer != t
    ensures var s1 := FireHead(s);
            && ItemsOf(s1.current, t) == ItemsOf(s.current, t)
            && Due(s1, first, t) == Due(s, first, t) && s1.periods == s.periods && s1.autoReload == s.autoReload
  {
    var head := s.current[0];
    var reload := Tick(head.value + PeriodOf(s.periods, head.timer));
    ItemsInsert(s.current[1..], InsertPosition(ItemValues(s.current[1..]), reload), Item(head.timer, reload), t);
    DueAfterFiring(s, FireHead(s), first, head.timer, t);
  }

  /** prvSwitchTimerLists runs the callback of a timer left in the current list once for each expiry
      before the rollover, and not for the first one after it. */
  lemma {:induction false} SwitchFiresToRollover(s: Service, first: map<Id, nat>, last: int, now: int, t: Id)
    requires Inv(s, first, last, now) && Epoch(now) == Epoch(last) + 1
    requires t in first && t in s.autoReload && ItemsOf(s.current, t) == 1
    ensures var rollover := MODULUS * (Epoch(last) + 1);
            var due := Due(Switched(s), first, t);
            due - PeriodOf(s.periods, t) < rollover <= due
    decreases Weight(s.current), |s.current|
  {
    hide Inv, InsertSorted;
    assert s.current != [];
    FireHeadProgresses(s);
    FireHeadKeeps(s, first, last, now);
    if s.current[0].timer != t {
      FireHeadOther(s, first, t);
      SwitchFiresToRollover(FireHead(s), first, last, now, t);
    } else {
      HeadFires(s, first, last, now);
      if ItemsOf(FireHead(s).current, t) == 1 {
        SwitchFiresToRollover(FireHead(s), first, last, now, t);
      } else {
        SwitchSpares(FireHead(s), first, t);
      }
    }
  }

  /** A one-shot timer left in the current list is fired once: its callback count goes up by one. */
  lemma {:induction false} SwitchFiresOneShotOnce(s: Service, first: map<Id, nat>, last: int, now: int, t: Id)
    requires Inv(s, first, last, now) && Epoch(now) == Epoch(last) + 1
    requires t in first && t !in s.autoReload && ItemsOf(s.current, t) == 1
    ensures Due(Switched(s), first, t) == Due(s, first, t) + PeriodOf(s.periods, t)
    decreases Weight(s.current), |s.current|
  {
    hide Inv, InsertSorted;
    assert s.current != [];
    FireHeadProgresses(s);
    FireHeadKeeps(s, first, last, now);
    if s.current[0].timer != t {
      FireHeadOther(s, first, t);
      SwitchFiresOneShotOnce(FireHead(s), first, last, now, t);
    } else {
      DueAfterFiring(s, FireHead(s), first, t, t);
      SwitchSpares(FireHead(s), first, t);
    }
  }

  /** The fired head either stays in the list or was due for the last time before the rollover. */
  lemma HeadFires(s: Service, first: map<Id, nat>, last: int, now: int)
    requires Inv(s, first, last, now) && s.current != [] && Epoch(now) == Epoch(last) + 1
             && s.current[0].timer in s.autoReload
    ensures var t := s.current[0].timer;
            var s1 := FireHead(s);
            && t in first && s1.periods == s.periods && s1.autoReload == s.autoReload
            && ItemsOf(s1.current, t) <= 1
            && (ItemsOf(s1.current, t) == 0 ==>
                  Due(s1, first, t) - PeriodOf(s.periods, t) < MODULUS * (Epoch(last) + 1) <= Due(s1, first, t))
  {
    hide Due, ItemsOk, QueueOk, InOrder;
    var t := s.current[0].timer;
    var p := PeriodOf(s.periods, t);
    var due := HeadDue(s, first, last, now);
    Reload(due, p);
    NextEpochs(due, p);
    DueAfterFiring(s, FireHead(s), first, t, t);
    assert Tokens(s, t) <= 1;
    var reload := Tick(due + p);
    ItemsInsert(s.current[1..], InsertPosition(ItemValues(s.current[1..]), reload), Item(t, reload), t);
  }

  // ----- what a round does to the timers that are overdue ------------------------------------------------

  /** The timers with a callback to come whose expiry is not after a given time. */
  function Overdue(s: Service, first: map<Id, nat>, time: int): set<Id> {
    set t | t in first && Live(s, t) && Due(s, first, t) <= time
  }

  /** Callbacks are only added. */
  ghost predicate Progress(s: Service, s1: Service) {
    SameTimers(s, s1) && forall t :: Count(s.fired, t) <= Count(s1.fired, t)
  }

  /** Callbacks and commands are only added, and a command only for a timer whose callback was run. */
  ghost predicate Advances(s: Service, s1: Service) {
    && Progress(s, s1)
    && forall t :: CommandsFor(s.queue, t) <= CommandsFor(s1.queue, t)
                   && (CommandsFor(s.queue, t) < CommandsFor(s1.queue, t) ==> Count(s.fired, t) < Count(s1.fired, t))
  }

  lemma {:induction false} MoreIsLater(m: nat, n: nat, p: nat)
    requires m <= n
    ensures m * p <= n * p
    ensures m < n ==> m * p + p <= n * p
  {
    if m < n {
      MoreIsLater(m, n - 1, p);
      assert n * p == (n - 1) * p + p;
    }
  }

  lemma ProgressIsLater(s: Service, s1: Service, first: map<Id, nat>, t: Id)
    requires Progress(s, s1) && t in first
    ensures Due(s, first, t) <= Due(s1, first, t) && (Live(s1, t) ==> Live(s, t))
    ensures Count(s.fired, t) < Count(s1.fired, t) ==> Due(s, first, t) <= Due(s1, first, t) - PeriodOf(s.periods, t)
  {
    MoreIsLater(Count(s.fired, t), Count(s1.fired, t), PeriodOf(s.periods, t));
  }

  lemma OverdueShrinks(s: Service, s1: Service, first: map<Id, nat>, time: int)
    requires Progress(s, s1)
    ensures Overdue(s1, first, time) <= Overdue(s, first, time)
  {
    forall t | t in Overdue(s1, first, time)
      ensures t in Overdue(s, first, time)
    {
      ProgressIsLater(s, s1, first, t);
    }
  }

  lemma FiringAdvances(s: Service, s1: Service, x: Id, value: nat)
    requires SameTimers(s, s1) && s1.fired == s.fired + [x]
    requires s1.queue == s.queue || s1.queue == s.queue + [Start(x, value)]
    ensures Advances(s, s1)
  {
    forall t
      ensures Count(s1.fired, t) == Count(s.fired, t) + if x == t then 1 else 0
      ensures CommandsFor(s.queue, t) <= CommandsFor(s1.queue, t) <= CommandsFor(s.queue, t) + if x == t then 1 else 0
    {
      CountAppend(s.fired, x, t);
      CommandsAppend(s.queue, Start(x, value), t);
    }
  }

  lemma AdvancesThen(s: Service, s1: Service, s2: Service)
    requires Advances(s, s1) && Advances(s1, s2)
    ensures Advances(s, s2)
  {
    assert forall t :: CommandsFor(s.queue, t) <= CommandsFor(s1.queue, t);
  }

  lemma {:induction false} SwitchedAdvances(s: Service)
    ensures Advances(s, Switched(s))
    decreases Weight(s.current), |s.current|
  {
    hide InsertSorted, Count, CommandsFor, Weight;
    if s.current != [] {
      FireHeadProgresses(s);
      var head := s.current[0];
      FiringAdvances(s, FireHead(s), head.timer, head.value);
      SwitchedAdvances(FireHead(s));
      AdvancesThen(s, FireHead(s), Switched(FireHead(s)));
    }
  }

  lemma SampledAdvances(s: Service, now: nat)
    ensures Advances(s, Sampled(s, now))
  {
    hide Switched;
    SwitchedAdvances(s);
  }

  lemma ExpiredAdvances(s: Service, expiry: nat, now: nat)
    requires s.current != []
    ensures Advances(s, ProcessedExpired(s, expiry, now))
  {
    hide InsertSorted, Count, CommandsFor, Decide;
    FiringAdvances(s, ProcessedExpired(s, expiry, now), s.current[0].timer, expiry);
  }

  lemma ServicedAdvances(s: Service, now: nat)
    ensures Advances(s, ServicedTimers(s, now))
  {
    hide Sampled, ProcessedExpired, Advances;
    SampledAdvances(s, now);
    if now >= s.lastTime && s.current != [] && s.current[0].value <= now {
      SampledCurrent(s, now);
      ExpiredAdvances(Sampled(s, now), s.current[0].value, now);
      AdvancesThen(s, Sampled(s, now), ServicedTimers(s, now));
    }
  }

  lemma SampledCurrent(s: Service, now: nat)
    requires now >= s.lastTime
    ensures Sampled(s, now) == s.(lastTime := now)
  {}

  lemma CommandProgress(s: Service, now: nat)
    requires s.queue != [] && s.queue[0].Start?
    ensures Progress(s, ProcessedCommand(s, now))
  {
    hide ProcessedCommand, Count;
    CommandFires(s, now);
    forall u
      ensures Count(s.fired, u) <= Count(ProcessedCommand(s, now).fired, u)
    {
      CountAppend(s.fired, s.queue[0].timer, u);
    }
  }

  lemma CommandFires(s: Service, now: nat)
    requires s.queue != [] && s.queue[0].Start?
    ensures var s1 := ProcessedCommand(s, now);
            SameTimers(s, s1) && (s1.fired == s.fired || s1.fired == s.fired + [s.queue[0].timer])
  {
    hide InsertSorted, Decide, WithoutTimer, PeriodOf, Tick;
  }

  lemma {:induction false} DrainedProgress(s: Service, first: map<Id, nat>, now: int)
    requires Inv(s, first, now, now) && Prompt(s, first, now) && ValuesWrapped(s)
    ensures Progress(s, Drained(s, Tick(now)))
    decreases Backlog(s.queue, Tick(now))
  {
    hide Inv, Prompt, Tick, ProcessedCommand;
    if s.queue != [] {
      CommandProgresses(s, Tick(now));
      IsKnown(s, first, now);
      ProcessedCommandKeeps(s, first, now);
      PromptKeeps(s, first, now);
      CommandProgress(s, Tick(now));
      DrainedProgress(ProcessedCommand(s, Tick(now)), first, now);
    }
  }

  /** A processed command leads its timer past now, or leaves another command for it. */
  lemma CommandServes(s: Service, first: map<Id, nat>, now: int, t: Id)
    requires Inv(s, first, now, now) && s.queue != [] && Prompt(s, first, now) && t in first
             && CommandsFor(s.queue, t) > 0
    ensures var s1 := ProcessedCommand(s, Tick(now));
            CommandsFor(s1.queue, t) > 0 || (Live(s1, t) ==> Due(s1, first, t) > now)
  {
    hide Inv, Due, Tick, InsertSorted, PeriodOf, Decide, WithoutTimer, ProcessedCommand, Count;
    var c := s.queue[0];
    IsKnown(s, first, now);
    TakeQueued(s, first, now);
    var p := PeriodOf(s.periods, c.timer);
    var due := Due(s, first, c.timer);
    Reload(due - p, p);
    DecidesExactly(due - p, now, p);
    QueuedHasRoom(s, first, now);
    CommandLeaves(s, Tick(now));
    CountAppend(s.fired, c.timer, c.timer);
    CommandsAppend(s.queue[1..], Start(c.timer, Tick(c.value + p)), t);
    if due > now {
      SameDue(s, ProcessedCommand(s, Tick(now)), first, c.timer);
    }
  }

  /** The callbacks and the queue after a start command has been processed. */
  lemma CommandLeaves(s: Service, now: nat)
    requires s.queue != [] && s.queue[0].Start? && |s.queue[1..]| < s.capacity
    ensures var c := s.queue[0];
            var p := PeriodOf(s.periods, c.timer);
            var s1 := ProcessedCommand(s, now);
            && SameTimers(s, s1)
            && if Decide(Tick(c.value + p), now, c.value, p).ProcessNow? then
                 && s1.fired == s.fired + [c.timer]
                 && s1.queue == if c.timer in s.autoReload then s.queue[1..] + [Start(c.timer, Tick(c.value + p))]
                                else s.queue[1..]
               else s1.fired == s.fired && s1.queue == s.queue[1..]
  {
    hide InsertSorted, Decide, WithoutTimer, PeriodOf, Tick;
  }

  lemma SameDue(s: Service, s1: Service, first: map<Id, nat>, t: Id)
    requires t in first && s1.fired == s.fired && s1.periods == s.periods
    ensures Due(s1, first, t) == Due(s, first, t)
  {}

  lemma QueuedHasRoom(s: Service, first: map<Id, nat>, now: int)
    requires Inv(s, first, now, now) && s.queue != []
    ensures |s.queue[1..]| < s.capacity
  {
    TakeQueued(s, first, now);
    QueueHasRoom(s.(queue := s.queue[1..]), first, now, now, s.queue[0].timer);
  }

  /** After the queue is drained, no timer that had a command in it is overdue. */
  lemma {:induction false} DrainedServes(s: Service, first: map<Id, nat>, now: int, t: Id)
    requires Inv(s, first, now, now) && Prompt(s, first, now) && ValuesWrapped(s) && t in first
             && CommandsFor(s.queue, t) > 0
    ensures var r := Drained(s, Tick(now));
            Live(r, t) ==> Due(r, first, t) > now
    decreases Backlog(s.queue, Tick(now))
  {
    hide Inv, Prompt, Tick, ProcessedCommand, Due, Progress;
    assert s.queue != [];
    CommandProgresses(s, Tick(now));
    ProcessedCommandKeeps(s, first, now);
    PromptKeeps(s, first, now);
    CommandServes(s, first, now, t);
    var s1 := ProcessedCommand(s, Tick(now));
    if CommandsFor(s1.queue, t) > 0 {
      DrainedServes(s1, first, now, t);
    } else {
      DrainedProgress(s1, first, now);
      ProgressIsLater(s1, Drained(s1, Tick(now)), first, t);
    }
  }

  /** If a listed timer is overdue, the head of the current list is. */
  lemma HeadIsOverdue(s: Service, first: map<Id, nat>, last: int, now: int, time: int, t: Id)
    requires Inv(s, first, last, last) && last <= now && Epoch(now) == Epoch(last) && time <= now
    requires t in Overdue(s, first, time) && CommandsFor(s.queue, t) == 0
    ensures s.current != [] && s.current[0].value <= Tick(now) && s.current[0].timer in Overdue(s, first, time)
  {
    hide QueueOk;
    assert Tokens(s, t) == 1;
    assert forall x | x in s.overflow :: x.timer != t;
    NoItems(s.current, t);
    NoItems(s.overflow, t);
    var x :| x in s.current && x.timer == t;
    assert s.current[0].value <= x.value;
    var h := s.current[0].timer;
    assert s.current[0] in s.current;
    NoItems(s.current, h);
    assert Tokens(s, h) == if h in first && Live(s, h) then 1 else 0;
  }

  /** Processing the expired head leads it past now, or leaves a command for it. */
  lemma ExpiredServes(s: Service, first: map<Id, nat>, now: int)
    requires Inv(s, first, now, now) && s.current != [] && s.current[0].value <= Tick(now)
    ensures var t := s.current[0].timer;
            var s1 := ProcessedExpired(s, s.current[0].value, Tick(now));
            t in first && (CommandsFor(s1.queue, t) > 0 || (Live(s1, t) ==> Due(s1, first, t) > now))
  {
    hide Inv, Missing, Due, Tick, InsertSorted, PeriodOf, Decide;
    var t := s.current[0].timer;
    var p := PeriodOf(s.periods, t);
    HeadExpired(s, first, now);
    var due := Due(s, first, t);
    FireCurrent(s, first, now, now);
    var s1 := s.(current := s.current[1..], fired := s.fired + [t]);
    QueueHasRoom(s1, first, now, now, t);
    Reload(due, p);
    DecidesExactly(due, now, p);
    CommandsAppend(s.queue, Start(t, s.current[0].value), t);
    SameDue(s1, ProcessedExpired(s, s.current[0].value, Tick(now)), first, t);
  }

  // ----- runs of the service task ------------------------------------------------------------------------

  /** One round of prvTimerTask: timers are looked at at absolute time n1, commands at n2. */
  ghost predicate Round(s: Service, n1: int, n2: int, s1: Service) {
    var sampled := Sampled(ServicedTimers(s, Tick(n1)), Tick(n2));
    ValuesWrapped(sampled) && s1 == Drained(sampled, Tick(n2))
  }

  /** The round follows the last one, and its samples each other, within a turn of the tick counter, and
      so does each command its processing. */
  ghost predicate KeepsUp(s: Service, first: map<Id, nat>, last: int, n1: int, n2: int) {
    && last <= n1 < last + MODULUS && n1 <= n2 < n1 + MODULUS
    && Prompt(Sampled(ServicedTimers(s, Tick(n1)), Tick(n2)), first, n2)
  }

  lemma RoundKeeps(s: Service, first: map<Id, nat>, last: int, n1: int, n2: int, s1: Service)
    requires Inv(s, first, last, last) && s.lastTime == Tick(last)
    requires KeepsUp(s, first, last, n1, n2) && Round(s, n1, n2, s1)
    ensures Inv(s1, first, n2, n2) && s1.lastTime == Tick(n2) && s1.queue == [] && SameTimers(s, s1)
  {
    hide Inv, Prompt, ServicedTimers, Sampled, Drained;
    ServicedTimersKeeps(s, first, last, n1);
    SampledKeeps(ServicedTimers(s, Tick(n1)), first, n1, n2);
    DrainedKeeps(Sampled(ServicedTimers(s, Tick(n1)), Tick(n2)), first, n2);
  }

  /** In a round whose first sample shows no rollover, an overdue timer is served if there is one; and no
      timer becomes overdue for a time gone by. */
  lemma RoundServes(s: Service, first: map<Id, nat>, last: int, n1: int, n2: int, s1: Service, time: int)
    requires Inv(s, first, last, last) && s.lastTime == Tick(last) && time <= n1
    requires KeepsUp(s, first, last, n1, n2) && Round(s, n1, n2, s1)
    ensures Progress(s, s1) && Overdue(s1, first, time) <= Overdue(s, first, time)
    ensures |Overdue(s1, first, time)| <= |Overdue(s, first, time)|
    ensures Overdue(s, first, time) == {} || Epoch(n1) > Epoch(last)
            || |Overdue(s1, first, time)| < |Overdue(s, first, time)|
  {
    hide Inv, Prompt, ServicedTimers, Sampled, Drained, Advances, Overdue, Progress;
    var mid := ServicedTimers(s, Tick(n1));
    var sampled := Sampled(mid, Tick(n2));
    RoundAdvances(s, first, last, n1, n2, s1);
    OverdueShrinks(s, s1, first, time);
    SubsetIsSmaller(Overdue(s1, first, time), Overdue(s, first, time));
    if Overdue(s, first, time) != {} && Epoch(n1) == Epoch(last) {
      var t :| t in Overdue(s, first, time);
      var u := OneServed(s, first, last, n1, n2, s1, time, t);
      SmallerSet(Overdue(s1, first, time), Overdue(s, first, time), u);
    }
  }

  lemma SmallerSet(a: set<Id>, b: set<Id>, t: Id)
    requires a <= b && t in b && t !in a
    ensures |a| < |b|
  {
    assert a <= b - {t};
    SubsetIsSmaller(a, b - {t});
  }

  lemma RoundAdvances(s: Service, first: map<Id, nat>, last: int, n1: int, n2: int, s1: Service)
    requires Inv(s, first, last, last) && s.lastTime == Tick(last)
    requires KeepsUp(s, first, last, n1, n2) && Round(s, n1, n2, s1)
    ensures var mid := ServicedTimers(s, Tick(n1));
            var sampled := Sampled(mid, Tick(n2));
            && Inv(mid, first, n1, n1) && Inv(sampled, first, n2, n2)
            && Advances(s, mid) && Advances(s, sampled) && Progress(mid, s1) && Progress(sampled, s1) && Progress(s, s1)
  {
    hide Inv, Prompt, ServicedTimers, Sampled, Drained, CommandsFor, Count;
    var mid := ServicedTimers(s, Tick(n1));
    var sampled := Sampled(mid, Tick(n2));
    ServicedTimersKeeps(s, first, last, n1);
    SampledKeeps(mid, first, n1, n2);
    ServicedAdvances(s, Tick(n1));
    SampledAdvances(mid, Tick(n2));
    AdvancesThen(s, mid, sampled);
    DrainedProgress(sampled, first, n2);
  }

  /** Which overdue timer a round without a rollover serves: one that waits in the queue, or the head
      of the current list. */
  lemma OneServed(s: Service, first: map<Id, nat>, last: int, n1: int, n2: int, s1: Service, time: int, t: Id)
    returns (u: Id)
    requires Inv(s, first, last, last) && s.lastTime == Tick(last) && time <= n1
    requires KeepsUp(s, first, last, n1, n2) && Round(s, n1, n2, s1)
    requires Epoch(n1) == Epoch(last) && t in Overdue(s, first, time)
    ensures u in Overdue(s, first, time) && u !in Overdue(s1, first, time)
  {
    hide Inv, Prompt, Sampled, Drained, ProcessedExpired, ServicedTimers, Due, Count, CommandsFor, Live;
    var mid := ServicedTimers(s, Tick(n1));
    var sampled := Sampled(mid, Tick(n2));
    RoundAdvances(s, first, last, n1, n2, s1);
    if CommandsFor(s.queue, t) > 0 {
      u := t;
      DrainedServes(sampled, first, n2, t);
    } else {
      HeadIsOverdue(s, first, last, n1, time, t);
      u := s.current[0].timer;
      HeadServed(s, first, last, n1);
      ProgressIsLater(mid, s1, first, u);
      if CommandsFor(mid.queue, u) > 0 {
        SampledAdvances(mid, Tick(n2));
        DrainedServes(sampled, first, n2, u);
      }
    }
  }

  lemma HeadServed(s: Service, first: map<Id, nat>, last: int, n1: int)
    requires Inv(s, first, last, last) && s.lastTime == Tick(last) && last <= n1 && Epoch(n1) == Epoch(last)
    requires s.current != [] && s.current[0].value <= Tick(n1)
    ensures var mid := ServicedTimers(s, Tick(n1));
            var u := s.current[0].timer;
            u in first && (CommandsFor(mid.queue, u) > 0 || (Live(mid, u) ==> Due(mid, first, u) > n1))
  {
    hide Inv, ProcessedExpired, Sampled, Due, Count, CommandsFor;
    assert Tick(n1) >= Tick(last);
    SampledCurrent(s, Tick(n1));
    Later(s, first, last, n1);
    ExpiredServes(Sampled(s, Tick(n1)), first, n1);
  }

  // ----- the service task is prompt if the tick counter does not outrun it ------------------------------

  /** Nothing is due, and no queued command was issued, before the given time. */
  ghost predicate Since(s: Service, first: map<Id, nat>, time: int) {
    && Overdue(s, first, time - 1) == {}
    && forall t | t in first && CommandsFor(s.queue, t) > 0 :: Due(s, first, t) - PeriodOf(s.periods, t) >= time
  }

  lemma RoundIsPrompt(s: Service, first: map<Id, nat>, last: int, n1: int, n2: int, time: int)
    requires Inv(s, first, last, last) && s.lastTime == Tick(last) && Since(s, first, time)
    requires last <= n1 < last + MODULUS && n1 <= n2 < n1 + MODULUS && n2 < time + MODULUS
    ensures KeepsUp(s, first, last, n1, n2)
  {
    hide Inv, ServicedTimers, Sampled, Count, Due;
    var mid := ServicedTimers(s, Tick(n1));
    var sampled := Sampled(mid, Tick(n2));
    ServicedTimersKeeps(s, first, last, n1);
    SampledKeeps(mid, first, n1, n2);
    ServicedAdvances(s, Tick(n1));
    SampledAdvances(mid, Tick(n2));
    AdvancesThen(s, mid, sampled);
    forall c | c in sampled.queue && c.timer in first
      ensures n2 < Due(sampled, first, c.timer) - PeriodOf(sampled.periods, c.timer) + MODULUS
    {
      QueuedSince(s, sampled, first, time, n2, c.timer);
    }
  }

  lemma QueuedSince(s: Service, s1: Service, first: map<Id, nat>, time: int, now: int, t: Id)
    requires Since(s, first, time) && Advances(s, s1) && t in first && Inv(s1, first, now, now)
    requires exists c :: c in s1.queue && c.timer == t
    ensures Due(s1, first, t) - PeriodOf(s1.periods, t) >= time
  {
    hide Due, Count, ItemsOk, QueueOk, InOrder;
    NoCommands(s1.queue, t);
    assert Tokens(s1, t) == if t in first && Live(s1, t) then 1 else 0;
    ProgressIsLater(s, s1, first, t);
    if CommandsFor(s.queue, t) < CommandsFor(s1.queue, t) {
      assert t !in Overdue(s, first, time - 1);
    }
  }

  // ----- runs ---------------------------------------------------------------------------------------------

  /** A run of rounds: the i-th samples the tick counter at absolute times times[i].0, for the timers,
      and times[i].1, for the commands. */
  ghost predicate IsRun(run: seq<Service>, times: seq<(int, int)>) {
    && |run| == |times| > 0
    && forall i | 0 < i < |run| :: Round(run[i - 1], times[i].0, times[i].1, run[i])
  }

  /** The time before which nothing is left to do when round i begins: the first sample of as many
      rounds ago as there are timers, and one more for a rollover. */
  function Backward(times: seq<(int, int)>, timers: nat, start: int, i: nat): int
    requires i <= |times|
  {
    if i >= timers + 2 then times[i - 1 - timers].0 else start
  }

  /** The tick counter does not outrun the service task: two more rounds than there are timers always
      take less than a full turn of the counter. */
  ghost predicate OnTime(times: seq<(int, int)>, timers: nat, start: int) {
    && 0 < |times| && start <= times[0].1
    && forall i | 0 < i < |times| ::
         times[i - 1].1 <= times[i].0 <= times[i].1 < Backward(times, timers, start, i) + MODULUS
  }

  /** The run starts with timers all of whose expiries, and start commands, are not before start. */
  ghost predicate Starts(s: Service, first: map<Id, nat>, start: int, now: int) {
    Inv(s, first, now, now) && s.lastTime == Tick(now) && Since(s, first, start)
  }

  /** A run may start when the timers have been started by commands that wait in the queue, each issued
      one period before the timer's first expiry. */
  lemma InitialHolds(s: Service, first: map<Id, nat>, start: int, now: int)
    requires s.current == [] && s.overflow == [] && s.fired == [] && |first| <= s.capacity && s.lastTime == Tick(now)
    requires forall c | c in s.queue ::
               && c.Start? && c.timer in first && start <= first[c.timer] - PeriodOf(s.periods, c.timer) <= now
               && c.value == Tick(first[c.timer] - PeriodOf(s.periods, c.timer))
    requires forall t :: CommandsFor(s.queue, t) == if t in first then 1 else 0
    ensures Starts(s, first, start, now)
  {
    hide Since, Tick, Epoch, Tokens, PeriodOf;
    InitialDue(s, first);
    hide Due, Count, CommandsFor, ItemsOf;
    InitialSince(s, first, start);
  }

  lemma InitialDue(s: Service, first: map<Id, nat>)
    requires s.fired == [] && s.current == [] && s.overflow == []
    ensures forall t | t in first :: Due(s, first, t) == first[t] && Count(s.fired, t) == 0
    ensures forall t :: Tokens(s, t) == CommandsFor(s.queue, t) && Live(s, t)
  {}

  lemma InitialSince(s: Service, first: map<Id, nat>, start: int)
    requires s.fired == []
    requires forall c | c in s.queue :: c.timer in first && start <= first[c.timer] - PeriodOf(s.periods, c.timer)
    requires forall t :: CommandsFor(s.queue, t) == if t in first then 1 else 0
    ensures Since(s, first, start)
  {
    hide CommandsFor;
    forall t | t in first
      ensures first[t] - PeriodOf(s.periods, t) >= start
    {
      NoCommands(s.queue, t);
    }
  }

  /** What holds when round m is over. */
  ghost predicate RoundOk(run: seq<Service>, times: seq<(int, int)>, first: map<Id, nat>, start: int, m: nat)
    requires m < |run| == |times|
  {
    var s := run[m];
    && Inv(s, first, times[m].1, times[m].1) && s.lastTime == Tick(times[m].1) && SameTimers(run[0], s)
    && Overdue(s, first, start - 1) == {}
    && (m > 0 ==> s.queue == [] && KeepsUp(run[m - 1], first, times[m - 1].1, times[m].0, times[m].1))
  }

  lemma NextRoundOk(run: seq<Service>, times: seq<(int, int)>, first: map<Id, nat>, start: int, m: nat)
    requires IsRun(run, times) && m + 1 < |run| && start <= times[m + 1].0 + 1 && RoundOk(run, times, first, start, m)
    requires KeepsUp(run[m], first, times[m].1, times[m + 1].0, times[m + 1].1)
    ensures RoundOk(run, times, first, start, m + 1)
  {
    hide Inv, KeepsUp, Round, Overdue;
    RoundKeeps(run[m], first, times[m].1, times[m + 1].0, times[m + 1].1, run[m + 1]);
    RoundServes(run[m], first, times[m].1, times[m + 1].0, times[m + 1].1, run[m + 1], start - 1);
  }

  /** Each round serves one of the timers that were overdue at the first sample of round j, but for one
      round per rollover in between. */
  lemma {:induction false} LagShrinks(run: seq<Service>, times: seq<(int, int)>, first: map<Id, nat>, start: int,
                                      j: nat, i: nat)
    requires IsRun(run, times) && 0 < j <= i < |run|
    requires forall m | 0 <= m <= i :: RoundOk(run, times, first, start, m)
    ensures times[j].0 <= times[i].1 && Epoch(times[j - 1].1) <= Epoch(times[i].1)
    ensures var overdue := Overdue(run[i], first, times[j].0);
            overdue == {} || |overdue| + (i - j + 1) <= |first| + Epoch(times[i].1) - Epoch(times[j - 1].1)
    decreases i
  {
    hide Inv, Round, Overdue, Prompt;
    var time := times[j].0;
    assert RoundOk(run, times, first, start, i - 1) && RoundOk(run, times, first, start, i);
    if i == j {
      OverdueAmong(run[i - 1], first, time);
    } else {
      LagShrinks(run, times, first, start, j, i - 1);
    }
    RoundServes(run[i - 1], first, times[i - 1].1, times[i].0, times[i].1, run[i], time);
    EpochsRise(times[i - 1].1, times[i].0, times[i].1);
  }

  lemma OverdueAmong(s: Service, first: map<Id, nat>, time: int)
    ensures |Overdue(s, first, time)| <= |first|
  {
    SubsetIsSmaller(Overdue(s, first, time), first.Keys);
    assert |first.Keys| == |first|;
  }

  lemma EpochsRise(a: int, b: int, c: int)
    requires a <= b <= c
    ensures Epoch(a) <= Epoch(b) <= Epoch(c)
    ensures c < a + MODULUS ==> Epoch(c) <= Epoch(a) + 1
  {}

  lemma NothingLags(run: seq<Service>, times: seq<(int, int)>, first: map<Id, nat>, start: int, i: nat)
    requires IsRun(run, times) && OnTime(times, |first|, start) && |first| < i < |run|
    requires forall m | 0 <= m <= i :: RoundOk(run, times, first, start, m)
    ensures Overdue(run[i], first, times[i - |first|].0) == {}
  {
    hide Overdue, RoundOk, Round;
    var j := i - |first|;
    LagShrinks(run, times, first, start, j, i);
    EpochsRise(times[j - 1].1, times[j].0, times[i].1);
    assert times[i].1 < Backward(times, |first|, start, i) + MODULUS;
    assert j > 1 ==> times[j - 1].0 <= times[j - 1].1;
  }

  lemma {:induction false} RoundsOk(run: seq<Service>, times: seq<(int, int)>, first: map<Id, nat>, start: int, i: nat)
    requires IsRun(run, times) && OnTime(times, |first|, start) && i < |run|
    requires Starts(run[0], first, start, times[0].1)
    ensures forall m | 0 <= m <= i :: RoundOk(run, times, first, start, m)
    decreases i
  {
    hide Inv, Overdue, Round, KeepsUp;
    if i > 0 {
      RoundsOk(run, times, first, start, i - 1);
      assert RoundOk(run, times, first, start, i - 1);
      assert times[i - 1].1 <= times[i].0 <= times[i].1 < Backward(times, |first|, start, i) + MODULUS;
      StartBefore(times, |first|, start, i - 1);
      StillToDo(run, times, first, start, i);
      RoundIsPrompt(run[i - 1], first, times[i - 1].1, times[i].0, times[i].1, Backward(times, |first|, start, i));
      NextRoundOk(run, times, first, start, i - 1);
    }
  }

  lemma {:induction false} StartBefore(times: seq<(int, int)>, timers: nat, start: int, i: nat)
    requires OnTime(times, timers, start) && i < |times|
    ensures start <= times[i].1 && (i + 1 < |times| ==> Backward(times, timers, start, i + 1) <= times[i].1)
    decreases i
  {
    if i > 0 {
      assert times[i - 1].1 <= times[i].0 <= times[i].1;
      StartBefore(times, timers, start, i - 1);
    }
    if i + 1 < |times| && i + 1 >= timers + 2 {
      InOrderOfTime(times, timers, start, i - timers, i);
    }
  }

  lemma {:induction false} InOrderOfTime(times: seq<(int, int)>, timers: nat, start: int, j: nat, i: nat)
    requires OnTime(times, timers, start) && 0 < j <= i < |times|
    ensures times[j].0 <= times[i].1
    decreases i
  {
    assert times[i - 1].1 <= times[i].0 <= times[i].1;
    if j < i {
      InOrderOfTime(times, timers, start, j, i - 1);
    }
  }

  lemma StillToDo(run: seq<Service>, times: seq<(int, int)>, first: map<Id, nat>, start: int, i: nat)
    requires IsRun(run, times) && OnTime(times, |first|, start) && 0 < i < |run|
    requires Starts(run[0], first, start, times[0].1)
    requires forall m | 0 <= m <= i - 1 :: RoundOk(run, times, first, start, m)
    ensures Since(run[i - 1], first, Backward(times, |first|, start, i))
  {
    hide Inv, Round, OnTime;
    assert RoundOk(run, times, first, start, i - 1);
    if i >= |first| + 2 {
      NothingLags(run, times, first, start, i - 1);
      OverdueBefore(run[i - 1], first, times[i - 1 - |first|].0);
    }
  }

  lemma OverdueBefore(s: Service, first: map<Id, nat>, time: int)
    requires Overdue(s, first, time) == {}
    ensures Overdue(s, first, time - 1) == {}
  {
    assert forall t :: t !in Overdue(s, first, time);
  }

  /** Auto-reload timers neither drift nor skip: after any round of any run an auto-reload timer has
      exactly one token, and when the service task finds no expired timer, the number of callbacks is
      exactly the number of expiries up to now. */
  lemma AutoReloadExactly(run: seq<Service>, times: seq<(int, int)>, first: map<Id, nat>, start: int, i: nat, t: Id)
    requires IsRun(run, times) && OnTime(times, |first|, start) && Starts(run[0], first, start, times[0].1)
    requires 0 < i < |run| && t in first && t in run[0].autoReload
    ensures var s := run[i];
            var now := times[i].1;
            var callbacks := Count(s.fired, t);
            var p := PeriodOf(run[0].periods, t);
            && Tokens(s, t) == 1
            && (callbacks > 0 ==> first[t] + (callbacks - 1) * p <= now)
            && (s.current == [] || s.current[0].value > Tick(now) ==> now < first[t] + callbacks * p)
  {
    RoundsOk(run, times, first, start, i);
    assert RoundOk(run, times, first, start, i);
    var s := run[i];
    var now := times[i].1;
    var p := PeriodOf(s.periods, t);
    assert (Count(s.fired, t) - 1) * p == Count(s.fired, t) * p - p;
    if s.current == [] || s.current[0].value > Tick(now) {
      NothingOverdue(s, first, now, t);
    }
  }

  /** No callback is early: the k-th callback of a timer, for its expiry first + (k - 1) * period, is
      run at the earliest by the sample, of the timers or of the commands, that is at or after it. */
  lemma NoCallbackIsEarly(run: seq<Service>, times: seq<(int, int)>, first: map<Id, nat>, start: int, i: nat, t: Id,
                          k: nat)
    requires IsRun(run, times) && OnTime(times, |first|, start) && Starts(run[0], first, start, times[0].1)
    requires 0 < i < |run| && t in first && k > 0
    ensures var expiry := first[t] + (k - 1) * PeriodOf(run[0].periods, t);
            && (k <= Count(ServicedTimers(run[i - 1], Tick(times[i].0)).fired, t) ==> expiry <= times[i].0)
            && (k <= Count(run[i].fired, t) ==> expiry <= times[i].1)
  {
    RoundsOk(run, times, first, start, i);
    assert RoundOk(run, times, first, start, i) && RoundOk(run, times, first, start, i - 1);
    RoundAdvances(run[i - 1], first, times[i - 1].1, times[i].0, times[i].1, run[i]);
    if k <= Count(run[i].fired, t) {
      NotBefore(run[i], first, times[i].1, t, k);
    }
    var mid := ServicedTimers(run[i - 1], Tick(times[i].0));
    if k <= Count(mid.fired, t) {
      NotBefore(mid, first, times[i].0, t, k);
    }
  }

  lemma NotBefore(s: Service, first: map<Id, nat>, now: int, t: Id, k: nat)
    requires Inv(s, first, now, now) && t in first && 0 < k <= Count(s.fired, t)
    ensures first[t] + (k - 1) * PeriodOf(s.periods, t) <= now
  {
    MoreIsLater(k - 1, Count(s.fired, t), PeriodOf(s.periods, t));
  }

  /** No callback is late by more rounds than there are timers: after round i, every expiry up to the
      first sample of round i - |first| has had its callback. */
  lemma NoCallbackIsLate(run: seq<Service>, times: seq<(int, int)>, first: map<Id, nat>, start: int, i: nat, t: Id,
                         k: nat)
    requires IsRun(run, times) && OnTime(times, |first|, start) && Starts(run[0], first, start, times[0].1)
    requires |first| < i < |run| && t in first && k > 0 && (t in run[0].autoReload || k == 1)
    requires first[t] + (k - 1) * PeriodOf(run[0].periods, t) <= times[i - |first|].0
    ensures Count(run[i].fired, t) >= k
  {
    hide Inv, Round, OnTime;
    RoundsOk(run, times, first, start, i);
    assert RoundOk(run, times, first, start, i);
    NothingLags(run, times, first, start, i);
    ServedBy(run[i], first, times[i - |first|].0, t, k);
  }

  lemma ServedBy(s: Service, first: map<Id, nat>, time: int, t: Id, k: nat)
    requires Overdue(s, first, time) == {} && t in first && k > 0 && (t in s.autoReload || k == 1)
    requires first[t] + (k - 1) * PeriodOf(s.periods, t) <= time
    ensures Count(s.fired, t) >= k
  {
    assert t !in Overdue(s, first, time);
    if Count(s.fired, t) < k {
      MoreIsLater(Count(s.fired, t), k - 1, PeriodOf(s.periods, t));
    }
  }

  /** When the service task finds nothing to do it waits until exactly the next expiry, or, if none is
      in this epoch, until the rollover. */
  lemma WaitsForNextExpiry(s: Service, first: map<Id, nat>, now: int)
    requires Inv(s, first, now, now) && s.queue == [] && (s.current == [] || s.current[0].value > Tick(now))
    ensures var until := now + BlockTime(s, Tick(now));
            && (forall t | t in first && Live(s, t) :: until <= Due(s, first, t))
            && (s.current != [] ==> exists t | t in first :: Live(s, t) && until == Due(s, first, t))
            && (s.current == [] ==> until < now + MODULUS && Tick(until) == 0)
  {
    hide Due, Live;
    var until := now + BlockTime(s, Tick(now));
    if s.current != [] {
      assert s.current[0] in s.current;
      NoItems(s.current, s.current[0].timer);
      assert Tokens(s, s.current[0].timer) > 0;
    }
    forall t | t in first && Live(s, t)
      ensures until <= Due(s, first, t)
    {
      assert Tokens(s, t) == 1;
      NoItems(s.current, t);
      NoItems(s.overflow, t);
      if ItemsOf(s.current, t) == 1 {
        var x :| x in s.current && x.timer == t;
        assert s.current[0].value <= x.value;
      } else {
        var x :| x in s.overflow && x.timer == t;
      }
    }
  }

  lemma NothingOverdue(s: Service, first: map<Id, nat>, now: int, t: Id)
    requires Inv(s, first, now, now) && s.queue == [] && t in first && t in s.autoReload
    requires s.current == [] || s.current[0].value > Tick(now)
    ensures now < Due(s, first, t)
  {
    assert Tokens(s, t) == 1;
    if ItemsOf(s.current, t) == 1 {
      NoItems(s.current, t);
      var x :| x in s.current && x.timer == t;
      assert s.current[0].value <= x.value;
    } else {
      NoItems(s.overflow, t);
      var x :| x in s.overflow && x.timer == t;
    }
  }
}
