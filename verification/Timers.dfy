// The software timers' service task (FreeRTOS/timers.c): two lists of timers in expiry order, for
// this and for the next epoch of the tick counter, and a queue of commands.

module Timers {
  import opened Sequences
  import opened Ticks
  import opened Lists

  type Id = nat

  /** A timer period: positive, and below a full turn of the tick counter. */
  type Period = p: nat | 0 < p < MODULUS witness 1

  /** An entry of a timer list: the timer and its xItemValue. */
  datatype Item = Item(timer: Id, value: nat)

  datatype Command =
    | Start(timer: Id, value: nat)          // tmrCOMMAND_START, value is when it was issued
    | Stop(timer: Id)
    | ChangePeriod(timer: Id, period: Period)
    | Delete(timer: Id)

  datatype Service = Service(
    current: seq<Item>,            // pxCurrentTimerList
    overflow: seq<Item>,           // pxOverflowTimerList
    queue: seq<Command>,           // xTimerQueue
    capacity: nat,                 // its length
    periods: map<Id, Period>,      // xTimerPeriodInTicks
    autoReload: set<Id>,           // uxAutoReload
    lastTime: nat,                 // xLastTime
    fired: seq<Id>)                // the callbacks that were run, in order

  function PeriodOf(periods: map<Id, Period>, t: Id): Period {
    if t in periods then periods[t] else 1
  }

  function ItemValues(items: seq<Item>): (v: seq<nat>)
    ensures |v| == |items|
  {
    seq(|items|, i requires 0 <= i < |items| => items[i].value)
  }

  /** vListInsert. */
  function InsertSorted(items: seq<Item>, x: Item): seq<Item> {
    InsertAt(items, InsertPosition(ItemValues(items), x.value), x)
  }

  /** vListRemove of the timer's item, if it is in this list. */
  function WithoutTimer(items: seq<Item>, t: Id): (r: seq<Item>)
    ensures |r| <= |items|
  {
    if items == [] then [] else if items[0].timer == t then items[1..] else [items[0]] + WithoutTimer(items[1..], t)
  }

  /** xTimerGenericCommand without waiting: a full queue loses the command. */
  function Sent(s: Service, c: Command): Service {
    if |s.queue| < s.capacity then s.(queue := s.queue + [c]) else s
  }

  // ----- insertion ------------------------------------------------------------------------------

  datatype Place = ProcessNow | IntoCurrent | IntoOverflow

  /** The decision of prvInsertTimerInActiveList, on wrapped times. */
  function Decide(expiry: nat, now: nat, command: nat, period: nat): Place {
    if expiry <= now then
      if Tick(now - command) >= period then ProcessNow else IntoOverflow
    else
      if now < command && expiry >= command then ProcessNow else IntoCurrent
  }

  lemma ShortElapsed(c: int, n: int)
    requires c <= n < c + MODULUS
    ensures Tick(Tick(n) - Tick(c)) == n - c
  {}

  /** The decision is exact: for a command at absolute time c, looked at by absolute time n less than
      a full turn later, the timer is processed at once iff it has expired; otherwise it goes to the
      current list iff it expires in the epoch of n, and if not, it expires in the next one. */
  lemma DecidesExactly(c: int, n: int, period: Period)
    requires c <= n < c + MODULUS
    ensures Decide(Tick(c + period), Tick(n), Tick(c), period) ==
            if c + period <= n then ProcessNow
            else if Epoch(c + period) == Epoch(n) then IntoCurrent
            else IntoOverflow
    ensures c + period > n ==> Epoch(c + period) == Epoch(n) || Epoch(c + period) == Epoch(n) + 1
  {
    ShortElapsed(c, n);
    Parts(c);
    Parts(n);
    Parts(c + period);
    hide Tick, Epoch;
  }

  /** A change of period starts the timer at the time it is looked at: the result of the insertion,
      which prvProcessReceivedCommands ignores, is never that the timer has expired. */
  lemma ChangedPeriodIsAhead(n: int, period: Period)
    ensures !Decide(Tick(Tick(n) + period), Tick(n), Tick(n), period).ProcessNow?
  {
    DecidesExactly(n, n, period);
    WrapSum(n, period);
  }

  /** prvInsertTimerInActiveList, but for what it returns. */
  function Inserted(s: Service, t: Id, expiry: nat, now: nat, command: nat): Service {
    match Decide(expiry, now, command, PeriodOf(s.periods, t))
    case ProcessNow => s
    case IntoCurrent => s.(current := InsertSorted(s.current, Item(t, expiry)))
    case IntoOverflow => s.(overflow := InsertSorted(s.overflow, Item(t, expiry)))
  }

  // ----- rollover ---------------------------------------------------------------------------------

  function Weight(items: seq<Item>): (w: nat)
  {
    if items == [] then 0
    else (if items[0].value < MODULUS then MODULUS - items[0].value else 0) + Weight(items[1..])
  }

  lemma {:induction false} WeightInsert(items: seq<Item>, i: nat, x: Item)
    requires i <= |items| && x.value < MODULUS
    ensures Weight(InsertAt(items, i, x)) == Weight(items) + MODULUS - x.value
  {
    if i == 0 {
      assert InsertAt(items, i, x) == [x] + items;
    } else {
      WeightInsert(items[1..], i - 1, x);
      assert InsertAt(items, i, x)[1..] == InsertAt(items[1..], i - 1, x);
    }
  }

  /** One round of the loop of prvSwitchTimerLists. */
  function FireHead(s: Service): Service
    requires s.current != []
  {
    var head := s.current[0];
    var s1 := s.(current := s.current[1..], fired := s.fired + [head.timer]);
    var reload := Tick(head.value + PeriodOf(s.periods, head.timer));
    if head.timer !in s.autoReload then s1
    else if reload > head.value then s1.(current := InsertSorted(s1.current, Item(head.timer, reload)))
    else Sent(s1, Start(head.timer, head.value))
  }

  /** Each round of the loop takes weight off the current list: the loop ends. */
  lemma FireHeadProgresses(s: Service)
    requires s.current != []
    ensures |FireHead(s).current| < |s.current| || Weight(FireHead(s).current) < Weight(s.current)
    ensures Weight(FireHead(s).current) <= Weight(s.current)
  {
    var head := s.current[0];
    var reload := Tick(head.value + PeriodOf(s.periods, head.timer));
    WeightInsert(s.current[1..], InsertPosition(ItemValues(s.current[1..]), reload), Item(head.timer, reload));
  }

  /** prvSwitchTimerLists. */
  function Switched(s: Service): Service
    decreases Weight(s.current), |s.current|
  {
    if s.current == [] then s.(current := s.overflow, overflow := s.current)
    else
      FireHeadProgresses(s);
      Switched(FireHead(s))
  }

  /** prvSampleTimeNow. */
  function Sampled(s: Service, now: nat): Service {
    (if now < s.lastTime then Switched(s) else s).(lastTime := now)
  }

  // ----- expiry -------------------------------------------------------------------------------------

  /** prvProcessExpiredTimer. */
  function ProcessedExpired(s: Service, expiry: nat, now: nat): Service
    requires s.current != []
  {
    var t := s.current[0].timer;
    var p := PeriodOf(s.periods, t);
    var s1 := s.(current := s.current[1..]);
    var s2 :=
      if t !in s.autoReload then s1
      else if Decide(Tick(expiry + p), now, expiry, p).ProcessNow? then Sent(s1, Start(t, expiry))
      else Inserted(s1, t, Tick(expiry + p), now, expiry);
    s2.(fired := s2.fired + [t])
  }

  /** How long prvProcessTimerOrBlockTask waits for a command when it finds no expired timer: until
      the time that prvGetNextExpireTime gave. */
  function BlockTime(s: Service, now: nat): nat {
    Tick((if s.current == [] then 0 else s.current[0].value) - now)
  }

  /** prvGetNextExpireTime and prvProcessTimerOrBlockTask, with the tick count sampled as now. */
  function ServicedTimers(s: Service, now: nat): Service {
    var s1 := Sampled(s, now);
    if now >= s.lastTime && s.current != [] && s.current[0].value <= now then
      ProcessedExpired(s1, s.current[0].value, now)
    else s1
  }

  // ----- commands -----------------------------------------------------------------------------------

  function Unlisted(s: Service, t: Id): Service {
    s.(current := WithoutTimer(s.current, t), overflow := WithoutTimer(s.overflow, t))
  }

  /** One round of the loop of prvProcessReceivedCommands. */
  function ProcessedCommand(s: Service, now: nat): Service
    requires s.queue != []
  {
    var c := s.queue[0];
    var s1 := Unlisted(s.(queue := s.queue[1..]), c.timer);
    match c
    case Start(t, value) =>
      var p := PeriodOf(s.periods, t);
      var expiry := Tick(value + p);
      if Decide(expiry, now, value, p).ProcessNow? then
        var s2 := s1.(fired := s1.fired + [t]);
        if t in s.autoReload then Sent(s2, Start(t, expiry)) else s2
      else Inserted(s1, t, expiry, now, value)
    case Stop(_) => s1
    case ChangePeriod(t, p) =>
      var s2 := s1.(periods := s1.periods[t := p]);
      Inserted(s2, t, Tick(now + p), now, now)
    case Delete(t) => s1.(periods := s1.periods - {t}, autoReload := s1.autoReload - {t})
  }

  function Backlog(queue: seq<Command>, now: nat): nat {
    if queue == [] then 0
    else (if queue[0].Start? then Tick(now - queue[0].value) + 1 else 1) + Backlog(queue[1..], now)
  }

  lemma {:induction false} BacklogAppend(queue: seq<Command>, c: Command, now: nat)
    ensures Backlog(queue + [c], now) == Backlog(queue, now) + if c.Start? then Tick(now - c.value) + 1 else 1
  {
    if queue == [] {
      assert queue + [c] == [c];
    } else {
      BacklogAppend(queue[1..], c, now);
      assert (queue + [c])[1..] == queue[1..] + [c];
    }
  }

  /** A start that is processed at once is at least a period old, so its successor is that much
      younger: draining the queue ends although it adds to it. */
  lemma LateStart(value: nat, now: nat, p: Period)
    requires value < MODULUS && now < MODULUS
    requires Decide(Tick(value + p), now, value, p).ProcessNow?
    ensures Tick(now - Tick(value + p)) == Tick(now - value) - p
  {}

  ghost predicate ValuesWrapped(s: Service) {
    forall c | c in s.queue && c.Start? :: c.value < MODULUS
  }

  lemma CommandProgresses(s: Service, now: nat)
    requires s.queue != [] && ValuesWrapped(s) && now < MODULUS
    ensures ValuesWrapped(ProcessedCommand(s, now))
    ensures Backlog(ProcessedCommand(s, now).queue, now) < Backlog(s.queue, now)
  {
    hide InsertSorted, WithoutTimer, PeriodOf;
    var c := s.queue[0];
    var s1 := ProcessedCommand(s, now);
    if c.Start? {
      var p := PeriodOf(s.periods, c.timer);
      if Decide(Tick(c.value + p), now, c.value, p).ProcessNow? {
        LateStart(c.value, now, p);
        BacklogAppend(s.queue[1..], Start(c.timer, Tick(c.value + p)), now);
        forall d | d in s1.queue && d.Start?
          ensures d.value < MODULUS
        {
          assert d in s.queue[1..] || d == Start(c.timer, Tick(c.value + p));
        }
      }
    }
  }

  /** The loop of prvProcessReceivedCommands. */
  function Drained(s: Service, now: nat): Service
    requires ValuesWrapped(s) && now < MODULUS
    decreases Backlog(s.queue, now)
  {
    if s.queue == [] then s
    else
      CommandProgresses(s, now);
      Drained(ProcessedCommand(s, now), now)
  }
}
