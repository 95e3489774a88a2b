// The timer service task as FreeRTOS/timers.c runs it, on mutable lists and a command queue.

module TimerServiceImpl {
  import opened Sequences
  import opened Ticks
  import opened Lists
  import opened Timers

  class TimerService {
    var current: seq<Item>
    var overflow: seq<Item>
    var queue: seq<Command>
    const capacity: nat
    var periods: map<Id, Period>
    var autoReload: set<Id>
    var lastTime: nat
    var fired: seq<Id>

    ghost function State(): Service
      reads this
    {
      Service(current, overflow, queue, capacity, periods, autoReload, lastTime, fired)
    }

    constructor (queueLength: nat)
      ensures State() == Service([], [], [], queueLength, map[], {}, 0, [])
    {
      current, overflow, queue, capacity := [], [], [], queueLength;
      periods, autoReload, lastTime, fired := map[], {}, 0, [];
    }

    /** xTimerCreate; a timer with period 0 is not created. */
    method Create(t: Id, period: nat, reloads: bool) returns (created: bool)
      requires t !in periods && period < MODULUS
      modifies this`periods, this`autoReload
      ensures created == (period > 0)
      ensures State() == if created then old(State()).(periods := old(periods)[t := period],
                                                        autoReload := if reloads then old(autoReload) + {t}
                                                                      else old(autoReload) - {t})
                         else old(State())
    {
      created := period > 0;
      if created {
        periods := periods[t := period];
        autoReload := if reloads then autoReload + {t} else autoReload - {t};
      }
    }

    /** xTimerGenericCommand without a block time; tells whether the command was queued. */
    method SendCommand(c: Command) returns (sent: bool)
      modifies this`queue
      ensures State() == Sent(old(State()), c) && sent == (|old(queue)| < capacity)
    {
      sent := |queue| < capacity;
      if sent {
        queue := queue + [c];
      }
    }

    /** prvInsertTimerInActiveList. */
    method InsertTimerInActiveList(t: Id, expiry: nat, now: nat, command: nat) returns (processNow: bool)
      modifies this`current, this`overflow
      ensures State() == Inserted(old(State()), t, expiry, now, command)
      ensures processNow == Decide(expiry, now, command, PeriodOf(periods, t)).ProcessNow?
    {
      processNow := false;
      if expiry <= now {
        if Tick(now - command) >= PeriodOf(periods, t) {
          processNow := true;
        } else {
          overflow := InsertSorted(overflow, Item(t, expiry));
        }
      } else {
        if now < command && expiry >= command {
          processNow := true;
        } else {
          current := InsertSorted(current, Item(t, expiry));
        }
      }
    }

    /** prvSwitchTimerLists. */
    method SwitchTimerLists()
      modifies this`current, this`overflow, this`queue, this`fired
      ensures State() == Switched(old(State()))
    {
      while current != []
        invariant Switched(State()) == Switched(old(State()))
        decreases Weight(current), |current|
      {
        FireHeadProgresses(State());
        FireHeadTimer();
      }
      var previous := current;
      current := overflow;
      overflow := previous;
    }

    /** The body of that loop. */
    method FireHeadTimer()
      requires current != []
      modifies this`current, this`queue, this`fired
      ensures State() == FireHead(old(State()))
    {
      var t := current[0].timer;
      var nextExpireTime := current[0].value;
      current := current[1..];
      fired := fired + [t];
      if t in autoReload {
        var reloadTime := Tick(nextExpireTime + PeriodOf(periods, t));
        if reloadTime > nextExpireTime {
          current := InsertSorted(current, Item(t, reloadTime));
        } else {
          var _ := SendCommand(Start(t, nextExpireTime));
        }
      }
    }

    /** prvSampleTimeNow. */
    method SampleTimeNow(now: nat) returns (switched: bool)
      modifies this`current, this`overflow, this`queue, this`fired, this`lastTime
      ensures State() == Sampled(old(State()), now) && switched == (now < old(lastTime))
    {
      switched := false;
      if now < lastTime {
        SwitchTimerLists();
        switched := true;
      }
      lastTime := now;
    }

    /** prvProcessExpiredTimer. */
    method ProcessExpiredTimer(nextExpireTime: nat, now: nat)
      requires current != []
      modifies this`current, this`overflow, this`queue, this`fired
      ensures State() == ProcessedExpired(old(State()), nextExpireTime, now)
    {
      var t := current[0].timer;
      current := current[1..];
      if t in autoReload {
        var processNow := InsertTimerInActiveList(t, Tick(nextExpireTime + PeriodOf(periods, t)), now, nextExpireTime);
        if processNow {
          var _ := SendCommand(Start(t, nextExpireTime));
        }
      }
      fired := fired + [t];
    }

    /** prvGetNextExpireTime and prvProcessTimerOrBlockTask; tells whether the task goes to wait for a
        command, and for how long. */
    method ProcessTimerOrBlockTask(now: nat) returns (blocks: bool, blockTime: nat)
      modifies this`current, this`overflow, this`queue, this`fired, this`lastTime
      ensures State() == ServicedTimers(old(State()), now)
      ensures blocks <==> now >= old(lastTime) && (old(current) == [] || now < old(current)[0].value)
      ensures blocks ==> blockTime == BlockTime(old(State()), now)
    {
      var listWasEmpty := current == [];
      var nextExpireTime := if listWasEmpty then 0 else current[0].value;
      var switched := SampleTimeNow(now);
      blocks, blockTime := false, 0;
      if !switched {
        if !listWasEmpty && nextExpireTime <= now {
          ProcessExpiredTimer(nextExpireTime, now);
        } else {
          blocks, blockTime := true, Tick(nextExpireTime - now);
        }
      }
    }

    /** prvProcessReceivedCommands. */
    method ProcessReceivedCommands(now: nat)
      requires now < MODULUS && ValuesWrapped(Sampled(State(), now))
      modifies this
      ensures State() == Drained(Sampled(old(State()), now), now)
    {
      var _ := SampleTimeNow(now);
      while queue != []
        invariant ValuesWrapped(State()) && Drained(State(), now) == Drained(Sampled(old(State()), now), now)
        decreases Backlog(queue, now)
      {
        CommandProgresses(State(), now);
        ProcessCommand(now);
      }
    }

    /** The body of that loop: one received command. */
    method ProcessCommand(now: nat)
      requires queue != []
      modifies this
      ensures State() == ProcessedCommand(old(State()), now)
    {
      hide InsertSorted, WithoutTimer, Decide;
      var c := queue[0];
      queue := queue[1..];
      current := WithoutTimer(current, c.timer);
      overflow := WithoutTimer(overflow, c.timer);
      match c
      case Start(t, value) =>
        var expiry := Tick(value + PeriodOf(periods, t));
        var processNow := InsertTimerInActiveList(t, expiry, now, value);
        if processNow {
          fired := fired + [t];
          if t in autoReload {
            var _ := SendCommand(Start(t, expiry));
          }
        }
      case Stop(_) =>
      case ChangePeriod(t, p) =>
        periods := periods[t := p];
        var _ := InsertTimerInActiveList(t, Tick(now + p), now, now);
      case Delete(t) =>
        periods := periods - {t};
        autoReload := autoReload - {t};
    }
  }
}
