// Waiting with a time limit (FreeRTOS/tasks.c): a caller notes when it started to wait and asks,
// each time it is woken, whether the limit has passed. Entry times are kept as a wrapped tick and a
// wrapped count of rollovers.

module Timeouts {
  import opened Ticks

  /** xTimeOutType. */
  datatype Entry = Entry(overflowCount: nat, timeOnEntering: nat)

  datatype Answer = Answer(timedOut: bool, entry: Entry, ticksToWait: nat)

  /** What vTaskSetTimeOutState records at absolute time now. */
  function EntryAt(now: nat): Entry {
    Entry(Tick(Epoch(now)), Tick(now))
  }

  /** What xTaskCheckForTimeOut answers and stores at absolute time now. */
  function Check(e: Entry, now: nat, ticksToWait: nat): Answer {
    var elapsed := Tick(Tick(now) - e.timeOnEntering);
    if ticksToWait == MAX_DELAY then Answer(false, e, ticksToWait)
    else if Tick(Epoch(now)) != e.overflowCount && Tick(now) >= e.timeOnEntering then Answer(true, e, ticksToWait)
    else if elapsed < ticksToWait then Answer(false, EntryAt(now), ticksToWait - elapsed)
    else Answer(true, e, ticksToWait)
  }

  class TimeOut {
    var overflowCount: nat     // xOverflowCount
    var timeOnEntering: nat    // xTimeOnEntering

    ghost function Stored(): Entry
      reads this
    {
      Entry(overflowCount, timeOnEntering)
    }

    /** vTaskSetTimeOutState, given the kernel's tick and rollover counters. */
    method SetTimeOutState(tick: nat, overflows: nat, ghost now: nat)
      requires tick == Tick(now) && overflows == Tick(Epoch(now))
      modifies this
      ensures Stored() == EntryAt(now)
    {
      overflowCount := overflows;
      timeOnEntering := tick;
    }

    /** xTaskCheckForTimeOut. */
    method CheckForTimeOut(tick: nat, overflows: nat, ticksToWait: nat, ghost now: nat)
      returns (timedOut: bool, remaining: nat)
      requires tick == Tick(now) && overflows == Tick(Epoch(now))
      modifies this
      ensures Answer(timedOut, Stored(), remaining) == Check(old(Stored()), now, ticksToWait)
    {
      remaining := ticksToWait;
      if ticksToWait == MAX_DELAY {
        timedOut := false;
      } else if overflows != overflowCount && tick >= timeOnEntering {
        timedOut := true;
      } else if Tick(tick - timeOnEntering) < ticksToWait {
        remaining := ticksToWait - Tick(tick - timeOnEntering);
        SetTimeOutState(tick, overflows, now);
        timedOut := false;
      } else {
        timedOut := true;
      }
    }
  }

  /** The one way in which the wrapped comparison misses a timeout: the counter went all the way
      round, the rollover count does not show it, and the wrapped elapsed time is short again. */
  predicate Missed(start: nat, now: nat, ticksToWait: nat) {
    && now - start >= MODULUS
    && (Tick(now) < Tick(start) || Tick(Epoch(now)) == Tick(Epoch(start)))
    && Tick(now - start) < ticksToWait
  }

  /** A finite limit is reported as passed exactly when it has passed, unless the timeout is missed. */
  lemma ReportsExactly(start: nat, now: nat, ticksToWait: nat)
    requires start <= now && ticksToWait < MAX_DELAY
    ensures var timedOut := Check(EntryAt(start), now, ticksToWait).timedOut;
            (timedOut == (now - start >= ticksToWait)) <==> !Missed(start, now, ticksToWait)
  {
    ElapsedWraps(start, now);
    if Tick(now) >= Tick(start) && Epoch(now) != Epoch(start) {
      assert now - start >= MODULUS;
    }
  }

  lemma ElapsedWraps(start: nat, now: nat)
    ensures Tick(Tick(now) - Tick(start)) == Tick(now - start)
    ensures start <= now < start + MODULUS ==> Tick(now - start) == now - start
  {}

  /** Missing needs at least two rollovers between two checks. */
  lemma OneRolloverIsExact(start: nat, now: nat, ticksToWait: nat)
    requires start <= now && Epoch(now) <= Epoch(start) + 1
    ensures !Missed(start, now, ticksToWait)
  {}

  /** It does happen: started 5 ticks before a rollover with a limit of 10 ticks, checked 2 ticks after
      the rollover that follows the next one. */
  lemma MissedExample()
    ensures var start := MODULUS - 5;
            var now := 2 * MODULUS + 2;
            Missed(start, now, 10) && now - start > MODULUS && !Check(EntryAt(start), now, 10).timedOut
  {
    assert Tick(2 * MODULUS + 2) == 2;
  }

  /** A task that waits for ever never times out. */
  lemma ForeverNeverTimesOut(e: Entry, now: nat)
    ensures !Check(e, now, MAX_DELAY).timedOut && Check(e, now, MAX_DELAY).ticksToWait == MAX_DELAY
  {}

  // ----- repeated checks -------------------------------------------------------------------------

  /** The loop of a blocking call: check at each of the given times until a timeout is reported.
      Gives the index of that check, or the number of checks if there is none. */
  function FirstTimeOut(e: Entry, ticksToWait: nat, times: seq<nat>): (i: nat)
    ensures i <= |times|
    decreases |times|
  {
    if times == [] then 0
    else
      var a := Check(e, times[0], ticksToWait);
      if a.timedOut then 0 else 1 + FirstTimeOut(a.entry, a.ticksToWait, times[1..])
  }

  /** Times of checks that run forward with at most one rollover from one to the next. */
  predicate CloseEnough(start: nat, times: seq<nat>)
    decreases |times|
  {
    times == [] || (start <= times[0] && Epoch(times[0]) <= Epoch(start) + 1 && CloseEnough(times[0], times[1..]))
  }

  /** Retrying neither extends nor cuts short the wait that was asked for: the timeout is reported by
      the first check at or after the original deadline. */
  lemma {:induction false} RetriesKeepTheDeadline(start: nat, ticksToWait: nat, times: seq<nat>)
    requires ticksToWait < MAX_DELAY && CloseEnough(start, times)
    ensures var i := FirstTimeOut(EntryAt(start), ticksToWait, times);
            && (forall j | 0 <= j < i :: times[j] < start + ticksToWait)
            && (i < |times| ==> times[i] >= start + ticksToWait)
    decreases |times|
  {
    if times != [] {
      OneRolloverIsExact(start, times[0], ticksToWait);
      ReportsExactly(start, times[0], ticksToWait);
      var a := Check(EntryAt(start), times[0], ticksToWait);
      if !a.timedOut {
        Conserved(start, times[0], ticksToWait);
        RetriesKeepTheDeadline(times[0], a.ticksToWait, times[1..]);
      }
    }
  }

  /** Entry time plus remaining wait is the same before and after a check that lets the caller go on. */
  lemma Conserved(start: nat, now: nat, ticksToWait: nat)
    requires start <= now && Epoch(now) <= Epoch(start) + 1 && ticksToWait < MAX_DELAY
    ensures var a := Check(EntryAt(start), now, ticksToWait);
            !a.timedOut ==> a.entry == EntryAt(now) && now + a.ticksToWait == start + ticksToWait && a.ticksToWait > 0
  {
    OneRolloverIsExact(start, now, ticksToWait);
    ReportsExactly(start, now, ticksToWait);
    ElapsedWraps(start, now);
  }
}
