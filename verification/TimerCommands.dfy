// What a single command does to a software timer (FreeRTOS/timers.c), whoever sent it: afterwards the
// timer is in no list, or in one list once with the exact time of its next expiry.

module TimerCommands {
  import opened Sequences
  import opened Ticks
  import opened Lists
  import opened Timers
  import opened TimerRuns

  /** How often the timer is in the two lists. */
  function Listed(s: Service, t: Id): nat {
    ItemsOf(s.current, t) + ItemsOf(s.overflow, t)
  }

  /** The timer is listed once, to expire at absolute time e, in the list of that epoch. */
  ghost predicate ExpiresAt(s: Service, t: Id, n: int, e: int) {
    && Listed(s, t) == 1
    && Item(t, Tick(e)) in if Epoch(e) == Epoch(n) then s.current else s.overflow
  }

  /** The lists have the same entries of all other timers. */
  ghost predicate SameEntriesBut(s: Service, s1: Service, t: Id) {
    forall x: Item | x.timer != t :: (x in s1.current <==> x in s.current) && (x in s1.overflow <==> x in s.overflow)
  }

  lemma {:induction false} WithoutOne(items: seq<Item>, t: Id)
    requires ItemsOf(items, t) <= 1
    ensures ItemsOf(WithoutTimer(items, t), t) == 0
    ensures forall u | u != t :: ItemsOf(WithoutTimer(items, t), u) == ItemsOf(items, u)
    ensures forall x: Item | x.timer != t :: x in WithoutTimer(items, t) <==> x in items
  {
    if items != [] {
      assert items == [items[0]] + items[1..];
      if items[0].timer != t {
        WithoutOne(items[1..], t);
        var rest := WithoutTimer(items[1..], t);
        assert WithoutTimer(items, t) == [items[0]] + rest;
        assert ([items[0]] + rest)[1..] == rest;
      }
    }
  }

  lemma UnlistedAlone(s: Service, t: Id)
    requires Listed(s, t) <= 1
    ensures Listed(Unlisted(s, t), t) == 0 && SameEntriesBut(s, Unlisted(s, t), t)
    ensures forall u | u != t :: Listed(Unlisted(s, t), u) == Listed(s, u)
  {
    WithoutOne(s.current, t);
    WithoutOne(s.overflow, t);
  }

  /** Insertion of a timer that is in no list and has yet to expire. */
  lemma InsertedExactly(s: Service, t: Id, c: int, n: int)
    requires Listed(s, t) == 0 && c <= n < c + MODULUS && n < c + PeriodOf(s.periods, t)
    ensures var e := c + PeriodOf(s.periods, t);
            var s1 := Inserted(s, t, Tick(e), Tick(n), Tick(c));
            && ExpiresAt(s1, t, n, e) && SameEntriesBut(s, s1, t)
            && (forall u | u != t :: Listed(s1, u) == Listed(s, u))
            && s1 == s.(current := s1.current, overflow := s1.overflow)
  {
    var p := PeriodOf(s.periods, t);
    var x := Item(t, Tick(c + p));
    DecidesExactly(c, n, p);
    hide Decide, Tick, Epoch, InsertPosition;
    var i := InsertPosition(ItemValues(s.current), x.value);
    var j := InsertPosition(ItemValues(s.overflow), x.value);
    forall u
      ensures ItemsOf(InsertAt(s.current, i, x), u) == ItemsOf(s.current, u) + if u == t then 1 else 0
      ensures ItemsOf(InsertAt(s.overflow, j, x), u) == ItemsOf(s.overflow, u) + if u == t then 1 else 0
    {
      ItemsInsert(s.current, i, x, u);
      ItemsInsert(s.overflow, j, x, u);
    }
    ItemsInsert(s.current, i, x, t);
    ItemsInsert(s.overflow, j, x, t);
  }

  /** Stop: the timer is in neither list, nothing else changes. */
  lemma StopLeavesNothing(s: Service, now: nat, t: Id)
    requires s.queue != [] && s.queue[0] == Stop(t) && Listed(s, t) <= 1
    ensures var s1 := ProcessedCommand(s, now);
            && Listed(s1, t) == 0 && SameEntriesBut(s, s1, t)
            && s1 == s.(current := s1.current, overflow := s1.overflow, queue := s.queue[1..])
  {
    UnlistedAlone(s.(queue := s.queue[1..]), t);
  }

  /** Delete: likewise, and the timer is no more. */
  lemma DeleteLeavesNothing(s: Service, now: nat, t: Id)
    requires s.queue != [] && s.queue[0] == Delete(t) && Listed(s, t) <= 1
    ensures var s1 := ProcessedCommand(s, now);
            && Listed(s1, t) == 0 && SameEntriesBut(s, s1, t) && t !in s1.periods && t !in s1.autoReload
            && (forall u | u != t :: u in s1.autoReload <==> u in s.autoReload)
            && (forall u | u != t :: u in s1.periods <==> u in s.periods)
            && (forall u | u in s1.periods :: s1.periods[u] == s.periods[u])
            && s1.queue == s.queue[1..] && s1.fired == s.fired
  {
    UnlistedAlone(s.(queue := s.queue[1..]), t);
  }

  /** A change of period at absolute time n: the timer expires next one new period later, and only then. */
  lemma ChangedPeriodExactly(s: Service, n: int, t: Id, p: Period)
    requires s.queue != [] && s.queue[0] == ChangePeriod(t, p) && Listed(s, t) <= 1
    ensures var s1 := ProcessedCommand(s, Tick(n));
            && PeriodOf(s1.periods, t) == p && ExpiresAt(s1, t, n, n + p) && SameEntriesBut(s, s1, t)
            && (forall u | u != t :: PeriodOf(s1.periods, u) == PeriodOf(s.periods, u))
            && s1.queue == s.queue[1..] && s1.fired == s.fired && s1.autoReload == s.autoReload
  {
    hide Tick, Epoch, Unlisted, Listed, SameEntriesBut, ExpiresAt, Inserted;
    var s0 := s.(queue := s.queue[1..]);
    SameLists(s, s0, t);
    UnlistedAlone(s0, t);
    UnlistedFields(s0, t);
    var s2 := Unlisted(s0, t).(periods := s.periods[t := p]);
    WrapSum(n, p);
    SameLists(Unlisted(s0, t), s2, t);
    InsertedExactly(s2, t, n, n);
    SameEntriesThen(s, s0, Unlisted(s0, t), t);
    SameEntriesThen(s, Unlisted(s0, t), s2, t);
    SameEntriesThen(s, s2, ProcessedCommand(s, Tick(n)), t);
  }

  /** A start issued at absolute time c and looked at by time n: a timer that has yet to expire is in its
      list once, however it was listed before; one that has expired is fired, and either asks to be
      started from that expiry on or, as a one-shot timer, has no token left. */
  lemma StartedExactly(s: Service, c: int, n: int, t: Id)
    requires s.queue != [] && s.queue[0] == Start(t, Tick(c)) && Listed(s, t) <= 1 && c <= n < c + MODULUS
    ensures var s1 := ProcessedCommand(s, Tick(n));
            var e := c + PeriodOf(s.periods, t);
            && SameEntriesBut(s, s1, t) && s1.periods == s.periods && s1.autoReload == s.autoReload
            && if n < e then ExpiresAt(s1, t, n, e) && s1.queue == s.queue[1..] && s1.fired == s.fired
               else
                 && Listed(s1, t) == 0 && s1.fired == s.fired + [t]
                 && s1.queue == if t in s.autoReload && |s.queue| <= s.capacity then s.queue[1..] + [Start(t, Tick(e))]
                                else s.queue[1..]
  {
    hide Tick, Epoch, Unlisted, Listed, SameEntriesBut, ExpiresAt, ProcessedCommand, Inserted;
    var s0 := s.(queue := s.queue[1..]);
    SameLists(s, s0, t);
    UnlistedAlone(s0, t);
    UnlistedFields(s0, t);
    var s2 := Unlisted(s0, t);
    var s1 := ProcessedCommand(s, Tick(n));
    StartDecides(s, c, n, t);
    if n < c + PeriodOf(s.periods, t) {
      InsertedExactly(s2, t, c, n);
    } else {
      SameLists(s2, s1, t);
    }
    SameEntriesThen(s, s0, s2, t);
    SameEntriesThen(s, s2, s1, t);
  }

  lemma StartDecides(s: Service, c: int, n: int, t: Id)
    requires s.queue != [] && s.queue[0] == Start(t, Tick(c)) && c <= n < c + MODULUS
    ensures var s2 := Unlisted(s.(queue := s.queue[1..]), t);
            var e := c + PeriodOf(s.periods, t);
            ProcessedCommand(s, Tick(n)) ==
            if n < e then Inserted(s2, t, Tick(e), Tick(n), Tick(c))
            else if t in s.autoReload then Sent(s2.(fired := s2.fired + [t]), Start(t, Tick(e)))
            else s2.(fired := s2.fired + [t])
  {
    WrapSum(c, PeriodOf(s.periods, t));
    DecidesExactly(c, n, PeriodOf(s.periods, t));
    hide Tick, Epoch, Decide, Inserted, WithoutTimer;
  }

  /** Whatever is commanded, in whatever order, no timer is ever listed twice. */
  lemma NeverListedTwice(s: Service, now: nat)
    requires s.queue != [] && forall u :: Listed(s, u) <= 1
    ensures forall u :: Listed(ProcessedCommand(s, now), u) <= 1
  {
    hide Unlisted, Listed, Inserted, Decide;
    var t := s.queue[0].timer;
    var s0 := s.(queue := s.queue[1..]);
    SameLists(s, s0, t);
    UnlistedAlone(s0, t);
    forall u
      ensures Listed(ProcessedCommand(s, now), u) <= 1
    {
      SameLists(s, s0, u);
      CommandLists(s, now, u);
    }
  }

  lemma CommandLists(s: Service, now: nat, u: Id)
    requires s.queue != []
    ensures var s2 := Unlisted(s.(queue := s.queue[1..]), s.queue[0].timer);
            Listed(ProcessedCommand(s, now), u) <= Listed(s2, u) + if u == s.queue[0].timer then 1 else 0
  {
    hide Unlisted, Decide;
    var t := s.queue[0].timer;
    var s2 := Unlisted(s.(queue := s.queue[1..]), t);
    match s.queue[0]
    case Start(_, value) => InsertedLists(s2, t, Tick(value + PeriodOf(s.periods, t)), now, value, u);
    case ChangePeriod(_, p) =>
      InsertedLists(s2.(periods := s2.periods[t := p]), t, Tick(now + p), now, now, u);
    case _ =>
  }

  lemma InsertedLists(s: Service, t: Id, expiry: nat, now: nat, command: nat, u: Id)
    ensures Listed(Inserted(s, t, expiry, now, command), u) <= Listed(s, u) + if u == t then 1 else 0
  {
    hide InsertPosition, Decide;
    var x := Item(t, expiry);
    ItemsInsert(s.current, InsertPosition(ItemValues(s.current), expiry), x, u);
    ItemsInsert(s.overflow, InsertPosition(ItemValues(s.overflow), expiry), x, u);
  }

  lemma UnlistedFields(s: Service, t: Id)
    ensures var r := Unlisted(s, t); r == s.(current := r.current, overflow := r.overflow)
  {}

  lemma SameLists(s: Service, s1: Service, t: Id)
    requires s1.current == s.current && s1.overflow == s.overflow
    ensures Listed(s1, t) == Listed(s, t) && SameEntriesBut(s, s1, t)
  {}

  lemma SameEntriesThen(s: Service, s1: Service, s2: Service, t: Id)
    ensures SameEntriesBut(s, s1, t) && SameEntriesBut(s1, s2, t) ==> SameEntriesBut(s, s2, t)
  {}
}
