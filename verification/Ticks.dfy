// The kernel's wrapping tick counter (portTickType is an unsigned 32-bit type here) read against
// an unbounded absolute time.

module Ticks {
  const MODULUS: nat := 0x1_0000_0000
  const MAX_DELAY: nat := MODULUS - 1    // portMAX_DELAY

  /** What a portTickType variable holds at absolute time a. */
  function Tick(a: int): (r: nat)
    ensures r < MODULUS
  {
    a % MODULUS
  }

  /** How many times the counter has rolled over by absolute time a. */
  function Epoch(a: int): int {
    a / MODULUS
  }

  /** Within one epoch the counter orders times as absolute time does. */
  lemma SameEpochOrder(a: int, b: int)
    requires Epoch(a) == Epoch(b)
    ensures a <= b <==> Tick(a) <= Tick(b)
  {}

  /** A tick either stays in its epoch or opens the next one at counter value 0. */
  lemma NextTick(a: int)
    ensures Tick(Tick(a) + 1) == Tick(a + 1)
    ensures Epoch(a + 1) == if Tick(a + 1) == 0 then Epoch(a) + 1 else Epoch(a)
  {}

  /** No later time of an epoch remains at its last tick. */
  lemma LastTick(a: int, b: int)
    requires Tick(a + 1) == 0 && Epoch(a) == Epoch(b)
    ensures b <= a
  {}

  lemma WrapSum(a: int, b: int)
    ensures Tick(Tick(a) + b) == Tick(a + b)
  {}

  /** After the last tick of an epoch the next one begins. */
  lemma EpochBegins(a: int, b: int)
    requires Tick(a + 1) == 0 && Epoch(b) == Epoch(a) + 1
    ensures a + 1 <= b
  {}

  lemma Parts(a: int)
    ensures a == MODULUS * Epoch(a) + Tick(a)
  {}

  /** A wrapped deadline below the counter belongs to the next epoch, any other to this one. */
  lemma DeadlineEpoch(now: int, deadline: int)
    requires now < deadline < now + MODULUS
    ensures Epoch(deadline) == if Tick(deadline) < Tick(now) then Epoch(now) + 1 else Epoch(now)
  {}
}
