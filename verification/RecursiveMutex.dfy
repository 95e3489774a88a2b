// Recursive mutexes (FreeRTOS/queue.c). The holder test and the call count are accessed outside
// any critical section, so a task may be interrupted between obtaining the mutex and counting, and
// between counting down to zero and giving the mutex back.

module RecursiveMutex {
  type Task = nat

  datatype Holder = Nobody | Held(t: Task)

  /** What a task is in the middle of. */
  datatype Phase = Idle | Obtained | Returning

  datatype Mutex = Mutex(
    messages: nat,             // uxMessagesWaiting; the length is 1
    holder: Holder,            // pxMutexHolder
    callCount: int,            // uxRecursiveCallCount
    phases: map<Task, Phase>,  // tasks that are not idle
    depth: map<Task, int>)     // history: successful takes minus successful gives

  function PhaseOf(m: Mutex, t: Task): Phase {
    if t in m.phases then m.phases[t] else Idle
  }

  function Depth(m: Mutex, t: Task): int {
    if t in m.depth then m.depth[t] else 0
  }

  datatype Action = Take(t: Task) | CountUp(t: Task) | Give(t: Task) | Return(t: Task)

  predicate Enabled(m: Mutex, a: Action) {
    match a
    case Take(t) => PhaseOf(m, t) == Idle
    case CountUp(t) => PhaseOf(m, t) == Obtained
    case Give(t) => PhaseOf(m, t) == Idle
    case Return(t) => PhaseOf(m, t) == Returning
  }

  /** Whether a call of xQueueTakeMutexRecursive succeeds at once, rather than wait or give up. */
  predicate CanTake(m: Mutex, t: Task) {
    m.holder == Held(t) || m.messages > 0
  }

  function Next(m: Mutex, a: Action): Mutex
    requires Enabled(m, a)
  {
    match a
    case Take(t) =>
      if m.holder == Held(t) then m.(callCount := m.callCount + 1, depth := m.depth[t := Depth(m, t) + 1])
      else if m.messages > 0 then
        m.(messages := m.messages - 1, holder := Held(t), phases := m.phases[t := Obtained],
           depth := m.depth[t := Depth(m, t) + 1])
      else m
    case CountUp(t) => m.(callCount := m.callCount + 1, phases := m.phases[t := Idle])
    case Give(t) =>
      if m.holder != Held(t) then m
      else
        m.(callCount := m.callCount - 1,
           phases := if m.callCount - 1 == 0 then m.phases[t := Returning] else m.phases,
           depth := m.depth[t := Depth(m, t) - 1])
    case Return(t) =>
      if m.messages < 1 then m.(messages := m.messages + 1, holder := Nobody, phases := m.phases[t := Idle])
      else m.(phases := m.phases[t := Idle])
  }

  /** The mutex as xQueueCreateMutex leaves it. */
  const FREE := Mutex(1, Nobody, 0, map[], map[])

  /** The mutex is held exactly when the count is 0; the holder's depth is its takes minus its gives,
      which the call count shows but for the step in which the holder is interrupted. */
  ghost predicate Inv(m: Mutex) {
    match m.holder
    case Nobody => m.messages == 1 && m.callCount == 0 && forall t :: Depth(m, t) == 0 && PhaseOf(m, t) == Idle
    case Held(h) =>
      && m.messages == 0
      && (forall t | t != h :: Depth(m, t) == 0 && PhaseOf(m, t) == Idle)
      && match PhaseOf(m, h)
         case Idle => m.callCount == Depth(m, h) > 0
         case Obtained => m.callCount == 0 && Depth(m, h) == 1
         case Returning => m.callCount == 0 && Depth(m, h) == 0
  }

  lemma StepKeepsInv(m: Mutex, a: Action)
    requires Inv(m) && Enabled(m, a)
    ensures Inv(Next(m, a))
  {
    var m1 := Next(m, a);
    assert forall t | t != a.t :: Depth(m1, t) == Depth(m, t) && PhaseOf(m1, t) == PhaseOf(m, t);
  }

  ghost predicate Reaches(m: Mutex, actions: seq<Action>, m1: Mutex)
    decreases |actions|
  {
    if actions == [] then m1 == m
    else Enabled(m, actions[0]) && Reaches(Next(m, actions[0]), actions[1..], m1)
  }

  lemma {:induction false} RunKeepsInv(m: Mutex, actions: seq<Action>, m1: Mutex)
    requires Inv(m) && Reaches(m, actions, m1)
    ensures Inv(m1)
    decreases |actions|
  {
    if actions != [] {
      StepKeepsInv(m, actions[0]);
      RunKeepsInv(Next(m, actions[0]), actions[1..], m1);
    }
  }

  /** Mutual exclusion over every run: a task that has taken the mutex more often than it has given
      it back is the recorded holder; no other task can take it, and no other task's give has any
      effect. Once nobody holds it and nobody is about to return it, it can be taken. */
  lemma Exclusion(actions: seq<Action>, m: Mutex, t: Task, u: Task)
    requires Reaches(FREE, actions, m) && t != u
    ensures Depth(m, t) > 0 ==> m.holder == Held(t) && m.messages == 0 && Depth(m, u) == 0 && !CanTake(m, u)
    ensures Depth(m, t) > 0 && Enabled(m, Give(u)) ==> Next(m, Give(u)) == m
    ensures Depth(m, t) > 0 && Enabled(m, Take(u)) ==> Next(m, Take(u)) == m
    ensures Depth(m, t) == 0 && PhaseOf(m, t) == Idle ==> m.holder != Held(t)
  {
    RunKeepsInv(FREE, actions, m);
  }

  /** n calls of xQueueGiveMutexRecursive by t. */
  function Gives(t: Task, n: nat): (s: seq<Action>)
    ensures |s| == n
  {
    seq(n, i => Give(t))
  }

  /** The holder keeps the mutex through all gives but the last; the last one, with the return that
      it performs, frees it. */
  lemma {:induction false} FreedByMatchingGives(m: Mutex, t: Task, n: nat, m1: Mutex)
    requires Inv(m) && m.holder == Held(t) && PhaseOf(m, t) == Idle && n <= Depth(m, t) && Reaches(m, Gives(t, n), m1)
    ensures Inv(m1) && m1.holder == Held(t) && Depth(m1, t) == Depth(m, t) - n
    ensures PhaseOf(m1, t) == if n < Depth(m, t) then Idle else Returning
    ensures n == Depth(m, t) ==> Next(m1, Return(t)).holder == Nobody && Next(m1, Return(t)).messages == 1
    decreases n
  {
    if n > 0 {
      StepKeepsInv(m, Give(t));
      assert Gives(t, n)[1..] == Gives(t, n - 1);
      if n > 1 {
        FreedByMatchingGives(Next(m, Give(t)), t, n - 1, m1);
      }
    }
  }

  /** Taking: a call that can succeed makes the caller the holder, one take deeper; any other call, which
      would wait or give up, changes nothing. */
  lemma TakesExactly(m: Mutex, t: Task)
    requires Inv(m) && Enabled(m, Take(t))
    ensures var m1 := Next(m, Take(t));
            if CanTake(m, t) then m1.holder == Held(t) && m1.messages == 0 && Depth(m1, t) == Depth(m, t) + 1
            else m1 == m
    ensures CanTake(m, t) <==> m.holder == Nobody || m.holder == Held(t)
  {}

  lemma {:induction false} ReachesThen(m: Mutex, actions: seq<Action>, m1: Mutex, a: Action)
    requires Reaches(m, actions, m1) && Enabled(m1, a)
    ensures Reaches(m, actions + [a], Next(m1, a))
    decreases |actions|
  {
    if actions == [] {
      assert (actions + [a])[1..] == [];
    } else {
      ReachesThen(Next(m, actions[0]), actions[1..], m1, a);
      assert (actions + [a])[1..] == actions[1..] + [a];
    }
  }

  /** n calls of xQueueTakeMutexRecursive by t, who counts up after the first. */
  function Takes(t: Task, n: nat): seq<Action> {
    if n == 0 then [] else if n == 1 then [Take(t), CountUp(t)] else Takes(t, n - 1) + [Take(t)]
  }

  /** Nobody is in a call and the mutex is free. */
  ghost predicate IsFree(m: Mutex) {
    Inv(m) && m.holder == Nobody
  }

  /** From a free mutex, n takes by one task reach the call count n. */
  lemma {:induction false} TakesCount(m: Mutex, t: Task, n: nat) returns (m1: Mutex)
    requires IsFree(m) && n > 0
    ensures Reaches(m, Takes(t, n), m1) && Inv(m1)
    ensures m1.holder == Held(t) && PhaseOf(m1, t) == Idle && m1.callCount == Depth(m1, t) == n
  {
    if n == 1 {
      TakesExactly(m, t);
      StepKeepsInv(m, Take(t));
      var m0 := Next(m, Take(t));
      m1 := Next(m0, CountUp(t));
      StepKeepsInv(m0, CountUp(t));
      assert Reaches(m0, [CountUp(t)], m1) by {
        assert [CountUp(t)][1..] == [];
      }
      assert Takes(t, 1)[1..] == [CountUp(t)];
    } else {
      var m0 := TakesCount(m, t, n - 1);
      TakesExactly(m0, t);
      StepKeepsInv(m0, Take(t));
      m1 := Next(m0, Take(t));
      ReachesThen(m, Takes(t, n - 1), m0, Take(t));
    }
  }

  lemma {:induction false} GivesReach(m: Mutex, t: Task, n: nat) returns (m1: Mutex)
    requires Inv(m) && m.holder == Held(t) && PhaseOf(m, t) == Idle && n <= Depth(m, t)
    ensures Reaches(m, Gives(t, n), m1)
    decreases n
  {
    if n == 0 {
      m1 := m;
    } else {
      StepKeepsInv(m, Give(t));
      var m0 := Next(m, Give(t));
      if n == 1 {
        m1 := m0;
        assert Gives(t, 1)[1..] == [];
      } else {
        m1 := GivesReach(m0, t, n - 1);
        assert Gives(t, n)[1..] == Gives(t, n - 1);
      }
    }
  }

  /** A whole use of the mutex: n takes, n gives and the return that the last one performs free it again,
      and whoever comes next obtains it. */
  lemma FreeAgain(m: Mutex, t: Task, n: nat, u: Task) returns (m1: Mutex, m2: Mutex, m3: Mutex)
    requires IsFree(m) && n > 0
    ensures Reaches(m, Takes(t, n), m1) && m1.callCount == n
    ensures Reaches(m1, Gives(t, n), m2) && Enabled(m2, Return(t)) && m3 == Next(m2, Return(t)) && IsFree(m3)
    ensures Enabled(m3, Take(u)) && Next(m3, Take(u)).holder == Held(u)
  {
    m1 := TakesCount(m, t, n);
    m2 := GivesReach(m1, t, n);
    FreedByMatchingGives(m1, t, n, m2);
    m3 := Next(m2, Return(t));
    StepKeepsInv(m2, Return(t));
    TakesExactly(m3, u);
  }
}
