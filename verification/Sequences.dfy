// Insertion into and removal from sequences: what the list operations of the kernel do to the order
// of the items, and what they keep. Below it, a fact about the size of finite sets.

module Sequences {
  function InsertAt<T>(s: seq<T>, k: nat, x: T): seq<T>
    requires k <= |s|
  {
    s[..k] + [x] + s[k..]
  }

  function RemoveAt<T>(s: seq<T>, k: nat): seq<T>
    requires k < |s|
  {
    s[..k] + s[k + 1..]
  }

  /** The sequence without its first t. */
  function Without(q: seq<nat>, t: nat): (r: seq<nat>)
    ensures forall x | x != t :: x in r <==> x in q
    ensures t !in q ==> r == q
    ensures t in q ==> |r| == |q| - 1
  {
    if q == [] then [] else if q[0] == t then q[1..] else [q[0]] + Without(q[1..], t)
  }

  ghost predicate NoDup(q: seq<nat>) {
    forall i, j | 0 <= i < j < |q| :: q[i] != q[j]
  }

  lemma {:induction false} WithoutNoDup(q: seq<nat>, t: nat)
    requires NoDup(q)
    ensures NoDup(Without(q, t)) && t !in Without(q, t)
  {
    if q != [] && q[0] != t {
      WithoutNoDup(q[1..], t);
      assert q[0] !in q[1..];
    }
  }

  lemma {:induction false} WithoutMembers(q: seq<nat>, t: nat)
    ensures forall x | x in Without(q, t) :: x in q
  {
    if q != [] && q[0] != t {
      WithoutMembers(q[1..], t);
    }
  }

  lemma InsertAtMembers(q: seq<nat>, i: nat, t: nat)
    requires i <= |q|
    ensures forall x :: x in InsertAt(q, i, t) <==> x in q || x == t
    ensures NoDup(q) && t !in q ==> NoDup(InsertAt(q, i, t))
  {
    assert q == q[..i] + q[i..];
  }

  lemma {:induction false} SubsetIsSmaller<T>(a: set<T>, b: set<T>)
    requires a <= b
    ensures |a| <= |b|
    decreases a
  {
    if a != {} {
      var x :| x in a;
      SubsetIsSmaller(a - {x}, b - {x});
    }
  }
}
