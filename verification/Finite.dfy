/** Counting facts about finite sets. */
module Finite {

  lemma {:induction false} SubsetCard<T>(a: set<T>, b: set<T>)
    requires a <= b
    ensures |a| <= |b|
    ensures |a| == |b| ==> a == b
  {
    assert b == a + (b - a);
    if a != b {
      var x :| x in b && x !in a;
      assert b - a != {};
    }
  }

  ghost function Image<T, U>(s: set<T>, f: T -> U): set<U> {
    set x | x in s :: f(x)
  }

  ghost predicate InjectiveOn<T(!new), U>(s: set<T>, f: T -> U) {
    forall x, y :: x in s && y in s && f(x) == f(y) ==> x == y
  }

  lemma {:induction false} ImageCard<T(!new), U>(s: set<T>, f: T -> U)
    requires InjectiveOn(s, f)
    ensures |Image(s, f)| == |s|
  {
    if s != {} {
      var x :| x in s;
      ImageCard(s - {x}, f);
      assert Image(s, f) == Image(s - {x}, f) + {f(x)};
      assert f(x) !in Image(s - {x}, f);
    }
  }

  /** As many pigeons as holes and no two in one hole: every hole is taken. */
  lemma Pigeonhole<T(!new), U(!new)>(s: set<T>, holes: set<U>, f: T -> U, h: U) returns (x: T)
    requires InjectiveOn(s, f) && |s| == |holes| && h in holes
    requires forall x :: x in s ==> f(x) in holes
    ensures x in s && f(x) == h
  {
    ImageCard(s, f);
    SubsetCard(Image(s, f), holes);
    assert h in Image(s, f);
    x :| x in s && f(x) == h;
  }

  function Below(n: nat): (s: set<nat>)
    ensures forall k: nat :: k in s <==> k < n
  {
    if n == 0 then {} else Below(n - 1) + {n - 1}
  }

  lemma {:induction false} BelowCard(n: nat)
    ensures |Below(n)| == n
  {
    if n > 0 {
      BelowCard(n - 1);
      assert Below(n) == Below(n - 1) + {n - 1};
    }
  }

  /** An injective map of 0..n-1 into itself reaches every number. */
  lemma OntoBelow(n: nat, f: nat -> nat, k: nat) returns (x: nat)
    requires InjectiveOn(Below(n), f) && k < n
    requires forall x: nat :: x < n ==> f(x) < n
    ensures x < n && f(x) == k
  {
    BelowCard(n);
    x := Pigeonhole(Below(n), Below(n), f, k);
  }

  lemma DifferenceCard<T>(a: set<T>, b: set<T>)
    requires b <= a
    ensures |a - b| == |a| - |b|
  {
    assert a == b + (a - b);
  }

  /** Natural numbers below n, as a set of integers. */
  function IntsBelow(n: nat): (s: set<int>)
    ensures forall k :: k in s <==> 0 <= k < n
    ensures |s| == n
  {
    if n == 0 then {} else IntsBelow(n - 1) + {n - 1}
  }
}
