/** Combining the contents of a sequence of places, with the effect of changing one place. */
module Folds {
  datatype Option<+T> = None | Some(value: T)

  /** Everything the elements of `xs` hold, each element `x` holding `f(x)`. */
  function Gather<T>(xs: seq<T>, f: T -> multiset<nat>): multiset<nat> {
    if xs == [] then multiset{} else Gather(xs[..|xs| - 1], f) + f(xs[|xs| - 1])
  }

  lemma {:induction false} GatherAppend<T>(xs: seq<T>, x: T, f: T -> multiset<nat>)
    ensures Gather(xs + [x], f) == Gather(xs, f) + f(x)
  {
    assert (xs + [x])[..|xs|] == xs;
  }

  lemma {:induction false} GatherUpdate<T>(xs: seq<T>, i: nat, x: T, f: T -> multiset<nat>)
    requires i < |xs|
    ensures f(xs[i]) <= Gather(xs, f)
    ensures Gather(xs[i := x], f) == Gather(xs, f) - f(xs[i]) + f(x)
  {
    var n := |xs| - 1;
    if i == n {
      assert xs[i := x][..n] == xs[..n];
    } else {
      GatherUpdate(xs[..n], i, x, f);
      assert xs[i := x][..n] == xs[..n][i := x];
    }
  }

  lemma GatherSame<T>(xs: seq<T>, i: nat, x: T, f: T -> multiset<nat>)
    requires i < |xs| && f(x) == f(xs[i])
    ensures Gather(xs[i := x], f) == Gather(xs, f)
  {
    GatherUpdate(xs, i, x, f);
  }

  /** Two different places hold their contents side by side. */
  lemma {:induction false} GatherPair<T>(xs: seq<T>, i: nat, j: nat, f: T -> multiset<nat>)
    requires i < |xs| && j < |xs| && i != j
    ensures f(xs[i]) + f(xs[j]) <= Gather(xs, f)
  {
    var n := |xs| - 1;
    if i == n {
      GatherUpdate(xs[..n], j, xs[j], f);
    } else if j == n {
      GatherUpdate(xs[..n], i, xs[i], f);
    } else {
      GatherPair(xs[..n], i, j, f);
    }
  }

  lemma {:induction false} GatherWithin<T>(xs: seq<T>, f: T -> multiset<nat>, g: T -> multiset<nat>)
    requires forall x :: x in xs ==> f(x) <= g(x)
    ensures Gather(xs, f) <= Gather(xs, g)
  {
    if xs != [] {
      GatherWithin(xs[..|xs| - 1], f, g);
    }
  }

  lemma HeadTail(q: seq<nat>)
    requires q != []
    ensures multiset(q) == multiset{q[0]} + multiset(q[1..])
  {
    assert q == [q[0]] + q[1..];
  }

  /** Queues in sequence: what left, then what is left, is what was there, then what came. */
  lemma Chain<T>(t0: seq<T>, q0: seq<T>, q1: seq<T>, a0: seq<T>, t1: seq<T>, q2: seq<T>, a1: seq<T>)
    requires t0 + q1 == q0 + a0 && t1 + q2 == q1 + a1
    ensures t0 + t1 + q2 == q0 + (a0 + a1)
  {
    assert t0 + t1 + q2 == t0 + (t1 + q2);
    assert t0 + (q1 + a1) == t0 + q1 + a1;
    assert q0 + a0 + a1 == q0 + (a0 + a1);
  }

  /** What leaves one place for another is still there. */
  lemma Shift(a: multiset<nat>, g: multiset<nat>, b: multiset<nat>, c: multiset<nat>, x: multiset<nat>)
    requires x <= g
    ensures a + (g - x) + (b + x) + c == a + g + b + c
    ensures a + (g - x) + b + (c + x) == a + g + b + c
  {
  }

  /** Places that hold nothing hold nothing together. */
  lemma {:induction false} GatherNone<T>(xs: seq<T>, f: T -> multiset<nat>)
    requires forall x :: x in xs ==> f(x) == multiset{}
    ensures Gather(xs, f) == multiset{}
  {
    if xs != [] {
      GatherNone(xs[..|xs| - 1], f);
    }
  }

  /** Contents made of two parts gather part by part. */
  lemma {:induction false} GatherSplit<T>(xs: seq<T>, f: T -> multiset<nat>, g: T -> multiset<nat>,
                                          h: T -> multiset<nat>)
    requires forall x :: x in xs ==> f(x) == g(x) + h(x)
    ensures Gather(xs, f) == Gather(xs, g) + Gather(xs, h)
  {
    if xs != [] {
      GatherSplit(xs[..|xs| - 1], f, g, h);
    }
  }

  /** The numbers below `n`, once each. */
  function Upto(n: nat): (m: multiset<nat>)
    ensures |m| == n
    ensures forall b: nat :: m[b] == if b < n then 1 else 0
  {
    if n == 0 then multiset{} else Upto(n - 1) + multiset{n - 1}
  }
}
