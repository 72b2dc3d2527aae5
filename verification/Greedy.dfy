/** Repeatedly taking one unit from the fullest place, as GetBestSandbox does with free boxes. */
module Greedy {

  function Sum(a: seq<nat>): nat {
    if a == [] then 0 else Sum(a[..|a| - 1]) + a[|a| - 1]
  }

  function Largest(a: seq<nat>): (m: nat)
    ensures forall i :: 0 <= i < |a| ==> a[i] <= m
    ensures m > 0 ==> exists i :: 0 <= i < |a| && a[i] == m
  {
    if a == [] then 0 else
    var m, x := Largest(a[..|a| - 1]), a[|a| - 1];
    assert forall i :: 0 <= i < |a| - 1 ==> a[i] == a[..|a| - 1][i];
    if x > m then x else m
  }

  /** Taking one unit from each of `picks` in turn. */
  function After(a: seq<nat>, picks: seq<nat>): (b: seq<nat>)
    ensures |b| == |a|
  {
    if picks == [] then a else
    var b, i := After(a, picks[..|picks| - 1]), picks[|picks| - 1];
    if i < |b| && b[i] > 0 then b[i := b[i] - 1] else b
  }

  /** Every pick is a fullest place with something left. */
  predicate IsGreedy(a: seq<nat>, picks: seq<nat>) {
    if picks == [] then true else
    var b, i := After(a, picks[..|picks| - 1]), picks[|picks| - 1];
    IsGreedy(a, picks[..|picks| - 1]) && i < |b| && b[i] > 0 && b[i] == Largest(b)
  }

  lemma {:induction false} SumUpdate(a: seq<nat>, i: nat, x: nat)
    requires i < |a|
    ensures Sum(a[i := x]) + a[i] == Sum(a) + x
  {
    var n := |a| - 1;
    if i == n {
      assert a[i := x][..n] == a[..n];
    } else {
      SumUpdate(a[..n], i, x);
      assert a[i := x][..n] == a[..n][i := x];
    }
  }

  lemma {:induction false} SumBelow(a: seq<nat>, b: seq<nat>)
    requires |a| == |b| && forall i :: 0 <= i < |a| ==> a[i] <= b[i]
    ensures Sum(a) <= Sum(b)
    ensures (exists i :: 0 <= i < |a| && a[i] < b[i]) ==> Sum(a) < Sum(b)
  {
    if a != [] {
      var n := |a| - 1;
      SumBelow(a[..n], b[..n]);
      if i :| 0 <= i < |a| && a[i] < b[i] {
        if i < n { assert a[..n][i] < b[..n][i]; }
      }
    }
  }

  lemma {:induction false} Spends(a: seq<nat>, picks: seq<nat>)
    requires IsGreedy(a, picks)
    ensures Sum(After(a, picks)) + |picks| == Sum(a)
    ensures forall i :: 0 <= i < |a| ==> After(a, picks)[i] <= a[i]
    ensures forall i :: 0 <= i < |a| && i !in picks ==> After(a, picks)[i] == a[i]
  {
    if picks != [] {
      var rest, i := picks[..|picks| - 1], picks[|picks| - 1];
      Spends(a, rest);
      SumUpdate(After(a, rest), i, After(a, rest)[i] - 1);
      assert picks == rest + [i];
    }
  }

  /** Greedy picks use up exactly one unit each, leave untouched places alone, and leave every place
      they used within one of the largest. */
  lemma {:induction false} Balanced(a: seq<nat>, picks: seq<nat>)
    requires IsGreedy(a, picks)
    ensures Sum(After(a, picks)) + |picks| == Sum(a)
    ensures forall i :: 0 <= i < |a| ==> After(a, picks)[i] <= a[i]
    ensures forall i :: 0 <= i < |a| && i in picks ==> After(a, picks)[i] + 1 >= Largest(After(a, picks))
    ensures forall i :: 0 <= i < |a| && i !in picks ==> After(a, picks)[i] == a[i]
  {
    Spends(a, picks);
    if picks != [] {
      var rest, i := picks[..|picks| - 1], picks[|picks| - 1];
      Balanced(a, rest);
      assert picks == rest + [i];
      assert Largest(After(a, picks)) <= Largest(After(a, rest));
    }
  }

  lemma GreedyExtends(a: seq<nat>, picks: seq<nat>, i: nat)
    requires IsGreedy(a, picks) && IsGreedy(After(a, picks), [i])
    ensures IsGreedy(a, picks + [i]) && After(a, picks + [i]) == After(After(a, picks), [i])
  {
    assert (picks + [i])[..|picks|] == picks;
    assert [i][..0] == [];
  }

  function Minus(a: seq<nat>, p: seq<nat>): (d: seq<nat>)
    requires |p| == |a| && forall i :: 0 <= i < |a| ==> p[i] <= a[i]
    ensures |d| == |a| && forall i :: 0 <= i < |a| ==> d[i] == a[i] - p[i]
  {
    seq(|a|, i requires 0 <= i < |a| => a[i] - p[i])
  }

  lemma {:induction false} SumMinus(a: seq<nat>, p: seq<nat>)
    requires |p| == |a| && forall i :: 0 <= i < |a| ==> p[i] <= a[i]
    ensures Sum(Minus(a, p)) + Sum(p) == Sum(a)
  {
    if a != [] {
      var n := |a| - 1;
      SumMinus(a[..n], p[..n]);
      assert Minus(a, p)[..n] == Minus(a[..n], p[..n]);
    }
  }

  /** No placement of as many units, however chosen, leaves a smaller largest remainder. */
  lemma Optimal(a: seq<nat>, picks: seq<nat>, placement: seq<nat>)
    requires IsGreedy(a, picks)
    requires |placement| == |a| && forall i :: 0 <= i < |a| ==> placement[i] <= a[i]
    requires Sum(placement) <= |picks|
    ensures Largest(After(a, picks)) <= Largest(Minus(a, placement))
  {
    var g, d := After(a, picks), Minus(a, placement);
    Balanced(a, picks);
    SumMinus(a, placement);
    if Largest(d) < Largest(g) {
      var j :| 0 <= j < |g| && g[j] == Largest(g);
      forall i | 0 <= i < |a| ensures d[i] <= g[i] {
        assert d[i] <= Largest(d);
      }
      assert d[j] < g[j];
      SumBelow(d, g);
    }
  }
}
