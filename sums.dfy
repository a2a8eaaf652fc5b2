/** Neighbour sums. Most equations of the scheme zero a destination
    property in `initialize` and add one term per neighbour in `loop`
    (`d_rhs[d_idx] += ...`). SumOver is that accumulation as a left fold, in
    the order the neighbours are visited; AccumulateAt is the loop itself. */
module Sums {
  import opened Vectors

  /** Sum of f over s, added left to right. */
  function SumOver<T>(s: seq<T>, f: T -> real): real
    decreases |s|
  {
    if |s| == 0 then 0.0 else SumOver(s[..|s| - 1], f) + f(s[|s| - 1])
  }

  /** Vector-valued sum of f over s, added left to right. */
  function VecSumOver<T>(s: seq<T>, f: T -> Vec3): Vec3
    decreases |s|
  {
    if |s| == 0 then Zero else Add(VecSumOver(s[..|s| - 1], f), f(s[|s| - 1]))
  }

  lemma {:induction false} SumOverAppend<T>(a: seq<T>, b: seq<T>, f: T -> real)
    ensures SumOver(a + b, f) == SumOver(a, f) + SumOver(b, f)
    decreases |b|
  {
    if |b| == 0 {
      assert a + b == a;
    } else {
      var b' := b[..|b| - 1];
      assert (a + b)[..|a + b| - 1] == a + b';
      SumOverAppend(a, b', f);
    }
  }

  lemma SumOverSingleton<T>(x: T, f: T -> real)
    ensures SumOver([x], f) == f(x)
  {
    assert [x][..0] == [];
  }

  /** Taking the k-th term out of the sum. */
  lemma SumOverRemove<T>(b: seq<T>, k: nat, f: T -> real)
    requires k < |b|
    ensures SumOver(b, f) == SumOver(b[..k] + b[k + 1..], f) + f(b[k])
  {
    SplitAt(b, k);
    SumOverRemoveFrom(b[..k], b[k], b[k + 1..], f);
  }

  lemma SplitAt<T>(b: seq<T>, k: nat)
    requires k < |b|
    ensures b == (b[..k] + [b[k]]) + b[k + 1..]
  {
  }

  lemma SumOverRemoveFrom<T>(pre: seq<T>, x: T, post: seq<T>, f: T -> real)
    ensures SumOver((pre + [x]) + post, f) == SumOver(pre + post, f) + f(x)
  {
    SumOverAppend(pre + [x], post, f);
    SumOverAppend(pre, [x], f);
    SumOverSingleton(x, f);
    SumOverAppend(pre, post, f);
  }

  lemma MultisetRemove<T>(a: seq<T>, b: seq<T>, k: nat)
    requires |a| > 0 && k < |b| && b[k] == a[|a| - 1]
    requires multiset(a) == multiset(b)
    ensures multiset(a[..|a| - 1]) == multiset(b[..k] + b[k + 1..])
  {
    var a', rest, x := a[..|a| - 1], b[..k] + b[k + 1..], b[k];
    assert a == a' + [x];
    assert b == b[..k] + [x] + b[k + 1..];
    assert multiset(a') + multiset{x} == multiset(rest) + multiset{x};
    assert multiset(a') == multiset(a') + multiset{x} - multiset{x};
    assert multiset(rest) == multiset(rest) + multiset{x} - multiset{x};
  }

  /** The accumulated value does not depend on the order in which the
      neighbours are visited: any permutation gives the same sum. */
  lemma {:induction false} SumOverPermutation<T>(a: seq<T>, b: seq<T>, f: T -> real)
    requires multiset(a) == multiset(b)
    ensures SumOver(a, f) == SumOver(b, f)
    decreases |a|
  {
    if |a| == 0 {
      assert |multiset(b)| == 0;
    } else {
      var x := a[|a| - 1];
      assert x in multiset(b);
      var k :| 0 <= k < |b| && b[k] == x;
      MultisetRemove(a, b, k);
      SumOverPermutation(a[..|a| - 1], b[..k] + b[k + 1..], f);
      SumOverRemove(b, k, f);
    }
  }

  lemma {:induction false} SumOverNonNegative<T>(s: seq<T>, f: T -> real)
    requires forall x :: x in s ==> f(x) >= 0.0
    ensures SumOver(s, f) >= 0.0
    decreases |s|
  {
    if |s| > 0 {
      SumOverNonNegative(s[..|s| - 1], f);
    }
  }

  lemma {:induction false} SumOverNonPositive<T>(s: seq<T>, f: T -> real)
    requires forall x :: x in s ==> f(x) <= 0.0
    ensures SumOver(s, f) <= 0.0
    decreases |s|
  {
    if |s| > 0 {
      SumOverNonPositive(s[..|s| - 1], f);
    }
  }

  /** A factor common to every term comes out of the sum. */
  lemma {:induction false} SumOverLinear<T>(s: seq<T>, f: T -> real, g: T -> real, c: real)
    requires forall x :: x in s ==> f(x) == c * g(x)
    ensures SumOver(s, f) == c * SumOver(s, g)
    decreases |s|
  {
    if |s| > 0 {
      SumOverLinear(s[..|s| - 1], f, g, c);
    }
  }

  lemma SumOverZero<T>(s: seq<T>, f: T -> real)
    requires forall x :: x in s ==> f(x) == 0.0
    ensures SumOver(s, f) == 0.0
  {
    SumOverLinear(s, f, f, 0.0);
  }

  lemma {:induction false} VecSumOverZero<T>(s: seq<T>, f: T -> Vec3)
    requires forall x :: x in s ==> f(x) == Zero
    ensures VecSumOver(s, f) == Zero
    decreases |s|
  {
    if |s| > 0 {
      VecSumOverZero(s[..|s| - 1], f);
    }
  }

  /** The `loop` phase for one destination particle: a[i] += f(nb) for every
      neighbour nb, nothing else written. */
  method AccumulateAt<T>(a: array<real>, i: nat, s: seq<T>, f: T -> real)
    requires i < a.Length
    modifies a
    ensures a[i] == old(a[i]) + SumOver(s, f)
    ensures forall k :: 0 <= k < a.Length && k != i ==> a[k] == old(a[k])
  {
    for j := 0 to |s|
      invariant a[i] == old(a[i]) + SumOver(s[..j], f)
      invariant forall k :: 0 <= k < a.Length && k != i ==> a[k] == old(a[k])
    {
      assert s[..j + 1][..j] == s[..j];
      a[i] := a[i] + f(s[j]);
    }
    assert s[..|s|] == s;
  }

  /** The vector form of AccumulateAt for the au, av, aw triple, with the
      `initialize` that zeroes it: a[i] := 0, then a[i] += f(nb) for every
      neighbour nb. */
  method ZeroAndAccumulateVecAt<T>(a: array<Vec3>, i: nat, s: seq<T>, f: T -> Vec3)
    requires i < a.Length
    modifies a
    ensures a[i] == VecSumOver(s, f)
    ensures forall k :: 0 <= k < a.Length && k != i ==> a[k] == old(a[k])
  {
    a[i] := Zero;
    for j := 0 to |s|
      invariant a[i] == VecSumOver(s[..j], f)
      invariant forall k :: 0 <= k < a.Length && k != i ==> a[k] == old(a[k])
    {
      assert s[..j + 1][..j] == s[..j];
      a[i] := Add(a[i], f(s[j]));
    }
    assert s[..|s|] == s;
  }
}
