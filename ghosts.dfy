/** UpdateGhostPressure: a ghost particle (tag 2) takes the pressure and the
    pressure iterate of the real particle it mirrors (gid). The framework
    runs initialize for the particles in index order, so a ghost that
    mirrors an earlier ghost sees that ghost's new value; MirrorUpTo says so
    and MirrorAll is the order-free reading, the same whenever no gid points
    at a ghost. */
module Ghosts {
  /** Tag of a ghost particle. */
  const Ghost: int := 2

  /** Every ghost mirrors an index inside the array. */
  predicate GidsInRange(tag: seq<int>, gid: seq<int>, n: nat) {
    |tag| == |gid| == n &&
    forall i :: 0 <= i < n && tag[i] == Ghost ==> 0 <= gid[i] < n
  }

  /** The values after the particles 0 .. k-1 have run initialize: the
      particles not yet visited still hold their old values. */
  function MirrorUpTo(s: seq<real>, tag: seq<int>, gid: seq<int>, k: nat): (t: seq<real>)
    requires GidsInRange(tag, gid, |s|) && k <= |s|
    ensures |t| == |s|
    ensures forall j :: k <= j < |s| ==> t[j] == s[j]
  {
    if k == 0 then s
    else
      var t := MirrorUpTo(s, tag, gid, k - 1);
      if tag[k - 1] == Ghost then t[k - 1 := t[gid[k - 1]]] else t
  }

  /** Every ghost takes its mirror's value from before the sweep. */
  function MirrorAll(s: seq<real>, tag: seq<int>, gid: seq<int>): (t: seq<real>)
    requires GidsInRange(tag, gid, |s|)
    ensures |t| == |s|
    ensures forall i :: 0 <= i < |s| && tag[i] != Ghost ==> t[i] == s[i]
    ensures forall i :: 0 <= i < |s| && tag[i] == Ghost ==> t[i] == s[gid[i]]
  {
    seq(|s|, i requires 0 <= i < |s| => if tag[i] == Ghost then s[gid[i]] else s[i])
  }

  /** No ghost mirrors another ghost. */
  predicate NoGhostChains(tag: seq<int>, gid: seq<int>, n: nat)
    requires GidsInRange(tag, gid, n)
  {
    forall i :: 0 <= i < n && tag[i] == Ghost ==> tag[gid[i]] != Ghost
  }

  /** Particles that are not ghosts keep their values, whatever the order. */
  lemma {:induction false} MirrorKeepsRealParticles(s: seq<real>, tag: seq<int>, gid: seq<int>, k: nat, j: nat)
    requires GidsInRange(tag, gid, |s|) && k <= |s| && j < |s|
    requires tag[j] != Ghost
    ensures MirrorUpTo(s, tag, gid, k)[j] == s[j]
  {
    if k > 0 {
      MirrorKeepsRealParticles(s, tag, gid, k - 1, j);
    }
  }

  lemma {:induction false} MirrorUpToPrefix(s: seq<real>, tag: seq<int>, gid: seq<int>, k: nat)
    requires GidsInRange(tag, gid, |s|) && k <= |s|
    requires NoGhostChains(tag, gid, |s|)
    ensures forall j :: 0 <= j < |s| ==>
              MirrorUpTo(s, tag, gid, k)[j] == (if j < k && tag[j] == Ghost then s[gid[j]] else s[j])
  {
    if k > 0 {
      MirrorUpToPrefix(s, tag, gid, k - 1);
      if tag[k - 1] == Ghost {
        MirrorKeepsRealParticles(s, tag, gid, k - 1, gid[k - 1]);
      }
    }
  }

  /** Without ghost chains the in-order sweep equals the order-free one. */
  lemma SweepOrderIrrelevantWithoutChains(s: seq<real>, tag: seq<int>, gid: seq<int>)
    requires GidsInRange(tag, gid, |s|)
    requires NoGhostChains(tag, gid, |s|)
    ensures MirrorUpTo(s, tag, gid, |s|) == MirrorAll(s, tag, gid)
  {
    MirrorUpToPrefix(s, tag, gid, |s|);
  }

  /** With a ghost that mirrors an earlier ghost the order shows: particle 1
      mirrors particle 0, which has already taken particle 2's value. */
  lemma ChainedGhostSeesNewValue()
    ensures GidsInRange([2, 2, 0], [2, 0, 0], 3)
    ensures MirrorUpTo([1.0, 2.0, 3.0], [2, 2, 0], [2, 0, 0], 3) == [3.0, 3.0, 3.0]
    ensures MirrorAll([1.0, 2.0, 3.0], [2, 2, 0], [2, 0, 0]) == [3.0, 1.0, 3.0]
  {
  }

  /** initialize for particle i. */
  method UpdateGhostPressure(i: nat, tag: array<int>, gid: array<int>, p: array<real>, pk: array<real>)
    requires p != pk
    requires i < p.Length == pk.Length
    requires GidsInRange(tag[..], gid[..], p.Length)
    modifies p, pk
    ensures tag[i] == Ghost ==> p[..] == old(p[..])[i := old(p[gid[i]])] && pk[..] == old(pk[..])[i := old(pk[gid[i]])]
    ensures tag[i] != Ghost ==> p[..] == old(p[..]) && pk[..] == old(pk[..])
  {
    if tag[i] == Ghost {
      var idx := gid[i];
      pk[i] := pk[idx];
      p[i] := p[idx];
    }
  }

  /** The group over one particle array. */
  method UpdateGhostPressures(tag: array<int>, gid: array<int>, p: array<real>, pk: array<real>)
    requires p != pk
    requires p.Length == pk.Length
    requires GidsInRange(tag[..], gid[..], p.Length)
    modifies p, pk
    ensures p[..] == MirrorUpTo(old(p[..]), tag[..], gid[..], p.Length)
    ensures pk[..] == MirrorUpTo(old(pk[..]), tag[..], gid[..], p.Length)
  {
    ghost var p0 := p[..];
    ghost var pk0 := pk[..];
    for i := 0 to p.Length
      invariant p[..] == MirrorUpTo(p0, tag[..], gid[..], i)
      invariant pk[..] == MirrorUpTo(pk0, tag[..], gid[..], i)
    {
      UpdateGhostPressure(i, tag, gid, p, pk);
    }
  }
}
