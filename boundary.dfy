/** The pressure boundary condition on solid wall particles: the wall
    pressure is extrapolated from the fluid neighbours, weighted by the
    kernel and corrected for the wall's acceleration against gravity
    (SetPressureSolid), then normalised by the number density computed in
    the same group (EvaluateNumberDensity). */
module Boundary {
  import opened Vectors
  import opened Sums
  import opened Neighbours
  import opened Equations

  /** Below this number density the accumulated sum is not normalised. */
  const WeightThreshold: real := 0.00000000000001

  /** p_j W_ij + rho_j ((g - a_wall) . x_ij) W_ij: the fluid neighbour's
      pressure plus the hydrostatic head between it and the wall particle. */
  function WallPressureAt(aWall: Vec3, g: Vec3, nb: Neighbour): real {
    nb.p * nb.w + nb.rho * Dot(Sub(g, aWall), nb.xij) * nb.w
  }

  function WallPressureTerm(aWall: Vec3, g: Vec3): Neighbour -> real {
    (nb: Neighbour) => WallPressureAt(aWall, g, nb)
  }

  /** post_loop: divide by the number density when it exceeds the
      threshold, then clamp at zero when hg_correction is on. */
  function NormalizeWallPressure(sum: real, wij: real, hgCorrection: bool): (p: real)
    ensures hgCorrection ==> p >= 0.0
    ensures wij <= WeightThreshold && !hgCorrection ==> p == sum
    ensures wij <= WeightThreshold && hgCorrection ==> p == Max(0.0, sum)
    ensures sum == 0.0 ==> p == 0.0
  {
    var q := if wij > WeightThreshold then sum / wij else sum;
    if hgCorrection then Max(0.0, q) else q
  }

  /** The wall pressure that the group gives a solid particle with wall
      acceleration aWall and fluid neighbours nbrs: never negative with
      hg_correction, and zero for a particle without fluid neighbours. */
  function ExtrapolatedPressure(aWall: Vec3, g: Vec3, nbrs: seq<Neighbour>, hgCorrection: bool): (p: real)
    ensures hgCorrection ==> p >= 0.0
    ensures |nbrs| == 0 ==> p == 0.0
  {
    NormalizeWallPressure(SumOver(nbrs, WallPressureTerm(aWall, g)), NumberDensity(nbrs), hgCorrection)
  }

  /** The same when every neighbour lies outside the kernel's support. */
  lemma NoWeightNoPressure(aWall: Vec3, g: Vec3, nbrs: seq<Neighbour>, hgCorrection: bool)
    requires forall nb :: nb in nbrs ==> nb.w == 0.0
    ensures ExtrapolatedPressure(aWall, g, nbrs, hgCorrection) == 0.0
  {
    forall nb | nb in nbrs
      ensures WallPressureTerm(aWall, g)(nb) == 0.0
    {
      assert WallPressureAt(aWall, g, nb) == nb.p * 0.0 + nb.rho * Dot(Sub(g, aWall), nb.xij) * 0.0;
    }
    SumOverZero(nbrs, WallPressureTerm(aWall, g));
  }

  /** A wall at rest relative to gravity (a_wall == g) in a fluid of uniform
      pressure c takes the pressure c, clamped at zero with hg_correction,
      once the number density exceeds the threshold. */
  lemma UniformPressureIsExtrapolated(aWall: Vec3, g: Vec3, nbrs: seq<Neighbour>, hgCorrection: bool, c: real)
    requires aWall == g
    requires forall nb :: nb in nbrs ==> nb.p == c
    requires NumberDensity(nbrs) > WeightThreshold
    ensures !hgCorrection ==> ExtrapolatedPressure(aWall, g, nbrs, hgCorrection) == c
    ensures hgCorrection ==> ExtrapolatedPressure(aWall, g, nbrs, hgCorrection) == Max(0.0, c)
  {
    UniformTerms(aWall, g, nbrs, c);
    SumOverLinear(nbrs, WallPressureTerm(aWall, g), Weight, c);
    NormalizeUniform(c, NumberDensity(nbrs), hgCorrection);
  }

  lemma UniformTerms(aWall: Vec3, g: Vec3, nbrs: seq<Neighbour>, c: real)
    requires aWall == g
    requires forall nb :: nb in nbrs ==> nb.p == c
    ensures forall nb :: nb in nbrs ==> WallPressureTerm(aWall, g)(nb) == c * Weight(nb)
  {
    forall nb | nb in nbrs
      ensures WallPressureTerm(aWall, g)(nb) == c * Weight(nb)
    {
      assert Dot(Sub(g, aWall), nb.xij) == 0.0;
      assert WallPressureAt(aWall, g, nb) == c * nb.w + nb.rho * 0.0 * nb.w;
    }
  }

  lemma NormalizeUniform(c: real, w: real, hgCorrection: bool)
    requires w > WeightThreshold
    ensures NormalizeWallPressure(c * w, w, hgCorrection) == if hgCorrection then Max(0.0, c) else c
  {
    ScaledQuotient(c, w);
  }

  lemma ScaledQuotient(c: real, w: real)
    requires w > 0.0
    ensures c * w / w == c
  {
  }

  /** SetPressureSolid for wall particle i: initialize zeroes p, loop adds
      every fluid neighbour's term, post_loop normalises and copies p to pk. */
  method SetPressureSolid(i: nat, p: array<real>, pk: array<real>, wij: array<real>, acc: array<Vec3>,
                          nbrs: seq<Neighbour>, g: Vec3, hgCorrection: bool)
    requires i < p.Length == pk.Length == wij.Length == acc.Length
    requires p != pk && p != wij && pk != wij
    modifies p, pk
    ensures p[i] == NormalizeWallPressure(SumOver(nbrs, WallPressureTerm(acc[i], g)), wij[i], hgCorrection)
    ensures pk[i] == p[i]
    ensures forall k :: 0 <= k < p.Length && k != i ==> p[k] == old(p[k]) && pk[k] == old(pk[k])
  {
    p[i] := 0.0;
    AccumulateAt(p, i, nbrs, WallPressureTerm(acc[i], g));
    if wij[i] > WeightThreshold {
      p[i] := p[i] / wij[i];
    }
    if hgCorrection {
      p[i] := Max(0.0, p[i]);
    }
    pk[i] := p[i];
  }

  /** The pressure boundary group over one solid array: for every wall
      particle, EvaluateNumberDensity and SetPressureSolid against the
      fluids. nbrs[k] lists the fluid neighbours of wall particle k. */
  method PressureBoundary(p: array<real>, pk: array<real>, wij: array<real>, acc: array<Vec3>,
                          nbrs: seq<seq<Neighbour>>, g: Vec3, hgCorrection: bool)
    requires p.Length == pk.Length == wij.Length == acc.Length == |nbrs|
    requires p != pk && p != wij && pk != wij
    modifies p, pk, wij
    ensures forall k :: 0 <= k < p.Length ==>
              p[k] == ExtrapolatedPressure(acc[k], g, nbrs[k], hgCorrection) &&
              pk[k] == p[k] && wij[k] == NumberDensity(nbrs[k])
    ensures hgCorrection ==> forall k :: 0 <= k < p.Length ==> p[k] >= 0.0
  {
    for i := 0 to p.Length
      invariant forall k :: 0 <= k < i ==>
                  p[k] == ExtrapolatedPressure(acc[k], g, nbrs[k], hgCorrection) &&
                  pk[k] == p[k] && wij[k] == NumberDensity(nbrs[k])
    {
      EvaluateNumberDensity(i, wij, nbrs[i]);
      SetPressureSolid(i, p, pk, wij, acc, nbrs[i], g, hgCorrection);
    }
  }
}
