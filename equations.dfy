/** The neighbour-sum equations of the scheme that act on fluid particles.
    Each method is one equation applied to destination particle i: its
    `initialize` (zero the accumulator), its `loop` over the neighbours of i
    (AccumulateAt) and its `post_loop`. Only index i of the properties the
    equation writes changes. */
module Equations {
  import opened Vectors
  import opened Sums
  import opened Neighbours

  /* ---------------- VelocityDivergence, VelocityDivergenceSolid ---------------- */

  /** -V_j (v_ij . grad W_ij) / dt */
  function DivergenceTerm(dt: NonZero): Neighbour -> real {
    (nb: Neighbour) => -(nb.m / nb.rho) * Dot(nb.vij, nb.dw) / dt
  }

  /** The no-slip variant: the neighbour's velocity is replaced by the
      prescribed wall velocity (ug, vg, wg) of the solid neighbour. */
  function SolidDivergenceTerm(u: Vec3, dt: NonZero): Neighbour -> real {
    (nb: Neighbour) => -(nb.m / nb.rho) * Dot(Sub(u, nb.wallVel), nb.dw) / dt
  }

  function Divergence(nbrs: seq<Neighbour>, dt: NonZero): real {
    SumOver(nbrs, DivergenceTerm(dt))
  }

  function SolidDivergence(u: Vec3, nbrs: seq<Neighbour>, dt: NonZero): real {
    SumOver(nbrs, SolidDivergenceTerm(u, dt))
  }

  /** A velocity field without relative motion is divergence free. */
  lemma UniformFlowHasNoDivergence(nbrs: seq<Neighbour>, dt: NonZero)
    requires forall nb :: nb in nbrs ==> nb.vij == Zero
    ensures Divergence(nbrs, dt) == 0.0
  {
    SumOverZero(nbrs, DivergenceTerm(dt));
  }

  /** Against a wall that moves with its prescribed velocity, the solid form
      is the fluid form with v_j := (ug, vg, wg)_j. */
  lemma SolidDivergenceIsDivergenceAgainstWallVelocity(u: Vec3, nbrs: seq<Neighbour>, dt: NonZero)
    requires forall nb :: nb in nbrs ==> nb.vij == Sub(u, nb.wallVel)
    ensures SolidDivergence(u, nbrs, dt) == Divergence(nbrs, dt)
  {
    SumOverLinear(nbrs, SolidDivergenceTerm(u, dt), DivergenceTerm(dt), 1.0);
  }

  /** VelocityDivergence: initialize sets rhs to 0 and pk to p; loop adds the
      divergence source of every neighbour. */
  method VelocityDivergence(i: nat, rhs: array<real>, pk: array<real>, p: array<real>,
                            nbrs: seq<Neighbour>, dt: NonZero)
    requires i < rhs.Length == pk.Length == p.Length
    requires rhs != pk && rhs != p
    modifies rhs, pk
    ensures rhs[i] == Divergence(nbrs, dt)
    ensures pk[i] == old(p[i])
    ensures forall k :: 0 <= k < rhs.Length && k != i ==> rhs[k] == old(rhs[k]) && pk[k] == old(pk[k])
  {
    rhs[i] := 0.0;
    pk[i] := p[i];
    AccumulateAt(rhs, i, nbrs, DivergenceTerm(dt));
  }

  /** VelocityDivergenceSolid has no initialize: it adds to the rhs left by
      VelocityDivergence in the same group. */
  method VelocityDivergenceSolid(i: nat, rhs: array<real>, u: array<Vec3>,
                                 nbrs: seq<Neighbour>, dt: NonZero)
    requires i < rhs.Length == u.Length
    modifies rhs
    ensures rhs[i] == old(rhs[i]) + SolidDivergence(u[i], nbrs, dt)
    ensures forall k :: 0 <= k < rhs.Length && k != i ==> rhs[k] == old(rhs[k])
  {
    AccumulateAt(rhs, i, nbrs, SolidDivergenceTerm(u[i], dt));
  }

  /* ---------------- DensityInvariance ---------------- */

  /** (rho0 - rho) / (dt^2 rho0): zero exactly at the reference density,
      positive exactly where the particle is lighter than the reference. */
  function DensityInvarianceSource(rho: real, rho0: Positive, dt: NonZero): (rhs: real)
    ensures rhs == 0.0 <==> rho == rho0
    ensures rhs > 0.0 <==> rho < rho0
  {
    QuotientOverSquareTimes(rho0 - rho, dt, rho0);
    (rho0 - rho) / (dt * dt * rho0)
  }

  /** The sign of a / (x^2 y) for positive y is the sign of a. */
  lemma QuotientOverSquareTimes(a: real, x: real, y: real)
    requires x != 0.0 && y > 0.0
    ensures x * x * y > 0.0
    ensures a / (x * x * y) == 0.0 <==> a == 0.0
    ensures a / (x * x * y) > 0.0 <==> a > 0.0
  {
    assert x * x * y > 0.0;
    assert a / (x * x * y) * (x * x * y) == a;
    if a == 0.0 {
      assert a / (x * x * y) == 0.0 / (x * x * y);
    } else if a / (x * x * y) > 0.0 {
      assert a / (x * x * y) * (x * x * y) > 0.0;
    } else {
      assert a / (x * x * y) * (x * x * y) <= 0.0;
    }
  }

  method DensityInvariance(i: nat, rhs: array<real>, rho: array<real>, rho0: Positive, dt: NonZero)
    requires i < rhs.Length == rho.Length
    modifies rhs
    ensures rhs[i] == DensityInvarianceSource(old(rho[i]), rho0, dt)
    ensures forall k :: 0 <= k < rhs.Length && k != i ==> rhs[k] == old(rhs[k])
  {
    rhs[i] := DensityInvarianceSource(rho[i], rho0, dt);
  }

  /* ---------------- PressureCoeffMatrixIterative ---------------- */

  /** 8 m_j (x_ij . grad W_ij) / ((rho_i + rho_j)^2 (r_ij^2 + eps)) */
  function CoeffFactor(rhoi: Positive, eps: Positive, nb: Neighbour): real {
    var rhoij := nb.rho + rhoi;
    8.0 * nb.m * (1.0 / (rhoij * rhoij)) * Dot(nb.xij, nb.dw) / (nb.r2 + eps)
  }

  function DiagTerm(rhoi: Positive, eps: Positive): Neighbour -> real {
    (nb: Neighbour) => CoeffFactor(rhoi, eps, nb)
  }

  function OdiagTerm(rhoi: Positive, eps: Positive): Neighbour -> real {
    (nb: Neighbour) => -CoeffFactor(rhoi, eps, nb) * nb.pk
  }

  function Diag(rhoi: Positive, eps: Positive, nbrs: seq<Neighbour>): real {
    SumOver(nbrs, DiagTerm(rhoi, eps))
  }

  /** The off-diagonal part weights each neighbour's previous iterate pk_j. */
  function Odiag(rhoi: Positive, eps: Positive, nbrs: seq<Neighbour>): real {
    SumOver(nbrs, OdiagTerm(rhoi, eps))
  }

  /** When every neighbour carries the same previous iterate c, the
      off-diagonal sum is -c times the diagonal. */
  lemma OdiagOfUniformPressure(rhoi: Positive, eps: Positive, nbrs: seq<Neighbour>, c: real)
    requires forall nb :: nb in nbrs ==> nb.pk == c
    ensures Odiag(rhoi, eps, nbrs) == -c * Diag(rhoi, eps, nbrs)
  {
    SumOverLinear(nbrs, OdiagTerm(rhoi, eps), DiagTerm(rhoi, eps), -c);
  }

  lemma CoeffFactorNonPositive(rhoi: Positive, eps: Positive, nb: Neighbour)
    requires nb.m >= 0.0 && Dot(nb.xij, nb.dw) <= 0.0
    ensures CoeffFactor(rhoi, eps, nb) <= 0.0
  {
    var rhoij := nb.rho + rhoi;
    var inv := 1.0 / (rhoij * rhoij);
    assert inv > 0.0;
    var a := 8.0 * nb.m * inv;
    assert a >= 0.0;
    assert a * Dot(nb.xij, nb.dw) <= 0.0;
  }

  /** A kernel whose gradient points against the separation
      (x_ij . grad W_ij <= 0, a kernel decreasing with distance) and
      non-negative masses give a non-positive diagonal. */
  lemma DiagNonPositive(rhoi: Positive, eps: Positive, nbrs: seq<Neighbour>)
    requires forall nb :: nb in nbrs ==> nb.m >= 0.0 && Dot(nb.xij, nb.dw) <= 0.0
    ensures Diag(rhoi, eps, nbrs) <= 0.0
  {
    forall nb | nb in nbrs
      ensures DiagTerm(rhoi, eps)(nb) <= 0.0
    {
      CoeffFactorNonPositive(rhoi, eps, nb);
    }
    SumOverNonPositive(nbrs, DiagTerm(rhoi, eps));
  }

  /** PressureCoeffMatrixIterative: initialize zeroes diag and odiag, loop adds
      every neighbour's coefficient. */
  method PressureCoeffMatrixIterative(i: nat, diag: array<real>, odiag: array<real>, rho: array<real>,
                                      nbrs: seq<Neighbour>, eps: Positive)
    requires i < diag.Length == odiag.Length == rho.Length
    requires diag != odiag
    requires rho[i] > 0.0
    modifies diag, odiag
    ensures diag[i] == Diag(old(rho[i]), eps, nbrs)
    ensures odiag[i] == Odiag(old(rho[i]), eps, nbrs)
    ensures forall k :: 0 <= k < diag.Length && k != i ==> diag[k] == old(diag[k]) && odiag[k] == old(odiag[k])
  {
    var rhoi: Positive := rho[i];
    diag[i] := 0.0;
    odiag[i] := 0.0;
    AccumulateAt(diag, i, nbrs, DiagTerm(rhoi, eps));
    AccumulateAt(odiag, i, nbrs, OdiagTerm(rhoi, eps));
  }

  /* ---------------- MomentumEquationBodyForce ---------------- */

  method MomentumEquationBodyForce(i: nat, acc: array<Vec3>, g: Vec3)
    requires i < acc.Length
    modifies acc
    ensures acc[i] == Add(old(acc[i]), g)
    ensures forall k :: 0 <= k < acc.Length && k != i ==> acc[k] == old(acc[k])
  {
    acc[i] := Add(acc[i], g);
  }

  /* ---------------- MomentumEquationPressureGradient(Symmetric) ---------------- */

  /** -(m_j / rho_j) (p_j - p_i) / rho_i */
  function PressureGradientFactor(pi: real, rhoi: Positive, nb: Neighbour): real {
    -(nb.m / nb.rho) * (nb.p - pi) / rhoi
  }

  /** p_i / rho_i^2 + p_j / rho_j^2 */
  function PairPressure(pi: real, rhoi: Positive, pj: real, rhoj: Positive): real {
    pi / (rhoi * rhoi) + pj / (rhoj * rhoj)
  }

  /** -m_j (p_i / rho_i^2 + p_j / rho_j^2) */
  function SymmetricPressureGradientFactor(pi: real, rhoi: Positive, nb: Neighbour): real {
    -nb.m * PairPressure(pi, rhoi, nb.p, nb.rho)
  }

  /** The neighbour's contribution to (au, av, aw): the factor times grad W_ij. */
  function PressureGradientAt(pi: real, rhoi: Positive, nb: Neighbour): Vec3 {
    Scale(PressureGradientFactor(pi, rhoi, nb), nb.dw)
  }

  function SymmetricPressureGradientAt(pi: real, rhoi: Positive, nb: Neighbour): Vec3 {
    Scale(SymmetricPressureGradientFactor(pi, rhoi, nb), nb.dw)
  }

  function PressureGradientTerm(pi: real, rhoi: Positive): Neighbour -> Vec3 {
    (nb: Neighbour) => PressureGradientAt(pi, rhoi, nb)
  }

  function SymmetricPressureGradientTerm(pi: real, rhoi: Positive): Neighbour -> Vec3 {
    (nb: Neighbour) => SymmetricPressureGradientAt(pi, rhoi, nb)
  }

  function PressureGradient(pi: real, rhoi: Positive, nbrs: seq<Neighbour>): Vec3 {
    VecSumOver(nbrs, PressureGradientTerm(pi, rhoi))
  }

  function SymmetricPressureGradient(pi: real, rhoi: Positive, nbrs: seq<Neighbour>): Vec3 {
    VecSumOver(nbrs, SymmetricPressureGradientTerm(pi, rhoi))
  }

  /** The difference form exerts no force in a uniform pressure field. */
  lemma UniformPressureExertsNoForce(pi: real, rhoi: Positive, nbrs: seq<Neighbour>)
    requires forall nb :: nb in nbrs ==> nb.p == pi
    ensures PressureGradient(pi, rhoi, nbrs) == Zero
  {
    VecSumOverZero(nbrs, PressureGradientTerm(pi, rhoi));
  }

  /* A pair of particles a and b: nbB is b as seen from a and nbA is a as
     seen from b, so nbA.m, nbA.rho and nbA.p are a's own properties, and the
     kernel gradient is antisymmetric, nbA.dw == -nbB.dw. Weighting each
     particle's acceleration by its mass gives the pair's forces on each
     other. */

  /** The symmetric form conserves momentum: the forces of a pair on each
      other cancel. */
  lemma SymmetricPairForcesCancel(nbB: Neighbour, nbA: Neighbour)
    requires nbA.dw == Neg(nbB.dw)
    ensures Add(Scale(nbA.m, SymmetricPressureGradientAt(nbA.p, nbA.rho, nbB)),
                Scale(nbB.m, SymmetricPressureGradientAt(nbB.p, nbB.rho, nbA))) == Zero
  {
    assert PairPressure(nbB.p, nbB.rho, nbA.p, nbA.rho) == PairPressure(nbA.p, nbA.rho, nbB.p, nbB.rho);
    OpposedPair(nbA.m, SymmetricPressureGradientFactor(nbA.p, nbA.rho, nbB),
                nbB.m, SymmetricPressureGradientFactor(nbB.p, nbB.rho, nbA), nbB.dw);
    SwappedWeights(nbA.m, nbB.m, PairPressure(nbA.p, nbA.rho, nbB.p, nbB.rho));
  }

  /** The difference form does not: for two particles of unit mass and
      density at pressures 0 and 1, the forces on each other add up to a net
      force of magnitude 2 along the kernel gradient. */
  lemma NonSymmetricPairForcesDoNotCancel(nbB: Neighbour, nbA: Neighbour)
    requires nbB.m == 1.0 && nbB.rho == 1.0 && nbB.p == 1.0 && nbB.dw == Vec3(1.0, 0.0, 0.0)
    requires nbA.m == 1.0 && nbA.rho == 1.0 && nbA.p == 0.0 && nbA.dw == Neg(nbB.dw)
    ensures Add(Scale(nbA.m, PressureGradientAt(nbA.p, nbA.rho, nbB)),
                Scale(nbB.m, PressureGradientAt(nbB.p, nbB.rho, nbA))) == Vec3(-2.0, 0.0, 0.0)
  {
  }

  lemma SwappedWeights(a: real, b: real, s: real)
    ensures a * (-b * s) - b * (-a * s) == 0.0
  {
  }

  /** MomentumEquationPressureGradient: initialize zeroes au, av, aw; loop adds
      the pressure force of every neighbour. */
  method MomentumEquationPressureGradient(i: nat, acc: array<Vec3>, p: array<real>, rho: array<real>,
                                          nbrs: seq<Neighbour>)
    requires i < acc.Length == p.Length == rho.Length
    requires rho[i] > 0.0
    modifies acc
    ensures acc[i] == PressureGradient(p[i], rho[i], nbrs)
    ensures forall k :: 0 <= k < acc.Length && k != i ==> acc[k] == old(acc[k])
  {
    var rhoi: Positive := rho[i];
    var pi := p[i];
    ZeroAndAccumulateVecAt(acc, i, nbrs, PressureGradientTerm(pi, rhoi));
  }

  method MomentumEquationPressureGradientSymmetric(i: nat, acc: array<Vec3>, p: array<real>, rho: array<real>,
                                                   nbrs: seq<Neighbour>)
    requires i < acc.Length == p.Length == rho.Length
    requires rho[i] > 0.0
    modifies acc
    ensures acc[i] == SymmetricPressureGradient(p[i], rho[i], nbrs)
    ensures forall k :: 0 <= k < acc.Length && k != i ==> acc[k] == old(acc[k])
  {
    var rhoi: Positive := rho[i];
    var pi := p[i];
    ZeroAndAccumulateVecAt(acc, i, nbrs, SymmetricPressureGradientTerm(pi, rhoi));
  }

  /* ---------------- EvaluateNumberDensity, VolumeSummationBand ---------------- */

  function Weight(nb: Neighbour): real {
    nb.w
  }

  /** Sum of W_ij: the kernel-weighted partition of unity. */
  function NumberDensity(nbrs: seq<Neighbour>): real {
    SumOver(nbrs, Weight)
  }

  method EvaluateNumberDensity(i: nat, wij: array<real>, nbrs: seq<Neighbour>)
    requires i < wij.Length
    modifies wij
    ensures wij[i] == NumberDensity(nbrs)
    ensures forall k :: 0 <= k < wij.Length && k != i ==> wij[k] == old(wij[k])
  {
    wij[i] := 0.0;
    AccumulateAt(wij, i, nbrs, Weight);
  }

  /** VolumeSummationBand weights W_ij with the destination's own mass. */
  function BandTerm(mi: real): Neighbour -> real {
    (nb: Neighbour) => nb.w * mi
  }

  lemma BandDensityIsMassTimesNumberDensity(mi: real, nbrs: seq<Neighbour>)
    ensures SumOver(nbrs, BandTerm(mi)) == mi * NumberDensity(nbrs)
  {
    SumOverLinear(nbrs, BandTerm(mi), Weight, mi);
  }

  method VolumeSummationBand(i: nat, rhoband: array<real>, m: array<real>, nbrs: seq<Neighbour>)
    requires i < rhoband.Length == m.Length
    requires rhoband != m
    modifies rhoband
    ensures rhoband[i] == SumOver(nbrs, BandTerm(m[i]))
    ensures forall k :: 0 <= k < rhoband.Length && k != i ==> rhoband[k] == old(rhoband[k])
  {
    rhoband[i] := 0.0;
    AccumulateAt(rhoband, i, nbrs, BandTerm(m[i]));
  }

  /* ---------------- GTVFAcceleration ---------------- */

  /** p0 = min(10 |p|, pref): the capped reference pressure. */
  function CappedReferencePressure(p: real, pref: real): (p0: real)
    ensures p0 <= pref && p0 <= 10.0 * Abs(p)
    ensures p0 == pref || p0 == 10.0 * Abs(p)
    ensures pref >= 0.0 ==> p0 >= 0.0
  {
    Min(10.0 * Abs(p), pref)
  }

  /** -p0_i m_j / rho_i^2 grad W_ij(hij_fac * h_ij) */
  function TransportAt(p0: real, rhoi: Positive, nb: Neighbour): Vec3 {
    Scale(-p0 * nb.m / (rhoi * rhoi), nb.dwHat)
  }

  function TransportTerm(p0: real, rhoi: Positive): Neighbour -> Vec3 {
    (nb: Neighbour) => TransportAt(p0, rhoi, nb)
  }

  function TransportAcceleration(p0: real, rhoi: Positive, nbrs: seq<Neighbour>): Vec3 {
    VecSumOver(nbrs, TransportTerm(p0, rhoi))
  }

  /** With a vanishing reference pressure there is no transport-velocity
      correction. */
  lemma NoTransportCorrectionAtZeroPressure(p: real, pref: real, rhoi: Positive, nbrs: seq<Neighbour>)
    requires p == 0.0 && pref >= 0.0
    ensures TransportAcceleration(CappedReferencePressure(p, pref), rhoi, nbrs) == Zero
  {
    var f := TransportTerm(CappedReferencePressure(p, pref), rhoi);
    assert CappedReferencePressure(p, pref) == 0.0;
    forall nb | nb in nbrs
      ensures f(nb) == Zero
    {
      assert f(nb) == TransportAt(0.0, rhoi, nb);
      assert -0.0 * nb.m / (rhoi * rhoi) == 0.0;
    }
    VecSumOverZero(nbrs, f);
  }

  /** GTVFAcceleration: initialize zeroes auhat and sets p0; loop adds the
      transport-velocity correction of every neighbour. */
  method GTVFAcceleration(i: nat, auhat: array<Vec3>, p0: array<real>, p: array<real>, rho: array<real>,
                          nbrs: seq<Neighbour>, pref: real)
    requires i < auhat.Length == p0.Length == p.Length == rho.Length
    requires p0 != p && p0 != rho
    requires rho[i] > 0.0
    modifies auhat, p0
    ensures p0[i] == CappedReferencePressure(old(p[i]), pref)
    ensures auhat[i] == TransportAcceleration(p0[i], old(rho[i]), nbrs)
    ensures forall k :: 0 <= k < auhat.Length && k != i ==> auhat[k] == old(auhat[k]) && p0[k] == old(p0[k])
  {
    var rhoi: Positive := rho[i];
    var p0i := Min(10.0 * Abs(p[i]), pref);
    p0[i] := p0i;
    ZeroAndAccumulateVecAt(auhat, i, nbrs, TransportTerm(p0i, rhoi));
  }
}
