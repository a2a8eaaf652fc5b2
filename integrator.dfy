/** What one predictor-corrector time step does to a particle's position and
    velocity under each stepper, given the accelerations that the two
    acceleration evaluations of the step produce. */
module Kinematics {
  import opened Vectors
  import opened Neighbours

  /** q + dt r: an explicit Euler update of q at rate r. */
  function Advance(q: Vec3, r: Vec3, dt: real): Vec3 {
    Add(q, Scale(dt, r))
  }

  /** x0 + dt/2 (v + v0): the trapezoidal position correction. */
  function Trapezoid(x0: Vec3, v: Vec3, v0: Vec3, dt: real): Vec3 {
    Add(x0, Scale(0.5 * dt, Add(v, v0)))
  }

  datatype Motion = Motion(x: Vec3, u: Vec3)

  /** Initialize, stage1 with acceleration a1, stage2 with acceleration a2
      under ISPHStep (and ISPHDIStep, whose stage2 is the same): the
      velocity after the step is u + dt (a1 + a2), and the position
      x + dt u + dt^2/2 (a1 + a2). */
  function StepResult(x: Vec3, u: Vec3, a1: Vec3, a2: Vec3, dt: real): (r: Motion)
    ensures r.u == Add(u, Scale(dt, Add(a1, a2)))
    ensures r.x == Add(Add(x, Scale(dt, u)), Scale(0.5 * dt * dt, Add(a1, a2)))
  {
    StepClosedForm(x, u, a1, a2, dt);
    Motion(Trapezoid(x, Advance(Advance(u, a1, dt), a2, dt), u, dt), Advance(Advance(u, a1, dt), a2, dt))
  }

  lemma StepResultUnfolds(x: Vec3, u: Vec3, a1: Vec3, a2: Vec3, dt: real)
    ensures StepResult(x, u, a1, a2, dt) ==
            Motion(Trapezoid(x, Advance(Advance(u, a1, dt), a2, dt), u, dt), Advance(Advance(u, a1, dt), a2, dt))
  {
  }

  lemma StepClosedForm(x: Vec3, u: Vec3, a1: Vec3, a2: Vec3, dt: real)
    ensures Advance(Advance(u, a1, dt), a2, dt) == Add(u, Scale(dt, Add(a1, a2)))
    ensures Trapezoid(x, Advance(Advance(u, a1, dt), a2, dt), u, dt) ==
            Add(Add(x, Scale(dt, u)), Scale(0.5 * dt * dt, Add(a1, a2)))
  {
    VelocityClosedForm(u, a1, a2, dt);
    PositionClosedForm(x, u, a1, a2, dt);
  }

  lemma VelocityClosedForm(u: Vec3, a1: Vec3, a2: Vec3, dt: real)
    ensures Advance(Advance(u, a1, dt), a2, dt) == Add(u, Scale(dt, Add(a1, a2)))
  {
    VelocityComponent(u.x, a1.x, a2.x, dt);
    VelocityComponent(u.y, a1.y, a2.y, dt);
    VelocityComponent(u.z, a1.z, a2.z, dt);
  }

  lemma PositionClosedForm(x: Vec3, u: Vec3, a1: Vec3, a2: Vec3, dt: real)
    ensures Trapezoid(x, Advance(Advance(u, a1, dt), a2, dt), u, dt) ==
            Add(Add(x, Scale(dt, u)), Scale(0.5 * dt * dt, Add(a1, a2)))
  {
    HalfStepComponent(x.x, u.x, a1.x, a2.x, dt);
    HalfStepComponent(x.y, u.y, a1.y, a2.y, dt);
    HalfStepComponent(x.z, u.z, a1.z, a2.z, dt);
  }

  lemma VelocityComponent(u: real, a1: real, a2: real, dt: real)
    ensures u + dt * a1 + dt * a2 == u + dt * (a1 + a2)
  {
  }

  lemma HalfStepComponent(x: real, u: real, a1: real, a2: real, dt: real)
    ensures x + 0.5 * dt * (u + dt * a1 + dt * a2 + u) == x + dt * u + 0.5 * dt * dt * (a1 + a2)
  {
  }

  /** The same under ISPHGTVFStep, which moves particles with the transport
      velocity uhat; ahat2 is the transport acceleration at stage2. The
      velocity ends as under ISPHStep; the position averages u and uhat and
      takes the transport acceleration into the dt^2/2 term. */
  function GTVFStepResult(x: Vec3, u: Vec3, uhat: Vec3, a1: Vec3, a2: Vec3, ahat2: Vec3, dt: real): (r: Motion)
    ensures r.u == Add(u, Scale(dt, Add(a1, a2)))
    ensures r.x == Add(Add(x, Scale(0.5 * dt, Add(u, uhat))), Scale(0.5 * dt * dt, Add(Add(a1, a2), ahat2)))
  {
    StepClosedForm(x, u, a1, a2, dt);
    TransportClosedForm(x, u, uhat, a1, a2, ahat2, dt);
    Motion(Trapezoid(x, Advance(Advance(Advance(u, a1, dt), a2, dt), ahat2, dt), uhat, dt),
           Advance(Advance(u, a1, dt), a2, dt))
  }

  lemma TransportClosedForm(x: Vec3, u: Vec3, uhat: Vec3, a1: Vec3, a2: Vec3, ahat2: Vec3, dt: real)
    ensures Trapezoid(x, Advance(Advance(Advance(u, a1, dt), a2, dt), ahat2, dt), uhat, dt) ==
            Add(Add(x, Scale(0.5 * dt, Add(u, uhat))), Scale(0.5 * dt * dt, Add(Add(a1, a2), ahat2)))
  {
    TransportStepComponent(x.x, u.x, uhat.x, a1.x, a2.x, ahat2.x, dt);
    TransportStepComponent(x.y, u.y, uhat.y, a1.y, a2.y, ahat2.y, dt);
    TransportStepComponent(x.z, u.z, uhat.z, a1.z, a2.z, ahat2.z, dt);
  }

  lemma TransportStepComponent(x: real, u: real, uh: real, a1: real, a2: real, h: real, dt: real)
    ensures x + 0.5 * dt * (u + dt * a1 + dt * a2 + dt * h + uh) ==
            x + 0.5 * dt * (u + uh) + 0.5 * dt * dt * (a1 + a2 + h)
  {
  }

  /** A particle at rest with no acceleration stays where it is. */
  lemma AtRestStaysAtRest(x: Vec3, dt: real)
    ensures StepResult(x, Zero, Zero, Zero, dt) == Motion(x, Zero)
  {
    ScaleOfZero(dt);
    ScaleOfZero(0.5 * dt * dt);
  }

  lemma ScaleOfZero(c: real)
    ensures Scale(c, Zero) == Zero
  {
  }

  /** With no transport acceleration and uhat == u at the start, the GTVF
      stepper moves a particle exactly as ISPHStep does. */
  lemma GTVFWithoutTransportIsPlainStep(x: Vec3, u: Vec3, a1: Vec3, a2: Vec3, dt: real)
    ensures GTVFStepResult(x, u, u, a1, a2, Zero, dt) == StepResult(x, u, a1, a2, dt)
  {
  }

  /** (u - u0) / dt componentwise: the mean acceleration over the step. */
  function MeanAcceleration(u: Vec3, u0: Vec3, dt: NonZero): Vec3 {
    Vec3((u.x - u0.x) / dt, (u.y - u0.y) / dt, (u.z - u0.z) / dt)
  }

  /** 2 |a|^2. */
  function TwiceSquaredNorm(a: Vec3): real {
    2.0 * (a.x * a.x + a.y * a.y + a.z * a.z)
  }

  /** 2 |(u - u0) / dt|^2, stored as dt_force for the time-step control:
      never negative, and zero exactly when the velocity did not change. */
  function ForceTimestep(u: Vec3, u0: Vec3, dt: NonZero): (f: real)
    ensures f >= 0.0
    ensures u != u0 ==> f > 0.0
    ensures u == u0 ==> f == 0.0
  {
    var a := MeanAcceleration(u, u0, dt);
    ForceSign(u, u0, dt);
    TwiceSquaredNorm(a)
  }

  lemma ForceSign(u: Vec3, u0: Vec3, dt: NonZero)
    ensures TwiceSquaredNorm(MeanAcceleration(u, u0, dt)) >= 0.0
    ensures u != u0 ==> TwiceSquaredNorm(MeanAcceleration(u, u0, dt)) > 0.0
    ensures u == u0 ==> TwiceSquaredNorm(MeanAcceleration(u, u0, dt)) == 0.0
  {
    QuotientNormSign(u.x - u0.x, u.y - u0.y, u.z - u0.z, dt);
  }

  lemma QuotientNormSign(dx: real, dy: real, dz: real, dt: real)
    requires dt != 0.0
    ensures 2.0 * ((dx / dt) * (dx / dt) + (dy / dt) * (dy / dt) + (dz / dt) * (dz / dt)) >= 0.0
    ensures dx != 0.0 || dy != 0.0 || dz != 0.0 ==>
              2.0 * ((dx / dt) * (dx / dt) + (dy / dt) * (dy / dt) + (dz / dt) * (dz / dt)) > 0.0
    ensures dx == 0.0 && dy == 0.0 && dz == 0.0 ==>
              2.0 * ((dx / dt) * (dx / dt) + (dy / dt) * (dy / dt) + (dz / dt) * (dz / dt)) == 0.0
  {
    QuotientSign(dx, dt);
    QuotientSign(dy, dt);
    QuotientSign(dz, dt);
    TwiceSquaredNormSign(dx / dt, dy / dt, dz / dt);
  }

  lemma TwiceSquaredNormSign(a: real, b: real, c: real)
    ensures 2.0 * (a * a + b * b + c * c) >= 0.0
    ensures a != 0.0 || b != 0.0 || c != 0.0 ==> 2.0 * (a * a + b * b + c * c) > 0.0
    ensures a == 0.0 && b == 0.0 && c == 0.0 ==> 2.0 * (a * a + b * b + c * c) == 0.0
  {
  }

  lemma QuotientSign(a: real, d: real)
    requires d != 0.0
    ensures a != 0.0 ==> a / d != 0.0
    ensures a == 0.0 ==> a / d == 0.0
  {
  }
}

module ISPHStepper {
  import opened Vectors
  import opened Neighbours
  import opened Kinematics

  method Initialize(i: nat, x: array<Vec3>, x0: array<Vec3>, u: array<Vec3>, u0: array<Vec3>)
    requires i < x.Length == x0.Length == u.Length == u0.Length
    requires x0 != x && x0 != u && u0 != x && u0 != u && x0 != u0
    modifies x0, u0
    ensures x0[..] == old(x0[..])[i := x[i]]
    ensures u0[..] == old(u0[..])[i := u[i]]
  {
    x0[i] := x[i];
    u0[i] := u[i];
  }

  method Stage1(i: nat, x: array<Vec3>, u: array<Vec3>, au: array<Vec3>, dt: real)
    requires i < x.Length == u.Length == au.Length
    requires x != u && au != x && au != u
    modifies x, u
    ensures x[..] == old(x[..])[i := Advance(old(x[i]), old(u[i]), dt)]
    ensures u[..] == old(u[..])[i := Advance(old(u[i]), au[i], dt)]
  {
    x[i] := Add(x[i], Scale(dt, u[i]));
    u[i] := Add(u[i], Scale(dt, au[i]));
  }

  method Stage2(i: nat, x: array<Vec3>, u: array<Vec3>, u0: array<Vec3>, x0: array<Vec3>,
                au: array<Vec3>, dtForce: array<real>, dt: NonZero)
    requires i < x.Length == u.Length == u0.Length == x0.Length == au.Length == dtForce.Length
    requires x != u && x != u0 && x != x0 && x != au
    requires u != u0 && u != x0 && u != au
    modifies x, u, dtForce
    ensures u[..] == old(u[..])[i := Advance(old(u[i]), au[i], dt)]
    ensures x[..] == old(x[..])[i := Trapezoid(x0[i], u[i], u0[i], dt)]
    ensures dtForce[..] == old(dtForce[..])[i := ForceTimestep(u[i], u0[i], dt)]
    ensures dtForce[i] >= 0.0
  {
    u[i] := Add(u[i], Scale(dt, au[i]));
    x[i] := Add(x0[i], Scale(0.5 * dt, Add(u[i], u0[i])));
    dtForce[i] := ForceTimestep(u[i], u0[i], dt);
  }

  /** One step of a particle: initialize, stage1 after the first acceleration
      evaluation wrote a1, stage2 after the second wrote a2. */
  method Timestep(i: nat, x: array<Vec3>, x0: array<Vec3>, u: array<Vec3>, u0: array<Vec3>,
                  au: array<Vec3>, dtForce: array<real>, a1: Vec3, a2: Vec3, dt: NonZero)
    requires i < x.Length == x0.Length == u.Length == u0.Length == au.Length == dtForce.Length
    requires x != x0 && x != u && x != u0 && x != au && x0 != u && x0 != u0 && x0 != au
    requires u != u0 && u != au && u0 != au
    modifies x, x0, u, u0, au, dtForce
    ensures Motion(x[i], u[i]) == StepResult(old(x[i]), old(u[i]), a1, a2, dt)
    ensures forall k :: 0 <= k < x.Length && k != i ==> x[k] == old(x[k]) && u[k] == old(u[k])
    ensures x0[..] == old(x0[..])[i := old(x[i])] && u0[..] == old(u0[..])[i := old(u[i])]
    ensures au[..] == old(au[..])[i := a2]
    ensures dtForce[..] == old(dtForce[..])[i := ForceTimestep(u[i], old(u[i]), dt)]
  {
    ghost var xs, us := x[i], u[i];
    Initialize(i, x, x0, u, u0);
    au[i] := a1;
    Stage1(i, x, u, au, dt);
    au[i] := a2;
    Stage2(i, x, u, u0, x0, au, dtForce, dt);
    assert u0[i] == us;
    StepResultUnfolds(xs, us, a1, a2, dt);
  }
}

/** ISPHDIStep: as ISPHStep, but stage1 updates the velocity first and moves
    the particle with the new velocity. */
module ISPHDIStepper {
  import opened Vectors
  import opened Neighbours
  import opened Kinematics
  import ISPHStepper

  method Stage1(i: nat, x: array<Vec3>, u: array<Vec3>, au: array<Vec3>, dt: real)
    requires i < x.Length == u.Length == au.Length
    requires x != u && au != x && au != u
    modifies x, u
    ensures u[..] == old(u[..])[i := Advance(old(u[i]), au[i], dt)]
    ensures x[..] == old(x[..])[i := Advance(old(x[i]), u[i], dt)]
  {
    u[i] := Add(u[i], Scale(dt, au[i]));
    x[i] := Add(x[i], Scale(dt, u[i]));
  }

  /** The stage1 position differs from ISPHStep's by dt^2 a1 ... */
  lemma PredictorDiffers(x: Vec3, u: Vec3, a1: Vec3, dt: real)
    ensures Advance(x, Advance(u, a1, dt), dt) == Add(Advance(x, u, dt), Scale(dt * dt, a1))
  {
    PredictorComponent(x.x, u.x, a1.x, dt);
    PredictorComponent(x.y, u.y, a1.y, dt);
    PredictorComponent(x.z, u.z, a1.z, dt);
  }

  lemma PredictorComponent(x: real, u: real, a: real, dt: real)
    ensures x + dt * (u + dt * a) == x + dt * u + dt * dt * a
  {
  }

  /** ... yet the corrector discards it: with the same accelerations the end
      of the step is that of ISPHStep. */
  method Timestep(i: nat, x: array<Vec3>, x0: array<Vec3>, u: array<Vec3>, u0: array<Vec3>,
                  au: array<Vec3>, dtForce: array<real>, a1: Vec3, a2: Vec3, dt: NonZero)
    requires i < x.Length == x0.Length == u.Length == u0.Length == au.Length == dtForce.Length
    requires x != x0 && x != u && x != u0 && x != au && x0 != u && x0 != u0 && x0 != au
    requires u != u0 && u != au && u0 != au
    modifies x, x0, u, u0, au, dtForce
    ensures Motion(x[i], u[i]) == StepResult(old(x[i]), old(u[i]), a1, a2, dt)
    ensures forall k :: 0 <= k < x.Length && k != i ==> x[k] == old(x[k]) && u[k] == old(u[k])
    ensures x0[..] == old(x0[..])[i := old(x[i])] && u0[..] == old(u0[..])[i := old(u[i])]
    ensures au[..] == old(au[..])[i := a2]
    ensures dtForce[..] == old(dtForce[..])[i := ForceTimestep(u[i], old(u[i]), dt)]
  {
    ghost var xs, us := x[i], u[i];
    ISPHStepper.Initialize(i, x, x0, u, u0);
    au[i] := a1;
    Stage1(i, x, u, au, dt);
    au[i] := a2;
    ISPHStepper.Stage2(i, x, u, u0, x0, au, dtForce, dt);
    assert u0[i] == us;
    StepResultUnfolds(xs, us, a1, a2, dt);
  }
}

/** ISPHGTVFStep: particles move with the transport velocity uhat, which
    stage2 recomputes from the new velocity and the transport acceleration
    auhat. */
module ISPHGTVFStepper {
  import opened Vectors
  import opened Kinematics

  method Initialize(i: nat, x: array<Vec3>, x0: array<Vec3>, u: array<Vec3>, u0: array<Vec3>,
                    uhat: array<Vec3>, uhat0: array<Vec3>)
    requires i < x.Length == x0.Length == u.Length == u0.Length == uhat.Length == uhat0.Length
    requires x0 != x && x0 != u && x0 != uhat && x0 != u0 && x0 != uhat0
    requires u0 != x && u0 != u && u0 != uhat && u0 != uhat0
    requires uhat0 != x && uhat0 != u && uhat0 != uhat
    modifies x0, u0, uhat0
    ensures x0[..] == old(x0[..])[i := x[i]]
    ensures u0[..] == old(u0[..])[i := u[i]]
    ensures uhat0[..] == old(uhat0[..])[i := uhat[i]]
  {
    x0[i] := x[i];
    u0[i] := u[i];
    uhat0[i] := uhat[i];
  }

  method Stage1(i: nat, x: array<Vec3>, u: array<Vec3>, au: array<Vec3>, uhat: array<Vec3>, dt: real)
    requires i < x.Length == u.Length == au.Length == uhat.Length
    requires x != u && x != au && x != uhat && u != au && u != uhat
    modifies x, u
    ensures x[..] == old(x[..])[i := Advance(old(x[i]), uhat[i], dt)]
    ensures u[..] == old(u[..])[i := Advance(old(u[i]), au[i], dt)]
  {
    x[i] := Add(x[i], Scale(dt, uhat[i]));
    u[i] := Add(u[i], Scale(dt, au[i]));
  }

  method Stage2(i: nat, x: array<Vec3>, u: array<Vec3>, x0: array<Vec3>, au: array<Vec3>,
                uhat: array<Vec3>, auhat: array<Vec3>, uhat0: array<Vec3>, dt: real)
    requires i < x.Length == u.Length == x0.Length == au.Length == uhat.Length == auhat.Length == uhat0.Length
    requires x != u && x != x0 && x != au && x != uhat && x != auhat && x != uhat0
    requires u != x0 && u != au && u != uhat && u != auhat && u != uhat0
    requires uhat != x0 && uhat != au && uhat != auhat && uhat != uhat0
    modifies x, u, uhat
    ensures u[..] == old(u[..])[i := Advance(old(u[i]), au[i], dt)]
    ensures uhat[..] == old(uhat[..])[i := Advance(u[i], auhat[i], dt)]
    ensures x[..] == old(x[..])[i := Trapezoid(x0[i], uhat[i], uhat0[i], dt)]
  {
    u[i] := Add(u[i], Scale(dt, au[i]));
    uhat[i] := Add(u[i], Scale(dt, auhat[i]));
    x[i] := Add(x0[i], Scale(0.5 * dt, Add(uhat[i], uhat0[i])));
  }

  /** One step of a particle; ahat2 is the transport acceleration that the
      second acceleration evaluation wrote. */
  method Timestep(i: nat, x: array<Vec3>, x0: array<Vec3>, u: array<Vec3>, u0: array<Vec3>,
                  uhat: array<Vec3>, uhat0: array<Vec3>, au: array<Vec3>, auhat: array<Vec3>,
                  a1: Vec3, a2: Vec3, ahat2: Vec3, dt: real)
    requires i < x.Length == x0.Length == u.Length == u0.Length == uhat.Length == uhat0.Length == au.Length == auhat.Length
    requires x != x0 && x != u && x != u0 && x != uhat && x != uhat0 && x != au && x != auhat
    requires x0 != u && x0 != u0 && x0 != uhat && x0 != uhat0 && x0 != au && x0 != auhat
    requires u != u0 && u != uhat && u != uhat0 && u != au && u != auhat
    requires u0 != uhat && u0 != uhat0 && u0 != au && u0 != auhat
    requires uhat != uhat0 && uhat != au && uhat != auhat
    requires uhat0 != au && uhat0 != auhat && au != auhat
    modifies x, x0, u, u0, uhat, uhat0, au, auhat
    ensures Motion(x[i], u[i]) == GTVFStepResult(old(x[i]), old(u[i]), old(uhat[i]), a1, a2, ahat2, dt)
    ensures forall k :: 0 <= k < x.Length && k != i ==> x[k] == old(x[k]) && u[k] == old(u[k])
    ensures x0[..] == old(x0[..])[i := old(x[i])] && u0[..] == old(u0[..])[i := old(u[i])]
    ensures uhat[..] == old(uhat[..])[i := Advance(u[i], ahat2, dt)]
    ensures uhat0[..] == old(uhat0[..])[i := old(uhat[i])]
    ensures au[..] == old(au[..])[i := a2] && auhat[..] == old(auhat[..])[i := ahat2]
  {
    Initialize(i, x, x0, u, u0, uhat, uhat0);
    au[i] := a1;
    Stage1(i, x, u, au, uhat, dt);
    au[i] := a2;
    auhat[i] := ahat2;
    Stage2(i, x, u, x0, au, uhat, auhat, uhat0, dt);
  }
}
