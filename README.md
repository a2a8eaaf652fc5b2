# ISPH pressure projection in Dafny

This project models the core of PySPH's incompressible SPH scheme
(`pysph/sph/isph.py`) and proves properties of that model. The scheme makes
each time step incompressible in three parts:

- a pressure Poisson equation assembled from neighbour sums;
- a damped Jacobi relaxation of that equation, iterated until a convergence
  flag is set;
- a two-stage predictor-corrector integrator that moves the particles.

Every equation acts on one destination particle at a time. In most
equations `initialize` zeroes an accumulator, `loop` adds one term per
neighbour, and `post_loop` finishes the value; some have only one of these
phases (`MomentumEquationBodyForce` only `post_loop`, `UpdateGhostPressure`
only `initialize`).

- The neighbours of a particle are a sequence of `Neighbour` records
  (`neighbours.dfy`). Each record holds the source particle's properties
  (`m`, `rho`, `p`, `pk`, wall velocity) and the kernel data the framework
  passes in (`WIJ`, `DWIJ`, `XIJ`, `VIJ`, `R2IJ`, and the gradient at
  `hij_fac*HIJ`). The values are those the neighbour has when the
  group starts (see "## Left out").
- Each equation is a method over the particle arrays that changes index `i`
  and nothing else. Its `loop` is `Sums.AccumulateAt`, or for the two
  pressure gradients and `GTVFAcceleration` the vector loop
  `Sums.ZeroAndAccumulateVecAt`; each is proved equal to a left fold
  (`SumOver`, `VecSumOver`) over the neighbours. The lemmas about each
  equation are stated on that fold.

The files:

- `vectors.dfy` defines the `(x, y, z)` triples that PySPH stores as three
  separate properties.
- `sums.dfy` holds the neighbour fold, its algebra (append, permutation,
  linearity, sign) and the accumulation loops.
- `equations.dfy` covers:
  - velocity divergence, fluid and solid;
  - density invariance;
  - the PPE coefficients;
  - body force;
  - the two pressure-gradient forms;
  - number density and the band volume;
  - the GTVF transport acceleration.
- `ppe.dfy` holds `PPESolve`: the point update, `reduce`, `converged`, and a
  whole sweep over one particle array.
- `boundary.dfy` holds `SetPressureSolid` together with
  `EvaluateNumberDensity`, as the pressure boundary group.
- `ghosts.dfy` holds `UpdateGhostPressure`, and a sweep over an array in
  index order.
- `integrator.dfy` holds `ISPHStep`, `ISPHDIStep` and `ISPHGTVFStep`, plus
  the kinematics of one whole step.
- `scheme.dfy` holds the configurator: the stepper choice, the
  boundary-condition groups, the viscous and PPE groups, and the two stages
  of `get_equations`.

Three behaviours of the code that are easy to misread:

- The convergence ratio divides `mean(pdiff)` by `abs(mean(abs(p)))`. For an
  empty array numpy gives NaN, and the flag is -1. For an array whose
  pressures are all zero the division gives -inf, NaN or +inf as
  `mean(pdiff)` is negative, zero or positive, and only -inf passes the
  test. Since `post_loop` writes only sizes of change, such a field never
  counts as converged (`ZeroPressureNeverConverges`).
- When the number density is at most `1e-14`, the wall pressure keeps the
  accumulated, unnormalised sum. It is not reset to zero. It is zero when
  there are no neighbours, or when every neighbour has zero weight.
- The free-surface test uses `V*m/rho0` as the relative density, not the
  particle's `rho`.

## Model

| member | source | states |
|---|---|---|
| Sums.AccumulateAt | pysph/sph/isph.py:175-178 | the neighbour loop adds the left fold of the per-neighbour term to `a[i]`; every other entry is unchanged |
| Sums.ZeroAndAccumulateVecAt | pysph/sph/isph.py:264-277 | initialize zeroes the vector accumulator, then the loop leaves the vector fold of the terms at index i only |
| Sums.SumOverPermutation | pysph/sph/isph.py:302-303 | a neighbour sum does not depend on the order in which the neighbours are visited |
| Sums.SumOverLinear | pysph/sph/isph.py:216-217 | a sum of terms each c times another term is c times that sum |
| Equations.VelocityDivergence | pysph/sph/isph.py:170-178 | rhs[i] becomes the sum of -V_j (v_ij . grad W_ij)/dt and pk[i] takes p[i]; nothing else changes |
| Equations.UniformFlowHasNoDivergence | pysph/sph/isph.py:175-178 | without relative velocity the divergence source is zero |
| Equations.VelocityDivergenceSolid | pysph/sph/isph.py:181-189 | adds the divergence against the wall velocities to the rhs already accumulated |
| Equations.SolidDivergenceIsDivergenceAgainstWallVelocity | pysph/sph/isph.py:184-189 | the solid form equals the fluid form with the neighbour's velocity replaced by its wall velocity |
| Equations.DensityInvarianceSource | pysph/sph/isph.py:197-199 | (rho0 - rho)/(dt^2 rho0) is zero exactly at the reference density and positive exactly below it |
| Equations.DensityInvariance | pysph/sph/isph.py:192-199 | rhs[i] becomes the density-invariance source of rho[i]; nothing else changes |
| Equations.PressureCoeffMatrixIterative | pysph/sph/isph.py:202-217 | diag[i] and odiag[i] become the sums of the coefficient and of minus the coefficient times pk_j |
| Equations.OdiagOfUniformPressure | pysph/sph/isph.py:214-217 | with every pk_j equal to c, odiag is -c times diag |
| Equations.DiagNonPositive | pysph/sph/isph.py:209-216 | non-negative masses and x_ij . grad W_ij <= 0 make diag non-positive |
| Equations.MomentumEquationBodyForce | pysph/sph/isph.py:164-167 | adds gravity to the acceleration of particle i only |
| Equations.MomentumEquationPressureGradient | pysph/sph/isph.py:263-277 | the acceleration becomes the sum of -V_j (p_j - p_i)/rho_i grad W_ij |
| Equations.UniformPressureExertsNoForce | pysph/sph/isph.py:271-277 | the difference form gives zero force in a uniform pressure field |
| Equations.MomentumEquationPressureGradientSymmetric | pysph/sph/isph.py:280-295 | the acceleration becomes the sum of -m_j (p_i/rho_i^2 + p_j/rho_j^2) grad W_ij |
| Equations.SymmetricPairForcesCancel | pysph/sph/isph.py:288-295 | with an antisymmetric kernel gradient, the symmetric forces of a pair on each other add to zero |
| Equations.NonSymmetricPairForcesDoNotCancel | pysph/sph/isph.py:271-277 | for a concrete pair at pressures 1 and 0, the difference-form forces leave a net force |
| Equations.EvaluateNumberDensity | pysph/sph/isph.py:298-303 | wij[i] becomes the sum of the kernel values |
| Equations.BandDensityIsMassTimesNumberDensity | pysph/sph/isph.py:310-311 | the band volume sum is the particle's mass times its number density |
| Equations.VolumeSummationBand | pysph/sph/isph.py:306-311 | rhoband[i] becomes the sum of W_ij m_i; nothing else changes |
| Equations.CappedReferencePressure | pysph/sph/isph.py:359 | p0 = min(10 abs(p), pref) is at most both bounds, equals one of them, and is non-negative for pref >= 0 |
| Equations.GTVFAcceleration | pysph/sph/isph.py:352-372 | p0[i] is the capped reference pressure and auhat[i] the sum of -p0 m_j/rho_i^2 times the gradient at hij_fac*h |
| Equations.NoTransportCorrectionAtZeroPressure | pysph/sph/isph.py:357-372 | at zero pressure there is no transport acceleration |
| PressurePoisson.JacobiValue | pysph/sph/isph.py:237 | (rhs - odiag)/diag solves the particle's row diag*p + odiag == rhs |
| PressurePoisson.PointUpdate | pysph/sph/isph.py:232-238 | below the cutoff the pressure is 0; otherwise it moves from pk the fraction omega of the way to the Jacobi value, so omega 0 keeps pk and omega 1 gives the Jacobi value |
| PressurePoisson.JacobiFixedPoint | pysph/sph/isph.py:236-238 | an iterate that already solves its row is kept for every omega |
| PressurePoisson.UniformPressureIsFixedPoint | pysph/sph/isph.py:207-238 | a uniform pressure with a zero source is a fixed point of assembly plus update |
| PressurePoisson.UniformPressureKeptIff | pysph/sph/isph.py:207-238 | above the density cutoff, with omega and diag non-zero, the update keeps a uniform pressure exactly when the source is zero |
| PressurePoisson.ConvergenceFlag | pysph/sph/isph.py:244-248 | the flag is always 1 or -1; an empty array gives -1, and an all-zero field gives 1 exactly when sum(pdiff) < 0 (the -inf case) |
| PressurePoisson.SumOfAbsZeroIff | pysph/sph/isph.py:246 | the sum of abs(p) is zero exactly when every pressure is zero |
| PressurePoisson.ConvergedIff | pysph/sph/isph.py:244-248 | the flag is 1 exactly when the array is non-empty and sum(pdiff) < tolerance * sum(abs(p)) |
| PressurePoisson.ZeroPressureNeverConverges | pysph/sph/isph.py:245-248 | an all-zero pressure field gives the flag -1 when every pdiff is non-negative, as post_loop writes it |
| PressurePoisson.StationaryIterateConverges | pysph/sph/isph.py:245-248 | a sweep that changes no pressure of a non-zero field converges for a positive tolerance |
| PressurePoisson.PPESolve.constructor | pysph/sph/isph.py:221-228 | stores the parameters and starts with conv 0 |
| PressurePoisson.PPESolve.PostLoop | pysph/sph/isph.py:230-242 | p[i] is the point update, pk[i] equals p[i], pdiff[i] is abs(p[i] - old pk[i]) >= 0; other indices are unchanged |
| PressurePoisson.PPESolve.Reduce | pysph/sph/isph.py:244-248 | conv becomes the convergence flag of the whole pdiff and p arrays |
| PressurePoisson.PPESolve.Converged | pysph/sph/isph.py:250-251 | returns the stored flag, which is 0, 1 or -1 |
| PressurePoisson.PPESolve.Sweep | pysph/sph/isph.py:230-248 | after post_loop on every local (tag 0) particle and reduce over the whole array, every local p[k] is its point update from the old pk, pk equals p and pdiff is the size of the change; every other particle keeps p, pk and pdiff; conv is the flag of the whole arrays |
| Boundary.NormalizeWallPressure | pysph/sph/isph.py:338-344 | non-negative with hg_correction; keeps the unnormalised sum when wij <= 1e-14; zero for a zero sum |
| Boundary.SetPressureSolid | pysph/sph/isph.py:323-344 | p[i] is the normalised sum of (p_j + rho_j (g - a_wall).x_ij) W_ij, and pk[i] equals p[i] |
| Boundary.PressureBoundary | pysph/sph/isph.py:298-344 | over a solid array, wij holds the number density, p the extrapolated pressure (non-negative with hg_correction), and pk equals p |
| Boundary.ExtrapolatedPressure | pysph/sph/isph.py:323-344 | the pressure the group gives a wall particle is non-negative with hg_correction and 0 without fluid neighbours |
| Boundary.NoWeightNoPressure | pysph/sph/isph.py:336-341 | neighbours with zero kernel weight leave the wall pressure at 0 |
| Boundary.UniformPressureIsExtrapolated | pysph/sph/isph.py:332-343 | a wall with a_wall == g in a uniform pressure c gets c, clamped at 0 with hg_correction |
| Ghosts.MirrorUpTo | pysph/sph/isph.py:254-260 | the values after initialize has run on particles 0 .. k-1 in index order; the particles not yet visited keep their values |
| Ghosts.MirrorAll | pysph/sph/isph.py:257-260 | ghosts take their mirror's value and every other particle keeps its own |
| Ghosts.MirrorKeepsRealParticles | pysph/sph/isph.py:257 | particles whose tag is not 2 are unchanged by the sweep |
| Ghosts.SweepOrderIrrelevantWithoutChains | pysph/sph/isph.py:254-260 | when no gid points at a ghost, the in-order sweep equals the order-free mirror |
| Ghosts.ChainedGhostSeesNewValue | pysph/sph/isph.py:257-260 | with a ghost that mirrors an earlier ghost, the in-order sweep differs from the order-free mirror |
| Ghosts.UpdateGhostPressure | pysph/sph/isph.py:254-260 | a ghost's p and pk become those of gid; any other particle leaves both arrays unchanged |
| Ghosts.UpdateGhostPressures | pysph/sph/isph.py:254-260 | after the group p and pk are the in-order mirror of their old values |
| Kinematics.AtRestStaysAtRest | pysph/sph/isph.py:55-96 | zero velocity and zero accelerations leave position and velocity unchanged |
| Kinematics.StepResult | pysph/sph/isph.py:55-96 | after initialize, stage1 and stage2 the velocity is u + dt (a1 + a2) and the position x + dt u + dt^2/2 (a1 + a2) |
| Kinematics.GTVFStepResult | pysph/sph/isph.py:111-154 | under ISPHGTVFStep the velocity is u + dt (a1 + a2) and the position x + dt/2 (u + uhat) + dt^2/2 (a1 + a2 + ahat2) |
| Kinematics.GTVFWithoutTransportIsPlainStep | pysph/sph/isph.py:111-154 | without transport acceleration and with uhat == u, the GTVF step moves a particle as ISPHStep does |
| Kinematics.ForceTimestep | pysph/sph/isph.py:91-96 | dt_force = 2 abs((u - u0)/dt)^2 is non-negative, and zero exactly when u == u0 |
| ISPHStepper.Initialize | pysph/sph/isph.py:56-64 | x0[i] and u0[i] take x[i] and u[i] |
| ISPHStepper.Stage1 | pysph/sph/isph.py:66-73 | x moves with the old velocity, then u takes dt au |
| ISPHStepper.Stage2 | pysph/sph/isph.py:76-96 | u takes dt au, x = x0 + dt/2 (u + u0), and dt_force is set and non-negative |
| ISPHStepper.Timestep | pysph/sph/isph.py:55-96 | initialize, stage1 and stage2 with accelerations a1 and a2 give the step's kinematics at index i; x0 and u0 hold the start values, au holds a2, dt_force is the force estimate of the step, and every other index of every array is unchanged |
| ISPHDIStepper.Stage1 | pysph/sph/isph.py:100-108 | u takes dt au first, then x moves with the new velocity |
| ISPHDIStepper.PredictorDiffers | pysph/sph/isph.py:100-108 | the DI predictor position differs from ISPHStep's by dt^2 a1 |
| ISPHDIStepper.Timestep | pysph/sph/isph.py:99-108 | with the same accelerations, a DI step ends where an ISPHStep step ends, with the same x0, u0, au and dt_force, and every other index unchanged |
| ISPHGTVFStepper.Initialize | pysph/sph/isph.py:112-125 | x0, u0 and uhat0 take x, u and uhat at index i |
| ISPHGTVFStepper.Stage1 | pysph/sph/isph.py:127-135 | x moves with uhat, and u takes dt au |
| ISPHGTVFStepper.Stage2 | pysph/sph/isph.py:137-154 | u takes dt au, uhat = u + dt auhat, and x = x0 + dt/2 (uhat + uhat0) |
| ISPHGTVFStepper.Timestep | pysph/sph/isph.py:111-154 | the three phases give the GTVF step kinematics at index i; x0, u0 and uhat0 hold the start values, uhat is the new velocity plus dt ahat2, au and auhat hold a2 and ahat2, and every other index is unchanged |
| Scheme.StepperFor | pysph/sph/isph.py:454-458 | GTVF gets ISPHGTVFStep even for the DI variant, DI alone gets ISPHDIStep, and any other variant gets ISPHStep |
| Scheme.Steppers | pysph/sph/isph.py:460-462 | the extra steppers are kept, and every fluid without one gets the scheme's stepper |
| Scheme.VelocityBC | pysph/sph/isph.py:485-499 | one wall-velocity equation per solid and inviscid solid, in order, with the fluids as sources: SetWallVelocity for each solid, then NoSlipVelocityExtrapolation for each inviscid solid |
| Scheme.PressureBC | pysph/sph/isph.py:501-518 | present exactly when there are solids; for each solid, its number density comes right before its pressure |
| Scheme.Pairs | pysph/sph/isph.py:628-636 | two equations per destination, the first kind at 2k and the second at 2k+1 |
| Scheme.ViscousFor | pysph/sph/isph.py:539-573 | a fluid's momentum equations act on it, start with MomentumEquationViscosity for the DI variants and LaminarViscosity otherwise, and include the body force exactly when gravity is non-zero |
| Scheme.ViscousGroups | pysph/sph/isph.py:520-574 | for the DI variants a non-real density summation group over the fluids comes first; the momentum group is last |
| Scheme.MomentumActsOnFluids | pysph/sph/isph.py:539-573 | every momentum equation of the first stage acts on a fluid |
| Scheme.BodyForceIffGravity | pysph/sph/isph.py:556-561 | a fluid gets the body force exactly when gravity is non-zero |
| Scheme.ViscousActsOnFluids | pysph/sph/isph.py:520-574 | every group of the viscous stage is a plain group acting on fluids |
| Scheme.SourceFor | pysph/sph/isph.py:593-605 | a fluid's source-term equations act on it; DensityInvariance exactly for the DI variant, otherwise VolumeSummation then VelocityDivergence, and the solid divergence exactly when there are solids |
| Scheme.SourceGroup | pysph/sph/isph.py:592-606 | a real group holding every source-term equation of every fluid and nothing else: each of its equations acts on a fluid and is one of that fluid's source terms |
| Scheme.SolverGroups | pysph/sph/isph.py:608-637 | the iterated groups: the ghost mirror first with ghosts, the pressure BC with solids, the solve group last |
| Scheme.PPEGroups | pysph/sph/isph.py:576-655 | density summation for the DI variants, the source-term group `SourceGroup`, the solver groups iterated at most 100 and at least 2 times, and with ghosts the mirror group once more; every other group is a plain group |
| Scheme.PPEOrder | pysph/sph/isph.py:608-655 | the iterated block runs at most 100 and at least 2 sweeps and ends with the solve group; the pressure BC comes just before that group when there are solids; with ghosts, the mirror group is first in the block and repeated right after it |
| Scheme.PPEHasOneIteratedGroup | pysph/sph/isph.py:641-645 | the pressure stage has exactly one iterated group |
| Scheme.CoefficientsBeforeSolve | pysph/sph/isph.py:627-637 | each fluid's coefficients come right before its PPESolve |
| Scheme.GradientFor | pysph/sph/isph.py:695-709 | a fluid's pressure gradient (symmetric or difference form as configured) from all arrays, followed by its GTVF acceleration exactly when GTVF is on |
| Scheme.GetEquations | pysph/sph/isph.py:657-711 | fails exactly when GTVF is on, pref is unset and there is a fluid |
| Scheme.StageOrder | pysph/sph/isph.py:657-711 | with solids, stage 1 is the velocity BC followed by the viscous groups, and stage 2 is the velocity BC, the whole pressure stage, then pressure BC, velocity BC and the pressure-gradient group; without solids the stages are the viscous groups and the pressure stage followed by the gradient group |

## Left out

- Kernel evaluation and neighbour search are not modelled. `WIJ`, `DWIJ`, `XIJ`, `VIJ`, `R2IJ` and the `hij_fac*HIJ` gradient enter as fields of the neighbour records.
- Particle-array storage and setup (`get_particle_array_isph`, `setup_properties`) are not part of this model.
- Command-line options (`add_user_options`, `consume_user_options`), the default kernel, `integrator_cls`, and the construction of the `Solver` in `configure_solver` are not part of this model.
- The inlet/outlet manager is not part of this model. `fluid_with_io` is the list of fluids, and the manager's steppers and equation groups are absent.
- The equations that other PySPH modules define (`SetWallVelocity`, `SummationDensity`, `VolumeSummation`, the viscosity terms, and so on) appear only by name in the configurator. The parameters each equation is built with (`gx`, `nu`, `rho0`, `tolerance`, ...) are not recorded in `Scheme.Equation`.
- `PECIntegrator.one_timestep` and `initial_acceleration` only call framework methods (`compute_accelerations`, `update_domain`, `do_post_stage`).
  - `ISPHStepper.Timestep`, `ISPHDIStepper.Timestep` and `ISPHGTVFStepper.Timestep` take the two accelerations as parameters.
  - In a run, the second acceleration depends on the positions after stage1.
- The iteration driver of an iterated group, which repeats sweeps between `min_iterations` and `max_iterations` while `converged()` is not 1, belongs to the framework. The model records the bounds and proves what one sweep does (`PPESolve.Sweep`).
- `vmag` and `dt_cfl` in `stage2` use `sqrt`; they are not modelled.
- Floating-point rounding is not modelled: all arithmetic is over `real`. NaN and inf from `reduce` are modelled only through their effect on the flag.
- Parallel dispatch over particles is modelled as a sequential loop in index order.
- Densities and the reference density are positive (`Positive`), `dt` is non-zero (`NonZero`), and `diag` is non-zero for every particle at or above the free-surface cutoff (`PointUpdate`, `PPESolve.PostLoop`, `PPESolve.Sweep`). The source divides by each of them, and a zero would give inf or NaN.
- Neighbour records hold the values a neighbour has when its group starts. This is exact for a group with one destination array. In the solve group, the framework runs the equations one destination array at a time, so with several fluids a later fluid's coefficient loop reads `pk` values that an earlier fluid's `PPESolve.post_loop` has already written. The model does not capture that order between arrays.
- Boundary.PressureBoundary: it runs on every particle of the solid array. The real group skips particles that are not local (tag 0); solid arrays are assumed to hold none.
- `Ghosts.UpdateGhostPressure` requires every ghost's `gid` to lie inside the array. A `gid` outside the array is not modelled.
- `Equations.NonSymmetricPairForcesDoNotCancel`: stated for one concrete pair. The general formula for the net force is not proved.
- `PressurePoisson.PPESolve`: `conv` starts as the float `0.0` in the source and is an `int` here.
