/** The ISPH scheme's configurator: which stepper integrates the fluids, and
    the ordered groups of equations that the two stages of a time step
    evaluate. Everything here depends only on the scheme's options and the
    names of the particle arrays. */
module Scheme {
  import opened Vectors

  type Name = string

  datatype Option<T> = None | Some(value: T)

  datatype Result<T> = Success(value: T) | Failure(error: string)

  /** The scheme's options that the equation lists depend on. */
  datatype Config = Config(
    fluids: seq<Name>,
    solids: seq<Name>,
    inviscidSolids: seq<Name>,
    variant: string,       // "CR" (default), "DF", "DI" or "DFDI"
    nu: real,
    alpha: real,
    g: Vec3,
    hasGhosts: bool,
    pref: Option<real>,
    gtvf: bool,
    symmetric: bool)

  function AllSolids(cfg: Config): seq<Name> {
    cfg.solids + cfg.inviscidSolids
  }

  /** Every particle array: fluids, then solids, then inviscid solids. */
  function AllArrays(cfg: Config): seq<Name> {
    cfg.fluids + cfg.solids + cfg.inviscidSolids
  }

  /** The Python test variant.endswith('DI'). */
  predicate EndsWithDI(variant: string) {
    |variant| >= 2 && variant[|variant| - 2..] == "DI"
  }

  /* ---------------- Steppers ---------------- */

  datatype Stepper = ISPHStep | ISPHDIStep | ISPHGTVFStep

  /** configure_solver's choice of stepper class: GTVF wins over the DI
      variant, and every other variant gets ISPHStep. */
  function StepperFor(cfg: Config): (s: Stepper)
    ensures s == ISPHGTVFStep <==> cfg.gtvf
    ensures s == ISPHDIStep <==> !cfg.gtvf && cfg.variant == "DI"
    ensures s == ISPHStep <==> !cfg.gtvf && cfg.variant != "DI"
  {
    var base := if cfg.variant == "DI" then ISPHDIStep else ISPHStep;
    if cfg.gtvf then ISPHGTVFStep else base
  }

  /** The steppers handed to the integrator: the extra steppers, and the
      scheme's stepper for every fluid that has none among them. */
  function Steppers(fluids: seq<Name>, extra: map<Name, Stepper>, s: Stepper): (m: map<Name, Stepper>)
    ensures m.Keys == extra.Keys + set f | f in fluids
    ensures forall n :: n in extra ==> m[n] == extra[n]
    ensures forall f :: f in fluids && f !in extra ==> m[f] == s
  {
    if |fluids| == 0 then extra
    else
      var m := Steppers(fluids[1..], extra, s);
      assert forall f :: f in fluids ==> f == fluids[0] || f in fluids[1..];
      if fluids[0] in m then m else m[fluids[0] := s]
  }

  /* ---------------- Equations and groups ---------------- */

  /** The equations the groups hold. Those defined outside this scheme
      (SetWallVelocity, SummationDensity, the viscosity terms, ...) are
      kept only by name. */
  datatype Kind =
    | SetWallVelocity | NoSlipVelocityExtrapolation
    | SummationDensity | MomentumEquationViscosity | LaminarViscosity
    | MomentumEquationArtificialViscosity | MomentumEquationBodyForce
    | MomentumEquationArtificialStress | SolidWallNoSlipBC
    | DensityInvariance | VolumeSummation | VelocityDivergence | VelocityDivergenceSolid
    | UpdateGhostPressure | EvaluateNumberDensity | SetPressureSolid
    | PressureCoeffMatrixIterative | PPESolve
    | MomentumEquationPressureGradient | MomentumEquationPressureGradientSymmetric
    | GTVFAcceleration

  /** An equation with its destination array and its source arrays (None
      for an equation without sources). */
  datatype Equation = Equation(kind: Kind, dest: Name, sources: Option<seq<Name>>)

  datatype Group =
    | Group(equations: seq<Equation>, isReal: bool)
    | IterateGroup(groups: seq<Group>, maxIterations: nat, minIterations: nat)

  /** One equation of the given kind per destination, in order. */
  function Each(kind: Kind, dests: seq<Name>, sources: Option<seq<Name>>): (eqs: seq<Equation>)
    ensures |eqs| == |dests|
    ensures forall k :: 0 <= k < |dests| ==> eqs[k] == Equation(kind, dests[k], sources)
  {
    seq(|dests|, k requires 0 <= k < |dests| => Equation(kind, dests[k], sources))
  }

  /** Two equations per destination, the first kind before the second. */
  function Pairs(first: Kind, second: Kind, dests: seq<Name>, sources: Option<seq<Name>>): (eqs: seq<Equation>)
    ensures |eqs| == 2 * |dests|
    ensures forall k :: 0 <= k < |dests| ==>
              eqs[2 * k] == Equation(first, dests[k], sources) &&
              eqs[2 * k + 1] == Equation(second, dests[k], sources)
  {
    if |dests| == 0 then []
    else
      var rest := Pairs(first, second, dests[1..], sources);
      assert forall k :: 1 <= k < |dests| ==> dests[k] == dests[1..][k - 1];
      [Equation(first, dests[0], sources), Equation(second, dests[0], sources)] + rest
  }

  /** The equations f gives each destination, concatenated in order. */
  function ForEach(dests: seq<Name>, f: Name -> seq<Equation>): seq<Equation> {
    if |dests| == 0 then [] else f(dests[0]) + ForEach(dests[1..], f)
  }

  /** Every equation ForEach lists comes from one of the destinations. */
  lemma {:induction false} ForEachMembers(dests: seq<Name>, f: Name -> seq<Equation>, e: Equation)
    ensures e in ForEach(dests, f) <==> exists k :: 0 <= k < |dests| && e in f(dests[k])
  {
    if |dests| > 0 {
      ForEachMembers(dests[1..], f, e);
      if e in f(dests[0]) {
        assert 0 < |dests| && e in f(dests[0]);
      }
      if exists k :: 1 <= k < |dests| && e in f(dests[k]) {
        var k :| 1 <= k < |dests| && e in f(dests[k]);
        assert dests[1..][k - 1] == dests[k];
      }
      if exists k :: 0 <= k < |dests[1..]| && e in f(dests[1..][k]) {
        var k :| 0 <= k < |dests[1..]| && e in f(dests[1..][k]);
        assert dests[k + 1] == dests[1..][k];
      }
    }
  }

  /* ---------------- Boundary conditions ---------------- */

  /** _get_velocity_bc: wall velocities of the solids, then the no-slip
      extrapolation on the inviscid solids, all from the fluids. */
  function VelocityBC(cfg: Config): (grp: Group)
    ensures grp.Group? && grp.isReal
    ensures |grp.equations| == |AllSolids(cfg)|
    ensures forall k :: 0 <= k < |grp.equations| ==>
              grp.equations[k].dest == AllSolids(cfg)[k] && grp.equations[k].sources == Some(cfg.fluids) &&
              grp.equations[k].kind == (if k < |cfg.solids| then SetWallVelocity else NoSlipVelocityExtrapolation)
  {
    Group(Each(SetWallVelocity, cfg.solids, Some(cfg.fluids)) +
          Each(NoSlipVelocityExtrapolation, cfg.inviscidSolids, Some(cfg.fluids)), true)
  }

  /** _get_pressure_bc: for every solid and inviscid solid, its number
      density and then its pressure, both from the fluids; no group at all
      when there is no solid. */
  function PressureBC(cfg: Config): (grp: Option<Group>)
    ensures grp.Some? <==> |AllSolids(cfg)| > 0
    ensures grp.Some? ==>
              (grp.value.Group? && grp.value.isReal &&
               |grp.value.equations| == 2 * |AllSolids(cfg)| &&
               forall k :: 0 <= k < |AllSolids(cfg)| ==>
                 grp.value.equations[2 * k] == Equation(EvaluateNumberDensity, AllSolids(cfg)[k], Some(cfg.fluids)) &&
                 grp.value.equations[2 * k + 1] == Equation(SetPressureSolid, AllSolids(cfg)[k], Some(cfg.fluids)))
  {
    var eqs := Pairs(EvaluateNumberDensity, SetPressureSolid, AllSolids(cfg), Some(cfg.fluids));
    if |eqs| > 0 then Some(Group(eqs, true)) else None
  }

  /* ---------------- Viscous stage ---------------- */

  /** The momentum equations of one fluid in the first stage: they all act
      on that fluid, start with its viscosity term, and include the body
      force exactly when gravity is set. */
  function ViscousFor(cfg: Config, fluid: Name): (eqs: seq<Equation>)
    ensures |eqs| > 0 && eqs[0].kind == (if EndsWithDI(cfg.variant) then MomentumEquationViscosity else LaminarViscosity)
    ensures forall e :: e in eqs ==> e.dest == fluid
    ensures Equation(MomentumEquationBodyForce, fluid, None) in eqs <==> cfg.g != Zero
  {
    var viscous := if EndsWithDI(cfg.variant) then [Equation(MomentumEquationViscosity, fluid, Some(AllArrays(cfg)))]
                   else [Equation(LaminarViscosity, fluid, Some(cfg.fluids))];
    var artificial := if cfg.alpha > 0.0 then [Equation(MomentumEquationArtificialViscosity, fluid, Some(cfg.fluids))] else [];
    var gravity := if cfg.g != Zero then [Equation(MomentumEquationBodyForce, fluid, None)] else [];
    var stress := if cfg.gtvf then [Equation(MomentumEquationArtificialStress, fluid, Some(cfg.fluids))] else [];
    var wall := if |cfg.solids| > 0 && cfg.nu > 0.0 then [Equation(SolidWallNoSlipBC, fluid, Some(cfg.solids))] else [];
    assert Equation(MomentumEquationBodyForce, fluid, None) in viscous + artificial + gravity + stress + wall
           <==> Equation(MomentumEquationBodyForce, fluid, None) in gravity;
    viscous + artificial + gravity + stress + wall
  }

  function MomentumGroup(cfg: Config): Group {
    Group(ForEach(cfg.fluids, (fluid: Name) => ViscousFor(cfg, fluid)), true)
  }

  /** When f gives every destination equations acting on it, every equation
      ForEach lists acts on one of the destinations and is one of the
      equations f gives that destination. */
  lemma ForEachActsOnDests(dests: seq<Name>, f: Name -> seq<Equation>)
    requires forall d, e :: e in f(d) ==> e.dest == d
    ensures forall e :: e in ForEach(dests, f) ==> e.dest in dests && e in f(e.dest)
  {
    forall e | e in ForEach(dests, f)
      ensures e.dest in dests && e in f(e.dest)
    {
      ForEachMembers(dests, f, e);
      var k :| 0 <= k < |dests| && e in f(dests[k]);
    }
  }

  /** Every equation of every destination is listed. */
  lemma ForEachComplete(dests: seq<Name>, f: Name -> seq<Equation>)
    ensures forall d, e :: d in dests && e in f(d) ==> e in ForEach(dests, f)
  {
    forall d, e | d in dests && e in f(d)
      ensures e in ForEach(dests, f)
    {
      var k :| 0 <= k < |dests| && dests[k] == d;
      ForEachMembers(dests, f, e);
    }
  }

  /** _get_viscous_eqns: a non-real density summation group over the fluids
      for the DI variants, then the momentum group. */
  function ViscousGroups(cfg: Config): (gs: seq<Group>)
    ensures |gs| == (if EndsWithDI(cfg.variant) then 2 else 1)
    ensures Last(gs) == MomentumGroup(cfg)
    ensures EndsWithDI(cfg.variant) ==>
              gs[0].Group? && !gs[0].isReal && |gs[0].equations| == |cfg.fluids| &&
              forall k :: 0 <= k < |cfg.fluids| ==>
                gs[0].equations[k] == Equation(SummationDensity, cfg.fluids[k], Some(AllArrays(cfg)))
  {
    (if EndsWithDI(cfg.variant)
     then [Group(Each(SummationDensity, cfg.fluids, Some(AllArrays(cfg))), false)]
     else []) +
    [MomentumGroup(cfg)]
  }

  /** Every momentum equation of the first stage acts on a fluid. */
  lemma MomentumActsOnFluids(cfg: Config)
    ensures forall e :: e in MomentumGroup(cfg).equations ==> e.dest in cfg.fluids
  {
    ForEachActsOnDests(cfg.fluids, (fluid: Name) => ViscousFor(cfg, fluid));
  }

  /** A fluid gets the body force exactly when gravity is set. */
  lemma BodyForceIffGravity(cfg: Config, fluid: Name)
    requires fluid in cfg.fluids
    ensures cfg.g != Zero <==> Equation(MomentumEquationBodyForce, fluid, None) in MomentumGroup(cfg).equations
  {
    var f := (fluid: Name) => ViscousFor(cfg, fluid);
    var body := Equation(MomentumEquationBodyForce, fluid, None);
    ForEachMembers(cfg.fluids, f, body);
    var j :| 0 <= j < |cfg.fluids| && cfg.fluids[j] == fluid;
    assert body in f(cfg.fluids[j]) <==> cfg.g != Zero;
  }

  /** The whole first stage (after the wall velocities) acts on fluids. */
  lemma ViscousActsOnFluids(cfg: Config)
    ensures forall grp :: grp in ViscousGroups(cfg) ==>
              grp.Group? && forall e :: e in grp.equations ==> e.dest in cfg.fluids
  {
    MomentumActsOnFluids(cfg);
  }

  function Last<T>(s: seq<T>): T
    requires |s| > 0
  {
    s[|s| - 1]
  }

  /* ---------------- Pressure Poisson stage ---------------- */

  /** The source term of the pressure equation for one fluid: density
      invariance for the DI variant, otherwise the volume summation before
      the velocity divergence, with the solid divergence when there are
      solids. Every equation acts on the fluid. */
  function SourceFor(cfg: Config, fluid: Name): (eqs: seq<Equation>)
    ensures forall e :: e in eqs ==> e.dest == fluid
    ensures cfg.variant == "DI" <==> Equation(DensityInvariance, fluid, None) in eqs
    ensures cfg.variant != "DI" ==>
              |eqs| >= 2 && eqs[0].kind == VolumeSummation && eqs[1].kind == VelocityDivergence
    ensures Equation(VelocityDivergenceSolid, fluid, Some(cfg.solids)) in eqs <==>
            cfg.variant != "DI" && |cfg.solids| > 0
  {
    if cfg.variant == "DI" then [Equation(DensityInvariance, fluid, None)]
    else
      [Equation(VolumeSummation, fluid, Some(AllArrays(cfg))),
       Equation(VelocityDivergence, fluid, Some(cfg.fluids))] +
      (if |cfg.solids| > 0 then [Equation(VelocityDivergenceSolid, fluid, Some(cfg.solids))] else [])
  }

  /** The real group of every fluid's source terms: it holds each of them
      and nothing else. */
  function SourceGroup(cfg: Config): (grp: Group)
    ensures grp.Group? && grp.isReal
    ensures forall e :: e in grp.equations ==> e.dest in cfg.fluids && e in SourceFor(cfg, e.dest)
    ensures forall f, e :: f in cfg.fluids && e in SourceFor(cfg, f) ==> e in grp.equations
  {
    var source := (fluid: Name) => SourceFor(cfg, fluid);
    ForEachActsOnDests(cfg.fluids, source);
    ForEachComplete(cfg.fluids, source);
    assert forall f, e :: f in cfg.fluids && e in SourceFor(cfg, f) ==> e in source(f);
    Group(ForEach(cfg.fluids, source), true)
  }

  /** The ghost-mirroring group (a non-real group over the fluids). */
  function GhostGroup(cfg: Config): Group {
    Group(Each(UpdateGhostPressure, cfg.fluids, None), false)
  }

  /** The coefficient and relaxation group: for every fluid its matrix
      coefficients, then its pressure update. */
  function SolveGroup(cfg: Config): Group {
    Group(Pairs(PressureCoeffMatrixIterative, PPESolve, cfg.fluids, Some(AllArrays(cfg))), true)
  }

  /** The groups iterated until convergence: the ghost mirror first when
      there are ghosts, the pressure boundary condition when there are
      solids, and the solve group last. */
  function SolverGroups(cfg: Config): (gs: seq<Group>)
    ensures |gs| == (if cfg.hasGhosts then 1 else 0) + (if |AllSolids(cfg)| > 0 then 1 else 0) + 1
    ensures Last(gs) == SolveGroup(cfg)
    ensures cfg.hasGhosts ==> gs[0] == GhostGroup(cfg)
    ensures |AllSolids(cfg)| > 0 ==> gs[|gs| - 2] == PressureBC(cfg).value
  {
    (if cfg.hasGhosts then [GhostGroup(cfg)] else []) +
    (if |AllSolids(cfg)| > 0 then [PressureBC(cfg).value] else []) +
    [SolveGroup(cfg)]
  }

  /** _get_ppe: density summation for the DI variants, the real source-term
      group acting on the fluids, the solver groups iterated at most 100 and
      at least 2 times, and the ghost mirror once more after them. */
  function PPEGroups(cfg: Config): (gs: seq<Group>)
    ensures var j := if EndsWithDI(cfg.variant) then 2 else 1;
            |gs| == j + 1 + (if cfg.hasGhosts then 1 else 0) &&
            gs[j] == IterateGroup(SolverGroups(cfg), 100, 2) &&
            gs[j - 1] == SourceGroup(cfg)
    ensures var j := if EndsWithDI(cfg.variant) then 2 else 1;
            forall k :: 0 <= k < |gs| && k != j ==> gs[k].Group?
    ensures EndsWithDI(cfg.variant) ==> gs[0] == ViscousGroups(cfg)[0]
    ensures cfg.hasGhosts ==> Last(gs) == GhostGroup(cfg)
  {
    var density := if EndsWithDI(cfg.variant)
                   then [Group(Each(SummationDensity, cfg.fluids, Some(AllArrays(cfg))), false)]
                   else [];
    var mirror := if cfg.hasGhosts then [GhostGroup(cfg)] else [];
    var iterated := IterateGroup(SolverGroups(cfg), 100, 2);
    BlockShape(density, SourceGroup(cfg), iterated, mirror);
    density + [SourceGroup(cfg), iterated] + mirror
  }

  /** Where the pieces of lead + [a, b] + trail end up; when only b is
      iterated, so is only the element after lead. */
  lemma BlockShape(lead: seq<Group>, a: Group, b: Group, trail: seq<Group>)
    requires a.Group? && (forall k :: 0 <= k < |lead| ==> lead[k].Group?)
    requires forall k :: 0 <= k < |trail| ==> trail[k].Group?
    ensures var s := lead + [a, b] + trail;
            |s| == |lead| + 2 + |trail| && s[|lead|] == a && s[|lead| + 1] == b &&
            (|lead| > 0 ==> s[0] == lead[0]) &&
            (|trail| > 0 ==> s[|s| - 1] == trail[|trail| - 1]) &&
            (forall k :: 0 <= k < |s| && k != |lead| + 1 ==> s[k].Group?)
  {
    var s := lead + [a, b] + trail;
    forall k | 0 <= k < |s| && k != |lead| + 1
      ensures s[k].Group?
    {
      if k < |lead| {
        assert s[k] == lead[k];
      } else if k > |lead| + 1 {
        assert s[k] == trail[k - |lead| - 2];
      }
    }
  }

  /** Where the iterated block sits in the pressure stage and what it holds:
      the solve group last, the pressure boundary condition (when there
      are solids) just before it, the ghost mirror (when there are ghosts)
      first and again right after the block. */
  lemma PPEOrder(cfg: Config)
    ensures var stg := PPEGroups(cfg);
            var n := |stg|;
            var it := if cfg.hasGhosts then stg[n - 2] else stg[n - 1];
            n >= 2 &&
            it.IterateGroup? && it.maxIterations == 100 && it.minIterations == 2 &&
            |it.groups| > 0 && Last(it.groups) == SolveGroup(cfg) &&
            (|AllSolids(cfg)| > 0 ==> |it.groups| >= 2 && it.groups[|it.groups| - 2] == PressureBC(cfg).value) &&
            (cfg.hasGhosts ==> it.groups[0] == GhostGroup(cfg) && stg[n - 1] == GhostGroup(cfg)) &&
            |it.groups| == (if cfg.hasGhosts then 1 else 0) + (if |AllSolids(cfg)| > 0 then 1 else 0) + 1
  {
  }

  /** Exactly one group of the pressure stage is iterated. */
  lemma PPEHasOneIteratedGroup(cfg: Config)
    ensures |set k | 0 <= k < |PPEGroups(cfg)| && PPEGroups(cfg)[k].IterateGroup?| == 1
  {
    var stg := PPEGroups(cfg);
    var j := if EndsWithDI(cfg.variant) then 2 else 1;
    assert stg[j].IterateGroup?;
    assert (set k | 0 <= k < |stg| && stg[k].IterateGroup?) == {j};
  }

  /** The solve group updates every fluid's coefficients before its
      pressure. */
  lemma CoefficientsBeforeSolve(cfg: Config, k: nat)
    requires k < |cfg.fluids|
    ensures SolveGroup(cfg).equations[2 * k] == Equation(PressureCoeffMatrixIterative, cfg.fluids[k], Some(AllArrays(cfg)))
    ensures SolveGroup(cfg).equations[2 * k + 1] == Equation(PPESolve, cfg.fluids[k], Some(AllArrays(cfg)))
  {
  }

  /* ---------------- The two stages ---------------- */

  datatype Stages = Stages(stage1: seq<Group>, stage2: seq<Group>)

  /** The momentum group closing the second stage: each fluid's pressure
      gradient, followed by its GTVF transport acceleration. */
  function GradientFor(cfg: Config, fluid: Name): (eqs: seq<Equation>)
    ensures |eqs| == (if cfg.gtvf then 2 else 1)
    ensures eqs[0].kind == (if cfg.symmetric then MomentumEquationPressureGradientSymmetric
                            else MomentumEquationPressureGradient)
    ensures cfg.gtvf ==> eqs[1].kind == GTVFAcceleration
    ensures forall e :: e in eqs ==> e.dest == fluid && e.sources == Some(AllArrays(cfg))
  {
    var all := Some(AllArrays(cfg));
    [Equation(if cfg.symmetric then MomentumEquationPressureGradientSymmetric else MomentumEquationPressureGradient,
              fluid, all)] +
    (if cfg.gtvf then [Equation(GTVFAcceleration, fluid, all)] else [])
  }

  /** get_equations. GTVFAcceleration refuses a missing reference pressure,
      so the configuration fails when GTVF is on, pref is unset and there
      is a fluid to build that equation for. */
  function GetEquations(cfg: Config): (r: Result<Stages>)
    ensures r.Failure? <==> cfg.gtvf && cfg.pref.None? && |cfg.fluids| > 0
  {
    if cfg.gtvf && cfg.pref.None? && |cfg.fluids| > 0 then Failure("pref should not be None")
    else
      var solids := |AllSolids(cfg)| > 0;
      var stage1 := (if solids then [VelocityBC(cfg)] else []) + ViscousGroups(cfg);
      var stage2 := (if solids then [VelocityBC(cfg)] else []) + PPEGroups(cfg) +
                    (if solids then [PressureBC(cfg).value, VelocityBC(cfg)] else []) +
                    [Group(ForEach(cfg.fluids, (fluid: Name) => GradientFor(cfg, fluid)), true)];
      Success(Stages(stage1, stage2))
  }

  /** With solids, both stages start from the wall velocities; the second
      ends by recomputing the wall pressure and velocity from the converged
      solution and then applying the pressure gradient. */
  lemma StageOrder(cfg: Config)
    requires GetEquations(cfg).Success?
    ensures var st := GetEquations(cfg).value;
            var n := |st.stage2|;
            n >= 1 &&
            Last(st.stage2) == Group(ForEach(cfg.fluids, (fluid: Name) => GradientFor(cfg, fluid)), true) &&
            (|AllSolids(cfg)| > 0 ==>
               st.stage1 == [VelocityBC(cfg)] + ViscousGroups(cfg) &&
               st.stage2[0] == VelocityBC(cfg) && n >= 4 && st.stage2[1..n - 3] == PPEGroups(cfg) &&
               st.stage2[n - 3] == PressureBC(cfg).value && st.stage2[n - 2] == VelocityBC(cfg)) &&
            (|AllSolids(cfg)| == 0 ==> st.stage2[..n - 1] == PPEGroups(cfg) && st.stage1 == ViscousGroups(cfg))
  {
    var st := GetEquations(cfg).value;
    var solids := |AllSolids(cfg)| > 0;
    var grad := Group(ForEach(cfg.fluids, (fluid: Name) => GradientFor(cfg, fluid)), true);
    var lead := if solids then [VelocityBC(cfg)] else [];
    var tail := if solids then [PressureBC(cfg).value, VelocityBC(cfg)] else [];
    assert st.stage1 == lead + ViscousGroups(cfg);
    assert st.stage2 == lead + PPEGroups(cfg) + tail + [grad];
    GroupSequenceShape(lead, PPEGroups(cfg), tail, grad);
  }

  /** Where the pieces of lead + middle + tail + [last] end up. */
  lemma GroupSequenceShape(lead: seq<Group>, middle: seq<Group>, tail: seq<Group>, last: Group)
    ensures var s := lead + middle + tail + [last];
            var n := |s|;
            s[n - 1] == last && s[..n - 1] == lead + middle + tail &&
            (|lead| > 0 ==> s[0] == lead[0]) &&
            (|tail| == 2 ==> s[n - 3] == tail[0] && s[n - 2] == tail[1]) &&
            (|lead| == 1 && |tail| == 2 ==> s[1..n - 3] == middle)
  {
    var s := lead + middle + tail + [last];
    assert s == (lead + middle + tail) + [last];
    if |lead| == 1 && |tail| == 2 {
      assert s == lead + middle + (tail + [last]);
    }
  }
}
