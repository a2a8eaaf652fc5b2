/** The pressure Poisson solve: PressureCoeffMatrixIterative builds the
    diagonal and off-diagonal parts of each particle's row, PPESolve relaxes
    the pressure with a damped Jacobi update (post_loop) and decides whether
    the iteration has converged (reduce, converged). */
module PressurePoisson {
  import opened Vectors
  import opened Sums
  import opened Neighbours
  import opened Equations

  /* ---------------- post_loop: the point update ---------------- */

  /** V m / rho0: the particle's density relative to the reference. */
  function RelativeDensity(vol: real, m: real, rho0: Positive): real {
    vol * m / rho0
  }

  /** (rhs - odiag) / diag: the value that solves the particle's row with the
      neighbours' previous iterates held fixed. */
  function JacobiValue(rhs: real, odiag: real, diag: NonZero): (pnew: real)
    ensures diag * pnew + odiag == rhs
  {
    RowSolved(rhs, odiag, diag);
    (rhs - odiag) / diag
  }

  lemma RowSolved(rhs: real, odiag: real, diag: real)
    requires diag != 0.0
    ensures diag * ((rhs - odiag) / diag) + odiag == rhs
  {
  }

  /** True where the free-surface cutoff applies: a particle whose relative
      density is below rho_cutoff gets zero pressure. */
  predicate BelowCutoff(relRho: real, rhoCutoff: real) {
    relRho < rhoCutoff
  }

  /** The new pressure of one particle: zero below the cutoff, otherwise
      omega times the Jacobi value plus (1 - omega) times the previous
      iterate. The division needs diag != 0 only where the cutoff does not
      apply. */
  function PointUpdate(relRho: real, rhoCutoff: real, omega: real,
                       rhs: real, odiag: real, diag: real, pkOld: real): (p: real)
    requires !BelowCutoff(relRho, rhoCutoff) ==> diag != 0.0
    ensures BelowCutoff(relRho, rhoCutoff) ==> p == 0.0
    ensures !BelowCutoff(relRho, rhoCutoff) && omega == 0.0 ==> p == pkOld
    ensures !BelowCutoff(relRho, rhoCutoff) && omega == 1.0 ==> p == JacobiValue(rhs, odiag, diag)
    ensures !BelowCutoff(relRho, rhoCutoff) ==> p - pkOld == omega * (JacobiValue(rhs, odiag, diag) - pkOld)
  {
    if BelowCutoff(relRho, rhoCutoff) then 0.0
    else
      DampedStep(omega, JacobiValue(rhs, odiag, diag), pkOld);
      omega * JacobiValue(rhs, odiag, diag) + (1.0 - omega) * pkOld
  }

  /** omega a + (1 - omega) b moves b the fraction omega of the way to a. */
  lemma DampedStep(omega: real, a: real, b: real)
    ensures omega * a + (1.0 - omega) * b - b == omega * (a - b)
  {
  }

  /** A previous iterate that already solves the row is kept, whatever the
      relaxation factor. */
  lemma JacobiFixedPoint(relRho: real, rhoCutoff: real, omega: real,
                         rhs: real, odiag: real, diag: real, pkOld: real)
    requires !BelowCutoff(relRho, rhoCutoff) && diag != 0.0
    requires diag * pkOld + odiag == rhs
    ensures PointUpdate(relRho, rhoCutoff, omega, rhs, odiag, diag, pkOld) == pkOld
  {
    SolutionIsUnique(rhs, odiag, diag, pkOld, JacobiValue(rhs, odiag, diag));
  }

  lemma SolutionIsUnique(rhs: real, odiag: real, diag: real, a: real, b: real)
    requires diag != 0.0
    requires diag * a + odiag == rhs && diag * b + odiag == rhs
    ensures a == b
  {
    assert diag * (a - b) == 0.0;
  }

  /** A uniform pressure c over the particle and its neighbours is kept by
      the update when the source term vanishes (a divergence-free velocity
      field or a particle at the reference density). */
  lemma UniformPressureIsFixedPoint(relRho: real, rhoCutoff: real, omega: real, rhs: real,
                                    rhoi: Positive, eps: Positive, nbrs: seq<Neighbour>, c: real)
    requires !BelowCutoff(relRho, rhoCutoff)
    requires Diag(rhoi, eps, nbrs) != 0.0
    requires forall nb :: nb in nbrs ==> nb.pk == c
    requires rhs == 0.0
    ensures PointUpdate(relRho, rhoCutoff, omega, rhs, Odiag(rhoi, eps, nbrs), Diag(rhoi, eps, nbrs), c) == c
  {
    OdiagOfUniformPressure(rhoi, eps, nbrs, c);
    UniformRowSolved(Diag(rhoi, eps, nbrs), c);
    JacobiFixedPoint(relRho, rhoCutoff, omega, rhs, Odiag(rhoi, eps, nbrs), Diag(rhoi, eps, nbrs), c);
  }

  /** For a relaxation factor other than 0 the converse holds too: a
      uniform pressure is kept only when the source term vanishes. */
  lemma UniformPressureKeptIff(relRho: real, rhoCutoff: real, omega: real, rhs: real,
                               rhoi: Positive, eps: Positive, nbrs: seq<Neighbour>, c: real)
    requires !BelowCutoff(relRho, rhoCutoff) && omega != 0.0
    requires Diag(rhoi, eps, nbrs) != 0.0
    requires forall nb :: nb in nbrs ==> nb.pk == c
    ensures PointUpdate(relRho, rhoCutoff, omega, rhs, Odiag(rhoi, eps, nbrs), Diag(rhoi, eps, nbrs), c) == c
            <==> rhs == 0.0
  {
    var d := Diag(rhoi, eps, nbrs);
    var o := Odiag(rhoi, eps, nbrs);
    OdiagOfUniformPressure(rhoi, eps, nbrs, c);
    KeptIffNoSource(omega, d, JacobiValue(rhs, o, d), c, rhs, o,
                    PointUpdate(relRho, rhoCutoff, omega, rhs, o, d, c));
  }

  lemma KeptIffNoSource(omega: real, d: real, jac: real, c: real, rhs: real, o: real, p: real)
    requires omega != 0.0 && d != 0.0
    requires d * jac + o == rhs && o == -c * d
    requires p - c == omega * (jac - c)
    ensures p == c <==> rhs == 0.0
  {
    assert rhs == d * (jac - c);
    NonZeroProduct(omega, jac - c);
    NonZeroProduct(d, jac - c);
  }

  lemma NonZeroProduct(a: real, b: real)
    ensures a != 0.0 && b != 0.0 ==> a * b != 0.0
    ensures b == 0.0 ==> a * b == 0.0
  {
  }

  lemma UniformRowSolved(d: real, c: real)
    ensures d * c + -c * d == 0.0
  {
  }

  /* ---------------- reduce and converged ---------------- */

  function Identity(x: real): real {
    x
  }

  /** mean(pdiff) / |mean(|p|)| for the sums s and a over n particles. */
  function MeanRatio(s: real, a: real, n: nat): real
    requires n > 0 && a != 0.0
  {
    (s / n as real) / Abs(a / n as real)
  }

  /** reduce's flag: 1 when mean(pdiff) / |mean(|p|)| < tolerance, else -1.
      numpy returns NaN for the mean of an empty array, and dividing
      mean(pdiff) by a zero mean gives -inf, NaN or +inf as mean(pdiff) is
      negative, zero or positive; of these only -inf passes the comparison. */
  function ConvergenceFlag(pdiff: seq<real>, p: seq<real>, tolerance: real): (flag: int)
    requires |pdiff| == |p|
    ensures flag == 1 || flag == -1
  {
    if |p| == 0 then -1
    else if SumOver(p, Abs) == 0.0 then (if SumOver(pdiff, Identity) < 0.0 then 1 else -1)
    else if MeanRatio(SumOver(pdiff, Identity), SumOver(p, Abs), |p|) < tolerance then 1
    else -1
  }

  lemma {:induction false} SumOfAbsNonNegative(p: seq<real>)
    ensures SumOver(p, Abs) >= 0.0
  {
    SumOverNonNegative(p, Abs);
  }

  /** The sum of |p| vanishes exactly when every pressure does. */
  lemma {:induction false} SumOfAbsZeroIff(p: seq<real>)
    ensures SumOver(p, Abs) == 0.0 <==> forall k :: 0 <= k < |p| ==> p[k] == 0.0
    decreases |p|
  {
    if |p| > 0 {
      var q := p[..|p| - 1];
      SumOfAbsZeroIff(q);
      SumOfAbsNonNegative(q);
      if forall k :: 0 <= k < |p| ==> p[k] == 0.0 {
        assert forall k :: 0 <= k < |q| ==> q[k] == 0.0;
      } else if forall k :: 0 <= k < |q| ==> q[k] == 0.0 {
        assert p[|p| - 1] != 0.0;
      }
    }
  }

  /** sum(pdiff) < tolerance * sum(|p|): the total change is below the
      tolerance relative to the total pressure. */
  predicate RelativeChangeBelow(change: real, total: real, tolerance: real) {
    change < tolerance * total
  }

  /** Since both means divide by the particle count, the test is
      sum(pdiff) < tolerance * sum(|p|), which for an all-zero field is the
      -inf case sum(pdiff) < 0. */
  lemma ConvergedIff(pdiff: seq<real>, p: seq<real>, tolerance: real)
    requires |pdiff| == |p|
    ensures ConvergenceFlag(pdiff, p, tolerance) == 1 <==>
            |p| > 0 && RelativeChangeBelow(SumOver(pdiff, Identity), SumOver(p, Abs), tolerance)
  {
    if |p| > 0 {
      SumOfAbsNonNegative(p);
      if SumOver(p, Abs) == 0.0 {
        NothingBelowZeroTotal(SumOver(pdiff, Identity), tolerance);
      } else {
        MeanRatioIsSumRatio(SumOver(pdiff, Identity), SumOver(p, Abs), |p|, tolerance);
      }
    }
  }

  lemma NothingBelowZeroTotal(change: real, tolerance: real)
    ensures RelativeChangeBelow(change, 0.0, tolerance) <==> change < 0.0
  {
  }

  lemma MeanRatioIsSumRatio(s: real, a: real, n: nat, tolerance: real)
    requires a > 0.0 && n > 0
    ensures MeanRatio(s, a, n) < tolerance <==> RelativeChangeBelow(s, a, tolerance)
  {
    assert a / n as real > 0.0;
    assert (s / n as real) / (a / n as real) == s / a;
    assert s / a < tolerance <==> s < tolerance * a;
  }

  lemma NoChangeIsBelow(total: real, tolerance: real)
    requires total > 0.0 && tolerance > 0.0
    ensures RelativeChangeBelow(0.0, total, tolerance)
  {
  }

  /** A pressure field that is zero everywhere never converges when every
      pdiff is a size of change, as post_loop writes it. */
  lemma ZeroPressureNeverConverges(pdiff: seq<real>, p: seq<real>, tolerance: real)
    requires |pdiff| == |p|
    requires forall k :: 0 <= k < |p| ==> p[k] == 0.0
    requires forall k :: 0 <= k < |pdiff| ==> pdiff[k] >= 0.0
    ensures ConvergenceFlag(pdiff, p, tolerance) == -1
  {
    SumOfAbsZeroIff(p);
    SumOverNonNegative(pdiff, Identity);
  }

  /** An iteration that changed no pressure has converged, for a positive
      tolerance and a pressure field that is not zero everywhere. */
  lemma StationaryIterateConverges(pdiff: seq<real>, p: seq<real>, tolerance: real)
    requires |pdiff| == |p| && tolerance > 0.0
    requires forall k :: 0 <= k < |pdiff| ==> pdiff[k] == 0.0
    requires exists k :: 0 <= k < |p| && p[k] != 0.0
    ensures ConvergenceFlag(pdiff, p, tolerance) == 1
  {
    SumOfAbsZeroIff(p);
    SumOfAbsNonNegative(p);
    SumOverZero(pdiff, Identity);
    ConvergedIff(pdiff, p, tolerance);
    NoChangeIsBelow(SumOver(p, Abs), tolerance);
  }

  /* ---------------- the equation object ---------------- */

  /** Tag of a particle owned by this process. A real group runs its
      equations on these particles only. */
  const Local: int := 0

  /** PPESolve with its parameters and the convergence flag that reduce
      sets and converged returns. */
  class PPESolve {
    const rho0: Positive
    const rhoCutoff: real
    const omega: real
    const tolerance: real
    var conv: int

    /** The flag is 0 before the first reduce, then 1 or -1. */
    predicate Valid()
      reads this
    {
      conv == 0 || conv == 1 || conv == -1
    }

    constructor(rho0: Positive, rhoCutoff: real, omega: real, tolerance: real)
      ensures this.rho0 == rho0 && this.rhoCutoff == rhoCutoff
      ensures this.omega == omega && this.tolerance == tolerance
      ensures conv == 0 && Valid()
    {
      this.rho0 := rho0;
      this.rhoCutoff := rhoCutoff;
      this.omega := omega;
      this.tolerance := tolerance;
      conv := 0;
    }

    /** The cutoff test and the update for particle i, from the arrays. */
    function NewPressure(i: nat, vol: array<real>, m: array<real>, rhs: array<real>,
                         odiag: array<real>, diag: array<real>, pk: array<real>): real
      requires i < vol.Length == m.Length == rhs.Length == odiag.Length == diag.Length == pk.Length
      requires !BelowCutoff(RelativeDensity(vol[i], m[i], rho0), rhoCutoff) ==> diag[i] != 0.0
      reads vol, m, rhs, odiag, diag, pk
    {
      PointUpdate(RelativeDensity(vol[i], m[i], rho0), rhoCutoff, omega, rhs[i], odiag[i], diag[i], pk[i])
    }

    /** post_loop for particle i: p and pk take the new pressure, pdiff the
        size of the change. */
    method PostLoop(i: nat, p: array<real>, pk: array<real>, pdiff: array<real>,
                    rhs: array<real>, odiag: array<real>, diag: array<real>,
                    vol: array<real>, m: array<real>)
      requires i < p.Length == pk.Length == pdiff.Length == rhs.Length
      requires rhs.Length == odiag.Length == diag.Length == vol.Length == m.Length
      requires p != pk && p != pdiff && pk != pdiff
      requires !BelowCutoff(RelativeDensity(vol[i], m[i], rho0), rhoCutoff) ==> diag[i] != 0.0
      modifies p, pk, pdiff
      ensures p[i] == old(NewPressure(i, vol, m, rhs, odiag, diag, pk))
      ensures pk[i] == p[i]
      ensures pdiff[i] == Abs(p[i] - old(pk[i])) && pdiff[i] >= 0.0
      ensures forall k :: 0 <= k < p.Length && k != i ==>
                p[k] == old(p[k]) && pk[k] == old(pk[k]) && pdiff[k] == old(pdiff[k])
    {
      var relRho := vol[i] * m[i] / rho0;
      var pi: real;
      if relRho < rhoCutoff {
        pi := 0.0;
      } else {
        var pnew := (rhs[i] - odiag[i]) / diag[i];
        pi := omega * pnew + (1.0 - omega) * pk[i];
      }
      pdiff[i] := Abs(pi - pk[i]);
      p[i] := pi;
      pk[i] := pi;
    }

    /** reduce: the flag from the whole array's pdiff and p. */
    method Reduce(pdiff: array<real>, p: array<real>)
      requires pdiff.Length == p.Length
      modifies this`conv
      ensures conv == ConvergenceFlag(pdiff[..], p[..], tolerance)
      ensures Valid()
    {
      var n := p.Length;
      var sumDiff, sumAbs := 0.0, 0.0;
      for k := 0 to n
        invariant sumDiff == SumOver(pdiff[..k], Identity)
        invariant sumAbs == SumOver(p[..k], Abs)
      {
        assert pdiff[..k + 1][..k] == pdiff[..k];
        assert p[..k + 1][..k] == p[..k];
        sumDiff := sumDiff + pdiff[k];
        sumAbs := sumAbs + Abs(p[k]);
      }
      assert pdiff[..n] == pdiff[..];
      assert p[..n] == p[..];
      if n == 0 {
        conv := -1;
      } else if sumAbs == 0.0 {
        // mean(pdiff) / 0 is -inf, NaN or +inf; the mean has the sign of the sum
        conv := if sumDiff < 0.0 then 1 else -1;
      } else {
        var pdiffMean := sumDiff / n as real;
        var pmean := sumAbs / n as real;
        if pdiffMean / Abs(pmean) < tolerance {
          conv := 1;
        } else {
          conv := -1;
        }
      }
    }

    function Converged(): (flag: int)
      reads this
      requires Valid()
      ensures flag == conv && (flag == 0 || flag == 1 || flag == -1)
    {
      conv
    }

    /** The coefficient and solve group over one particle array: post_loop
        on every real particle, then reduce over the whole array. The group
        is real, so particles not owned locally (ghosts, remote copies) are
        skipped and keep p, pk and pdiff. The neighbour loops of
        PressureCoeffMatrixIterative have filled diag and odiag. */
    method Sweep(tag: array<int>, p: array<real>, pk: array<real>, pdiff: array<real>,
                 rhs: array<real>, odiag: array<real>, diag: array<real>,
                 vol: array<real>, m: array<real>)
      requires tag.Length == p.Length == pk.Length == pdiff.Length == rhs.Length
      requires rhs.Length == odiag.Length == diag.Length == vol.Length == m.Length
      requires p != pk && p != pdiff && pk != pdiff
      requires {p, pk, pdiff} !! {rhs, odiag, diag, vol, m}
      requires forall k :: (0 <= k < p.Length && tag[k] == Local &&
                            !BelowCutoff(RelativeDensity(vol[k], m[k], rho0), rhoCutoff)) ==> diag[k] != 0.0
      modifies this`conv, p, pk, pdiff
      ensures forall k :: 0 <= k < p.Length && tag[k] == Local ==>
                p[k] == PointUpdate(RelativeDensity(vol[k], m[k], rho0), rhoCutoff, omega,
                                    rhs[k], odiag[k], diag[k], old(pk[k])) &&
                pk[k] == p[k] && pdiff[k] == Abs(p[k] - old(pk[k]))
      ensures forall k :: 0 <= k < p.Length && tag[k] != Local ==>
                p[k] == old(p[k]) && pk[k] == old(pk[k]) && pdiff[k] == old(pdiff[k])
      ensures conv == ConvergenceFlag(pdiff[..], p[..], tolerance)
      ensures Valid()
    {
      for i := 0 to p.Length
        invariant forall k :: 0 <= k < i && tag[k] == Local ==>
                    p[k] == PointUpdate(RelativeDensity(vol[k], m[k], rho0), rhoCutoff, omega,
                                        rhs[k], odiag[k], diag[k], old(pk[k])) &&
                    pk[k] == p[k] && pdiff[k] == Abs(p[k] - old(pk[k]))
        invariant forall k :: 0 <= k < p.Length && (i <= k || tag[k] != Local) ==>
                    p[k] == old(p[k]) && pk[k] == old(pk[k]) && pdiff[k] == old(pdiff[k])
      {
        if tag[i] == Local {
          PostLoop(i, p, pk, pdiff, rhs, odiag, diag, vol, m);
        }
      }
      Reduce(pdiff, p);
    }
  }
}
