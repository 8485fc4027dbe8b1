/** One solver step on the residual x - y from x = 0, with the derivatives
    taken by finite differences: the Gauss-Newton step is y, the
    gradient-descent step is lr·y. */
module SolverScenarios {
  import opened Wrappers
  import opened Numerics
  import opened Traits
  import opened SolverBase
  import opened NumDiff
  import GNSolver
  import GDSolver

  /** The residual x - y, for parameters of y's size. */
  function DifferenceResidual(y: Vector): (f: Vector -> Residuals)
    ensures forall z {:trigger f(z)} :: |Entries(f(z))| == |z|
  {
    z => VectorRes(seq(|z|, i requires 0 <= i < |z| => z[i] - if i < |y| then y[i] else 0.0))
  }

  /** It is x - y on y's size, and its residual count is the parameter's size. */
  lemma DifferenceResidualIsDifference(y: Vector)
    ensures forall z {:trigger DifferenceResidual(y)(z)} :: |z| == |y| ==> DifferenceResidual(y)(z) == VectorRes(Sub(z, y))
    ensures forall n :: SameShape(DifferenceResidual(y), n)
  {
    var f := DifferenceResidual(y);
    forall z {:trigger f(z)} | |z| == |y|
      ensures f(z) == VectorRes(Sub(z, y))
    {
      assert f(z).values == Sub(z, y);
    }
  }

  /** A dynamic Gauss-Newton solver built on CreateNumDiffFunc2 of x - y at
      x = 0 steps to y whenever the LDLT solve succeeds. */
  method GNStepOnDifference(y: Vector, m: Method, h: real, be: Backend, options: GNSolver.Options)
    returns (built: bool, step: Option<Vector>)
    requires h != 0.0 && be.epsilon >= 0.0 && be.SoundLdlt()
    requires options.use_ldlt && options.grad_clipping == 0.0
    ensures built <==> |y| > 0 && options.check_min_H_diag <= 1.0
    ensures step.Some? ==> built && step.value == y
  {
    var f := DifferenceResidual(y);
    DifferenceResidualIsDifference(y);
    var acc := CreateNumDiffFunc2(f, m, h, be);
    var x := Zeros(|y|);
    NumDiffFunc2KeepsShape(f, m, h, be, |y|);
    var solver := new GNSolver.SolverGN(options, Dynamic, be);
    DifferenceSystem(y, f, m, h, be, x, Zeros(|y|), ZeroMatrix(|y|, |y|));
    NumDiffFuncsCost(f, m, h, be, x, Buf(Zeros(|y|)), Buf(ZeroMatrix(|y|, |y|)));
    built := solver.Build(x, acc, true);
    assert solver.grad == Sub(x, y) && solver.H == Identity(|y|);
    if |y| > 0 {
      assert 0 <= 0 < |y| && Identity(|y|)[0][0] == 1.0;
    }
    if !built {
      return built, None;
    }
    step := solver.Solve();
    if step.Some? {
      GNSolver.IdentitySystemStepsToTarget(solver, x, y);
      ZerosAreNeutral(y);
    }
  }

  /** A dynamic gradient-descent solver built on CreateNumDiffFunc1 of
      x - y at x = 0 steps to lr·y, and to y itself with the default rate. */
  method GDStepOnDifference(y: Vector, m: Method, h: real, be: Backend, options: GDSolver.Options)
    returns (built: bool, step: Option<Vector>)
    requires h != 0.0 && options.grad_clipping == 0.0
    ensures built <==> |y| > 0
    ensures built ==> step == Some(Scale(options.lr, y))
    ensures built && options.lr == 1.0 ==> step == Some(y)
  {
    var f := DifferenceResidual(y);
    DifferenceResidualIsDifference(y);
    var acc := CreateNumDiffFunc1(f, m, h, be);
    var x := Zeros(|y|);
    NumDiffFunc1KeepsGradShape(f, m, h, be, |y|);
    var solver := new GDSolver.SolverGD(options, Dynamic);
    DifferenceDerivatives(y, f, m, h, x);
    built := solver.Build(x, acc, true);
    assert solver.grad == Sub(x, y);
    step := solver.Solve();
    if built {
      GDSolver.StepTowardsTarget(solver, x, y);
      ZerosAreNeutral(y);
      ZerosAreNeutral(step.value);
    }
  }
}
