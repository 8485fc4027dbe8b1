# tinyopt core in Dafny

tinyopt is a header-only nonlinear least-squares optimiser. This project models its control logic over `real`:

- the legacy Gauss-Newton driver `gn::GN`;
- the solver objects `SolverGN` and `SolverGD` and their base `SolverBase`;
- the parameter traits;
- the finite-difference Jacobian builder `NumEval` and its accumulation adapters.

The user's residual or accumulation function is an abstract function. So are Eigen's LDLT factor-and-solve, the dense inverse, `sqrt` and `std::isnan`: they are fields of a `Backend` record (`numerics.dfy`). Each lemma states what it assumes of them, for example that solutions have the right size, that an LDLT solution of a symmetric system solves it, or that the square root is exact.

Files:

- `wrappers.dfy`: `Option`.
- `numerics.dfy`: vectors and matrices as sequences, inner products, `JᵀJ`, the upper-to-lower mirror, and the back-end oracles.
- `traits.dfy`: `params_trait`. It covers the scalar, Eigen and default specialisations, and `pluseq` as an in-place update of an array.
- `solver_base.dfy`: the accumulation-function shapes, `Clamp` and `NormalizeCost`.
- `solver_gn.dfy`, `solver_gd.dfy`: the solver classes. Their gradient and Hessian buffers are fields that the methods reassign.
- `num_diff.dfy`: `NumEval` as a loop over an array, with the in-place perturbation vector `dx`. It also holds the adapters `CreateNumDiffFunc1/2`.
- `solver_scenarios.dfy`:
  - one Gauss-Newton step on the residual `x - y`, through `CreateNumDiffFunc2`, lands on `y`;
  - one gradient-descent step, through `CreateNumDiffFunc1`, is `lr·y`.
- `gn.dfy`: the driver, modelled twice.
  - `Step` is one pass of the loop as a function of the state `(X, X_last_good, already_rolled_true, out)`. `Run` iterates `Step` up to the `num_iters + 1` bound, and `Init` is the state before the first pass.
  - The method `GN` is the in-place loop on an array `X`. It is proved to end in the state `Run(Init(X))`.
- `gn_properties.dfy`: what a pass and a whole run guarantee.

Where the code and the intended behaviour part ways, the model follows the code:

- A NaN step leaves `stop_reason` at `kMaxIters`. The `break` at gn.h:192 skips the assignment at gn.h:256-258, so these runs report `Succeeded()`. `NaNStepKeepsStopReason` proves this, and `GNOutcome` proves that a run never ends with `SystemHasNaNs`.
- `deltas2` and `successes` start with one seed entry each (the value `2.0` and `true`).
- A failed LDLT is counted twice: once in the solve block and once as a rejected step.
- An empty system on a later pass is handled as a failed solve.

## Model

| member | source | states |
|---|---|---|
| GaussNewton.DefaultOptions | include/tinyopt/gn.h:36-46 | the default options: LDLT, full JtJ, 100 iterations, no step threshold, gradient threshold 1e-12, one failure in total and one in a row, JtJ exported |
| GaussNewton.ErrAndCountOf | include/tinyopt/gn.h:128-136 | a bare error counts as one residual; a pair gives its error and count |
| GaussNewton.Record | include/tinyopt/gn.h:140-142 | appends one entry to each of errs2, deltas2 and successes and changes nothing else |
| GaussNewton.MaxTries | include/tinyopt/gn.h:113-114 | with a consecutive cap set, max_tries is max(1, max_total_failures): at least both and equal to one of them; with none it is 255 |
| GaussNewton.SolveBlock | include/tinyopt/gn.h:151-180 | skipped (dX = 0, failed iff there are no residuals) on an empty system or past max_tries; on LDLT, failed iff the factorisation of the upper triangle reports non-positive, then dX = 0 and one failure counted, else dX = -solution; on the inverse path JtJ is mirrored when not full and dX = -JtJ⁻¹·Jᵀres |
| GaussNewton.Measures | include/tinyopt/gn.h:183-184 | \|dX\|² is 0 after a failed solve; \|Jᵀres\|² is 0 when the gradient test is off |
| GaussNewton.Evaluated | include/tinyopt/gn.h:137-149 | the residual count is stored; an empty system appends (0, 0, false) to the three histories |
| GaussNewton.Accepted | include/tinyopt/gn.h:200-211 | an accepted step appends true, snapshots X into X_last_good except on the first pass, moves X by dX, sets last_err2 to the error, exports JtJ if asked, clears the rollback flag and the consecutive failures |
| GaussNewton.Rejected | include/tinyopt/gn.h:225-244 | a rejected step appends false, restores X_last_good only if no rollback happened since the last accept, sets the rollback flag, and adds one to both failure counters |
| GaussNewton.StopCheck | include/tinyopt/gn.h:245-270 | after a reject the consecutive cap and then the total cap, then a solver failure, then a step below min_delta_norm2, then a gradient below min_grad_norm2 stop the loop with that reason; otherwise num_iters grows by one |
| GaussNewton.Decide | include/tinyopt/gn.h:185-270 | a NaN \|dX\|² breaks with the state unchanged; otherwise the error and \|dX\|² are appended and the step is accepted iff err < last_err2 and the solve did not fail: an accept moves X by dX, sets last_err2 and resets the consecutive failures; a reject rolls X back unless already rolled, keeps last_err2 and adds one failure; sizes are kept, and num_iters grows by one exactly when the loop goes on (DecideFacts adds the cap order) |
| GaussNewton.Prepare | include/tinyopt/gn.h:125-184 | the pass ends with NoResiduals exactly when the first system (num_iters = 0) has no residuals; the first half of a pass never changes num_iters and yields a step of X's size (PrepareFacts gives the histories and counters) |
| GaussNewton.Step | include/tinyopt/gn.h:125-270 | one pass keeps the sizes of X and X_last_good; going on adds one to num_iters, breaking keeps it |
| GaussNewton.Run | include/tinyopt/gn.h:124 | the loop keeps the sizes and never counts more than num_iters + 1 passes |
| GaussNewton.Init | include/tinyopt/gn.h:112-120 | the initial state: X_last_good = X, rollback flag set, last_err2 = FLT_MAX, stop reason MaxIters, deltas2 = [2], successes = [true], no errors yet, last_JtJ zero when exported |
| GaussNewton.SolveNormalEquations | include/tinyopt/gn.h:151-180 | the solve block run step by step gives SolveBlock's outcome |
| GaussNewton.AcceptStep | include/tinyopt/gn.h:200-211 | applied to X in place, it leaves the state Accepted gives |
| GaussNewton.RejectStep | include/tinyopt/gn.h:239-244 | the rollback copy into X in place leaves the state Rejected gives |
| GaussNewton.CheckStop | include/tinyopt/gn.h:245-270 | the chain of stop tests gives StopCheck's result |
| GaussNewton.EvaluateAndSolve | include/tinyopt/gn.h:125-184 | the first half of a pass gives Prepare's result |
| GaussNewton.DecideStep | include/tinyopt/gn.h:185-270 | the second half of a pass on X in place gives Decide's result |
| GaussNewton.Pass | include/tinyopt/gn.h:125-270 | one pass on X in place breaks exactly when Step breaks and ends in Step's state |
| GaussNewton.GN | include/tinyopt/gn.h:99-273 | the driver leaves X where Run from Init ends and returns Run's output |
| GaussNewtonProperties.ConvergedImpliesSucceeded | include/tinyopt/gn.h:74-80 | Succeeded is false exactly for SystemHasNaNs, SolverFailed and NoResiduals; Converged implies Succeeded |
| GaussNewtonProperties.PrepareFacts | include/tinyopt/gn.h:128-184 | the first half of a pass stops iff the first system is empty; it then records exactly one (0, 0, false) entry; otherwise both counters grow by the solve block's failure count and the histories stay in lockstep |
| GaussNewtonProperties.DecideFacts | include/tinyopt/gn.h:185-270 | the second half of a pass: acceptance iff err < last_err2 and no failed solve, with its effects on X, X_last_good, the error and the counters; rejection's rollback and counters; the cap order; a failed solve always stops the run |
| GaussNewtonProperties.SolveBlockBumps | include/tinyopt/gn.h:154-180 | the solve block counts a failure only when the solve failed, and at most one |
| GaussNewtonProperties.StepKeepsInvariant | include/tinyopt/gn.h:124-270 | every pass keeps \|deltas2\| = \|successes\| = \|errs2\| + 1 and consecutive failures ≤ total failures; it never raises last_err2; a pass that goes on keeps the loop invariant; a pass that breaks has a stop reason backed by its condition |
| GaussNewtonProperties.AcceptanceRule | include/tinyopt/gn.h:195-244 | the step is accepted iff err < last_err2 and the solve did not fail; accepting moves X by dX, lowers last_err2 strictly to err, resets the consecutive failures and snapshots X after the first pass; rejecting returns X to X_last_good, where it stays until the next accept, and adds one failure of each kind (plus the solve block's) |
| GaussNewtonProperties.FailureCapsInOrder | include/tinyopt/gn.h:245-253 | after a reject, reaching the consecutive cap stops with MaxConsecFails even when the total cap is also reached; the total cap alone stops with MaxFails; a failed solve always stops the run |
| GaussNewtonProperties.LdltFailureCountsTwice | include/tinyopt/gn.h:154-180 | a non-positive LDLT records a zero step and a reject, adds two to both counters, sends X back to X_last_good and stops with a cap reason or SolverFailed |
| GaussNewtonProperties.LaterPassWithoutResiduals | include/tinyopt/gn.h:137-152 | after the first pass an empty system records two rejected entries (0, 0) and (err, 0), counts one failure, returns X to X_last_good and stops with a cap reason or SolverFailed |
| GaussNewtonProperties.NaNStepKeepsStopReason | include/tinyopt/gn.h:185-192 | a NaN step breaks with stop reason MaxIters, reports success and leaves X unchanged |
| GaussNewtonProperties.RunOutcome | include/tinyopt/gn.h:124-271 | the loop ends with the histories in lockstep, at most num_iters + 1 passes, last_err2 no higher than at the start, and a stop reason backed by its condition; exhausting the iterations leaves MaxIters |
| GaussNewtonProperties.FirstPassWithoutResiduals | include/tinyopt/gn.h:137-148 | an empty first system ends the run at once with NoResiduals: X unchanged, errs2 = [0], deltas2 = [2, 0], successes = [true, false], no failures, not succeeded |
| GaussNewtonProperties.GNOutcome | include/tinyopt/gn.h:99-273 | for every run: histories in lockstep, at most num_iters + 1 passes, last_err2 ≤ FLT_MAX, stop reasons backed by their conditions and never SystemHasNaNs, MaxIters when the iterations ran out; so success means not SolverFailed and not NoResiduals |
| Traits.DimValue | include/tinyopt/traits.h:37-42 | a compile-time dimension is stored as its size, and Dynamic as the sentinel -1, which no size takes |
| Traits.ScalarDimsOf | include/tinyopt/traits.h:65-69 | a scalar has one dimension, statically and at run time |
| Traits.ScalarUpdateIsOneDimensional | include/tinyopt/traits.h:80-85 | the two scalar pluseq overloads agree and are the update of the one-element vector |
| Traits.EigenDimsCountsAllCoefficients | include/tinyopt/traits.h:93-95 | the run-time dims of an Eigen parameter counts every coefficient; it equals the static row count for a fixed column vector and exceeds it for a matrix with more columns |
| Traits.UserDimsOf | include/tinyopt/traits.h:39-42 | the default trait returns dims() for a Dynamic type and the static Dims otherwise |
| Traits.PlusEq | include/tinyopt/traits.h:111-113 | v += delta in place adds delta entry by entry |
| Traits.AdditiveUpdate | include/tinyopt/traits.h:58-60 | the update keeps the size, touches only the coordinates where delta is non-zero, and a zero delta changes nothing |
| Traits.AdditiveUpdatesCompose | include/tinyopt/traits.h:111-113 | two updates in a row are one update by their sum |
| SolverBase.Clamp | include/tinyopt/solvers/base.h:41-49 | reports clamping iff the bound is non-zero; a zero bound leaves g alone; with a positive bound every coordinate lies in [-minmax, minmax], coordinates already inside are kept, and the others sit on a bound |
| SolverBase.ClampScalarValue | include/tinyopt/solvers/base.h:44 | std::clamp: the result lies in [-minmax, minmax], is g when g is inside, and otherwise a bound |
| SolverBase.ClampCoeff | include/tinyopt/solvers/base.h:46 | one coordinate of cwiseMax(-minmax).cwiseMin(minmax): inside the bounds for minmax ≥ 0, keeping a coordinate already inside; the bound itself for a negative minmax |
| SolverBase.ClampScalar | include/tinyopt/solvers/base.h:42-44 | the scalar branch: same flag, the result lies in the bounds, a value inside is kept |
| SolverBase.ClampIsIdempotent | include/tinyopt/solvers/base.h:46 | clamping twice is clamping once |
| SolverBase.ClampBranchesAgree | include/tinyopt/solvers/base.h:43-47 | the vector branch clamps each coordinate as the scalar branch does |
| SolverBase.ClampNegativeBound | include/tinyopt/solvers/base.h:46 | with a negative bound, cwiseMax then cwiseMin sends every coordinate to the bound |
| SolverBase.PostProcess | include/tinyopt/solvers/base.h:53-55 | the result times 2 (if halved) times the count (if normalised and positive) is the cost, or its square root when the squared norm is not wanted |
| SolverBase.NormalizeCost | include/tinyopt/solvers/base.h:52-56 | post-processes the cost and keeps the residual count |
| SolverBase.PostProcessNonNegative | include/tinyopt/solvers/base.h:52-56 | a non-negative cost stays non-negative under every option when sqrt is exact |
| GNSolver.Normalize | include/tinyopt/solvers/gn.h:122-132 | a scalar becomes (cost, 1), a pair passes through, a vector becomes (norm, size) whose norm squares to the squared norm |
| GNSolver.SmallDiagonal | include/tinyopt/solvers/gn.h:198-199 | some diagonal entry of H has magnitude below the threshold |
| GNSolver.SolverGN.GetAccFunc | include/tinyopt/solvers/gn.h:120-134 | the wrapped function returns what the user function wrote into its slots, with its result normalised by Normalize |
| GNSolver.SolverGN.constructor | include/tinyopt/solvers/gn.h:51 | a fixed-size solver owns buffers of its size, a dynamic one starts empty |
| GNSolver.SolverGN.Resize | include/tinyopt/solvers/gn.h:68-96 | dynamic: Dynamic throws, otherwise true iff grad's or H's row count differed, and afterwards H is dims×dims and grad has length dims; static: throws iff dims ≠ Dims, else returns false; nothing changes unless it returned true |
| GNSolver.SolverGN.Clear | include/tinyopt/solvers/gn.h:99-103 | every entry of H and grad is zero, sizes kept |
| GNSolver.SolverGN.ResizeIfNeeded | include/tinyopt/solvers/gn.h:106-116 | a dynamic system takes x's size and reports whether grad's size changed; a static one never resizes |
| GNSolver.SolverGN.Evaluate | include/tinyopt/solvers/gn.h:137-165 | the post-processed normalised cost at x without derivatives, stored with its count only when save |
| GNSolver.SolverGN.Accumulate | include/tinyopt/solvers/gn.h:168-178 | grad and H become what the function wrote into them, err and nerr the post-processed cost and count, success iff the count is positive |
| GNSolver.SolverGN.Build | include/tinyopt/solvers/gn.h:182-211 | from zeroed buffers (when asked): accumulate; fail on no residuals; clamp the gradient; fail on a small H diagonal; mirror an upper-triangular H when not solving by LDLT, which makes H symmetric |
| GNSolver.SolverGN.Solve | include/tinyopt/solvers/gn.h:213-231 | None without residuals; on LDLT Some iff the factorisation of H's upper-triangle self-adjoint view succeeds; the LDLT step is the negated factorisation solution; the inverse path always gives a step, which is -H⁻¹·grad in n dimensions; in one dimension H₀₀·dx₀ = -g₀ above epsilon, else the zero step |
| GNSolver.InverseStepSolvesNormalEquations | include/tinyopt/solvers/gn.h:226-228 | on the n-dimensional inverse path the step -H⁻¹·grad satisfies H·dx = -grad whenever the inverse solve satisfies H·(H⁻¹·grad) = grad |
| GNSolver.SolveSolvesNormalEquations | include/tinyopt/solvers/gn.h:213-222 | an LDLT step dx satisfies S·dx = -grad for the symmetric S that H's upper triangle stands for, and H·dx = -grad when H is symmetric, given a factorisation whose solutions of symmetric systems are exact |
| GNSolver.IdentitySystemStepsToTarget | include/tinyopt/solvers/gn.h:213-222 | for H = I and grad = x - y the step is y - x and lands on y |
| GDSolver.FromOptions1 | include/tinyopt/solvers/gd.h:23-26 | the learning rate defaults to 1 and the shared options are kept |
| GDSolver.Normalize | include/tinyopt/solvers/gd.h:113-126 | a scalar becomes (cost, 1), a pair passes through |
| GDSolver.SolverGD.GetAccFunc | include/tinyopt/solvers/gd.h:113-126 | the wrapped function is defined on every scalar or pair result, calls the user function without a Hessian and normalises its result |
| GDSolver.SolverGD.constructor | include/tinyopt/solvers/gd.h:47 | a fixed-size solver owns a gradient of its size, a dynamic one starts empty |
| GDSolver.SolverGD.Resize | include/tinyopt/solvers/gd.h:56-82 | dynamic: Dynamic throws, otherwise true iff grad's size differed, and then grad has length dims; static: throws iff dims ≠ Dims, else returns false |
| GDSolver.SolverGD.Clear | include/tinyopt/solvers/gd.h:85 | every entry of grad is zero, size kept |
| GDSolver.SolverGD.ResizeIfNeeded | include/tinyopt/solvers/gd.h:88-98 | a dynamic gradient takes x's size and reports whether it changed; a static one never resizes |
| GDSolver.SolverGD.Evaluate | include/tinyopt/solvers/gd.h:131-141 | the raw cost at x without a gradient, stored with its count only when save |
| GDSolver.SolverGD.Accumulate | include/tinyopt/solvers/gd.h:144-151 | grad becomes what the function wrote, err and nerr the raw cost and count, success iff the count is positive |
| GDSolver.SolverGD.Build | include/tinyopt/solvers/gd.h:155-167 | from a zeroed gradient (when asked): accumulate and clamp, clamping even when there were no residuals |
| GDSolver.SolverGD.Solve | include/tinyopt/solvers/gd.h:169-173 | None iff there were no residuals, else the step -lr·grad |
| GDSolver.StepIsDescentDirection | include/tinyopt/solvers/gd.h:169-173 | with lr > 0 the step's inner product with the gradient is -lr·\|grad\|² ≤ 0 |
| GDSolver.DefaultStepIsNegatedGradient | include/tinyopt/solvers/gd.h:25 | with the default learning rate the step is -grad |
| GDSolver.StepTowardsTarget | include/tinyopt/solvers/gd.h:169-173 | for grad = x - y the step is lr·(y - x); with lr = 1 it lands on y |
| Numerics.MirrorUpper | include/tinyopt/solvers/gn.h:206-208 | the upper triangle is kept and the lower one becomes its transpose |
| Numerics.UpperLdltCanBeSound | include/tinyopt/gn.h:157 | an LDLT that reads only the upper triangle, as `SelfAdjointView<Upper>::ldlt` does, can meet the exact-solution hypothesis on symmetric systems and still solve [[2, 1], [0, 2]] through its upper view |
| Numerics.MirrorUpperIsSymmetric | include/tinyopt/solvers/gn.h:206-208 | the mirrored matrix is symmetric, and mirroring a symmetric matrix changes nothing |
| Numerics.GramIsSymmetric | include/tinyopt/diff/num_diff.h:308 | JᵀJ is symmetric for every J |
| NumDiff.NumJacobian | include/tinyopt/diff/num_diff.h:100-135 | one row per residual, one column per coordinate, column c being the chosen difference quotient along e_c |
| NumDiff.NumColumn | include/tinyopt/diff/num_diff.h:110-134 | one entry per residual: the central, fast-central or forward quotient along e_r (FastCentralMatchesCentral and AffineColumnIsExact characterise it) |
| NumDiff.ShiftAlong | include/tinyopt/diff/num_diff.h:107-109 | with dx zero off coordinate r, setting dx[r] = k and adding it moves y by k·e_r |
| NumDiff.MinusSide | include/tinyopt/diff/num_diff.h:111-128 | kCentral re-copies x and evaluates at x - h·e_r; kFastCentral adds -2h·e_r to x + h·e_r; dx ends as the matching multiple of e_r |
| NumDiff.JacobianColumn | include/tinyopt/diff/num_diff.h:105-134 | one pass of the loop returns column r of the Jacobian and leaves dx zero everywhere but r |
| NumDiff.SetColumn | include/tinyopt/diff/num_diff.h:119 | J.col(r) = col writes column r and leaves every other column as it was |
| NumDiff.NumEval | include/tinyopt/diff/num_diff.h:67-137 | the residuals at x, and a fresh Jacobian whose entries are the finite-difference quotients; x is not written |
| NumDiff.EstimateNumJac | include/tinyopt/diff/num_diff.h:141-148 | NumEval's Jacobian |
| NumDiff.ResidualCost | include/tinyopt/diff/num_diff.h:223-229 | \|res\| for a scalar residual, (norm, count) for a vector |
| NumDiff.NumGradient | include/tinyopt/diff/num_diff.h:219-220 | Jᵀ·res has the parameter's size |
| NumDiff.NumHessian | include/tinyopt/diff/num_diff.h:306-308 | JᵀJ is square of the parameter's size |
| NumDiff.CreateNumDiffFunc1 | include/tinyopt/diff/num_diff.h:209-230 | the gradient adapter; its contract is given by NumDiffFunc1KeepsGradShape, NumDiffFuncsWriteOnlyWhenAsked and NumDiffFuncsCost |
| NumDiff.CreateNumDiffFunc2 | include/tinyopt/diff/num_diff.h:295-319 | the gradient-and-Hessian adapter; its contract is given by NumDiffFunc2KeepsShape, NumDiffFunc2Buffers, NumDiffFunc2HessianIsSymmetric, NumDiffFuncsWriteOnlyWhenAsked and NumDiffFuncsCost |
| NumDiff.FastCentralMatchesCentral | include/tinyopt/diff/num_diff.h:121-128 | with an additive update the fast central quotient evaluates at x - h·e_r and equals the central one |
| NumDiff.AffineColumnIsExact | include/tinyopt/diff/num_diff.h:112-134 | for an affine residual A·x + b every method's column c is column c of A |
| NumDiff.AffineJacobianIsExact | include/tinyopt/diff/num_diff.h:105-135 | for an affine residual the finite-difference Jacobian is A |
| NumDiff.DifferenceJacobianIsIdentity | include/tinyopt/diff/num_diff.h:105-135 | the residual x - y has the identity as its Jacobian |
| NumDiff.DifferenceDerivatives | include/tinyopt/diff/num_diff.h:303-309 | for x - y the gradient is x - y and the Hessian the identity |
| NumDiff.NumDiffFunc1KeepsGradShape | include/tinyopt/diff/num_diff.h:213-221 | CreateNumDiffFunc1 fills a gradient buffer of the parameter's size |
| NumDiff.NumDiffFunc2KeepsShape | include/tinyopt/diff/num_diff.h:299-309 | CreateNumDiffFunc2 fills both buffers with the parameter's sizes |
| NumDiff.NumDiffFunc2HessianIsSymmetric | include/tinyopt/diff/num_diff.h:308 | the Hessian CreateNumDiffFunc2 writes is symmetric |
| NumDiff.NumDiffFuncsWriteOnlyWhenAsked | include/tinyopt/diff/num_diff.h:218-221 | without a gradient buffer neither adapter writes any buffer |
| NumDiff.NumDiffFuncsCost | include/tinyopt/diff/num_diff.h:311-317 | both adapters return the residual cost, whatever buffers they get |
| NumDiff.NumDiffFunc2Buffers | include/tinyopt/diff/num_diff.h:305-309 | with both buffers CreateNumDiffFunc2 writes Jᵀ·res and JᵀJ |
| NumDiff.DifferenceSystem | include/tinyopt/diff/num_diff.h:299-319 | for x - y CreateNumDiffFunc2 writes grad = x - y and H = I |
| SolverScenarios.GNStepOnDifference | include/tinyopt/solvers/gn.h:183-231 | building a dynamic GN solver on CreateNumDiffFunc2 of x - y at 0 succeeds iff y is non-empty and the diagonal check allows 1; its LDLT step is y |
| SolverScenarios.GDStepOnDifference | include/tinyopt/solvers/gd.h:156-173 | building a dynamic GD solver on CreateNumDiffFunc1 of x - y at 0 succeeds iff y is non-empty, and then its step is lr·y |

## Left out

- The numeric back end is a set of oracles: Eigen's LDLT (`SelfAdjointView<Upper>::ldlt`, `isPositive`, `solve`), the dense inverse, `sqrt`, `std::isnan` and `FloatEpsilon`. Reals stand for `float`/`double`, so rounding and the narrowing of errors to `float` in `last_err2` and `errs2` are not modelled.
- GaussNewton.Step: `num_iters`, `num_failures` and `num_consec_failures` are unbounded naturals; the `uint16_t`/`uint8_t` wrap-around of the source is not modelled. With no consecutive cap `max_tries` is 255 (gn.h:113-114), which the source's `uint8_t` counter never exceeds, so its solve block (gn.h:154) never closes. The model's unbounded counter closes the block once `num_consec_failures` reaches 256; from then on dX = 0, so such a run can stop with MinDeltaNorm where the source keeps solving.
- GaussNewton.Step: the accumulation function is called on zeroed JtJ and Jᵀres buffers, so it is modelled as a function of X alone that returns what it wrote into them.
- GaussNewton.Step: `dX` is a zero vector of X's size. In the source a default-constructed dynamic `dX` stays empty after `setZero()` when the solve block is skipped.
- GaussNewton.Init: `last_JtJ` without `export_JtJ` is default-constructed in the source; here it is empty.
- GaussNewton.GN: the parameter is a vector of reals updated by the additive trait. User parameter types with their own `+=` are covered only by the trait functions.
- Logging (`log_x`, `oss`, `TINYOPT_LOG`, `options_.log`) and the string conversions of the traits are output only, and are left out.
- `gn::Optimize` and `OptimizeJet` (automatic differentiation) are not part of this model.
- Sparse matrices are left out, with every `is_sparse_matrix_v` branch.
- `InitWith`, `reset`, `Hessian`, `H`, `Gradient`, `GradientNorm`, `MaxStdDev` and the `GoodStep`/`BadStep` hooks are plain accessors or no-ops and are left out.
- GNSolver.SolverGN.Evaluate: the dummy-Hessian branch for functions that cannot take a null Hessian is modelled as the call with two null slots.
- GNSolver.SolverGN.Resize: Eigen leaves the content of a resized buffer unspecified; here it is zero.
- GNSolver.SolverGN.Accumulate: requires x to have the system's size (`|x| == |grad|`). The source leaves a mismatch to Eigen's run-time assertions.
- GNSolver.SolverGN.Solve: requires a non-negative epsilon (`FloatEpsilon` is positive), so the one-dimensional guard divides by a positive pivot.
- SolverBase.Clamp: the reference argument of `Clamp` is returned with the flag instead of being updated. `NormalizeCost` likewise returns the new cost.
- `Cost(norm, size)` returned by the adapters is modelled as the (cost, count) pair. `cost.h` and `solvers/options.h` are not part of this model, so only the option fields the core reads are kept.
- NumDiff.SameShape: NumEval and both adapters require the residual count to depend only on the parameter's size. J is sized from the residuals at x (num_diff.h:98-101); a perturbed evaluation that returns a different count is caught only by Eigen's size assertion at `J.col(r) = …`, and that failure is not modelled.
- NumDiff.NumColumn, NumDiff.NumJacobian, NumDiff.NumEval, NumDiff.EstimateNumJac, NumDiff.CreateNumDiffFunc1 and NumDiff.CreateNumDiffFunc2 require h ≠ 0. With h = 0 the source divides by zero and writes inf or NaN columns, which reals cannot represent.
- GNSolver.SolverGN.Solve: `tinyopt::SolveLDLT` (math.h) is not part of this model. It is taken to factor the self-adjoint view of H's upper triangle, as the driver does at gn.h:157 and as Build's unmirrored LDLT path (solvers/gn.h:206) presumes. The LDLT oracle is trusted to solve symmetric systems exactly (`SoundLdlt`), and nothing is assumed of the triangle it reads.
- The compile-time dispatch on argument and return types (`is_invocable_v`, `is_scalar_v`, `is_pair_v`) is a tagged variant chosen by the caller.
