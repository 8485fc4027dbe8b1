/** Properties of the Gauss-Newton driver: the outcome classification,
    the history bookkeeping, the acceptance and rollback rules, the failure
    caps and the stop reasons of a run. */
module GaussNewtonProperties {
  import opened Wrappers
  import opened Numerics
  import opened GaussNewton

  /** Converging is one way of succeeding. */
  lemma ConvergedImpliesSucceeded(out: Output)
    ensures out.Converged() ==> out.Succeeded()
    ensures out.Succeeded() <==> out.stop_reason !in {SystemHasNaNs, SolverFailed, NoResiduals}
  {
  }

  /** The state a pass ends in, whether it breaks or not. */
  function Final(r: Iter): State
  {
    if r.Continue? then r.next else r.last
  }

  /** What the shapes of a pass need. */
  ghost predicate Fits(s: State, acc: Accumulator, be: Backend)
  {
    be.WellShaped() && Shaped(acc, |s.x|) && |s.lastGood| == |s.x|
  }

  /** |deltas2| == |successes| == |errs2| + 1. */
  predicate Lockstep(out: Output)
  {
    |out.deltas2| == |out.errs2| + 1 && |out.successes| == |out.errs2| + 1
  }

  /** What holds of every state the loop starts a pass in. */
  predicate Consistent(s: State)
  {
    && Lockstep(s.out)
    && s.out.stop_reason == MaxIters
    && (s.rolled ==> s.x == s.lastGood)
    && s.out.num_consec_failures <= s.out.num_failures
  }

  /** The error and residual count a pass reads, and its solve outcome. */
  function PassError(s: State, acc: Accumulator): real
  {
    ErrAndCountOf(acc(s.x).output).0
  }

  function PassCount(s: State, acc: Accumulator): int
  {
    ErrAndCountOf(acc(s.x).output).1
  }

  function PassSolve(s: State, acc: Accumulator, be: Backend, o: Options): SolveOutcome
    requires Fits(s, acc, be)
  {
    SolveBlock(acc(s.x), |s.x|, PassCount(s, acc) == 0, s.out.num_consec_failures, be, o)
  }

  /** |dX|² as a pass computes it. */
  function PassDelta2(s: State, acc: Accumulator, be: Backend, o: Options): real
    requires Fits(s, acc, be)
  {
    Measures(acc(s.x), PassSolve(s, acc, be, o), o).0
  }

  /** The pass gets past the empty-system and NaN exits to the accept or
      reject decision. */
  ghost predicate Decides(s: State, acc: Accumulator, be: Backend, o: Options)
    requires Fits(s, acc, be)
  {
    !(PassCount(s, acc) == 0 && s.out.num_iters == 0) && !be.isNaN(PassDelta2(s, acc, be, o))
  }

  function Last<T>(q: seq<T>): T
    requires |q| > 0
  {
    q[|q| - 1]
  }

  /** The stop reason of a state the loop ended in is backed by its
      condition, and a NaN step is never reported as such. The output keeps
      no history of |Jᵀres|², so a MinGradNorm stop is backed here only by
      the test being on and the delta test not having fired first; that the
      gradient norm was below `min_grad_norm2` is stated by StopCheck. */
  ghost predicate ExitExplained(out: Output, o: Options)
    requires Lockstep(out)
  {
    && out.stop_reason != SystemHasNaNs
    && (out.stop_reason == NoResiduals ==>
          out.num_iters == 0 && out.num_residuals == 0 && |out.errs2| > 0 && Last(out.errs2) == 0.0 &&
          !Last(out.successes))
    && (out.stop_reason == SolverFailed ==> Last(out.deltas2) == 0.0 && !Last(out.successes))
    && (out.stop_reason == MaxConsecFails ==>
          o.max_consec_failures > 0 && out.num_consec_failures >= o.max_consec_failures && !Last(out.successes))
    && (out.stop_reason == MaxFails ==>
          o.max_total_failures > 0 && out.num_failures >= o.max_total_failures && !Last(out.successes))
    && (out.stop_reason == MinDeltaNorm ==>
          o.min_delta_norm2 > 0.0 && Last(out.deltas2) < o.min_delta_norm2)
    && (out.stop_reason == MinGradNorm ==>
          o.min_grad_norm2 > 0.0 && !(o.min_delta_norm2 > 0.0 && Last(out.deltas2) < o.min_delta_norm2))
  }

  /** The first half of a pass: an empty first system ends the run with one
      (0, 0, rejected) history entry; otherwise the histories stay in
      lockstep, both counters grow by the solver's failure count, and a
      failed solve measures a zero step. */
  lemma PrepareFacts(x: Vector, out: Output, acc: Accumulator, be: Backend, o: Options)
    requires be.WellShaped() && Shaped(acc, |x|) && Lockstep(out) && out.num_consec_failures <= out.num_failures
    ensures var p := Prepare(x, out, acc, be, o);
            var nerr := ErrAndCountOf(acc(x).output).1;
            && (p.Empty? <==> nerr == 0 && out.num_iters == 0)
            && Lockstep(p.out) && p.out.last_err2 == out.last_err2
            && (p.Empty? ==>
                  && p.out.stop_reason == NoResiduals && p.out.num_residuals == 0
                  && p.out.errs2 == out.errs2 + [0.0] && p.out.deltas2 == out.deltas2 + [0.0]
                  && p.out.successes == out.successes + [false])
            && (p.Solved? ==>
                  && p.sb == SolveBlock(acc(x), |x|, nerr == 0, out.num_consec_failures, be, o)
                  && p.err == ErrAndCountOf(acc(x).output).0
                  && p.dX_norm2 == Measures(acc(x), p.sb, o).0
                  && p.Jt_res_norm2 == Measures(acc(x), p.sb, o).1
                  && p.out.stop_reason == out.stop_reason
                  && p.out.num_failures == out.num_failures + p.sb.bumps
                  && p.out.num_consec_failures == out.num_consec_failures + p.sb.bumps
                  && p.out.errs2 == out.errs2 + (if nerr == 0 then [0.0] else [])
                  && p.out.deltas2 == out.deltas2 + (if nerr == 0 then [0.0] else [])
                  && p.out.successes == out.successes + (if nerr == 0 then [false] else []))
  {
  }

  /** The second half of a pass on a consistent state. */
  lemma DecideFacts(s: State, err: real, sb: SolveOutcome, dX_norm2: real, Jt_res_norm2: real,
                    be: Backend, o: Options)
    requires |sb.dX| == |s.x| && |s.lastGood| == |s.x| && Consistent(s)
    requires sb.failed ==> dX_norm2 == 0.0 && sb.bumps <= 1
    requires !sb.failed ==> sb.bumps == 0
    ensures var r := Decide(s, err, sb, dX_norm2, Jt_res_norm2, be, o);
            var t := Final(r);
            var accepted := err < s.out.last_err2 && !sb.failed;
            && Lockstep(t.out)
            && t.out.num_consec_failures <= t.out.num_failures
            && (r.Continue? ==> Consistent(t))
            && (r.Break? ==> ExitExplained(t.out, o))
            && (be.isNaN(dX_norm2) ==> r == Break(s))
            && (!be.isNaN(dX_norm2) ==>
                  && t.out.errs2 == s.out.errs2 + [err] && t.out.deltas2 == s.out.deltas2 + [dX_norm2]
                  && t.out.successes == s.out.successes + [accepted]
                  && (accepted ==>
                        && t.x == Add(s.x, sb.dX) && !t.rolled && t.out.last_err2 == err
                        && t.lastGood == (if s.out.num_iters > 0 then s.x else s.lastGood)
                        && t.out.num_consec_failures == 0 && t.out.num_failures == s.out.num_failures)
                  && (!accepted ==>
                        && t.x == s.lastGood && t.lastGood == s.lastGood && t.rolled
                        && t.out.last_err2 == s.out.last_err2
                        && t.out.num_failures == s.out.num_failures + 1
                        && t.out.num_consec_failures == s.out.num_consec_failures + 1
                        && (o.max_consec_failures > 0 && t.out.num_consec_failures >= o.max_consec_failures ==>
                              r.Break? && t.out.stop_reason == MaxConsecFails)
                        && (!(o.max_consec_failures > 0 && t.out.num_consec_failures >= o.max_consec_failures) &&
                            o.max_total_failures > 0 && t.out.num_failures >= o.max_total_failures ==>
                              r.Break? && t.out.stop_reason == MaxFails)
                        && (sb.failed ==>
                              r.Break? && t.out.stop_reason in {MaxConsecFails, MaxFails, SolverFailed})))
  {
  }

  /** The solve block counts a failure only when it failed. */
  lemma SolveBlockBumps(sys: System, n: nat, skip: bool, consec: nat, be: Backend, o: Options)
    requires |sys.Jt_res| == n && IsMatrix(sys.JtJ, n, n) && be.WellShaped()
    ensures var sb := SolveBlock(sys, n, skip, consec, be, o);
            (sb.failed ==> sb.bumps <= 1) && (!sb.failed ==> sb.bumps == 0)
  {
  }

  /** A pass keeps the histories in lockstep and the consecutive failures
      below the total, keeps the loop invariant when it goes on, explains
      why it stops when it breaks, and never raises last_err2. */
  lemma StepKeepsInvariant(s: State, acc: Accumulator, be: Backend, o: Options)
    requires Fits(s, acc, be) && Consistent(s)
    ensures var r := Step(s, acc, be, o);
            var t := Final(r);
            && Lockstep(t.out)
            && t.out.last_err2 <= s.out.last_err2
            && t.out.num_consec_failures <= t.out.num_failures
            && (r.Continue? ==> Consistent(t))
            && (r.Break? ==> ExitExplained(t.out, o))
  {
    PrepareFacts(s.x, s.out, acc, be, o);
    match Prepare(s.x, s.out, acc, be, o)
    case Empty(out) =>
    case Solved(out, err, sb, dX_norm2, Jt_res_norm2) =>
      SolveBlockBumps(acc(s.x), |s.x|, PassCount(s, acc) == 0, s.out.num_consec_failures, be, o);
      DecideFacts(s.(out := out), err, sb, dX_norm2, Jt_res_norm2, be, o);
  }

  /** A pass that reaches the decision accepts the step exactly when the
      error fell below last_err2 and the solve did not fail. An accepted
      step moves X by dX, lowers last_err2 to the new error, resets the
      consecutive failures and snapshots X (except on the first pass); a
      rejected one returns X to X_last_good, where it stays until the next
      accepted step, and counts one more failure of each kind. */
  lemma AcceptanceRule(s: State, acc: Accumulator, be: Backend, o: Options)
    requires Fits(s, acc, be) && Consistent(s) && Decides(s, acc, be, o)
    ensures var t := Final(Step(s, acc, be, o));
            var err := PassError(s, acc);
            var sb := PassSolve(s, acc, be, o);
            var accepted := err < s.out.last_err2 && !sb.failed;
            && |t.out.successes| > 0 && Last(t.out.successes) == accepted
            && Last(t.out.errs2) == err && Last(t.out.deltas2) == PassDelta2(s, acc, be, o)
            && (accepted ==>
                  && t.x == Add(s.x, sb.dX) && !t.rolled
                  && t.out.last_err2 == err && t.out.last_err2 < s.out.last_err2
                  && t.lastGood == (if s.out.num_iters > 0 then s.x else s.lastGood)
                  && t.out.num_consec_failures == 0 && t.out.num_failures == s.out.num_failures)
            && (!accepted ==>
                  && t.x == s.lastGood && t.lastGood == s.lastGood && t.rolled
                  && t.out.last_err2 == s.out.last_err2
                  && t.out.num_failures == s.out.num_failures + sb.bumps + 1
                  && t.out.num_consec_failures == s.out.num_consec_failures + sb.bumps + 1)
  {
    PrepareFacts(s.x, s.out, acc, be, o);
    var p := Prepare(s.x, s.out, acc, be, o);
    SolveBlockBumps(acc(s.x), |s.x|, PassCount(s, acc) == 0, s.out.num_consec_failures, be, o);
    DecideFacts(s.(out := p.out), p.err, p.sb, p.dX_norm2, p.Jt_res_norm2, be, o);
  }

  /** After a rejected step the consecutive-failure cap is checked first:
      reaching it stops the run with MaxConsecFails even when the total cap
      is reached too; the total cap alone stops it with MaxFails. */
  lemma FailureCapsInOrder(s: State, acc: Accumulator, be: Backend, o: Options)
    requires Fits(s, acc, be) && Consistent(s) && Decides(s, acc, be, o)
    requires !(PassError(s, acc) < s.out.last_err2 && !PassSolve(s, acc, be, o).failed)
    ensures var r := Step(s, acc, be, o);
            var t := Final(r);
            var consecCap := o.max_consec_failures > 0 && t.out.num_consec_failures >= o.max_consec_failures;
            var totalCap := o.max_total_failures > 0 && t.out.num_failures >= o.max_total_failures;
            && (consecCap ==> r.Break? && t.out.stop_reason == MaxConsecFails)
            && (!consecCap && totalCap ==> r.Break? && t.out.stop_reason == MaxFails)
            && (PassSolve(s, acc, be, o).failed ==>
                  r.Break? && t.out.stop_reason in {MaxConsecFails, MaxFails, SolverFailed})
  {
    PrepareFacts(s.x, s.out, acc, be, o);
    var p := Prepare(s.x, s.out, acc, be, o);
    SolveBlockBumps(acc(s.x), |s.x|, PassCount(s, acc) == 0, s.out.num_consec_failures, be, o);
    DecideFacts(s.(out := p.out), p.err, p.sb, p.dX_norm2, p.Jt_res_norm2, be, o);
  }

  /** When LDLT finds the system not positive definite, dX stays zero, both
      counters grow by two (once in the solve block, once as a rejected
      step) and the run stops: on a failure cap if one fired, else with
      SolverFailed. */
  lemma LdltFailureCountsTwice(s: State, acc: Accumulator, be: Backend, o: Options)
    requires Fits(s, acc, be) && Consistent(s)
    requires PassCount(s, acc) != 0 && s.out.num_consec_failures <= MaxTries(o) && o.ldlt
    requires be.ldlt(MirrorUpper(acc(s.x).JtJ), acc(s.x).Jt_res).None?
    ensures var r := Step(s, acc, be, o);
            var t := Final(r);
            && r.Break? && t.out.stop_reason in {MaxConsecFails, MaxFails, SolverFailed}
            && t.out.num_failures == s.out.num_failures + 2
            && t.out.num_consec_failures == s.out.num_consec_failures + 2
            && t.out.deltas2 == s.out.deltas2 + [0.0] && t.out.successes == s.out.successes + [false]
            && t.x == s.lastGood
  {
    PrepareFacts(s.x, s.out, acc, be, o);
    var p := Prepare(s.x, s.out, acc, be, o);
    assert p.sb.failed && p.sb.bumps == 1 && p.dX_norm2 == 0.0;
    DecideFacts(s.(out := p.out), p.err, p.sb, p.dX_norm2, p.Jt_res_norm2, be, o);
  }

  /** On a later pass an empty system is a failed solve: the step is
      rejected, X returns to X_last_good, the pass records two history
      entries, and the run stops on a cap or with SolverFailed. */
  lemma LaterPassWithoutResiduals(s: State, acc: Accumulator, be: Backend, o: Options)
    requires Fits(s, acc, be) && Consistent(s) && s.out.num_iters > 0 && PassCount(s, acc) == 0
    ensures var r := Step(s, acc, be, o);
            var t := Final(r);
            && r.Break? && t.out.stop_reason in {MaxConsecFails, MaxFails, SolverFailed}
            && t.out.num_residuals == 0
            && t.out.errs2 == s.out.errs2 + [0.0, PassError(s, acc)]
            && t.out.deltas2 == s.out.deltas2 + [0.0, 0.0]
            && t.out.successes == s.out.successes + [false, false]
            && t.out.num_failures == s.out.num_failures + 1
            && t.x == s.lastGood
  {
    PrepareFacts(s.x, s.out, acc, be, o);
    var p := Prepare(s.x, s.out, acc, be, o);
    assert p.sb.failed && p.sb.bumps == 0 && p.dX_norm2 == 0.0;
    DecideFacts(s.(out := p.out), p.err, p.sb, p.dX_norm2, p.Jt_res_norm2, be, o);
    assert [0.0] + [PassError(s, acc)] == [0.0, PassError(s, acc)];
  }

  /** A NaN step breaks out of the loop with the stop reason left at
      MaxIters, so the run reports success, and X is left where it was. */
  lemma NaNStepKeepsStopReason(s: State, acc: Accumulator, be: Backend, o: Options)
    requires Fits(s, acc, be) && Consistent(s)
    requires !(PassCount(s, acc) == 0 && s.out.num_iters == 0) && be.isNaN(PassDelta2(s, acc, be, o))
    ensures var r := Step(s, acc, be, o);
            r.Break? && r.last.out.stop_reason == MaxIters && r.last.out.Succeeded() && r.last.x == s.x
  {
    PrepareFacts(s.x, s.out, acc, be, o);
    var p := Prepare(s.x, s.out, acc, be, o);
    SolveBlockBumps(acc(s.x), |s.x|, PassCount(s, acc) == 0, s.out.num_consec_failures, be, o);
    DecideFacts(s.(out := p.out), p.err, p.sb, p.dX_norm2, p.Jt_res_norm2, be, o);
  }

  /** From a consistent state the loop ends with the histories in lockstep,
      at most num_iters + 1 passes counted, last_err2 no higher than before,
      a stop reason backed by its condition, and MaxIters when it ran out of
      iterations. */
  lemma {:induction false} RunOutcome(s: State, acc: Accumulator, be: Backend, o: Options)
    requires Fits(s, acc, be) && Consistent(s) && s.out.num_iters <= o.num_iters + 1
    ensures var t := Run(s, acc, be, o);
            && Lockstep(t.out)
            && t.out.num_iters <= o.num_iters + 1
            && t.out.last_err2 <= s.out.last_err2
            && t.out.num_consec_failures <= t.out.num_failures
            && ExitExplained(t.out, o)
            && (t.out.num_iters == o.num_iters + 1 ==> t.out.stop_reason == MaxIters)
    decreases o.num_iters + 1 - s.out.num_iters
  {
    if s.out.num_iters < o.num_iters + 1 {
      StepKeepsInvariant(s, acc, be, o);
      match Step(s, acc, be, o)
      case Break(t) =>
      case Continue(t) =>
        RunOutcome(t, acc, be, o);
    }
  }

  /** A first evaluation without residuals ends the run at once with
      NoResiduals, X unchanged and one history entry after the seeds. */
  lemma FirstPassWithoutResiduals(x: Vector, acc: Accumulator, be: Backend, o: Options)
    requires be.WellShaped() && Shaped(acc, |x|) && ErrAndCountOf(acc(x).output).1 == 0
    ensures var t := Run(Init(x, o), acc, be, o);
            && t.x == x && t.out.stop_reason == NoResiduals && !t.out.Succeeded()
            && t.out.num_iters == 0 && t.out.num_residuals == 0 && t.out.num_failures == 0
            && t.out.errs2 == [0.0] && t.out.deltas2 == [2.0, 0.0] && t.out.successes == [true, false]
  {
    PrepareFacts(x, Init(x, o).out, acc, be, o);
  }

  /** What a whole run of the driver guarantees: histories in lockstep with
      one seed entry, at most num_iters + 1 passes, last_err2 never above its
      initial FLT_MAX, a stop reason backed by its condition (never
      SystemHasNaNs), and MaxIters when the iterations ran out. So it
      succeeds exactly when it did not end on a solver failure or an empty
      first system. */
  lemma GNOutcome(x: Vector, acc: Accumulator, be: Backend, o: Options)
    requires be.WellShaped() && Shaped(acc, |x|)
    ensures var t := Run(Init(x, o), acc, be, o);
            && |t.out.deltas2| == |t.out.errs2| + 1 && |t.out.successes| == |t.out.errs2| + 1
            && t.out.num_iters <= o.num_iters + 1
            && t.out.last_err2 <= FloatMax
            && ExitExplained(t.out, o)
            && (t.out.num_iters == o.num_iters + 1 ==> t.out.stop_reason == MaxIters)
            && (t.out.Succeeded() <==> t.out.stop_reason != SolverFailed && t.out.stop_reason != NoResiduals)
  {
    RunOutcome(Init(x, o), acc, be, o);
  }
}
