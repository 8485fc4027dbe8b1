/** The legacy Gauss-Newton driver `gn::GN`: evaluates the normal equations
    JᵀJ·dX = -Jᵀres through the user's accumulation function, solves them,
    accepts the step when the error decreased and otherwise rolls X back,
    counting failures and recording per-iteration histories until a stop
    criterion fires.

    The driver is modelled twice: `Step` is one pass of the loop as a
    function of the state, `Run` iterates it, and the method `GN` is the
    in-place loop of the source, proved to end in the state `Run` computes. */
module GaussNewton {
  import opened Wrappers
  import opened Numerics
  import opened Traits

  /** Output::StopReason. */
  datatype StopReason =
    | MaxIters        // reached the iteration bound (success)
    | MinDeltaNorm    // the step became small enough (success)
    | MinGradNorm     // the gradient became small enough (success)
    | MaxFails        // failed to decrease the error too often (success)
    | MaxConsecFails  // failed to decrease the error too often in a row (success)
    | SystemHasNaNs   // the step is NaN (failure)
    | SolverFailed    // the normal equations could not be solved (failure)
    | NoResiduals     // the system has no residuals (failure)

  /** gn::Options, without the logging fields. */
  datatype Options = Options(
    ldlt: bool,                 // solve by LDLT; otherwise by JtJ.inverse()
    JtJ_is_full: bool,          // JtJ is filled entirely, not only its upper triangle
    num_iters: nat,             // maximum number of iterations
    min_delta_norm2: real,      // stop when |dX|² falls below this (if > 0)
    min_grad_norm2: real,       // stop when |Jᵀres|² falls below this (if > 0)
    max_total_failures: nat,    // stop after this many failures (if > 0)
    max_consec_failures: nat,   // stop after this many failures in a row (if > 0)
    export_JtJ: bool)           // return the last accepted JtJ

  /** The defaults of gn::Options. */
  function DefaultOptions(): (o: Options)
    ensures o.ldlt && o.JtJ_is_full && o.num_iters == 100 && o.export_JtJ
    ensures o.min_delta_norm2 == 0.0 && o.min_grad_norm2 == 0.000000000001
    ensures o.max_total_failures == 1 && o.max_consec_failures == 1
  {
    Options(true, true, 100, 0.0, 0.000000000001, 1, 1, true)
  }

  /** std::numeric_limits<float>::max(), the initial last_err2. */
  const FloatMax: real := 340282346638528859811704183484516925440.0

  /** gn::Output. */
  datatype Output = Output(
    last_err2: real,               // error of the last accepted step
    stop_reason: StopReason,
    num_residuals: int,            // residual count of the last evaluation
    num_iters: nat,
    num_failures: nat,
    num_consec_failures: nat,
    last_JtJ: Matrix,              // JtJ of the last accepted step
    errs2: seq<real>,              // per-iteration errors
    deltas2: seq<real>,            // per-iteration |dX|², after one seed entry
    successes: seq<bool>)          // per-iteration acceptance, after one seed entry
  {
    /** The run did not end on NaNs, a solver failure or an empty system. */
    predicate Succeeded()
    {
      stop_reason != SystemHasNaNs && stop_reason != SolverFailed && stop_reason != NoResiduals
    }

    /** The run ended on one of the two convergence criteria. */
    predicate Converged()
    {
      stop_reason == MinDeltaNorm || stop_reason == MinGradNorm
    }
  }

  /** What the accumulation function returns: an error alone (counted as
      one residual) or an (error, residual count) pair. */
  datatype Returned = Err(err: real) | ErrAndCount(err: real, count: int)

  /** One evaluation of the accumulation function at X: what it returned
      and the JtJ and Jᵀres it accumulated into the zeroed buffers. */
  datatype System = System(output: Returned, JtJ: Matrix, Jt_res: Vector)

  /** `acc(X, JtJ, Jt_res)`, called with zeroed buffers, as a function of X. */
  type Accumulator = Vector -> System

  /** The accumulation function fills n-sized buffers at an n-sized X. */
  ghost predicate Shaped(acc: Accumulator, n: nat)
  {
    forall x {:trigger acc(x)} :: |x| == n ==> |acc(x).Jt_res| == n && IsMatrix(acc(x).JtJ, n, n)
  }

  /** The driver's state between two passes of its loop. */
  datatype State = State(
    x: Vector,          // X
    lastGood: Vector,   // X_last_good
    rolled: bool,       // already_rolled_true
    out: Output)

  /** The outcome of one pass: go on with the next iteration, or stop. */
  datatype Iter = Continue(next: State) | Break(last: State)

  /** The outcome of the inner solve block. */
  datatype SolveOutcome = SolveOutcome(
    dX: Vector,
    failed: bool,   // solver_failed
    JtJ: Matrix,    // JtJ after the block (mirrored on the inverse path)
    bumps: nat)     // how many times the block counted a failure

  /** The (err, nerr) pair read off the accumulation function's result. */
  function ErrAndCountOf(r: Returned): (p: (real, int))
    ensures r.Err? ==> p == (r.err, 1)
    ensures r.ErrAndCount? ==> p == (r.err, r.count)
  {
    match r
    case Err(e) => (e, 1)
    case ErrAndCount(e, n) => (e, n)
  }

  /** max_tries: the bound on consecutive failures under which the solve
      block still runs. */
  function MaxTries(o: Options): (t: nat)
    ensures o.max_consec_failures > 0 ==>
      t >= 1 && t >= o.max_total_failures && (t == 1 || t == o.max_total_failures)
    ensures o.max_consec_failures == 0 ==> t == 255
  {
    if o.max_consec_failures > 0 then (if o.max_total_failures > 1 then o.max_total_failures else 1) else 255
  }

  /** The inner solve block (gn.h:151-180). It is skipped when there are
      no residuals or too many consecutive failures; LDLT factors the upper
      triangle of JtJ, the inverse path first mirrors it when it is not full. */
  function SolveBlock(sys: System, n: nat, skip: bool, consec: nat, be: Backend, o: Options): (r: SolveOutcome)
    requires |sys.Jt_res| == n && IsMatrix(sys.JtJ, n, n) && be.WellShaped()
    ensures |r.dX| == n && IsMatrix(r.JtJ, n, n) && r.bumps <= 1
    ensures skip || consec > MaxTries(o) ==> r == SolveOutcome(Zeros(n), skip, sys.JtJ, 0)
    ensures !skip && consec <= MaxTries(o) && o.ldlt ==>
      && r.JtJ == sys.JtJ
      && (r.failed <==> be.ldlt(MirrorUpper(sys.JtJ), sys.Jt_res).None?)
      && (r.failed ==> r.dX == Zeros(n) && r.bumps == 1)
      && (!r.failed ==> r.dX == Neg(be.ldlt(MirrorUpper(sys.JtJ), sys.Jt_res).value) && r.bumps == 0)
    ensures !skip && consec <= MaxTries(o) && !o.ldlt ==>
      && !r.failed && r.bumps == 0
      && r.JtJ == (if o.JtJ_is_full then sys.JtJ else MirrorUpper(sys.JtJ))
      && r.dX == Neg(be.inverseSolve(r.JtJ, sys.Jt_res))
  {
    if skip || consec > MaxTries(o) then SolveOutcome(Zeros(n), skip, sys.JtJ, 0)
    else if o.ldlt then
      match be.ldlt(MirrorUpper(sys.JtJ), sys.Jt_res)
      case Some(d) => SolveOutcome(Neg(d), false, sys.JtJ, 0)
      case None => SolveOutcome(Zeros(n), true, sys.JtJ, 1)
    else
      var JtJ := if o.JtJ_is_full then sys.JtJ else MirrorUpper(sys.JtJ);
      SolveOutcome(Neg(be.inverseSolve(JtJ, sys.Jt_res)), false, JtJ, 0)
  }

  /** Appends one entry to each history. */
  function Record(out: Output, err: real, delta2: real, success: bool): (r: Output)
    ensures r.errs2 == out.errs2 + [err] && r.deltas2 == out.deltas2 + [delta2]
    ensures r.successes == out.successes + [success]
    ensures r.(errs2 := out.errs2, deltas2 := out.deltas2, successes := out.successes) == out
  {
    out.(errs2 := out.errs2 + [err], deltas2 := out.deltas2 + [delta2], successes := out.successes + [success])
  }

  /** The stop checks at the end of a pass that did not break on NaNs
      (gn.h:236-270): after a rejected step the consecutive-failure cap and
      then the total-failure cap, then a solver failure, a small step and a
      small gradient; when none fires the iteration count moves on. The
      result says whether the loop stops and gives the output then. */
  function StopCheck(out: Output, rejected: bool, failed: bool, dX_norm2: real, Jt_res_norm2: real,
                     o: Options): (r: (bool, Output))
    ensures var consecCap := rejected && o.max_consec_failures > 0 && out.num_consec_failures >= o.max_consec_failures;
            var totalCap := rejected && o.max_total_failures > 0 && out.num_failures >= o.max_total_failures;
            var smallStep := o.min_delta_norm2 > 0.0 && dX_norm2 < o.min_delta_norm2;
            var smallGrad := o.min_grad_norm2 > 0.0 && Jt_res_norm2 < o.min_grad_norm2;
            && (consecCap ==> r == (true, out.(stop_reason := MaxConsecFails)))
            && (!consecCap && totalCap ==> r == (true, out.(stop_reason := MaxFails)))
            && (!consecCap && !totalCap && failed ==> r == (true, out.(stop_reason := SolverFailed)))
            && (!consecCap && !totalCap && !failed && smallStep ==> r == (true, out.(stop_reason := MinDeltaNorm)))
            && (!consecCap && !totalCap && !failed && !smallStep && smallGrad ==>
                  r == (true, out.(stop_reason := MinGradNorm)))
            && (!r.0 <==> !consecCap && !totalCap && !failed && !smallStep && !smallGrad)
            && (!r.0 ==> r.1 == out.(num_iters := out.num_iters + 1))
  {
    if rejected && o.max_consec_failures > 0 && out.num_consec_failures >= o.max_consec_failures then
      (true, out.(stop_reason := MaxConsecFails))
    else if rejected && o.max_total_failures > 0 && out.num_failures >= o.max_total_failures then
      (true, out.(stop_reason := MaxFails))
    else if failed then (true, out.(stop_reason := SolverFailed))
    else if o.min_delta_norm2 > 0.0 && dX_norm2 < o.min_delta_norm2 then
      (true, out.(stop_reason := MinDeltaNorm))
    else if o.min_grad_norm2 > 0.0 && Jt_res_norm2 < o.min_grad_norm2 then
      (true, out.(stop_reason := MinGradNorm))
    else (false, out.(num_iters := out.num_iters + 1))
  }

  /** The state after an accepted step (gn.h:200-224): X_last_good takes X
      (not on the first iteration), X moves by dX, the error and (when
      exported) JtJ are recorded and the consecutive failures reset. */
  function Accepted(s: State, err: real, sb: SolveOutcome, o: Options): (t: State)
    requires |sb.dX| == |s.x|
    ensures t.x == Add(s.x, sb.dX) && !t.rolled
    ensures t.lastGood == if s.out.num_iters > 0 then s.x else s.lastGood
    ensures t.out == s.out.(successes := s.out.successes + [true], last_err2 := err,
                            last_JtJ := if o.export_JtJ then sb.JtJ else s.out.last_JtJ,
                            num_consec_failures := 0)
  {
    State(Add(s.x, sb.dX), if s.out.num_iters > 0 then s.x else s.lastGood, false,
          s.out.(successes := s.out.successes + [true],
                 last_err2 := err,
                 last_JtJ := if o.export_JtJ then sb.JtJ else s.out.last_JtJ,
                 num_consec_failures := 0))
  }

  /** The state after a rejected step (gn.h:225-235): X returns to
      X_last_good unless it already did since the last accepted step, and
      both failure counters grow by one. */
  function Rejected(s: State): (t: State)
    ensures t.x == (if s.rolled then s.x else s.lastGood) && t.lastGood == s.lastGood && t.rolled
    ensures t.out == s.out.(successes := s.out.successes + [false],
                            num_failures := s.out.num_failures + 1,
                            num_consec_failures := s.out.num_consec_failures + 1)
  {
    State(if !s.rolled then s.lastGood else s.x, s.lastGood, true,
          s.out.(successes := s.out.successes + [false],
                 num_failures := s.out.num_failures + 1,
                 num_consec_failures := s.out.num_consec_failures + 1))
  }

  /** The step-size and gradient measures of a pass: |dX|² (zero after a
      solver failure) and |Jᵀres|² (zero when the gradient test is off). */
  function Measures(sys: System, sb: SolveOutcome, o: Options): (m: (real, real))
    ensures m.0 == if sb.failed then 0.0 else SquaredNorm(sb.dX)
    ensures m.1 == if o.min_grad_norm2 == 0.0 then 0.0 else SquaredNorm(sys.Jt_res)
  {
    (if sb.failed then 0.0 else SquaredNorm(sb.dX),
     if o.min_grad_norm2 == 0.0 then 0.0 else SquaredNorm(sys.Jt_res))
  }

  /** The evaluation stage of a pass (gn.h:128-149): the residual count is
      recorded, and an empty system records a (0, 0, rejected) history entry. */
  function Evaluated(out: Output, nerr: int): (r: Output)
    ensures nerr != 0 ==> r == out.(num_residuals := nerr)
    ensures nerr == 0 ==> r == Record(out.(num_residuals := nerr), 0.0, 0.0, false)
  {
    var out0 := out.(num_residuals := nerr);
    if nerr == 0 then Record(out0, 0.0, 0.0, false) else out0
  }

  /** The second half of a pass (gn.h:185-270), once the system is solved:
      a NaN step breaks out of the loop, leaving stop_reason as it was;
      otherwise the error and |dX|² are recorded, the step is accepted when
      the error decreased and the solve did not fail, and the stop checks run. */
  function Decide(s: State, err: real, sb: SolveOutcome, dX_norm2: real, Jt_res_norm2: real,
                  be: Backend, o: Options): (r: Iter)
    requires |sb.dX| == |s.x| && |s.lastGood| == |s.x|
    ensures var t := if r.Continue? then r.next else r.last; |t.x| == |s.x| && |t.lastGood| == |s.x|
    ensures r.Continue? ==> r.next.out.num_iters == s.out.num_iters + 1
    ensures r.Break? ==> r.last.out.num_iters == s.out.num_iters
    ensures be.isNaN(dX_norm2) ==> r == Break(s)
    ensures !be.isNaN(dX_norm2) ==>
      var t := if r.Continue? then r.next else r.last;
      var accepted := err < s.out.last_err2 && !sb.failed;
      && t.out.errs2 == s.out.errs2 + [err] && t.out.deltas2 == s.out.deltas2 + [dX_norm2]
      && t.out.successes == s.out.successes + [accepted]
      && (accepted ==> t.x == Add(s.x, sb.dX) && t.out.last_err2 == err && t.out.num_consec_failures == 0)
      && (!accepted ==> t.x == (if s.rolled then s.x else s.lastGood) && t.out.last_err2 == s.out.last_err2 &&
                        t.out.num_failures == s.out.num_failures + 1)
  {
    if be.isNaN(dX_norm2) then Break(s)
    else
      var s3 := s.(out := s.out.(errs2 := s.out.errs2 + [err], deltas2 := s.out.deltas2 + [dX_norm2]));
      var accept := err - s3.out.last_err2 < 0.0 && !sb.failed;
      var t := if accept then Accepted(s3, err, sb, o) else Rejected(s3);
      var stop := StopCheck(t.out, !accept, sb.failed, dX_norm2, Jt_res_norm2, o);
      if stop.0 then Break(t.(out := stop.1)) else Continue(t.(out := stop.1))
  }

  /** The first half of a pass, up to the NaN check. */
  datatype Prepared =
    | Empty(out: Output)     // the first system had no residuals: the run stops
    | Solved(out: Output, err: real, sb: SolveOutcome, dX_norm2: real, Jt_res_norm2: real)

  /** The first half of a pass (gn.h:128-184): evaluate at x, stop on an
      empty first system, otherwise solve, count a solver failure, and
      measure the step and the gradient. */
  function Prepare(x: Vector, out: Output, acc: Accumulator, be: Backend, o: Options): (p: Prepared)
    requires be.WellShaped() && Shaped(acc, |x|)
    ensures p.Empty? <==> ErrAndCountOf(acc(x).output).1 == 0 && out.num_iters == 0
    ensures p.Empty? ==> p.out.num_iters == out.num_iters && p.out.stop_reason == NoResiduals
    ensures p.Solved? ==> |p.sb.dX| == |x| && p.out.num_iters == out.num_iters
  {
    var sys := acc(x);
    var nerr := ErrAndCountOf(sys.output).1;
    var out1 := Evaluated(out, nerr);
    if nerr == 0 && out1.num_iters == 0 then Empty(out1.(stop_reason := NoResiduals))
    else
      var sb := SolveBlock(sys, |x|, nerr == 0, out1.num_consec_failures, be, o);
      var out2 := out1.(num_consec_failures := out1.num_consec_failures + sb.bumps,
                        num_failures := out1.num_failures + sb.bumps);
      var m := Measures(sys, sb, o);
      Solved(out2, ErrAndCountOf(sys.output).0, sb, m.0, m.1)
  }

  /** One pass of the driver's loop (gn.h:125-270). */
  function Step(s: State, acc: Accumulator, be: Backend, o: Options): (r: Iter)
    requires be.WellShaped() && Shaped(acc, |s.x|) && |s.lastGood| == |s.x|
    ensures var t := if r.Continue? then r.next else r.last; |t.x| == |s.x| && |t.lastGood| == |s.x|
    ensures r.Continue? ==> r.next.out.num_iters == s.out.num_iters + 1
    ensures r.Break? ==> r.last.out.num_iters == s.out.num_iters
  {
    match Prepare(s.x, s.out, acc, be, o)
    case Empty(out) => Break(s.(out := out))
    case Solved(out, err, sb, dX_norm2, Jt_res_norm2) => Decide(s.(out := out), err, sb, dX_norm2, Jt_res_norm2, be, o)
  }

  /** The loop: passes until one breaks or num_iters reaches num_iters + 1. */
  function Run(s: State, acc: Accumulator, be: Backend, o: Options): (t: State)
    requires be.WellShaped() && Shaped(acc, |s.x|) && |s.lastGood| == |s.x|
    ensures |t.x| == |s.x| && |t.lastGood| == |s.x|
    ensures s.out.num_iters <= o.num_iters + 1 ==> t.out.num_iters <= o.num_iters + 1
    decreases o.num_iters + 1 - s.out.num_iters
  {
    if s.out.num_iters >= o.num_iters + 1 then s
    else
      match Step(s, acc, be, o)
      case Break(t) => t
      case Continue(t) => Run(t, acc, be, o)
  }

  /** The state before the first pass: histories seeded with one entry each,
      X_last_good = X and the rollback flag set. */
  function Init(x: Vector, o: Options): (s: State)
    ensures s.x == x && s.lastGood == x && s.rolled
    ensures s.out.stop_reason == MaxIters && s.out.num_iters == 0 && s.out.last_err2 == FloatMax
    ensures s.out.num_failures == 0 && s.out.num_consec_failures == 0
    ensures s.out.errs2 == [] && s.out.deltas2 == [2.0] && s.out.successes == [true]
    ensures s.out.last_JtJ == if o.export_JtJ then ZeroMatrix(|x|, |x|) else []
  {
    State(x, x, true,
          Output(FloatMax, MaxIters, 0, 0, 0, 0,
                 if o.export_JtJ then ZeroMatrix(|x|, |x|) else [],
                 [], [2.0], [true]))
  }

  /** The solve block of one pass (gn.h:151-180), on the evaluated system;
      it returns dX, solver_failed, the JtJ it leaves, and the counter
      increments. */
  method SolveNormalEquations(sys: System, n: nat, nerr: int, consec: nat, maxTries: nat, be: Backend, o: Options)
    returns (dX: Vector, failed: bool, JtJ: Matrix, bumps: nat)
    requires |sys.Jt_res| == n && IsMatrix(sys.JtJ, n, n) && be.WellShaped() && maxTries == MaxTries(o)
    ensures SolveOutcome(dX, failed, JtJ, bumps) == SolveBlock(sys, n, nerr == 0, consec, be, o)
  {
    dX := Zeros(n);
    failed := nerr == 0;
    JtJ := sys.JtJ;
    bumps := 0;
    if nerr != 0 && consec <= maxTries {
      if o.ldlt {
        var sol := be.ldlt(MirrorUpper(JtJ), sys.Jt_res);
        if sol.Some? {
          dX := Neg(sol.value);
          failed := false;
        } else {
          failed := true;
          dX := Zeros(n);
          bumps := 1;
        }
      } else {
        if !o.JtJ_is_full {
          JtJ := MirrorUpper(JtJ);
        }
        dX := Neg(be.inverseSolve(JtJ, sys.Jt_res));
        failed := false;
      }
    }
  }

  /** An accepted step on X in place (gn.h:200-224). */
  method AcceptStep(X: array<real>, lastGood: Vector, out: Output, err: real, sb: SolveOutcome, o: Options)
    returns (lastGood': Vector, out': Output)
    requires |sb.dX| == X.Length
    modifies X
    ensures State(X[..], lastGood', false, out') == Accepted(State(old(X[..]), lastGood, true, out), err, sb, o)
  {
    lastGood', out' := lastGood, out;
    out' := out'.(successes := out'.successes + [true]);
    if out'.num_iters > 0 {
      lastGood' := X[..];
    }
    PlusEq(X, sb.dX);
    out' := out'.(last_err2 := err);
    if o.export_JtJ {
      out' := out'.(last_JtJ := sb.JtJ);
    }
    out' := out'.(num_consec_failures := 0);
  }

  /** A rejected step on X in place (gn.h:225-235). */
  method RejectStep(X: array<real>, lastGood: Vector, rolled: bool, out: Output)
    returns (out': Output)
    requires |lastGood| == X.Length
    modifies X
    ensures State(X[..], lastGood, true, out') == Rejected(State(old(X[..]), lastGood, rolled, out))
  {
    out' := out.(successes := out.successes + [false]);
    if !rolled {
      forall i | 0 <= i < X.Length {
        X[i] := lastGood[i];
      }
      assert X[..] == lastGood;
    }
    out' := out'.(num_failures := out'.num_failures + 1,
                  num_consec_failures := out'.num_consec_failures + 1);
  }

  /** The stop checks that end a pass (gn.h:236-270). */
  method CheckStop(out: Output, rejected: bool, failed: bool, dX_norm2: real, Jt_res_norm2: real, o: Options)
    returns (done: bool, out': Output)
    ensures (done, out') == StopCheck(out, rejected, failed, dX_norm2, Jt_res_norm2, o)
  {
    done, out' := true, out;
    if rejected {
      if o.max_consec_failures > 0 && out.num_consec_failures >= o.max_consec_failures {
        out' := out.(stop_reason := MaxConsecFails);
        return;
      }
      if o.max_total_failures > 0 && out.num_failures >= o.max_total_failures {
        out' := out.(stop_reason := MaxFails);
        return;
      }
    }
    if failed {
      out' := out.(stop_reason := SolverFailed);
      return;
    }
    if o.min_delta_norm2 > 0.0 && dX_norm2 < o.min_delta_norm2 {
      out' := out.(stop_reason := MinDeltaNorm);
      return;
    }
    if o.min_grad_norm2 > 0.0 && Jt_res_norm2 < o.min_grad_norm2 {
      out' := out.(stop_reason := MinGradNorm);
      return;
    }
    done, out' := false, out.(num_iters := out.num_iters + 1);
  }

  /** The second half of a pass on X in place (gn.h:185-270). */
  method DecideStep(X: array<real>, lastGood: Vector, rolled: bool, out: Output, err: real,
                    sb: SolveOutcome, dX_norm2: real, Jt_res_norm2: real, be: Backend, o: Options)
    returns (done: bool, lastGood': Vector, rolled': bool, out': Output)
    requires |sb.dX| == X.Length && |lastGood| == X.Length
    modifies X
    ensures var r := Decide(State(old(X[..]), lastGood, rolled, out), err, sb, dX_norm2, Jt_res_norm2, be, o);
            done == r.Break? && State(X[..], lastGood', rolled', out') == (if done then r.last else r.next)
  {
    lastGood', rolled', out' := lastGood, rolled, out;
    if be.isNaN(dX_norm2) {
      return true, lastGood', rolled', out';
    }
    out' := out'.(errs2 := out'.errs2 + [err], deltas2 := out'.deltas2 + [dX_norm2]);
    var accept := err - out'.last_err2 < 0.0 && !sb.failed;
    if accept {
      lastGood', out' := AcceptStep(X, lastGood', out', err, sb, o);
      rolled' := false;
    } else {
      out' := RejectStep(X, lastGood', rolled', out');
      rolled' := true;
    }
    done, out' := CheckStop(out', !accept, sb.failed, dX_norm2, Jt_res_norm2, o);
  }

  /** The first half of a pass on X (gn.h:128-184). */
  method EvaluateAndSolve(X: array<real>, out: Output, maxTries: nat, acc: Accumulator, be: Backend, o: Options)
    returns (p: Prepared)
    requires be.WellShaped() && Shaped(acc, X.Length) && maxTries == MaxTries(o)
    ensures p == Prepare(X[..], out, acc, be, o)
  {
    var sys := acc(X[..]);
    var (err, nerr) := ErrAndCountOf(sys.output);
    var out' := out.(num_residuals := nerr);
    if nerr == 0 {
      out' := Record(out', 0.0, 0.0, false);
      if out'.num_iters == 0 {
        out' := out'.(stop_reason := NoResiduals);
        return Empty(out');
      }
    }
    var dX, failed, JtJ, bumps := SolveNormalEquations(sys, X.Length, nerr, out'.num_consec_failures, maxTries, be, o);
    out' := out'.(num_consec_failures := out'.num_consec_failures + bumps,
                  num_failures := out'.num_failures + bumps);
    var dX_norm2 := if failed then 0.0 else SquaredNorm(dX);
    var Jt_res_norm2 := if o.min_grad_norm2 == 0.0 then 0.0 else SquaredNorm(sys.Jt_res);
    p := Solved(out', err, SolveOutcome(dX, failed, JtJ, bumps), dX_norm2, Jt_res_norm2);
  }

  /** One pass of the loop on X in place (gn.h:125-270): `done` tells
      whether the pass broke out of the loop, and the new state is the one
      `Step` gives. */
  method Pass(X: array<real>, lastGood: Vector, rolled: bool, out: Output, maxTries: nat,
              acc: Accumulator, be: Backend, o: Options)
    returns (done: bool, lastGood': Vector, rolled': bool, out': Output)
    requires be.WellShaped() && Shaped(acc, X.Length) && |lastGood| == X.Length && maxTries == MaxTries(o)
    modifies X
    ensures var r := Step(State(old(X[..]), lastGood, rolled, out), acc, be, o);
            done == r.Break? && State(X[..], lastGood', rolled', out') == (if done then r.last else r.next)
  {
    var p := EvaluateAndSolve(X, out, maxTries, acc, be, o);
    match p
    case Empty(out1) =>
      return true, lastGood, rolled, out1;
    case Solved(out1, err, sb, dX_norm2, Jt_res_norm2) =>
      done, lastGood', rolled', out' := DecideStep(X, lastGood, rolled, out1, err, sb, dX_norm2, Jt_res_norm2, be, o);
  }

  /** gn::GN (gn.h:99-273): iterates on X in place and returns the output.
      X ends where `Run` from `Init` ends, and the output is `Run`'s. */
  method GN(X: array<real>, acc: Accumulator, be: Backend, o: Options) returns (out: Output)
    requires be.WellShaped() && Shaped(acc, X.Length)
    modifies X
    ensures var t := Run(Init(old(X[..]), o), acc, be, o); X[..] == t.x && out == t.out
  {
    ghost var final := Run(Init(X[..], o), acc, be, o);
    var xLastGood := X[..];
    var rolled := true;
    var maxTries := MaxTries(o);
    out := Output(FloatMax, MaxIters, 0, 0, 0, 0,
                  if o.export_JtJ then ZeroMatrix(X.Length, X.Length) else [],
                  [], [2.0], [true]);
    while out.num_iters < o.num_iters + 1
      invariant |xLastGood| == X.Length
      invariant Run(State(X[..], xLastGood, rolled, out), acc, be, o) == final
      decreases o.num_iters + 1 - out.num_iters
    {
      var done;
      done, xLastGood, rolled, out := Pass(X, xLastGood, rolled, out, maxTries, acc, be, o);
      if done {
        return;
      }
    }
  }
}
