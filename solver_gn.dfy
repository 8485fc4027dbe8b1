/** The Gauss-Newton solver object (SolverGN): owns the gradient and the
    Hessian approximation JᵀJ, builds them through an accumulation function
    and solves the normal equations H·dx = -grad. */
module GNSolver {
  import opened Wrappers
  import opened Numerics
  import opened Traits
  import opened SolverBase

  /** The solver options the GN solver reads. */
  datatype Options = Options(
    err: CostOptions,        // post-processing of the accumulated error
    grad_clipping: real,     // Clamp bound for the gradient, 0 for none
    check_min_H_diag: real,  // reject a Hessian with a diagonal entry below this, 0 for no check
    H_is_full: bool,         // the accumulation fills all of H, not just its upper triangle
    use_ldlt: bool)          // solve by LDLT rather than by inverting H

  /** GetAccFunc's normalisation of what the user function returned. */
  function Normalize(e: Evaluated, be: Backend): (c: Cost)
    ensures e.ScalarCost? ==> c == Cost(e.cost, 1)
    ensures e.PairCost? ==> c == Cost(e.cost, e.count)
    ensures e.VectorCost? ==> c.num_resisuals == |e.residuals|
    ensures e.VectorCost? && be.ExactSqrt() ==> c.cost >= 0.0 && c.cost * c.cost == SquaredNorm(e.residuals)
  {
    match e
    case ScalarCost(cost) => Cost(cost, 1)
    case PairCost(cost, count) => Cost(cost, count)
    case VectorCost(res) =>
      SquaredNormNonNegative(res);
      Cost(Norm(res, be), |res|)
  }

  /** Some entry on the diagonal of h has magnitude below the threshold. */
  predicate SmallDiagonal(h: Matrix, threshold: real)
    requires IsMatrix(h, |h|, |h|)
  {
    exists i | 0 <= i < |h| :: (if h[i][i] < 0.0 then -h[i][i] else h[i][i]) < threshold
  }

  class SolverGN {
    const options: Options
    /** The compile-time size of the system (the square root of H's static size). */
    const Dims: Dim
    const backend: Backend

    var H: Matrix
    var grad: Vector
    var err: real
    var nerr: int

    ghost predicate Valid()
      reads this
    {
      IsMatrix(H, |grad|, |grad|) && (Dims.Fixed? ==> |grad| == Dims.n)
    }

    /** The size Build works at: x's size once a dynamic system is resized. */
    function BuildSize(x: Vector, resize_and_clear: bool): nat
      reads this
    {
      if resize_and_clear && Dims.Dynamic? then |x| else |grad|
    }

    constructor (options: Options, Dims: Dim, backend: Backend)
      ensures Valid()
      ensures this.options == options && this.Dims == Dims && this.backend == backend
      ensures |grad| == if Dims.Fixed? then Dims.n else 0
    {
      this.options := options;
      this.Dims := Dims;
      this.backend := backend;
      var n := if Dims.Fixed? then Dims.n else 0;
      H := ZeroMatrix(n, n);
      grad := Zeros(n);
      err := 0.0;
      nerr := 0;
    }

    /** resize(dims): a dynamic system reallocates when its size differs, a
        static one only checks that the sizes match. */
    method Resize(dims: int) returns (r: ResizeResult)
      requires Valid()
      requires dims >= 0 || dims == DynamicSentinel
      modifies this
      ensures Valid() && err == old(err) && nerr == old(nerr)
      ensures Dims.Dynamic? && dims == DynamicSentinel ==> r == InvalidArgument
      ensures Dims.Dynamic? && dims >= 0 ==>
        && r == Resized(old(|grad|) != dims || old(|H|) != dims)
        && |grad| == dims && IsMatrix(H, dims, dims)
      ensures Dims.Fixed? ==> r == if dims != Dims.n then InvalidArgument else Resized(false)
      ensures r != Resized(true) ==> H == old(H) && grad == old(grad)
    {
      match Dims
      case Dynamic =>
        if dims == DynamicSentinel {
          return InvalidArgument;
        }
        if |grad| != dims || |H| != dims {
          // Eigen leaves the coefficients of a resized matrix unspecified
          H := ZeroMatrix(dims, dims);
          grad := Zeros(dims);
          return Resized(true);
        }
        return Resized(false);
      case Fixed(n) =>
        if dims != n {
          return InvalidArgument;
        }
        return Resized(false);
    }

    /** clear(): every coefficient of H and grad becomes zero. */
    method Clear()
      requires Valid()
      modifies this
      ensures Valid() && err == old(err) && nerr == old(nerr)
      ensures grad == Zeros(old(|grad|)) && H == ZeroMatrix(old(|grad|), old(|grad|))
    {
      H := ZeroMatrix(|grad|, |grad|);
      grad := Zeros(|grad|);
    }

    /** ResizeIfNeeded(x): a dynamic system takes x's size. */
    method ResizeIfNeeded(x: Vector) returns (resized: bool)
      requires Valid()
      modifies this
      ensures Valid() && err == old(err) && nerr == old(nerr)
      ensures Dims.Fixed? ==> !resized
      ensures Dims.Dynamic? ==> resized == (old(|grad|) != |x|) && |grad| == |x|
      ensures !resized ==> H == old(H) && grad == old(grad)
    {
      if Dims.Dynamic? {
        var dims := |x|;
        if |grad| != dims {
          var r := Resize(dims);
          return r.changed;
        }
      }
      return false;
    }

    /** GetAccFunc(res_func): the user function with its result normalised
        to a (cost, count) pair. */
    function GetAccFunc(res_func: AccFunc): (acc: (Vector, Slot<Vector>, Slot<Matrix>) -> (Cost, AccOut))
      ensures forall x, g, h {:trigger acc(x, g, h)} ::
        acc(x, g, h).1 == res_func(x, g, h) && acc(x, g, h).0 == Normalize(res_func(x, g, h).output, backend)
    {
      (x: Vector, g: Slot<Vector>, h: Slot<Matrix>) =>
        var o := res_func(x, g, h);
        (Normalize(o.output, backend), o)
    }

    /** Evaluate(x, res_func, save): the post-processed cost at x, computed
        without derivatives; it is stored only when `save`. */
    method Evaluate(x: Vector, res_func: AccFunc, save: bool) returns (e: real)
      requires Valid()
      modifies this
      ensures Valid() && H == old(H) && grad == old(grad)
      ensures var c := Normalize(res_func(x, Null, Null).output, backend);
              && e == PostProcess(c.cost, c.num_resisuals, options.err, backend.sqrt)
              && (save ==> err == e && nerr == c.num_resisuals)
      ensures !save ==> err == old(err) && nerr == old(nerr)
    {
      var acc := GetAccFunc(res_func);
      var (c, _) := acc(x, Null, Null);
      var ne := c.num_resisuals;
      e := c.cost;
      if !options.err.use_squared_norm { e := backend.sqrt(e); }
      if options.err.downscale_by_2 { e := e * 0.5; }
      if options.err.normalize && ne > 0 { e := e / ne as real; }
      if save {
        err := e;
        nerr := ne;
      }
    }

    /** Accumulate(x, res_func): runs the user function on the solver's own
        buffers, stores the post-processed cost and count, and reports
        whether there were residuals. */
    method Accumulate(x: Vector, res_func: AccFunc) returns (ok: bool)
      requires Valid() && |x| == |grad| && KeepsShape(res_func, |grad|)
      modifies this
      ensures Valid() && |grad| == old(|grad|)
      ensures var o := res_func(x, Buf(old(grad)), Buf(old(H)));
              var c := Normalize(o.output, backend);
              && grad == o.grad.value && H == o.H.value
              && err == PostProcess(c.cost, c.num_resisuals, options.err, backend.sqrt)
              && nerr == c.num_resisuals
              && ok == (c.num_resisuals > 0)
    {
      var acc := GetAccFunc(res_func);
      var (c, o) := acc(x, Buf(grad), Buf(H));
      grad := o.grad.value;
      H := o.H.value;
      var e := c.cost;
      var ne := c.num_resisuals;
      if !options.err.use_squared_norm { e := backend.sqrt(e); }
      if options.err.downscale_by_2 { e := e * 0.5; }
      if options.err.normalize && ne > 0 { e := e / ne as real; }
      err := e;
      nerr := ne;
      ok := ne > 0;
    }

    /** Build(x, res_func, resize_and_clear): (re)sizes and zeroes the system
        if asked, accumulates into it, clamps the gradient, checks H's
        diagonal and mirrors an upper-triangular H into a full one. */
    method Build(x: Vector, res_func: AccFunc, resize_and_clear: bool) returns (ok: bool)
      requires Valid()
      requires |x| == BuildSize(x, resize_and_clear) && KeepsShape(res_func, BuildSize(x, resize_and_clear))
      modifies this
      ensures Valid()
      ensures var n := old(BuildSize(x, resize_and_clear));
              var g0 := if resize_and_clear then Zeros(n) else old(grad);
              var h0 := if resize_and_clear then ZeroMatrix(n, n) else old(H);
              var o := res_func(x, Buf(g0), Buf(h0));
              var c := Normalize(o.output, backend);
              && |grad| == n
              && err == PostProcess(c.cost, c.num_resisuals, options.err, backend.sqrt)
              && nerr == c.num_resisuals
              && (c.num_resisuals <= 0 ==> grad == o.grad.value)
              && (c.num_resisuals > 0 ==> grad == Clamp(o.grad.value, options.grad_clipping).1)
              && (ok <==> c.num_resisuals > 0 &&
                          !(options.check_min_H_diag > 0.0 && SmallDiagonal(o.H.value, options.check_min_H_diag)))
              && H == if ok && !options.H_is_full && !options.use_ldlt then MirrorUpper(o.H.value) else o.H.value
      ensures ok && !options.H_is_full && !options.use_ldlt ==> IsSymmetric(H)
    {
      if resize_and_clear {
        var _ := ResizeIfNeeded(x);
        Clear();
      }
      var success := Accumulate(x, res_func);
      if !success {
        return false;
      }
      grad := Clamp(grad, options.grad_clipping).1;
      if options.check_min_H_diag > 0.0 && SmallDiagonal(H, options.check_min_H_diag) {
        return false;
      }
      if !options.H_is_full && !options.use_ldlt {
        H := MirrorUpper(H);
      }
      return true;
    }

    /** Solve(): the step dx with H·dx = -grad, None on failure. The LDLT
        path factors the self-adjoint view of H's upper triangle, which is
        why Build leaves an upper-only H unmirrored on that path. */
    function Solve(): (r: Option<Vector>)
      reads this
      requires Valid() && backend.epsilon >= 0.0
      ensures nerr == 0 ==> r.None?
      ensures nerr != 0 && options.use_ldlt ==> (r.Some? <==> backend.ldlt(MirrorUpper(H), grad).Some?)
      ensures nerr != 0 && !options.use_ldlt ==> r.Some?
      ensures r.Some? && options.use_ldlt ==> r.value == Neg(backend.ldlt(MirrorUpper(H), grad).value)
      ensures nerr != 0 && !options.use_ldlt && Dims != Fixed(1) ==> r == Some(Neg(backend.inverseSolve(H, grad)))
      ensures r.Some? && !options.use_ldlt && Dims == Fixed(1) ==>
        && (H[0][0] > backend.epsilon ==> |r.value| == 1 && H[0][0] * r.value[0] == -grad[0])
        && (H[0][0] <= backend.epsilon ==> r.value == Zeros(1))
    {
      if nerr == 0 then None
      else if options.use_ldlt then
        match backend.ldlt(MirrorUpper(H), grad)
        case Some(dx) => Some(Neg(dx))
        case None => None
      else if Dims == Fixed(1) then
        if H[0][0] > backend.epsilon then
          var dx := Neg(Scale(1.0 / H[0][0], grad));
          assert H[0][0] * dx[0] == -grad[0];
          Some(dx)
        else Some(Zeros(|grad|))
      else Some(Neg(backend.inverseSolve(H, grad)))
    }
  }

  /** On the LDLT path a step Solve returns solves the normal equations
      H·dx = -grad of the symmetric matrix H's upper triangle stands for
      (H itself when it is filled symmetrically), when the factorisation's
      solutions are exact. */
  lemma SolveSolvesNormalEquations(s: SolverGN)
    requires s.Valid() && s.backend.epsilon >= 0.0 && s.options.use_ldlt && s.backend.SoundLdlt()
    requires s.Solve().Some?
    ensures |s.Solve().value| == |s.grad|
    ensures MatVec(MirrorUpper(s.H), s.Solve().value) == Neg(s.grad)
    ensures IsSymmetric(s.H) ==> MatVec(s.H, s.Solve().value) == Neg(s.grad)
  {
    var A := MirrorUpper(s.H);
    MirrorUpperIsSymmetric(s.H);
    var d := s.backend.ldlt(A, s.grad).value;
    var r := s.Solve().value;
    assert r == Neg(d);
    forall i | 0 <= i < |A|
      ensures MatVec(A, r)[i] == Neg(s.grad)[i]
    {
      DotNeg(A[i], d);
    }
  }

  /** On the n-dimensional inverse path the step -H⁻¹·grad solves the
      normal equations H·dx = -grad whenever the inverse solve does. */
  lemma InverseStepSolvesNormalEquations(s: SolverGN)
    requires s.Valid() && s.backend.epsilon >= 0.0 && s.nerr != 0
    requires !s.options.use_ldlt && s.Dims != Fixed(1) && |s.backend.inverseSolve(s.H, s.grad)| == |s.grad|
    requires MatVec(s.H, s.backend.inverseSolve(s.H, s.grad)) == s.grad
    ensures s.Solve().Some?
    ensures MatVec(s.H, s.Solve().value) == Neg(s.grad)
  {
    var d := s.backend.inverseSolve(s.H, s.grad);
    var r := s.Solve().value;
    assert r == Neg(d);
    forall i | 0 <= i < |s.H|
      ensures MatVec(s.H, r)[i] == Neg(s.grad)[i]
    {
      DotNeg(s.H[i], d);
    }
  }

  /** For the residual x - y, whose Jacobian is the identity, the system the
      solver builds is H = I, grad = x - y, and the LDLT step it takes is
      y - x: one step lands on y. */
  lemma {:induction false} IdentitySystemStepsToTarget(s: SolverGN, x: Vector, y: Vector)
    requires s.Valid() && s.backend.epsilon >= 0.0 && s.options.use_ldlt && s.backend.SoundLdlt()
    requires |x| == |y| && s.grad == Sub(x, y) && s.H == Identity(|x|)
    requires s.Solve().Some?
    ensures s.Solve().value == Sub(y, x)
    ensures Add(x, s.Solve().value) == y
  {
    var n := |x|;
    assert IsSymmetric(s.H) by {
      forall i, j | 0 <= i < n && 0 <= j < n
        ensures s.H[i][j] == s.H[j][i]
      {
      }
    }
    SolveSolvesNormalEquations(s);
    var r := s.Solve().value;
    assert |r| == n;
    IdentityMatVec(r);
    assert r == Neg(s.grad);
    assert r == Sub(y, x) by {
      forall i | 0 <= i < n
        ensures r[i] == Sub(y, x)[i]
      {
      }
    }
    assert Add(x, r) == y;
  }
}
