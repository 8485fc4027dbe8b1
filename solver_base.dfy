/** What the solvers share: the evaluator shapes they accept, the cost
    record, gradient clamping and cost post-processing (SolverBase). */
module SolverBase {
  import opened Numerics

  /** What an accumulation function returns: a bare cost, a (cost, count)
      pair, or a residual vector. The source tells these apart at compile
      time; here they are a tagged variant. */
  datatype Evaluated = ScalarCost(cost: real) | PairCost(cost: real, count: int) | VectorCost(residuals: Vector)

  /** An output parameter of an accumulation function: a buffer the function
      may write, or the std::nullptr_t placeholder that asks for no
      derivatives. */
  datatype Slot<T> = Null | Buf(value: T)

  /** The result of calling an accumulation function: what it returned and
      the contents of its two output parameters afterwards. */
  datatype AccOut = AccOut(output: Evaluated, grad: Slot<Vector>, H: Slot<Matrix>)

  /** A user accumulation function `(x, grad, H) -> cost`. */
  type AccFunc = (Vector, Slot<Vector>, Slot<Matrix>) -> AccOut

  /** The cost record (the source spells the count `num_resisuals`). */
  datatype Cost = Cost(cost: real, num_resisuals: int)

  /** What resize() does: reports whether it reallocated, or throws
      std::invalid_argument. */
  datatype ResizeResult = Resized(changed: bool) | InvalidArgument

  /** Cost normalisation flags. */
  datatype CostOptions = CostOptions(use_squared_norm: bool, downscale_by_2: bool, normalize: bool)

  /** At a parameter of size n, the function fills both buffers it is
      handed, with the sizes the solver owns: a gradient of length n and an
      n-by-n Hessian. */
  ghost predicate KeepsShape(f: AccFunc, n: nat)
  {
    forall x, g, h {:trigger f(x, Buf(g), Buf(h))} :: |x| == n && |g| == n && IsMatrix(h, n, n) ==>
      && f(x, Buf(g), Buf(h)).grad.Buf? && |f(x, Buf(g), Buf(h)).grad.value| == n
      && f(x, Buf(g), Buf(h)).H.Buf? && IsMatrix(f(x, Buf(g), Buf(h)).H.value, n, n)
  }

  /** At a parameter of size n, the function fills the gradient buffer it is
      handed, keeping its length. */
  ghost predicate KeepsGradShape(f: AccFunc, n: nat)
  {
    forall x, g {:trigger f(x, Buf(g), Null)} :: |x| == n && |g| == n ==>
      f(x, Buf(g), Null).grad.Buf? && |f(x, Buf(g), Null).grad.value| == n
  }

  // ---- Clamp ----

  /** std::clamp(g, -minmax, minmax), which needs -minmax <= minmax. */
  function ClampScalarValue(g: real, minmax: real): (r: real)
    requires minmax >= 0.0
    ensures -minmax <= r <= minmax
    ensures -minmax <= g <= minmax ==> r == g
    ensures r == g || r == minmax || r == -minmax
  {
    if g < -minmax then -minmax else if minmax < g then minmax else g
  }

  /** One coordinate of g.cwiseMax(-minmax).cwiseMin(minmax). */
  function ClampCoeff(g: real, minmax: real): (r: real)
    ensures minmax >= 0.0 ==> -minmax <= r <= minmax && (-minmax <= g <= minmax ==> r == g)
    ensures minmax < 0.0 ==> r == minmax
    ensures r == g || r == minmax || r == -minmax
  {
    var lo := if g < -minmax then -minmax else g;
    if lo < minmax then lo else minmax
  }

  /** Clamp for a vector gradient: returns whether it clamped, and the new
      gradient. A zero bound leaves the gradient alone. */
  function Clamp(g: Vector, minmax: real): (r: (bool, Vector))
    ensures minmax == 0.0 <==> !r.0
    ensures minmax == 0.0 ==> r.1 == g
    ensures |r.1| == |g|
    ensures minmax > 0.0 ==> forall i :: 0 <= i < |g| ==> -minmax <= r.1[i] <= minmax
    ensures minmax > 0.0 ==> forall i :: 0 <= i < |g| && -minmax <= g[i] <= minmax ==> r.1[i] == g[i]
    ensures minmax > 0.0 ==> forall i :: 0 <= i < |g| ==> r.1[i] == g[i] || r.1[i] == minmax || r.1[i] == -minmax
  {
    if minmax == 0.0 then (false, g)
    else (true, seq(|g|, i requires 0 <= i < |g| => ClampCoeff(g[i], minmax)))
  }

  /** Clamp for a scalar gradient. */
  function ClampScalar(g: real, minmax: real): (r: (bool, real))
    requires minmax >= 0.0
    ensures minmax == 0.0 <==> !r.0
    ensures minmax == 0.0 ==> r.1 == g
    ensures minmax > 0.0 ==> -minmax <= r.1 <= minmax
    ensures -minmax <= g <= minmax ==> r.1 == g
  {
    if minmax == 0.0 then (false, g) else (true, ClampScalarValue(g, minmax))
  }

  /** Clamping twice is clamping once. */
  lemma ClampIsIdempotent(g: Vector, minmax: real)
    ensures Clamp(Clamp(g, minmax).1, minmax) == Clamp(g, minmax)
  {
    if minmax != 0.0 {
      var once := Clamp(g, minmax).1;
      var twice := Clamp(once, minmax).1;
      forall i | 0 <= i < |g|
        ensures twice[i] == once[i]
      {
        assert once[i] == ClampCoeff(g[i], minmax);
        assert twice[i] == ClampCoeff(once[i], minmax);
      }
      assert twice == once;
    }
  }

  /** The scalar and vector branches of Clamp agree coordinate by coordinate. */
  lemma ClampBranchesAgree(g: Vector, minmax: real, i: nat)
    requires minmax >= 0.0 && i < |g|
    ensures Clamp(g, minmax).1[i] == ClampScalar(g[i], minmax).1
    ensures Clamp(g, minmax).0 == ClampScalar(g[i], minmax).0
  {
  }

  /** With a negative bound the vector branch (the scalar one has no meaning
      there) sends every coordinate to the bound itself. */
  lemma ClampNegativeBound(g: Vector, minmax: real)
    requires minmax < 0.0
    ensures Clamp(g, minmax).0
    ensures forall i :: 0 <= i < |g| ==> Clamp(g, minmax).1[i] == minmax
  {
  }

  // ---- cost post-processing ----

  /** sqrt unless the squared norm is wanted, then halved if asked, then
      divided by the residual count when asked and when that count is
      positive. */
  function PostProcess(e: real, count: int, o: CostOptions, sqrt: real -> real): (r: real)
    ensures var root := if o.use_squared_norm then e else sqrt(e);
            var half := if o.downscale_by_2 then 2.0 else 1.0;
            var n := if o.normalize && count > 0 then count as real else 1.0;
            r * half * n == root
    ensures o.use_squared_norm && !o.downscale_by_2 && !(o.normalize && count > 0) ==> r == e
  {
    var e1 := if !o.use_squared_norm then sqrt(e) else e;
    var e2 := if o.downscale_by_2 then e1 * 0.5 else e1;
    if o.normalize && count > 0 then
      var r := e2 / count as real;
      assert r * count as real == e2;
      r
    else e2
  }

  /** SolverBase::NormalizeCost: post-processes the cost and leaves the count alone. */
  function NormalizeCost(c: Cost, o: CostOptions, sqrt: real -> real): (r: Cost)
    ensures r.num_resisuals == c.num_resisuals
    ensures r.cost == PostProcess(c.cost, c.num_resisuals, o, sqrt)
  {
    c.(cost := PostProcess(c.cost, c.num_resisuals, o, sqrt))
  }

  /** A non-negative squared cost stays non-negative under every option,
      when the square root is exact. */
  lemma PostProcessNonNegative(e: real, count: int, o: CostOptions, be: Backend)
    requires e >= 0.0 && be.ExactSqrt()
    ensures PostProcess(e, count, o, be.sqrt) >= 0.0
  {
    var r := PostProcess(e, count, o, be.sqrt);
    var root := if o.use_squared_norm then e else be.sqrt(e);
    var half := if o.downscale_by_2 then 2.0 else 1.0;
    var n := if o.normalize && count > 0 then count as real else 1.0;
    assert root >= 0.0;
    assert r * (half * n) == root;
    assert half * n > 0.0;
  }
}
