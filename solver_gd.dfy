/** The gradient-descent solver object (SolverGD): owns the gradient only and
    steps by -lr times it. */
module GDSolver {
  import opened Wrappers
  import opened Numerics
  import opened Traits
  import opened SolverBase

  /** gd::SolverOptions: the shared options the solver reads, plus the
      learning rate. */
  datatype Options = Options(grad_clipping: real, lr: real)

  /** gd::SolverOptions built from the shared options: the learning rate
      defaults to 1. */
  function FromOptions1(grad_clipping: real): (o: Options)
    ensures o.grad_clipping == grad_clipping && o.lr == 1.0
  {
    Options(grad_clipping, 1.0)
  }

  /** The shapes GetAccFunc accepts: a residual vector is a compile-time
      error for this solver. */
  predicate IsScalarCost(e: Evaluated)
  {
    !e.VectorCost?
  }

  /** GetAccFunc's normalisation: a scalar becomes (cost, 1), a pair passes. */
  function Normalize(e: Evaluated): (c: Cost)
    requires IsScalarCost(e)
    ensures e.ScalarCost? ==> c == Cost(e.cost, 1)
    ensures e.PairCost? ==> c == Cost(e.cost, e.count)
  {
    match e
    case ScalarCost(cost) => Cost(cost, 1)
    case PairCost(cost, count) => Cost(cost, count)
  }

  class SolverGD {
    const options: Options
    /** The compile-time size of the gradient. */
    const Dims: Dim

    var grad: Vector
    var err: real
    var nerr: int

    ghost predicate Valid()
      reads this
    {
      Dims.Fixed? ==> |grad| == Dims.n
    }

    /** The size Build works at: x's size once a dynamic gradient is resized. */
    function BuildSize(x: Vector, resize_and_clear: bool): nat
      reads this
    {
      if resize_and_clear && Dims.Dynamic? then |x| else |grad|
    }

    constructor (options: Options, Dims: Dim)
      ensures Valid()
      ensures this.options == options && this.Dims == Dims
      ensures |grad| == if Dims.Fixed? then Dims.n else 0
    {
      this.options := options;
      this.Dims := Dims;
      grad := Zeros(if Dims.Fixed? then Dims.n else 0);
      err := 0.0;
      nerr := 0;
    }

    /** resize(dims): a dynamic gradient reallocates when its length
        differs, a static one only checks that the sizes match. */
    method Resize(dims: int) returns (r: ResizeResult)
      requires Valid()
      requires dims >= 0 || dims == DynamicSentinel
      modifies this
      ensures Valid() && err == old(err) && nerr == old(nerr)
      ensures Dims.Dynamic? && dims == DynamicSentinel ==> r == InvalidArgument
      ensures Dims.Dynamic? && dims >= 0 ==> r == Resized(old(|grad|) != dims) && |grad| == dims
      ensures Dims.Fixed? ==> r == if dims != Dims.n then InvalidArgument else Resized(false)
      ensures r != Resized(true) ==> grad == old(grad)
    {
      match Dims
      case Dynamic =>
        if dims == DynamicSentinel {
          return InvalidArgument;
        }
        if |grad| != dims {
          // Eigen leaves the coefficients of a resized vector unspecified
          grad := Zeros(dims);
          return Resized(true);
        }
        return Resized(false);
      case Fixed(n) =>
        if dims != n {
          return InvalidArgument;
        }
        return Resized(false);
    }

    /** clear(): every coefficient of grad becomes zero. */
    method Clear()
      requires Valid()
      modifies this
      ensures Valid() && err == old(err) && nerr == old(nerr)
      ensures grad == Zeros(old(|grad|))
    {
      grad := Zeros(|grad|);
    }

    /** ResizeIfNeeded(x): a dynamic gradient takes x's size. */
    method ResizeIfNeeded(x: Vector) returns (resized: bool)
      requires Valid()
      modifies this
      ensures Valid() && err == old(err) && nerr == old(nerr)
      ensures Dims.Fixed? ==> !resized
      ensures Dims.Dynamic? ==> resized == (old(|grad|) != |x|) && |grad| == |x|
      ensures !resized ==> grad == old(grad)
    {
      if Dims.Dynamic? {
        var dims := |x|;
        if |grad| != dims {
          var r := Resize(dims);
          return r.changed;
        }
      }
      return false;
    }

    /** GetAccFunc(acc): the user function, called without a Hessian, with
        its result normalised to a (cost, count) pair. */
    function GetAccFunc(acc: AccFunc): (f: (Vector, Slot<Vector>) --> (Cost, AccOut))
      ensures forall x, g {:trigger f.requires(x, g)} :: IsScalarCost(acc(x, g, Null).output) ==> f.requires(x, g)
      ensures forall x, g {:trigger f(x, g)} :: IsScalarCost(acc(x, g, Null).output) ==>
        f(x, g).1 == acc(x, g, Null) && f(x, g).0 == Normalize(acc(x, g, Null).output)
    {
      (x: Vector, g: Slot<Vector>) requires IsScalarCost(acc(x, g, Null).output) =>
        var o := acc(x, g, Null);
        (Normalize(o.output), o)
    }

    /** Evaluate(x, acc, save): the raw cost at x, without derivatives and
        without post-processing; it is stored only when `save`. */
    method Evaluate(x: Vector, acc: AccFunc, save: bool) returns (e: real)
      requires Valid() && IsScalarCost(acc(x, Null, Null).output)
      modifies this
      ensures Valid() && grad == old(grad)
      ensures e == acc(x, Null, Null).output.cost
      ensures save ==> err == e && nerr == Normalize(acc(x, Null, Null).output).num_resisuals
      ensures !save ==> err == old(err) && nerr == old(nerr)
    {
      var acc2 := GetAccFunc(acc);
      var (c, _) := acc2(x, Null);
      if save {
        err := c.cost;
        nerr := c.num_resisuals;
      }
      return c.cost;
    }

    /** Accumulate(x, acc): runs the user function on the solver's gradient
        and stores the raw cost and count; true when there were residuals. */
    method Accumulate(x: Vector, acc: AccFunc) returns (ok: bool)
      requires Valid() && |x| == |grad| && KeepsGradShape(acc, |grad|)
      requires IsScalarCost(acc(x, Buf(grad), Null).output)
      modifies this
      ensures Valid() && |grad| == old(|grad|)
      ensures var o := acc(x, Buf(old(grad)), Null);
              && grad == o.grad.value
              && err == o.output.cost
              && nerr == Normalize(o.output).num_resisuals
              && ok == (nerr > 0)
    {
      var acc2 := GetAccFunc(acc);
      var (c, o) := acc2(x, Buf(grad));
      grad := o.grad.value;
      err := c.cost;
      nerr := c.num_resisuals;
      ok := c.num_resisuals > 0;
    }

    /** Build(x, acc, resize_and_clear): (re)sizes and zeroes the gradient if
        asked, accumulates into it, and clamps it, even when there were no
        residuals. */
    method Build(x: Vector, acc: AccFunc, resize_and_clear: bool) returns (ok: bool)
      requires Valid()
      requires |x| == BuildSize(x, resize_and_clear) && KeepsGradShape(acc, BuildSize(x, resize_and_clear))
      requires forall g :: IsScalarCost(acc(x, Buf(g), Null).output)
      modifies this
      ensures Valid()
      ensures var n := old(BuildSize(x, resize_and_clear));
              var g0 := if resize_and_clear then Zeros(n) else old(grad);
              var o := acc(x, Buf(g0), Null);
              && IsScalarCost(o.output)
              && grad == Clamp(o.grad.value, options.grad_clipping).1
              && err == o.output.cost
              && nerr == Normalize(o.output).num_resisuals
              && ok == (nerr > 0)
    {
      if resize_and_clear {
        var _ := ResizeIfNeeded(x);
        Clear();
      }
      ok := Accumulate(x, acc);
      grad := Clamp(grad, options.grad_clipping).1;
    }

    /** Solve(): the step -lr·grad, None when there were no residuals. */
    function Solve(): (r: Option<Vector>)
      reads this
      ensures r.None? <==> nerr == 0
      ensures r.Some? ==> |r.value| == |grad|
      ensures r.Some? ==> forall i :: 0 <= i < |grad| ==> r.value[i] == -options.lr * grad[i]
    {
      if nerr == 0 then None else Some(Scale(-options.lr, grad))
    }
  }

  /** With a positive learning rate the step points downhill: its inner
      product with the gradient is -lr·|grad|², never positive. */
  lemma {:induction false} StepIsDescentDirection(s: SolverGD)
    requires s.nerr != 0 && s.options.lr > 0.0
    ensures Dot(s.grad, s.Solve().value) == -s.options.lr * SquaredNorm(s.grad)
    ensures Dot(s.grad, s.Solve().value) <= 0.0
  {
    DotScale(s.grad, -s.options.lr);
    SquaredNormNonNegative(s.grad);
  }

  /** With the default learning rate the step is the negated gradient. */
  lemma {:induction false} DefaultStepIsNegatedGradient(s: SolverGD)
    requires s.nerr != 0 && s.options == FromOptions1(s.options.grad_clipping)
    ensures s.Solve().value == Neg(s.grad)
  {
    assert s.options.lr == 1.0;
  }

  /** For the residual x - y the gradient is x - y, and the step from x
      scaled by lr: x + step = x + lr·(y - x); with lr = 1 it is y. */
  lemma {:induction false} StepTowardsTarget(s: SolverGD, x: Vector, y: Vector)
    requires s.nerr != 0 && |x| == |y| && s.grad == Sub(x, y)
    ensures s.Solve().value == Scale(s.options.lr, Sub(y, x))
    ensures s.options.lr == 1.0 ==> Add(x, s.Solve().value) == y
  {
    var st := s.Solve().value;
    var target := Scale(s.options.lr, Sub(y, x));
    forall i | 0 <= i < |x|
      ensures st[i] == target[i]
    {
      assert st[i] == -s.options.lr * (x[i] - y[i]);
    }
    assert st == target;
  }
}
