/** Finite-difference Jacobians (NumEval, EstimateNumJac) and the adapters
    that turn a residual function into an accumulation function for the
    solvers (CreateNumDiffFunc1, CreateNumDiffFunc2). The parameter is a
    vector with the additive update of the Eigen trait. */
module NumDiff {
  import opened Numerics
  import opened Traits
  import opened SolverBase

  /** diff::Method. */
  datatype Method = Forward | Central | FastCentral

  /** What a residual function returns: one scalar residual or a vector. */
  datatype Residuals = ScalarRes(value: real) | VectorRes(values: Vector)

  /** The residuals as a vector; a scalar is a vector of one. */
  function Entries(r: Residuals): (v: Vector)
    ensures r.ScalarRes? ==> v == [r.value]
    ensures r.VectorRes? ==> v == r.values
  {
    match r
    case ScalarRes(value) => [value]
    case VectorRes(values) => values
  }

  /** The residual count depends only on the parameter's size: J is sized
      from the residuals at x, and a perturbed evaluation of another length
      would fail Eigen's size assertion on the column it writes. */
  ghost predicate SameShape(f: Vector -> Residuals, n: nat)
  {
    forall a :: |a| == n ==> |Entries(f(a))| == |Entries(f(Zeros(n)))|
  }

  /** k·e_r in dimension n. */
  function Basis(n: nat, r: nat, k: real): (b: Vector)
    ensures |b| == n && forall i :: 0 <= i < n ==> b[i] == if i == r then k else 0.0
  {
    seq(n, i => if i == r then k else 0.0)
  }

  /** The central, fast-central or forward difference along coordinate r. */
  function NumColumn(x: Vector, f: Vector -> Residuals, m: Method, h: real, r: nat): (col: Vector)
    requires h != 0.0 && SameShape(f, |x|)
    ensures |col| == |Entries(f(x))|
  {
    var n := |x|;
    var plus := Entries(f(Add(x, Basis(n, r, h))));
    match m
    case Central =>
      Divide(Sub(plus, Entries(f(Add(x, Basis(n, r, -h))))), 2.0 * h)
    case FastCentral =>
      Divide(Sub(plus, Entries(f(Add(Add(x, Basis(n, r, h)), Basis(n, r, -2.0 * h))))), 2.0 * h)
    case Forward =>
      Divide(Sub(plus, Entries(f(x))), h)
  }

  /** The finite-difference Jacobian: one row per residual, one column per
      coordinate of x. */
  function NumJacobian(x: Vector, f: Vector -> Residuals, m: Method, h: real): (j: Matrix)
    requires h != 0.0 && SameShape(f, |x|)
    ensures IsMatrix(j, |Entries(f(x))|, |x|)
    ensures forall i, c :: 0 <= i < |Entries(f(x))| && 0 <= c < |x| ==> j[i][c] == NumColumn(x, f, m, h, c)[i]
  {
    var rows := |Entries(f(x))|;
    seq(rows, i requires 0 <= i < rows =>
      seq(|x|, c requires 0 <= c < |x| => NumColumn(x, f, m, h, c)[i]))
  }

  /** dx[r] = k; pluseq(y, dx): with dx zero off coordinate r, this moves y
      by k·e_r. */
  method ShiftAlong(y: array<real>, dx: array<real>, r: nat, k: real)
    requires y != dx && dx.Length == y.Length && r < y.Length
    requires forall i :: 0 <= i < dx.Length && i != r ==> dx[i] == 0.0
    modifies y, dx
    ensures dx[..] == Basis(dx.Length, r, k)
    ensures y[..] == Add(old(y[..]), Basis(y.Length, r, k))
  {
    dx[r] := k;
    assert dx[..] == Basis(dx.Length, r, k);
    PlusEq(y, dx[..]);
  }

  /** The minus side of a central difference (num_diff.h:111-128): from
      y = x + h·e_r, kCentral copies x into y again and adds -h·e_r, while
      kFastCentral adds -2h·e_r to y as it is. Returns the point reached. */
  method MinusSide(x: array<real>, y: array<real>, dx: array<real>, m: Method, h: real, r: nat)
    returns (ym: Vector)
    requires m != Forward && x != y && y != dx && dx != x
    requires y.Length == x.Length && dx.Length == x.Length && r < x.Length
    requires y[..] == Add(x[..], Basis(x.Length, r, h)) && dx[..] == Basis(x.Length, r, h)
    modifies y, dx
    ensures ym == y[..]
    ensures m == Central ==> ym == Add(x[..], Basis(x.Length, r, -h)) && dx[..] == Basis(x.Length, r, -h)
    ensures m == FastCentral ==>
      ym == Add(Add(x[..], Basis(x.Length, r, h)), Basis(x.Length, r, -2.0 * h)) &&
      dx[..] == Basis(x.Length, r, -2.0 * h)
  {
    if m == Central {
      forall i | 0 <= i < y.Length {
        y[i] := x[i];
      }
      assert y[..] == x[..];
      ShiftAlong(y, dx, r, -h);
    } else {
      ShiftAlong(y, dx, r, -2.0 * h);
    }
    ym := y[..];
  }

  /** One pass of NumEval's loop: moves the perturbation dx from coordinate
      r-1 to r, evaluates f at the perturbed copies of x and returns column r
      of the Jacobian. dx is h·e_r once line 108 has run. */
  method JacobianColumn(x: array<real>, dx: array<real>, f: Vector -> Residuals, m: Method, h: real, r: nat, resv: Vector)
    returns (col: Vector)
    requires h != 0.0 && SameShape(f, x.Length) && resv == Entries(f(x[..]))
    requires dx != x && dx.Length == x.Length && r < x.Length
    requires forall i :: 0 <= i < dx.Length && i != r - 1 ==> dx[i] == 0.0
    modifies dx
    ensures col == NumColumn(x[..], f, m, h, r)
    ensures forall i :: 0 <= i < dx.Length && i != r ==> dx[i] == 0.0
  {
    var dims := x.Length;
    var y := new real[dims](i requires 0 <= i < dims reads x => x[i]);
    assert y[..] == x[..];
    if r > 0 {
      dx[r - 1] := 0.0;
    }
    ShiftAlong(y, dx, r, h);
    var resPlus := Entries(f(y[..]));
    if m == Forward {
      col := Divide(Sub(resPlus, resv), h);
    } else {
      var ym := MinusSide(x, y, dx, m, h, r);
      col := Divide(Sub(resPlus, Entries(f(ym))), 2.0 * h);
    }
  }

  /** J.col(r) = col: writes column r of J and leaves the others. */
  method SetColumn(J: array2<real>, r: nat, col: Vector)
    requires r < J.Length1 && |col| == J.Length0
    modifies J
    ensures forall i :: 0 <= i < J.Length0 ==> J[i, r] == col[i]
    ensures forall i, c :: 0 <= i < J.Length0 && 0 <= c < J.Length1 && c != r ==> J[i, c] == old(J[i, c])
  {
    forall i | 0 <= i < J.Length0 {
      J[i, r] := col[i];
    }
  }

  /** NumEval(x, f, method, h): the residuals at x and their
      finite-difference Jacobian. Each perturbation is applied to a fresh
      copy y of x with the additive update; x itself is never written. */
  method NumEval(x: array<real>, f: Vector -> Residuals, m: Method, h: real) returns (res: Residuals, J: array2<real>)
    requires h != 0.0 && SameShape(f, x.Length)
    ensures res == f(x[..])
    ensures fresh(J) && J.Length0 == |Entries(res)| && J.Length1 == x.Length
    ensures forall i, c :: 0 <= i < J.Length0 && 0 <= c < J.Length1 ==> J[i, c] == NumJacobian(x[..], f, m, h)[i][c]
  {
    var dims := x.Length;
    res := f(x[..]);
    var resv := Entries(res);
    J := new real[|resv|, dims];
    var dx := new real[dims](_ => 0.0);
    var r := 0;
    while r < dims
      invariant 0 <= r <= dims
      invariant forall i :: 0 <= i < dims && i != r - 1 ==> dx[i] == 0.0
      invariant forall i, c :: 0 <= i < J.Length0 && 0 <= c < r ==> J[i, c] == NumColumn(x[..], f, m, h, c)[i]
    {
      var col := JacobianColumn(x, dx, f, m, h, r, resv);
      SetColumn(J, r, col);
      r := r + 1;
    }
  }

  /** EstimateNumJac(x, f, method, h): NumEval's Jacobian alone. */
  method EstimateNumJac(x: array<real>, f: Vector -> Residuals, m: Method, h: real) returns (J: array2<real>)
    requires h != 0.0 && SameShape(f, x.Length)
    ensures fresh(J) && J.Length0 == |Entries(f(x[..]))| && J.Length1 == x.Length
    ensures forall i, c :: 0 <= i < J.Length0 && 0 <= c < J.Length1 ==> J[i, c] == NumJacobian(x[..], f, m, h)[i][c]
  {
    var _, j := NumEval(x, f, m, h);
    J := j;
  }

  // ---- the adapters ----

  /** What both adapters return: |res| for a scalar residual, the norm and
      the residual count for a vector. */
  function ResidualCost(res: Residuals, be: Backend): (e: Evaluated)
    ensures res.ScalarRes? ==> e.ScalarCost? && e.cost >= 0.0 && (e.cost == res.value || e.cost == -res.value)
    ensures res.VectorRes? ==> e == PairCost(Norm(res.values, be), |res.values|)
  {
    match res
    case ScalarRes(v) => ScalarCost(if v < 0.0 then -v else v)
    case VectorRes(v) => PairCost(Norm(v, be), |v|)
  }

  /** Jᵀ·res, the gradient both adapters write. */
  function NumGradient(x: Vector, f: Vector -> Residuals, m: Method, h: real): (g: Vector)
    requires h != 0.0 && SameShape(f, |x|)
    ensures |g| == |x|
  {
    TransposeTimes(NumJacobian(x, f, m, h), |x|, Entries(f(x)))
  }

  /** JᵀJ, the Hessian approximation CreateNumDiffFunc2 writes. */
  function NumHessian(x: Vector, f: Vector -> Residuals, m: Method, h: real): (H: Matrix)
    requires h != 0.0 && SameShape(f, |x|)
    ensures IsMatrix(H, |x|, |x|)
  {
    Gram(NumJacobian(x, f, m, h), |x|)
  }

  /** CreateNumDiffFunc1(residuals, method, h): an accumulation function
      that writes the gradient Jᵀ·res when asked for one; it takes no
      Hessian, and the Hessian slot passes through untouched. */
  function CreateNumDiffFunc1(f: Vector -> Residuals, m: Method, h: real, be: Backend): AccFunc
    requires h != 0.0 && forall n :: SameShape(f, n)
  {
    (x: Vector, g: Slot<Vector>, hs: Slot<Matrix>) =>
      var res := f(x);
      AccOut(ResidualCost(res, be), if g.Buf? then Buf(NumGradient(x, f, m, h)) else g, hs)
  }

  /** CreateNumDiffFunc2(residuals, method, h): as CreateNumDiffFunc1, and
      it also writes the Hessian JᵀJ when asked for both. */
  function CreateNumDiffFunc2(f: Vector -> Residuals, m: Method, h: real, be: Backend): AccFunc
    requires h != 0.0 && forall n :: SameShape(f, n)
  {
    (x: Vector, g: Slot<Vector>, hs: Slot<Matrix>) =>
      var res := f(x);
      var grad := if g.Buf? then Buf(NumGradient(x, f, m, h)) else g;
      var H := if g.Buf? && hs.Buf? then Buf(NumHessian(x, f, m, h)) else hs;
      AccOut(ResidualCost(res, be), grad, H)
  }

  // ---- properties ----

  /** The inner product with k·e_r picks k times coordinate r. */
  lemma {:induction false} DotBasis(a: Vector, r: nat, k: real)
    requires r < |a|
    ensures Dot(a, Basis(|a|, r, k)) == k * a[r]
    decreases |a|
  {
    var b := Basis(|a|, r, k);
    if r == 0 {
      DotCommutes(a[1..], b[1..]);
      DotZeroPrefix(b[1..], a[1..]);
    } else {
      assert b[1..] == Basis(|a| - 1, r - 1, k);
      DotBasis(a[1..], r - 1, k);
    }
  }

  /** A difference quotient whose difference is k·a is a. */
  lemma CancelStep(p: real, q: real, a: real, k: real)
    requires k != 0.0 && p - q == k * a
    ensures (p - q) / k == a
  {
  }

  /** A central quotient around F along a is a. */
  lemma CancelCentral(p: real, q: real, F: real, a: real, h: real)
    requires h != 0.0 && p == F + h * a && q == F + (-h) * a
    ensures (p - q) / (2.0 * h) == a
  {
    assert p - q == (2.0 * h) * a;
    CancelStep(p, q, a, 2.0 * h);
  }

  /** Moving x by k·e_c moves entry i of an affine map A·x + b by k·A[i][c]. */
  lemma AffineShift(A: Matrix, b: Vector, x: Vector, c: nat, k: real, i: nat)
    requires IsMatrix(A, |b|, |x|) && c < |x| && i < |b|
    ensures Add(MatVec(A, Add(x, Basis(|x|, c, k))), b)[i] == Add(MatVec(A, x), b)[i] + k * A[i][c]
  {
    DotAdd(A[i], x, Basis(|x|, c, k));
    DotBasis(A[i], c, k);
  }

  /** Entry i of the central quotient of an affine map along e_c is A[i][c]. */
  lemma AffineCentralEntry(A: Matrix, b: Vector, x: Vector, c: nat, h: real, i: nat)
    requires IsMatrix(A, |b|, |x|) && c < |x| && i < |b| && h != 0.0
    ensures (Add(MatVec(A, Add(x, Basis(|x|, c, h))), b)[i]
             - Add(MatVec(A, Add(x, Basis(|x|, c, -h))), b)[i]) / (2.0 * h) == A[i][c]
  {
    AffineShift(A, b, x, c, h, i);
    AffineShift(A, b, x, c, -h, i);
    CancelCentral(Add(MatVec(A, Add(x, Basis(|x|, c, h))), b)[i],
                  Add(MatVec(A, Add(x, Basis(|x|, c, -h))), b)[i],
                  Add(MatVec(A, x), b)[i], A[i][c], h);
  }

  /** The fast central difference lands on x - h·e_r, as the additive update
      composes, so it gives the central column. */
  lemma FastCentralMatchesCentral(x: Vector, f: Vector -> Residuals, h: real, r: nat)
    requires h != 0.0 && SameShape(f, |x|)
    ensures NumColumn(x, f, FastCentral, h, r) == NumColumn(x, f, Central, h, r)
  {
    var n := |x|;
    var fast := Add(Add(x, Basis(n, r, h)), Basis(n, r, -2.0 * h));
    assert fast == Add(x, Basis(n, r, -h));
  }

  /** The forward column of an affine residual A·x + b is column c of A. */
  lemma AffineForwardColumn(A: Matrix, b: Vector, x: Vector, f: Vector -> Residuals, h: real, c: nat)
    requires IsMatrix(A, |b|, |x|) && c < |x| && h != 0.0 && SameShape(f, |x|)
    requires f(x) == VectorRes(Add(MatVec(A, x), b))
    requires f(Add(x, Basis(|x|, c, h))) == VectorRes(Add(MatVec(A, Add(x, Basis(|x|, c, h))), b))
    ensures NumColumn(x, f, Forward, h, c) == Col(A, |x|, c)
  {
    var fx := Add(MatVec(A, x), b);
    var plus := Add(MatVec(A, Add(x, Basis(|x|, c, h))), b);
    var col := NumColumn(x, f, Forward, h, c);
    assert col == Divide(Sub(plus, fx), h);
    forall i | 0 <= i < |b|
      ensures col[i] == A[i][c]
    {
      assert col[i] == (plus[i] - fx[i]) / h;
      AffineShift(A, b, x, c, h, i);
      CancelStep(plus[i], fx[i], A[i][c], h);
    }
  }

  /** The central column of an affine residual A·x + b is column c of A. */
  lemma AffineCentralColumn(A: Matrix, b: Vector, x: Vector, f: Vector -> Residuals, h: real, c: nat)
    requires IsMatrix(A, |b|, |x|) && c < |x| && h != 0.0 && SameShape(f, |x|)
    requires f(Add(x, Basis(|x|, c, h))) == VectorRes(Add(MatVec(A, Add(x, Basis(|x|, c, h))), b))
    requires f(Add(x, Basis(|x|, c, -h))) == VectorRes(Add(MatVec(A, Add(x, Basis(|x|, c, -h))), b))
    ensures NumColumn(x, f, Central, h, c) == Col(A, |x|, c)
  {
    var plus := Add(MatVec(A, Add(x, Basis(|x|, c, h))), b);
    var minus := Add(MatVec(A, Add(x, Basis(|x|, c, -h))), b);
    var col := NumColumn(x, f, Central, h, c);
    assert col == Divide(Sub(plus, minus), 2.0 * h);
    forall i | 0 <= i < |b|
      ensures col[i] == A[i][c]
    {
      assert col[i] == (plus[i] - minus[i]) / (2.0 * h);
      AffineCentralEntry(A, b, x, c, h, i);
    }
  }

  /** For an affine residual A·x + b every method's column c is exactly
      column c of A. */
  lemma AffineColumnIsExact(A: Matrix, b: Vector, x: Vector, f: Vector -> Residuals, m: Method, h: real, c: nat)
    requires IsMatrix(A, |b|, |x|) && c < |x| && h != 0.0
    requires forall z {:trigger f(z)} :: |z| == |x| ==> f(z) == VectorRes(Add(MatVec(A, z), b))
    ensures SameShape(f, |x|)
    ensures NumColumn(x, f, m, h, c) == Col(A, |x|, c)
  {
    var n := |x|;
    assert f(Zeros(n)) == VectorRes(Add(MatVec(A, Zeros(n)), b));
    assert f(x) == VectorRes(Add(MatVec(A, x), b));
    assert f(Add(x, Basis(n, c, h))) == VectorRes(Add(MatVec(A, Add(x, Basis(n, c, h))), b));
    assert f(Add(x, Basis(n, c, -h))) == VectorRes(Add(MatVec(A, Add(x, Basis(n, c, -h))), b));
    match m
    case Forward => AffineForwardColumn(A, b, x, f, h, c);
    case Central => AffineCentralColumn(A, b, x, f, h, c);
    case FastCentral =>
      FastCentralMatchesCentral(x, f, h, c);
      AffineCentralColumn(A, b, x, f, h, c);
  }

  /** ... and so the whole finite-difference Jacobian is A. */
  lemma AffineJacobianIsExact(A: Matrix, b: Vector, x: Vector, f: Vector -> Residuals, m: Method, h: real)
    requires IsMatrix(A, |b|, |x|) && h != 0.0
    requires forall z {:trigger f(z)} :: |z| == |x| ==> f(z) == VectorRes(Add(MatVec(A, z), b))
    ensures SameShape(f, |x|)
    ensures NumJacobian(x, f, m, h) == A
  {
    var n := |x|;
    assert f(Zeros(n)) == VectorRes(Add(MatVec(A, Zeros(n)), b));
    var J := NumJacobian(x, f, m, h);
    assert |J| == |b| == |Entries(f(x))|;
    forall i | 0 <= i < |b|
      ensures J[i] == A[i]
    {
      forall c | 0 <= c < n
        ensures J[i][c] == A[i][c]
      {
        AffineColumnIsExact(A, b, x, f, m, h, c);
        assert J[i][c] == NumColumn(x, f, m, h, c)[i] == Col(A, n, c)[i];
      }
    }
  }

  lemma AddNegIsSub(z: Vector, y: Vector)
    requires |z| == |y|
    ensures Add(z, Neg(y)) == Sub(z, y)
  {
    forall i | 0 <= i < |z|
      ensures Add(z, Neg(y))[i] == Sub(z, y)[i]
    {
    }
  }

  /** The residual x - y has the identity as its finite-difference Jacobian. */
  lemma {:induction false} DifferenceJacobianIsIdentity(y: Vector, x: Vector, f: Vector -> Residuals, m: Method, h: real)
    requires |x| == |y| && h != 0.0
    requires forall z {:trigger f(z)} :: |z| == |y| ==> f(z) == VectorRes(Sub(z, y))
    ensures SameShape(f, |x|)
    ensures NumJacobian(x, f, m, h) == Identity(|x|)
  {
    DifferenceIsAffine(y, f);
    AffineJacobianIsExact(Identity(|y|), Neg(y), x, f, m, h);
  }

  /** The residual z - y is the affine map I·z + (-y). */
  lemma DifferenceIsAffine(y: Vector, f: Vector -> Residuals)
    requires forall z {:trigger f(z)} :: |z| == |y| ==> f(z) == VectorRes(Sub(z, y))
    ensures forall z {:trigger f(z)} :: |z| == |y| ==> f(z) == VectorRes(Add(MatVec(Identity(|y|), z), Neg(y)))
  {
    forall z {:trigger f(z)} | |z| == |y|
      ensures f(z) == VectorRes(Add(MatVec(Identity(|y|), z), Neg(y)))
    {
      IdentityMatVec(z);
      AddNegIsSub(z, y);
    }
  }

  /** CreateNumDiffFunc1 fills the gradient buffer with a vector of the
      parameter's size, so a solver owning that size can call it. */
  lemma NumDiffFunc1KeepsGradShape(f: Vector -> Residuals, m: Method, h: real, be: Backend, n: nat)
    requires h != 0.0 && forall k :: SameShape(f, k)
    ensures KeepsGradShape(CreateNumDiffFunc1(f, m, h, be), n)
  {
    var acc := CreateNumDiffFunc1(f, m, h, be);
    forall x, g {:trigger acc(x, Buf(g), Null)} | |x| == n && |g| == n
      ensures acc(x, Buf(g), Null).grad.Buf? && |acc(x, Buf(g), Null).grad.value| == n
    {
      assert acc(x, Buf(g), Null).grad == Buf(NumGradient(x, f, m, h));
    }
  }

  /** CreateNumDiffFunc2 fills both buffers with the parameter's sizes. */
  lemma NumDiffFunc2KeepsShape(f: Vector -> Residuals, m: Method, h: real, be: Backend, n: nat)
    requires h != 0.0 && forall k :: SameShape(f, k)
    ensures KeepsShape(CreateNumDiffFunc2(f, m, h, be), n)
  {
    var acc := CreateNumDiffFunc2(f, m, h, be);
    forall x, g, hs {:trigger acc(x, Buf(g), Buf(hs))} | |x| == n && |g| == n && IsMatrix(hs, n, n)
      ensures acc(x, Buf(g), Buf(hs)).grad.Buf? && |acc(x, Buf(g), Buf(hs)).grad.value| == n
      ensures acc(x, Buf(g), Buf(hs)).H.Buf? && IsMatrix(acc(x, Buf(g), Buf(hs)).H.value, n, n)
    {
      NumDiffFunc2Buffers(f, m, h, be, x, g, hs);
    }
  }

  /** The Hessian CreateNumDiffFunc2 writes is JᵀJ and symmetric. */
  lemma NumDiffFunc2HessianIsSymmetric(f: Vector -> Residuals, m: Method, h: real, be: Backend,
                                        x: Vector, g: Vector, hs: Matrix)
    requires h != 0.0 && forall k :: SameShape(f, k)
    ensures CreateNumDiffFunc2(f, m, h, be)(x, Buf(g), Buf(hs)).H.Buf?
    ensures IsSymmetric(CreateNumDiffFunc2(f, m, h, be)(x, Buf(g), Buf(hs)).H.value)
  {
    GramIsSymmetric(NumJacobian(x, f, m, h), |x|);
  }

  /** Without a gradient buffer neither adapter writes anything: the
      derivatives are computed only when asked for (CreateNumDiffFunc2 needs
      the gradient buffer even to write the Hessian). */
  lemma NumDiffFuncsWriteOnlyWhenAsked(f: Vector -> Residuals, m: Method, h: real, be: Backend,
                                       x: Vector, hs: Slot<Matrix>)
    requires h != 0.0 && forall k :: SameShape(f, k)
    ensures CreateNumDiffFunc1(f, m, h, be)(x, Null, hs).grad == Null
    ensures CreateNumDiffFunc1(f, m, h, be)(x, Null, hs).H == hs
    ensures CreateNumDiffFunc2(f, m, h, be)(x, Null, hs).grad == Null
    ensures CreateNumDiffFunc2(f, m, h, be)(x, Null, hs).H == hs
  {
  }

  /** Both adapters return |res| for a scalar residual and the residual
      count alongside the norm for a vector; the cost does not depend on
      the buffers. */
  lemma NumDiffFuncsCost(f: Vector -> Residuals, m: Method, h: real, be: Backend,
                         x: Vector, g: Slot<Vector>, hs: Slot<Matrix>)
    requires h != 0.0 && forall k :: SameShape(f, k)
    ensures var e := CreateNumDiffFunc2(f, m, h, be)(x, g, hs).output;
            && e == CreateNumDiffFunc1(f, m, h, be)(x, g, hs).output
            && e == CreateNumDiffFunc2(f, m, h, be)(x, Null, Null).output
            && (f(x).VectorRes? ==> e.PairCost? && e.count == |Entries(f(x))|)
            && (f(x).ScalarRes? ==> e.ScalarCost? && e.cost >= 0.0)
  {
  }

  /** For the residual x - y the finite-difference gradient is x - y and
      JᵀJ is the identity. */
  lemma {:induction false} DifferenceDerivatives(y: Vector, f: Vector -> Residuals, m: Method, h: real, x: Vector)
    requires |x| == |y| && h != 0.0
    requires forall z {:trigger f(z)} :: |z| == |y| ==> f(z) == VectorRes(Sub(z, y))
    ensures SameShape(f, |x|)
    ensures NumGradient(x, f, m, h) == Sub(x, y)
    ensures NumHessian(x, f, m, h) == Identity(|x|)
  {
    DifferenceJacobianIsIdentity(y, x, f, m, h);
    assert Entries(f(x)) == Sub(x, y);
    IdentityTransposeTimes(Sub(x, y));
    IdentityGram(|x|);
  }

  /** For the residual x - y the system CreateNumDiffFunc2 assembles is
      grad = x - y and H = I. */
  lemma DifferenceSystem(y: Vector, f: Vector -> Residuals, m: Method, h: real, be: Backend,
                         x: Vector, g: Vector, hs: Matrix)
    requires |x| == |y| && h != 0.0 && forall k :: SameShape(f, k)
    requires forall z {:trigger f(z)} :: |z| == |y| ==> f(z) == VectorRes(Sub(z, y))
    ensures CreateNumDiffFunc2(f, m, h, be)(x, Buf(g), Buf(hs)).grad == Buf(Sub(x, y))
    ensures CreateNumDiffFunc2(f, m, h, be)(x, Buf(g), Buf(hs)).H == Buf(Identity(|x|))
  {
    DifferenceDerivatives(y, f, m, h, x);
    NumDiffFunc2Buffers(f, m, h, be, x, g, hs);
  }

  /** With both buffers CreateNumDiffFunc2 writes Jᵀ·res and JᵀJ. */
  lemma NumDiffFunc2Buffers(f: Vector -> Residuals, m: Method, h: real, be: Backend,
                            x: Vector, g: Vector, hs: Matrix)
    requires h != 0.0 && forall k :: SameShape(f, k)
    ensures CreateNumDiffFunc2(f, m, h, be)(x, Buf(g), Buf(hs)).grad == Buf(NumGradient(x, f, m, h))
    ensures CreateNumDiffFunc2(f, m, h, be)(x, Buf(g), Buf(hs)).H == Buf(NumHessian(x, f, m, h))
  {
  }
}
