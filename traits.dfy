/** Parameter traits: how the optimiser sees a parameter value as a vector.

    The source selects one of three specialisations at compile time: plain
    scalars, Eigen matrices, and a default for user types that expose
    `Dims`, `dims()` and `+=`. Here each specialisation is a set of functions,
    and the compile-time dimension is a sum type instead of the `Dynamic`
    sentinel. The additive update works in place on an array, as the
    source's `v += delta` does on the caller's object. */
module Traits {
  import opened Numerics

  /** A compile-time dimension: a known size, or Eigen::Dynamic. */
  datatype Dim = Fixed(n: nat) | Dynamic

  /** The integer Eigen uses for Dynamic. */
  const DynamicSentinel: int := -1

  /** The integer the source stores for a compile-time dimension. */
  function DimValue(d: Dim): (v: int)
    ensures v == DynamicSentinel <==> d.Dynamic?
    ensures d.Fixed? ==> v == d.n
  {
    match d
    case Fixed(n) => n
    case Dynamic => DynamicSentinel
  }

  // ---- scalar specialisation (float, double) ----

  const ScalarDims: Dim := Fixed(1)

  /** A scalar always has one dimension. */
  function ScalarDimsOf(v: real): (d: nat)
    ensures Fixed(d) == ScalarDims
  {
    1
  }

  /** pluseq for a scalar with a one-element delta vector. */
  function ScalarPlusEqVector(v: real, delta: Vector): real
    requires |delta| == 1
  {
    v + delta[0]
  }

  /** pluseq for a scalar with a scalar delta. */
  function ScalarPlusEq(v: real, delta: real): real
  {
    v + delta
  }

  /** The two scalar overloads agree, and both are the element-wise update of
      the one-dimensional vector holding the scalar. */
  lemma ScalarUpdateIsOneDimensional(v: real, delta: Vector)
    requires |delta| == 1
    ensures ScalarPlusEqVector(v, delta) == ScalarPlusEq(v, delta[0])
    ensures [ScalarPlusEqVector(v, delta)] == Add([v], delta)
    ensures delta[0] == 0.0 ==> ScalarPlusEqVector(v, delta) == v
  {
  }

  // ---- Eigen specialisation ----

  /** An Eigen matrix parameter: its compile-time row count and its
      run-time shape (a vector is a matrix with one column). */
  datatype EigenMatrix = EigenMatrix(rowsAtCompileTime: Dim, rows: nat, cols: nat, coeffs: seq<real>)
  {
    ghost predicate Valid()
    {
      |coeffs| == rows * cols && (rowsAtCompileTime.Fixed? ==> rows == rowsAtCompileTime.n)
    }
  }

  /** Static Dims of the Eigen trait: the compile-time row count. */
  function EigenDims(m: EigenMatrix): Dim
  {
    m.rowsAtCompileTime
  }

  /** Run-time dims of the Eigen trait: m.size(), every coefficient. */
  function EigenDimsOf(m: EigenMatrix): nat
  {
    m.rows * m.cols
  }

  /** The run-time dimension counts every coefficient; it agrees with the
      static one for a fixed-size column vector, and exceeds it as soon as a
      fixed-size matrix has a second column. */
  lemma EigenDimsCountsAllCoefficients(m: EigenMatrix)
    requires m.Valid()
    ensures EigenDimsOf(m) == |m.coeffs|
    ensures m.rowsAtCompileTime.Fixed? && m.cols == 1 ==> EigenDimsOf(m) == EigenDims(m).n
    ensures m.rowsAtCompileTime.Fixed? && m.cols > 1 && m.rows > 0 ==> EigenDimsOf(m) > EigenDims(m).n
  {
    if m.cols > 1 && m.rows > 0 {
      assert m.rows * m.cols >= m.rows * 2;
    }
  }

  // ---- default specialisation (user types) ----

  /** What the default trait reads from a user type: its static `Dims` and
      the value its `dims()` method returns. */
  datatype UserParam = UserParam(staticDims: Dim, dimsMethod: int)

  /** Run-time dims of the default trait. */
  function UserDimsOf(v: UserParam): (d: int)
    ensures v.staticDims.Dynamic? ==> d == v.dimsMethod
    ensures v.staticDims.Fixed? ==> d == v.staticDims.n
  {
    if DimValue(v.staticDims) == DynamicSentinel then v.dimsMethod else DimValue(v.staticDims)
  }

  // ---- the additive update shared by the Eigen and default traits ----

  /** v += delta, in place, element by element. */
  method PlusEq(v: array<real>, delta: Vector)
    requires |delta| == v.Length
    modifies v
    ensures v[..] == Add(old(v[..]), delta)
  {
    forall i | 0 <= i < v.Length {
      v[i] := v[i] + delta[i];
    }
  }

  /** The update keeps the size, changes entry i by delta[i] only, and a zero
      delta changes nothing. */
  lemma AdditiveUpdate(v: Vector, delta: Vector)
    requires |delta| == |v|
    ensures |Add(v, delta)| == |v|
    ensures forall i :: 0 <= i < |v| && delta[i] == 0.0 ==> Add(v, delta)[i] == v[i]
    ensures delta == Zeros(|v|) ==> Add(v, delta) == v
  {
  }

  /** Applying two additive updates is applying their sum. */
  lemma AdditiveUpdatesCompose(v: Vector, d1: Vector, d2: Vector)
    requires |d1| == |v| && |d2| == |v|
    ensures Add(Add(v, d1), d2) == Add(v, Add(d1, d2))
  {
  }
}
