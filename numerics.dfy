/** Dense vectors and matrices over the reals, and the numeric back end.

    The optimiser delegates its linear algebra to Eigen; here vectors are
    sequences of reals, matrices are sequences of rows, and the parts that
    the model does not compute (factorisations, inverses, square roots and
    the floating-point NaN test) are gathered in one oracle record,
    `Backend`, that every operation receives as a parameter. */
module Numerics {
  import opened Wrappers

  type Vector = seq<real>
  type Matrix = seq<seq<real>>

  function Zeros(n: nat): (z: Vector)
    ensures |z| == n && forall i :: 0 <= i < n ==> z[i] == 0.0
  {
    seq(n, _ => 0.0)
  }

  function Add(a: Vector, b: Vector): (c: Vector)
    requires |a| == |b|
    ensures |c| == |a| && forall i :: 0 <= i < |a| ==> c[i] == a[i] + b[i]
  {
    seq(|a|, i requires 0 <= i < |a| => a[i] + b[i])
  }

  function Sub(a: Vector, b: Vector): (c: Vector)
    requires |a| == |b|
    ensures |c| == |a| && forall i :: 0 <= i < |a| ==> c[i] == a[i] - b[i]
  {
    seq(|a|, i requires 0 <= i < |a| => a[i] - b[i])
  }

  function Neg(a: Vector): (c: Vector)
    ensures |c| == |a| && forall i :: 0 <= i < |a| ==> c[i] == -a[i]
  {
    seq(|a|, i requires 0 <= i < |a| => -a[i])
  }

  function Scale(k: real, a: Vector): (c: Vector)
    ensures |c| == |a| && forall i :: 0 <= i < |a| ==> c[i] == k * a[i]
  {
    seq(|a|, i requires 0 <= i < |a| => k * a[i])
  }

  /** Element-wise division of a vector by a non-zero scalar. */
  function Divide(a: Vector, d: real): (c: Vector)
    requires d != 0.0
    ensures |c| == |a| && forall i :: 0 <= i < |a| ==> c[i] == a[i] / d
  {
    seq(|a|, i requires 0 <= i < |a| => a[i] / d)
  }

  function Dot(a: Vector, b: Vector): real
    requires |a| == |b|
    decreases |a|
  {
    if |a| == 0 then 0.0 else a[0] * b[0] + Dot(a[1..], b[1..])
  }

  function SquaredNorm(a: Vector): real
  {
    Dot(a, a)
  }

  /** The Euclidean norm, through the back end's square root. */
  function Norm(a: Vector, be: Backend): real
  {
    be.sqrt(SquaredNorm(a))
  }

  ghost predicate IsMatrix(m: Matrix, rows: nat, cols: nat)
  {
    |m| == rows && forall i :: 0 <= i < rows ==> |m[i]| == cols
  }

  function ZeroMatrix(rows: nat, cols: nat): (z: Matrix)
    ensures IsMatrix(z, rows, cols)
    ensures forall i, j :: 0 <= i < rows && 0 <= j < cols ==> z[i][j] == 0.0
  {
    seq(rows, _ => Zeros(cols))
  }

  function Identity(n: nat): (e: Matrix)
    ensures IsMatrix(e, n, n)
    ensures forall i, j :: 0 <= i < n && 0 <= j < n ==> e[i][j] == if i == j then 1.0 else 0.0
  {
    seq(n, i => seq(n, j => if i == j then 1.0 else 0.0))
  }

  /** Column c of a matrix with `cols` columns. */
  function Col(m: Matrix, cols: nat, c: nat): (v: Vector)
    requires IsMatrix(m, |m|, cols) && c < cols
    ensures |v| == |m| && forall i :: 0 <= i < |m| ==> v[i] == m[i][c]
  {
    seq(|m|, i requires 0 <= i < |m| => m[i][c])
  }

  function MatVec(m: Matrix, v: Vector): (r: Vector)
    requires IsMatrix(m, |m|, |v|)
    ensures |r| == |m|
  {
    seq(|m|, i requires 0 <= i < |m| => Dot(m[i], v))
  }

  /** Jᵀ·v for a matrix J with |v| rows and `cols` columns. */
  function TransposeTimes(j: Matrix, cols: nat, v: Vector): (r: Vector)
    requires IsMatrix(j, |v|, cols)
    ensures |r| == cols && forall c :: 0 <= c < cols ==> r[c] == Dot(Col(j, cols, c), v)
  {
    seq(cols, c requires 0 <= c < cols => Dot(Col(j, cols, c), v))
  }

  /** JᵀJ for a matrix J with `cols` columns. */
  function Gram(j: Matrix, cols: nat): (g: Matrix)
    requires IsMatrix(j, |j|, cols)
    ensures IsMatrix(g, cols, cols)
    ensures forall a, b :: 0 <= a < cols && 0 <= b < cols ==> g[a][b] == Dot(Col(j, cols, a), Col(j, cols, b))
  {
    seq(cols, a requires 0 <= a < cols =>
      seq(cols, b requires 0 <= b < cols => Dot(Col(j, cols, a), Col(j, cols, b))))
  }

  ghost predicate IsSymmetric(m: Matrix)
  {
    IsMatrix(m, |m|, |m|) &&
    forall i, j :: 0 <= i < |m| && 0 <= j < |m| ==> m[i][j] == m[j][i]
  }

  /** The symmetric matrix whose upper triangle is that of m: what Eigen's
      triangular-view copy `lower = upper.transpose()` leaves behind, and also
      the matrix a self-adjoint view on the upper triangle stands for. */
  function MirrorUpper(m: Matrix): (s: Matrix)
    requires IsMatrix(m, |m|, |m|)
    ensures IsMatrix(s, |m|, |m|)
    ensures forall i, j :: 0 <= i <= j < |m| ==> s[i][j] == m[i][j]
    ensures forall i, j :: 0 <= j < i < |m| ==> s[i][j] == m[j][i]
  {
    seq(|m|, i requires 0 <= i < |m| =>
      seq(|m|, j requires 0 <= j < |m| => if i <= j then m[i][j] else m[j][i]))
  }

  /** The mirrored matrix is symmetric, and mirroring a symmetric matrix
      changes nothing. */
  lemma MirrorUpperIsSymmetric(m: Matrix)
    requires IsMatrix(m, |m|, |m|)
    ensures IsSymmetric(MirrorUpper(m))
    ensures IsSymmetric(m) ==> MirrorUpper(m) == m
  {
    var s := MirrorUpper(m);
    forall i, j | 0 <= i < |m| && 0 <= j < |m|
      ensures s[i][j] == s[j][i]
    {
    }
    if IsSymmetric(m) {
      forall i | 0 <= i < |m|
        ensures s[i] == m[i]
      {
      }
    }
  }

  lemma {:induction false} DotCommutes(a: Vector, b: Vector)
    requires |a| == |b|
    ensures Dot(a, b) == Dot(b, a)
    decreases |a|
  {
    if |a| > 0 {
      DotCommutes(a[1..], b[1..]);
    }
  }

  lemma {:induction false} DotNeg(a: Vector, b: Vector)
    requires |a| == |b|
    ensures Dot(a, Neg(b)) == -Dot(a, b)
    decreases |a|
  {
    if |a| > 0 {
      DotNeg(a[1..], b[1..]);
      assert Neg(b)[1..] == Neg(b[1..]);
    }
  }

  lemma {:induction false} DotScale(a: Vector, k: real)
    ensures Dot(a, Scale(k, a)) == k * Dot(a, a)
    decreases |a|
  {
    if |a| > 0 {
      var s := Scale(k, a);
      var t := Scale(k, a[1..]);
      forall i | 0 <= i < |t|
        ensures s[1..][i] == t[i]
      {
        assert s[1..][i] == s[i + 1] == k * a[i + 1];
        assert t[i] == k * a[1..][i];
      }
      assert s[1..] == t;
      var rest := Dot(a[1..], a[1..]);
      DotScale(a[1..], k);
      assert Dot(a, s) == a[0] * s[0] + k * rest;
      assert a[0] * s[0] == k * (a[0] * a[0]);
      assert k * (a[0] * a[0]) + k * rest == k * (a[0] * a[0] + rest);
    }
  }

  lemma {:induction false} SquaredNormNonNegative(a: Vector)
    ensures SquaredNorm(a) >= 0.0
    decreases |a|
  {
    if |a| > 0 {
      SquaredNormNonNegative(a[1..]);
    }
  }

  /** Zero is neutral for vector addition and subtraction. */
  lemma ZerosAreNeutral(v: Vector)
    ensures Sub(v, Zeros(|v|)) == v
    ensures Add(Zeros(|v|), v) == v
  {
    assert Sub(v, Zeros(|v|)) == v;
    assert Add(Zeros(|v|), v) == v;
  }

  /** The inner product is linear in its second argument. */
  lemma {:induction false} DotAdd(a: Vector, u: Vector, v: Vector)
    requires |a| == |u| == |v|
    ensures Dot(a, Add(u, v)) == Dot(a, u) + Dot(a, v)
    decreases |a|
  {
    if |a| > 0 {
      assert Add(u, v)[1..] == Add(u[1..], v[1..]);
      DotAdd(a[1..], u[1..], v[1..]);
    }
  }

  /** Dot with a unit basis vector selects one coordinate. */
  lemma {:induction false} DotUnit(e: Vector, d: Vector, k: nat)
    requires |e| == |d| && k < |d|
    requires forall j :: 0 <= j < |e| ==> e[j] == if j == k then 1.0 else 0.0
    ensures Dot(e, d) == d[k]
    decreases |d|
  {
    if k == 0 {
      DotZeroPrefix(e[1..], d[1..]);
    } else {
      DotUnit(e[1..], d[1..], k - 1);
    }
  }

  lemma {:induction false} DotZeroPrefix(e: Vector, d: Vector)
    requires |e| == |d|
    requires forall j :: 0 <= j < |e| ==> e[j] == 0.0
    ensures Dot(e, d) == 0.0
    decreases |d|
  {
    if |d| > 0 {
      DotZeroPrefix(e[1..], d[1..]);
    }
  }

  /** The identity matrix leaves every vector unchanged. */
  lemma IdentityMatVec(d: Vector)
    ensures MatVec(Identity(|d|), d) == d
  {
    var r := MatVec(Identity(|d|), d);
    forall i | 0 <= i < |d|
      ensures r[i] == d[i]
    {
      DotUnit(Identity(|d|)[i], d, i);
    }
  }

  /** Iᵀ·v is v. */
  lemma IdentityTransposeTimes(v: Vector)
    ensures TransposeTimes(Identity(|v|), |v|, v) == v
  {
    var n := |v|;
    var r := TransposeTimes(Identity(n), n, v);
    forall c | 0 <= c < n
      ensures r[c] == v[c]
    {
      DotUnit(Col(Identity(n), n, c), v, c);
    }
  }

  /** IᵀI is I. */
  lemma IdentityGram(n: nat)
    ensures Gram(Identity(n), n) == Identity(n)
  {
    var I := Identity(n);
    var g := Gram(I, n);
    forall a | 0 <= a < n
      ensures g[a] == I[a]
    {
      forall b | 0 <= b < n
        ensures g[a][b] == I[a][b]
      {
        var ca := Col(I, n, a);
        var cb := Col(I, n, b);
        DotUnit(ca, cb, a);
        assert cb[a] == I[a][b];
      }
    }
  }

  /** JᵀJ is symmetric, whatever J is. */
  lemma GramIsSymmetric(j: Matrix, cols: nat)
    requires IsMatrix(j, |j|, cols)
    ensures IsSymmetric(Gram(j, cols))
  {
    var g := Gram(j, cols);
    forall a, b | 0 <= a < cols && 0 <= b < cols
      ensures g[a][b] == g[b][a]
    {
      DotCommutes(Col(j, cols, a), Col(j, cols, b));
    }
  }

  /** The numeric back end (Eigen and <cmath>), as oracles.
      - ldlt(A, b): an LDLT factorisation of A followed by a solve against b;
        None when the factorisation reports A as not positive (semi)definite.
      - inverseSolve(A, b): A.inverse() * b.
      - sqrt: std::sqrt.
      - isNaN: std::isnan applied to a computed quantity.
      - epsilon: the scalar type's machine epsilon (FloatEpsilon). */
  datatype Backend = Backend(
    ldlt: (Matrix, Vector) -> Option<Vector>,
    inverseSolve: (Matrix, Vector) -> Vector,
    sqrt: real -> real,
    isNaN: real -> bool,
    epsilon: real)
  {
    /** Solutions have the size of the right-hand side, and a quantity that is
        exactly zero is never reported as NaN. */
    ghost predicate WellShaped()
    {
      && (forall a, b :: ldlt(a, b).Some? ==> |ldlt(a, b).value| == |b|)
      && (forall a, b :: |inverseSolve(a, b)| == |b|)
      && !isNaN(0.0)
    }

    /** A solution the factorisation returns for a symmetric system does
        solve it. Every caller hands it a symmetric matrix (the self-adjoint
        view of an upper triangle), so nothing is assumed of the triangle
        the factorisation reads. */
    ghost predicate SoundLdlt()
    {
      forall a, b :: IsMatrix(a, |b|, |b|) && IsSymmetric(a) && ldlt(a, b).Some? ==>
        |ldlt(a, b).value| == |b| && MatVec(a, ldlt(a, b).value) == b
    }

    /** The square root is exact on non-negative reals. */
    ghost predicate ExactSqrt()
    {
      forall x :: x >= 0.0 ==> sqrt(x) >= 0.0 && sqrt(x) * sqrt(x) == x
    }
  }
  /** The factorisation reads only the upper triangle of its argument. */
  ghost predicate ReadsUpper(be: Backend)
  {
    forall a, b :: IsMatrix(a, |a|, |a|) ==> be.ldlt(a, b) == be.ldlt(MirrorUpper(a), b)
  }

  /** An LDLT oracle that reads only the upper triangle can meet SoundLdlt
      and still solve the non-symmetric [[2, 1], [0, 2]] through its upper
      view [[2, 1], [1, 2]]: the two hypotheses are consistent. */
  lemma UpperLdltCanBeSound()
    ensures exists be: Backend :: be.SoundLdlt() && ReadsUpper(be) &&
                                  be.ldlt([[2.0, 1.0], [0.0, 2.0]], [1.0, 0.0]) == Some([2.0 / 3.0, -1.0 / 3.0])
  {
    var sol: Vector := [2.0 / 3.0, -1.0 / 3.0];
    var ldlt := (a: Matrix, b: Vector) =>
      if |a| == 2 && |a[0]| == 2 && |a[1]| == 2 && a[0][0] == 2.0 && a[0][1] == 1.0 && a[1][1] == 2.0 && b == [1.0, 0.0]
      then Some(sol) else None;
    var be := Backend(ldlt, (a, b) => b, x => x, x => false, 0.0);
    var S: Matrix := [[2.0, 1.0], [1.0, 2.0]];
    assert Dot(S[0], sol) == 1.0;
    assert Dot(S[1], sol) == 0.0;
    forall a, b | IsMatrix(a, |b|, |b|) && IsSymmetric(a) && be.ldlt(a, b).Some?
      ensures |be.ldlt(a, b).value| == |b| && MatVec(a, be.ldlt(a, b).value) == b
    {
      assert a[1][0] == a[0][1];
      assert a[0] == S[0] && a[1] == S[1];
      assert a == S;
    }
    forall a, b | IsMatrix(a, |a|, |a|)
      ensures be.ldlt(a, b) == be.ldlt(MirrorUpper(a), b)
    {
    }
    assert be.SoundLdlt() && ReadsUpper(be);
  }
}
