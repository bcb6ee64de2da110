/**
 * Position estimation by linearised least-squares trilateration
 * (src/utils/triangulation.ts).
 *
 * Arithmetic is exact (`real`). Matrices are sequences of rows, as the
 * source's `number[][]`; every matrix the source builds is rectangular, so the
 * operations ask for that. A JavaScript exception raised inside the solve
 * becomes a `Failure` carrying the reason.
 */
module Triangulation {
  import opened Types

  type Vector = seq<real>
  type Matrix = seq<seq<real>>

  /** Why a matrix operation threw. `EmptyMatrix` is the TypeError of reading `A[0].length` on `[]`. */
  datatype MatrixError = EmptyMatrix | SizeMismatch | NotTwoByTwo | Singular

  datatype Result<+T> = Success(value: T) | Failure(error: MatrixError) {
    predicate IsFailure() { Failure? }
    function PropagateFailure<U>(): Result<U> requires Failure? { Failure(error) }
    function Extract(): T requires Success? { value }
  }

  /** A beacon position with the estimated distance to the device: the source's `[x, y, d]`. */
  datatype Observation = Observation(x: real, y: real, d: real)

  /** Below this magnitude the determinant of the normal matrix counts as zero. */
  const SingularityThreshold: real := 1e-10

  function Abs(v: real): real { if v < 0.0 then -v else v }

  /** The column count, read off the first row as the source does. */
  function Cols(A: Matrix): nat { if |A| == 0 then 0 else |A[0]| }

  predicate IsMatrix(A: Matrix, r: nat, c: nat) {
    |A| == r && forall i | 0 <= i < |A| :: |A[i]| == c
  }

  predicate Rectangular(A: Matrix) { IsMatrix(A, |A|, Cols(A)) }

  /** Inner product, accumulated from the first index upwards as the source's loops do. */
  function Dot(u: Vector, v: Vector): real
    requires |u| == |v|
    decreases |u|
  {
    if |u| == 0 then 0.0 else Dot(u[..|u| - 1], v[..|v| - 1]) + u[|u| - 1] * v[|v| - 1]
  }

  function Column(A: Matrix, j: nat): (c: Vector)
    requires Rectangular(A) && j < Cols(A)
    ensures |c| == |A|
  {
    seq(|A|, k requires 0 <= k < |A| => A[k][j])
  }

  /** The transpose of `A`: entry (j, i) is A[i][j]. */
  function Transposed(A: Matrix): (t: Matrix)
    requires Rectangular(A)
    ensures IsMatrix(t, Cols(A), |A|)
    ensures forall i, j | 0 <= i < |A| && 0 <= j < Cols(A) :: t[j][i] == A[i][j]
  {
    seq(Cols(A), j requires 0 <= j < Cols(A) => Column(A, j))
  }

  /** The matrix product: entry (i, j) is the sum over k of A[i][k] * B[k][j]. */
  function Product(A: Matrix, B: Matrix): (p: Matrix)
    requires IsMatrix(A, |A|, |B|) && Rectangular(B)
    ensures IsMatrix(p, |A|, Cols(B))
  {
    seq(|A|, i requires 0 <= i < |A| =>
      seq(Cols(B), j requires 0 <= j < Cols(B) => Dot(A[i], Column(B, j))))
  }

  /** The matrix-vector product: entry i is the sum over j of A[i][j] * v[j]. */
  function Apply(A: Matrix, v: Vector): (w: Vector)
    requires IsMatrix(A, |A|, |v|)
    ensures |w| == |A|
  {
    seq(|A|, i requires 0 <= i < |A| => Dot(A[i], v))
  }

  const Identity2: Matrix := [[1.0, 0.0], [0.0, 1.0]]

  function Det2(A: Matrix): real
    requires IsMatrix(A, 2, 2)
  {
    A[0][0] * A[1][1] - A[0][1] * A[1][0]
  }

  // ---------------------------------------------------------------------------
  // Facts about inner products

  lemma {:induction false} Dot2(u: Vector, v: Vector)
    requires |u| == 2 && |v| == 2
    ensures Dot(u, v) == u[0] * v[0] + u[1] * v[1]
  {
    assert u[..1][..0] == [] && v[..1][..0] == [];
    assert Dot(u[..1], v[..1]) == u[0] * v[0];
  }

  /** The linear combination p v + q x, entry by entry. */
  function Combine(p: real, v: Vector, q: real, x: Vector): (w: Vector)
    requires |v| == |x|
    ensures |w| == |v|
    ensures forall k | 0 <= k < |w| :: w[k] == p * v[k] + q * x[k]
  {
    seq(|v|, k requires 0 <= k < |v| => p * v[k] + q * x[k])
  }

  /** The multiple c v, entry by entry. */
  function Scaled(c: real, v: Vector): (w: Vector)
    ensures |w| == |v|
    ensures forall k | 0 <= k < |w| :: w[k] == c * v[k]
  {
    seq(|v|, k requires 0 <= k < |v| => c * v[k])
  }

  /** Dot is linear in its second argument. */
  lemma {:induction false} DotLinearRight(u: Vector, v: Vector, x: Vector, w: Vector, p: real, q: real)
    requires |u| == |v| == |x| == |w|
    requires forall k | 0 <= k < |w| :: w[k] == p * v[k] + q * x[k]
    ensures Dot(u, w) == p * Dot(u, v) + q * Dot(u, x)
  {
    if |u| > 0 {
      var n := |u| - 1;
      DotLinearRight(u[..n], v[..n], x[..n], w[..n], p, q);
    }
  }

  /** Dot is linear in its first argument. */
  lemma {:induction false} DotLinearLeft(w: Vector, u: Vector, x: Vector, v: Vector, p: real, q: real)
    requires |u| == |v| == |x| == |w|
    requires forall k | 0 <= k < |w| :: w[k] == p * u[k] + q * x[k]
    ensures Dot(w, v) == p * Dot(u, v) + q * Dot(x, v)
  {
    if |u| > 0 {
      var n := |u| - 1;
      DotLinearLeft(w[..n], u[..n], x[..n], v[..n], p, q);
    }
  }

  /** A vector that is a multiple of another gives a multiple of its inner products. */
  lemma {:induction false} DotScaled(u: Vector, v: Vector, w: Vector, c: real)
    requires |u| == |v| == |w|
    requires forall k | 0 <= k < |w| :: w[k] == c * v[k]
    ensures Dot(u, w) == c * Dot(u, v)
  {
    if |u| > 0 {
      var n := |u| - 1;
      DotScaled(u[..n], v[..n], w[..n], c);
    }
  }

  lemma {:induction false} DotOfCombinationRight(u: Vector, v: Vector, x: Vector, p: real, q: real)
    requires |u| == |v| == |x|
    ensures Dot(u, Combine(p, v, q, x)) == p * Dot(u, v) + q * Dot(u, x)
  {
    DotLinearRight(u, v, x, Combine(p, v, q, x), p, q);
  }

  lemma {:induction false} DotOfCombinationLeft(u: Vector, x: Vector, v: Vector, p: real, q: real)
    requires |u| == |v| == |x|
    ensures Dot(Combine(p, u, q, x), v) == p * Dot(u, v) + q * Dot(x, v)
  {
    DotLinearLeft(Combine(p, u, q, x), u, x, v, p, q);
  }

  lemma {:induction false} DotOfScaled(u: Vector, v: Vector, c: real)
    requires |u| == |v|
    ensures Dot(u, Scaled(c, v)) == c * Dot(u, v)
  {
    DotScaled(u, v, Scaled(c, v), c);
  }

  lemma {:induction false} DotSymmetric(u: Vector, v: Vector)
    requires |u| == |v|
    ensures Dot(u, v) == Dot(v, u)
  {
    if |u| > 0 {
      DotSymmetric(u[..|u| - 1], v[..|v| - 1]);
    }
  }

  lemma {:induction false} DotZero(u: Vector, v: Vector)
    requires |u| == |v|
    requires forall k | 0 <= k < |u| :: u[k] == 0.0
    ensures Dot(u, v) == 0.0
  {
    if |u| > 0 {
      DotZero(u[..|u| - 1], v[..|v| - 1]);
    }
  }

  /** One more term of a running inner product (the step of every accumulation loop). */
  lemma {:induction false} DotStep(u: Vector, v: Vector, k: nat)
    requires |u| == |v| && k < |u|
    ensures Dot(u[..k + 1], v[..k + 1]) == Dot(u[..k], v[..k]) + u[k] * v[k]
  {
    assert u[..k + 1][..k] == u[..k] && v[..k + 1][..k] == v[..k];
  }

  // ---------------------------------------------------------------------------
  // The matrix routines of the source, with their loops

  /** transpose: fails only on an empty matrix (reading A[0].length); otherwise the transpose. */
  method Transpose(A: Matrix) returns (r: Result<Matrix>)
    requires Rectangular(A)
    ensures r.Failure? <==> |A| == 0
    ensures r.Failure? ==> r.error == EmptyMatrix
    ensures r.Success? ==> r.value == Transposed(A)
  {
    if |A| == 0 {
      return Failure(EmptyMatrix);
    }
    var rows, cols := |A|, |A[0]|;
    var result: Matrix := seq(cols, _ => seq(rows, _ => 0.0));
    for i := 0 to rows
      invariant IsMatrix(result, cols, rows)
      invariant forall j, k | 0 <= j < cols && 0 <= k < i :: result[j][k] == A[k][j]
    {
      for j := 0 to cols
        invariant IsMatrix(result, cols, rows)
        invariant forall j', k | 0 <= j' < cols && 0 <= k < i :: result[j'][k] == A[k][j']
        invariant forall j' | 0 <= j' < j :: result[j'][i] == A[i][j']
      {
        result := result[j := result[j][i := A[i][j]]];
      }
    }
    assert forall j | 0 <= j < cols :: result[j] == Transposed(A)[j];
    return Success(result);
  }

  /**
   * multiply: fails when either operand is empty (reading [0].length) or the
   * inner dimensions differ; otherwise the product.
   */
  method Multiply(A: Matrix, B: Matrix) returns (r: Result<Matrix>)
    requires Rectangular(A) && Rectangular(B)
    ensures r.Failure? <==> |A| == 0 || |B| == 0 || Cols(A) != |B|
    ensures r.Failure? ==> r.error == (if |A| == 0 || |B| == 0 then EmptyMatrix else SizeMismatch)
    ensures r.Success? ==> r.value == Product(A, B)
  {
    if |A| == 0 || |B| == 0 {
      return Failure(EmptyMatrix);
    }
    var rowsA, colsA, rowsB, colsB := |A|, |A[0]|, |B|, |B[0]|;
    if colsA != rowsB {
      return Failure(SizeMismatch);
    }
    var result: Matrix := seq(rowsA, _ => seq(colsB, _ => 0.0));
    for i := 0 to rowsA
      invariant IsMatrix(result, rowsA, colsB)
      invariant forall i' | 0 <= i' < i :: result[i'] == Product(A, B)[i']
      invariant forall i', j | i <= i' < rowsA && 0 <= j < colsB :: result[i'][j] == 0.0
    {
      // result[i] is one row array; `result[i][j] += ...` updates it in place.
      var row := result[i];
      for j := 0 to colsB
        invariant |row| == colsB
        invariant forall j' | 0 <= j' < j :: row[j'] == Dot(A[i], Column(B, j'))
        invariant forall j' | j <= j' < colsB :: row[j'] == 0.0
      {
        ghost var column := Column(B, j);
        for k := 0 to colsA
          invariant |row| == colsB
          invariant forall j' | 0 <= j' < j :: row[j'] == Dot(A[i], Column(B, j'))
          invariant forall j' | j < j' < colsB :: row[j'] == 0.0
          invariant row[j] == Dot(A[i][..k], column[..k])
        {
          DotStep(A[i], column, k);
          row := row[j := row[j] + A[i][k] * B[k][j]];
        }
        assert A[i][..colsA] == A[i] && column[..colsA] == column;
      }
      assert row == Product(A, B)[i];
      result := result[i := row];
    }
    return Success(result);
  }

  /** multiplyVec: fails on an empty matrix or when its width differs from |b|; otherwise A b. */
  method MultiplyVec(A: Matrix, b: Vector) returns (r: Result<Vector>)
    requires Rectangular(A)
    ensures r.Failure? <==> |A| == 0 || Cols(A) != |b|
    ensures r.Failure? ==> r.error == (if |A| == 0 then EmptyMatrix else SizeMismatch)
    ensures r.Success? ==> r.value == Apply(A, b)
  {
    if |A| == 0 {
      return Failure(EmptyMatrix);
    }
    var rows, cols := |A|, |A[0]|;
    if cols != |b| {
      return Failure(SizeMismatch);
    }
    var result: Vector := seq(rows, _ => 0.0);
    for i := 0 to rows
      invariant |result| == rows
      invariant forall i' | 0 <= i' < i :: result[i'] == Dot(A[i'], b)
      invariant forall i' | i <= i' < rows :: result[i'] == 0.0
    {
      for j := 0 to cols
        invariant |result| == rows
        invariant forall i' | 0 <= i' < i :: result[i'] == Dot(A[i'], b)
        invariant forall i' | i < i' < rows :: result[i'] == 0.0
        invariant result[i] == Dot(A[i][..j], b[..j])
      {
        DotStep(A[i], b, j);
        result := result[i := result[i] + A[i][j] * b[j]];
      }
      assert A[i][..cols] == A[i] && b[..cols] == b;
    }
    return Success(result);
  }

  /**
   * inverse2x2: fails on anything but a 2x2 matrix and on a determinant of
   * magnitude below 1e-10; otherwise the adjugate divided by the determinant.
   */
  function Inverse2x2(A: Matrix): (r: Result<Matrix>)
    requires Rectangular(A)
    ensures r.Failure? <==> !IsMatrix(A, 2, 2) || Abs(Det2(A)) < SingularityThreshold
    ensures r.Failure? ==> r.error == (if IsMatrix(A, 2, 2) then Singular else NotTwoByTwo)
    ensures r.Success? ==> IsMatrix(r.value, 2, 2)
  {
    if |A| != 2 || |A[0]| != 2 then Failure(NotTwoByTwo)
    else
      var a, b, c, d := A[0][0], A[0][1], A[1][0], A[1][1];
      var det := Det2(A);
      if Abs(det) < SingularityThreshold then Failure(Singular)
      else Success([[d / det, -b / det], [-c / det, a / det]])
  }

  /** Scalar algebra behind inverse2x2: the adjugate over the determinant inverts on both sides. */
  lemma {:induction false} AdjugateInverts(a: real, b: real, c: real, d: real, det: real, m00: real, m01: real, m10: real, m11: real)
    requires det == a * d - b * c && det != 0.0
    requires m00 == d / det && m01 == -b / det && m10 == -c / det && m11 == a / det
    ensures m00 * a + m01 * c == 1.0 && m00 * b + m01 * d == 0.0
    ensures m10 * a + m11 * c == 0.0 && m10 * b + m11 * d == 1.0
    ensures a * m00 + b * m10 == 1.0 && a * m01 + b * m11 == 0.0
    ensures c * m00 + d * m10 == 0.0 && c * m01 + d * m11 == 1.0
  {
    assert m00 * det == d && m01 * det == -b && m10 * det == -c && m11 * det == a;
    assert (m00 * a + m01 * c) * det == (m00 * det) * a + (m01 * det) * c;
    assert (m00 * b + m01 * d) * det == (m00 * det) * b + (m01 * det) * d;
    assert (m10 * a + m11 * c) * det == (m10 * det) * a + (m11 * det) * c;
    assert (m10 * b + m11 * d) * det == (m10 * det) * b + (m11 * det) * d;
    assert (a * m00 + b * m10) * det == a * (m00 * det) + b * (m10 * det);
    assert (a * m01 + b * m11) * det == a * (m01 * det) + b * (m11 * det);
    assert (c * m00 + d * m10) * det == c * (m00 * det) + d * (m10 * det);
    assert (c * m01 + d * m11) * det == c * (m01 * det) + d * (m11 * det);
  }

  /** Two 2x2 matrices whose row-by-column sums are those of the identity multiply to it. */
  lemma {:induction false} ProductIsIdentity(M: Matrix, N: Matrix)
    requires IsMatrix(M, 2, 2) && IsMatrix(N, 2, 2)
    requires M[0][0] * N[0][0] + M[0][1] * N[1][0] == 1.0 && M[0][0] * N[0][1] + M[0][1] * N[1][1] == 0.0
    requires M[1][0] * N[0][0] + M[1][1] * N[1][0] == 0.0 && M[1][0] * N[0][1] + M[1][1] * N[1][1] == 1.0
    ensures Product(M, N) == Identity2
  {
    var P := Product(M, N);
    forall i, j | 0 <= i < 2 && 0 <= j < 2
      ensures P[i][j] == M[i][0] * N[0][j] + M[i][1] * N[1][j]
    {
      Dot2(M[i], Column(N, j));
    }
    assert P[0][0] == 1.0 && P[0][1] == 0.0;
    assert P[1][0] == 0.0 && P[1][1] == 1.0;
    assert P[0] == [1.0, 0.0] && P[1] == [0.0, 1.0];
  }

  /** A successful inverse2x2 is a two-sided inverse. */
  lemma {:induction false} InverseIsTwoSided(A: Matrix)
    requires Rectangular(A) && Inverse2x2(A).Success?
    ensures Product(Inverse2x2(A).value, A) == Identity2
    ensures Product(A, Inverse2x2(A).value) == Identity2
  {
    var M := Inverse2x2(A).value;
    AdjugateInverts(A[0][0], A[0][1], A[1][0], A[1][1], Det2(A), M[0][0], M[0][1], M[1][0], M[1][1]);
    ProductIsIdentity(M, A);
    ProductIsIdentity(A, M);
  }

  lemma {:induction false} ApplyIdentity(c: Vector)
    requires |c| == 2
    ensures Apply(Identity2, c) == c
  {
    Dot2(Identity2[0], c);
    Dot2(Identity2[1], c);
  }

  // ---------------------------------------------------------------------------
  // Normal equations

  /** A matrix with at least one row and exactly two columns, as the linearised system is. */
  predicate TwoColumn(A: Matrix) { |A| > 0 && IsMatrix(A, |A|, 2) }

  /** The normal matrix Aᵀ A; entry (i, j) is the inner product of columns i and j. */
  function Gram(A: Matrix): (g: Matrix)
    requires TwoColumn(A)
    ensures IsMatrix(g, 2, 2)
    ensures forall i, j | 0 <= i < 2 && 0 <= j < 2 :: g[i][j] == Dot(Column(A, i), Column(A, j))
  {
    Product(Transposed(A), A)
  }

  /** The singularity guard of inverse2x2 passes on Aᵀ A. */
  predicate Solvable(A: Matrix)
    requires TwoColumn(A)
  {
    Abs(Det2(Gram(A))) >= SingularityThreshold
  }

  /** The closed-form least-squares solution (Aᵀ A)⁻¹ (Aᵀ b). */
  function NormalSolution(A: Matrix, b: Vector): (s: Vector)
    requires TwoColumn(A) && |b| == |A| && Solvable(A)
    ensures |s| == 2
  {
    Apply(Inverse2x2(Gram(A)).value, Apply(Transposed(A), b))
  }

  /** The normal solution satisfies the normal equations (Aᵀ A) s = Aᵀ b. */
  lemma {:induction false} NormalSolutionSolves(A: Matrix, b: Vector)
    requires TwoColumn(A) && |b| == |A| && Solvable(A)
    ensures Apply(Gram(A), NormalSolution(A, b)) == Apply(Transposed(A), b)
  {
    var G := Gram(A);
    var c := Apply(Transposed(A), b);
    var M := Inverse2x2(G).value;
    InverseIsTwoSided(G);
    ApplyProductNarrow(G, M, c);
    ApplyIdentity(c);
  }

  /** (Aᵀ A) q = Aᵀ (A q) for a two-column A. */
  lemma {:induction false} GramApply(A: Matrix, q: Vector)
    requires TwoColumn(A) && |q| == 2
    ensures Apply(Gram(A), q) == Apply(Transposed(A), Apply(A, q))
  {
    forall i | 0 <= i < 2
      ensures Apply(Gram(A), q)[i] == Apply(Transposed(A), Apply(A, q))[i]
    {
      GramApplyRow(A, q, i);
    }
  }

  /** Row i of GramApply: both sides are ⟨cᵢ, q₀ c₀ + q₁ c₁⟩. */
  lemma {:induction false} GramApplyRow(A: Matrix, q: Vector, i: nat)
    requires TwoColumn(A) && |q| == 2 && i < 2
    ensures Apply(Gram(A), q)[i] == Apply(Transposed(A), Apply(A, q))[i]
  {
    GramApplyEntry(A, q, i);
    TransposedApplyEntry(A, Apply(A, q), i);
    DotWithApply(A, q, Column(A, i));
  }

  /** ⟨u, A q⟩ = q₀ ⟨u, c₀⟩ + q₁ ⟨u, c₁⟩. */
  lemma {:induction false} DotWithApply(A: Matrix, q: Vector, u: Vector)
    requires TwoColumn(A) && |q| == 2 && |u| == |A|
    ensures Dot(u, Apply(A, q)) == q[0] * Dot(u, Column(A, 0)) + q[1] * Dot(u, Column(A, 1))
  {
    ApplyTwoColumns(A, q);
    DotOfCombinationRight(u, Column(A, 0), Column(A, 1), q[0], q[1]);
  }

  /** A q is the combination q₀ c₀ + q₁ c₁ of the two columns. */
  lemma {:induction false} ApplyTwoColumns(A: Matrix, q: Vector)
    requires TwoColumn(A) && |q| == 2
    ensures Apply(A, q) == Combine(q[0], Column(A, 0), q[1], Column(A, 1))
  {
    var Aq, w := Apply(A, q), Combine(q[0], Column(A, 0), q[1], Column(A, 1));
    forall k | 0 <= k < |Aq|
      ensures Aq[k] == w[k]
    {
      Dot2(A[k], q);
    }
  }

  /** (Aᵀ A q)[i] = ⟨cᵢ, c₀⟩ q₀ + ⟨cᵢ, c₁⟩ q₁. */
  lemma {:induction false} GramApplyEntry(A: Matrix, q: Vector, i: nat)
    requires TwoColumn(A) && |q| == 2 && i < 2
    ensures Apply(Gram(A), q)[i] == q[0] * Dot(Column(A, i), Column(A, 0)) + q[1] * Dot(Column(A, i), Column(A, 1))
  {
    var G := Gram(A);
    Dot2(G[i], q);
  }

  /** (Aᵀ w)[i] = ⟨cᵢ, w⟩. */
  lemma {:induction false} TransposedApplyEntry(A: Matrix, w: Vector, i: nat)
    requires Rectangular(A) && |w| == |A| && i < Cols(A)
    ensures Apply(Transposed(A), w)[i] == Dot(Column(A, i), w)
  {
  }

  /** (M N) v = M (N v) when M has two columns. */
  lemma {:induction false} ApplyProductNarrow(M: Matrix, N: Matrix, v: Vector)
    requires IsMatrix(M, |M|, 2) && IsMatrix(N, 2, |v|)
    ensures Apply(Product(M, N), v) == Apply(M, Apply(N, v))
  {
    var P := Product(M, N);
    var Nv := Apply(N, v);
    forall i | 0 <= i < |M|
      ensures Apply(P, v)[i] == Apply(M, Nv)[i]
    {
      ProductRow(M, N, i);
      DotOfCombinationLeft(N[0], N[1], v, M[i][0], M[i][1]);
      Dot2(M[i], Nv);
    }
  }

  /** Row i of M N is the combination of the rows of N weighted by row i of M. */
  lemma {:induction false} ProductRow(M: Matrix, N: Matrix, i: nat)
    requires IsMatrix(M, |M|, 2) && IsMatrix(N, 2, Cols(N)) && i < |M|
    ensures Product(M, N)[i] == Combine(M[i][0], N[0], M[i][1], N[1])
  {
    var row, w := Product(M, N)[i], Combine(M[i][0], N[0], M[i][1], N[1]);
    forall j | 0 <= j < |row|
      ensures row[j] == w[j]
    {
      Dot2(M[i], Column(N, j));
    }
  }

  /**
   * When the system A p = b is consistent and the guard passes, the normal
   * solution is that p: noiseless data gives back the true position.
   */
  lemma {:induction false} NormalSolutionOfConsistentSystem(A: Matrix, b: Vector, q: Vector)
    requires TwoColumn(A) && |b| == |A| && Solvable(A) && |q| == 2
    requires Apply(A, q) == b
    ensures NormalSolution(A, b) == q
  {
    var G := Gram(A);
    var M := Inverse2x2(G).value;
    GramApply(A, q);
    InverseIsTwoSided(G);
    ApplyProductNarrow(M, G, q);
    ApplyIdentity(q);
  }

  /** pseudoInverse: (Aᵀ A)⁻¹ Aᵀ b, failing exactly when some step of the source throws. */
  method PseudoInverse(A: Matrix, b: Vector) returns (r: Result<Vector>)
    requires Rectangular(A)
    ensures r.Success? <==> TwoColumn(A) && |b| == |A| && Solvable(A)
    ensures r.Success? ==> r.value == NormalSolution(A, b)
    ensures TwoColumn(A) && |b| == |A| && !Solvable(A) ==> r == Failure(Singular)
  {
    var AT :- Transpose(A);
    var ATA :- Multiply(AT, A);
    var ATAInv :- Inverse2x2(ATA);
    // Never throws: a 2x2 matrix times a 2-row matrix.
    var product := Multiply(ATAInv, AT);
    assert product.Success?;
    var ATAInvAT := product.value;
    r := MultiplyVec(ATAInvAT, b);
    if r.Success? {
      ApplyProductNarrow(ATAInv, AT, b);
    }
  }

  // ---------------------------------------------------------------------------
  // The linearised system and the solve

  /** Math.round: the integer nearest to v, halves rounded up. */
  function Round(v: real): (n: int)
    ensures v - 0.5 < n as real <= v + 0.5
  {
    (v + 0.5).Floor
  }

  function RoundPoint(s: Vector): Point
    requires |s| == 2
  {
    Point(Round(s[0]), Round(s[1]))
  }

  /** Equation for point p relative to the reference point p0: its coefficients. */
  function EquationRow(p0: Observation, p: Observation): Vector {
    [2.0 * (p.x - p0.x), 2.0 * (p.y - p0.y)]
  }

  /** Equation for point p relative to the reference point p0: its right-hand side. */
  function EquationRhs(p0: Observation, p: Observation): real {
    p.x * p.x - p0.x * p0.x + p.y * p.y - p0.y * p0.y + p0.d * p0.d - p.d * p.d
  }

  function LinearSystemMatrix(points: seq<Observation>): (A: Matrix)
    requires |points| > 0
    ensures IsMatrix(A, |points| - 1, 2)
  {
    seq(|points| - 1, i requires 0 <= i < |points| - 1 => EquationRow(points[0], points[i + 1]))
  }

  function LinearSystemRhs(points: seq<Observation>): (b: Vector)
    requires |points| > 0
    ensures |b| == |points| - 1
  {
    seq(|points| - 1, i requires 0 <= i < |points| - 1 => EquationRhs(points[0], points[i + 1]))
  }

  /** The squared distance from (x, y) to q is d squared. */
  predicate AtDistance(x: real, y: real, d: real, q: Vector)
    requires |q| == 2
  {
    d * d == (x - q[0]) * (x - q[0]) + (y - q[1]) * (y - q[1])
  }

  /**
   * A point whose distance to every beacon is exactly the observed one satisfies
   * every linearised equation: the linearisation loses no solution.
   */
  lemma {:induction false} ExactRangesSolveLinearSystem(points: seq<Observation>, q: Vector)
    requires |points| > 0 && |q| == 2
    requires forall i | 0 <= i < |points| :: AtDistance(points[i].x, points[i].y, points[i].d, q)
    ensures Apply(LinearSystemMatrix(points), q) == LinearSystemRhs(points)
  {
    var A := LinearSystemMatrix(points);
    var p0 := points[0];
    forall i | 0 <= i < |A|
      ensures Apply(A, q)[i] == LinearSystemRhs(points)[i]
    {
      var p := points[i + 1];
      Dot2(A[i], q);
      assert p0.d * p0.d == (p0.x - q[0]) * (p0.x - q[0]) + (p0.y - q[1]) * (p0.y - q[1]);
      assert p.d * p.d == (p.x - q[0]) * (p.x - q[0]) + (p.y - q[1]) * (p.y - q[1]);
    }
  }

  /**
   * weightedLeastSquares: builds the n-1 equations relative to the first point,
   * solves the normal equations and rounds. Fails exactly when there are fewer
   * than two points or the normal matrix is (numerically) singular.
   */
  method WeightedLeastSquares(points: seq<Observation>) returns (r: Result<Point>)
    ensures r.Success? <==> |points| >= 2 && Solvable(LinearSystemMatrix(points))
    ensures r.Success? ==> r.value == RoundPoint(NormalSolution(LinearSystemMatrix(points), LinearSystemRhs(points)))
    ensures |points| >= 2 && !Solvable(LinearSystemMatrix(points)) ==> r == Failure(Singular)
  {
    if |points| == 0 {
      return Failure(EmptyMatrix);
    }
    var x0, y0 := points[0].x, points[0].y;
    var A: Matrix := [];
    var b: Vector := [];
    for i := 1 to |points|
      invariant |A| == i - 1 && |b| == i - 1
      invariant forall k | 0 <= k < i - 1 :: A[k] == EquationRow(points[0], points[k + 1])
      invariant forall k | 0 <= k < i - 1 :: b[k] == EquationRhs(points[0], points[k + 1])
    {
      var xi, yi, di := points[i].x, points[i].y, points[i].d;
      var d1 := points[0].d;
      A := A + [[2.0 * (xi - x0), 2.0 * (yi - y0)]];
      b := b + [xi * xi - x0 * x0 + yi * yi - y0 * y0 + d1 * d1 - di * di];
    }
    assert A == LinearSystemMatrix(points);
    assert b == LinearSystemRhs(points);
    var result :- PseudoInverse(A, b);
    return Success(Point(Round(result[0]), Round(result[1])));
  }

  /** The points handed to the solver: beacon coordinates and the modelled distance of each reading. */
  function Observations(data: seq<RssiData>, distance: real -> real): (points: seq<Observation>)
    ensures |points| == |data|
  {
    seq(|data|, i requires 0 <= i < |data| =>
      Observation(data[i].x as real, data[i].y as real, distance(data[i].rssi)))
  }

  /**
   * The outcome of trilaterate as a closed form: nothing for fewer than three
   * readings or a singular geometry, else the rounded normal solution.
   */
  function Trilateration(data: seq<RssiData>, distance: real -> real): (r: Option<Point>)
    ensures |data| < 3 ==> r.None?
  {
    if |data| < 3 then None
    else
      var points := Observations(data, distance);
      var A := LinearSystemMatrix(points);
      if Solvable(A) then Some(RoundPoint(NormalSolution(A, LinearSystemRhs(points)))) else None
  }

  /**
   * trilaterate: rejects fewer than three readings, and turns any failure of
   * the solve into "no estimate" instead of propagating it.
   */
  method Trilaterate(data: seq<RssiData>, distance: real -> real) returns (r: Option<Point>)
    ensures |data| < 3 ==> r.None?
    ensures r == Trilateration(data, distance)
  {
    if |data| < 3 {
      return None;
    }
    var points := seq(|data|, i requires 0 <= i < |data| =>
      Observation(data[i].x as real, data[i].y as real, distance(data[i].rssi)));
    var solved := WeightedLeastSquares(points);
    match solved
    case Success(p) => r := Some(p);
    case Failure(_) => r := None;
  }

  /** Beacons that all lie on one line `a x + b y == c`. */
  predicate Collinear(data: seq<RssiData>, a: real, b: real, c: real) {
    (a != 0.0 || b != 0.0) && forall i | 0 <= i < |data| :: a * data[i].x as real + b * data[i].y as real == c
  }

  /** Scalar algebra: a Gram determinant with a scaled second column vanishes. */
  lemma {:induction false} DependentDeterminant(g: real, l: real, uv: real, vu: real, vv: real)
    requires uv == l * g && vu == uv && vv == l * vu
    ensures g * vv - uv * vu == 0.0
  {
    assert l * vu == l * uv;
    assert l * uv == l * (l * g);
    assert g * vv == g * (l * (l * g));
    assert uv * vu == (l * g) * (l * g);
  }

  /** Two linearly dependent vectors have a vanishing Gram determinant. */
  lemma {:induction false} DependentVectors(u: Vector, v: Vector, a: real, b: real)
    requires |u| == |v| && (a != 0.0 || b != 0.0)
    requires forall k | 0 <= k < |u| :: a * u[k] + b * v[k] == 0.0
    ensures Dot(u, u) * Dot(v, v) - Dot(u, v) * Dot(v, u) == 0.0
  {
    if b != 0.0 {
      SolvedForSecond(u, v, a, b);
      ProportionalVectors(u, v, -a / b);
    } else {
      ZeroFirst(u, v, a);
      ZeroVectorDeterminant(u, v);
    }
  }

  /** A zero vector has a vanishing Gram determinant with any other. */
  lemma {:induction false} ZeroVectorDeterminant(u: Vector, v: Vector)
    requires |u| == |v|
    requires forall k | 0 <= k < |u| :: u[k] == 0.0
    ensures Dot(u, u) * Dot(v, v) - Dot(u, v) * Dot(v, u) == 0.0
  {
    DotZero(u, u);
    DotZero(u, v);
  }

  /** a u + b v = 0 with b non-zero makes v the multiple -a/b of u. */
  lemma {:induction false} SolvedForSecond(u: Vector, v: Vector, a: real, b: real)
    requires |u| == |v| && b != 0.0
    requires forall k | 0 <= k < |u| :: a * u[k] + b * v[k] == 0.0
    ensures v == Scaled(-a / b, u)
  {
    forall k | 0 <= k < |u| ensures v[k] == Scaled(-a / b, u)[k] {
      ScaleByQuotient(a, b, u[k], v[k]);
    }
  }

  /** a u + 0 v = 0 with a non-zero makes u zero. */
  lemma {:induction false} ZeroFirst(u: Vector, v: Vector, a: real)
    requires |u| == |v| && a != 0.0
    requires forall k | 0 <= k < |u| :: a * u[k] + 0.0 * v[k] == 0.0
    ensures forall k | 0 <= k < |u| :: u[k] == 0.0
  {
    forall k | 0 <= k < |u| ensures u[k] == 0.0 {
      assert a * u[k] == 0.0;
    }
  }

  /** v = λ u makes the Gram determinant of u and v vanish. */
  lemma {:induction false} ProportionalVectors(u: Vector, v: Vector, lambda: real)
    requires v == Scaled(lambda, u)
    ensures Dot(u, u) * Dot(v, v) - Dot(u, v) * Dot(v, u) == 0.0
  {
    ProportionalDots(u, v, lambda);
    DependentDeterminant(Dot(u, u), lambda, Dot(u, v), Dot(v, u), Dot(v, v));
  }

  lemma {:induction false} ProportionalDots(u: Vector, v: Vector, lambda: real)
    requires v == Scaled(lambda, u)
    ensures Dot(u, v) == lambda * Dot(u, u) && Dot(v, u) == Dot(u, v) && Dot(v, v) == lambda * Dot(v, u)
  {
    ScaledDot(u, u, v, lambda);
    ScaledDot(v, u, v, lambda);
    DotSymmetric(u, v);
  }

  lemma {:induction false} ScaledDot(w: Vector, u: Vector, v: Vector, lambda: real)
    requires |w| == |u| && v == Scaled(lambda, u)
    ensures Dot(w, v) == lambda * Dot(w, u)
  {
    DotOfScaled(w, u, lambda);
  }

  /** Columns that are linearly dependent make Aᵀ A exactly singular. */
  lemma {:induction false} DependentColumnsAreSingular(A: Matrix, a: real, b: real)
    requires TwoColumn(A) && (a != 0.0 || b != 0.0)
    requires forall k | 0 <= k < |A| :: a * A[k][0] + b * A[k][1] == 0.0
    ensures Det2(Gram(A)) == 0.0
  {
    DependentVectors(Column(A, 0), Column(A, 1), a, b);
  }

  lemma {:induction false} ScaleByQuotient(a: real, b: real, x: real, y: real)
    requires b != 0.0 && a * x + b * y == 0.0
    ensures y == (-a / b) * x
  {
    assert b * y == -a * x;
    assert (-a / b) * x * b == -a * x;
  }

  /** Beacons on one line make Aᵀ A exactly singular, so trilateration gives no estimate. */
  lemma {:induction false} CollinearBeaconsGiveNoEstimate(data: seq<RssiData>, distance: real -> real, a: real, b: real, c: real)
    requires |data| >= 3 && Collinear(data, a, b, c)
    ensures Trilateration(data, distance).None?
  {
    var points := Observations(data, distance);
    var A := LinearSystemMatrix(points);
    forall k | 0 <= k < |A|
      ensures a * A[k][0] + b * A[k][1] == 0.0
    {
      var p, p0 := points[k + 1], points[0];
      assert a * p.x + b * p.y == c && a * p0.x + b * p0.y == c;
      assert a * A[k][0] + b * A[k][1] == 2.0 * ((a * p.x + b * p.y) - (a * p0.x + b * p0.y));
    }
    DependentColumnsAreSingular(A, a, b);
  }

  /**
   * Noiseless ranges: if every modelled distance is the true distance to the
   * point q and the guard passes, trilateration returns q rounded.
   */
  lemma {:induction false} TrilaterationOfExactRanges(data: seq<RssiData>, distance: real -> real, q: Vector)
    requires |data| >= 3 && |q| == 2
    requires Solvable(LinearSystemMatrix(Observations(data, distance)))
    requires forall i | 0 <= i < |data| :: AtDistance(data[i].x as real, data[i].y as real, distance(data[i].rssi), q)
    ensures Trilateration(data, distance) == Some(RoundPoint(q))
  {
    var points := Observations(data, distance);
    assert forall i | 0 <= i < |points| :: points[i] == Observation(data[i].x as real, data[i].y as real, distance(data[i].rssi));
    ExactRangesSolveLinearSystem(points, q);
    NormalSolutionOfConsistentSystem(LinearSystemMatrix(points), LinearSystemRhs(points), q);
  }

  /** Scalar algebra (Lagrange's identity in two dimensions). */
  lemma {:induction false} LagrangeIdentity(a: real, b: real, c: real, d: real, g00: real, g01: real, g10: real, g11: real)
    requires g00 == a * a + c * c && g01 == a * b + c * d && g10 == b * a + d * c && g11 == b * b + d * d
    ensures g00 * g11 - g01 * g10 == (a * d - b * c) * (a * d - b * c)
  {
    assert g00 * g11 == (a * a + c * c) * (b * b + d * d);
    assert g01 * g10 == (a * b + c * d) * (b * a + d * c);
  }

  /** For a square 2x2 matrix, det(Aᵀ A) = det(A)². */
  lemma {:induction false} GramOfSquare(A: Matrix)
    requires IsMatrix(A, 2, 2)
    ensures Det2(Gram(A)) == Det2(A) * Det2(A)
  {
    var u, v := Column(A, 0), Column(A, 1);
    var G := Gram(A);
    Dot2(u, u);
    Dot2(u, v);
    Dot2(v, u);
    Dot2(v, v);
    LagrangeIdentity(A[0][0], A[0][1], A[1][0], A[1][1], G[0][0], G[0][1], G[1][0], G[1][1]);
  }

  /** Scalar algebra: the determinant of the doubled offsets is four times their cross product. */
  lemma {:induction false} DoubledCross(dx1: int, dy1: int, dx2: int, dy2: int)
    ensures (2.0 * dx1 as real) * (2.0 * dy2 as real) - (2.0 * dy1 as real) * (2.0 * dx2 as real)
         == 4.0 * (dx1 * dy2 - dx2 * dy1) as real
  {
    assert (dx1 * dy2) as real == (dx1 as real) * (dy2 as real);
    assert (dx2 * dy1) as real == (dx2 as real) * (dy1 as real);
  }

  /** Scalar algebra: a non-zero integer times four, squared, is at least 16. */
  lemma {:induction false} SquareOfNonZero(n: int, w: real)
    requires n != 0 && w == 4.0 * n as real
    ensures w * w >= 16.0
  {
    assert n * n >= 1;
    assert (n * n) as real == (n as real) * (n as real);
    assert w * w == 16.0 * (n * n) as real;
  }

  /**
   * Three beacons at integer coordinates that are not collinear always pass the
   * singularity guard: det(Aᵀ A) is 16 times the square of a non-zero integer.
   */
  lemma {:induction false} ThreeNonCollinearBeaconsAreSolvable(data: seq<RssiData>, distance: real -> real)
    requires |data| == 3
    requires (data[1].x - data[0].x) * (data[2].y - data[0].y) != (data[2].x - data[0].x) * (data[1].y - data[0].y)
    ensures Solvable(LinearSystemMatrix(Observations(data, distance)))
  {
    var A := LinearSystemMatrix(Observations(data, distance));
    var dx1, dy1 := data[1].x - data[0].x, data[1].y - data[0].y;
    var dx2, dy2 := data[2].x - data[0].x, data[2].y - data[0].y;
    assert A[0] == [2.0 * dx1 as real, 2.0 * dy1 as real];
    assert A[1] == [2.0 * dx2 as real, 2.0 * dy2 as real];
    DoubledCross(dx1, dy1, dx2, dy2);
    GramOfSquare(A);
    SquareOfNonZero(dx1 * dy2 - dx2 * dy1, Det2(A));
  }
}
