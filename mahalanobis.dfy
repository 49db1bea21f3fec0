/**
 Distance between two polynomials given by coefficient lists (index i holds
 the coefficient of degree i): the shorter list is padded with zeros, the
 padded lists are subtracted, and the difference delta is measured under a
 precision (inverse-covariance) matrix M as deltaᵀ · M · delta. The distance
 itself is the square root of that quadratic form; the model stops at the
 quadratic form, called the squared distance here.
 */
module Mahalanobis {
  import opened LinAlg

  function Max(a: nat, b: nat): nat
  {
    if a >= b then a else b
  }

  /** The coefficient of degree i of p; zero past the end of the list. */
  function CoeffAt(p: seq<real>, i: nat): real
  {
    if i < |p| then p[i] else 0.0
  }

  /** p followed by as many zeros as it takes to reach length n. */
  function Pad(p: seq<real>, n: nat): seq<real>
    requires |p| <= n
  {
    p + Zeros(n - |p|)
  }

  /** Both lists right-padded with zeros to the length of the longer one. */
  function Align(p1: seq<real>, p2: seq<real>): (r: (seq<real>, seq<real>))
    ensures |r.0| == |r.1| == Max(|p1|, |p2|)
    ensures r.0[..|p1|] == p1 && r.1[..|p2|] == p2
    ensures forall i :: |p1| <= i < |r.0| ==> r.0[i] == 0.0
    ensures forall i :: |p2| <= i < |r.1| ==> r.1[i] == 0.0
  {
    var n := Max(|p1|, |p2|);
    (Pad(p1, n), Pad(p2, n))
  }

  /** The difference vector of the aligned lists: entry i is the difference
      of the two degree-i coefficients, a missing coefficient counting as 0. */
  function Delta(p1: seq<real>, p2: seq<real>): (d: seq<real>)
    ensures |d| == Max(|p1|, |p2|)
    ensures forall i :: 0 <= i < |d| ==> d[i] == CoeffAt(p1, i) - CoeffAt(p2, i)
  {
    var r := Align(p1, p2);
    Sub(r.0, r.1)
  }

  /** deltaᵀ · M · delta, bracketed as the computation does it:
      first the row vector deltaᵀ · M, then its dot product with delta. */
  /** The result equals the row sum Σ_i delta[i] * (Σ_j M[i][j] * delta[j]),
      the other bracketing deltaᵀ · (M · delta). */
  function QuadForm(d: seq<real>, M: seq<seq<real>>): (q: real)
    requires IsSquare(M, |d|)
    ensures q == Dot(d, MatVec(M, d))
  {
    VecMatDot(d, M, d);
    Dot(VecMat(d, M, |d|), d)
  }

  /** The square of the Mahalanobis distance between two coefficient lists;
      M must be square of the aligned length. It is the row sum
      Σ_i δ[i] * (Σ_j M[i][j] * δ[j]) over the coefficient differences
      δ[i] = CoeffAt(p1, i) - CoeffAt(p2, i), and it is 0 when the two
      lists are the same. */
  function SquaredDistance(p1: seq<real>, p2: seq<real>, M: seq<seq<real>>): (q: real)
    requires IsSquare(M, Max(|p1|, |p2|))
    ensures var d := Delta(p1, p2); q == Dot(d, MatVec(M, d))
    ensures p1 == p2 ==> q == 0.0
  {
    DeltaSelf(p1);
    QuadFormZero(Max(|p1|, |p2|), M);
    QuadForm(Delta(p1, p2), M)
  }

  /** Reference definition for the identity-matrix case: Σ_i (a[i] - b[i])². */
  function SumSquaredDiff(a: seq<real>, b: seq<real>): real
    requires |a| == |b|
    decreases |a|
  {
    if |a| == 0 then 0.0
    else (a[0] - b[0]) * (a[0] - b[0]) + SumSquaredDiff(a[1..], b[1..])
  }

  // ---------------------------------------------------------------------
  // Alignment

  /** Each aligned list holds the coefficient of every degree below the
      common length. */
  lemma {:induction false} AlignCoefficients(p1: seq<real>, p2: seq<real>, i: nat)
    requires i < Max(|p1|, |p2|)
    ensures Align(p1, p2).0[i] == CoeffAt(p1, i)
    ensures Align(p1, p2).1[i] == CoeffAt(p2, i)
  {
  }

  /** Lists of equal length come back unchanged; this covers
      Align(a, a) and Align([], []). */
  lemma {:induction false} AlignEqualLengths(p1: seq<real>, p2: seq<real>)
    requires |p1| == |p2|
    ensures Align(p1, p2) == (p1, p2)
  {
    assert Zeros(0) == [];
    assert Pad(p1, |p1|) == p1 + [] == p1;
    assert Pad(p2, |p2|) == p2 + [] == p2;
  }

  lemma {:induction false} AlignSelf(a: seq<real>)
    ensures Align(a, a) == (a, a)
  {
    AlignEqualLengths(a, a);
  }

  lemma AlignEmpty()
    ensures Align([], []) == ([], [])
  {
  }

  /** Swapping the arguments swaps the results. */
  lemma {:induction false} AlignSwap(p1: seq<real>, p2: seq<real>)
    ensures Align(p2, p1) == (Align(p1, p2).1, Align(p1, p2).0)
  {
  }

  /** Aligning an aligned pair changes nothing. */
  lemma {:induction false} AlignIdempotent(p1: seq<real>, p2: seq<real>)
    ensures Align(Align(p1, p2).0, Align(p1, p2).1) == Align(p1, p2)
  {
    var r := Align(p1, p2);
    AlignEqualLengths(r.0, r.1);
  }

  // ---------------------------------------------------------------------
  // Difference vector

  /** A list minus itself is the zero vector of its own length. */
  lemma {:induction false} DeltaSelf(p: seq<real>)
    ensures Delta(p, p) == Zeros(|p|)
  {
  }

  /** Swapping the arguments negates the difference vector. */
  lemma {:induction false} DeltaSwap(p1: seq<real>, p2: seq<real>)
    ensures Delta(p2, p1) == Scale(-1.0, Delta(p1, p2))
  {
  }

  // ---------------------------------------------------------------------
  // Quadratic form

  /** The zero vector has quadratic form 0 under every matrix. */
  lemma {:induction false} QuadFormZero(n: nat, M: seq<seq<real>>)
    requires IsSquare(M, n)
    ensures QuadForm(Zeros(n), M) == 0.0
  {
    DotZerosLeft(n, MatVec(M, Zeros(n)));
  }

  /** Negating the vector leaves the quadratic form unchanged, for every
      square matrix, symmetric or not. */
  lemma {:induction false} QuadFormNegate(d: seq<real>, M: seq<seq<real>>)
    requires IsSquare(M, |d|)
    ensures QuadForm(Scale(-1.0, d), M) == QuadForm(d, M)
  {
    var nd := Scale(-1.0, d);
    var w := MatVec(M, d);
    calc {
      QuadForm(nd, M);
      Dot(nd, MatVec(M, nd));
      { MatVecScale(M, -1.0, d); }
      Dot(nd, Scale(-1.0, w));
      { DotScaleRight(-1.0, nd, w); }
      -1.0 * Dot(nd, w);
      { DotScaleLeft(-1.0, d, w); }
      -1.0 * (-1.0 * Dot(d, w));
      QuadForm(d, M);
    }
  }

  /** The dot product of a difference vector with itself is the reference
      sum of squared differences. */
  lemma {:induction false} DotSubSelf(a: seq<real>, b: seq<real>)
    requires |a| == |b|
    ensures Dot(Sub(a, b), Sub(a, b)) == SumSquaredDiff(a, b)
    decreases |a|
  {
    if |a| > 0 {
      assert Sub(a, b)[1..] == Sub(a[1..], b[1..]);
      DotSubSelf(a[1..], b[1..]);
    }
  }

  // ---------------------------------------------------------------------
  // Squared distance

  /** The squared distance does not depend on the order of the arguments,
      for every square M of the aligned dimension. */
  lemma {:induction false} DistanceSymmetric(p1: seq<real>, p2: seq<real>, M: seq<seq<real>>)
    requires IsSquare(M, Max(|p1|, |p2|))
    ensures SquaredDistance(p1, p2, M) == SquaredDistance(p2, p1, M)
  {
    DeltaSwap(p1, p2);
    QuadFormNegate(Delta(p1, p2), M);
  }

  /** With the identity as M, the squared distance is the squared Euclidean
      norm of the difference of the padded lists. */
  lemma {:induction false} IdentityDistance(p1: seq<real>, p2: seq<real>)
    ensures SquaredDistance(p1, p2, Identity(Max(|p1|, |p2|)))
         == SumSquaredDiff(Align(p1, p2).0, Align(p1, p2).1)
  {
    var r := Align(p1, p2);
    var d := Delta(p1, p2);
    IdentityMatVec(d);
    DotSubSelf(r.0, r.1);
  }

  // ---------------------------------------------------------------------
  // The sample inputs: 1 + 2x + 3x² against 4 + 2x³

  const ExamplePoly1: seq<real> := [1.0, 2.0, 3.0]
  const ExamplePoly2: seq<real> := [4.0, 0.0, 0.0, 2.0]
  const ExampleInvCov: seq<seq<real>> := [
    [1.2, 0.3, 0.1, 0.0],
    [0.3, 0.8, 0.2, 0.1],
    [0.1, 0.2, 1.0, 0.2],
    [0.0, 0.1, 0.2, 0.9]
  ]

  lemma {:induction false} ExampleAlignment()
    ensures Align(ExamplePoly1, ExamplePoly2) == ([1.0, 2.0, 3.0, 0.0], [4.0, 0.0, 0.0, 2.0])
    ensures Delta(ExamplePoly1, ExamplePoly2) == [-3.0, 2.0, 3.0, -2.0]
  {
    assert Zeros(1) == [0.0];
    assert Pad(ExamplePoly1, 4) == ExamplePoly1 + [0.0] == [1.0, 2.0, 3.0, 0.0];
    AlignEqualLengths(ExamplePoly2, ExamplePoly2);
    assert Pad(ExamplePoly2, 4) == ExamplePoly2;
  }

  /** The sample's squared distance is 20.4 (so its distance is √20.4). */
  lemma {:induction false} ExampleDistance()
    ensures IsSquare(ExampleInvCov, 4)
    ensures SquaredDistance(ExamplePoly1, ExamplePoly2, ExampleInvCov) == 20.4
  {
    ExampleAlignment();
    var d := [-3.0, 2.0, 3.0, -2.0];
    var w := MatVec(ExampleInvCov, d);
    assert w == [-2.7, 1.1, 2.7, -1.0];
  }
}
