/**
 The array primitives the distance computation relies on, over exact reals:
 elementwise subtraction, scaling and addition of vectors, the dot product,
 row-vector-times-matrix (vᵀ @ M), which the distance computation uses,
 and matrix-times-vector (M @ v), which it does not: M @ v serves as the
 reference bracketing vᵀ · (M · v) of the quadratic form. A matrix is a
 sequence of rows.
 */
module LinAlg {

  /** The all-zero vector of length n. */
  function Zeros(n: nat): seq<real>
  {
    seq(n, _ => 0.0)
  }

  /** Elementwise difference u - v; both vectors have the same length.
      Adding v back gives u. */
  function Sub(u: seq<real>, v: seq<real>): (r: seq<real>)
    requires |u| == |v|
    ensures |r| == |u|
    ensures Add(r, v) == u
  {
    seq(|u|, i requires 0 <= i < |u| => u[i] - v[i])
  }

  /** Elementwise sum u + v. */
  function Add(u: seq<real>, v: seq<real>): seq<real>
    requires |u| == |v|
  {
    seq(|u|, i requires 0 <= i < |u| => u[i] + v[i])
  }

  /** The vector u with every entry multiplied by c. */
  function Scale(c: real, u: seq<real>): seq<real>
  {
    seq(|u|, i requires 0 <= i < |u| => c * u[i])
  }

  /** Σ_i u[i] * v[i]. */
  function Dot(u: seq<real>, v: seq<real>): real
    requires |u| == |v|
    decreases |u|
  {
    if |u| == 0 then 0.0 else u[0] * v[0] + Dot(u[1..], v[1..])
  }

  /** Every row of M has exactly `cols` entries. */
  predicate HasCols(M: seq<seq<real>>, cols: nat)
  {
    forall i :: 0 <= i < |M| ==> |M[i]| == cols
  }

  /** M is an n×n matrix. */
  predicate IsSquare(M: seq<seq<real>>, n: nat)
  {
    |M| == n && HasCols(M, n)
  }

  /** Column j of M, as a vector with one entry per row. */
  function Column(M: seq<seq<real>>, j: nat): seq<real>
    requires forall i :: 0 <= i < |M| ==> j < |M[i]|
  {
    seq(|M|, i requires 0 <= i < |M| => M[i][j])
  }

  /** M @ v: entry i is the dot product of row i of M with v. */
  function MatVec(M: seq<seq<real>>, v: seq<real>): (r: seq<real>)
    requires HasCols(M, |v|)
    ensures |r| == |M|
    ensures forall i :: 0 <= i < |M| ==> r[i] == Dot(M[i], v)
    decreases |M|
  {
    if |M| == 0 then [] else [Dot(M[0], v)] + MatVec(M[1..], v)
  }

  /** dᵀ @ M for a matrix M with |d| rows of `cols` entries each, computed
      as the linear combination of the rows of M weighted by d. Entry j is
      Σ_i d[i] * M[i][j], the dot product of d with column j. */
  function VecMat(d: seq<real>, M: seq<seq<real>>, cols: nat): (r: seq<real>)
    requires |d| == |M| && HasCols(M, cols)
    ensures |r| == cols
    ensures forall j :: 0 <= j < cols ==> r[j] == Dot(d, Column(M, j))
    decreases |M|
  {
    if |M| == 0 then Zeros(cols)
    else
      assert forall j :: 0 <= j < cols ==> Column(M, j)[1..] == Column(M[1..], j);
      Add(Scale(d[0], M[0]), VecMat(d[1..], M[1..], cols))
  }

  /** Unit vector of length n with its one at index k. */
  function Unit(n: nat, k: nat): seq<real>
  {
    seq(n, j => if j == k then 1.0 else 0.0)
  }

  /** The n×n identity matrix. */
  function Identity(n: nat): (I: seq<seq<real>>)
    ensures IsSquare(I, n)
  {
    seq(n, i requires 0 <= i < n => Unit(n, i))
  }

  lemma {:induction false} DotZerosLeft(n: nat, v: seq<real>)
    requires |v| == n
    ensures Dot(Zeros(n), v) == 0.0
    decreases n
  {
    if n > 0 {
      assert Zeros(n)[1..] == Zeros(n - 1);
      DotZerosLeft(n - 1, v[1..]);
    }
  }

  lemma {:induction false} DotAddLeft(u: seq<real>, w: seq<real>, v: seq<real>)
    requires |u| == |w| == |v|
    ensures Dot(Add(u, w), v) == Dot(u, v) + Dot(w, v)
    decreases |u|
  {
    if |u| > 0 {
      assert Add(u, w)[1..] == Add(u[1..], w[1..]);
      DotAddLeft(u[1..], w[1..], v[1..]);
    }
  }

  lemma {:induction false} ScaleTail(c: real, u: seq<real>)
    requires |u| > 0
    ensures Scale(c, u)[1..] == Scale(c, u[1..])
  {
    forall i | 0 <= i < |u| - 1
      ensures Scale(c, u)[1..][i] == Scale(c, u[1..])[i]
    {
      assert Scale(c, u)[1..][i] == Scale(c, u)[i + 1];
    }
  }

  /** A vector whose entries are those of w times c is Scale(c, w). */
  lemma {:induction false} ScaleIntro(c: real, w: seq<real>, r: seq<real>)
    requires |r| == |w|
    requires forall i :: 0 <= i < |w| ==> r[i] == c * w[i]
    ensures r == Scale(c, w)
  {
    forall i | 0 <= i < |w|
      ensures r[i] == Scale(c, w)[i]
    {
    }
  }

  lemma {:induction false} DotScaleLeft(c: real, u: seq<real>, v: seq<real>)
    requires |u| == |v|
    ensures Dot(Scale(c, u), v) == c * Dot(u, v)
    decreases |u|
  {
    if |u| > 0 {
      ScaleTail(c, u);
      DotScaleLeft(c, u[1..], v[1..]);
    }
  }

  lemma {:induction false} DotScaleRight(c: real, u: seq<real>, v: seq<real>)
    requires |u| == |v|
    ensures Dot(u, Scale(c, v)) == c * Dot(u, v)
    decreases |u|
  {
    if |u| > 0 {
      ScaleTail(c, v);
      DotScaleRight(c, u[1..], v[1..]);
    }
  }

  /** Scaling the vector scales M @ v by the same factor. */
  lemma {:induction false} MatVecScale(M: seq<seq<real>>, c: real, v: seq<real>)
    requires HasCols(M, |v|)
    ensures MatVec(M, Scale(c, v)) == Scale(c, MatVec(M, v))
  {
    var r, w := MatVec(M, Scale(c, v)), MatVec(M, v);
    forall i | 0 <= i < |M|
      ensures r[i] == c * w[i]
    {
      calc {
        r[i];
        Dot(M[i], Scale(c, v));
        { DotScaleRight(c, M[i], v); }
        c * Dot(M[i], v);
        c * w[i];
      }
    }
    ScaleIntro(c, w, r);
  }

  /** (dᵀ @ M) · e == d · (M @ e): the two ways of bracketing dᵀ M e agree. */
  lemma {:induction false} VecMatDot(d: seq<real>, M: seq<seq<real>>, e: seq<real>)
    requires |d| == |M| && HasCols(M, |e|)
    ensures Dot(VecMat(d, M, |e|), e) == Dot(d, MatVec(M, e))
    decreases |M|
  {
    if |M| == 0 {
      DotZerosLeft(|e|, e);
    } else {
      var rest := VecMat(d[1..], M[1..], |e|);
      calc {
        Dot(VecMat(d, M, |e|), e);
        Dot(Add(Scale(d[0], M[0]), rest), e);
        { DotAddLeft(Scale(d[0], M[0]), rest, e); }
        Dot(Scale(d[0], M[0]), e) + Dot(rest, e);
        { DotScaleLeft(d[0], M[0], e); }
        d[0] * Dot(M[0], e) + Dot(rest, e);
        { VecMatDot(d[1..], M[1..], e); }
        d[0] * Dot(M[0], e) + Dot(d[1..], MatVec(M[1..], e));
        { assert MatVec(M, e)[1..] == MatVec(M[1..], e); }
        Dot(d, MatVec(M, e));
      }
    }
  }

  /** The dot product with the k-th unit vector picks out entry k. */
  lemma {:induction false} DotUnit(n: nat, k: nat, v: seq<real>)
    requires |v| == n && k < n
    ensures Dot(Unit(n, k), v) == v[k]
    decreases n
  {
    if k == 0 {
      assert Unit(n, 0)[1..] == Zeros(n - 1);
      DotZerosLeft(n - 1, v[1..]);
    } else {
      assert Unit(n, k)[1..] == Unit(n - 1, k - 1);
      DotUnit(n - 1, k - 1, v[1..]);
    }
  }

  /** The identity matrix leaves every vector unchanged. */
  lemma {:induction false} IdentityMatVec(v: seq<real>)
    ensures MatVec(Identity(|v|), v) == v
  {
    forall k | 0 <= k < |v|
      ensures MatVec(Identity(|v|), v)[k] == v[k]
    {
      DotUnit(|v|, k, v);
    }
  }
}
