# Mahalanobis distance between coefficient lists

The repository's numeric utility compares two polynomials, each given as a list of
coefficients (position i is the coefficient of degree i). It does two things:

- `align_coefficients` right-pads the shorter list with zeros so that both lists have
  the length of the longer one.
- `mahalanobis_distance` aligns the lists, subtracts them elementwise to get `delta`,
  computes `temp = deltaᵀ · M` and then `temp · delta` for a precision
  (inverse-covariance) matrix `M`, and returns the square root of that number.

This project models both operations as pure functions over exact reals:

- `linalg.dfy` (module `LinAlg`) holds the array operations the code gets from numpy:
  elementwise subtraction (`Sub`, the `vec1 - vec2`), the row vector times matrix
  `deltaᵀ @ M` (`VecMat`, a linear combination of the rows) and the vector dot product
  (`Dot`, the final `temp @ delta`). It also holds `M @ v` (`MatVec`). The code never
  computes `M @ v`; the model uses it only for the reference bracketing
  `deltaᵀ · (M · delta)`, which the lemmas prove equal to the code's
  `(deltaᵀ · M) · delta`. A matrix is a sequence of rows.
- `mahalanobis.dfy` (module `Mahalanobis`) holds `Align` and `Delta`. It also holds
  `QuadForm`, which is `deltaᵀ · M · delta` with the same bracketing as the code, and
  `SquaredDistance`, which is the quadratic form of the aligned difference. Around
  these are the properties the code's design promises, plus the sample inputs from the
  file's `__main__` block.

The model stops before the final square root. Every property is stated on the squared
distance `q`, so it carries over to `sqrt(q)` whenever `q ≥ 0`.

## Model

| member | source | states |
|---|---|---|
| `Mahalanobis.Align` | mahalanobis.py:4-10 | Both results have length max(\|p1\|, \|p2\|). Each result starts with its input, unchanged and untruncated. Every entry at or past the input's own length is 0. |
| `Mahalanobis.AlignCoefficients` | mahalanobis.py:6-10 | Below the common length, entry i of each aligned list is that input's degree-i coefficient, or 0 when the input is shorter than i+1. |
| `Mahalanobis.AlignEqualLengths` | mahalanobis.py:6-10 | Two lists of equal length come back unchanged. |
| `Mahalanobis.AlignSelf` | mahalanobis.py:6-10 | Aligning a list with itself returns it twice, unchanged. |
| `Mahalanobis.AlignEmpty` | mahalanobis.py:6-10 | Aligning two empty lists gives two empty lists. |
| `Mahalanobis.AlignSwap` | mahalanobis.py:4-10 | Swapping the two arguments swaps the two results. |
| `Mahalanobis.AlignIdempotent` | mahalanobis.py:4-10 | Aligning an already aligned pair changes nothing. |
| `Mahalanobis.Delta` | mahalanobis.py:15-22 | The difference vector has the aligned length. Entry i is the difference of the two degree-i coefficients, a missing coefficient counting as 0. |
| `Mahalanobis.DeltaSelf` | mahalanobis.py:15-22 | A list minus itself is the all-zero vector of that list's length. |
| `Mahalanobis.DeltaSwap` | mahalanobis.py:15-22 | Swapping the two polynomials negates the difference vector. |
| `LinAlg.Sub` | mahalanobis.py:22 | `vec1 - vec2` has the length of its operands, and adding `vec2` back gives `vec1`. |
| `LinAlg.VecMat` | mahalanobis.py:25 | `deltaᵀ @ M` has one entry per column. Entry j is Σ_i delta[i]·M[i][j], the dot product of delta with column j. |
| `LinAlg.DotAddLeft` | mahalanobis.py:26 | The dot product `temp @ delta` is additive in `temp`. |
| `LinAlg.DotScaleLeft` | mahalanobis.py:26 | Scaling `temp` by c scales `temp @ delta` by c. |
| `LinAlg.DotScaleRight` | mahalanobis.py:26 | Scaling `delta` by c scales `temp @ delta` by c. |
| `LinAlg.MatVec` | mahalanobis.py:25-26 | The reference product `M @ v`, which the code does not compute, has one entry per row. Entry i is row i of M dotted with v. |
| `LinAlg.VecMatDot` | mahalanobis.py:25-26 | (dᵀ·M)·e equals d·(M·e) for every matrix with \|d\| rows and \|e\| columns. The two bracketings of dᵀMe agree. |
| `Mahalanobis.QuadForm` | mahalanobis.py:25-26 | The quadratic form, computed as the code does (row vector `deltaᵀ @ M` first, then `@ delta`), equals the row sum Σ_i delta[i]·(Σ_j M[i][j]·delta[j]). |
| `Mahalanobis.SquaredDistance` | mahalanobis.py:13-26 | The whole pipeline: pad, subtract, quadratic form. The result is Σ_i δ[i]·(Σ_j M[i][j]·δ[j]), where δ[i] is the difference of the degree-i coefficients. It is 0 when the two polynomials are the same, for every square M of their length. |
| `Mahalanobis.QuadFormZero` | mahalanobis.py:25-26 | The zero vector has quadratic form 0 under every square matrix. |
| `Mahalanobis.QuadFormNegate` | mahalanobis.py:22-26 | Negating delta leaves the quadratic form unchanged for every square M, symmetric or not. |
| `Mahalanobis.DistanceSymmetric` | mahalanobis.py:13-26 | Swapping poly1 and poly2 leaves the squared distance unchanged for every square M of the aligned dimension. |
| `Mahalanobis.IdentityDistance` | mahalanobis.py:22-26 | With the identity as M, the squared distance is Σ_i (a[i] − b[i])² over the padded lists, which is the squared Euclidean norm of their difference. |
| `Mahalanobis.ExampleAlignment` | mahalanobis.py:33-34 | On [1,2,3] and [4,0,0,2], alignment gives [1,2,3,0] and [4,0,0,2], and the difference vector is [−3,2,3,−2]. |
| `Mahalanobis.ExampleDistance` | mahalanobis.py:33-44 | The sample 4×4 precision matrix is square of the aligned dimension. The sample's squared distance is exactly 20.4, so the printed distance is √20.4 ≈ 4.5166. |

## Left out

- The final `np.sqrt` is left out (mahalanobis.py:26), and so are IEEE floating-point
  rounding and the NaN that numpy returns for a negative quadratic form. Everything is
  computed over exact reals, so "distance" here means its square.
- Matrix shape is not checked. The code does not check that M is L×L, where L is the
  aligned length; numpy raises on a mismatched `@`. In the model, "M is L×L" is a
  precondition of `SquaredDistance` and `QuadForm`. It is not a modelled error. A
  broader design could add an explicit dimension-mismatch error and a
  negative-quadratic-form error, but the code has neither, so the model follows the
  code.
- Non-negativity of the distance and the triangle inequality are left out. Both need M
  to be positive semi-definite, which the code neither checks nor promises.
- Element types are not modelled. Python pads with the integer `0`. For all-integer
  lists, such as the sample's, `np.array` builds int64 arrays and `delta` is int64.
  Floating point appears only at `delta.T @ inv_cov_matrix`, and only when the matrix is
  floating point. The model uses exact reals throughout and pads with `0.0`.
- 64-bit wrap-around is not modelled. With an integer matrix, the subtraction and both
  products are int64 arithmetic and can wrap before `np.sqrt`. The model's unbounded
  reals never wrap.
- The `__main__` block (mahalanobis.py:32-45) is not modelled, apart from its literal
  inputs, which appear in `ExampleAlignment` and `ExampleDistance`. Printing is console
  output.
- main.py is not part of this model. It holds a web UI, a call to a hosted
  generative-AI service, directory creation and file writes, all I/O around libraries
  whose code is not available.
