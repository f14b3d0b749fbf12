/**
 * Affine index expressions and maps, as used by `linalg.generic` indexing maps,
 * together with the iterator kinds of a generic's loops.
 */
module Affine {

  /** An affine expression over loop dimensions d0, d1, ... */
  datatype AffineExpr =
    | Dim(pos: nat)
    | Const(value: int)
    | Add(lhs: AffineExpr, rhs: AffineExpr)
    | Mul(expr: AffineExpr, factor: int)
    | FloorDiv(expr: AffineExpr, divisor: int)
    | Mod(expr: AffineExpr, modulus: int)

  /** Every dimension is below numDims and every divisor is a positive constant. */
  predicate WellFormed(e: AffineExpr, numDims: nat) {
    match e
    case Dim(p) => p < numDims
    case Const(_) => true
    case Add(l, r) => WellFormed(l, numDims) && WellFormed(r, numDims)
    case Mul(x, _) => WellFormed(x, numDims)
    case FloorDiv(x, c) => WellFormed(x, numDims) && c > 0
    case Mod(x, c) => WellFormed(x, numDims) && c > 0
  }

  /**
   * Value of an expression at a point of the iteration space. With a positive
   * divisor, Dafny's `/` and `%` are floor division and a non-negative
   * remainder, which is what affine `floordiv` and `mod` mean.
   */
  function EvalExpr(e: AffineExpr, dims: seq<int>): int
    requires WellFormed(e, |dims|)
  {
    match e
    case Dim(p) => dims[p]
    case Const(c) => c
    case Add(l, r) => EvalExpr(l, dims) + EvalExpr(r, dims)
    case Mul(x, c) => EvalExpr(x, dims) * c
    case FloorDiv(x, c) => EvalExpr(x, dims) / c
    case Mod(x, c) => EvalExpr(x, dims) % c
  }

  /** An affine map (d0, ..., d(numDims-1)) -> (results...). */
  datatype AffineMap = AffineMap(numDims: nat, results: seq<AffineExpr>)

  predicate WellFormedMap(m: AffineMap) {
    forall k :: 0 <= k < |m.results| ==> WellFormed(m.results[k], m.numDims)
  }

  function Apply(m: AffineMap, dims: seq<int>): (r: seq<int>)
    requires WellFormedMap(m) && |dims| == m.numDims
    ensures |r| == |m.results|
    ensures forall k :: 0 <= k < |r| ==> r[k] == EvalExpr(m.results[k], dims)
  {
    seq(|m.results|, k requires 0 <= k < |m.results| => EvalExpr(m.results[k], dims))
  }

  /** The map (d0, ..., d(n-1)) -> (d(dims[0]), d(dims[1]), ...). */
  function Projection(numDims: nat, dims: seq<nat>): AffineMap {
    AffineMap(numDims, seq(|dims|, k requires 0 <= k < |dims| => Dim(dims[k])))
  }

  lemma ProjectionWellFormed(numDims: nat, dims: seq<nat>)
    requires forall k :: 0 <= k < |dims| ==> dims[k] < numDims
    ensures WellFormedMap(Projection(numDims, dims))
  {
  }

  /** A projection picks the listed coordinates of the point, in order. */
  lemma ApplyProjection(numDims: nat, dims: seq<nat>, x: seq<int>)
    requires forall k :: 0 <= k < |dims| ==> dims[k] < numDims
    requires |x| == numDims
    ensures WellFormedMap(Projection(numDims, dims))
    ensures |Apply(Projection(numDims, dims), x)| == |dims|
    ensures forall k :: 0 <= k < |dims| ==> Apply(Projection(numDims, dims), x)[k] == x[dims[k]]
  {
  }

  lemma ApplyProjection4(numDims: nat, d0: nat, d1: nat, d2: nat, d3: nat, x: seq<int>)
    requires d0 < numDims && d1 < numDims && d2 < numDims && d3 < numDims && |x| == numDims
    ensures WellFormedMap(Projection(numDims, [d0, d1, d2, d3]))
    ensures Apply(Projection(numDims, [d0, d1, d2, d3]), x) == [x[d0], x[d1], x[d2], x[d3]]
  {
    ApplyProjection(numDims, [d0, d1, d2, d3], x);
  }

  lemma ApplyProjection5(numDims: nat, d0: nat, d1: nat, d2: nat, d3: nat, d4: nat, x: seq<int>)
    requires d0 < numDims && d1 < numDims && d2 < numDims && d3 < numDims && d4 < numDims && |x| == numDims
    ensures WellFormedMap(Projection(numDims, [d0, d1, d2, d3, d4]))
    ensures Apply(Projection(numDims, [d0, d1, d2, d3, d4]), x) == [x[d0], x[d1], x[d2], x[d3], x[d4]]
  {
    ApplyProjection(numDims, [d0, d1, d2, d3, d4], x);
  }

  function Identity(n: nat): AffineMap {
    AffineMap(n, seq(n, k requires 0 <= k < n => Dim(k)))
  }

  /** A map whose results are distinct plain dimensions (an injective projection). */
  predicate IsProjectedPermutation(m: AffineMap) {
    (forall k :: 0 <= k < |m.results| ==> m.results[k].Dim? && m.results[k].pos < m.numDims)
    && (forall k, l :: 0 <= k < l < |m.results| ==> m.results[k] != m.results[l])
  }

  datatype IteratorType = Parallel | Reduction
}
