/**
 * The meaning of a `linalg.generic` whose body multiplies its two inputs and
 * accumulates into its init: for every point of the parallel loops, the init
 * element plus the sum, over the reduction loops, of the product of the
 * input elements the indexing maps select. This is the semantics of every
 * matmul, batch matmul and convolution generic built by the rewrites modelled
 * here. The loop bounds are given explicitly; `ShapesAgree` states that they
 * are the ones the operand shapes determine.
 */
module Contraction {
  import opened Sums
  import opened Affine
  import opened Tensors
  import opened TensorPack

  datatype Generic = Generic(
    domain: seq<int>,
    iterators: seq<IteratorType>,
    mapA: AffineMap,
    mapB: AffineMap,
    mapC: AffineMap)

  /** The loop sizes of the loops of the given kind, in loop order. */
  function Bounds(iters: seq<IteratorType>, domain: seq<int>, kind: IteratorType): (r: seq<int>)
    requires |iters| == |domain|
    ensures |r| == Count(iters, kind)
    decreases |iters|
  {
    if |iters| == 0 then []
    else if iters[0] == kind then [domain[0]] + Bounds(iters[1..], domain[1..], kind)
    else Bounds(iters[1..], domain[1..], kind)
  }

  function Count(iters: seq<IteratorType>, kind: IteratorType): nat
    decreases |iters|
  {
    if |iters| == 0 then 0
    else (if iters[0] == kind then 1 else 0) + Count(iters[1..], kind)
  }

  /** The positions of the loops of the given kind, in loop order. */
  function Positions(iters: seq<IteratorType>, kind: IteratorType, from: nat): (r: seq<nat>)
    ensures |r| == Count(iters, kind)
    decreases |iters|
  {
    if |iters| == 0 then []
    else if iters[0] == kind then [from] + Positions(iters[1..], kind, from + 1)
    else Positions(iters[1..], kind, from + 1)
  }

  /** The loop point whose parallel coordinates are par and whose reduction coordinates are red. */
  function Merge(iters: seq<IteratorType>, par: seq<int>, red: seq<int>): (x: seq<int>)
    requires |par| == Count(iters, Parallel) && |red| == Count(iters, Reduction)
    ensures |x| == |iters|
    decreases |iters|
  {
    if |iters| == 0 then []
    else if iters[0] == Parallel then [par[0]] + Merge(iters[1..], par[1..], red)
    else [red[0]] + Merge(iters[1..], par, red[1..])
  }

  /** Merge and Count, one parallel loop at a time. */
  lemma MergeParallel(rest: seq<IteratorType>, p: int, par: seq<int>, red: seq<int>)
    requires |par| == Count(rest, Parallel) && |red| == Count(rest, Reduction)
    ensures Count([Parallel] + rest, Parallel) == |par| + 1 && Count([Parallel] + rest, Reduction) == |red|
    ensures Merge([Parallel] + rest, [p] + par, red) == [p] + Merge(rest, par, red)
  {
    assert ([Parallel] + rest)[1..] == rest;
    assert ([p] + par)[1..] == par;
  }

  /** Merge and Count, one reduction loop at a time. */
  lemma MergeReduction(rest: seq<IteratorType>, r: int, par: seq<int>, red: seq<int>)
    requires |par| == Count(rest, Parallel) && |red| == Count(rest, Reduction)
    ensures Count([Reduction] + rest, Parallel) == |par| && Count([Reduction] + rest, Reduction) == |red| + 1
    ensures Merge([Reduction] + rest, par, [r] + red) == [r] + Merge(rest, par, red)
  {
    assert ([Reduction] + rest)[1..] == rest;
    assert ([r] + red)[1..] == red;
  }

  lemma PositionsStep(kind: IteratorType, rest: seq<IteratorType>, from: nat)
    ensures Positions([kind] + rest, Parallel, from)
         == (if kind == Parallel then [from] else []) + Positions(rest, Parallel, from + 1)
  {
    assert ([kind] + rest)[1..] == rest;
  }

  /** The first k loops are parallel and the rest are reductions. */
  predicate ParallelThenReduction(iters: seq<IteratorType>, k: nat) {
    && k <= |iters|
    && (forall i :: 0 <= i < k ==> iters[i] == Parallel)
    && (forall i :: k <= i < |iters| ==> iters[i] == Reduction)
  }

  lemma ParallelThenReductionTail(iters: seq<IteratorType>, k: nat)
    requires |iters| > 0 && ParallelThenReduction(iters, k)
    ensures k > 0 ==> iters[0] == Parallel && ParallelThenReduction(iters[1..], k - 1)
    ensures k == 0 ==> iters[0] == Reduction && ParallelThenReduction(iters[1..], 0)
  {
  }

  /** With the parallel loops first, a loop point is the parallel coordinates followed by the reduction ones. */
  lemma {:induction false} MergeBlocks(iters: seq<IteratorType>, k: nat, par: seq<int>, red: seq<int>)
    requires ParallelThenReduction(iters, k) && |par| == k && |red| == |iters| - k
    ensures Count(iters, Parallel) == k && Count(iters, Reduction) == |iters| - k
    ensures Merge(iters, par, red) == par + red
    decreases |iters|
  {
    if |iters| > 0 {
      ParallelThenReductionTail(iters, k);
      if k > 0 {
        MergeBlocks(iters[1..], k - 1, par[1..], red);
        assert par == [par[0]] + par[1..];
      } else {
        MergeBlocks(iters[1..], 0, par, red[1..]);
        assert red == [red[0]] + red[1..];
      }
    }
  }

  /** With the parallel loops first, the reduction loop sizes are the tail of the domain. */
  lemma {:induction false} BoundsBlocks(iters: seq<IteratorType>, domain: seq<int>, k: nat)
    requires ParallelThenReduction(iters, k) && |domain| == |iters|
    ensures Bounds(iters, domain, Reduction) == domain[k..]
    decreases |iters|
  {
    if |iters| > 0 {
      ParallelThenReductionTail(iters, k);
      if k > 0 {
        BoundsBlocks(iters[1..], domain[1..], k - 1);
        assert domain[1..][k - 1..] == domain[k..];
      } else {
        BoundsBlocks(iters[1..], domain[1..], 0);
        assert domain == [domain[0]] + domain[1..];
      }
    }
  }

  /** With the parallel loops first, their positions are from, from + 1, ..., from + k - 1. */
  lemma {:induction false} PositionsBlocks(iters: seq<IteratorType>, k: nat, from: nat)
    requires ParallelThenReduction(iters, k)
    ensures Positions(iters, Parallel, from) == seq(k, i => from + i)
    decreases |iters|
  {
    if |iters| > 0 {
      ParallelThenReductionTail(iters, k);
      if k > 0 {
        PositionsBlocks(iters[1..], k - 1, from + 1);
        assert seq(k, i => from + i) == [from] + seq(k - 1, i => from + 1 + i);
      } else {
        PositionsBlocks(iters[1..], 0, from + 1);
      }
    }
  }

  /** The maps fit the loops, and the output map lists the parallel loops in order. */
  predicate WellFormedGeneric(g: Generic) {
    && |g.domain| == |g.iterators|
    && g.mapA.numDims == |g.iterators| && WellFormedMap(g.mapA)
    && g.mapB.numDims == |g.iterators| && WellFormedMap(g.mapB)
    && g.mapC == Projection(|g.iterators|, Positions(g.iterators, Parallel, 0))
  }

  /** The product the body computes at one loop point. */
  function Product(g: Generic, a: Tensor, b: Tensor, x: seq<int>): int
    requires WellFormedGeneric(g) && |x| == |g.iterators|
  {
    a.at(Apply(g.mapA, x)) * b.at(Apply(g.mapB, x))
  }

  /** The product at the loop point with parallel coordinates o and reduction coordinates r. */
  function Term(g: Generic, a: Tensor, b: Tensor, o: seq<int>, r: seq<int>): int
    requires WellFormedGeneric(g)
  {
    if |o| == Count(g.iterators, Parallel) && |r| == Count(g.iterators, Reduction)
    then Product(g, a, b, Merge(g.iterators, o, r)) else 0
  }

  function ReductionBounds(g: Generic): seq<int>
    requires WellFormedGeneric(g)
  {
    Bounds(g.iterators, g.domain, Reduction)
  }

  /** The value the generic yields: the init plus the reduction of the products. */
  function Eval(g: Generic, a: Tensor, b: Tensor, c: Tensor): (r: Tensor)
    requires WellFormedGeneric(g)
    ensures r.shape == c.shape
  {
    Tensor(c.shape, o => c.at(o) + SumBox(ReductionBounds(g), r => Term(g, a, b, o, r)))
  }

  /** The reduction of a generic with two reduction loops, as a double sum. */
  lemma ReductionTwo(g: Generic, a: Tensor, b: Tensor, o: seq<int>, n: int, m: int)
    requires WellFormedGeneric(g) && ReductionBounds(g) == [n, m]
    ensures SumBox(ReductionBounds(g), r => Term(g, a, b, o, r))
         == Sum(n, x => Row(m, (x, y) => Term(g, a, b, o, [x, y]), x))
  {
    SumBoxPairs(n, m, r => Term(g, a, b, o, r), (x, y) => Term(g, a, b, o, [x, y]));
  }

  /**
   * A reduction over kb x tk loops whose products are those of a single
   * reduction over kb * tk consecutive indices, walked block by block.
   */
  lemma BlockedReduction(g: Generic, a: Tensor, b: Tensor, o: seq<int>, kb: nat, tk: nat, h: int -> int)
    requires WellFormedGeneric(g) && ReductionBounds(g) == [kb, tk]
    requires forall x, y :: 0 <= x < kb && 0 <= y < tk ==> Term(g, a, b, o, [x, y]) == h(Flat(x, tk, y))
    ensures SumBox(ReductionBounds(g), r => Term(g, a, b, o, r)) == Sum(kb * tk, h)
  {
    ReductionTwo(g, a, b, o, kb, tk);
    SumExt2(kb, tk, (x, y) => Term(g, a, b, o, [x, y]), (x, y) => h(Flat(x, tk, y)));
    SumBlockedRows(kb, tk, h);
  }

  /**
   * Each operand has one dimension per map result, and wherever a result is
   * a plain loop dimension the operand's size there is that loop's size.
   */
  predicate FitsMap(m: AffineMap, shape: seq<int>, domain: seq<int>) {
    && |m.results| == |shape|
    && forall k :: 0 <= k < |shape| && m.results[k].Dim? && m.results[k].pos < |domain| ==>
         shape[k] == domain[m.results[k].pos]
  }

  predicate ShapesAgree(g: Generic, a: seq<int>, b: seq<int>, c: seq<int>) {
    FitsMap(g.mapA, a, g.domain) && FitsMap(g.mapB, b, g.domain) && FitsMap(g.mapC, c, g.domain)
  }

  /** A four-dimension projection fits a shape that lists the projected loop sizes. */
  lemma FitsProjection4(n: nat, d0: nat, d1: nat, d2: nat, d3: nat, shape: seq<int>, domain: seq<int>)
    requires d0 < |domain| && d1 < |domain| && d2 < |domain| && d3 < |domain|
    requires shape == [domain[d0], domain[d1], domain[d2], domain[d3]]
    ensures FitsMap(Projection(n, [d0, d1, d2, d3]), shape, domain)
  {
    assert Projection(n, [d0, d1, d2, d3]).results == [Dim(d0), Dim(d1), Dim(d2), Dim(d3)];
  }

  /** An element of an unpacked generic result: the init element plus the reduction at its packed index. */
  lemma UnpackEvalAt(g: Generic, pa: Tensor, pb: Tensor, c: Tensor, l: Layout, idx: seq<int>, o: seq<int>)
    requires WellFormedGeneric(g) && ValidLayout(l, |c.shape|) && |idx| == |c.shape|
    requires PackedIndex(l, idx) == o && Pack(c, l).at(o) == c.at(idx)
    ensures Unpack(Eval(g, pa, pb, Pack(c, l)), l, c).at(idx) == c.at(idx) + SumBox(ReductionBounds(g), r => Term(g, pa, pb, o, r))
  {
  }
}
