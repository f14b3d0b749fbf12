/**
 * Meaning of the packed matmul of lib/TPP/ToBlockLayoutAndBack.cpp: A is
 * packed NC -> NCnc with tiles (I, K), B KC -> CKkc with (K, J) and C
 * NC -> NCnc with (I, J); the matmul becomes a six-loop generic
 * (IB, JB, KB, ib, jb, kb) whose result is unpacked into C. With full tiles
 * the unpacked result is the plain matrix product, element for element.
 */
module MatmulPacking {
  import opened Sums
  import opened Affine
  import opened Tensors
  import opened TensorPack
  import opened TppLayouts
  import opened Contraction

  /** par, par, red, par, par, red; the batch form adds a leading parallel b. */
  function MatmulIterators(batch: bool): seq<IteratorType> {
    if batch then [Parallel, Parallel, Parallel, Reduction, Parallel, Parallel, Reduction]
    else [Parallel, Parallel, Reduction, Parallel, Parallel, Reduction]
  }

  /**
   * The indexing maps of getAffineMapsAndIteratorsForMatmuls over loops
   * (p1, p2, r1, p3, p4, r2): A (p1, r1, p3, r2), B (p2, r1, r2, p4),
   * C (p1, p2, p3, p4); the batch form puts b first in every map.
   */
  function PackedMatmulGeneric(batch: bool, domain: seq<int>): Generic {
    if batch then
      Generic(domain, MatmulIterators(true),
        Projection(7, [0, 1, 3, 4, 6]), Projection(7, [0, 2, 3, 6, 5]), Projection(7, [0, 1, 2, 4, 5]))
    else
      Generic(domain, MatmulIterators(false),
        Projection(6, [0, 2, 3, 5]), Projection(6, [1, 2, 5, 4]), Projection(6, [0, 1, 3, 4]))
  }

  /** Tiles (I, J, K) as handed out to the three operands: A (I, K), B (K, J), C (I, J). */
  function LayoutA(tiles: seq<int>, batch: bool): (l: Layout)
    requires |tiles| == 3
    ensures PositiveTiles(tiles) ==> ValidLayout(l, if batch then 3 else 2)
  {
    NcToNcnc([tiles[0], tiles[2]], batch)
  }

  function LayoutB(tiles: seq<int>, batch: bool): (l: Layout)
    requires |tiles| == 3
    ensures PositiveTiles(tiles) ==> ValidLayout(l, if batch then 3 else 2)
  {
    KcToCkkc([tiles[2], tiles[1]], batch)
  }

  function LayoutC(tiles: seq<int>, batch: bool): (l: Layout)
    requires |tiles| == 3
    ensures PositiveTiles(tiles) ==> ValidLayout(l, if batch then 3 else 2)
  {
    NcToNcnc([tiles[0], tiles[1]], batch)
  }

  lemma PackedMatmulWellFormed(batch: bool, domain: seq<int>)
    requires |domain| == |MatmulIterators(batch)|
    ensures WellFormedGeneric(PackedMatmulGeneric(batch, domain))
  {
    if batch {
      BatchGenericWellFormed(domain);
    } else {
      PlainGenericWellFormed(domain);
    }
  }

  /** The two reduction loops of the packed matmul are r1 and r2. */
  lemma PackedMatmulReductionBounds(batch: bool, domain: seq<int>)
    requires |domain| == |MatmulIterators(batch)|
    ensures WellFormedGeneric(PackedMatmulGeneric(batch, domain))
    ensures batch ==> ReductionBounds(PackedMatmulGeneric(batch, domain)) == [domain[3], domain[6]]
    ensures !batch ==> ReductionBounds(PackedMatmulGeneric(batch, domain)) == [domain[2], domain[5]]
  {
    PackedMatmulWellFormed(batch, domain);
  }

  /** The loop list written one loop at a time, as the step lemmas of Merge take it. */
  lemma MatmulIteratorsCons(batch: bool)
    ensures MatmulIterators(false)
         == [Parallel] + ([Parallel] + ([Reduction] + ([Parallel] + ([Parallel] + ([Reduction] + [])))))
    ensures MatmulIterators(true) == [Parallel] + MatmulIterators(false)
  {
  }

  lemma PlainGenericWellFormed(domain: seq<int>)
    requires |domain| == 6
    ensures WellFormedGeneric(PackedMatmulGeneric(false, domain))
  {
    PlainPositions();
    ProjectionWellFormed(6, [0, 2, 3, 5]);
    ProjectionWellFormed(6, [1, 2, 5, 4]);
  }

  lemma PlainPositions()
    ensures Positions(MatmulIterators(false), Parallel, 0) == [0, 1, 3, 4]
  {
    MatmulIteratorsCons(false);
    var t5: seq<IteratorType> := [Reduction] + [];
    var t4 := [Parallel] + t5;
    var t3 := [Parallel] + t4;
    var t2 := [Reduction] + t3;
    var t1 := [Parallel] + t2;
    PositionsStep(Reduction, [], 5);
    PositionsStep(Parallel, t5, 4);
    PositionsStep(Parallel, t4, 3);
    PositionsStep(Reduction, t3, 2);
    PositionsStep(Parallel, t2, 1);
    PositionsStep(Parallel, t1, 0);
  }

  lemma BatchPositions()
    ensures Positions(MatmulIterators(true), Parallel, 0) == [0, 1, 2, 4, 5]
  {
    MatmulIteratorsCons(false);
    var t5: seq<IteratorType> := [Reduction] + [];
    var t4 := [Parallel] + t5;
    var t3 := [Parallel] + t4;
    var t2 := [Reduction] + t3;
    var t1 := [Parallel] + t2;
    var t0 := [Parallel] + t1;
    PositionsStep(Reduction, [], 6);
    PositionsStep(Parallel, t5, 5);
    PositionsStep(Parallel, t4, 4);
    PositionsStep(Reduction, t3, 3);
    PositionsStep(Parallel, t2, 2);
    PositionsStep(Parallel, t1, 1);
    PositionsStep(Parallel, t0, 0);
  }

  /** The loop point of the (batch) matmul generic at parallel coordinates par and reduction coordinates (x, y). */
  lemma MatmulMerge(s: int, o0: int, o1: int, o2: int, o3: int, x: int, y: int)
    ensures Count(MatmulIterators(false), Parallel) == 4 && Count(MatmulIterators(false), Reduction) == 2
    ensures Count(MatmulIterators(true), Parallel) == 5 && Count(MatmulIterators(true), Reduction) == 2
    ensures Merge(MatmulIterators(false), [o0, o1, o2, o3], [x, y]) == [o0, o1, x, o2, o3, y]
    ensures Merge(MatmulIterators(true), [s, o0, o1, o2, o3], [x, y]) == [s, o0, o1, x, o2, o3, y]
  {
    MatmulIteratorsCons(false);
    var t5: seq<IteratorType> := [Reduction] + [];
    var t4 := [Parallel] + t5;
    var t3 := [Parallel] + t4;
    var t2 := [Reduction] + t3;
    var t1 := [Parallel] + t2;
    var t0 := [Parallel] + t1;
    MergeReduction([], y, [], []);
    MergeParallel(t5, o3, [], [y]);
    MergeParallel(t4, o2, [o3], [y]);
    MergeReduction(t3, x, [o2, o3], [y]);
    assert [o2] + [o3] == [o2, o3];
    MergeParallel(t2, o1, [o2, o3], [x, y]);
    assert [x] + [y] == [x, y];
    MergeParallel(t1, o0, [o1, o2, o3], [x, y]);
    MergeParallel(t0, s, [o0, o1, o2, o3], [x, y]);
  }

  lemma BatchGenericWellFormed(domain: seq<int>)
    requires |domain| == 7
    ensures WellFormedGeneric(PackedMatmulGeneric(true, domain))
  {
    BatchPositions();
    ProjectionWellFormed(7, [0, 1, 3, 4, 6]);
    ProjectionWellFormed(7, [0, 2, 3, 6, 5]);
  }

  /** Full tiles: every one of M, N and K is a whole number of its tile. */
  predicate MatmulFullTiles(m: int, n: int, k: int, tiles: seq<int>) {
    && |tiles| == 3 && tiles[0] > 0 && tiles[1] > 0 && tiles[2] > 0
    && m >= 0 && n >= 0 && k >= 0
    && m % tiles[0] == 0 && n % tiles[1] == 0 && k % tiles[2] == 0
  }

  /** The six loop sizes IB, JB, KB, ib, jb, kb. */
  function MatmulDomain(m: int, n: int, k: int, tiles: seq<int>): seq<int>
    requires |tiles| == 3 && tiles[0] > 0 && tiles[1] > 0 && tiles[2] > 0
  {
    [m / tiles[0], n / tiles[1], k / tiles[2], tiles[0], tiles[1], tiles[2]]
  }

  /** Where the plain generic reads its operands at one loop point. */
  lemma MatmulTermIndices(domain: seq<int>, pa: Tensor, pb: Tensor, o0: int, o1: int, o2: int, o3: int, x: int, y: int)
    requires |domain| == 6
    ensures WellFormedGeneric(PackedMatmulGeneric(false, domain))
    ensures Term(PackedMatmulGeneric(false, domain), pa, pb, [o0, o1, o2, o3], [x, y])
         == pa.at([o0, x, o2, y]) * pb.at([o1, x, y, o3])
  {
    var pt := [o0, o1, x, o2, o3, y];
    assert Apply(Projection(6, [0, 2, 3, 5]), pt) == [o0, x, o2, y] by {
      ApplyProjection4(6, 0, 2, 3, 5, pt);
    }
    assert Apply(Projection(6, [1, 2, 5, 4]), pt) == [o1, x, y, o3] by {
      ApplyProjection4(6, 1, 2, 5, 4, pt);
    }
    PackedMatmulWellFormed(false, domain);
    MatmulMerge(0, o0, o1, o2, o3, x, y);
  }

  /** One product of the packed generic, read back in the unpacked operands. */
  lemma MatmulTerm(a: Tensor, b: Tensor, tiles: seq<int>, domain: seq<int>,
                   o0: int, o1: int, o2: int, o3: int, x: int, y: int, i: int, j: int, k: int)
    requires |a.shape| == 2 && |b.shape| == 2 && |domain| == 6
    requires |tiles| == 3 && PositiveTiles(tiles)
    requires i == Flat(o0, tiles[0], o2) && j == Flat(o1, tiles[1], o3) && k == Flat(x, tiles[2], y)
    ensures WellFormedGeneric(PackedMatmulGeneric(false, domain))
    ensures Term(PackedMatmulGeneric(false, domain), Pack(a, LayoutA(tiles, false)), Pack(b, LayoutB(tiles, false)),
                 [o0, o1, o2, o3], [x, y])
         == MatmulProduct(a, b, i, j, k)
  {
    var ti, tj, tk := tiles[0], tiles[1], tiles[2];
    var pa, pb := Pack(a, LayoutA(tiles, false)), Pack(b, LayoutB(tiles, false));
    MatmulTermIndices(domain, pa, pb, o0, o1, o2, o3, x, y);
    assert pa.at([o0, x, o2, y]) == Get(a, [i, k]) by {
      NcRead(a, ti, tk, o0, x, o2, y);
    }
    assert pb.at([o1, x, y, o3]) == Get(b, [k, j]) by {
      KcRead(b, tk, tj, o1, x, y, o3);
    }
  }

  /** A(i, k) * B(k, j), reading 0 outside either matrix. */
  function MatmulProduct(a: Tensor, b: Tensor, i: int, j: int, k: int): int {
    Get(a, [i, k]) * Get(b, [k, j])
  }

  function PackedMatmul(a: Tensor, b: Tensor, c: Tensor, tiles: seq<int>): (r: Tensor)
    requires |a.shape| == 2 && |b.shape| == 2 && |c.shape| == 2
    requires |tiles| == 3 && PositiveTiles(tiles)
    ensures r.shape == c.shape
  {
    var g := PackedMatmulGeneric(false, MatmulDomain(a.shape[0], b.shape[1], a.shape[1], tiles));
    PackedMatmulWellFormed(false, MatmulDomain(a.shape[0], b.shape[1], a.shape[1], tiles));
    var packed := Eval(g, Pack(a, LayoutA(tiles, false)), Pack(b, LayoutB(tiles, false)), Pack(c, LayoutC(tiles, false)));
    Unpack(packed, LayoutC(tiles, false), c)
  }

  /**
   * The reduction at output point (o0, o1, o2, o3) of the packed generic is
   * the row-by-column sum of the unpacked operands at row i = o0 * I + o2 and
   * column j = o1 * J + o3, provided the K loops cover K exactly.
   */
  lemma MatmulReduction(a: Tensor, b: Tensor, tiles: seq<int>, domain: seq<int>,
                        o0: int, o1: int, o2: int, o3: int, i: int, j: int,
                        g: Generic, pa: Tensor, pb: Tensor, o: seq<int>)
    requires |a.shape| == 2 && |b.shape| == 2 && a.shape[1] == b.shape[0]
    requires |tiles| == 3 && PositiveTiles(tiles) && |domain| == 6
    requires domain[2] >= 0 && domain[5] == tiles[2] && domain[2] * tiles[2] == a.shape[1]
    requires i == Flat(o0, tiles[0], o2) && j == Flat(o1, tiles[1], o3)
    requires g == PackedMatmulGeneric(false, domain) && o == [o0, o1, o2, o3]
    requires pa == Pack(a, LayoutA(tiles, false)) && pb == Pack(b, LayoutB(tiles, false))
    ensures WellFormedGeneric(g)
    ensures SumBox(ReductionBounds(g), r => Term(g, pa, pb, o, r)) == Sum(a.shape[1], k => MatmulProduct(a, b, i, j, k))
  {
    var kb: nat, tk: nat := domain[2], tiles[2];
    PackedMatmulReductionBounds(false, domain);
    var h := k => MatmulProduct(a, b, i, j, k);
    forall x, y | 0 <= x < kb && 0 <= y < tk
      ensures Term(g, pa, pb, o, [x, y]) == h(Flat(x, tk, y))
    {
      MatmulTerm(a, b, tiles, domain, o0, o1, o2, o3, x, y, i, j, Flat(x, tk, y));
    }
    BlockedReduction(g, pa, pb, o, kb, tk, h);
  }

  /** The reduction at the packed point of (i, j) is the row-by-column sum of (i, j). */
  lemma MatmulReductionAt(a: Tensor, b: Tensor, tiles: seq<int>, i: int, j: int, g: Generic, pa: Tensor, pb: Tensor, o: seq<int>)
    requires |a.shape| == 2 && |b.shape| == 2 && a.shape[1] == b.shape[0]
    requires MatmulFullTiles(a.shape[0], b.shape[1], a.shape[1], tiles)
    requires g == PackedMatmulGeneric(false, MatmulDomain(a.shape[0], b.shape[1], a.shape[1], tiles))
    requires pa == Pack(a, LayoutA(tiles, false)) && pb == Pack(b, LayoutB(tiles, false))
    requires o == [i / tiles[0], j / tiles[1], i % tiles[0], j % tiles[1]]
    ensures WellFormedGeneric(g)
    ensures SumBox(ReductionBounds(g), r => Term(g, pa, pb, o, r)) == Sum(a.shape[1], k => MatmulProduct(a, b, i, j, k))
  {
    var ti, tj := tiles[0], tiles[1];
    DivModRecombine(i, ti);
    DivModRecombine(j, tj);
    ExactTiles(a.shape[1], tiles[2]);
    MatmulReduction(a, b, tiles, g.domain, i / ti, j / tj, i % ti, j % tj, i, j, g, pa, pb, o);
  }

  /** PackedMatmul, with its generic and packed operands named. */
  lemma PackedMatmulUnfold(a: Tensor, b: Tensor, c: Tensor, tiles: seq<int>, g: Generic, pa: Tensor, pb: Tensor, pc: Tensor)
    requires |a.shape| == 2 && |b.shape| == 2 && |c.shape| == 2
    requires |tiles| == 3 && PositiveTiles(tiles)
    requires g == PackedMatmulGeneric(false, MatmulDomain(a.shape[0], b.shape[1], a.shape[1], tiles))
    requires pa == Pack(a, LayoutA(tiles, false)) && pb == Pack(b, LayoutB(tiles, false)) && pc == Pack(c, LayoutC(tiles, false))
    ensures WellFormedGeneric(g)
    ensures PackedMatmul(a, b, c, tiles) == Unpack(Eval(g, pa, pb, pc), LayoutC(tiles, false), c)
  {
    PackedMatmulWellFormed(false, g.domain);
  }

  lemma PackedMatmulAt(a: Tensor, b: Tensor, c: Tensor, tiles: seq<int>, i: int, j: int,
                       g: Generic, pa: Tensor, pb: Tensor, o: seq<int>)
    requires |a.shape| == 2 && |b.shape| == 2 && |c.shape| == 2
    requires |tiles| == 3 && PositiveTiles(tiles)
    requires 0 <= i < c.shape[0] && 0 <= j < c.shape[1]
    requires g == PackedMatmulGeneric(false, MatmulDomain(a.shape[0], b.shape[1], a.shape[1], tiles))
    requires pa == Pack(a, LayoutA(tiles, false)) && pb == Pack(b, LayoutB(tiles, false))
    requires o == [i / tiles[0], j / tiles[1], i % tiles[0], j % tiles[1]]
    ensures WellFormedGeneric(g)
    ensures PackedMatmul(a, b, c, tiles).at([i, j]) == c.at([i, j]) + SumBox(ReductionBounds(g), r => Term(g, pa, pb, o, r))
  {
    var pc := Pack(c, LayoutC(tiles, false));
    PackedMatmulUnfold(a, b, c, tiles, g, pa, pb, pc);
    assert PackedIndex(LayoutC(tiles, false), [i, j]) == o by {
      NcPackedIndex(tiles[0], tiles[1], i, j);
    }
    assert pc.at(o) == c.at([i, j]) by {
      NcReadBack(c, tiles[0], tiles[1], i, j);
    }
    UnpackEvalAt(g, pa, pb, c, LayoutC(tiles, false), [i, j], o);
  }

  /** One element of the unpacked result is C + the row-by-column sum. */
  lemma PackedMatmulElement(a: Tensor, b: Tensor, c: Tensor, tiles: seq<int>, i: int, j: int)
    requires |a.shape| == 2 && |b.shape| == 2 && |c.shape| == 2
    requires a.shape[1] == b.shape[0] && c.shape == [a.shape[0], b.shape[1]]
    requires MatmulFullTiles(a.shape[0], b.shape[1], a.shape[1], tiles)
    requires 0 <= i < c.shape[0] && 0 <= j < c.shape[1]
    ensures PackedMatmul(a, b, c, tiles).at([i, j]) == Matmul(a, b, c).at([i, j])
  {
    PackedMatmulSum(a, b, c, tiles, i, j);
    MatmulAt(a, b, c, i, j);
  }

  lemma PackedMatmulSum(a: Tensor, b: Tensor, c: Tensor, tiles: seq<int>, i: int, j: int)
    requires |a.shape| == 2 && |b.shape| == 2 && |c.shape| == 2
    requires a.shape[1] == b.shape[0] && c.shape == [a.shape[0], b.shape[1]]
    requires MatmulFullTiles(a.shape[0], b.shape[1], a.shape[1], tiles)
    requires 0 <= i < c.shape[0] && 0 <= j < c.shape[1]
    ensures PackedMatmul(a, b, c, tiles).at([i, j]) == c.at([i, j]) + Sum(a.shape[1], k => MatmulProduct(a, b, i, j, k))
  {
    var g := PackedMatmulGeneric(false, MatmulDomain(a.shape[0], b.shape[1], a.shape[1], tiles));
    var pa, pb := Pack(a, LayoutA(tiles, false)), Pack(b, LayoutB(tiles, false));
    var o := [i / tiles[0], j / tiles[1], i % tiles[0], j % tiles[1]];
    PackedMatmulAt(a, b, c, tiles, i, j, g, pa, pb, o);
    MatmulReductionAt(a, b, tiles, i, j, g, pa, pb, o);
  }

  /** An element of the plain matmul, as a sum of MatmulProduct terms. */
  lemma MatmulAt(a: Tensor, b: Tensor, c: Tensor, i: int, j: int)
    requires |a.shape| == 2 && |b.shape| == 2 && |c.shape| == 2 && a.shape[1] == b.shape[0]
    requires 0 <= i < a.shape[0] && 0 <= j < b.shape[1]
    ensures Matmul(a, b, c).at([i, j]) == c.at([i, j]) + Sum(a.shape[1], k => MatmulProduct(a, b, i, j, k))
  {
    var h := k => MatmulProduct(a, b, i, j, k);
    forall k | 0 <= k < a.shape[1] ensures h(k) == a.at([[i, j][0], k]) * b.at([k, [i, j][1]]) {
      assert InBox([i, k], a.shape) && InBox([k, j], b.shape);
    }
    SumExt(a.shape[1], h, k => a.at([[i, j][0], k]) * b.at([k, [i, j][1]]));
  }

  /**
   * packMatmulOp's rewrite preserves the matmul: with full tiles, unpacking
   * the packed generic's result gives C + A * B.
   */
  lemma PackedMatmulIsMatmul(a: Tensor, b: Tensor, c: Tensor, tiles: seq<int>)
    requires |a.shape| == 2 && |b.shape| == 2 && |c.shape| == 2
    requires a.shape[1] == b.shape[0] && c.shape == [a.shape[0], b.shape[1]]
    requires MatmulFullTiles(a.shape[0], b.shape[1], a.shape[1], tiles)
    ensures Equiv(PackedMatmul(a, b, c, tiles), Matmul(a, b, c))
  {
    forall idx | InBox(idx, c.shape) ensures PackedMatmul(a, b, c, tiles).at(idx) == Matmul(a, b, c).at(idx) {
      assert idx == [idx[0], idx[1]];
      PackedMatmulElement(a, b, c, tiles, idx[0], idx[1]);
    }
    assert Matmul(a, b, c).shape == c.shape;
  }

  /** The seven loop sizes B, IB, JB, KB, ib, jb, kb of the batch form. */
  function BatchMatmulDomain(batch: int, m: int, n: int, k: int, tiles: seq<int>): seq<int>
    requires |tiles| == 3 && tiles[0] > 0 && tiles[1] > 0 && tiles[2] > 0
  {
    [batch, m / tiles[0], n / tiles[1], k / tiles[2], tiles[0], tiles[1], tiles[2]]
  }

  /** A(b, i, k) * B(b, k, j), reading 0 outside either operand. */
  function BatchProduct(a: Tensor, b: Tensor, s: int, i: int, j: int, k: int): int {
    Get(a, [s, i, k]) * Get(b, [s, k, j])
  }

  /** Where the batch generic reads its operands at one loop point. */
  lemma BatchTermIndices(domain: seq<int>, pa: Tensor, pb: Tensor, s: int, o0: int, o1: int, o2: int, o3: int, x: int, y: int)
    requires |domain| == 7
    ensures WellFormedGeneric(PackedMatmulGeneric(true, domain))
    ensures Term(PackedMatmulGeneric(true, domain), pa, pb, [s, o0, o1, o2, o3], [x, y])
         == pa.at([s, o0, x, o2, y]) * pb.at([s, o1, x, y, o3])
  {
    var pt := [s, o0, o1, x, o2, o3, y];
    assert Apply(Projection(7, [0, 1, 3, 4, 6]), pt) == [s, o0, x, o2, y] by {
      ApplyProjection5(7, 0, 1, 3, 4, 6, pt);
    }
    assert Apply(Projection(7, [0, 2, 3, 6, 5]), pt) == [s, o1, x, y, o3] by {
      ApplyProjection5(7, 0, 2, 3, 6, 5, pt);
    }
    PackedMatmulWellFormed(true, domain);
    MatmulMerge(s, o0, o1, o2, o3, x, y);
  }

  lemma BatchMatmulTerm(a: Tensor, b: Tensor, tiles: seq<int>, domain: seq<int>,
                        s: int, o0: int, o1: int, o2: int, o3: int, x: int, y: int, i: int, j: int, k: int)
    requires |a.shape| == 3 && |b.shape| == 3 && |domain| == 7
    requires |tiles| == 3 && PositiveTiles(tiles)
    requires i == Flat(o0, tiles[0], o2) && j == Flat(o1, tiles[1], o3) && k == Flat(x, tiles[2], y)
    ensures WellFormedGeneric(PackedMatmulGeneric(true, domain))
    ensures Term(PackedMatmulGeneric(true, domain), Pack(a, LayoutA(tiles, true)), Pack(b, LayoutB(tiles, true)),
                 [s, o0, o1, o2, o3], [x, y])
         == BatchProduct(a, b, s, i, j, k)
  {
    var ti, tj, tk := tiles[0], tiles[1], tiles[2];
    var pa, pb := Pack(a, LayoutA(tiles, true)), Pack(b, LayoutB(tiles, true));
    BatchTermIndices(domain, pa, pb, s, o0, o1, o2, o3, x, y);
    assert pa.at([s, o0, x, o2, y]) == Get(a, [s, i, k]) by {
      NcBatchRead(a, ti, tk, s, o0, x, o2, y);
    }
    assert pb.at([s, o1, x, y, o3]) == Get(b, [s, k, j]) by {
      KcBatchRead(b, tk, tj, s, o1, x, y, o3);
    }
  }

  lemma BatchMatmulReduction(a: Tensor, b: Tensor, tiles: seq<int>, domain: seq<int>,
                             s: int, o0: int, o1: int, o2: int, o3: int, i: int, j: int,
                             g: Generic, pa: Tensor, pb: Tensor, o: seq<int>)
    requires |a.shape| == 3 && |b.shape| == 3 && a.shape[2] == b.shape[1]
    requires |tiles| == 3 && PositiveTiles(tiles) && |domain| == 7
    requires domain[3] >= 0 && domain[6] == tiles[2] && domain[3] * tiles[2] == a.shape[2]
    requires i == Flat(o0, tiles[0], o2) && j == Flat(o1, tiles[1], o3)
    requires g == PackedMatmulGeneric(true, domain) && o == [s, o0, o1, o2, o3]
    requires pa == Pack(a, LayoutA(tiles, true)) && pb == Pack(b, LayoutB(tiles, true))
    ensures WellFormedGeneric(g)
    ensures SumBox(ReductionBounds(g), r => Term(g, pa, pb, o, r)) == Sum(a.shape[2], k => BatchProduct(a, b, s, i, j, k))
  {
    var kb: nat, tk: nat := domain[3], tiles[2];
    PackedMatmulReductionBounds(true, domain);
    var h := k => BatchProduct(a, b, s, i, j, k);
    forall x, y | 0 <= x < kb && 0 <= y < tk
      ensures Term(g, pa, pb, o, [x, y]) == h(Flat(x, tk, y))
    {
      BatchMatmulTerm(a, b, tiles, domain, s, o0, o1, o2, o3, x, y, i, j, Flat(x, tk, y));
    }
    BlockedReduction(g, pa, pb, o, kb, tk, h);
  }

  lemma BatchMatmulReductionAt(a: Tensor, b: Tensor, tiles: seq<int>, s: int, i: int, j: int, g: Generic, pa: Tensor, pb: Tensor, o: seq<int>)
    requires |a.shape| == 3 && |b.shape| == 3 && a.shape[2] == b.shape[1]
    requires MatmulFullTiles(a.shape[1], b.shape[2], a.shape[2], tiles)
    requires g == PackedMatmulGeneric(true, BatchMatmulDomain(a.shape[0], a.shape[1], b.shape[2], a.shape[2], tiles))
    requires pa == Pack(a, LayoutA(tiles, true)) && pb == Pack(b, LayoutB(tiles, true))
    requires o == [s, i / tiles[0], j / tiles[1], i % tiles[0], j % tiles[1]]
    ensures WellFormedGeneric(g)
    ensures SumBox(ReductionBounds(g), r => Term(g, pa, pb, o, r)) == Sum(a.shape[2], k => BatchProduct(a, b, s, i, j, k))
  {
    var ti, tj := tiles[0], tiles[1];
    DivModRecombine(i, ti);
    DivModRecombine(j, tj);
    ExactTiles(a.shape[2], tiles[2]);
    BatchMatmulReduction(a, b, tiles, g.domain, s, i / ti, j / tj, i % ti, j % tj, i, j, g, pa, pb, o);
  }

  function PackedBatchMatmul(a: Tensor, b: Tensor, c: Tensor, tiles: seq<int>): (r: Tensor)
    requires |a.shape| == 3 && |b.shape| == 3 && |c.shape| == 3
    requires |tiles| == 3 && PositiveTiles(tiles)
    ensures r.shape == c.shape
  {
    var domain := BatchMatmulDomain(a.shape[0], a.shape[1], b.shape[2], a.shape[2], tiles);
    var g := PackedMatmulGeneric(true, domain);
    PackedMatmulWellFormed(true, domain);
    var packed := Eval(g, Pack(a, LayoutA(tiles, true)), Pack(b, LayoutB(tiles, true)), Pack(c, LayoutC(tiles, true)));
    Unpack(packed, LayoutC(tiles, true), c)
  }

  /** PackedBatchMatmul, with its generic and packed operands named. */
  lemma PackedBatchMatmulUnfold(a: Tensor, b: Tensor, c: Tensor, tiles: seq<int>, g: Generic, pa: Tensor, pb: Tensor, pc: Tensor)
    requires |a.shape| == 3 && |b.shape| == 3 && |c.shape| == 3
    requires |tiles| == 3 && PositiveTiles(tiles)
    requires g == PackedMatmulGeneric(true, BatchMatmulDomain(a.shape[0], a.shape[1], b.shape[2], a.shape[2], tiles))
    requires pa == Pack(a, LayoutA(tiles, true)) && pb == Pack(b, LayoutB(tiles, true)) && pc == Pack(c, LayoutC(tiles, true))
    ensures WellFormedGeneric(g)
    ensures PackedBatchMatmul(a, b, c, tiles) == Unpack(Eval(g, pa, pb, pc), LayoutC(tiles, true), c)
  {
    PackedMatmulWellFormed(true, g.domain);
  }

  lemma PackedBatchMatmulAt(a: Tensor, b: Tensor, c: Tensor, tiles: seq<int>, s: int, i: int, j: int,
                            g: Generic, pa: Tensor, pb: Tensor, o: seq<int>)
    requires |a.shape| == 3 && |b.shape| == 3 && |c.shape| == 3
    requires |tiles| == 3 && PositiveTiles(tiles)
    requires 0 <= s < c.shape[0] && 0 <= i < c.shape[1] && 0 <= j < c.shape[2]
    requires g == PackedMatmulGeneric(true, BatchMatmulDomain(a.shape[0], a.shape[1], b.shape[2], a.shape[2], tiles))
    requires pa == Pack(a, LayoutA(tiles, true)) && pb == Pack(b, LayoutB(tiles, true))
    requires o == [s, i / tiles[0], j / tiles[1], i % tiles[0], j % tiles[1]]
    ensures WellFormedGeneric(g)
    ensures PackedBatchMatmul(a, b, c, tiles).at([s, i, j]) == c.at([s, i, j]) + SumBox(ReductionBounds(g), r => Term(g, pa, pb, o, r))
  {
    assert InBox([s, i, j], c.shape);
    var pc := Pack(c, LayoutC(tiles, true));
    PackedBatchMatmulUnfold(a, b, c, tiles, g, pa, pb, pc);
    assert PackedIndex(LayoutC(tiles, true), [s, i, j]) == o by {
      NcBatchPackedIndex(tiles[0], tiles[1], s, i, j);
    }
    assert pc.at(o) == c.at([s, i, j]) by {
      NcBatchReadBack(c, tiles[0], tiles[1], s, i, j);
    }
    UnpackEvalAt(g, pa, pb, c, LayoutC(tiles, true), [s, i, j], o);
  }

  lemma PackedBatchMatmulSum(a: Tensor, b: Tensor, c: Tensor, tiles: seq<int>, s: int, i: int, j: int)
    requires |a.shape| == 3 && |b.shape| == 3 && |c.shape| == 3
    requires a.shape[0] == b.shape[0] && a.shape[2] == b.shape[1] && c.shape == [a.shape[0], a.shape[1], b.shape[2]]
    requires MatmulFullTiles(a.shape[1], b.shape[2], a.shape[2], tiles)
    requires 0 <= s < c.shape[0] && 0 <= i < c.shape[1] && 0 <= j < c.shape[2]
    ensures PackedBatchMatmul(a, b, c, tiles).at([s, i, j])
         == c.at([s, i, j]) + Sum(a.shape[2], k => BatchProduct(a, b, s, i, j, k))
  {
    var g := PackedMatmulGeneric(true, BatchMatmulDomain(a.shape[0], a.shape[1], b.shape[2], a.shape[2], tiles));
    var pa, pb := Pack(a, LayoutA(tiles, true)), Pack(b, LayoutB(tiles, true));
    var o := [s, i / tiles[0], j / tiles[1], i % tiles[0], j % tiles[1]];
    PackedBatchMatmulAt(a, b, c, tiles, s, i, j, g, pa, pb, o);
    BatchMatmulReductionAt(a, b, tiles, s, i, j, g, pa, pb, o);
  }

  /** An element of the plain batch matmul, as a sum of BatchProduct terms. */
  lemma BatchMatmulAt(a: Tensor, b: Tensor, c: Tensor, s: int, i: int, j: int)
    requires |a.shape| == 3 && |b.shape| == 3 && |c.shape| == 3
    requires a.shape[0] == b.shape[0] && a.shape[2] == b.shape[1]
    requires 0 <= s < a.shape[0] && 0 <= i < a.shape[1] && 0 <= j < b.shape[2]
    ensures BatchMatmul(a, b, c).at([s, i, j]) == c.at([s, i, j]) + Sum(a.shape[2], k => BatchProduct(a, b, s, i, j, k))
  {
    var h := k => BatchProduct(a, b, s, i, j, k);
    forall k | 0 <= k < a.shape[2] ensures h(k) == a.at([[s, i, j][0], [s, i, j][1], k]) * b.at([[s, i, j][0], k, [s, i, j][2]]) {
      assert InBox([s, i, k], a.shape) && InBox([s, k, j], b.shape);
    }
    SumExt(a.shape[2], h, k => a.at([[s, i, j][0], [s, i, j][1], k]) * b.at([[s, i, j][0], k, [s, i, j][2]]));
  }

  lemma PackedBatchMatmulElement(a: Tensor, b: Tensor, c: Tensor, tiles: seq<int>, s: int, i: int, j: int)
    requires |a.shape| == 3 && |b.shape| == 3 && |c.shape| == 3
    requires a.shape[0] == b.shape[0] && a.shape[2] == b.shape[1] && c.shape == [a.shape[0], a.shape[1], b.shape[2]]
    requires MatmulFullTiles(a.shape[1], b.shape[2], a.shape[2], tiles)
    requires 0 <= s < c.shape[0] && 0 <= i < c.shape[1] && 0 <= j < c.shape[2]
    ensures PackedBatchMatmul(a, b, c, tiles).at([s, i, j]) == BatchMatmul(a, b, c).at([s, i, j])
  {
    PackedBatchMatmulSum(a, b, c, tiles, s, i, j);
    BatchMatmulAt(a, b, c, s, i, j);
  }

  /**
   * The batch form of packMatmulOp preserves the batch matmul: with full
   * tiles on I, J and K, unpacking the seven-loop generic gives C + A * B in
   * every batch.
   */
  lemma PackedBatchMatmulIsBatchMatmul(a: Tensor, b: Tensor, c: Tensor, tiles: seq<int>)
    requires |a.shape| == 3 && |b.shape| == 3 && |c.shape| == 3
    requires a.shape[0] == b.shape[0] && a.shape[2] == b.shape[1] && c.shape == [a.shape[0], a.shape[1], b.shape[2]]
    requires MatmulFullTiles(a.shape[1], b.shape[2], a.shape[2], tiles)
    ensures Equiv(PackedBatchMatmul(a, b, c, tiles), BatchMatmul(a, b, c))
  {
    forall idx | InBox(idx, c.shape) ensures PackedBatchMatmul(a, b, c, tiles).at(idx) == BatchMatmul(a, b, c).at(idx) {
      assert idx == [idx[0], idx[1], idx[2]];
      PackedBatchMatmulElement(a, b, c, tiles, idx[0], idx[1], idx[2]);
    }
    assert BatchMatmul(a, b, c).shape == c.shape;
  }
}
