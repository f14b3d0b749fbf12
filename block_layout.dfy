/**
 * The value side of lib/Standalone/ToBlockLayoutAndBack.cpp. An NC matrix
 * goes to the NCnc block layout with one blocking factor bf for both
 * dimensions through `linalgx.relayout`, and comes back through the
 * relayout with the two maps swapped. The blocked shape is
 * [N / bf, C / bf, bf, bf], with truncating division and no check that bf
 * divides N or C. The matmul becomes a six-loop generic on the blocked
 * operands, and a relu generic is sunk below the relayout that leaves the
 * block layout.
 */
module BlockLayout {
  import opened Sums
  import opened Affine
  import opened Tensors
  import opened TensorPack
  import opened TppLayouts
  import opened Contraction
  import opened MatmulPacking

  /**
   * getMapsToBlockLayoutNC_NCnc over the four loops (N, C, n, c): the input
   * is read at (N * bf + n, C * bf + c) and the output written at the loop
   * point itself.
   */
  function ToBlockMaps(bf: int): (AffineMap, AffineMap) {
    (AffineMap(4, [Add(Mul(Dim(0), bf), Dim(2)), Add(Mul(Dim(1), bf), Dim(3))]), Identity(4))
  }

  /** getMapsFromBlockLayoutNC_NCnc: the same two maps, swapped. */
  function FromBlockMaps(bf: int): (AffineMap, AffineMap) {
    (ToBlockMaps(bf).1, ToBlockMaps(bf).0)
  }

  /** Where the two maps send a loop point (N, C, n, c). */
  lemma ToBlockMapsApply(bf: int, x: seq<int>)
    requires |x| == 4
    ensures WellFormedMap(ToBlockMaps(bf).0) && WellFormedMap(ToBlockMaps(bf).1)
    ensures Apply(ToBlockMaps(bf).0, x) == [Flat(x[0], bf, x[2]), Flat(x[1], bf, x[3])]
    ensures Apply(ToBlockMaps(bf).1, x) == x
  {
    var m := ToBlockMaps(bf).0;
    var e0, e1 := Add(Mul(Dim(0), bf), Dim(2)), Add(Mul(Dim(1), bf), Dim(3));
    assert WellFormed(Mul(Dim(0), bf), 4) && WellFormed(Dim(2), 4);
    assert WellFormed(Mul(Dim(1), bf), 4) && WellFormed(Dim(3), 4);
    assert m.results == [e0, e1];
    assert EvalExpr(Mul(Dim(0), bf), x) == x[0] * bf;
    assert EvalExpr(Mul(Dim(1), bf), x) == x[1] * bf;
    assert EvalExpr(e0, x) == Flat(x[0], bf, x[2]);
    assert EvalExpr(e1, x) == Flat(x[1], bf, x[3]);
  }

  /** The blocked shape of getReshapedTensor: [N / bf, C / bf, bf, bf]. */
  function BlockedShape(shape: seq<int>, bf: int): (r: seq<int>)
    requires |shape| == 2 && bf > 0
    ensures |r| == 4 && r[2] == bf && r[3] == bf
  {
    [shape[0] / bf, shape[1] / bf, bf, bf]
  }

  /**
   * The relayout into the block layout: at every loop point x of the blocked
   * tensor it reads t at the input map's image of x.
   */
  function ToBlock(t: Tensor, bf: int): (r: Tensor)
    requires |t.shape| == 2 && bf > 0
    ensures r.shape == BlockedShape(t.shape, bf)
  {
    Tensor(BlockedShape(t.shape, bf), x => if |x| == 4 then Get(t, [Flat(x[0], bf, x[2]), Flat(x[1], bf, x[3])]) else 0)
  }

  /**
   * The relayout out of the block layout into init: the loops run over the
   * blocked tensor b, which the identity input map reads, and element x of
   * b is written at the output map's image (x0 * bf + x2, x1 * bf + x3).
   * An element of init that no loop point reaches keeps its value.
   */
  function FromBlock(b: Tensor, init: Tensor, bf: int): (r: Tensor)
    requires |b.shape| == 4 && bf > 0
    ensures r.shape == init.shape
  {
    Tensor(init.shape, j =>
      if |j| == 2 && InBox([j[0] / bf, j[1] / bf, j[0] % bf, j[1] % bf], b.shape)
      then b.at([j[0] / bf, j[1] / bf, j[0] % bf, j[1] % bf])
      else init.at(j))
  }

  /** ToBlock is the relayout with the to-block maps: element x is the input at inputMap(x). */
  lemma ToBlockReadsInputMap(t: Tensor, bf: int, x: seq<int>)
    requires |t.shape| == 2 && bf > 0 && |x| == 4
    ensures WellFormedMap(ToBlockMaps(bf).0)
    ensures ToBlock(t, bf).at(Apply(ToBlockMaps(bf).1, x)) == Get(t, Apply(ToBlockMaps(bf).0, x))
  {
    ToBlockMapsApply(bf, x);
  }

  /**
   * FromBlock is the relayout with the from-block maps: a loop point x of
   * the blocked tensor whose image lies in init puts b at x (the identity
   * input map) there (the output map).
   */
  lemma FromBlockWritesOutputMap(b: Tensor, init: Tensor, bf: int, x: seq<int>)
    requires |b.shape| == 4 && bf > 0 && b.shape[2] == bf && b.shape[3] == bf && InBox(x, b.shape)
    ensures WellFormedMap(FromBlockMaps(bf).1) && WellFormedMap(FromBlockMaps(bf).0)
    ensures FromBlock(b, init, bf).at(Apply(FromBlockMaps(bf).1, x)) == b.at(Apply(FromBlockMaps(bf).0, x))
  {
    ToBlockMapsApply(bf, x);
    DivMod(x[0], x[2], bf);
    DivMod(x[1], x[3], bf);
    assert [Flat(x[0], bf, x[2]) / bf, Flat(x[1], bf, x[3]) / bf, Flat(x[0], bf, x[2]) % bf, Flat(x[1], bf, x[3]) % bf] == x;
  }

  /** A blocked index (o, i) with o below n / bf and i below bf is below n. */
  lemma BlockBound(o: int, i: int, bf: int, n: int)
    requires bf > 0 && 0 <= o < n / bf && 0 <= i < bf
    ensures 0 <= Flat(o, bf, i) < n
  {
    MulMono(o + 1, n / bf, bf);
    DivModRecombine(n, bf);
  }

  /** With n a multiple of bf, the block of any index below n is below n / bf. */
  lemma BlockOfIndex(j: int, bf: int, n: int)
    requires bf > 0 && 0 <= j < n && n % bf == 0
    ensures 0 <= j / bf < n / bf && 0 <= j % bf < bf
  {
    DivModRecombine(j, bf);
    ExactTiles(n, bf);
    if j / bf >= n / bf {
      MulMono(n / bf, j / bf, bf);
    }
  }

  /** Leaving the block layout after entering it, whatever the init, always restores the blocked tensor. */
  lemma ToBlockOfFromBlock(b: Tensor, init: Tensor, bf: int)
    requires |init.shape| == 2 && bf > 0 && b.shape == BlockedShape(init.shape, bf)
    ensures Equiv(ToBlock(FromBlock(b, init, bf), bf), b)
  {
    forall x | InBox(x, b.shape) ensures ToBlock(FromBlock(b, init, bf), bf).at(x) == b.at(x) {
      BlockBound(x[0], x[2], bf, init.shape[0]);
      BlockBound(x[1], x[3], bf, init.shape[1]);
      DivMod(x[0], x[2], bf);
      DivMod(x[1], x[3], bf);
      var j := [Flat(x[0], bf, x[2]), Flat(x[1], bf, x[3])];
      assert [j[0] / bf, j[1] / bf, j[0] % bf, j[1] % bf] == x;
      assert InBox(j, init.shape);
    }
  }

  /**
   * When bf divides both dimensions, entering the block layout and leaving it
   * into a tensor of the same shape gives the matrix back.
   */
  lemma FromBlockOfToBlock(t: Tensor, init: Tensor, bf: int)
    requires |t.shape| == 2 && bf > 0 && init.shape == t.shape
    requires t.shape[0] % bf == 0 && t.shape[1] % bf == 0
    ensures Equiv(FromBlock(ToBlock(t, bf), init, bf), t)
  {
    forall j | InBox(j, t.shape) ensures FromBlock(ToBlock(t, bf), init, bf).at(j) == t.at(j) {
      var o := BlockOf(j, bf);
      BlockOfInBox(j, bf, t.shape);
      assert FromBlock(ToBlock(t, bf), init, bf).at(j) == ToBlock(t, bf).at(o);
    }
  }

  /** The blocked index (j0 / bf, j1 / bf, j0 % bf, j1 % bf) of a matrix index j. */
  function BlockOf(j: seq<int>, bf: int): seq<int>
    requires |j| == 2 && bf > 0
  {
    [j[0] / bf, j[1] / bf, j[0] % bf, j[1] % bf]
  }

  /** With both dimensions multiples of bf, an index of the matrix has its blocked index in the blocked shape, and the blocked index leads back to it. */
  lemma BlockOfInBox(j: seq<int>, bf: int, shape: seq<int>)
    requires |shape| == 2 && bf > 0 && shape[0] % bf == 0 && shape[1] % bf == 0 && InBox(j, shape)
    ensures InBox(BlockOf(j, bf), BlockedShape(shape, bf))
    ensures [Flat(j[0] / bf, bf, j[0] % bf), Flat(j[1] / bf, bf, j[1] % bf)] == j
  {
    BlockOfIndex(j[0], bf, shape[0]);
    BlockOfIndex(j[1], bf, shape[1]);
    DivModRecombine(j[0], bf);
    DivModRecombine(j[1], bf);
  }

  /**
   * Without divisibility the round trip loses data: a 3 x 2 matrix with
   * factor 2 has one 2 x 2 block, and its last row comes back as the init's.
   */
  lemma FromBlockOfToBlockLosesRows(t: Tensor, init: Tensor)
    requires t.shape == [3, 2] && init.shape == [3, 2]
    ensures BlockedShape(t.shape, 2) == [1, 1, 2, 2]
    ensures FromBlock(ToBlock(t, 2), init, 2).at([2, 0]) == init.at([2, 0])
  {
    assert [2, 0][0] / 2 == 1;
  }

  // The blocked matmul.

  /**
   * The generic DoItOnMatmul builds, over loops (p1, p2, r1, p3, p4, r2):
   * A read at (p1, r1, p3, r2), B at (r1, p2, r2, p4) (both in NCnc) and C at
   * (p1, p2, p3, p4).
   */
  function BlockedMatmulGeneric(domain: seq<int>): Generic {
    Generic(domain, MatmulIterators(false),
      Projection(6, [0, 2, 3, 5]), Projection(6, [2, 1, 5, 4]), Projection(6, [0, 1, 3, 4]))
  }

  /** The generic differs from the packed matmul of the block-packing rewrite only in B's map. */
  lemma BlockedMatmulWellFormed(domain: seq<int>)
    requires |domain| == 6
    ensures WellFormedGeneric(BlockedMatmulGeneric(domain))
    ensures ReductionBounds(BlockedMatmulGeneric(domain)) == [domain[2], domain[5]]
  {
    PlainGenericWellFormed(domain);
    PackedMatmulReductionBounds(false, domain);
    ProjectionWellFormed(6, [2, 1, 5, 4]);
  }

  /** Where the blocked generic reads its operands at one loop point. */
  lemma BlockedTermIndices(domain: seq<int>, ta: Tensor, tb: Tensor, o0: int, o1: int, o2: int, o3: int, x: int, y: int)
    requires |domain| == 6
    ensures WellFormedGeneric(BlockedMatmulGeneric(domain))
    ensures Term(BlockedMatmulGeneric(domain), ta, tb, [o0, o1, o2, o3], [x, y])
         == ta.at([o0, x, o2, y]) * tb.at([x, o1, y, o3])
  {
    var pt := [o0, o1, x, o2, o3, y];
    assert Apply(Projection(6, [0, 2, 3, 5]), pt) == [o0, x, o2, y] by {
      ApplyProjection4(6, 0, 2, 3, 5, pt);
    }
    assert Apply(Projection(6, [2, 1, 5, 4]), pt) == [x, o1, y, o3] by {
      ApplyProjection4(6, 2, 1, 5, 4, pt);
    }
    BlockedMatmulWellFormed(domain);
    MatmulMerge(0, o0, o1, o2, o3, x, y);
  }

  /** The loop sizes: the blocks of M, N and K, then bf three times. */
  function BlockedDomain(a: Tensor, b: Tensor, bf: int): seq<int>
    requires |a.shape| == 2 && |b.shape| == 2 && bf > 0
  {
    MatmulDomain(a.shape[0], b.shape[1], a.shape[1], [bf, bf, bf])
  }

  /** The loop sizes are the ones the blocked operand shapes determine. */
  lemma BlockedShapesAgree(a: Tensor, b: Tensor, c: Tensor, bf: int)
    requires |a.shape| == 2 && |b.shape| == 2 && |c.shape| == 2 && bf > 0
    requires a.shape[1] == b.shape[0] && c.shape == [a.shape[0], b.shape[1]]
    ensures WellFormedGeneric(BlockedMatmulGeneric(BlockedDomain(a, b, bf)))
    ensures ShapesAgree(BlockedMatmulGeneric(BlockedDomain(a, b, bf)),
                        BlockedShape(a.shape, bf), BlockedShape(b.shape, bf), BlockedShape(c.shape, bf))
  {
    var d := BlockedDomain(a, b, bf);
    BlockedMatmulWellFormed(d);
    FitsProjection4(6, 0, 2, 3, 5, BlockedShape(a.shape, bf), d);
    FitsProjection4(6, 2, 1, 5, 4, BlockedShape(b.shape, bf), d);
    FitsProjection4(6, 0, 1, 3, 4, BlockedShape(c.shape, bf), d);
  }

  /**
   * What DoItOnMatmul computes: A, B and C enter the block layout, the
   * blocked generic runs on them, and its result leaves the block layout
   * into C.
   */
  function BlockedMatmul(a: Tensor, b: Tensor, c: Tensor, bf: int): Tensor
    requires |a.shape| == 2 && |b.shape| == 2 && |c.shape| == 2 && bf > 0
  {
    var d := BlockedDomain(a, b, bf);
    BlockedMatmulWellFormed(d);
    FromBlock(Eval(BlockedMatmulGeneric(d), ToBlock(a, bf), ToBlock(b, bf), ToBlock(c, bf)), c, bf)
  }

  /**
   * At every parallel point o, the reduction of the blocked generic on the
   * relayouted A and B is the reduction of the block-packing generic on
   * their packs.
   */
  lemma BlockedSumIsPackedSum(a: Tensor, b: Tensor, bf: int, d: seq<int>, s: Generic, g: Generic,
                              ta: Tensor, tb: Tensor, pa: Tensor, pb: Tensor, o: seq<int>)
    requires |a.shape| == 2 && |b.shape| == 2 && bf > 0 && |d| == 6 && |o| == 4
    requires s == BlockedMatmulGeneric(d) && g == PackedMatmulGeneric(false, d)
    requires ta == ToBlock(a, bf) && tb == ToBlock(b, bf)
    requires pa == Pack(a, LayoutA([bf, bf, bf], false)) && pb == Pack(b, LayoutB([bf, bf, bf], false))
    ensures WellFormedGeneric(s) && WellFormedGeneric(g)
    ensures SumBox(ReductionBounds(s), r => Term(s, ta, tb, o, r)) == SumBox(ReductionBounds(g), r => Term(g, pa, pb, o, r))
  {
    BlockedMatmulWellFormed(d);
    PackedMatmulReductionBounds(false, d);
    forall r | InBox(r, ReductionBounds(s)) ensures Term(s, ta, tb, o, r) == Term(g, pa, pb, o, r) {
      BlockedTermAtPoint(a, b, bf, d, ta, tb, pa, pb, o, r);
    }
    SumBoxExt(ReductionBounds(s), r => Term(s, ta, tb, o, r), r => Term(g, pa, pb, o, r));
  }

  /** BlockedTermAt on an output index o and a reduction index r. */
  lemma BlockedTermAtPoint(a: Tensor, b: Tensor, bf: int, d: seq<int>, ta: Tensor, tb: Tensor, pa: Tensor, pb: Tensor,
                           o: seq<int>, r: seq<int>)
    requires |a.shape| == 2 && |b.shape| == 2 && bf > 0 && |d| == 6 && |o| == 4 && |r| == 2
    requires ta == ToBlock(a, bf) && tb == ToBlock(b, bf)
    requires pa == Pack(a, LayoutA([bf, bf, bf], false)) && pb == Pack(b, LayoutB([bf, bf, bf], false))
    ensures WellFormedGeneric(BlockedMatmulGeneric(d)) && WellFormedGeneric(PackedMatmulGeneric(false, d))
    ensures Term(BlockedMatmulGeneric(d), ta, tb, o, r) == Term(PackedMatmulGeneric(false, d), pa, pb, o, r)
  {
    assert o == [o[0], o[1], o[2], o[3]] && r == [r[0], r[1]];
    BlockedTermAt(a, b, bf, d, ta, tb, pa, pb, o[0], o[1], o[2], o[3], r[0], r[1]);
  }

  /** The same at one loop point: both generics read A(o0 * bf + o2, x * bf + y) and B(x * bf + y, o1 * bf + o3). */
  lemma BlockedTermAt(a: Tensor, b: Tensor, bf: int, d: seq<int>, ta: Tensor, tb: Tensor, pa: Tensor, pb: Tensor,
                      o0: int, o1: int, o2: int, o3: int, x: int, y: int)
    requires |a.shape| == 2 && |b.shape| == 2 && bf > 0 && |d| == 6
    requires ta == ToBlock(a, bf) && tb == ToBlock(b, bf)
    requires pa == Pack(a, LayoutA([bf, bf, bf], false)) && pb == Pack(b, LayoutB([bf, bf, bf], false))
    ensures WellFormedGeneric(BlockedMatmulGeneric(d)) && WellFormedGeneric(PackedMatmulGeneric(false, d))
    ensures Term(BlockedMatmulGeneric(d), ta, tb, [o0, o1, o2, o3], [x, y]) == Term(PackedMatmulGeneric(false, d), pa, pb, [o0, o1, o2, o3], [x, y])
  {
    BlockedTermIndices(d, ta, tb, o0, o1, o2, o3, x, y);
    MatmulTermIndices(d, pa, pb, o0, o1, o2, o3, x, y);
    assert ta.at([o0, x, o2, y]) == pa.at([o0, x, o2, y]) by {
      NcRead(a, bf, bf, o0, x, o2, y);
    }
    assert tb.at([x, o1, y, o3]) == pb.at([o1, x, y, o3]) by {
      KcRead(b, bf, bf, o1, x, y, o3);
    }
  }

  /** An element of the blocked matmul is C there plus the blocked generic's reduction at its blocked index. */
  lemma BlockedMatmulUnfoldAt(a: Tensor, b: Tensor, c: Tensor, bf: int, i: int, j: int, s: Generic, ta: Tensor, tb: Tensor, o: seq<int>)
    requires |a.shape| == 2 && |b.shape| == 2 && |c.shape| == 2 && bf > 0
    requires c.shape[0] % bf == 0 && c.shape[1] % bf == 0 && InBox([i, j], c.shape)
    requires s == BlockedMatmulGeneric(BlockedDomain(a, b, bf)) && ta == ToBlock(a, bf) && tb == ToBlock(b, bf)
    requires o == BlockOf([i, j], bf)
    ensures WellFormedGeneric(s)
    ensures BlockedMatmul(a, b, c, bf).at([i, j]) == c.at([i, j]) + SumBox(ReductionBounds(s), r => Term(s, ta, tb, o, r))
  {
    BlockedMatmulWellFormed(BlockedDomain(a, b, bf));
    var tc := ToBlock(c, bf);
    BlockOfInBox([i, j], bf, c.shape);
    assert InBox(o, tc.shape);
    assert tc.at(o) == c.at([i, j]);
  }

  /** One element of the blocked matmul, when bf divides M, N and K. */
  lemma BlockedMatmulAt(a: Tensor, b: Tensor, c: Tensor, bf: int, i: int, j: int)
    requires |a.shape| == 2 && |b.shape| == 2 && |c.shape| == 2 && bf > 0
    requires a.shape[1] == b.shape[0] && c.shape == [a.shape[0], b.shape[1]]
    requires MatmulFullTiles(a.shape[0], b.shape[1], a.shape[1], [bf, bf, bf])
    requires 0 <= i < c.shape[0] && 0 <= j < c.shape[1]
    ensures BlockedMatmul(a, b, c, bf).at([i, j]) == PackedMatmul(a, b, c, [bf, bf, bf]).at([i, j])
  {
    var tiles := [bf, bf, bf];
    var d := BlockedDomain(a, b, bf);
    var s := BlockedMatmulGeneric(d);
    var g := PackedMatmulGeneric(false, d);
    var ta, tb := ToBlock(a, bf), ToBlock(b, bf);
    var pa, pb := Pack(a, LayoutA(tiles, false)), Pack(b, LayoutB(tiles, false));
    var o := BlockOf([i, j], bf);
    BlockedMatmulUnfoldAt(a, b, c, bf, i, j, s, ta, tb, o);
    BlockedSumIsPackedSum(a, b, bf, d, s, g, ta, tb, pa, pb, o);
    PackedMatmulAt(a, b, c, tiles, i, j, g, pa, pb, o);
  }

  /**
   * When bf divides M, N and K, the blocked matmul with the relayouts around
   * it is the matrix product C + A * B.
   */
  lemma BlockedMatmulIsMatmul(a: Tensor, b: Tensor, c: Tensor, bf: int)
    requires |a.shape| == 2 && |b.shape| == 2 && |c.shape| == 2 && bf > 0
    requires a.shape[1] == b.shape[0] && c.shape == [a.shape[0], b.shape[1]]
    requires MatmulFullTiles(a.shape[0], b.shape[1], a.shape[1], [bf, bf, bf])
    ensures Equiv(BlockedMatmul(a, b, c, bf), Tensors.Matmul(a, b, c))
  {
    forall idx | InBox(idx, c.shape) ensures BlockedMatmul(a, b, c, bf).at(idx) == Tensors.Matmul(a, b, c).at(idx) {
      assert idx == [idx[0], idx[1]];
      BlockedMatmulAt(a, b, c, bf, idx[0], idx[1]);
      PackedMatmulElement(a, b, c, [bf, bf, bf], idx[0], idx[1]);
    }
  }

  /** The inputs of the counterexample: a 1 x 2 row of ones, a 2 x 1 column of ones, and a zero 1 x 1 init. */
  predicate OnesRowColumn(a: Tensor, b: Tensor, c: Tensor) {
    && a.shape == [1, 2] && b.shape == [2, 1] && c.shape == [1, 1]
    && a.at([0, 0]) == 1 && a.at([0, 1]) == 1 && b.at([0, 0]) == 1 && b.at([1, 0]) == 1
    && c.at([0, 0]) == 0
  }

  /**
   * As written, a matmul whose sizes are not multiples of the factor loses
   * products: with factor 2, a 1 x 2 row of ones times a 2 x 1 column of ones
   * has no whole block of rows, so the blocked matmul returns the init 0
   * where the product is 2.
   */
  lemma BlockedMatmulDropsProducts(a: Tensor, b: Tensor, c: Tensor)
    requires OnesRowColumn(a, b, c)
    ensures BlockedMatmul(a, b, c, 2).at([0, 0]) == 0
    ensures Tensors.Matmul(a, b, c).at([0, 0]) == 2
  {
    BlockedMatmulKeepsInit(a, b, c, 2, [0, 0]);
    MatmulOnes(a, b, c);
  }

  lemma SmallQuotient(n: int, bf: int)
    requires 0 <= n < bf
    ensures n / bf == 0
  {
  }

  /** Where the rows of C are fewer than the factor, the blocked matmul leaves C as it was. */
  lemma BlockedMatmulKeepsInit(a: Tensor, b: Tensor, c: Tensor, bf: int, j: seq<int>)
    requires |a.shape| == 2 && |b.shape| == 2 && |c.shape| == 2 && bf > 0
    requires 0 <= c.shape[0] < bf && |j| == 2
    ensures BlockedMatmul(a, b, c, bf).at(j) == c.at(j)
  {
    var d := BlockedDomain(a, b, bf);
    BlockedMatmulWellFormed(d);
    var e := Eval(BlockedMatmulGeneric(d), ToBlock(a, bf), ToBlock(b, bf), ToBlock(c, bf));
    SmallQuotient(c.shape[0], bf);
    assert e.shape[0] == 0;
    var x := [j[0] / bf, j[1] / bf, j[0] % bf, j[1] % bf];
    assert !(0 <= x[0] < e.shape[0]);
    assert !InBox(x, e.shape);
  }

  lemma MatmulOnes(a: Tensor, b: Tensor, c: Tensor)
    requires OnesRowColumn(a, b, c)
    ensures Tensors.Matmul(a, b, c).at([0, 0]) == 2
  {
    var h := k => a.at([[0, 0][0], k]) * b.at([k, [0, 0][1]]);
    assert h(0) == 1 && h(1) == 1;
    assert Sum(2, h) == h(1) + Sum(1, h);
    assert Sum(1, h) == h(0) + Sum(0, h);
  }

  // The sunk relu.

  /** An elementwise generic with identity maps: f applied to every element, written into init's shape. */
  function MapElements(t: Tensor, init: Tensor, f: int -> int): (r: Tensor)
    ensures r.shape == init.shape
  {
    Tensor(init.shape, idx => f(t.at(idx)))
  }

  /**
   * SinkBlockLayoutAfterRelu: applying an elementwise op after leaving the
   * block layout (into init, then into the op's output out) equals applying
   * it on the blocked tensor (into the blocked out) and leaving the block
   * layout into out, when the blocked tensor has the blocked shape of out
   * and bf divides both of its dimensions.
   */
  lemma SinkElementwise(b: Tensor, init: Tensor, out: Tensor, bf: int, f: int -> int)
    requires |out.shape| == 2 && bf > 0 && out.shape[0] % bf == 0 && out.shape[1] % bf == 0
    requires init.shape == out.shape && b.shape == BlockedShape(out.shape, bf)
    ensures Equiv(MapElements(FromBlock(b, init, bf), out, f),
                  FromBlock(MapElements(b, ToBlock(out, bf), f), out, bf))
  {
    forall j | InBox(j, out.shape)
      ensures MapElements(FromBlock(b, init, bf), out, f).at(j) == FromBlock(MapElements(b, ToBlock(out, bf), f), out, bf).at(j)
    {
      BlockOfInBox(j, bf, out.shape);
      assert InBox(BlockOf(j, bf), b.shape);
    }
  }
}
