/**
 * Meaning of the packed convolutions of lib/TPP/ToBlockLayoutAndBack.cpp.
 * With tiles (k, c) for the output and input channels, the image is packed
 * to [N][C'][H][W][c], the filter to [K'][C'][R][S][c][k] and the output to
 * [N][K'][P][Q][k]; the convolution becomes a nine-loop generic over
 * (N, K', P, Q, k, C', R, S, c) whose result is unpacked into the output.
 * With whole channel tiles the unpacked result is the reference
 * convolution, element for element, for both the NHWC/HWCF and the
 * NCHW/FCHW forms.
 */
module ConvPacking {
  import opened Sums
  import opened Affine
  import opened Tensors
  import opened TensorPack
  import opened TppLayouts
  import opened Contraction

  /** Five parallel loops (N, K', P, Q, k), then four reduction loops (C', R, S, c). */
  function ConvIterators(): seq<IteratorType> {
    [Parallel, Parallel, Parallel, Parallel, Parallel, Reduction, Reduction, Reduction, Reduction]
  }

  /** The image map (p1, r1, p3 * sh + r2, p4 * sw + r3, r4). */
  function ImageMap(sh: int, sw: int): AffineMap {
    AffineMap(9, [Dim(0), Dim(5), Add(Mul(Dim(2), sh), Dim(6)), Add(Mul(Dim(3), sw), Dim(7)), Dim(8)])
  }

  /** The generic of packConvolutions: filter map (p2, r1, r2, r3, r4, p5), output map (p1, ..., p5). */
  function ConvGeneric(domain: seq<int>, sh: int, sw: int): Generic {
    Generic(domain, ConvIterators(), ImageMap(sh, sw), Projection(9, [1, 5, 6, 7, 8, 4]), Projection(9, [0, 1, 2, 3, 4]))
  }

  lemma ConvIteratorsBlocks()
    ensures ParallelThenReduction(ConvIterators(), 5)
  {
  }

  lemma ConvPositions()
    ensures Positions(ConvIterators(), Parallel, 0) == [0, 1, 2, 3, 4]
  {
    ConvIteratorsBlocks();
    PositionsBlocks(ConvIterators(), 5, 0);
    assert seq(5, i => 0 + i) == [0, 1, 2, 3, 4];
  }

  lemma ConvGenericWellFormed(domain: seq<int>, sh: int, sw: int)
    requires |domain| == 9
    ensures WellFormedGeneric(ConvGeneric(domain, sh, sw))
  {
    ConvPositions();
    ProjectionWellFormed(9, [1, 5, 6, 7, 8, 4]);
    ApplyImageMap(sh, sw, domain);
  }

  /** The reduction loops are C', R, S and c. */
  lemma ConvReductionBounds(domain: seq<int>, sh: int, sw: int)
    requires |domain| == 9
    ensures WellFormedGeneric(ConvGeneric(domain, sh, sw))
    ensures ReductionBounds(ConvGeneric(domain, sh, sw)) == [domain[5], domain[6], domain[7], domain[8]]
  {
    assert domain[5..] == [domain[5], domain[6], domain[7], domain[8]];
    assert Bounds(ConvIterators(), domain, Reduction) == domain[5..] by {
      ConvIteratorsBlocks();
      BoundsBlocks(ConvIterators(), domain, 5);
    }
    ConvGenericWellFormed(domain, sh, sw);
  }

  /** The loop point at parallel coordinates (o0, ..., o4) and reduction coordinates (x0, ..., x3). */
  lemma ConvMerge(o0: int, o1: int, o2: int, o3: int, o4: int, x0: int, x1: int, x2: int, x3: int)
    ensures Count(ConvIterators(), Parallel) == 5 && Count(ConvIterators(), Reduction) == 4
    ensures Merge(ConvIterators(), [o0, o1, o2, o3, o4], [x0, x1, x2, x3]) == [o0, o1, o2, o3, o4, x0, x1, x2, x3]
  {
    assert [o0, o1, o2, o3, o4] + [x0, x1, x2, x3] == [o0, o1, o2, o3, o4, x0, x1, x2, x3];
    ConvIteratorsBlocks();
    MergeBlocks(ConvIterators(), 5, [o0, o1, o2, o3, o4], [x0, x1, x2, x3]);
  }

  lemma ApplyFilterMap(pt: seq<int>)
    requires |pt| == 9
    ensures WellFormedMap(Projection(9, [1, 5, 6, 7, 8, 4]))
    ensures Apply(Projection(9, [1, 5, 6, 7, 8, 4]), pt) == [pt[1], pt[5], pt[6], pt[7], pt[8], pt[4]]
  {
    ApplyProjection(9, [1, 5, 6, 7, 8, 4], pt);
  }

  lemma ApplyImageMap(sh: int, sw: int, pt: seq<int>)
    requires |pt| == 9
    ensures WellFormedMap(ImageMap(sh, sw))
    ensures Apply(ImageMap(sh, sw), pt) == [pt[0], pt[5], Flat(pt[2], sh, pt[6]), Flat(pt[3], sw, pt[7]), pt[8]]
  {
    var m := ImageMap(sh, sw);
    assert forall k :: 0 <= k < |m.results| ==> WellFormed(m.results[k], 9) by {
      forall k | 0 <= k < |m.results| ensures WellFormed(m.results[k], 9) {
        assert k == 0 || k == 1 || k == 2 || k == 3 || k == 4;
      }
    }
    var r := Apply(m, pt);
    assert r[0] == pt[0] && r[1] == pt[5] && r[4] == pt[8];
    assert WellFormed(Mul(Dim(2), sh), 9) && WellFormed(Mul(Dim(3), sw), 9);
    assert EvalExpr(Mul(Dim(2), sh), pt) == pt[2] * sh && EvalExpr(Mul(Dim(3), sw), pt) == pt[3] * sw;
    assert r[2] == EvalExpr(m.results[2], pt) == Flat(pt[2], sh, pt[6]);
    assert r[3] == EvalExpr(m.results[3], pt) == Flat(pt[3], sw, pt[7]);
  }

  /** Where the generic reads its operands at one loop point. */
  lemma ConvTermIndices(domain: seq<int>, sh: int, sw: int, a: Tensor, b: Tensor,
                        o0: int, o1: int, o2: int, o3: int, o4: int, x0: int, x1: int, x2: int, x3: int)
    requires |domain| == 9
    ensures WellFormedGeneric(ConvGeneric(domain, sh, sw))
    ensures Term(ConvGeneric(domain, sh, sw), a, b, [o0, o1, o2, o3, o4], [x0, x1, x2, x3])
         == a.at([o0, x0, Flat(o2, sh, x1), Flat(o3, sw, x2), x3]) * b.at([o1, x0, x1, x2, x3, o4])
  {
    var pt := [o0, o1, o2, o3, o4, x0, x1, x2, x3];
    ApplyImageMap(sh, sw, pt);
    ApplyFilterMap(pt);
    ConvGenericWellFormed(domain, sh, sw);
    ConvMerge(o0, o1, o2, o3, o4, x0, x1, x2, x3);
  }

  /** Tiles (k, c): the image and the filter's input channels by c, the filter's and the output's channels by k. */
  function ImageLayout(tiles: seq<int>, nhwc: bool): (l: Layout)
    requires |tiles| == 2
    ensures PositiveTiles(tiles) ==> ValidLayout(l, 4)
  {
    if nhwc then NpqkToNkpqk(tiles[1]) else NchwToNchwc(tiles[1])
  }

  function FilterLayout(tiles: seq<int>, nhwc: bool): (l: Layout)
    requires |tiles| == 2
    ensures PositiveTiles(tiles) ==> ValidLayout(l, 4)
  {
    if nhwc then RsckToKcrsck([tiles[1], tiles[0]]) else KcrsToKcrsck([tiles[1], tiles[0]])
  }

  function OutputLayout(tiles: seq<int>, nhwc: bool): (l: Layout)
    requires |tiles| == 2
    ensures PositiveTiles(tiles) ==> ValidLayout(l, 4)
  {
    if nhwc then NpqkToNkpqk(tiles[0]) else NchwToNchwc(tiles[0])
  }

  /**
   * The layouts packConvolutions builds: image and filter input channels
   * by tiles[0], filter output channels by tiles[1], output channels by
   * tiles[0].
   */
  function ImageLayoutAsWritten(tiles: seq<int>, nhwc: bool): (l: Layout)
    requires |tiles| == 2
    ensures PositiveTiles(tiles) ==> ValidLayout(l, 4)
  {
    if nhwc then NpqkToNkpqk(tiles[0]) else NchwToNchwc(tiles[0])
  }

  function FilterLayoutAsWritten(tiles: seq<int>, nhwc: bool): (l: Layout)
    requires |tiles| == 2
    ensures PositiveTiles(tiles) ==> ValidLayout(l, 4)
  {
    if nhwc then RsckToKcrsck(tiles) else KcrsToKcrsck(tiles)
  }

  /** With equal tiles the layouts as written are the intended ones. */
  lemma AsWrittenEqualTiles(tiles: seq<int>, nhwc: bool)
    requires |tiles| == 2 && tiles[0] == tiles[1]
    ensures ImageLayoutAsWritten(tiles, nhwc) == ImageLayout(tiles, nhwc)
    ensures FilterLayoutAsWritten(tiles, nhwc) == FilterLayout(tiles, nhwc)
  {
    assert tiles == [tiles[1], tiles[0]];
  }

  /** (N, K, P, Q, C, R, S) of a convolution, from its output and filter shapes. */
  function ConvSizes(out: seq<int>, fil: seq<int>, nhwc: bool): (r: seq<int>)
    requires |out| == 4 && |fil| == 4
    ensures |r| == 7
  {
    if nhwc then [out[0], out[3], out[1], out[2], fil[2], fil[0], fil[1]]
    else [out[0], out[1], out[2], out[3], fil[1], fil[2], fil[3]]
  }

  /** K is a whole number of tiles k = tiles[0] and C of tiles c = tiles[1]. */
  predicate ConvFullTiles(sizes: seq<int>, tiles: seq<int>) {
    && |sizes| == 7 && |tiles| == 2 && tiles[0] > 0 && tiles[1] > 0
    && sizes[1] >= 0 && sizes[4] >= 0
    && sizes[1] % tiles[0] == 0 && sizes[4] % tiles[1] == 0
  }

  /** The nine loop sizes N, K / k, P, Q, k, C / c, R, S, c. */
  function ConvDomain(sizes: seq<int>, tiles: seq<int>): (d: seq<int>)
    requires |sizes| == 7 && |tiles| == 2 && tiles[0] > 0 && tiles[1] > 0
    ensures |d| == 9
  {
    [sizes[0], sizes[1] / tiles[0], sizes[2], sizes[3], tiles[0], sizes[4] / tiles[1], sizes[5], sizes[6], tiles[1]]
  }

  /** The unpacked result of the packed convolution. */
  function PackedConv(img: Tensor, fil: Tensor, out: Tensor, tiles: seq<int>, nhwc: bool, sh: int, sw: int): (r: Tensor)
    requires |img.shape| == 4 && |fil.shape| == 4 && |out.shape| == 4
    requires |tiles| == 2 && PositiveTiles(tiles)
    ensures r.shape == out.shape
  {
    var domain := ConvDomain(ConvSizes(out.shape, fil.shape, nhwc), tiles);
    ConvGenericWellFormed(domain, sh, sw);
    var packed := Eval(ConvGeneric(domain, sh, sw), Pack(img, ImageLayout(tiles, nhwc)), Pack(fil, FilterLayout(tiles, nhwc)),
                       Pack(out, OutputLayout(tiles, nhwc)));
    Unpack(packed, OutputLayout(tiles, nhwc), out)
  }

  /** The products of the reference convolution at output channel k and spatial point (p, q). */
  function ConvTerms(img: Tensor, fil: Tensor, nhwc: bool, n: int, k: int, p: int, q: int, sh: int, sw: int): (int, int, int) -> int {
    if nhwc then NhwcTerms(img, fil, n, p, q, k, sh, sw) else NchwTerms(img, fil, n, k, p, q, sh, sw)
  }

  /** One product of the packed generic, read back in the unpacked image and filter. */
  lemma ConvTerm(img: Tensor, fil: Tensor, tiles: seq<int>, nhwc: bool, domain: seq<int>, sh: int, sw: int,
                 o0: int, o1: int, o2: int, o3: int, o4: int, x0: int, x1: int, x2: int, x3: int, k: int)
    requires |img.shape| == 4 && |fil.shape| == 4 && |domain| == 9
    requires |tiles| == 2 && PositiveTiles(tiles) && k == Flat(o1, tiles[0], o4)
    ensures WellFormedGeneric(ConvGeneric(domain, sh, sw))
    ensures Term(ConvGeneric(domain, sh, sw), Pack(img, ImageLayout(tiles, nhwc)), Pack(fil, FilterLayout(tiles, nhwc)),
                 [o0, o1, o2, o3, o4], [x0, x1, x2, x3])
         == ConvTerms(img, fil, nhwc, o0, k, o2, o3, sh, sw)(x1, x2, Flat(x0, tiles[1], x3))
  {
    var pi, pf := Pack(img, ImageLayout(tiles, nhwc)), Pack(fil, FilterLayout(tiles, nhwc));
    ConvTermIndices(domain, sh, sw, pi, pf, o0, o1, o2, o3, o4, x0, x1, x2, x3);
    ConvTermReads(img, fil, tiles, nhwc, sh, sw, o0, o1, o2, o3, o4, x0, x1, x2, x3, k);
  }

  /** The packed image and filter read back, at one loop point, the elements ConvTerms multiplies. */
  lemma ConvTermReads(img: Tensor, fil: Tensor, tiles: seq<int>, nhwc: bool, sh: int, sw: int,
                      o0: int, o1: int, o2: int, o3: int, o4: int, x0: int, x1: int, x2: int, x3: int, k: int)
    requires |img.shape| == 4 && |fil.shape| == 4
    requires |tiles| == 2 && PositiveTiles(tiles) && k == Flat(o1, tiles[0], o4)
    ensures Pack(img, ImageLayout(tiles, nhwc)).at([o0, x0, Flat(o2, sh, x1), Flat(o3, sw, x2), x3])
          * Pack(fil, FilterLayout(tiles, nhwc)).at([o1, x0, x1, x2, x3, o4])
         == ConvTerms(img, fil, nhwc, o0, k, o2, o3, sh, sw)(x1, x2, Flat(x0, tiles[1], x3))
  {
    var tk, tc := tiles[0], tiles[1];
    var h, w := Flat(o2, sh, x1), Flat(o3, sw, x2);
    if nhwc {
      NpqkRead(img, tc, o0, x0, h, w, x3);
      RsckRead(fil, tc, tk, o1, x0, x1, x2, x3, o4);
    } else {
      NchwRead(img, tc, o0, x0, h, w, x3);
      KcrsRead(fil, tc, tk, o1, x0, x1, x2, x3, o4);
    }
  }

  /**
   * The reduction at output point (o0, ..., o4) of the packed generic is the
   * reference window sum at output channel k = o1 * tiles[0] + o4, provided
   * the C' and c loops cover C exactly.
   */
  lemma ConvReduction(img: Tensor, fil: Tensor, tiles: seq<int>, nhwc: bool, domain: seq<int>, sh: int, sw: int,
                      o0: int, o1: int, o2: int, o3: int, o4: int, k: int,
                      g: Generic, pi: Tensor, pf: Tensor, o: seq<int>, h: (int, int, int) -> int)
    requires |img.shape| == 4 && |fil.shape| == 4 && |domain| == 9
    requires |tiles| == 2 && PositiveTiles(tiles) && k == Flat(o1, tiles[0], o4)
    requires domain[5] >= 0 && domain[8] == tiles[1]
    requires g == ConvGeneric(domain, sh, sw) && o == [o0, o1, o2, o3, o4]
    requires pi == Pack(img, ImageLayout(tiles, nhwc)) && pf == Pack(fil, FilterLayout(tiles, nhwc))
    requires h == ConvTerms(img, fil, nhwc, o0, k, o2, o3, sh, sw)
    ensures WellFormedGeneric(g)
    ensures SumBox(ReductionBounds(g), r => Term(g, pi, pf, o, r)) == WindowSum(h, domain[6], domain[7], domain[5] * tiles[1])
  {
    var cb: nat, tc: nat := domain[5], tiles[1];
    ConvReductionBounds(domain, sh, sw);
    var f := r => Term(g, pi, pf, o, r);
    forall x, r, s, y | 0 <= x < cb && 0 <= r < domain[6] && 0 <= s < domain[7] && 0 <= y < tc
      ensures f([x, r, s, y]) == h(r, s, Flat(x, tc, y))
    {
      ConvTerm(img, fil, tiles, nhwc, domain, sh, sw, o0, o1, o2, o3, o4, x, r, s, y, k);
    }
    SumBox4Blocked(cb, domain[6], domain[7], tc, f, h);
  }

  /** The output index (N, K, P, Q order of the convolution's sizes) of an output element. */
  function OutputPoint(idx: seq<int>, nhwc: bool): (r: seq<int>)
    requires |idx| == 4
    ensures |r| == 4
  {
    if nhwc then [idx[0], idx[3], idx[1], idx[2]] else idx
  }

  /** PackedConv, with its generic and packed operands named. */
  lemma PackedConvUnfold(img: Tensor, fil: Tensor, out: Tensor, tiles: seq<int>, nhwc: bool, sh: int, sw: int,
                         g: Generic, pi: Tensor, pf: Tensor, po: Tensor)
    requires |img.shape| == 4 && |fil.shape| == 4 && |out.shape| == 4
    requires |tiles| == 2 && PositiveTiles(tiles)
    requires g == ConvGeneric(ConvDomain(ConvSizes(out.shape, fil.shape, nhwc), tiles), sh, sw)
    requires pi == Pack(img, ImageLayout(tiles, nhwc)) && pf == Pack(fil, FilterLayout(tiles, nhwc))
    requires po == Pack(out, OutputLayout(tiles, nhwc))
    ensures WellFormedGeneric(g)
    ensures PackedConv(img, fil, out, tiles, nhwc, sh, sw) == Unpack(Eval(g, pi, pf, po), OutputLayout(tiles, nhwc), out)
  {
    ConvGenericWellFormed(g.domain, sh, sw);
  }

  /** Output element (n, p, q, k) sits at (n, k / t, p, q, k % t) of the NPQK -> NKPQk packing. */
  lemma NhwcOutputReadBack(out: Tensor, tile: int, n: int, p: int, q: int, k: int, idx: seq<int>, o: seq<int>)
    requires tile > 0 && |out.shape| == 4 && idx == [n, p, q, k] && InBox(idx, out.shape)
    requires o == [n, k / tile, p, q, k % tile]
    ensures PackedIndex(NpqkToNkpqk(tile), idx) == o && Pack(out, NpqkToNkpqk(tile)).at(o) == out.at(idx)
  {
    NpqkPackedIndex(tile, n, p, q, k);
    NpqkReadBack(out, tile, n, p, q, k);
  }

  /** Output element (n, k, p, q) sits at (n, k / t, p, q, k % t) of the NCHW -> NCHWc packing. */
  lemma NchwOutputReadBack(out: Tensor, tile: int, n: int, k: int, p: int, q: int, idx: seq<int>, o: seq<int>)
    requires tile > 0 && |out.shape| == 4 && idx == [n, k, p, q] && InBox(idx, out.shape)
    requires o == [n, k / tile, p, q, k % tile]
    ensures PackedIndex(NchwToNchwc(tile), idx) == o && Pack(out, NchwToNchwc(tile)).at(o) == out.at(idx)
  {
    NchwPackedIndex(tile, n, k, p, q);
    NchwReadBack(out, tile, n, k, p, q);
  }

  /** The packed index of an output element, and the packed output holds the element there. */
  lemma OutputReadBack(out: Tensor, tiles: seq<int>, nhwc: bool, idx: seq<int>, o: seq<int>)
    requires |out.shape| == 4 && |tiles| == 2 && PositiveTiles(tiles) && |idx| == 4 && InBox(idx, out.shape)
    requires var x := OutputPoint(idx, nhwc); o == [x[0], x[1] / tiles[0], x[2], x[3], x[1] % tiles[0]]
    ensures PackedIndex(OutputLayout(tiles, nhwc), idx) == o && Pack(out, OutputLayout(tiles, nhwc)).at(o) == out.at(idx)
  {
    assert idx == [idx[0], idx[1], idx[2], idx[3]];
    if nhwc {
      NhwcOutputReadBack(out, tiles[0], idx[0], idx[1], idx[2], idx[3], idx, o);
    } else {
      NchwOutputReadBack(out, tiles[0], idx[0], idx[1], idx[2], idx[3], idx, o);
    }
  }

  /** The parts of one output element of the packed convolution: its loop point, the packed generic,
      the packed operands, its packed index and the reference terms of its window. */
  ghost predicate ConvPoint(img: Tensor, fil: Tensor, out: Tensor, tiles: seq<int>, nhwc: bool, sh: int, sw: int,
                            idx: seq<int>, sizes: seq<int>, x: seq<int>, g: Generic, pi: Tensor, pf: Tensor, o: seq<int>,
                            h: (int, int, int) -> int)
  {
    && |img.shape| == 4 && |fil.shape| == 4 && |out.shape| == 4
    && |idx| == 4 && InBox(idx, out.shape)
    && sizes == ConvSizes(out.shape, fil.shape, nhwc) && ConvFullTiles(sizes, tiles)
    && PositiveTiles(tiles)
    && x == OutputPoint(idx, nhwc) && |x| == 4
    && g == ConvGeneric(ConvDomain(sizes, tiles), sh, sw)
    && pi == Pack(img, ImageLayout(tiles, nhwc)) && pf == Pack(fil, FilterLayout(tiles, nhwc))
    && o == [x[0], x[1] / tiles[0], x[2], x[3], x[1] % tiles[0]]
    && h == ConvTerms(img, fil, nhwc, x[0], x[1], x[2], x[3], sh, sw)
  }

  /** An element of the unpacked result: the output element plus the reduction at its packed index. */
  lemma PackedConvAt(img: Tensor, fil: Tensor, out: Tensor, tiles: seq<int>, nhwc: bool, sh: int, sw: int,
                     idx: seq<int>, sizes: seq<int>, x: seq<int>, g: Generic, pi: Tensor, pf: Tensor, o: seq<int>,
                     h: (int, int, int) -> int)
    requires ConvPoint(img, fil, out, tiles, nhwc, sh, sw, idx, sizes, x, g, pi, pf, o, h)
    ensures WellFormedGeneric(g)
    ensures PackedConv(img, fil, out, tiles, nhwc, sh, sw).at(idx) == out.at(idx) + SumBox(ReductionBounds(g), r => Term(g, pi, pf, o, r))
  {
    var lo := OutputLayout(tiles, nhwc);
    PackedConvUnfold(img, fil, out, tiles, nhwc, sh, sw, g, pi, pf, Pack(out, lo));
    OutputReadBack(out, tiles, nhwc, idx, o);
    UnpackEvalAt(g, pi, pf, out, lo, idx, o);
  }

  /** The reduction at the packed index of an output element is the reference window sum there. */
  lemma ConvReductionAt(img: Tensor, fil: Tensor, out: Tensor, tiles: seq<int>, nhwc: bool, sh: int, sw: int,
                        idx: seq<int>, sizes: seq<int>, x: seq<int>, g: Generic, pi: Tensor, pf: Tensor, o: seq<int>,
                        h: (int, int, int) -> int)
    requires ConvPoint(img, fil, out, tiles, nhwc, sh, sw, idx, sizes, x, g, pi, pf, o, h)
    ensures WellFormedGeneric(g)
    ensures SumBox(ReductionBounds(g), r => Term(g, pi, pf, o, r)) == WindowSum(h, sizes[5], sizes[6], sizes[4])
  {
    var tk := tiles[0];
    DivModRecombine(x[1], tk);
    ExactTiles(sizes[4], tiles[1]);
    ConvReduction(img, fil, tiles, nhwc, g.domain, sh, sw, x[0], x[1] / tk, x[2], x[3], x[1] % tk, x[1], g, pi, pf, o, h);
  }

  /** The reference convolution of the given form. */
  function ConvRef(img: Tensor, fil: Tensor, out: Tensor, nhwc: bool, sh: int, sw: int): Tensor
    requires |fil.shape| == 4
  {
    if nhwc then ConvNhwcHwcf(img, fil, out, sh, sw) else ConvNchwFchw(img, fil, out, sh, sw)
  }

  /** An element of the reference convolution: the output element plus the window sum of its products. */
  lemma ConvRefAt(img: Tensor, fil: Tensor, out: Tensor, nhwc: bool, sh: int, sw: int, idx: seq<int>)
    requires |fil.shape| == 4 && |out.shape| == 4 && |idx| == 4
    ensures var x := OutputPoint(idx, nhwc); var sizes := ConvSizes(out.shape, fil.shape, nhwc);
      ConvRef(img, fil, out, nhwc, sh, sw).at(idx)
        == out.at(idx) + WindowSum(ConvTerms(img, fil, nhwc, x[0], x[1], x[2], x[3], sh, sw), sizes[5], sizes[6], sizes[4])
  {
  }

  /** An element of the unpacked result: the output element plus the reference window sum there. */
  lemma PackedConvWindow(img: Tensor, fil: Tensor, out: Tensor, tiles: seq<int>, nhwc: bool, sh: int, sw: int, idx: seq<int>)
    requires |img.shape| == 4 && |fil.shape| == 4 && |out.shape| == 4
    requires ConvFullTiles(ConvSizes(out.shape, fil.shape, nhwc), tiles)
    requires |idx| == 4 && InBox(idx, out.shape)
    ensures var x := OutputPoint(idx, nhwc); var sizes := ConvSizes(out.shape, fil.shape, nhwc);
      PackedConv(img, fil, out, tiles, nhwc, sh, sw).at(idx)
        == out.at(idx) + WindowSum(ConvTerms(img, fil, nhwc, x[0], x[1], x[2], x[3], sh, sw), sizes[5], sizes[6], sizes[4])
  {
    var sizes := ConvSizes(out.shape, fil.shape, nhwc);
    var x := OutputPoint(idx, nhwc);
    PackedConvWindowAt(img, fil, out, tiles, nhwc, sh, sw, idx, sizes, x,
                       ConvGeneric(ConvDomain(sizes, tiles), sh, sw),
                       Pack(img, ImageLayout(tiles, nhwc)), Pack(fil, FilterLayout(tiles, nhwc)),
                       [x[0], x[1] / tiles[0], x[2], x[3], x[1] % tiles[0]],
                       ConvTerms(img, fil, nhwc, x[0], x[1], x[2], x[3], sh, sw));
  }

  /** PackedConvWindow on the named parts: the packed generic, the packed operands, the packed index and the terms. */
  lemma PackedConvWindowAt(img: Tensor, fil: Tensor, out: Tensor, tiles: seq<int>, nhwc: bool, sh: int, sw: int,
                           idx: seq<int>, sizes: seq<int>, x: seq<int>, g: Generic, pi: Tensor, pf: Tensor, o: seq<int>,
                           h: (int, int, int) -> int)
    requires ConvPoint(img, fil, out, tiles, nhwc, sh, sw, idx, sizes, x, g, pi, pf, o, h)
    ensures |sizes| == 7
    ensures PackedConv(img, fil, out, tiles, nhwc, sh, sw).at(idx) == out.at(idx) + WindowSum(h, sizes[5], sizes[6], sizes[4])
  {
    PackedConvAt(img, fil, out, tiles, nhwc, sh, sw, idx, sizes, x, g, pi, pf, o, h);
    ConvReductionAt(img, fil, out, tiles, nhwc, sh, sw, idx, sizes, x, g, pi, pf, o, h);
  }

  /** One element of the unpacked result is the reference convolution's. */
  lemma PackedConvElement(img: Tensor, fil: Tensor, out: Tensor, tiles: seq<int>, nhwc: bool, sh: int, sw: int, idx: seq<int>)
    requires |img.shape| == 4 && |fil.shape| == 4 && |out.shape| == 4
    requires ConvFullTiles(ConvSizes(out.shape, fil.shape, nhwc), tiles)
    requires |idx| == 4 && InBox(idx, out.shape)
    ensures PackedConv(img, fil, out, tiles, nhwc, sh, sw).at(idx) == ConvRef(img, fil, out, nhwc, sh, sw).at(idx)
  {
    ConvRefAt(img, fil, out, nhwc, sh, sw, idx);
    PackedConvWindow(img, fil, out, tiles, nhwc, sh, sw, idx);
  }

  /**
   * packConvolutions preserves the convolution: with whole tiles on K and
   * C, unpacking the packed generic's result gives the reference
   * convolution of either form.
   */
  lemma PackedConvIsConv(img: Tensor, fil: Tensor, out: Tensor, tiles: seq<int>, nhwc: bool, sh: int, sw: int)
    requires |img.shape| == 4 && |fil.shape| == 4 && |out.shape| == 4
    requires ConvFullTiles(ConvSizes(out.shape, fil.shape, nhwc), tiles)
    ensures Equiv(PackedConv(img, fil, out, tiles, nhwc, sh, sw), ConvRef(img, fil, out, nhwc, sh, sw))
  {
    forall idx | InBox(idx, out.shape)
      ensures PackedConv(img, fil, out, tiles, nhwc, sh, sw).at(idx) == ConvRef(img, fil, out, nhwc, sh, sw).at(idx)
    {
      PackedConvElement(img, fil, out, tiles, nhwc, sh, sw, idx);
    }
  }
}
