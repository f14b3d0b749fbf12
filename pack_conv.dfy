/**
 * `packConv2DNhwcHwcfOp` and `packConv2DNchwFchwOp` of
 * lib/TPP/ToBlockLayoutAndBack.cpp on the program graph: a 2-D convolution
 * with two tile factors becomes pack(image), pack(filter), pack(output), a
 * nine-loop `linalg.generic` that takes over the convolution's body and its
 * "metadata" attribute, and an unpack of the generic's result into the
 * output, which replaces the convolution.
 *
 * The full-tile check reads the tiles as (k, c): the first against the
 * output channels K, the second against the input channels C. The packs
 * read them differently: the image's C and the output's K by the first
 * tile, the filter's C by the first and its K by the second. The two
 * readings agree only when both tiles are equal; ConvTilesMismatch exhibits
 * the malformed generic the rewrite builds otherwise, and the rest of the
 * model uses the layouts of the (k, c) reading.
 */
module PackConv {
  import opened Wrappers
  import opened Sums
  import opened Affine
  import opened Tensors
  import opened TensorPack
  import opened TppLayouts
  import opened Contraction
  import opened ConvPacking
  import opened Ir
  import opened LayoutOps
  import opened PackRewrite

  predicate IsConv(kind: OpKind) {
    kind.ConvNhwcHwcf? || kind.ConvNchwFchw?
  }

  /** The strides attribute when present (it then holds two values), (1, 1) otherwise. */
  function ConvStrides(kind: OpKind): (s: seq<int>)
    requires IsConv(kind)
    ensures kind.convStrides.Some? ==> s == kind.convStrides.value
    ensures kind.convStrides.None? ==> s == [1, 1]
  {
    if kind.convStrides.Some? then kind.convStrides.value else [1, 1]
  }

  /** The dilations attribute when present (it then holds two values), (1, 1) otherwise. */
  function ConvDilations(kind: OpKind): (d: seq<int>)
    requires IsConv(kind)
    ensures kind.convDilations.Some? ==> d == kind.convDilations.value
    ensures kind.convDilations.None? ==> d == [1, 1]
  {
    if kind.convDilations.Some? then kind.convDilations.value else [1, 1]
  }

  /** What the convolution op computes, with its own strides and dilations. */
  function ConvOf(img: Tensor, fil: Tensor, out: Tensor, kind: OpKind): Tensor
    requires IsConv(kind) && |fil.shape| == 4 && |ConvStrides(kind)| == 2 && |ConvDilations(kind)| == 2
  {
    var s, d := ConvStrides(kind), ConvDilations(kind);
    if kind.ConvNhwcHwcf? then DilatedConvNhwcHwcf(img, fil, out, s[0], s[1], d[0], d[1])
    else DilatedConvNchwFchw(img, fil, out, s[0], s[1], d[0], d[1])
  }

  /**
   * A convolution as its verifier leaves it: image and filter inputs and one
   * init, all of rank 4, all on tensors or all on buffers, never its own
   * operand, on tensors one result of the init's type, and strides and
   * dilations attributes, when present, of two values each.
   */
  predicate ConvLike(p: Program, root: OpId) {
    && root in p.ops
    && IsConv(p.ops[root].kind)
    && (p.ops[root].kind.convStrides.Some? ==> |p.ops[root].kind.convStrides.value| == 2)
    && (p.ops[root].kind.convDilations.Some? ==> |p.ops[root].kind.convDilations.value| == 2)
    && |p.ops[root].inputs| == 2 && |p.ops[root].inits| == 1
    && (forall v :: v in Operands(p.ops[root]) ==>
          && TypeOf(p, v).Some? && !TypeOf(p, v).value.ScalarType?
          && |TypeOf(p, v).value.shape| == 4
          && !(v.OpResult? && v.op == root))
    && (HasTensorSemantics(p, p.ops[root]) || HasBufferSemantics(p, p.ops[root]))
    && (HasTensorSemantics(p, p.ops[root]) ==> p.ops[root].results == [TypeOf(p, p.ops[root].inits[0]).value])
  }

  /** The loops the full-tile check looks at: K and C of the iteration domain. */
  function ConvTileDims(kind: OpKind): seq<nat> {
    if kind.ConvNhwcHwcf? then [3, 6] else [1, 4]
  }

  /**
   * The checks in the order they run: full tiles first (in the entry
   * points), then the tile count, the static shape and tensor semantics
   * (in packConvolutions).
   */
  function PackConvCheck(p: Program, op: Op, tiles: seq<int>): Outcome<()> {
    if !FullTilesOnDims(LoopBounds(p, op), tiles, ConvTileDims(op.kind)) then Failure("expect full tiles only")
    else if |tiles| != 2 then Failure("require 2 tile factors")
    else if HasDynamicShape(p, op) then Failure("require static shape")
    else if HasBufferSemantics(p, op) then Failure("require tensor semantics")
    else Success(())
  }

  /** (N, K, P, Q, C, R, S) of the convolution, from its output and filter. */
  function OpConvSizes(p: Program, op: Op): (r: seq<int>)
    ensures |r| == 7
  {
    var fil := OperandShape(p, op, 1);
    var out := OperandShape(p, op, 2);
    if |out| == 4 && |fil| == 4 then ConvSizes(out, fil, op.kind.ConvNhwcHwcf?) else [-1, -1, -1, -1, -1, -1, -1]
  }

  /**
   * The rewrite applies exactly to a static convolution on tensors with two
   * tiles, the first dividing K and the second dividing C.
   */
  lemma PackConvCheckSucceeds(p: Program, root: OpId, tiles: seq<int>)
    requires ConvLike(p, root)
    ensures PackConvCheck(p, p.ops[root], tiles).Success? <==>
      && !HasDynamicShape(p, p.ops[root]) && HasTensorSemantics(p, p.ops[root])
      && ConvFullTiles(OpConvSizes(p, p.ops[root]), tiles)
    ensures PackConvCheck(p, p.ops[root], tiles).Success? ==> |tiles| == 2 && PositiveTiles(tiles)
  {
    var op := p.ops[root];
    assert Operands(op)[1] == op.inputs[1] && Operands(op)[2] == op.inits[0];
    assert op.inputs[1] in Operands(op) && op.inits[0] in Operands(op);
    var s := OpConvSizes(p, op);
    var bounds := LoopBounds(p, op);
    var dims := ConvTileDims(op.kind);
    assert bounds[dims[0]] == s[1] && bounds[dims[1]] == s[4];
    if |tiles| == 2 && FullTilesOnDims(bounds, tiles, dims) {
      assert tiles[0] > 0 && tiles[1] > 0;
    }
    if ConvFullTiles(s, tiles) {
      forall k | 0 <= k < |dims|
        ensures dims[k] < |bounds| && tiles[k] > 0 && bounds[dims[k]] >= 0 && bounds[dims[k]] % tiles[k] == 0
      {
        assert k == 0 || k == 1;
      }
    }
  }

  /** The layouts packConvolutions builds, as written: image, filter, output. */
  function ConvLayoutsAsWritten(tiles: seq<int>, nhwc: bool): Layouts
    requires |tiles| == 2
  {
    Layouts(ImageLayoutAsWritten(tiles, nhwc), FilterLayoutAsWritten(tiles, nhwc), OutputLayout(tiles, nhwc))
  }

  /** The layouts of the (k, c) reading of the tiles, the one the full-tile check makes. */
  function ConvLayouts(tiles: seq<int>, nhwc: bool): Layouts
    requires |tiles| == 2
  {
    Layouts(ImageLayout(tiles, nhwc), FilterLayout(tiles, nhwc), OutputLayout(tiles, nhwc))
  }

  /** The blocked generic's kind: the maps and iterators of the packed convolution with strides (sh, sw). */
  function PackedConvKind(sh: int, sw: int): OpKind {
    GenericKind(ConvGeneric([], sh, sw))
  }

  /** Once the checks pass, the operands fit the layouts, as written or as read by the check. */
  lemma ConvPartsFit(p: Program, root: OpId, tiles: seq<int>)
    requires ConvLike(p, root) && Closed(p)
    requires PackConvCheck(p, p.ops[root], tiles).Success?
    ensures TwoInputsOneInit(p, root) && |tiles| == 2 && PositiveTiles(tiles)
    ensures Fits(PartsOf(p, root), ConvLayoutsAsWritten(tiles, p.ops[root].kind.ConvNhwcHwcf?))
    ensures Fits(PartsOf(p, root), ConvLayouts(tiles, p.ops[root].kind.ConvNhwcHwcf?))
  {
    PackConvCheckSucceeds(p, root, tiles);
    var op := p.ops[root];
    assert op.inputs[0] in Operands(op) && op.inputs[1] in Operands(op) && op.inits[0] in Operands(op);
  }

  /**
   * The graph after the rewrite, built with the given layouts, with new ops
   * n .. n + 7 (the empty destinations and packs of image, filter and output,
   * the generic, the unpack); the generic carries the convolution's
   * "metadata" attribute when it has one.
   */
  function PackConvRewriteWith(p: Program, root: OpId, tiles: seq<int>, n: OpId, ls: Layouts): Program
    requires ConvLike(p, root) && Closed(p) && FreshFrom(p, n)
    requires PackConvCheck(p, p.ops[root], tiles).Success?
    requires Fits(PartsOf(p, root), ls)
  {
    ConvPartsFit(p, root, tiles);
    var s := ConvStrides(p.ops[root].kind);
    PackedGraph(p, root, PartsOf(p, root), ls, PackedConvKind(s[0], s[1]), CopiedAttrs(p.ops[root], true), n)
  }

  /** The graph the source builds: the layouts as written. */
  function PackConvRewriteAsWritten(p: Program, root: OpId, tiles: seq<int>, n: OpId): Program
    requires ConvLike(p, root) && Closed(p) && FreshFrom(p, n)
    requires PackConvCheck(p, p.ops[root], tiles).Success?
  {
    ConvPartsFit(p, root, tiles);
    PackConvRewriteWith(p, root, tiles, n, ConvLayoutsAsWritten(tiles, p.ops[root].kind.ConvNhwcHwcf?))
  }

  /** The graph with the layouts of the (k, c) reading; it is the one above whenever the two tiles are equal. */
  function PackConvRewrite(p: Program, root: OpId, tiles: seq<int>, n: OpId): Program
    requires ConvLike(p, root) && Closed(p) && FreshFrom(p, n)
    requires PackConvCheck(p, p.ops[root], tiles).Success?
  {
    ConvPartsFit(p, root, tiles);
    PackConvRewriteWith(p, root, tiles, n, ConvLayouts(tiles, p.ops[root].kind.ConvNhwcHwcf?))
  }

  /** Where the tiles are equal the rewrite as written and the corrected one build the same graph. */
  lemma PackConvRewriteEqualTiles(p: Program, root: OpId, tiles: seq<int>, n: OpId)
    requires ConvLike(p, root) && Closed(p) && FreshFrom(p, n)
    requires PackConvCheck(p, p.ops[root], tiles).Success? && tiles[0] == tiles[1]
    ensures PackConvRewriteAsWritten(p, root, tiles, n) == PackConvRewrite(p, root, tiles, n)
  {
    ConvPartsFit(p, root, tiles);
    var nhwc := p.ops[root].kind.ConvNhwcHwcf?;
    AsWrittenEqualTiles(tiles, nhwc);
    assert ConvLayoutsAsWritten(tiles, nhwc) == ConvLayouts(tiles, nhwc);
  }

  /**
   * The shared body of the two entry points: on failure the graph is
   * untouched and the message is the source's; on success the graph is
   * PackConvRewriteWith the given layouts and the result is the new generic.
   */
  method PackConvolutionWith(rw: Rewriter, root: OpId, tiles: seq<int>, ls: Layouts) returns (r: Outcome<OpId>)
    requires rw.Valid() && Closed(rw.State()) && ConvLike(rw.State(), root)
    requires PackConvCheck(rw.State(), rw.ops[root], tiles).Success? ==> Fits(PartsOf(rw.State(), root), ls)
    modifies rw
    ensures rw.Valid()
    ensures r.Failure? <==> PackConvCheck(old(rw.State()), old(rw.ops[root]), tiles).Failure?
    ensures r.Failure? ==>
      r.reason == PackConvCheck(old(rw.State()), old(rw.ops[root]), tiles).reason && rw.State() == old(rw.State())
    ensures r.Success? ==>
      r.value == old(rw.next) + 6 && rw.State() == PackConvRewriteWith(old(rw.State()), root, tiles, old(rw.next), ls)
  {
    var op := rw.ops[root];
    var p := rw.State();
    if !FullTilesOnDims(LoopBounds(rw.State(), op), tiles, ConvTileDims(op.kind)) {
      return Failure("expect full tiles only");
    }
    if |tiles| != 2 {
      return Failure("require 2 tile factors");
    }
    if HasDynamicShape(rw.State(), op) {
      return Failure("require static shape");
    }
    if HasBufferSemantics(rw.State(), op) {
      return Failure("require tensor semantics");
    }
    ConvPartsFit(p, root, tiles);
    var m := PartsOf(p, root);
    assert |op.results| == 1;
    var s := ConvStrides(op.kind);
    var gen := ApplyPacking(rw, root, m, ls, PackedConvKind(s[0], s[1]), true);
    r := Success(gen);
  }

  /** packConv2DNhwcHwcfOp / packConv2DNchwFchwOp as the source builds them. */
  method PackConvOpAsWritten(rw: Rewriter, root: OpId, tiles: seq<int>) returns (r: Outcome<OpId>)
    requires rw.Valid() && Closed(rw.State()) && ConvLike(rw.State(), root)
    modifies rw
    ensures rw.Valid()
    ensures r.Failure? <==> PackConvCheck(old(rw.State()), old(rw.ops[root]), tiles).Failure?
    ensures r.Failure? ==>
      r.reason == PackConvCheck(old(rw.State()), old(rw.ops[root]), tiles).reason && rw.State() == old(rw.State())
    ensures r.Success? ==>
      r.value == old(rw.next) + 6 && rw.State() == PackConvRewriteAsWritten(old(rw.State()), root, tiles, old(rw.next))
  {
    var nhwc := rw.ops[root].kind.ConvNhwcHwcf?;
    if PackConvCheck(rw.State(), rw.ops[root], tiles).Success? {
      ConvPartsFit(rw.State(), root, tiles);
    }
    if |tiles| == 2 {
      r := PackConvolutionWith(rw, root, tiles, ConvLayoutsAsWritten(tiles, nhwc));
    } else {
      r := PackConvolutionWith(rw, root, tiles, Layouts(Layout([], [], []), Layout([], [], []), Layout([], [], [])));
    }
  }

  /** The same with the layouts of the (k, c) reading of the tiles. */
  method PackConvOp(rw: Rewriter, root: OpId, tiles: seq<int>) returns (r: Outcome<OpId>)
    requires rw.Valid() && Closed(rw.State()) && ConvLike(rw.State(), root)
    modifies rw
    ensures rw.Valid()
    ensures r.Failure? <==> PackConvCheck(old(rw.State()), old(rw.ops[root]), tiles).Failure?
    ensures r.Failure? ==>
      r.reason == PackConvCheck(old(rw.State()), old(rw.ops[root]), tiles).reason && rw.State() == old(rw.State())
    ensures r.Success? ==>
      r.value == old(rw.next) + 6 && rw.State() == PackConvRewrite(old(rw.State()), root, tiles, old(rw.next))
  {
    var nhwc := rw.ops[root].kind.ConvNhwcHwcf?;
    if PackConvCheck(rw.State(), rw.ops[root], tiles).Success? {
      ConvPartsFit(rw.State(), root, tiles);
    }
    if |tiles| == 2 {
      r := PackConvolutionWith(rw, root, tiles, ConvLayouts(tiles, nhwc));
    } else {
      r := PackConvolutionWith(rw, root, tiles, Layouts(Layout([], [], []), Layout([], [], []), Layout([], [], [])));
    }
  }

  /**
   * The rewrite keeps the graph closed, given what SSA dominance provides:
   * the unpack destination is not a result of the convolution itself.
   */
  lemma PackConvRewriteClosed(p: Program, root: OpId, tiles: seq<int>, n: OpId)
    requires ConvLike(p, root) && Closed(p) && FreshFrom(p, n)
    requires PackConvCheck(p, p.ops[root], tiles).Success?
    requires var d := UnpackDest(p, p.ops[root].inits[0]); !(d.OpResult? && d.op == root)
    ensures Closed(PackConvRewrite(p, root, tiles, n))
    ensures Closed(PackConvRewriteAsWritten(p, root, tiles, n))
  {
    ConvPartsFit(p, root, tiles);
    var m := PartsOf(p, root);
    var op := p.ops[root];
    assert |op.results| == 1;
    var nhwc := op.kind.ConvNhwcHwcf?;
    var s := ConvStrides(op.kind);
    PackedGraphClosed(p, root, m, ConvLayouts(tiles, nhwc), PackedConvKind(s[0], s[1]), CopiedAttrs(op, true), n);
    PackedGraphClosed(p, root, m, ConvLayoutsAsWritten(tiles, nhwc), PackedConvKind(s[0], s[1]), CopiedAttrs(op, true), n);
  }

  /**
   * What the corrected rewrite computes: on tensors of the operands' static
   * shapes, the blocked generic between the packs and the unpack yields the
   * convolution's result, with the op's strides, for a convolution with unit
   * dilations (the generic's image map has no dilation term).
   */
  lemma PackConvPreservesConv(p: Program, root: OpId, tiles: seq<int>, img: Tensor, fil: Tensor, out: Tensor)
    requires ConvLike(p, root) && PackConvCheck(p, p.ops[root], tiles).Success?
    requires ConvDilations(p.ops[root].kind) == [1, 1]
    requires |img.shape| == 4 && fil.shape == OperandShape(p, p.ops[root], 1) && out.shape == OperandShape(p, p.ops[root], 2)
    ensures var nhwc := p.ops[root].kind.ConvNhwcHwcf?; var s := ConvStrides(p.ops[root].kind);
      |fil.shape| == 4 && |out.shape| == 4 && |tiles| == 2 && PositiveTiles(tiles) &&
      Equiv(PackedConv(img, fil, out, tiles, nhwc, s[0], s[1]), ConvRef(img, fil, out, nhwc, s[0], s[1])) &&
      Equiv(PackedConv(img, fil, out, tiles, nhwc, s[0], s[1]), ConvOf(img, fil, out, p.ops[root].kind))
  {
    PackConvCheckSucceeds(p, root, tiles);
    var op := p.ops[root];
    assert op.inputs[1] in Operands(op) && op.inits[0] in Operands(op);
    assert Operands(op)[1] == op.inputs[1] && Operands(op)[2] == op.inits[0];
    var s := ConvStrides(op.kind);
    var nhwc := op.kind.ConvNhwcHwcf?;
    PackedConvIsConv(img, fil, out, tiles, nhwc, s[0], s[1]);
    UnitDilationConv(img, fil, out, s[0], s[1]);
    var packed, conv := PackedConv(img, fil, out, tiles, nhwc, s[0], s[1]), ConvOf(img, fil, out, op.kind);
    forall idx | InBox(idx, out.shape) ensures packed.at(idx) == conv.at(idx) {
      assert packed.at(idx) == ConvRef(img, fil, out, nhwc, s[0], s[1]).at(idx);
    }
  }

  /** The checks never look at the dilations: a dilated convolution passes exactly when the undilated one does. */
  lemma PackConvCheckIgnoresDilations(p: Program, root: OpId, tiles: seq<int>, d: Option<seq<int>>)
    requires root in p.ops && IsConv(p.ops[root].kind)
    ensures PackConvCheck(p, p.ops[root].(kind := p.ops[root].kind.(convDilations := d)), tiles)
         == PackConvCheck(p, p.ops[root], tiles)
  {
    var op := p.ops[root];
    var op2 := op.(kind := op.kind.(convDilations := d));
    assert Operands(op2) == Operands(op);
    assert LoopBounds(p, op2) == LoopBounds(p, op);
    assert ConvTileDims(op2.kind) == ConvTileDims(op.kind);
    assert HasDynamicShape(p, op2) == HasDynamicShape(p, op);
    assert HasBufferSemantics(p, op2) == HasBufferSemantics(p, op);
  }

  /**
   * The rewrite on a dilated convolution: an NHWC image whose element at
   * row h is h, a 2 x 1 window of ones, dilations (2, 2), one output point
   * and tiles (1, 1). The full-tile check passes, and the packed generic
   * sums rows 0 and 1 (1) where the dilated convolution sums rows 0 and 2 (2).
   */
  lemma DilatedConvMiscomputed(img: Tensor, fil: Tensor, out: Tensor)
    requires img.shape == [1, 3, 1, 1] && forall h :: 0 <= h < 3 ==> img.at([0, h, 0, 0]) == h
    requires fil.shape == [2, 1, 1, 1] && fil.at([0, 0, 0, 0]) == 1 && fil.at([1, 0, 0, 0]) == 1
    requires out.shape == [1, 1, 1, 1] && out.at([0, 0, 0, 0]) == 0
    ensures ConvFullTiles(ConvSizes(out.shape, fil.shape, true), [1, 1])
    ensures PackedConv(img, fil, out, [1, 1], true, 1, 1).at([0, 0, 0, 0]) == 1
    ensures DilatedConvNhwcHwcf(img, fil, out, 1, 1, 2, 2).at([0, 0, 0, 0]) == 2
  {
    assert ConvSizes(out.shape, fil.shape, true) == [1, 1, 1, 1, 1, 2, 1];
    PackedConvIsConv(img, fil, out, [1, 1], true, 1, 1);
    DilationChangesConv(img, fil, out);
  }

  /**
   * The rewrite as written with tiles (2, 1) on an NHWC convolution with
   * K = 2 and C = 1, which the full-tile check accepts: the packed filter
   * gives the K' loop 2 iterations, the packed output 1, so no iteration
   * domain fits the generic's operands.
   */
  lemma ConvTilesMismatch(domain: seq<int>)
    requires |domain| == 9
    ensures ConvFullTiles(ConvSizes([1, 1, 1, 2], [1, 1, 1, 2], true), [2, 1])
    ensures var ls := ConvLayoutsAsWritten([2, 1], true);
      !ShapesAgree(ConvGeneric(domain, 1, 1), PackedShape([1, 1, 1, 1], ls.a),
                   PackedShape([1, 1, 1, 2], ls.b), PackedShape([1, 1, 1, 2], ls.c))
  {
    ConvTilesMismatchFull();
    ConvTilesMismatchShapes(domain);
  }

  /** On the example the factors divide the channel sizes, so the pattern goes ahead. */
  lemma ConvTilesMismatchFull()
    ensures ConvFullTiles(ConvSizes([1, 1, 1, 2], [1, 1, 1, 2], true), [2, 1])
  {
    var sizes := ConvSizes([1, 1, 1, 2], [1, 1, 1, 2], true);
    assert sizes == [1, 2, 1, 1, 1, 1, 1];
    assert sizes[1] % 2 == 0 && sizes[4] % 1 == 0;
  }

  /** On the example the packed filter and output disagree on the size of K'. */
  lemma ConvTilesMismatchShapes(domain: seq<int>)
    requires |domain| == 9
    ensures var ls := ConvLayoutsAsWritten([2, 1], true);
      !ShapesAgree(ConvGeneric(domain, 1, 1), PackedShape([1, 1, 1, 1], ls.a),
                   PackedShape([1, 1, 1, 2], ls.b), PackedShape([1, 1, 1, 2], ls.c))
  {
    var ls := ConvLayoutsAsWritten([2, 1], true);
    assert ls.b == RsckToKcrsck([2, 1]) && ls.c == NpqkToNkpqk(2);
    var fb := PackedShape([1, 1, 1, 2], ls.b);
    var fc := PackedShape([1, 1, 1, 2], ls.c);
    assert fb[0] == 2 by {
      RsckShape([1, 1, 1, 2], 2, 1);
      assert CeilDiv(2, 1) == 2;
    }
    assert fc[1] == 1 by {
      NpqkShape([1, 1, 1, 2], 2);
      assert CeilDiv(2, 2) == 1;
    }
    NoDomainFits(domain, 1, 1, PackedShape([1, 1, 1, 1], ls.a), fb, fc);
  }

  /** The filter and the output give the K' loop different sizes: no domain fits both. */
  lemma NoDomainFits(d: seq<int>, sh: int, sw: int, a: seq<int>, b: seq<int>, c: seq<int>)
    requires |d| == 9 && |b| >= 1 && |c| >= 2 && b[0] != c[1]
    ensures !ShapesAgree(ConvGeneric(d, sh, sw), a, b, c)
  {
    var g := ConvGeneric(d, sh, sw);
    assert g.mapB.results[0] == Dim(1) && g.mapC.results[1] == Dim(1);
  }

  /** Operand shapes that fit the nine-loop convolution generic over domain d. */
  lemma ConvFits(d: seq<int>, sh: int, sw: int, a: seq<int>, b: seq<int>, c: seq<int>)
    requires |d| == 9 && |a| == 5 && a[0] == d[0] && a[1] == d[5] && a[4] == d[8]
    requires b == [d[1], d[5], d[6], d[7], d[8], d[4]] && c == [d[0], d[1], d[2], d[3], d[4]]
    ensures ShapesAgree(ConvGeneric(d, sh, sw), a, b, c)
  {
    var g := ConvGeneric(d, sh, sw);
    assert g.mapA.results == [Dim(0), Dim(5), Add(Mul(Dim(2), sh), Dim(6)), Add(Mul(Dim(3), sw), Dim(7)), Dim(8)];
    assert g.mapB.results == [Dim(1), Dim(5), Dim(6), Dim(7), Dim(8), Dim(4)];
    assert g.mapC.results == [Dim(0), Dim(1), Dim(2), Dim(3), Dim(4)];
  }

  /**
   * With the (k, c) reading every operand fits the generic: on a convolution
   * whose image, filter and output agree on N, C and K and whose K and C are
   * whole tiles, the packed shapes fit the nine-loop domain.
   */
  lemma ConvShapesAgree(img: seq<int>, fil: seq<int>, out: seq<int>, tiles: seq<int>, nhwc: bool, sh: int, sw: int)
    requires |img| == 4 && |fil| == 4 && |out| == 4
    requires ConvFullTiles(ConvSizes(out, fil, nhwc), tiles)
    requires nhwc ==> img[0] == out[0] && img[3] == fil[2] && fil[3] == out[3]
    requires !nhwc ==> img[0] == out[0] && img[1] == fil[1] && fil[0] == out[1]
    ensures var ls := ConvLayouts(tiles, nhwc);
      ShapesAgree(ConvGeneric(ConvDomain(ConvSizes(out, fil, nhwc), tiles), sh, sw),
                  PackedShape(img, ls.a), PackedShape(fil, ls.b), PackedShape(out, ls.c))
  {
    var sizes := ConvSizes(out, fil, nhwc);
    var tk, tc := tiles[0], tiles[1];
    var d := ConvDomain(sizes, tiles);
    var ls := ConvLayouts(tiles, nhwc);
    assert CeilDiv(sizes[1], tk) == d[1] && CeilDiv(sizes[4], tc) == d[5] by {
      CeilDivExact(sizes[1], tk);
      CeilDivExact(sizes[4], tc);
    }
    var a, b, c := PackedShape(img, ls.a), PackedShape(fil, ls.b), PackedShape(out, ls.c);
    assert d == [sizes[0], sizes[1] / tk, sizes[2], sizes[3], tk, sizes[4] / tc, sizes[5], sizes[6], tc];
    if nhwc {
      assert sizes == [out[0], out[3], out[1], out[2], fil[2], fil[0], fil[1]];
      assert a == [img[0], CeilDiv(img[3], tc), img[1], img[2], tc] by { NpqkShape(img, tc); }
      assert b == [CeilDiv(fil[3], tk), CeilDiv(fil[2], tc), fil[0], fil[1], tc, tk] by { RsckShape(fil, tc, tk); }
      assert c == [out[0], CeilDiv(out[3], tk), out[1], out[2], tk] by { NpqkShape(out, tk); }
      ConvFits(d, sh, sw, a, b, c);
    } else {
      assert sizes == [out[0], out[1], out[2], out[3], fil[1], fil[2], fil[3]];
      assert a == [img[0], CeilDiv(img[1], tc), img[2], img[3], tc] by { NchwShape(img, tc); }
      assert b == [CeilDiv(fil[0], tk), CeilDiv(fil[1], tc), fil[2], fil[3], tc, tk] by { KcrsShape(fil, tc, tk); }
      assert c == [out[0], CeilDiv(out[1], tk), out[2], out[3], tk] by { NchwShape(out, tk); }
      ConvFits(d, sh, sw, a, b, c);
    }
  }
}
