/**
 * `packMatmulOp` of lib/TPP/ToBlockLayoutAndBack.cpp on the program graph:
 * a matmul (or batch matmul) with three tile factors (I, J, K) becomes
 * pack(A), pack(B), pack(C), a blocked `linalg.generic` that takes over the
 * matmul's body, and an unpack of the generic's result into C, which replaces
 * the matmul. The rewrite is refused, with the source's message, when the
 * tiles are not three, a shape is dynamic, the op is on buffers, or a tile
 * does not divide its loop.
 */
module PackMatmul {
  import opened Wrappers
  import opened Tensors
  import opened TensorPack
  import opened TppLayouts
  import opened Contraction
  import opened MatmulPacking
  import opened Ir
  import opened LayoutOps
  import opened PackRewrite

  function MatmulRank(op: Op): nat {
    if op.kind == BatchMatmul then 3 else 2
  }

  /**
   * A `linalg.matmul` or `linalg.batch_matmul` as its verifier leaves it:
   * inputs A, B and init C of rank 2 (3), all on tensors or all on buffers,
   * never its own operand, and on tensors one result of C's type.
   */
  predicate MatmulLike(p: Program, root: OpId) {
    && root in p.ops
    && (p.ops[root].kind == Matmul || p.ops[root].kind == BatchMatmul)
    && |p.ops[root].inputs| == 2 && |p.ops[root].inits| == 1
    && (forall v :: v in Operands(p.ops[root]) ==>
          && TypeOf(p, v).Some? && !TypeOf(p, v).value.ScalarType?
          && |TypeOf(p, v).value.shape| == MatmulRank(p.ops[root])
          && !(v.OpResult? && v.op == root))
    && (HasTensorSemantics(p, p.ops[root]) || HasBufferSemantics(p, p.ops[root]))
    && (HasTensorSemantics(p, p.ops[root]) ==> p.ops[root].results == [TypeOf(p, p.ops[root].inits[0]).value])
  }

  /** The conditions of packMatmulOp and packMatmulOpImpl, in the order they are tested. */
  function PackMatmulCheck(p: Program, op: Op, tiles: seq<int>): Outcome<()> {
    var inc: nat := if op.kind == BatchMatmul then 1 else 0;
    if |tiles| != 3 then Failure("require 3 tile factors")
    else if HasDynamicShape(p, op) then Failure("require static shape")
    else if HasBufferSemantics(p, op) then Failure("require tensor semantics")
    else if !FullTilesOnDims(LoopBounds(p, op), tiles, [inc, inc + 1, inc + 2]) then Failure("expect full tiles only")
    else Success(())
  }

  /** The (M, N, K) of the op: rows of A, columns of B, columns of A (after the batch dimension). */
  function MatmulSizes(p: Program, op: Op): (r: seq<int>)
    ensures |r| == 3
  {
    var a := OperandShape(p, op, 0);
    var b := OperandShape(p, op, 1);
    if op.kind == BatchMatmul then
      (if |a| == 3 && |b| == 3 then [a[1], b[2], a[2]] else [-1, -1, -1])
    else
      (if |a| == 2 && |b| == 2 then [a[0], b[1], a[1]] else [-1, -1, -1])
  }

  /**
   * The rewrite applies exactly to a static matmul on tensors whose M, N and
   * K are whole numbers of the tiles (I, J, K); the tiles are then positive.
   */
  lemma PackMatmulCheckSucceeds(p: Program, root: OpId, tiles: seq<int>)
    requires MatmulLike(p, root)
    ensures PackMatmulCheck(p, p.ops[root], tiles).Success? <==>
      && !HasDynamicShape(p, p.ops[root]) && HasTensorSemantics(p, p.ops[root])
      && MatmulFullTiles(MatmulSizes(p, p.ops[root])[0], MatmulSizes(p, p.ops[root])[1], MatmulSizes(p, p.ops[root])[2], tiles)
    ensures PackMatmulCheck(p, p.ops[root], tiles).Success? ==> |tiles| == 3 && PositiveTiles(tiles)
  {
    var op := p.ops[root];
    assert Operands(op)[0] == op.inputs[0] && Operands(op)[1] == op.inputs[1];
    assert op.inputs[0] in Operands(op) && op.inputs[1] in Operands(op);
    var s := MatmulSizes(p, op);
    if PackMatmulCheck(p, op, tiles).Success? {
      var inc: nat := if op.kind == BatchMatmul then 1 else 0;
      assert FullTilesOnDims(LoopBounds(p, op), tiles, [inc, inc + 1, inc + 2]);
      assert LoopBounds(p, op)[inc..inc + 3] == s;
      assert forall k :: 0 <= k < 3 ==> tiles[k] > 0 && s[k] >= 0 && s[k] % tiles[k] == 0 by {
        forall k | 0 <= k < 3 ensures tiles[k] > 0 && s[k] >= 0 && s[k] % tiles[k] == 0 {
          assert [inc, inc + 1, inc + 2][k] == inc + k;
          assert LoopBounds(p, op)[inc + k] == s[k];
        }
      }
    }
  }

  /** The layouts of A, B and C for tiles (I, J, K). */
  function MatmulLayouts(tiles: seq<int>, batch: bool): Layouts
    requires |tiles| == 3
  {
    Layouts(LayoutA(tiles, batch), LayoutB(tiles, batch), LayoutC(tiles, batch))
  }

  /** The blocked generic's kind: the maps and iterators of the packed (batch) matmul. */
  function PackedMatmulKind(batch: bool): OpKind {
    GenericKind(PackedMatmulGeneric(batch, []))
  }

  /** Once the checks pass, the operands of a matmul fit the layouts of its tiles. */
  lemma MatmulPartsFit(p: Program, root: OpId, tiles: seq<int>)
    requires MatmulLike(p, root) && Closed(p)
    requires PackMatmulCheck(p, p.ops[root], tiles).Success?
    ensures TwoInputsOneInit(p, root) && |tiles| == 3
    ensures Fits(PartsOf(p, root), MatmulLayouts(tiles, p.ops[root].kind == BatchMatmul))
  {
    PackMatmulCheckSucceeds(p, root, tiles);
    var op := p.ops[root];
    assert op.inputs[0] in Operands(op) && op.inputs[1] in Operands(op) && op.inits[0] in Operands(op);
  }

  /**
   * The graph after the rewrite, with new ops n .. n + 7: the empty
   * destination and the pack of A (n, n + 1), of B (n + 2, n + 3) and of C
   * (n + 4, n + 5), the generic (n + 6) and the unpack (n + 7).
   */
  function PackMatmulRewrite(p: Program, root: OpId, tiles: seq<int>, n: OpId): Program
    requires MatmulLike(p, root) && Closed(p) && FreshFrom(p, n)
    requires PackMatmulCheck(p, p.ops[root], tiles).Success?
  {
    MatmulPartsFit(p, root, tiles);
    var batch := p.ops[root].kind == BatchMatmul;
    PackedGraph(p, root, PartsOf(p, root), MatmulLayouts(tiles, batch), PackedMatmulKind(batch), map[], n)
  }

  /**
   * packMatmulOp: on failure the graph is untouched and the source's message
   * is returned; on success the graph is PackMatmulRewrite of the old one and
   * the result is the new generic.
   */
  method PackMatmulOp(rw: Rewriter, root: OpId, tiles: seq<int>) returns (r: Outcome<OpId>)
    requires rw.Valid() && Closed(rw.State()) && MatmulLike(rw.State(), root)
    modifies rw
    ensures rw.Valid()
    ensures r.Failure? <==> PackMatmulCheck(old(rw.State()), old(rw.ops[root]), tiles).Failure?
    ensures r.Failure? ==>
      r.reason == PackMatmulCheck(old(rw.State()), old(rw.ops[root]), tiles).reason && rw.State() == old(rw.State())
    ensures r.Success? ==>
      r.value == old(rw.next) + 6 && rw.State() == PackMatmulRewrite(old(rw.State()), root, tiles, old(rw.next))
  {
    var op := rw.ops[root];
    var p := rw.State();
    if |tiles| != 3 {
      return Failure("require 3 tile factors");
    }
    if HasDynamicShape(rw.State(), op) {
      return Failure("require static shape");
    }
    if HasBufferSemantics(rw.State(), op) {
      return Failure("require tensor semantics");
    }
    var inc: nat := if op.kind == BatchMatmul then 1 else 0;
    if !FullTilesOnDims(LoopBounds(rw.State(), op), tiles, [inc, inc + 1, inc + 2]) {
      return Failure("expect full tiles only");
    }
    MatmulPartsFit(p, root, tiles);
    var m := PartsOf(p, root);
    var batch := op.kind == BatchMatmul;
    assert |op.results| == 1;
    var gen := ApplyPacking(rw, root, m, MatmulLayouts(tiles, batch), PackedMatmulKind(batch), false);
    assert CopiedAttrs(op, false) == map[];
    r := Success(gen);
  }

  /**
   * The rewrite keeps the graph closed, given what SSA dominance provides:
   * the unpack destination (C, or the init of the fill producing C) is not a
   * result of the matmul itself.
   */
  lemma PackMatmulRewriteClosed(p: Program, root: OpId, tiles: seq<int>, n: OpId)
    requires MatmulLike(p, root) && Closed(p) && FreshFrom(p, n)
    requires PackMatmulCheck(p, p.ops[root], tiles).Success?
    requires var d := UnpackDest(p, p.ops[root].inits[0]); !(d.OpResult? && d.op == root)
    ensures Closed(PackMatmulRewrite(p, root, tiles, n))
  {
    MatmulPartsFit(p, root, tiles);
    var m := PartsOf(p, root);
    var op := p.ops[root];
    assert |op.results| == 1;
    var batch := op.kind == BatchMatmul;
    PackedGraphClosed(p, root, m, MatmulLayouts(tiles, batch), PackedMatmulKind(batch), map[], n);
  }

  /**
   * What the rewrite computes: on tensors of the operands' static shapes that
   * agree as a matmul's do, the blocked generic between the packs and the
   * unpack yields the matmul's result.
   */
  lemma PackMatmulPreservesMatmul(p: Program, root: OpId, tiles: seq<int>, a: Tensor, b: Tensor, c: Tensor)
    requires MatmulLike(p, root) && p.ops[root].kind == Matmul
    requires PackMatmulCheck(p, p.ops[root], tiles).Success?
    requires a.shape == OperandShape(p, p.ops[root], 0) && b.shape == OperandShape(p, p.ops[root], 1)
    requires |a.shape| == 2 && |b.shape| == 2 && a.shape[1] == b.shape[0] && c.shape == [a.shape[0], b.shape[1]]
    ensures Equiv(PackedMatmul(a, b, c, tiles), Tensors.Matmul(a, b, c))
  {
    PackMatmulCheckSucceeds(p, root, tiles);
    assert MatmulSizes(p, p.ops[root]) == [a.shape[0], b.shape[1], a.shape[1]];
    PackedMatmulIsMatmul(a, b, c, tiles);
  }

  /** The same for a batch matmul. */
  lemma PackMatmulPreservesBatchMatmul(p: Program, root: OpId, tiles: seq<int>, a: Tensor, b: Tensor, c: Tensor)
    requires MatmulLike(p, root) && p.ops[root].kind == BatchMatmul
    requires PackMatmulCheck(p, p.ops[root], tiles).Success?
    requires a.shape == OperandShape(p, p.ops[root], 0) && b.shape == OperandShape(p, p.ops[root], 1)
    requires |a.shape| == 3 && |b.shape| == 3 && a.shape[0] == b.shape[0] && a.shape[2] == b.shape[1]
    requires c.shape == [a.shape[0], a.shape[1], b.shape[2]]
    ensures Equiv(PackedBatchMatmul(a, b, c, tiles), Tensors.BatchMatmul(a, b, c))
  {
    PackMatmulCheckSucceeds(p, root, tiles);
    assert MatmulSizes(p, p.ops[root]) == [a.shape[1], b.shape[2], a.shape[2]];
    PackedBatchMatmulIsBatchMatmul(a, b, c, tiles);
  }
}
