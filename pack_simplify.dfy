/**
 * The two clean-up patterns on `tensor.pack` of
 * lib/TPP/ToBlockLayoutAndBack.cpp: `SimplifyPackToEmpty` drops the pack of
 * an empty tensor in favour of its destination, and `BubbleUpThroughFillOp`
 * turns the pack of a fill result used only there into a fill of a packed
 * empty tensor, so that the fill no longer needs packing.
 */
module PackSimplify {
  import opened Wrappers
  import opened TensorPack
  import opened Ir
  import opened LayoutOps

  /**
   * A `tensor.pack` as its verifier leaves it: one source and one
   * destination, both defined ranked tensors and not results of the pack,
   * a layout valid for the source, and one result of the source's packed type.
   */
  predicate PackLike(p: Program, root: OpId) {
    && root in p.ops && p.ops[root].kind.Pack?
    && |p.ops[root].inputs| == 1 && |p.ops[root].inits| == 1
    && (forall v :: v in Operands(p.ops[root]) ==>
          TypeOf(p, v).Some? && TypeOf(p, v).value.TensorType? && !(v.OpResult? && v.op == root))
    && ValidLayout(p.ops[root].kind.layout, |TypeOf(p, p.ops[root].inputs[0]).value.shape|)
    && p.ops[root].results == [PackedType(TypeOf(p, p.ops[root].inputs[0]).value, p.ops[root].kind.layout)]
  }

  /**
   * A `linalg.fill` as its verifier leaves it: one value and one init, both
   * defined and not results of the fill, and one result of the init's type.
   */
  predicate FillLike(p: Program, id: OpId) {
    && id in p.ops && p.ops[id].kind == Fill
    && |p.ops[id].inputs| == 1 && |p.ops[id].inits| == 1
    && (forall v :: v in Operands(p.ops[id]) ==> IsDefined(p, v) && !(v.OpResult? && v.op == id))
    && p.ops[id].results == [TypeOf(p, p.ops[id].inits[0]).value]
  }

  /** The op defining the source operand of the tensor.pack, when there is one. */
  function SourceDef(p: Program, root: OpId): Option<OpId>
    requires PackLike(p, root)
  {
    DefiningOp(p, p.ops[root].inputs[0])
  }

  /** Every fill the pattern may meet as the source's producer is well formed. */
  predicate PackOfFillLike(p: Program, root: OpId) {
    && PackLike(p, root)
    && (SourceDef(p, root).Some? && p.ops[SourceDef(p, root).value].kind == Fill ==> FillLike(p, SourceDef(p, root).value))
  }

  // SimplifyPackToEmpty

  /** The pattern applies when the source operand of the tensor.pack is the result of a `tensor.empty`. */
  predicate PackOfEmpty(p: Program, root: OpId)
    requires PackLike(p, root)
  {
    SourceDef(p, root).Some? && p.ops[SourceDef(p, root).value].kind == Empty
  }

  /** SimplifyPackToEmpty: the uses of the pack go to its destination, and the pack is erased. */
  method SimplifyPackToEmpty(rw: Rewriter, root: OpId) returns (success: bool)
    requires rw.Valid() && PackLike(rw.State(), root)
    modifies rw
    ensures rw.Valid()
    ensures success <==> PackOfEmpty(old(rw.State()), root)
    ensures success ==> rw.State() == ReplaceOpIn(old(rw.State()), root, old(rw.ops[root].inits))
    ensures !success ==> rw.State() == old(rw.State())
  {
    if !PackOfEmpty(rw.State(), root) {
      return false;
    }
    var packOp := rw.ops[root];
    assert packOp.inits == [packOp.inits[0]];
    rw.ReplaceOp(root, packOp.inits);
    success := true;
  }

  /**
   * After SimplifyPackToEmpty the graph is still closed, the pack is gone and
   * nothing uses its result; the destination that takes its place has the
   * pack's result type.
   */
  lemma SimplifyPackToEmptySound(p: Program, root: OpId)
    requires PackLike(p, root) && Closed(p)
    ensures Closed(ReplaceOpIn(p, root, p.ops[root].inits))
    ensures root !in ReplaceOpIn(p, root, p.ops[root].inits).ops
    ensures Users(ReplaceOpIn(p, root, p.ops[root].inits), OpResult(root, 0)) == {}
  {
    var op := p.ops[root];
    assert op.inits[0] in Operands(op);
    assert op.inits == [op.inits[0]];
    ReplaceOpClosed1(p, root, op.inits[0]);
    ReplaceOpErases(p, root, op.inits);
  }

  // BubbleUpThroughFillOp

  /** The pattern applies when the source operand of the tensor.pack is the result of a fill used only by the pack. */
  predicate PackOfSingleUseFill(p: Program, root: OpId)
    requires PackLike(p, root)
  {
    && SourceDef(p, root).Some? && p.ops[SourceDef(p, root).value].kind == Fill
    && HasOneUse(p, OpResult(SourceDef(p, root).value, 0))
  }

  /** The fill of the packed type on the fill's value, writing into the new empty tensor n. */
  function PackedFill(fill: Op, t: Type, n: OpId): Op {
    Op(Fill, fill.inputs, [OpResult(n, 0)], [t], map[], EmptyRegion)
  }

  /**
   * The graph before the pack is replaced, with new ops n and n + 1: the
   * uses of the fill's result go to the fill's init; then come a
   * `tensor.empty` of the packed type (n) and a fill of it with the same
   * value (n + 1).
   */
  function BubbleUpAdded(p: Program, root: OpId, n: OpId): Program
    requires PackOfFillLike(p, root) && PackOfSingleUseFill(p, root)
  {
    var fid := SourceDef(p, root).value;
    var fill := p.ops[fid];
    var t := p.ops[root].results[0];
    var p1 := ReplaceAllUses(p, OpResult(fid, 0), fill.inits[0]);
    AddOp(AddOp(p1, n, EmptyOp(t)), n + 1, PackedFill(fill, t, n))
  }

  /** The graph after BubbleUpThroughFillOp: the new fill replaces the pack. The old fill stays, without uses. */
  function BubbleUpRewrite(p: Program, root: OpId, n: OpId): Program
    requires PackOfFillLike(p, root) && PackOfSingleUseFill(p, root)
  {
    ReplaceOpIn(BubbleUpAdded(p, root, n), root, [OpResult(n + 1, 0)])
  }

  /**
   * BubbleUpThroughFillOp: the pack of a single-use fill result becomes a
   * fill of the packed type; in every other case nothing changes.
   */
  method BubbleUpThroughFill(rw: Rewriter, root: OpId) returns (success: bool)
    requires rw.Valid() && PackOfFillLike(rw.State(), root)
    modifies rw
    ensures rw.Valid()
    ensures success <==> PackOfSingleUseFill(old(rw.State()), root)
    ensures success ==> rw.State() == BubbleUpRewrite(old(rw.State()), root, old(rw.next)) && rw.next == old(rw.next) + 2
    ensures !success ==> rw.State() == old(rw.State())
  {
    if !PackOfSingleUseFill(rw.State(), root) {
      return false;
    }
    FillIntoPackedFill(rw, root);
    success := true;
  }

  /** The rewrite of BubbleUpThroughFill, once its test has passed. */
  method FillIntoPackedFill(rw: Rewriter, root: OpId)
    requires rw.Valid() && PackOfFillLike(rw.State(), root) && PackOfSingleUseFill(rw.State(), root)
    modifies rw
    ensures rw.Valid() && rw.State() == BubbleUpRewrite(old(rw.State()), root, old(rw.next)) && rw.next == old(rw.next) + 2
  {
    ghost var p, n := rw.State(), rw.next;
    var packOp := rw.ops[root];
    var fid := packOp.inputs[0].op;
    var fillRes := OpResult(fid, 0);
    var fill := rw.ops[fid];
    var t := packOp.results[0];
    rw.ReplaceAllUsesWith(fillRes, fill.inits[0]);
    ghost var p1 := rw.State();
    BubbleUpKeepsPack(p, p1, root, fillRes, fill.inits[0]);
    var empty := rw.Create(EmptyOp(t));
    var newFill := rw.ReplaceOpWithNewOp(root, PackedFill(fill, t, empty));
    BubbleUpStages(p, p1, rw.State(), root, n, fid, fill, fill.inits[0], t, empty, newFill);
  }

  /** Redirecting the fill's uses keeps the pack's results. */
  lemma BubbleUpKeepsPack(p: Program, p1: Program, root: OpId, from: Value, to: Value)
    requires root in p.ops && p1 == ReplaceAllUses(p, from, to)
    ensures root in p1.ops && p1.ops[root].results == p.ops[root].results
  {
  }

  /** The edits of BubbleUpThroughFill, one after the other, make BubbleUpRewrite. */
  lemma BubbleUpStages(p: Program, p1: Program, q: Program, root: OpId, n: OpId, fid: OpId, fill: Op, init: Value,
                       t: Type, empty: OpId, newFill: OpId)
    requires empty == n && newFill == empty + 1
    requires p1 == ReplaceAllUses(p, OpResult(fid, 0), init)
    requires q == ReplaceOpIn(AddOp(AddOp(p1, empty, EmptyOp(t)), newFill, PackedFill(fill, t, empty)), root, ResultsOf(newFill, 1))
    ensures PackOfFillLike(p, root) && PackOfSingleUseFill(p, root)
        && fid == p.ops[root].inputs[0].op && fill == p.ops[fid] && t == p.ops[root].results[0]
        && |fill.inits| > 0 && init == fill.inits[0]
        ==> q == BubbleUpRewrite(p, root, n)
  {
    assert ResultsOf(newFill, 1) == [OpResult(n + 1, 0)];
  }

  /**
   * BubbleUpThroughFillOp keeps the graph closed and erases the pack, and
   * the fill replacing it has the pack's result type.
   */
  lemma BubbleUpSound(p: Program, root: OpId, n: OpId)
    requires PackOfFillLike(p, root) && PackOfSingleUseFill(p, root) && Closed(p) && FreshFrom(p, n)
    ensures Closed(BubbleUpRewrite(p, root, n))
    ensures root !in BubbleUpRewrite(p, root, n).ops
    ensures TypeOf(BubbleUpRewrite(p, root, n), OpResult(n + 1, 0)) == Some(p.ops[root].results[0])
  {
    BubbleUpAddedClosed(p, root, n);
    BubbleUpAddedShape(p, root, n);
    ReplaceByResult(BubbleUpAdded(p, root, n), root, n + 1, p.ops[root].results[0]);
  }

  /** In the graph before the replacement, the pack has one result and the new fill n + 1 the pack's result type. */
  lemma BubbleUpAddedShape(p: Program, root: OpId, n: OpId)
    requires PackOfFillLike(p, root) && PackOfSingleUseFill(p, root) && FreshFrom(p, n)
    ensures root in BubbleUpAdded(p, root, n).ops && |BubbleUpAdded(p, root, n).ops[root].results| == 1
    ensures n + 1 in BubbleUpAdded(p, root, n).ops && n + 1 != root
    ensures BubbleUpAdded(p, root, n).ops[n + 1].results == [p.ops[root].results[0]]
  {
  }

  /** Replacing the one-result op root by the result of another op m keeps the graph closed, erases root, and keeps m's type. */
  lemma ReplaceByResult(p: Program, root: OpId, m: OpId, t: Type)
    requires Closed(p) && root in p.ops && |p.ops[root].results| == 1
    requires m in p.ops && m != root && p.ops[m].results == [t]
    ensures Closed(ReplaceOpIn(p, root, [OpResult(m, 0)]))
    ensures root !in ReplaceOpIn(p, root, [OpResult(m, 0)]).ops
    ensures TypeOf(ReplaceOpIn(p, root, [OpResult(m, 0)]), OpResult(m, 0)) == Some(t)
  {
    ReplaceOpClosed1(p, root, OpResult(m, 0));
    ReplaceOpErases(p, root, [OpResult(m, 0)]);
  }

  /** After BubbleUpThroughFillOp nothing uses the old fill's result any more. */
  lemma BubbleUpLeavesFillDead(p: Program, root: OpId, n: OpId)
    requires PackOfFillLike(p, root) && PackOfSingleUseFill(p, root) && Closed(p) && FreshFrom(p, n)
    ensures Users(BubbleUpRewrite(p, root, n), OpResult(SourceDef(p, root).value, 0)) == {}
  {
    var fid := SourceDef(p, root).value;
    var p3 := BubbleUpAdded(p, root, n);
    var q := ReplaceOpIn(p3, root, [OpResult(n + 1, 0)]);
    var fill := p.ops[fid];
    var p1 := ReplaceAllUses(p, OpResult(fid, 0), fill.inits[0]);
    assert fill.inits[0] in Operands(fill) && fill.inits[0] != OpResult(fid, 0);
    ReplaceAllUsesClosed(p, OpResult(fid, 0), fill.inits[0]);
    assert OpResult(fid, 0) !in fill.inputs by {
      assert forall v :: v in fill.inputs ==> v in Operands(fill);
    }
    forall id | id in q.ops ensures OpResult(fid, 0) !in Operands(q.ops[id]) {
      FillResultUnused(p, p1, p3, q, root, fid, n, id);
    }
  }

  /** The graph before the replacement is closed. */
  lemma BubbleUpAddedClosed(p: Program, root: OpId, n: OpId)
    requires PackOfFillLike(p, root) && PackOfSingleUseFill(p, root) && Closed(p) && FreshFrom(p, n)
    ensures Closed(BubbleUpAdded(p, root, n))
  {
    var fid := SourceDef(p, root).value;
    var fill := p.ops[fid];
    assert fill.inits[0] in Operands(fill) && fill.inputs[0] in Operands(fill);
    FillGraphClosed(p, OpResult(fid, 0), fill, p.ops[root].results[0], n);
  }

  /** Redirecting the fill's uses and adding the empty tensor and the new fill keep the graph closed. */
  lemma FillGraphClosed(p: Program, from: Value, fill: Op, t: Type, n: OpId)
    requires Closed(p) && FreshFrom(p, n) && |fill.inputs| == 1 && |fill.inits| == 1
    requires IsDefined(p, fill.inputs[0]) && IsDefined(p, fill.inits[0])
    ensures Closed(AddOp(AddOp(ReplaceAllUses(p, from, fill.inits[0]), n, EmptyOp(t)), n + 1, PackedFill(fill, t, n)))
  {
    var p1 := ReplaceAllUses(p, from, fill.inits[0]);
    ReplaceAllUsesClosed(p, from, fill.inits[0]);
    var p2 := AddOp(p1, n, EmptyOp(t));
    AddOpClosed(p1, n, EmptyOp(t));
    var nf := PackedFill(fill, t, n);
    assert Operands(nf) == [fill.inputs[0], OpResult(n, 0)];
    assert IsDefined(p2, fill.inputs[0]) by {
      assert IsDefined(p, fill.inputs[0]);
    }
    AddOpClosed(p2, n + 1, nf);
  }

  /** No op of the final graph uses the old fill's result. */
  lemma FillResultUnused(p: Program, p1: Program, p3: Program, q: Program, root: OpId, fid: OpId, n: OpId, id: OpId)
    requires PackOfFillLike(p, root) && PackOfSingleUseFill(p, root) && FreshFrom(p, n)
    requires fid == SourceDef(p, root).value
    requires p1 == ReplaceAllUses(p, OpResult(fid, 0), p.ops[fid].inits[0])
    requires OpResult(fid, 0) !in p.ops[fid].inputs && Users(p1, OpResult(fid, 0)) == {}
    requires p3 == AddOp(AddOp(p1, n, EmptyOp(p.ops[root].results[0])), n + 1, PackedFill(p.ops[fid], p.ops[root].results[0], n))
    requires q == ReplaceOpIn(p3, root, [OpResult(n + 1, 0)])
    requires id in q.ops
    ensures OpResult(fid, 0) !in Operands(q.ops[id])
  {
    var from := OpResult(fid, 0);
    var sigma := ResultMap(root, [OpResult(n + 1, 0)]);
    assert fid != root && fid < n;
    if id == n + 1 {
      assert Operands(p3.ops[id]) == p.ops[fid].inputs + [OpResult(n, 0)];
    } else if id != n {
      assert id in p1.ops && id !in Users(p1, from);
    }
    assert from !in Operands(p3.ops[id]);
    assert q.ops[id] == SubstOp(p3.ops[id], sigma);
    SubstAvoids(p3.ops[id], sigma, from);
  }
}
