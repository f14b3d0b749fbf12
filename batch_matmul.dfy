/**
 * RewriteBatchMatmulToMatmul: every `linalg.batch_matmul` is tiled by one
 * along the batch, so that each iteration of the loop computes the matmul of
 * one batch slice; the slices of unit batch are then rank-reduced and the
 * batch matmul of unit-batch expand_shapes becomes a `linalg.matmul` of their
 * rank-2 sources.
 */
module BatchMatmulToMatmul {
  import opened Wrappers
  import opened Sums
  import opened Tensors
  import opened Ir

  // What tiling the batch by one computes.

  /** Batch slice s of a rank-3 tensor, rank-reduced to its M x N matrix. */
  function Slice(t: Tensor, s: int): (r: Tensor)
    requires |t.shape| == 3
    ensures r.shape == t.shape[1..]
  {
    Tensor(t.shape[1..], idx => if |idx| == 2 then t.at([s, idx[0], idx[1]]) else 0)
  }

  /** t with batch slice s overwritten by the matrix u (the insert of one tile's result). */
  function InsertSlice(t: Tensor, s: int, u: Tensor): (r: Tensor)
    ensures r.shape == t.shape
  {
    Tensor(t.shape, idx => if |idx| == 3 && idx[0] == s then u.at([idx[1], idx[2]]) else t.at(idx))
  }

  /**
   * The loop the tiling by (1, 0, 0) builds, after its first s iterations:
   * iteration b extracts batch slice b of A, B and the running output, takes
   * their matmul and inserts it back at b.
   */
  function TiledBatchMatmul(a: Tensor, b: Tensor, c: Tensor, s: int): (r: Tensor)
    requires |a.shape| == 3 && |b.shape| == 3 && |c.shape| == 3
    ensures r.shape == c.shape
    decreases s
  {
    if s <= 0 then c
    else
      var acc := TiledBatchMatmul(a, b, c, s - 1);
      InsertSlice(acc, s - 1, Tensors.Matmul(Slice(a, s - 1), Slice(b, s - 1), Slice(acc, s - 1)))
  }

  /** The element of batch slice s of the product: the output plus the products over k. */
  function BatchElement(a: Tensor, b: Tensor, c: Tensor, s: int, i: int, j: int): int
    requires |a.shape| == 3
  {
    c.at([s, i, j]) + Sum(a.shape[2], k => a.at([s, i, k]) * b.at([s, k, j]))
  }

  /** One iteration of the tiled loop writes batch s - 1 and leaves every other batch as it was. */
  lemma TiledStep(a: Tensor, b: Tensor, c: Tensor, s: int, idx: seq<int>)
    requires |a.shape| == 3 && |b.shape| == 3 && |c.shape| == 3 && s > 0 && |idx| == 3
    ensures TiledBatchMatmul(a, b, c, s).at(idx) ==
      if idx[0] == s - 1 then TiledBatchMatmul(a, b, c, s - 1).at(idx) + Sum(a.shape[2], k => a.at([s - 1, idx[1], k]) * b.at([s - 1, k, idx[2]]))
      else TiledBatchMatmul(a, b, c, s - 1).at(idx)
  {
    var acc := TiledBatchMatmul(a, b, c, s - 1);
    if idx[0] == s - 1 {
      var sa, sb := Slice(a, s - 1), Slice(b, s - 1);
      assert [s - 1, idx[1], idx[2]] == idx;
      SumExt(a.shape[2], k => sa.at([[idx[1], idx[2]][0], k]) * sb.at([k, [idx[1], idx[2]][1]]),
                         k => a.at([s - 1, idx[1], k]) * b.at([s - 1, k, idx[2]]));
    }
  }

  /**
   * After s iterations, the batches 0 .. s - 1 hold their batch-matmul
   * elements and every other batch still holds the initial output.
   */
  lemma {:induction false} TiledBatchMatmulAt(a: Tensor, b: Tensor, c: Tensor, s: int, idx: seq<int>)
    requires |a.shape| == 3 && |b.shape| == 3 && |c.shape| == 3 && |idx| == 3
    ensures TiledBatchMatmul(a, b, c, s).at(idx) ==
      if 0 <= idx[0] < s then BatchElement(a, b, c, idx[0], idx[1], idx[2]) else c.at(idx)
    decreases s
  {
    if s > 0 {
      TiledBatchMatmulAt(a, b, c, s - 1, idx);
      TiledStep(a, b, c, s, idx);
      assert [idx[0], idx[1], idx[2]] == idx;
    }
  }

  /**
   * Tiling the batch by one is the batch matmul: running the loop over all
   * the batches, in batch order, computes each batch's matmul.
   */
  lemma TiledBatchMatmulIsBatchMatmul(a: Tensor, b: Tensor, c: Tensor)
    requires |a.shape| == 3 && |b.shape| == 3 && |c.shape| == 3
    ensures Equiv(TiledBatchMatmul(a, b, c, c.shape[0]), Tensors.BatchMatmul(a, b, c))
  {
    forall idx | InBox(idx, c.shape) ensures TiledBatchMatmul(a, b, c, c.shape[0]).at(idx) == Tensors.BatchMatmul(a, b, c).at(idx) {
      TiledBatchMatmulAt(a, b, c, c.shape[0], idx);
      assert [idx[0], idx[1], idx[2]] == idx;
    }
  }

  /** A matrix expanded to a batch of one, [1, M, N] (a unit-batch tensor.expand_shape). */
  function UnitBatch(t: Tensor): (r: Tensor)
    requires |t.shape| == 2
    ensures r.shape == [1] + t.shape
  {
    Tensor([1] + t.shape, idx => if |idx| == 3 then t.at([idx[1], idx[2]]) else 0)
  }

  /**
   * The batch matmul of three unit-batch expands is the unit-batch expand of
   * the matmul of their sources: what lets the rewrite compute the matmul of
   * the rank-2 sources instead.
   */
  lemma UnitBatchMatmulIsMatmul(a: Tensor, b: Tensor, c: Tensor)
    requires |a.shape| == 2 && |b.shape| == 2 && |c.shape| == 2
    ensures Equiv(Tensors.BatchMatmul(UnitBatch(a), UnitBatch(b), UnitBatch(c)), UnitBatch(Tensors.Matmul(a, b, c)))
  {
    var ea, eb := UnitBatch(a), UnitBatch(b);
    forall idx | InBox(idx, [1] + c.shape)
      ensures Tensors.BatchMatmul(ea, eb, UnitBatch(c)).at(idx) == UnitBatch(Tensors.Matmul(a, b, c)).at(idx)
    {
      var ij := [idx[1], idx[2]];
      SumExt(a.shape[1], k => ea.at([idx[0], idx[1], k]) * eb.at([idx[0], k, idx[2]]),
                         k => a.at([ij[0], k]) * b.at([k, ij[1]]));
    }
  }

  // The graph rewrites.

  /** Every tensor.expand_shape of the graph has one source and one tensor result. */
  predicate ExpandsWellFormed(p: Program) {
    forall id :: id in p.ops && p.ops[id].kind.ExpandShape? ==>
      |p.ops[id].inputs| == 1 && |p.ops[id].results| == 1 && p.ops[id].results[0].TensorType?
  }

  /** The check of both slice patterns: every user of a result of the op is a batch matmul. */
  predicate UsersAreBatchMatmuls(p: Program, root: OpId)
    requires root in p.ops
  {
    forall k, u :: 0 <= k < |p.ops[root].results| && u in Users(p, OpResult(root, k)) ==> p.ops[u].kind.BatchMatmul?
  }

  /**
   * getReassociationMapForFoldingUnitDims (not part of this model): the
   * grouping of the slice sizes that folds the unit dimensions into their
   * neighbours, when there is one.
   */
  type UnitDimFolder = seq<int> -> Option<seq<seq<nat>>>

  /**
   * ExtractSliceOp::inferCanonicalRankReducedResultType (not part of this
   * model): the slice type of the given rank, from the source type, offsets,
   * sizes and strides.
   */
  type RankReducer = (nat, Type, seq<int>, seq<int>, seq<int>) -> Type

  /** A tensor.extract_slice of the graph: one source, one result, no use of its own result. */
  predicate ExtractSliceRoot(p: Program, root: OpId) {
    && root in p.ops && p.ops[root].kind.ExtractSlice?
    && |p.ops[root].inputs| == 1 && |p.ops[root].results| == 1
    && NoSelfUse(p.ops[root], root)
  }

  /** The rank-reduced slice of the same source, window and strides, with the reduced type. */
  function ReducedSlice(op: Op, t: Type): Op
    requires op.kind.ExtractSlice?
  {
    Op(op.kind, op.inputs, [], [t], map[], EmptyRegion)
  }

  /** The expand_shape that gives the rank-reduced slice under n back the slice's type. */
  function ExpandOf(reassociation: seq<seq<nat>>, t: Type, n: OpId): Op {
    Op(ExpandShape(reassociation), [OpResult(n, 0)], [], [t], map[], EmptyRegion)
  }

  /**
   * RankReducedExtractSliceOp: when every user is a batch matmul and folding
   * the unit sizes lowers the rank, a slice of the reduced rank under n,
   * expanded under n + 1 back to the original result type, replaces the
   * slice.
   */
  function ExtractSliceRewrite(p: Program, root: OpId, fold: UnitDimFolder, reduce: RankReducer, n: OpId): Option<Program>
    requires ExtractSliceRoot(p, root)
  {
    var op := p.ops[root];
    var t := op.results[0];
    var reassociation := fold(op.kind.sizes);
    if !UsersAreBatchMatmuls(p, root) then None
    else if reassociation.None? || |reassociation.value| == t.Rank() then None
    else
      var reduced := reduce(|reassociation.value|, TypeAt(p, op.inputs[0]), op.kind.offsets, op.kind.sizes, op.kind.strides);
      Some(Replaced(AddOp(p, n, ReducedSlice(op, reduced)), root, ExpandOf(reassociation.value, t, n), n + 1))
  }

  method RankReducedExtractSliceOp(rw: Rewriter, root: OpId, fold: UnitDimFolder, reduce: RankReducer) returns (success: bool)
    requires rw.Valid() && ExtractSliceRoot(rw.State(), root)
    modifies rw
    ensures rw.Valid()
    ensures success <==> ExtractSliceRewrite(old(rw.State()), root, fold, reduce, old(rw.next)).Some?
    ensures success ==> rw.State() == ExtractSliceRewrite(old(rw.State()), root, fold, reduce, old(rw.next)).value
                        && rw.next == old(rw.next) + 2
    ensures !success ==> rw.State() == old(rw.State()) && rw.next == old(rw.next)
  {
    var p := rw.State();
    var op := rw.ops[root];
    if !UsersAreBatchMatmuls(p, root) {
      return false;
    }
    var resultType := op.results[0];
    var reassociation := fold(op.kind.sizes);
    if reassociation.None? || |reassociation.value| == resultType.Rank() {
      return false;
    }
    var reduced := reduce(|reassociation.value|, TypeAt(p, op.inputs[0]), op.kind.offsets, op.kind.sizes, op.kind.strides);
    var newSlice := rw.Create(ReducedSlice(op, reduced));
    var expand := rw.ReplaceWithNew(root, ExpandOf(reassociation.value, resultType, newSlice));
    success := true;
  }

  /**
   * q is p with the slice under root replaced by a rank-reduced slice of the
   * same source, window and strides under n, expanded under n + 1 back to
   * the slice's type: the graph stays closed, the old slice is erased and
   * its users read the expand.
   */
  predicate SliceReduced(p: Program, q: Program, root: OpId, reassociation: seq<seq<nat>>, n: OpId)
    requires ExtractSliceRoot(p, root)
  {
    var op := p.ops[root];
    && Closed(q) && root !in q.ops && Users(q, OpResult(root, 0)) == {}
    && n in q.ops && q.ops[n].kind == op.kind && q.ops[n].inputs == op.inputs
    && n + 1 in q.ops && q.ops[n + 1] == ExpandOf(reassociation, op.results[0], n)
    && TypeOf(q, OpResult(n + 1, 0)) == Some(op.results[0])
    && forall id :: id in p.ops && id != root ==>
         id in q.ops && q.ops[id] == SubstOp(p.ops[id], map[OpResult(root, 0) := OpResult(n + 1, 0)])
  }

  /** SliceReduced from the facts of the second step, the replacement by the expand. */
  lemma SliceReducedSteps(p: Program, p1: Program, q: Program, root: OpId, reassociation: seq<seq<nat>>, reduced: Type, n: OpId)
    requires FreshFrom(p, n) && ExtractSliceRoot(p, root)
    requires p1 == AddOp(p, n, ReducedSlice(p.ops[root], reduced))
    requires ReplacedBy(p1, q, root, ExpandOf(reassociation, p.ops[root].results[0], n), n + 1)
    ensures SliceReduced(p, q, root, reassociation, n)
  {
    var op := p.ops[root];
    var slice := ReducedSlice(op, reduced);
    var sigma := map[OpResult(root, 0) := OpResult(n + 1, 0)];
    assert forall v :: v in Operands(slice) ==> v in Operands(op);
    SubstUntouched(slice, sigma);
    assert q.ops[n] == slice;
    forall id | id in p.ops && id != root ensures id in q.ops && q.ops[id] == SubstOp(p.ops[id], sigma) {
      assert id in p1.ops && p1.ops[id] == p.ops[id];
    }
  }

  lemma SliceReducedFacts(p: Program, q: Program, root: OpId, reassociation: seq<seq<nat>>, reduced: Type, n: OpId)
    requires Closed(p) && FreshFrom(p, n) && ExtractSliceRoot(p, root)
    requires q == Replaced(AddOp(p, n, ReducedSlice(p.ops[root], reduced)), root,
                           ExpandOf(reassociation, p.ops[root].results[0], n), n + 1)
    ensures SliceReduced(p, q, root, reassociation, n)
  {
    var op := p.ops[root];
    var slice := ReducedSlice(op, reduced);
    assert op.inputs[0] in Operands(op);
    assert forall v :: v in Operands(slice) ==> v in Operands(op);
    var p1 := AddOp(p, n, slice);
    AddOpClosed(p, n, slice);
    assert FreshFrom(p1, n + 1) && p1.ops[root] == op;
    assert IsDefined(p1, OpResult(n, 0));
    ReplacedFacts(p1, q, root, ExpandOf(reassociation, op.results[0], n), n + 1);
    SliceReducedSteps(p, p1, q, root, reassociation, reduced, n);
  }

  /**
   * The extract-slice rewrite applies exactly when every user is a batch
   * matmul and folding the unit sizes lowers the rank; then it has the
   * effect SliceReduced describes.
   */
  lemma ExtractSliceRewriteFacts(p: Program, root: OpId, fold: UnitDimFolder, reduce: RankReducer, n: OpId)
    requires Closed(p) && FreshFrom(p, n) && ExtractSliceRoot(p, root)
    ensures ExtractSliceRewrite(p, root, fold, reduce, n).Some? <==>
      && UsersAreBatchMatmuls(p, root) && fold(p.ops[root].kind.sizes).Some?
      && |fold(p.ops[root].kind.sizes).value| != p.ops[root].results[0].Rank()
    ensures ExtractSliceRewrite(p, root, fold, reduce, n).Some? ==>
      SliceReduced(p, ExtractSliceRewrite(p, root, fold, reduce, n).value, root, fold(p.ops[root].kind.sizes).value, n)
  {
    var op := p.ops[root];
    var reassociation := fold(op.kind.sizes);
    if ExtractSliceRewrite(p, root, fold, reduce, n).Some? {
      var reduced := reduce(|reassociation.value|, TypeAt(p, op.inputs[0]), op.kind.offsets, op.kind.sizes, op.kind.strides);
      SliceReducedFacts(p, ExtractSliceRewrite(p, root, fold, reduce, n).value, root, reassociation.value, reduced, n);
    }
  }
  /** A tensor.parallel_insert_slice of the graph: the source and the destination, and no results. */
  predicate InsertSliceRoot(p: Program, root: OpId) {
    && root in p.ops && p.ops[root].kind.ParallelInsertSlice?
    && |p.ops[root].inputs| == 2 && |p.ops[root].inits| == 0 && |p.ops[root].results| == 0
  }

  /** The extent of a group of collapsed dimensions: the product of its extents, dynamic if one of them is. */
  function GroupExtent(shape: seq<Extent>, group: seq<nat>): Extent
    decreases |group|
  {
    if |group| == 0 then Static(1)
    else
      var rest := GroupExtent(shape, group[1..]);
      var e := if group[0] < |shape| then shape[group[0]] else Dynamic;
      if e.Dynamic? || rest.Dynamic? then Dynamic else Static(e.size * rest.size)
  }

  /** The type tensor.collapse_shape gives its result: one extent per group of the reassociation. */
  function CollapsedType(t: Type, reassociation: seq<seq<nat>>): (r: Type)
    ensures r.Rank() == |reassociation|
  {
    var shape := if t.ScalarType? then [] else t.shape;
    TensorType(seq(|reassociation|, g requires 0 <= g < |reassociation| => GroupExtent(shape, reassociation[g])), t.elem)
  }

  /** The collapse_shape of the insert's source, with the collapsed type. */
  function CollapseOf(p: Program, op: Op, reassociation: seq<seq<nat>>): Op
    requires |op.inputs| == 2
  {
    Op(CollapseShape(reassociation), [op.inputs[0]], [], [CollapsedType(TypeAt(p, op.inputs[0]), reassociation)], map[], EmptyRegion)
  }

  /** The new insert: the collapsed source under n into the same destination, window and strides. */
  function InsertOf(op: Op, n: OpId): Op
    requires |op.inputs| == 2
  {
    Op(op.kind, [OpResult(n, 0), op.inputs[1]], [], [], map[], EmptyRegion)
  }

  /**
   * RankReducedParallelInsertSliceOp: when folding the unit sizes lowers the
   * rank of the source, the source collapsed under n is inserted by a new
   * parallel_insert_slice under n + 1, into the same destination with the
   * same offsets, sizes and strides, and the old insert is erased.
   */
  function InsertSliceRewrite(p: Program, root: OpId, fold: UnitDimFolder, n: OpId): Option<Program>
    requires InsertSliceRoot(p, root)
  {
    var op := p.ops[root];
    var reassociation := fold(op.kind.sizes);
    if !UsersAreBatchMatmuls(p, root) then None
    else if reassociation.None? || |reassociation.value| == TypeAt(p, op.inputs[0]).Rank() then None
    else Some(ReplaceOpIn(AddOp(AddOp(p, n, CollapseOf(p, op, reassociation.value)), n + 1, InsertOf(op, n)), root, []))
  }

  method RankReducedParallelInsertSliceOp(rw: Rewriter, root: OpId, fold: UnitDimFolder) returns (success: bool)
    requires rw.Valid() && InsertSliceRoot(rw.State(), root)
    modifies rw
    ensures rw.Valid()
    ensures success <==> InsertSliceRewrite(old(rw.State()), root, fold, old(rw.next)).Some?
    ensures success ==> rw.State() == InsertSliceRewrite(old(rw.State()), root, fold, old(rw.next)).value
                        && rw.next == old(rw.next) + 2
    ensures !success ==> rw.State() == old(rw.State()) && rw.next == old(rw.next)
  {
    var p := rw.State();
    var op := rw.ops[root];
    if !UsersAreBatchMatmuls(p, root) {
      return false;
    }
    var reassociation := fold(op.kind.sizes);
    if reassociation.None? || |reassociation.value| == TypeAt(p, op.inputs[0]).Rank() {
      return false;
    }
    var reshapedSource := rw.Create(CollapseOf(p, op, reassociation.value));
    var insert := rw.ReplaceOpWithNewOp(root, InsertOf(op, reshapedSource));
    success := true;
  }

  /**
   * q is p with the insert under root replaced by the collapse under n and
   * the new insert under n + 1: the graph stays closed and every other op
   * is as it was.
   */
  predicate InsertReduced(p: Program, q: Program, root: OpId, reassociation: seq<seq<nat>>, n: OpId)
    requires InsertSliceRoot(p, root)
  {
    var op := p.ops[root];
    && Closed(q) && q.ops.Keys == p.ops.Keys - {root} + {n, n + 1}
    && q.ops[n].kind == CollapseShape(reassociation) && q.ops[n].inputs == [op.inputs[0]]
    && q.ops[n + 1].kind == op.kind && q.ops[n + 1].inputs == [OpResult(n, 0), op.inputs[1]]
    && forall id :: id in p.ops && id != root ==> q.ops[id] == p.ops[id]
  }

  /** Erasing an op without results keeps the graph closed and leaves every other op as it was. */
  lemma EraseResultless(p: Program, q: Program, root: OpId)
    requires Closed(p) && root in p.ops && |p.ops[root].results| == 0
    requires q == ReplaceOpIn(p, root, [])
    ensures Closed(q) && q.ops.Keys == p.ops.Keys - {root}
    ensures forall id :: id in q.ops ==> q.ops[id] == p.ops[id]
  {
    ReplaceOpClosed(p, root, []);
    assert ResultMap(root, []) == map[];
    forall id | id in q.ops ensures q.ops[id] == p.ops[id] {
      SubstUntouched(p.ops[id], map[]);
    }
  }

  /** Adding the collapse and the new insert keeps the graph closed. */
  lemma InsertAddsClosed(p: Program, p2: Program, root: OpId, reassociation: seq<seq<nat>>, n: OpId)
    requires Closed(p) && FreshFrom(p, n) && InsertSliceRoot(p, root)
    requires p2 == AddOp(AddOp(p, n, CollapseOf(p, p.ops[root], reassociation)), n + 1, InsertOf(p.ops[root], n))
    ensures Closed(p2)
  {
    var op := p.ops[root];
    var collapse, insert := CollapseOf(p, op, reassociation), InsertOf(op, n);
    assert op.inputs[0] in Operands(op) && op.inputs[1] in Operands(op);
    var p1 := AddOp(p, n, collapse);
    AddOpClosed(p, n, collapse);
    assert IsDefined(p, op.inputs[1]);
    assert IsDefined(p1, OpResult(n, 0)) && IsDefined(p1, op.inputs[1]);
    AddOpClosed(p1, n + 1, insert);
  }

  /** InsertReduced from the facts of erasing the old insert. */
  lemma InsertReducedSteps(p: Program, p2: Program, q: Program, root: OpId, reassociation: seq<seq<nat>>, n: OpId)
    requires FreshFrom(p, n) && InsertSliceRoot(p, root) && Closed(q)
    requires p2 == AddOp(AddOp(p, n, CollapseOf(p, p.ops[root], reassociation)), n + 1, InsertOf(p.ops[root], n))
    requires q.ops.Keys == p2.ops.Keys - {root} && forall id :: id in q.ops ==> q.ops[id] == p2.ops[id]
    ensures InsertReduced(p, q, root, reassociation, n)
  {
  }

  lemma InsertReducedFacts(p: Program, p2: Program, q: Program, root: OpId, reassociation: seq<seq<nat>>, n: OpId)
    requires Closed(p) && FreshFrom(p, n) && InsertSliceRoot(p, root)
    requires p2 == AddOp(AddOp(p, n, CollapseOf(p, p.ops[root], reassociation)), n + 1, InsertOf(p.ops[root], n))
    requires q == ReplaceOpIn(p2, root, [])
    ensures InsertReduced(p, q, root, reassociation, n)
  {
    InsertAddsClosed(p, p2, root, reassociation, n);
    EraseResultless(p2, q, root);
    InsertReducedSteps(p, p2, q, root, reassociation, n);
  }

  /**
   * The users check of the insert pattern never fails, since the op has no
   * results: the rewrite applies exactly when folding the unit sizes lowers
   * the source's rank, and then has the effect InsertReduced describes.
   */
  lemma InsertSliceRewriteFacts(p: Program, root: OpId, fold: UnitDimFolder, n: OpId)
    requires Closed(p) && FreshFrom(p, n) && InsertSliceRoot(p, root)
    ensures UsersAreBatchMatmuls(p, root)
    ensures InsertSliceRewrite(p, root, fold, n).Some? <==>
      fold(p.ops[root].kind.sizes).Some? && |fold(p.ops[root].kind.sizes).value| != TypeAt(p, p.ops[root].inputs[0]).Rank()
    ensures InsertSliceRewrite(p, root, fold, n).Some? ==>
      InsertReduced(p, InsertSliceRewrite(p, root, fold, n).value, root, fold(p.ops[root].kind.sizes).value, n)
  {
    if InsertSliceRewrite(p, root, fold, n).Some? {
      var reassociation := fold(p.ops[root].kind.sizes).value;
      var p2 := AddOp(AddOp(p, n, CollapseOf(p, p.ops[root], reassociation)), n + 1, InsertOf(p.ops[root], n));
      InsertReducedFacts(p, p2, InsertSliceRewrite(p, root, fold, n).value, root, reassociation, n);
    }
  }

  // RewriteBatchMatmulToMatmulImpl.

  /**
   * getDefiningOp<ExpandShapeOp> of v with a rank-2 source: that source,
   * when v is the result of a tensor.expand_shape of a matrix.
   */
  function ExpandSource(p: Program, v: Value): Option<Value>
    requires ExpandsWellFormed(p)
  {
    var d := DefiningOp(p, v);
    if d.Some? && p.ops[d.value].kind.ExpandShape? && TypeAt(p, p.ops[d.value].inputs[0]).Rank() == 2
    then Some(p.ops[d.value].inputs[0])
    else None
  }

  /** The sources of all of vs, in order, when each is an expand of a matrix. */
  function ExpandSources(p: Program, vs: seq<Value>): (r: Option<seq<Value>>)
    requires ExpandsWellFormed(p)
    ensures r.Some? ==> |r.value| == |vs|
    decreases |vs|
  {
    if |vs| == 0 then Some([])
    else
      var front := ExpandSources(p, vs[..|vs| - 1]);
      var last := ExpandSource(p, vs[|vs| - 1]);
      if front.Some? && last.Some? then Some(front.value + [last.value]) else None
  }

  /**
   * The operands are expands of matrices exactly when each one is, and then
   * the sources are theirs, in the same order.
   */
  lemma {:induction false} ExpandSourcesAll(p: Program, vs: seq<Value>)
    requires ExpandsWellFormed(p)
    ensures ExpandSources(p, vs).Some? <==> forall k :: 0 <= k < |vs| ==> ExpandSource(p, vs[k]).Some?
    ensures ExpandSources(p, vs).Some? ==>
      forall k :: 0 <= k < |vs| ==> ExpandSources(p, vs).value[k] == ExpandSource(p, vs[k]).value
    decreases |vs|
  {
    if |vs| > 0 {
      var front := vs[..|vs| - 1];
      ExpandSourcesAll(p, front);
      assert forall k :: 0 <= k < |front| ==> front[k] == vs[k];
    }
  }

  /** A linalg.batch_matmul of the graph with one init, which has one result when it is a tensor. */
  predicate BatchMatmulRoot(p: Program, root: OpId) {
    && root in p.ops && p.ops[root].kind.BatchMatmul?
    && |p.ops[root].inits| == 1
    && (TypeAt(p, p.ops[root].inits[0]).TensorType? ==> |p.ops[root].results| == 1)
  }

  /**
   * The matmul that replaces a batch matmul of expands of matrices: the
   * sources of the inputs as inputs, the source of the init as init, and the
   * type of that source.
   */
  function BatchToMatmul(p: Program, root: OpId): Option<Op>
    requires ExpandsWellFormed(p) && BatchMatmulRoot(p, root)
  {
    var sources := ExpandSources(p, Operands(p.ops[root]));
    if sources.None? then None
    else
      var output := sources.value[|sources.value| - 1];
      Some(Op(Matmul, sources.value[..|sources.value| - 1], [output], [TypeAt(p, output)], map[], EmptyRegion))
  }

  /** A failing operand makes every longer prefix fail. */
  lemma {:induction false} ExpandSourcesFail(p: Program, vs: seq<Value>, i: nat)
    requires ExpandsWellFormed(p) && i < |vs| && ExpandSource(p, vs[i]).None?
    ensures ExpandSources(p, vs).None?
    decreases |vs|
  {
    if i < |vs| - 1 {
      ExpandSourcesFail(p, vs[..|vs| - 1], i);
    }
  }

  /**
   * The pattern as the source runs it: a loop collects the expand sources
   * of the inputs and the init, failing at the first operand that is not an
   * expand of a matrix; the last source is popped as the output.
   */
  method RewriteBatchMatmulToMatmulImpl(rw: Rewriter, root: OpId) returns (success: bool)
    requires rw.Valid() && ExpandsWellFormed(rw.State()) && BatchMatmulRoot(rw.State(), root)
    modifies rw
    ensures rw.Valid()
    ensures success <==> BatchToMatmul(old(rw.State()), root).Some?
    ensures success ==> && rw.State() == Replaced(old(rw.State()), root, BatchToMatmul(old(rw.State()), root).value, old(rw.next))
                        && rw.next == old(rw.next) + 1
    ensures !success ==> rw.State() == old(rw.State()) && rw.next == old(rw.next)
  {
    var p := rw.State();
    var op := rw.ops[root];
    var operands := op.inputs + op.inits;
    var matmulOperands: seq<Value> := [];
    for i := 0 to |operands|
      invariant ExpandSources(p, operands[..i]) == Some(matmulOperands)
    {
      var expandOp := DefiningOp(p, operands[i]);
      if expandOp.None? || !rw.ops[expandOp.value].kind.ExpandShape? || TypeAt(p, rw.ops[expandOp.value].inputs[0]).Rank() != 2 {
        ExpandSourcesFail(p, operands, i);
        return false;
      }
      matmulOperands := matmulOperands + [rw.ops[expandOp.value].inputs[0]];
      assert operands[..i + 1][..i] == operands[..i];
    }
    assert operands[..|operands|] == operands;
    var outputOperand := matmulOperands[|matmulOperands| - 1];
    matmulOperands := matmulOperands[..|matmulOperands| - 1];
    assert |op.results| == 1 by {
      var last := operands[|operands| - 1];
      ExpandSourcesAll(p, operands);
      assert last == op.inits[0] && ExpandSource(p, last).Some?;
    }
    var id := rw.ReplaceWithNew(root, Op(Matmul, matmulOperands, [outputOperand], [TypeAt(p, outputOperand)], map[], EmptyRegion));
    success := true;
  }

  /** The defining ops of a batch matmul's operands do not use its results (they come before it). */
  predicate ProducersPrecede(p: Program, root: OpId)
    requires root in p.ops
  {
    forall v :: v in Operands(p.ops[root]) && v.OpResult? && v.op in p.ops ==> NoSelfUse(p.ops[v.op], root)
  }

  /** The expand sources are defined and, as the producers come first, are not results of root. */
  lemma ExpandSourcesDefined(p: Program, root: OpId, vs: seq<Value>)
    requires Closed(p) && ExpandsWellFormed(p) && root in p.ops && ProducersPrecede(p, root)
    requires forall v :: v in vs ==> v in Operands(p.ops[root])
    requires ExpandSources(p, vs).Some?
    ensures forall v :: v in ExpandSources(p, vs).value ==> IsDefined(p, v) && !(v.OpResult? && v.op == root)
  {
    ExpandSourcesAll(p, vs);
    var sources := ExpandSources(p, vs).value;
    forall v | v in sources ensures IsDefined(p, v) && !(v.OpResult? && v.op == root) {
      var k :| 0 <= k < |sources| && sources[k] == v;
      var d := DefiningOp(p, vs[k]).value;
      assert vs[k] in vs;
      assert v in Operands(p.ops[d]);
    }
  }

  /**
   * The matmul's operands are the expand sources of the batch matmul's, in
   * order: defined, not results of the batch matmul, and with the init's
   * source of rank 2.
   */
  lemma BatchToMatmulOperands(p: Program, root: OpId)
    requires Closed(p) && ExpandsWellFormed(p) && BatchMatmulRoot(p, root) && ProducersPrecede(p, root)
    requires BatchToMatmul(p, root).Some?
    ensures var op, m := p.ops[root], BatchToMatmul(p, root).value;
      && |m.inputs| == |op.inputs|
      && (forall k :: 0 <= k < |op.inputs| ==> ExpandSource(p, op.inputs[k]) == Some(m.inputs[k]))
      && |m.inits| == 1 && ExpandSource(p, op.inits[0]) == Some(m.inits[0])
      && TypeAt(p, m.inits[0]).Rank() == 2 && |op.results| == 1
      && forall v :: v in Operands(m) ==> IsDefined(p, v) && !(v.OpResult? && v.op == root)
  {
    var op := p.ops[root];
    var operands := Operands(op);
    ExpandSourcesAll(p, operands);
    var m := BatchToMatmul(p, root).value;
    var sources := ExpandSources(p, operands).value;
    ExpandSourcesDefined(p, root, operands);
    assert sources == m.inputs + m.inits;
    assert operands[|operands| - 1] == op.inits[0];
    forall k | 0 <= k < |op.inputs| ensures ExpandSource(p, op.inputs[k]) == Some(m.inputs[k]) {
      assert operands[k] == op.inputs[k];
    }
  }

  /**
   * The rewrite applies exactly when every input and the init is a
   * tensor.expand_shape of a matrix. Then the matmul reads the inputs'
   * sources in order and writes into the init's source, with its rank-2
   * type, and replaces the batch matmul: the graph stays closed, the batch
   * matmul is erased, and every other op reads the matmul's result where it
   * read the batch matmul's.
   */
  lemma BatchToMatmulFacts(p: Program, root: OpId, n: OpId)
    requires Closed(p) && FreshFrom(p, n) && ExpandsWellFormed(p) && BatchMatmulRoot(p, root) && ProducersPrecede(p, root)
    ensures BatchToMatmul(p, root).Some? <==>
      forall k :: 0 <= k < |Operands(p.ops[root])| ==> ExpandSource(p, Operands(p.ops[root])[k]).Some?
    ensures BatchToMatmul(p, root).Some? ==>
      var op, m := p.ops[root], BatchToMatmul(p, root).value;
      && |m.inputs| == |op.inputs|
      && (forall k :: 0 <= k < |op.inputs| ==> ExpandSource(p, op.inputs[k]) == Some(m.inputs[k]))
      && |m.inits| == 1 && ExpandSource(p, op.inits[0]) == Some(m.inits[0]) && TypeAt(p, m.inits[0]).Rank() == 2
      && ReplacedBy(p, Replaced(p, root, m, n), root, m, n)
  {
    ExpandSourcesAll(p, Operands(p.ops[root]));
    if BatchToMatmul(p, root).Some? {
      var m := BatchToMatmul(p, root).value;
      BatchToMatmulOperands(p, root);
      ReplacedFacts(p, Replaced(p, root, m, n), root, m, n);
    }
  }

  // The tiling walk of runOnOperation.

  /**
   * scf::tileUsingSCFForOp with tile sizes (1, 0, 0) (not part of this
   * model): the outermost loop that tiles the batch of a batch matmul, when
   * tiling succeeds.
   */
  type Tiler = (Program, OpId) -> Option<Op>

  /**
   * What the tiling promises: the loop yields one value for each result of
   * the batch matmul and reads only values defined before it.
   */
  ghost predicate TilerFits(tile: Tiler) {
    forall p: Program, id: OpId :: id in p.ops && tile(p, id).Some? ==>
      && |tile(p, id).value.results| == |p.ops[id].results|
      && (forall v :: v in Operands(tile(p, id).value) ==> IsDefined(p, v))
      && NoSelfUse(tile(p, id).value, id)
  }

  /** The loop tagged as the parallel root: attribute `name` set to the string `root`. */
  function MarkedLoop(loop: Op, name: string, root: string): (r: Op)
    ensures name in r.attrs && r.attrs[name] == StrAttr(root)
  {
    loop.(attrs := loop.attrs[name := StrAttr(root)])
  }

  /**
   * One visit of the walk: tile the batch matmul under id, create the loop
   * under n, tag it, and replace the batch matmul by the loop's results;
   * None when tiling fails.
   */
  function TileOne(p: Program, id: OpId, tile: Tiler, n: OpId, name: string, root: string): Option<Program>
    requires id in p.ops
  {
    var loop := tile(p, id);
    if loop.None? then None
    else Some(ReplaceOpIn(AddOp(p, n, MarkedLoop(loop.value, name, root)), id, ResultsOf(n, |p.ops[id].results|)))
  }

  predicate Distinct(ids: seq<OpId>) {
    forall j, k :: 0 <= j < k < |ids| ==> ids[j] != ids[k]
  }

  /**
   * The walk over the batch matmuls ids, in walk order, with the next free
   * identifier n: the final graph, the next free identifier, and whether the
   * pass failure was signalled. A failed tiling only ends that visit of the
   * walk's callback; the walk goes on with the next batch matmul.
   */
  function TileWalk(p: Program, ids: seq<OpId>, tile: Tiler, n: OpId, name: string, root: string): (Program, OpId, bool)
    requires Distinct(ids) && forall k :: 0 <= k < |ids| ==> ids[k] in p.ops
    decreases |ids|
  {
    if |ids| == 0 then (p, n, false)
    else
      var step := TileOne(p, ids[0], tile, n, name, root);
      if step.None? then
        var r := TileWalk(p, ids[1..], tile, n, name, root);
        (r.0, r.1, true)
      else
        assert forall k :: 1 <= k < |ids| ==> ids[k] in step.value.ops;
        TileWalk(step.value, ids[1..], tile, n + 1, name, root)
  }

  method TileBatchMatmuls(rw: Rewriter, ids: seq<OpId>, tile: Tiler, name: string, root: string) returns (failed: bool)
    requires rw.Valid() && Distinct(ids) && forall k :: 0 <= k < |ids| ==> ids[k] in rw.ops
    modifies rw
    ensures rw.Valid()
    ensures (rw.State(), rw.next, failed) == TileWalk(old(rw.State()), ids, tile, old(rw.next), name, root)
  {
    ghost var walk := TileWalk(rw.State(), ids, tile, rw.next, name, root);
    failed := false;
    assert ids[0..] == ids;
    for i := 0 to |ids|
      invariant rw.Valid()
      invariant WalkRest(rw.State(), ids[i..], tile, rw.next, name, root, walk, failed)
    {
      ghost var p := rw.State();
      ghost var n := rw.next;
      WalkRestHead(p, ids[i..], tile, n, name, root, walk, failed);
      var tiled := TileBatchMatmul(rw, ids[i], tile, name, root);
      WalkVisit(p, ids[i..], tile, n, name, root, rw.State(), rw.next, tiled, walk, failed);
      assert ids[i..][1..] == ids[i + 1..];
      failed := failed || !tiled;
    }
  }

  /** The walk still to do over ids from p, together with failed, ends where the whole walk does. */
  ghost predicate WalkRest(p: Program, ids: seq<OpId>, tile: Tiler, n: OpId, name: string, root: string,
                           walk: (Program, OpId, bool), failed: bool) {
    && Distinct(ids) && (forall k :: 0 <= k < |ids| ==> ids[k] in p.ops)
    && var r := TileWalk(p, ids, tile, n, name, root); walk == (r.0, r.1, r.2 || failed)
  }

  lemma WalkRestHead(p: Program, ids: seq<OpId>, tile: Tiler, n: OpId, name: string, root: string,
                     walk: (Program, OpId, bool), failed: bool)
    requires |ids| > 0 && WalkRest(p, ids, tile, n, name, root, walk, failed)
    ensures ids[0] in p.ops
  {
  }

  /**
   * One visit of the walk's callback: tile the batch matmul under id, tag
   * the loop and replace the batch matmul by the loop's results.
   */
  method TileBatchMatmul(rw: Rewriter, id: OpId, tile: Tiler, name: string, root: string) returns (tiled: bool)
    requires rw.Valid() && id in rw.ops
    modifies rw
    ensures rw.Valid()
    ensures tiled <==> TileOne(old(rw.State()), id, tile, old(rw.next), name, root).Some?
    ensures tiled ==> rw.State() == TileOne(old(rw.State()), id, tile, old(rw.next), name, root).value && rw.next == old(rw.next) + 1
    ensures !tiled ==> rw.State() == old(rw.State()) && rw.next == old(rw.next)
  {
    var p := rw.State();
    var loop := tile(p, id);
    if loop.None? {
      return false;
    }
    var n := rw.Create(loop.value);
    rw.SetAttr(n, name, StrAttr(root));
    SetAttrOfAdded(p, n, loop.value, name, root, rw.State());
    rw.ReplaceOp(id, ResultsOf(n, |p.ops[id].results|));
    tiled := true;
  }

  /**
   * One visit of the walk, whether its tiling fails (q is p) or succeeds (q
   * is the tiled graph): the walk goes on from q with the remaining ids.
   */
  lemma WalkVisit(p: Program, ids: seq<OpId>, tile: Tiler, n: OpId, name: string, root: string, q: Program, m: OpId, tiled: bool,
                  walk: (Program, OpId, bool), failed: bool)
    requires |ids| > 0 && WalkRest(p, ids, tile, n, name, root, walk, failed)
    requires tiled <==> TileOne(p, ids[0], tile, n, name, root).Some?
    requires tiled ==> q == TileOne(p, ids[0], tile, n, name, root).value && m == n + 1
    requires !tiled ==> q == p && m == n
    ensures WalkRest(q, ids[1..], tile, m, name, root, walk, failed || !tiled)
  {
  }

  /** Tagging the op just added equals adding the tagged op. */
  lemma SetAttrOfAdded(p: Program, id: OpId, loop: Op, name: string, root: string, q: Program)
    requires id !in p.ops && q == SetAttrIn(AddOp(p, id, loop), id, name, StrAttr(root))
    ensures q == AddOp(p, id, MarkedLoop(loop, name, root))
  {
  }

  /**
   * One successful visit keeps the graph closed, erases the batch matmul,
   * keeps every other op and adds the tagged loop under n.
   */
  lemma TileOneFacts(p: Program, id: OpId, tile: Tiler, n: OpId, name: string, root: string)
    requires Closed(p) && FreshFrom(p, n) && id in p.ops && TilerFits(tile)
    requires TileOne(p, id, tile, n, name, root).Some?
    ensures var q := TileOne(p, id, tile, n, name, root).value;
      && Closed(q) && FreshFrom(q, n + 1) && q.ops.Keys == p.ops.Keys - {id} + {n}
      && name in q.ops[n].attrs && q.ops[n].attrs[name] == StrAttr(root)
      && forall j :: j in p.ops && j != id ==> q.ops[j].attrs == p.ops[j].attrs
  {
    var loop := MarkedLoop(tile(p, id).value, name, root);
    var p1 := AddOp(p, n, loop);
    AddOpClosed(p, n, loop);
    ReplacedByResults(p1, TileOne(p, id, tile, n, name, root).value, id, n);
  }

  /**
   * Replacing the op under id by the results of the op under n keeps the
   * graph closed, removes id and keeps the attributes of every other op.
   */
  lemma ReplacedByResults(p: Program, q: Program, id: OpId, n: OpId)
    requires Closed(p) && id in p.ops && n in p.ops && n != id && |p.ops[n].results| == |p.ops[id].results|
    requires q == ReplaceOpIn(p, id, ResultsOf(n, |p.ops[id].results|))
    ensures Closed(q) && q.ops.Keys == p.ops.Keys - {id}
    ensures forall j :: j in q.ops ==> q.ops[j].attrs == p.ops[j].attrs
  {
    var k := |p.ops[id].results|;
    assert forall j :: 0 <= j < k ==> IsDefined(p, ResultsOf(n, k)[j]);
    ReplaceOpClosed(p, id, ResultsOf(n, k));
    ReplaceOpErases(p, id, ResultsOf(n, k));
  }

  /** The loops created under n .. m - 1 are in q and tagged as the parallel root. */
  predicate LoopsTagged(q: Program, n: OpId, m: OpId, name: string, root: string) {
    forall id :: n <= id < m ==> id in q.ops && name in q.ops[id].attrs && q.ops[id].attrs[name] == StrAttr(root)
  }

  /**
   * The outcome r of the walk over ids from p with next free identifier n:
   * the graph stays closed; failure is signalled exactly when a visited
   * batch matmul is still in the graph, that is when tiling one of them
   * failed; every op the walk did not visit is kept with its attributes;
   * and every op it created
   * is a loop tagged as the parallel root.
   */
  predicate Walked(p: Program, ids: seq<OpId>, n: OpId, name: string, root: string, r: (Program, OpId, bool)) {
    && WalkKept(p, ids, n, r.0, r.1)
    && (r.2 <==> exists k :: 0 <= k < |ids| && ids[k] in r.0.ops)
    && LoopsTagged(r.0, n, r.1, name, root)
  }

  /** The graph q after the walk is closed, every unvisited op is kept with its attributes, and the rest is new. */
  predicate WalkKept(p: Program, ids: seq<OpId>, n: OpId, q: Program, m: OpId) {
    && Closed(q) && FreshFrom(q, m) && n <= m
    && (forall id :: id in p.ops && id !in ids ==> id in q.ops && q.ops[id].attrs == p.ops[id].attrs)
    && (forall id :: id in q.ops ==> id in p.ops || n <= id)
  }

  /** A failed visit: the batch matmul stays, and the rest of the walk cannot remove it. */
  lemma WalkedAfterFailure(p: Program, ids: seq<OpId>, n: OpId, name: string, root: string, r: (Program, OpId, bool))
    requires Distinct(ids) && |ids| > 0 && ids[0] in p.ops
    requires Walked(p, ids[1..], n, name, root, r)
    ensures Walked(p, ids, n, name, root, (r.0, r.1, true))
  {
    var rest := ids[1..];
    assert forall k :: 0 <= k < |rest| ==> rest[k] == ids[k + 1];
    assert ids[0] !in rest;
    assert ids[0] in r.0.ops;
  }

  /** A successful visit: the batch matmul is gone for good and its loop is tagged. */
  lemma WalkedAfterTiling(p: Program, p1: Program, ids: seq<OpId>, n: OpId, name: string, root: string, r: (Program, OpId, bool))
    requires Distinct(ids) && |ids| > 0 && FreshFrom(p, n) && forall k :: 0 <= k < |ids| ==> ids[k] in p.ops
    requires p1.ops.Keys == p.ops.Keys - {ids[0]} + {n} && name in p1.ops[n].attrs && p1.ops[n].attrs[name] == StrAttr(root)
    requires forall id :: id in p.ops && id != ids[0] ==> p1.ops[id].attrs == p.ops[id].attrs
    requires Walked(p1, ids[1..], n + 1, name, root, r)
    ensures Walked(p, ids, n, name, root, r)
  {
    var rest := ids[1..];
    var (q, m, failed) := r;
    assert ids[0] !in q.ops by {
      assert ids[0] in p.ops && ids[0] !in p1.ops;
    }
    if failed {
      var k :| 0 <= k < |rest| && rest[k] in q.ops;
      assert ids[k + 1] == rest[k];
    } else {
      forall k | 1 <= k < |ids| ensures ids[k] !in q.ops {
        assert ids[k] == rest[k - 1];
      }
    }
    forall id | id in p.ops && id !in ids ensures id in q.ops && q.ops[id].attrs == p.ops[id].attrs {
      assert id in p1.ops && id !in rest;
    }
    assert n !in rest by {
      forall k | 0 <= k < |rest| ensures rest[k] != n {
        assert rest[k] == ids[k + 1] && ids[k + 1] in p.ops;
      }
    }
  }

  /** The walk has the outcome Walked describes. */
  lemma {:induction false} TileWalkFacts(p: Program, ids: seq<OpId>, tile: Tiler, n: OpId, name: string, root: string, r: (Program, OpId, bool))
    requires Closed(p) && FreshFrom(p, n) && TilerFits(tile)
    requires Distinct(ids) && forall k :: 0 <= k < |ids| ==> ids[k] in p.ops
    requires r == TileWalk(p, ids, tile, n, name, root)
    ensures Walked(p, ids, n, name, root, r)
    decreases |ids|, 1
  {
    if |ids| == 0 {
      assert LoopsTagged(p, n, n, name, root);
    } else if TileOne(p, ids[0], tile, n, name, root).None? {
      var rest := TileWalk(p, ids[1..], tile, n, name, root);
      TileWalkFacts(p, ids[1..], tile, n, name, root, rest);
      WalkedAfterFailure(p, ids, n, name, root, rest);
    } else {
      TileWalkTiled(p, ids, tile, n, name, root, r);
    }
  }

  /** TileWalkFacts when the first visit tiles its batch matmul. */
  lemma {:induction false} TileWalkTiled(p: Program, ids: seq<OpId>, tile: Tiler, n: OpId, name: string, root: string, r: (Program, OpId, bool))
    requires Closed(p) && FreshFrom(p, n) && TilerFits(tile)
    requires Distinct(ids) && |ids| > 0 && forall k :: 0 <= k < |ids| ==> ids[k] in p.ops
    requires TileOne(p, ids[0], tile, n, name, root).Some?
    requires r == TileWalk(p, ids, tile, n, name, root)
    ensures Walked(p, ids, n, name, root, r)
    decreases |ids|, 0
  {
    var p1 := TileOne(p, ids[0], tile, n, name, root).value;
    TileOneFacts(p, ids[0], tile, n, name, root);
    TileWalkFacts(p1, ids[1..], tile, n + 1, name, root, r);
    WalkedAfterTiling(p, p1, ids, n, name, root, r);
  }
}
