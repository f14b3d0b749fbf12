/**
 * `MapGenericOpToTpp` of lib/Standalone/LinalgMapToTpp.cpp: a
 * `linalg.generic` whose body is a bare yield, a single `mathx.relu`, a
 * single `arith.addf`, or the multiply-accumulate of a matmul is marked, in
 * place, with the name of the TPP micro-kernel that implements it (its
 * `library_call` attribute). Nothing else about the op changes.
 *
 * Scalar arithmetic is over the integers; float and integer element types
 * are tags. `linalg::isElementwise` is not part of this model and is a
 * parameter.
 */
module LinalgMapToTpp {
  import opened Wrappers
  import opened Affine
  import opened Sums
  import opened Tensors
  import opened Ir

  function Terminator(b: Block): BodyOp
    requires |b.ops| > 0
  {
    b.ops[|b.ops| - 1]
  }

  /** What the op verifier guarantees of a generic body: each block ends in its yield. */
  predicate YieldTerminated(r: Region) {
    forall k :: 0 <= k < |r.blocks| ==> |r.blocks[k].ops| > 0 && Terminator(r.blocks[k]).name == Yield
  }

  /** A yield terminates each block and appears nowhere else in it. */
  predicate WellFormedBody(r: Region) {
    && YieldTerminated(r)
    && forall k, j :: 0 <= k < |r.blocks| && 0 <= j < |r.blocks[k].ops| - 1 ==> r.blocks[k].ops[j].name != Yield
  }

  /** A `linalg.generic` of the graph with a well-formed body. */
  predicate GenericLike(p: Program, root: OpId) {
    root in p.ops && p.ops[root].kind.GenericOp? && WellFormedBody(p.ops[root].region)
  }

  // hasOnlyYieldOp and hasOnlyScalarElementwiseOp

  /** hasOnlyYieldOp: one block holding exactly one op. */
  predicate HasOnlyYieldOp(r: Region) {
    |r.blocks| == 1 && |r.blocks[0].ops| == 1
  }

  /** An op of the kind looked for, or a yield, every result of which is an integer or a float. */
  predicate ScalarOrYield(op: BodyOp, name: BodyOpName) {
    && (op.name == name || op.name == Yield)
    && forall t :: t in op.resultTypes ==> IsIntOrFloat(t)
  }

  /** The bodies hasOnlyScalarElementwiseOp accepts: one block of two ops, each as ScalarOrYield. */
  predicate ScalarElementwise(r: Region, name: BodyOpName) {
    && |r.blocks| == 1 && |r.blocks[0].ops| == 2
    && forall k :: 0 <= k < 2 ==> ScalarOrYield(r.blocks[0].ops[k], name)
  }

  /** hasOnlyScalarElementwiseOp: the early-exit scan of the block's ops. */
  method HasOnlyScalarElementwiseOp(r: Region, name: BodyOpName) returns (b: bool)
    ensures b <==> ScalarElementwise(r, name)
  {
    if |r.blocks| != 1 {
      return false;
    }
    var ops := r.blocks[0].ops;
    if |ops| != 2 {
      return false;
    }
    for k := 0 to |ops|
      invariant forall j :: 0 <= j < k ==> ScalarOrYield(ops[j], name)
    {
      var op := ops[k];
      if !(op.name == name || op.name == Yield) || exists t :: t in op.resultTypes && !IsIntOrFloat(t) {
        return false;
      }
    }
    return true;
  }

  /** On a well-formed body, only a lone yield passes hasOnlyYieldOp. */
  lemma OnlyYieldShape(r: Region)
    requires WellFormedBody(r)
    ensures HasOnlyYieldOp(r) <==> |r.blocks| == 1 && |r.blocks[0].ops| == 1 && r.blocks[0].ops[0].name == Yield
  {
    if HasOnlyYieldOp(r) {
      assert Terminator(r.blocks[0]) == r.blocks[0].ops[0];
    }
  }

  /**
   * On a well-formed body, hasOnlyScalarElementwiseOp accepts exactly the
   * op looked for followed by the yield, with integer or float results.
   */
  lemma ScalarElementwiseShape(r: Region, name: BodyOpName)
    requires WellFormedBody(r) && name != Yield
    ensures ScalarElementwise(r, name) <==>
      && |r.blocks| == 1 && |r.blocks[0].ops| == 2
      && r.blocks[0].ops[0].name == name && r.blocks[0].ops[1].name == Yield
      && (forall t :: t in r.blocks[0].ops[0].resultTypes ==> IsIntOrFloat(t))
      && (forall t :: t in r.blocks[0].ops[1].resultTypes ==> IsIntOrFloat(t))
  {
    if |r.blocks| == 1 && |r.blocks[0].ops| == 2 {
      assert r.blocks[0].ops[0].name != Yield;
      assert Terminator(r.blocks[0]) == r.blocks[0].ops[1];
    }
  }

  /**
   * On a well-formed body at most one of the elementwise kernels matches, so
   * the order identity, relu, add in which they are tried decides nothing.
   */
  lemma ElementwiseKernelsExclusive(r: Region)
    requires WellFormedBody(r)
    ensures !(HasOnlyYieldOp(r) && ScalarElementwise(r, MathxRelu))
    ensures !(HasOnlyYieldOp(r) && ScalarElementwise(r, AddF))
    ensures !(ScalarElementwise(r, MathxRelu) && ScalarElementwise(r, AddF))
  {
    if |r.blocks| == 1 && |r.blocks[0].ops| == 2 {
      var op0 := r.blocks[0].ops[0];
      assert op0.name != Yield;
      assert ScalarElementwise(r, MathxRelu) ==> op0.name == MathxRelu;
      assert ScalarElementwise(r, AddF) ==> op0.name == AddF;
    }
  }

  // isTPPGemm

  /** The maps (i, j, k) -> (i, k), (k, j), (i, j) that inferFromExprList builds. */
  const GemmMaps: seq<AffineMap> :=
    [AffineMap(3, [Dim(0), Dim(2)]), AffineMap(3, [Dim(2), Dim(1)]), AffineMap(3, [Dim(0), Dim(1)])]

  /** getDefiningOp of a body value: the op whose result it is, none for a block argument. */
  function BodyDef(ops: seq<BodyOp>, v: BodyValue): Option<BodyOp> {
    if v.BodyResult? && v.position < |ops| then Some(ops[v.position]) else None
  }

  /**
   * The matcher m_Op<add>(m_Val(arg2), m_Op<mul>(m_Val(arg0), m_Val(arg1)))
   * applied to def: an add of exactly two operands, argument 2 then the
   * result of a mul of exactly arguments 0 and 1, in that order.
   */
  predicate MatchesMulAdd(ops: seq<BodyOp>, def: Option<BodyOp>, add: BodyOpName, mul: BodyOpName) {
    && def.Some? && def.value.name == add && |def.value.operands| == 2
    && def.value.operands[0] == BodyArg(2)
    && var m := BodyDef(ops, def.value.operands[1]);
       m.Some? && m.value.name == mul && m.value.operands == [BodyArg(0), BodyArg(1)]
  }

  /**
   * The checks isTPPGemm makes before it runs the matchers: the iterators,
   * the maps, one block and a static shape, then one yielded value and
   * three block arguments.
   */
  predicate GemmStructure(p: Program, op: Op)
    requires op.kind.GenericOp? && YieldTerminated(op.region)
  {
    var iters := op.kind.iterators;
    && |iters| == 3
    && iters[0] == Parallel && iters[1] == Parallel && iters[2] == Reduction
    && op.kind.maps == GemmMaps
    && |op.region.blocks| == 1 && !HasDynamicShape(p, op)
    && |Terminator(op.region.blocks[0]).operands| == 1
    && op.region.blocks[0].numArgs == 3
  }

  /** isTPPGemm: the structure, the access pattern, a static shape and the multiply-accumulate body. */
  predicate IsTppGemm(p: Program, op: Op)
    requires op.kind.GenericOp? && YieldTerminated(op.region)
  {
    && GemmStructure(p, op)
    && var block := op.region.blocks[0];
       var def := BodyDef(block.ops, Terminator(block).operands[0]);
       (MatchesMulAdd(block.ops, def, AddF, MulF) || MatchesMulAdd(block.ops, def, AddI, MulI))
  }

  /**
   * isTPPGemm as written reaches `mFloat.match(maybeAdd)` with maybeAdd
   * null: every structural check passes and the yielded value is a block
   * argument, which has no defining op. The top-level `m_Op` matcher tests
   * `isa` on that null pointer, so the source has no defined outcome here.
   */
  predicate GemmMatchesNullOp(p: Program, op: Op)
    requires op.kind.GenericOp? && YieldTerminated(op.region)
  {
    GemmStructure(p, op) && Terminator(op.region.blocks[0]).operands[0].BodyArg?
  }

  /** The model treats a yielded block argument as no match, as a null check before the matchers would. */
  lemma NullDefNotMatched(p: Program, op: Op)
    requires op.kind.GenericOp? && YieldTerminated(op.region) && GemmMatchesNullOp(p, op)
    ensures !IsTppGemm(p, op)
  {
    var block := op.region.blocks[0];
    assert BodyDef(block.ops, Terminator(block).operands[0]).None?;
  }

  /**
   * A generic with the gemm iterators and maps, a static shape and a body
   * that only yields its third argument: it is not elementwise (it has a
   * reduction), so matchAndRewrite reaches isTPPGemm, which as written
   * runs the matcher on null; the model finds no kernel.
   */
  lemma YieldOfArgumentReachesNull(p: Program, op: Op, isElementwise: Op -> bool)
    requires op.kind == GenericOp(GemmMaps, [Parallel, Parallel, Reduction])
    requires op.region == Region([Block(3, [BodyOp(Yield, [BodyArg(2)], [])])])
    requires !HasDynamicShape(p, op)
    requires isElementwise(op) ==> forall k :: 0 <= k < |op.kind.iterators| ==> op.kind.iterators[k] == Parallel
    ensures YieldTerminated(op.region) && !isElementwise(op)
    ensures GemmMatchesNullOp(p, op)
    ensures KernelFor(p, op, isElementwise).None?
  {
    assert Terminator(op.region.blocks[0]) == BodyOp(Yield, [BodyArg(2)], []);
    assert op.kind.iterators[2] == Reduction;
    NullDefNotMatched(p, op);
  }

  // The meaning of a body and of a generic with the gemm maps.

  /** The value of v for block arguments args; fuel bounds the depth of the evaluation. */
  function EvalBody(ops: seq<BodyOp>, v: BodyValue, args: seq<int>, fuel: nat): Option<int>
    decreases fuel
  {
    match v
    case BodyArg(i) => if i < |args| then Some(args[i]) else None
    case BodyResult(pos) =>
      if fuel == 0 || pos >= |ops| || |ops[pos].operands| != 2 then None
      else
        var op := ops[pos];
        var l := EvalBody(ops, op.operands[0], args, fuel - 1);
        var r := EvalBody(ops, op.operands[1], args, fuel - 1);
        if l.None? || r.None? then None
        else if op.name == AddF || op.name == AddI then Some(l.value + r.value)
        else if op.name == MulF || op.name == MulI then Some(l.value * r.value)
        else None
  }

  /** The value a one-operand yield yields for the block arguments args. */
  function YieldValue(block: Block, args: seq<int>): Option<int> {
    if |block.ops| > 0 && |Terminator(block).operands| == 1 then
      EvalBody(block.ops, Terminator(block).operands[0], args, |block.ops|)
    else None
  }

  /** What the body yields for the arguments (x, y, acc); 0 where it yields nothing. */
  function BodyValue(block: Block, x: int, y: int, acc: int): int {
    YieldValue(block, [x, y, acc]).GetOr(0)
  }

  /** The body computes acc + x * y from the arguments (x, y, acc). */
  ghost predicate MulAdd(block: Block) {
    forall x, y, acc :: BodyValue(block, x, y, acc) == acc + x * y
  }

  /** What isTPPGemm accepts computes arg2 + arg0 * arg1. */
  lemma GemmBodyIsMulAdd(p: Program, op: Op)
    requires op.kind.GenericOp? && YieldTerminated(op.region) && IsTppGemm(p, op)
    ensures MulAdd(op.region.blocks[0])
  {
    var block := op.region.blocks[0];
    var ops := block.ops;
    var v := Terminator(block).operands[0];
    var add := ops[v.position];
    var mv := add.operands[1];
    assert mv.position != v.position;
    assert |ops| >= 2;
    forall x, y, acc ensures BodyValue(block, x, y, acc) == acc + x * y {
      var args := [x, y, acc];
      assert YieldValue(block, args) == Some(acc + x * y) by {
        var f := |ops|;
        assert EvalBody(ops, mv, args, f - 1) == Some(x * y);
        assert EvalBody(ops, add.operands[0], args, f - 1) == Some(acc);
      }
    }
  }

  /**
   * The generic with the gemm maps and iterators [par, par, red] at (i, j):
   * the body folded over k = 0 .. n - 1, from init, on a[i, k] and b[k, j].
   */
  function Accumulate(block: Block, a: Tensor, b: Tensor, i: int, j: int, n: int, init: int): int
    decreases n
  {
    if n <= 0 then init
    else BodyValue(block, a.at([i, n - 1]), b.at([n - 1, j]), Accumulate(block, a, b, i, j, n - 1, init))
  }

  /** The result of a generic with the gemm maps and the given body on A, B and init C. */
  function GemmGeneric(block: Block, a: Tensor, b: Tensor, c: Tensor): Tensor
    requires |a.shape| == 2
  {
    Tensor(c.shape, idx => if |idx| == 2 then Accumulate(block, a, b, idx[0], idx[1], a.shape[1], c.at(idx)) else 0)
  }

  /** A[i, k] * B[k, j]. */
  function GemmProduct(a: Tensor, b: Tensor, i: int, j: int, k: int): int {
    a.at([i, k]) * b.at([k, j])
  }

  /** Folding a multiply-accumulate body sums the products. */
  lemma {:induction false} AccumulateIsSum(block: Block, a: Tensor, b: Tensor, i: int, j: int, n: int, init: int)
    requires MulAdd(block)
    ensures Accumulate(block, a, b, i, j, n, init) == init + Sum(n, k => GemmProduct(a, b, i, j, k))
    decreases n
  {
    if n > 0 {
      AccumulateIsSum(block, a, b, i, j, n - 1, init);
    }
  }

  /** A generic with the gemm maps and a multiply-accumulate body computes C + A * B. */
  lemma MulAddGenericIsMatmul(block: Block, a: Tensor, b: Tensor, c: Tensor)
    requires MulAdd(block)
    requires |a.shape| == 2 && |b.shape| == 2 && a.shape[1] == b.shape[0] && c.shape == [a.shape[0], b.shape[1]]
    ensures Equiv(GemmGeneric(block, a, b, c), Tensors.Matmul(a, b, c))
  {
    forall idx | InBox(idx, c.shape)
      ensures GemmGeneric(block, a, b, c).at(idx) == Tensors.Matmul(a, b, c).at(idx)
    {
      var i, j := idx[0], idx[1];
      AccumulateIsSum(block, a, b, i, j, a.shape[1], c.at(idx));
      SumExt(a.shape[1], k => GemmProduct(a, b, i, j, k), k => a.at([idx[0], k]) * b.at([k, idx[1]]));
    }
  }

  /**
   * isTPPGemm is sound: a generic it accepts computes C + A * B, the
   * operation tpp.matmul implements.
   */
  lemma TppGemmIsMatmul(p: Program, op: Op, a: Tensor, b: Tensor, c: Tensor)
    requires op.kind.GenericOp? && YieldTerminated(op.region) && IsTppGemm(p, op)
    requires |a.shape| == 2 && |b.shape| == 2 && a.shape[1] == b.shape[0] && c.shape == [a.shape[0], b.shape[1]]
    ensures Equiv(GemmGeneric(op.region.blocks[0], a, b, c), Tensors.Matmul(a, b, c))
  {
    GemmBodyIsMulAdd(p, op);
    MulAddGenericIsMatmul(op.region.blocks[0], a, b, c);
  }

  /** The body add(mul(arg0, arg1), arg2): the same arithmetic with the add's operands swapped. */
  function SwappedGemmBody(): Block {
    Block(3, [BodyOp(MulF, [BodyArg(0), BodyArg(1)], [F32]),
              BodyOp(AddF, [BodyResult(0), BodyArg(2)], [F32]),
              BodyOp(Yield, [BodyResult(1)], [])])
  }

  /** isTPPGemm matches the operand order literally: the swapped add is not recognised. */
  lemma SwappedGemmNotMatched(p: Program, op: Op)
    requires op.kind == GenericOp(GemmMaps, [Parallel, Parallel, Reduction])
    requires op.region == Region([SwappedGemmBody()])
    ensures YieldTerminated(op.region) && MulAdd(op.region.blocks[0])
    ensures !IsTppGemm(p, op)
  {
    var block := SwappedGemmBody();
    assert Terminator(block) == block.ops[2];
    forall x, y, acc ensures BodyValue(block, x, y, acc) == acc + x * y {
      assert YieldValue(block, [x, y, acc]) == Some(acc + x * y) by {
        assert EvalBody(block.ops, BodyResult(0), [x, y, acc], 1) == Some(x * y);
      }
    }
  }

  // matchAndRewrite

  /**
   * The micro-kernel matchAndRewrite picks, in the order it tries them: on
   * an elementwise op with a static shape identity, relu, add; then gemm;
   * none when nothing matches.
   */
  function KernelFor(p: Program, op: Op, isElementwise: Op -> bool): Option<string>
    requires op.kind.GenericOp? && YieldTerminated(op.region)
  {
    var isStatic := !HasDynamicShape(p, op);
    if isElementwise(op) && HasOnlyYieldOp(op.region) && isStatic then Some("tpp.identity")
    else if isElementwise(op) && ScalarElementwise(op.region, MathxRelu) && isStatic then Some("tpp.relu")
    else if isElementwise(op) && ScalarElementwise(op.region, AddF) && isStatic then Some("tpp.add")
    else if IsTppGemm(p, op) then Some("tpp.matmul")
    else None
  }

  /**
   * MapGenericOpToTpp::matchAndRewrite: on a match the op's library call is
   * set to the kernel's name and nothing else changes; otherwise the graph
   * is untouched.
   */
  method MapGenericOpToTpp(rw: Rewriter, root: OpId, isElementwise: Op -> bool) returns (success: bool)
    requires rw.Valid() && GenericLike(rw.State(), root)
    modifies rw
    ensures rw.Valid() && rw.next == old(rw.next)
    ensures success <==> KernelFor(old(rw.State()), old(rw.ops[root]), isElementwise).Some?
    ensures success ==> rw.State() == SetAttrIn(old(rw.State()), root, LibraryCall,
                                                StrAttr(KernelFor(old(rw.State()), old(rw.ops[root]), isElementwise).value))
    ensures !success ==> rw.State() == old(rw.State())
  {
    var op := rw.ops[root];
    var isStatic := !HasDynamicShape(rw.State(), op);
    var kernel: Option<string> := None;
    if isElementwise(op) {
      var relu := HasOnlyScalarElementwiseOp(op.region, MathxRelu);
      var add := HasOnlyScalarElementwiseOp(op.region, AddF);
      if HasOnlyYieldOp(op.region) && isStatic {
        kernel := Some("tpp.identity");
      } else if relu && isStatic {
        kernel := Some("tpp.relu");
      } else if add && isStatic {
        kernel := Some("tpp.add");
      }
    }
    if kernel.None? && IsTppGemm(rw.State(), op) {
      kernel := Some("tpp.matmul");
    }
    if kernel.None? {
      return false;
    }
    rw.SetAttr(root, LibraryCall, StrAttr(kernel.value));
    success := true;
  }

  /**
   * Each kernel is chosen exactly when its own condition holds: the
   * elementwise kernels exclude one another, and when the elementwise check
   * only admits all-parallel ops, the reduction of a gemm keeps it from
   * being shadowed, so the order of the tries decides nothing.
   */
  lemma KernelForCharacterised(p: Program, op: Op, isElementwise: Op -> bool)
    requires op.kind.GenericOp? && WellFormedBody(op.region)
    requires isElementwise(op) ==> forall k :: 0 <= k < |op.kind.iterators| ==> op.kind.iterators[k] == Parallel
    ensures KernelFor(p, op, isElementwise) == Some("tpp.identity") <==>
      isElementwise(op) && HasOnlyYieldOp(op.region) && !HasDynamicShape(p, op)
    ensures KernelFor(p, op, isElementwise) == Some("tpp.relu") <==>
      isElementwise(op) && ScalarElementwise(op.region, MathxRelu) && !HasDynamicShape(p, op)
    ensures KernelFor(p, op, isElementwise) == Some("tpp.add") <==>
      isElementwise(op) && ScalarElementwise(op.region, AddF) && !HasDynamicShape(p, op)
    ensures KernelFor(p, op, isElementwise) == Some("tpp.matmul") <==> IsTppGemm(p, op)
    ensures KernelFor(p, op, isElementwise).None? <==>
      && !IsTppGemm(p, op)
      && (isElementwise(op) && !HasDynamicShape(p, op) ==>
            !HasOnlyYieldOp(op.region) && !ScalarElementwise(op.region, MathxRelu) && !ScalarElementwise(op.region, AddF))
  {
    ElementwiseKernelsExclusive(op.region);
    if IsTppGemm(p, op) {
      assert op.kind.iterators[2] == Reduction;
    }
  }

  /**
   * A successful match leaves every op, operand and result type in place
   * and the graph closed, and marks the op with the kernel's name.
   */
  lemma MapToTppMarks(p: Program, root: OpId, isElementwise: Op -> bool)
    requires GenericLike(p, root) && Closed(p)
    requires KernelFor(p, p.ops[root], isElementwise).Some?
    ensures var q := SetAttrIn(p, root, LibraryCall, StrAttr(KernelFor(p, p.ops[root], isElementwise).value));
      && KeepsOps(p, q) && Closed(q) && q.ops.Keys == p.ops.Keys
      && MarkedWith(q.ops[root], KernelFor(p, p.ops[root], isElementwise).value)
      && (forall id :: id in p.ops && id != root ==> q.ops[id] == p.ops[id])
  {
    var q := SetAttrIn(p, root, LibraryCall, StrAttr(KernelFor(p, p.ops[root], isElementwise).value));
    forall id, v | id in q.ops && v in Operands(q.ops[id]) ensures IsDefined(q, v) {
      assert Operands(q.ops[id]) == Operands(p.ops[id]);
      if v.OpResult? {
        assert IsDefined(p, v);
        assert q.ops[v.op].results == p.ops[v.op].results;
      }
    }
  }
}
