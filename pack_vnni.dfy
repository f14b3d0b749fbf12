/**
 * `packVNNIMatmulOp` and `packVNNIBRGemmOp` of lib/TPP/ToBlockLayoutAndBack.cpp
 * on the program graph. A blocked bf16 matmul generic has its B operand
 * packed to VNNI ([JB][KB][kb/v][jb][v], v the blocking factor of B's type)
 * and is replaced by a generic reading the packed B; a bf16 batch-reduce
 * matmul has its B operand packed to [R][K/2][N][2] and is replaced by
 * `tpp.brgemm`. Neither unpacks anything: C keeps its layout.
 *
 * `isBlockedMatmul` and `getVnniBlockingFactor` are not part of this model;
 * they are parameters, the factor a positive integer when there is one.
 */
module PackVnni {
  import opened Wrappers
  import opened Sums
  import opened Tensors
  import opened TensorPack
  import opened TppLayouts
  import opened Contraction
  import opened VnniPacking
  import opened Ir
  import opened LayoutOps
  import opened PackRewrite

  type BlockingFactor = n: int | n > 0 witness 1

  /**
   * A `linalg.generic` as the VNNI rewrite may meet it: every operand defined
   * and not a result of the op, on tensors or on buffers; and, if the op is a
   * blocked matmul, it has inputs A, B and init C and on tensors one result
   * of C's type.
   */
  predicate VnniMatmulLike(p: Program, root: OpId, isBlockedMatmul: Op -> bool) {
    && root in p.ops && p.ops[root].kind.GenericOp?
    && (forall v :: v in Operands(p.ops[root]) ==> TypeOf(p, v).Some? && !(v.OpResult? && v.op == root))
    && (HasTensorSemantics(p, p.ops[root]) || HasBufferSemantics(p, p.ops[root]))
    && (isBlockedMatmul(p.ops[root]) ==>
          && |p.ops[root].inputs| == 2 && |p.ops[root].inits| == 1
          && (HasTensorSemantics(p, p.ops[root]) ==> p.ops[root].results == [TypeOf(p, p.ops[root].inits[0]).value]))
  }

  /** The checks of packVNNIMatmulOp, in the order they are made; on success, the blocking factor. */
  function VnniMatmulCheck(p: Program, root: OpId, isBlockedMatmul: Op -> bool,
                           blockingFactor: Type -> Option<BlockingFactor>): Outcome<BlockingFactor>
    requires VnniMatmulLike(p, root, isBlockedMatmul)
  {
    var op := p.ops[root];
    if |op.inputs| > 0 && ElementTypeOf(p, op.inputs[0]) != Some(BF16) then Failure("require bf16 type")
    else if HasDynamicShape(p, op) then Failure("require static shape")
    else if HasBufferSemantics(p, op) then Failure("require tensor semantics")
    else if !isBlockedMatmul(op) then Failure("require matmul semantics")
    else
      assert op.inputs[1] in Operands(op);
      var tb := TypeOf(p, op.inputs[1]).value;
      if tb.Rank() != 4 then Failure("already packed to VNNI")
      else if blockingFactor(tb).None? then Failure("unsupported blocking factor for type")
      else Success(blockingFactor(tb).value)
  }

  /**
   * The rewrite applies exactly to a static blocked matmul on tensors whose
   * first input is bf16, whose B is still of rank 4 and whose B type has a
   * blocking factor; the factor is then the one of B's type, and B is a
   * rank-4 tensor.
   */
  lemma VnniMatmulCheckSucceeds(p: Program, root: OpId, isBlockedMatmul: Op -> bool,
                                blockingFactor: Type -> Option<BlockingFactor>)
    requires VnniMatmulLike(p, root, isBlockedMatmul)
    ensures VnniMatmulCheck(p, root, isBlockedMatmul, blockingFactor).Success? <==>
      && isBlockedMatmul(p.ops[root])
      && ElementTypeOf(p, p.ops[root].inputs[0]) == Some(BF16)
      && !HasDynamicShape(p, p.ops[root]) && HasTensorSemantics(p, p.ops[root])
      && TypeOf(p, p.ops[root].inputs[1]).value.Rank() == 4
      && blockingFactor(TypeOf(p, p.ops[root].inputs[1]).value).Some?
    ensures VnniMatmulCheck(p, root, isBlockedMatmul, blockingFactor).Success? ==>
      && VnniMatmulCheck(p, root, isBlockedMatmul, blockingFactor).value
           == blockingFactor(TypeOf(p, p.ops[root].inputs[1]).value).value
      && TypeOf(p, p.ops[root].inputs[1]).value.TensorType?
      && |TypeOf(p, p.ops[root].inputs[1]).value.shape| == 4
      && TypeOf(p, p.ops[root].inits[0]).Some?
      && p.ops[root].results == [TypeOf(p, p.ops[root].inits[0]).value]
  {
    var op := p.ops[root];
    if isBlockedMatmul(op) {
      assert op.inputs[0] in Operands(op) && op.inputs[1] in Operands(op) && op.inits[0] in Operands(op);
    }
  }

  /** The kind of the generic taking the matmul's place: as the source builds it, or corrected. */
  function VnniKind(v: BlockingFactor, asWritten: bool): OpKind {
    if asWritten then GenericKind(VnniGenericAsWritten(v, [])) else GenericKind(VnniGeneric(v, []))
  }

  /**
   * The graph after the VNNI rewrite of root with factor v, with new ops
   * n .. n + 2: the empty destination and the VNNI pack of b (n, n + 1), and
   * the generic on a, the packed b and c (n + 2), of c's type tc, which takes
   * over root's body and replaces it.
   */
  function VnniGraph(p: Program, root: OpId, a: Value, b: Value, tb: Type, c: Value, tc: Type,
                     v: BlockingFactor, asWritten: bool, n: OpId): Program
    requires tb.TensorType? && |tb.shape| == 4 && root in p.ops && root < n
  {
    var q := WithPack(p, b, tb, Vnni(v, 4), n);
    assert root in q.ops;
    VnniTail(q, root, VnniGenericOf(a, OpResult(n + 1, 0), c, tc, v, asWritten), n + 2)
  }

  /** The generic of the VNNI rewrite on a, the packed b and c. */
  function VnniGenericOf(a: Value, packedB: Value, c: Value, tc: Type, v: BlockingFactor, asWritten: bool): Op {
    Op(VnniKind(v, asWritten), [a, packedB], [c], [tc], map[], EmptyRegion)
  }

  /** The generic g as op id, taking over root's body and replacing root. */
  function VnniTail(q: Program, root: OpId, g: Op, id: OpId): Program
    requires root in q.ops && root != id
  {
    ReplaceOpIn(AttachOp(q, root, g, id), root, [OpResult(id, 0)])
  }

  /** The graph after packVNNIMatmulOp succeeds. */
  function VnniMatmulRewrite(p: Program, root: OpId, isBlockedMatmul: Op -> bool,
                             blockingFactor: Type -> Option<BlockingFactor>, asWritten: bool, n: OpId): Program
    requires VnniMatmulLike(p, root, isBlockedMatmul) && FreshFrom(p, n)
    requires VnniMatmulCheck(p, root, isBlockedMatmul, blockingFactor).Success?
  {
    VnniMatmulCheckSucceeds(p, root, isBlockedMatmul, blockingFactor);
    var op := p.ops[root];
    VnniGraph(p, root, op.inputs[0], op.inputs[1], TypeOf(p, op.inputs[1]).value, op.inits[0],
              TypeOf(p, op.inits[0]).value, VnniMatmulCheck(p, root, isBlockedMatmul, blockingFactor).value,
              asWritten, n)
  }

  /** The rewriting half of packVNNIMatmulOp, once every check has passed. */
  method ApplyVnniPacking(rw: Rewriter, root: OpId, a: Value, b: Value, tb: Type, c: Value, tc: Type,
                          v: BlockingFactor, asWritten: bool, ghost n: OpId) returns (id: OpId)
    requires rw.Valid() && rw.next == n && root in rw.ops && |rw.ops[root].results| == 1
    requires tb.TensorType? && |tb.shape| == 4 && TypeOf(rw.State(), b) == Some(tb)
    modifies rw
    ensures rw.Valid() && id == n + 2
    ensures rw.State() == VnniGraph(old(rw.State()), root, a, b, tb, c, tc, v, asWritten, n)
  {
    ghost var p := rw.State();
    var packedB := ToPackLayout(rw, b, tb, Vnni(v, 4), n);
    ghost var q, n2 := rw.State(), rw.next;
    WithPackKeeps(p, q, b, tb, Vnni(v, 4), n);
    var g := VnniGenericOf(a, packedB, c, tc, v, asWritten);
    id := ReplaceByVnniGeneric(rw, root, g, n2);
    VnniStages(p, q, rw.State(), root, a, b, tb, c, tc, v, asWritten, n, n2);
  }

  /** The pack of b, then the generic on it in place of root, make VnniGraph. */
  lemma VnniStages(p: Program, q: Program, r: Program, root: OpId, a: Value, b: Value, tb: Type, c: Value, tc: Type,
                   v: BlockingFactor, asWritten: bool, n: OpId, n2: OpId)
    requires tb.TensorType? && |tb.shape| == 4 && root in p.ops && root < n && n2 == n + 2
    requires q == WithPack(p, b, tb, Vnni(v, 4), n) && root in q.ops
    requires r == VnniTail(q, root, VnniGenericOf(a, OpResult(n + 1, 0), c, tc, v, asWritten), n2)
    ensures r == VnniGraph(p, root, a, b, tb, c, tc, v, asWritten, n)
  {
  }

  /** The generic's creation, the move of root's body into it, and the replacement of root by it. */
  method ReplaceByVnniGeneric(rw: Rewriter, root: OpId, g: Op, ghost n: OpId) returns (id: OpId)
    requires rw.Valid() && rw.next == n && root in rw.ops && |rw.ops[root].results| == 1 && |g.results| == 1
    modifies rw
    ensures rw.Valid() && id == n && rw.next == n + 1
    ensures root != id && rw.State() == VnniTail(old(rw.State()), root, g, id)
  {
    id := rw.Create(g);
    rw.InlineRegionBefore(root, id);
    rw.ReplaceOp(root, [OpResult(id, 0)]);
  }

  /** packVNNIMatmulOp with the generic as written or corrected. */
  method PackVnniMatmulWith(rw: Rewriter, root: OpId, isBlockedMatmul: Op -> bool,
                            blockingFactor: Type -> Option<BlockingFactor>, asWritten: bool)
    returns (r: Outcome<OpId>)
    requires rw.Valid() && VnniMatmulLike(rw.State(), root, isBlockedMatmul)
    modifies rw
    ensures rw.Valid()
    ensures r.Failure? <==> VnniMatmulCheck(old(rw.State()), root, isBlockedMatmul, blockingFactor).Failure?
    ensures r.Failure? ==>
      && r.reason == VnniMatmulCheck(old(rw.State()), root, isBlockedMatmul, blockingFactor).reason
      && rw.State() == old(rw.State())
    ensures r.Success? ==>
      && r.value == old(rw.next) + 2
      && rw.State() == VnniMatmulRewrite(old(rw.State()), root, isBlockedMatmul, blockingFactor, asWritten, old(rw.next))
  {
    ghost var p := rw.State();
    var op := rw.ops[root];
    if |op.inputs| > 0 {
      var elementType := ElementTypeOf(rw.State(), op.inputs[0]);
      if elementType != Some(BF16) {
        return Failure("require bf16 type");
      }
    }
    if HasDynamicShape(rw.State(), op) {
      return Failure("require static shape");
    }
    if HasBufferSemantics(rw.State(), op) {
      return Failure("require tensor semantics");
    }
    if !isBlockedMatmul(op) {
      return Failure("require matmul semantics");
    }
    assert op.inputs[1] in Operands(op) && op.inits[0] in Operands(op);
    var operandB := op.inputs[1];
    var tb := TypeOf(rw.State(), operandB).value;
    if tb.Rank() != 4 {
      return Failure("already packed to VNNI");
    }
    var factor := blockingFactor(tb);
    if factor.None? {
      return Failure("unsupported blocking factor for type");
    }
    VnniMatmulCheckSucceeds(p, root, isBlockedMatmul, blockingFactor);
    var matrixC := op.inits[0];
    var tc := TypeOf(rw.State(), matrixC).value;
    var id := ApplyVnniPacking(rw, root, op.inputs[0], operandB, tb, matrixC, tc, factor.value, asWritten, rw.next);
    r := Success(id);
  }

  /** packVNNIMatmulOp as the source builds it: B read at (p2, r1, r2 floordiv v, p4, r3). */
  method PackVnniMatmulOpAsWritten(rw: Rewriter, root: OpId, isBlockedMatmul: Op -> bool,
                                   blockingFactor: Type -> Option<BlockingFactor>)
    returns (r: Outcome<OpId>)
    requires rw.Valid() && VnniMatmulLike(rw.State(), root, isBlockedMatmul)
    modifies rw
    ensures rw.Valid()
    ensures r.Failure? <==> VnniMatmulCheck(old(rw.State()), root, isBlockedMatmul, blockingFactor).Failure?
    ensures r.Failure? ==>
      && r.reason == VnniMatmulCheck(old(rw.State()), root, isBlockedMatmul, blockingFactor).reason
      && rw.State() == old(rw.State())
    ensures r.Success? ==>
      && r.value == old(rw.next) + 2
      && rw.State() == VnniMatmulRewrite(old(rw.State()), root, isBlockedMatmul, blockingFactor, true, old(rw.next))
  {
    r := PackVnniMatmulWith(rw, root, isBlockedMatmul, blockingFactor, true);
  }

  /** packVNNIMatmulOp with the corrected generic: B read at (p2, r1, r2 floordiv v, p4, r2 mod v). */
  method PackVnniMatmulOp(rw: Rewriter, root: OpId, isBlockedMatmul: Op -> bool,
                          blockingFactor: Type -> Option<BlockingFactor>)
    returns (r: Outcome<OpId>)
    requires rw.Valid() && VnniMatmulLike(rw.State(), root, isBlockedMatmul)
    modifies rw
    ensures rw.Valid()
    ensures r.Failure? <==> VnniMatmulCheck(old(rw.State()), root, isBlockedMatmul, blockingFactor).Failure?
    ensures r.Failure? ==>
      && r.reason == VnniMatmulCheck(old(rw.State()), root, isBlockedMatmul, blockingFactor).reason
      && rw.State() == old(rw.State())
    ensures r.Success? ==>
      && r.value == old(rw.next) + 2
      && rw.State() == VnniMatmulRewrite(old(rw.State()), root, isBlockedMatmul, blockingFactor, false, old(rw.next))
  {
    r := PackVnniMatmulWith(rw, root, isBlockedMatmul, blockingFactor, false);
  }

  /** The rewrite keeps the graph closed: the new ops use only defined values, and the matmul's uses move to the generic. */
  lemma VnniMatmulRewriteClosed(p: Program, root: OpId, isBlockedMatmul: Op -> bool,
                                blockingFactor: Type -> Option<BlockingFactor>, asWritten: bool, n: OpId)
    requires VnniMatmulLike(p, root, isBlockedMatmul) && FreshFrom(p, n) && Closed(p)
    requires VnniMatmulCheck(p, root, isBlockedMatmul, blockingFactor).Success?
    ensures Closed(VnniMatmulRewrite(p, root, isBlockedMatmul, blockingFactor, asWritten, n))
  {
    VnniMatmulCheckSucceeds(p, root, isBlockedMatmul, blockingFactor);
    var op := p.ops[root];
    var v := VnniMatmulCheck(p, root, isBlockedMatmul, blockingFactor).value;
    var tb := TypeOf(p, op.inputs[1]).value;
    var g := VnniGenericOf(op.inputs[0], OpResult(n + 1, 0), op.inits[0], TypeOf(p, op.inits[0]).value, v, asWritten);
    assert op.inputs[0] in Operands(op) && op.inputs[1] in Operands(op) && op.inits[0] in Operands(op);
    var q := WithPack(p, op.inputs[1], tb, Vnni(v, 4), n);
    PackKeepsClosed(p, q, root, op.inputs[0], op.inputs[1], op.inits[0], tb, Vnni(v, 4), n);
    VnniTailClosed(q, root, g, op.inputs[0], op.inits[0], n);
  }

  /** The generic on the pack, in place of root, keeps the graph closed. */
  lemma VnniTailClosed(q: Program, root: OpId, g: Op, a: Value, c: Value, n: OpId)
    requires root in q.ops && root < n && |q.ops[root].results| == 1
    requires g.inputs == [a, OpResult(n + 1, 0)] && g.inits == [c] && |g.results| == 1
    ensures (IsDefined(q, a) && IsDefined(q, OpResult(n + 1, 0)) && IsDefined(q, c) && Closed(q) && FreshFrom(q, n + 2))
            ==> Closed(VnniTail(q, root, g, n + 2))
  {
    if !(IsDefined(q, a) && IsDefined(q, OpResult(n + 1, 0)) && IsDefined(q, c) && Closed(q) && FreshFrom(q, n + 2)) {
      return;
    }
    assert Operands(g) == [a, OpResult(n + 1, 0), c];
    var q2 := AttachOp(q, root, g, n + 2);
    AttachOpClosed(q, q2, root, g, n + 2);
    ReplaceOpClosed1(q2, root, OpResult(n + 2, 0));
  }

  /**
   * What the corrected rewrite computes: on tensors of the operands' shapes,
   * the generic on A and the VNNI pack of B yields the blocked matmul's
   * result on A and B.
   */
  lemma PackVnniMatmulPreservesBlockedMatmul(p: Program, root: OpId, isBlockedMatmul: Op -> bool,
                                             blockingFactor: Type -> Option<BlockingFactor>,
                                             d: seq<int>, a: Tensor, b: Tensor, c: Tensor)
    requires VnniMatmulLike(p, root, isBlockedMatmul)
    requires VnniMatmulCheck(p, root, isBlockedMatmul, blockingFactor).Success?
    requires |d| == 6 && b.shape == [d[1], d[2], d[5], d[4]] && c.shape == [d[0], d[1], d[3], d[4]]
    ensures var v := VnniMatmulCheck(p, root, isBlockedMatmul, blockingFactor).value;
      && WellFormedGeneric(VnniGeneric(v, d)) && WellFormedGeneric(MatmulPacking.PackedMatmulGeneric(false, d))
      && Equiv(Eval(VnniGeneric(v, d), a, TensorPack.Pack(b, Vnni(v, 4)), c), Eval(MatmulPacking.PackedMatmulGeneric(false, d), a, b, c))
  {
    VnniMatmulIsBlockedMatmul(VnniMatmulCheck(p, root, isBlockedMatmul, blockingFactor).value, d, a, b, c);
  }

  // packVNNIBRGemmOp

  /**
   * A `linalg.batch_reduce_matmul`: inputs A [R][M][K] and B [R][K][N], init
   * C [M][N], all defined, shaped and not results of the op, on tensors or on
   * buffers, and on tensors one result of C's type.
   */
  predicate BrgemmLike(p: Program, root: OpId) {
    && root in p.ops && p.ops[root].kind == BatchReduceMatmul
    && |p.ops[root].inputs| == 2 && |p.ops[root].inits| == 1
    && (forall v :: v in Operands(p.ops[root]) ==>
          TypeOf(p, v).Some? && !TypeOf(p, v).value.ScalarType? && !(v.OpResult? && v.op == root))
    && |TypeOf(p, p.ops[root].inputs[0]).value.shape| == 3
    && |TypeOf(p, p.ops[root].inputs[1]).value.shape| == 3
    && |TypeOf(p, p.ops[root].inits[0]).value.shape| == 2
    && (HasTensorSemantics(p, p.ops[root]) || HasBufferSemantics(p, p.ops[root]))
    && (HasTensorSemantics(p, p.ops[root]) ==> p.ops[root].results == [TypeOf(p, p.ops[root].inits[0]).value])
  }

  /** The checks of packVNNIBRGemmOp, in the order they are made. */
  function BrgemmVnniCheck(p: Program, root: OpId, blockingFactor: Type -> Option<BlockingFactor>): Outcome<()>
    requires BrgemmLike(p, root)
  {
    var op := p.ops[root];
    if ElementTypeOf(p, op.inputs[0]) != Some(BF16) then Failure("require bf16 type")
    else if HasDynamicShape(p, op) then Failure("require static shape")
    else if HasBufferSemantics(p, op) then Failure("require tensor semantics")
    else if blockingFactor(TypeOf(p, op.inputs[1]).value).None? then Failure("unsupported blocking factor for type")
    else Success(())
  }

  /**
   * The rewrite applies exactly to a static bf16 batch-reduce matmul on
   * tensors whose B type has a blocking factor; B is then a rank-3 tensor.
   */
  lemma BrgemmVnniCheckSucceeds(p: Program, root: OpId, blockingFactor: Type -> Option<BlockingFactor>)
    requires BrgemmLike(p, root)
    ensures BrgemmVnniCheck(p, root, blockingFactor).Success? <==>
      && ElementTypeOf(p, p.ops[root].inputs[0]) == Some(BF16)
      && !HasDynamicShape(p, p.ops[root]) && HasTensorSemantics(p, p.ops[root])
      && blockingFactor(TypeOf(p, p.ops[root].inputs[1]).value).Some?
    ensures BrgemmVnniCheck(p, root, blockingFactor).Success? ==>
      && TypeOf(p, p.ops[root].inputs[1]).value.TensorType?
      && p.ops[root].results == [TypeOf(p, p.ops[root].inits[0]).value]
  {
    var op := p.ops[root];
    assert op.inputs[0] in Operands(op) && op.inputs[1] in Operands(op) && op.inits[0] in Operands(op);
  }

  /** The `tpp.brgemm` on A, the packed B and C, of C's type. */
  function TppBrgemmOf(a: Value, b: Value, c: Value, t: Type): Op {
    Op(TppBrgemm, [a, b, c], [], [t], map[], EmptyRegion)
  }

  /**
   * The graph after the rewrite, with new ops n .. n + 2: the empty
   * destination and the pack of B with a VNNI tile of 2 (n, n + 1), and the
   * `tpp.brgemm` (n + 2) replacing the batch-reduce matmul.
   */
  function BrgemmVnniRewrite(p: Program, root: OpId, blockingFactor: Type -> Option<BlockingFactor>, n: OpId): Program
    requires BrgemmLike(p, root) && FreshFrom(p, n)
    requires BrgemmVnniCheck(p, root, blockingFactor).Success?
  {
    BrgemmVnniCheckSucceeds(p, root, blockingFactor);
    var op := p.ops[root];
    var tc := TypeOf(p, op.inits[0]).value;
    var q := WithPack(p, op.inputs[1], TypeOf(p, op.inputs[1]).value, BrgemmVnni(2), n);
    BrgemmTail(q, root, op.inputs[0], op.inits[0], tc, n)
  }

  /** The second half of the brgemm rewrite: a tpp.brgemm reading the packed B replaces the root. */
  function BrgemmTail(q: Program, root: OpId, a: Value, c: Value, tc: Type, n: OpId): Program
  {
    ReplaceOpIn(AddOp(q, n + 2, TppBrgemmOf(a, OpResult(n + 1, 0), c, tc)), root, [OpResult(n + 2, 0)])
  }

  /** packVNNIBRGemmOp. */
  method PackVnniBrgemmOp(rw: Rewriter, root: OpId, blockingFactor: Type -> Option<BlockingFactor>)
    returns (r: Outcome<OpId>)
    requires rw.Valid() && BrgemmLike(rw.State(), root)
    modifies rw
    ensures rw.Valid()
    ensures r.Failure? <==> BrgemmVnniCheck(old(rw.State()), root, blockingFactor).Failure?
    ensures r.Failure? ==>
      r.reason == BrgemmVnniCheck(old(rw.State()), root, blockingFactor).reason && rw.State() == old(rw.State())
    ensures r.Success? ==>
      r.value == old(rw.next) + 2 && rw.State() == BrgemmVnniRewrite(old(rw.State()), root, blockingFactor, old(rw.next))
  {
    ghost var p := rw.State();
    var op := rw.ops[root];
    var elementType := ElementTypeOf(rw.State(), op.inputs[0]);
    if elementType != Some(BF16) {
      return Failure("require bf16 type");
    }
    if HasDynamicShape(rw.State(), op) {
      return Failure("require static shape");
    }
    if HasBufferSemantics(rw.State(), op) {
      return Failure("require tensor semantics");
    }
    var operandB := op.inputs[1];
    var tb := TypeOf(rw.State(), operandB).value;
    var factor := blockingFactor(tb);
    if factor.None? {
      return Failure("unsupported blocking factor for type");
    }
    BrgemmVnniCheckSucceeds(p, root, blockingFactor);
    var id := BrgemmIntoVnni(rw, root, blockingFactor, rw.next);
    r := Success(id);
  }

  /** The rewrite of packVNNIBRGemmOp, once its checks have passed. */
  method BrgemmIntoVnni(rw: Rewriter, root: OpId, blockingFactor: Type -> Option<BlockingFactor>, ghost n: OpId)
    returns (id: OpId)
    requires rw.Valid() && rw.next == n && BrgemmLike(rw.State(), root)
    requires BrgemmVnniCheck(rw.State(), root, blockingFactor).Success?
    modifies rw
    ensures rw.Valid() && id == n + 2 && rw.State() == BrgemmVnniRewrite(old(rw.State()), root, blockingFactor, n)
  {
    ghost var p := rw.State();
    BrgemmVnniCheckSucceeds(p, root, blockingFactor);
    var op := rw.ops[root];
    var operandB := op.inputs[1];
    var tb := TypeOf(rw.State(), operandB).value;
    var tc := TypeOf(rw.State(), op.inits[0]).value;
    var packedB := ToPackLayout(rw, operandB, tb, BrgemmVnni(2), n);
    ghost var q := rw.State();
    WithPackKeeps(p, q, operandB, tb, BrgemmVnni(2), n);
    id := rw.Create(TppBrgemmOf(op.inputs[0], packedB, op.inits[0], tc));
    rw.ReplaceOp(root, [OpResult(id, 0)]);
    BrgemmVnniStages(p, q, rw.State(), root, blockingFactor, n, id, op, tb, tc);
  }

  /** The pack of B, the creation of the brgemm and the replacement, one after the other, make BrgemmVnniRewrite. */
  lemma BrgemmVnniStages(p: Program, q: Program, r: Program, root: OpId, blockingFactor: Type -> Option<BlockingFactor>,
                         n: OpId, id: OpId, op: Op, tb: Type, tc: Type)
    requires id == n + 2 && |op.inputs| == 2 && |op.inits| == 1
    requires tb.TensorType? && ValidLayout(BrgemmVnni(2), |tb.shape|)
    requires q == WithPack(p, op.inputs[1], tb, BrgemmVnni(2), n)
    requires r == ReplaceOpIn(AddOp(q, id, TppBrgemmOf(op.inputs[0], OpResult(n + 1, 0), op.inits[0], tc)), root, [OpResult(id, 0)])
    ensures BrgemmLike(p, root) && FreshFrom(p, n) && BrgemmVnniCheck(p, root, blockingFactor).Success?
        && op == p.ops[root] && tb == TypeOf(p, op.inputs[1]).value && tc == TypeOf(p, op.inits[0]).value
        ==> r == BrgemmVnniRewrite(p, root, blockingFactor, n)
  {
    assert r == BrgemmTail(q, root, op.inputs[0], op.inits[0], tc, n);
  }

  /** The brgemm rewrite keeps the graph closed. */
  lemma BrgemmVnniRewriteClosed(p: Program, root: OpId, blockingFactor: Type -> Option<BlockingFactor>, n: OpId)
    requires BrgemmLike(p, root) && FreshFrom(p, n) && Closed(p)
    requires BrgemmVnniCheck(p, root, blockingFactor).Success?
    ensures Closed(BrgemmVnniRewrite(p, root, blockingFactor, n))
  {
    BrgemmVnniCheckSucceeds(p, root, blockingFactor);
    var op := p.ops[root];
    assert op.inputs[0] in Operands(op) && op.inputs[1] in Operands(op) && op.inits[0] in Operands(op);
    var tb := TypeOf(p, op.inputs[1]).value;
    var q := WithPack(p, op.inputs[1], tb, BrgemmVnni(2), n);
    PackKeepsClosed(p, q, root, op.inputs[0], op.inputs[1], op.inits[0], tb, BrgemmVnni(2), n);
    var r := BrgemmVnniRewrite(p, root, blockingFactor, n);
    BrgemmTailClosed(q, r, root, op.inputs[0], op.inits[0],
                     TypeOf(p, op.inits[0]).value, n, n + 2);
  }

  /** A pack of b keeps the graph closed, root and the other operands a and c. */
  lemma PackKeepsClosed(p: Program, q: Program, root: OpId, a: Value, b: Value, c: Value, tb: Type, l: Layout, n: OpId)
    requires tb.TensorType? && ValidLayout(l, |tb.shape|) && FreshFrom(p, n) && Closed(p)
    requires IsDefined(p, a) && IsDefined(p, b) && IsDefined(p, c) && root in p.ops
    requires q == WithPack(p, b, tb, l, n)
    ensures Closed(q) && FreshFrom(q, n + 2) && IsDefined(q, OpResult(n + 1, 0))
    ensures IsDefined(q, a) && IsDefined(q, c) && root in q.ops && q.ops[root] == p.ops[root]
  {
    WithPackClosed(p, q, b, tb, l, n);
  }

  /** The brgemm on the pack, replacing root, keeps the graph closed. */
  lemma BrgemmTailClosed(q: Program, r: Program, root: OpId, a: Value, c: Value, tc: Type, n: OpId, n2: OpId)
    requires n2 == n + 2 && root in q.ops && |q.ops[root].results| == 1
    requires IsDefined(q, a) && IsDefined(q, OpResult(n + 1, 0)) && IsDefined(q, c)
    requires r == BrgemmTail(q, root, a, c, tc, n)
    ensures Closed(q) && FreshFrom(q, n2) ==> Closed(r)
  {
    if !(Closed(q) && FreshFrom(q, n2)) {
      return;
    }
    var t := TppBrgemmOf(a, OpResult(n + 1, 0), c, tc);
    assert Operands(t) == [a, OpResult(n + 1, 0), c];
    AddOpClosed(q, n2, t);
    var q2 := AddOp(q, n2, t);
    assert IsDefined(q2, OpResult(n2, 0)) && q2.ops[root] == q.ops[root];
    ReplaceOpClosed1(q2, root, OpResult(n2, 0));
  }

  /**
   * The packed B of the brgemm holds every element of B: element (r, k, n)
   * sits at (r, k / 2, n, k mod 2), and unpacking gives B back. The packed
   * shape is [R][ceil(K / 2)][N][2].
   */
  lemma BrgemmVnniHoldsB(b: Tensor, r: int, k: int, n: int)
    requires |b.shape| == 3 && InBox([r, k, n], b.shape)
    ensures PackedShape(b.shape, BrgemmVnni(2)) == [b.shape[0], CeilDiv(b.shape[1], 2), b.shape[2], 2]
    ensures TensorPack.Pack(b, BrgemmVnni(2)).at([r, k / 2, n, k % 2]) == b.at([r, k, n])
    ensures Equiv(Unpack(TensorPack.Pack(b, BrgemmVnni(2)), BrgemmVnni(2), b), b)
  {
    BrgemmVnniShape(b.shape, 2);
    BrgemmVnniRead(b, 2, r, k / 2, n, k % 2);
    assert Sums.Flat(k / 2, 2, k % 2) == k;
    UnpackPack(b, BrgemmVnni(2));
  }
}
