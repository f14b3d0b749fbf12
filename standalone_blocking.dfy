/**
 * The older block-layout rewrite of lib/Standalone/ToBlockLayoutAndBack.cpp
 * on the graph. DoItOnMatmul turns a static `linalg.matmul` on tensors into
 * `linalgx.relayout`s of its operands into the blocked [N/bf][C/bf][bf][bf]
 * layout, a generic over the blocked tensors and a relayout of the result
 * back. SinkBlockLayoutAfterRelu moves a relu marked for TPP that reads such
 * a relayout back before it, onto the blocked tensor. What the relayouts and
 * the blocked generic compute is BlockLayout's ToBlock, FromBlock and
 * BlockedMatmul.
 *
 * The functions that describe the rewritten graph are total: on operands
 * the patterns never see (an undefined value, a type that is not a rank-2
 * tensor) they fall back to a placeholder, and the methods and lemmas
 * require what the source relies on.
 */
module StandaloneBlocking {
  import opened Wrappers
  import opened Sums
  import opened Affine
  import opened Tensors
  import opened MatmulPacking
  import opened BlockLayout
  import opened Ir
  import opened LayoutOps
  import opened PackMatmul

  /** A value of rank-2 tensor type, the only kind getReshapedTensor accepts. */
  predicate IsMatrix(p: Program, v: Value) {
    TypeOf(p, v).Some? && TypeOf(p, v).value.TensorType? && |TypeOf(p, v).value.shape| == 2
  }

  predicate AllMatrices(p: Program, vs: seq<Value>) {
    forall k :: 0 <= k < |vs| ==> IsMatrix(p, vs[k])
  }

  /**
   * The type of the blocked tensor: [N/bf, C/bf, bf, bf], static, with the
   * same element type. Only rank-2 tensors and positive factors are blocked;
   * any other type is returned as it is.
   */
  function BlockedType(t: Type, bf: int): Type {
    if t.TensorType? && |t.shape| == 2 && bf > 0 then TensorType(StaticShape(BlockedShape(Sizes(t.shape), bf)), t.elem)
    else t
  }

  /** `linalgx.relayout` of input into dest with the (input, output) maps, of result type t. */
  function RelayoutOp(input: Value, dest: Value, maps: (AffineMap, AffineMap), t: Type): Op {
    Op(Relayout(maps.0, maps.1), [input], [dest], [t], map[], EmptyRegion)
  }

  /**
   * getReshapedTensor of v, with blocked type tb: the empty blocked tensor
   * (`linalg.init_tensor`) as op n, the relayout of v into it as op n + 1.
   */
  function WithReshape(p: Program, v: Value, tb: Type, bf: int, n: OpId): Program {
    AddOp(AddOp(p, n, EmptyOp(tb)), n + 1, RelayoutOp(v, OpResult(n, 0), ToBlockMaps(bf), tb))
  }

  method GetReshapedTensor(rw: Rewriter, v: Value, bf: int) returns (r: Value)
    requires rw.Valid() && IsMatrix(rw.State(), v) && bf > 0
    modifies rw
    ensures rw.Valid() && rw.next == old(rw.next) + 2 && r == OpResult(old(rw.next) + 1, 0)
    ensures rw.State() == WithReshape(old(rw.State()), v, BlockedType(TypeAt(old(rw.State()), v), bf), bf, old(rw.next))
  {
    var tb := BlockedType(TypeAt(rw.State(), v), bf);
    var init := rw.Create(EmptyOp(tb));
    var relayout := rw.Create(RelayoutOp(v, OpResult(init, 0), ToBlockMaps(bf), tb));
    r := OpResult(relayout, 0);
  }

  /** The blocked type of a rank-2 tensor is static, of rank 4, with the same element type. */
  lemma BlockedTypeShape(t: Type, bf: int)
    requires t.TensorType? && |t.shape| == 2 && bf > 0
    ensures var tb := BlockedType(t, bf);
      && tb.TensorType? && tb.elem == t.elem && tb.IsStatic()
      && Sizes(tb.shape) == [Sizes(t.shape)[0] / bf, Sizes(t.shape)[1] / bf, bf, bf]
  {
    var tb := BlockedType(t, bf);
    var s := BlockedShape(Sizes(t.shape), bf);
    assert Sizes(tb.shape) == s;
  }

  /** One reshape adds ops n and n + 1 and keeps every other op. */
  lemma WithReshapeOps(p: Program, q: Program, v: Value, tb: Type, bf: int, n: OpId)
    requires FreshFrom(p, n) && q == WithReshape(p, v, tb, bf, n)
    ensures FreshFrom(q, n + 2) && q.args == p.args && q.ops.Keys == p.ops.Keys + {n, n + 1}
    ensures forall id :: id in p.ops ==> q.ops[id] == p.ops[id]
    ensures forall w :: IsDefined(p, w) ==> TypeOf(q, w) == TypeOf(p, w)
  {
  }

  /** One reshape of a defined value keeps the graph closed. */
  lemma WithReshapeClosed(p: Program, q: Program, v: Value, tb: Type, bf: int, n: OpId)
    requires FreshFrom(p, n) && Closed(p) && IsDefined(p, v) && q == WithReshape(p, v, tb, bf, n)
    ensures Closed(q) && FreshFrom(q, n + 2) && IsDefined(q, OpResult(n + 1, 0))
  {
    AddOpClosed(p, n, EmptyOp(tb));
    var p1 := AddOp(p, n, EmptyOp(tb));
    assert IsDefined(p1, v) && IsDefined(p1, OpResult(n, 0));
    var r := RelayoutOp(v, OpResult(n, 0), ToBlockMaps(bf), tb);
    assert Operands(r) == [v, OpResult(n, 0)];
    AddOpClosed(p1, n + 1, r);
  }

  /**
   * The reshapes of vs in order, vs[k] as ops n + 2k and n + 2k + 1, each
   * with the blocked type of vs[k]'s type in p.
   */
  function ReshapeAll(p: Program, vs: seq<Value>, bf: int, n: OpId): Program
    decreases |vs|
  {
    if |vs| == 0 then p
    else
      var m := |vs| - 1;
      WithReshape(ReshapeAll(p, vs[..m], bf, n), vs[m], BlockedType(TypeAt(p, vs[m]), bf), bf, n + 2 * m)
  }

  /** The blocked values: result 0 of ops n + 1, n + 3, ... */
  function Reshaped(n: OpId, count: nat): (r: seq<Value>)
    ensures |r| == count && forall k :: 0 <= k < count ==> r[k] == OpResult(n + 2 * k + 1, 0)
  {
    seq(count, k requires 0 <= k < count => OpResult(n + 2 * k + 1, 0))
  }

  /** The reshapes add ops n .. n + 2|vs| - 1 and nothing else; every op of p is kept as it was. */
  lemma {:induction false} ReshapeAllOps(p: Program, vs: seq<Value>, bf: int, n: OpId)
    requires FreshFrom(p, n)
    ensures var q := ReshapeAll(p, vs, bf, n);
      && FreshFrom(q, n + 2 * |vs|) && q.args == p.args
      && (forall id :: id in q.ops ==> id in p.ops || n <= id < n + 2 * |vs|)
      && (forall id :: id in p.ops ==> id in q.ops && q.ops[id] == p.ops[id])
    decreases |vs|
  {
    if |vs| > 0 {
      var m := |vs| - 1;
      ReshapeAllOps(p, vs[..m], bf, n);
      WithReshapeOps(ReshapeAll(p, vs[..m], bf, n), ReshapeAll(p, vs, bf, n), vs[m], BlockedType(TypeAt(p, vs[m]), bf), bf, n + 2 * m);
    }
  }

  /** The reshapes keep the type of every value defined before them. */
  lemma ReshapeAllTypes(p: Program, vs: seq<Value>, bf: int, n: OpId, v: Value)
    requires FreshFrom(p, n) && IsDefined(p, v)
    ensures TypeOf(ReshapeAll(p, vs, bf, n), v) == TypeOf(p, v)
  {
    ReshapeAllOps(p, vs, bf, n);
  }

  lemma ReshapedSnoc(n: OpId, i: nat)
    ensures Reshaped(n, i + 1) == Reshaped(n, i) + [OpResult(n + 2 * i + 1, 0)]
  {
  }

  /** One more reshape extends the reshapes of a prefix by the next value. */
  lemma ReshapeAllStep(p: Program, vs: seq<Value>, bf: int, n: OpId, i: nat, q: Program, q': Program)
    requires i < |vs|
    requires q == ReshapeAll(p, vs[..i], bf, n)
    requires q' == WithReshape(q, vs[i], BlockedType(TypeAt(p, vs[i]), bf), bf, n + 2 * i)
    ensures q' == ReshapeAll(p, vs[..i + 1], bf, n)
  {
    assert vs[..i + 1][..i] == vs[..i] && vs[..i + 1][i] == vs[i];
  }

  /** Before the next reshape, the next value still has its type in p. */
  lemma ReshapeAllNext(p: Program, vs: seq<Value>, bf: int, n: OpId, i: nat, q: Program)
    requires i < |vs| && FreshFrom(p, n) && AllMatrices(p, vs)
    requires q == ReshapeAll(p, vs[..i], bf, n)
    ensures IsMatrix(q, vs[i]) && TypeAt(q, vs[i]) == TypeAt(p, vs[i])
  {
    assert IsMatrix(p, vs[i]);
    ReshapeAllTypes(p, vs[..i], bf, n, vs[i]);
  }

  /** The loop of DoItOnMatmul over the inputs (or the outputs), each reshaped in turn. */
  method ReshapeValues(rw: Rewriter, vs: seq<Value>, bf: int) returns (rs: seq<Value>)
    requires rw.Valid() && AllMatrices(rw.State(), vs) && bf > 0
    modifies rw
    ensures rw.Valid() && rw.next == old(rw.next) + 2 * |vs|
    ensures rw.State() == ReshapeAll(old(rw.State()), vs, bf, old(rw.next))
    ensures rs == Reshaped(old(rw.next), |vs|)
  {
    ghost var p := rw.State();
    ghost var n := rw.next;
    rs := [];
    var i := 0;
    while i < |vs|
      invariant 0 <= i <= |vs| && rw.Valid() && rw.next == n + 2 * i
      invariant rw.State() == ReshapeAll(p, vs[..i], bf, n)
      invariant rs == Reshaped(n, i)
    {
      ghost var q := rw.State();
      ReshapeAllNext(p, vs, bf, n, i, q);
      var r := GetReshapedTensor(rw, vs[i], bf);
      ReshapeAllStep(p, vs, bf, n, i, q, rw.State());
      ReshapedSnoc(n, i);
      rs := rs + [r];
      i := i + 1;
    }
    assert vs[..|vs|] == vs;
  }

  /**
   * The common tail of both patterns, before the replacement: the new generic
   * gen as op n receives the body of root, and the relayout of its result
   * back into dest (of type t) is op n + 1.
   */
  function BlockedThenBack(p: Program, root: OpId, gen: Op, dest: Value, t: Type, bf: int, n: OpId): Program
    requires root in p.ops && root != n
  {
    AddOp(MoveRegion(AddOp(p, n, gen), root, n), n + 1, RelayoutOp(OpResult(n, 0), dest, FromBlockMaps(bf), t))
  }

  /** The tail: the relayout back replaces root (which must be an op other than n). */
  function ThroughBlocked(p: Program, root: OpId, gen: Op, dest: Value, t: Type, bf: int, n: OpId): Program {
    if root in p.ops && root != n then ReplaceOpIn(BlockedThenBack(p, root, gen, dest, t, bf, n), root, [OpResult(n + 1, 0)])
    else p
  }

  method BlockedAndBack(rw: Rewriter, root: OpId, gen: Op, dest: Value, t: Type, bf: int)
    requires rw.Valid() && root in rw.ops && |rw.ops[root].results| == 1
    modifies rw
    ensures rw.Valid() && rw.next == old(rw.next) + 2
    ensures rw.State() == ThroughBlocked(old(rw.State()), root, gen, dest, t, bf, old(rw.next))
  {
    var g := rw.Create(gen);
    rw.InlineRegionBefore(root, g);
    var back := rw.Create(RelayoutOp(OpResult(g, 0), dest, FromBlockMaps(bf), t));
    rw.ReplaceOp(root, [OpResult(back, 0)]);
  }

  /** Adding the generic and the relayout back keeps a closed graph closed. */
  lemma BlockedThenBackClosed(p: Program, root: OpId, gen: Op, dest: Value, t: Type, bf: int, n: OpId)
    requires Closed(p) && root in p.ops && FreshFrom(p, n)
    requires |gen.results| > 0 && forall v :: v in Operands(gen) ==> IsDefined(p, v)
    requires IsDefined(p, dest)
    ensures var q := BlockedThenBack(p, root, gen, dest, t, bf, n);
      && Closed(q) && root in q.ops && q.ops[root].results == p.ops[root].results
      && n + 1 in q.ops && q.ops[n + 1].results == [t] && FreshFrom(q, n + 2)
  {
    var p1 := AddOp(p, n, gen);
    AddOpClosed(p, n, gen);
    var p2 := MoveRegion(p1, root, n);
    MoveRegionClosed(p1, root, n);
    var back := RelayoutOp(OpResult(n, 0), dest, FromBlockMaps(bf), t);
    assert Operands(back) == [OpResult(n, 0), dest];
    assert IsDefined(p2, dest) by {
      if dest.OpResult? {
        assert p2.ops[dest.op].results == p.ops[dest.op].results;
      }
    }
    AddOpClosed(p2, n + 1, back);
  }

  /**
   * The tail keeps the graph closed when the new generic reads defined
   * values: root is erased and unused, and its uses now read the relayout
   * back, of type t.
   */
  lemma ThroughBlockedClosed(p: Program, q: Program, root: OpId, gen: Op, dest: Value, t: Type, bf: int, n: OpId)
    requires Closed(p) && root in p.ops && |p.ops[root].results| == 1 && FreshFrom(p, n)
    requires |gen.results| > 0 && forall v :: v in Operands(gen) ==> IsDefined(p, v)
    requires IsDefined(p, dest) && !(dest.OpResult? && dest.op == root)
    requires q == ThroughBlocked(p, root, gen, dest, t, bf, n)
    ensures Closed(q) && root !in q.ops && Users(q, OpResult(root, 0)) == {}
    ensures TypeOf(q, OpResult(n + 1, 0)) == Some(t) && FreshFrom(q, n + 2)
  {
    BlockedThenBackClosed(p, root, gen, dest, t, bf, n);
    var p3 := BlockedThenBack(p, root, gen, dest, t, bf, n);
    ReplaceOpClosed1(p3, root, OpResult(n + 1, 0));
    ReplaceOpErases(p3, root, [OpResult(n + 1, 0)]);
  }

  // DoItOnMatmul (source lines 66-128).

  /** A `linalg.matmul`, with the operands its verifier guarantees. */
  predicate StandaloneMatmul(p: Program, root: OpId) {
    MatmulLike(p, root) && p.ops[root].kind == Matmul
  }

  /** The pattern's own test: a static matmul that is not on buffers. */
  predicate BlocksMatmul(p: Program, op: Op) {
    !HasDynamicShape(p, op) && !HasBufferSemantics(p, op)
  }

  /** The operands A, B and C of a matmul, with their types. */
  datatype MatmulParts = MatmulParts(a: Value, ta: Type, b: Value, tb: Type, c: Value, tc: Type)

  function MatmulPartsOf(p: Program, root: OpId): MatmulParts
    requires root in p.ops && |p.ops[root].inputs| == 2 && |p.ops[root].inits| == 1
  {
    var op := p.ops[root];
    MatmulParts(op.inputs[0], TypeAt(p, op.inputs[0]), op.inputs[1], TypeAt(p, op.inputs[1]), op.inits[0], TypeAt(p, op.inits[0]))
  }

  /**
   * Once the pattern's test passes, A, B and C are rank-2 tensors, C is not
   * a result of the matmul, and the matmul has one result, of C's type.
   */
  lemma MatmulPartsFacts(p: Program, root: OpId)
    requires StandaloneMatmul(p, root) && BlocksMatmul(p, p.ops[root])
    ensures var m := MatmulPartsOf(p, root);
      && p.ops[root].inputs == [m.a, m.b] && p.ops[root].inits == [m.c]
      && IsMatrix(p, m.a) && IsMatrix(p, m.b) && IsMatrix(p, m.c)
      && !(m.c.OpResult? && m.c.op == root) && p.ops[root].results == [m.tc]
  {
    var op := p.ops[root];
    assert op.inputs[0] in Operands(op) && op.inputs[1] in Operands(op) && op.inits[0] in Operands(op);
  }

  /** The reshapes of A (ops n, n + 1), B (n + 2, n + 3) and C (n + 4, n + 5). */
  function ReshapedOperands(p: Program, m: MatmulParts, bf: int, n: OpId): Program {
    var p1 := WithReshape(p, m.a, BlockedType(m.ta, bf), bf, n);
    var p2 := WithReshape(p1, m.b, BlockedType(m.tb, bf), bf, n + 2);
    WithReshape(p2, m.c, BlockedType(m.tc, bf), bf, n + 4)
  }

  /** The blocked matmul: the maps and iterators of BlockLayout.BlockedMatmulGeneric. */
  function BlockedMatmulOp(ins: seq<Value>, out: Value, t: Type): Op {
    Op(GenericKind(BlockedMatmulGeneric([])), ins, [out], [t], map[], EmptyRegion)
  }

  /** The blocked generic on the blocked A and B into the blocked C, of the blocked C's type. */
  function MatmulGen(m: MatmulParts, bf: int, n: OpId): (g: Op)
    ensures Operands(g) == [OpResult(n + 1, 0), OpResult(n + 3, 0), OpResult(n + 5, 0)] && |g.results| == 1
  {
    BlockedMatmulOp([OpResult(n + 1, 0), OpResult(n + 3, 0)], OpResult(n + 5, 0), BlockedType(m.tc, bf))
  }

  /** The reshapes, then the blocked generic (op n + 6) and the relayout back into C (op n + 7), which replaces root. */
  function BlockedMatmulGraph(p: Program, root: OpId, m: MatmulParts, bf: int, n: OpId): Program {
    ThroughBlocked(ReshapedOperands(p, m, bf, n), root, MatmulGen(m, bf, n), m.c, m.tc, bf, n + 6)
  }

  /**
   * The graph after DoItOnMatmul, with new ops n .. n + 7: the reshapes of A
   * (n, n + 1), of B (n + 2, n + 3) and of C (n + 4, n + 5), the blocked
   * generic (n + 6) on the blocked A and B into the blocked C, and the
   * relayout back into C (n + 7), which replaces the matmul.
   */
  function DoItOnMatmulRewrite(p: Program, root: OpId, bf: int, n: OpId): Program
    requires root in p.ops && |p.ops[root].inputs| == 2 && |p.ops[root].inits| == 1
  {
    BlockedMatmulGraph(p, root, MatmulPartsOf(p, root), bf, n)
  }

  lemma ReshapeAllSingle(p: Program, x: Value, bf: int, n: OpId)
    ensures ReshapeAll(p, [x], bf, n) == WithReshape(p, x, BlockedType(TypeAt(p, x), bf), bf, n)
  {
    assert [x][..0] == [];
  }

  lemma ReshapeAllPair(p: Program, x: Value, y: Value, bf: int, n: OpId)
    ensures ReshapeAll(p, [x, y], bf, n)
         == WithReshape(WithReshape(p, x, BlockedType(TypeAt(p, x), bf), bf, n), y, BlockedType(TypeAt(p, y), bf), bf, n + 2)
  {
    assert [x, y][..1] == [x];
    ReshapeAllSingle(p, x, bf, n);
  }

  /** The loop over the inputs reshapes A and then B, and leaves C a matrix of its type. */
  lemma InputsReshaped(p: Program, p1: Program, m: MatmulParts, bf: int, n: OpId)
    requires FreshFrom(p, n) && IsMatrix(p, m.c) && m.ta == TypeAt(p, m.a) && m.tb == TypeAt(p, m.b)
    requires p1 == ReshapeAll(p, [m.a, m.b], bf, n)
    ensures p1 == WithReshape(WithReshape(p, m.a, BlockedType(m.ta, bf), bf, n), m.b, BlockedType(m.tb, bf), bf, n + 2)
    ensures IsMatrix(p1, m.c) && TypeAt(p1, m.c) == TypeAt(p, m.c)
    ensures Reshaped(n, 2) == [OpResult(n + 1, 0), OpResult(n + 3, 0)]
  {
    assert Reshaped(n, 2)[1] == OpResult(n + 3, 0);
    ReshapeAllPair(p, m.a, m.b, bf, n);
    ReshapeAllTypes(p, [m.a, m.b], bf, n, m.c);
  }

  /** The loop over the outputs reshapes C, completing ReshapedOperands. */
  lemma OutputReshaped(p: Program, p1: Program, p2: Program, m: MatmulParts, bf: int, n: OpId, n4: OpId)
    requires n4 == n + 4
    requires p1 == WithReshape(WithReshape(p, m.a, BlockedType(m.ta, bf), bf, n), m.b, BlockedType(m.tb, bf), bf, n + 2)
    requires TypeAt(p1, m.c) == m.tc
    requires p2 == ReshapeAll(p1, [m.c], bf, n4)
    ensures p2 == ReshapedOperands(p, m, bf, n)
  {
    ReshapeAllSingle(p1, m.c, bf, n4);
  }

  /** The loop over the inputs: A and then B are reshaped, C stays a matrix of its type. */
  method ReshapeMatmulInputs(rw: Rewriter, inputs: seq<Value>, bf: int, ghost m: MatmulParts) returns (ins: seq<Value>)
    requires rw.Valid() && bf > 0 && inputs == [m.a, m.b]
    requires IsMatrix(rw.State(), m.a) && IsMatrix(rw.State(), m.b) && IsMatrix(rw.State(), m.c)
    requires m.ta == TypeAt(rw.State(), m.a) && m.tb == TypeAt(rw.State(), m.b)
    modifies rw
    ensures rw.Valid() && rw.next == old(rw.next) + 4
    ensures rw.State() == WithReshape(WithReshape(old(rw.State()), m.a, BlockedType(m.ta, bf), bf, old(rw.next)),
                                      m.b, BlockedType(m.tb, bf), bf, old(rw.next) + 2)
    ensures ins == [OpResult(old(rw.next) + 1, 0), OpResult(old(rw.next) + 3, 0)]
    ensures IsMatrix(rw.State(), m.c) && TypeAt(rw.State(), m.c) == TypeAt(old(rw.State()), m.c)
  {
    ghost var p, n := rw.State(), rw.next;
    ins := ReshapeValues(rw, inputs, bf);
    InputsReshaped(p, rw.State(), m, bf, n);
  }

  /** The loop over the outputs: C is reshaped, completing ReshapedOperands. */
  method ReshapeMatmulOutput(rw: Rewriter, inits: seq<Value>, bf: int, ghost m: MatmulParts, ghost p: Program, ghost n: OpId)
      returns (out: Value)
    requires rw.Valid() && bf > 0 && inits == [m.c] && IsMatrix(rw.State(), m.c) && TypeAt(rw.State(), m.c) == m.tc
    requires rw.State() == WithReshape(WithReshape(p, m.a, BlockedType(m.ta, bf), bf, n), m.b, BlockedType(m.tb, bf), bf, n + 2)
    requires rw.next == n + 4
    modifies rw
    ensures rw.Valid() && rw.next == n + 6
    ensures rw.State() == ReshapedOperands(p, m, bf, n) && out == OpResult(n + 5, 0)
  {
    ghost var p1, n4 := rw.State(), rw.next;
    var outs := ReshapeValues(rw, inits, bf);
    OutputReshaped(p, p1, rw.State(), m, bf, n, n4);
    out := outs[0];
  }

  /** The reshapes of the inputs and then of the output, as the two loops make them. */
  method ReshapeMatmulOperands(rw: Rewriter, root: OpId, bf: int, ghost m: MatmulParts, ghost n: OpId)
      returns (ins: seq<Value>, out: Value)
    requires rw.Valid() && root in rw.ops && bf > 0 && rw.next == n
    requires rw.ops[root].inputs == [m.a, m.b] && rw.ops[root].inits == [m.c]
    requires IsMatrix(rw.State(), m.a) && IsMatrix(rw.State(), m.b) && IsMatrix(rw.State(), m.c)
    requires m.ta == TypeAt(rw.State(), m.a) && m.tb == TypeAt(rw.State(), m.b) && m.tc == TypeAt(rw.State(), m.c)
    modifies rw
    ensures rw.Valid() && rw.next == n + 6
    ensures rw.State() == ReshapedOperands(old(rw.State()), m, bf, n)
    ensures ins == [OpResult(n + 1, 0), OpResult(n + 3, 0)] && out == OpResult(n + 5, 0)
  {
    ghost var p := rw.State();
    var op := rw.ops[root];
    ins := ReshapeMatmulInputs(rw, op.inputs, bf, m);
    out := ReshapeMatmulOutput(rw, op.inits, bf, m, p, n);
  }

  lemma BlockedMatmulStages(p: Program, q: Program, r: Program, root: OpId, m: MatmulParts, bf: int, n: OpId,
                            n6: OpId, ins: seq<Value>, out: Value, gen: Op, dest: Value, t: Type)
    requires n6 == n + 6 && dest == m.c && t == m.tc
    requires ins == [OpResult(n + 1, 0), OpResult(n + 3, 0)] && out == OpResult(n + 5, 0)
    requires gen == BlockedMatmulOp(ins, out, BlockedType(t, bf))
    requires q == ReshapedOperands(p, m, bf, n)
    requires r == ThroughBlocked(q, root, gen, dest, t, bf, n6)
    ensures r == BlockedMatmulGraph(p, root, m, bf, n)
  {
    assert gen == MatmulGen(m, bf, n);
  }

  /** The reshapes keep every op of p and the types of its values. */
  lemma ReshapedOperandsKeep(p: Program, m: MatmulParts, bf: int, n: OpId, root: OpId, w: Value)
    requires FreshFrom(p, n) && root in p.ops && IsDefined(p, w)
    ensures var q := ReshapedOperands(p, m, bf, n);
      && FreshFrom(q, n + 6) && root in q.ops && q.ops[root] == p.ops[root] && TypeOf(q, w) == TypeOf(p, w)
  {
  }

  /**
   * DoItOnMatmul: fails, changing nothing, on a dynamic shape or buffers;
   * otherwise the graph becomes DoItOnMatmulRewrite of the old one. The
   * factor is not checked against the sizes.
   */
  method DoItOnMatmul(rw: Rewriter, root: OpId, bf: int) returns (success: bool)
    requires rw.Valid() && StandaloneMatmul(rw.State(), root) && bf > 0
    modifies rw
    ensures rw.Valid()
    ensures success <==> BlocksMatmul(old(rw.State()), old(rw.ops[root]))
    ensures success ==> rw.next == old(rw.next) + 8 && rw.State() == DoItOnMatmulRewrite(old(rw.State()), root, bf, old(rw.next))
    ensures !success ==> rw.State() == old(rw.State()) && rw.next == old(rw.next)
  {
    var op := rw.ops[root];
    if HasDynamicShape(rw.State(), op) || HasBufferSemantics(rw.State(), op) {
      return false;
    }
    ghost var s0, n0 := rw.State(), rw.next;
    ghost var m := MatmulPartsOf(s0, root);
    MatmulPartsFacts(s0, root);
    var tc := TypeAt(rw.State(), op.inits[0]);
    var ins, out := ReshapeMatmulOperands(rw, root, bf, m, n0);
    ghost var q, n6 := rw.State(), rw.next;
    ReshapedOperandsKeep(s0, m, bf, n0, root, m.c);
    var gen := BlockedMatmulOp(ins, out, BlockedType(tc, bf));
    BlockedAndBack(rw, root, gen, op.inits[0], tc, bf);
    BlockedMatmulStages(s0, q, rw.State(), root, m, bf, n0, n6, ins, out, gen, op.inits[0], tc);
    success := true;
  }

  /** One reshape keeps the root op and the definedness and types of other values. */
  lemma WithReshapeKeeps(p: Program, q: Program, v: Value, tb: Type, bf: int, n: OpId, root: OpId, w1: Value, w2: Value)
    requires FreshFrom(p, n) && root in p.ops && IsDefined(p, w1) && IsDefined(p, w2)
    requires q == WithReshape(p, v, tb, bf, n)
    ensures root in q.ops && q.ops[root] == p.ops[root]
    ensures TypeOf(q, w1) == TypeOf(p, w1) && TypeOf(q, w2) == TypeOf(p, w2)
  {
  }

  /** The reshapes of defined values keep a closed graph closed and define the three blocked values. */
  lemma ReshapedOperandsClosed(p: Program, q: Program, root: OpId, m: MatmulParts, bf: int, n: OpId)
    requires Closed(p) && FreshFrom(p, n) && IsDefined(p, m.a) && IsDefined(p, m.b) && IsDefined(p, m.c) && root in p.ops
    requires q == ReshapedOperands(p, m, bf, n)
    ensures Closed(q) && FreshFrom(q, n + 6)
    ensures IsDefined(q, OpResult(n + 1, 0)) && IsDefined(q, OpResult(n + 3, 0)) && IsDefined(q, OpResult(n + 5, 0))
    ensures root in q.ops && q.ops[root] == p.ops[root] && TypeOf(q, m.c) == TypeOf(p, m.c)
  {
    var p1 := WithReshape(p, m.a, BlockedType(m.ta, bf), bf, n);
    var p2 := WithReshape(p1, m.b, BlockedType(m.tb, bf), bf, n + 2);
    WithReshapeClosed(p, p1, m.a, BlockedType(m.ta, bf), bf, n);
    WithReshapeKeeps(p, p1, m.a, BlockedType(m.ta, bf), bf, n, root, m.b, m.c);
    ReshapedSecondClosed(p1, p2, q, root, m, bf, n, n + 2);
  }

  /** The reshapes of B and C after that of A. */
  lemma ReshapedSecondClosed(p1: Program, p2: Program, q: Program, root: OpId, m: MatmulParts, bf: int, n: OpId, n2: OpId)
    requires n2 == n + 2 && Closed(p1) && FreshFrom(p1, n2) && root in p1.ops
    requires IsDefined(p1, m.b) && IsDefined(p1, m.c) && IsDefined(p1, OpResult(n + 1, 0))
    requires p2 == WithReshape(p1, m.b, BlockedType(m.tb, bf), bf, n2)
    requires q == WithReshape(p2, m.c, BlockedType(m.tc, bf), bf, n + 4)
    ensures Closed(q) && FreshFrom(q, n + 6)
    ensures IsDefined(q, OpResult(n + 1, 0)) && IsDefined(q, OpResult(n + 3, 0)) && IsDefined(q, OpResult(n + 5, 0))
    ensures root in q.ops && q.ops[root] == p1.ops[root] && TypeOf(q, m.c) == TypeOf(p1, m.c)
  {
    WithReshapeClosed(p1, p2, m.b, BlockedType(m.tb, bf), bf, n2);
    WithReshapeKeeps(p1, p2, m.b, BlockedType(m.tb, bf), bf, n2, root, m.c, OpResult(n + 1, 0));
    assert OpResult(n2 + 1, 0) == OpResult(n + 3, 0);
    ReshapedThirdClosed(p2, q, root, m, bf, n, n + 4);
  }

  /** The reshape of C after those of A and B. */
  lemma ReshapedThirdClosed(p2: Program, q: Program, root: OpId, m: MatmulParts, bf: int, n: OpId, n4: OpId)
    requires n4 == n + 4 && Closed(p2) && FreshFrom(p2, n4) && root in p2.ops
    requires IsDefined(p2, m.c) && IsDefined(p2, OpResult(n + 1, 0)) && IsDefined(p2, OpResult(n + 3, 0))
    requires q == WithReshape(p2, m.c, BlockedType(m.tc, bf), bf, n4)
    ensures Closed(q) && FreshFrom(q, n + 6)
    ensures IsDefined(q, OpResult(n + 1, 0)) && IsDefined(q, OpResult(n + 3, 0)) && IsDefined(q, OpResult(n + 5, 0))
    ensures root in q.ops && q.ops[root] == p2.ops[root] && TypeOf(q, m.c) == TypeOf(p2, m.c)
  {
    WithReshapeClosed(p2, q, m.c, BlockedType(m.tc, bf), bf, n4);
    WithReshapeKeeps(p2, q, m.c, BlockedType(m.tc, bf), bf, n4, root, OpResult(n + 1, 0), OpResult(n + 3, 0));
    WithReshapeKeeps(p2, q, m.c, BlockedType(m.tc, bf), bf, n4, root, m.c, m.c);
    assert OpResult(n4 + 1, 0) == OpResult(n + 5, 0);
  }

  /** The generic and the relayout back after the reshapes keep the graph closed. */
  lemma MatmulTailClosed(q: Program, r: Program, root: OpId, m: MatmulParts, bf: int, n: OpId)
    requires Closed(q) && root in q.ops && |q.ops[root].results| == 1 && FreshFrom(q, n + 6)
    requires IsDefined(q, OpResult(n + 1, 0)) && IsDefined(q, OpResult(n + 3, 0)) && IsDefined(q, OpResult(n + 5, 0))
    requires IsDefined(q, m.c) && !(m.c.OpResult? && m.c.op == root)
    requires r == ThroughBlocked(q, root, MatmulGen(m, bf, n), m.c, m.tc, bf, n + 6)
    ensures Closed(r) && root !in r.ops && Users(r, OpResult(root, 0)) == {} && TypeOf(r, OpResult(n + 7, 0)) == Some(m.tc)
  {
    ThroughBlockedClosed(q, r, root, MatmulGen(m, bf, n), m.c, m.tc, bf, n + 6);
  }

  /** The whole graph edit keeps a closed graph closed when C is defined and not a result of root. */
  lemma BlockedMatmulGraphClosed(p: Program, r: Program, root: OpId, m: MatmulParts, bf: int, n: OpId)
    requires Closed(p) && root in p.ops && |p.ops[root].results| == 1 && FreshFrom(p, n)
    requires IsDefined(p, m.a) && IsDefined(p, m.b) && IsDefined(p, m.c) && !(m.c.OpResult? && m.c.op == root)
    requires r == BlockedMatmulGraph(p, root, m, bf, n)
    ensures Closed(r) && root !in r.ops && Users(r, OpResult(root, 0)) == {} && TypeOf(r, OpResult(n + 7, 0)) == Some(m.tc)
  {
    var q := ReshapedOperands(p, m, bf, n);
    ReshapedOperandsClosed(p, q, root, m, bf, n);
    MatmulTailClosed(q, r, root, m, bf, n);
  }

  /**
   * The rewrite keeps the graph closed and erases the matmul; its uses now
   * read the relayout back, which has the matmul's result type.
   */
  lemma DoItOnMatmulClosed(p: Program, root: OpId, bf: int, n: OpId)
    requires StandaloneMatmul(p, root) && BlocksMatmul(p, p.ops[root]) && FreshFrom(p, n) && Closed(p)
    ensures var q := DoItOnMatmulRewrite(p, root, bf, n);
      && Closed(q) && root !in q.ops && Users(q, OpResult(root, 0)) == {}
      && TypeOf(q, OpResult(n + 7, 0)) == Some(p.ops[root].results[0])
  {
    MatmulPartsFacts(p, root);
    BlockedMatmulGraphClosed(p, DoItOnMatmulRewrite(p, root, bf, n), root, MatmulPartsOf(p, root), bf, n);
  }

  /** The factor divides M, N and K, the sizes of the matmul. */
  predicate WholeBlocks(p: Program, op: Op, bf: int) {
    MatmulFullTiles(MatmulSizes(p, op)[0], MatmulSizes(p, op)[1], MatmulSizes(p, op)[2], [bf, bf, bf])
  }

  /** DoItOnMatmul with the divisibility check it lacks: it also fails unless bf divides M, N and K. */
  method DoItOnMatmulChecked(rw: Rewriter, root: OpId, bf: int) returns (success: bool)
    requires rw.Valid() && StandaloneMatmul(rw.State(), root) && bf > 0
    modifies rw
    ensures rw.Valid()
    ensures success <==> BlocksMatmul(old(rw.State()), old(rw.ops[root])) && WholeBlocks(old(rw.State()), old(rw.ops[root]), bf)
    ensures success ==> rw.next == old(rw.next) + 8 && rw.State() == DoItOnMatmulRewrite(old(rw.State()), root, bf, old(rw.next))
    ensures !success ==> rw.State() == old(rw.State()) && rw.next == old(rw.next)
  {
    if !WholeBlocks(rw.State(), rw.ops[root], bf) {
      return false;
    }
    success := DoItOnMatmul(rw, root, bf);
  }

  /**
   * When the checked pattern fires, the blocked computation is the matmul:
   * on tensors of the operand shapes, relayout, blocked generic and
   * relayout back give A * B + C.
   */
  lemma DoItOnMatmulCheckedIsMatmul(p: Program, root: OpId, bf: int, a: Tensor, b: Tensor, c: Tensor)
    requires StandaloneMatmul(p, root) && BlocksMatmul(p, p.ops[root]) && WholeBlocks(p, p.ops[root], bf)
    requires a.shape == OperandShape(p, p.ops[root], 0) && b.shape == OperandShape(p, p.ops[root], 1)
    requires c.shape == OperandShape(p, p.ops[root], 2)
    requires a.shape[1] == b.shape[0] && c.shape == [a.shape[0], b.shape[1]]
    ensures Equiv(BlockedMatmul(a, b, c, bf), Tensors.Matmul(a, b, c))
  {
    var op := p.ops[root];
    assert Operands(op)[0] == op.inputs[0] && Operands(op)[1] == op.inputs[1];
    assert op.inputs[0] in Operands(op) && op.inputs[1] in Operands(op);
    BlockedMatmulIsMatmul(a, b, c, bf);
  }

  /** A static 1x2 by 2x1 matmul on tensors. */
  function OneByTwoMatmul(): Program {
    var t := (m: int, n: int) => TensorType([Static(m), Static(n)], F32);
    Program(map[0 := Op(Matmul, [FuncArg(0), FuncArg(1)], [FuncArg(2)], [t(1, 1)], map[], EmptyRegion)],
            [t(1, 2), t(2, 1), t(1, 1)])
  }

  /**
   * The pattern as written blocks a matmul whose sizes the factor does not
   * divide: with factor 2 it fires on the 1x2 by 2x1 matmul, where
   * BlockLayout.BlockedMatmulDropsProducts shows the result loses A * B.
   */
  lemma DoItOnMatmulAcceptsPartialBlocks()
    ensures var p := OneByTwoMatmul();
      && StandaloneMatmul(p, 0) && BlocksMatmul(p, p.ops[0]) && !WholeBlocks(p, p.ops[0], 2)
      && OperandShape(p, p.ops[0], 0) == [1, 2] && OperandShape(p, p.ops[0], 1) == [2, 1]
      && OperandShape(p, p.ops[0], 2) == [1, 1]
  {
    var p := OneByTwoMatmul();
    var op := p.ops[0];
    assert Operands(op) == [FuncArg(0), FuncArg(1), FuncArg(2)];
    assert MatmulSizes(p, op) == [1, 1, 2];
  }

  // SinkBlockLayoutAfterRelu (source lines 130-184).

  /**
   * The pattern's tests: the generic is marked `tpp.relu`, has an input, and
   * its first input is the result of a relayout with no other use.
   */
  predicate SinkApplies(p: Program, root: OpId)
    requires root in p.ops
  {
    var op := p.ops[root];
    && MarkedWith(op, "tpp.relu")
    && |op.inputs| > 0
    && DefiningOp(p, op.inputs[0]).Some?
    && p.ops[op.inputs[0].op].kind.Relayout?
    && HasOneUse(p, OpResult(op.inputs[0].op, 0))
  }

  /**
   * A generic on which the rewrite, once its tests pass, is well defined: the
   * relayout reads a shaped value and the relu has one result and writes a
   * rank-2 tensor that is not its own result.
   */
  predicate ReluGeneric(p: Program, root: OpId) {
    && root in p.ops && p.ops[root].kind.GenericOp?
    && (SinkApplies(p, root) ==>
          var op := p.ops[root];
          var rel := p.ops[op.inputs[0].op];
          && |op.inits| > 0 && IsMatrix(p, op.inits[0]) && |op.results| == 1
          && !(op.inits[0].OpResult? && op.inits[0].op == root)
          && |rel.inputs| > 0 && IsDefined(p, rel.inputs[0]) && !TypeOf(p, rel.inputs[0]).value.ScalarType?)
  }

  /**
   * The test the sinking needs and the pattern leaves out: the relayout the
   * relu reads leaves the block layout with the pattern's own factor, through
   * the maps of getMapsFromBlockLayoutNC_NCnc.
   */
  predicate LeavesBlockLayout(p: Program, root: OpId, bf: int)
    requires root in p.ops
  {
    && SinkApplies(p, root)
    && p.ops[p.ops[root].inputs[0].op].kind == Relayout(FromBlockMaps(bf).0, FromBlockMaps(bf).1)
  }

  /**
   * Under that test the relayout the relu reads is the one BlockLayout.FromBlock
   * denotes for bf: it reads the blocked tensor at the loop point (N, C, n, c)
   * and writes at (N * bf + n, C * bf + c). That is the input
   * BlockLayout.SinkElementwise assumes.
   */
  lemma LeavesBlockLayoutIsFromBlock(p: Program, root: OpId, bf: int, x: seq<int>)
    requires root in p.ops && LeavesBlockLayout(p, root, bf) && |x| == 4
    ensures var rel := p.ops[p.ops[root].inputs[0].op].kind;
      && SinkApplies(p, root) && rel.Relayout?
      && WellFormedMap(rel.inputMap) && rel.inputMap.numDims == 4
      && WellFormedMap(rel.outputMap) && rel.outputMap.numDims == 4
      && Apply(rel.inputMap, x) == x
      && Apply(rel.outputMap, x) == [Flat(x[0], bf, x[2]), Flat(x[1], bf, x[3])]
  {
    ToBlockMapsApply(bf, x);
  }

  /** A 2x2 relu reading a relayout out of a block layout of factor 1. */
  function ReluAfterFactorOneRelayout(): Program {
    var mat := TensorType([Static(2), Static(2)], F32);
    var blocked := TensorType([Static(2), Static(2), Static(1), Static(1)], F32);
    Program(map[0 := RelayoutOp(FuncArg(0), FuncArg(1), FromBlockMaps(1), mat),
                1 := Op(GenericOp([Identity(2), Identity(2)], [Parallel, Parallel]), [OpResult(0, 0)], [FuncArg(2)], [mat],
                        map[LibraryCall := StrAttr("tpp.relu")], EmptyRegion)],
            [blocked, mat, mat])
  }

  /**
   * The pattern as written sinks a relu below any single-use relayout. With
   * factor 2 it fires on a relayout out of a factor-1 block layout, and the
   * blocked relu it creates reads a [2, 2, 1, 1] tensor into a [1, 1, 2, 2]
   * buffer.
   */
  lemma SinkAcceptsOtherRelayout()
    ensures var p := ReluAfterFactorOneRelayout();
      && ReluGeneric(p, 1) && SinkApplies(p, 1) && !LeavesBlockLayout(p, 1, 2)
      && TypeAt(p, BlockTensor(p, 1)).shape == [Static(2), Static(2), Static(1), Static(1)]
      && BlockedType(TypeAt(p, ReluOut(p, 1)), 2).shape == [Static(1), Static(1), Static(2), Static(2)]
  {
    var p := ReluAfterFactorOneRelayout();
    assert Operands(p.ops[0]) == [FuncArg(0), FuncArg(1)];
    assert Operands(p.ops[1]) == [OpResult(0, 0), FuncArg(2)];
    assert Uses(p, OpResult(0, 0)) == {(1, 0)};
    assert FromBlockMaps(1).1 != FromBlockMaps(2).1;
  }

  /** The relu on the blocked tensor: identity maps over four parallel loops, marked `tpp.relu`. */
  function BlockedReluOp(input: Value, dest: Value, t: Type): Op {
    Op(GenericOp([Identity(4), Identity(4)], [Parallel, Parallel, Parallel, Parallel]), [input], [dest], [t],
       map[LibraryCall := StrAttr("tpp.relu")], EmptyRegion)
  }

  /**
   * The tensor in block layout: the input of the op defining the relu's
   * first input (a placeholder argument when there is none).
   */
  function BlockTensor(p: Program, root: OpId): Value
    requires root in p.ops
  {
    var op := p.ops[root];
    if |op.inputs| > 0 && op.inputs[0].OpResult? && op.inputs[0].op in p.ops && |p.ops[op.inputs[0].op].inputs| > 0
    then p.ops[op.inputs[0].op].inputs[0]
    else FuncArg(0)
  }

  /** The relu's output (a placeholder argument when it has none). */
  function ReluOut(p: Program, root: OpId): Value
    requires root in p.ops
  {
    if |p.ops[root].inits| > 0 then p.ops[root].inits[0] else FuncArg(0)
  }

  /**
   * The reshape of out (ops n, n + 1), the relu on block into it (op n + 2),
   * and the relayout back into out (op n + 3), which replaces root.
   */
  function SinkGraph(p: Program, root: OpId, block: Value, out: Value, bf: int, n: OpId): Program {
    var tout := TypeAt(p, out);
    ThroughBlocked(WithReshape(p, out, BlockedType(tout, bf), bf, n), root,
                   BlockedReluOp(block, OpResult(n + 1, 0), TypeAt(p, block)), out, tout, bf, n + 2)
  }

  /**
   * The graph after SinkBlockLayoutAfterRelu, with new ops n .. n + 3: the
   * reshape of the relu's output (n, n + 1), the relu on the blocked tensor
   * (n + 2) and the relayout back into the output (n + 3).
   */
  function SinkRewrite(p: Program, root: OpId, bf: int, n: OpId): Program
    requires root in p.ops
  {
    SinkGraph(p, root, BlockTensor(p, root), ReluOut(p, root), bf, n)
  }

  lemma SinkStages(p: Program, q: Program, r: Program, root: OpId, block: Value, out: Value, bf: int,
                   n: OpId, n2: OpId, gen: Op, tout: Type)
    requires n2 == n + 2 && tout == TypeAt(p, out) && gen == BlockedReluOp(block, OpResult(n + 1, 0), TypeAt(p, block))
    requires q == WithReshape(p, out, BlockedType(TypeAt(p, out), bf), bf, n)
    requires r == ThroughBlocked(q, root, gen, out, tout, bf, n2)
    ensures r == SinkGraph(p, root, block, out, bf, n)
  {
  }

  /** The rewriting half of the pattern, once its tests have passed. */
  method SinkEdits(rw: Rewriter, root: OpId, block: Value, out: Value, bf: int)
    requires rw.Valid() && root in rw.ops && |rw.ops[root].results| == 1 && IsMatrix(rw.State(), out) && bf > 0
    modifies rw
    ensures rw.Valid() && rw.next == old(rw.next) + 4
    ensures rw.State() == SinkGraph(old(rw.State()), root, block, out, bf, old(rw.next))
  {
    ghost var p, n := rw.State(), rw.next;
    var blockType := TypeAt(rw.State(), block);
    var tout := TypeAt(rw.State(), out);
    var reluBuffer := GetReshapedTensor(rw, out, bf);
    ghost var q, n2 := rw.State(), rw.next;
    assert root in q.ops && q.ops[root] == p.ops[root];
    var gen := BlockedReluOp(block, reluBuffer, blockType);
    BlockedAndBack(rw, root, gen, out, tout, bf);
    SinkStages(p, q, rw.State(), root, block, out, bf, n, n2, gen, tout);
  }

  /**
   * SinkBlockLayoutAfterRelu: fails, changing nothing, unless its tests pass;
   * otherwise the graph becomes SinkRewrite of the old one.
   */
  method SinkBlockLayoutAfterRelu(rw: Rewriter, root: OpId, bf: int) returns (success: bool)
    requires rw.Valid() && ReluGeneric(rw.State(), root) && bf > 0
    modifies rw
    ensures rw.Valid()
    ensures success <==> SinkApplies(old(rw.State()), root)
    ensures success ==> rw.next == old(rw.next) + 4 && rw.State() == SinkRewrite(old(rw.State()), root, bf, old(rw.next))
    ensures !success ==> rw.State() == old(rw.State()) && rw.next == old(rw.next)
  {
    var op := rw.ops[root];
    if !MarkedWith(op, "tpp.relu") || |op.inputs| == 0 {
      return false;
    }
    var from := DefiningOp(rw.State(), op.inputs[0]);
    if from.None? || !rw.ops[from.value].kind.Relayout? || !HasOneUse(rw.State(), OpResult(from.value, 0)) {
      return false;
    }
    var block := rw.ops[from.value].inputs[0];
    SinkEdits(rw, root, block, op.inits[0], bf);
    success := true;
  }

  /** The reshape of the relu's output keeps the graph closed, the relu and the values it reads. */
  lemma SinkReshapeClosed(p: Program, p1: Program, root: OpId, block: Value, out: Value, tb: Type, bf: int, n: OpId)
    requires p1 == WithReshape(p, out, tb, bf, n)
    ensures Closed(p) && FreshFrom(p, n) && root in p.ops && IsDefined(p, block) && IsDefined(p, out) ==>
      && Closed(p1) && FreshFrom(p1, n + 2) && root in p1.ops && p1.ops[root] == p.ops[root]
      && IsDefined(p1, block) && IsDefined(p1, OpResult(n + 1, 0)) && TypeOf(p1, out) == TypeOf(p, out)
  {
    if !(Closed(p) && FreshFrom(p, n) && root in p.ops && IsDefined(p, block) && IsDefined(p, out)) {
      return;
    }
    WithReshapeClosed(p, p1, out, tb, bf, n);
    WithReshapeKeeps(p, p1, out, tb, bf, n, root, block, out);
  }

  /** The relu on the blocked tensor and the relayout back keep the graph closed. */
  lemma SinkTailClosed(p1: Program, r: Program, root: OpId, block: Value, out: Value, tblock: Type, tout: Type, bf: int,
                       n: OpId, n2: OpId)
    requires n2 == n + 2 && root in p1.ops && |p1.ops[root].results| == 1
    requires r == ThroughBlocked(p1, root, BlockedReluOp(block, OpResult(n + 1, 0), tblock), out, tout, bf, n2)
    ensures Closed(p1) && FreshFrom(p1, n2) && IsDefined(p1, block) && IsDefined(p1, OpResult(n + 1, 0)) &&
            IsDefined(p1, out) && !(out.OpResult? && out.op == root) ==>
              Closed(r) && root !in r.ops && Users(r, OpResult(root, 0)) == {} && TypeOf(r, OpResult(n + 3, 0)) == Some(tout)
  {
    if !(Closed(p1) && FreshFrom(p1, n2) && IsDefined(p1, block) && IsDefined(p1, OpResult(n + 1, 0)) &&
         IsDefined(p1, out) && !(out.OpResult? && out.op == root)) {
      return;
    }
    var gen := BlockedReluOp(block, OpResult(n + 1, 0), tblock);
    assert Operands(gen) == [block, OpResult(n + 1, 0)];
    ThroughBlockedClosed(p1, r, root, gen, out, tout, bf, n2);
    assert OpResult(n2 + 1, 0) == OpResult(n + 3, 0);
  }

  /** What the rewrite leaves: a closed graph without root, whose uses read op n + 3 of out's type. */
  predicate SinkDone(p: Program, r: Program, root: OpId, out: Value, n: OpId) {
    Closed(r) && root !in r.ops && Users(r, OpResult(root, 0)) == {} && TypeOf(r, OpResult(n + 3, 0)) == TypeOf(p, out)
  }

  lemma SinkGraphClosed(p: Program, r: Program, root: OpId, block: Value, out: Value, bf: int, n: OpId)
    requires Closed(p) && root in p.ops && |p.ops[root].results| == 1 && FreshFrom(p, n)
    requires IsDefined(p, block) && IsDefined(p, out) && !(out.OpResult? && out.op == root)
    requires r == SinkGraph(p, root, block, out, bf, n)
    ensures SinkDone(p, r, root, out, n)
  {
    var tout := TypeAt(p, out);
    TypeAtDefined(p, out);
    var p1 := WithReshape(p, out, BlockedType(tout, bf), bf, n);
    SinkReshapeClosed(p, p1, root, block, out, BlockedType(tout, bf), bf, n);
    SinkTailClosed(p1, r, root, block, out, TypeAt(p, block), tout, bf, n, n + 2);
  }

  /**
   * The rewrite keeps the graph closed and erases the relu; its uses read the
   * relayout back, which has the type of the relu's output.
   */
  lemma SinkClosed(p: Program, root: OpId, bf: int, n: OpId)
    requires ReluGeneric(p, root) && SinkApplies(p, root) && FreshFrom(p, n) && Closed(p)
    ensures var q := SinkRewrite(p, root, bf, n);
      && Closed(q) && root !in q.ops && Users(q, OpResult(root, 0)) == {}
      && TypeOf(q, OpResult(n + 3, 0)) == TypeOf(p, p.ops[root].inits[0])
  {
    var op := p.ops[root];
    var rel := p.ops[op.inputs[0].op];
    assert rel.inputs[0] in Operands(rel);
    SinkGraphClosed(p, SinkRewrite(p, root, bf, n), root, BlockTensor(p, root), ReluOut(p, root), bf, n);
  }
}
