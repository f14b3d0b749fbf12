/**
 * The rewrite shared by `packMatmulOpImpl` and `packConvolutions` of
 * lib/TPP/ToBlockLayoutAndBack.cpp, on the program graph: the two inputs and
 * the init of an op are each packed (an empty destination and a
 * `tensor.pack`), a blocked `linalg.generic` on the packs takes over the op's
 * body, and an unpack of the generic's result into the init (or into the
 * init of the fill producing it) replaces the op. Only the layouts, the
 * generic's maps and iterators, and whether the op's "metadata" attribute is
 * copied differ between the rewrites.
 */
module PackRewrite {
  import opened Wrappers
  import opened TensorPack
  import opened Ir
  import opened LayoutOps

  /**
   * An op with two inputs and one init, all of known type, none of them a
   * result of the op itself: the operand structure both rewrites rely on.
   */
  predicate TwoInputsOneInit(p: Program, root: OpId) {
    && root in p.ops
    && |p.ops[root].inputs| == 2 && |p.ops[root].inits| == 1
    && forall v :: v in Operands(p.ops[root]) ==> TypeOf(p, v).Some? && !(v.OpResult? && v.op == root)
  }

  /**
   * What the rewrite reads off the op: inputs a, b and init c with their
   * types, and the unpack destination (c, or the init of the fill producing
   * c) with its type.
   */
  datatype Parts = Parts(a: Value, ta: Type, b: Value, tb: Type, c: Value, tc: Type, dest: Value, td: Type)

  /** The layouts a, b and c are packed with; c's is also the unpack's. */
  datatype Layouts = Layouts(a: Layout, b: Layout, c: Layout)

  function PartsOf(p: Program, root: OpId): (m: Parts)
    requires TwoInputsOneInit(p, root) && Closed(p)
    ensures m.a == p.ops[root].inputs[0] && m.b == p.ops[root].inputs[1] && m.c == p.ops[root].inits[0]
    ensures Some(m.ta) == TypeOf(p, m.a) && Some(m.tb) == TypeOf(p, m.b) && Some(m.tc) == TypeOf(p, m.c)
    ensures m.dest == UnpackDest(p, m.c) && Some(m.td) == TypeOf(p, m.dest)
  {
    var op := p.ops[root];
    assert op.inputs[0] in Operands(op) && op.inputs[1] in Operands(op) && op.inits[0] in Operands(op);
    var dest := UnpackDest(p, op.inits[0]);
    assert IsDefined(p, dest);
    Parts(op.inputs[0], TypeOf(p, op.inputs[0]).value, op.inputs[1], TypeOf(p, op.inputs[1]).value,
          op.inits[0], TypeOf(p, op.inits[0]).value, dest, TypeOf(p, dest).value)
  }

  /** Each operand is a ranked tensor on which its layout is valid. */
  predicate Fits(m: Parts, ls: Layouts) {
    && m.ta.TensorType? && ValidLayout(ls.a, |m.ta.shape|)
    && m.tb.TensorType? && ValidLayout(ls.b, |m.tb.shape|)
    && m.tc.TensorType? && ValidLayout(ls.c, |m.tc.shape|)
  }

  /** The attributes the generic receives: the op's "metadata" when it is to be copied and present. */
  function CopiedAttrs(op: Op, copyMetadata: bool): (r: map<string, Attr>)
    ensures "metadata" in r <==> copyMetadata && "metadata" in op.attrs
    ensures "metadata" in r ==> r["metadata"] == op.attrs["metadata"]
    ensures forall name :: name in r ==> name == "metadata"
  {
    if copyMetadata && "metadata" in op.attrs then map["metadata" := op.attrs["metadata"]] else map[]
  }

  /** The generic of result type t on the packs a, b and the init c, not yet holding a body. */
  function GenericOpOf(kind: OpKind, t: Type, a: Value, b: Value, c: Value, attrs: map<string, Attr>): Op {
    Op(kind, [a, b], [c], [t], attrs, EmptyRegion)
  }

  /** The packs of the inputs: a into ops n, n + 1, b into n + 2, n + 3. */
  function PackInputs(p: Program, m: Parts, ls: Layouts, n: OpId): Program
    requires Fits(m, ls)
  {
    WithPack(WithPack(p, m.a, m.ta, ls.a, n), m.b, m.tb, ls.b, n + 2)
  }

  /** The three packs: then c into n + 4, n + 5. */
  function PackOperands(p: Program, m: Parts, ls: Layouts, n: OpId): Program
    requires Fits(m, ls)
  {
    WithPack(PackInputs(p, m, ls, n), m.c, m.tc, ls.c, n + 4)
  }

  /** The generic on the packs n + 1, n + 3 and n + 5, of the packed type of c. */
  function PackedGenericOp(m: Parts, ls: Layouts, kind: OpKind, attrs: map<string, Attr>, n: OpId): (g: Op)
    requires Fits(m, ls)
    ensures Operands(g) == [OpResult(n + 1, 0), OpResult(n + 3, 0), OpResult(n + 5, 0)] && |g.results| == 1
  {
    GenericOpOf(kind, PackedType(m.tc, ls.c), OpResult(n + 1, 0), OpResult(n + 3, 0), OpResult(n + 5, 0), attrs)
  }

  /** Op g as op id, taking over root's body. */
  function AttachOp(q: Program, root: OpId, g: Op, id: OpId): Program
    requires root in q.ops && root != id
  {
    MoveRegion(AddOp(q, id, g), root, id)
  }

  /** The generic as op n + 6, on the packs n + 1, n + 3 and n + 5, taking over root's body. */
  function WithGeneric(q: Program, root: OpId, m: Parts, ls: Layouts, kind: OpKind, attrs: map<string, Attr>, n: OpId): Program
    requires Fits(m, ls) && root in q.ops && root != n + 6
  {
    AttachOp(q, root, PackedGenericOp(m, ls, kind, attrs, n), n + 6)
  }

  /** The unpack (op n + 7) of the generic's result into dest, and the replacement of root by it. */
  function WithUnpackReplacing(q: Program, root: OpId, m: Parts, ls: Layouts, n: OpId): Program {
    ReplaceOpIn(WithUnpack(q, OpResult(n + 6, 0), m.dest, m.td, ls.c, n + 7), root, [OpResult(n + 7, 0)])
  }

  /**
   * The graph after the rewrite, with new ops n .. n + 7: the empty
   * destination and the pack of a (n, n + 1), of b (n + 2, n + 3) and of c
   * (n + 4, n + 5), the generic (n + 6) and the unpack (n + 7).
   */
  function PackedGraph(p: Program, root: OpId, m: Parts, ls: Layouts, kind: OpKind, attrs: map<string, Attr>, n: OpId): Program
    requires Fits(m, ls) && root in p.ops && root < n
  {
    var p3 := PackOperands(p, m, ls, n);
    assert root in p3.ops;
    WithUnpackReplacing(WithGeneric(p3, root, m, ls, kind, attrs, n), root, m, ls, n)
  }

  /** The packs add ops n .. n + 5 and change no other op. */
  lemma PackOperandsKeeps(p: Program, p3: Program, m: Parts, ls: Layouts, n: OpId)
    requires Fits(m, ls) && FreshFrom(p, n)
    requires p3 == PackOperands(p, m, ls, n)
    ensures FreshFrom(p3, n + 6) && p3.args == p.args
    ensures forall id :: id in p.ops ==> id in p3.ops && p3.ops[id] == p.ops[id]
  {
    var p1 := WithPack(p, m.a, m.ta, ls.a, n);
    var p2 := WithPack(p1, m.b, m.tb, ls.b, n + 2);
    assert p3 == WithPack(p2, m.c, m.tc, ls.c, n + 4);
    WithPackKeeps(p, p1, m.a, m.ta, ls.a, n);
    WithPackKeeps(p1, p2, m.b, m.tb, ls.b, n + 2);
    WithPackKeeps(p2, p3, m.c, m.tc, ls.c, n + 4);
  }

  /** Before the unpack, the graph still holds every op of the original one; only root's body has moved. */
  lemma WithGenericKeeps(p: Program, p3: Program, p5: Program, root: OpId, m: Parts, ls: Layouts,
                         kind: OpKind, attrs: map<string, Attr>, n: OpId)
    requires Fits(m, ls) && root in p.ops && root < n && FreshFrom(p3, n + 6) && p3.args == p.args
    requires forall id :: id in p.ops ==> id in p3.ops && p3.ops[id] == p.ops[id]
    requires p5 == WithGeneric(p3, root, m, ls, kind, attrs, n)
    ensures KeepsOps(p, p5)
  {
    forall id | id in p.ops ensures id in p5.ops && SameButBody(p.ops[id], p5.ops[id]) {
      assert id in p3.ops && p3.ops[id] == p.ops[id];
    }
  }

  lemma PackInputsStages(p: Program, p1: Program, p2: Program, m: Parts, ls: Layouts, n: OpId, n2: OpId, b: Value)
    requires Fits(m, ls) && n2 == n + 2 && b == OpResult(n2 + 1, 0)
    requires p1 == WithPack(p, m.a, m.ta, ls.a, n)
    requires p2 == WithPack(p1, m.b, m.tb, ls.b, n2)
    ensures p2 == PackInputs(p, m, ls, n) && b == OpResult(n + 3, 0)
  {
  }

  /** The two toPackLayout calls on the inputs. */
  method PackInputOperands(rw: Rewriter, m: Parts, ls: Layouts, ghost n: OpId) returns (a: Value, b: Value)
    requires rw.Valid() && Fits(m, ls) && rw.next == n
    requires TypeOf(rw.State(), m.a) == Some(m.ta) && TypeOf(rw.State(), m.b) == Some(m.tb)
    requires TypeOf(rw.State(), m.c) == Some(m.tc)
    modifies rw
    ensures rw.Valid() && rw.next == n + 4
    ensures a == OpResult(n + 1, 0) && b == OpResult(n + 3, 0)
    ensures rw.State() == PackInputs(old(rw.State()), m, ls, n)
    ensures TypeOf(rw.State(), m.c) == Some(m.tc)
  {
    ghost var p := rw.State();
    a := ToPackLayout(rw, m.a, m.ta, ls.a, n);
    ghost var p1, n2 := rw.State(), rw.next;
    WithPackType(p, p1, m.a, m.ta, ls.a, n, m.b);
    WithPackType(p, p1, m.a, m.ta, ls.a, n, m.c);
    b := ToPackLayout(rw, m.b, m.tb, ls.b, n2);
    WithPackType(p1, rw.State(), m.b, m.tb, ls.b, n2, m.c);
    PackInputsStages(p, p1, rw.State(), m, ls, n, n2, b);
  }

  lemma PackThreeStages(p: Program, p2: Program, q: Program, m: Parts, ls: Layouts, n: OpId, n4: OpId, c: Value)
    requires Fits(m, ls) && n4 == n + 4 && c == OpResult(n4 + 1, 0)
    requires p2 == PackInputs(p, m, ls, n)
    requires q == WithPack(p2, m.c, m.tc, ls.c, n4)
    ensures q == PackOperands(p, m, ls, n) && c == OpResult(n + 5, 0)
  {
  }

  /** The three toPackLayout calls. */
  method PackThree(rw: Rewriter, m: Parts, ls: Layouts, ghost n: OpId) returns (a: Value, b: Value, c: Value)
    requires rw.Valid() && Fits(m, ls) && rw.next == n
    requires TypeOf(rw.State(), m.a) == Some(m.ta) && TypeOf(rw.State(), m.b) == Some(m.tb)
    requires TypeOf(rw.State(), m.c) == Some(m.tc)
    modifies rw
    ensures rw.Valid() && rw.next == n + 6
    ensures a == OpResult(n + 1, 0) && b == OpResult(n + 3, 0) && c == OpResult(n + 5, 0)
    ensures rw.State() == PackOperands(old(rw.State()), m, ls, n)
    ensures TypeOf(rw.State(), c) == Some(PackedType(m.tc, ls.c))
  {
    ghost var p := rw.State();
    a, b := PackInputOperands(rw, m, ls, n);
    ghost var p2, n4 := rw.State(), rw.next;
    c := ToPackLayout(rw, m.c, m.tc, ls.c, n4);
    PackThreeStages(p, p2, rw.State(), m, ls, n, n4, c);
  }

  /** Setting the attribute after the body has moved gives the generic created with it. */
  lemma SetAttrAfterMove(q: Program, root: OpId, g: OpId, op: Op, name: string, a: Attr)
    requires root in q.ops && g !in q.ops && root != g && op.attrs == map[]
    ensures SetAttrIn(MoveRegion(AddOp(q, g, op), root, g), g, name, a)
         == MoveRegion(AddOp(q, g, op.(attrs := map[name := a])), root, g)
  {
  }

  /**
   * The creation of the generic on the packs, the move of root's body into
   * it, and, when asked for, the copy of root's "metadata" attribute.
   */
  method AttachGeneric(rw: Rewriter, root: OpId, m: Parts, ls: Layouts, kind: OpKind, copyMetadata: bool,
                       n: OpId, a: Value, b: Value, c: Value)
    returns (gen: OpId)
    requires rw.Valid() && Fits(m, ls) && root in rw.ops && rw.next == n + 6
    requires a == OpResult(n + 1, 0) && b == OpResult(n + 3, 0) && c == OpResult(n + 5, 0)
    requires TypeOf(rw.State(), c) == Some(PackedType(m.tc, ls.c))
    modifies rw
    ensures rw.Valid() && gen == n + 6 && rw.next == n + 7
    ensures rw.State() == WithGeneric(old(rw.State()), root, m, ls, kind, CopiedAttrs(old(rw.ops[root]), copyMetadata), n)
  {
    ghost var q := rw.State();
    var rootAttrs := rw.ops[root].attrs;
    var op := GenericOpOf(kind, TypeOf(rw.State(), c).value, a, b, c, map[]);
    gen := rw.Create(op);
    rw.InlineRegionBefore(root, gen);
    if copyMetadata && "metadata" in rootAttrs {
      SetAttrAfterMove(q, root, gen, op, "metadata", rootAttrs["metadata"]);
      rw.SetAttr(gen, "metadata", rootAttrs["metadata"]);
    }
  }

  /** The unpack of the generic's result into dest, and the replacement of root by it. */
  method ReplaceByUnpack(rw: Rewriter, root: OpId, m: Parts, ls: Layouts, n: OpId)
    requires rw.Valid() && root in rw.ops && |rw.ops[root].results| == 1 && rw.next == n + 7
    requires m.dest == UnpackDest(rw.State(), m.c) && TypeOf(rw.State(), m.dest) == Some(m.td)
    modifies rw
    ensures rw.Valid()
    ensures rw.State() == WithUnpackReplacing(old(rw.State()), root, m, ls, n)
  {
    var unpacked := ToUnPackLayout(rw, OpResult(n + 6, 0), m.c, ls.c);
    rw.ReplaceOp(root, [unpacked]);
  }

  /** The graph once the packs and the generic are in place, before the unpack. */
  function PackedGeneric(p: Program, root: OpId, m: Parts, ls: Layouts, kind: OpKind, attrs: map<string, Attr>, n: OpId): Program
    requires Fits(m, ls) && root in p.ops && root < n
  {
    var p3 := PackOperands(p, m, ls, n);
    assert root in p3.ops;
    WithGeneric(p3, root, m, ls, kind, attrs, n)
  }

  /** The three packs, then the generic that takes over root's body. */
  method PackAndAttach(rw: Rewriter, root: OpId, m: Parts, ls: Layouts, kind: OpKind, copyMetadata: bool) returns (gen: OpId)
    requires rw.Valid() && Fits(m, ls) && root in rw.ops
    requires TypeOf(rw.State(), m.a) == Some(m.ta) && TypeOf(rw.State(), m.b) == Some(m.tb)
    requires TypeOf(rw.State(), m.c) == Some(m.tc)
    modifies rw
    ensures rw.Valid() && gen == old(rw.next) + 6 && rw.next == gen + 1
    ensures KeepsOps(old(rw.State()), rw.State())
    ensures rw.State() == PackedGeneric(old(rw.State()), root, m, ls, kind, CopiedAttrs(old(rw.ops[root]), copyMetadata), old(rw.next))
  {
    ghost var p := rw.State();
    ghost var attrs := CopiedAttrs(rw.ops[root], copyMetadata);
    var n := rw.next;
    var a, b, c := PackThree(rw, m, ls, n);
    ghost var p3 := rw.State();
    PackOperandsKeeps(p, p3, m, ls, n);
    gen := AttachGeneric(rw, root, m, ls, kind, copyMetadata, n, a, b, c);
    WithGenericKeeps(p, p3, rw.State(), root, m, ls, kind, attrs, n);
  }

  /** Root and the unpack's destination are as they were once the generic is in place. */
  lemma PackedGenericKeeps(p: Program, p5: Program, root: OpId, m: Parts)
    requires KeepsOps(p, p5) && root in p.ops && |p.ops[root].results| == 1
    requires TypeOf(p, m.c).Some? && m.dest == UnpackDest(p, m.c) && TypeOf(p, m.dest) == Some(m.td)
    ensures root in p5.ops && |p5.ops[root].results| == 1
    ensures m.dest == UnpackDest(p5, m.c) && TypeOf(p5, m.dest) == Some(m.td)
  {
    UnpackDestKept(p, p5, m.c);
    KeepsOpsTypes(p, p5, m.dest);
  }

  /** The stages of ApplyPacking compose to PackedGraph. */
  lemma PackedGraphStages(p: Program, p5: Program, p7: Program,
                          root: OpId, m: Parts, ls: Layouts, kind: OpKind, attrs: map<string, Attr>, n: OpId)
    requires Fits(m, ls) && root in p.ops && root < n
    requires p5 == PackedGeneric(p, root, m, ls, kind, attrs, n)
    requires p7 == WithUnpackReplacing(p5, root, m, ls, n)
    ensures p7 == PackedGraph(p, root, m, ls, kind, attrs, n)
  {
  }

  /** The rewriting half of packMatmulOpImpl and packConvolutions, once every check has passed. */
  method ApplyPacking(rw: Rewriter, root: OpId, m: Parts, ls: Layouts, kind: OpKind, copyMetadata: bool) returns (gen: OpId)
    requires rw.Valid() && Fits(m, ls) && root in rw.ops && |rw.ops[root].results| == 1
    requires TypeOf(rw.State(), m.a) == Some(m.ta) && TypeOf(rw.State(), m.b) == Some(m.tb)
    requires TypeOf(rw.State(), m.c) == Some(m.tc)
    requires m.dest == UnpackDest(rw.State(), m.c) && TypeOf(rw.State(), m.dest) == Some(m.td)
    modifies rw
    ensures rw.Valid() && gen == old(rw.next) + 6
    ensures rw.State() == PackedGraph(old(rw.State()), root, m, ls, kind, CopiedAttrs(old(rw.ops[root]), copyMetadata), old(rw.next))
  {
    ghost var p := rw.State();
    var n := rw.next;
    gen := PackAndAttach(rw, root, m, ls, kind, copyMetadata);
    ghost var p5 := rw.State();
    PackedGenericKeeps(p, p5, root, m);
    ReplaceByUnpack(rw, root, m, ls, n);
    PackedGraphStages(p, p5, rw.State(), root, m, ls, kind, CopiedAttrs(old(rw.ops[root]), copyMetadata), n);
  }

  /** The packs keep the graph closed, define the packed values and keep every op. */
  lemma PackOperandsClosed(p: Program, p3: Program, m: Parts, ls: Layouts, n: OpId)
    requires Fits(m, ls) && FreshFrom(p, n) && Closed(p)
    requires IsDefined(p, m.a) && IsDefined(p, m.b) && IsDefined(p, m.c)
    requires p3 == PackOperands(p, m, ls, n)
    ensures Closed(p3) && FreshFrom(p3, n + 6) && p3.args == p.args
    ensures IsDefined(p3, OpResult(n + 1, 0)) && IsDefined(p3, OpResult(n + 3, 0)) && IsDefined(p3, OpResult(n + 5, 0))
    ensures forall v :: IsDefined(p, v) ==> IsDefined(p3, v)
    ensures forall id :: id in p.ops ==> id in p3.ops && p3.ops[id] == p.ops[id]
  {
    var p1 := WithPack(p, m.a, m.ta, ls.a, n);
    var p2 := WithPack(p1, m.b, m.tb, ls.b, n + 2);
    assert p3 == WithPack(p2, m.c, m.tc, ls.c, n + 4);
    WithPackClosed(p, p1, m.a, m.ta, ls.a, n);
    WithPackClosed(p1, p2, m.b, m.tb, ls.b, n + 2);
    WithPackClosed(p2, p3, m.c, m.tc, ls.c, n + 4);
  }

  /** Adding an op on defined values as a fresh id and moving root's body into it keeps the graph closed. */
  lemma AttachOpClosed(p3: Program, p5: Program, root: OpId, g: Op, id: OpId)
    requires root in p3.ops && root != id && Closed(p3) && FreshFrom(p3, id) && |g.results| == 1
    requires forall v :: v in Operands(g) ==> IsDefined(p3, v)
    requires p5 == AttachOp(p3, root, g, id)
    ensures Closed(p5) && FreshFrom(p5, id + 1) && IsDefined(p5, OpResult(id, 0))
    ensures forall v :: IsDefined(p3, v) ==> IsDefined(p5, v)
    ensures root in p5.ops && p5.ops[root].results == p3.ops[root].results
  {
    AddOpClosed(p3, id, g);
    MoveRegionClosed(AddOp(p3, id, g), root, id);
  }

  /** Adding the generic and moving root's body into it keeps the graph closed. */
  lemma WithGenericClosed(p3: Program, p5: Program, root: OpId, m: Parts, ls: Layouts,
                          kind: OpKind, attrs: map<string, Attr>, n: OpId)
    requires Fits(m, ls) && root in p3.ops && root < n && Closed(p3) && FreshFrom(p3, n + 6)
    requires IsDefined(p3, OpResult(n + 1, 0)) && IsDefined(p3, OpResult(n + 3, 0)) && IsDefined(p3, OpResult(n + 5, 0))
    requires p5 == WithGeneric(p3, root, m, ls, kind, attrs, n)
    ensures Closed(p5) && FreshFrom(p5, n + 7) && IsDefined(p5, OpResult(n + 6, 0))
    ensures forall v :: IsDefined(p3, v) ==> IsDefined(p5, v)
    ensures root in p5.ops && p5.ops[root].results == p3.ops[root].results
  {
    var g := PackedGenericOp(m, ls, kind, attrs, n);
    AttachPackedClosed(p3, p5, root, g, n);
  }

  /** AttachOpClosed for an op on the three packs. */
  lemma AttachPackedClosed(p3: Program, p5: Program, root: OpId, g: Op, n: OpId)
    requires root in p3.ops && root < n && Closed(p3) && FreshFrom(p3, n + 6)
    requires IsDefined(p3, OpResult(n + 1, 0)) && IsDefined(p3, OpResult(n + 3, 0)) && IsDefined(p3, OpResult(n + 5, 0))
    requires Operands(g) == [OpResult(n + 1, 0), OpResult(n + 3, 0), OpResult(n + 5, 0)] && |g.results| == 1
    requires p5 == AttachOp(p3, root, g, n + 6)
    ensures Closed(p5) && FreshFrom(p5, n + 7) && IsDefined(p5, OpResult(n + 6, 0))
    ensures forall v :: IsDefined(p3, v) ==> IsDefined(p5, v)
    ensures root in p5.ops && p5.ops[root].results == p3.ops[root].results
  {
    AttachOpClosed(p3, p5, root, g, n + 6);
  }

  /** The unpack into a defined dest, and the replacement of root by it, keep the graph closed. */
  lemma ReplaceByUnpackClosed(p5: Program, p7: Program, root: OpId, m: Parts, ls: Layouts, n: OpId)
    requires root in p5.ops && root < n && Closed(p5) && FreshFrom(p5, n + 7)
    requires |p5.ops[root].results| == 1
    requires IsDefined(p5, OpResult(n + 6, 0)) && IsDefined(p5, m.dest) && !(m.dest.OpResult? && m.dest.op == root)
    requires p7 == WithUnpackReplacing(p5, root, m, ls, n)
    ensures Closed(p7)
  {
    var u := Op(UnPack(ls.c), [OpResult(n + 6, 0)], [m.dest], [m.td], map[], EmptyRegion);
    AddOpClosed(p5, n + 7, u);
    var p6 := AddOp(p5, n + 7, u);
    assert IsDefined(p6, OpResult(n + 7, 0)) && |p6.ops[root].results| == 1;
    assert p7 == ReplaceOpIn(p6, root, [OpResult(n + 7, 0)]);
    ReplaceOpClosed1(p6, root, OpResult(n + 7, 0));
  }

  /** The whole rewrite keeps the graph closed when dest is defined and is not a result of root. */
  lemma PackedGraphClosed(p: Program, root: OpId, m: Parts, ls: Layouts, kind: OpKind, attrs: map<string, Attr>, n: OpId)
    requires Fits(m, ls) && root in p.ops && FreshFrom(p, n) && Closed(p) && |p.ops[root].results| == 1
    requires IsDefined(p, m.a) && IsDefined(p, m.b) && IsDefined(p, m.c) && IsDefined(p, m.dest)
    requires !(m.dest.OpResult? && m.dest.op == root)
    ensures Closed(PackedGraph(p, root, m, ls, kind, attrs, n))
  {
    var p3 := PackOperands(p, m, ls, n);
    PackOperandsClosed(p, p3, m, ls, n);
    assert root in p3.ops && p3.ops[root] == p.ops[root];
    var p5 := WithGeneric(p3, root, m, ls, kind, attrs, n);
    WithGenericClosed(p3, p5, root, m, ls, kind, attrs, n);
    var p7 := WithUnpackReplacing(p5, root, m, ls, n);
    ReplaceByUnpackClosed(p5, p7, root, m, ls, n);
    assert p7 == PackedGraph(p, root, m, ls, kind, attrs, n);
  }
}
