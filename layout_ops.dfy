/**
 * The graph side of the layout helpers of lib/TPP/ToBlockLayoutAndBack.cpp:
 * a pack is emitted as an empty destination of the packed type followed by
 * `tensor.pack`, an unpack as `tensor.unpack` into the original output (or
 * into the init of the fill that produced it). Also the iteration domains of
 * the packed ops and the full-tile check made on them.
 */
module LayoutOps {
  import opened Wrappers
  import opened Sums
  import opened Tensors
  import opened Affine
  import opened TensorPack
  import opened Contraction
  import opened Ir

  /** The `linalg.generic` kind carrying a contraction's indexing maps (A, B, C) and iterators. */
  function GenericKind(g: Generic): OpKind {
    GenericOp([g.mapA, g.mapB, g.mapC], g.iterators)
  }

  /** A value of ranked tensor type on which the layout is valid. */
  predicate PackableValue(p: Program, v: Value, l: Layout) {
    TypeOf(p, v).Some? && TypeOf(p, v).value.TensorType? && ValidLayout(l, |TypeOf(p, v).value.shape|)
  }

  function EmptyOp(t: Type): Op {
    Op(Empty, [], [], [t], map[], EmptyRegion)
  }

  function PackOpOf(input: Value, dest: Value, l: Layout, t: Type): Op {
    Op(Pack(l), [input], [dest], [t], map[], EmptyRegion)
  }

  /** toPackLayoutImpl on an input of type t: `tensor.empty` of the packed type as op n, the pack into it as op n + 1. */
  function WithPack(p: Program, input: Value, t: Type, l: Layout, n: OpId): Program
    requires t.TensorType? && ValidLayout(l, |t.shape|)
  {
    AddOp(AddOp(p, n, EmptyOp(PackedType(t, l))), n + 1, PackOpOf(input, OpResult(n, 0), l, PackedType(t, l)))
  }

  /** toUnPackLayoutImpl: an output produced by a fill is replaced by the fill's init. */
  function UnpackDest(p: Program, output: Value): (r: Value)
    ensures r == output || (output.OpResult? && output.op in p.ops && r in p.ops[output.op].inits)
  {
    match DefiningOp(p, output)
    case Some(id) =>
      if p.ops[id].kind == Fill && |p.ops[id].inits| > 0 then p.ops[id].inits[0] else output
    case None => output
  }

  /** The destination of an unpack depends only on the op defining the output: its kind and inits. */
  lemma UnpackDestKept(p: Program, q: Program, v: Value)
    requires KeepsOps(p, q) && IsDefined(p, v)
    ensures UnpackDest(q, v) == UnpackDest(p, v)
  {
  }

  /** The packs add ops n and n + 1 and change no other op. */
  lemma WithPackKeeps(p: Program, q: Program, input: Value, t: Type, l: Layout, n: OpId)
    requires t.TensorType? && ValidLayout(l, |t.shape|) && FreshFrom(p, n)
    requires q == WithPack(p, input, t, l, n)
    ensures FreshFrom(q, n + 2) && n in q.ops && n + 1 in q.ops && q.args == p.args
    ensures forall id :: id in p.ops ==> id in q.ops && q.ops[id] == p.ops[id]
  {
  }

  /** The packs leave the type of a defined value alone. */
  lemma WithPackType(p: Program, q: Program, input: Value, t: Type, l: Layout, n: OpId, v: Value)
    requires t.TensorType? && ValidLayout(l, |t.shape|) && FreshFrom(p, n) && IsDefined(p, v)
    requires q == WithPack(p, input, t, l, n)
    ensures TypeOf(q, v) == TypeOf(p, v)
  {
  }

  /**
   * The packs of a defined value keep the graph closed, define the packed
   * value and leave every value that was defined defined.
   */
  lemma WithPackClosed(p: Program, q: Program, input: Value, t: Type, l: Layout, n: OpId)
    requires t.TensorType? && ValidLayout(l, |t.shape|) && FreshFrom(p, n) && Closed(p) && IsDefined(p, input)
    requires q == WithPack(p, input, t, l, n)
    ensures Closed(q) && FreshFrom(q, n + 2) && IsDefined(q, OpResult(n + 1, 0)) && q.args == p.args
    ensures forall v :: IsDefined(p, v) ==> IsDefined(q, v)
    ensures forall id :: id in p.ops ==> id in q.ops && q.ops[id] == p.ops[id]
  {
    var e := EmptyOp(PackedType(t, l));
    AddOpClosed(p, n, e);
    var p1 := AddOp(p, n, e);
    assert IsDefined(p1, input) && IsDefined(p1, OpResult(n, 0));
    AddOpClosed(p1, n + 1, PackOpOf(input, OpResult(n, 0), l, PackedType(t, l)));
  }

  /** toUnPackLayoutImpl: the unpack into dest, of dest's type t, as op n. */
  function WithUnpack(p: Program, input: Value, dest: Value, t: Type, l: Layout, n: OpId): Program {
    AddOp(p, n, Op(UnPack(l), [input], [dest], [t], map[], EmptyRegion))
  }

  /** toPackLayoutImpl on an input of type t. */
  method ToPackLayout(rw: Rewriter, input: Value, ghost t: Type, l: Layout, ghost n: OpId) returns (packed: Value)
    requires rw.Valid() && rw.next == n && TypeOf(rw.State(), input) == Some(t) && t.TensorType? && ValidLayout(l, |t.shape|)
    modifies rw
    ensures rw.Valid() && rw.next == n + 2 && packed == OpResult(n + 1, 0)
    ensures rw.State() == WithPack(old(rw.State()), input, t, l, n)
    ensures TypeOf(rw.State(), packed) == Some(PackedType(t, l))
  {
    var packedType := PackedType(TypeOf(rw.State(), input).value, l);
    var empty := rw.Create(EmptyOp(packedType));
    var pack := rw.Create(PackOpOf(input, OpResult(empty, 0), l, packedType));
    packed := OpResult(pack, 0);
  }

  method ToUnPackLayout(rw: Rewriter, input: Value, output: Value, l: Layout) returns (unpacked: Value)
    requires rw.Valid() && IsDefined(rw.State(), UnpackDest(rw.State(), output))
    modifies rw
    ensures rw.Valid() && rw.next == old(rw.next) + 1 && unpacked == OpResult(old(rw.next), 0)
    ensures rw.State() == WithUnpack(old(rw.State()), input, UnpackDest(old(rw.State()), output),
                                     TypeOf(old(rw.State()), UnpackDest(old(rw.State()), output)).value, l, old(rw.next))
  {
    var dest := output;
    var def := DefiningOp(rw.State(), output);
    if def.Some? && rw.ops[def.value].kind == Fill && |rw.ops[def.value].inits| > 0 {
      dest := rw.ops[def.value].inits[0];
    }
    var unpack := rw.Create(Op(UnPack(l), [input], [dest], [TypeOf(rw.State(), dest).value], map[], EmptyRegion));
    unpacked := OpResult(unpack, 0);
  }

  /**
   * Why the unpack may write into the fill's init instead of the fill: an
   * unpack overwrites every element of its destination, so only the
   * destination's shape matters, and a fill has its init's shape.
   */
  lemma UnpackIntoFillInit(packed: Tensor, l: Layout, init: Tensor, value: int)
    requires ValidLayout(l, |init.shape|)
    ensures Unpack(packed, l, Filled(init.shape, value)) == Unpack(packed, l, init)
  {
  }

  /** How packing the result of a fill differs from a fill of the packed shape. */
  lemma PackOfFill(shape: seq<int>, l: Layout, value: int)
    requires ValidLayout(l, |shape|) && FullTiles(shape, l)
    ensures Equiv(TensorPack.Pack(Filled(shape, value), l), Filled(PackedShape(shape, l), value))
  {
    forall q | InBox(q, PackedShape(shape, l))
      ensures TensorPack.Pack(Filled(shape, value), l).at(q) == value
    {
      SourceIndexInBounds(l, shape, q);
    }
  }

  /**
   * The iteration domain of a structured op (`getIterationDomain`), from its
   * operand shapes: (M, N, K) for a matmul, (B, M, N, K) for a batch matmul,
   * (N, OH, OW, F, KH, KW, C) for an NHWC/HWCF convolution and
   * (N, F, OH, OW, C, KH, KW) for an NCHW/FCHW one. Empty for other ops or
   * operands of the wrong rank.
   */
  function LoopBounds(p: Program, op: Op): seq<int> {
    var a := OperandShape(p, op, 0);
    var b := OperandShape(p, op, 1);
    var c := OperandShape(p, op, 2);
    match op.kind
    case Matmul => if |a| == 2 && |b| == 2 then [a[0], b[1], a[1]] else []
    case BatchMatmul => if |a| == 3 && |b| == 3 then [a[0], a[1], b[2], a[2]] else []
    case ConvNhwcHwcf(_, _) =>
      if |b| == 4 && |c| == 4 then [c[0], c[1], c[2], c[3], b[0], b[1], b[2]] else []
    case ConvNchwFchw(_, _) =>
      if |b| == 4 && |c| == 4 then [c[0], c[1], c[2], c[3], b[1], b[2], b[3]] else []
    case _ => []
  }

  /**
   * `validateFullTilesOnDims`: tile k is positive and loop dims[k] (of known,
   * non-negative size) is a whole number of such tiles.
   */
  predicate FullTilesOnDims(bounds: seq<int>, tiles: seq<int>, dims: seq<nat>) {
    && |tiles| >= |dims|
    && forall k :: 0 <= k < |dims| ==>
         dims[k] < |bounds| && tiles[k] > 0 && bounds[dims[k]] >= 0 && bounds[dims[k]] % tiles[k] == 0
  }
}
