/**
 * The program graph the rewrite patterns work on, as an arena of operations
 * addressed by stable identifiers. A value is a result of an operation or an
 * argument of the enclosing function; a type is a tensor or memref with
 * static or dynamic extents, or a scalar. Every change to the graph goes
 * through the Rewriter class, whose primitives are the rewriter calls the
 * patterns make: create an op, redirect the uses of a value, replace an op by
 * values, move a region, set an attribute.
 */
module Ir {
  import opened Wrappers
  import opened Affine
  import opened TensorPack

  type OpId = nat

  datatype Extent = Static(size: int) | Dynamic

  /** Element types as tags: bf16, another float type, an integer type, index. */
  datatype ElementType = BF16 | F32 | I32 | IndexType

  predicate IsIntOrFloat(e: ElementType) {
    e != IndexType
  }

  datatype Type =
    | TensorType(shape: seq<Extent>, elem: ElementType)
    | MemRefType(shape: seq<Extent>, elem: ElementType)
    | ScalarType(elem: ElementType)
  {
    function Rank(): nat {
      if ScalarType? then 0 else |shape|
    }

    predicate IsStatic() {
      ScalarType? || forall k :: 0 <= k < |shape| ==> shape[k].Static?
    }
  }

  /** The sizes of a shape, a dynamic extent written as -1. */
  function Sizes(shape: seq<Extent>): (r: seq<int>)
    ensures |r| == |shape|
    ensures forall k :: 0 <= k < |shape| ==> r[k] == (if shape[k].Static? then shape[k].size else -1)
  {
    seq(|shape|, k requires 0 <= k < |shape| => if shape[k].Static? then shape[k].size else -1)
  }

  function StaticShape(sizes: seq<int>): (r: seq<Extent>)
    ensures |r| == |sizes| && forall k :: 0 <= k < |sizes| ==> r[k] == Static(sizes[k])
  {
    seq(|sizes|, k requires 0 <= k < |sizes| => Static(sizes[k]))
  }

  /**
   * The shape `tensor.pack` gives its result: an outer dimension is dynamic
   * exactly when the source dimension it counts tiles of is dynamic, and the
   * tile dimensions are static.
   */
  function PackedExtents(shape: seq<Extent>, l: Layout): (r: seq<Extent>)
    requires ValidLayout(l, |shape|)
    ensures |r| == |shape| + |l.tiles|
  {
    var perm := OuterPerm(l, |shape|);
    var sizes := PackedShape(Sizes(shape), l);
    seq(|shape| + |l.tiles|, k requires 0 <= k < |shape| + |l.tiles| =>
      if k < |shape| then (if shape[perm[k]].Static? then Static(sizes[k]) else Dynamic)
      else Static(l.tiles[k - |shape|]))
  }

  /** For a static source, the packed extents are the packed shape. */
  lemma PackedExtentsStatic(shape: seq<Extent>, l: Layout)
    requires ValidLayout(l, |shape|) && forall k :: 0 <= k < |shape| ==> shape[k].Static?
    ensures PackedExtents(shape, l) == StaticShape(PackedShape(Sizes(shape), l))
  {
    var sizes := PackedShape(Sizes(shape), l);
    var rank := |shape|;
    forall k | 0 <= k < |sizes| ensures PackedExtents(shape, l)[k] == Static(sizes[k]) {
      if k >= rank {
        assert sizes[rank..][k - rank] == l.tiles[k - rank];
      }
    }
  }

  /** The tensor type of a packed tensor. */
  function PackedType(t: Type, l: Layout): Type
    requires t.TensorType? && ValidLayout(l, |t.shape|)
  {
    TensorType(PackedExtents(t.shape, l), t.elem)
  }

  /** A value: result `index` of operation `op`, or argument `index` of the function. */
  datatype Value = OpResult(op: OpId, index: nat) | FuncArg(index: nat)

  datatype Attr = StrAttr(s: string) | OpaqueAttr(id: int)

  /** A value inside a body: a block argument, or the result of the body op at that position. */
  datatype BodyValue = BodyArg(index: nat) | BodyResult(position: nat)

  datatype BodyOpName = AddF | MulF | AddI | MulI | MathxRelu | Yield | OtherBodyOp(name: string)

  datatype BodyOp = BodyOp(name: BodyOpName, operands: seq<BodyValue>, resultTypes: seq<ElementType>)

  datatype Block = Block(numArgs: nat, ops: seq<BodyOp>)

  /** The scalar body of a structured op; the patterns only inspect or move it. */
  datatype Region = Region(blocks: seq<Block>)

  const EmptyRegion := Region([])

  datatype OpKind =
    | Matmul
    | BatchMatmul
    | BatchReduceMatmul
    | ConvNhwcHwcf(convStrides: Option<seq<int>>, convDilations: Option<seq<int>>)
    | ConvNchwFchw(convStrides: Option<seq<int>>, convDilations: Option<seq<int>>)
    | Fill
    /** `tensor.empty`, and `linalg.init_tensor` in the older dialect. */
    | Empty
    | Pack(layout: Layout)
    | UnPack(layout: Layout)
    | GenericOp(maps: seq<AffineMap>, iterators: seq<IteratorType>)
    | Relayout(inputMap: AffineMap, outputMap: AffineMap)
    | ExpandShape(reassociation: seq<seq<nat>>)
    | CollapseShape(reassociation: seq<seq<nat>>)
    | ExtractSlice(offsets: seq<int>, sizes: seq<int>, strides: seq<int>)
    | ParallelInsertSlice(offsets: seq<int>, sizes: seq<int>, strides: seq<int>)
    | ForLoop
    | TppZero
    | TppIdentity
    | TppRelu
    | TppAdd
    | TppGemm
    | TppBrgemm
    | OtherOp(name: string)

  /**
   * An operation in destination-passing style: inputs, then inits (the
   * tensors written into), then the types of its results.
   */
  datatype Op = Op(kind: OpKind, inputs: seq<Value>, inits: seq<Value>, results: seq<Type>,
                   attrs: map<string, Attr>, region: Region)

  function Operands(op: Op): seq<Value> {
    op.inputs + op.inits
  }

  /** A function body: its operations and the types of its arguments. */
  datatype Program = Program(ops: map<OpId, Op>, args: seq<Type>)

  function TypeOf(p: Program, v: Value): Option<Type> {
    match v
    case FuncArg(i) => if i < |p.args| then Some(p.args[i]) else None
    case OpResult(id, k) => if id in p.ops && k < |p.ops[id].results| then Some(p.ops[id].results[k]) else None
  }

  /** `getElementTypeOrSelf` of a defined value's type. */
  function ElementTypeOf(p: Program, v: Value): Option<ElementType> {
    if TypeOf(p, v).Some? then Some(TypeOf(p, v).value.elem) else None
  }

  predicate IsDefined(p: Program, v: Value) {
    TypeOf(p, v).Some?
  }

  /** The type of a defined value; a placeholder scalar type for any other. */
  function TypeAt(p: Program, v: Value): Type {
    if TypeOf(p, v).Some? then TypeOf(p, v).value else ScalarType(F32)
  }

  lemma TypeAtDefined(p: Program, v: Value)
    requires IsDefined(p, v)
    ensures TypeOf(p, v) == Some(TypeAt(p, v))
  {
  }

  /** `getDefiningOp`: the operation whose result v is, when there is one. */
  function DefiningOp(p: Program, v: Value): Option<OpId> {
    if v.OpResult? && IsDefined(p, v) then Some(v.op) else None
  }

  /** The operand slots that hold v. */
  function Uses(p: Program, v: Value): set<(OpId, nat)> {
    set id, k | id in p.ops && 0 <= k < |Operands(p.ops[id])| && Operands(p.ops[id])[k] == v :: (id, k)
  }

  predicate HasOneUse(p: Program, v: Value) {
    |Uses(p, v)| == 1
  }

  /** The operations that use v. */
  function Users(p: Program, v: Value): set<OpId> {
    set id | id in p.ops && v in Operands(p.ops[id])
  }

  /** `hasTensorSemantics`: every operand is a tensor or a scalar. */
  predicate HasTensorSemantics(p: Program, op: Op) {
    forall v :: v in Operands(op) ==> TypeOf(p, v).Some? && !TypeOf(p, v).value.MemRefType?
  }

  /** `hasBufferSemantics`: no results, and every operand is a memref or a scalar. */
  predicate HasBufferSemantics(p: Program, op: Op) {
    && |op.results| == 0
    && forall v :: v in Operands(op) ==> TypeOf(p, v).Some? && !TypeOf(p, v).value.TensorType?
  }

  /** `hasDynamicShape`: some operand has a dynamic extent. */
  predicate HasDynamicShape(p: Program, op: Op) {
    !forall v :: v in Operands(op) ==> TypeOf(p, v).Some? ==> TypeOf(p, v).value.IsStatic()
  }

  /** The static shape of operand k, or [] when it is missing or not shaped. */
  function OperandShape(p: Program, op: Op, k: nat): seq<int> {
    if k < |Operands(op)| && TypeOf(p, Operands(op)[k]).Some? && !TypeOf(p, Operands(op)[k]).value.ScalarType?
    then Sizes(TypeOf(p, Operands(op)[k]).value.shape) else []
  }

  /** Every identifier in use is below n, so n, n + 1, ... are free. */
  predicate FreshFrom(p: Program, n: OpId) {
    forall id :: id in p.ops ==> id < n
  }

  /** Every operand of every operation is a defined value: nothing dangles. */
  predicate Closed(p: Program) {
    forall id, v :: id in p.ops && v in Operands(p.ops[id]) ==> IsDefined(p, v)
  }

  // Substitution of values, the effect of redirecting uses.

  function SubstValue(v: Value, sigma: map<Value, Value>): Value {
    if v in sigma then sigma[v] else v
  }

  function SubstValues(vs: seq<Value>, sigma: map<Value, Value>): (r: seq<Value>)
    ensures |r| == |vs| && forall k :: 0 <= k < |vs| ==> r[k] == SubstValue(vs[k], sigma)
  {
    seq(|vs|, k requires 0 <= k < |vs| => SubstValue(vs[k], sigma))
  }

  function SubstOp(op: Op, sigma: map<Value, Value>): Op {
    op.(inputs := SubstValues(op.inputs, sigma), inits := SubstValues(op.inits, sigma))
  }

  /** Results 0 .. |vals| - 1 of root mapped to vals. */
  function ResultMap(root: OpId, vals: seq<Value>): (sigma: map<Value, Value>)
    ensures forall k :: 0 <= k < |vals| ==> OpResult(root, k) in sigma && sigma[OpResult(root, k)] == vals[k]
    ensures forall v :: v in sigma ==> v.OpResult? && v.op == root && v.index < |vals|
  {
    map k | 0 <= k < |vals| :: OpResult(root, k) := vals[k]
  }

  // The graph edits, as functions on programs.

  function AddOp(p: Program, id: OpId, op: Op): Program {
    p.(ops := p.ops[id := op])
  }

  /** `replaceAllUsesWith`: every use of from becomes a use of to. */
  function ReplaceAllUses(p: Program, from: Value, to: Value): Program {
    p.(ops := map id | id in p.ops :: SubstOp(p.ops[id], map[from := to]))
  }

  /** `replaceOp`: the uses of root's results go to vals, and root is erased. */
  function ReplaceOpIn(p: Program, root: OpId, vals: seq<Value>): Program {
    var sigma := ResultMap(root, vals);
    p.(ops := map id | id in p.ops && id != root :: SubstOp(p.ops[id], sigma))
  }

  /** `inlineRegionBefore`: the body of from moves into to. */
  function MoveRegion(p: Program, from: OpId, to: OpId): Program
    requires from in p.ops && to in p.ops && from != to
  {
    var body := p.ops[from].region;
    p.(ops := p.ops[from := p.ops[from].(region := EmptyRegion)][to := p.ops[to].(region := body)])
  }

  function SetAttrIn(p: Program, id: OpId, name: string, a: Attr): Program
    requires id in p.ops
  {
    p.(ops := p.ops[id := p.ops[id].(attrs := p.ops[id].attrs[name := a])])
  }

  /** The results of an op as values. */
  function ResultsOf(id: OpId, n: nat): (r: seq<Value>)
    ensures |r| == n && forall k :: 0 <= k < n ==> r[k] == OpResult(id, k)
  {
    seq(n, k requires 0 <= k < n => OpResult(id, k))
  }

  // Properties of the graph edits.

  /** Adding an op whose operands are defined keeps the graph closed. */
  lemma AddOpClosed(p: Program, id: OpId, op: Op)
    requires Closed(p) && id !in p.ops
    requires forall v :: v in Operands(op) ==> IsDefined(p, v)
    ensures Closed(AddOp(p, id, op))
  {
    var q := AddOp(p, id, op);
    forall j, v | j in q.ops && v in Operands(q.ops[j]) ensures IsDefined(q, v) {
      assert IsDefined(p, v);
    }
  }

  /**
   * After replaceOp the erased op is used nowhere, provided the replacement
   * values are not its own results; every other op is the old one with the
   * uses redirected.
   */
  lemma ReplaceOpErases(p: Program, root: OpId, vals: seq<Value>)
    requires root in p.ops && |vals| == |p.ops[root].results|
    requires forall k :: 0 <= k < |vals| ==> !(vals[k].OpResult? && vals[k].op == root)
    ensures root !in ReplaceOpIn(p, root, vals).ops
    ensures ReplaceOpIn(p, root, vals).ops.Keys == p.ops.Keys - {root}
    ensures forall k :: 0 <= k < |vals| ==> Users(ReplaceOpIn(p, root, vals), OpResult(root, k)) == {}
  {
    var q := ReplaceOpIn(p, root, vals);
    var sigma := ResultMap(root, vals);
    forall k, id | 0 <= k < |vals| && id in q.ops ensures OpResult(root, k) !in Operands(q.ops[id]) {
      var old_op, new_op := p.ops[id], q.ops[id];
      assert new_op == SubstOp(old_op, sigma);
      forall j | 0 <= j < |Operands(new_op)| ensures Operands(new_op)[j] != OpResult(root, k) {
        if j < |old_op.inputs| {
          assert Operands(new_op)[j] == SubstValue(old_op.inputs[j], sigma);
        } else {
          assert Operands(new_op)[j] == SubstValue(old_op.inits[j - |old_op.inputs|], sigma);
        }
      }
    }
  }

  /**
   * replaceOp keeps the graph closed when the replacement values are defined,
   * are not results of the erased op, and there is one for each result.
   */
  lemma ReplaceOpClosed(p: Program, root: OpId, vals: seq<Value>)
    requires Closed(p) && root in p.ops && |vals| == |p.ops[root].results|
    requires forall k :: 0 <= k < |vals| ==> IsDefined(p, vals[k]) && !(vals[k].OpResult? && vals[k].op == root)
    ensures Closed(ReplaceOpIn(p, root, vals))
  {
    var q := ReplaceOpIn(p, root, vals);
    var sigma := ResultMap(root, vals);
    forall id, v | id in q.ops && v in Operands(q.ops[id]) ensures IsDefined(q, v) {
      var j :| 0 <= j < |Operands(q.ops[id])| && Operands(q.ops[id])[j] == v;
      var w := Operands(p.ops[id])[j];
      assert v == SubstValue(w, sigma) by {
        if j >= |p.ops[id].inputs| {
          assert Operands(q.ops[id])[j] == q.ops[id].inits[j - |p.ops[id].inputs|];
        }
      }
      assert w in Operands(p.ops[id]);
      if w in sigma {
        var k := w.index;
        assert v == vals[k];
      }
      assert IsDefined(p, v) && !(v.OpResult? && v.op == root);
      if v.OpResult? {
        assert q.ops[v.op].results == p.ops[v.op].results;
      }
    }
  }

  /** ReplaceOpClosed for an op with a single result. */
  lemma ReplaceOpClosed1(p: Program, root: OpId, v: Value)
    requires Closed(p) && root in p.ops && |p.ops[root].results| == 1
    requires IsDefined(p, v) && !(v.OpResult? && v.op == root)
    ensures Closed(ReplaceOpIn(p, root, [v]))
  {
    ReplaceOpClosed(p, root, [v]);
  }

  /** Moving a body changes no operand and no result type, so the graph stays closed. */
  lemma MoveRegionClosed(p: Program, from: OpId, to: OpId)
    requires Closed(p) && from in p.ops && to in p.ops && from != to
    ensures Closed(MoveRegion(p, from, to))
  {
    var q := MoveRegion(p, from, to);
    forall id, v | id in q.ops && v in Operands(q.ops[id]) ensures IsDefined(q, v) {
      assert Operands(q.ops[id]) == Operands(p.ops[id]);
      if v.OpResult? {
        assert IsDefined(p, v);
        assert q.ops[v.op].results == p.ops[v.op].results;
      }
    }
  }

  /** replaceAllUsesWith keeps the graph closed when the new value is defined. */
  lemma ReplaceAllUsesClosed(p: Program, from: Value, to: Value)
    requires Closed(p) && IsDefined(p, to)
    ensures Closed(ReplaceAllUses(p, from, to))
    ensures Users(ReplaceAllUses(p, from, to), from) == {} || from == to
  {
    var q := ReplaceAllUses(p, from, to);
    var sigma := map[from := to];
    forall id, v | id in q.ops && v in Operands(q.ops[id]) ensures IsDefined(q, v) && (v == from ==> from == to) {
      var j :| 0 <= j < |Operands(q.ops[id])| && Operands(q.ops[id])[j] == v;
      var w := Operands(p.ops[id])[j];
      assert v == SubstValue(w, sigma) by {
        if j >= |p.ops[id].inputs| {
          assert Operands(q.ops[id])[j] == q.ops[id].inits[j - |p.ops[id].inputs|];
        }
      }
      assert w in Operands(p.ops[id]) && IsDefined(p, w);
      assert IsDefined(p, v) by {
        if w == from {
          assert v == to;
        }
      }
      if v.OpResult? {
        assert q.ops[v.op].results == p.ops[v.op].results;
      }
    }
  }

  /** Two versions of an op that differ at most in body and attributes. */
  predicate SameButBody(o1: Op, o2: Op) {
    o1.kind == o2.kind && o1.inputs == o2.inputs && o1.inits == o2.inits && o1.results == o2.results
  }

  /** q still holds every op of p, up to bodies and attributes. */
  predicate KeepsOps(p: Program, q: Program) {
    && q.args == p.args
    && forall id :: id in p.ops ==> id in q.ops && SameButBody(p.ops[id], q.ops[id])
  }

  lemma KeepsOpsTypes(p: Program, q: Program, v: Value)
    requires KeepsOps(p, q) && IsDefined(p, v)
    ensures TypeOf(q, v) == TypeOf(p, v)
  {
  }

  lemma KeepsOpsTrans(p: Program, q: Program, r: Program)
    requires KeepsOps(p, q) && KeepsOps(q, r)
    ensures KeepsOps(p, r)
  {
  }

  lemma AddOpKeeps(p: Program, id: OpId, op: Op)
    requires id !in p.ops
    ensures KeepsOps(p, AddOp(p, id, op))
  {
  }

  lemma MoveRegionKeeps(p: Program, from: OpId, to: OpId)
    requires from in p.ops && to in p.ops && from != to
    ensures KeepsOps(p, MoveRegion(p, from, to))
  {
  }

  /** A value that an op does not use, and that a substitution neither moves nor introduces, stays unused. */
  lemma SubstAvoids(op: Op, sigma: map<Value, Value>, v: Value)
    requires v !in Operands(op) && v !in sigma && forall w :: w in sigma ==> sigma[w] != v
    ensures v !in Operands(SubstOp(op, sigma))
  {
    var r := SubstOp(op, sigma);
    forall j | 0 <= j < |Operands(r)| ensures Operands(r)[j] != v {
      if j < |op.inputs| {
        assert Operands(r)[j] == SubstValue(op.inputs[j], sigma);
        assert op.inputs[j] in Operands(op);
      } else {
        assert Operands(r)[j] == SubstValue(op.inits[j - |op.inputs|], sigma);
        assert op.inits[j - |op.inputs|] in Operands(op);
      }
    }
  }

  // Replacing a single-result op by a newly created one.

  /** The op uses none of its own results. */
  predicate NoSelfUse(op: Op, root: OpId) {
    forall v :: v in Operands(op) ==> !(v.OpResult? && v.op == root)
  }

  /** `replaceOpWithNewOp` with a single-result op created under identifier n. */
  function Replaced(p: Program, root: OpId, op: Op, n: OpId): Program {
    ReplaceOpIn(AddOp(p, n, op), root, [OpResult(n, 0)])
  }

  /** A substitution that touches none of an op's operands leaves the op as it is. */
  lemma SubstUntouched(op: Op, sigma: map<Value, Value>)
    requires forall v :: v in Operands(op) ==> v !in sigma
    ensures SubstOp(op, sigma) == op
  {
    assert SubstValues(op.inputs, sigma) == op.inputs by {
      forall k | 0 <= k < |op.inputs| ensures SubstValues(op.inputs, sigma)[k] == op.inputs[k] {
        assert op.inputs[k] in Operands(op);
      }
    }
    assert SubstValues(op.inits, sigma) == op.inits by {
      forall k | 0 <= k < |op.inits| ensures SubstValues(op.inits, sigma)[k] == op.inits[k] {
        assert Operands(op)[|op.inputs| + k] == op.inits[k];
      }
    }
  }

  /** The substitution of replaceOp for a single-result op. */
  lemma ResultMapSingle(root: OpId, v: Value)
    ensures ResultMap(root, [v]) == map[OpResult(root, 0) := v]
  {
  }

  /**
   * q is p with op under n in place of root: the old op is gone and used
   * nowhere, the new op is in place, and every other op reads the new
   * result where it read the old one.
   */
  predicate ReplacedBy(p: Program, q: Program, root: OpId, op: Op, n: OpId)
    requires |op.results| == 1
  {
    && Closed(q) && FreshFrom(q, n + 1)
    && q.ops.Keys == p.ops.Keys - {root} + {n}
    && q.ops[n] == op && TypeOf(q, OpResult(n, 0)) == Some(op.results[0])
    && Users(q, OpResult(root, 0)) == {}
    && forall id :: id in p.ops && id != root ==>
         q.ops[id] == SubstOp(p.ops[id], map[OpResult(root, 0) := OpResult(n, 0)])
  }

  /**
   * Replacing a single-result op by a new single-result op whose operands
   * are defined and are not results of the replaced op keeps the graph
   * closed and has the effect ReplacedBy describes.
   */
  lemma ReplacedFacts(p: Program, q: Program, root: OpId, op: Op, n: OpId)
    requires Closed(p) && FreshFrom(p, n) && root in p.ops && |p.ops[root].results| == 1
    requires |op.results| == 1
    requires forall v :: v in Operands(op) ==> IsDefined(p, v) && !(v.OpResult? && v.op == root)
    requires q == Replaced(p, root, op, n)
    ensures ReplacedBy(p, q, root, op, n)
  {
    var p1 := AddOp(p, n, op);
    AddOpClosed(p, n, op);
    ReplaceOpClosed1(p1, root, OpResult(n, 0));
    ReplaceOpErases(p1, root, [OpResult(n, 0)]);
    ResultMapSingle(root, OpResult(n, 0));
    SubstUntouched(op, map[OpResult(root, 0) := OpResult(n, 0)]);
  }

  /** The attribute through which a generic op is marked as a TPP micro-kernel. */
  const LibraryCall := "library_call"

  /** `isMarkedWithTpp`: the op's library call is the given name. */
  predicate MarkedWith(op: Op, name: string) {
    LibraryCall in op.attrs && op.attrs[LibraryCall] == StrAttr(name)
  }

  /**
   * The rewriter through which the patterns change the graph. `next` is the
   * identifier the next created operation receives; every identifier in use
   * is below it.
   */
  class Rewriter {
    var ops: map<OpId, Op>
    var next: OpId
    const args: seq<Type>

    function State(): Program
      reads this
    {
      Program(ops, args)
    }

    predicate Valid()
      reads this
    {
      FreshFrom(State(), next)
    }

    constructor (program: Program, firstFree: OpId)
      requires forall id :: id in program.ops ==> id < firstFree
      ensures State() == program && next == firstFree && Valid()
    {
      ops := program.ops;
      args := program.args;
      next := firstFree;
    }

    /** `create`: the op gets the next identifier. */
    method Create(op: Op) returns (id: OpId)
      requires Valid()
      modifies this
      ensures Valid() && id == old(next) && next == old(next) + 1 && id !in old(ops)
      ensures State() == AddOp(old(State()), id, op)
    {
      id := next;
      ops := ops[id := op];
      next := next + 1;
    }

    method ReplaceAllUsesWith(from: Value, to: Value)
      requires Valid()
      modifies this
      ensures Valid() && next == old(next)
      ensures State() == ReplaceAllUses(old(State()), from, to)
    {
      ops := map id | id in ops :: SubstOp(ops[id], map[from := to]);
    }

    /** `replaceOp`: one value for each result of root. */
    method ReplaceOp(root: OpId, vals: seq<Value>)
      requires Valid() && root in ops && |vals| == |ops[root].results|
      modifies this
      ensures Valid() && next == old(next)
      ensures State() == ReplaceOpIn(old(State()), root, vals)
    {
      var sigma := ResultMap(root, vals);
      ops := map id | id in ops && id != root :: SubstOp(ops[id], sigma);
    }

    /** `replaceOpWithNewOp`: create op, then replace root by its results. */
    method ReplaceOpWithNewOp(root: OpId, op: Op) returns (id: OpId)
      requires Valid() && root in ops && |op.results| == |ops[root].results|
      modifies this
      ensures Valid() && id == old(next) && next == old(next) + 1 && id !in old(ops)
      ensures State() == ReplaceOpIn(AddOp(old(State()), id, op), root, ResultsOf(id, |op.results|))
    {
      id := Create(op);
      ReplaceOp(root, ResultsOf(id, |op.results|));
    }

    /** replaceOpWithNewOp for a single-result op: the new op gets the next identifier. */
    method ReplaceWithNew(root: OpId, op: Op) returns (id: OpId)
      requires Valid() && root in ops && |ops[root].results| == 1 && |op.results| == 1
      modifies this
      ensures Valid() && id == old(next) && next == id + 1
      ensures State() == Replaced(old(State()), root, op, id)
    {
      id := ReplaceOpWithNewOp(root, op);
      assert ResultsOf(id, 1) == [OpResult(id, 0)];
    }

    method InlineRegionBefore(from: OpId, to: OpId)
      requires Valid() && from in ops && to in ops && from != to
      modifies this
      ensures Valid() && next == old(next)
      ensures State() == MoveRegion(old(State()), from, to)
    {
      var body := ops[from].region;
      ops := ops[from := ops[from].(region := EmptyRegion)][to := ops[to].(region := body)];
    }

    method SetAttr(id: OpId, name: string, a: Attr)
      requires Valid() && id in ops
      modifies this
      ensures Valid() && next == old(next)
      ensures State() == SetAttrIn(old(State()), id, name, a)
    {
      ops := ops[id := ops[id].(attrs := ops[id].attrs[name := a])];
    }
  }
}
