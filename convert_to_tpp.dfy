/**
 * ConvertLinalgToTpp: structured ops on static tensors become TPP ops. A
 * `linalg.generic` that one of the TPP matchers recognises becomes
 * `tpp.zero`, `tpp.identity`, `tpp.relu`, `tpp.add`, or a `tpp.add` feeding a
 * `tpp.relu` (bias plus relu); a batch-reduce matmul becomes `tpp.brgemm`, a
 * matmul `tpp.gemm`, and a fill of a rank-2 tensor with zero `tpp.zero`. Each
 * new op takes the operands it reads and the type of the tensor it writes,
 * and replaces the matched op.
 */
module ConvertToTpp {
  import opened Wrappers
  import opened Ir

  /** The generic shapes the TPP matchers recognise, in the order they are tried. */
  datatype Kernel = ZeroKernel | IdentityKernel | ReluKernel | AddKernel | BiasReluKernel

  /** The position of a kernel in the order of the tries. */
  function Rank(k: Kernel): nat {
    match k
    case ZeroKernel => 0
    case IdentityKernel => 1
    case ReluKernel => 2
    case AddKernel => 3
    case BiasReluKernel => 4
  }

  /**
   * How many operands a matcher binds: the output for zero; input and output
   * for identity and relu; two inputs and the output for add and bias-relu.
   */
  function Arity(k: Kernel): nat {
    match k
    case ZeroKernel => 1
    case IdentityKernel => 2
    case ReluKernel => 2
    case AddKernel => 3
    case BiasReluKernel => 3
  }

  /**
   * The matchers isTppZero, isTppIdentity, isTppRelu, isTppAdd and
   * isTppBiasRelu (TppUtils is not part of this model): for a kernel, the
   * program and a generic op, the operands the matcher binds when it
   * recognises the op.
   */
  type Matcher = (Kernel, Program, Op) -> Option<seq<Value>>

  /**
   * What the rewrite relies on from the matchers: a match binds as many
   * operands as rewriteToTppOp asserts, each an operand of the op, and only
   * an op with a single result is matched.
   */
  predicate MatchersBind(matcher: Matcher, p: Program, op: Op) {
    forall k :: matcher(k, p, op).Some? ==>
      && |matcher(k, p, op).value| == Arity(k)
      && |op.results| == 1
      && forall v :: v in matcher(k, p, op).value ==> v in Operands(op)
  }

  /** A TPP op on tensors: its inputs, no inits, and one result of type t. */
  function TppOp(kind: OpKind, inputs: seq<Value>, t: Type): Op {
    Op(kind, inputs, [], [t], map[], EmptyRegion)
  }

  // ConvertGenericOpToTpp.

  /** A generic op of the graph that uses none of its own results. */
  predicate GenericRoot(p: Program, root: OpId) {
    root in p.ops && p.ops[root].kind.GenericOp? && NoSelfUse(p.ops[root], root)
  }

  /** rewriteToTppOp's choice: the first matcher, in the order of the tries, that recognises the op. */
  function Dispatch(matcher: Matcher, p: Program, op: Op): (r: Outcome<(Kernel, seq<Value>)>)
    ensures r.Success? ==> matcher(r.value.0, p, op) == Some(r.value.1)
  {
    if matcher(ZeroKernel, p, op).Some? then Success((ZeroKernel, matcher(ZeroKernel, p, op).value))
    else if matcher(IdentityKernel, p, op).Some? then Success((IdentityKernel, matcher(IdentityKernel, p, op).value))
    else if matcher(ReluKernel, p, op).Some? then Success((ReluKernel, matcher(ReluKernel, p, op).value))
    else if matcher(AddKernel, p, op).Some? then Success((AddKernel, matcher(AddKernel, p, op).value))
    else if matcher(BiasReluKernel, p, op).Some? then Success((BiasReluKernel, matcher(BiasReluKernel, p, op).value))
    else Failure("failed to match to a known tpp operation")
  }

  /**
   * The op a kernel creates first, with the type t of the bound output:
   * tpp.zero of the output, tpp.identity or tpp.relu of the input, tpp.add
   * of the two inputs (for bias-relu too, whose relu then reads the sum).
   */
  function KernelOp(k: Kernel, vs: seq<Value>, t: Type): (op: Op)
    requires |vs| == Arity(k)
    ensures op.inputs == vs[..if k == AddKernel || k == BiasReluKernel then 2 else 1]
  {
    match k
    case ZeroKernel => TppOp(TppZero, [vs[0]], t)
    case IdentityKernel => TppOp(TppIdentity, [vs[0]], t)
    case ReluKernel => TppOp(TppRelu, [vs[0]], t)
    case AddKernel => TppOp(TppAdd, [vs[0], vs[1]], t)
    case BiasReluKernel => TppOp(TppAdd, [vs[0], vs[1]], t)
  }

  /**
   * The ops a kernel emits in place of the generic, each with the type of
   * the last bound operand (the output): the kernel's op under n; for
   * bias-relu, the add under n and a relu of the sum under n + 1.
   */
  function KernelRewrite(p: Program, root: OpId, k: Kernel, vs: seq<Value>, n: OpId): Program
    requires |vs| == Arity(k)
  {
    var t := TypeAt(p, vs[|vs| - 1]);
    if k == BiasReluKernel then
      Replaced(AddOp(p, n, KernelOp(k, vs, t)), root, TppOp(TppRelu, [OpResult(n, 0)], t), n + 1)
    else Replaced(p, root, KernelOp(k, vs, t), n)
  }

  /** The kind of the op that takes the generic's place. */
  function KernelKind(k: Kernel): OpKind {
    match k
    case ZeroKernel => TppZero
    case IdentityKernel => TppIdentity
    case ReluKernel => TppRelu
    case AddKernel => TppAdd
    case BiasReluKernel => TppRelu
  }

  /** The op the generic's results are redirected to: the relu of a bias-relu, the single new op otherwise. */
  function Top(k: Kernel, n: OpId): OpId {
    if k == BiasReluKernel then n + 1 else n
  }

  /** What a kernel's rewrite must establish about the graph q it produces from p. */
  predicate KernelReplaced(p: Program, q: Program, root: OpId, k: Kernel, vs: seq<Value>, n: OpId)
    requires |vs| == Arity(k)
  {
    && Closed(q) && FreshFrom(q, Top(k, n) + 1)
    && root !in q.ops && Users(q, OpResult(root, 0)) == {}
    && n in q.ops && q.ops[n].inputs == vs[..if k == AddKernel || k == BiasReluKernel then 2 else 1]
    && Top(k, n) in q.ops && q.ops[Top(k, n)].kind == KernelKind(k)
    && TypeOf(q, OpResult(Top(k, n), 0)) == TypeOf(p, vs[|vs| - 1])
    && (k == BiasReluKernel ==> q.ops[n].kind == TppAdd && q.ops[n + 1].inputs == [OpResult(n, 0)])
    && forall id :: id in p.ops && id != root ==>
         id in q.ops && q.ops[id] == SubstOp(p.ops[id], map[OpResult(root, 0) := OpResult(Top(k, n), 0)])
  }

  /** KernelRewriteFacts for the kernels that emit a single op. */
  lemma SingleKernelFacts(p: Program, q: Program, root: OpId, k: Kernel, vs: seq<Value>, n: OpId)
    requires Closed(p) && FreshFrom(p, n) && root in p.ops && |p.ops[root].results| == 1
    requires |vs| == Arity(k) && k != BiasReluKernel
    requires forall v :: v in vs ==> IsDefined(p, v) && !(v.OpResult? && v.op == root)
    requires q == Replaced(p, root, KernelOp(k, vs, TypeAt(p, vs[|vs| - 1])), n)
    ensures KernelReplaced(p, q, root, k, vs, n)
  {
    var op := KernelOp(k, vs, TypeAt(p, vs[|vs| - 1]));
    assert TypeOf(p, vs[|vs| - 1]) == Some(op.results[0]);
    assert forall v :: v in Operands(op) ==> v in vs;
    ReplacedFacts(p, q, root, op, n);
    assert op.kind == KernelKind(k);
  }

  /** The bias-relu facts from the two steps: the add under n, then the relu replacing the generic. */
  lemma BiasReluSteps(p: Program, p1: Program, q: Program, root: OpId, vs: seq<Value>, n: OpId)
    requires FreshFrom(p, n) && |vs| == 3 && IsDefined(p, vs[2])
    requires p1 == AddOp(p, n, TppOp(TppAdd, [vs[0], vs[1]], TypeAt(p, vs[2])))
    requires ReplacedBy(p1, q, root, TppOp(TppRelu, [OpResult(n, 0)], TypeAt(p, vs[2])), n + 1)
    requires root in p.ops && !(vs[0].OpResult? && vs[0].op == root) && !(vs[1].OpResult? && vs[1].op == root)
    ensures KernelReplaced(p, q, root, BiasReluKernel, vs, n)
  {
    var t := TypeAt(p, vs[2]);
    var add := TppOp(TppAdd, [vs[0], vs[1]], t);
    var sigma := map[OpResult(root, 0) := OpResult(n + 1, 0)];
    assert forall v :: v in Operands(add) ==> v == vs[0] || v == vs[1];
    SubstUntouched(add, sigma);
    assert q.ops[n] == add;
    assert vs[..2] == [vs[0], vs[1]];
    forall id | id in p.ops && id != root ensures id in q.ops && q.ops[id] == SubstOp(p.ops[id], sigma) {
      assert id in p1.ops && p1.ops[id] == p.ops[id];
    }
  }

  /** KernelRewriteFacts for bias-relu: the add, then the relu of the sum in the generic's place. */
  lemma BiasReluFacts(p: Program, q: Program, root: OpId, vs: seq<Value>, n: OpId)
    requires Closed(p) && FreshFrom(p, n) && root in p.ops && |p.ops[root].results| == 1
    requires |vs| == 3 && forall v :: v in vs ==> IsDefined(p, v) && !(v.OpResult? && v.op == root)
    requires q == Replaced(AddOp(p, n, TppOp(TppAdd, [vs[0], vs[1]], TypeAt(p, vs[2]))), root,
                           TppOp(TppRelu, [OpResult(n, 0)], TypeAt(p, vs[2])), n + 1)
    ensures KernelReplaced(p, q, root, BiasReluKernel, vs, n)
  {
    var t := TypeAt(p, vs[2]);
    var add := TppOp(TppAdd, [vs[0], vs[1]], t);
    assert forall v :: v in Operands(add) ==> v in vs;
    var p1 := AddOp(p, n, add);
    AddOpClosed(p, n, add);
    assert FreshFrom(p1, n + 1) && p1.ops[root] == p.ops[root];
    assert IsDefined(p1, OpResult(n, 0));
    ReplacedFacts(p1, q, root, TppOp(TppRelu, [OpResult(n, 0)], t), n + 1);
    assert vs[0] in vs && vs[1] in vs && vs[2] in vs;
    BiasReluSteps(p, p1, q, root, vs, n);
  }

  /**
   * A kernel's ops keep the graph closed and erase the generic; the op in
   * its place has the kernel's kind and the type of the bound output, the
   * first op reads the bound inputs (bias-relu: the relu reads the sum), and
   * every other op reads the new result where it read the generic's.
   */
  lemma KernelRewriteFacts(p: Program, root: OpId, k: Kernel, vs: seq<Value>, n: OpId)
    requires Closed(p) && FreshFrom(p, n) && root in p.ops && |p.ops[root].results| == 1
    requires |vs| == Arity(k) && forall v :: v in vs ==> IsDefined(p, v) && !(v.OpResult? && v.op == root)
    ensures KernelReplaced(p, KernelRewrite(p, root, k, vs, n), root, k, vs, n)
  {
    if k == BiasReluKernel {
      BiasReluFacts(p, KernelRewrite(p, root, k, vs, n), root, vs, n);
    } else {
      SingleKernelFacts(p, KernelRewrite(p, root, k, vs, n), root, k, vs, n);
    }
  }

  /** ConvertGenericOpToTpp::matchAndRewrite: the two checks, then the first matching kernel. */
  function GenericRewrite(matcher: Matcher, p: Program, root: OpId, n: OpId): Outcome<Program>
    requires root in p.ops && MatchersBind(matcher, p, p.ops[root])
  {
    var op := p.ops[root];
    if !HasTensorSemantics(p, op) then Failure("Expect tensor type when mapping to tpp")
    else if HasDynamicShape(p, op) then Failure("Expect static shape when mapping to tpp")
    else match Dispatch(matcher, p, op)
      case Failure(e) => Failure(e)
      case Success((k, vs)) => Success(KernelRewrite(p, root, k, vs, n))
  }

  /** The emitting half of rewriteToTppOp: the kernel's ops, the last replacing the generic. */
  method EmitKernel(rw: Rewriter, root: OpId, k: Kernel, vs: seq<Value>) returns (id: OpId)
    requires rw.Valid() && root in rw.ops && |rw.ops[root].results| == 1 && |vs| == Arity(k)
    modifies rw
    ensures rw.Valid() && id == old(rw.next) + (if k == BiasReluKernel then 1 else 0) && rw.next == id + 1
    ensures rw.State() == KernelRewrite(old(rw.State()), root, k, vs, old(rw.next))
  {
    var t := TypeAt(rw.State(), vs[|vs| - 1]);
    if k == BiasReluKernel {
      var add := rw.Create(KernelOp(k, vs, t));
      id := rw.ReplaceWithNew(root, TppOp(TppRelu, [OpResult(add, 0)], t));
    } else {
      id := rw.ReplaceWithNew(root, KernelOp(k, vs, t));
    }
  }

  /**
   * The pattern as the source runs it: the two checks, then the matchers in
   * order; the op created last replaces the generic.
   */
  method ConvertGenericOpToTpp(rw: Rewriter, root: OpId, matcher: Matcher) returns (r: Outcome<OpId>)
    requires rw.Valid() && GenericRoot(rw.State(), root) && MatchersBind(matcher, rw.State(), rw.ops[root])
    modifies rw
    ensures rw.Valid()
    ensures r.Failure? <==> GenericRewrite(matcher, old(rw.State()), root, old(rw.next)).Failure?
    ensures r.Failure? ==> && r.reason == GenericRewrite(matcher, old(rw.State()), root, old(rw.next)).reason
                           && rw.State() == old(rw.State()) && rw.next == old(rw.next)
    ensures r.Success? ==> && rw.State() == GenericRewrite(matcher, old(rw.State()), root, old(rw.next)).value
                           && r.value == rw.next - 1
  {
    var p := rw.State();
    var op := rw.ops[root];
    if !HasTensorSemantics(p, op) {
      return Failure("Expect tensor type when mapping to tpp");
    }
    if HasDynamicShape(p, op) {
      return Failure("Expect static shape when mapping to tpp");
    }
    var matched := Dispatch(matcher, p, op);
    if matched.Failure? {
      return Failure(matched.reason);
    }
    var id := EmitKernel(rw, root, matched.value.0, matched.value.1);
    return Success(id);
  }

  /**
   * The first match wins: kernel k is chosen exactly when its matcher
   * recognises the op and no matcher tried before it does, and the dispatch
   * fails exactly when no matcher recognises the op.
   */
  lemma DispatchFirstMatch(matcher: Matcher, p: Program, op: Op, k: Kernel)
    ensures (Dispatch(matcher, p, op).Success? && Dispatch(matcher, p, op).value.0 == k) <==>
      (matcher(k, p, op).Some? && forall j :: Rank(j) < Rank(k) ==> matcher(j, p, op).None?)
    ensures Dispatch(matcher, p, op).Failure? <==> forall j :: matcher(j, p, op).None?
  {
    if Dispatch(matcher, p, op).Failure? {
      forall j ensures matcher(j, p, op).None? {
        match j
        case ZeroKernel =>
        case IdentityKernel =>
        case ReluKernel =>
        case AddKernel =>
        case BiasReluKernel =>
      }
    }
  }

  /**
   * The rewrite of a generic applies exactly to an op on static tensors that
   * some matcher recognises, and a failure names the first check that fails.
   */
  lemma GenericRewriteApplies(matcher: Matcher, p: Program, root: OpId, n: OpId)
    requires root in p.ops && MatchersBind(matcher, p, p.ops[root])
    ensures GenericRewrite(matcher, p, root, n).Success? <==>
      && HasTensorSemantics(p, p.ops[root]) && !HasDynamicShape(p, p.ops[root])
      && exists k :: matcher(k, p, p.ops[root]).Some?
    ensures GenericRewrite(matcher, p, root, n) == Failure("Expect tensor type when mapping to tpp") <==>
      !HasTensorSemantics(p, p.ops[root])
    ensures GenericRewrite(matcher, p, root, n) == Failure("Expect static shape when mapping to tpp") <==>
      HasTensorSemantics(p, p.ops[root]) && HasDynamicShape(p, p.ops[root])
  {
    var op := p.ops[root];
    DispatchFirstMatch(matcher, p, op, ZeroKernel);
    if exists k :: matcher(k, p, op).Some? {
      assert Dispatch(matcher, p, op).Success?;
    }
  }

  /**
   * A successful rewrite of a generic is the rewrite of the first kernel
   * that matches, with the facts of KernelRewriteFacts.
   */
  lemma GenericRewriteReplaces(matcher: Matcher, p: Program, root: OpId, n: OpId)
    requires Closed(p) && FreshFrom(p, n) && GenericRoot(p, root) && MatchersBind(matcher, p, p.ops[root])
    requires GenericRewrite(matcher, p, root, n).Success?
    ensures Dispatch(matcher, p, p.ops[root]).Success?
    ensures var k := Dispatch(matcher, p, p.ops[root]).value.0;
      var vs := Dispatch(matcher, p, p.ops[root]).value.1;
      && |vs| == Arity(k)
      && GenericRewrite(matcher, p, root, n).value == KernelRewrite(p, root, k, vs, n)
      && KernelReplaced(p, GenericRewrite(matcher, p, root, n).value, root, k, vs, n)
  {
    var op := p.ops[root];
    var k := Dispatch(matcher, p, op).value.0;
    var vs := Dispatch(matcher, p, op).value.1;
    assert forall v :: v in vs ==> v in Operands(op);
    KernelRewriteFacts(p, root, k, vs, n);
  }

  // ConvertBrgemmToTpp and ConvertMatmulToTpp.

  /**
   * A matmul or batch-reduce matmul of the graph: one init, the tensor it
   * accumulates into, a single result on tensors, and no use of its own
   * results.
   */
  predicate ContractionRoot(p: Program, root: OpId) {
    && root in p.ops
    && (p.ops[root].kind.Matmul? || p.ops[root].kind.BatchReduceMatmul?)
    && |p.ops[root].inits| == 1
    && (HasTensorSemantics(p, p.ops[root]) ==> |p.ops[root].results| == 1)
    && NoSelfUse(p.ops[root], root)
  }

  /** tpp.gemm for a matmul, tpp.brgemm for a batch-reduce matmul. */
  function TppContraction(kind: OpKind): OpKind {
    if kind.Matmul? then TppGemm else TppBrgemm
  }

  /**
   * The two contraction patterns: after the checks, the TPP op reads the
   * inputs and then the init, and has the init's type.
   */
  function ContractionRewrite(p: Program, root: OpId, n: OpId): Outcome<Program>
    requires ContractionRoot(p, root)
  {
    var op := p.ops[root];
    if !HasTensorSemantics(p, op) then Failure("Expect tensor type when mapping to tpp")
    else if HasDynamicShape(p, op) then Failure("Expect static shape when mapping to tpp")
    else Success(Replaced(p, root, TppOp(TppContraction(op.kind), op.inputs + [op.inits[0]], TypeAt(p, op.inits[0])), n))
  }

  method ConvertContractionToTpp(rw: Rewriter, root: OpId) returns (r: Outcome<OpId>)
    requires rw.Valid() && ContractionRoot(rw.State(), root)
    modifies rw
    ensures rw.Valid()
    ensures r.Failure? <==> ContractionRewrite(old(rw.State()), root, old(rw.next)).Failure?
    ensures r.Failure? ==> && r.reason == ContractionRewrite(old(rw.State()), root, old(rw.next)).reason
                           && rw.State() == old(rw.State()) && rw.next == old(rw.next)
    ensures r.Success? ==> && rw.State() == ContractionRewrite(old(rw.State()), root, old(rw.next)).value
                           && r.value == old(rw.next)
  {
    var p := rw.State();
    var op := rw.ops[root];
    if !HasTensorSemantics(p, op) {
      return Failure("Expect tensor type when mapping to tpp");
    }
    if HasDynamicShape(p, op) {
      return Failure("Expect static shape when mapping to tpp");
    }
    var inputs := op.inputs + [op.inits[0]];
    var id := rw.ReplaceWithNew(root, TppOp(TppContraction(op.kind), inputs, TypeAt(p, op.inits[0])));
    return Success(id);
  }

  /**
   * A contraction is rewritten exactly when it is on static tensors; then
   * the graph stays closed, the contraction is erased, and the TPP op of its
   * kind reads A, B and C and has the type of C. Every other op reads the
   * new result where it read the contraction's.
   */
  lemma ContractionRewriteFacts(p: Program, root: OpId, n: OpId)
    requires Closed(p) && FreshFrom(p, n) && ContractionRoot(p, root)
    ensures ContractionRewrite(p, root, n).Success? <==>
      HasTensorSemantics(p, p.ops[root]) && !HasDynamicShape(p, p.ops[root])
    ensures ContractionRewrite(p, root, n).Success? ==>
      var q := ContractionRewrite(p, root, n).value;
      var op := p.ops[root];
      && Closed(q) && root !in q.ops && Users(q, OpResult(root, 0)) == {}
      && n in q.ops && q.ops[n].kind == (if op.kind.Matmul? then TppGemm else TppBrgemm)
      && q.ops[n].inputs == Operands(op) && q.ops[n].inits == []
      && TypeOf(q, OpResult(n, 0)) == TypeOf(p, op.inits[0])
      && forall id :: id in p.ops && id != root ==>
           q.ops[id] == SubstOp(p.ops[id], map[OpResult(root, 0) := OpResult(n, 0)])
  {
    var op := p.ops[root];
    if ContractionRewrite(p, root, n).Success? {
      assert op.inits[0] in Operands(op);
      var t := TypeAt(p, op.inits[0]);
      assert Operands(op) == op.inputs + [op.inits[0]];
      ReplacedFacts(p, ContractionRewrite(p, root, n).value, root, TppOp(TppContraction(op.kind), op.inputs + [op.inits[0]], t), n);
    }
  }

  // ConvertFillToTpp.

  /** A fill of the graph: the fill value, the tensor it fills, a single result on tensors. */
  predicate FillRoot(p: Program, root: OpId) {
    && root in p.ops && p.ops[root].kind.Fill?
    && |p.ops[root].inputs| == 1 && |p.ops[root].inits| == 1
    && (HasTensorSemantics(p, p.ops[root]) ==> |p.ops[root].results| == 1)
    && NoSelfUse(p.ops[root], root)
  }

  /**
   * ConvertFillToTpp: after the checks, only a fill with zero of a rank-2
   * output becomes tpp.zero of that output. isZero is isZeroTensor, which is
   * not part of this model.
   */
  function FillRewrite(p: Program, root: OpId, isZero: (Program, Value) -> bool, n: OpId): Outcome<Program>
    requires FillRoot(p, root)
  {
    var op := p.ops[root];
    var output := op.inits[0];
    if !HasTensorSemantics(p, op) then Failure("Expect tensor type when mapping to tpp")
    else if HasDynamicShape(p, op) then Failure("Expect static shape when mapping to tpp")
    else if !isZero(p, op.inputs[0]) then Failure("Unsupported fill type")
    else if TypeAt(p, output).Rank() != 2 then Failure("Expect output rank 2")
    else Success(Replaced(p, root, TppOp(TppZero, [output], TypeAt(p, output)), n))
  }

  method ConvertFillToTpp(rw: Rewriter, root: OpId, isZero: (Program, Value) -> bool) returns (r: Outcome<OpId>)
    requires rw.Valid() && FillRoot(rw.State(), root)
    modifies rw
    ensures rw.Valid()
    ensures r.Failure? <==> FillRewrite(old(rw.State()), root, isZero, old(rw.next)).Failure?
    ensures r.Failure? ==> && r.reason == FillRewrite(old(rw.State()), root, isZero, old(rw.next)).reason
                           && rw.State() == old(rw.State()) && rw.next == old(rw.next)
    ensures r.Success? ==> && rw.State() == FillRewrite(old(rw.State()), root, isZero, old(rw.next)).value
                           && r.value == old(rw.next)
  {
    var p := rw.State();
    var op := rw.ops[root];
    if !HasTensorSemantics(p, op) {
      return Failure("Expect tensor type when mapping to tpp");
    }
    if HasDynamicShape(p, op) {
      return Failure("Expect static shape when mapping to tpp");
    }
    if !isZero(p, op.inputs[0]) {
      return Failure("Unsupported fill type");
    }
    var output := op.inits[0];
    if TypeAt(p, output).Rank() != 2 {
      return Failure("Expect output rank 2");
    }
    var id := rw.ReplaceWithNew(root, TppOp(TppZero, [output], TypeAt(p, output)));
    return Success(id);
  }

  /**
   * A fill is rewritten exactly when it fills a static rank-2 tensor with
   * zero; then the graph stays closed, the fill is erased, and a tpp.zero
   * reads the filled tensor and has its type.
   */
  lemma FillRewriteFacts(p: Program, root: OpId, isZero: (Program, Value) -> bool, n: OpId)
    requires Closed(p) && FreshFrom(p, n) && FillRoot(p, root)
    ensures FillRewrite(p, root, isZero, n).Success? <==>
      && HasTensorSemantics(p, p.ops[root]) && !HasDynamicShape(p, p.ops[root])
      && isZero(p, p.ops[root].inputs[0]) && TypeAt(p, p.ops[root].inits[0]).Rank() == 2
    ensures FillRewrite(p, root, isZero, n).Success? ==>
      var q := FillRewrite(p, root, isZero, n).value;
      var output := p.ops[root].inits[0];
      && Closed(q) && root !in q.ops && Users(q, OpResult(root, 0)) == {}
      && n in q.ops && q.ops[n].kind == TppZero && q.ops[n].inputs == [output]
      && TypeOf(q, OpResult(n, 0)) == TypeOf(p, output) && TypeOf(p, output).value.Rank() == 2
      && forall id :: id in p.ops && id != root ==>
           q.ops[id] == SubstOp(p.ops[id], map[OpResult(root, 0) := OpResult(n, 0)])
  {
    var op := p.ops[root];
    if FillRewrite(p, root, isZero, n).Success? {
      var output := op.inits[0];
      assert output in Operands(op);
      ReplacedFacts(p, FillRewrite(p, root, isZero, n).value, root, TppOp(TppZero, [output], TypeAt(p, output)), n);
    }
  }
}
