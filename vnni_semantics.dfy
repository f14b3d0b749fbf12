/**
 * Meaning of the VNNI repacking of a blocked matmul in
 * lib/TPP/ToBlockLayoutAndBack.cpp. The blocked matmul is the six-loop
 * generic (p1, p2, r1, p3, p4, r2) of the packed matmul, with B laid out
 * [JB][KB][kb][jb]. VNNI packing splits B's kb dimension by the blocking
 * factor v, giving [JB][KB][kb/v][jb][v], and the generic must read element
 * (r2 floordiv v, r2 mod v) of the split dimension where it read r2 before.
 *
 * The generic as written instead binds seven loops (p1, p2, r1, r3, p3, p4,
 * r2), reads B at (p2, r1, r2 floordiv v, p4, r3) and makes r3 a reduction
 * of its own: every A element is multiplied with all v elements of its VNNI
 * group rather than with its own. `VnniMatmulOvercounts` exhibits an input
 * on which the two differ; the corrected six-loop generic reads B at
 * (p2, r1, r2 floordiv v, p4, r2 mod v) and computes the blocked matmul.
 */
module VnniPacking {
  import opened Sums
  import opened Affine
  import opened Tensors
  import opened TensorPack
  import opened TppLayouts
  import opened Contraction
  import opened MatmulPacking

  /** par, par, red, red, par, par, red over (p1, p2, r1, r3, p3, p4, r2). */
  const VnniIterators: seq<IteratorType> :=
    [Parallel, Parallel, Reduction, Reduction, Parallel, Parallel, Reduction]

  /** The generic built by packVNNIMatmulOp, with blocking factor v. */
  function VnniGenericAsWritten(v: int, domain: seq<int>): Generic {
    Generic(domain, VnniIterators,
      Projection(7, [0, 2, 4, 6]),
      VnniMapAsWritten(v),
      Projection(7, [0, 1, 4, 5]))
  }

  /** The intended generic: the blocked matmul's loops, B read at (p2, r1, r2 floordiv v, p4, r2 mod v). */
  function VnniGeneric(v: int, domain: seq<int>): Generic {
    Generic(domain, MatmulIterators(false),
      Projection(6, [0, 2, 3, 5]),
      VnniMap(v),
      Projection(6, [0, 1, 3, 4]))
  }

  /** B's map as written: (p2, r1, r2 floordiv v, p4, r3). */
  function VnniMapAsWritten(v: int): AffineMap {
    AffineMap(7, [Dim(1), Dim(2), FloorDiv(Dim(6), v), Dim(5), Dim(3)])
  }

  /** B's intended map: (p2, r1, r2 floordiv v, p4, r2 mod v). */
  function VnniMap(v: int): AffineMap {
    AffineMap(6, [Dim(1), Dim(2), FloorDiv(Dim(5), v), Dim(4), Mod(Dim(5), v)])
  }

  lemma VnniMapAsWrittenApply(v: int, x: seq<int>)
    requires v > 0 && |x| == 7
    ensures WellFormedMap(VnniMapAsWritten(v))
    ensures Apply(VnniMapAsWritten(v), x) == [x[1], x[2], x[6] / v, x[5], x[3]]
  {
    var rs := VnniMapAsWritten(v).results;
    assert WellFormed(rs[0], 7) && WellFormed(rs[1], 7) && WellFormed(rs[3], 7) && WellFormed(rs[4], 7);
    assert WellFormed(Dim(6), 7);
    assert WellFormed(rs[2], 7);
    var r := Apply(VnniMapAsWritten(v), x);
    assert r[0] == x[1] && r[1] == x[2] && r[3] == x[5] && r[4] == x[3];
    assert r[2] == EvalExpr(Dim(6), x) / v;
  }

  lemma VnniMapApply(v: int, x: seq<int>)
    requires v > 0 && |x| == 6
    ensures WellFormedMap(VnniMap(v))
    ensures Apply(VnniMap(v), x) == [x[1], x[2], x[5] / v, x[4], x[5] % v]
  {
    var rs := VnniMap(v).results;
    assert WellFormed(rs[0], 6) && WellFormed(rs[1], 6) && WellFormed(rs[3], 6);
    assert WellFormed(Dim(5), 6);
    assert WellFormed(rs[2], 6) && WellFormed(rs[4], 6);
    var r := Apply(VnniMap(v), x);
    assert r[0] == x[1] && r[1] == x[2] && r[3] == x[4];
    assert r[2] == EvalExpr(Dim(5), x) / v && r[4] == EvalExpr(Dim(5), x) % v;
  }

  lemma VnniIteratorsCons()
    ensures VnniIterators
         == [Parallel] + ([Parallel] + ([Reduction] + ([Reduction] + ([Parallel] + ([Parallel] + ([Reduction] + []))))))
  {
  }

  lemma VnniPositions()
    ensures Positions(VnniIterators, Parallel, 0) == [0, 1, 4, 5]
  {
    VnniIteratorsCons();
    var t6: seq<IteratorType> := [Reduction] + [];
    var t5 := [Parallel] + t6;
    var t4 := [Parallel] + t5;
    var t3 := [Reduction] + t4;
    var t2 := [Reduction] + t3;
    var t1 := [Parallel] + t2;
    PositionsStep(Reduction, [], 6);
    PositionsStep(Parallel, t6, 5);
    PositionsStep(Parallel, t5, 4);
    PositionsStep(Reduction, t4, 3);
    PositionsStep(Reduction, t3, 2);
    PositionsStep(Parallel, t2, 1);
    PositionsStep(Parallel, t1, 0);
  }

  /** The loop point of the seven-loop generic at parallel (o0, .., o3) and reduction (x, z, y). */
  lemma VnniMerge(o0: int, o1: int, o2: int, o3: int, x: int, z: int, y: int)
    ensures Count(VnniIterators, Parallel) == 4 && Count(VnniIterators, Reduction) == 3
    ensures Merge(VnniIterators, [o0, o1, o2, o3], [x, z, y]) == [o0, o1, x, z, o2, o3, y]
  {
    VnniIteratorsCons();
    var t6: seq<IteratorType> := [Reduction] + [];
    var t5 := [Parallel] + t6;
    var t4 := [Parallel] + t5;
    var t3 := [Reduction] + t4;
    var t2 := [Reduction] + t3;
    var t1 := [Parallel] + t2;
    MergeReduction([], y, [], []);
    MergeParallel(t6, o3, [], [y]);
    MergeParallel(t5, o2, [o3], [y]);
    assert [o2] + [o3] == [o2, o3];
    MergeReduction(t4, z, [o2, o3], [y]);
    assert [z] + [y] == [z, y];
    MergeReduction(t3, x, [o2, o3], [z, y]);
    assert [x] + [z, y] == [x, z, y];
    MergeParallel(t2, o1, [o2, o3], [x, z, y]);
    MergeParallel(t1, o0, [o1, o2, o3], [x, z, y]);
  }

  /** The generic as written is well formed; its reduction loops are (r1, r3, r2). */
  lemma VnniAsWrittenWellFormed(v: int, d7: seq<int>)
    requires v > 0 && |d7| == 7
    ensures WellFormedGeneric(VnniGenericAsWritten(v, d7))
    ensures ReductionBounds(VnniGenericAsWritten(v, d7)) == [d7[2], d7[3], d7[6]]
  {
    VnniPositions();
    ProjectionWellFormed(7, [0, 2, 4, 6]);
    VnniMapAsWrittenApply(v, d7);
  }

  /** The corrected generic is well formed; its reduction loops are (r1, r2). */
  lemma VnniWellFormed(v: int, d6: seq<int>)
    requires v > 0 && |d6| == 6
    ensures WellFormedGeneric(VnniGeneric(v, d6))
    ensures ReductionBounds(VnniGeneric(v, d6)) == [d6[2], d6[5]]
  {
    VnniMapApply(v, d6);
    PlainPositions();
    ProjectionWellFormed(6, [0, 2, 3, 5]);
    PackedMatmulReductionBounds(false, d6);
  }

  /** Where the generic as written reads its operands at one loop point. */
  lemma VnniAsWrittenTerm(v: int, d: seq<int>, a: Tensor, pb: Tensor, o0: int, o1: int, o2: int, o3: int, x: int, z: int, y: int)
    requires v > 0 && |d| == 7
    ensures WellFormedGeneric(VnniGenericAsWritten(v, d))
    ensures Term(VnniGenericAsWritten(v, d), a, pb, [o0, o1, o2, o3], [x, z, y])
         == a.at([o0, x, o2, y]) * pb.at([o1, x, y / v, o3, z])
  {
    VnniAsWrittenWellFormed(v, d);
    var pt := [o0, o1, x, z, o2, o3, y];
    assert Apply(Projection(7, [0, 2, 4, 6]), pt) == [o0, x, o2, y] by {
      ApplyProjection4(7, 0, 2, 4, 6, pt);
    }
    VnniMapAsWrittenApply(v, pt);
    VnniMerge(o0, o1, o2, o3, x, z, y);
  }

  /** Where the corrected generic reads its operands at one loop point. */
  lemma VnniTerm(v: int, d: seq<int>, a: Tensor, pb: Tensor, o0: int, o1: int, o2: int, o3: int, x: int, y: int)
    requires v > 0 && |d| == 6
    ensures WellFormedGeneric(VnniGeneric(v, d))
    ensures Term(VnniGeneric(v, d), a, pb, [o0, o1, o2, o3], [x, y])
         == a.at([o0, x, o2, y]) * pb.at([o1, x, y / v, o3, y % v])
  {
    VnniWellFormed(v, d);
    var pt := [o0, o1, x, o2, o3, y];
    assert Apply(Projection(6, [0, 2, 3, 5]), pt) == [o0, x, o2, y] by {
      ApplyProjection4(6, 0, 2, 3, 5, pt);
    }
    VnniMapApply(v, pt);
    MatmulMerge(0, o0, o1, o2, o3, x, y);
  }

  /**
   * The corrected generic on VNNI-packed B forms, at every loop point inside
   * B, the product the blocked matmul forms on B itself.
   */
  lemma VnniTermIsBlockedTerm(v: int, d: seq<int>, a: Tensor, b: Tensor, o: seq<int>, r: seq<int>)
    requires v > 0 && |d| == 6 && |b.shape| == 4
    requires b.shape == [d[1], d[2], d[5], d[4]]
    requires InBox(o, [d[0], d[1], d[3], d[4]]) && InBox(r, [d[2], d[5]])
    ensures WellFormedGeneric(VnniGeneric(v, d)) && WellFormedGeneric(PackedMatmulGeneric(false, d))
    ensures Term(VnniGeneric(v, d), a, Pack(b, Vnni(v, 4)), o, r) == Term(PackedMatmulGeneric(false, d), a, b, o, r)
  {
    assert InBox([o[1], r[0], r[1], o[3]], b.shape) by {
      assert 0 <= o[1] < d[1] && 0 <= r[0] < d[2] && 0 <= r[1] < d[5] && 0 <= o[3] < d[4];
    }
    assert o == [o[0], o[1], o[2], o[3]] && r == [r[0], r[1]];
    FlatDivMod(r[1], v);
    VnniTerm(v, d, a, Pack(b, Vnni(v, 4)), o[0], o[1], o[2], o[3], r[0], r[1]);
    MatmulTermIndices(d, a, b, o[0], o[1], o[2], o[3], r[0], r[1]);
    VnniRead(b, v, o[1], r[0], r[1] / v, o[3], r[1] % v);
  }

  /**
   * The corrected VNNI generic computes the blocked matmul: on A, the VNNI
   * pack of B and C, it yields what the blocked matmul yields on A, B and C,
   * whenever B has the blocked matmul's shape. No divisibility of kb by the
   * factor is needed: a partial last VNNI group is never read past kb.
   */
  lemma VnniMatmulIsBlockedMatmul(v: int, d: seq<int>, a: Tensor, b: Tensor, c: Tensor)
    requires v > 0 && |d| == 6
    requires b.shape == [d[1], d[2], d[5], d[4]] && c.shape == [d[0], d[1], d[3], d[4]]
    ensures WellFormedGeneric(VnniGeneric(v, d)) && WellFormedGeneric(PackedMatmulGeneric(false, d))
    ensures Equiv(Eval(VnniGeneric(v, d), a, Pack(b, Vnni(v, 4)), c), Eval(PackedMatmulGeneric(false, d), a, b, c))
  {
    var g := VnniGeneric(v, d);
    var h := PackedMatmulGeneric(false, d);
    var pb := Pack(b, Vnni(v, 4));
    VnniWellFormed(v, d);
    PackedMatmulReductionBounds(false, d);
    forall o | InBox(o, c.shape) ensures Eval(g, a, pb, c).at(o) == Eval(h, a, b, c).at(o) {
      VnniPointIsBlocked(v, d, a, b, c, o);
    }
  }

  /** At every point of the output, the two generics yield the same element. */
  lemma VnniPointIsBlocked(v: int, d: seq<int>, a: Tensor, b: Tensor, c: Tensor, o: seq<int>)
    requires v > 0 && |d| == 6 && b.shape == [d[1], d[2], d[5], d[4]] && c.shape == [d[0], d[1], d[3], d[4]]
    requires InBox(o, c.shape)
    requires WellFormedGeneric(VnniGeneric(v, d)) && WellFormedGeneric(PackedMatmulGeneric(false, d))
    requires ReductionBounds(VnniGeneric(v, d)) == [d[2], d[5]] && ReductionBounds(PackedMatmulGeneric(false, d)) == [d[2], d[5]]
    ensures Eval(VnniGeneric(v, d), a, Pack(b, Vnni(v, 4)), c).at(o) == Eval(PackedMatmulGeneric(false, d), a, b, c).at(o)
  {
    VnniReductionIsBlocked(v, d, a, b, o);
  }

  /** At every point of the output, the two generics' reductions agree. */
  lemma VnniReductionIsBlocked(v: int, d: seq<int>, a: Tensor, b: Tensor, o: seq<int>)
    requires v > 0 && |d| == 6 && b.shape == [d[1], d[2], d[5], d[4]]
    requires InBox(o, [d[0], d[1], d[3], d[4]])
    requires WellFormedGeneric(VnniGeneric(v, d)) && WellFormedGeneric(PackedMatmulGeneric(false, d))
    ensures SumBox([d[2], d[5]], r => Term(VnniGeneric(v, d), a, Pack(b, Vnni(v, 4)), o, r))
         == SumBox([d[2], d[5]], r => Term(PackedMatmulGeneric(false, d), a, b, o, r))
  {
    var g := VnniGeneric(v, d);
    var h := PackedMatmulGeneric(false, d);
    var pb := Pack(b, Vnni(v, 4));
    forall r | InBox(r, [d[2], d[5]]) ensures Term(g, a, pb, o, r) == Term(h, a, b, o, r) {
      VnniTermIsBlockedTerm(v, d, a, b, o, r);
    }
    SumBoxExt([d[2], d[5]], r => Term(g, a, pb, o, r), r => Term(h, a, b, o, r));
  }

  /**
   * The generic as written is not the blocked matmul. With factor 2, one
   * block of each size and kb = 2, A = [1, 0] and B = [0, 1] along k (and a
   * zero init): the blocked matmul yields 1 * 0 + 0 * 1 = 0, the generic as
   * written (1 + 0) * (0 + 1) = 1. The operand shapes are the ones both
   * generics expect.
   */
  lemma VnniMatmulOvercounts(a: Tensor, b: Tensor, c: Tensor)
    requires CounterInputs(a, b) && c.shape == [1, 1, 1, 1] && c.at([0, 0, 0, 0]) == 0
    ensures WellFormedGeneric(VnniGenericAsWritten(2, [1, 1, 1, 2, 1, 1, 2]))
    ensures WellFormedGeneric(PackedMatmulGeneric(false, [1, 1, 1, 1, 1, 2]))
    ensures ShapesAgree(VnniGenericAsWritten(2, [1, 1, 1, 2, 1, 1, 2]), a.shape, PackedShape(b.shape, Vnni(2, 4)), c.shape)
    ensures ShapesAgree(PackedMatmulGeneric(false, [1, 1, 1, 1, 1, 2]), a.shape, b.shape, c.shape)
    ensures Eval(VnniGenericAsWritten(2, [1, 1, 1, 2, 1, 1, 2]), a, Pack(b, Vnni(2, 4)), c).at([0, 0, 0, 0]) == 1
    ensures Eval(PackedMatmulGeneric(false, [1, 1, 1, 1, 1, 2]), a, b, c).at([0, 0, 0, 0]) == 0
  {
    var d7 := [1, 1, 1, 2, 1, 1, 2];
    var d6 := [1, 1, 1, 1, 1, 2];
    var g := VnniGenericAsWritten(2, d7);
    var h := PackedMatmulGeneric(false, d6);
    VnniAsWrittenWellFormed(2, d7);
    VnniWellFormed(2, d6);
    CounterShapes(g, h, a.shape, b.shape, c.shape);
    AsWrittenAt(g, a, b, c);
    BlockedAt(h, a, b, c);
  }

  lemma AsWrittenAt(g: Generic, a: Tensor, b: Tensor, c: Tensor)
    requires g == VnniGenericAsWritten(2, [1, 1, 1, 2, 1, 1, 2])
    requires CounterInputs(a, b) && c.at([0, 0, 0, 0]) == 0
    ensures WellFormedGeneric(g) && Eval(g, a, Pack(b, Vnni(2, 4)), c).at([0, 0, 0, 0]) == 1
  {
    VnniAsWrittenWellFormed(2, [1, 1, 1, 2, 1, 1, 2]);
    VnniAsWrittenSum(g, a, b, [0, 0, 0, 0]);
  }

  lemma BlockedAt(h: Generic, a: Tensor, b: Tensor, c: Tensor)
    requires h == PackedMatmulGeneric(false, [1, 1, 1, 1, 1, 2])
    requires CounterInputs(a, b) && c.at([0, 0, 0, 0]) == 0
    ensures WellFormedGeneric(h) && Eval(h, a, b, c).at([0, 0, 0, 0]) == 0
  {
    PackedMatmulReductionBounds(false, [1, 1, 1, 1, 1, 2]);
    BlockedSum(a, b, [0, 0, 0, 0]);
  }

  /** The counterexample's shapes fit both generics. */
  lemma CounterShapes(g: Generic, h: Generic, sa: seq<int>, sb: seq<int>, sc: seq<int>)
    requires g == VnniGenericAsWritten(2, [1, 1, 1, 2, 1, 1, 2]) && h == PackedMatmulGeneric(false, [1, 1, 1, 1, 1, 2])
    requires sa == [1, 1, 1, 2] && sb == [1, 1, 2, 1] && sc == [1, 1, 1, 1]
    ensures ShapesAgree(g, sa, PackedShape(sb, Vnni(2, 4)), sc)
    ensures ShapesAgree(h, sa, sb, sc)
  {
    var d7 := [1, 1, 1, 2, 1, 1, 2];
    var d6 := [1, 1, 1, 1, 1, 2];
    FitsProjection4(7, 0, 2, 4, 6, sa, d7);
    FitsProjection4(7, 0, 1, 4, 5, sc, d7);
    assert FitsMap(g.mapB, PackedShape(sb, Vnni(2, 4)), d7) by {
      VnniShape(sb, 2);
      assert PackedShape(sb, Vnni(2, 4)) == [1, 1, 1, 1, 2];
    }
    FitsProjection4(6, 0, 2, 3, 5, sa, d6);
    FitsProjection4(6, 1, 2, 5, 4, sb, d6);
    FitsProjection4(6, 0, 1, 3, 4, sc, d6);
  }

  /** Concrete inputs meeting CounterInputs exist. */
  lemma CounterInputsExist()
    ensures CounterInputs(Tensor([1, 1, 1, 2], idx => if idx == [0, 0, 0, 0] then 1 else 0),
                          Tensor([1, 1, 2, 1], idx => if idx == [0, 0, 1, 0] then 1 else 0))
  {
    assert [0, 0, 0, 1] != [0, 0, 0, 0] && [0, 0, 0, 0] != [0, 0, 1, 0];
  }

  /** The inputs of the counterexample: A = [1, 0] and B = [0, 1] along k. */
  predicate CounterInputs(a: Tensor, b: Tensor) {
    && a.shape == [1, 1, 1, 2] && a.at([0, 0, 0, 0]) == 1 && a.at([0, 0, 0, 1]) == 0
    && b.shape == [1, 1, 2, 1] && b.at([0, 0, 0, 0]) == 0 && b.at([0, 0, 1, 0]) == 1
  }

  /** The product of the generic as written at (r1, r3, r2) = (0, z, y) in the counterexample: A at y times B at z. */
  lemma VnniAsWrittenProduct(g: Generic, a: Tensor, b: Tensor, z: int, y: int)
    requires g == VnniGenericAsWritten(2, [1, 1, 1, 2, 1, 1, 2]) && CounterInputs(a, b)
    requires 0 <= z < 2 && 0 <= y < 2
    ensures WellFormedGeneric(g)
    ensures Term(g, a, Pack(b, Vnni(2, 4)), [0, 0, 0, 0], [0, z, y]) == a.at([0, 0, 0, y]) * b.at([0, 0, z, 0])
  {
    assert InBox([0, 0, z, 0], b.shape);
    assert y / 2 == 0 && Flat(0, 2, z) == z;
    VnniAsWrittenTerm(2, [1, 1, 1, 2, 1, 1, 2], a, Pack(b, Vnni(2, 4)), 0, 0, 0, 0, 0, z, y);
    VnniRead(b, 2, 0, 0, 0, 0, z);
  }

  lemma SumTwo(f: int -> int)
    ensures Sum(2, f) == f(0) + f(1) && Sum(1, f) == f(0)
  {
  }

  /** Peeling an outer box dimension of size 1 or 2. */
  lemma SumBoxFromSmall(p: seq<int>, rest: seq<int>, f: seq<int> -> int)
    ensures SumBoxFrom(p, [1] + rest, f) == SumBoxFrom(p + [0], rest, f)
    ensures SumBoxFrom(p, [2] + rest, f) == SumBoxFrom(p + [0], rest, f) + SumBoxFrom(p + [1], rest, f)
  {
    assert ([1] + rest)[1..] == rest && ([2] + rest)[1..] == rest;
    SumTwo(i => SumBoxFrom(p + [i], rest, f));
  }

  /** A sum over the box (1, 2, 2) whose term at (0, z, y) is A at y times B at z, on the counterexample's inputs. */
  lemma CounterSum(f: seq<int> -> int, a: Tensor, b: Tensor)
    requires CounterInputs(a, b)
    requires forall z, y :: 0 <= z < 2 && 0 <= y < 2 ==> f([0, z, y]) == a.at([0, 0, 0, y]) * b.at([0, 0, z, 0])
    ensures SumBox([1, 2, 2], f) == 1
  {
    assert [1, 2, 2] == [1] + [2, 2] && [2, 2] == [2] + [2] && [2] == [2] + [];
    SumBoxFromSmall([], [2, 2], f);
    SumBoxFromSmall([0], [2], f);
    SumBoxFromSmall([0, 0], [], f);
    SumBoxFromSmall([0, 1], [], f);
    assert [] + [0] == [0] && [0] + [0] == [0, 0] && [0] + [1] == [0, 1];
    assert [0, 0] + [0] == [0, 0, 0] && [0, 0] + [1] == [0, 0, 1];
    assert [0, 1] + [0] == [0, 1, 0] && [0, 1] + [1] == [0, 1, 1];
  }

  /** The reduction of the generic as written in the counterexample of VnniMatmulOvercounts. */
  lemma VnniAsWrittenSum(g: Generic, a: Tensor, b: Tensor, o: seq<int>)
    requires g == VnniGenericAsWritten(2, [1, 1, 1, 2, 1, 1, 2]) && CounterInputs(a, b)
    requires o == [0, 0, 0, 0]
    ensures WellFormedGeneric(g)
    ensures SumBox([1, 2, 2], r => Term(g, a, Pack(b, Vnni(2, 4)), o, r)) == 1
  {
    VnniAsWrittenWellFormed(2, [1, 1, 1, 2, 1, 1, 2]);
    var pb := Pack(b, Vnni(2, 4));
    forall z, y | 0 <= z < 2 && 0 <= y < 2
      ensures Term(g, a, pb, o, [0, z, y]) == a.at([0, 0, 0, y]) * b.at([0, 0, z, 0])
    {
      VnniAsWrittenProduct(g, a, b, z, y);
    }
    CounterSum(r => Term(g, a, pb, o, r), a, b);
  }

  /** The reduction of the blocked matmul in the counterexample of VnniMatmulOvercounts. */
  lemma BlockedSum(a: Tensor, b: Tensor, o: seq<int>)
    requires CounterInputs(a, b) && o == [0, 0, 0, 0]
    ensures WellFormedGeneric(PackedMatmulGeneric(false, [1, 1, 1, 1, 1, 2]))
    ensures SumBox([1, 2], r => Term(PackedMatmulGeneric(false, [1, 1, 1, 1, 1, 2]), a, b, o, r)) == 0
  {
    var d := [1, 1, 1, 1, 1, 2];
    var h := PackedMatmulGeneric(false, d);
    MatmulTermIndices(d, a, b, 0, 0, 0, 0, 0, 0);
    MatmulTermIndices(d, a, b, 0, 0, 0, 0, 0, 1);
    BoxPairSum(r => Term(h, a, b, o, r));
  }

  /** The sum over the box (1, 2) has two terms. */
  lemma BoxPairSum(f: seq<int> -> int)
    ensures SumBox([1, 2], f) == f([0, 0]) + f([0, 1])
  {
    assert [1, 2] == [1] + [2] && [2] == [2] + [];
    SumBoxFromSmall([], [2], f);
    SumBoxFromSmall([0], [], f);
    assert [] + [0] == [0] && [0] + [0] == [0, 0] && [0] + [1] == [0, 1];
  }
}
