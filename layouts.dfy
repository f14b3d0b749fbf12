/**
 * The named packing layouts of lib/TPP/ToBlockLayoutAndBack.cpp. Each is a
 * fixed (tiles, innerDimsPos, outerDimsPerm) triple handed to
 * `tensor.pack`; the lemmas state the packed shape each one produces and
 * which source element each packed position holds.
 */
module TppLayouts {
  import opened Sums
  import opened Tensors
  import opened TensorPack

  predicate PositiveTiles(tiles: seq<int>) {
    forall t :: 0 <= t < |tiles| ==> tiles[t] > 0
  }

  /** NC -> NCnc; for a batch matmul the leading batch dimension is left alone. */
  function NcToNcnc(tiles: seq<int>, batch: bool): (l: Layout)
    ensures |tiles| == 2 && PositiveTiles(tiles) ==> ValidLayout(l, if batch then 3 else 2)
  {
    Layout(tiles, if batch then [1, 2] else [0, 1], [])
  }

  /** KC -> CKkc: both dimensions tiled and the two tile-number dimensions swapped. */
  function KcToCkkc(tiles: seq<int>, batch: bool): (l: Layout)
    ensures |tiles| == 2 && PositiveTiles(tiles) ==> ValidLayout(l, if batch then 3 else 2)
  {
    if batch then Perm021(); Layout(tiles, [1, 2], [0, 2, 1])
    else Perm10(); Layout(tiles, [0, 1], [1, 0])
  }

  /** VNNI: the second-to-last dimension split by the blocking factor. */
  function Vnni(tile: int, rank: nat): (l: Layout)
    requires rank >= 2
    ensures tile > 0 ==> ValidLayout(l, rank)
  {
    Layout([tile], [rank - 2], [])
  }

  /** VNNI for a batch-reduce operand [R][K][N]: dimension 1 split. */
  function BrgemmVnni(tile: int): (l: Layout)
    ensures tile > 0 ==> ValidLayout(l, 3)
  {
    Layout([tile], [1], [])
  }

  /** NCHW -> NCHWc. */
  function NchwToNchwc(tile: int): (l: Layout)
    ensures tile > 0 ==> ValidLayout(l, 4)
  {
    Layout([tile], [1], [])
  }

  /** NPQK -> NKPQk: the channel dimension tiled and its tile number moved second. */
  function NpqkToNkpqk(tile: int): (l: Layout)
    ensures tile > 0 ==> ValidLayout(l, 4)
  {
    Perm0312();
    Layout([tile], [3], [0, 3, 1, 2])
  }

  /** RSCK -> KCRSck. */
  function RsckToKcrsck(tiles: seq<int>): (l: Layout)
    ensures |tiles| == 2 && PositiveTiles(tiles) ==> ValidLayout(l, 4)
  {
    Perm3201();
    Layout(tiles, [2, 3], [3, 2, 0, 1])
  }

  /** KCRS -> KCRSck: the first tile on C, the second on K. */
  function KcrsToKcrsck(tiles: seq<int>): (l: Layout)
    ensures |tiles| == 2 && PositiveTiles(tiles) ==> ValidLayout(l, 4)
  {
    Layout(tiles, [1, 0], [])
  }

  lemma Perm10()
    ensures IsPermutation([1, 0]) && IndexOf([1, 0], 0) == 1 && IndexOf([1, 0], 1) == 0
  {
  }

  lemma Perm021()
    ensures IndexOf([0, 2, 1], 0) == 0 && IndexOf([0, 2, 1], 1) == 2 && IndexOf([0, 2, 1], 2) == 1
    ensures IsPermutation([0, 2, 1])
  {
  }

  lemma Perm0312()
    ensures IndexOf([0, 3, 1, 2], 0) == 0 && IndexOf([0, 3, 1, 2], 1) == 2
    ensures IndexOf([0, 3, 1, 2], 2) == 3 && IndexOf([0, 3, 1, 2], 3) == 1
    ensures IsPermutation([0, 3, 1, 2])
  {
    var p: seq<nat> := [0, 3, 1, 2];
    assert IndexOf(p, 0) == 0;
    assert IndexOf(p, 1) == 2;
    assert IndexOf(p, 2) == 3;
    assert IndexOf(p, 3) == 1;
  }

  lemma Perm3201()
    ensures IndexOf([3, 2, 0, 1], 0) == 2 && IndexOf([3, 2, 0, 1], 1) == 3
    ensures IndexOf([3, 2, 0, 1], 2) == 1 && IndexOf([3, 2, 0, 1], 3) == 0
    ensures IsPermutation([3, 2, 0, 1])
  {
    var p: seq<nat> := [3, 2, 0, 1];
    assert IndexOf(p, 0) == 2;
    assert IndexOf(p, 1) == 3;
    assert IndexOf(p, 2) == 1;
    assert IndexOf(p, 3) == 0;
  }

  /** With no outer permutation the outer coordinates are read back in place. */
  lemma NoPermUnpermute(l: Layout, rank: nat, w: seq<int>)
    requires ValidLayout(l, rank) && |l.outerDimsPerm| == 0 && |w| == rank
    ensures Unpermute(OuterPerm(l, rank), w) == w
  {
    var p := OuterPerm(l, rank);
    forall d | 0 <= d < rank ensures IndexOf(p, d) == d {
      assert p[d] == d;
    }
  }

  /** NC -> NCnc gives [ceil(N/n)][ceil(C/c)][n][c]. */
  lemma NcShape(shape: seq<int>, tn: int, tc: int)
    requires |shape| == 2 && tn > 0 && tc > 0
    ensures PackedShape(shape, NcToNcnc([tn, tc], false))
         == [CeilDiv(shape[0], tn), CeilDiv(shape[1], tc), tn, tc]
  {
    var l := NcToNcnc([tn, tc], false);
    TileOfPair(l);
    assert TileOf(l, 0) == 0 && TileOf(l, 1) == 1;
    assert OuterPerm(l, 2) == [0, 1];
  }

  /** Packed position (o0, o1, i0, i1) of NC -> NCnc holds element (o0 * n + i0, o1 * c + i1). */
  lemma NcSource(tn: int, tc: int, o0: int, o1: int, i0: int, i1: int)
    requires tn > 0 && tc > 0
    ensures SourceIndex(NcToNcnc([tn, tc], false), 2, [o0, o1, i0, i1]) == [Flat(o0, tn, i0), Flat(o1, tc, i1)]
  {
    var l := NcToNcnc([tn, tc], false);
    var p := [o0, o1, i0, i1];
    assert p[..2] == [o0, o1] && p[2..] == [i0, i1];
    NoPermUnpermute(l, 2, [o0, o1]);
    TileOfPair(l);
    assert TileOf(l, 0) == 0 && TileOf(l, 1) == 1;
  }

  /** Element (i, j) is stored at packed position (i / n, j / c, i % n, j % c). */
  lemma NcPackedIndex(tn: int, tc: int, i: int, j: int)
    requires tn > 0 && tc > 0
    ensures PackedIndex(NcToNcnc([tn, tc], false), [i, j]) == [i / tn, j / tc, i % tn, j % tc]
  {
    var l := NcToNcnc([tn, tc], false);
    TileOfPair(l);
    assert TileOf(l, 0) == 0 && TileOf(l, 1) == 1;
    assert OuterPerm(l, 2) == [0, 1];
  }

  /** The batch form gives [B][ceil(N/n)][ceil(C/c)][n][c]. */
  lemma NcBatchShape(shape: seq<int>, tn: int, tc: int)
    requires |shape| == 3 && tn > 0 && tc > 0
    ensures PackedShape(shape, NcToNcnc([tn, tc], true))
         == [shape[0], CeilDiv(shape[1], tn), CeilDiv(shape[2], tc), tn, tc]
  {
    var l := NcToNcnc([tn, tc], true);
    TileOfPair(l);
    assert TileOf(l, 0) == 2 && TileOf(l, 1) == 0 && TileOf(l, 2) == 1;
    assert OuterPerm(l, 3) == [0, 1, 2];
  }

  lemma NcBatchSource(tn: int, tc: int, b: int, o0: int, o1: int, i0: int, i1: int)
    requires tn > 0 && tc > 0
    ensures SourceIndex(NcToNcnc([tn, tc], true), 3, [b, o0, o1, i0, i1]) == [b, Flat(o0, tn, i0), Flat(o1, tc, i1)]
  {
    var l := NcToNcnc([tn, tc], true);
    var p := [b, o0, o1, i0, i1];
    assert p[..3] == [b, o0, o1] && p[3..] == [i0, i1];
    NoPermUnpermute(l, 3, [b, o0, o1]);
    TileOfPair(l);
    assert TileOf(l, 0) == 2 && TileOf(l, 1) == 0 && TileOf(l, 2) == 1;
  }

  lemma NcBatchPackedIndex(tn: int, tc: int, b: int, i: int, j: int)
    requires tn > 0 && tc > 0
    ensures PackedIndex(NcToNcnc([tn, tc], true), [b, i, j]) == [b, i / tn, j / tc, i % tn, j % tc]
  {
    var l := NcToNcnc([tn, tc], true);
    var idx := [b, i, j];
    TileOfPair(l);
    assert TileOf(l, 0) == 2 && TileOf(l, 1) == 0 && TileOf(l, 2) == 1;
    var so := SplitOuter(l, idx);
    assert so == [b, i / tn, j / tc] by {
      assert so[0] == b && so[1] == i / tn && so[2] == j / tc;
    }
    var si := SplitInner(l, idx);
    assert si == [i % tn, j % tc] by {
      assert si[0] == i % tn && si[1] == j % tc;
    }
    assert OuterPerm(l, 3) == [0, 1, 2];
    var pm := Permute([0, 1, 2], so);
    assert pm == so by {
      assert pm[0] == so[0] && pm[1] == so[1] && pm[2] == so[2];
    }
  }

  /** KC -> CKkc gives [ceil(C/c)][ceil(K/k)][k][c]. */
  lemma KcShape(shape: seq<int>, tk: int, tc: int)
    requires |shape| == 2 && tk > 0 && tc > 0
    ensures PackedShape(shape, KcToCkkc([tk, tc], false))
         == [CeilDiv(shape[1], tc), CeilDiv(shape[0], tk), tk, tc]
  {
    var l := KcToCkkc([tk, tc], false);
    TileOfPair(l);
    assert TileOf(l, 0) == 0 && TileOf(l, 1) == 1;
  }

  /** Packed position (o0, o1, i0, i1) of KC -> CKkc holds element (o1 * k + i0, o0 * c + i1). */
  lemma KcSource(tk: int, tc: int, o0: int, o1: int, i0: int, i1: int)
    requires tk > 0 && tc > 0
    ensures SourceIndex(KcToCkkc([tk, tc], false), 2, [o0, o1, i0, i1]) == [Flat(o1, tk, i0), Flat(o0, tc, i1)]
  {
    var l := KcToCkkc([tk, tc], false);
    var p := [o0, o1, i0, i1];
    assert p[..2] == [o0, o1] && p[2..] == [i0, i1];
    Perm10();
    assert Unpermute([1, 0], [o0, o1]) == [o1, o0];
    TileOfPair(l);
    assert TileOf(l, 0) == 0 && TileOf(l, 1) == 1;
  }

  /** The batch form gives [B][ceil(C/c)][ceil(K/k)][k][c]. */
  lemma KcBatchShape(shape: seq<int>, tk: int, tc: int)
    requires |shape| == 3 && tk > 0 && tc > 0
    ensures PackedShape(shape, KcToCkkc([tk, tc], true))
         == [shape[0], CeilDiv(shape[2], tc), CeilDiv(shape[1], tk), tk, tc]
  {
    var l := KcToCkkc([tk, tc], true);
    TileOfPair(l);
    assert TileOf(l, 0) == 2 && TileOf(l, 1) == 0 && TileOf(l, 2) == 1;
  }

  lemma KcBatchSource(tk: int, tc: int, b: int, o0: int, o1: int, i0: int, i1: int)
    requires tk > 0 && tc > 0
    ensures SourceIndex(KcToCkkc([tk, tc], true), 3, [b, o0, o1, i0, i1]) == [b, Flat(o1, tk, i0), Flat(o0, tc, i1)]
  {
    var l := KcToCkkc([tk, tc], true);
    var p := [b, o0, o1, i0, i1];
    assert p[..3] == [b, o0, o1] && p[3..] == [i0, i1];
    Perm021();
    assert Unpermute([0, 2, 1], [b, o0, o1]) == [b, o1, o0];
    TileOfPair(l);
    assert TileOf(l, 0) == 2 && TileOf(l, 1) == 0 && TileOf(l, 2) == 1;
  }

  /**
   * The layout example of packMatmulOp: C 128 x 256 with tiles (32, 16)
   * packs to [4][16][32][16], A 128 x 256 with (32, 8) to [4][32][32][8],
   * and B 256 x 256 with (8, 16) to [16][32][8][16].
   */
  lemma MatmulLayoutExample()
    ensures PackedShape([128, 256], NcToNcnc([32, 16], false)) == [4, 16, 32, 16]
    ensures PackedShape([128, 256], NcToNcnc([32, 8], false)) == [4, 32, 32, 8]
    ensures PackedShape([256, 256], KcToCkkc([8, 16], false)) == [16, 32, 8, 16]
  {
    NcShape([128, 256], 32, 16);
    NcShape([128, 256], 32, 8);
    KcShape([256, 256], 8, 16);
  }

  /** VNNI on a blocked [JB][KB][kb][jb] operand gives [JB][KB][ceil(kb/v)][jb][v]. */
  lemma VnniShape(shape: seq<int>, tile: int)
    requires |shape| == 4 && tile > 0
    ensures PackedShape(shape, Vnni(tile, 4)) == [shape[0], shape[1], CeilDiv(shape[2], tile), shape[3], tile]
  {
    var l := Vnni(tile, 4);
    TileOfSingle(l);
    assert TileOf(l, 0) == 1 && TileOf(l, 1) == 1 && TileOf(l, 2) == 0 && TileOf(l, 3) == 1;
    assert OuterPerm(l, 4) == [0, 1, 2, 3];
  }

  lemma VnniSource(tile: int, a: int, b: int, c: int, d: int, e: int)
    requires tile > 0
    ensures SourceIndex(Vnni(tile, 4), 4, [a, b, c, d, e]) == [a, b, Flat(c, tile, e), d]
  {
    var l := Vnni(tile, 4);
    var p := [a, b, c, d, e];
    assert p[..4] == [a, b, c, d] && p[4..] == [e];
    NoPermUnpermute(l, 4, [a, b, c, d]);
    TileOfSingle(l);
    assert TileOf(l, 0) == 1 && TileOf(l, 1) == 1 && TileOf(l, 2) == 0 && TileOf(l, 3) == 1;
  }

  /** VNNI on a batch-reduce operand [R][K][N] gives [R][ceil(K/v)][N][v]. */
  lemma BrgemmVnniShape(shape: seq<int>, tile: int)
    requires |shape| == 3 && tile > 0
    ensures PackedShape(shape, BrgemmVnni(tile)) == [shape[0], CeilDiv(shape[1], tile), shape[2], tile]
  {
    var l := BrgemmVnni(tile);
    TileOfSingle(l);
    assert TileOf(l, 0) == 1 && TileOf(l, 1) == 0 && TileOf(l, 2) == 1;
    assert OuterPerm(l, 3) == [0, 1, 2];
  }

  lemma BrgemmVnniSource(tile: int, r: int, k: int, n: int, v: int)
    requires tile > 0
    ensures SourceIndex(BrgemmVnni(tile), 3, [r, k, n, v]) == [r, Flat(k, tile, v), n]
  {
    var l := BrgemmVnni(tile);
    var p := [r, k, n, v];
    assert p[..3] == [r, k, n] && p[3..] == [v];
    NoPermUnpermute(l, 3, [r, k, n]);
    TileOfSingle(l);
    assert TileOf(l, 0) == 1 && TileOf(l, 1) == 0 && TileOf(l, 2) == 1;
  }

  /** NCHW -> NCHWc gives [N][ceil(C/c)][H][W][c]. */
  lemma NchwShape(shape: seq<int>, tile: int)
    requires |shape| == 4 && tile > 0
    ensures PackedShape(shape, NchwToNchwc(tile)) == [shape[0], CeilDiv(shape[1], tile), shape[2], shape[3], tile]
  {
    var l := NchwToNchwc(tile);
    TileOfSingle(l);
    assert TileOf(l, 0) == 1 && TileOf(l, 1) == 0 && TileOf(l, 2) == 1 && TileOf(l, 3) == 1;
    assert OuterPerm(l, 4) == [0, 1, 2, 3];
  }

  lemma NchwSource(tile: int, n: int, c: int, h: int, w: int, i: int)
    requires tile > 0
    ensures SourceIndex(NchwToNchwc(tile), 4, [n, c, h, w, i]) == [n, Flat(c, tile, i), h, w]
  {
    var l := NchwToNchwc(tile);
    var p := [n, c, h, w, i];
    assert p[..4] == [n, c, h, w] && p[4..] == [i];
    NoPermUnpermute(l, 4, [n, c, h, w]);
    TileOfSingle(l);
    assert TileOf(l, 0) == 1 && TileOf(l, 1) == 0 && TileOf(l, 2) == 1 && TileOf(l, 3) == 1;
  }

  lemma NchwPackedIndex(tile: int, n: int, c: int, h: int, w: int)
    requires tile > 0
    ensures PackedIndex(NchwToNchwc(tile), [n, c, h, w]) == [n, c / tile, h, w, c % tile]
  {
    var l := NchwToNchwc(tile);
    TileOfSingle(l);
    assert TileOf(l, 0) == 1 && TileOf(l, 1) == 0 && TileOf(l, 2) == 1 && TileOf(l, 3) == 1;
    assert OuterPerm(l, 4) == [0, 1, 2, 3];
  }

  /** NPQK -> NKPQk gives [N][ceil(K/k)][P][Q][k]. */
  lemma NpqkShape(shape: seq<int>, tile: int)
    requires |shape| == 4 && tile > 0
    ensures PackedShape(shape, NpqkToNkpqk(tile)) == [shape[0], CeilDiv(shape[3], tile), shape[1], shape[2], tile]
  {
    var l := NpqkToNkpqk(tile);
    TileOfSingle(l);
    assert TileOf(l, 0) == 1 && TileOf(l, 1) == 1 && TileOf(l, 2) == 1 && TileOf(l, 3) == 0;
  }

  lemma NpqkSource(tile: int, n: int, k: int, p: int, q: int, i: int)
    requires tile > 0
    ensures SourceIndex(NpqkToNkpqk(tile), 4, [n, k, p, q, i]) == [n, p, q, Flat(k, tile, i)]
  {
    var l := NpqkToNkpqk(tile);
    var x := [n, k, p, q, i];
    assert x[..4] == [n, k, p, q] && x[4..] == [i];
    Perm0312();
    assert Unpermute([0, 3, 1, 2], [n, k, p, q]) == [n, p, q, k];
    TileOfSingle(l);
    assert TileOf(l, 0) == 1 && TileOf(l, 1) == 1 && TileOf(l, 2) == 1 && TileOf(l, 3) == 0;
  }

  lemma NpqkPackedIndex(tile: int, n: int, p: int, q: int, k: int)
    requires tile > 0
    ensures PackedIndex(NpqkToNkpqk(tile), [n, p, q, k]) == [n, k / tile, p, q, k % tile]
  {
    var l := NpqkToNkpqk(tile);
    TileOfSingle(l);
    assert TileOf(l, 0) == 1 && TileOf(l, 1) == 1 && TileOf(l, 2) == 1 && TileOf(l, 3) == 0;
  }

  /** RSCK -> KCRSck with tiles (c, k) gives [ceil(K/k)][ceil(C/c)][R][S][c][k]. */
  lemma RsckShape(shape: seq<int>, tc: int, tk: int)
    requires |shape| == 4 && tc > 0 && tk > 0
    ensures PackedShape(shape, RsckToKcrsck([tc, tk]))
         == [CeilDiv(shape[3], tk), CeilDiv(shape[2], tc), shape[0], shape[1], tc, tk]
  {
    var l := RsckToKcrsck([tc, tk]);
    TileOfPair(l);
    assert TileOf(l, 0) == 2 && TileOf(l, 1) == 2 && TileOf(l, 2) == 0 && TileOf(l, 3) == 1;
  }

  lemma RsckSource(tc: int, tk: int, k: int, c: int, r: int, s: int, ic: int, ik: int)
    requires tc > 0 && tk > 0
    ensures SourceIndex(RsckToKcrsck([tc, tk]), 4, [k, c, r, s, ic, ik]) == [r, s, Flat(c, tc, ic), Flat(k, tk, ik)]
  {
    var l := RsckToKcrsck([tc, tk]);
    var x := [k, c, r, s, ic, ik];
    assert x[..4] == [k, c, r, s] && x[4..] == [ic, ik];
    Perm3201();
    var u := Unpermute([3, 2, 0, 1], [k, c, r, s]);
    assert u == [r, s, c, k];
    TileOfPair(l);
    assert TileOf(l, 0) == 2 && TileOf(l, 1) == 2 && TileOf(l, 2) == 0 && TileOf(l, 3) == 1;
    var q := Combine(l, u, [ic, ik]);
    assert SourceIndex(l, 4, x) == q;
    assert q[0] == r && q[1] == s;
    assert q[2] == Flat(c, tc, ic) && q[3] == Flat(k, tk, ik);
    assert q == [r, s, Flat(c, tc, ic), Flat(k, tk, ik)];
  }

  /** KCRS -> KCRSck with tiles (c, k) gives [ceil(K/k)][ceil(C/c)][R][S][c][k]. */
  lemma KcrsShape(shape: seq<int>, tc: int, tk: int)
    requires |shape| == 4 && tc > 0 && tk > 0
    ensures PackedShape(shape, KcrsToKcrsck([tc, tk]))
         == [CeilDiv(shape[0], tk), CeilDiv(shape[1], tc), shape[2], shape[3], tc, tk]
  {
    var l := KcrsToKcrsck([tc, tk]);
    TileOfPair(l);
    assert TileOf(l, 0) == 1 && TileOf(l, 1) == 0 && TileOf(l, 2) == 2 && TileOf(l, 3) == 2;
    assert OuterPerm(l, 4) == [0, 1, 2, 3];
  }

  lemma KcrsSource(tc: int, tk: int, k: int, c: int, r: int, s: int, ic: int, ik: int)
    requires tc > 0 && tk > 0
    ensures SourceIndex(KcrsToKcrsck([tc, tk]), 4, [k, c, r, s, ic, ik]) == [Flat(k, tk, ik), Flat(c, tc, ic), r, s]
  {
    var l := KcrsToKcrsck([tc, tk]);
    var x := [k, c, r, s, ic, ik];
    assert x[..4] == [k, c, r, s] && x[4..] == [ic, ik];
    NoPermUnpermute(l, 4, [k, c, r, s]);
    TileOfPair(l);
    assert TileOf(l, 0) == 1 && TileOf(l, 1) == 0 && TileOf(l, 2) == 2 && TileOf(l, 3) == 2;
  }

  lemma NcRead(t: Tensor, tn: int, tc: int, o0: int, o1: int, i0: int, i1: int)
    requires tn > 0 && tc > 0 && |t.shape| == 2
    ensures Pack(t, NcToNcnc([tn, tc], false)).at([o0, o1, i0, i1]) == Get(t, [Flat(o0, tn, i0), Flat(o1, tc, i1)])
  {
    NcSource(tn, tc, o0, o1, i0, i1);
    PackAt(t, NcToNcnc([tn, tc], false), [o0, o1, i0, i1]);
  }

  lemma NcBatchRead(t: Tensor, tn: int, tc: int, b: int, o0: int, o1: int, i0: int, i1: int)
    requires tn > 0 && tc > 0 && |t.shape| == 3
    ensures Pack(t, NcToNcnc([tn, tc], true)).at([b, o0, o1, i0, i1]) == Get(t, [b, Flat(o0, tn, i0), Flat(o1, tc, i1)])
  {
    NcBatchSource(tn, tc, b, o0, o1, i0, i1);
    PackAt(t, NcToNcnc([tn, tc], true), [b, o0, o1, i0, i1]);
  }

  lemma KcRead(t: Tensor, tk: int, tc: int, o0: int, o1: int, i0: int, i1: int)
    requires tk > 0 && tc > 0 && |t.shape| == 2
    ensures Pack(t, KcToCkkc([tk, tc], false)).at([o0, o1, i0, i1]) == Get(t, [Flat(o1, tk, i0), Flat(o0, tc, i1)])
  {
    KcSource(tk, tc, o0, o1, i0, i1);
    PackAt(t, KcToCkkc([tk, tc], false), [o0, o1, i0, i1]);
  }

  lemma KcBatchRead(t: Tensor, tk: int, tc: int, b: int, o0: int, o1: int, i0: int, i1: int)
    requires tk > 0 && tc > 0 && |t.shape| == 3
    ensures Pack(t, KcToCkkc([tk, tc], true)).at([b, o0, o1, i0, i1]) == Get(t, [b, Flat(o1, tk, i0), Flat(o0, tc, i1)])
  {
    KcBatchSource(tk, tc, b, o0, o1, i0, i1);
    PackAt(t, KcToCkkc([tk, tc], true), [b, o0, o1, i0, i1]);
  }

  lemma VnniRead(t: Tensor, tile: int, a: int, b: int, c: int, d: int, e: int)
    requires tile > 0 && |t.shape| == 4
    ensures Pack(t, Vnni(tile, 4)).at([a, b, c, d, e]) == Get(t, [a, b, Flat(c, tile, e), d])
  {
    VnniSource(tile, a, b, c, d, e);
    PackAt(t, Vnni(tile, 4), [a, b, c, d, e]);
  }

  lemma BrgemmVnniRead(t: Tensor, tile: int, r: int, k: int, n: int, v: int)
    requires tile > 0 && |t.shape| == 3
    ensures Pack(t, BrgemmVnni(tile)).at([r, k, n, v]) == Get(t, [r, Flat(k, tile, v), n])
  {
    BrgemmVnniSource(tile, r, k, n, v);
    PackAt(t, BrgemmVnni(tile), [r, k, n, v]);
  }

  lemma NchwRead(t: Tensor, tile: int, n: int, c: int, h: int, w: int, i: int)
    requires tile > 0 && |t.shape| == 4
    ensures Pack(t, NchwToNchwc(tile)).at([n, c, h, w, i]) == Get(t, [n, Flat(c, tile, i), h, w])
  {
    NchwSource(tile, n, c, h, w, i);
    PackAt(t, NchwToNchwc(tile), [n, c, h, w, i]);
  }

  lemma NpqkRead(t: Tensor, tile: int, n: int, k: int, p: int, q: int, i: int)
    requires tile > 0 && |t.shape| == 4
    ensures Pack(t, NpqkToNkpqk(tile)).at([n, k, p, q, i]) == Get(t, [n, p, q, Flat(k, tile, i)])
  {
    NpqkSource(tile, n, k, p, q, i);
    PackAt(t, NpqkToNkpqk(tile), [n, k, p, q, i]);
  }

  lemma RsckRead(t: Tensor, tc: int, tk: int, k: int, c: int, r: int, s: int, ic: int, ik: int)
    requires tc > 0 && tk > 0 && |t.shape| == 4
    ensures Pack(t, RsckToKcrsck([tc, tk])).at([k, c, r, s, ic, ik]) == Get(t, [r, s, Flat(c, tc, ic), Flat(k, tk, ik)])
  {
    RsckSource(tc, tk, k, c, r, s, ic, ik);
    PackAt(t, RsckToKcrsck([tc, tk]), [k, c, r, s, ic, ik]);
  }

  lemma KcrsRead(t: Tensor, tc: int, tk: int, k: int, c: int, r: int, s: int, ic: int, ik: int)
    requires tc > 0 && tk > 0 && |t.shape| == 4
    ensures Pack(t, KcrsToKcrsck([tc, tk])).at([k, c, r, s, ic, ik]) == Get(t, [Flat(k, tk, ik), Flat(c, tc, ic), r, s])
  {
    KcrsSource(tc, tk, k, c, r, s, ic, ik);
    PackAt(t, KcrsToKcrsck([tc, tk]), [k, c, r, s, ic, ik]);
  }

  /** Reading a matrix back through its own NC -> NCnc packing gives the matrix. */
  lemma NcReadBack(c: Tensor, ti: int, tj: int, i: int, j: int)
    requires ti > 0 && tj > 0 && |c.shape| == 2 && InBox([i, j], c.shape)
    ensures Pack(c, NcToNcnc([ti, tj], false)).at([i / ti, j / tj, i % ti, j % tj]) == c.at([i, j])
  {
    DivModRecombine(i, ti);
    DivModRecombine(j, tj);
    assert [Flat(i / ti, ti, i % ti), Flat(j / tj, tj, j % tj)] == [i, j];
    NcRead(c, ti, tj, i / ti, j / tj, i % ti, j % tj);
  }

  lemma NcBatchReadBack(c: Tensor, ti: int, tj: int, s: int, i: int, j: int)
    requires ti > 0 && tj > 0 && |c.shape| == 3 && InBox([s, i, j], c.shape)
    ensures Pack(c, NcToNcnc([ti, tj], true)).at([s, i / ti, j / tj, i % ti, j % tj]) == c.at([s, i, j])
  {
    DivModRecombine(i, ti);
    DivModRecombine(j, tj);
    assert [s, Flat(i / ti, ti, i % ti), Flat(j / tj, tj, j % tj)] == [s, i, j];
    NcBatchRead(c, ti, tj, s, i / ti, j / tj, i % ti, j % tj);
  }

  /** Reading an NPQK output back through its NPQK -> NKPQk packing gives the output. */
  lemma NpqkReadBack(c: Tensor, tile: int, n: int, p: int, q: int, k: int)
    requires tile > 0 && |c.shape| == 4 && InBox([n, p, q, k], c.shape)
    ensures Pack(c, NpqkToNkpqk(tile)).at([n, k / tile, p, q, k % tile]) == c.at([n, p, q, k])
  {
    DivModRecombine(k, tile);
    assert [n, p, q, Flat(k / tile, tile, k % tile)] == [n, p, q, k];
    NpqkRead(c, tile, n, k / tile, p, q, k % tile);
  }

  /** Reading an NCHW output back through its NCHW -> NCHWc packing gives the output. */
  lemma NchwReadBack(c: Tensor, tile: int, n: int, k: int, p: int, q: int)
    requires tile > 0 && |c.shape| == 4 && InBox([n, k, p, q], c.shape)
    ensures Pack(c, NchwToNchwc(tile)).at([n, k / tile, p, q, k % tile]) == c.at([n, k, p, q])
  {
    DivModRecombine(k, tile);
    assert [n, Flat(k / tile, tile, k % tile), p, q] == [n, k, p, q];
    NchwRead(c, tile, n, k / tile, p, q, k % tile);
  }
}
