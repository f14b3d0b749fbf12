/**
 * The meaning of `tensor.pack` and `tensor.unpack`: a layout is a triple of
 * tile sizes, the source dimensions they tile (`innerDimsPos`) and an
 * optional permutation of the outer dimensions (`outerDimsPerm`). Packing
 * splits every tiled dimension d into an outer index o and an inner index i
 * with d = o * tile + i, permutes the outer dimensions and appends the tile
 * dimensions in the order of `innerDimsPos`.
 */
module TensorPack {
  import opened Sums
  import opened Tensors

  datatype Layout = Layout(tiles: seq<int>, innerDimsPos: seq<nat>, outerDimsPerm: seq<nat>)

  /** Position of the first x in s, or |s| when x does not occur. */
  function IndexOf(s: seq<nat>, x: int): (r: nat)
    ensures r <= |s|
    ensures r < |s| ==> s[r] == x
  {
    if |s| == 0 then 0
    else if s[0] == x then 0
    else 1 + IndexOf(s[1..], x)
  }

  /** IndexOf finds the first occurrence, and finds one whenever there is one. */
  lemma {:induction false} IndexOfFirst(s: seq<nat>, x: int)
    ensures forall k :: 0 <= k < IndexOf(s, x) ==> s[k] != x
    ensures IndexOf(s, x) == |s| <==> x !in s
    decreases |s|
  {
    if |s| > 0 && s[0] != x {
      IndexOfFirst(s[1..], x);
      assert s == [s[0]] + s[1..];
    }
  }

  predicate Distinct(s: seq<nat>) {
    forall i, j :: 0 <= i < j < |s| ==> s[i] != s[j]
  }

  predicate IsPermutation(p: seq<nat>) {
    && Distinct(p)
    && (forall i :: 0 <= i < |p| ==> p[i] < |p|)
    && (forall d :: 0 <= d < |p| ==> IndexOf(p, d) < |p|)
  }

  function IdentityPerm(n: nat): (p: seq<nat>)
    ensures |p| == n && forall i :: 0 <= i < n ==> p[i] == i
  {
    seq(n, i requires 0 <= i < n => i)
  }

  /** Permute(p, v)[i] = v[p[i]]: position i of the result holds dimension p[i]. */
  function Permute(p: seq<nat>, v: seq<int>): (r: seq<int>)
    requires forall i :: 0 <= i < |p| ==> p[i] < |v|
    ensures |r| == |p| && forall i :: 0 <= i < |p| ==> r[i] == v[p[i]]
  {
    seq(|p|, i requires 0 <= i < |p| => v[p[i]])
  }

  /** The inverse of Permute: dimension d is read back from the position holding it. */
  function Unpermute(p: seq<nat>, w: seq<int>): (r: seq<int>)
    requires IsPermutation(p) && |w| == |p|
    ensures |r| == |p| && forall d :: 0 <= d < |p| ==> r[d] == w[IndexOf(p, d)]
  {
    seq(|p|, d requires 0 <= d < |p| => w[IndexOf(p, d)])
  }

  lemma PermuteUnpermute(p: seq<nat>, w: seq<int>)
    requires IsPermutation(p) && |w| == |p|
    ensures Permute(p, Unpermute(p, w)) == w
  {
    forall i | 0 <= i < |p| ensures IndexOf(p, p[i]) == i {
      assert p[i] in p;
    }
  }

  lemma UnpermutePermute(p: seq<nat>, v: seq<int>)
    requires IsPermutation(p) && |v| == |p|
    ensures Unpermute(p, Permute(p, v)) == v
  {
  }

  lemma InBoxUnpermute(p: seq<nat>, w: seq<int>, bounds: seq<int>)
    requires IsPermutation(p) && |bounds| == |p| && InBox(w, Permute(p, bounds))
    ensures InBox(Unpermute(p, w), bounds)
  {
    forall d | 0 <= d < |p| ensures 0 <= Unpermute(p, w)[d] < bounds[d] {
      var k := IndexOf(p, d);
      assert p[k] == d;
    }
  }

  lemma InBoxPermute(p: seq<nat>, v: seq<int>, bounds: seq<int>)
    requires IsPermutation(p) && |bounds| == |p| && InBox(v, bounds)
    ensures InBox(Permute(p, v), Permute(p, bounds))
  {
  }

  /** What the `tensor.pack` verifier demands of a layout on a tensor of the given rank. */
  predicate ValidLayout(l: Layout, rank: nat) {
    && |l.tiles| == |l.innerDimsPos|
    && (forall t :: 0 <= t < |l.tiles| ==> l.tiles[t] > 0)
    && (forall t :: 0 <= t < |l.innerDimsPos| ==> l.innerDimsPos[t] < rank)
    && Distinct(l.innerDimsPos)
    && (|l.outerDimsPerm| == 0 || (|l.outerDimsPerm| == rank && IsPermutation(l.outerDimsPerm)))
  }

  /** An empty `outerDimsPerm` leaves the outer dimensions in place. */
  function OuterPerm(l: Layout, rank: nat): (p: seq<nat>)
    requires ValidLayout(l, rank)
    ensures |p| == rank && IsPermutation(p)
  {
    if |l.outerDimsPerm| == 0 then
      var p := IdentityPerm(rank);
      forall d | 0 <= d < rank ensures IndexOf(p, d) < rank {
        assert p[d] == d;
        IndexOfFirst(p, d);
      }
      p
    else l.outerDimsPerm
  }

  function CeilDiv(a: int, b: int): int
    requires b > 0
  {
    (a + b - 1) / b
  }

  /** The tile slot of dimension d; d is tiled exactly when the slot is below |tiles|. */
  function TileOf(l: Layout, d: int): nat {
    IndexOf(l.innerDimsPos, d)
  }

  /** The tile slot of every dimension, for a layout with one tiled dimension. */
  lemma TileOfSingle(l: Layout)
    requires |l.innerDimsPos| == 1
    ensures forall d :: TileOf(l, d) == if l.innerDimsPos[0] == d then 0 else 1
  {
    assert l.innerDimsPos[1..] == [];
  }

  /** The tile slot of every dimension, for a layout with two tiled dimensions. */
  lemma TileOfPair(l: Layout)
    requires |l.innerDimsPos| == 2
    ensures forall d :: TileOf(l, d) == if l.innerDimsPos[0] == d then 0 else if l.innerDimsPos[1] == d then 1 else 2
  {
    var s := l.innerDimsPos;
    assert s[1..] == [s[1]] && s[1..][1..] == [];
    forall d ensures TileOf(l, d) == if s[0] == d then 0 else if s[1] == d then 1 else 2 {
      assert IndexOf(s, d) == if s[0] == d then 0 else 1 + IndexOf(s[1..], d);
    }
  }

  /** Number of tiles along dimension d of a tensor whose size there is n. */
  function OuterSize(l: Layout, d: nat, n: int): int
    requires forall t :: 0 <= t < |l.tiles| ==> l.tiles[t] > 0
  {
    var t := TileOf(l, d);
    if t < |l.tiles| then CeilDiv(n, l.tiles[t]) else n
  }

  function OuterSizes(l: Layout, shape: seq<int>): (r: seq<int>)
    requires ValidLayout(l, |shape|)
    ensures |r| == |shape| && forall d :: 0 <= d < |shape| ==> r[d] == OuterSize(l, d, shape[d])
  {
    seq(|shape|, d requires 0 <= d < |shape| => OuterSize(l, d, shape[d]))
  }

  /** Shape of the packed tensor (the shape rule of `tensor.pack`). */
  function PackedShape(shape: seq<int>, l: Layout): (r: seq<int>)
    requires ValidLayout(l, |shape|)
    ensures |r| == |shape| + |l.tiles|
    ensures r[..|shape|] == Permute(OuterPerm(l, |shape|), OuterSizes(l, shape))
    ensures r[|shape|..] == l.tiles
  {
    Permute(OuterPerm(l, |shape|), OuterSizes(l, shape)) + l.tiles
  }

  /** Outer (tile-number) coordinates of a source index, before the permutation. */
  function SplitOuter(l: Layout, idx: seq<int>): (r: seq<int>)
    requires ValidLayout(l, |idx|)
    ensures |r| == |idx|
    ensures forall d :: 0 <= d < |idx| ==>
      r[d] == (if TileOf(l, d) < |l.tiles| then idx[d] / l.tiles[TileOf(l, d)] else idx[d])
  {
    seq(|idx|, d requires 0 <= d < |idx| =>
      if TileOf(l, d) < |l.tiles| then idx[d] / l.tiles[TileOf(l, d)] else idx[d])
  }

  /** Inner (within-tile) coordinates of a source index, one per tile. */
  function SplitInner(l: Layout, idx: seq<int>): (r: seq<int>)
    requires ValidLayout(l, |idx|)
    ensures |r| == |l.tiles|
    ensures forall t :: 0 <= t < |l.tiles| ==> r[t] == idx[l.innerDimsPos[t]] % l.tiles[t]
  {
    seq(|l.tiles|, t requires 0 <= t < |l.tiles| => idx[l.innerDimsPos[t]] % l.tiles[t])
  }

  /** Source coordinates from outer coordinates (unpermuted) and inner coordinates. */
  function Combine(l: Layout, outer: seq<int>, inner: seq<int>): (r: seq<int>)
    requires ValidLayout(l, |outer|) && |inner| == |l.tiles|
    ensures |r| == |outer|
    ensures forall d :: 0 <= d < |outer| ==>
      r[d] == (if TileOf(l, d) < |l.tiles| then Flat(outer[d], l.tiles[TileOf(l, d)], inner[TileOf(l, d)]) else outer[d])
  {
    seq(|outer|, d requires 0 <= d < |outer| =>
      if TileOf(l, d) < |l.tiles| then Flat(outer[d], l.tiles[TileOf(l, d)], inner[TileOf(l, d)]) else outer[d])
  }

  /** Coordinates of the source element stored at a packed index. */
  function SourceIndex(l: Layout, rank: nat, packed: seq<int>): (r: seq<int>)
    requires ValidLayout(l, rank) && |packed| == rank + |l.tiles|
    ensures |r| == rank
  {
    Combine(l, Unpermute(OuterPerm(l, rank), packed[..rank]), packed[rank..])
  }

  /** The packed index at which a source element is stored. */
  function PackedIndex(l: Layout, idx: seq<int>): (r: seq<int>)
    requires ValidLayout(l, |idx|)
    ensures |r| == |idx| + |l.tiles|
  {
    Permute(OuterPerm(l, |idx|), SplitOuter(l, idx)) + SplitInner(l, idx)
  }

  /**
   * `tensor.pack` without a padding value. The op leaves the positions of a
   * partial tile that fall outside the source undefined; this model reads
   * them as 0.
   */
  function Pack(src: Tensor, l: Layout): (r: Tensor)
    requires ValidLayout(l, |src.shape|)
    ensures r.shape == PackedShape(src.shape, l)
  {
    var rank := |src.shape|;
    Tensor(PackedShape(src.shape, l), p =>
      if |p| == rank + |l.tiles| && InBox(SourceIndex(l, rank, p), src.shape)
      then src.at(SourceIndex(l, rank, p)) else 0)
  }

  lemma PackAt(src: Tensor, l: Layout, p: seq<int>)
    requires ValidLayout(l, |src.shape|) && |p| == |src.shape| + |l.tiles|
    ensures Pack(src, l).at(p) == Get(src, SourceIndex(l, |src.shape|, p))
  {
  }

  /** `tensor.unpack` into a destination of the original shape. */
  function Unpack(packed: Tensor, l: Layout, dest: Tensor): (r: Tensor)
    requires ValidLayout(l, |dest.shape|)
    ensures r.shape == dest.shape
  {
    Tensor(dest.shape, idx => if |idx| == |dest.shape| then packed.at(PackedIndex(l, idx)) else 0)
  }

  /** Distinct inner positions: tile slot t is the slot of the dimension it tiles. */
  lemma TileOfInner(l: Layout, t: nat)
    requires Distinct(l.innerDimsPos) && t < |l.innerDimsPos|
    ensures TileOf(l, l.innerDimsPos[t]) == t
  {
    assert l.innerDimsPos[t] in l.innerDimsPos;
    IndexOfFirst(l.innerDimsPos, l.innerDimsPos[t]);
  }

  lemma CombineSplit(l: Layout, idx: seq<int>)
    requires ValidLayout(l, |idx|)
    ensures Combine(l, SplitOuter(l, idx), SplitInner(l, idx)) == idx
  {
    var c := Combine(l, SplitOuter(l, idx), SplitInner(l, idx));
    forall d | 0 <= d < |idx| ensures c[d] == idx[d] {
      var t := TileOf(l, d);
      if t < |l.tiles| {
        assert l.innerDimsPos[t] == d;
        DivModRecombine(idx[d], l.tiles[t]);
      }
    }
  }

  lemma SplitCombine(l: Layout, outer: seq<int>, inner: seq<int>)
    requires ValidLayout(l, |outer|) && |inner| == |l.tiles|
    requires forall t :: 0 <= t < |l.tiles| ==> 0 <= inner[t] < l.tiles[t]
    ensures SplitOuter(l, Combine(l, outer, inner)) == outer
    ensures SplitInner(l, Combine(l, outer, inner)) == inner
  {
    var c := Combine(l, outer, inner);
    forall d | 0 <= d < |outer| ensures SplitOuter(l, c)[d] == outer[d] {
      var t := TileOf(l, d);
      if t < |l.tiles| {
        DivMod(outer[d], inner[t], l.tiles[t]);
      }
    }
    forall t | 0 <= t < |l.tiles| ensures SplitInner(l, c)[t] == inner[t] {
      var d := l.innerDimsPos[t];
      TileOfInner(l, t);
      DivMod(outer[d], inner[t], l.tiles[t]);
    }
  }

  /** Every source index is recovered from the packed index it is stored at. */
  lemma SourceOfPackedIndex(l: Layout, idx: seq<int>)
    requires ValidLayout(l, |idx|)
    ensures SourceIndex(l, |idx|, PackedIndex(l, idx)) == idx
  {
    var rank := |idx|;
    var p := PackedIndex(l, idx);
    assert p[..rank] == Permute(OuterPerm(l, rank), SplitOuter(l, idx));
    assert p[rank..] == SplitInner(l, idx);
    UnpermutePermute(OuterPerm(l, rank), SplitOuter(l, idx));
    CombineSplit(l, idx);
  }

  /**
   * What a pack holds: every source element sits at its packed index, and
   * every in-bounds packed position that no source element maps to (the
   * overhang of a partial tile) reads 0.
   */
  lemma PackContents(src: Tensor, l: Layout)
    requires ValidLayout(l, |src.shape|)
    ensures forall idx :: InBox(idx, src.shape) ==> Pack(src, l).at(PackedIndex(l, idx)) == src.at(idx)
    ensures forall p ::
      (InBox(p, PackedShape(src.shape, l)) && (forall idx :: InBox(idx, src.shape) ==> PackedIndex(l, idx) != p))
      ==> Pack(src, l).at(p) == 0
  {
    var rank := |src.shape|;
    forall idx | InBox(idx, src.shape) ensures Pack(src, l).at(PackedIndex(l, idx)) == src.at(idx) {
      SourceOfPackedIndex(l, idx);
    }
    forall p | InBox(p, PackedShape(src.shape, l)) && (forall idx :: InBox(idx, src.shape) ==> PackedIndex(l, idx) != p)
      ensures Pack(src, l).at(p) == 0
    {
      PackedOfSourceIndex(l, src.shape, p);
      var q := SourceIndex(l, rank, p);
      assert PackedIndex(l, q) == p;
      assert !InBox(q, src.shape);
    }
  }

  /** Unpacking a packed tensor gives the tensor back, whatever the tile sizes. */
  lemma UnpackPack(src: Tensor, l: Layout)
    requires ValidLayout(l, |src.shape|)
    ensures Equiv(Unpack(Pack(src, l), l, src), src)
  {
    forall idx | InBox(idx, src.shape)
      ensures Unpack(Pack(src, l), l, src).at(idx) == src.at(idx)
    {
      SourceOfPackedIndex(l, idx);
    }
  }

  /** Every tiled dimension is a whole number of tiles. */
  predicate FullTiles(shape: seq<int>, l: Layout)
    requires ValidLayout(l, |shape|)
  {
    forall t :: 0 <= t < |l.tiles| ==> shape[l.innerDimsPos[t]] % l.tiles[t] == 0
  }

  /** With full tiles, every in-bounds packed index holds an in-bounds source element. */
  lemma SourceIndexInBounds(l: Layout, shape: seq<int>, p: seq<int>)
    requires ValidLayout(l, |shape|) && FullTiles(shape, l)
    requires InBox(p, PackedShape(shape, l))
    ensures InBox(SourceIndex(l, |shape|, p), shape)
  {
    var rank := |shape|;
    var perm := OuterPerm(l, rank);
    var sizes := OuterSizes(l, shape);
    assert InBox(p[..rank], Permute(perm, sizes));
    InBoxUnpermute(perm, p[..rank], sizes);
    var outer := Unpermute(perm, p[..rank]);
    var inner := p[rank..];
    var s := Combine(l, outer, inner);
    forall d | 0 <= d < rank ensures 0 <= s[d] < shape[d] {
      var t := TileOf(l, d);
      if t < |l.tiles| {
        assert l.innerDimsPos[t] == d;
        assert 0 <= inner[t] < l.tiles[t];
        assert shape[d] % l.tiles[t] == 0;
        TileBound(outer[d], inner[t], l.tiles[t], shape[d]);
      }
    }
  }

  /** An index within one of the CeilDiv(n, tile) = n / tile whole tiles of a size-n dimension. */
  lemma TileBound(o: int, i: int, tile: int, n: int)
    requires tile > 0 && 0 <= i < tile && n % tile == 0 && 0 <= o < CeilDiv(n, tile)
    ensures 0 <= o * tile + i < n
  {
    DivMod(n / tile, tile - 1, tile);
    assert n == n / tile * tile;
    assert CeilDiv(n, tile) == n / tile;
    assert o + 1 <= n / tile;
    MulMono(o + 1, n / tile, tile);
  }

  /** On a whole number of tiles, rounding up the tile count changes nothing. */
  lemma CeilDivExact(n: int, tile: int)
    requires tile > 0 && n >= 0 && n % tile == 0
    ensures CeilDiv(n, tile) == n / tile
  {
    DivMod(n / tile, tile - 1, tile);
    assert n == n / tile * tile;
  }

  lemma MulMono(x: int, y: int, b: int)
    requires x <= y && b > 0
    ensures x * b <= y * b
  {
    assert y * b == x * b + (y - x) * b;
  }

  /** The packed index of the source element stored at an in-bounds packed index p is p. */
  lemma PackedOfSourceIndex(l: Layout, shape: seq<int>, p: seq<int>)
    requires ValidLayout(l, |shape|)
    requires InBox(p, PackedShape(shape, l))
    ensures PackedIndex(l, SourceIndex(l, |shape|, p)) == p
  {
    var rank := |shape|;
    var perm := OuterPerm(l, rank);
    var outer := Unpermute(perm, p[..rank]);
    var inner := p[rank..];
    assert forall t :: 0 <= t < |l.tiles| ==> 0 <= inner[t] < l.tiles[t];
    var q := SourceIndex(l, rank, p);
    assert q == Combine(l, outer, inner);
    SplitCombine(l, outer, inner);
    PermuteUnpermute(perm, p[..rank]);
    assert PackedIndex(l, q) == Permute(perm, outer) + inner;
    SplitAt(p, rank);
  }

  lemma SplitAt(p: seq<int>, n: nat)
    requires n <= |p|
    ensures p[..n] + p[n..] == p
  {
  }

  /** Floor division and remainder recover the two parts of o * b + i. */
  lemma DivMod(o: int, i: int, b: int)
    requires b > 0 && 0 <= i < b
    ensures (o * b + i) / b == o && (o * b + i) % b == i
  {
    var n := o * b + i;
    var q, r := n / b, n % b;
    assert q * b + r == n;
    assert (q - o) * b == i - r;
    if q > o {
      MulAtLeast(q - o, b);
    } else if q < o {
      assert (o - q) * b == r - i;
      MulAtLeast(o - q, b);
    }
  }

  /** An index is recovered from its tile number and its offset in the tile. */
  lemma DivModRecombine(i: int, b: int)
    requires b > 0
    ensures Flat(i / b, b, i % b) == i
  {
  }

  /** A size that is a whole number of tiles is exactly covered by its tiles. */
  lemma ExactTiles(n: int, b: int)
    requires b > 0 && n >= 0 && n % b == 0
    ensures n / b >= 0 && (n / b) * b == n
  {
    DivModRecombine(n, b);
  }

  lemma MulAtLeast(x: int, b: int)
    requires x >= 1 && b > 0
    ensures x * b >= b
  {
    assert x * b == (x - 1) * b + b;
  }

  /** When every tiled dimension is a whole number of tiles, packing an unpacked tensor gives it back. */
  lemma PackUnpack(packed: Tensor, l: Layout, dest: Tensor)
    requires ValidLayout(l, |dest.shape|) && FullTiles(dest.shape, l)
    requires packed.shape == PackedShape(dest.shape, l)
    ensures Equiv(Pack(Unpack(packed, l, dest), l), packed)
  {
    var rank := |dest.shape|;
    forall p | InBox(p, packed.shape)
      ensures Pack(Unpack(packed, l, dest), l).at(p) == packed.at(p)
    {
      SourceIndexInBounds(l, dest.shape, p);
      PackedOfSourceIndex(l, dest.shape, p);
    }
  }

  /**
   * Without full tiles the round trip loses data: a 3-element vector packed
   * by tiles of 2 has a fourth slot (packed index [1, 1]) with no source
   * element, so it reads 0 whatever the packed tensor held there.
   */
  lemma PackUnpackNeedsFullTiles()
    ensures var l := Layout([2], [0], []);
            var dest := Filled([3], 0);
            var packed := Filled([2, 2], 1);
            && ValidLayout(l, 1) && packed.shape == PackedShape(dest.shape, l)
            && !FullTiles(dest.shape, l)
            && !Equiv(Pack(Unpack(packed, l, dest), l), packed)
  {
    var l := Layout([2], [0], []);
    var dest := Filled([3], 0);
    var packed := Filled([2, 2], 1);
    PartialTileShape(l);
    var u := Unpack(packed, l, dest);
    PartialTileReadsZero(l, u);
    assert InBox([1, 1], packed.shape);
  }

  /** The layout of PackUnpackNeedsFullTiles packs a vector of 3 into [2][2]. */
  lemma PartialTileShape(l: Layout)
    requires l == Layout([2], [0], [])
    ensures ValidLayout(l, 1) && PackedShape([3], l) == [2, 2] && !FullTiles([3], l)
  {
    TileOfSingle(l);
  }

  /** Its fourth slot has no source element: the model's convention reads 0 there. */
  lemma PartialTileReadsZero(l: Layout, u: Tensor)
    requires l == Layout([2], [0], []) && u.shape == [3]
    ensures ValidLayout(l, 1) && Pack(u, l).at([1, 1]) == 0
  {
    assert SourceIndex(l, 1, [1, 1]) == [3] by {
      TileOfSingle(l);
      assert [1, 1][..1] == [1] && [1, 1][1..] == [1];
      assert OuterPerm(l, 1) == [0];
      assert Unpermute([0], [1]) == [1];
    }
    assert !InBox([3], u.shape) by {
      assert !(0 <= [3][0] < u.shape[0]);
    }
    PackAt(u, l, [1, 1]);
  }

}
